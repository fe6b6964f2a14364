/**
 * The PowerPoint table generators: create a table on a slide, and read,
 * write, format a cell of, or delete a table shape found by id.
 */
module PptTableCodegen {
  import opened Wrappers
  import Str
  import Json
  import Codegen
  import P = PptSchemas
  import Slide = PptSlideCodegen

  // ---------------------------------------------------------------------
  // Create
  // ---------------------------------------------------------------------

  /** `width || 600`, `height || 300`: a missing or zero size takes the default. */
  function TableSize(p: P.Position): (r: (int, int))
    ensures r.0 == (if Codegen.HasNumber(p.width) then p.width.value else 600)
    ensures r.1 == (if Codegen.HasNumber(p.height) then p.height.value else 300)
  {
    (if Codegen.HasNumber(p.width) then p.width.value else 600,
     if Codegen.HasNumber(p.height) then p.height.value else 300)
  }

  /** `values: <data>` */
  function Values(data: seq<seq<Json.Json>>): string
  {
    "values: " + Codegen.Matrix(data)
  }

  /** The data slot of the options literal: a comma and the values when data is given, else a blank line. */
  function ValuesLines(data: Option<seq<seq<Json.Json>>>): (r: seq<string>)
    ensures |r| == if data.Some? then 2 else 1
  {
    match data
    case None => ["    "]
    case Some(d) => ["    ,", "    " + (Values(d))]
  }

  /** `slide.shapes.addTable(<rows>, <columns>, {` */
  function AddTable(rows: int, columns: int): string
  {
    "slide.shapes.addTable(" + Codegen.Num(rows) + ", " + Codegen.Num(columns) + ", {"
  }

  function CreateHead(slideIndex: int, rows: int, columns: int, position: P.Position): (r: seq<string>)
    ensures |r| == 8
  {
    [ Slide.SlideAt(slideIndex),
      "  ",
      "  // 创建表格",
      "  const table = " + AddTable(rows, columns),
      "    left: " + Codegen.Num(position.left) + ",",
      "    top: " + Codegen.Num(position.top) + ",",
      "    " + ("width: " + Codegen.Num(TableSize(position).0)) + ",",
      "    " + ("height: " + Codegen.Num(TableSize(position).1)) ]
  }

  const CreateFoot: seq<string> := [
    "  });",
    "  ",
    "  table.load(\"id\");",
    "  await context.sync();",
    "  ",
    "  return {",
    "    tableId: table.id,",
    "    success: true",
    "  };",
    "});" ]

  function CreateSteps(slideIndex: int, rows: int, columns: int, position: P.Position, data: Option<seq<seq<Json.Json>>>): seq<string>
  {
    CreateHead(slideIndex, rows, columns, position) + (ValuesLines(data) + CreateFoot)
  }

  /** `generateCreateCode`; the style is accepted and not used. */
  function CreateCode(slideIndex: int, rows: int, columns: int, position: P.Position, data: Option<seq<seq<Json.Json>>>, style: Option<P.TableStyle>): string
  {
    Codegen.Code(Slide.Checked(slideIndex) + CreateSteps(slideIndex, rows, columns, position, data))
  }

  /**
   * The table is created with its size at the position, 600 by 300 unless
   * a non-zero width or height is given; the values are passed exactly when
   * data is given.
   */
  lemma CreateSized(slideIndex: int, rows: int, columns: int, position: P.Position, data: Option<seq<seq<Json.Json>>>, style: Option<P.TableStyle>)
    ensures Str.Contains(CreateCode(slideIndex, rows, columns, position, data, style), Codegen.BoundsTest(slideIndex, "slides.items.length"))
    ensures Str.Contains(CreateCode(slideIndex, rows, columns, position, data, style), AddTable(rows, columns))
    ensures Str.Contains(CreateCode(slideIndex, rows, columns, position, data, style), "width: " + Codegen.Num(TableSize(position).0))
    ensures Str.Contains(CreateCode(slideIndex, rows, columns, position, data, style), "height: " + Codegen.Num(TableSize(position).1))
    ensures data.Some? ==> Str.Contains(CreateCode(slideIndex, rows, columns, position, data, style), Values(data.value))
    ensures data.None? <==> |CreateSteps(slideIndex, rows, columns, position, data)| == 19
  {
    var steps := CreateSteps(slideIndex, rows, columns, position, data);
    var head := CreateHead(slideIndex, rows, columns, position);
    var lines := Slide.Checked(slideIndex) + steps;
    Slide.IndexChecked(slideIndex, steps);
    assert lines[15] == head[3] && lines[18] == head[6] && lines[19] == head[7];
    Codegen.HasTail(lines, 15, "  const table = ", AddTable(rows, columns));
    Codegen.HasLine(lines, 18, "    ", "width: " + Codegen.Num(TableSize(position).0), ",");
    Codegen.HasTail(lines, 19, "    ", "height: " + Codegen.Num(TableSize(position).1));
    if data.Some? {
      assert lines[21] == ValuesLines(data)[1];
      Codegen.HasTail(lines, 21, "    ", Values(data.value));
    }
  }

  /** The style never changes the script. */
  lemma CreateIgnoresStyle(slideIndex: int, rows: int, columns: int, position: P.Position, data: Option<seq<seq<Json.Json>>>, style: Option<P.TableStyle>)
    ensures CreateCode(slideIndex, rows, columns, position, data, style) == CreateCode(slideIndex, rows, columns, position, data, None)
  {
  }

  // ---------------------------------------------------------------------
  // Read, write, format a cell, delete
  // ---------------------------------------------------------------------

  /** `slide.shapes.getItem("<tableId>")` */
  function ShapeLookup(tableId: string): string
  {
    "slide.shapes.getItem(\"" + tableId + "\")"
  }

  /** The slide and the shape, lines 12 and 13 of every by-id template. */
  function Found(slideIndex: int, tableId: string): (r: seq<string>)
    ensures |r| == 2
  {
    [Slide.SlideAt(slideIndex), "  const shape = " + (ShapeLookup(tableId)) + ";"]
  }

  /** Every by-id template checks the slide index and then looks the shape up on that slide. */
  lemma TableFound(slideIndex: int, tableId: string, rest: seq<string>)
    ensures Str.Contains(Codegen.Code(Slide.Checked(slideIndex) + (Found(slideIndex, tableId) + rest)), Codegen.BoundsTest(slideIndex, "slides.items.length"))
    ensures Str.Contains(Codegen.Code(Slide.Checked(slideIndex) + (Found(slideIndex, tableId) + rest)), ShapeLookup(tableId))
  {
    var lines := Slide.Checked(slideIndex) + (Found(slideIndex, tableId) + rest);
    Slide.IndexChecked(slideIndex, Found(slideIndex, tableId) + rest);
    assert lines[13] == Found(slideIndex, tableId)[1];
    Codegen.HasLine(lines, 13, "  const shape = ", ShapeLookup(tableId), ";");
  }

  const SuccessFoot: seq<string> := [
    "  ",
    "  await context.sync();",
    "  ",
    "  return {",
    "    success: true",
    "  };",
    "});" ]

  const TypeTest := "if (shape.type !== PowerPoint.ShapeType.table) {"
  const NotTable := "error: \"指定的形状不是表格\""

  const ReadCheck: seq<string> := [
    "  ",
    "  // 检查是否为表格",
    "  shape.load(\"type\");",
    "  await context.sync();",
    "  ",
    "  " + (TypeTest),
    "    return {",
    "      success: false,",
    "      " + (NotTable),
    "    };",
    "  }" ]

  const ReadBody: seq<string> := [
    "  ",
    "  const table = shape.table;",
    "  table.load(\"rows, columns\");",
    "  await context.sync();",
    "  ",
    "  // 读取所有单元格数据",
    "  const data = [];",
    "  for (let i = 0; i < table.rows.items.length; i++) {",
    "    const rowData = [];",
    "    for (let j = 0; j < table.columns.items.length; j++) {",
    "      const cell = table.getCell(i, j);",
    "      cell.load(\"textFrame\");",
    "      await context.sync();",
    "      rowData.push(cell.textFrame.textRange.text);",
    "    }",
    "    data.push(rowData);",
    "  }",
    "  ",
    "  return {",
    "    data: data,",
    "    rows: table.rows.items.length,",
    "    columns: table.columns.items.length",
    "  };",
    "});" ]

  /** `generateReadCode`: checks the slide index, looks the shape up and refuses a shape that is not a table. */
  function ReadCode(slideIndex: int, tableId: string): (r: string)
    ensures Str.Contains(r, Codegen.BoundsTest(slideIndex, "slides.items.length"))
    ensures Str.Contains(r, ShapeLookup(tableId))
    ensures Str.Contains(r, TypeTest) && Str.Contains(r, NotTable)
  {
    var rest := ReadCheck + ReadBody;
    var lines := Slide.Checked(slideIndex) + (Found(slideIndex, tableId) + rest);
    TableFound(slideIndex, tableId, rest);
    assert lines[19] == ReadCheck[5] && lines[22] == ReadCheck[8];
    Codegen.HasTail(lines, 19, "  ", TypeTest);
    Codegen.HasTail(lines, 22, "      ", NotTable);
    Codegen.Code(lines)
  }

  const CellWrite := "cell.textFrame.textRange.text = String(tableData[i][j]);"

  function WriteRest(data: seq<seq<Json.Json>>): seq<string>
  {
    [ "  const table = shape.table;",
      "  ",
      "  const tableData = " + (Codegen.Matrix(data)) + ";",
      "  ",
      "  for (let i = 0; i < tableData.length; i++) {",
      "    for (let j = 0; j < tableData[i].length; j++) {",
      "      const cell = table.getCell(i, j);",
      "      " + (CellWrite),
      "    }",
      "  }" ]
    + SuccessFoot
  }

  /** `generateWriteCode`: writes every cell of the data into the table shape. */
  function WriteCode(slideIndex: int, tableId: string, data: seq<seq<Json.Json>>): (r: string)
    ensures Str.Contains(r, Codegen.BoundsTest(slideIndex, "slides.items.length"))
    ensures Str.Contains(r, ShapeLookup(tableId))
    ensures Str.Contains(r, Codegen.Matrix(data)) && Str.Contains(r, CellWrite)
  {
    var rest := WriteRest(data);
    var lines := Slide.Checked(slideIndex) + (Found(slideIndex, tableId) + rest);
    TableFound(slideIndex, tableId, rest);
    assert lines[16] == rest[2] && lines[21] == rest[7];
    Codegen.HasLine(lines, 16, "  const tableData = ", Codegen.Matrix(data), ";");
    Codegen.HasTail(lines, 21, "      ", CellWrite);
    Codegen.Code(lines)
  }

  /** One formatter statement of `generateFormatCellCode`. */
  datatype CellStep =
    | Fill(color: string)
    | FontSize(size: int)
    | FontBold(on: bool)
    | FontColor(color: string)

  function CellStepText(step: CellStep): string
  {
    match step
    case Fill(c) => "cell.fill.setSolidColor(\"" + c + "\");"
    case FontSize(n) => "cell.textFrame.textRange.font.size = " + Codegen.Num(n) + ";"
    case FontBold(b) => "cell.textFrame.textRange.font.bold = " + Codegen.Bool(b) + ";"
    case FontColor(c) => "cell.textFrame.textRange.font.color = \"" + c + "\";"
  }

  function CellTexts(steps: seq<CellStep>): (r: seq<string>)
    ensures |r| == |steps|
    ensures forall k :: 0 <= k < |steps| ==> r[k] == CellStepText(steps[k])
  {
    seq(|steps|, k requires 0 <= k < |steps| => CellStepText(steps[k]))
  }

  function CellFontSteps(font: Option<P.CellFont>): seq<CellStep>
  {
    match font
    case None => []
    case Some(f) =>
      Codegen.Opt(Codegen.HasNumber(f.size), FontSize(f.size.GetOr(0)))
      + Codegen.Opt(f.bold.Some?, FontBold(f.bold.GetOr(false)))
      + Codegen.Opt(Codegen.HasText(f.color), FontColor(f.color.GetOr("")))
  }

  /** The statements `generateFormatCellCode` pushes, in order; the borders play no part. */
  function CellPlan(format: P.TableCellFormat): seq<CellStep>
  {
    Codegen.Opt(format.fill.Some? && format.fill.value.color != "", Fill(if format.fill.Some? then format.fill.value.color else ""))
    + CellFontSteps(format.font)
  }

  /** The font block of `generateFormatCellCode`. */
  method PushCellFont(font: Option<P.CellFont>) returns (r: seq<CellStep>)
    ensures r == CellFontSteps(font)
  {
    r := [];
    if font.Some? {
      var f := font.value;
      if Codegen.HasNumber(f.size) { r := r + [FontSize(f.size.value)]; }
      ghost var e := Codegen.Opt(Codegen.HasNumber(f.size), FontSize(f.size.GetOr(0)));
      assert r == e;
      if f.bold.Some? { r := r + [FontBold(f.bold.value)]; }
      e := e + Codegen.Opt(f.bold.Some?, FontBold(f.bold.GetOr(false)));
      assert r == e;
      if Codegen.HasText(f.color) { r := r + [FontColor(f.color.value)]; }
      e := e + Codegen.Opt(Codegen.HasText(f.color), FontColor(f.color.GetOr("")));
      assert r == e;
    }
  }

  /** The formatter list `generateFormatCellCode` builds. */
  method CellFormatters(format: P.TableCellFormat) returns (formatters: seq<CellStep>)
    ensures formatters == CellPlan(format)
  {
    formatters := [];
    if format.fill.Some? && format.fill.value.color != "" {
      formatters := [Fill(format.fill.value.color)];
    }
    var font := PushCellFont(format.font);
    formatters := formatters + font;
  }

  /** Each statement is emitted exactly when its field is present and truthy (defined, for bold). */
  lemma CellStepsPresent(format: P.TableCellFormat, s: string, n: int, b: bool)
    ensures Fill(s) in CellPlan(format) <==> format.fill == Some(P.CellFill(s)) && s != ""
    ensures FontSize(n) in CellPlan(format) <==> format.font.Some? && format.font.value.size == Some(n) && n != 0
    ensures FontBold(b) in CellPlan(format) <==> format.font.Some? && format.font.value.bold == Some(b)
    ensures FontColor(s) in CellPlan(format) <==> format.font.Some? && format.font.value.color == Some(s) && s != ""
  {
    CellFontPlanned(format, Fill(s));
    CellFontPlanned(format, FontSize(n));
    CellFontPlanned(format, FontBold(b));
    CellFontPlanned(format, FontColor(s));
    CellFontValues(format.font, s, n, b);
  }

  /** A font step is planned exactly when the font block pushes it; the fill comes only from the fill. */
  lemma CellFontPlanned(format: P.TableCellFormat, x: CellStep)
    ensures x.Fill? ==> (x in CellPlan(format) <==> format.fill.Some? && format.fill.value.color != "" && x.color == format.fill.value.color)
    ensures !x.Fill? ==> (x in CellPlan(format) <==> x in CellFontSteps(format.font))
  {
    assert forall y :: y in CellFontSteps(format.font) ==> !y.Fill?;
  }

  lemma CellFontValues(font: Option<P.CellFont>, s: string, n: int, b: bool)
    ensures FontSize(n) in CellFontSteps(font) <==> font.Some? && font.value.size == Some(n) && n != 0
    ensures FontBold(b) in CellFontSteps(font) <==> font.Some? && font.value.bold == Some(b)
    ensures FontColor(s) in CellFontSteps(font) <==> font.Some? && font.value.color == Some(s) && s != ""
  {
  }

  /** The borders never change the emitted statements. */
  lemma CellBordersIgnored(format: P.TableCellFormat, borders: Option<P.CellBorders>)
    ensures CellPlan(format.(borders := borders)) == CellPlan(format)
  {
  }

  /** `table.getCell(<row>, <column>)` */
  function CellAt(row: int, column: int): string
  {
    "table.getCell(" + Codegen.Num(row) + ", " + Codegen.Num(column) + ")"
  }

  function FormatCellRest(row: int, column: int, format: P.TableCellFormat): seq<string>
  {
    [ "  const table = shape.table;",
      "  const cell = " + (CellAt(row, column)) + ";",
      "  " ]
    + Codegen.Spliced("  ", CellTexts(CellPlan(format)))
    + SuccessFoot
  }

  /** `generateFormatCellCode` */
  function FormatCellCode(slideIndex: int, tableId: string, row: int, column: int, format: P.TableCellFormat): string
  {
    Codegen.Code(Slide.Checked(slideIndex) + (Found(slideIndex, tableId) + FormatCellRest(row, column, format)))
  }

  /** The script addresses the cell of the table shape and carries every planned statement. */
  lemma FormatCellApplies(slideIndex: int, tableId: string, row: int, column: int, format: P.TableCellFormat, k: nat)
    ensures Str.Contains(FormatCellCode(slideIndex, tableId, row, column, format), Codegen.BoundsTest(slideIndex, "slides.items.length"))
    ensures Str.Contains(FormatCellCode(slideIndex, tableId, row, column, format), CellAt(row, column))
    ensures k < |CellPlan(format)| ==>
      Str.Contains(FormatCellCode(slideIndex, tableId, row, column, format), CellStepText(CellPlan(format)[k]))
  {
    var rest := FormatCellRest(row, column, format);
    var lines := Slide.Checked(slideIndex) + (Found(slideIndex, tableId) + rest);
    TableFound(slideIndex, tableId, rest);
    assert lines[15] == rest[1];
    Codegen.HasLine(lines, 15, "  const cell = ", CellAt(row, column), ";");
    if k < |CellPlan(format)| {
      var head := ["  const table = shape.table;", "  const cell = " + (CellAt(row, column)) + ";", "  "];
      Str.Flatten(Slide.Checked(slideIndex), Found(slideIndex, tableId), head, Codegen.Spliced("  ", CellTexts(CellPlan(format))), SuccessFoot);
      Codegen.SplicedItem(Slide.Checked(slideIndex) + Found(slideIndex, tableId) + head, "  ", CellTexts(CellPlan(format)), SuccessFoot, k);
    }
  }

  /** `generateDeleteTableCode`: checks the slide index, then deletes the shape with that id. */
  function DeleteTableCode(slideIndex: int, tableId: string): (r: string)
    ensures Str.Contains(r, Codegen.BoundsTest(slideIndex, "slides.items.length"))
    ensures Str.Contains(r, ShapeLookup(tableId))
    ensures Str.Contains(r, "shape.delete()")
  {
    var rest := ["  " + ("shape.delete()") + ";"] + SuccessFoot;
    var lines := Slide.Checked(slideIndex) + (Found(slideIndex, tableId) + rest);
    TableFound(slideIndex, tableId, rest);
    assert lines[14] == rest[0];
    Codegen.HasLine(lines, 14, "  ", "shape.delete()", ";");
    Codegen.Code(lines)
  }
}
