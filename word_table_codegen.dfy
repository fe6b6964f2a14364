/**
 * The Word table generators: create a table in the body, and read, write,
 * grow, shrink, format and delete the table at an index of the body's
 * table collection.  Every index-based generator first rejects an index
 * outside `0 ≤ tableIndex < table count`.
 */
module WordTableCodegen {
  import opened Wrappers
  import Str
  import Json
  import Codegen
  import W = WordSchemas

  // ---------------------------------------------------------------------
  // Create
  // ---------------------------------------------------------------------

  /** `(params.location || 'End').toLowerCase()` */
  function Location(location: Option<string>): (r: string)
    ensures Codegen.HasText(location) ==> r == Str.ToLower(location.value)
    ensures !Codegen.HasText(location) ==> r == Str.ToLower("End")
  {
    Str.ToLower(if Codegen.HasText(location) then location.value else "End")
  }

  /** Both schema locations become lower-case location members. */
  lemma SchemaLocations()
    ensures Location(Some(W.TableLocationName(W.TableStart))) == "start"
    ensures Location(Some(W.TableLocationName(W.TableEnd))) == "end"
    ensures Location(None) == "end"
  {
    assert Str.ToLower("Start") == "start" by { LowerStart(); }
    assert Str.ToLower("End") == "end" by { LowerEnd(); }
  }

  lemma LowerStart()
    ensures Str.ToLower("Start") == "start"
  {
    var r := Str.ToLower("Start");
    assert r[0] == 's' && r[1..] == "tart";
  }

  lemma LowerEnd()
    ensures Str.ToLower("End") == "end"
  {
    var r := Str.ToLower("End");
    assert r[0] == 'e' && r[1..] == "nd";
  }

  /** `body.insertTable(<rows>, <columns>, Word.InsertLocation.<location>)` */
  function InsertTable(rows: int, columns: int, location: Option<string>): string
  {
    "body.insertTable(" + Codegen.Num(rows) + ", " + Codegen.Num(columns) + ", Word.InsertLocation." + Location(location) + ")"
  }

  /** The loop header that stops filling at the table's last row. */
  function RowBound(rows: int): string
  {
    "for (let i = 0; i < tableData.length && i < " + Codegen.Num(rows) + "; i++) {"
  }

  /** The loop header that stops filling at the table's last column. */
  function ColumnBound(columns: int): string
  {
    "for (let j = 0; j < tableData[i].length && j < " + Codegen.Num(columns) + "; j++) {"
  }

  const CellFill := "table.getCell(i, j).body.insertText(String(tableData[i][j]), Word.InsertLocation.replace);"

  /** The data slot: the data and a fill loop bounded by the table's size, or one blank line. */
  function DataLines(rows: int, columns: int, data: Option<seq<seq<Json.Json>>>): (r: seq<string>)
    ensures |r| == if data.Some? then 9 else 1
  {
    match data
    case None => ["  "]
    case Some(d) =>
      [ "  ",
        "  // 填充数据",
        "  const tableData = " + (Codegen.Matrix(d)) + ";",
        "  " + (RowBound(rows)),
        "    " + (ColumnBound(columns)),
        "      " + (CellFill),
        "    }",
        "  }",
        "  " ]
  }

  /** `${params.style ? \`table.style = "${params.style}";\` : ''}` */
  function StyleLine(style: Option<string>): (r: string)
    ensures r == "" <==> !Codegen.HasText(style)
  {
    if Codegen.HasText(style) then "table.style = \"" + style.value + "\";" else ""
  }

  function CreateHead(rows: int, columns: int, location: Option<string>): (r: seq<string>)
    ensures |r| == 6
  {
    [ "Word.run(async (context) => {",
      "  const body = context.document.body;",
      "  ",
      "  // 创建表格",
      "  const table = " + (InsertTable(rows, columns, location)) + ";",
      "  " ]
  }

  const CreateFoot: seq<string> := [
    "  ",
    "  table.load(\"values\");",
    "  await context.sync();",
    "  ",
    "  // 获取表格索引",
    "  const tables = body.tables;",
    "  tables.load(\"items\");",
    "  await context.sync();",
    "  ",
    "  let tableIndex = -1;",
    "  for (let i = 0; i < tables.items.length; i++) {",
    "    if (tables.items[i] === table) {",
    "      tableIndex = i;",
    "      break;",
    "    }",
    "  }",
    "  ",
    "  return {",
    "    tableIndex: tableIndex,",
    "    success: true",
    "  };",
    "});" ]

  function StyleTail(style: Option<string>): (r: seq<string>)
    ensures |r| == 24
  {
    ["  ", "  " + StyleLine(style)] + CreateFoot
  }

  function CreateLines(rows: int, columns: int, data: Option<seq<seq<Json.Json>>>, location: Option<string>, style: Option<string>): seq<string>
  {
    CreateHead(rows, columns, location) + (DataLines(rows, columns, data) + StyleTail(style))
  }

  /** `generateCreateCode` */
  function CreateCode(rows: int, columns: int, data: Option<seq<seq<Json.Json>>>, location: Option<string>, style: Option<string>): string
  {
    Codegen.Code(CreateLines(rows, columns, data, location, style))
  }

  /**
   * The table is inserted with its size at the lower-cased location, `end`
   * by default; given data is filled in by a loop bounded by both
   * dimensions, and without data the slot is one blank line.
   */
  lemma CreateInsertsTable(rows: int, columns: int, data: Option<seq<seq<Json.Json>>>, location: Option<string>, style: Option<string>)
    ensures Str.Contains(CreateCode(rows, columns, data, location, style), InsertTable(rows, columns, location))
    ensures data.Some? ==> Str.Contains(CreateCode(rows, columns, data, location, style), RowBound(rows))
    ensures data.Some? ==> Str.Contains(CreateCode(rows, columns, data, location, style), ColumnBound(columns))
    ensures data.None? ==> CreateLines(rows, columns, data, location, style)[6] == "  "
  {
    var lines := CreateLines(rows, columns, data, location, style);
    var d := DataLines(rows, columns, data);
    assert lines[4] == CreateHead(rows, columns, location)[4];
    Codegen.HasLine(lines, 4, "  const table = ", InsertTable(rows, columns, location), ";");
    assert lines[6] == d[0];
    if data.Some? {
      assert lines[9] == d[3] && lines[10] == d[4];
      Codegen.HasTail(lines, 9, "  ", RowBound(rows));
      Codegen.HasTail(lines, 10, "    ", ColumnBound(columns));
    }
  }

  /** The style line is blank exactly when no style is given, and sets it otherwise. */
  lemma CreateStyle(rows: int, columns: int, data: Option<seq<seq<Json.Json>>>, location: Option<string>, style: Option<string>)
    ensures var k := 7 + |DataLines(rows, columns, data)|;
      CreateLines(rows, columns, data, location, style)[k] == "  " <==> !Codegen.HasText(style)
    ensures Codegen.HasText(style) ==>
      Str.Contains(CreateCode(rows, columns, data, location, style), "table.style = \"" + style.value + "\";")
  {
    var lines := CreateLines(rows, columns, data, location, style);
    var d := DataLines(rows, columns, data);
    var k := 7 + |d|;
    assert lines == CreateHead(rows, columns, location) + d + StyleTail(style);
    assert lines[k] == StyleTail(style)[1];
    assert lines[k] == "  " <==> StyleLine(style) == "" by {
      if lines[k] == "  " {
        assert |StyleLine(style)| == 0;
      }
    }
    if Codegen.HasText(style) {
      Codegen.HasTail(lines, k, "  ", StyleLine(style));
    }
  }

  /** The cells the create script's fill loop writes: those of the data that lie inside the new table. */
  function FilledCells(rows: int, columns: int, data: seq<seq<Json.Json>>): set<(int, int)>
  {
    set i, j | 0 <= i < |data| && i < rows && 0 <= j < |data[i]| && j < columns :: (i, j)
  }

  /** The cells the write script's loop writes: every cell of the data, whatever the table's size. */
  function WrittenCells(data: seq<seq<Json.Json>>): set<(int, int)>
  {
    set i, j | 0 <= i < |data| && 0 <= j < |data[i]| :: (i, j)
  }

  /** Create never writes outside the table it made, and writes every data cell that fits. */
  lemma FillBounded(rows: int, columns: int, data: seq<seq<Json.Json>>, i: int, j: int)
    ensures (i, j) in FilledCells(rows, columns, data) ==> 0 <= i < rows && 0 <= j < columns
    ensures (i, j) in FilledCells(rows, columns, data)
      <==> (i, j) in WrittenCells(data) && i < rows && j < columns
  {
  }

  // ---------------------------------------------------------------------
  // The index-based generators
  // ---------------------------------------------------------------------

  const TablesOpening: seq<string> := [
    "Word.run(async (context) => {",
    "  const body = context.document.body;",
    "  const tables = body.tables;",
    "  tables.load(\"items\");",
    "  await context.sync();",
    "  " ]

  function OutOfRange(tableIndex: int): string
  {
    "表格索引越界: " + Codegen.Num(tableIndex)
  }

  /** The opening, the bounds check and a blank line. */
  function Checked(tableIndex: int): (r: seq<string>)
    ensures |r| == 13
  {
    TablesOpening + Codegen.IndexGuard(tableIndex, "tables.items.length", OutOfRange(tableIndex)) + ["  "]
  }

  /** Every index-based template rejects an index outside `0 ≤ tableIndex < tables.items.length` before anything else. */
  lemma IndexChecked(tableIndex: int, rest: seq<string>)
    ensures (Checked(tableIndex) + rest)[6..12] == Codegen.IndexGuard(tableIndex, "tables.items.length", OutOfRange(tableIndex))
    ensures Str.Contains(Codegen.Code(Checked(tableIndex) + rest), Codegen.BoundsTest(tableIndex, "tables.items.length"))
    ensures Str.Contains(Codegen.Code(Checked(tableIndex) + rest), "error: \"" + OutOfRange(tableIndex) + "\"")
  {
    assert Checked(tableIndex) + rest == TablesOpening + Codegen.IndexGuard(tableIndex, "tables.items.length", OutOfRange(tableIndex)) + (["  "] + rest);
    Codegen.IndexGuardText(TablesOpening, tableIndex, "tables.items.length", OutOfRange(tableIndex), ["  "] + rest);
  }

  /** `tables.items[<tableIndex>]` */
  function Item(tableIndex: int): string
  {
    "tables.items[" + Codegen.Num(tableIndex) + "]"
  }

  /** `  const table = tables.items[<tableIndex>];` */
  function TableAt(tableIndex: int): string
  {
    "  const table = " + (Item(tableIndex)) + ";"
  }

  const SuccessFoot: seq<string> := [
    "  await context.sync();",
    "  ",
    "  return {",
    "    success: true",
    "  };",
    "});" ]

  // Read

  const ReadLoad := "table.load(\"rowCount, columnCount, values\")"

  function ReadSteps(tableIndex: int): seq<string>
  {
    [ TableAt(tableIndex),
      "  " + (ReadLoad) + ";",
      "  await context.sync();",
      "  ",
      "  return {",
      "    data: table.values,",
      "    rows: table.rowCount,",
      "    columns: table.columnCount",
      "  };",
      "});" ]
  }

  /** `generateReadCode`: checks the index, then reports that table's values and size. */
  function ReadCode(tableIndex: int): (r: string)
    ensures Str.Contains(r, Codegen.BoundsTest(tableIndex, "tables.items.length"))
    ensures Str.Contains(r, Item(tableIndex))
    ensures Str.Contains(r, ReadLoad)
  {
    var steps := ReadSteps(tableIndex);
    var lines := Checked(tableIndex) + steps;
    IndexChecked(tableIndex, steps);
    assert lines[13] == steps[0] && lines[14] == steps[1];
    Codegen.HasLine(lines, 13, "  const table = ", Item(tableIndex), ";");
    Codegen.HasLine(lines, 14, "  ", ReadLoad, ";");
    Codegen.Code(lines)
  }

  // Write

  const WriteRows := "for (let i = 0; i < tableData.length; i++) {"
  const WriteColumns := "for (let j = 0; j < tableData[i].length; j++) {"

  function WriteSteps(tableIndex: int, data: seq<seq<Json.Json>>): seq<string>
  {
    [ TableAt(tableIndex),
      "  const tableData = " + (Codegen.Matrix(data)) + ";",
      "  ",
      "  " + (WriteRows),
      "    " + (WriteColumns),
      "      " + (CellFill),
      "    }",
      "  }",
      "  " ]
    + SuccessFoot
  }

  /** `generateWriteCode`: checks the index, then writes every cell of the data, unbounded by the table's size. */
  function WriteCode(tableIndex: int, data: seq<seq<Json.Json>>): (r: string)
    ensures Str.Contains(r, Codegen.BoundsTest(tableIndex, "tables.items.length"))
    ensures Str.Contains(r, Codegen.Matrix(data))
    ensures Str.Contains(r, WriteRows) && Str.Contains(r, WriteColumns)
  {
    var steps := WriteSteps(tableIndex, data);
    var lines := Checked(tableIndex) + steps;
    IndexChecked(tableIndex, steps);
    assert lines[14] == steps[1] && lines[16] == steps[3] && lines[17] == steps[4];
    Codegen.HasLine(lines, 14, "  const tableData = ", Codegen.Matrix(data), ";");
    Codegen.HasTail(lines, 16, "  ", WriteRows);
    Codegen.HasTail(lines, 17, "    ", WriteColumns);
    Codegen.Code(lines)
  }

  // Insert a row or a column

  /** `start` for index 0, `after` for any other index. */
  function Placement(index: int): (r: string)
    ensures r == "start" <==> index == 0
    ensures r == "after" <==> index != 0
  {
    if index == 0 then "start" else "after"
  }

  /** `table.insertRows(Word.InsertLocation.<placement>, 1, <[values] or null>)` */
  function InsertRows(rowIndex: int, values: Option<seq<Json.Json>>): string
  {
    "table.insertRows(Word.InsertLocation." + Placement(rowIndex) + ", 1, " + Codegen.RowValues(values) + ")"
  }

  /** `table.addColumns(Word.InsertLocation.<placement>, 1, <values or null>)` */
  function AddColumns(columnIndex: int, values: Option<seq<Json.Json>>): string
  {
    "table.addColumns(Word.InsertLocation." + Placement(columnIndex) + ", 1, " + Codegen.ColumnValues(values) + ")"
  }

  /** `generateInsertRowCode`: checks the index, then inserts one row at the start or after. */
  function InsertRowCode(tableIndex: int, rowIndex: int, values: Option<seq<Json.Json>>): (r: string)
    ensures Str.Contains(r, Codegen.BoundsTest(tableIndex, "tables.items.length"))
    ensures Str.Contains(r, InsertRows(rowIndex, values))
  {
    var steps := [TableAt(tableIndex), "  const row = " + (InsertRows(rowIndex, values)) + ";", "  "] + SuccessFoot;
    var lines := Checked(tableIndex) + steps;
    IndexChecked(tableIndex, steps);
    assert lines[14] == steps[1];
    Codegen.HasLine(lines, 14, "  const row = ", InsertRows(rowIndex, values), ";");
    Codegen.Code(lines)
  }

  /** `generateInsertColumnCode`: checks the index, then adds one column at the start or after. */
  function InsertColumnCode(tableIndex: int, columnIndex: int, values: Option<seq<Json.Json>>): (r: string)
    ensures Str.Contains(r, Codegen.BoundsTest(tableIndex, "tables.items.length"))
    ensures Str.Contains(r, AddColumns(columnIndex, values))
  {
    var steps := [TableAt(tableIndex), "  " + (AddColumns(columnIndex, values)) + ";", "  "] + SuccessFoot;
    var lines := Checked(tableIndex) + steps;
    IndexChecked(tableIndex, steps);
    assert lines[14] == steps[1];
    Codegen.HasLine(lines, 14, "  ", AddColumns(columnIndex, values), ";");
    Codegen.Code(lines)
  }

  /** A row's values are wrapped once more than a column's; both go to the same placement for the same index. */
  lemma RowWrappedColumnFlat(index: int, values: seq<Json.Json>)
    ensures Codegen.RowValues(Some(values)) == "[" + Codegen.ColumnValues(Some(values)) + "]"
    ensures InsertRows(index, None) == "table.insertRows(Word.InsertLocation." + Placement(index) + ", 1, null)"
  {
    Codegen.RowIsWrappedColumn(Some(values));
  }

  // Delete a row, a column or the table

  /** `table.rows.items[<rowIndex>]` */
  function RowAt(rowIndex: int): string
  {
    "table.rows.items[" + Codegen.Num(rowIndex) + "]"
  }

  /** `generateDeleteRowCode`: checks the table index (not the row index), then deletes that row. */
  function DeleteRowCode(tableIndex: int, rowIndex: int): (r: string)
    ensures Str.Contains(r, Codegen.BoundsTest(tableIndex, "tables.items.length"))
    ensures Str.Contains(r, RowAt(rowIndex))
  {
    var steps := [TableAt(tableIndex), "  const row = " + (RowAt(rowIndex)) + ";", "  row.delete();", "  "] + SuccessFoot;
    var lines := Checked(tableIndex) + steps;
    IndexChecked(tableIndex, steps);
    assert lines[14] == steps[1];
    Codegen.HasLine(lines, 14, "  const row = ", RowAt(rowIndex), ";");
    Codegen.Code(lines)
  }

  /** `table.deleteColumns(<columnIndex>, 1)` */
  function DeleteColumns(columnIndex: int): string
  {
    "table.deleteColumns(" + Codegen.Num(columnIndex) + ", 1)"
  }

  /** `generateDeleteColumnCode`: checks the table index, then deletes one column. */
  function DeleteColumnCode(tableIndex: int, columnIndex: int): (r: string)
    ensures Str.Contains(r, Codegen.BoundsTest(tableIndex, "tables.items.length"))
    ensures Str.Contains(r, DeleteColumns(columnIndex))
  {
    var steps := [TableAt(tableIndex), "  " + (DeleteColumns(columnIndex)) + ";", "  "] + SuccessFoot;
    var lines := Checked(tableIndex) + steps;
    IndexChecked(tableIndex, steps);
    assert lines[14] == steps[1];
    Codegen.HasLine(lines, 14, "  ", DeleteColumns(columnIndex), ";");
    Codegen.Code(lines)
  }

  function DeleteTableSteps(tableIndex: int): seq<string>
  {
    [ "  " + (Item(tableIndex) + ".delete()") + ";",
      "  await context.sync();",
      "  ",
      "  return {",
      "    success: true,",
      "    deleted: " + Codegen.Num(tableIndex),
      "  };",
      "});" ]
  }

  /** `generateDeleteTableCode`: checks the index, then deletes that table. */
  function DeleteTableCode(tableIndex: int): (r: string)
    ensures Str.Contains(r, Codegen.BoundsTest(tableIndex, "tables.items.length"))
    ensures Str.Contains(r, Item(tableIndex) + ".delete()")
  {
    var steps := DeleteTableSteps(tableIndex);
    var lines := Checked(tableIndex) + steps;
    IndexChecked(tableIndex, steps);
    assert lines[13] == steps[0];
    Codegen.HasLine(lines, 13, "  ", Item(tableIndex) + ".delete()", ";");
    Codegen.Code(lines)
  }

  // ---------------------------------------------------------------------
  // Format a cell
  // ---------------------------------------------------------------------

  /** One formatter statement of `generateFormatCellCode`. */
  datatype CellStep =
    | Shading(color: string)
    | FontSize(size: int)
    | FontBold(on: bool)
    | FontColor(color: string)

  function CellStepText(step: CellStep): string
  {
    match step
    case Shading(c) => "cell.shadingColor = \"" + c + "\";"
    case FontSize(n) => "cell.body.font.size = " + Codegen.Num(n) + ";"
    case FontBold(b) => "cell.body.font.bold = " + Codegen.Bool(b) + ";"
    case FontColor(c) => "cell.body.font.color = \"" + c + "\";"
  }

  function CellTexts(steps: seq<CellStep>): (r: seq<string>)
    ensures |r| == |steps|
    ensures forall k :: 0 <= k < |steps| ==> r[k] == CellStepText(steps[k])
  {
    seq(|steps|, k requires 0 <= k < |steps| => CellStepText(steps[k]))
  }

  /** `params.format.fill?.color` is truthy. */
  predicate HasShading(format: W.CellFormat)
  {
    format.fill.Some? && Codegen.HasText(format.fill.value.color)
  }

  function CellFontSteps(font: Option<W.CellFont>): seq<CellStep>
  {
    match font
    case None => []
    case Some(f) =>
      Codegen.Opt(Codegen.HasNumber(f.size), FontSize(f.size.GetOr(0)))
      + Codegen.Opt(f.bold.Some?, FontBold(f.bold.GetOr(false)))
      + Codegen.Opt(Codegen.HasText(f.color), FontColor(f.color.GetOr("")))
  }

  /** The statements `generateFormatCellCode` pushes, in order; the borders play no part. */
  function CellPlan(format: W.CellFormat): seq<CellStep>
  {
    Codegen.Opt(HasShading(format), Shading(if HasShading(format) then format.fill.value.color.value else ""))
    + CellFontSteps(format.font)
  }

  /** The font block of `generateFormatCellCode`. */
  method PushCellFont(font: Option<W.CellFont>) returns (r: seq<CellStep>)
    ensures r == CellFontSteps(font)
  {
    r := [];
    if font.Some? {
      var f := font.value;
      if Codegen.HasNumber(f.size) { r := r + [FontSize(f.size.value)]; }
      ghost var e := Codegen.Opt(Codegen.HasNumber(f.size), FontSize(f.size.GetOr(0)));
      assert r == e;
      if f.bold.Some? { r := r + [FontBold(f.bold.value)]; }
      e := e + Codegen.Opt(f.bold.Some?, FontBold(f.bold.GetOr(false)));
      assert r == e;
      if Codegen.HasText(f.color) { r := r + [FontColor(f.color.value)]; }
      e := e + Codegen.Opt(Codegen.HasText(f.color), FontColor(f.color.GetOr("")));
      assert r == e;
    }
  }

  /** The formatter list `generateFormatCellCode` builds. */
  method CellFormatters(format: W.CellFormat) returns (formatters: seq<CellStep>)
    ensures formatters == CellPlan(format)
  {
    formatters := [];
    if format.fill.Some? && Codegen.HasText(format.fill.value.color) {
      formatters := [Shading(format.fill.value.color.value)];
    }
    var font := PushCellFont(format.font);
    formatters := formatters + font;
  }

  /** Each statement is emitted exactly when its field is present (non-empty, non-zero, or defined for bold). */
  lemma CellStepsPresent(format: W.CellFormat, s: string, n: int, b: bool)
    ensures Shading(s) in CellPlan(format) <==> format.fill.Some? && format.fill.value.color == Some(s) && s != ""
    ensures FontSize(n) in CellPlan(format) <==> format.font.Some? && format.font.value.size == Some(n) && n != 0
    ensures FontBold(b) in CellPlan(format) <==> format.font.Some? && format.font.value.bold == Some(b)
    ensures FontColor(s) in CellPlan(format) <==> format.font.Some? && format.font.value.color == Some(s) && s != ""
  {
    CellFontPlanned(format, Shading(s));
    CellFontPlanned(format, FontSize(n));
    CellFontPlanned(format, FontBold(b));
    CellFontPlanned(format, FontColor(s));
    CellFontValues(format.font, s, n, b);
  }

  /** A font step is planned exactly when the font block pushes it; the shading comes only from the fill. */
  lemma CellFontPlanned(format: W.CellFormat, x: CellStep)
    ensures x.Shading? ==> (x in CellPlan(format) <==> HasShading(format) && x.color == format.fill.value.color.value)
    ensures !x.Shading? ==> (x in CellPlan(format) <==> x in CellFontSteps(format.font))
  {
    assert forall y :: y in CellFontSteps(format.font) ==> !y.Shading?;
  }

  lemma CellFontValues(font: Option<W.CellFont>, s: string, n: int, b: bool)
    ensures FontSize(n) in CellFontSteps(font) <==> font.Some? && font.value.size == Some(n) && n != 0
    ensures FontBold(b) in CellFontSteps(font) <==> font.Some? && font.value.bold == Some(b)
    ensures FontColor(s) in CellFontSteps(font) <==> font.Some? && font.value.color == Some(s) && s != ""
  {
  }

  /** The borders never change the emitted statements. */
  lemma CellBordersIgnored(format: W.CellFormat, borders: Option<W.CellBorders>)
    ensures CellPlan(format.(borders := borders)) == CellPlan(format)
  {
  }

  /** `table.getCell(<rowIndex>, <columnIndex>)` */
  function CellAt(rowIndex: int, columnIndex: int): string
  {
    "table.getCell(" + Codegen.Num(rowIndex) + ", " + Codegen.Num(columnIndex) + ")"
  }

  function FormatCellSteps(tableIndex: int, rowIndex: int, columnIndex: int, format: W.CellFormat): seq<string>
  {
    [ TableAt(tableIndex),
      "  const cell = " + (CellAt(rowIndex, columnIndex)) + ";",
      "  " ]
    + Codegen.Spliced("  ", CellTexts(CellPlan(format)))
    + (["  "] + SuccessFoot)
  }

  /** `generateFormatCellCode` */
  function FormatCellCode(tableIndex: int, rowIndex: int, columnIndex: int, format: W.CellFormat): string
  {
    Codegen.Code(Checked(tableIndex) + FormatCellSteps(tableIndex, rowIndex, columnIndex, format))
  }

  /** The script checks the table index, addresses the cell, and carries every planned statement. */
  lemma FormatCellApplies(tableIndex: int, rowIndex: int, columnIndex: int, format: W.CellFormat, k: nat)
    ensures Str.Contains(FormatCellCode(tableIndex, rowIndex, columnIndex, format), Codegen.BoundsTest(tableIndex, "tables.items.length"))
    ensures Str.Contains(FormatCellCode(tableIndex, rowIndex, columnIndex, format), CellAt(rowIndex, columnIndex))
    ensures k < |CellPlan(format)| ==>
      Str.Contains(FormatCellCode(tableIndex, rowIndex, columnIndex, format), CellStepText(CellPlan(format)[k]))
  {
    var steps := FormatCellSteps(tableIndex, rowIndex, columnIndex, format);
    var lines := Checked(tableIndex) + steps;
    IndexChecked(tableIndex, steps);
    assert lines[14] == steps[1];
    Codegen.HasLine(lines, 14, "  const cell = ", CellAt(rowIndex, columnIndex), ";");
    if k < |CellPlan(format)| {
      var head := [TableAt(tableIndex), "  const cell = " + (CellAt(rowIndex, columnIndex)) + ";", "  "];
      Str.Regroup(Checked(tableIndex), head, Codegen.Spliced("  ", CellTexts(CellPlan(format))), ["  "] + SuccessFoot);
      Codegen.SplicedItem(Checked(tableIndex) + head, "  ", CellTexts(CellPlan(format)), ["  "] + SuccessFoot, k);
    }
  }
}
