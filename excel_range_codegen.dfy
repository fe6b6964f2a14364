/**
 * The Office.js code the Excel range tool generates: reading, writing,
 * formatting, clearing, copying and inserting or deleting cells.
 */
module ExcelRangeCodegen {
  import opened Wrappers
  import Str
  import Json
  import Codegen
  import S = ExcelSchemas

  // ---------------------------------------------------------------------
  // Read
  // ---------------------------------------------------------------------

  /** The properties a range read loads. */
  function LoadList(formulas: bool, format: bool): (r: seq<string>)
    ensures |r| == 4 + (if formulas then 1 else 0) + (if format then 1 else 0)
    ensures r[..4] == ["values", "address", "rowCount", "columnCount"]
    ensures "formulas" in r <==> formulas
    ensures "numberFormat" in r <==> format
    ensures formulas ==> r[4] == "formulas"
    ensures format ==> r[|r| - 1] == "numberFormat"
  {
    ["values", "address", "rowCount", "columnCount"]
    + Codegen.Opt(formulas, "formulas")
    + Codegen.Opt(format, "numberFormat")
  }

  function ReadLines(address: string, props: seq<string>, formulas: bool, format: bool): seq<string>
  {
    [ "Excel.run(async (context) => {",
      "  const sheet = context.workbook.worksheets.getActiveWorksheet();",
      "  const range = " + ("sheet.getRange(\"" + address + "\")") + ";",
      "  " + ("range.load(" + Json.Stringify(Json.StringArray(props)) + ")") + ";",
      "  await context.sync();",
      "  ",
      "  return {",
      "    address: range.address,",
      "    values: range.values,",
      "    rowCount: range.rowCount,",
      "    columnCount: range.columnCount,",
      "    " + (if formulas then "formulas: range.formulas," else ""),
      "    " + (if format then "numberFormat: range.numberFormat" else ""),
      "  };",
      "});" ]
  }

  /** `generateReadCode`: the load list is built by conditional pushes. */
  method GenerateReadCode(address: string, includeFormulas: Option<bool>, includeFormat: Option<bool>)
    returns (code: string)
    ensures code == Codegen.Code(ReadLines(address, LoadList(Codegen.IsSet(includeFormulas), Codegen.IsSet(includeFormat)),
                                           Codegen.IsSet(includeFormulas), Codegen.IsSet(includeFormat)))
  {
    var loadProps := ["values", "address", "rowCount", "columnCount"];
    if Codegen.IsSet(includeFormulas) { loadProps := loadProps + ["formulas"]; }
    assert loadProps == ["values", "address", "rowCount", "columnCount"] + Codegen.Opt(Codegen.IsSet(includeFormulas), "formulas");
    if Codegen.IsSet(includeFormat) { loadProps := loadProps + ["numberFormat"]; }
    assert loadProps == LoadList(Codegen.IsSet(includeFormulas), Codegen.IsSet(includeFormat));
    code := Codegen.Code(ReadLines(address, loadProps, Codegen.IsSet(includeFormulas), Codegen.IsSet(includeFormat)));
  }

  /** The read code addresses the requested range and loads exactly the requested properties. */
  lemma ReadCodeLoads(address: string, formulas: bool, format: bool)
    ensures var code := Codegen.Code(ReadLines(address, LoadList(formulas, format), formulas, format));
      Str.Contains(code, "sheet.getRange(\"" + address + "\")")
      && Str.Contains(code, "range.load(" + Json.Stringify(Json.StringArray(LoadList(formulas, format))) + ")")
  {
    var lines := ReadLines(address, LoadList(formulas, format), formulas, format);
    Codegen.HasLine(lines, 2, "  const range = ", "sheet.getRange(\"" + address + "\")", ";");
    Codegen.HasLine(lines, 3, "  ", "range.load(" + Json.Stringify(Json.StringArray(LoadList(formulas, format))) + ")", ";");
  }

  const SelectionLoad := "range.load([\"values\", \"address\", \"rowCount\", \"columnCount\"])"

  const ReadSelectionLines: seq<string> := [
    "Excel.run(async (context) => {",
    "  const range = context.workbook.getSelectedRange();",
    "  " + SelectionLoad + ";",
    "  await context.sync();",
    "  ",
    "  return {",
    "    address: range.address,",
    "    values: range.values,",
    "    rowCount: range.rowCount,",
    "    columnCount: range.columnCount",
    "  };",
    "});"
  ]

  /** `generateReadSelectionCode`: the selected range is loaded with the four basic properties. */
  function ReadSelectionCode(): (r: string)
    ensures Str.Contains(r, SelectionLoad)
  {
    Codegen.HasLine(ReadSelectionLines, 2, "  ", SelectionLoad, ";");
    Codegen.Code(ReadSelectionLines)
  }

  // ---------------------------------------------------------------------
  // Write
  // ---------------------------------------------------------------------

  /** `params.autoExpand !== false` */
  function AutoExpand(autoExpand: Option<bool>): (r: bool)
    ensures !r <==> autoExpand == Some(false)
  {
    autoExpand != Some(false)
  }

  /** `params.values[0]?.length || 0` */
  function ColumnCount(values: seq<seq<Json.Json>>): (r: nat)
    ensures values == [] ==> r == 0
    ensures values != [] ==> r == |values[0]|
  {
    if values == [] then 0 else |values[0]|
  }

  /** The lines of the auto-expand block: the bare indent when the range is not expanded. */
  function ExpandLines(expand: bool, values: seq<seq<Json.Json>>): seq<string>
  {
    if !expand then ["  "]
    else [ "  ",
           "  // 自动扩展区域以匹配数据大小",
           "  " + ("const dataRows = " + Codegen.Num(|values|) + ";"),
           "  " + ("const dataCols = " + Codegen.Num(ColumnCount(values)) + ";"),
           "  if (dataRows > 0 && dataCols > 0) {",
           "    range = " + "range.getResizedRange(dataRows - 1, dataCols - 1)" + ";",
           "  }",
           "  " ]
  }

  function WriteLines(address: string, values: seq<seq<Json.Json>>, autoExpand: Option<bool>): seq<string>
  {
    [ "Excel.run(async (context) => {",
      "  const sheet = context.workbook.worksheets.getActiveWorksheet();",
      "  let range = sheet.getRange(\"" + address + "\");",
      "  " ]
    + ExpandLines(AutoExpand(autoExpand), values)
    + [ "  ",
        "  " + ("range.values = " + Codegen.Matrix(values) + ";"),
        "  await context.sync();",
        "  ",
        "  range.load(\"address\");",
        "  await context.sync();",
        "  ",
        "  return {",
        "    success: true,",
        "    writtenRange: range.address",
        "  };",
        "});" ]
  }

  /** `generateWriteCode`: the values are written as their JSON text. */
  function WriteCode(address: string, values: seq<seq<Json.Json>>, autoExpand: Option<bool>): (r: string)
    ensures Str.Contains(r, "range.values = " + Codegen.Matrix(values) + ";")
    ensures r == Codegen.Code(WriteLines(address, values, autoExpand))
  {
    var lines := WriteLines(address, values, autoExpand);
    var k := |ExpandLines(AutoExpand(autoExpand), values)|;
    Codegen.HasTail(lines, 4 + k + 1, "  ", "range.values = " + Codegen.Matrix(values) + ";");
    Codegen.Code(lines)
  }

  /**
   * Unless `autoExpand` is `false`, the code states the data's row and
   * column counts and resizes the range to them.
   */
  lemma WriteCodeResizes(address: string, values: seq<seq<Json.Json>>, autoExpand: Option<bool>)
    requires AutoExpand(autoExpand)
    ensures var r := WriteCode(address, values, autoExpand);
      Str.Contains(r, "const dataRows = " + Codegen.Num(|values|) + ";")
      && Str.Contains(r, "const dataCols = " + Codegen.Num(ColumnCount(values)) + ";")
      && Str.Contains(r, "range.getResizedRange(dataRows - 1, dataCols - 1)")
  {
    var lines := WriteLines(address, values, autoExpand);
    Codegen.HasTail(lines, 6, "  ", "const dataRows = " + Codegen.Num(|values|) + ";");
    Codegen.HasTail(lines, 7, "  ", "const dataCols = " + Codegen.Num(ColumnCount(values)) + ";");
    Codegen.HasLine(lines, 9, "    range = ", "range.getResizedRange(dataRows - 1, dataCols - 1)", ";");
  }

  /** With `autoExpand: false` the code is the unexpanded template, seven lines shorter. */
  lemma WriteWithoutExpand(address: string, values: seq<seq<Json.Json>>)
    ensures |WriteLines(address, values, Some(false))| + 7 == |WriteLines(address, values, None)|
    ensures WriteLines(address, values, None) == WriteLines(address, values, Some(true))
  {
  }

  // ---------------------------------------------------------------------
  // Format
  // ---------------------------------------------------------------------

  /** One statement of the formatting block. */
  datatype FormatStep =
    | FontName(name: string)
    | FontSize(size: int)
    | FontBold(on: bool)
    | FontItalic(on: bool)
    | FontUnderline(on: bool)
    | FontColor(color: string)
    | FillColor(color: string)
    | BorderEdges
    | BorderLoop
    | BorderStyle(style: string)
    | BorderColor(color: string)
    | BorderWeight(weight: string)
    | BorderEnd
    | NumberFormat(pattern: string)
    | Horizontal(h: S.HorizontalAlignment)
    | Vertical(v: S.VerticalAlignment)

  /** The statement a step pushes. */
  function StepText(step: FormatStep): string
  {
    match step
    case FontName(n) => "range.format.font.name = \"" + n + "\";"
    case FontSize(n) => "range.format.font.size = " + Codegen.Num(n) + ";"
    case FontBold(b) => "range.format.font.bold = " + Codegen.Bool(b) + ";"
    case FontItalic(b) => "range.format.font.italic = " + Codegen.Bool(b) + ";"
    case FontUnderline(b) => "range.format.font.underline = " + UnderlineValue(b) + ";"
    case FontColor(c) => "range.format.font.color = \"" + c + "\";"
    case FillColor(c) => "range.format.fill.color = \"" + c + "\";"
    case BorderEdges => "const borderEdges = [\"EdgeTop\", \"EdgeBottom\", \"EdgeLeft\", \"EdgeRight\"];"
    case BorderLoop => "borderEdges.forEach(edge => {"
    case BorderStyle(s) => "  range.format.borders.getItem(edge).style = Excel.BorderLineStyle." + s + ";"
    case BorderColor(c) => "  range.format.borders.getItem(edge).color = \"" + c + "\";"
    case BorderWeight(w) => "  range.format.borders.getItem(edge).weight = Excel.BorderWeight." + w + ";"
    case BorderEnd => "});"
    case NumberFormat(p) => "range.numberFormat = \"" + p + "\";"
    case Horizontal(h) => "range.format.horizontalAlignment = Excel.HorizontalAlignment." + Str.ToLower(S.HorizontalName(h)) + ";"
    case Vertical(v) => "range.format.verticalAlignment = Excel.VerticalAlignment." + Str.ToLower(S.VerticalName(v)) + ";"
  }

  /** `font.underline ? '"Single"' : '"None"'` */
  function UnderlineValue(on: bool): (r: string)
    ensures on ==> r == "\"Single\""
    ensures !on ==> r == "\"None\""
  {
    if on then "\"Single\"" else "\"None\""
  }

  function Texts(steps: seq<FormatStep>): (r: seq<string>)
    ensures |r| == |steps|
    ensures forall k :: 0 <= k < |steps| ==> r[k] == StepText(steps[k])
  {
    seq(|steps|, k requires 0 <= k < |steps| => StepText(steps[k]))
  }

  predicate IsFontStep(x: FormatStep)
  {
    x.FontName? || x.FontSize? || x.FontBold? || x.FontItalic? || x.FontUnderline? || x.FontColor?
  }

  predicate IsBorderStep(x: FormatStep)
  {
    x.BorderEdges? || x.BorderLoop? || x.BorderStyle? || x.BorderColor? || x.BorderWeight? || x.BorderEnd?
  }

  predicate IsTailStep(x: FormatStep)
  {
    x.NumberFormat? || x.Horizontal? || x.Vertical?
  }

  /** The font statements, pushed only when a font is given. */
  function FontSteps(font: Option<S.Font>): (r: seq<FormatStep>)
    ensures forall x :: x in r ==> IsFontStep(x)
    ensures font.None? ==> r == []
  {
    match font
    case None => []
    case Some(f) =>
      Codegen.Opt(Codegen.HasText(f.name), FontName(f.name.GetOr("")))
      + Codegen.Opt(Codegen.HasNumber(f.size), FontSize(f.size.GetOr(0)))
      + Codegen.Opt(f.bold.Some?, FontBold(f.bold.GetOr(false)))
      + Codegen.Opt(f.italic.Some?, FontItalic(f.italic.GetOr(false)))
      + Codegen.Opt(f.underline.Some?, FontUnderline(f.underline.GetOr(false)))
      + Codegen.Opt(Codegen.HasText(f.color), FontColor(f.color.GetOr("")))
  }

  /** The fill statement, pushed only for a non-empty colour. */
  function FillSteps(fill: Option<S.Fill>): (r: seq<FormatStep>)
    ensures forall x :: x in r ==> x.FillColor?
    ensures forall c :: FillColor(c) in r <==> fill.Some? && fill.value.color == Some(c) && c != ""
  {
    if fill.Some? && Codegen.HasText(fill.value.color) then [FillColor(fill.value.color.value)] else []
  }

  /** Whether the borders ask for anything: `borders.style || borders.color || borders.weight`. */
  predicate BordersSet(b: Option<S.Borders>)
  {
    b.Some? && (Codegen.HasText(b.value.style) || Codegen.HasText(b.value.color) || Codegen.HasText(b.value.weight))
  }

  /** The border block: the edge list, a loop over the edges with the set attributes, and the loop's end. */
  function BorderSteps(borders: Option<S.Borders>): (r: seq<FormatStep>)
    ensures forall x :: x in r ==> IsBorderStep(x)
    ensures BordersSet(borders) ==> |r| >= 3 && r[0] == BorderEdges && r[1] == BorderLoop && r[|r| - 1] == BorderEnd
    ensures !BordersSet(borders) ==> r == []
  {
    if !BordersSet(borders) then []
    else
      var b := borders.value;
      [BorderEdges, BorderLoop]
      + Codegen.Opt(Codegen.HasText(b.style), BorderStyle(b.style.GetOr("")))
      + Codegen.Opt(Codegen.HasText(b.color), BorderColor(b.color.GetOr("")))
      + Codegen.Opt(Codegen.HasText(b.weight), BorderWeight(b.weight.GetOr("")))
      + [BorderEnd]
  }

  /** The number format and alignment statements. */
  function TailSteps(format: S.RangeFormat): (r: seq<FormatStep>)
    ensures forall x :: x in r ==> IsTailStep(x)
  {
    Codegen.Opt(Codegen.HasText(format.numberFormat), NumberFormat(format.numberFormat.GetOr("")))
    + Codegen.Opt(format.horizontalAlignment.Some?, Horizontal(format.horizontalAlignment.GetOr(S.HLeft)))
    + Codegen.Opt(format.verticalAlignment.Some?, Vertical(format.verticalAlignment.GetOr(S.VTop)))
  }

  /** The formatting statements, in the order the generator pushes them. */
  function FormatPlan(format: S.RangeFormat): seq<FormatStep>
  {
    FontSteps(format.font) + FillSteps(format.fill) + BorderSteps(format.borders) + TailSteps(format)
  }

  /** The lines before the statements: the worksheet and range lookups. */
  function FormatHead(address: string): (r: seq<string>)
    ensures |r| == 4
  {
    [ "Excel.run(async (context) => {",
      "  const sheet = context.workbook.worksheets.getActiveWorksheet();",
      "  const range = sheet.getRange(\"" + address + "\");",
      "  " ]
  }

  const FormatFoot: seq<string> := [
    "  ",
    "  await context.sync();",
    "  ",
    "  return { success: true };",
    "});"
  ]

  function FormatLines(address: string, steps: seq<FormatStep>): seq<string>
  {
    FormatHead(address) + Codegen.Spliced("  ", Texts(steps)) + FormatFoot
  }

  /** The font part of `generateFormatCode`: one push per present font field. */
  method PushFont(font: Option<S.Font>) returns (r: seq<FormatStep>)
    ensures r == FontSteps(font)
  {
    r := [];
    if font.Some? {
      var f := font.value;
      if Codegen.HasText(f.name) { r := r + [FontName(f.name.value)]; }
      ghost var e := Codegen.Opt(Codegen.HasText(f.name), FontName(f.name.GetOr("")));
      assert r == e;
      if Codegen.HasNumber(f.size) { r := r + [FontSize(f.size.value)]; }
      e := e + Codegen.Opt(Codegen.HasNumber(f.size), FontSize(f.size.GetOr(0)));
      assert r == e;
      if f.bold.Some? { r := r + [FontBold(f.bold.value)]; }
      e := e + Codegen.Opt(f.bold.Some?, FontBold(f.bold.GetOr(false)));
      assert r == e;
      if f.italic.Some? { r := r + [FontItalic(f.italic.value)]; }
      e := e + Codegen.Opt(f.italic.Some?, FontItalic(f.italic.GetOr(false)));
      assert r == e;
      if f.underline.Some? { r := r + [FontUnderline(f.underline.value)]; }
      e := e + Codegen.Opt(f.underline.Some?, FontUnderline(f.underline.GetOr(false)));
      assert r == e;
      if Codegen.HasText(f.color) { r := r + [FontColor(f.color.value)]; }
      e := e + Codegen.Opt(Codegen.HasText(f.color), FontColor(f.color.GetOr("")));
      assert r == e;
    }
  }

  /** The border part of `generateFormatCode`: the loop, with one push per set attribute. */
  method PushBorders(borders: Option<S.Borders>) returns (r: seq<FormatStep>)
    ensures r == BorderSteps(borders)
  {
    r := [];
    if borders.Some? {
      var b := borders.value;
      if Codegen.HasText(b.style) || Codegen.HasText(b.color) || Codegen.HasText(b.weight) {
        r := r + [BorderEdges];
        r := r + [BorderLoop];
        ghost var e := [BorderEdges, BorderLoop];
        assert r == e;
        if Codegen.HasText(b.style) { r := r + [BorderStyle(b.style.value)]; }
        e := e + Codegen.Opt(Codegen.HasText(b.style), BorderStyle(b.style.GetOr("")));
        assert r == e;
        if Codegen.HasText(b.color) { r := r + [BorderColor(b.color.value)]; }
        e := e + Codegen.Opt(Codegen.HasText(b.color), BorderColor(b.color.GetOr("")));
        assert r == e;
        if Codegen.HasText(b.weight) { r := r + [BorderWeight(b.weight.value)]; }
        e := e + Codegen.Opt(Codegen.HasText(b.weight), BorderWeight(b.weight.GetOr("")));
        assert r == e;
        r := r + [BorderEnd];
      }
    }
  }

  /** The tail of `generateFormatCode`: the number format and the alignments. */
  method PushTail(format: S.RangeFormat) returns (r: seq<FormatStep>)
    ensures r == TailSteps(format)
  {
    r := [];
    if Codegen.HasText(format.numberFormat) { r := r + [NumberFormat(format.numberFormat.value)]; }
    ghost var e := Codegen.Opt(Codegen.HasText(format.numberFormat), NumberFormat(format.numberFormat.GetOr("")));
    assert r == e;
    if format.horizontalAlignment.Some? { r := r + [Horizontal(format.horizontalAlignment.value)]; }
    e := e + Codegen.Opt(format.horizontalAlignment.Some?, Horizontal(format.horizontalAlignment.GetOr(S.HLeft)));
    assert r == e;
    if format.verticalAlignment.Some? { r := r + [Vertical(format.verticalAlignment.value)]; }
  }

  /** `generateFormatCode`: the statements are pushed one present field at a time, in this order. */
  method GenerateFormatCode(address: string, format: S.RangeFormat) returns (code: string)
    ensures code == Codegen.Code(FormatLines(address, FormatPlan(format)))
  {
    var formatters := PushFont(format.font);
    if format.fill.Some? && Codegen.HasText(format.fill.value.color) {
      formatters := formatters + [FillColor(format.fill.value.color.value)];
    }
    assert formatters == FontSteps(format.font) + FillSteps(format.fill);
    var borders := PushBorders(format.borders);
    formatters := formatters + borders;
    var tail := PushTail(format);
    formatters := formatters + tail;
    assert formatters == FormatPlan(format);
    code := Codegen.Code(FormatLines(address, formatters));
  }

  /** Within the font block, the name is pushed exactly when it is a non-empty string. */
  lemma FontNameStep(font: Option<S.Font>, s: string)
    ensures FontName(s) in FontSteps(font) <==> font.Some? && font.value.name == Some(s) && s != ""
  {
  }

  /** Within the font block, the size is pushed exactly when it is a non-zero number. */
  lemma FontSizeStep(font: Option<S.Font>, n: int)
    ensures FontSize(n) in FontSteps(font) <==> font.Some? && font.value.size == Some(n) && n != 0
  {
  }

  /** Within the font block, bold and italic are pushed whenever they are defined, `false` included. */
  lemma FontBoldItalicSteps(font: Option<S.Font>, b: bool)
    ensures FontBold(b) in FontSteps(font) <==> font.Some? && font.value.bold == Some(b)
    ensures FontItalic(b) in FontSteps(font) <==> font.Some? && font.value.italic == Some(b)
  {
  }

  /** Within the font block, underline is pushed whenever defined, the colour only when non-empty. */
  lemma FontUnderlineColorSteps(font: Option<S.Font>, b: bool, s: string)
    ensures FontUnderline(b) in FontSteps(font) <==> font.Some? && font.value.underline == Some(b)
    ensures FontColor(s) in FontSteps(font) <==> font.Some? && font.value.color == Some(s) && s != ""
  {
  }

  /** Within the tail, the number format is pushed exactly when it is non-empty. */
  lemma NumberFormatStep(format: S.RangeFormat, s: string)
    ensures NumberFormat(s) in TailSteps(format) <==> format.numberFormat == Some(s) && s != ""
  {
  }

  /** Within the tail, each alignment is pushed exactly when given. */
  lemma AlignmentSteps(format: S.RangeFormat, h: S.HorizontalAlignment, v: S.VerticalAlignment)
    ensures Horizontal(h) in TailSteps(format) <==> format.horizontalAlignment == Some(h)
    ensures Vertical(v) in TailSteps(format) <==> format.verticalAlignment == Some(v)
  {
  }

  /** Within the border block, the style and colour are pushed exactly when non-empty. */
  lemma BorderStyleColorSteps(borders: Option<S.Borders>, s: string)
    ensures BorderStyle(s) in BorderSteps(borders) <==> borders.Some? && borders.value.style == Some(s) && s != ""
    ensures BorderColor(s) in BorderSteps(borders) <==> borders.Some? && borders.value.color == Some(s) && s != ""
  {
  }

  /** Within the border block, the weight is pushed exactly when non-empty. */
  lemma BorderWeightStep(borders: Option<S.Borders>, s: string)
    ensures BorderWeight(s) in BorderSteps(borders) <==> borders.Some? && borders.value.weight == Some(s) && s != ""
  {
  }

  /**
   * Each statement is in the whole plan exactly when it is in the block of
   * its kind, so the block lemmas describe the whole plan.
   */
  lemma FontStepPlanned(format: S.RangeFormat, x: FormatStep)
    requires IsFontStep(x)
    ensures x in FormatPlan(format) <==> x in FontSteps(format.font)
  {
    Codegen.InBlocks(FontSteps(format.font), FillSteps(format.fill), BorderSteps(format.borders), TailSteps(format), x);
  }

  lemma FillStepPlanned(format: S.RangeFormat, x: FormatStep)
    requires x.FillColor?
    ensures x in FormatPlan(format) <==> x in FillSteps(format.fill)
  {
    Codegen.InBlocks(FontSteps(format.font), FillSteps(format.fill), BorderSteps(format.borders), TailSteps(format), x);
  }

  lemma BorderStepPlanned(format: S.RangeFormat, x: FormatStep)
    requires IsBorderStep(x)
    ensures x in FormatPlan(format) <==> x in BorderSteps(format.borders)
  {
    Codegen.InBlocks(FontSteps(format.font), FillSteps(format.fill), BorderSteps(format.borders), TailSteps(format), x);
  }

  lemma TailStepPlanned(format: S.RangeFormat, x: FormatStep)
    requires IsTailStep(x)
    ensures x in FormatPlan(format) <==> x in TailSteps(format)
  {
    Codegen.InBlocks(FontSteps(format.font), FillSteps(format.fill), BorderSteps(format.borders), TailSteps(format), x);
  }

  /** The border loop is emitted only when a style, colour or weight is set. */
  lemma BorderLoopPlanned(format: S.RangeFormat)
    ensures BorderLoop in FormatPlan(format) <==> BordersSet(format.borders)
    ensures BorderEnd in FormatPlan(format) <==> BordersSet(format.borders)
  {
    BorderStepPlanned(format, BorderLoop);
    BorderStepPlanned(format, BorderEnd);
  }

  /** The alignments are spelled in lower case, as `toLowerCase()` gives them. */
  lemma AlignmentSpelling(h: S.HorizontalAlignment, v: S.VerticalAlignment)
    ensures h == S.HCenter ==> Str.ToLower(S.HorizontalName(h)) == "center"
    ensures v == S.VBottom ==> Str.ToLower(S.VerticalName(v)) == "bottom"
  {
  }

  /** Every planned statement reaches the generated code. */
  lemma FormatCodeHasSteps(address: string, format: S.RangeFormat, k: nat)
    requires k < |FormatPlan(format)|
    ensures Str.Contains(Codegen.Code(FormatLines(address, FormatPlan(format))), StepText(FormatPlan(format)[k]))
  {
    var steps := FormatPlan(format);
    assert Texts(steps)[k] == StepText(steps[k]);
    Codegen.SplicedItem(FormatHead(address), "  ", Texts(steps), FormatFoot, k);
  }

  // ---------------------------------------------------------------------
  // Clear
  // ---------------------------------------------------------------------

  /** `params.applyTo || 'all'`, as the `Excel.ClearApplyTo` member it selects. */
  function ClearMethod(applyTo: Option<S.ClearTarget>): (r: string)
    ensures r == "clear(Excel.ClearApplyTo." + S.ClearTargetName(applyTo.GetOr(S.ClearAll)) + ")"
  {
    var clearType := applyTo.GetOr(S.ClearAll);
    if clearType == S.ClearContents then "clear(Excel.ClearApplyTo.contents)"
    else if clearType == S.ClearFormats then "clear(Excel.ClearApplyTo.formats)"
    else "clear(Excel.ClearApplyTo.all)"
  }

  function ClearLines(address: string, applyTo: Option<S.ClearTarget>): seq<string>
  {
    [ "Excel.run(async (context) => {",
      "  const sheet = context.workbook.worksheets.getActiveWorksheet();",
      "  const range = " + ("sheet.getRange(\"" + address + "\")") + ";",
      "  " + ("range." + ClearMethod(applyTo) + ";"),
      "  await context.sync();",
      "  ",
      "  return { success: true };",
      "});" ]
  }

  /** `generateClearCode`: the range is cleared of the requested part, everything by default. */
  function ClearCode(address: string, applyTo: Option<S.ClearTarget>): (r: string)
    ensures Str.Contains(r, "range." + ClearMethod(applyTo) + ";")
    ensures Str.Contains(r, "sheet.getRange(\"" + address + "\")")
  {
    var lines := ClearLines(address, applyTo);
    Codegen.HasTail(lines, 3, "  ", "range." + ClearMethod(applyTo) + ";");
    Codegen.HasLine(lines, 2, "  const range = ", "sheet.getRange(\"" + address + "\")", ";");
    Codegen.Code(lines)
  }

  // ---------------------------------------------------------------------
  // Copy
  // ---------------------------------------------------------------------

  /** `params.copyType || 'all'`, as the `Excel.RangeCopyType` member it selects. */
  function CopyMethod(copyType: Option<S.CopyKind>): (r: string)
    ensures r == "Excel.RangeCopyType." + S.CopyKindName(copyType.GetOr(S.CopyAll))
  {
    var kind := copyType.GetOr(S.CopyAll);
    if kind == S.CopyValues then "Excel.RangeCopyType.values"
    else if kind == S.CopyFormats then "Excel.RangeCopyType.formats"
    else "Excel.RangeCopyType.all"
  }

  /** The two range variables the copy template declares. */
  datatype RangeVar = SourceVar | DestinationVar

  function VarName(v: RangeVar): string
  {
    match v
    case SourceVar => "sourceRange"
    case DestinationVar => "destinationRange"
  }

  /** The address each variable is bound to. */
  function Bound(v: RangeVar, source: string, destination: string): string
  {
    match v
    case SourceVar => source
    case DestinationVar => destination
  }

  /** A call `receiver.copyFrom(argument, kind)`. */
  datatype CopyCall = CopyCall(receiver: RangeVar, argument: RangeVar)

  /** Which cells a copy reads and which it overwrites. */
  datatype Transfer = Transfer(readFrom: string, writtenTo: string)

  /** Office.js `target.copyFrom(src, type)` copies the cells of `src` into `target`. */
  function Effect(call: CopyCall, source: string, destination: string): Transfer
  {
    Transfer(Bound(call.argument, source, destination), Bound(call.receiver, source, destination))
  }

  /** The call the generator emits. */
  const AsWrittenCall := CopyCall(SourceVar, DestinationVar)

  /** The call that copies the source onto the destination. */
  const IntendedCall := CopyCall(DestinationVar, SourceVar)

  /** The statement `receiver.copyFrom(argument, kind);`. */
  function CallText(call: CopyCall, copyType: Option<S.CopyKind>): string
  {
    VarName(call.receiver) + ".copyFrom(" + VarName(call.argument) + ", " + CopyMethod(copyType) + ");"
  }

  function CopyLines(call: CopyCall, source: string, destination: string, copyType: Option<S.CopyKind>): seq<string>
  {
    [ "Excel.run(async (context) => {",
      "  const sheet = context.workbook.worksheets.getActiveWorksheet();",
      "  const sourceRange = sheet.getRange(\"" + source + "\");",
      "  const destinationRange = sheet.getRange(\"" + destination + "\");",
      "  ",
      "  " + CallText(call, copyType),
      "  await context.sync();",
      "  ",
      "  return { success: true };",
      "});" ]
  }

  /** `generateCopyCode` as written: the source range is the receiver of `copyFrom`. */
  function CopyCodeAsWritten(source: string, destination: string, copyType: Option<S.CopyKind>): (r: string)
    ensures Str.Contains(r, CallText(AsWrittenCall, copyType))
  {
    var lines := CopyLines(AsWrittenCall, source, destination, copyType);
    Codegen.HasTail(lines, 5, "  ", CallText(AsWrittenCall, copyType));
    Codegen.Code(lines)
  }

  /** As written, the copy overwrites the source with the destination's cells. */
  lemma CopyAsWrittenReversed(source: string, destination: string)
    ensures Effect(AsWrittenCall, source, destination) == Transfer(destination, source)
    ensures source != destination ==> Effect(AsWrittenCall, source, destination).writtenTo != destination
  {
  }

  /** The corrected generator: the destination range receives the copy. */
  function CopyCode(source: string, destination: string, copyType: Option<S.CopyKind>): (r: string)
    ensures Str.Contains(r, CallText(IntendedCall, copyType))
  {
    var lines := CopyLines(IntendedCall, source, destination, copyType);
    Codegen.HasTail(lines, 5, "  ", CallText(IntendedCall, copyType));
    Codegen.Code(lines)
  }

  /** The corrected call reads the source and writes the destination. */
  lemma CopyCodeTransfers(source: string, destination: string)
    ensures Effect(IntendedCall, source, destination) == Transfer(source, destination)
  {
  }

  // ---------------------------------------------------------------------
  // Insert and delete
  // ---------------------------------------------------------------------

  datatype CellAction = InsertAction | DeleteAction

  datatype Shift = ShiftDown | ShiftRight | ShiftUp | ShiftLeft

  function ShiftName(s: Shift): string
  {
    match s
    case ShiftDown => "down"
    case ShiftRight => "right"
    case ShiftUp => "up"
    case ShiftLeft => "left"
  }

  /** `shiftMapping[params.shift]`: down and right are insert directions, up and left delete directions. */
  function ShiftValue(s: Shift): (r: string)
    ensures (s == ShiftDown || s == ShiftRight) ==> r == "Excel.InsertShiftDirection." + ShiftName(s)
    ensures (s == ShiftUp || s == ShiftLeft) ==> r == "Excel.DeleteShiftDirection." + ShiftName(s)
  {
    match s
    case ShiftDown => "Excel.InsertShiftDirection.down"
    case ShiftRight => "Excel.InsertShiftDirection.right"
    case ShiftUp => "Excel.DeleteShiftDirection.up"
    case ShiftLeft => "Excel.DeleteShiftDirection.left"
  }

  /** The schema's shifts select the directions of their own kind. */
  lemma SchemaShiftsMatch(i: S.InsertShift, d: S.DeleteShift)
    ensures Str.StartsWith(ShiftValue(if i == S.Down then ShiftDown else ShiftRight), "Excel.InsertShiftDirection.")
    ensures Str.StartsWith(ShiftValue(if d == S.Up then ShiftUp else ShiftLeft), "Excel.DeleteShiftDirection.")
  {
  }

  /** `insert(...)` for an insert, `delete(...)` otherwise. */
  function Operation(action: CellAction, s: Shift): (r: string)
    ensures action == InsertAction ==> r == "insert(" + ShiftValue(s) + ")"
    ensures action == DeleteAction ==> r == "delete(" + ShiftValue(s) + ")"
  {
    (if action == InsertAction then "insert(" else "delete(") + ShiftValue(s) + ")"
  }

  function InsertDeleteLines(action: CellAction, address: string, s: Shift): seq<string>
  {
    [ "Excel.run(async (context) => {",
      "  const sheet = context.workbook.worksheets.getActiveWorksheet();",
      "  const range = sheet.getRange(\"" + address + "\");",
      "  " + ("range." + Operation(action, s) + ";"),
      "  await context.sync();",
      "  ",
      "  return { success: true };",
      "});" ]
  }

  /** `generateInsertDeleteCode`: the range is inserted or deleted with the mapped shift direction. */
  function InsertDeleteCode(action: CellAction, address: string, s: Shift): (r: string)
    ensures Str.Contains(r, "range." + Operation(action, s) + ";")
  {
    var lines := InsertDeleteLines(action, address, s);
    Codegen.HasTail(lines, 3, "  ", "range." + Operation(action, s) + ";");
    Codegen.Code(lines)
  }
}
