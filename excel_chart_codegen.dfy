/**
 * The Excel chart generators: create, update the data of, retitle and
 * delete a chart on the active worksheet.  Charts other than the new one
 * are found with `charts.getItem`, which has no null-object test.
 */
module ExcelChartCodegen {
  import opened Wrappers
  import Str
  import Codegen
  import S = ExcelSchemas

  // ---------------------------------------------------------------------
  // Create
  // ---------------------------------------------------------------------

  /** `params.position || { left: 200, top: 100 }` */
  function ChartPlace(position: Option<S.ChartPosition>): (r: S.ChartPosition)
    ensures position.Some? ==> r == position.value
    ensures position.None? ==> r.left == 200 && r.top == 100
  {
    position.GetOr(S.ChartPosition(200, 100))
  }

  /** `chart.setPosition(null, null, <left>, <top>)` */
  function SetPosition(p: S.ChartPosition): string
  {
    "chart.setPosition(null, null, " + Codegen.Num(p.left) + ", " + Codegen.Num(p.top) + ")"
  }

  /** `Excel.ChartType.<chartType>` */
  function ChartTypeMember(chartType: string): string
  {
    "Excel.ChartType." + chartType
  }

  /** `${params.title ? \`chart.title.text = "${params.title}";\` : ''}` */
  function TitleLine(title: Option<string>): (r: string)
    ensures r == "" <==> !Codegen.HasText(title)
  {
    if Codegen.HasText(title) then "chart.title.text = \"" + title.value + "\";" else ""
  }

  function CreateLines(dataRange: string, chartType: string, position: Option<S.ChartPosition>, title: Option<string>): seq<string>
  {
    [ "Excel.run(async (context) => {",
      "  const sheet = context.workbook.worksheets.getActiveWorksheet();",
      "  const range = " + ("sheet.getRange(\"" + dataRange + "\")") + ";",
      "  ",
      "  // 创建图表",
      "  const chart = sheet.charts.add(",
      "    " + (ChartTypeMember(chartType)) + ",",
      "    range,",
      "    Excel.ChartSeriesBy.auto",
      "  );",
      "  ",
      "  " + (SetPosition(ChartPlace(position))) + ";",
      "  " + (TitleLine(title)) ]
    + [ "  ",
        "  chart.load(\"id\");",
        "  await context.sync();",
        "  ",
        "  return {",
        "    chartId: chart.id,",
        "    success: true",
        "  };",
        "});" ]
  }

  /** `generateCreateCode` */
  function CreateCode(dataRange: string, chartType: string, position: Option<S.ChartPosition>, title: Option<string>): string
  {
    Codegen.Code(CreateLines(dataRange, chartType, position, title))
  }

  /**
   * The chart is built from the range with the chart type embedded as an
   * `Excel.ChartType` member and placed at the given position, or at
   * (200, 100); the title line is blank exactly when no title is given.
   */
  lemma CreatePlacesChart(dataRange: string, chartType: string, position: Option<S.ChartPosition>, title: Option<string>)
    ensures Str.Contains(CreateCode(dataRange, chartType, position, title), "sheet.getRange(\"" + dataRange + "\")")
    ensures Str.Contains(CreateCode(dataRange, chartType, position, title), ChartTypeMember(chartType))
    ensures Str.Contains(CreateCode(dataRange, chartType, position, title), SetPosition(ChartPlace(position)))
    ensures CreateLines(dataRange, chartType, position, title)[12] == "  " <==> !Codegen.HasText(title)
  {
    var lines := CreateLines(dataRange, chartType, position, title);
    Codegen.HasLine(lines, 2, "  const range = ", "sheet.getRange(\"" + dataRange + "\")", ";");
    Codegen.HasLine(lines, 6, "    ", ChartTypeMember(chartType), ",");
    Codegen.HasLine(lines, 11, "  ", SetPosition(ChartPlace(position)), ";");
    assert lines[12] == "  " + TitleLine(title);
    assert lines[12] == "  " <==> TitleLine(title) == "" by {
      if lines[12] == "  " {
        assert |TitleLine(title)| == 0;
      }
    }
  }

  /** With a title, its line sets the chart title. */
  lemma CreateTitled(dataRange: string, chartType: string, position: Option<S.ChartPosition>, title: Option<string>)
    requires Codegen.HasText(title)
    ensures Str.Contains(CreateCode(dataRange, chartType, position, title), "chart.title.text = \"" + title.value + "\";")
  {
    var lines := CreateLines(dataRange, chartType, position, title);
    assert lines[12] == "  " + TitleLine(title);
    Codegen.HasTail(lines, 12, "  ", TitleLine(title));
  }

  /** Without a position the chart goes to (200, 100). */
  lemma CreateDefaultPosition(dataRange: string, chartType: string, title: Option<string>)
    ensures Str.Contains(CreateCode(dataRange, chartType, None, title), SetPosition(S.ChartPosition(200, 100)))
  {
    CreatePlacesChart(dataRange, chartType, None, title);
  }

  /** A chart type the schema accepts is embedded under its own name. */
  lemma CreateSchemaType(dataRange: string, t: S.ChartType, position: Option<S.ChartPosition>, title: Option<string>)
    ensures S.ParseChartType(S.ChartTypeName(t)) == Some(t)
    ensures Str.Contains(CreateCode(dataRange, S.ChartTypeName(t), position, title), "Excel.ChartType." + S.ChartTypeName(t))
  {
    S.ChartTypesAccepted(t);
    CreatePlacesChart(dataRange, S.ChartTypeName(t), position, title);
  }

  // ---------------------------------------------------------------------
  // Update, set title, delete
  // ---------------------------------------------------------------------

  /** `sheet.charts.getItem("<chartId>")` */
  function ChartLookup(chartId: string): string
  {
    "sheet.charts.getItem(\"" + chartId + "\")"
  }

  /** The three lines every chart-editing template opens with. */
  function ChartOpening(chartId: string): (r: seq<string>)
    ensures |r| == 3
  {
    [ "Excel.run(async (context) => {",
      "  const sheet = context.workbook.worksheets.getActiveWorksheet();",
      "  const chart = " + (ChartLookup(chartId)) + ";" ]
  }

  const SetData := "chart.setData(newRange)"

  /** The data slot of `update`: the new range and `setData` when a range is given, else one blank line. */
  function DataLines(dataRange: Option<string>): (r: seq<string>)
    ensures |r| == if Codegen.HasText(dataRange) then 4 else 1
  {
    if Codegen.HasText(dataRange) then
      [ "  ",
        "  const newRange = sheet.getRange(\"" + dataRange.value + "\");",
        "  " + (SetData) + ";",
        "  " ]
    else ["  "]
  }

  const UpdateFoot: seq<string> := [
    "  ",
    "  await context.sync();",
    "  ",
    "  return {",
    "    success: true",
    "  };",
    "});" ]

  function UpdateLines(chartId: string, dataRange: Option<string>): seq<string>
  {
    ChartOpening(chartId) + (["  "] + DataLines(dataRange) + UpdateFoot)
  }

  /** `generateUpdateCode` */
  function UpdateCode(chartId: string, dataRange: Option<string>): (r: string)
    ensures Str.Contains(r, ChartLookup(chartId))
  {
    var lines := UpdateLines(chartId, dataRange);
    Codegen.HasLine(lines, 2, "  const chart = ", ChartLookup(chartId), ";");
    Codegen.Code(lines)
  }

  /** An update re-points the chart at the new range exactly when one is given; otherwise it changes nothing. */
  lemma UpdateSetsData(chartId: string, dataRange: Option<string>)
    ensures Codegen.HasText(dataRange) ==> Str.Contains(UpdateCode(chartId, dataRange), SetData)
    ensures Codegen.HasText(dataRange) <==> |UpdateLines(chartId, dataRange)| == 15
    ensures !Codegen.HasText(dataRange) ==> UpdateLines(chartId, dataRange) == UpdateLines(chartId, None)
  {
    if Codegen.HasText(dataRange) {
      var lines := UpdateLines(chartId, dataRange);
      assert lines[6] == "  " + (SetData) + ";";
      Codegen.HasLine(lines, 6, "  ", SetData, ";");
    }
  }

  /** `chart.title.text = "<title>"` */
  function TitleSet(title: string): string
  {
    "chart.title.text = \"" + title + "\""
  }

  /** `generateSetTitleCode`: sets the title of the chart with that id. */
  function SetTitleCode(chartId: string, title: string): (r: string)
    ensures Str.Contains(r, ChartLookup(chartId))
    ensures Str.Contains(r, TitleSet(title))
  {
    var lines := ChartOpening(chartId) + ["  " + (TitleSet(title)) + ";"] + UpdateFoot;
    assert lines[2] == ChartOpening(chartId)[2];
    Codegen.HasLine(lines, 2, "  const chart = ", ChartLookup(chartId), ";");
    Codegen.HasLine(lines, 3, "  ", TitleSet(title), ";");
    Codegen.Code(lines)
  }

  /** `deleted: "<chartId>"` */
  function Deleted(chartId: string): string
  {
    "deleted: \"" + chartId + "\""
  }

  function DeleteFoot(chartId: string): seq<string>
  {
    [ "  ",
      "  await context.sync();",
      "  ",
      "  return {",
      "    success: true,",
      "    " + (Deleted(chartId)),
      "  };",
      "});" ]
  }

  /** `generateDeleteCode`: deletes the chart and reports the id it was given. */
  function DeleteCode(chartId: string): (r: string)
    ensures Str.Contains(r, ChartLookup(chartId))
    ensures Str.Contains(r, "chart.delete()")
    ensures Str.Contains(r, Deleted(chartId))
  {
    var lines := ChartOpening(chartId) + ["  " + ("chart.delete()") + ";"] + DeleteFoot(chartId);
    assert lines[2] == ChartOpening(chartId)[2];
    assert lines[9] == DeleteFoot(chartId)[5];
    Codegen.HasLine(lines, 2, "  const chart = ", ChartLookup(chartId), ";");
    Codegen.HasLine(lines, 3, "  ", "chart.delete()", ";");
    Codegen.HasTail(lines, 9, "    ", Deleted(chartId));
    Codegen.Code(lines)
  }
}
