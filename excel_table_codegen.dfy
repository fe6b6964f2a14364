/**
 * The Excel table generators: create, read, add a row or a column, sort,
 * filter and delete a table on the active worksheet.  Every generator but
 * `create` looks the table up by name first and fails with 表格不存在 when
 * there is none; sort and filter then look the column up the same way.
 */
module ExcelTableCodegen {
  import opened Wrappers
  import Str
  import Json
  import Codegen

  /** The two lines every template opens with. */
  const Opening: seq<string> := [
    "Excel.run(async (context) => {",
    "  const sheet = context.workbook.worksheets.getActiveWorksheet();" ]

  /** `sheet.tables.getItemOrNullObject("<name>")` */
  function TableLookup(name: string): string
  {
    "sheet.tables.getItemOrNullObject(\"" + name + "\")"
  }

  function TableMissing(name: string): string
  {
    "表格不存在: " + name
  }

  /** `table.columns.getItemOrNullObject("<column>")` */
  function ColumnLookup(column: string): string
  {
    "table.columns.getItemOrNullObject(\"" + column + "\")"
  }

  function ColumnMissing(column: string): string
  {
    "列不存在: " + column
  }

  /** The table guard every generator but `create` opens with. */
  function TableGuard(name: string): seq<string>
  {
    Codegen.NullGuard("table", TableLookup(name), TableMissing(name))
  }

  function ColumnGuard(column: string): seq<string>
  {
    Codegen.NullGuard("column", ColumnLookup(column), ColumnMissing(column))
  }

  /** A template made of the opening, the table guard and further lines fails on a missing table first. */
  lemma TableChecked(name: string, rest: seq<string>)
    ensures Codegen.GuardAt(Opening + TableGuard(name) + rest, 2, "table", TableLookup(name), TableMissing(name))
    ensures Str.Contains(Codegen.Code(Opening + TableGuard(name) + rest), TableLookup(name))
    ensures Str.Contains(Codegen.Code(Opening + TableGuard(name) + rest), "error: \"" + TableMissing(name) + "\"")
  {
    Codegen.GuardText(Opening, "table", TableLookup(name), TableMissing(name), rest);
  }

  // ---------------------------------------------------------------------
  // Create
  // ---------------------------------------------------------------------

  /**
   * `params.name || \`Table${Date.now()}\``; the clock reading `now` is a
   * parameter.
   */
  function TableName(name: Option<string>, now: int): (r: string)
    ensures Codegen.HasText(name) ==> r == name.value
    ensures !Codegen.HasText(name) ==> r == "Table" + Codegen.Num(now)
  {
    if Codegen.HasText(name) then name.value else "Table" + Codegen.Num(now)
  }

  /** A given name makes the clock irrelevant; without one, two different readings name two different tables. */
  lemma TableNameClock(name: Option<string>, now: int, later: int)
    ensures Codegen.HasText(name) ==> TableName(name, now) == TableName(name, later)
    ensures !Codegen.HasText(name) && now != later ==> TableName(name, now) != TableName(name, later)
  {
    if !Codegen.HasText(name) && now != later {
      var a, b := TableName(name, now), TableName(name, later);
      if a == b {
        assert a[5..] == Codegen.Num(now) && b[5..] == Codegen.Num(later);
        Str.IntToStringInjective(now, later);
      }
    }
  }

  /** `${params.style ? \`table.style = "${params.style}";\` : ''}` */
  function StyleLine(style: Option<string>): (r: string)
    ensures r == "" <==> !Codegen.HasText(style)
  {
    if Codegen.HasText(style) then "table.style = \"" + style.value + "\";" else ""
  }

  function CreateLines(address: string, hasHeaders: bool, name: Option<string>, style: Option<string>, now: int): seq<string>
  {
    [ "Excel.run(async (context) => {",
      "  const sheet = context.workbook.worksheets.getActiveWorksheet();",
      "  const range = sheet.getRange(\"" + address + "\");",
      "  ",
      "  // 创建表格",
      "  const table = " + ("sheet.tables.add(range, " + Codegen.Bool(hasHeaders) + ")") + ";",
      "  " + ("table.name = \"" + TableName(name, now) + "\"") + ";",
      "  " + (StyleLine(style)) ]
    + [ "  ",
        "  table.load(\"name\");",
        "  await context.sync();",
        "  ",
        "  return {",
        "    tableName: table.name,",
        "    success: true",
        "  };",
        "});" ]
  }

  /** `generateCreateCode` */
  function CreateCode(address: string, hasHeaders: bool, name: Option<string>, style: Option<string>, now: int): string
  {
    Codegen.Code(CreateLines(address, hasHeaders, name, style, now))
  }

  /**
   * The range becomes a table with the header flag and the chosen name; the
   * style line is blank exactly when no style is given.
   */
  lemma CreateNamesTable(address: string, hasHeaders: bool, name: Option<string>, style: Option<string>, now: int)
    ensures Str.Contains(CreateCode(address, hasHeaders, name, style, now), "sheet.tables.add(range, " + Codegen.Bool(hasHeaders) + ")")
    ensures Str.Contains(CreateCode(address, hasHeaders, name, style, now), "table.name = \"" + TableName(name, now) + "\"")
    ensures CreateLines(address, hasHeaders, name, style, now)[7] == "  " <==> !Codegen.HasText(style)
  {
    var lines := CreateLines(address, hasHeaders, name, style, now);
    Codegen.HasLine(lines, 5, "  const table = ", "sheet.tables.add(range, " + Codegen.Bool(hasHeaders) + ")", ";");
    Codegen.HasLine(lines, 6, "  ", "table.name = \"" + TableName(name, now) + "\"", ";");
    assert lines[7] == "  " + StyleLine(style);
    assert lines[7] == "  " <==> StyleLine(style) == "" by {
      if lines[7] == "  " {
        assert |StyleLine(style)| == 0;
      }
    }
  }

  /** With a style, its line sets the table style. */
  lemma CreateStyled(address: string, hasHeaders: bool, name: Option<string>, style: Option<string>, now: int)
    requires Codegen.HasText(style)
    ensures Str.Contains(CreateCode(address, hasHeaders, name, style, now), "table.style = \"" + style.value + "\";")
  {
    var lines := CreateLines(address, hasHeaders, name, style, now);
    assert lines[7] == "  " + StyleLine(style);
    Codegen.HasTail(lines, 7, "  ", StyleLine(style));
  }

  // ---------------------------------------------------------------------
  // Read
  // ---------------------------------------------------------------------

  /** `params.includeHeaders !== false` */
  predicate IncludeHeaders(includeHeaders: Option<bool>)
  {
    includeHeaders != Some(false)
  }

  const HeaderLoad := "headerRange.load(\"values\")"
  const HeadersField := "headers: headerRange.values[0],"

  /** The header-row slot: three more lines when headers are read, else one blank line. */
  function HeaderLines(withHeaders: bool): (r: seq<string>)
    ensures |r| == if withHeaders then 4 else 1
  {
    if withHeaders then
      [ "  ",
        "  const headerRange = table.getHeaderRowRange();",
        "  " + (HeaderLoad) + ";",
        "  " ]
    else ["  "]
  }

  function ReadLines(name: string, withHeaders: bool): seq<string>
  {
    Opening + TableGuard(name)
      + ( [ "  const dataRange = table.getDataBodyRange();",
            "  dataRange.load(\"values\");",
            "  " ]
        + HeaderLines(withHeaders)
        + [ "  ",
            "  await context.sync();",
            "  ",
            "  return {",
            "    name: \"" + name + "\",",
            "    " + (if withHeaders then HeadersField else ""),
            "    data: dataRange.values,",
            "    totalRows: dataRange.values.length",
            "  };",
            "});" ] )
  }

  /** `generateReadCode` */
  function ReadCode(name: string, includeHeaders: Option<bool>): string
  {
    Codegen.Code(ReadLines(name, IncludeHeaders(includeHeaders)))
  }

  /** Reading fails on a missing table; otherwise it reads the header row unless `includeHeaders` is `false`. */
  lemma ReadHeaders(name: string, includeHeaders: Option<bool>)
    ensures Str.Contains(ReadCode(name, includeHeaders), "error: \"" + TableMissing(name) + "\"")
    ensures IncludeHeaders(includeHeaders) ==> Str.Contains(ReadCode(name, includeHeaders), HeaderLoad)
    ensures IncludeHeaders(includeHeaders) ==> Str.Contains(ReadCode(name, includeHeaders), HeadersField)
  {
    var withHeaders := IncludeHeaders(includeHeaders);
    var rest := ReadLines(name, withHeaders)[12..];
    assert ReadLines(name, withHeaders) == Opening + TableGuard(name) + rest;
    TableChecked(name, rest);
    if withHeaders {
      var lines := ReadLines(name, withHeaders);
      assert lines[17] == "  " + (HeaderLoad) + ";";
      Codegen.HasLine(lines, 17, "  ", HeaderLoad, ";");
      assert lines[24] == "    " + (HeadersField);
      Codegen.HasTail(lines, 24, "    ", HeadersField);
    }
  }

  /** `includeHeaders: false` drops the three header lines and blanks the `headers` field; leaving it out means `true`. */
  lemma ReadWithoutHeaders(name: string)
    ensures |ReadLines(name, false)| + 3 == |ReadLines(name, true)|
    ensures ReadLines(name, false)[21] == "    "
    ensures ReadCode(name, None) == ReadCode(name, Some(true))
  {
  }

  // ---------------------------------------------------------------------
  // Add a row or a column
  // ---------------------------------------------------------------------

  /** `params.index !== undefined ? params.index : 'null'` */
  function IndexParam(index: Option<int>): (r: string)
    ensures index.Some? ==> r == Codegen.Num(index.value)
    ensures index.None? ==> r == "null"
  {
    match index
    case Some(i) => Codegen.Num(i)
    case None => "null"
  }

  /** `table.rows.add(<index>, <values>)` */
  function RowsAdd(index: Option<int>, values: Option<seq<Json.Json>>): string
  {
    "table.rows.add(" + IndexParam(index) + ", " + Codegen.RowValues(values) + ")"
  }

  function AddRowSteps(index: Option<int>, values: Option<seq<Json.Json>>): seq<string>
  {
    [ "  const newRow = " + (RowsAdd(index, values)) + ";",
      "  newRow.load(\"index\");",
      "  await context.sync();",
      "  ",
      "  return {",
      "    success: true,",
      "    newRowIndex: newRow.index",
      "  };",
      "});" ]
  }

  /** `generateAddRowCode`: fails on a missing table, else adds the row at the index, or at the end for `null`. */
  function AddRowCode(name: string, values: Option<seq<Json.Json>>, index: Option<int>): (r: string)
    ensures Str.Contains(r, "error: \"" + TableMissing(name) + "\"")
    ensures Str.Contains(r, RowsAdd(index, values))
  {
    var steps := AddRowSteps(index, values);
    var lines := Opening + TableGuard(name) + steps;
    TableChecked(name, steps);
    assert lines[12] == steps[0];
    Codegen.HasLine(lines, 12, "  const newRow = ", RowsAdd(index, values), ";");
    Codegen.Code(lines)
  }

  /** `table.columns.add(null, <values>, "<columnName>")` */
  function ColumnsAdd(columnName: string, values: Option<seq<Json.Json>>): string
  {
    "table.columns.add(null, " + Codegen.ColumnValues(values) + ", \"" + columnName + "\")"
  }

  function AddColumnSteps(columnName: string, values: Option<seq<Json.Json>>): seq<string>
  {
    [ "  const newColumn = " + (ColumnsAdd(columnName, values)) + ";",
      "  await context.sync();",
      "  ",
      "  return {",
      "    success: true",
      "  };",
      "});" ]
  }

  /** `generateAddColumnCode`: fails on a missing table, else appends the named column. */
  function AddColumnCode(name: string, columnName: string, values: Option<seq<Json.Json>>): (r: string)
    ensures Str.Contains(r, "error: \"" + TableMissing(name) + "\"")
    ensures Str.Contains(r, ColumnsAdd(columnName, values))
  {
    var steps := AddColumnSteps(columnName, values);
    var lines := Opening + TableGuard(name) + steps;
    TableChecked(name, steps);
    assert lines[12] == steps[0];
    Codegen.HasLine(lines, 12, "  const newColumn = ", ColumnsAdd(columnName, values), ";");
    Codegen.Code(lines)
  }

  // ---------------------------------------------------------------------
  // Sort and filter
  // ---------------------------------------------------------------------

  /** The table guard, then the column guard, then the steps. */
  function ColumnCheckedLines(name: string, column: string, steps: seq<string>): seq<string>
  {
    Opening + TableGuard(name) + (ColumnGuard(column) + steps)
  }

  /** The column is looked up only after the table guard: lines 2-11 check the table, lines 12-21 the column. */
  lemma ColumnAfterTable(name: string, column: string, steps: seq<string>)
    ensures Codegen.GuardAt(ColumnCheckedLines(name, column, steps), 2, "table", TableLookup(name), TableMissing(name))
    ensures Codegen.GuardAt(ColumnCheckedLines(name, column, steps), 12, "column", ColumnLookup(column), ColumnMissing(column))
    ensures Str.Contains(Codegen.Code(ColumnCheckedLines(name, column, steps)), "error: \"" + ColumnMissing(column) + "\"")
  {
    var lines := ColumnCheckedLines(name, column, steps);
    TableChecked(name, ColumnGuard(column) + steps);
    assert lines == (Opening + TableGuard(name)) + ColumnGuard(column) + steps;
    Codegen.GuardText(Opening + TableGuard(name), "column", ColumnLookup(column), ColumnMissing(column), steps);
  }

  const SortFoot: seq<string> := [
    "  }]);",
    "  ",
    "  await context.sync();",
    "  ",
    "  return {",
    "    success: true",
    "  };",
    "});" ]

  function SortSteps(ascending: bool): seq<string>
  {
    [ "  table.sort.apply([{",
      "    key: column.index,",
      "    " + ("ascending: " + Codegen.Bool(ascending)) ]
    + SortFoot
  }

  /** `generateSortCode`: sorts on the column's index, in the requested direction. */
  function SortCode(name: string, column: string, ascending: bool): (r: string)
    ensures Str.Contains(r, "error: \"" + ColumnMissing(column) + "\"")
    ensures Str.Contains(r, "ascending: " + Codegen.Bool(ascending))
  {
    var steps := SortSteps(ascending);
    var lines := ColumnCheckedLines(name, column, steps);
    ColumnAfterTable(name, column, steps);
    assert lines[24] == steps[2];
    Codegen.HasTail(lines, 24, "    ", "ascending: " + Codegen.Bool(ascending));
    Codegen.Code(lines)
  }

  const FilterApply := "table.autoFilter.apply(table.getRange())"

  const FilterSteps: seq<string> := [
    "  // 应用筛选（简化版本）",
    "  " + (FilterApply) + ";",
    "  ",
    "  await context.sync();",
    "  ",
    "  return {",
    "    success: true,",
    "    note: \"已启用自动筛选\"",
    "  };",
    "});" ]

  /** `generateFilterCode`: turns the auto-filter on for the whole table; `criteria` is accepted and not used. */
  function FilterCode(name: string, column: string, criteria: Option<Json.Json>): (r: string)
    ensures Str.Contains(r, "error: \"" + ColumnMissing(column) + "\"")
    ensures Str.Contains(r, FilterApply)
  {
    var lines := ColumnCheckedLines(name, column, FilterSteps);
    ColumnAfterTable(name, column, FilterSteps);
    assert lines[23] == FilterSteps[1];
    Codegen.HasLine(lines, 23, "  ", FilterApply, ";");
    Codegen.Code(lines)
  }

  /** The criteria never reach the generated code. */
  lemma FilterIgnoresCriteria(name: string, column: string, c: Option<Json.Json>, d: Option<Json.Json>)
    ensures FilterCode(name, column, c) == FilterCode(name, column, d)
  {
  }

  // ---------------------------------------------------------------------
  // Delete
  // ---------------------------------------------------------------------

  function DeleteSteps(name: string): seq<string>
  {
    [ "  " + ("table.delete()") + ";",
      "  await context.sync();",
      "  ",
      "  return {",
      "    success: true,",
      "    deleted: \"" + name + "\"",
      "  };",
      "});" ]
  }

  /** `generateDeleteCode`: deletes the table, or fails when there is none of that name. */
  function DeleteCode(name: string): (r: string)
    ensures Str.Contains(r, "error: \"" + TableMissing(name) + "\"")
    ensures Str.Contains(r, "table.delete()")
  {
    var steps := DeleteSteps(name);
    var lines := Opening + TableGuard(name) + steps;
    TableChecked(name, steps);
    assert lines[12] == steps[0];
    Codegen.HasLine(lines, 12, "  ", "table.delete()", ";");
    Codegen.Code(lines)
  }
}
