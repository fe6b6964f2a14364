/**
 * The argument shapes the Excel tools accept: range addresses in A1
 * notation, the range, worksheet, table and chart action unions, and their
 * enumerations.  Each union is a datatype, each enumeration a datatype with
 * its accepted spelling, and each field constraint a validity predicate.
 */
module ExcelSchemas {
  import opened Wrappers
  import Str
  import Json

  // ---------------------------------------------------------------------
  // A1 addresses: ^[A-Z]+\d+(:[A-Z]+\d+)?$
  // ---------------------------------------------------------------------

  /** `s[a..b]` is one or more capital letters (up to `m`) followed by one or more digits. */
  predicate CellSplit(s: string, a: nat, m: nat, b: nat)
  {
    a < m < b <= |s|
    && (forall k :: a <= k < m ==> Str.IsUpper(s[k]))
    && (forall k :: m <= k < b ==> Str.IsDigit(s[k]))
  }

  ghost predicate IsCellAt(s: string, a: nat, b: nat)
  {
    exists m :: CellSplit(s, a, m, b)
  }

  /** The addresses the range-address pattern describes: one cell, or two joined by `:`. */
  ghost predicate IsRangeAddress(s: string)
  {
    IsCellAt(s, 0, |s|) || exists k :: 0 < k < |s| && s[k] == ':' && IsCellAt(s, 0, k) && IsCellAt(s, k + 1, |s|)
  }

  /** The first index at or after `from` that is not a capital letter. */
  function UpperEnd(s: string, from: nat): (r: nat)
    requires from <= |s|
    ensures from <= r <= |s| && (r < |s| ==> !Str.IsUpper(s[r]))
    ensures forall k :: from <= k < r ==> Str.IsUpper(s[k])
    decreases |s| - from
  {
    if from < |s| && Str.IsUpper(s[from]) then UpperEnd(s, from + 1) else from
  }

  lemma {:induction false} UpperEndExact(s: string, from: nat, m: nat)
    requires from <= m <= |s|
    requires forall k :: from <= k < m ==> Str.IsUpper(s[k])
    requires m == |s| || !Str.IsUpper(s[m])
    ensures UpperEnd(s, from) == m
    decreases m - from
  {
    if from < m {
      UpperEndExact(s, from + 1, m);
    }
  }

  lemma {:induction false} DigitsEndExact(s: string, from: nat, m: nat)
    requires from <= m <= |s|
    requires forall k :: from <= k < m ==> Str.IsDigit(s[k])
    requires m == |s| || !Str.IsDigit(s[m])
    ensures Str.DigitsEnd(s, from) == m
    decreases m - from
  {
    if from < m {
      DigitsEndExact(s, from + 1, m);
    }
  }

  /** Scans one cell reference from `from`: where its digits end, if it has letters and digits. */
  function CellEnd(s: string, from: nat): (r: Option<nat>)
    requires from <= |s|
    ensures r.Some? ==> IsCellAt(s, from, r.value) && (r.value == |s| || !Str.IsDigit(s[r.value]))
  {
    var i := UpperEnd(s, from);
    if i == from then None
    else
      var j := Str.DigitsEnd(s, i);
      if j == i then None
      else
        assert CellSplit(s, from, i, j);
        Some(j)
  }

  lemma CellEndFinds(s: string, a: nat, b: nat)
    requires a <= |s| && IsCellAt(s, a, b)
    requires b == |s| || !Str.IsDigit(s[b])
    ensures CellEnd(s, a) == Some(b)
  {
    var m :| CellSplit(s, a, m, b);
    UpperEndExact(s, a, m);
    DigitsEndExact(s, m, b);
  }

  /** The pattern as a scanner. */
  function MatchesA1(s: string): bool
  {
    match CellEnd(s, 0)
    case None => false
    case Some(e) =>
      e == |s| || (s[e] == ':' && CellEnd(s, e + 1) == Some(|s|))
  }

  /** The scanner accepts exactly the addresses the pattern describes. */
  lemma MatchesA1Spec(s: string)
    ensures MatchesA1(s) <==> IsRangeAddress(s)
  {
    if IsCellAt(s, 0, |s|) {
      CellEndFinds(s, 0, |s|);
    } else if k :| 0 < k < |s| && s[k] == ':' && IsCellAt(s, 0, k) && IsCellAt(s, k + 1, |s|) {
      CellEndFinds(s, 0, k);
      CellEndFinds(s, k + 1, |s|);
    }
  }

  /** Sample addresses: `A1` and `A1:B10` pass; lower case, `$` and sheet prefixes fail. */
  lemma SingleCellAccepted()
    ensures MatchesA1("A1") && MatchesA1("AB12")
  {
    assert UpperEnd("A1", 1) == 1;
    assert Str.DigitsEnd("A1", 2) == 2;
    assert UpperEnd("AB12", 2) == 2;
    assert Str.DigitsEnd("AB12", 4) == 4;
  }

  lemma CellPairAccepted()
    ensures MatchesA1("A1:B10")
  {
    assert UpperEnd("A1:B10", 1) == 1;
    assert Str.DigitsEnd("A1:B10", 2) == 2;
    assert UpperEnd("A1:B10", 4) == 4;
    assert Str.DigitsEnd("A1:B10", 6) == 6;
  }

  lemma LowerCaseRejected()
    ensures !MatchesA1("a1")
  {
  }

  lemma AbsoluteRejected()
    ensures !MatchesA1("$A$1")
  {
  }

  lemma SheetPrefixRejected()
    ensures !MatchesA1("Sheet1!A1")
  {
    assert UpperEnd("Sheet1!A1", 1) == 1;
  }

  lemma IncompleteRejected()
    ensures !MatchesA1("A1:") && !MatchesA1("A")
  {
    assert UpperEnd("A1:", 1) == 1;
    assert Str.DigitsEnd("A1:", 2) == 2;
    assert UpperEnd("A1:", 3) == 3;
    assert UpperEnd("A", 1) == 1;
  }

  // ---------------------------------------------------------------------
  // Enumerations
  // ---------------------------------------------------------------------

  datatype HorizontalAlignment = HLeft | HCenter | HRight | HJustify

  function HorizontalName(a: HorizontalAlignment): string
  {
    match a
    case HLeft => "Left"
    case HCenter => "Center"
    case HRight => "Right"
    case HJustify => "Justify"
  }

  /** `z.enum(['Left', 'Center', 'Right', 'Justify'])` */
  function ParseHorizontal(s: string): (r: Option<HorizontalAlignment>)
    ensures r.Some? ==> HorizontalName(r.value) == s
    ensures r.None? <==> s !in {"Left", "Center", "Right", "Justify"}
  {
    if s == "Left" then Some(HLeft) else if s == "Center" then Some(HCenter)
    else if s == "Right" then Some(HRight) else if s == "Justify" then Some(HJustify) else None
  }

  datatype VerticalAlignment = VTop | VCenter | VBottom

  function VerticalName(a: VerticalAlignment): string
  {
    match a
    case VTop => "Top"
    case VCenter => "Center"
    case VBottom => "Bottom"
  }

  /** `z.enum(['Top', 'Center', 'Bottom'])` */
  function ParseVertical(s: string): (r: Option<VerticalAlignment>)
    ensures r.Some? ==> VerticalName(r.value) == s
    ensures r.None? <==> s !in {"Top", "Center", "Bottom"}
  {
    if s == "Top" then Some(VTop) else if s == "Center" then Some(VCenter) else if s == "Bottom" then Some(VBottom) else None
  }

  datatype ClearTarget = ClearContents | ClearFormats | ClearAll

  function ClearTargetName(t: ClearTarget): string
  {
    match t
    case ClearContents => "contents"
    case ClearFormats => "formats"
    case ClearAll => "all"
  }

  /** `z.enum(['contents', 'formats', 'all'])` */
  function ParseClearTarget(s: string): (r: Option<ClearTarget>)
    ensures r.Some? ==> ClearTargetName(r.value) == s
    ensures r.None? <==> s !in {"contents", "formats", "all"}
  {
    if s == "contents" then Some(ClearContents) else if s == "formats" then Some(ClearFormats)
    else if s == "all" then Some(ClearAll) else None
  }

  datatype CopyKind = CopyAll | CopyValues | CopyFormats

  function CopyKindName(t: CopyKind): string
  {
    match t
    case CopyAll => "all"
    case CopyValues => "values"
    case CopyFormats => "formats"
  }

  /** `z.enum(['all', 'values', 'formats'])` */
  function ParseCopyKind(s: string): (r: Option<CopyKind>)
    ensures r.Some? ==> CopyKindName(r.value) == s
    ensures r.None? <==> s !in {"all", "values", "formats"}
  {
    if s == "all" then Some(CopyAll) else if s == "values" then Some(CopyValues)
    else if s == "formats" then Some(CopyFormats) else None
  }

  /** The insert shift is `down` or `right`; the delete shift is `up` or `left`. */
  datatype InsertShift = Down | Right
  datatype DeleteShift = Up | LeftShift

  function InsertShiftName(d: InsertShift): string
  {
    match d
    case Down => "down"
    case Right => "right"
  }

  function DeleteShiftName(d: DeleteShift): string
  {
    match d
    case Up => "up"
    case LeftShift => "left"
  }

  function ParseInsertShift(s: string): (r: Option<InsertShift>)
    ensures r.Some? ==> InsertShiftName(r.value) == s
    ensures r.None? <==> s !in {"down", "right"}
  {
    if s == "down" then Some(Down) else if s == "right" then Some(Right) else None
  }

  function ParseDeleteShift(s: string): (r: Option<DeleteShift>)
    ensures r.Some? ==> DeleteShiftName(r.value) == s
    ensures r.None? <==> s !in {"up", "left"}
  {
    if s == "up" then Some(Up) else if s == "left" then Some(LeftShift) else None
  }

  /** An insert shift is never accepted as a delete shift, nor the other way round. */
  lemma ShiftsDisjoint(i: InsertShift, d: DeleteShift)
    ensures ParseDeleteShift(InsertShiftName(i)).None? && ParseInsertShift(DeleteShiftName(d)).None?
  {
  }

  datatype SheetPosition = AtStart | AtEnd | BeforeSheet | AfterSheet

  function SheetPositionName(p: SheetPosition): string
  {
    match p
    case AtStart => "start"
    case AtEnd => "end"
    case BeforeSheet => "before"
    case AfterSheet => "after"
  }

  datatype CopyPosition = CopyBefore | CopyAfter

  function CopyPositionName(p: CopyPosition): string
  {
    match p
    case CopyBefore => "before"
    case CopyAfter => "after"
  }

  datatype ChartType =
    | ColumnClustered | ColumnStacked | Line | LineMarkers | Pie
    | BarClustered | BarStacked | Area | AreaStacked | Scatter

  function ChartTypeName(t: ChartType): string
  {
    match t
    case ColumnClustered => "columnClustered"
    case ColumnStacked => "columnStacked"
    case Line => "line"
    case LineMarkers => "lineMarkers"
    case Pie => "pie"
    case BarClustered => "barClustered"
    case BarStacked => "barStacked"
    case Area => "area"
    case AreaStacked => "areaStacked"
    case Scatter => "scatter"
  }

  const ChartTypeNames: seq<string> := [
    "columnClustered", "columnStacked", "line", "lineMarkers", "pie",
    "barClustered", "barStacked", "area", "areaStacked", "scatter"
  ]

  /** The chart-type enumeration. */
  function ParseChartType(s: string): (r: Option<ChartType>)
    ensures r.Some? ==> ChartTypeName(r.value) == s
    ensures r.None? <==> s !in ChartTypeNames
  {
    if s == "columnClustered" then Some(ColumnClustered)
    else if s == "columnStacked" then Some(ColumnStacked)
    else if s == "line" then Some(Line)
    else if s == "lineMarkers" then Some(LineMarkers)
    else if s == "pie" then Some(Pie)
    else if s == "barClustered" then Some(BarClustered)
    else if s == "barStacked" then Some(BarStacked)
    else if s == "area" then Some(Area)
    else if s == "areaStacked" then Some(AreaStacked)
    else if s == "scatter" then Some(Scatter)
    else None
  }

  /** Ten chart types, each accepted under its own name. */
  lemma ChartTypesAccepted(t: ChartType)
    ensures |ChartTypeNames| == 10 && Str.NoDup(ChartTypeNames)
    ensures ParseChartType(ChartTypeName(t)) == Some(t)
  {
  }

  // ---------------------------------------------------------------------
  // Range actions
  // ---------------------------------------------------------------------

  datatype Font = Font(
    name: Option<string>, size: Option<int>, bold: Option<bool>,
    italic: Option<bool>, underline: Option<bool>, color: Option<string>)

  datatype Fill = Fill(color: Option<string>)

  datatype Borders = Borders(style: Option<string>, color: Option<string>, weight: Option<string>)

  datatype RangeFormat = RangeFormat(
    font: Option<Font>,
    fill: Option<Fill>,
    borders: Option<Borders>,
    numberFormat: Option<string>,
    horizontalAlignment: Option<HorizontalAlignment>,
    verticalAlignment: Option<VerticalAlignment>)

  datatype RangeAction =
    | ReadRange(address: string, includeFormulas: Option<bool>, includeFormat: Option<bool>)
    | ReadSelection
    | WriteRange(address: string, values: seq<seq<Json.Json>>, autoExpand: Option<bool>)
    | FormatRange(address: string, format: RangeFormat)
    | ClearRange(address: string, applyTo: Option<ClearTarget>)
    | CopyRange(source: string, destination: string, copyType: Option<CopyKind>)
    | InsertCells(address: string, insertShift: InsertShift)
    | DeleteCells(address: string, deleteShift: DeleteShift)

  const RangeActionNames: seq<string> := ["read", "read_selection", "write", "format", "clear", "copy", "insert", "delete"]

  /** The `action` discriminator of a range action. */
  function RangeActionName(a: RangeAction): (r: string)
    ensures r in RangeActionNames
  {
    match a
    case ReadRange(_, _, _) => "read"
    case ReadSelection => "read_selection"
    case WriteRange(_, _, _) => "write"
    case FormatRange(_, _) => "format"
    case ClearRange(_, _) => "clear"
    case CopyRange(_, _, _) => "copy"
    case InsertCells(_, _) => "insert"
    case DeleteCells(_, _) => "delete"
  }

  /** Every address field is in A1 notation. */
  ghost predicate ValidRangeAction(a: RangeAction)
  {
    match a
    case ReadSelection => true
    case CopyRange(src, dst, _) => IsRangeAddress(src) && IsRangeAddress(dst)
    case _ => IsRangeAddress(a.address)
  }

  /** A copy is valid exactly when the scanner accepts both addresses. */
  lemma CopyNeedsAddresses(src: string, dst: string, kind: Option<CopyKind>)
    ensures ValidRangeAction(CopyRange(src, dst, kind)) <==> MatchesA1(src) && MatchesA1(dst)
  {
    MatchesA1Spec(src);
    MatchesA1Spec(dst);
  }

  /** The union has exactly eight actions, one per discriminator. */
  lemma RangeActionsExactly(name: string) returns (a: RangeAction)
    requires name in RangeActionNames
    ensures |RangeActionNames| == 8 && Str.NoDup(RangeActionNames)
    ensures RangeActionName(a) == name
  {
    if name == "read" { a := ReadRange("A1", None, None); }
    else if name == "read_selection" { a := ReadSelection; }
    else if name == "write" { a := WriteRange("A1", [], None); }
    else if name == "format" { a := FormatRange("A1", RangeFormat(None, None, None, None, None, None)); }
    else if name == "clear" { a := ClearRange("A1", None); }
    else if name == "copy" { a := CopyRange("A1", "B1", None); }
    else if name == "insert" { a := InsertCells("A1", Down); }
    else { a := DeleteCells("A1", Up); }
  }

  // ---------------------------------------------------------------------
  // Worksheet, table and chart actions
  // ---------------------------------------------------------------------

  datatype WorksheetAction =
    | ListSheets
    | AddSheet(name: string, position: Option<SheetPosition>, referenceSheet: Option<string>)
    | DeleteSheet(name: string)
    | RenameSheet(oldName: string, newName: string)
    | SheetExists(name: string)
    | ActivateSheet(name: string)
    | CopySheet(sourceName: string, newName: string, copyPosition: Option<CopyPosition>)

  function WorksheetActionName(a: WorksheetAction): string
  {
    match a
    case ListSheets => "list"
    case AddSheet(_, _, _) => "add"
    case DeleteSheet(_) => "delete"
    case RenameSheet(_, _) => "rename"
    case SheetExists(_) => "exists"
    case ActivateSheet(_) => "activate"
    case CopySheet(_, _, _) => "copy"
  }

  datatype TableAction =
    | CreateTable(address: string, hasHeaders: bool, tableName: Option<string>, style: Option<string>)
    | ReadTable(name: string, includeHeaders: Option<bool>)
    | AddTableRow(name: string, values: Option<seq<Json.Json>>, index: Option<int>)
    | AddTableColumn(name: string, columnName: string, values: Option<seq<Json.Json>>)
    | SortTable(name: string, column: string, ascending: bool)
    | FilterTable(name: string, column: string, criteria: Option<Json.Json>)
    | DeleteTable(name: string)

  function TableActionName(a: TableAction): string
  {
    match a
    case CreateTable(_, _, _, _) => "create"
    case ReadTable(_, _) => "read"
    case AddTableRow(_, _, _) => "add_row"
    case AddTableColumn(_, _, _) => "add_column"
    case SortTable(_, _, _) => "sort"
    case FilterTable(_, _, _) => "filter"
    case DeleteTable(_) => "delete"
  }

  ghost predicate ValidTableAction(a: TableAction)
  {
    a.CreateTable? ==> IsRangeAddress(a.address)
  }

  datatype ChartPosition = ChartPosition(left: int, top: int)

  datatype ChartAction =
    | CreateChart(dataRange: string, chartType: ChartType, position: Option<ChartPosition>, chartTitle: Option<string>)
    | UpdateChart(chartId: string, newRange: Option<string>)
    | SetChartTitle(chartId: string, title: string)
    | DeleteChart(chartId: string)

  function ChartActionName(a: ChartAction): string
  {
    match a
    case CreateChart(_, _, _, _) => "create"
    case UpdateChart(_, _) => "update"
    case SetChartTitle(_, _) => "set_title"
    case DeleteChart(_) => "delete"
  }

  /** Chart create needs a valid data range; an update's range, when given, is valid too. */
  ghost predicate ValidChartAction(a: ChartAction)
  {
    match a
    case CreateChart(range, _, _, _) => IsRangeAddress(range)
    case UpdateChart(_, range) => range.Some? ==> IsRangeAddress(range.value)
    case _ => true
  }

  /** Chart creation is valid exactly when the scanner accepts the data range. */
  lemma ChartCreateNeedsAddress(range: string, t: ChartType, p: Option<ChartPosition>, title: Option<string>)
    ensures ValidChartAction(CreateChart(range, t, p, title)) <==> MatchesA1(range)
  {
    MatchesA1Spec(range);
  }
}
