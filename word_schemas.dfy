/**
 * The argument shapes the Word tools accept: the document, paragraph and
 * table action unions and their enumerations.
 */
module WordSchemas {
  import opened Wrappers
  import Str
  import Json

  // ---------------------------------------------------------------------
  // Document actions
  // ---------------------------------------------------------------------

  datatype DocumentAction =
    | ReadDocument(includeFormat: Option<bool>, maxLength: Option<int>)
    | ReadSelection
    | Search(searchText: string, matchCase: Option<bool>, matchWholeWord: Option<bool>)
    | Replace(searchText: string, replaceText: string, matchCase: Option<bool>, replaceAll: Option<bool>)
    | ClearDocument

  const DocumentActionNames: seq<string> := ["read", "read_selection", "search", "replace", "clear"]

  function DocumentActionName(a: DocumentAction): (r: string)
    ensures r in DocumentActionNames
  {
    match a
    case ReadDocument(_, _) => "read"
    case ReadSelection => "read_selection"
    case Search(_, _, _) => "search"
    case Replace(_, _, _, _) => "replace"
    case ClearDocument => "clear"
  }

  /** The document union has exactly five actions, one per discriminator. */
  lemma DocumentActionsExactly(name: string) returns (a: DocumentAction)
    requires name in DocumentActionNames
    ensures |DocumentActionNames| == 5 && Str.NoDup(DocumentActionNames)
    ensures DocumentActionName(a) == name
  {
    if name == "read" { a := ReadDocument(None, None); }
    else if name == "read_selection" { a := ReadSelection; }
    else if name == "search" { a := Search("", None, None); }
    else if name == "replace" { a := Replace("", "", None, None); }
    else { a := ClearDocument; }
  }

  // ---------------------------------------------------------------------
  // Paragraph actions
  // ---------------------------------------------------------------------

  datatype Alignment = AlignLeft | AlignCenter | AlignRight | AlignJustify

  function AlignmentName(a: Alignment): string
  {
    match a
    case AlignLeft => "Left"
    case AlignCenter => "Center"
    case AlignRight => "Right"
    case AlignJustify => "Justify"
  }

  /** `z.enum(['Left', 'Center', 'Right', 'Justify'])` */
  function ParseAlignment(s: string): (r: Option<Alignment>)
    ensures r.Some? ==> AlignmentName(r.value) == s
    ensures r.None? <==> s !in {"Left", "Center", "Right", "Justify"}
  {
    if s == "Left" then Some(AlignLeft) else if s == "Center" then Some(AlignCenter)
    else if s == "Right" then Some(AlignRight) else if s == "Justify" then Some(AlignJustify) else None
  }

  /** Where `insert` may place a paragraph. */
  datatype InsertLocation = Start | End | Before | After | ReplaceLocation

  function InsertLocationName(l: InsertLocation): string
  {
    match l
    case Start => "Start"
    case End => "End"
    case Before => "Before"
    case After => "After"
    case ReplaceLocation => "Replace"
  }

  /** `z.enum(['Start', 'End', 'Before', 'After', 'Replace'])` */
  function ParseInsertLocation(s: string): (r: Option<InsertLocation>)
    ensures r.Some? ==> InsertLocationName(r.value) == s
    ensures r.None? <==> s !in {"Start", "End", "Before", "After", "Replace"}
  {
    if s == "Start" then Some(Start) else if s == "End" then Some(End)
    else if s == "Before" then Some(Before) else if s == "After" then Some(After)
    else if s == "Replace" then Some(ReplaceLocation) else None
  }

  /** Where `insert_at` may place a paragraph relative to an indexed one. */
  datatype RelativeLocation = RelBefore | RelAfter

  function RelativeLocationName(l: RelativeLocation): string
  {
    match l
    case RelBefore => "Before"
    case RelAfter => "After"
  }

  /** `z.enum(['Before', 'After'])` */
  function ParseRelativeLocation(s: string): (r: Option<RelativeLocation>)
    ensures r.Some? ==> RelativeLocationName(r.value) == s
    ensures r.None? <==> s !in {"Before", "After"}
  {
    if s == "Before" then Some(RelBefore) else if s == "After" then Some(RelAfter) else None
  }

  /** Every `insert_at` location is an `insert` location; Start, End and Replace are not `insert_at` locations. */
  lemma RelativeWithinInsert(l: RelativeLocation)
    ensures ParseInsertLocation(RelativeLocationName(l)).Some?
    ensures ParseRelativeLocation("Start").None? && ParseRelativeLocation("End").None? && ParseRelativeLocation("Replace").None?
  {
  }

  datatype ParagraphFont = ParagraphFont(
    name: Option<string>, size: Option<int>, bold: Option<bool>,
    italic: Option<bool>, underline: Option<bool>, color: Option<string>)

  datatype Spacing = Spacing(before: Option<int>, after: Option<int>, line: Option<int>)

  datatype ParagraphFormat = ParagraphFormat(
    style: Option<string>, alignment: Option<Alignment>, font: Option<ParagraphFont>, spacing: Option<Spacing>)

  datatype ParagraphAction =
    | InsertParagraph(text: string, location: InsertLocation, format: Option<ParagraphFormat>)
    | InsertParagraphAt(text: string, index: int, relative: RelativeLocation, format: Option<ParagraphFormat>)
    | FormatParagraph(index: int, paragraphFormat: ParagraphFormat)
    | DeleteParagraph(index: int)
    | GetParagraph(index: int)

  function ParagraphActionName(a: ParagraphAction): string
  {
    match a
    case InsertParagraph(_, _, _) => "insert"
    case InsertParagraphAt(_, _, _, _) => "insert_at"
    case FormatParagraph(_, _) => "format"
    case DeleteParagraph(_) => "delete"
    case GetParagraph(_) => "get"
  }

  // ---------------------------------------------------------------------
  // Table actions
  // ---------------------------------------------------------------------

  /** Where a new table goes. */
  datatype TableLocation = TableStart | TableEnd

  function TableLocationName(l: TableLocation): string
  {
    match l
    case TableStart => "Start"
    case TableEnd => "End"
  }

  /** `z.enum(['Start', 'End'])` */
  function ParseTableLocation(s: string): (r: Option<TableLocation>)
    ensures r.Some? ==> TableLocationName(r.value) == s
    ensures r.None? <==> s !in {"Start", "End"}
  {
    if s == "Start" then Some(TableStart) else if s == "End" then Some(TableEnd) else None
  }

  datatype CellFill = CellFill(color: Option<string>)
  datatype CellFont = CellFont(size: Option<int>, bold: Option<bool>, color: Option<string>)
  datatype CellBorders = CellBorders(color: Option<string>, weight: Option<int>)
  datatype CellFormat = CellFormat(fill: Option<CellFill>, font: Option<CellFont>, borders: Option<CellBorders>)

  datatype TableAction =
    | CreateTable(rows: int, columns: int, data: Option<seq<seq<Json.Json>>>, location: Option<TableLocation>, style: Option<string>)
    | ReadTable(tableIndex: int)
    | WriteTable(tableIndex: int, rowsData: seq<seq<Json.Json>>)
    | InsertRow(tableIndex: int, rowIndex: int, values: Option<seq<Json.Json>>)
    | InsertColumn(tableIndex: int, columnIndex: int, values: Option<seq<Json.Json>>)
    | DeleteRow(tableIndex: int, rowIndex: int)
    | DeleteColumn(tableIndex: int, columnIndex: int)
    | FormatCell(tableIndex: int, rowIndex: int, columnIndex: int, format: CellFormat)
    | DeleteTable(tableIndex: int)

  const TableActionNames: seq<string> := [
    "create", "read", "write", "insert_row", "insert_column", "delete_row", "delete_column", "format_cell", "delete"
  ]

  function TableActionName(a: TableAction): (r: string)
    ensures r in TableActionNames
  {
    match a
    case CreateTable(_, _, _, _, _) => "create"
    case ReadTable(_) => "read"
    case WriteTable(_, _) => "write"
    case InsertRow(_, _, _) => "insert_row"
    case InsertColumn(_, _, _) => "insert_column"
    case DeleteRow(_, _) => "delete_row"
    case DeleteColumn(_, _) => "delete_column"
    case FormatCell(_, _, _, _) => "format_cell"
    case DeleteTable(_) => "delete"
  }

  /** The table union has nine distinct discriminators. */
  lemma TableActionNamesDistinct()
    ensures |TableActionNames| == 9 && Str.NoDup(TableActionNames)
  {
  }

  /** Each of the nine discriminators names an action. */
  lemma TableActionsExactly(name: string) returns (a: TableAction)
    requires name in TableActionNames
    ensures TableActionName(a) == name
  {
    if name == "create" { a := CreateTable(1, 1, None, None, None); }
    else if name == "read" { a := ReadTable(0); }
    else if name == "write" { a := WriteTable(0, []); }
    else if name == "insert_row" { a := InsertRow(0, 0, None); }
    else if name == "insert_column" { a := InsertColumn(0, 0, None); }
    else if name == "delete_row" { a := DeleteRow(0, 0); }
    else if name == "delete_column" { a := DeleteColumn(0, 0); }
    else if name == "format_cell" { a := FormatCell(0, 0, 0, CellFormat(None, None, None)); }
    else { a := DeleteTable(0); }
  }
}
