/**
 * The argument shapes the PowerPoint tools accept: the slide, shape and
 * table action unions, positions, formats and the integer bounds on
 * indices and sizes.
 */
module PptSchemas {
  import opened Wrappers
  import Json

  // ---------------------------------------------------------------------
  // Slide actions
  // ---------------------------------------------------------------------

  datatype Layout = Blank | TitleLayout | TitleAndContent

  datatype SlideAction =
    | ListSlides
    | ReadSlide(slideIndex: int)
    | AddSlide(layout: Option<Layout>, insertAfter: Option<int>)
    | DeleteSlide(slideIndex: int)
    | DuplicateSlide(slideIndex: int)
    | MoveSlide(fromIndex: int, toIndex: int)

  /** `z.number().int().min(0)` on every slide index; `insertAfter` is unbounded, an integer here since fractions are not modelled. */
  predicate ValidSlideAction(a: SlideAction)
  {
    match a
    case ReadSlide(i) => i >= 0
    case DeleteSlide(i) => i >= 0
    case DuplicateSlide(i) => i >= 0
    case MoveSlide(f, t) => f >= 0 && t >= 0
    case _ => true
  }

  /** A negative index is rejected by every indexed slide action. */
  lemma NegativeSlideIndexRejected(i: int)
    requires i < 0
    ensures !ValidSlideAction(ReadSlide(i)) && !ValidSlideAction(DeleteSlide(i)) && !ValidSlideAction(DuplicateSlide(i))
    ensures forall j :: !ValidSlideAction(MoveSlide(i, j)) && !ValidSlideAction(MoveSlide(j, i))
  {
  }

  // ---------------------------------------------------------------------
  // Shape actions
  // ---------------------------------------------------------------------

  /** `left` and `top` are required; `width` and `height` are optional. */
  datatype Position = Position(left: int, top: int, width: Option<int>, height: Option<int>)

  datatype TextAlignment = TextLeft | TextCenter | TextRight

  function TextAlignmentName(a: TextAlignment): string
  {
    match a
    case TextLeft => "Left"
    case TextCenter => "Center"
    case TextRight => "Right"
  }
  datatype VerticalAlignment = Top | Middle | Bottom

  function VerticalAlignmentName(v: VerticalAlignment): string
  {
    match v
    case Top => "Top"
    case Middle => "Middle"
    case Bottom => "Bottom"
  }

  /** `z.enum(['Top', 'Middle', 'Bottom'])` */
  function ParseVerticalAlignment(s: string): (r: Option<VerticalAlignment>)
    ensures r.Some? ==> VerticalAlignmentName(r.value) == s
    ensures r.None? <==> s !in {"Top", "Middle", "Bottom"}
  {
    if s == "Top" then Some(Top) else if s == "Middle" then Some(Middle) else if s == "Bottom" then Some(Bottom) else None
  }

  datatype TextFormat = TextFormat(
    fontSize: Option<int>, bold: Option<bool>, italic: Option<bool>, underline: Option<bool>,
    color: Option<string>, fontName: Option<string>,
    alignment: Option<TextAlignment>, verticalAlignment: Option<VerticalAlignment>)

  /** A fill needs its color; a line, when present, needs color, weight and style. */
  datatype ShapeFill = ShapeFill(color: string)
  datatype ShapeLine = ShapeLine(color: string, weight: int, style: string)
  datatype ShapeFormat = ShapeFormat(fill: Option<ShapeFill>, line: Option<ShapeLine>)

  datatype ShapeType = Rectangle | Ellipse | Triangle | RightArrow | LeftArrow | UpArrow | DownArrow | Star

  function ShapeTypeName(t: ShapeType): string
  {
    match t
    case Rectangle => "rectangle"
    case Ellipse => "ellipse"
    case Triangle => "triangle"
    case RightArrow => "rightArrow"
    case LeftArrow => "leftArrow"
    case UpArrow => "upArrow"
    case DownArrow => "downArrow"
    case Star => "star"
  }

  const ShapeTypeNames: seq<string> := ["rectangle", "ellipse", "triangle", "rightArrow", "leftArrow", "upArrow", "downArrow", "star"]

  /** The eight accepted shape types. */
  function ParseShapeType(s: string): (r: Option<ShapeType>)
    ensures r.Some? ==> ShapeTypeName(r.value) == s
    ensures r.None? <==> s !in ShapeTypeNames
  {
    if s == "rectangle" then Some(Rectangle) else if s == "ellipse" then Some(Ellipse)
    else if s == "triangle" then Some(Triangle) else if s == "rightArrow" then Some(RightArrow)
    else if s == "leftArrow" then Some(LeftArrow) else if s == "upArrow" then Some(UpArrow)
    else if s == "downArrow" then Some(DownArrow) else if s == "star" then Some(Star) else None
  }

  datatype ShapeAction =
    | AddText(slideIndex: int, text: string, position: Position, textFormat: Option<TextFormat>)
    | AddImage(slideIndex: int, base64Image: string, position: Position)
    | AddShape(slideIndex: int, shapeType: ShapeType, position: Position, format: Option<ShapeFormat>)
    | UpdateText(slideIndex: int, shapeId: string, text: string)
    | FormatShape(slideIndex: int, shapeId: string, shapeFormat: ShapeFormat)
    | MoveShape(slideIndex: int, shapeId: string, position: Position)
    | DeleteShape(slideIndex: int, shapeId: string)

  /** Every shape action names a slide by a non-negative integer. */
  predicate ValidShapeAction(a: ShapeAction)
  {
    a.slideIndex >= 0
  }

  // ---------------------------------------------------------------------
  // Table actions
  // ---------------------------------------------------------------------

  datatype TableStyle = TableStyle(
    headerRow: Option<bool>, totalRow: Option<bool>, firstColumn: Option<bool>,
    lastColumn: Option<bool>, bandedRows: Option<bool>, bandedColumns: Option<bool>)

  datatype CellFill = CellFill(color: string)
  datatype CellFont = CellFont(size: Option<int>, bold: Option<bool>, color: Option<string>)
  datatype CellBorders = CellBorders(color: Option<string>, weight: Option<int>)
  datatype TableCellFormat = TableCellFormat(fill: Option<CellFill>, font: Option<CellFont>, borders: Option<CellBorders>)

  datatype TableAction =
    | CreateTable(slideIndex: int, rows: int, columns: int, position: Position,
                  data: Option<seq<seq<Json.Json>>>, style: Option<TableStyle>)
    | ReadTable(slideIndex: int, tableId: string)
    | WriteTable(slideIndex: int, tableId: string, rowsData: seq<seq<Json.Json>>)
    | FormatTableCell(slideIndex: int, tableId: string, row: int, column: int, format: TableCellFormat)
    | DeleteTable(slideIndex: int, tableId: string)

  /** Slide indices and cell coordinates are at least 0; a new table has at least one row and one column. */
  predicate ValidTableAction(a: TableAction)
  {
    a.slideIndex >= 0
    && (a.CreateTable? ==> a.rows >= 1 && a.columns >= 1)
    && (a.FormatTableCell? ==> a.row >= 0 && a.column >= 0)
  }

  /** The bounds are exactly the ones stated: zero rows, or a negative cell coordinate, is rejected. */
  lemma TableBounds(slide: int, n: int, m: int, p: Position, f: TableCellFormat)
    ensures ValidTableAction(CreateTable(slide, n, m, p, None, None)) <==> slide >= 0 && n >= 1 && m >= 1
    ensures ValidTableAction(FormatTableCell(slide, "t", n, m, f)) <==> slide >= 0 && n >= 0 && m >= 0
  {
  }
}
