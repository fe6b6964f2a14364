/**
 * The PowerPoint shape generators: add a text box, an image or a geometric
 * shape to a slide, and update the text of, format, move or delete a shape
 * found by id; with the text- and shape-format snippets they share.
 */
module PptShapeCodegen {
  import opened Wrappers
  import Str
  import Codegen
  import P = PptSchemas
  import Slide = PptSlideCodegen

  // ---------------------------------------------------------------------
  // The text-format snippet
  // ---------------------------------------------------------------------

  /** `valignMap[v] || 'top'`: the three schema names lower-cased, anything else `top`. */
  function VerticalMember(v: string): (r: string)
    ensures v == "Top" ==> r == "top"
    ensures v == "Middle" ==> r == "middle"
    ensures v == "Bottom" ==> r == "bottom"
    ensures v !in {"Top", "Middle", "Bottom"} ==> r == "top"
  {
    if v == "Middle" then "middle" else if v == "Bottom" then "bottom" else "top"
  }

  /** Every schema vertical alignment maps to its own lower-cased name. */
  lemma VerticalMemberLowers(v: P.VerticalAlignment)
    ensures VerticalMember(P.VerticalAlignmentName(v)) == Str.ToLower(P.VerticalAlignmentName(v))
  {
  }

  /** One formatter statement of `generateTextFormatCode`. */
  datatype TextStep =
    | FontSize(size: int)
    | Bold(on: bool)
    | Italic(on: bool)
    | Underline(on: bool)
    | Color(color: string)
    | FontName(name: string)
    | Align(alignment: string)
    | VerticalAlign(name: string)

  function TextStepText(target: string, step: TextStep): string
  {
    match step
    case FontSize(n) => target + ".textFrame.textRange.font.size = " + Codegen.Num(n) + ";"
    case Bold(b) => target + ".textFrame.textRange.font.bold = " + Codegen.Bool(b) + ";"
    case Italic(b) => target + ".textFrame.textRange.font.italic = " + Codegen.Bool(b) + ";"
    case Underline(b) => target + ".textFrame.textRange.font.underline = PowerPoint.FontUnderlineStyle." + (if b then "single" else "none") + ";"
    case Color(c) => target + ".textFrame.textRange.font.color = \"" + c + "\";"
    case FontName(n) => target + ".textFrame.textRange.font.name = \"" + n + "\";"
    case Align(a) => target + ".textFrame.textRange.paragraphFormat.alignment = PowerPoint.ParagraphAlignment." + Str.ToLower(a) + ";"
    case VerticalAlign(v) => target + ".textFrame.verticalAlignment = PowerPoint.TextVerticalAlignment." + VerticalMember(v) + ";"
  }

  function TextTexts(target: string, steps: seq<TextStep>): (r: seq<string>)
    ensures |r| == |steps|
    ensures forall k :: 0 <= k < |steps| ==> r[k] == TextStepText(target, steps[k])
  {
    seq(|steps|, k requires 0 <= k < |steps| => TextStepText(target, steps[k]))
  }

  /** The font statements: size when non-zero, the three flags whenever defined, color when non-empty. */
  function FontPlan(f: P.TextFormat): seq<TextStep>
  {
    Codegen.Opt(Codegen.HasNumber(f.fontSize), FontSize(f.fontSize.GetOr(0)))
    + Codegen.Opt(f.bold.Some?, Bold(f.bold.GetOr(false)))
    + Codegen.Opt(f.italic.Some?, Italic(f.italic.GetOr(false)))
    + Codegen.Opt(f.underline.Some?, Underline(f.underline.GetOr(false)))
    + Codegen.Opt(Codegen.HasText(f.color), Color(f.color.GetOr("")))
  }

  /** The font name and the two alignments, each when given. */
  function LayoutPlan(f: P.TextFormat): seq<TextStep>
  {
    Codegen.Opt(Codegen.HasText(f.fontName), FontName(f.fontName.GetOr("")))
    + Codegen.Opt(f.alignment.Some?, Align(P.TextAlignmentName(f.alignment.GetOr(P.TextLeft))))
    + Codegen.Opt(f.verticalAlignment.Some?, VerticalAlign(P.VerticalAlignmentName(f.verticalAlignment.GetOr(P.Top))))
  }

  /** The statements `generateTextFormatCode` pushes, in order. */
  function TextPlan(f: P.TextFormat): seq<TextStep>
  {
    FontPlan(f) + LayoutPlan(f)
  }

  method PushFont(f: P.TextFormat) returns (r: seq<TextStep>)
    ensures r == FontPlan(f)
  {
    r := [];
    if Codegen.HasNumber(f.fontSize) { r := r + [FontSize(f.fontSize.value)]; }
    ghost var e := Codegen.Opt(Codegen.HasNumber(f.fontSize), FontSize(f.fontSize.GetOr(0)));
    assert r == e;
    if f.bold.Some? { r := r + [Bold(f.bold.value)]; }
    e := e + Codegen.Opt(f.bold.Some?, Bold(f.bold.GetOr(false)));
    assert r == e;
    if f.italic.Some? { r := r + [Italic(f.italic.value)]; }
    e := e + Codegen.Opt(f.italic.Some?, Italic(f.italic.GetOr(false)));
    assert r == e;
    if f.underline.Some? { r := r + [Underline(f.underline.value)]; }
    e := e + Codegen.Opt(f.underline.Some?, Underline(f.underline.GetOr(false)));
    assert r == e;
    if Codegen.HasText(f.color) { r := r + [Color(f.color.value)]; }
    e := e + Codegen.Opt(Codegen.HasText(f.color), Color(f.color.GetOr("")));
    assert r == e;
  }

  method PushLayout(f: P.TextFormat) returns (r: seq<TextStep>)
    ensures r == LayoutPlan(f)
  {
    r := [];
    if Codegen.HasText(f.fontName) { r := r + [FontName(f.fontName.value)]; }
    ghost var e := Codegen.Opt(Codegen.HasText(f.fontName), FontName(f.fontName.GetOr("")));
    assert r == e;
    if f.alignment.Some? { r := r + [Align(P.TextAlignmentName(f.alignment.value))]; }
    e := e + Codegen.Opt(f.alignment.Some?, Align(P.TextAlignmentName(f.alignment.GetOr(P.TextLeft))));
    assert r == e;
    if f.verticalAlignment.Some? { r := r + [VerticalAlign(P.VerticalAlignmentName(f.verticalAlignment.value))]; }
    e := e + Codegen.Opt(f.verticalAlignment.Some?, VerticalAlign(P.VerticalAlignmentName(f.verticalAlignment.GetOr(P.Top))));
    assert r == e;
  }

  /** `generateTextFormatCode(format, target)`: the pushed statements joined by a line break and two spaces. */
  method GenerateTextFormatCode(format: P.TextFormat, target: string) returns (code: string)
    ensures code == Str.Join(TextTexts(target, TextPlan(format)), "\n  ")
  {
    var font := PushFont(format);
    var layout := PushLayout(format);
    code := Str.Join(TextTexts(target, font + layout), "\n  ");
  }

  /** Size needs a non-zero number and color a non-empty string; bold and italic are pushed whenever defined. */
  lemma FontStepsPresent(f: P.TextFormat, n: int, b: bool, s: string)
    ensures FontSize(n) in TextPlan(f) <==> f.fontSize == Some(n) && n != 0
    ensures Bold(b) in TextPlan(f) <==> f.bold == Some(b)
    ensures Italic(b) in TextPlan(f) <==> f.italic == Some(b)
    ensures Color(s) in TextPlan(f) <==> f.color == Some(s) && s != ""
  {
    assert FontSize(n) !in LayoutPlan(f) && Bold(b) !in LayoutPlan(f) && Italic(b) !in LayoutPlan(f) && Color(s) !in LayoutPlan(f);
  }

  /** Underline is pushed whenever defined, `false` included. */
  lemma UnderlineStep(f: P.TextFormat, b: bool)
    ensures Underline(b) in TextPlan(f) <==> f.underline == Some(b)
  {
    assert Underline(b) !in LayoutPlan(f);
  }

  /** The font name is pushed when it is a non-empty string. */
  lemma FontNameStep(f: P.TextFormat, s: string)
    ensures FontName(s) in TextPlan(f) <==> f.fontName == Some(s) && s != ""
  {
    assert FontName(s) !in FontPlan(f);
  }

  /** Each alignment is pushed exactly when it is given. */
  lemma AlignmentSteps(f: P.TextFormat)
    ensures f.alignment.Some? <==> Align(P.TextAlignmentName(f.alignment.GetOr(P.TextLeft))) in TextPlan(f)
    ensures f.verticalAlignment.Some? <==> VerticalAlign(P.VerticalAlignmentName(f.verticalAlignment.GetOr(P.Top))) in TextPlan(f)
  {
    var a := Align(P.TextAlignmentName(f.alignment.GetOr(P.TextLeft)));
    var v := VerticalAlign(P.VerticalAlignmentName(f.verticalAlignment.GetOr(P.Top)));
    assert a !in FontPlan(f) && v !in FontPlan(f);
    assert a in TextPlan(f) <==> a in LayoutPlan(f);
    assert v in TextPlan(f) <==> v in LayoutPlan(f);
  }

  // ---------------------------------------------------------------------
  // The shape-format snippet
  // ---------------------------------------------------------------------

  /** One formatter statement of `generateShapeFormatCode`. */
  datatype ShapeStep =
    | Fill(color: string)
    | LineColor(color: string)
    | LineWeight(weight: int)

  function ShapeStepText(target: string, step: ShapeStep): string
  {
    match step
    case Fill(c) => target + ".fill.setSolidColor(\"" + c + "\");"
    case LineColor(c) => target + ".lineFormat.color = \"" + c + "\";"
    case LineWeight(n) => target + ".lineFormat.weight = " + Codegen.Num(n) + ";"
  }

  function ShapeTexts(target: string, steps: seq<ShapeStep>): (r: seq<string>)
    ensures |r| == |steps|
    ensures forall k :: 0 <= k < |steps| ==> r[k] == ShapeStepText(target, steps[k])
  {
    seq(|steps|, k requires 0 <= k < |steps| => ShapeStepText(target, steps[k]))
  }

  /** The statements `generateShapeFormatCode` pushes: a fill with a color, then the line's color and weight when set. */
  function ShapePlan(f: P.ShapeFormat): seq<ShapeStep>
  {
    Codegen.Opt(f.fill.Some? && f.fill.value.color != "", Fill(if f.fill.Some? then f.fill.value.color else ""))
    + (match f.line
       case None => []
       case Some(l) => Codegen.Opt(l.color != "", LineColor(l.color)) + Codegen.Opt(l.weight != 0, LineWeight(l.weight)))
  }

  /** `generateShapeFormatCode(format, target)` */
  method GenerateShapeFormatCode(format: P.ShapeFormat, target: string) returns (code: string)
    ensures code == Str.Join(ShapeTexts(target, ShapePlan(format)), "\n  ")
  {
    var formatters: seq<ShapeStep> := [];
    if format.fill.Some? && format.fill.value.color != "" {
      formatters := formatters + [Fill(format.fill.value.color)];
    }
    if format.line.Some? {
      var line := format.line.value;
      if line.color != "" { formatters := formatters + [LineColor(line.color)]; }
      if line.weight != 0 { formatters := formatters + [LineWeight(line.weight)]; }
    }
    assert formatters == ShapePlan(format);
    code := Str.Join(ShapeTexts(target, formatters), "\n  ");
  }

  /** Each statement is emitted exactly when its field is present and truthy; the line style plays no part. */
  lemma ShapeStepsPresent(f: P.ShapeFormat, s: string, n: int)
    ensures Fill(s) in ShapePlan(f) <==> f.fill == Some(P.ShapeFill(s)) && s != ""
    ensures LineColor(s) in ShapePlan(f) <==> f.line.Some? && f.line.value.color == s && s != ""
    ensures LineWeight(n) in ShapePlan(f) <==> f.line.Some? && f.line.value.weight == n && n != 0
  {
  }

  // ---------------------------------------------------------------------
  // Add a text box, an image or a shape
  // ---------------------------------------------------------------------

  /** `const { left, top, width = w, height = h } = params.position`: a default replaces only a missing field. */
  function Box(p: P.Position, w: int, h: int): (r: (int, int))
    ensures r.0 == (if p.width.Some? then p.width.value else w)
    ensures r.1 == (if p.height.Some? then p.height.value else h)
  {
    (p.width.GetOr(w), p.height.GetOr(h))
  }

  /** The four lines of the `{ left, top, width, height }` literal. */
  function BoxLines(p: P.Position, w: int, h: int): (r: seq<string>)
    ensures |r| == 4
  {
    [ "    left: " + Codegen.Num(p.left) + ",",
      "    top: " + Codegen.Num(p.top) + ",",
      "    " + ("width: " + Codegen.Num(Box(p, w, h).0)) + ",",
      "    " + ("height: " + Codegen.Num(Box(p, w, h).1)) ]
  }

  /** `params.format ? generate…FormatCode(params.format, target) : ''`, as its statements. */
  function TextSlot(target: string, format: Option<P.TextFormat>): (r: seq<string>)
    ensures format.None? ==> r == []
  {
    match format
    case None => []
    case Some(f) => TextTexts(target, TextPlan(f))
  }

  /** `slide.shapes.addTextBox("<text with quotes escaped>", {` */
  function AddTextBox(text: string): string
  {
    "slide.shapes.addTextBox(\"" + Str.EscapeQuotes(text) + "\", {"
  }

  const TextBoxFoot: seq<string> := [
    "  ",
    "  await context.sync();",
    "  ",
    "  return {",
    "    shapeId: textBox.id,",
    "    success: true",
    "  };",
    "});" ]

  function AddTextSteps(slideIndex: int, text: string, position: P.Position, format: Option<P.TextFormat>): seq<string>
  {
    [ Slide.SlideAt(slideIndex), "  const textBox = " + AddTextBox(text) ]
    + BoxLines(position, 300, 100)
    + (["  });", "  ", "  textBox.load(\"id\");"] + Codegen.Spliced("  ", TextSlot("textBox", format)) + TextBoxFoot)
  }

  /** `generateAddTextCode` */
  function AddTextCode(slideIndex: int, text: string, position: P.Position, format: Option<P.TextFormat>): string
  {
    Codegen.Code(Slide.Checked(slideIndex) + AddTextSteps(slideIndex, text, position, format))
  }

  /** The template shared by text boxes and shapes: a declaration, the box literal, then the spliced format statements. */
  function PlacedLines(slideIndex: int, decl: string, p: P.Position, w: int, h: int, load: string, slot: seq<string>, foot: seq<string>): seq<string>
  {
    Slide.Checked(slideIndex) + ([Slide.SlideAt(slideIndex), decl] + BoxLines(p, w, h) + (["  });", "  ", load] + Codegen.Spliced("  ", slot) + foot))
  }

  /** The declaration, both sizes and every slot statement occur in the placed template. */
  lemma PlacedHas(slideIndex: int, pre: string, call: string, p: P.Position, w: int, h: int, load: string, slot: seq<string>, foot: seq<string>, k: nat)
    ensures Str.Contains(Codegen.Code(PlacedLines(slideIndex, pre + call, p, w, h, load, slot, foot)), call)
    ensures Str.Contains(Codegen.Code(PlacedLines(slideIndex, pre + call, p, w, h, load, slot, foot)), "width: " + Codegen.Num(Box(p, w, h).0))
    ensures Str.Contains(Codegen.Code(PlacedLines(slideIndex, pre + call, p, w, h, load, slot, foot)), "height: " + Codegen.Num(Box(p, w, h).1))
    ensures k < |slot| ==> Str.Contains(Codegen.Code(PlacedLines(slideIndex, pre + call, p, w, h, load, slot, foot)), slot[k])
  {
    var a, b, c := Slide.Checked(slideIndex), [Slide.SlideAt(slideIndex), pre + call], BoxLines(p, w, h);
    var d := ["  });", "  ", load] + Codegen.Spliced("  ", slot);
    var lines := PlacedLines(slideIndex, pre + call, p, w, h, load, slot, foot);
    assert lines == a + b + c + d + foot by {
      Str.Assoc(a + b, c, d + foot);
      Str.Assoc(a, b, c + (d + foot));
      Str.Assoc(a + b + c, d, foot);
    }
    Str.PartsAt(a, b, c, d, foot, 1);
    Codegen.HasTail(lines, 13, pre, call);
    Str.PartsAt(a, b, c, d, foot, 2);
    Codegen.HasLine(lines, 16, "    ", "width: " + Codegen.Num(Box(p, w, h).0), ",");
    Str.PartsAt(a, b, c, d, foot, 3);
    Codegen.HasTail(lines, 17, "    ", "height: " + Codegen.Num(Box(p, w, h).1));
    if k < |slot| {
      Str.PartsAt(a, b, c, d, foot, 3 + k);
      assert d[3 + k] == "  " + slot[k];
      Codegen.HasTail(lines, 21 + k, "  ", slot[k]);
    }
  }

  /**
   * The text box carries the text with its quotes escaped, is 300 by 100
   * unless the position says otherwise, and is followed by every planned
   * format statement.
   */
  lemma AddTextBoxPlaced(slideIndex: int, text: string, position: P.Position, format: Option<P.TextFormat>, k: nat)
    ensures Str.Contains(AddTextCode(slideIndex, text, position, format), Codegen.BoundsTest(slideIndex, "slides.items.length"))
    ensures Str.Contains(AddTextCode(slideIndex, text, position, format), AddTextBox(text))
    ensures Str.Contains(AddTextCode(slideIndex, text, position, format), "width: " + Codegen.Num(Box(position, 300, 100).0))
    ensures Str.Contains(AddTextCode(slideIndex, text, position, format), "height: " + Codegen.Num(Box(position, 300, 100).1))
    ensures format.Some? && k < |TextPlan(format.value)| ==>
      Str.Contains(AddTextCode(slideIndex, text, position, format), TextStepText("textBox", TextPlan(format.value)[k]))
  {
    var steps := AddTextSteps(slideIndex, text, position, format);
    Slide.IndexChecked(slideIndex, steps);
    assert Slide.Checked(slideIndex) + steps == PlacedLines(slideIndex, "  const textBox = " + AddTextBox(text), position, 300, 100, "  textBox.load(\"id\");", TextSlot("textBox", format), TextBoxFoot);
    PlacedHas(slideIndex, "  const textBox = ", AddTextBox(text), position, 300, 100, "  textBox.load(\"id\");", TextSlot("textBox", format), TextBoxFoot, k);
  }

  /** Without a size the text box is 300 by 100; a given size, zero included, is kept. */
  lemma TextBoxDefaults(left: int, top: int, w: int, h: int)
    ensures Box(P.Position(left, top, None, None), 300, 100) == (300, 100)
    ensures Box(P.Position(left, top, Some(w), Some(h)), 300, 100) == (w, h)
  {
  }

  /** `width && height ? \`, width: ${width}, height: ${height}\` : ''` */
  function SizeParams(p: P.Position): (r: string)
    ensures r == "" <==> !(Codegen.HasNumber(p.width) && Codegen.HasNumber(p.height))
  {
    if Codegen.HasNumber(p.width) && Codegen.HasNumber(p.height) then
      ", width: " + Codegen.Num(p.width.value) + ", height: " + Codegen.Num(p.height.value)
    else ""
  }

  /** `    top: <top><size>` */
  function ImageTop(p: P.Position): string
  {
    "    top: " + Codegen.Num(p.top) + SizeParams(p)
  }

  function AddImageSteps(slideIndex: int, base64Image: string, position: P.Position): seq<string>
  {
    [ Slide.SlideAt(slideIndex),
      "  ",
      "  // 移除 data:image/xxx;base64, 前缀（如果有）",
      "  let imageData = \"" + base64Image + "\";",
      "  if (imageData.includes(\",\")) {",
      "    imageData = imageData.split(\",\")[1];",
      "  }",
      "  " ]
    + [ "  const image = slide.shapes.addImage({",
        "    base64ImageString: imageData,",
        "    left: " + Codegen.Num(position.left) + ",",
        ImageTop(position),
        "  });",
        "  ",
        "  image.load(\"id\");",
        "  await context.sync();",
        "  ",
        "  return {",
        "    shapeId: image.id,",
        "    success: true",
        "  };",
        "});" ]
  }

  /** `generateAddImageCode`: the image is placed at the position, and sized only when both width and height are non-zero. */
  function AddImageCode(slideIndex: int, base64Image: string, position: P.Position): (r: string)
    ensures Str.Contains(r, Codegen.BoundsTest(slideIndex, "slides.items.length"))
    ensures Str.Contains(r, ImageTop(position))
  {
    var steps := AddImageSteps(slideIndex, base64Image, position);
    var lines := Slide.Checked(slideIndex) + steps;
    Slide.IndexChecked(slideIndex, steps);
    assert lines[23] == steps[11];
    Codegen.HasTail(lines, 23, "", ImageTop(position));
    Codegen.Code(lines)
  }

  /** The top line ends right after the top coordinate exactly when the size is left out. */
  lemma ImageSized(p: P.Position)
    ensures ImageTop(p) == "    top: " + Codegen.Num(p.top) <==> !(Codegen.HasNumber(p.width) && Codegen.HasNumber(p.height))
  {
    assert ImageTop(p) == "    top: " + Codegen.Num(p.top) + SizeParams(p);
    if ImageTop(p) == "    top: " + Codegen.Num(p.top) {
      assert |SizeParams(p)| == 0;
    }
  }

  const ShapeTypeMap: map<string, string> := map[
    "rectangle" := "PowerPoint.ShapeType.rectangle",
    "ellipse" := "PowerPoint.ShapeType.oval",
    "triangle" := "PowerPoint.ShapeType.triangle",
    "rightArrow" := "PowerPoint.ShapeType.rightArrow",
    "leftArrow" := "PowerPoint.ShapeType.leftArrow",
    "upArrow" := "PowerPoint.ShapeType.upArrow",
    "downArrow" := "PowerPoint.ShapeType.downArrow",
    "star" := "PowerPoint.ShapeType.star5"
  ]

  /** `shapeTypeMap[params.shapeType] || 'PowerPoint.ShapeType.rectangle'` */
  function ShapeMember(shapeType: string): (r: string)
    ensures shapeType in ShapeTypeMap ==> r == ShapeTypeMap[shapeType]
    ensures shapeType !in ShapeTypeMap ==> r == "PowerPoint.ShapeType.rectangle"
  {
    if shapeType in ShapeTypeMap then ShapeTypeMap[shapeType] else "PowerPoint.ShapeType.rectangle"
  }

  /** The map covers exactly the schema's shape types; two are renamed and unknown names become rectangles. */
  lemma ShapeMembers(t: P.ShapeType, other: string)
    requires other !in P.ShapeTypeNames
    ensures P.ShapeTypeName(t) in ShapeTypeMap
    ensures ShapeMember("ellipse") == "PowerPoint.ShapeType.oval"
    ensures ShapeMember("star") == "PowerPoint.ShapeType.star5"
    ensures ShapeMember(other) == "PowerPoint.ShapeType.rectangle"
  {
    assert ShapeTypeMap.Keys == set n | n in P.ShapeTypeNames;
  }

  /** `generateShapeFormatCode(params.format, 'shape')` when a format is given, as its statements. */
  function ShapeSlot(format: Option<P.ShapeFormat>): (r: seq<string>)
    ensures format.None? ==> r == []
  {
    match format
    case None => []
    case Some(f) => ShapeTexts("shape", ShapePlan(f))
  }

  const ShapeFoot: seq<string> := [
    "  ",
    "  await context.sync();",
    "  ",
    "  return {",
    "    shapeId: shape.id,",
    "    success: true",
    "  };",
    "});" ]

  /** `slide.shapes.addGeometricShape(<member>, {` */
  function AddGeometric(shapeType: string): string
  {
    "slide.shapes.addGeometricShape(" + ShapeMember(shapeType) + ", {"
  }

  function AddShapeSteps(slideIndex: int, shapeType: string, position: P.Position, format: Option<P.ShapeFormat>): seq<string>
  {
    [ Slide.SlideAt(slideIndex), "  const shape = " + AddGeometric(shapeType) ]
    + BoxLines(position, 200, 200)
    + (["  });", "  ", "  shape.load(\"id\");"] + Codegen.Spliced("  ", ShapeSlot(format)) + ShapeFoot)
  }

  /** `generateAddShapeCode` */
  function AddShapeCode(slideIndex: int, shapeType: string, position: P.Position, format: Option<P.ShapeFormat>): string
  {
    Codegen.Code(Slide.Checked(slideIndex) + AddShapeSteps(slideIndex, shapeType, position, format))
  }

  /** The shape has the mapped type, is 200 by 200 unless the position says otherwise, and carries every planned format statement. */
  lemma AddShapePlaced(slideIndex: int, shapeType: string, position: P.Position, format: Option<P.ShapeFormat>, k: nat)
    ensures Str.Contains(AddShapeCode(slideIndex, shapeType, position, format), Codegen.BoundsTest(slideIndex, "slides.items.length"))
    ensures Str.Contains(AddShapeCode(slideIndex, shapeType, position, format), AddGeometric(shapeType))
    ensures Str.Contains(AddShapeCode(slideIndex, shapeType, position, format), "width: " + Codegen.Num(Box(position, 200, 200).0))
    ensures Str.Contains(AddShapeCode(slideIndex, shapeType, position, format), "height: " + Codegen.Num(Box(position, 200, 200).1))
    ensures format.Some? && k < |ShapePlan(format.value)| ==>
      Str.Contains(AddShapeCode(slideIndex, shapeType, position, format), ShapeStepText("shape", ShapePlan(format.value)[k]))
  {
    var steps := AddShapeSteps(slideIndex, shapeType, position, format);
    Slide.IndexChecked(slideIndex, steps);
    assert Slide.Checked(slideIndex) + steps == PlacedLines(slideIndex, "  const shape = " + AddGeometric(shapeType), position, 200, 200, "  shape.load(\"id\");", ShapeSlot(format), ShapeFoot);
    PlacedHas(slideIndex, "  const shape = ", AddGeometric(shapeType), position, 200, 200, "  shape.load(\"id\");", ShapeSlot(format), ShapeFoot, k);
  }

  // ---------------------------------------------------------------------
  // Update, format, move and delete a shape by id
  // ---------------------------------------------------------------------

  /** `slide.shapes.getItem("<shapeId>")` */
  function ShapeLookup(shapeId: string): string
  {
    "slide.shapes.getItem(\"" + shapeId + "\")"
  }

  /** The slide and the shape, lines 12 and 13 of every by-id template. */
  function Found(slideIndex: int, shapeId: string): (r: seq<string>)
    ensures |r| == 2
  {
    [Slide.SlideAt(slideIndex), "  const shape = " + (ShapeLookup(shapeId)) + ";"]
  }

  const SuccessFoot: seq<string> := [
    "  ",
    "  await context.sync();",
    "  ",
    "  return {",
    "    success: true",
    "  };",
    "});" ]

  /** Every by-id template checks the slide index and then looks the shape up on that slide. */
  lemma ShapeFound(slideIndex: int, shapeId: string, rest: seq<string>)
    ensures Str.Contains(Codegen.Code(Slide.Checked(slideIndex) + (Found(slideIndex, shapeId) + rest)), Codegen.BoundsTest(slideIndex, "slides.items.length"))
    ensures Str.Contains(Codegen.Code(Slide.Checked(slideIndex) + (Found(slideIndex, shapeId) + rest)), ShapeLookup(shapeId))
  {
    var lines := Slide.Checked(slideIndex) + (Found(slideIndex, shapeId) + rest);
    Slide.IndexChecked(slideIndex, Found(slideIndex, shapeId) + rest);
    assert lines[13] == Found(slideIndex, shapeId)[1];
    Codegen.HasLine(lines, 13, "  const shape = ", ShapeLookup(shapeId), ";");
  }

  /** `textFrame.textRange.text = "<text with quotes escaped>"` */
  function SetText(text: string): string
  {
    "textFrame.textRange.text = \"" + Str.EscapeQuotes(text) + "\""
  }

  /** `generateUpdateTextCode`: sets the shape's text, quotes escaped. */
  function UpdateTextCode(slideIndex: int, shapeId: string, text: string): (r: string)
    ensures Str.Contains(r, Codegen.BoundsTest(slideIndex, "slides.items.length"))
    ensures Str.Contains(r, ShapeLookup(shapeId))
    ensures Str.Contains(r, SetText(text))
  {
    var rest := ["  const textFrame = shape.textFrame;", "  " + (SetText(text)) + ";"] + SuccessFoot;
    var lines := Slide.Checked(slideIndex) + (Found(slideIndex, shapeId) + rest);
    ShapeFound(slideIndex, shapeId, rest);
    assert lines[15] == rest[1];
    Codegen.HasLine(lines, 15, "  ", SetText(text), ";");
    Codegen.Code(lines)
  }

  function FormatShapeRest(format: P.ShapeFormat): seq<string>
  {
    ["  "] + Codegen.Spliced("  ", ShapeTexts("shape", ShapePlan(format))) + SuccessFoot
  }

  /** `generateFormatShapeCode` */
  function FormatShapeCode(slideIndex: int, shapeId: string, format: P.ShapeFormat): string
  {
    Codegen.Code(Slide.Checked(slideIndex) + (Found(slideIndex, shapeId) + FormatShapeRest(format)))
  }

  /** Formatting looks the shape up and applies every planned statement to it. */
  lemma FormatShapeApplies(slideIndex: int, shapeId: string, format: P.ShapeFormat, k: nat)
    requires k < |ShapePlan(format)|
    ensures Str.Contains(FormatShapeCode(slideIndex, shapeId, format), ShapeLookup(shapeId))
    ensures Str.Contains(FormatShapeCode(slideIndex, shapeId, format), ShapeStepText("shape", ShapePlan(format)[k]))
  {
    var rest := FormatShapeRest(format);
    ShapeFound(slideIndex, shapeId, rest);
    var slot := ShapeTexts("shape", ShapePlan(format));
    Str.Flatten(Slide.Checked(slideIndex), Found(slideIndex, shapeId), ["  "], Codegen.Spliced("  ", slot), SuccessFoot);
    Codegen.SplicedItem(Slide.Checked(slideIndex) + Found(slideIndex, shapeId) + ["  "], "  ", slot, SuccessFoot, k);
  }

  /** `shape.left = <left>` and `shape.top = <top>`: only the coordinates move, never the size. */
  function MoveShapeCode(slideIndex: int, shapeId: string, position: P.Position): (r: string)
    ensures Str.Contains(r, ShapeLookup(shapeId))
    ensures Str.Contains(r, "shape.left = " + Codegen.Num(position.left))
    ensures Str.Contains(r, "shape.top = " + Codegen.Num(position.top))
  {
    var rest := ["  " + ("shape.left = " + Codegen.Num(position.left)) + ";", "  " + ("shape.top = " + Codegen.Num(position.top)) + ";"] + SuccessFoot;
    var lines := Slide.Checked(slideIndex) + (Found(slideIndex, shapeId) + rest);
    ShapeFound(slideIndex, shapeId, rest);
    assert lines[14] == rest[0] && lines[15] == rest[1];
    Codegen.HasLine(lines, 14, "  ", "shape.left = " + Codegen.Num(position.left), ";");
    Codegen.HasLine(lines, 15, "  ", "shape.top = " + Codegen.Num(position.top), ";");
    Codegen.Code(lines)
  }

  /** The moved script ignores the position's width and height. */
  lemma MoveIgnoresSize(slideIndex: int, shapeId: string, left: int, top: int, w: Option<int>, h: Option<int>)
    ensures MoveShapeCode(slideIndex, shapeId, P.Position(left, top, w, h)) == MoveShapeCode(slideIndex, shapeId, P.Position(left, top, None, None))
  {
  }

  /** `generateDeleteShapeCode`: checks the slide index, then deletes the shape with that id. */
  function DeleteShapeCode(slideIndex: int, shapeId: string): (r: string)
    ensures Str.Contains(r, Codegen.BoundsTest(slideIndex, "slides.items.length"))
    ensures Str.Contains(r, ShapeLookup(shapeId))
    ensures Str.Contains(r, "shape.delete()")
  {
    var rest := ["  " + ("shape.delete()") + ";"] + SuccessFoot;
    var lines := Slide.Checked(slideIndex) + (Found(slideIndex, shapeId) + rest);
    ShapeFound(slideIndex, shapeId, rest);
    assert lines[14] == rest[0];
    Codegen.HasLine(lines, 14, "  ", "shape.delete()", ";");
    Codegen.Code(lines)
  }
}
