/**
 * The Word paragraph generators: insert a paragraph at a body location or
 * next to an indexed paragraph, format, delete or read an indexed
 * paragraph, and the format-snippet helper they share.  Every index-based
 * generator first rejects an index outside `0 ≤ index < paragraph count`.
 */
module WordParagraphCodegen {
  import opened Wrappers
  import Str
  import Codegen
  import W = WordSchemas

  // ---------------------------------------------------------------------
  // The format snippet
  // ---------------------------------------------------------------------

  /** One formatter statement of `generateFormatCode`, by the property it sets. */
  datatype FormatStep =
    | SetStyle(style: string)
    | SetAlignment(alignment: W.Alignment)
    | FontName(name: string)
    | FontSize(size: int)
    | FontBold(on: bool)
    | FontItalic(on: bool)
    | FontUnderline(on: bool)
    | FontColor(color: string)
    | SpaceBefore(points: int)
    | SpaceAfter(points: int)
    | LineSpacing(points: int)

  /** `Word.UnderlineType.single` for true, `none` for false. */
  function UnderlineType(on: bool): (r: string)
    ensures r == (if on then "single" else "none")
  {
    if on then "single" else "none"
  }

  /** The statement a step pushes, on the formatted object `target`. */
  function StepText(target: string, step: FormatStep): string
  {
    match step
    case SetStyle(s) => target + ".style = \"" + s + "\";"
    case SetAlignment(a) => target + ".alignment = Word.Alignment." + Str.ToLower(W.AlignmentName(a)) + ";"
    case FontName(n) => target + ".font.name = \"" + n + "\";"
    case FontSize(n) => target + ".font.size = " + Codegen.Num(n) + ";"
    case FontBold(b) => target + ".font.bold = " + Codegen.Bool(b) + ";"
    case FontItalic(b) => target + ".font.italic = " + Codegen.Bool(b) + ";"
    case FontUnderline(b) => target + ".font.underline = Word.UnderlineType." + UnderlineType(b) + ";"
    case FontColor(c) => target + ".font.color = \"" + c + "\";"
    case SpaceBefore(n) => target + ".spaceBefore = " + Codegen.Num(n) + ";"
    case SpaceAfter(n) => target + ".spaceAfter = " + Codegen.Num(n) + ";"
    case LineSpacing(n) => target + ".lineSpacing = " + Codegen.Num(n) + ";"
  }

  function Texts(target: string, steps: seq<FormatStep>): (r: seq<string>)
    ensures |r| == |steps|
    ensures forall k :: 0 <= k < |steps| ==> r[k] == StepText(target, steps[k])
  {
    seq(|steps|, k requires 0 <= k < |steps| => StepText(target, steps[k]))
  }

  predicate IsFontStep(x: FormatStep)
  {
    x.FontName? || x.FontSize? || x.FontBold? || x.FontItalic? || x.FontUnderline? || x.FontColor?
  }

  predicate IsSpacingStep(x: FormatStep)
  {
    x.SpaceBefore? || x.SpaceAfter? || x.LineSpacing?
  }

  /** The font block: name and color when non-empty, size when non-zero, the flags whenever defined. */
  function FontSteps(font: Option<W.ParagraphFont>): (r: seq<FormatStep>)
    ensures forall x :: x in r ==> IsFontStep(x)
    ensures font.None? ==> r == []
  {
    match font
    case None => []
    case Some(f) =>
      Codegen.Opt(Codegen.HasText(f.name), FontName(f.name.GetOr("")))
      + Codegen.Opt(Codegen.HasNumber(f.size), FontSize(f.size.GetOr(0)))
      + Codegen.Opt(f.bold.Some?, FontBold(f.bold.GetOr(false)))
      + Codegen.Opt(f.italic.Some?, FontItalic(f.italic.GetOr(false)))
      + Codegen.Opt(f.underline.Some?, FontUnderline(f.underline.GetOr(false)))
      + Codegen.Opt(Codegen.HasText(f.color), FontColor(f.color.GetOr("")))
  }

  /**
   * The spacing block as written: `spacing.before` is pushed as
   * `spaceAfter` and `spacing.after` as `spaceBefore`.
   */
  function SpacingStepsAsWritten(spacing: Option<W.Spacing>): (r: seq<FormatStep>)
    ensures forall x :: x in r ==> IsSpacingStep(x)
  {
    match spacing
    case None => []
    case Some(s) =>
      Codegen.Opt(s.before.Some?, SpaceAfter(s.before.GetOr(0)))
      + Codegen.Opt(s.after.Some?, SpaceBefore(s.after.GetOr(0)))
      + Codegen.Opt(s.line.Some?, LineSpacing(s.line.GetOr(0)))
  }

  /** The spacing block with each field written to the property of its own name. */
  function SpacingSteps(spacing: Option<W.Spacing>): (r: seq<FormatStep>)
    ensures forall x :: x in r ==> IsSpacingStep(x)
  {
    match spacing
    case None => []
    case Some(s) =>
      Codegen.Opt(s.before.Some?, SpaceBefore(s.before.GetOr(0)))
      + Codegen.Opt(s.after.Some?, SpaceAfter(s.after.GetOr(0)))
      + Codegen.Opt(s.line.Some?, LineSpacing(s.line.GetOr(0)))
  }

  /** As written, the space requested before a paragraph is set after it, and the other way round. */
  lemma SpacingSwapped(n: int)
    ensures SpacingStepsAsWritten(Some(W.Spacing(Some(n), None, None))) == [SpaceAfter(n)]
    ensures SpacingStepsAsWritten(Some(W.Spacing(None, Some(n), None))) == [SpaceBefore(n)]
  {
  }

  /** Corrected, `spaceBefore` comes from `spacing.before` and `spaceAfter` from `spacing.after`, each exactly when defined. */
  lemma SpacingFollowsNames(spacing: Option<W.Spacing>, n: int)
    ensures SpaceBefore(n) in SpacingSteps(spacing) <==> spacing.Some? && spacing.value.before == Some(n)
    ensures SpaceAfter(n) in SpacingSteps(spacing) <==> spacing.Some? && spacing.value.after == Some(n)
  {
  }

  lemma LineSpacingStep(spacing: Option<W.Spacing>, n: int)
    ensures LineSpacing(n) in SpacingSteps(spacing) <==> spacing.Some? && spacing.value.line == Some(n)
  {
  }

  /** The statements `generateFormatCode` pushes, in order. */
  function FormatPlan(format: W.ParagraphFormat): seq<FormatStep>
  {
    Codegen.Opt(Codegen.HasText(format.style), SetStyle(format.style.GetOr("")))
    + Codegen.Opt(format.alignment.Some?, SetAlignment(format.alignment.GetOr(W.AlignLeft)))
    + FontSteps(format.font)
    + SpacingSteps(format.spacing)
  }

  /** The font block of `generateFormatCode`: one push per present font field. */
  method PushFont(font: Option<W.ParagraphFont>) returns (r: seq<FormatStep>)
    ensures r == FontSteps(font)
  {
    r := [];
    if font.Some? {
      var f := font.value;
      if Codegen.HasText(f.name) { r := r + [FontName(f.name.value)]; }
      ghost var e := Codegen.Opt(Codegen.HasText(f.name), FontName(f.name.GetOr("")));
      assert r == e;
      if Codegen.HasNumber(f.size) { r := r + [FontSize(f.size.value)]; }
      e := e + Codegen.Opt(Codegen.HasNumber(f.size), FontSize(f.size.GetOr(0)));
      assert r == e;
      if f.bold.Some? { r := r + [FontBold(f.bold.value)]; }
      e := e + Codegen.Opt(f.bold.Some?, FontBold(f.bold.GetOr(false)));
      assert r == e;
      if f.italic.Some? { r := r + [FontItalic(f.italic.value)]; }
      e := e + Codegen.Opt(f.italic.Some?, FontItalic(f.italic.GetOr(false)));
      assert r == e;
      if f.underline.Some? { r := r + [FontUnderline(f.underline.value)]; }
      e := e + Codegen.Opt(f.underline.Some?, FontUnderline(f.underline.GetOr(false)));
      assert r == e;
      if Codegen.HasText(f.color) { r := r + [FontColor(f.color.value)]; }
      e := e + Codegen.Opt(Codegen.HasText(f.color), FontColor(f.color.GetOr("")));
      assert r == e;
    }
  }

  /** The spacing block of `generateFormatCode`, each field pushed under its own name. */
  method PushSpacing(spacing: Option<W.Spacing>) returns (r: seq<FormatStep>)
    ensures r == SpacingSteps(spacing)
  {
    r := [];
    if spacing.Some? {
      var s := spacing.value;
      if s.before.Some? { r := r + [SpaceBefore(s.before.value)]; }
      ghost var e := Codegen.Opt(s.before.Some?, SpaceBefore(s.before.GetOr(0)));
      assert r == e;
      if s.after.Some? { r := r + [SpaceAfter(s.after.value)]; }
      e := e + Codegen.Opt(s.after.Some?, SpaceAfter(s.after.GetOr(0)));
      assert r == e;
      if s.line.Some? { r := r + [LineSpacing(s.line.value)]; }
      e := e + Codegen.Opt(s.line.Some?, LineSpacing(s.line.GetOr(0)));
      assert r == e;
    }
  }

  /** `generateFormatCode(format, target)`: the pushed statements joined by a line break and two spaces. */
  method GenerateFormatCode(format: W.ParagraphFormat, target: string) returns (code: string)
    ensures code == Str.Join(Texts(target, FormatPlan(format)), "\n  ")
  {
    var formatters: seq<FormatStep> := [];
    if Codegen.HasText(format.style) {
      formatters := formatters + [SetStyle(format.style.value)];
    }
    assert formatters == Codegen.Opt(Codegen.HasText(format.style), SetStyle(format.style.GetOr("")));
    if format.alignment.Some? {
      formatters := formatters + [SetAlignment(format.alignment.value)];
    }
    ghost var head := Codegen.Opt(Codegen.HasText(format.style), SetStyle(format.style.GetOr("")))
      + Codegen.Opt(format.alignment.Some?, SetAlignment(format.alignment.GetOr(W.AlignLeft)));
    assert formatters == head;
    var font := PushFont(format.font);
    formatters := formatters + font;
    var spacing := PushSpacing(format.spacing);
    formatters := formatters + spacing;
    assert formatters == FormatPlan(format);
    code := Str.Join(Texts(target, formatters), "\n  ");
  }

  /** A step of neither block is planned exactly when the style or alignment push makes it. */
  lemma PlanHead(format: W.ParagraphFormat, x: FormatStep)
    requires !IsFontStep(x) && !IsSpacingStep(x)
    ensures x in FormatPlan(format) <==>
      x in Codegen.Opt(Codegen.HasText(format.style), SetStyle(format.style.GetOr("")))
      || x in Codegen.Opt(format.alignment.Some?, SetAlignment(format.alignment.GetOr(W.AlignLeft)))
  {
    assert x !in FontSteps(format.font);
    assert x !in SpacingSteps(format.spacing);
  }

  /** The style is pushed exactly when it is a non-empty string; the alignment exactly when given, lower-cased. */
  lemma StyleAlignmentSteps(format: W.ParagraphFormat, s: string, a: W.Alignment)
    ensures SetStyle(s) in FormatPlan(format) <==> format.style == Some(s) && s != ""
    ensures SetAlignment(a) in FormatPlan(format) <==> format.alignment == Some(a)
  {
    PlanHead(format, SetStyle(s));
    PlanHead(format, SetAlignment(a));
  }

  /** Within the font block, bold and italic are pushed whenever defined, `false` included. */
  lemma FontBoldStep(font: Option<W.ParagraphFont>, b: bool)
    ensures FontBold(b) in FontSteps(font) <==> font.Some? && font.value.bold == Some(b)
  {
  }

  lemma FontItalicStep(font: Option<W.ParagraphFont>, b: bool)
    ensures FontItalic(b) in FontSteps(font) <==> font.Some? && font.value.italic == Some(b)
  {
  }

  /** Within the font block, underline is pushed whenever defined: `single` for true, `none` for false. */
  lemma FontUnderlineStep(font: Option<W.ParagraphFont>, b: bool)
    ensures FontUnderline(b) in FontSteps(font) <==> font.Some? && font.value.underline == Some(b)
  {
  }

  /** Within the font block, name and color need a non-empty string and size a non-zero number. */
  lemma FontValueSteps(font: Option<W.ParagraphFont>, s: string, n: int)
    ensures FontName(s) in FontSteps(font) <==> font.Some? && font.value.name == Some(s) && s != ""
    ensures FontSize(n) in FontSteps(font) <==> font.Some? && font.value.size == Some(n) && n != 0
  {
  }

  lemma FontColorStep(font: Option<W.ParagraphFont>, s: string)
    ensures FontColor(s) in FontSteps(font) <==> font.Some? && font.value.color == Some(s) && s != ""
  {
    if font.Some? {
      var f := font.value;
      var front := Codegen.Opt(Codegen.HasText(f.name), FontName(f.name.GetOr("")))
        + Codegen.Opt(Codegen.HasNumber(f.size), FontSize(f.size.GetOr(0)))
        + Codegen.Opt(f.bold.Some?, FontBold(f.bold.GetOr(false)))
        + Codegen.Opt(f.italic.Some?, FontItalic(f.italic.GetOr(false)))
        + Codegen.Opt(f.underline.Some?, FontUnderline(f.underline.GetOr(false)));
      var last := Codegen.Opt(Codegen.HasText(f.color), FontColor(f.color.GetOr("")));
      assert FontSteps(font) == front + last;
      assert forall x :: x in front ==> !x.FontColor?;
      assert FontColor(s) in FontSteps(font) <==> FontColor(s) in last;
    }
  }

  /** A font step is planned exactly when the font block pushes it. */
  lemma FontStepPlanned(format: W.ParagraphFormat, x: FormatStep)
    requires IsFontStep(x)
    ensures x in FormatPlan(format) <==> x in FontSteps(format.font)
  {
  }

  /** A spacing step is planned exactly when the spacing block pushes it. */
  lemma SpacingStepPlanned(format: W.ParagraphFormat, x: FormatStep)
    requires IsSpacingStep(x)
    ensures x in FormatPlan(format) <==> x in SpacingSteps(format.spacing)
  {
  }

  // ---------------------------------------------------------------------
  // The generators
  // ---------------------------------------------------------------------

  /** `params.format ? generateFormatCode(params.format, 'paragraph') : ''`, as its statements. */
  function FormatSlot(format: Option<W.ParagraphFormat>): (r: seq<string>)
    ensures format.None? ==> r == []
  {
    match format
    case None => []
    case Some(f) => Texts("paragraph", FormatPlan(f))
  }

  /** The slot line `  ${formatCode}` is exactly the joined snippet behind two spaces. */
  lemma SlotIsSnippet(formatters: seq<string>)
    ensures Str.Join(Codegen.Spliced("  ", formatters), "\n") == "  " + Str.Join(formatters, "\n  ")
  {
    Codegen.SplicedText("  ", formatters);
    assert "\n" + "  " == "\n  ";
  }

  /** `<receiver>.insertParagraph("<text with quotes escaped>", Word.InsertLocation.<location lower-cased>)` */
  function InsertCall(receiver: string, text: string, location: string): string
  {
    receiver + ".insertParagraph(\"" + Str.EscapeQuotes(text) + "\", Word.InsertLocation." + Str.ToLower(location) + ")"
  }

  const InsertFoot: seq<string> := [
    "  ",
    "  await context.sync();",
    "  ",
    "  // 获取段落索引",
    "  const paragraphs = body.paragraphs;",
    "  paragraphs.load(\"items\");",
    "  await context.sync();",
    "  ",
    "  let paragraphIndex = -1;",
    "  for (let i = 0; i < paragraphs.items.length; i++) {",
    "    if (paragraphs.items[i] === paragraph) {",
    "      paragraphIndex = i;",
    "      break;",
    "    }",
    "  }",
    "  ",
    "  return {",
    "    success: true,",
    "    paragraphIndex: paragraphIndex",
    "  };",
    "});" ]

  function InsertHead(text: string, location: string): (r: seq<string>)
    ensures |r| == 4
  {
    [ "Word.run(async (context) => {",
      "  const body = context.document.body;",
      "  const paragraph = " + (InsertCall("body", text, location)) + ";",
      "  " ]
  }

  function InsertLines(text: string, location: string, format: Option<W.ParagraphFormat>): seq<string>
  {
    InsertHead(text, location) + Codegen.Spliced("  ", FormatSlot(format)) + InsertFoot
  }

  /** `generateInsertCode` */
  function InsertCode(text: string, location: string, format: Option<W.ParagraphFormat>): string
  {
    Codegen.Code(InsertLines(text, location, format))
  }

  /**
   * The paragraph goes into the body at the lower-cased location with its
   * quotes escaped, and each planned formatter follows it; without a format
   * the slot is one blank line.
   */
  lemma InsertFormats(text: string, location: string, format: Option<W.ParagraphFormat>, k: nat)
    ensures Str.Contains(InsertCode(text, location, format), InsertCall("body", text, location))
    ensures format.None? ==> InsertLines(text, location, format)[4] == "  " && |InsertLines(text, location, format)| == 26
    ensures format.Some? && k < |FormatPlan(format.value)| ==>
      Str.Contains(InsertCode(text, location, format), StepText("paragraph", FormatPlan(format.value)[k]))
  {
    var lines := InsertLines(text, location, format);
    var head := InsertHead(text, location);
    assert lines[2] == head[2];
    Codegen.HasLine(lines, 2, "  const paragraph = ", InsertCall("body", text, location), ";");
    if format.Some? && k < |FormatPlan(format.value)| {
      assert FormatSlot(format)[k] == StepText("paragraph", FormatPlan(format.value)[k]);
      Codegen.SplicedItem(head, "  ", FormatSlot(format), InsertFoot, k);
    }
  }

  /** The opening shared by the index-based generators. */
  const ParagraphsOpening: seq<string> := [
    "Word.run(async (context) => {",
    "  const body = context.document.body;",
    "  const paragraphs = body.paragraphs;",
    "  paragraphs.load(\"items\");",
    "  await context.sync();",
    "  " ]

  function OutOfRange(index: int): string
  {
    "段落索引越界: " + Codegen.Num(index)
  }

  /** The opening and the bounds check, seven plus five lines. */
  function Checked(index: int): (r: seq<string>)
    ensures |r| == 12
  {
    ParagraphsOpening + Codegen.IndexGuard(index, "paragraphs.items.length", OutOfRange(index))
  }

  /** Every index-based template rejects an index outside `0 ≤ index < paragraphs.items.length` before anything else. */
  lemma IndexChecked(index: int, rest: seq<string>)
    ensures (Checked(index) + rest)[6..12] == Codegen.IndexGuard(index, "paragraphs.items.length", OutOfRange(index))
    ensures Str.Contains(Codegen.Code(Checked(index) + rest), Codegen.BoundsTest(index, "paragraphs.items.length"))
    ensures Str.Contains(Codegen.Code(Checked(index) + rest), "error: \"" + OutOfRange(index) + "\"")
  {
    Codegen.IndexGuardText(ParagraphsOpening, index, "paragraphs.items.length", OutOfRange(index), rest);
  }

  const FormatFoot: seq<string> := [
    "  ",
    "  await context.sync();",
    "  ",
    "  return {",
    "    success: true",
    "  };",
    "});" ]

  /** `paragraphs.items[<index>]` */
  function Item(index: int): string
  {
    "paragraphs.items[" + Codegen.Num(index) + "]"
  }

  function InsertAtSteps(text: string, index: int, location: string, format: Option<W.ParagraphFormat>): seq<string>
  {
    [ "  ",
      "  const targetParagraph = " + (Item(index)) + ";",
      "  const paragraph = " + (InsertCall("targetParagraph", text, location)) + ";",
      "  " ]
    + Codegen.Spliced("  ", FormatSlot(format)) + FormatFoot
  }

  /** `generateInsertAtCode`: checks the index, then inserts next to that paragraph at the lower-cased location. */
  function InsertAtCode(text: string, index: int, location: string, format: Option<W.ParagraphFormat>): (r: string)
    ensures Str.Contains(r, Codegen.BoundsTest(index, "paragraphs.items.length"))
    ensures Str.Contains(r, Item(index))
    ensures Str.Contains(r, InsertCall("targetParagraph", text, location))
  {
    var steps := InsertAtSteps(text, index, location, format);
    var lines := Checked(index) + steps;
    IndexChecked(index, steps);
    assert lines[13] == steps[1] && lines[14] == steps[2];
    Codegen.HasLine(lines, 13, "  const targetParagraph = ", Item(index), ";");
    Codegen.HasLine(lines, 14, "  const paragraph = ", InsertCall("targetParagraph", text, location), ";");
    Codegen.Code(lines)
  }

  function FormatParagraphSteps(index: int, format: W.ParagraphFormat): seq<string>
  {
    [ "  ",
      "  const paragraph = " + (Item(index)) + ";",
      "  " ]
    + Codegen.Spliced("  ", Texts("paragraph", FormatPlan(format))) + FormatFoot
  }

  /** `generateFormatParagraphCode`: checks the index, then applies every planned formatter to that paragraph. */
  lemma FormatParagraphApplies(index: int, format: W.ParagraphFormat, k: nat)
    requires k < |FormatPlan(format)|
    ensures Str.Contains(Codegen.Code(Checked(index) + FormatParagraphSteps(index, format)), Codegen.BoundsTest(index, "paragraphs.items.length"))
    ensures Str.Contains(Codegen.Code(Checked(index) + FormatParagraphSteps(index, format)), StepText("paragraph", FormatPlan(format)[k]))
  {
    var steps := FormatParagraphSteps(index, format);
    IndexChecked(index, steps);
    var head := ["  ", "  const paragraph = " + (Item(index)) + ";", "  "];
    var slot := Texts("paragraph", FormatPlan(format));
    Str.Regroup(Checked(index), head, Codegen.Spliced("  ", slot), FormatFoot);
    Codegen.SplicedItem(Checked(index) + head, "  ", slot, FormatFoot, k);
  }

  function FormatParagraphCode(index: int, format: W.ParagraphFormat): string
  {
    Codegen.Code(Checked(index) + FormatParagraphSteps(index, format))
  }

  function DeleteSteps(index: int): seq<string>
  {
    [ "  ",
      "  " + (Item(index) + ".delete()") + ";",
      "  await context.sync();",
      "  ",
      "  return {",
      "    success: true,",
      "    deleted: " + Codegen.Num(index),
      "  };",
      "});" ]
  }

  /** `generateDeleteCode`: checks the index, then deletes that paragraph. */
  function DeleteCode(index: int): (r: string)
    ensures Str.Contains(r, Codegen.BoundsTest(index, "paragraphs.items.length"))
    ensures Str.Contains(r, Item(index) + ".delete()")
  {
    var steps := DeleteSteps(index);
    var lines := Checked(index) + steps;
    IndexChecked(index, steps);
    assert lines[13] == steps[1];
    Codegen.HasLine(lines, 13, "  ", Item(index) + ".delete()", ";");
    Codegen.Code(lines)
  }

  const ParagraphFontLoad := "paragraph.font.load(\"name, size, bold, italic, color\")"

  function GetSteps(index: int): seq<string>
  {
    [ "  ",
      "  const paragraph = " + (Item(index)) + ";",
      "  paragraph.load(\"text, style\");",
      "  " + (ParagraphFontLoad) + ";" ]
    + [ "  await context.sync();",
        "  ",
        "  return {",
        "    text: paragraph.text,",
        "    style: paragraph.style,",
        "    font: {",
        "      name: paragraph.font.name,",
        "      size: paragraph.font.size,",
        "      bold: paragraph.font.bold,",
        "      italic: paragraph.font.italic,",
        "      color: paragraph.font.color",
        "    }",
        "  };",
        "});" ]
  }

  /** `generateGetCode`: checks the index, then reports that paragraph's text, style and font. */
  function GetCode(index: int): (r: string)
    ensures Str.Contains(r, Codegen.BoundsTest(index, "paragraphs.items.length"))
    ensures Str.Contains(r, Item(index))
    ensures Str.Contains(r, ParagraphFontLoad)
  {
    var steps := GetSteps(index);
    var lines := Checked(index) + steps;
    IndexChecked(index, steps);
    assert lines[13] == steps[1] && lines[15] == steps[3];
    Codegen.HasLine(lines, 13, "  const paragraph = ", Item(index), ";");
    Codegen.HasLine(lines, 15, "  ", ParagraphFontLoad, ";");
    Codegen.Code(lines)
  }
}
