/**
 * The PowerPoint slide generators: list, read, add, delete, duplicate and
 * move slides, and the slide-index check that every index-based PowerPoint
 * template (slides, shapes, tables) opens with.
 */
module PptSlideCodegen {
  import opened Wrappers
  import Str
  import Codegen

  // ---------------------------------------------------------------------
  // The slide-index check
  // ---------------------------------------------------------------------

  const SlidesOpening: seq<string> := [
    "PowerPoint.run(async (context) => {",
    "  const slides = context.presentation.slides;",
    "  slides.load(\"items\");",
    "  await context.sync();",
    "  " ]

  function OutOfRange(slideIndex: int): string
  {
    "幻灯片索引越界: " + Codegen.Num(slideIndex)
  }

  /** The opening, the bounds check and a blank line. */
  function Checked(slideIndex: int): (r: seq<string>)
    ensures |r| == 12
  {
    SlidesOpening + Codegen.IndexGuard(slideIndex, "slides.items.length", OutOfRange(slideIndex)) + ["  "]
  }

  /** Every index-based template rejects an index outside `0 ≤ slideIndex < slides.items.length` before anything else. */
  lemma IndexChecked(slideIndex: int, rest: seq<string>)
    ensures (Checked(slideIndex) + rest)[5..11] == Codegen.IndexGuard(slideIndex, "slides.items.length", OutOfRange(slideIndex))
    ensures Str.Contains(Codegen.Code(Checked(slideIndex) + rest), Codegen.BoundsTest(slideIndex, "slides.items.length"))
    ensures Str.Contains(Codegen.Code(Checked(slideIndex) + rest), "error: \"" + OutOfRange(slideIndex) + "\"")
  {
    assert Checked(slideIndex) + rest == SlidesOpening + Codegen.IndexGuard(slideIndex, "slides.items.length", OutOfRange(slideIndex)) + (["  "] + rest);
    Codegen.IndexGuardText(SlidesOpening, slideIndex, "slides.items.length", OutOfRange(slideIndex), ["  "] + rest);
  }

  /** `slides.items[<slideIndex>]` */
  function Item(slideIndex: int): string
  {
    "slides.items[" + Codegen.Num(slideIndex) + "]"
  }

  /** `  const slide = slides.items[<slideIndex>];` */
  function SlideAt(slideIndex: int): string
  {
    "  const slide = " + (Item(slideIndex)) + ";"
  }

  /** Line 12 of every template that works on one slide selects the checked slide. */
  lemma SlideSelected(slideIndex: int, rest: seq<string>)
    ensures Str.Contains(Codegen.Code(Checked(slideIndex) + ([SlideAt(slideIndex)] + rest)), Item(slideIndex))
  {
    var lines := Checked(slideIndex) + ([SlideAt(slideIndex)] + rest);
    assert lines[12] == SlideAt(slideIndex);
    Codegen.HasLine(lines, 12, "  const slide = ", Item(slideIndex), ";");
  }

  // ---------------------------------------------------------------------
  // List and read
  // ---------------------------------------------------------------------

  const SlideCount := "slideCount: slides.items.length"

  const ListLines: seq<string> := [
    "PowerPoint.run(async (context) => {",
    "  const slides = context.presentation.slides;",
    "  slides.load(\"items\");",
    "  await context.sync();",
    "  ",
    "  const slideInfos = slides.items.map((slide, index) => ({",
    "    index: index,",
    "    id: slide.id",
    "  }));",
    "  ",
    "  return {",
    "    " + (SlideCount) + ",",
    "    slides: slideInfos",
    "  };",
    "});" ]

  /** `generateListCode`: the number of slides and each slide's index and id. */
  function ListCode(): (r: string)
    ensures Str.Contains(r, SlideCount)
  {
    Codegen.HasLine(ListLines, 11, "    ", SlideCount, ",");
    Codegen.Code(ListLines)
  }

  const TextShapes := "if (shape.type === PowerPoint.ShapeType.textBox || shape.type === PowerPoint.ShapeType.geometricShape) {"

  function ReadSteps(slideIndex: int): seq<string>
  {
    [ SlideAt(slideIndex),
      "  const shapes = slide.shapes;",
      "  shapes.load(\"items\");",
      "  await context.sync();",
      "  ",
      "  const texts = [];",
      "  const shapeInfos = [];",
      "  ",
      "  for (const shape of shapes.items) {",
      "    shape.load(\"id, type\");",
      "    " + (TextShapes) ]
    + [ "      const textFrame = shape.textFrame;",
        "      textFrame.load(\"textRange\");",
        "      await context.sync();",
        "      ",
        "      texts.push({",
        "        content: textFrame.textRange.text,",
        "        shapeType: shape.type",
        "      });",
        "    }",
        "    " ]
    + [ "    shapeInfos.push({",
        "      id: shape.id,",
        "      type: shape.type",
        "    });",
        "  }",
        "  ",
        "  await context.sync();",
        "  ",
        "  return {",
        "    texts: texts,",
        "    shapes: shapeInfos,",
        "    shapeCount: shapes.items.length",
        "  };",
        "});" ]
  }

  /** `generateReadCode`: checks the index, then collects the text of text boxes and geometric shapes only. */
  function ReadCode(slideIndex: int): (r: string)
    ensures Str.Contains(r, Codegen.BoundsTest(slideIndex, "slides.items.length"))
    ensures Str.Contains(r, Item(slideIndex))
    ensures Str.Contains(r, TextShapes)
  {
    var steps := ReadSteps(slideIndex);
    var lines := Checked(slideIndex) + steps;
    IndexChecked(slideIndex, steps);
    SlideSelected(slideIndex, steps[1..]);
    assert steps == [SlideAt(slideIndex)] + steps[1..];
    assert lines[22] == steps[10];
    Codegen.HasTail(lines, 22, "    ", TextShapes);
    Codegen.Code(lines)
  }

  // ---------------------------------------------------------------------
  // Add, delete, duplicate, move
  // ---------------------------------------------------------------------

  const SlidesAdd := "slides.add()"

  const AddLines: seq<string> := [
    "PowerPoint.run(async (context) => {",
    "  const slides = context.presentation.slides;",
    "  ",
    "  // 添加新幻灯片",
    "  " + (SlidesAdd) + ";",
    "  await context.sync();",
    "  ",
    "  // 重新加载以获取新幻灯片",
    "  slides.load(\"items\");",
    "  await context.sync();",
    "  ",
    "  const newSlideIndex = slides.items.length - 1;",
    "  ",
    "  return {",
    "    slideIndex: newSlideIndex,",
    "    success: true",
    "  };",
    "});" ]

  /** `generateAddCode`; the layout (defaulted to `Blank`) and the insertion point are computed or accepted and not used. */
  function AddCode(layout: Option<string>, insertAfter: Option<int>): (r: string)
    ensures Str.Contains(r, SlidesAdd)
  {
    Codegen.HasLine(AddLines, 4, "  ", SlidesAdd, ";");
    Codegen.Code(AddLines)
  }

  /** The new slide always goes at the end with the default layout: neither parameter changes the script. */
  lemma AddIgnoresParams(layout: Option<string>, insertAfter: Option<int>)
    ensures AddCode(layout, insertAfter) == AddCode(None, None)
  {
  }

  function DeleteSteps(slideIndex: int): seq<string>
  {
    [ "  " + (Item(slideIndex) + ".delete()") + ";",
      "  await context.sync();",
      "  ",
      "  return {",
      "    success: true,",
      "    deleted: " + Codegen.Num(slideIndex),
      "  };",
      "});" ]
  }

  /** `generateDeleteCode`: checks the index, then deletes that slide. */
  function DeleteCode(slideIndex: int): (r: string)
    ensures Str.Contains(r, Codegen.BoundsTest(slideIndex, "slides.items.length"))
    ensures Str.Contains(r, Item(slideIndex) + ".delete()")
  {
    var steps := DeleteSteps(slideIndex);
    var lines := Checked(slideIndex) + steps;
    IndexChecked(slideIndex, steps);
    assert lines[12] == steps[0];
    Codegen.HasLine(lines, 12, "  ", Item(slideIndex) + ".delete()", ";");
    Codegen.Code(lines)
  }

  const CopyNote := "note: \"已添加新幻灯片，PowerPoint.js暂不支持自动复制内容\""

  /** What duplicate does once the index is checked: the same for every index. */
  const DuplicateSteps: seq<string> := [
    "  // PowerPoint.js 不直接支持复制幻灯片",
    "  // 作为替代，我们可以添加新幻灯片并提示用户",
    "  " + (SlidesAdd) + ";",
    "  await context.sync();",
    "  ",
    "  slides.load(\"items\");",
    "  await context.sync();",
    "  ",
    "  const newSlideIndex = slides.items.length - 1;",
    "  ",
    "  return {",
    "    newSlideIndex: newSlideIndex,",
    "    success: true,",
    "    " + (CopyNote),
    "  };",
    "});" ]

  /** `generateDuplicateCode` */
  function DuplicateCode(slideIndex: int): string
  {
    Codegen.Code(Checked(slideIndex) + DuplicateSteps)
  }

  /**
   * Duplicate checks the index and then only appends a blank slide and
   * returns a note: past the bounds check, the script is the same whichever slide
   * was named.
   */
  lemma DuplicateAddsBlank(slideIndex: int, other: int)
    ensures Str.Contains(DuplicateCode(slideIndex), Codegen.BoundsTest(slideIndex, "slides.items.length"))
    ensures Str.Contains(DuplicateCode(slideIndex), SlidesAdd)
    ensures Str.Contains(DuplicateCode(slideIndex), CopyNote)
    ensures (Checked(slideIndex) + DuplicateSteps)[12..] == (Checked(other) + DuplicateSteps)[12..]
  {
    var lines := Checked(slideIndex) + DuplicateSteps;
    IndexChecked(slideIndex, DuplicateSteps);
    assert lines[14] == DuplicateSteps[2] && lines[25] == DuplicateSteps[13];
    Codegen.HasLine(lines, 14, "  ", SlidesAdd, ";");
    Codegen.HasTail(lines, 25, "    ", CopyNote);
    assert lines[12..] == DuplicateSteps;
    assert (Checked(other) + DuplicateSteps)[12..] == DuplicateSteps;
  }

  const MoveUnsupported := "error: \"PowerPoint.js API 暂不支持移动幻灯片功能\""

  const MoveLines: seq<string> := [
    "PowerPoint.run(async (context) => {",
    "  // PowerPoint.js 暂不支持直接移动幻灯片",
    "  // 返回提示信息",
    "  return {",
    "    " + ("success: false") + ",",
    "    " + (MoveUnsupported),
    "  };",
    "});" ]

  /** `generateMoveCode`: always reports failure, whatever the indices. */
  function MoveCode(fromIndex: int, toIndex: int): (r: string)
    ensures Str.Contains(r, "success: false")
    ensures Str.Contains(r, MoveUnsupported)
  {
    Codegen.HasLine(MoveLines, 4, "    ", "success: false", ",");
    Codegen.HasTail(MoveLines, 5, "    ", MoveUnsupported);
    Codegen.Code(MoveLines)
  }

  /** Moving never depends on which slides were named. */
  lemma MoveIgnoresIndices(a: int, b: int, c: int, d: int)
    ensures MoveCode(a, b) == MoveCode(c, d)
  {
  }
}
