/**
 * The test-case generator of the Office skill regression suite
 * (tests/office-skills/scripts/generate-test-cases.ts): it cuts a host's
 * TOOLS.md into `## ` sections, runs a line-by-line state machine over each
 * section to collect the fenced JavaScript under every `### ` heading, and
 * turns each collected template into a test case with an id, a prompt, an
 * expected behaviour, four validation steps and a priority.
 */
module TestCaseGen {
  import opened Wrappers
  import Str

  datatype Host = Excel | Word | PowerPoint

  /** The host names the suite is generated for, as they appear in ids and file names. */
  function HostName(h: Host): string
  {
    match h
    case Excel => "excel"
    case Word => "word"
    case PowerPoint => "powerpoint"
  }

  /** `{ category, name, code }` */
  datatype CodeTemplate = CodeTemplate(category: string, name: string, code: string)

  // ---------------------------------------------------------------------------
  // Sections: `content.split(/^##\s+/m).filter(s => s.trim())`
  // ---------------------------------------------------------------------------

  /** `/^##\s+/m` matches at `i`: a line begins there with `##` and white space. */
  predicate HeadingAt(s: string, i: nat)
  {
    i + 2 < |s| && (i == 0 || Str.IsLineTerminator(s[i - 1]))
    && s[i] == '#' && s[i + 1] == '#' && Str.IsWs(s[i + 2])
  }

  /** The end of the match at `i`: `\s+` is greedy and may run over line ends. */
  function HeadingEnd(s: string, i: nat): (e: nat)
    requires HeadingAt(s, i)
    ensures i + 2 < e <= |s|
  {
    Str.SkipWs(s, i + 2)
  }

  /** The first match at or after `from`. */
  function NextHeading(s: string, from: nat): (r: Option<nat>)
    requires from <= |s|
    ensures r.Some? ==> from <= r.value < |s| && HeadingAt(s, r.value)
    ensures forall j :: from <= j < |s| && (r.None? || j < r.value) ==> !HeadingAt(s, j)
    decreases |s| - from
  {
    if from == |s| then None
    else if HeadingAt(s, from) then Some(from)
    else NextHeading(s, from + 1)
  }

  /** A `## ` start inside a piece is one in the text it was cut from. */
  lemma HeadingInside(s: string, from: nat, to: nat, j: nat)
    requires from <= to <= |s| && 0 < j < to - from
    requires HeadingAt(s[from..to], j)
    ensures HeadingAt(s, from + j)
  {
    var p := s[from..to];
    assert p[j - 1] == s[from + j - 1];
    assert p[j] == s[from + j] && p[j + 1] == s[from + j + 1] && p[j + 2] == s[from + j + 2];
  }

  /**
   * The pieces of `split` from `from` on. No piece holds a `## ` heading
   * except at its very first character, where the regular expression's `^`
   * cannot see the text before the piece.
   */
  function Pieces(s: string, from: nat): (r: seq<string>)
    requires from <= |s|
    ensures |r| > 0
    ensures forall k, j :: 0 <= k < |r| && 0 < j < |r[k]| ==> !HeadingAt(r[k], j)
    decreases |s| - from
  {
    match NextHeading(s, from)
    case None =>
      var p := s[from..];
      assert forall j :: 0 < j < |p| ==> !HeadingAt(p, j) by {
        forall j | 0 < j < |p| && HeadingAt(p, j) ensures false {
          assert p == s[from..|s|];
          HeadingInside(s, from, |s|, j);
        }
      }
      [p]
    case Some(i) =>
      var p, rest := s[from..i], Pieces(s, HeadingEnd(s, i));
      assert forall j :: 0 < j < |p| ==> !HeadingAt(p, j) by {
        forall j | 0 < j < |p| && HeadingAt(p, j) ensures false {
          HeadingInside(s, from, i, j);
        }
      }
      [p] + rest
  }

  predicate Blank(s: string)
  {
    Str.Trim(s) == ""
  }

  /** `filter(s => s.trim())`: the pieces that are not blank, in order. */
  function NonBlank(ps: seq<string>): (r: seq<string>)
    ensures forall k :: 0 <= k < |r| ==> !Blank(r[k]) && r[k] in ps
  {
    if |ps| == 0 then []
    else NonBlank(ps[..|ps| - 1]) + (if Blank(ps[|ps| - 1]) then [] else [ps[|ps| - 1]])
  }

  function Sections(content: string): seq<string>
  {
    NonBlank(Pieces(content, 0))
  }

  /** Every section is non-blank and holds no `## ` heading after its first character. */
  lemma SectionsShape(content: string)
    ensures forall k :: 0 <= k < |Sections(content)| ==> !Blank(Sections(content)[k])
    ensures forall k, j :: 0 <= k < |Sections(content)| && 0 < j < |Sections(content)[k]| ==> !HeadingAt(Sections(content)[k], j)
  {
    var ps := Pieces(content, 0);
    forall k, j | 0 <= k < |Sections(content)| && 0 < j < |Sections(content)[k]|
      ensures !HeadingAt(Sections(content)[k], j)
    {
      var x := Sections(content)[k];
      var m :| 0 <= m < |ps| && ps[m] == x;
    }
  }

  // ---------------------------------------------------------------------------
  // The category of a section
  // ---------------------------------------------------------------------------

  /** `lines[0].trim().replace(/模板$/, '').trim()` */
  function CategoryOf(section: string): (r: string)
  {
    var t := Str.Trim(Str.Split(section, "\n")[0]);
    Str.Trim(if Str.EndsWith(t, "模板") then t[..|t| - 2] else t)
  }

  predicate NoNewline(s: string)
  {
    forall i :: 0 <= i < |s| ==> s[i] != '\n'
  }

  lemma SplitNoNewline(s: string)
    requires NoNewline(s)
    ensures Str.Split(s, "\n") == [s]
  {
    forall j | 0 <= j ensures !Str.OccursAt(s, "\n", j) {
      if j < |s| {
        assert s[j..j + 1][0] == s[j];
      }
    }
  }

  /** The first line of a section, however the section goes on. */
  lemma FirstLine(title: string, rest: string)
    requires NoNewline(title)
    ensures Str.Split(title + "\n" + rest, "\n")[0] == title
  {
    assert title + "\n" + rest == title + ['\n'] + rest;
    Str.SplitLead(title, '\n', rest);
  }

  /** A heading `## <title>模板` names the category `<title>`, trimmed. */
  lemma CategoryOfTemplateTitle(title: string, rest: string)
    requires NoNewline(title + "模板")
    requires title == [] || !Str.IsWs(title[0])
    ensures CategoryOf(title + "模板" + "\n" + rest) == Str.Trim(title)
  {
    var t := title + "模板";
    FirstLine(t, rest);
    assert t[|t| - 1] == '板';
    assert t[0] == if title == [] then '模' else title[0];
    Str.TrimOfClean(t);
    assert t[|t| - 2..] == "模板";
    assert t[..|t| - 2] == title;
  }

  /** A clean title line that does not end in 模板 is the category as it stands. */
  lemma CategoryOfPlainTitle(title: string, rest: string)
    requires NoNewline(title) && !Str.EndsWith(title, "模板")
    requires title == [] || (!Str.IsWs(title[0]) && !Str.IsWs(title[|title| - 1]))
    ensures CategoryOf(title + "\n" + rest) == title
  {
    FirstLine(title, rest);
    Str.TrimOfClean(title);
  }

  // ---------------------------------------------------------------------------
  // The template state machine over the lines of a section
  // ---------------------------------------------------------------------------

  /** `line.match(/^###\s+/)` */
  predicate IsHeading(line: string)
  {
    |line| > 3 && line[0] == '#' && line[1] == '#' && line[2] == '#' && Str.IsWs(line[3])
  }

  /** `line.replace(/^###\s+/, '').trim()` */
  function HeadingName(line: string): string
    requires IsHeading(line)
  {
    Str.Trim(line[Str.SkipWs(line, 3)..])
  }

  predicate IsOpenFence(line: string)
  {
    Str.Trim(line) == "```javascript" || Str.Trim(line) == "```js"
  }

  predicate IsCloseFence(line: string)
  {
    Str.Trim(line) == "```"
  }

  /** Which test of the loop's `if` chain a line passes first, before the state is looked at. */
  datatype Kind = Heading(title: string) | OpenFence | CloseFence | Text

  function Classify(line: string): Kind
  {
    if IsHeading(line) then Heading(HeadingName(line))
    else if IsOpenFence(line) then OpenFence
    else if IsCloseFence(line) then CloseFence
    else Text
  }

  datatype Line = Line(text: string, kind: Kind)

  function Lines(ls: seq<string>): (r: seq<Line>)
    ensures |r| == |ls|
  {
    if |ls| == 0 then [] else Lines(ls[..|ls| - 1]) + [Line(ls[|ls| - 1], Classify(ls[|ls| - 1]))]
  }

  lemma {:induction false} LinesAt(ls: seq<string>, i: nat)
    requires i < |ls|
    ensures Lines(ls)[i] == Line(ls[i], Classify(ls[i]))
  {
    if i < |ls| - 1 {
      LinesAt(ls[..|ls| - 1], i);
    }
  }

  lemma {:induction false} LinesConcat(a: seq<string>, b: seq<string>)
    ensures Lines(a + b) == Lines(a) + Lines(b)
  {
    if |b| == 0 {
      assert a + b == a;
    } else {
      var b' := b[..|b| - 1];
      assert (a + b)[..|a + b| - 1] == a + b';
      LinesConcat(a, b');
    }
  }

  /** A template the loop has pushed, with its code lines before they are joined. */
  datatype Raw = Raw(name: string, code: seq<string>)

  /** `currentName`, `collectingCode`, `codeLines` and what has been pushed. */
  datatype Scan = Scan(name: string, collecting: bool, code: seq<string>, pushed: seq<Raw>)

  const Start := Scan("", false, [], [])

  /** What a flush pushes: the pending template only with a name and at least one code line. */
  function Pending(st: Scan): (r: seq<Raw>)
    ensures |r| <= 1
    ensures |r| == 1 <==> st.name != "" && |st.code| > 0
    ensures |r| == 1 ==> r[0] == Raw(st.name, st.code)
  {
    if st.name != "" && |st.code| > 0 then [Raw(st.name, st.code)] else []
  }

  /**
   * One iteration of the loop. A heading flushes the pending template and
   * starts a new name; `codeLines` is emptied only when something was
   * pushed, so code met before any heading stays for the first template.
   */
  function Step(st: Scan, line: Line): Scan
  {
    match line.kind
    case Heading(title) => Scan(title, false, if |Pending(st)| == 1 then [] else st.code, Flushed(st))
    case OpenFence => st.(collecting := true)
    case CloseFence => if st.collecting then st.(collecting := false) else st
    case Text => if st.collecting then st.(code := st.code + [line.text]) else st
  }

  /** The state after the loop has seen `lines`. */
  function Run(st: Scan, lines: seq<Line>): Scan
  {
    if |lines| == 0 then st else Step(Run(st, lines[..|lines| - 1]), lines[|lines| - 1])
  }

  /** `codeLines.join('\n').trim()` */
  function CodeText(code: seq<string>): string
  {
    Str.Trim(Str.Join(code, "\n"))
  }

  function Template(category: string, r: Raw): CodeTemplate
  {
    CodeTemplate(category, r.name, CodeText(r.code))
  }

  /** The pushed templates with their code joined and trimmed. */
  function Finish(category: string, rs: seq<Raw>): (r: seq<CodeTemplate>)
    ensures |r| == |rs|
  {
    if |rs| == 0 then [] else Finish(category, rs[..|rs| - 1]) + [Template(category, rs[|rs| - 1])]
  }

  lemma FinishAppend(category: string, rs: seq<Raw>, r: Raw)
    ensures Finish(category, rs + [r]) == Finish(category, rs) + [Template(category, r)]
  {
    assert (rs + [r])[..|rs|] == rs;
  }

  lemma {:induction false} FinishAt(category: string, rs: seq<Raw>, k: nat)
    requires k < |rs|
    ensures Finish(category, rs)[k] == Template(category, rs[k])
  {
    if k < |rs| - 1 {
      FinishAt(category, rs[..|rs| - 1], k);
    }
  }

  /** What the loop has pushed, with the last template flushed. */
  function Flushed(st: Scan): seq<Raw>
  {
    st.pushed + Pending(st)
  }

  /** The templates of one section, the last one flushed after the loop. */
  function SectionTemplates(section: string): seq<CodeTemplate>
  {
    Finish(CategoryOf(section), Flushed(Run(Start, Lines(Str.Split(section, "\n")))))
  }

  /** `parseToolsFile`: the templates of every section, section by section. */
  function Parse(sections: seq<string>): seq<CodeTemplate>
  {
    if |sections| == 0 then [] else Parse(sections[..|sections| - 1]) + SectionTemplates(sections[|sections| - 1])
  }

  lemma ParseStep(sections: seq<string>, i: nat)
    requires i < |sections|
    ensures Parse(sections[..i + 1]) == Parse(sections[..i]) + SectionTemplates(sections[i])
  {
    assert sections[..i + 1][..i] == sections[..i];
  }

  function ParseToolsFile(content: string): seq<CodeTemplate>
  {
    Parse(Sections(content))
  }

  lemma RunStep(st: Scan, lines: seq<Line>, i: nat)
    requires i < |lines|
    ensures Run(st, lines[..i + 1]) == Step(Run(st, lines[..i]), lines[i])
  {
    assert lines[..i + 1][..i] == lines[..i];
  }

  lemma {:induction false} RunConcat(st: Scan, a: seq<Line>, b: seq<Line>)
    ensures Run(st, a + b) == Run(Run(st, a), b)
  {
    if |b| > 0 {
      var b' := b[..|b| - 1];
      assert (a + b)[..|a + b| - 1] == a + b';
      RunConcat(st, a, b');
    } else {
      assert a + b == a;
    }
  }

  /** Every pushed template has a name and at least one code line. */
  predicate Pushable(rs: seq<Raw>)
  {
    forall k :: 0 <= k < |rs| ==> rs[k].name != "" && |rs[k].code| > 0
  }

  lemma {:induction false} RunPushable(st: Scan, lines: seq<Line>)
    requires Pushable(st.pushed)
    ensures Pushable(Run(st, lines).pushed)
  {
    if |lines| > 0 {
      RunPushable(st, lines[..|lines| - 1]);
    }
  }

  lemma FlushedPushable(st: Scan)
    requires Pushable(st.pushed)
    ensures Pushable(Flushed(st))
  {
    var rs := Flushed(st);
    forall k | 0 <= k < |rs| ensures rs[k].name != "" && |rs[k].code| > 0 {
      if k >= |st.pushed| {
        assert rs[k] == Pending(st)[0];
      } else {
        assert rs[k] == st.pushed[k];
      }
    }
  }

  /** Templates finished from pushable ones carry the category and a name. */
  lemma FinishNamed(category: string, rs: seq<Raw>)
    requires Pushable(rs)
    ensures forall k :: 0 <= k < |Finish(category, rs)| ==>
      Finish(category, rs)[k].category == category && Finish(category, rs)[k].name != ""
  {
    forall k | 0 <= k < |rs| ensures Finish(category, rs)[k].category == category && Finish(category, rs)[k].name != "" {
      FinishAt(category, rs, k);
    }
  }

  /**
   * Every template of a section carries the section's category and a
   * non-empty name: a heading line with nothing after `### ` never names one.
   */
  lemma SectionTemplatesNamed(section: string)
    ensures forall k :: 0 <= k < |SectionTemplates(section)| ==>
      SectionTemplates(section)[k].category == CategoryOf(section) && SectionTemplates(section)[k].name != ""
  {
    var ls := Lines(Str.Split(section, "\n"));
    var end := Run(Start, ls);
    RunPushable(Start, ls);
    FlushedPushable(end);
    FinishNamed(CategoryOf(section), Flushed(end));
  }

  // ---------------------------------------------------------------------------
  // Round trip: a section written as headings with fenced code blocks
  // ---------------------------------------------------------------------------

  /** A code line the state machine collects as it stands. */
  predicate IsCodeLine(line: string)
  {
    NoNewline(line) && Classify(line) == Text
  }

  /** A `### name` heading followed by one fenced JavaScript block. */
  datatype Block = Block(name: string, code: seq<string>)

  predicate CleanName(name: string)
  {
    |name| > 0 && !Str.IsWs(name[0]) && !Str.IsWs(name[|name| - 1]) && NoNewline(name)
  }

  predicate WellFormed(b: Block)
  {
    CleanName(b.name) && |b.code| > 0 && forall k :: 0 <= k < |b.code| ==> IsCodeLine(b.code[k])
  }

  function HeadingLine(name: string): string
  {
    "### " + name
  }

  function BlockLines(b: Block): seq<string>
  {
    [HeadingLine(b.name), "```javascript"] + b.code + ["```"]
  }

  function Render(bs: seq<Block>): seq<string>
  {
    if |bs| == 0 then [] else Render(bs[..|bs| - 1]) + BlockLines(bs[|bs| - 1])
  }

  /** The templates the blocks stand for. */
  function TemplatesOf(bs: seq<Block>): (r: seq<Raw>)
    ensures |r| == |bs|
    ensures forall k :: 0 <= k < |bs| ==> r[k] == Raw(bs[k].name, bs[k].code)
  {
    if |bs| == 0 then [] else TemplatesOf(bs[..|bs| - 1]) + [Raw(bs[|bs| - 1].name, bs[|bs| - 1].code)]
  }

  /** Lines classified as plain text. */
  function TextLines(code: seq<string>): (r: seq<Line>)
    ensures |r| == |code|
  {
    if |code| == 0 then [] else TextLines(code[..|code| - 1]) + [Line(code[|code| - 1], Text)]
  }

  /** How a block's lines are classified. */
  function BlockKinds(b: Block): seq<Line>
  {
    [Line(HeadingLine(b.name), Heading(b.name)), Line("```javascript", OpenFence)] + TextLines(b.code) + [Line("```", CloseFence)]
  }

  function RenderKinds(bs: seq<Block>): seq<Line>
  {
    if |bs| == 0 then [] else RenderKinds(bs[..|bs| - 1]) + BlockKinds(bs[|bs| - 1])
  }

  lemma ClassifyHeading(name: string)
    requires CleanName(name)
    ensures Classify(HeadingLine(name)) == Heading(name)
  {
    var l := HeadingLine(name);
    assert l[3] == ' ' && l[4] == name[0];
    assert IsHeading(l);
    assert Str.SkipWs(l, 4) == 4;
    assert Str.SkipWs(l, 3) == 4;
    assert l[4..] == name;
    Str.TrimOfClean(name);
    assert HeadingName(l) == name;
  }

  lemma ClassifyOpenFence()
    ensures Classify("```javascript") == OpenFence
  {
    var l := "```javascript";
    assert l[0] == '`';
    assert !IsHeading(l);
    Str.TrimOfClean(l);
    assert IsOpenFence(l);
  }

  lemma ClassifyShortFence()
    ensures Classify("```js") == OpenFence
  {
    var l := "```js";
    assert l[0] == '`';
    assert !IsHeading(l);
    Str.TrimOfClean(l);
    assert IsOpenFence(l);
  }

  lemma ClassifyCloseFence()
    ensures Classify("```") == CloseFence
  {
    Str.TrimOfClean("```");
    assert |Str.Trim("```")| == 3;
    assert !IsHeading("```");
    assert !IsOpenFence("```");
    assert IsCloseFence("```");
  }

  lemma LinesOne(line: string)
    ensures Lines([line]) == [Line(line, Classify(line))]
  {
    assert [line][..0] == [];
  }

  lemma LinesPair(first: string, second: string)
    ensures Lines([first, second]) == [Line(first, Classify(first)), Line(second, Classify(second))]
  {
    assert [first, second][..1] == [first];
    LinesOne(first);
  }

  lemma {:induction false} LinesOfCode(code: seq<string>)
    requires forall k :: 0 <= k < |code| ==> IsCodeLine(code[k])
    ensures Lines(code) == TextLines(code)
  {
    if |code| > 0 {
      LinesOfCode(code[..|code| - 1]);
      assert IsCodeLine(code[|code| - 1]);
    }
  }

  lemma LinesOfBlock(b: Block)
    requires WellFormed(b)
    ensures Lines(BlockLines(b)) == BlockKinds(b)
  {
    var h := HeadingLine(b.name);
    ClassifyHeading(b.name);
    ClassifyOpenFence();
    LinesPair(h, "```javascript");
    LinesOfCode(b.code);
    LinesConcat([h, "```javascript"], b.code);
    ClassifyCloseFence();
    LinesOne("```");
    LinesConcat([h, "```javascript"] + b.code, ["```"]);
  }

  lemma {:induction false} LinesOfRender(bs: seq<Block>)
    requires forall k :: 0 <= k < |bs| ==> WellFormed(bs[k])
    ensures Lines(Render(bs)) == RenderKinds(bs)
  {
    if |bs| > 0 {
      var front, last := bs[..|bs| - 1], bs[|bs| - 1];
      LinesOfRender(front);
      LinesOfBlock(last);
      LinesConcat(Render(front), BlockLines(last));
    }
  }

  /** While collecting, text lines are appended one by one and nothing else changes. */
  lemma {:induction false} CollectRun(st: Scan, code: seq<string>)
    requires st.collecting
    ensures Run(st, TextLines(code)) == st.(code := st.code + code)
  {
    if |code| > 0 {
      var front := code[..|code| - 1];
      assert TextLines(code)[..|code| - 1] == TextLines(front);
      CollectRun(st, front);
      assert st.code + front + [code[|code| - 1]] == st.code + code;
    } else {
      assert st.code + code == st.code;
    }
  }

  lemma RunOne(st: Scan, l: Line)
    ensures Run(st, [l]) == Step(st, l)
  {
    assert [l][..0] == [];
  }

  /** A block flushes the pending template and leaves its own pending. */
  lemma BlockRun(st: Scan, b: Block)
    requires !st.collecting
    requires st.name == "" ==> st.code == []
    ensures Run(st, BlockKinds(b)) == Scan(b.name, false, b.code, Flushed(st))
  {
    var lh, lo, lc := Line(HeadingLine(b.name), Heading(b.name)), Line("```javascript", OpenFence), Line("```", CloseFence);
    var s1 := Scan(b.name, false, [], Flushed(st));
    RunOne(st, lh);
    RunOne(s1, lo);
    var s2 := s1.(collecting := true);
    CollectRun(s2, b.code);
    assert s2.code + b.code == b.code;
    RunOne(s2.(code := b.code), lc);
    RunConcat(st, [lh], [lo]);
    assert [lh] + [lo] == [lh, lo];
    RunConcat(st, [lh, lo], TextLines(b.code));
    RunConcat(st, [lh, lo] + TextLines(b.code), [lc]);
  }

  /**
   * Blocks with names and code leave the last one pending and every earlier
   * one pushed, in document order.
   */
  lemma {:induction false} RenderRun(bs: seq<Block>)
    requires |bs| > 0
    requires forall k :: 0 <= k < |bs| ==> bs[k].name != "" && |bs[k].code| > 0
    ensures Run(Start, RenderKinds(bs)) == Scan(bs[|bs| - 1].name, false, bs[|bs| - 1].code, TemplatesOf(bs[..|bs| - 1]))
  {
    var front, last := bs[..|bs| - 1], bs[|bs| - 1];
    RunConcat(Start, RenderKinds(front), BlockKinds(last));
    if |front| == 0 {
      assert RenderKinds(front) == [];
      BlockRun(Start, last);
    } else {
      RenderRun(front);
      var st := Run(Start, RenderKinds(front));
      assert front[|front| - 1] == bs[|bs| - 2];
      assert front[..|front| - 1] == bs[..|bs| - 2];
      BlockRun(st, last);
      assert TemplatesOf(front) == TemplatesOf(front[..|front| - 1]) + Pending(st);
    }
  }

  lemma {:induction false} RenderLines(bs: seq<Block>)
    requires forall k :: 0 <= k < |bs| ==> WellFormed(bs[k])
    ensures forall k :: 0 <= k < |Render(bs)| ==> NoNewline(Render(bs)[k])
  {
    if |bs| > 0 {
      RenderLines(bs[..|bs| - 1]);
      var b := bs[|bs| - 1];
      assert NoNewline(HeadingLine(b.name)) by {
        forall i | 0 <= i < |HeadingLine(b.name)| ensures HeadingLine(b.name)[i] != '\n' {
          if i >= 4 {
            assert HeadingLine(b.name)[i] == b.name[i - 4];
          }
        }
      }
      forall k | 0 <= k < |BlockLines(b)| ensures NoNewline(BlockLines(b)[k]) {
        if 2 <= k < 2 + |b.code| {
          assert BlockLines(b)[k] == b.code[k - 2];
        }
      }
    }
  }

  /** Splitting joined lines on the line break gives the lines back. */
  lemma {:induction false} SplitJoinLines(lines: seq<string>)
    requires |lines| > 0
    requires forall k :: 0 <= k < |lines| ==> NoNewline(lines[k])
    ensures Str.Split(Str.Join(lines, "\n"), "\n") == lines
  {
    if |lines| == 1 {
      SplitNoNewline(lines[0]);
    } else {
      var rest := lines[1..];
      SplitJoinLines(rest);
      assert Str.Join(lines, "\n") == lines[0] + ['\n'] + Str.Join(rest, "\n");
      Str.SplitLead(lines[0], '\n', Str.Join(rest, "\n"));
    }
  }

  /** A section written as a title line and rendered blocks splits back into those lines. */
  lemma SectionLines(title: string, bs: seq<Block>)
    requires NoNewline(title)
    requires |bs| > 0 && forall k :: 0 <= k < |bs| ==> WellFormed(bs[k])
    ensures Str.Split(title + "\n" + Str.Join(Render(bs), "\n"), "\n") == [title] + Render(bs)
  {
    RenderLines(bs);
    var lines := [title] + Render(bs);
    forall k | 0 <= k < |lines| ensures NoNewline(lines[k]) {
      if k > 0 {
        assert lines[k] == Render(bs)[k - 1];
      }
    }
    assert Render(bs) == Render(bs[..|bs| - 1]) + BlockLines(bs[|bs| - 1]);
    Str.JoinCons(title, Render(bs), "\n");
    SplitJoinLines(lines);
  }

  /** The title line changes nothing; then the blocks run as rendered. */
  lemma SectionRun(title: string, bs: seq<Block>)
    requires NoNewline(title) && Classify(title) != OpenFence && !Classify(title).Heading?
    requires |bs| > 0 && forall k :: 0 <= k < |bs| ==> WellFormed(bs[k])
    ensures var last := bs[|bs| - 1];
      Run(Start, Lines(Str.Split(title + "\n" + Str.Join(Render(bs), "\n"), "\n")))
      == Scan(last.name, false, last.code, TemplatesOf(bs[..|bs| - 1]))
  {
    SectionLines(title, bs);
    var lt := Line(title, Classify(title));
    LinesOne(title);
    LinesConcat([title], Render(bs));
    LinesOfRender(bs);
    RunOne(Start, lt);
    assert Step(Start, lt) == Start;
    RunConcat(Start, [lt], RenderKinds(bs));
    RenderRun(bs);
  }

  /** Flushing after the last block adds it after the earlier ones. */
  lemma FlushLast(bs: seq<Block>)
    requires |bs| > 0 && bs[|bs| - 1].name != "" && |bs[|bs| - 1].code| > 0
    ensures var last := bs[|bs| - 1];
      Flushed(Scan(last.name, false, last.code, TemplatesOf(bs[..|bs| - 1]))) == TemplatesOf(bs)
  {
  }

  /**
   * A section made of a title line and well-formed blocks yields exactly one
   * template per block, in order, each with its block's name and code.
   */
  lemma SectionRoundTrip(title: string, bs: seq<Block>)
    requires NoNewline(title) && Classify(title) != OpenFence && !Classify(title).Heading?
    requires |bs| > 0 && forall k :: 0 <= k < |bs| ==> WellFormed(bs[k])
    ensures var section := title + "\n" + Str.Join(Render(bs), "\n");
      SectionTemplates(section) == Finish(CategoryOf(section), TemplatesOf(bs))
  {
    var section := title + "\n" + Str.Join(Render(bs), "\n");
    var end := Run(Start, Lines(Str.Split(section, "\n")));
    SectionRun(title, bs);
    assert WellFormed(bs[|bs| - 1]);
    FlushLast(bs);
    assert Flushed(end) == TemplatesOf(bs);
  }

  /** How the lines of code fenced before a heading are classified. */
  lemma LinesOfEarlyCode(code: seq<string>, name: string)
    requires forall k :: 0 <= k < |code| ==> IsCodeLine(code[k])
    requires CleanName(name)
    ensures Lines(["```js"] + code + ["```", HeadingLine(name)])
      == [Line("```js", OpenFence)] + TextLines(code) + [Line("```", CloseFence), Line(HeadingLine(name), Heading(name))]
  {
    ClassifyShortFence();
    LinesOne("```js");
    LinesOfCode(code);
    LinesConcat(["```js"], code);
    ClassifyCloseFence();
    ClassifyHeading(name);
    LinesPair("```", HeadingLine(name));
    LinesConcat(["```js"] + code, ["```", HeadingLine(name)]);
  }

  /**
   * Code fenced before the first heading is not dropped: the heading does
   * not flush it, because there is no name yet, and it becomes the start of
   * the first template's code.
   */
  lemma CodeBeforeFirstHeading(code: seq<string>, name: string)
    requires forall k :: 0 <= k < |code| ==> IsCodeLine(code[k])
    requires CleanName(name)
    ensures Run(Start, Lines(["```js"] + code + ["```", HeadingLine(name)])) == Scan(name, false, code, [])
  {
    LinesOfEarlyCode(code, name);
    EarlyCodeRun(code, name);
  }

  lemma EarlyCodeRun(code: seq<string>, name: string)
    ensures Run(Start, [Line("```js", OpenFence)] + TextLines(code) + [Line("```", CloseFence), Line(HeadingLine(name), Heading(name))])
      == Scan(name, false, code, [])
  {
    var lo, lc, lh := Line("```js", OpenFence), Line("```", CloseFence), Line(HeadingLine(name), Heading(name));
    var s1 := Start.(collecting := true);
    RunOne(Start, lo);
    CollectRun(s1, code);
    assert [] + code == code;
    var s2 := s1.(code := code);
    RunOne(s2, lc);
    RunOne(s2.(collecting := false), lh);
    RunConcat(s2, [lc], [lh]);
    assert [lc] + [lh] == [lc, lh];
    RunConcat(Start, [lo], TextLines(code));
    RunConcat(Start, [lo] + TextLines(code), [lc, lh]);
  }

  /** One section's loop, pushing onto the templates found so far. */
  method ParseSection(section: string, before: seq<CodeTemplate>) returns (templates: seq<CodeTemplate>)
    ensures templates == before + SectionTemplates(section)
  {
    var lines := Str.Split(section, "\n");
    ghost var ls := Lines(lines);
    var category := CategoryOf(section);
    var currentName := "";
    var collectingCode := false;
    var codeLines: seq<string> := [];
    var pushed: seq<CodeTemplate> := [];
    ghost var raw: seq<Raw> := [];
    var i := 0;
    while i < |lines|
      invariant 0 <= i <= |lines|
      invariant Scan(currentName, collectingCode, codeLines, raw) == Run(Start, ls[..i])
      invariant pushed == Finish(category, raw)
    {
      RunStep(Start, ls, i);
      var line := lines[i];
      LinesAt(lines, i);
      if IsHeading(line) {
        if currentName != "" && |codeLines| > 0 {
          FinishAppend(category, raw, Raw(currentName, codeLines));
          pushed := pushed + [CodeTemplate(category, currentName, CodeText(codeLines))];
          raw := raw + [Raw(currentName, codeLines)];
          codeLines := [];
        }
        currentName := HeadingName(line);
        collectingCode := false;
      } else if IsOpenFence(line) {
        collectingCode := true;
      } else if IsCloseFence(line) && collectingCode {
        collectingCode := false;
      } else if collectingCode {
        codeLines := codeLines + [line];
      }
      i := i + 1;
    }
    assert ls[..|lines|] == ls;
    if currentName != "" && |codeLines| > 0 {
      FinishAppend(category, raw, Raw(currentName, codeLines));
      pushed := pushed + [CodeTemplate(category, currentName, CodeText(codeLines))];
    } else {
      assert raw + [] == raw;
    }
    templates := before + pushed;
  }

  /** The loop over the sections, one `parseSection` each. */
  method ParseSections(sections: seq<string>) returns (templates: seq<CodeTemplate>)
    ensures templates == Parse(sections)
  {
    templates := [];
    var i := 0;
    while i < |sections|
      invariant 0 <= i <= |sections|
      invariant templates == Parse(sections[..i])
    {
      ParseStep(sections, i);
      templates := ParseSection(sections[i], templates);
      i := i + 1;
    }
    assert sections[..|sections|] == sections;
  }

  /** `parseToolsFile`: cut the file into sections and parse each. */
  method ParseTools(content: string) returns (templates: seq<CodeTemplate>)
    ensures templates == ParseToolsFile(content)
  {
    templates := ParseSections(Sections(content));
  }

}
