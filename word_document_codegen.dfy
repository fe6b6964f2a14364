/**
 * The Word document generators: read the body, read the selection, search,
 * replace and clear.  Search and replace texts are embedded in
 * double-quoted literals with every `"` written as `\"`.
 */
module WordDocumentCodegen {
  import opened Wrappers
  import Str
  import Codegen
  import Complexity

  // ---------------------------------------------------------------------
  // Read
  // ---------------------------------------------------------------------

  /** `params.maxLength || 10000`: an absent or zero length means 10000 characters. */
  function MaxLength(maxLength: Option<int>): (r: int)
    ensures Codegen.HasNumber(maxLength) ==> r == maxLength.value
    ensures !Codegen.HasNumber(maxLength) ==> r == 10000
  {
    if Codegen.HasNumber(maxLength) then maxLength.value else 10000
  }

  lemma MaxLengthDefault()
    ensures MaxLength(None) == 10000 && MaxLength(Some(0)) == 10000
  {
  }

  /** `text.length > <maxLen>` */
  function TooLong(maxLen: int): string
  {
    "text.length > " + Codegen.Num(maxLen)
  }

  /** `text = text.substring(0, <maxLen>) + "... (truncated)"` */
  function Cut(maxLen: int): string
  {
    "text = text.substring(0, " + Codegen.Num(maxLen) + ") + \"... (truncated)\""
  }

  function ReadLines(maxLen: int): seq<string>
  {
    [ "Word.run(async (context) => {",
      "  const body = context.document.body;",
      "  body.load(\"text\");",
      "  await context.sync();",
      "  ",
      "  let text = body.text;",
      "  if (" + (TooLong(maxLen)) + ") {",
      "    " + (Cut(maxLen)) + ";" ]
    + [ "  }",
        "  ",
        "  // 获取段落数和单词数",
        "  const paragraphs = body.paragraphs;",
        "  paragraphs.load(\"items\");",
        "  await context.sync();",
        "  ",
        "  return {",
        "    text: text,",
        "    paragraphCount: paragraphs.items.length,",
        "    wordCount: text.split(/\\s+/).filter(word => word.length > 0).length",
        "  };",
        "});" ]
  }

  /** `generateReadCode`; `includeFormat` is accepted and not used. */
  function ReadCode(includeFormat: Option<bool>, maxLength: Option<int>): (r: string)
    ensures Str.Contains(r, TooLong(MaxLength(maxLength)))
    ensures Str.Contains(r, Cut(MaxLength(maxLength)))
  {
    var lines := ReadLines(MaxLength(maxLength));
    Codegen.HasLine(lines, 6, "  if (", TooLong(MaxLength(maxLength)), ") {");
    Codegen.HasLine(lines, 7, "    ", Cut(MaxLength(maxLength)), ";");
    Codegen.Code(lines)
  }

  /**
   * What the generated script returns as `text`: the body unchanged when it
   * is at most `maxLen` long, else its first `maxLen` characters (none for a
   * negative length, as `substring` clamps) and a truncation marker.
   */
  function Truncated(text: string, maxLen: int): string
  {
    if |text| > maxLen then text[..if maxLen < 0 then 0 else maxLen] + "... (truncated)" else text
  }

  /** A short body comes back whole; a long one is cut to its first `maxLen` characters plus the 15-character marker. */
  lemma TruncatedBounds(text: string, maxLen: int)
    ensures |text| <= maxLen ==> Truncated(text, maxLen) == text
    ensures |text| > maxLen ==>
      var n := if maxLen < 0 then 0 else maxLen;
      |Truncated(text, maxLen)| == n + 15 && Truncated(text, maxLen)[..n] == text[..n]
  {
  }

  // ---------------------------------------------------------------------
  // Read the selection
  // ---------------------------------------------------------------------

  const SelectionLoad := "selection.font.load(\"name, size, bold, italic, color\")"

  const ReadSelectionLines: seq<string> := [
    "Word.run(async (context) => {",
    "  const selection = context.document.getSelection();",
    "  selection.load(\"text, style\");",
    "  " + (SelectionLoad) + ";",
    "  await context.sync();",
    "  ",
    "  return {",
    "    text: selection.text,",
    "    style: selection.style,",
    "    font: {",
    "      name: selection.font.name,",
    "      size: selection.font.size,",
    "      bold: selection.font.bold,",
    "      italic: selection.font.italic,",
    "      color: selection.font.color",
    "    }",
    "  };",
    "});" ]

  /** `generateReadSelectionCode`: the selection's text, style and five font properties. */
  function ReadSelectionCode(): (r: string)
    ensures Str.Contains(r, SelectionLoad)
  {
    Codegen.HasLine(ReadSelectionLines, 3, "  ", SelectionLoad, ";");
    Codegen.Code(ReadSelectionLines)
  }

  // ---------------------------------------------------------------------
  // Search and replace
  // ---------------------------------------------------------------------

  /** `context.document.body.search("<text with quotes escaped>"` */
  function SearchCall(searchText: string): string
  {
    "context.document.body.search(\"" + Str.EscapeQuotes(searchText) + "\""
  }

  /** `${flag || false}`: only an explicit `true` turns an option on. */
  function Flag(flag: Option<bool>): (r: string)
    ensures r == Codegen.Bool(flag == Some(true))
  {
    Codegen.Bool(Codegen.IsSet(flag))
  }

  function SearchLines(searchText: string, matchCase: Option<bool>, matchWholeWord: Option<bool>): seq<string>
  {
    [ "Word.run(async (context) => {",
      "  const results = " + (SearchCall(searchText)) + ", {",
      "    " + ("matchCase: " + Flag(matchCase)) + ",",
      "    " + ("matchWholeWord: " + Flag(matchWholeWord)) ]
    + [ "  });",
        "  results.load(\"items\");",
        "  await context.sync();",
        "  ",
        "  const matches = results.items.map((item, index) => {",
        "    item.load(\"text\");",
        "    return {",
        "      text: item.text,",
        "      context: \"\",  // 简化版本，不获取上下文",
        "      index: index",
        "    };",
        "  });",
        "  ",
        "  await context.sync();",
        "  ",
        "  return {",
        "    matches: matches.map(m => ({",
        "      text: m.text,",
        "      context: m.context",
        "    })),",
        "    count: results.items.length",
        "  };",
        "});" ]
  }

  /** `generateSearchCode`: searches for the escaped text with both options off unless set. */
  function SearchCode(searchText: string, matchCase: Option<bool>, matchWholeWord: Option<bool>): (r: string)
    ensures Str.Contains(r, SearchCall(searchText))
    ensures Str.Contains(r, "matchCase: " + Flag(matchCase))
    ensures Str.Contains(r, "matchWholeWord: " + Flag(matchWholeWord))
  {
    var lines := SearchLines(searchText, matchCase, matchWholeWord);
    Codegen.HasLine(lines, 1, "  const results = ", SearchCall(searchText), ", {");
    Codegen.HasLine(lines, 2, "    ", "matchCase: " + Flag(matchCase), ",");
    Codegen.HasTail(lines, 3, "    ", "matchWholeWord: " + Flag(matchWholeWord));
    Codegen.Code(lines)
  }

  /** Leaving the options out is the same as turning them off. */
  lemma SearchDefaults(searchText: string)
    ensures SearchCode(searchText, None, None) == SearchCode(searchText, Some(false), Some(false))
    ensures Flag(None) == "false" && Flag(Some(true)) == "true"
  {
  }

  /** `insertText("<replacement>", Word.InsertLocation.replace)` on the given receiver. */
  function InsertReplacement(receiver: string, replaceText: string): string
  {
    receiver + ".insertText(\"" + Str.EscapeQuotes(replaceText) + "\", Word.InsertLocation.replace)"
  }

  const EveryMatch := "for (const item of results.items) {"
  const FirstMatch := "if (results.items.length > 0) {"

  /** The replacement slot: a loop over every match, or a guarded replacement of the first. */
  function ReplaceSteps(all: bool, replaceText: string): (r: seq<string>)
    ensures |r| == 7
  {
    if all then
      [ "  ",
        "  // 替换所有匹配项",
        "  " + (EveryMatch),
        "    " + (InsertReplacement("item", replaceText)) + ";",
        "    replacedCount++;",
        "  }",
        "  " ]
    else
      [ "  ",
        "  // 只替换第一个匹配项",
        "  " + (FirstMatch),
        "    " + (InsertReplacement("results.items[0]", replaceText)) + ";",
        "    replacedCount = 1;",
        "  }",
        "  " ]
  }

  function ReplaceLines(searchText: string, replaceText: string, matchCase: Option<bool>, all: bool): seq<string>
  {
    [ "Word.run(async (context) => {",
      "  const results = " + (SearchCall(searchText)) + ", {",
      "    " + ("matchCase: " + Flag(matchCase)),
      "  });",
      "  results.load(\"items\");",
      "  await context.sync();",
      "  ",
      "  let replacedCount = 0;",
      "  " ]
    + ReplaceSteps(all, replaceText)
    + [ "  ",
        "  await context.sync();",
        "  ",
        "  return {",
        "    replacedCount: replacedCount",
        "  };",
        "});" ]
  }

  /** `generateReplaceCode` */
  function ReplaceCode(searchText: string, replaceText: string, matchCase: Option<bool>, replaceAll: Option<bool>): string
  {
    Codegen.Code(ReplaceLines(searchText, replaceText, matchCase, Codegen.IsSet(replaceAll)))
  }

  /**
   * With `replaceAll` the script loops over every match and replaces each;
   * otherwise it replaces only the first match, when there is one.
   */
  lemma ReplaceScope(searchText: string, replaceText: string, matchCase: Option<bool>, replaceAll: Option<bool>)
    ensures Str.Contains(ReplaceCode(searchText, replaceText, matchCase, replaceAll), SearchCall(searchText))
    ensures Codegen.IsSet(replaceAll) ==>
      Str.Contains(ReplaceCode(searchText, replaceText, matchCase, replaceAll), EveryMatch)
      && Str.Contains(ReplaceCode(searchText, replaceText, matchCase, replaceAll), InsertReplacement("item", replaceText))
    ensures !Codegen.IsSet(replaceAll) ==>
      Str.Contains(ReplaceCode(searchText, replaceText, matchCase, replaceAll), FirstMatch)
      && Str.Contains(ReplaceCode(searchText, replaceText, matchCase, replaceAll), InsertReplacement("results.items[0]", replaceText))
  {
    var all := Codegen.IsSet(replaceAll);
    var lines := ReplaceLines(searchText, replaceText, matchCase, all);
    var steps := ReplaceSteps(all, replaceText);
    Codegen.HasLine(lines, 1, "  const results = ", SearchCall(searchText), ", {");
    assert lines[11] == steps[2] && lines[12] == steps[3];
    if all {
      Codegen.HasTail(lines, 11, "  ", EveryMatch);
      Codegen.HasLine(lines, 12, "    ", InsertReplacement("item", replaceText), ";");
    } else {
      Codegen.HasTail(lines, 11, "  ", FirstMatch);
      Codegen.HasLine(lines, 12, "    ", InsertReplacement("results.items[0]", replaceText), ";");
    }
  }

  // ---------------------------------------------------------------------
  // Clear
  // ---------------------------------------------------------------------

  const ClearLines: seq<string> := [
    "Word.run(async (context) => {",
    "  const body = context.document.body;",
    "  " + (Complexity.BodyClear) + ";",
    "  await context.sync();",
    "  ",
    "  return {",
    "    success: true",
    "  };",
    "});" ]

  /** `generateClearCode`: empties the body with `body.clear()`. */
  function ClearCode(): (r: string)
    ensures Str.Contains(r, Complexity.BodyClear)
  {
    Codegen.HasLine(ClearLines, 2, "  ", Complexity.BodyClear, ";");
    Codegen.Code(ClearLines)
  }

  /** The complexity gate flags the clear script as using the high-risk `body.clear()` and warns about it. */
  lemma ClearIsRisky()
    ensures Complexity.RiskyApiUse(0) in Complexity.Assess(ClearCode()).issues
    ensures Complexity.Assess(ClearCode()).shouldWarn
  {
    Complexity.BodyClearFlagged(ClearCode());
  }
}
