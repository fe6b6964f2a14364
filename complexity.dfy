/**
 * The pre-dispatch complexity and risk gate applied to a script before it is
 * queued for the browser: counts of meaningful lines, `insert*` calls and
 * `context.sync()` calls, five risky-API patterns, and the warn/block
 * decision with its paired issues and suggestions.
 */
module Complexity {
  import opened Wrappers
  import Str

  datatype Risk = High | Medium

  datatype RiskyApi = RiskyApi(name: string, risk: Risk, suggestion: string)

  /** The five risky APIs, in table order. */
  const RiskyApis: seq<RiskyApi> := [
    RiskyApi("body.clear()", High, "避免清空整个文档，在空白文档开始操作"),
    RiskyApi("insertParagraph(..., \"Start\")", High, "使用 \"End\" 顺序添加内容，避免打乱结构"),
    RiskyApi("insertField(toc)", Medium, "目录字段不稳定，考虑手动创建目录列表"),
    RiskyApi("search().insert*()", Medium, "搜索定位不可靠，建议保存引用后使用 insertParagraph(\"After\")"),
    RiskyApi("shading.backgroundPatternColor", Medium, "某些 Word 版本不支持，使用 font.highlightColor 代替")
  ]

  const Threshold := 30
  const BlockThreshold := 80
  const InsertThreshold := 5
  const InsertBlockThreshold := 15
  const SyncThreshold := 3

  // ---------------------------------------------------------------------------
  // The risky-API patterns, each as the end of the match that starts at `i`
  // ---------------------------------------------------------------------------

  const BodyClear := "body.clear()"
  const InsertParagraphOpen := "insertParagraph("
  const InsertFieldOpen := "insertField("
  const FieldTypeToc := "FieldType.toc"
  const SearchOpen := ".search("
  const Shading := "shading.backgroundPatternColor"

  predicate IsQuote(c: char) { c == '"' || c == '\'' }

  /** The argument text ends in `, "Start"` with any spacing after the comma and either quote. */
  predicate EndsWithStartArgument(arg: string)
  {
    |arg| >= 7 && IsQuote(arg[|arg| - 7]) && arg[|arg| - 6..|arg| - 1] == "Start" && IsQuote(arg[|arg| - 1])
    && var t := Str.TrimEnd(arg[..|arg| - 7]); |t| > 0 && t[|t| - 1] == ','
  }

  /** The largest start at or after `lo` of `sub` ending at or before `hi`. */
  function LastOccurrence(s: string, sub: string, lo: nat, hi: nat): (r: Option<nat>)
    requires lo <= hi <= |s|
    ensures r.Some? ==> lo <= r.value && r.value + |sub| <= hi && Str.OccursAt(s, sub, r.value)
    decreases hi
  {
    if hi < lo + |sub| then None
    else if Str.OccursAt(s, sub, hi - |sub|) then Some(hi - |sub|)
    else if hi == 0 then None
    else LastOccurrence(s, sub, lo, hi - 1)
  }

  /** The first index at or after `from` holding a line terminator, or `|s|`. */
  function LineEnd(s: string, from: nat): (r: nat)
    requires from <= |s|
    ensures from <= r <= |s|
    ensures forall k :: from <= k < r ==> !Str.IsLineTerminator(s[k])
    decreases |s| - from
  {
    if from == |s| || Str.IsLineTerminator(s[from]) then from else LineEnd(s, from + 1)
  }

  /** `body\.clear\(\)` */
  function BodyClearAt(code: string, i: nat): (r: Option<nat>)
    requires i <= |code|
    ensures r.Some? ==> i < r.value <= |code|
  {
    if Str.OccursAt(code, BodyClear, i) then Some(i + |BodyClear|) else None
  }

  /** `insertParagraph\([^)]*,\s*["']Start["']\)`: the match must close at the first `)`. */
  function InsertParagraphStartAt(code: string, i: nat): (r: Option<nat>)
    requires i <= |code|
    ensures r.Some? ==> i < r.value <= |code|
  {
    if !Str.OccursAt(code, InsertParagraphOpen, i) then None
    else
      match Str.IndexOfFrom(code, ")", i + |InsertParagraphOpen|)
      case None => None
      case Some(j) =>
        if EndsWithStartArgument(code[i + |InsertParagraphOpen|..j]) then Some(j + 1) else None
  }

  /**
   * `insertField\([^)]*FieldType\.toc`: `FieldType.toc` must lie before the
   * first `)`; the greedy `[^)]*` makes the match end after its last such occurrence.
   */
  function InsertFieldTocAt(code: string, i: nat): (r: Option<nat>)
    requires i <= |code|
    ensures r.Some? ==> i < r.value <= |code|
  {
    if !Str.OccursAt(code, InsertFieldOpen, i) then None
    else
      var start := i + |InsertFieldOpen|;
      var j := match Str.IndexOfFrom(code, ")", start) case Some(p) => p case None => |code|;
      match LastOccurrence(code, FieldTypeToc, start, j)
      case None => None
      case Some(q) => Some(q + |FieldTypeToc|)
  }

  /**
   * `\.search\([^)]+\)\..*insert`: a non-empty argument closed by the first
   * `)`, then `.`, then `insert` later on the same line (the last one, by greediness).
   */
  function SearchInsertAt(code: string, i: nat): (r: Option<nat>)
    requires i <= |code|
    ensures r.Some? ==> i < r.value <= |code|
  {
    if !Str.OccursAt(code, SearchOpen, i) then None
    else
      match Str.IndexOfFrom(code, ")", i + |SearchOpen|)
      case None => None
      case Some(j) =>
        if j == i + |SearchOpen| || j + 1 >= |code| || code[j + 1] != '.' then None
        else
          match LastOccurrence(code, "insert", j + 2, LineEnd(code, j + 2))
          case None => None
          case Some(q) => Some(q + 6)
  }

  /** `shading\.backgroundPatternColor` */
  function ShadingAt(code: string, i: nat): (r: Option<nat>)
    requires i <= |code|
    ensures r.Some? ==> i < r.value <= |code|
  {
    if Str.OccursAt(code, Shading, i) then Some(i + |Shading|) else None
  }

  /** The end of the match of risky pattern `k` (in table order) that starts at `i`. */
  function RiskyMatchAt(k: nat, code: string, i: nat): (r: Option<nat>)
    requires k < 5 && i <= |code|
    ensures r.Some? ==> i < r.value <= |code|
  {
    if k == 0 then BodyClearAt(code, i)
    else if k == 1 then InsertParagraphStartAt(code, i)
    else if k == 2 then InsertFieldTocAt(code, i)
    else if k == 3 then SearchInsertAt(code, i)
    else ShadingAt(code, i)
  }

  /** The leftmost match of pattern `k` starting at or after `from`, as (start, end). */
  function RiskySearch(k: nat, code: string, from: nat): (r: Option<(nat, nat)>)
    requires k < 5 && from <= |code|
    ensures r.Some? ==> from <= r.value.0 < r.value.1 <= |code| && RiskyMatchAt(k, code, r.value.0) == Some(r.value.1)
    ensures r.None? ==> forall i :: from <= i <= |code| ==> RiskyMatchAt(k, code, i).None?
    decreases |code| - from
  {
    match RiskyMatchAt(k, code, from)
    case Some(e) => Some((from, e))
    case None => if from == |code| then None else RiskySearch(k, code, from + 1)
  }

  /** `pattern.test(code)` for a pattern whose search starts at index 0. */
  predicate RiskyMatches(k: nat, code: string)
    requires k < 5
  {
    RiskySearch(k, code, 0).Some?
  }

  // ---------------------------------------------------------------------------
  // The table's patterns as the source runs them: each carries the `g` flag and
  // lives at module level, so `test` resumes from the `lastIndex` the previous
  // call (on a previous script) left behind.
  // ---------------------------------------------------------------------------

  /**
   * `RegExp.prototype.test` on a global pattern: a `lastIndex` past the end
   * fails and resets it to 0; otherwise the search starts at `lastIndex`, and
   * a match moves it to the match's end while a miss resets it to 0.
   */
  function TestWithLastIndex(k: nat, code: string, lastIndex: nat): (r: (bool, nat))
    requires k < 5
    ensures r.0 ==> r.1 <= |code|
    ensures !r.0 ==> r.1 == 0
  {
    if lastIndex > |code| then (false, 0)
    else match RiskySearch(k, code, lastIndex)
      case None => (false, 0)
      case Some(m) => (true, m.1)
  }

  /** With a fresh `lastIndex` the stateful test is the stateless one. */
  lemma FreshTestAgrees(k: nat, code: string)
    requires k < 5
    ensures TestWithLastIndex(k, code, 0).0 == RiskyMatches(k, code)
  {
  }

  /** A left-over `lastIndex` can only hide matches, never invent one. */
  lemma StaleTestOnlyMisses(k: nat, code: string, lastIndex: nat)
    requires k < 5
    ensures TestWithLastIndex(k, code, lastIndex).0 ==> RiskyMatches(k, code)
  {
    if lastIndex <= |code| && RiskySearch(k, code, lastIndex).Some? {
      var m := RiskySearch(k, code, lastIndex).value;
      assert 0 <= m.0 <= |code| && RiskyMatchAt(k, code, m.0).Some?;
    }
  }

  /**
   * Checking `x;body.clear()` leaves the `body.clear()` pattern's `lastIndex`
   * at 14, so checking the shorter script `body.clear()` next does not
   * report the risky call it contains.
   */
  lemma StaleLastIndexMissesRiskyCall()
    ensures TestWithLastIndex(0, "x;body.clear()", 0) == (true, 14)
    ensures !TestWithLastIndex(0, "body.clear()", 14).0
    ensures RiskyMatches(0, "body.clear()")
  {
    var c1 := "x;body.clear()";
    assert !Str.OccursAt(c1, BodyClear, 0) by { assert c1[0] != BodyClear[0]; }
    assert !Str.OccursAt(c1, BodyClear, 1) by { assert c1[1] != BodyClear[0]; }
    assert Str.OccursAt(c1, BodyClear, 2) by { assert c1[2..14] == BodyClear; }
    assert RiskySearch(0, c1, 0) == RiskySearch(0, c1, 1) == RiskySearch(0, c1, 2) == Some((2, 14));
    assert Str.OccursAt("body.clear()", BodyClear, 0);
  }

  // ---------------------------------------------------------------------------
  // Counts
  // ---------------------------------------------------------------------------

  /** A line counts when its trimmed text is non-empty and is not a `//` comment. */
  predicate Meaningful(line: string)
  {
    var t := Str.Trim(line);
    |t| > 0 && !Str.StartsWith(t, "//")
  }

  function CountMeaningful(lines: seq<string>): (n: nat)
    ensures n <= |lines|
  {
    if |lines| == 0 then 0 else (if Meaningful(lines[0]) then 1 else 0) + CountMeaningful(lines[1..])
  }

  function MeaningfulLines(code: string): nat
  {
    CountMeaningful(Str.Split(code, "\n"))
  }

  /** End of a match of `\.insert[A-Z][a-zA-Z]*\(` starting at `i`. */
  function InsertCallAt(code: string, i: nat): (r: Option<nat>)
    requires i <= |code|
    ensures r.Some? ==> i < r.value <= |code|
  {
    if Str.OccursAt(code, ".insert", i) && i + 7 < |code| && Str.IsUpper(code[i + 7]) then
      var e := Str.LettersEnd(code, i + 8);
      if e < |code| && code[e] == '(' then Some(e + 1) else None
    else None
  }

  /** `(code.match(/\.insert[A-Z][a-zA-Z]*\(/g) || []).length`, scanning from `from`. */
  function InsertCallsFrom(code: string, from: nat): nat
    requires from <= |code|
    decreases |code| - from
  {
    if from == |code| then 0
    else match InsertCallAt(code, from)
      case Some(e) => 1 + InsertCallsFrom(code, e)
      case None => InsertCallsFrom(code, from + 1)
  }

  function InsertCalls(code: string): nat
  {
    InsertCallsFrom(code, 0)
  }

  const Sync := "context.sync()"

  /** `(code.match(/context\.sync\(\)/g) || []).length`, scanning from `from`. */
  function SyncCallsFrom(code: string, from: nat): nat
    requires from <= |code|
    decreases |code| - from
  {
    if from == |code| then 0
    else if Str.OccursAt(code, Sync, from) then 1 + SyncCallsFrom(code, from + |Sync|)
    else SyncCallsFrom(code, from + 1)
  }

  function SyncCalls(code: string): nat
  {
    SyncCallsFrom(code, 0)
  }

  lemma {:induction false} SyncCallsZeroIff(code: string, from: nat)
    requires from <= |code|
    ensures SyncCallsFrom(code, from) == 0 <==> Str.IndexOfFrom(code, Sync, from).None?
    decreases |code| - from
  {
    if from < |code| {
      if Str.OccursAt(code, Sync, from) {
      } else {
        SyncCallsZeroIff(code, from + 1);
      }
    }
  }

  /** `return\s*\{[\s\S]*success[\s\S]*\}` matches starting at `i`. */
  predicate ReturnValidationAt(code: string, i: nat)
    requires i <= |code|
  {
    Str.OccursAt(code, "return", i)
    && var j := Str.SkipWs(code, i + 6);
    j < |code| && code[j] == '{'
    && match Str.IndexOfFrom(code, "success", j + 1)
       case None => false
       case Some(k) => Str.IndexOfFrom(code, "}", k + 7).Some?
  }

  predicate HasReturnValidationFrom(code: string, from: nat)
    requires from <= |code|
    decreases |code| - from
  {
    from < |code| && (ReturnValidationAt(code, from) || HasReturnValidationFrom(code, from + 1))
  }

  predicate HasReturnValidation(code: string)
  {
    HasReturnValidationFrom(code, 0)
  }

  // ---------------------------------------------------------------------------
  // The result
  // ---------------------------------------------------------------------------

  datatype Metrics = Metrics(lines: nat, insertCalls: nat, syncCalls: nat, hasRiskyApis: bool)

  /**
   * One entry of the parallel `issues`/`suggestions` arrays: the source
   * always pushes an issue together with its suggestion.
   */
  datatype Issue =
    | RiskyApiUse(api: nat)
    | TooManyLines(lines: nat)
    | TooManyInserts(inserts: nat)
    | MissingSync
    | TooManySyncs(syncs: nat)
    | MissingReturnValidation

  predicate WellFormedIssue(i: Issue)
  {
    i.RiskyApiUse? ==> i.api < 5
  }

  function RiskLabel(r: Risk): string
  {
    if r == High then "高危" else "中危"
  }

  function IssueText(i: Issue): string
    requires WellFormedIssue(i)
  {
    match i
    case RiskyApiUse(k) =>
      "⚠️ 检测到风险 API: " + RiskyApis[k].name + " (" + RiskLabel(RiskyApis[k].risk) + ")"
    case TooManyLines(n) => "⚠️ 代码行数过多: " + Str.NatToString(n) + " 行（建议 ≤ 30 行）"
    case TooManyInserts(n) => "⚠️ 插入操作过多: " + Str.NatToString(n) + " 次（建议 ≤ 5 次）"
    case MissingSync => "⚠️ 缺少 context.sync() 调用"
    case TooManySyncs(n) => "⚠️ context.sync() 调用过多: " + Str.NatToString(n) + " 次（可能影响性能）"
    case MissingReturnValidation => "⚠️ 缺少验证返回值"
  }

  function SuggestionText(i: Issue): string
    requires WellFormedIssue(i)
  {
    match i
    case RiskyApiUse(k) => RiskyApis[k].suggestion
    case TooManyLines(_) => "将代码拆分为多个步骤，每步只处理一个章节或逻辑单元"
    case TooManyInserts(_) => "减少单次执行的插入操作数量，分步执行"
    case MissingSync => "确保在操作完成后调用 await context.sync()"
    case TooManySyncs(_) => "合并操作，减少 sync() 调用次数"
    case MissingReturnValidation => "添加 return { success: true, created: \"...\" } 以便验证执行结果"
  }

  datatype ComplexityCheck = ComplexityCheck(
    shouldWarn: bool,
    shouldBlock: bool,
    issues: seq<Issue>,
    metrics: Metrics)
  {
    predicate WellFormed()
    {
      forall x :: 0 <= x < |issues| ==> WellFormedIssue(issues[x])
    }

    /** The source's `issues` array. */
    function IssueTexts(): (r: seq<string>)
      requires WellFormed()
      ensures |r| == |issues| && forall x :: 0 <= x < |issues| ==> r[x] == IssueText(issues[x])
    {
      seq(|issues|, x requires 0 <= x < |issues| => IssueText(issues[x]))
    }

    /** The source's `suggestions` array, index-aligned with `IssueTexts()`. */
    function SuggestionTexts(): (r: seq<string>)
      requires WellFormed()
      ensures |r| == |issues| && forall x :: 0 <= x < |issues| ==> r[x] == SuggestionText(issues[x])
    {
      seq(|issues|, x requires 0 <= x < |issues| => SuggestionText(issues[x]))
    }
  }

  /** The risky patterns among the first `n` that match, in table order. */
  function MatchedApis(code: string, n: nat): (r: seq<nat>)
    requires n <= 5
    ensures |r| <= n
    ensures forall x :: 0 <= x < |r| ==> r[x] < n && RiskyMatches(r[x], code)
  {
    if n == 0 then [] else MatchedApis(code, n - 1) + (if RiskyMatches(n - 1, code) then [n - 1] else [])
  }

  lemma {:induction false} MatchedApisComplete(code: string, n: nat)
    requires n <= 5
    ensures forall k :: 0 <= k < n ==> (RiskyMatches(k, code) <==> k in MatchedApis(code, n))
  {
    if n > 0 {
      MatchedApisComplete(code, n - 1);
    }
  }

  function RiskyIssues(ks: seq<nat>): (r: seq<Issue>)
    ensures |r| == |ks|
    ensures forall x :: 0 <= x < |ks| ==> r[x] == RiskyApiUse(ks[x])
  {
    seq(|ks|, x requires 0 <= x < |ks| => RiskyApiUse(ks[x]))
  }

  datatype Scan = Scan(issues: seq<Issue>, hasRisky: bool)

  /** The state of the risky-API loop after the first `k` table entries. */
  function ScanUpTo(code: string, k: nat): Scan
    requires k <= 5
  {
    if k == 0 then Scan([], false)
    else
      var p := ScanUpTo(code, k - 1);
      if RiskyMatches(k - 1, code) then Scan(p.issues + [RiskyApiUse(k - 1)], true) else p
  }

  /** The loop state after `k` entries holds one issue per matching pattern among them. */
  lemma {:induction false} ScanUpToMatched(code: string, k: nat)
    requires k <= 5
    ensures ScanUpTo(code, k) == Scan(RiskyIssues(MatchedApis(code, k)), |MatchedApis(code, k)| > 0)
  {
    if k > 0 {
      ScanUpToMatched(code, k - 1);
    }
  }

  /** The issues the threshold checks push after the risky-API ones, in order. */
  function ThresholdIssues(lines: nat, inserts: nat, syncs: nat, validated: bool): seq<Issue>
  {
    (if lines > Threshold then [TooManyLines(lines)] else [])
    + (if inserts > InsertThreshold then [TooManyInserts(inserts)] else [])
    + (if syncs == 0 then [MissingSync] else [])
    + (if syncs > SyncThreshold then [TooManySyncs(syncs)] else [])
    + (if !validated then [MissingReturnValidation] else [])
  }

  /** The decision and the issue list, from the measurements of a script. */
  function Decide(scan: Scan, lines: nat, inserts: nat, syncs: nat, validated: bool): ComplexityCheck
  {
    ComplexityCheck(
      lines > Threshold || inserts > InsertThreshold || scan.hasRisky,
      lines > BlockThreshold || inserts > InsertBlockThreshold,
      scan.issues + ThresholdIssues(lines, inserts, syncs, validated),
      Metrics(lines, inserts, syncs, scan.hasRisky))
  }

  /** What `checkCodeComplexity(code)` returns, stated declaratively. */
  function Assess(code: string): ComplexityCheck
  {
    Decide(ScanUpTo(code, 5), MeaningfulLines(code), InsertCalls(code), SyncCalls(code), HasReturnValidation(code))
  }

  /**
   * The loop of `checkCodeComplexity` over the risky-API table: one issue
   * (with its suggestion) per pattern that matches, in table order.
   */
  method ScanRiskyApis(code: string) returns (issues: seq<Issue>, hasRisky: bool)
    ensures Scan(issues, hasRisky) == ScanUpTo(code, 5)
  {
    issues, hasRisky := [], false;
    var k := 0;
    while k < |RiskyApis|
      invariant 0 <= k <= 5
      invariant Scan(issues, hasRisky) == ScanUpTo(code, k)
    {
      if RiskyMatches(k, code) {
        hasRisky := true;
        issues := issues + [RiskyApiUse(k)];
      }
      k := k + 1;
    }
  }

  /** `checkCodeComplexity`: the risky-API scan, then the threshold checks. */
  method CheckCodeComplexity(code: string) returns (r: ComplexityCheck)
    ensures r == Assess(code) && r.WellFormed()
  {
    var issues, hasRisky := ScanRiskyApis(code);
    var lines := MeaningfulLines(code);
    var inserts := InsertCalls(code);
    var syncs := SyncCalls(code);
    var validated := HasReturnValidation(code);
    r := ComplexityCheck(
      lines > Threshold || inserts > InsertThreshold || hasRisky,
      lines > BlockThreshold || inserts > InsertBlockThreshold,
      issues + ThresholdIssues(lines, inserts, syncs, validated),
      Metrics(lines, inserts, syncs, hasRisky));
    assert r == Decide(Scan(issues, hasRisky), lines, inserts, syncs, validated);
    AssessWellFormed(code);
  }

  lemma AssessWellFormed(code: string)
    ensures Assess(code).WellFormed()
  {
    ScanUpToMatched(code, 5);
    DecideWellFormed(ScanUpTo(code, 5), MeaningfulLines(code), InsertCalls(code), SyncCalls(code), HasReturnValidation(code));
  }

  lemma DecideWellFormed(scan: Scan, lines: nat, inserts: nat, syncs: nat, validated: bool)
    requires forall x :: 0 <= x < |scan.issues| ==> scan.issues[x].RiskyApiUse? && scan.issues[x].api < 5
    ensures Decide(scan, lines, inserts, syncs, validated).WellFormed()
  {
    var t := ThresholdIssues(lines, inserts, syncs, validated);
    assert forall x :: 0 <= x < |t| ==> !t[x].RiskyApiUse?;
  }

  /** Blocking implies warning: every block threshold lies above a warn threshold. */
  lemma BlockImpliesWarn(code: string)
    ensures Assess(code).shouldBlock ==> Assess(code).shouldWarn
  {
  }

  /**
   * The decision in full: warn iff more than 30 meaningful lines, more than 5
   * inserts or a risky match; block iff more than 80 lines or more than 15 inserts.
   */
  lemma Decision(code: string)
    ensures Assess(code).shouldWarn <==>
      (MeaningfulLines(code) > 30 || InsertCalls(code) > 5 || exists k :: 0 <= k < 5 && RiskyMatches(k, code))
    ensures Assess(code).shouldBlock <==> (MeaningfulLines(code) > 80 || InsertCalls(code) > 15)
    ensures Assess(code).metrics.hasRiskyApis <==> exists k :: 0 <= k < 5 && RiskyMatches(k, code)
  {
    var ks := MatchedApis(code, 5);
    ScanUpToMatched(code, 5);
    MatchedApisComplete(code, 5);
    if exists k :: 0 <= k < 5 && RiskyMatches(k, code) {
      var k :| 0 <= k < 5 && RiskyMatches(k, code);
      assert k in ks;
    }
    if |ks| > 0 {
      assert RiskyMatches(ks[0], code);
    }
  }

  /** Any script that calls `body.clear()` draws the high-risk `body.clear()` issue and a warning. */
  lemma BodyClearFlagged(code: string)
    requires Str.Contains(code, BodyClear)
    ensures RiskyMatches(0, code)
    ensures RiskyApiUse(0) in Assess(code).issues && Assess(code).shouldWarn
  {
    var i := Str.ContainsWitness(code, BodyClear);
    assert RiskyMatchAt(0, code, i).Some?;
    RiskyIssuesExact(code);
    Decision(code);
  }

  /** In a decision, the issues are the risky ones followed by the threshold ones. */
  lemma DecideIssues(scan: Scan, lines: nat, inserts: nat, syncs: nat, validated: bool)
    requires forall i :: i in scan.issues ==> i.RiskyApiUse?
    ensures var d := Decide(scan, lines, inserts, syncs, validated);
      d.issues[..|scan.issues|] == scan.issues
      && (forall i :: i in d.issues && !i.RiskyApiUse? ==> i in ThresholdIssues(lines, inserts, syncs, validated))
      && (forall i :: i in ThresholdIssues(lines, inserts, syncs, validated) ==> i in d.issues)
      && (forall i :: i in scan.issues ==> i in d.issues)
      && (forall i :: i in d.issues ==> i in scan.issues || i in ThresholdIssues(lines, inserts, syncs, validated))
  {
  }

  /**
   * The issues begin with one risky-API entry per matching pattern, in table
   * order, and a risky-API entry is present exactly for the patterns that match.
   */
  lemma RiskyIssuesExact(code: string)
    ensures var ks := MatchedApis(code, 5);
      |ks| <= |Assess(code).issues| && Assess(code).issues[..|ks|] == RiskyIssues(ks)
    ensures forall k :: 0 <= k < 5 ==> (RiskyApiUse(k) in Assess(code).issues <==> RiskyMatches(k, code))
  {
    ScanUpToMatched(code, 5);
    MatchedApisComplete(code, 5);
    var ks := MatchedApis(code, 5);
    var scan := ScanUpTo(code, 5);
    var lines, inserts, syncs, validated := MeaningfulLines(code), InsertCalls(code), SyncCalls(code), HasReturnValidation(code);
    DecideIssues(scan, lines, inserts, syncs, validated);
    var issues := Assess(code).issues;
    forall k | 0 <= k < 5 ensures RiskyApiUse(k) in issues <==> RiskyMatches(k, code) {
      if RiskyApiUse(k) in issues {
        ThresholdNotRisky(lines, inserts, syncs, validated);
        assert RiskyApiUse(k) in scan.issues;
        var x :| 0 <= x < |ks| && scan.issues[x] == RiskyApiUse(k);
        assert ks[x] == k;
      }
      if RiskyMatches(k, code) {
        var x :| 0 <= x < |ks| && ks[x] == k;
        assert scan.issues[x] == RiskyApiUse(k);
      }
    }
  }

  lemma ThresholdNotRisky(lines: nat, inserts: nat, syncs: nat, validated: bool)
    ensures forall i :: i in ThresholdIssues(lines, inserts, syncs, validated) ==> !i.RiskyApiUse?
  {
  }

  /** Each threshold issue is present exactly when its threshold is crossed. */
  lemma DecideThresholds(scan: Scan, lines: nat, inserts: nat, syncs: nat, validated: bool)
    requires forall i :: i in scan.issues ==> i.RiskyApiUse?
    ensures var d := Decide(scan, lines, inserts, syncs, validated);
      (TooManyLines(lines) in d.issues <==> lines > 30)
      && (TooManyInserts(inserts) in d.issues <==> inserts > 5)
      && (MissingSync in d.issues <==> syncs == 0)
      && (TooManySyncs(syncs) in d.issues <==> syncs > 3)
      && (MissingReturnValidation in d.issues <==> !validated)
  {
    DecideIssues(scan, lines, inserts, syncs, validated);
    ThresholdMembership(lines, inserts, syncs, validated);
  }

  lemma ThresholdMembership(lines: nat, inserts: nat, syncs: nat, validated: bool)
    ensures var t := ThresholdIssues(lines, inserts, syncs, validated);
      (TooManyLines(lines) in t <==> lines > 30)
      && (TooManyInserts(inserts) in t <==> inserts > 5)
      && (MissingSync in t <==> syncs == 0)
      && (TooManySyncs(syncs) in t <==> syncs > 3)
      && (MissingReturnValidation in t <==> !validated)
  {
    var a := if lines > Threshold then [TooManyLines(lines)] else [];
    var b := if inserts > InsertThreshold then [TooManyInserts(inserts)] else [];
    var c := if syncs == 0 then [MissingSync] else [];
    var d := if syncs > SyncThreshold then [TooManySyncs(syncs)] else [];
    var e := if !validated then [MissingReturnValidation] else [];
    var t := ThresholdIssues(lines, inserts, syncs, validated);
    assert t == a + b + c + d + e;
    forall i ensures i in t <==> i in a || i in b || i in c || i in d || i in e {
    }
  }

  /**
   * Each threshold issue is present exactly when its condition holds: the
   * missing-sync one when the script has no `context.sync()` at all, the
   * missing-validation one when no `return { ... success ... }` is found.
   */
  lemma ThresholdIssuesExact(code: string)
    ensures TooManyLines(MeaningfulLines(code)) in Assess(code).issues <==> MeaningfulLines(code) > 30
    ensures TooManyInserts(InsertCalls(code)) in Assess(code).issues <==> InsertCalls(code) > 5
    ensures MissingSync in Assess(code).issues <==> !Str.Contains(code, Sync)
    ensures TooManySyncs(SyncCalls(code)) in Assess(code).issues <==> SyncCalls(code) > 3
    ensures MissingReturnValidation in Assess(code).issues <==> !HasReturnValidation(code)
  {
    SyncCallsZeroIff(code, 0);
    ScanUpToMatched(code, 5);
    DecideThresholds(ScanUpTo(code, 5), MeaningfulLines(code), InsertCalls(code), SyncCalls(code), HasReturnValidation(code));
  }

  /** The two parallel arrays the source reports always have the same length. */
  lemma IssuesPaired(code: string)
    ensures Assess(code).WellFormed()
    ensures |Assess(code).IssueTexts()| == |Assess(code).SuggestionTexts()| == |Assess(code).issues|
  {
    AssessWellFormed(code);
  }

  // ---------------------------------------------------------------------------
  // The warning message
  // ---------------------------------------------------------------------------

  const WarningHead: seq<string> := ["## ⚠️ 代码复杂度警告", "", "### 检测到的问题", ""]

  const WarningRequest: seq<string> := [
    "", "### 请求", "",
    "请根据上述建议简化代码，拆分为多个步骤后重新提交。每步代码应：",
    "- 不超过 30 行",
    "- 不超过 5 个 insert* 操作",
    "- 包含验证返回值 `return { success: true, created: \"...\" }`",
    "- 只处理一个逻辑单元（如一个章节）"]

  function MetricLines(m: Metrics): (r: seq<string>)
    ensures |r| == 10
  {
    ["", "### 代码指标", "",
     "- 代码行数: " + Str.NatToString(m.lines) + " 行",
     "- 插入操作: " + Str.NatToString(m.insertCalls) + " 次",
     "- sync() 调用: " + Str.NatToString(m.syncCalls) + " 次",
     "- 包含风险 API: " + (if m.hasRiskyApis then "是" else "否"),
     "", "### 建议", ""]
  }

  /**
   * The lines of `formatComplexityWarning(result)`: the issues as a bulleted
   * list, the four metrics, every suggestion numbered from 1, and the fixed
   * request for smaller steps.
   */
  function WarningLines(c: ComplexityCheck): (r: seq<string>)
    requires c.WellFormed()
  {
    WarningHead
    + Str.BlockLines(Str.Prefixed("- ", c.IssueTexts()))
    + MetricLines(c.metrics)
    + Str.BlockLines(Str.Numbered(c.SuggestionTexts(), 1))
    + WarningRequest
  }

  function FormatComplexityWarning(c: ComplexityCheck): string
    requires c.WellFormed()
  {
    Str.Join(WarningLines(c), "\n")
  }

  /**
   * The warning lists every issue, in order, as a `- ` line right after the
   * heading, then reports the meaningful-line count, and numbers every
   * suggestion from 1.
   */
  lemma WarningListsIssues(c: ComplexityCheck)
    requires c.WellFormed() && |c.issues| > 0
    ensures var w := WarningLines(c);
      && (forall x :: 0 <= x < |c.issues| ==> w[4 + x] == "- " + IssueText(c.issues[x]))
      && w[4 + |c.issues| + 3] == "- 代码行数: " + Str.NatToString(c.metrics.lines) + " 行"
      && (forall x :: 0 <= x < |c.issues| ==>
            w[4 + |c.issues| + 10 + x] == Str.NatToString(x + 1) + ". " + SuggestionText(c.issues[x]))
  {
    forall x | 0 <= x < |c.issues| ensures WarningLines(c)[4 + x] == "- " + IssueText(c.issues[x]) {
      IssueLineAt(c, x);
    }
    MetricLineAt(c, 3);
    forall x | 0 <= x < |c.issues|
      ensures WarningLines(c)[4 + |c.issues| + 10 + x] == Str.NatToString(x + 1) + ". " + SuggestionText(c.issues[x])
    {
      SuggestionLineAt(c, x);
    }
  }

  /** The `k`-th issue line of the warning. */
  lemma IssueLineAt(c: ComplexityCheck, k: nat)
    requires c.WellFormed() && k < |c.issues|
    ensures WarningLines(c)[4 + k] == "- " + IssueText(c.issues[k])
  {
    var issues := Str.Prefixed("- ", c.IssueTexts());
    Str.PartsAt(WarningHead, issues, MetricLines(c.metrics), Str.BlockLines(Str.Numbered(c.SuggestionTexts(), 1)), WarningRequest, k);
  }

  /** The `k`-th metrics line of the warning. */
  lemma MetricLineAt(c: ComplexityCheck, k: nat)
    requires c.WellFormed() && |c.issues| > 0 && k < 10
    ensures WarningLines(c)[4 + |c.issues| + k] == MetricLines(c.metrics)[k]
  {
    var issues := Str.Prefixed("- ", c.IssueTexts());
    Str.PartsAt(WarningHead, issues, MetricLines(c.metrics), Str.BlockLines(Str.Numbered(c.SuggestionTexts(), 1)), WarningRequest, k);
  }

  /** The `k`-th suggestion line of the warning. */
  lemma SuggestionLineAt(c: ComplexityCheck, k: nat)
    requires c.WellFormed() && k < |c.issues|
    ensures WarningLines(c)[4 + |c.issues| + 10 + k] == Str.NatToString(1 + k) + ". " + SuggestionText(c.issues[k])
  {
    var suggestions := Str.Numbered(c.SuggestionTexts(), 1);
    Str.PartsAt(WarningHead, Str.BlockLines(Str.Prefixed("- ", c.IssueTexts())), MetricLines(c.metrics), suggestions, WarningRequest, k);
  }
}
