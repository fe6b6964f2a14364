/**
 * The error analyser of the regression runner (tests/office-skills/
 * error-analysis/ErrorAnalyzer.ts): from a list of error reports it derives a
 * summary, counts by error type and by test category, recurring patterns,
 * recommendations ranked by priority, and the categories with most errors.
 * Dates are parameters: `timeOf` parses a timestamp to milliseconds and
 * `iso` formats milliseconds back as an ISO string.
 */
module Analyzer {
  import opened Wrappers
  import Str
  import Sorting
  import Tally
  import Grouping
  import opened TestTypes
  import Collector

  // ---------------------------------------------------------------------------
  // Categories of test ids
  // ---------------------------------------------------------------------------

  /** `extractCategory`: a test id reads `<host>-<number>-<name>`; the category is everything after the second dash. */
  function ExtractCategory(testCaseId: string): string
  {
    var parts := Str.Split(testCaseId, "-");
    if |parts| >= 3 then Str.Join(parts[2..], "-") else "unknown"
  }

  predicate NoDash(s: string)
  {
    forall i :: 0 <= i < |s| ==> s[i] != '-'
  }

  lemma SplitNoDash(s: string)
    requires NoDash(s)
    ensures Str.Split(s, "-") == [s]
  {
    forall j | 0 <= j ensures !Str.OccursAt(s, "-", j) {
      if j < |s| {
        assert s[j..j + 1][0] == s[j];
      }
    }
  }

  /**
   * The category of a generated id is its whole name, dashes included, when
   * host and number hold no dash.
   */
  lemma CategoryOfId(host: string, number: string, name: string)
    requires NoDash(host) && NoDash(number)
    ensures ExtractCategory(host + "-" + number + "-" + name) == name
  {
    var id := host + "-" + number + "-" + name;
    var tail := number + "-" + name;
    assert id == host + ['-'] + tail;
    assert tail == number + ['-'] + name;
    Str.SplitLead(host, '-', tail);
    Str.SplitLead(number, '-', name);
    var parts := Str.Split(id, "-");
    assert parts == [host, number] + Str.Split(name, "-");
    assert parts[2..] == Str.Split(name, "-");
    Str.JoinSplit(name, "-");
  }

  /** An id with fewer than two dashes has no category. */
  lemma CategoryUnknown(a: string, b: string)
    requires NoDash(a) && NoDash(b)
    ensures ExtractCategory(a) == "unknown"
    ensures ExtractCategory(a + "-" + b) == "unknown"
  {
    SplitNoDash(a);
    SplitNoDash(b);
    assert a + "-" + b == a + ['-'] + b;
    Str.SplitLead(a, '-', b);
  }

  // ---------------------------------------------------------------------------
  // Reports with a test id
  // ---------------------------------------------------------------------------

  /** The reports whose test id is truthy, that is not empty. */
  function WithId(rs: seq<ErrorReport>): (r: seq<ErrorReport>)
    ensures |r| <= |rs|
    ensures forall i :: 0 <= i < |r| ==> r[i].testCaseId != ""
  {
    if |rs| == 0 then []
    else WithId(rs[..|rs| - 1]) + (if rs[|rs| - 1].testCaseId != "" then [rs[|rs| - 1]] else [])
  }

  /** `rs.map(r => r.testCaseId).filter(Boolean)` */
  function Ids(rs: seq<ErrorReport>): (r: seq<string>)
    ensures |r| == |WithId(rs)|
    ensures forall i :: 0 <= i < |r| ==> r[i] == WithId(rs)[i].testCaseId
  {
    if |rs| == 0 then []
    else Ids(rs[..|rs| - 1]) + (if rs[|rs| - 1].testCaseId != "" then [rs[|rs| - 1].testCaseId] else [])
  }

  /** The categories of the reports with a test id, in report order. */
  function Categories(rs: seq<ErrorReport>): (r: seq<string>)
    ensures |r| == |WithId(rs)|
    ensures forall i :: 0 <= i < |r| ==> r[i] == ExtractCategory(WithId(rs)[i].testCaseId)
  {
    if |rs| == 0 then []
    else
      var last := rs[|rs| - 1];
      Categories(rs[..|rs| - 1]) + (if last.testCaseId != "" then [ExtractCategory(last.testCaseId)] else [])
  }

  lemma WithIdStep(rs: seq<ErrorReport>, i: nat)
    requires i < |rs|
    ensures WithId(rs[..i + 1]) == WithId(rs[..i]) + (if rs[i].testCaseId != "" then [rs[i]] else [])
    ensures Categories(rs[..i + 1])
         == Categories(rs[..i]) + (if rs[i].testCaseId != "" then [ExtractCategory(rs[i].testCaseId)] else [])
  {
    assert rs[..i + 1][..i] == rs[..i];
  }

  /** One loop step of grouping the reports with an id. */
  lemma GroupStep(rs: seq<ErrorReport>, keyOf: ErrorReport -> string, i: nat)
    requires i < |rs|
    ensures Grouping.By(WithId(rs[..i + 1]), keyOf)
         == if rs[i].testCaseId != ""
            then Grouping.Add(Grouping.By(WithId(rs[..i]), keyOf), keyOf(rs[i]), rs[i])
            else Grouping.By(WithId(rs[..i]), keyOf)
  {
    WithIdStep(rs, i);
    if rs[i].testCaseId != "" {
      Grouping.ByAppend(WithId(rs[..i]), keyOf, rs[i]);
    } else {
      assert WithId(rs[..i + 1]) == WithId(rs[..i]);
    }
  }

  /** The loop grouping the reports that have a test id, skipping the others. */
  method GroupWithId(reports: seq<ErrorReport>, keyOf: ErrorReport -> string) returns (groups: seq<Grouping.Group<string, ErrorReport>>)
    ensures groups == Grouping.By(WithId(reports), keyOf)
  {
    groups := [];
    var i := 0;
    while i < |reports|
      invariant 0 <= i <= |reports|
      invariant groups == Grouping.By(WithId(reports[..i]), keyOf)
    {
      GroupStep(reports, keyOf, i);
      if reports[i].testCaseId != "" {
        groups := Grouping.Add(groups, keyOf(reports[i]), reports[i]);
      }
      i := i + 1;
    }
    assert reports[..|reports|] == reports;
  }

  /** The ids listed are exactly the non-empty ids of the reports. */
  lemma {:induction false} IdsMembers(rs: seq<ErrorReport>)
    ensures forall x :: x in Ids(rs) <==> x != "" && exists r :: r in rs && r.testCaseId == x
  {
    if |rs| > 0 {
      var front := rs[..|rs| - 1];
      IdsMembers(front);
      assert rs == front + [rs[|rs| - 1]];
      assert forall r :: r in rs <==> r in front || r == rs[|rs| - 1];
    }
  }

  /** Every report with an id is kept, and no other. */
  lemma {:induction false} WithIdMembers(rs: seq<ErrorReport>)
    ensures forall r :: r in WithId(rs) <==> r in rs && r.testCaseId != ""
  {
    if |rs| > 0 {
      var front := rs[..|rs| - 1];
      WithIdMembers(front);
      assert rs == front + [rs[|rs| - 1]];
    }
  }

  /** `new Set(xs).size`: the distinct list is as long as the set of elements is large. */
  lemma {:induction false} DistinctCount(s: seq<string>)
    ensures |Str.Distinct(s)| == |set x | x in s|
  {
    if |s| > 0 {
      var front, last := s[..|s| - 1], s[|s| - 1];
      DistinctCount(front);
      Str.DistinctMembers(front);
      assert s == front + [last];
      assert (set x | x in s) == (set x | x in front) + {last};
    }
  }

  // ---------------------------------------------------------------------------
  // Summary
  // ---------------------------------------------------------------------------

  datatype Summary = Summary(totalErrors: nat, uniqueTestCases: nat, start: string, end: string)

  /** `Math.min(...timestamps)` */
  function EarliestTime(rs: seq<ErrorReport>, timeOf: string -> int): (m: int)
    requires |rs| > 0
    ensures forall i :: 0 <= i < |rs| ==> m <= timeOf(rs[i].timestamp)
    ensures exists i :: 0 <= i < |rs| && m == timeOf(rs[i].timestamp)
  {
    if |rs| == 1 then timeOf(rs[0].timestamp)
    else
      var m := EarliestTime(rs[1..], timeOf);
      assert forall i :: 1 <= i < |rs| ==> rs[i] == rs[1..][i - 1];
      if timeOf(rs[0].timestamp) <= m then timeOf(rs[0].timestamp) else m
  }

  /** `Math.max(...timestamps)` */
  function LatestTime(rs: seq<ErrorReport>, timeOf: string -> int): (m: int)
    requires |rs| > 0
    ensures forall i :: 0 <= i < |rs| ==> timeOf(rs[i].timestamp) <= m
    ensures exists i :: 0 <= i < |rs| && m == timeOf(rs[i].timestamp)
  {
    if |rs| == 1 then timeOf(rs[0].timestamp)
    else
      var m := LatestTime(rs[1..], timeOf);
      assert forall i :: 1 <= i < |rs| ==> rs[i] == rs[1..][i - 1];
      if timeOf(rs[0].timestamp) >= m then timeOf(rs[0].timestamp) else m
  }

  /**
   * `generateSummary`: nothing for no reports; otherwise the number of
   * reports, the number of distinct non-empty test ids, and the span from
   * the earliest to the latest report.
   */
  function GenerateSummary(reports: seq<ErrorReport>, timeOf: string -> int, iso: int -> string): (r: Summary)
    ensures |reports| == 0 ==> r == Summary(0, 0, "", "")
    ensures r.totalErrors == |reports|
    ensures r.uniqueTestCases == |set x | x in Ids(reports)|
    ensures |reports| > 0 ==>
      exists i :: 0 <= i < |reports| && r.start == iso(timeOf(reports[i].timestamp))
        && forall k :: 0 <= k < |reports| ==> timeOf(reports[i].timestamp) <= timeOf(reports[k].timestamp)
    ensures |reports| > 0 ==>
      exists i :: 0 <= i < |reports| && r.end == iso(timeOf(reports[i].timestamp))
        && forall k :: 0 <= k < |reports| ==> timeOf(reports[k].timestamp) <= timeOf(reports[i].timestamp)
  {
    DistinctCount(Ids(reports));
    if |reports| == 0 then Summary(0, 0, "", "")
    else
      Summary(|reports|, |Str.Distinct(Ids(reports))|,
              iso(EarliestTime(reports, timeOf)), iso(LatestTime(reports, timeOf)))
  }

  // ---------------------------------------------------------------------------
  // Statistics
  // ---------------------------------------------------------------------------

  /** One entry of `topErrors`: a message, how often it was reported, and the distinct test ids that reported it. */
  datatype TopError = TopError(message: string, count: nat, testCases: seq<string>)

  datatype Statistics = Statistics(
    totalErrors: nat,
    errorsByType: seq<Tally.Bucket<string>>,
    errorsByCategory: seq<Tally.Bucket<string>>,
    topErrors: seq<TopError>)

  function MessageOf(r: ErrorReport): string
  {
    r.errorMessage
  }

  /** A message's count and test-id set, read off the reports grouped under it. */
  function ToTop(g: Grouping.Group<string, ErrorReport>): TopError
  {
    TopError(g.key, |g.items|, Str.Distinct(Ids(g.items)))
  }

  function TopCount(t: TopError): int
  {
    t.count
  }

  /** `Array.from(errorMessages.entries()).map(…)` */
  function TopsOf(gs: seq<Grouping.Group<string, ErrorReport>>): (r: seq<TopError>)
    ensures |r| == |gs|
    ensures forall i :: 0 <= i < |gs| ==> r[i] == ToTop(gs[i])
  {
    seq(|gs|, i requires 0 <= i < |gs| => ToTop(gs[i]))
  }

  /** The ten most frequent messages, most frequent first, ties in first-seen order. */
  function TopErrors(rs: seq<ErrorReport>): seq<TopError>
  {
    Sorting.Take(Sorting.SortDesc(TopsOf(Grouping.By(rs, MessageOf)), TopCount), 10)
  }

  /** One loop step of the category count. */
  lemma CategoryTallyStep(rs: seq<ErrorReport>, i: nat)
    requires i < |rs|
    ensures Tally.Of(Categories(rs[..i + 1]))
         == if rs[i].testCaseId != ""
            then Tally.Bump(Tally.Of(Categories(rs[..i])), ExtractCategory(rs[i].testCaseId))
            else Tally.Of(Categories(rs[..i]))
  {
    WithIdStep(rs, i);
    if rs[i].testCaseId != "" {
      Tally.OfAppend(Categories(rs[..i]), ExtractCategory(rs[i].testCaseId));
    } else {
      assert Categories(rs[..i + 1]) == Categories(rs[..i]);
    }
  }

  /**
   * `generateStatistics`: one pass counting error types, the categories of
   * reports with an id, and the reports of each message; then the ten most
   * frequent messages. The message map is kept as the reports grouped by
   * message, from which each count and test-id set is read.
   */
  method GenerateStatistics(reports: seq<ErrorReport>) returns (stats: Statistics)
    ensures stats.totalErrors == |reports|
    ensures stats.errorsByType == Tally.Of(Collector.ErrorTypes(reports))
    ensures stats.errorsByCategory == Tally.Of(Categories(reports))
    ensures stats.topErrors == TopErrors(reports)
  {
    var byType: seq<Tally.Bucket<string>> := [];
    var byCategory: seq<Tally.Bucket<string>> := [];
    var messages: seq<Grouping.Group<string, ErrorReport>> := [];
    var types := Collector.ErrorTypes(reports);
    var i := 0;
    while i < |reports|
      invariant 0 <= i <= |reports|
      invariant byType == Tally.Of(types[..i])
      invariant byCategory == Tally.Of(Categories(reports[..i]))
      invariant messages == Grouping.By(reports[..i], MessageOf)
    {
      var report := reports[i];
      Tally.OfStep(types, i);
      byType := Tally.Bump(byType, report.errorType);
      CategoryTallyStep(reports, i);
      if report.testCaseId != "" {
        byCategory := Tally.Bump(byCategory, ExtractCategory(report.testCaseId));
      }
      Grouping.ByStep(reports, MessageOf, i);
      messages := Grouping.Add(messages, report.errorMessage, report);
      i := i + 1;
    }
    assert reports[..|reports|] == reports;
    assert types[..|reports|] == types;
    stats := Statistics(|reports|, byType, byCategory, Sorting.Take(Sorting.SortDesc(TopsOf(messages), TopCount), 10));
  }

  /** The categories add up to the reports with an id, each counted as often as it occurs. */
  lemma CategoryCounts(reports: seq<ErrorReport>)
    ensures Tally.Total(Tally.Of(Categories(reports))) == |WithId(reports)|
    ensures forall c :: Tally.CountOf(Tally.Of(Categories(reports)), c) == Tally.Occurrences(Categories(reports), c)
  {
    Tally.OfCounts(Categories(reports));
  }

  /** The top list holds at most ten messages, most frequent first. */
  lemma TopErrorsOrdered(reports: seq<ErrorReport>)
    ensures |TopErrors(reports)| <= 10
    ensures Sorting.Descending(TopErrors(reports), TopCount)
  {
    Sorting.SortDescSorted(TopsOf(Grouping.By(reports, MessageOf)), TopCount);
  }

  /** An entry of the top list counts the reports of its message and lists their distinct ids. */
  lemma TopErrorOf(reports: seq<ErrorReport>, e: TopError)
    requires e in TopErrors(reports)
    ensures e.count == |Grouping.Having(reports, MessageOf, e.message)| && e.count > 0
    ensures Str.NoDup(e.testCases)
    ensures forall x :: x in e.testCases <==> x in Ids(Grouping.Having(reports, MessageOf, e.message))
  {
    var gs := Grouping.By(reports, MessageOf);
    var tops := TopsOf(gs);
    assert e in Sorting.SortDesc(tops, TopCount);
    Sorting.SortDescMembers(tops, TopCount, e);
    var j :| 0 <= j < |tops| && tops[j] == e;
    Grouping.GroupAt(reports, MessageOf, j);
    Str.DistinctMembers(Ids(gs[j].items));
  }

  // ---------------------------------------------------------------------------
  // Patterns
  // ---------------------------------------------------------------------------

  datatype Pattern = Pattern(
    pattern: string,
    description: string,
    frequency: nat,
    affectedTestCases: seq<string>,
    examples: seq<string>)

  function ErrorTypeOf(r: ErrorReport): string
  {
    r.errorType
  }

  function TestCaseOf(r: ErrorReport): string
  {
    r.testCaseId
  }

  /** `rs.map(r => r.errorMessage)` */
  function Messages(rs: seq<ErrorReport>): (r: seq<string>)
    ensures |r| == |rs|
    ensures forall i :: 0 <= i < |rs| ==> r[i] == rs[i].errorMessage
  {
    seq(|rs|, i requires 0 <= i < |rs| => rs[i].errorMessage)
  }

  const InvalidArgumentText := "参数无效或缺少错误"
  const InvalidReferenceText := "无效引用错误"
  const ApiNotFoundText := "API 不可用错误"

  /** Patterns 1 to 3: the reports of one error type, if there are any. */
  function TypePattern(rs: seq<ErrorReport>, errorType: string, description: string): Option<Pattern>
  {
    var matching := Grouping.Having(rs, ErrorTypeOf, errorType);
    if |matching| > 0
    then Some(Pattern(errorType, description, |matching|, Str.Distinct(Ids(matching)), Messages(Sorting.Take(matching, 3))))
    else None
  }

  function GroupSize(g: Grouping.Group<string, ErrorReport>): int
  {
    |g.items|
  }

  /** The groups with at least three reports, in order. */
  function Frequent(gs: seq<Grouping.Group<string, ErrorReport>>): (r: seq<Grouping.Group<string, ErrorReport>>)
    ensures |r| <= |gs|
    ensures forall g :: g in r <==> g in gs && |g.items| >= 3
  {
    if |gs| == 0 then []
    else
      var front := gs[..|gs| - 1];
      assert gs == front + [gs[|gs| - 1]];
      Frequent(front) + (if |gs[|gs| - 1].items| >= 3 then [gs[|gs| - 1]] else [])
  }

  /** Pattern 4: the five test ids with most reports, at least three each, most first. */
  function HighFrequency(rs: seq<ErrorReport>): seq<Grouping.Group<string, ErrorReport>>
  {
    Sorting.Take(Sorting.SortDesc(Frequent(Grouping.By(WithId(rs), TestCaseOf)), GroupSize), 5)
  }

  function FrequencyPattern(g: Grouping.Group<string, ErrorReport>): Pattern
  {
    Pattern("HighFrequency:" + g.key, "测试用例 " + g.key + " 频繁失败", |g.items|, [g.key], Messages(Sorting.Take(g.items, 3)))
  }

  function FrequencyPatterns(hf: seq<Grouping.Group<string, ErrorReport>>): (r: seq<Pattern>)
    ensures |r| == |hf|
    ensures forall i :: 0 <= i < |hf| ==> r[i] == FrequencyPattern(hf[i])
  {
    if |hf| == 0 then [] else FrequencyPatterns(hf[..|hf| - 1]) + [FrequencyPattern(hf[|hf| - 1])]
  }

  lemma FrequencyStep(hf: seq<Grouping.Group<string, ErrorReport>>, j: nat)
    requires j < |hf|
    ensures FrequencyPatterns(hf[..j + 1]) == FrequencyPatterns(hf[..j]) + [FrequencyPattern(hf[j])]
  {
    assert hf[..j + 1][..j] == hf[..j];
  }

  function Present(p: Option<Pattern>): seq<Pattern>
  {
    if p.Some? then [p.value] else []
  }

  /** The patterns `identifyPatterns` lists: the three error types, then the frequent test ids. */
  function Patterns(rs: seq<ErrorReport>): seq<Pattern>
  {
    Present(TypePattern(rs, "InvalidArgument", InvalidArgumentText))
    + Present(TypePattern(rs, "InvalidReference", InvalidReferenceText))
    + Present(TypePattern(rs, "ApiNotFound", ApiNotFoundText))
    + FrequencyPatterns(HighFrequency(rs))
  }

  /** `identifyPatterns`: the three filters, the loop grouping reports by test id, then the loop pushing frequent ones. */
  method IdentifyPatterns(reports: seq<ErrorReport>) returns (patterns: seq<Pattern>)
    ensures patterns == Patterns(reports)
  {
    patterns := Present(TypePattern(reports, "InvalidArgument", InvalidArgumentText));
    patterns := patterns + Present(TypePattern(reports, "InvalidReference", InvalidReferenceText));
    patterns := patterns + Present(TypePattern(reports, "ApiNotFound", ApiNotFoundText));
    var byCase := GroupWithId(reports, TestCaseOf);
    var hf := Sorting.Take(Sorting.SortDesc(Frequent(byCase), GroupSize), 5);
    ghost var base := patterns;
    var j := 0;
    while j < |hf|
      invariant 0 <= j <= |hf|
      invariant patterns == base + FrequencyPatterns(hf[..j])
    {
      FrequencyStep(hf, j);
      Str.Assoc(base, FrequencyPatterns(hf[..j]), [FrequencyPattern(hf[j])]);
      patterns := patterns + [FrequencyPattern(hf[j])];
      j := j + 1;
    }
    assert hf[..|hf|] == hf;
    assert hf == HighFrequency(reports);
  }

  /**
   * A type pattern is reported exactly when that type occurs; it counts the
   * reports of the type, names their distinct non-empty ids, and quotes the
   * messages of the first three.
   */
  lemma TypePatternFound(rs: seq<ErrorReport>, errorType: string, description: string)
    ensures TypePattern(rs, errorType, description).Some? <==> exists i :: 0 <= i < |rs| && rs[i].errorType == errorType
    ensures match TypePattern(rs, errorType, description)
      case None => true
      case Some(p) =>
        var matching := Grouping.Having(rs, ErrorTypeOf, errorType);
        p.pattern == errorType && p.frequency == |matching|
        && (forall x :: x in p.affectedTestCases <==> x in Ids(matching))
        && Str.NoDup(p.affectedTestCases)
        && |p.examples| == (if |matching| < 3 then |matching| else 3)
        && forall k :: 0 <= k < |p.examples| ==> p.examples[k] == matching[k].errorMessage
  {
    var matching := Grouping.Having(rs, ErrorTypeOf, errorType);
    Grouping.HavingNonEmpty(rs, ErrorTypeOf, errorType);
    Str.DistinctMembers(Ids(matching));
  }

  /**
   * At most five frequent test ids, most reports first; each has a
   * non-empty id, at least three reports, and exactly the reports of that id.
   */
  lemma HighFrequencyShape(rs: seq<ErrorReport>)
    ensures |HighFrequency(rs)| <= 5
    ensures Sorting.Descending(HighFrequency(rs), GroupSize)
    ensures forall g :: g in HighFrequency(rs) ==>
      g.key != "" && |g.items| >= 3 && g.items == Grouping.Having(WithId(rs), TestCaseOf, g.key)
  {
    var fr := Frequent(Grouping.By(WithId(rs), TestCaseOf));
    Sorting.SortDescSorted(fr, GroupSize);
    forall g | g in HighFrequency(rs)
      ensures g.key != "" && |g.items| >= 3 && g.items == Grouping.Having(WithId(rs), TestCaseOf, g.key)
    {
      assert g in Sorting.SortDesc(fr, GroupSize);
      Sorting.SortDescMembers(fr, GroupSize, g);
      FrequentGroup(rs, g);
    }
  }

  lemma FrequentGroup(rs: seq<ErrorReport>, g: Grouping.Group<string, ErrorReport>)
    requires g in Frequent(Grouping.By(WithId(rs), TestCaseOf))
    ensures g.key != "" && |g.items| >= 3 && g.items == Grouping.Having(WithId(rs), TestCaseOf, g.key)
  {
    var gs := Grouping.By(WithId(rs), TestCaseOf);
    var j :| 0 <= j < |gs| && gs[j] == g;
    Grouping.GroupAt(WithId(rs), TestCaseOf, j);
    Grouping.HavingMembers(WithId(rs), TestCaseOf, g.key);
    var x := g.items[0];
    assert x in WithId(rs) && x.testCaseId == g.key;
  }

  // ---------------------------------------------------------------------------
  // Recommendations
  // ---------------------------------------------------------------------------

  datatype Recommendation = Recommendation(
    priority: Priority,
    area: string,
    issue: string,
    suggestion: string,
    affectedCount: nat)

  const ArgumentSuggestion := "在 TOOLS.md 模板中添加参数验证代码，使用 getItemOrNullObject 检查对象是否存在"
  const ReferenceSuggestion := "在代码模板中添加引用存在性检查，避免访问不存在的对象"
  const ApiSuggestion := "在 SKILL.md 中标注 API 的平台支持情况，或提供替代方案"

  function FoundText(frequency: nat, kind: string): string
  {
    "发现 " + Str.NatToString(frequency) + " 个 " + kind + " 错误"
  }

  /** The advice for a pattern of the three error types; none for the others. */
  function Advice(kind: string, frequency: nat): Option<Recommendation>
  {
    if kind == "InvalidArgument" then
      Some(Recommendation(High, "参数验证", FoundText(frequency, kind), ArgumentSuggestion, frequency))
    else if kind == "InvalidReference" then
      Some(Recommendation(High, "引用检查", FoundText(frequency, kind), ReferenceSuggestion, frequency))
    else if kind == "ApiNotFound" then
      Some(Recommendation(Medium, "API 兼容性", FoundText(frequency, kind), ApiSuggestion, frequency))
    else None
  }

  /** The advice the loop over the patterns pushes, in pattern order. */
  function PatternAdvice(ps: seq<Pattern>): seq<Recommendation>
  {
    if |ps| == 0 then []
    else
      var a := Advice(ps[|ps| - 1].pattern, ps[|ps| - 1].frequency);
      PatternAdvice(ps[..|ps| - 1]) + (if a.Some? then [a.value] else [])
  }

  function CategoryRecommendation(category: string, count: nat): Recommendation
  {
    Recommendation(Medium, category, category + " 类别中有 " + Str.NatToString(count) + " 个错误",
                   "重点检查 " + category + " 相关的代码模板，增强错误处理和参数验证", count)
  }

  /** The advice for each category with at least five errors, in `Object.entries` order. */
  function CategoryAdvice(t: seq<Tally.Bucket<string>>): seq<Recommendation>
  {
    if |t| == 0 then []
    else
      var b := t[|t| - 1];
      CategoryAdvice(t[..|t| - 1]) + (if b.count >= 5 then [CategoryRecommendation(b.key, b.count)] else [])
  }

  /** `priorityOrder`: high 0, medium 1, low 2. */
  function Rank(p: Priority): int
  {
    match p
    case High => 0
    case Medium => 1
    case Low => 2
  }

  /** Sorting ascending by rank is sorting descending by the negated rank. */
  function Urgency(r: Recommendation): int
  {
    -Rank(r.priority)
  }

  function Recommendations(rs: seq<ErrorReport>): seq<Recommendation>
  {
    Sorting.SortDesc(PatternAdvice(Patterns(rs)) + CategoryAdvice(Tally.Of(Categories(rs))), Urgency)
  }

  /** The loop over the patterns in `generateRecommendations`. */
  method AdvisePatterns(patterns: seq<Pattern>) returns (recs: seq<Recommendation>)
    ensures recs == PatternAdvice(patterns)
  {
    recs := [];
    var i := 0;
    while i < |patterns|
      invariant 0 <= i <= |patterns|
      invariant recs == PatternAdvice(patterns[..i])
    {
      assert patterns[..i + 1][..i] == patterns[..i];
      var a := Advice(patterns[i].pattern, patterns[i].frequency);
      if a.Some? {
        recs := recs + [a.value];
      }
      i := i + 1;
    }
    assert patterns[..|patterns|] == patterns;
  }

  /** The loop over `Object.entries(stats.errorsByCategory)` in `generateRecommendations`. */
  method AdviseCategories(cats: seq<Tally.Bucket<string>>) returns (recs: seq<Recommendation>)
    ensures recs == CategoryAdvice(cats)
  {
    recs := [];
    var j := 0;
    while j < |cats|
      invariant 0 <= j <= |cats|
      invariant recs == CategoryAdvice(cats[..j])
    {
      assert cats[..j + 1][..j] == cats[..j];
      if cats[j].count >= 5 {
        recs := recs + [CategoryRecommendation(cats[j].key, cats[j].count)];
      }
      j := j + 1;
    }
    assert cats[..|cats|] == cats;
  }

  /** `generateRecommendations`: advice per pattern, then per busy category, then the stable sort by priority. */
  method GenerateRecommendations(reports: seq<ErrorReport>) returns (recs: seq<Recommendation>)
    ensures recs == Recommendations(reports)
  {
    var patterns := IdentifyPatterns(reports);
    var fromPatterns := AdvisePatterns(patterns);
    var stats := GenerateStatistics(reports);
    var fromCategories := AdviseCategories(stats.errorsByCategory);
    recs := Sorting.SortDesc(fromPatterns + fromCategories, Urgency);
  }

  /**
   * The recommendations are ordered high before medium before low, hold
   * exactly the pattern and category advice, and keep the order in which
   * advice of one priority was produced.
   */
  lemma RecommendationsRanked(rs: seq<ErrorReport>)
    ensures var recs := Recommendations(rs);
      forall i, j :: 0 <= i < j < |recs| ==> Rank(recs[i].priority) <= Rank(recs[j].priority)
    ensures multiset(Recommendations(rs)) == multiset(PatternAdvice(Patterns(rs)) + CategoryAdvice(Tally.Of(Categories(rs))))
    ensures var all := PatternAdvice(Patterns(rs)) + CategoryAdvice(Tally.Of(Categories(rs)));
      forall k :: Sorting.WithKey(Recommendations(rs), Urgency, k) == Sorting.WithKey(all, Urgency, k)
  {
    var all := PatternAdvice(Patterns(rs)) + CategoryAdvice(Tally.Of(Categories(rs)));
    Sorting.SortDescSorted(all, Urgency);
    var recs := Recommendations(rs);
    forall i, j | 0 <= i < j < |recs| ensures Rank(recs[i].priority) <= Rank(recs[j].priority) {
      assert Urgency(recs[i]) >= Urgency(recs[j]);
    }
  }

  /** Exactly the buckets with at least five errors get advice. */
  lemma {:induction false} CategoryAdviceFor(t: seq<Tally.Bucket<string>>, category: string, count: nat)
    ensures CategoryRecommendation(category, count) in CategoryAdvice(t) <==>
      Tally.Bucket(category, count) in t && count >= 5
  {
    if |t| > 0 {
      var front := t[..|t| - 1];
      CategoryAdviceFor(front, category, count);
      assert t == front + [t[|t| - 1]];
    }
  }

  /**
   * A category is named in a recommendation, with its count, exactly when
   * at least five of the reports with an id fall into it.
   */
  lemma CategoryRecommended(rs: seq<ErrorReport>, category: string, count: nat)
    ensures CategoryRecommendation(category, count) in Recommendations(rs) <==>
      count >= 5 && Tally.Occurrences(Categories(rs), category) == count
  {
    var pa := PatternAdvice(Patterns(rs));
    var t := Tally.Of(Categories(rs));
    var rec := CategoryRecommendation(category, count);
    Sorting.SortDescMembers(pa + CategoryAdvice(t), Urgency, rec);
    CategoryAdviceNotPattern(Patterns(rs), category, count);
    CategoryAdviceFor(t, category, count);
    Tally.OfCounts(Categories(rs));
    if count > 0 {
      Tally.BucketPresent(t, category, count);
    }
  }

  /**
   * Category advice never coincides with pattern advice: only the API advice
   * shares its priority, and its issue opens differently from any category's.
   */
  lemma {:induction false} CategoryAdviceNotPattern(ps: seq<Pattern>, category: string, count: nat)
    ensures CategoryRecommendation(category, count) !in PatternAdvice(ps)
  {
    if |ps| > 0 {
      CategoryAdviceNotPattern(ps[..|ps| - 1], category, count);
      AdviceNotCategory(ps[|ps| - 1].pattern, ps[|ps| - 1].frequency, category, count);
    }
  }

  lemma AdviceNotCategory(kind: string, frequency: nat, category: string, count: nat)
    ensures Advice(kind, frequency) != Some(CategoryRecommendation(category, count))
  {
    if kind == "ApiNotFound" && category == "API 兼容性" {
      assert CategoryRecommendation(category, count).issue[0] == 'A';
      assert FoundText(frequency, kind)[0] == '发';
    }
  }

  lemma {:induction false} PatternAdviceMembers(ps: seq<Pattern>, x: Recommendation)
    ensures x in PatternAdvice(ps) <==> exists i :: 0 <= i < |ps| && Advice(ps[i].pattern, ps[i].frequency) == Some(x)
  {
    if |ps| > 0 {
      var front := ps[..|ps| - 1];
      PatternAdviceMembers(front, x);
      if exists i :: 0 <= i < |front| && Advice(front[i].pattern, front[i].frequency) == Some(x) {
        var i :| 0 <= i < |front| && Advice(front[i].pattern, front[i].frequency) == Some(x);
        assert ps[i] == front[i];
      }
      if exists i :: 0 <= i < |ps| && Advice(ps[i].pattern, ps[i].frequency) == Some(x) {
        var i :| 0 <= i < |ps| && Advice(ps[i].pattern, ps[i].frequency) == Some(x);
        if i < |front| {
          assert ps[i] == front[i];
        }
      }
    }
  }

  predicate IsTypeKind(kind: string)
  {
    kind == "InvalidArgument" || kind == "InvalidReference" || kind == "ApiNotFound"
  }

  /** The description `identifyPatterns` gives each of the three error types. */
  function DescriptionOf(kind: string): string
  {
    if kind == "InvalidArgument" then InvalidArgumentText
    else if kind == "InvalidReference" then InvalidReferenceText
    else ApiNotFoundText
  }

  /** Advice names its error type and count: the three areas differ, and the count is carried. */
  lemma AdviceDetermines(kind: string, n: nat, other: string, m: nat)
    requires IsTypeKind(kind)
    ensures Advice(other, m) == Some(Advice(kind, n).value) ==> other == kind && m == n
  {
    assert "参数验证"[0] == '参';
    assert "引用检查"[0] == '引';
    assert "API 兼容性"[0] == 'A';
  }

  /** Frequent-test patterns are named `HighFrequency:…`. */
  lemma {:induction false} FrequencyPatternsNamed(hf: seq<Grouping.Group<string, ErrorReport>>, p: Pattern)
    requires p in FrequencyPatterns(hf)
    ensures |p.pattern| >= 14 && p.pattern[..14] == "HighFrequency:"
    ensures p.pattern[0] == 'H'
  {
    var i :| 0 <= i < |hf| && FrequencyPatterns(hf)[i] == p;
    assert p.pattern == "HighFrequency:" + hf[i].key;
    assert p.pattern[..14] == "HighFrequency:";
  }

  /** The only pattern named after one of the three error types is that type's pattern. */
  lemma PatternOfKind(rs: seq<ErrorReport>, kind: string, p: Pattern)
    requires IsTypeKind(kind) && p in Patterns(rs) && p.pattern == kind
    ensures TypePattern(rs, kind, DescriptionOf(kind)) == Some(p)
  {
    var a := Present(TypePattern(rs, "InvalidArgument", InvalidArgumentText));
    var b := Present(TypePattern(rs, "InvalidReference", InvalidReferenceText));
    var c := Present(TypePattern(rs, "ApiNotFound", ApiNotFoundText));
    var f := FrequencyPatterns(HighFrequency(rs));
    assert Patterns(rs) == a + b + c + f;
    if p in f {
      FrequencyPatternsNamed(HighFrequency(rs), p);
    }
    assert p in a || p in b || p in c;
  }

  /** No category advice is the advice for an error type. */
  lemma {:induction false} AdviceNotInCategories(t: seq<Tally.Bucket<string>>, kind: string, n: nat)
    requires IsTypeKind(kind)
    ensures Advice(kind, n).value !in CategoryAdvice(t)
  {
    if |t| > 0 {
      AdviceNotInCategories(t[..|t| - 1], kind, n);
      AdviceNotCategory(kind, n, t[|t| - 1].key, t[|t| - 1].count);
    }
  }

  /**
   * The advice for one of the three error types is among the
   * recommendations, with count `n`, exactly when `n` reports, at least
   * one, have that type.
   */
  lemma TypeAdvised(rs: seq<ErrorReport>, kind: string, n: nat)
    requires IsTypeKind(kind)
    ensures Advice(kind, n).value in Recommendations(rs) <==> n > 0 && |Grouping.Having(rs, ErrorTypeOf, kind)| == n
  {
    var rec := Advice(kind, n).value;
    var all := PatternAdvice(Patterns(rs)) + CategoryAdvice(Tally.Of(Categories(rs)));
    Sorting.SortDescMembers(all, Urgency, rec);
    if rec in all {
      AdvisedOnlyIfFound(rs, kind, n);
    }
    if n > 0 && |Grouping.Having(rs, ErrorTypeOf, kind)| == n {
      AdvisedIfFound(rs, kind, n);
    }
  }

  lemma AdvisedOnlyIfFound(rs: seq<ErrorReport>, kind: string, n: nat)
    requires IsTypeKind(kind)
    requires Advice(kind, n).value in PatternAdvice(Patterns(rs)) + CategoryAdvice(Tally.Of(Categories(rs)))
    ensures n > 0 && |Grouping.Having(rs, ErrorTypeOf, kind)| == n
  {
    var rec := Advice(kind, n).value;
    var ps := Patterns(rs);
    var t := Tally.Of(Categories(rs));
    AdviceNotInCategories(t, kind, n);
    PatternAdviceMembers(ps, rec);
    var i :| 0 <= i < |ps| && Advice(ps[i].pattern, ps[i].frequency) == Some(rec);
    AdviceDetermines(kind, n, ps[i].pattern, ps[i].frequency);
    PatternOfKind(rs, kind, ps[i]);
  }

  lemma AdvisedIfFound(rs: seq<ErrorReport>, kind: string, n: nat)
    requires IsTypeKind(kind)
    requires n > 0 && |Grouping.Having(rs, ErrorTypeOf, kind)| == n
    ensures Advice(kind, n).value in PatternAdvice(Patterns(rs)) + CategoryAdvice(Tally.Of(Categories(rs)))
  {
    var ps := Patterns(rs);
    var typed := Present(TypePattern(rs, "InvalidArgument", InvalidArgumentText))
      + Present(TypePattern(rs, "InvalidReference", InvalidReferenceText))
      + Present(TypePattern(rs, "ApiNotFound", ApiNotFoundText));
    assert ps == typed + FrequencyPatterns(HighFrequency(rs));
    var p := TypePattern(rs, kind, DescriptionOf(kind)).value;
    assert p in typed;
    assert p.pattern == kind && p.frequency == n;
    AdviceOfMember(ps, p);
  }

  /** A pattern of the list that has advice contributes that advice. */
  lemma AdviceOfMember(ps: seq<Pattern>, p: Pattern)
    requires p in ps && Advice(p.pattern, p.frequency).Some?
    ensures Advice(p.pattern, p.frequency).value in PatternAdvice(ps)
  {
    var i :| 0 <= i < |ps| && ps[i] == p;
    PatternAdviceMembers(ps, Advice(p.pattern, p.frequency).value);
  }

  // ---------------------------------------------------------------------------
  // Problematic areas
  // ---------------------------------------------------------------------------

  /** One category: its number of reports and its five most frequent messages with their counts. */
  datatype Area = Area(category: string, errorCount: nat, topErrors: seq<Tally.Bucket<string>>)

  function CategoryOf(r: ErrorReport): string
  {
    ExtractCategory(r.testCaseId)
  }

  function BucketCount(b: Tally.Bucket<string>): int
  {
    b.count
  }

  function AreaCount(a: Area): int
  {
    a.errorCount
  }

  /** The area of a category group: its size and its five most frequent messages. */
  function AreaOf(g: Grouping.Group<string, ErrorReport>): Area
  {
    Area(g.key, |g.items|, Sorting.Take(Sorting.SortDesc(Tally.Of(Messages(g.items)), BucketCount), 5))
  }

  /** The loop over `areaMap.entries()` pushing one area per category. */
  function AreasOf(gs: seq<Grouping.Group<string, ErrorReport>>): (r: seq<Area>)
    ensures |r| == |gs|
    ensures forall i :: 0 <= i < |gs| ==> r[i] == AreaOf(gs[i])
  {
    if |gs| == 0 then []
    else
      var front := gs[..|gs| - 1];
      assert forall i :: 0 <= i < |front| ==> front[i] == gs[i];
      AreasOf(front) + [AreaOf(gs[|gs| - 1])]
  }

  lemma AreasStep(gs: seq<Grouping.Group<string, ErrorReport>>, j: nat)
    requires j < |gs|
    ensures AreasOf(gs[..j + 1]) == AreasOf(gs[..j]) + [AreaOf(gs[j])]
  {
    assert gs[..j + 1][..j] == gs[..j];
  }

  function Areas(rs: seq<ErrorReport>): seq<Area>
  {
    Sorting.SortDesc(AreasOf(Grouping.By(WithId(rs), CategoryOf)), AreaCount)
  }

  /** `identifyProblematicAreas`: the loop grouping reports with an id by category, the loop building areas, then the sort. */
  method IdentifyProblematicAreas(reports: seq<ErrorReport>) returns (areas: seq<Area>)
    ensures areas == Areas(reports)
  {
    var byCategory := GroupWithId(reports, CategoryOf);
    areas := [];
    var j := 0;
    while j < |byCategory|
      invariant 0 <= j <= |byCategory|
      invariant areas == AreasOf(byCategory[..j])
    {
      AreasStep(byCategory, j);
      areas := areas + [AreaOf(byCategory[j])];
      j := j + 1;
    }
    assert byCategory[..|byCategory|] == byCategory;
    areas := Sorting.SortDesc(areas, AreaCount);
  }

  /** What holds of every area: the facts `AreasShape` lists, for one area. */
  predicate AreaSound(rs: seq<ErrorReport>, a: Area)
  {
    var mine := Grouping.Having(WithId(rs), CategoryOf, a.category);
    a.errorCount == |mine| > 0
    && |a.topErrors| <= 5
    && Sorting.Descending(a.topErrors, BucketCount)
    && forall b :: b in a.topErrors ==> b.count == Tally.Occurrences(Messages(mine), b.key) > 0
  }

  /**
   * Areas come most errors first. Each counts exactly the reports of its
   * category, at least one; its top messages are at most five, most
   * frequent first, each counted as often as it occurs.
   */
  lemma AreasShape(rs: seq<ErrorReport>)
    ensures Sorting.Descending(Areas(rs), AreaCount)
    ensures forall a :: a in Areas(rs) ==> AreaSound(rs, a)
  {
    var gs := Grouping.By(WithId(rs), CategoryOf);
    var all := AreasOf(gs);
    Sorting.SortDescSorted(all, AreaCount);
    forall a | a in Areas(rs) ensures AreaSound(rs, a) {
      Sorting.SortDescMembers(all, AreaCount, a);
      var j :| 0 <= j < |all| && all[j] == a;
      Grouping.GroupAt(WithId(rs), CategoryOf, j);
      TopMessages(gs[j].items);
    }
  }

  /** The five most frequent messages of some reports, each with its number of occurrences. */
  lemma TopMessages(items: seq<ErrorReport>)
    ensures var top := Sorting.Take(Sorting.SortDesc(Tally.Of(Messages(items)), BucketCount), 5);
      |top| <= 5
      && Sorting.Descending(top, BucketCount)
      && forall b :: b in top ==> b.count == Tally.Occurrences(Messages(items), b.key) > 0
  {
    var counts := Tally.Of(Messages(items));
    Tally.OfCounts(Messages(items));
    Sorting.SortDescSorted(counts, BucketCount);
    var sorted := Sorting.SortDesc(counts, BucketCount);
    forall b | b in Sorting.Take(sorted, 5)
      ensures b.count == Tally.Occurrences(Messages(items), b.key) > 0
    {
      assert b in sorted;
      Sorting.SortDescMembers(counts, BucketCount, b);
      var k :| 0 <= k < |counts| && counts[k] == b;
      Tally.CountOfBucket(counts, k);
    }
  }

  // ---------------------------------------------------------------------------
  // Whole analyses
  // ---------------------------------------------------------------------------

  datatype Analysis = Analysis(
    summary: Summary,
    statistics: Statistics,
    patterns: seq<Pattern>,
    recommendations: seq<Recommendation>,
    topProblematicAreas: seq<Area>)

  function AnalysisOf(rs: seq<ErrorReport>, timeOf: string -> int, iso: int -> string): Analysis
  {
    Analysis(
      GenerateSummary(rs, timeOf, iso),
      Statistics(|rs|, Tally.Of(Collector.ErrorTypes(rs)), Tally.Of(Categories(rs)), TopErrors(rs)),
      Patterns(rs),
      Recommendations(rs),
      Areas(rs))
  }

  method Analyze(reports: seq<ErrorReport>, timeOf: string -> int, iso: int -> string) returns (a: Analysis)
    ensures a == AnalysisOf(reports, timeOf, iso)
  {
    var statistics := GenerateStatistics(reports);
    var patterns := IdentifyPatterns(reports);
    var recommendations := GenerateRecommendations(reports);
    var areas := IdentifyProblematicAreas(reports);
    a := Analysis(GenerateSummary(reports, timeOf, iso), statistics, patterns, recommendations, areas);
  }

  /** `analyzeAll`: the analysis of every listed report. */
  method AnalyzeAll(store: ReportStorage, timeOf: string -> int, iso: int -> string) returns (a: Analysis)
    ensures a == AnalysisOf(Collector.AllReports(store.reports, store.index, timeOf), timeOf, iso)
  {
    var reports := Collector.GetAllReports(store, timeOf);
    a := Analyze(reports, timeOf, iso);
  }

  /** `analyzeByHost`: the analysis of the listed reports of one host. */
  method AnalyzeByHost(store: ReportStorage, timeOf: string -> int, iso: int -> string, hostType: string) returns (a: Analysis)
    ensures a == AnalysisOf(Collector.Filter(Collector.AllReports(store.reports, store.index, timeOf), Collector.HostIs(hostType)), timeOf, iso)
  {
    var reports := Collector.GetReportsByHost(store, timeOf, hostType);
    a := Analyze(reports, timeOf, iso);
  }
}
