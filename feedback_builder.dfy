/**
 * The feedback the chat hook sends back to the model after a failed
 * execution: the retry prompt (`buildErrorFeedback`), the APIs it lists
 * (`extractUsedAPIs`) and the final message once retries are used up
 * (`buildFinalErrorMessage`).
 */
module FeedbackBuilder {
  import Str
  import CodeExecutor
  import ErrorPatterns

  // ---------------------------------------------------------------------------
  // Used APIs
  // ---------------------------------------------------------------------------

  const ExcelPrefix := "Excel."
  const WordPrefix := "Word."
  const PowerPointPrefix := "PowerPoint."

  /**
   * `code.match(/<prefix>\w+/g)`: the non-overlapping matches from `i` on,
   * left to right; each is the prefix followed by the longest run of word
   * characters.
   */
  function MatchesFrom(s: string, prefix: string, i: nat): (r: seq<string>)
    requires i <= |s| && |prefix| > 0
    ensures forall x :: 0 <= x < |r| ==> Str.StartsWith(r[x], prefix) && |r[x]| > |prefix|
    decreases |s| - i
  {
    if i + |prefix| >= |s| then []
    else if Str.OccursAt(s, prefix, i) && Str.IsWordChar(s[i + |prefix|]) then
      var e := Str.WordEnd(s, i + |prefix|);
      assert s[i..e][..|prefix|] == s[i..i + |prefix|];
      [s[i..e]] + MatchesFrom(s, prefix, e)
    else MatchesFrom(s, prefix, i + 1)
  }

  /**
   * Each match is `s[j..end]`: the prefix at `j`, then a run of word
   * characters that is taken in full.
   */
  lemma {:induction false} MatchPosition(s: string, prefix: string, i: nat, x: nat) returns (j: nat, end: nat)
    requires i <= |s| && |prefix| > 0 && x < |MatchesFrom(s, prefix, i)|
    ensures i <= j && j + |prefix| < end <= |s| && MatchesFrom(s, prefix, i)[x] == s[j..end]
    ensures Str.OccursAt(s, prefix, j)
    ensures forall k :: j + |prefix| <= k < end ==> Str.IsWordChar(s[k])
    ensures end < |s| ==> !Str.IsWordChar(s[end])
    decreases |s| - i
  {
    if Str.OccursAt(s, prefix, i) && Str.IsWordChar(s[i + |prefix|]) {
      var e := Str.WordEnd(s, i + |prefix|);
      ghost var rest := MatchesFrom(s, prefix, e);
      assert MatchesFrom(s, prefix, i) == [s[i..e]] + rest;
      if x == 0 {
        j, end := i, e;
      } else {
        assert MatchesFrom(s, prefix, i)[x] == rest[x - 1];
        j, end := MatchPosition(s, prefix, e, x - 1);
      }
    } else {
      assert MatchesFrom(s, prefix, i) == MatchesFrom(s, prefix, i + 1);
      j, end := MatchPosition(s, prefix, i + 1, x);
    }
  }

  /** `extractUsedAPIs`: Excel matches, then Word, then PowerPoint, duplicates dropped. */
  function ExtractUsedApis(code: string): seq<string>
  {
    Str.Distinct(MatchesFrom(code, ExcelPrefix, 0) + MatchesFrom(code, WordPrefix, 0) + MatchesFrom(code, PowerPointPrefix, 0))
  }

  /** Which of the three scans an API name comes from. */
  function HostRank(api: string): nat
  {
    if Str.StartsWith(api, ExcelPrefix) then 0
    else if Str.StartsWith(api, WordPrefix) then 1
    else 2
  }

  /** Keeping first occurrences keeps the input's order: the host order of the input survives. */
  lemma {:induction false} DistinctKeepsRank(s: seq<string>)
    requires forall i, j :: 0 <= i < j < |s| ==> HostRank(s[i]) <= HostRank(s[j])
    ensures forall i, j :: 0 <= i < j < |Str.Distinct(s)| ==> HostRank(Str.Distinct(s)[i]) <= HostRank(Str.Distinct(s)[j])
  {
    if |s| > 0 {
      var front, last := s[..|s| - 1], s[|s| - 1];
      assert forall i :: 0 <= i < |front| ==> front[i] == s[i];
      DistinctKeepsRank(front);
      Str.DistinctMembers(front);
      var d := Str.Distinct(front);
      forall i | 0 <= i < |d|
        ensures HostRank(d[i]) <= HostRank(last)
      {
        assert d[i] in front;
        var k :| 0 <= k < |front| && front[k] == d[i];
        assert s[k] == d[i];
      }
      if last !in d {
        var r := d + [last];
        assert Str.Distinct(s) == r;
        forall i, j | 0 <= i < j < |r| ensures HostRank(r[i]) <= HostRank(r[j]) {
          if j < |d| {
            assert r[i] == d[i] && r[j] == d[j];
          } else {
            assert r[i] == d[i] && r[j] == last;
          }
        }
      }
    }
  }

  /**
   * The list is duplicate-free, every entry names an Excel, Word or
   * PowerPoint API, and the Excel entries come first, then Word, then
   * PowerPoint.
   */
  lemma UsedApisShape(code: string)
    ensures var apis := ExtractUsedApis(code);
      && Str.NoDup(apis)
      && (forall x :: 0 <= x < |apis| ==>
            Str.StartsWith(apis[x], ExcelPrefix) || Str.StartsWith(apis[x], WordPrefix) || Str.StartsWith(apis[x], PowerPointPrefix))
      && (forall i, j :: 0 <= i < j < |apis| ==> HostRank(apis[i]) <= HostRank(apis[j]))
  {
    var e := MatchesFrom(code, ExcelPrefix, 0);
    var w := MatchesFrom(code, WordPrefix, 0);
    var p := MatchesFrom(code, PowerPointPrefix, 0);
    var all := e + w + p;
    forall x | 0 <= x < |w| ensures HostRank(w[x]) == 1 {
      assert w[x][0] == 'W';
    }
    forall x | 0 <= x < |p| ensures HostRank(p[x]) == 2 {
      assert p[x][0] == 'P';
    }
    assert forall i, j :: 0 <= i < j < |all| ==> HostRank(all[i]) <= HostRank(all[j]);
    Str.DistinctMembers(all);
    DistinctKeepsRank(all);
    forall x | 0 <= x < |ExtractUsedApis(code)|
      ensures var a := ExtractUsedApis(code)[x];
        Str.StartsWith(a, ExcelPrefix) || Str.StartsWith(a, WordPrefix) || Str.StartsWith(a, PowerPointPrefix)
    {
      var a := ExtractUsedApis(code)[x];
      assert a in all;
      var k :| 0 <= k < |all| && all[k] == a;
    }
  }

  /** The API line's text: the list joined with `", "`, or 无法识别 when empty. */
  function ApiListText(apis: seq<string>): string
  {
    if |apis| > 0 then Str.Join(apis, ", ") else "无法识别"
  }

  // ---------------------------------------------------------------------------
  // Feedback text
  // ---------------------------------------------------------------------------

  const CodeLabel := "\n- **错误代码**: "

  /** The optional error-code line; `error.code` is truthy when present and non-empty. */
  function CodePart(e: CodeExecutor.ExecutionError): (r: string)
    ensures r != "" <==> e.code.Some? && e.code.value != ""
  {
    if e.code.Some? && e.code.value != "" then CodeLabel + e.code.value else ""
  }

  /** The optional stack block. */
  function StackPart(e: CodeExecutor.ExecutionError): (r: string)
    ensures r != "" <==> e.stackTrace.Some? && e.stackTrace.value != ""
  {
    if e.stackTrace.Some? && e.stackTrace.value != "" then "\n- **堆栈信息**: \n```\n" + e.stackTrace.value + "\n```" else ""
  }

  function Attempt(retryCount: nat, maxRetries: nat): string
  {
    Str.NatToString(retryCount) + "/" + Str.NatToString(maxRetries)
  }

  function Header(attempt: string, etype: string, message: string): string
  {
    "⚠️ 代码执行失败（第 " + attempt + " 次尝试），请修正并重新生成代码：\n\n## 错误信息\n\n- **错误类型**: "
    + etype + "\n- **错误消息**: " + message
  }

  function Environment(trimmedCode: string, version: string, platform: string, apis: string): string
  {
    "\n\n## 失败的代码\n\n```javascript\n" + trimmedCode + "\n```\n\n## Office 运行环境\n\n- **Office 版本**: "
    + version + "\n- **平台**: " + platform + "\n- **使用的 API**: " + apis + "\n\n"
  }

  const Requirements :=
    "\n\n## 修正要求\n\n请**立即**生成修正后的完整代码（使用 HTML 注释包裹）：\n\n"
    + "1. 分析上述错误类型和消息，确定根本原因\n"
    + "2. 参考修复建议，应用相应的解决方案\n"
    + "3. 添加必要的错误检查和验证（如 getItemOrNullObject、isSetSupported）\n"
    + "4. 生成完整的可执行代码，不要只说明问题\n"
    + "5. 确保代码包含适当的 try-catch 错误处理\n\n"
    + "**重要**: 直接输出修正后的代码，格式如下：\n\n```\n<!--OFFICE-CODE:excel\n// 修正后的代码\n-->\n```\n"

  /** The feedback as five consecutive parts. */
  function FeedbackParts(header: string, codePart: string, stackPart: string, env: string, hint: string): string
  {
    header + codePart + stackPart + env + hint + Requirements
  }

  /**
   * `buildErrorFeedback`. The Office version and the platform come from
   * the host environment and are parameters.
   */
  function BuildErrorFeedback(e: CodeExecutor.ExecutionError, code: string, retryCount: nat, maxRetries: nat,
                              version: string, platform: string): string
  {
    FeedbackWith(e, code, retryCount, maxRetries, version, platform, ErrorPatterns.GetFixHint(CodeExecutor.TypeName(e.etype)))
  }

  /** The feedback around a given fix hint. */
  function FeedbackWith(e: CodeExecutor.ExecutionError, code: string, retryCount: nat, maxRetries: nat,
                        version: string, platform: string, hint: string): string
  {
    FeedbackParts(
      Header(Attempt(retryCount, maxRetries), CodeExecutor.TypeName(e.etype), e.message),
      CodePart(e), StackPart(e),
      Environment(Str.Trim(code), version, platform, ApiListText(ExtractUsedApis(code))),
      hint)
  }

  /** Each of the five parts occurs in the joined text. */
  lemma PartsContain(header: string, codePart: string, stackPart: string, env: string, hint: string)
    ensures var t := FeedbackParts(header, codePart, stackPart, env, hint);
      && Str.Contains(t, header) && Str.Contains(t, codePart) && Str.Contains(t, stackPart)
      && Str.Contains(t, env) && Str.Contains(t, hint)
  {
    var t1 := header + codePart;
    var t2 := t1 + stackPart;
    var t3 := t2 + env;
    var t4 := t3 + hint;
    Str.ContainsSelf(header);
    Str.ContainsSelf(codePart);
    Str.ContainsSelf(stackPart);
    Str.ContainsSelf(env);
    Str.ContainsSelf(hint);
    Str.ContainsInPrefix(header, codePart, header);
    Str.ContainsInPrefix(codePart, header, codePart);
    Grow(t1, stackPart, header);
    Grow(t1, stackPart, codePart);
    Str.ContainsInPrefix(stackPart, t1, stackPart);
    Grow(t2, env, header);
    Grow(t2, env, codePart);
    Grow(t2, env, stackPart);
    Str.ContainsInPrefix(env, t2, env);
    Grow(t3, hint, header);
    Grow(t3, hint, codePart);
    Grow(t3, hint, stackPart);
    Grow(t3, hint, env);
    Str.ContainsInPrefix(hint, t3, hint);
    Grow(t4, Requirements, header);
    Grow(t4, Requirements, codePart);
    Grow(t4, Requirements, stackPart);
    Grow(t4, Requirements, env);
    Grow(t4, Requirements, hint);
  }

  lemma Grow(s: string, t: string, sub: string)
    requires Str.Contains(s, sub)
    ensures Str.Contains(s + t, sub)
  {
    Str.ContainsInPrefix(s, t, sub);
  }

  /** Contents found in one part occur in the whole text. */
  lemma InPart(t: string, part: string, sub: string)
    requires Str.Contains(t, part) && Str.Contains(part, sub)
    ensures Str.Contains(t, sub)
  {
    Str.ContainsTransitive(t, part, sub);
  }

  /**
   * The feedback names the attempt as `retryCount/maxRetries`, carries the
   * error's type and message, embeds the trimmed code, the API list and
   * the fix hint of the error's type verbatim, and carries the code line
   * and the stack block exactly when the error has them.
   */
  lemma FeedbackContents(e: CodeExecutor.ExecutionError, code: string, retryCount: nat, maxRetries: nat,
                         version: string, platform: string)
    ensures e.code.Some? && e.code.value != "" ==>
      Str.Contains(BuildErrorFeedback(e, code, retryCount, maxRetries, version, platform), CodeLabel + e.code.value)
    ensures e.stackTrace.Some? && e.stackTrace.value != "" ==>
      Str.Contains(BuildErrorFeedback(e, code, retryCount, maxRetries, version, platform), e.stackTrace.value)
    ensures var t := BuildErrorFeedback(e, code, retryCount, maxRetries, version, platform);
      && Str.Contains(t, Attempt(retryCount, maxRetries))
      && Str.Contains(t, e.message)
      && Str.Contains(t, Str.Trim(code))
      && Str.Contains(t, ApiListText(ExtractUsedApis(code)))
      && Str.Contains(t, ErrorPatterns.GetFixHint(CodeExecutor.TypeName(e.etype)))
  {
    FeedbackWithContents(e, code, retryCount, maxRetries, version, platform, ErrorPatterns.GetFixHint(CodeExecutor.TypeName(e.etype)));
  }

  lemma FeedbackWithContents(e: CodeExecutor.ExecutionError, code: string, retryCount: nat, maxRetries: nat,
                             version: string, platform: string, hint: string)
    ensures e.code.Some? && e.code.value != "" ==>
      Str.Contains(FeedbackWith(e, code, retryCount, maxRetries, version, platform, hint), CodeLabel + e.code.value)
    ensures e.stackTrace.Some? && e.stackTrace.value != "" ==>
      Str.Contains(FeedbackWith(e, code, retryCount, maxRetries, version, platform, hint), e.stackTrace.value)
    ensures var t := FeedbackWith(e, code, retryCount, maxRetries, version, platform, hint);
      && Str.Contains(t, Attempt(retryCount, maxRetries))
      && Str.Contains(t, e.message)
      && Str.Contains(t, Str.Trim(code))
      && Str.Contains(t, ApiListText(ExtractUsedApis(code)))
      && Str.Contains(t, hint)
  {
    var attempt := Attempt(retryCount, maxRetries);
    var apis := ApiListText(ExtractUsedApis(code));
    var header := Header(attempt, CodeExecutor.TypeName(e.etype), e.message);
    var env := Environment(Str.Trim(code), version, platform, apis);
    PartsContain(header, CodePart(e), StackPart(e), env, hint);
    HeaderContents(attempt, CodeExecutor.TypeName(e.etype), e.message);
    EnvContents(Str.Trim(code), version, platform, apis);
    var t := FeedbackWith(e, code, retryCount, maxRetries, version, platform, hint);
    InPart(t, header, attempt);
    InPart(t, header, e.message);
    InPart(t, env, Str.Trim(code));
    InPart(t, env, apis);
    if e.code.Some? && e.code.value != "" {
      Str.ContainsSelf(CodePart(e));
    }
    if e.stackTrace.Some? && e.stackTrace.value != "" {
      StackContents(e.stackTrace.value);
      InPart(t, StackPart(e), e.stackTrace.value);
    }
  }

  lemma StackContents(st: string)
    ensures Str.Contains("\n- **堆栈信息**: \n```\n" + st + "\n```", st)
  {
    var a := "\n- **堆栈信息**: \n```\n";
    var t := a + st + "\n```";
    assert t[|a|..|a| + |st|] == st;
    Str.ContainsAt(t, st, |a|);
  }

  lemma HeaderContents(attempt: string, etype: string, message: string)
    ensures Str.Contains(Header(attempt, etype, message), attempt)
    ensures Str.Contains(Header(attempt, etype, message), message)
  {
    var a := "⚠️ 代码执行失败（第 ";
    var b := " 次尝试），请修正并重新生成代码：\n\n## 错误信息\n\n- **错误类型**: ";
    var c := "\n- **错误消息**: ";
    var h := Header(attempt, etype, message);
    assert h == a + attempt + b + etype + c + message;
    assert h[|a|..|a| + |attempt|] == attempt;
    Str.ContainsAt(h, attempt, |a|);
    assert h[|h| - |message|..] == message;
    Str.ContainsAt(h, message, |h| - |message|);
  }

  lemma EnvContents(trimmedCode: string, version: string, platform: string, apis: string)
    ensures Str.Contains(Environment(trimmedCode, version, platform, apis), trimmedCode)
    ensures Str.Contains(Environment(trimmedCode, version, platform, apis), apis)
  {
    var a := "\n\n## 失败的代码\n\n```javascript\n";
    var b := "\n```\n\n## Office 运行环境\n\n- **Office 版本**: ";
    var c := "\n- **平台**: ";
    var d := "\n- **使用的 API**: ";
    var env := Environment(trimmedCode, version, platform, apis);
    assert env == a + trimmedCode + b + version + c + platform + d + apis + "\n\n";
    assert env[|a|..|a| + |trimmedCode|] == trimmedCode;
    Str.ContainsAt(env, trimmedCode, |a|);
    var at := |env| - 2 - |apis|;
    assert env[at..at + |apis|] == apis;
    Str.ContainsAt(env, apis, at);
  }

  // ---------------------------------------------------------------------------
  // Final message
  // ---------------------------------------------------------------------------

  const FinalHead := "❌ 操作失败：已尝试 "
  const FinalMid := " 次，仍然无法成功执行。\n\n**最后的错误**: "
  const FinalTail :=
    "\n\n**建议**:\n- 检查文档是否处于正确状态（如工作表是否存在）\n- 确认 Office 应用版本是否支持使用的 API\n"
    + "- 尝试简化操作或分步执行\n- 查看详细的错误信息和代码\n\n如需帮助，请提供更多上下文信息。"

  /** `buildFinalErrorMessage`; the failed code is not part of it. */
  function BuildFinalErrorMessage(e: CodeExecutor.ExecutionError, retryCount: nat): string
  {
    FinalHead + Str.NatToString(retryCount) + FinalMid + e.message + FinalTail
  }

  /** The final message names the number of attempts and the last error's message. */
  lemma FinalMessageContents(e: CodeExecutor.ExecutionError, retryCount: nat)
    ensures Str.Contains(BuildFinalErrorMessage(e, retryCount), Str.NatToString(retryCount))
    ensures Str.Contains(BuildFinalErrorMessage(e, retryCount), e.message)
  {
    FinalSlots(FinalHead, Str.NatToString(retryCount), FinalMid, e.message, FinalTail);
  }

  lemma FinalSlots(a: string, n: string, b: string, m: string, c: string)
    ensures Str.Contains(a + n + b + m + c, n) && Str.Contains(a + n + b + m + c, m)
  {
    var t := a + n + b + m + c;
    assert t[|a|..|a| + |n|] == n;
    Str.ContainsAt(t, n, |a|);
    assert t[|a| + |n| + |b|..|a| + |n| + |b| + |m|] == m;
    Str.ContainsAt(t, m, |a| + |n| + |b|);
  }
}
