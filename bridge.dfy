/**
 * The server side of the execution bridge: the correlation store shared by
 * the `execute_code` tool and the domain tools, its five-minute sweep, the
 * complexity gate in front of it, the browser's pull and push of tasks and
 * results, and the text each waiting call answers with.
 *
 * The event-emitter wait is two explicit steps: `ResultArrives` (the
 * listener for the id receives an emitted result) and `TimeoutFires` (the
 * 300000 ms timer wins).
 */
module Bridge {
  import opened Wrappers
  import Str
  import Json
  import Complexity
  import ErrorPatterns
  import CodeExecutor

  type Host = CodeExecutor.Host

  datatype Status = Pending | Executing | Completed | Failed

  /** `PendingExecution` */
  datatype PendingExecution = PendingExecution(
    host: Host,
    code: string,
    description: Option<string>,
    status: Status,
    timestamp: int)

  /** The `error` part of an `ExecutionResult`. */
  datatype ResultError = ResultError(etype: string, code: Option<string>, message: string, stackTrace: Option<string>)

  /** `ExecutionResult`; `data` is absent when the script returned `undefined`. */
  datatype ExecutionResult = ExecutionResult(
    success: bool,
    data: Option<Json.Json>,
    error: Option<ResultError>,
    timestamp: int)

  /** The payload of a `new-task` event. */
  datatype Task = Task(correlationId: string, host: Host, code: string, description: Option<string>)

  /** An event on the execution bus, named by the correlation id. */
  datatype ResultEvent = ResultEvent(correlationId: string, result: ExecutionResult)

  /** Which entry point started the call: the generic tool or a domain tool through the shared executor. */
  datatype Caller = ExecuteCodeTool | DomainTool

  /** A call awaiting its result: what it needs to compose its answer. */
  datatype Waiter = Waiter(
    startTime: int,
    code: string,
    description: Option<string>,
    gate: Complexity.ComplexityCheck,
    caller: Caller,
    heard: nat)

  /**
   * The event a call's `once` listener receives: the first result event for
   * its id among those emitted since it subscribed, at position `from`.
   */
  predicate FirstHeard(events: seq<ResultEvent>, id: string, from: nat, k: nat)
  {
    from <= k < |events| && events[k].correlationId == id
    && forall j :: from <= j < k ==> events[j].correlationId != id
  }

  /** A `once` listener hears one event at most: the first one for its id. */
  lemma FirstHeardUnique(events: seq<ResultEvent>, id: string, from: nat, k1: nat, k2: nat)
    requires FirstHeard(events, id, from, k1) && FirstHeard(events, id, from, k2)
    ensures k1 == k2
  {
  }

  /** An event emitted before the listener subscribed is never heard. */
  lemma EarlierEventUnheard(events: seq<ResultEvent>, id: string, from: nat, k: nat)
    requires k < from
    ensures !FirstHeard(events, id, from, k)
  {
  }

  datatype Dispatch = Blocked(gate: Complexity.ComplexityCheck) | Enqueued(correlationId: string)

  const ExpireTime := 5 * 60 * 1000
  const MaxWait := 60000 * 5

  predicate Expired(timestamp: int, now: int)
  {
    now - timestamp > ExpireTime
  }

  // ---------------------------------------------------------------------------
  // The store as values
  // ---------------------------------------------------------------------------

  /** The pending entries the sweep keeps. */
  function SweptPending(p: map<string, PendingExecution>, now: int): (r: map<string, PendingExecution>)
    ensures forall k :: k in r <==> k in p && !Expired(p[k].timestamp, now)
    ensures forall k :: k in r ==> r[k] == p[k]
  {
    map k | k in p && !Expired(p[k].timestamp, now) :: p[k]
  }

  /** The results the sweep keeps. */
  function SweptResults(m: map<string, ExecutionResult>, now: int): (r: map<string, ExecutionResult>)
    ensures forall k :: k in r <==> k in m && !Expired(m[k].timestamp, now)
    ensures forall k :: k in r ==> r[k] == m[k]
  {
    map k | k in m && !Expired(m[k].timestamp, now) :: m[k]
  }

  /** The insertion order of the entries the sweep keeps. */
  function KeepFresh(order: seq<string>, p: map<string, PendingExecution>, now: int): seq<string>
  {
    if |order| == 0 then []
    else
      var k := order[|order| - 1];
      KeepFresh(order[..|order| - 1], p, now) + (if k in p && !Expired(p[k].timestamp, now) then [k] else [])
  }

  lemma KeepFreshStep(order: seq<string>, p: map<string, PendingExecution>, now: int, i: nat)
    requires i < |order|
    ensures KeepFresh(order[..i + 1], p, now)
         == KeepFresh(order[..i], p, now) + (if order[i] in p && !Expired(p[order[i]].timestamp, now) then [order[i]] else [])
  {
    assert order[..i + 1][..i] == order[..i];
  }

  /** The loop over a snapshot of the order, dropping the expired pending executions. */
  method SweepOrder(snapshot: seq<string>, p0: map<string, PendingExecution>, now: int)
    returns (kept: seq<string>, p: map<string, PendingExecution>)
    requires Str.NoDup(snapshot) && forall k :: k in snapshot <==> k in p0
    ensures kept == KeepFresh(snapshot, p0, now)
    ensures p == SweptPending(p0, now)
  {
    p := p0;
    kept := [];
    var i := 0;
    while i < |snapshot|
      invariant 0 <= i <= |snapshot|
      invariant kept == KeepFresh(snapshot[..i], p0, now)
      invariant forall k :: k in p <==> k in p0 && (k in snapshot[..i] ==> !Expired(p0[k].timestamp, now))
      invariant forall k :: k in p ==> p[k] == p0[k]
    {
      var k := snapshot[i];
      Str.NoDupStep(snapshot, i);
      KeepFreshStep(snapshot, p0, now, i);
      if Expired(p0[k].timestamp, now) {
        p := p - {k};
      } else {
        kept := kept + [k];
      }
      i := i + 1;
    }
    assert snapshot[..i] == snapshot;
    SweptEqual(p, p0, now);
  }

  lemma SweptEqual(p: map<string, PendingExecution>, p0: map<string, PendingExecution>, now: int)
    requires forall k :: k in p <==> k in p0 && !Expired(p0[k].timestamp, now)
    requires forall k :: k in p ==> p[k] == p0[k]
    ensures p == SweptPending(p0, now)
  {
  }

  lemma {:induction false} KeepFreshMembers(order: seq<string>, p: map<string, PendingExecution>, now: int)
    requires Str.NoDup(order)
    ensures Str.NoDup(KeepFresh(order, p, now))
    ensures forall k :: k in KeepFresh(order, p, now) <==> k in order && k in p && !Expired(p[k].timestamp, now)
  {
    if |order| > 0 {
      var front := order[..|order| - 1];
      assert Str.NoDup(front);
      KeepFreshMembers(front, p, now);
      assert order == front + [order[|order| - 1]];
    }
  }

  /** The order after `delete(id)`. */
  function Without(order: seq<string>, id: string): seq<string>
  {
    if |order| == 0 then []
    else (if order[0] == id then [] else [order[0]]) + Without(order[1..], id)
  }

  lemma {:induction false} WithoutMembers(order: seq<string>, id: string)
    requires Str.NoDup(order)
    ensures Str.NoDup(Without(order, id))
    ensures forall k :: k in Without(order, id) <==> k in order && k != id
  {
    if |order| > 0 {
      WithoutMembers(order[1..], id);
      var rest := Without(order[1..], id);
      if order[0] != id {
        assert order[0] !in order[1..];
        assert Without(order, id) == [order[0]] + rest;
      }
    }
  }

  /** The order after `set(id, …)`: a new key goes last, an existing key keeps its place. */
  function Enlist(order: seq<string>, id: string): seq<string>
  {
    if id in order then order else order + [id]
  }

  /** The order stays free of duplicates and names exactly the pending keys when a key is set. */
  lemma EnlistKeeps(order: seq<string>, p: map<string, PendingExecution>, id: string, e: PendingExecution)
    requires Str.NoDup(order) && forall k :: k in order <==> k in p
    ensures Str.NoDup(Enlist(order, id))
    ensures forall k :: k in Enlist(order, id) <==> k in p[id := e]
  {
  }

  /** The same after the sweep. */
  lemma SweepKeeps(order: seq<string>, p: map<string, PendingExecution>, now: int)
    requires Str.NoDup(order) && forall k :: k in order <==> k in p
    ensures Str.NoDup(KeepFresh(order, p, now))
    ensures forall k :: k in KeepFresh(order, p, now) <==> k in SweptPending(p, now)
  {
    KeepFreshMembers(order, p, now);
  }

  predicate PendingAt(order: seq<string>, p: map<string, PendingExecution>, j: nat)
    requires j < |order|
  {
    order[j] in p && p[order[j]].status == Pending
  }

  /** The position of the first pending entry at or after `i`, in insertion order. */
  function FirstPendingFrom(order: seq<string>, p: map<string, PendingExecution>, i: nat): (r: Option<nat>)
    requires i <= |order|
    ensures r.Some? ==> i <= r.value < |order| && PendingAt(order, p, r.value)
    ensures r.Some? ==> forall j :: i <= j < r.value ==> !PendingAt(order, p, j)
    ensures r.None? ==> forall j :: i <= j < |order| ==> !PendingAt(order, p, j)
    decreases |order| - i
  {
    if i == |order| then None
    else if PendingAt(order, p, i) then Some(i)
    else FirstPendingFrom(order, p, i + 1)
  }

  /** The pending entries, in insertion order, with their ids. */
  function PendingEntries(order: seq<string>, p: map<string, PendingExecution>): (r: seq<(string, PendingExecution)>)
    ensures forall x :: 0 <= x < |r| ==> r[x].0 in order && r[x].0 in p && p[r[x].0] == r[x].1 && r[x].1.status == Pending
  {
    if |order| == 0 then []
    else
      var k := order[|order| - 1];
      PendingEntries(order[..|order| - 1], p) + (if k in p && p[k].status == Pending then [(k, p[k])] else [])
  }

  /** Every pending entry is listed. */
  lemma {:induction false} PendingEntriesComplete(order: seq<string>, p: map<string, PendingExecution>, k: string)
    requires k in order && k in p && p[k].status == Pending
    ensures (k, p[k]) in PendingEntries(order, p)
  {
    var front := order[..|order| - 1];
    if order[|order| - 1] != k {
      assert order == front + [order[|order| - 1]];
      assert k in front;
      PendingEntriesComplete(front, p, k);
    }
  }

  // ---------------------------------------------------------------------------
  // Answers
  // ---------------------------------------------------------------------------

  const BlockHead := "❌ 代码复杂度过高，已阻止执行\n\n"

  function BlockedText(gate: Complexity.ComplexityCheck): string
    requires gate.WellFormed()
  {
    BlockHead + Complexity.FormatComplexityWarning(gate)
  }

  const TimeoutLines: seq<string> := [
    "⏱️ 代码执行超时（60秒）",
    "",
    "可能的原因：",
    "- Office 应用未正确加载",
    "- 前端与服务端连接中断",
    "- 代码执行时间过长",
    "",
    "建议：",
    "- 检查 Office 应用是否正常运行",
    "- 刷新页面后重试",
    "- 如果代码复杂，考虑拆分为多个步骤"]

  function TimeoutText(): string
  {
    Str.Join(TimeoutLines, "\n")
  }

  /** What a success says about the returned data. */
  datatype DataNote = ShowData(data: Json.Json) | ReadTaskWarning | NoDataHint

  /** `/读取|获取|查看/.test((description ?? '').trim())` */
  predicate IsReadTask(description: Option<string>)
  {
    var d := Str.Trim(description.GetOr(""));
    Str.Contains(d, "读取") || Str.Contains(d, "获取") || Str.Contains(d, "查看")
  }

  function DataNoteOf(data: Option<Json.Json>, description: Option<string>): DataNote
  {
    if data.Some? && Json.Truthy(data.value) then ShowData(data.value)
    else if IsReadTask(description) then ReadTaskWarning
    else NoDataHint
  }

  function DataNoteText(n: DataNote): string
  {
    match n
    case ShowData(d) => "\n\n返回数据: " + Json.PrettyPrint(d)
    case ReadTaskWarning =>
      "\n\n⚠️ 当前为读取类操作，但未返回数据。请确保代码在 `context.sync()` 之后 **return** 读取结果（例如 `return range.values` 或 `return { values: range.values }`），然后重新调用工具。"
    case NoDataHint =>
      "\n\n💡 本次执行未返回数据。若需将读取到的内容回传给 AI，请在生成的代码中在 `context.sync()` 之后 **return** 数据（例如 `return range.values` 或 `return { values: range.values }`）。"
  }

  function Take(s: seq<string>, n: nat): (r: seq<string>)
    ensures |r| == if |s| <= n then |s| else n
    ensures r == s[..|r|]
  {
    if |s| <= n then s else s[..n]
  }

  const MaxTips := 3

  /** The numbered suggestions a successful answer repeats: at most the first three. */
  function Tips(gate: Complexity.ComplexityCheck): (r: seq<string>)
    requires gate.WellFormed()
  {
    Str.Numbered(Take(gate.SuggestionTexts(), MaxTips), 1)
  }

  /** The advice appended to a success after a warning, line by line. */
  function AdviceLines(gate: Complexity.ComplexityCheck): seq<string>
    requires gate.WellFormed()
  {
    ["", "---", "", "## 💡 优化建议", "", "虽然执行成功，但检测到以下可优化点：", ""]
    + Str.BlockLines(Str.Prefixed("- ", gate.IssueTexts()))
    + ["", "下次执行类似任务时，建议："]
    + Str.BlockLines(Tips(gate))
  }

  const SuccessHead := "✅ 代码执行成功！"

  function SuccessLines(data: Option<Json.Json>, description: Option<string>, gate: Complexity.ComplexityCheck): seq<string>
    requires gate.WellFormed()
  {
    [SuccessHead + DataNoteText(DataNoteOf(data, description))] + (if gate.shouldWarn then AdviceLines(gate) else [])
  }

  /** `result.error?.type || 'UnknownError'` */
  function ErrorTypeOf(r: ExecutionResult): string
  {
    if r.error.Some? && r.error.value.etype != "" then r.error.value.etype else "UnknownError"
  }

  /** `result.error?.message || '未知错误'` */
  function ErrorMessageOf(r: ExecutionResult): string
  {
    if r.error.Some? && r.error.value.message != "" then r.error.value.message else "未知错误"
  }

  function CodeLine(r: ExecutionResult): string
  {
    if r.error.Some? && r.error.value.code.Some? && r.error.value.code.value != ""
    then "- **错误代码**: " + r.error.value.code.value
    else ""
  }

  function StackPart(r: ExecutionResult): string
  {
    if r.error.Some? && r.error.value.stackTrace.Some? && r.error.value.stackTrace.value != ""
    then "\n**堆栈信息**:\n```\n" + r.error.value.stackTrace.value + "\n```"
    else ""
  }

  function RequestLine(caller: Caller): string
  {
    match caller
    case ExecuteCodeTool => "请分析上述错误，修正代码后重新调用 `mcp__office__execute_code` 工具提交修正版本。"
    case DomainTool => "请分析上述错误，修正代码后重新调用相应的工具提交修正版本。"
  }

  const FailureHead := "❌ 代码执行失败"
  const TypeLabel := "- **错误类型**: "
  const MessageLabel := "- **错误消息**: "

  const KeyRequirements: seq<string> := [
    "关键要求：",
    "1. 分析错误类型和消息，确定根本原因",
    "2. 参考修复建议应用相应的解决方案",
    "3. 添加必要的错误检查（如 getItemOrNullObject、isNullObject 检查）",
    "4. 确保使用正确的 API 参数和枚举值"]

  /** The failure answer, line by line. */
  function FailureLines(r: ExecutionResult, code: string, caller: Caller): seq<string>
  {
    FailureTemplate(ErrorTypeOf(r), ErrorMessageOf(r), CodeLine(r), StackPart(r), code,
      ErrorPatterns.GetFixHint(ErrorTypeOf(r)), RequestLine(caller))
  }

  /** The failure template with its slots filled in. */
  function FailureTemplate(etype: string, message: string, codeLine: string, stack: string,
                           code: string, hint: string, request: string): seq<string>
  {
    [FailureHead, "", "## 错误信息", "",
     TypeLabel + etype,
     MessageLabel + message,
     codeLine,
     stack,
     "", "## 失败的代码", "", "```javascript", code, "```", "",
     hint,
     "", "## 请求", "", request, ""]
    + KeyRequirements
  }

  /** What an awaited call answers with. */
  datatype Answer =
    | BlockedAnswer(gate: Complexity.ComplexityCheck)
    | SuccessAnswer(data: Option<Json.Json>, description: Option<string>, gate: Complexity.ComplexityCheck)
    | FailureAnswer(result: ExecutionResult, code: string, caller: Caller)
    | TimeoutAnswer
  {
    predicate WellFormed()
    {
      (BlockedAnswer? || SuccessAnswer?) ==> gate.WellFormed()
    }
  }

  function AnswerText(a: Answer): string
    requires a.WellFormed()
  {
    match a
    case BlockedAnswer(gate) => BlockedText(gate)
    case SuccessAnswer(data, description, gate) => Str.Join(SuccessLines(data, description, gate), "\n")
    case FailureAnswer(r, code, caller) => Str.Join(FailureLines(r, code, caller), "\n")
    case TimeoutAnswer => TimeoutText()
  }

  /**
   * Each kind of answer opens with its own heading: the complexity block,
   * the success line with its data note, the failure banner, or the
   * timeout banner.
   */
  lemma AnswerTextHeads(a: Answer)
    requires a.WellFormed()
    ensures a.BlockedAnswer? ==> Str.StartsWith(AnswerText(a), BlockHead + Complexity.WarningHead[0])
    ensures a.SuccessAnswer? ==>
      Str.StartsWith(AnswerText(a), SuccessHead + DataNoteText(DataNoteOf(a.data, a.description)))
    ensures a.FailureAnswer? ==> Str.StartsWith(AnswerText(a), FailureHead)
    ensures a.TimeoutAnswer? ==> Str.StartsWith(AnswerText(a), TimeoutLines[0])
  {
    match a
    case BlockedAnswer(gate) => BlockedHead(gate);
    case SuccessAnswer(data, description, gate) =>
      Str.JoinStartsWithFirst(SuccessLines(data, description, gate), "\n");
    case FailureAnswer(r, code, caller) => FailureOpens(r, code, caller);
    case TimeoutAnswer => Str.JoinStartsWithFirst(TimeoutLines, "\n");
  }

  lemma BlockedHead(gate: Complexity.ComplexityCheck)
    requires gate.WellFormed()
    ensures Str.StartsWith(BlockedText(gate), BlockHead + Complexity.WarningHead[0])
  {
    var lines := Complexity.WarningLines(gate);
    Str.JoinStartsWithFirst(lines, "\n");
    var w := Complexity.FormatComplexityWarning(gate);
    var h := Complexity.WarningHead[0];
    assert w[..|h|] == h;
    assert (BlockHead + w)[..|BlockHead + h|] == BlockHead + w[..|h|];
  }

  lemma FailureOpens(r: ExecutionResult, code: string, caller: Caller)
    ensures Str.StartsWith(Str.Join(FailureLines(r, code, caller), "\n"), FailureHead)
  {
    Str.JoinStartsWithFirst(FailureLines(r, code, caller), "\n");
  }

  /** The answer to a call whose result arrived. */
  function Outcome(w: Waiter, r: ExecutionResult): (a: Answer)
    requires w.gate.WellFormed()
    ensures a.WellFormed()
  {
    if r.success then SuccessAnswer(r.data, w.description, w.gate)
    else FailureAnswer(r, w.code, w.caller)
  }

  // ---------------------------------------------------------------------------
  // Facts about the answers
  // ---------------------------------------------------------------------------

  /**
   * A failure names the error type, falling back to `UnknownError`, embeds
   * the fix hint of exactly that type, and repeats the failed code.
   */
  lemma FailureTextContents(r: ExecutionResult, code: string, caller: Caller)
    ensures var text := Str.Join(FailureLines(r, code, caller), "\n");
      && Str.Contains(text, TypeLabel + ErrorTypeOf(r))
      && Str.Contains(text, ErrorPatterns.GetFixHint(ErrorTypeOf(r)))
      && Str.Contains(text, code)
      && Str.Contains(text, RequestLine(caller))
  {
    FailureTemplateContents(ErrorTypeOf(r), ErrorMessageOf(r), CodeLine(r), StackPart(r), code,
      ErrorPatterns.GetFixHint(ErrorTypeOf(r)), RequestLine(caller));
  }

  lemma FailureTemplateContents(etype: string, message: string, codeLine: string, stack: string,
                                code: string, hint: string, request: string)
    ensures var text := Str.Join(FailureTemplate(etype, message, codeLine, stack, code, hint, request), "\n");
      && Str.Contains(text, TypeLabel + etype)
      && Str.Contains(text, hint)
      && Str.Contains(text, code)
      && Str.Contains(text, request)
  {
    var lines := FailureTemplate(etype, message, codeLine, stack, code, hint, request);
    Str.JoinContainsPart(lines, "\n", 4);
    Str.JoinContainsPart(lines, "\n", 12);
    Str.JoinContainsPart(lines, "\n", 15);
    Str.JoinContainsPart(lines, "\n", 19);
  }

  /** The type falls back to `UnknownError` exactly when the error or its type is missing. */
  lemma ErrorTypeFallback(r: ExecutionResult)
    ensures ErrorTypeOf(r) != ""
    ensures r.error.Some? && r.error.value.etype != "" ==> ErrorTypeOf(r) == r.error.value.etype
    ensures (r.error.None? || r.error.value.etype == "") ==> ErrorTypeOf(r) == "UnknownError"
  {
  }

  /** A success without data warns about a read task exactly when the description mentions reading. */
  lemma ReadTaskWarningIff(data: Option<Json.Json>, description: Option<string>)
    ensures DataNoteOf(data, description) == ReadTaskWarning <==>
      !(data.Some? && Json.Truthy(data.value)) && IsReadTask(description)
    ensures DataNoteOf(data, description) == NoDataHint <==>
      !(data.Some? && Json.Truthy(data.value)) && !IsReadTask(description)
    ensures DataNoteOf(data, description).ShowData? <==> data.Some? && Json.Truthy(data.value)
  {
  }

  /**
   * The advice repeats at most the first three suggestions, numbered from 1,
   * as its last lines.
   */
  lemma AdviceTips(gate: Complexity.ComplexityCheck)
    requires gate.WellFormed()
    ensures var tips := Tips(gate);
      var s := gate.SuggestionTexts();
      && |tips| <= MaxTips
      && |tips| == (if |s| <= MaxTips then |s| else MaxTips)
      && (forall x :: 0 <= x < |tips| ==> tips[x] == Str.NatToString(x + 1) + ". " + s[x])
      && (|tips| > 0 ==> AdviceLines(gate)[|AdviceLines(gate)| - |tips|..] == tips)
  {
    var tips := Tips(gate);
    var s := gate.SuggestionTexts();
    var t := Take(s, MaxTips);
    assert forall x :: 0 <= x < |t| ==> t[x] == s[x];
  }

  /** A success after a warning carries the advice; without a warning it is one block. */
  lemma SuccessAdvice(data: Option<Json.Json>, description: Option<string>, gate: Complexity.ComplexityCheck)
    requires gate.WellFormed()
    ensures var lines := SuccessLines(data, description, gate);
      && lines[0] == SuccessHead + DataNoteText(DataNoteOf(data, description))
      && (gate.shouldWarn ==> lines[1..] == AdviceLines(gate))
      && (!gate.shouldWarn ==> |lines| == 1)
  {
  }

  // ---------------------------------------------------------------------------
  // The store
  // ---------------------------------------------------------------------------

  /**
   * `pendingExecutions`, `executionResults`, the two event buses and the
   * calls waiting on them. `order` is the insertion order of the pending
   * map, which its iteration follows.
   */
  class BridgeStore {
    var order: seq<string>
    var pending: map<string, PendingExecution>
    var results: map<string, ExecutionResult>
    var resultEvents: seq<ResultEvent>
    var taskEvents: seq<Task>
    var taskListeners: seq<nat>
    var waiting: map<string, Waiter>

    ghost predicate Valid()
      reads this
    {
      && Str.NoDup(order)
      && (forall k :: k in order <==> k in pending)
      && (forall k :: k in waiting ==> waiting[k].gate.WellFormed())
    }

    constructor ()
      ensures Valid()
      ensures order == [] && pending == map[] && results == map[]
      ensures resultEvents == [] && taskEvents == [] && taskListeners == [] && waiting == map[]
    {
      order := [];
      pending := map[];
      results := map[];
      resultEvents := [];
      taskEvents := [];
      taskListeners := [];
      waiting := map[];
    }

    /**
     * `cleanupExpired`: every pending entry and every result older than
     * five minutes goes, whatever its status; nothing else changes.
     */
    method CleanupExpired(now: int)
      requires Valid()
      modifies this
      ensures Valid()
      ensures pending == SweptPending(old(pending), now)
      ensures results == SweptResults(old(results), now)
      ensures order == KeepFresh(old(order), old(pending), now)
      ensures resultEvents == old(resultEvents) && taskEvents == old(taskEvents)
      ensures taskListeners == old(taskListeners) && waiting == old(waiting)
    {
      SweepPending(now);
      SweepResults(now);
    }

    /** The first half of the sweep: the pending map and its order. */
    method SweepPending(now: int)
      requires Valid()
      modifies this
      ensures Valid()
      ensures pending == SweptPending(old(pending), now)
      ensures order == KeepFresh(old(order), old(pending), now)
      ensures results == old(results) && resultEvents == old(resultEvents) && taskEvents == old(taskEvents)
      ensures taskListeners == old(taskListeners) && waiting == old(waiting)
    {
      var kept, p := SweepOrder(order, pending, now);
      SweepKeeps(order, pending, now);
      order := kept;
      pending := p;
    }

    /** The second half of the sweep: the backup results. */
    method SweepResults(now: int)
      modifies this
      ensures results == SweptResults(old(results), now)
      ensures order == old(order) && pending == old(pending) && resultEvents == old(resultEvents)
      ensures taskEvents == old(taskEvents) && taskListeners == old(taskListeners) && waiting == old(waiting)
    {
      var r0 := results;
      var r := results;
      var keys := results.Keys;
      while keys != {}
        invariant keys <= r0.Keys
        invariant forall k :: k in r <==> k in r0 && (k !in keys ==> !Expired(r0[k].timestamp, now))
        invariant forall k :: k in r ==> r[k] == r0[k]
        decreases |keys|
      {
        var k :| k in keys;
        if Expired(r0[k].timestamp, now) {
          r := r - {k};
        }
        keys := keys - {k};
      }
      assert r == SweptResults(r0, now);
      results := r;
    }

    /**
     * The `execute_code` handler and `executeOfficeCode` up to the wait: a
     * blocked script is answered with the warning and leaves the store as
     * it was; otherwise the store is swept, the task is stored as pending,
     * the new-task event is emitted and the call starts waiting.
     */
    method ExecuteCode(host: Host, code: string, description: Option<string>, id: string, now: int, caller: Caller)
      returns (d: Dispatch)
      requires Valid()
      modifies this
      ensures Valid()
      ensures var gate := Complexity.Assess(code);
        gate.WellFormed() &&
        if gate.shouldBlock then
          && d == Blocked(gate)
          && order == old(order) && pending == old(pending) && results == old(results)
          && taskEvents == old(taskEvents) && waiting == old(waiting)
        else
          && d == Enqueued(id)
          && pending == SweptPending(old(pending), now)[id := PendingExecution(host, code, description, Pending, now)]
          && order == Enlist(KeepFresh(old(order), old(pending), now), id)
          && results == SweptResults(old(results), now)
          && taskEvents == old(taskEvents) + [Task(id, host, code, description)]
          && waiting == old(waiting)[id := Waiter(now, code, description, gate, caller, |old(resultEvents)|)]
      ensures resultEvents == old(resultEvents) && taskListeners == old(taskListeners)
    {
      var gate := Complexity.CheckCodeComplexity(code);
      if gate.shouldBlock {
        return Blocked(gate);
      }
      Enqueue(host, code, description, id, now, gate, caller);
      return Enqueued(id);
    }

    /** The unblocked path: sweep, store, emit, wait. */
    method Enqueue(host: Host, code: string, description: Option<string>, id: string, now: int,
                   gate: Complexity.ComplexityCheck, caller: Caller)
      requires Valid() && gate.WellFormed()
      modifies this
      ensures Valid()
      ensures pending == SweptPending(old(pending), now)[id := PendingExecution(host, code, description, Pending, now)]
      ensures order == Enlist(KeepFresh(old(order), old(pending), now), id)
      ensures results == SweptResults(old(results), now)
      ensures taskEvents == old(taskEvents) + [Task(id, host, code, description)]
      ensures waiting == old(waiting)[id := Waiter(now, code, description, gate, caller, |old(resultEvents)|)]
      ensures resultEvents == old(resultEvents) && taskListeners == old(taskListeners)
    {
      CleanupExpired(now);
      var e := PendingExecution(host, code, description, Pending, now);
      EnlistKeeps(order, pending, id, e);
      pending := pending[id := e];
      order := Enlist(order, id);
      taskEvents := taskEvents + [Task(id, host, code, description)];
      waiting := waiting[id := Waiter(now, code, description, gate, caller, |resultEvents|)];
    }

    /**
     * `getPendingExecution`: the first pending entry in insertion order is
     * flipped to executing and returned (the returned entry is the same
     * object, so it shows the new status); with none, nothing changes.
     */
    method GetPendingExecution() returns (r: Option<(string, PendingExecution)>)
      requires Valid()
      modifies this
      ensures Valid()
      ensures match FirstPendingFrom(old(order), old(pending), 0)
        case None => r.None? && pending == old(pending)
        case Some(x) =>
          var id := old(order)[x];
          var e := old(pending)[id].(status := Executing);
          r == Some((id, e)) && pending == old(pending)[id := e]
      ensures order == old(order) && results == old(results) && resultEvents == old(resultEvents)
      ensures taskEvents == old(taskEvents) && taskListeners == old(taskListeners) && waiting == old(waiting)
    {
      var i := 0;
      while i < |order|
        invariant 0 <= i <= |order|
        invariant FirstPendingFrom(order, pending, i) == FirstPendingFrom(order, pending, 0)
      {
        var id := order[i];
        if pending[id].status == Pending {
          var e := pending[id].(status := Executing);
          pending := pending[id := e];
          return Some((id, e));
        }
        i := i + 1;
      }
      return None;
    }

    /** `getAllPendingExecutions`: exactly the pending entries, in insertion order; nothing changes. */
    method GetAllPendingExecutions() returns (r: seq<(string, PendingExecution)>)
      requires Valid()
      ensures r == PendingEntries(order, pending)
    {
      r := [];
      var i := 0;
      while i < |order|
        invariant 0 <= i <= |order|
        invariant r == PendingEntries(order[..i], pending)
      {
        var id := order[i];
        assert order[..i + 1][..i] == order[..i];
        if pending[id].status == Pending {
          r := r + [(id, pending[id])];
        }
        i := i + 1;
      }
      assert order[..i] == order;
    }

    /**
     * `submitExecutionResult`: an unknown id is refused and nothing changes;
     * a known one gets its final status, the stamped result is emitted to
     * the id's listener and then kept as the backup (a repeat overwrites it).
     */
    method SubmitExecutionResult(id: string, result: ExecutionResult, now: int) returns (ok: bool)
      requires Valid()
      modifies this
      ensures Valid()
      ensures ok <==> id in old(pending)
      ensures !ok ==> pending == old(pending) && results == old(results) && resultEvents == old(resultEvents)
      ensures ok ==>
        var stamped := result.(timestamp := now);
        && pending == old(pending)[id := old(pending)[id].(status := if result.success then Completed else Failed)]
        && resultEvents == old(resultEvents) + [ResultEvent(id, stamped)]
        && results == old(results)[id := stamped]
      ensures order == old(order) && taskEvents == old(taskEvents)
      ensures taskListeners == old(taskListeners) && waiting == old(waiting)
    {
      if id !in pending {
        return false;
      }
      var status := if result.success then Completed else Failed;
      pending := pending[id := pending[id].(status := status)];
      var stamped := result.(timestamp := now);
      resultEvents := resultEvents + [ResultEvent(id, stamped)];
      results := results[id := stamped];
      return true;
    }

    /**
     * The waiting call receives the result event at position `k`, the first
     * one for its id since it subscribed: both map entries for the id are
     * deleted and the call answers with the success or failure text.
     */
    method ResultArrives(id: string, k: nat) returns (a: Answer)
      requires Valid() && id in waiting && FirstHeard(resultEvents, id, waiting[id].heard, k)
      modifies this
      ensures Valid()
      ensures a == Outcome(old(waiting)[id], old(resultEvents)[k].result) && a.WellFormed()
      ensures pending == old(pending) - {id} && results == old(results) - {id}
      ensures order == Without(old(order), id) && waiting == old(waiting) - {id}
      ensures resultEvents == old(resultEvents) && taskEvents == old(taskEvents) && taskListeners == old(taskListeners)
    {
      var w := waiting[id];
      WithoutMembers(order, id);
      results := results - {id};
      pending := pending - {id};
      order := Without(order, id);
      waiting := waiting - {id};
      a := Outcome(w, resultEvents[k].result);
    }

    /**
     * The timer fires after 300000 ms without a result: only the pending
     * entry is deleted (a backup result, if any, stays) and the call
     * answers with the timeout text.
     */
    method TimeoutFires(id: string, now: int) returns (a: Answer)
      requires Valid() && id in waiting && now - waiting[id].startTime >= MaxWait
      modifies this
      ensures Valid()
      ensures a == TimeoutAnswer
      ensures pending == old(pending) - {id} && results == old(results)
      ensures order == Without(old(order), id) && waiting == old(waiting) - {id}
      ensures resultEvents == old(resultEvents) && taskEvents == old(taskEvents) && taskListeners == old(taskListeners)
    {
      WithoutMembers(order, id);
      pending := pending - {id};
      order := Without(order, id);
      waiting := waiting - {id};
      a := TimeoutAnswer;
    }

    /** `onNewTask`: the callback is added to the new-task listeners. */
    method OnNewTask(listener: nat)
      modifies this
      ensures taskListeners == old(taskListeners) + [listener]
      ensures order == old(order) && pending == old(pending) && results == old(results)
      ensures resultEvents == old(resultEvents) && taskEvents == old(taskEvents) && waiting == old(waiting)
    {
      taskListeners := taskListeners + [listener];
    }

    /** The function `onNewTask` returns: `off` removes the most recently added instance of the callback. */
    method OffNewTask(listener: nat)
      modifies this
      ensures taskListeners == RemoveLast(old(taskListeners), listener)
      ensures order == old(order) && pending == old(pending) && results == old(results)
      ensures resultEvents == old(resultEvents) && taskEvents == old(taskEvents) && waiting == old(waiting)
    {
      taskListeners := RemoveLast(taskListeners, listener);
    }
  }

  /** The list without its last occurrence of `x`. */
  function RemoveLast(s: seq<nat>, x: nat): (r: seq<nat>)
    ensures x in s ==> |r| == |s| - 1
    ensures x !in s ==> r == s
    ensures multiset(r) == multiset(s) - multiset{x}
  {
    if |s| == 0 then []
    else if s[|s| - 1] == x then
      assert s == s[..|s| - 1] + [x];
      s[..|s| - 1]
    else
      assert s == s[..|s| - 1] + [s[|s| - 1]];
      RemoveLast(s[..|s| - 1], x) + [s[|s| - 1]]
  }
}
