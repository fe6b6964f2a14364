/**
 * The client side of the chat: the code fingerprint, the server-sent-events
 * buffer parser, the retry coordinator for hidden code blocks, the
 * deduplication sets, the push-channel reconnect counter and the
 * transcript reducers applied to the message list on each event.
 */
module UseChat {
  import opened Wrappers
  import Str
  import Json
  import opened Chat
  import CodeExecutor
  import FeedbackBuilder
  import ToolResultRoute
  import Bridge

  // ---------------------------------------------------------------------
  // 32-bit fingerprint of a code block
  // ---------------------------------------------------------------------

  const TwoTo31: int := 0x8000_0000
  const TwoTo32: int := 0x1_0000_0000

  /** ECMAScript ToInt32: the integer congruent to `x` modulo 2^32 in the signed range. */
  function ToInt32(x: int): (r: int)
    ensures -TwoTo31 <= r < TwoTo31
    ensures (x - r) % TwoTo32 == 0
  {
    (x + TwoTo31) % TwoTo32 - TwoTo31
  }

  /** ToInt32 only depends on its argument modulo 2^32. */
  lemma ToInt32Shift(x: int, k: int)
    ensures ToInt32(x + k * TwoTo32) == ToInt32(x)
  {
    assert (x + k * TwoTo32 + TwoTo31) % TwoTo32 == (x + TwoTo31) % TwoTo32;
  }

  /** One step of the fold: `h * 31 + u`, wrapped to 32 bits. */
  function HashStep(h: int, u: int): int
  {
    ToInt32(31 * h + u)
  }

  /** The fingerprint of the UTF-16 code units `us` as a left fold of HashStep from 0. */
  function HashOf(us: seq<int>): (h: int)
    ensures -TwoTo31 <= h < TwoTo31
    ensures |us| == 0 ==> h == 0
  {
    if |us| == 0 then 0 else HashStep(HashOf(us[..|us| - 1]), us[|us| - 1])
  }

  /** The same polynomial in 31 over the code units, without wrap-around. */
  function Polynomial(us: seq<int>): int
  {
    if |us| == 0 then 0 else 31 * Polynomial(us[..|us| - 1]) + us[|us| - 1]
  }

  /** Wrapping at every step agrees with wrapping the exact polynomial once. */
  lemma {:induction false} HashOfPolynomial(us: seq<int>)
    ensures HashOf(us) == ToInt32(Polynomial(us))
  {
    if |us| > 0 {
      var front := us[..|us| - 1];
      var c := us[|us| - 1];
      HashOfPolynomial(front);
      var p := Polynomial(front);
      var q := ToInt32(p);
      var k := (p - q) / TwoTo32;
      assert p == q + k * TwoTo32;
      assert 31 * p + c == (31 * q + c) + (31 * k) * TwoTo32;
      ToInt32Shift(31 * q + c, 31 * k);
    }
  }

  /** The fingerprint's text, `String(hash)`, over the UTF-16 code units of `s`. */
  function HashText(s: string): string
  {
    Str.IntToString(HashOf(Str.CodeUnits(s)))
  }

  /**
   * A character outside the Basic Multilingual Plane is hashed as its two
   * surrogates, high then low: `charCodeAt` never sees the scalar itself.
   */
  lemma AstralHashesSurrogates(c: char)
    requires Str.IsAstral(c)
    ensures HashOf(Str.CodeUnits([c]))
         == ToInt32(31 * (0xD800 + (c as int - 0x10000) / 0x400) + (0xDC00 + (c as int - 0x10000) % 0x400))
  {
    assert [c][..0] == [];
    assert Str.CodeUnits([c]) == Str.CodeUnits([]) + Str.UnitsOf(c);
    var us := Str.CodeUnits([c]);
    assert us[..1] == [0xD800 + (c as int - 0x10000) / 0x400];
  }

  /**
   * `hashCode`: `hash = (hash << 5) - hash + c` per UTF-16 code unit, with
   * the shift on 32 bits, then `hash & hash` to bring it back to 32 bits.
   */
  method HashCode(s: string) returns (r: string)
    ensures r == HashText(s)
    ensures |s| == 0 ==> r == "0"
  {
    var units := Str.CodeUnits(s);
    var hash := 0;
    var i := 0;
    while i < |units|
      invariant 0 <= i <= |units|
      invariant hash == HashOf(units[..i])
    {
      var c := units[i];
      var shifted := ToInt32(hash * 32);
      ghost var k := (hash * 32 - shifted) / TwoTo32;
      assert shifted - hash + c == (31 * hash + c) + (-k) * TwoTo32;
      ToInt32Shift(31 * hash + c, -k);
      hash := ToInt32(shifted - hash + c);
      assert units[..i + 1][..i] == units[..i];
      i := i + 1;
    }
    assert units[..i] == units;
    if |s| == 0 {
      assert units == [];
    }
    r := Str.IntToString(hash);
  }

  // ---------------------------------------------------------------------
  // Server-sent-events buffer parser
  // ---------------------------------------------------------------------

  datatype SseEvent = SseEvent(eventType: string, data: Json.Json)

  const FrameSeparator := "\n\n"
  const DefaultEventType := "message"

  /** `buffer.split("\n\n")` */
  function Frames(buffer: string): (r: seq<string>)
    ensures |r| >= 1
  {
    Str.Split(buffer, FrameSeparator)
  }

  /** The complete frames: every segment but the last. */
  function Chunks(buffer: string): seq<string>
  {
    Frames(buffer)[..|Frames(buffer)| - 1]
  }

  /** The last segment, which may be an incomplete frame. */
  function Remaining(buffer: string): string
  {
    Frames(buffer)[|Frames(buffer)| - 1]
  }

  /** The complete frames and the remainder, joined again, are the buffer. */
  lemma FramesRebuild(buffer: string)
    ensures Str.Join(Chunks(buffer) + [Remaining(buffer)], FrameSeparator) == buffer
    ensures !Str.Contains(Remaining(buffer), FrameSeparator)
  {
    var fs := Frames(buffer);
    assert Chunks(buffer) + [Remaining(buffer)] == fs;
    Str.JoinSplit(buffer, FrameSeparator);
    Str.SplitPiecesFree(buffer, FrameSeparator);
  }

  /** The `event:` and `data:` values collected while reading a frame's lines. */
  datatype Fields = Fields(eventType: string, data: string)

  const EventPrefix := "event:"
  const DataPrefix := "data:"

  function ScanLine(f: Fields, line: string): Fields
  {
    if Str.StartsWith(line, EventPrefix) then f.(eventType := Str.Trim(line[|EventPrefix|..]))
    else if Str.StartsWith(line, DataPrefix) then f.(data := Str.Trim(line[|DataPrefix|..]))
    else f
  }

  /** The fields after reading `lines` in order, from the defaults. */
  function ScanLines(lines: seq<string>): Fields
  {
    if |lines| == 0 then Fields(DefaultEventType, "")
    else ScanLine(ScanLines(lines[..|lines| - 1]), lines[|lines| - 1])
  }

  lemma ScanStep(lines: seq<string>, i: nat)
    requires i < |lines|
    ensures ScanLines(lines[..i + 1]) == ScanLine(ScanLines(lines[..i]), lines[i])
  {
    assert lines[..i + 1][..i] == lines[..i];
  }

  /** What one line does to the fields, branch by branch. */
  lemma ScanLineCases(f: Fields, line: string)
    ensures Str.StartsWith(line, EventPrefix) ==> ScanLine(f, line) == f.(eventType := Str.Trim(line[6..]))
    ensures !Str.StartsWith(line, EventPrefix) && Str.StartsWith(line, DataPrefix) ==>
      ScanLine(f, line) == f.(data := Str.Trim(line[5..]))
    ensures !Str.StartsWith(line, EventPrefix) && !Str.StartsWith(line, DataPrefix) ==> ScanLine(f, line) == f
  {
  }

  /** The index of the last line that starts with `prefix`. */
  function LastWith(lines: seq<string>, prefix: string): (r: Option<nat>)
    ensures r.Some? ==> r.value < |lines| && Str.StartsWith(lines[r.value], prefix)
    ensures r.Some? ==> forall k :: r.value < k < |lines| ==> !Str.StartsWith(lines[k], prefix)
    ensures r.None? ==> forall k :: 0 <= k < |lines| ==> !Str.StartsWith(lines[k], prefix)
  {
    if |lines| == 0 then None
    else if Str.StartsWith(lines[|lines| - 1], prefix) then Some(|lines| - 1)
    else LastWith(lines[..|lines| - 1], prefix)
  }

  /** No line starts with both prefixes. */
  lemma PrefixesExclusive(line: string)
    ensures !(Str.StartsWith(line, EventPrefix) && Str.StartsWith(line, DataPrefix))
  {
    if Str.StartsWith(line, EventPrefix) {
      assert line[..6][0] == 'e';
      assert line[..5][0] != DataPrefix[0];
    }
  }

  /** The last `event:` line sets the type and the last `data:` line the data. */
  lemma {:induction false} LastLineWins(lines: seq<string>)
    ensures ScanLines(lines).eventType ==
      match LastWith(lines, EventPrefix)
      case None => DefaultEventType
      case Some(j) => Str.Trim(lines[j][|EventPrefix|..])
    ensures ScanLines(lines).data ==
      match LastWith(lines, DataPrefix)
      case None => ""
      case Some(j) => Str.Trim(lines[j][|DataPrefix|..])
  {
    if |lines| > 0 {
      var front := lines[..|lines| - 1];
      LastLineWins(front);
      PrefixesExclusive(lines[|lines| - 1]);
      assert forall k :: 0 <= k < |front| ==> front[k] == lines[k];
    }
  }

  function Lines(chunk: string): seq<string>
  {
    Str.Split(chunk, "\n")
  }

  /** The event a complete frame yields, if any. */
  function ChunkEvent(chunk: string, parse: string -> Option<Json.Json>): Option<SseEvent>
  {
    if Str.Trim(chunk) == "" then None
    else
      var f := ScanLines(Lines(chunk));
      if f.data == "" then None
      else match parse(f.data)
        case Some(j) => Some(SseEvent(f.eventType, j))
        case None => None
  }

  /**
   * A frame yields an event exactly when it is not blank, has a `data:`
   * line whose trimmed value is non-empty and parses; the event's type is
   * the last `event:` line's value, "message" when there is none.
   */
  lemma ChunkEventCases(chunk: string, parse: string -> Option<Json.Json>)
    ensures var d := LastWith(Lines(chunk), DataPrefix);
      ChunkEvent(chunk, parse).Some? <==>
        Str.Trim(chunk) != "" && d.Some?
        && Str.Trim(Lines(chunk)[d.value][|DataPrefix|..]) != ""
        && parse(Str.Trim(Lines(chunk)[d.value][|DataPrefix|..])).Some?
    ensures ChunkEvent(chunk, parse).Some? ==>
      var e := LastWith(Lines(chunk), EventPrefix);
      ChunkEvent(chunk, parse).value.eventType ==
        if e.None? then DefaultEventType else Str.Trim(Lines(chunk)[e.value][|EventPrefix|..])
  {
    LastLineWins(Lines(chunk));
  }

  /** The events of a list of complete frames, in order. */
  function EventsOf(chunks: seq<string>, parse: string -> Option<Json.Json>): (r: seq<SseEvent>)
    ensures |r| <= |chunks|
  {
    if |chunks| == 0 then []
    else
      var last := chunks[|chunks| - 1];
      EventsOf(chunks[..|chunks| - 1], parse)
      + (match ChunkEvent(last, parse) case Some(e) => [e] case None => [])
  }

  /** The `event:`/`data:` scan over one frame's lines. */
  method ScanChunk(chunk: string) returns (eventType: string, data: string)
    ensures Fields(eventType, data) == ScanLines(Lines(chunk))
  {
    var lines := Str.Split(chunk, "\n");
    eventType := DefaultEventType;
    data := "";
    var i := 0;
    while i < |lines|
      invariant 0 <= i <= |lines|
      invariant Fields(eventType, data) == ScanLines(lines[..i])
    {
      var line := lines[i];
      ScanStep(lines, i);
      ScanLineCases(Fields(eventType, data), line);
      if Str.StartsWith(line, EventPrefix) {
        eventType := Str.Trim(line[6..]);
      } else if Str.StartsWith(line, DataPrefix) {
        data := Str.Trim(line[5..]);
      }
      i := i + 1;
    }
    assert lines[..i] == lines;
  }

  /** The event of one complete frame, as the frame loop body computes it. */
  method ParseChunk(chunk: string, parse: string -> Option<Json.Json>) returns (e: Option<SseEvent>)
    ensures e == ChunkEvent(chunk, parse)
  {
    e := None;
    if Str.Trim(chunk) != "" {
      var eventType, data := ScanChunk(chunk);
      if data != "" {
        var value := parse(data);
        if value.Some? {
          e := Some(SseEvent(eventType, value.value));
        }
      }
    }
  }

  lemma EventsOfStep(chunks: seq<string>, i: nat, parse: string -> Option<Json.Json>)
    requires i < |chunks|
    ensures EventsOf(chunks[..i + 1], parse) ==
      EventsOf(chunks[..i], parse) + (match ChunkEvent(chunks[i], parse) case Some(e) => [e] case None => [])
  {
    assert chunks[..i + 1][..i] == chunks[..i];
  }

  /** `parseSSEBuffer`: the events of the complete frames and the rest of the buffer. */
  method ParseSseBuffer(buffer: string, parse: string -> Option<Json.Json>)
    returns (parsed: seq<SseEvent>, remaining: string)
    ensures parsed == EventsOf(Chunks(buffer), parse)
    ensures remaining == Remaining(buffer)
  {
    var lines := Str.Split(buffer, FrameSeparator);
    remaining := lines[|lines| - 1];
    var chunks := lines[..|lines| - 1];
    parsed := [];
    var i := 0;
    while i < |chunks|
      invariant 0 <= i <= |chunks|
      invariant parsed == EventsOf(chunks[..i], parse)
    {
      var e := ParseChunk(chunks[i], parse);
      EventsOfStep(chunks, i, parse);
      if e.Some? {
        parsed := parsed + [e.value];
      }
      i := i + 1;
    }
    assert chunks[..i] == chunks;
  }

  // ---------------------------------------------------------------------
  // Retry coordinator for hidden code blocks
  // ---------------------------------------------------------------------

  const MaxRetries: nat := 3

  /** What a failed run of a hidden block leads to. */
  datatype RetryDecision = Retry(attempt: nat) | GiveUp(retries: nat)

  /** `retryState.get(key) || 0` */
  function RetriesOf(m: map<string, nat>, key: string): nat
  {
    if key in m then m[key] else 0
  }

  /** Every stored counter lies between 1 and the cap. */
  predicate RetriesBounded(m: map<string, nat>)
  {
    forall k :: k in m ==> 1 <= m[k] <= MaxRetries
  }

  /**
   * The counters and the decision after a failed run of the block with
   * fingerprint `key`; `hasError` says whether the run reported an error.
   */
  function AfterFailure(m: map<string, nat>, key: string, hasError: bool): (r: (map<string, nat>, RetryDecision))
    ensures RetriesBounded(m) ==> RetriesBounded(r.0)
    ensures r.1.Retry? <==> hasError && RetriesOf(m, key) < MaxRetries
    ensures r.1.Retry? ==> r.1.attempt == RetriesOf(m, key) + 1 && RetriesOf(r.0, key) == r.1.attempt
    ensures r.1.GiveUp? ==> r.1.retries == RetriesOf(m, key) && key !in r.0
    ensures RetriesBounded(m) && hasError && r.1.GiveUp? ==> r.1.retries == MaxRetries
    ensures forall k :: k != key ==> (k in r.0 <==> k in m) && (k in m ==> r.0[k] == m[k])
  {
    var current := RetriesOf(m, key);
    if current < MaxRetries && hasError then (m[key := current + 1], Retry(current + 1))
    else (m - {key}, GiveUp(current))
  }

  /** Four failures in a row of a fresh block: three retries, then the final message. */
  lemma ThreeRetriesThenGiveUp(m: map<string, nat>, key: string)
    requires key !in m
    ensures var r1 := AfterFailure(m, key, true);
      var r2 := AfterFailure(r1.0, key, true);
      var r3 := AfterFailure(r2.0, key, true);
      var r4 := AfterFailure(r3.0, key, true);
      r1.1 == Retry(1) && r2.1 == Retry(2) && r3.1 == Retry(3) && r4.1 == GiveUp(3) && r4.0 == m
  {
    var r1 := AfterFailure(m, key, true);
    var r2 := AfterFailure(r1.0, key, true);
    var r3 := AfterFailure(r2.0, key, true);
    var r4 := AfterFailure(r3.0, key, true);
    assert r4.0 == m;
  }

  /** The per-fingerprint retry counters (`retryStateRef`). */
  class RetryState {
    var retries: map<string, nat>

    ghost predicate Valid()
      reads this
    {
      RetriesBounded(retries)
    }

    constructor()
      ensures Valid() && retries == map[]
    {
      retries := map[];
    }

    /** A failed run: count a retry while under the cap, otherwise give up and forget the block. */
    method OnFailure(key: string, hasError: bool) returns (d: RetryDecision)
      requires Valid()
      modifies this
      ensures Valid()
      ensures (retries, d) == AfterFailure(old(retries), key, hasError)
    {
      var current := if key in retries then retries[key] else 0;
      if current < MaxRetries && hasError {
        retries := retries[key := current + 1];
        d := Retry(current + 1);
      } else {
        retries := retries - {key};
        d := GiveUp(current);
      }
    }

    /** A successful run forgets the block's counter. */
    method OnSuccess(key: string)
      requires Valid()
      modifies this
      ensures Valid() && retries == old(retries) - {key}
    {
      retries := retries - {key};
    }

    /** `clearMessages` drops every counter. */
    method Clear()
      modifies this
      ensures Valid() && retries == map[]
    {
      retries := map[];
    }
  }

  /** `executeOfficeCode`'s result. */
  datatype CodeRun = CodeRun(success: bool, result: Option<Json.Json>, error: Option<CodeExecutor.ExecutionError>)

  function RetryNoticeText(attempt: nat): string
  {
    "⚠️ 代码执行失败，正在自动重试（" + Str.NatToString(attempt) + "/" + Str.NatToString(MaxRetries) + "）..."
  }

  /** The transcript entry announcing an automatic retry. */
  function RetryNotice(attempt: nat, error: Option<CodeExecutor.ExecutionError>, id: string, timestamp: string): ChatMessage
  {
    var errorType := if error.Some? then Some(CodeExecutor.TypeName(error.value.etype)) else None;
    ChatMessage(id, Error, RetryNoticeText(attempt), timestamp,
      Some(NoMetadata.(retryCount := Some(attempt), maxRetries := Some(MaxRetries), errorType := errorType)), false)
  }

  /** The final message once retries are exhausted or the run gave no error. */
  function FinalText(error: Option<CodeExecutor.ExecutionError>, host: CodeExecutor.Host, retries: nat): string
  {
    match error
    case Some(e) => FeedbackBuilder.BuildFinalErrorMessage(e, retries)
    case None => "❌ 操作失败：undefined\n\n提示：请确认 " + Str.ToUpper(CodeExecutor.HostName(host)) + " 文档已打开。"
  }

  function FinalNotice(error: Option<CodeExecutor.ExecutionError>, host: CodeExecutor.Host, retries: nat,
                       id: string, timestamp: string): ChatMessage
  {
    ChatMessage(id, Error, FinalText(error, host, retries), timestamp,
      Some(NoMetadata.(retryCount := Some(retries), maxRetries := Some(MaxRetries), finalError := Some(true))), false)
  }

  /**
   * The completion of a hidden block's run: a success forgets its counter;
   * a failure either announces a retry and yields the feedback prompt sent
   * back to the agent, or posts the final message.  The Office version and
   * platform the feedback names, and the new entry's id and time, are inputs.
   */
  method OnBlockResult(state: RetryState, block: CodeExecutor.OfficeCodeBlock, key: string, run: CodeRun,
                       version: string, platform: string, id: string, timestamp: string)
    returns (notice: Option<ChatMessage>, prompt: Option<string>)
    requires state.Valid()
    modifies state
    ensures state.Valid()
    ensures run.success ==> notice.None? && prompt.None? && state.retries == old(state.retries) - {key}
    ensures !run.success ==>
      var (m, d) := AfterFailure(old(state.retries), key, run.error.Some?);
      state.retries == m &&
      match d
      case Retry(n) =>
        notice == Some(RetryNotice(n, run.error, id, timestamp))
        && prompt == Some(FeedbackBuilder.BuildErrorFeedback(run.error.value, block.code, n, MaxRetries, version, platform))
      case GiveUp(n) =>
        notice == Some(FinalNotice(run.error, block.host, n, id, timestamp)) && prompt.None?
  {
    if run.success {
      state.OnSuccess(key);
      notice, prompt := None, None;
    } else {
      var d := state.OnFailure(key, run.error.Some?);
      match d
      case Retry(n) =>
        notice := Some(RetryNotice(n, run.error, id, timestamp));
        prompt := Some(FeedbackBuilder.BuildErrorFeedback(run.error.value, block.code, n, MaxRetries, version, platform));
      case GiveUp(n) =>
        notice := Some(FinalNotice(run.error, block.host, n, id, timestamp));
        prompt := None;
    }
  }

  // ---------------------------------------------------------------------
  // Deduplication of executed code and processed tasks
  // ---------------------------------------------------------------------

  /** The keys from position `from` on, as a set. */
  function KeysFrom(keys: seq<string>, from: nat): set<string>
    requires from <= |keys|
    decreases |keys| - from
  {
    if from == |keys| then {} else {keys[from]} + KeysFrom(keys, from + 1)
  }

  /**
   * The positions from `from` on whose key is neither in `seen` nor at an
   * earlier position: the entries a skip-if-seen loop lets through.
   */
  function FirstOccurrences(keys: seq<string>, from: nat, seen: set<string>): (r: seq<nat>)
    requires from <= |keys|
    ensures forall i :: 0 <= i < |r| ==> from <= r[i] < |keys|
    decreases |keys| - from
  {
    if from == |keys| then []
    else (if keys[from] in seen then [] else [from]) + FirstOccurrences(keys, from + 1, seen + {keys[from]})
  }

  /** The positions let through are increasing. */
  lemma {:induction false} FirstOccurrencesOrdered(keys: seq<string>, from: nat, seen: set<string>)
    requires from <= |keys|
    ensures forall i, j :: 0 <= i < j < |FirstOccurrences(keys, from, seen)| ==>
      FirstOccurrences(keys, from, seen)[i] < FirstOccurrences(keys, from, seen)[j]
    decreases |keys| - from
  {
    if from < |keys| {
      var rest := FirstOccurrences(keys, from + 1, seen + {keys[from]});
      FirstOccurrencesOrdered(keys, from + 1, seen + {keys[from]});
      var head: seq<nat> := if keys[from] in seen then [] else [from];
      assert FirstOccurrences(keys, from, seen) == head + rest;
    }
  }

  /** The keys let through were not seen before, and no two are equal. */
  lemma {:induction false} FirstOccurrencesDistinct(keys: seq<string>, from: nat, seen: set<string>)
    requires from <= |keys|
    ensures forall i :: 0 <= i < |FirstOccurrences(keys, from, seen)| ==> keys[FirstOccurrences(keys, from, seen)[i]] !in seen
    ensures forall i, j :: 0 <= i < j < |FirstOccurrences(keys, from, seen)| ==>
      keys[FirstOccurrences(keys, from, seen)[i]] != keys[FirstOccurrences(keys, from, seen)[j]]
    decreases |keys| - from
  {
    if from < |keys| {
      var h := keys[from];
      var rest := FirstOccurrences(keys, from + 1, seen + {h});
      var head: seq<nat> := if h in seen then [] else [from];
      var r := head + rest;
      assert FirstOccurrences(keys, from, seen) == r;
      FirstOccurrencesDistinct(keys, from + 1, seen + {h});
      forall i | |head| <= i < |r| ensures keys[r[i]] != h && keys[r[i]] !in seen {
        assert r[i] == rest[i - |head|];
      }
      forall i, j | 0 <= i < j < |r| ensures keys[r[i]] != keys[r[j]] {
        if i >= |head| {
          assert r[i] == rest[i - |head|] && r[j] == rest[j - |head|];
        }
      }
    }
  }

  /** Every key from `from` on that was not seen before is let through at some position. */
  lemma {:induction false} FirstOccurrencesCover(keys: seq<string>, from: nat, seen: set<string>)
    requires from <= |keys|
    ensures forall g :: g in KeysFrom(keys, from) && g !in seen ==>
      exists i :: 0 <= i < |FirstOccurrences(keys, from, seen)| && keys[FirstOccurrences(keys, from, seen)[i]] == g
    decreases |keys| - from
  {
    if from < |keys| {
      var h := keys[from];
      var rest := FirstOccurrences(keys, from + 1, seen + {h});
      var head: seq<nat> := if h in seen then [] else [from];
      var r := head + rest;
      assert FirstOccurrences(keys, from, seen) == r;
      FirstOccurrencesCover(keys, from + 1, seen + {h});
      forall g | g in KeysFrom(keys, from) && g !in seen
        ensures exists i :: 0 <= i < |r| && keys[r[i]] == g
      {
        if g == h {
          assert keys[r[0]] == g;
        } else {
          assert g in KeysFrom(keys, from + 1);
          var i :| 0 <= i < |rest| && keys[rest[i]] == g;
          assert r[i + |head|] == rest[i];
        }
      }
    }
  }

  /** The fingerprints of a list of blocks, in order. */
  function Fingerprints(blocks: seq<CodeExecutor.OfficeCodeBlock>): (r: seq<string>)
    ensures |r| == |blocks|
  {
    seq(|blocks|, k requires 0 <= k < |blocks| => HashText(blocks[k].code))
  }

  /** The blocks that run, in order, when the fingerprints in `seen` have already run. */
  function FreshBlocks(blocks: seq<CodeExecutor.OfficeCodeBlock>, seen: set<string>): seq<CodeExecutor.OfficeCodeBlock>
  {
    var pos := FirstOccurrences(Fingerprints(blocks), 0, seen);
    seq(|pos|, k requires 0 <= k < |pos| => blocks[pos[k]])
  }

  /** One turn of the skip-if-seen loop, on the keys. */
  lemma OccurrenceStep(keys: seq<string>, i: nat, seen: set<string>, pos: seq<nat>, seen0: set<string>)
    requires i < |keys|
    requires pos + FirstOccurrences(keys, i, seen) == FirstOccurrences(keys, 0, seen0)
    requires seen + KeysFrom(keys, i) == seen0 + KeysFrom(keys, 0)
    ensures keys[i] in seen ==>
      pos + FirstOccurrences(keys, i + 1, seen) == FirstOccurrences(keys, 0, seen0)
      && seen + KeysFrom(keys, i + 1) == seen0 + KeysFrom(keys, 0)
    ensures keys[i] !in seen ==>
      (pos + [i]) + FirstOccurrences(keys, i + 1, seen + {keys[i]}) == FirstOccurrences(keys, 0, seen0)
      && (seen + {keys[i]}) + KeysFrom(keys, i + 1) == seen0 + KeysFrom(keys, 0)
  {
    var h := keys[i];
    if h in seen {
      assert seen + {h} == seen;
    } else {
      assert pos + FirstOccurrences(keys, i, seen) == (pos + [i]) + FirstOccurrences(keys, i + 1, seen + {h});
    }
  }

  /**
   * The state of the skip-if-seen loop before block `i`: the fingerprints
   * seen so far together with those still ahead are all of them, and the
   * blocks kept so far sit at the positions let through so far.
   */
  ghost predicate Skipping(blocks: seq<CodeExecutor.OfficeCodeBlock>, before: set<string>, i: nat,
                           seen: set<string>, run: seq<CodeExecutor.OfficeCodeBlock>, pos: seq<nat>)
  {
    i <= |blocks|
    && seen + KeysFrom(Fingerprints(blocks), i) == before + KeysFrom(Fingerprints(blocks), 0)
    && pos + FirstOccurrences(Fingerprints(blocks), i, seen) == FirstOccurrences(Fingerprints(blocks), 0, before)
    && |run| == |pos| && forall k :: 0 <= k < |pos| ==> pos[k] < |blocks| && run[k] == blocks[pos[k]]
  }

  /** One turn of the loop keeps its state: a seen block is skipped, a new one kept and recorded. */
  lemma SkipTurn(blocks: seq<CodeExecutor.OfficeCodeBlock>, before: set<string>, i: nat,
                 seen: set<string>, run: seq<CodeExecutor.OfficeCodeBlock>, pos: seq<nat>)
    requires i < |blocks| && Skipping(blocks, before, i, seen, run, pos)
    ensures Fingerprints(blocks)[i] in seen ==> Skipping(blocks, before, i + 1, seen, run, pos)
    ensures Fingerprints(blocks)[i] !in seen ==>
      Skipping(blocks, before, i + 1, seen + {Fingerprints(blocks)[i]}, run + [blocks[i]], pos + [i])
  {
    OccurrenceStep(Fingerprints(blocks), i, seen, pos, before);
  }

  /** After the last block, the kept blocks are the fresh ones and every fingerprint is recorded. */
  lemma SkipDone(blocks: seq<CodeExecutor.OfficeCodeBlock>, before: set<string>,
                 seen: set<string>, run: seq<CodeExecutor.OfficeCodeBlock>, pos: seq<nat>)
    requires Skipping(blocks, before, |blocks|, seen, run, pos)
    ensures run == FreshBlocks(blocks, before)
    ensures seen == before + KeysFrom(Fingerprints(blocks), 0)
  {
    assert FirstOccurrences(Fingerprints(blocks), |blocks|, seen) == [];
  }

  /** The loop over the hidden blocks of one message: skip a seen fingerprint, otherwise record it and keep the block. */
  method SkipSeen(blocks: seq<CodeExecutor.OfficeCodeBlock>, before: set<string>)
    returns (run: seq<CodeExecutor.OfficeCodeBlock>, seen: set<string>)
    ensures run == FreshBlocks(blocks, before)
    ensures seen == before + KeysFrom(Fingerprints(blocks), 0)
  {
    ghost var pos: seq<nat> := [];
    seen := before;
    run := [];
    var i := 0;
    while i < |blocks|
      invariant Skipping(blocks, before, i, seen, run, pos)
      decreases |blocks| - i
    {
      var h := HashCode(blocks[i].code);
      SkipTurn(blocks, before, i, seen, run, pos);
      if h !in seen {
        seen := seen + {h};
        run := run + [blocks[i]];
        pos := pos + [i];
      }
      i := i + 1;
    }
    SkipDone(blocks, before, seen, run, pos);
  }

  /** The process-wide set `executedCodeHashes`; its fingerprints are never removed. */
  class CodeRunGuard {
    var executed: set<string>

    constructor()
      ensures executed == {}
    {
      executed := {};
    }

    /** The hidden blocks of one message in turn: skip a seen fingerprint, otherwise record it and run the block. */
    method Admit(blocks: seq<CodeExecutor.OfficeCodeBlock>) returns (run: seq<CodeExecutor.OfficeCodeBlock>)
      modifies this
      ensures run == FreshBlocks(blocks, old(executed))
      ensures executed == old(executed) + KeysFrom(Fingerprints(blocks), 0)
    {
      var seen;
      run, seen := SkipSeen(blocks, executed);
      executed := seen;
    }
  }

  /** The correlation ids of bridge tasks already taken up in this loading phase. */
  class TaskDedupe {
    var processed: set<string>

    constructor()
      ensures processed == {}
    {
      processed := {};
    }

    /** A task runs only the first time its id is seen. */
    method Admit(correlationId: string) returns (run: bool)
      modifies this
      ensures run <==> correlationId !in old(processed)
      ensures processed == old(processed) + {correlationId}
    {
      run := correlationId !in processed;
      processed := processed + {correlationId};
    }

    /** Loading stopped: forget every id. */
    method LoadingStopped()
      modifies this
      ensures processed == {}
    {
      processed := {};
    }
  }

  const RunningMark := "正在执行"
  const RepairText := "⚠️ 代码执行失败，AI 正在自动修复..."

  function RunningNoticeText(host: CodeExecutor.Host): string
  {
    "🔄 " + RunningMark + " " + Str.ToUpper(CodeExecutor.HostName(host)) + " 代码..."
  }

  /** An `info` entry whose text contains 正在执行. */
  predicate IsRunningNotice(m: ChatMessage)
  {
    m.role == Info && Str.Contains(m.content, RunningMark)
  }

  /** The entry shown while a bridge task runs is recognised as a running notice. */
  lemma RunningNoticeRecognised(host: CodeExecutor.Host, id: string, timestamp: string)
    ensures IsRunningNotice(ChatMessage(id, Info, RunningNoticeText(host), timestamp, None, false))
  {
    var name := Str.ToUpper(CodeExecutor.HostName(host));
    Str.ContainsSelf(RunningMark);
    Str.ContainsInPrefix(RunningMark, "🔄 ", RunningMark);
    Str.ContainsInPrefix("🔄 " + RunningMark, " ", RunningMark);
    Str.ContainsInPrefix("🔄 " + RunningMark + " ", name, RunningMark);
    Str.ContainsInPrefix("🔄 " + RunningMark + " " + name, " 代码...", RunningMark);
  }

  /** After a successful task: drop every running notice, keeping the rest in order. */
  function ClearRunning(prev: seq<ChatMessage>): (r: seq<ChatMessage>)
    ensures forall k :: 0 <= k < |r| ==> !IsRunningNotice(r[k]) && r[k] in prev
    ensures forall k :: 0 <= k < |prev| && !IsRunningNotice(prev[k]) ==> prev[k] in r
    ensures |r| <= |prev|
  {
    if |prev| == 0 then []
    else (if IsRunningNotice(prev[0]) then [] else [prev[0]]) + ClearRunning(prev[1..])
  }

  /** After a failed task: every running notice now says the agent is repairing the code. */
  function MarkRepairing(prev: seq<ChatMessage>): (r: seq<ChatMessage>)
    ensures |r| == |prev|
    ensures forall k :: 0 <= k < |r| ==> r[k].id == prev[k].id && r[k].role == prev[k].role
    ensures forall k :: 0 <= k < |r| ==> if IsRunningNotice(prev[k]) then r[k].content == RepairText else r[k] == prev[k]
  {
    seq(|prev|, k requires 0 <= k < |prev| => if IsRunningNotice(prev[k]) then prev[k].(content := RepairText) else prev[k])
  }

  /** `{type, code, message, stackTrace}` with undefined members left out, as `JSON.stringify` writes it. */
  function ErrorJson(e: CodeExecutor.ExecutionError): Json.Json
  {
    Json.JObj(
      [Json.Member("type", Json.JStr(CodeExecutor.TypeName(e.etype)))]
      + (if e.code.Some? then [Json.Member("code", Json.JStr(e.code.value))] else [])
      + [Json.Member("message", Json.JStr(e.message))]
      + (if e.stackTrace.Some? then [Json.Member("stackTrace", Json.JStr(e.stackTrace.value))] else []))
  }

  /** The `result` member of the body posted to the tool-result route. */
  function RunJson(run: CodeRun): Json.Json
  {
    Json.JObj(
      [Json.Member("success", Json.JBool(run.success))]
      + (if run.result.Some? then [Json.Member("data", run.result.value)] else [])
      + (if run.error.Some? then [Json.Member("error", ErrorJson(run.error.value))] else []))
  }

  /** The body a bridge task's outcome is posted with. */
  function McpResultBody(correlationId: string, run: CodeRun): Json.Json
  {
    Json.JObj([Json.Member("correlationId", Json.JStr(correlationId)),
               Json.Member("source", Json.JStr(ToolResultRoute.McpSource)),
               Json.Member("result", RunJson(run))])
  }

  /** A run that threw: `UnknownError` with the thrown message. */
  function ThrownRun(message: string): CodeRun
  {
    CodeRun(false, None, Some(CodeExecutor.ExecutionError(CodeExecutor.UnknownError, None, message, None)))
  }

  /** The route reads back what the client posts: success, data and the error's fields. */
  lemma PostedResultAsRead(correlationId: string, run: CodeRun, now: int)
    ensures var body := McpResultBody(correlationId, run);
      Json.Get(body, "correlationId") == Some(Json.JStr(correlationId))
      && Json.Get(body, "source") == Some(Json.JStr(ToolResultRoute.McpSource))
      && Json.Get(body, "result") == Some(RunJson(run))
    ensures var r := ToolResultRoute.ToExecutionResult(RunJson(run), now);
      r.success == run.success && r.data == run.result && (r.error.Some? <==> run.error.Some?)
    ensures run.error.Some? ==>
      var e := run.error.value;
      ToolResultRoute.ToExecutionResult(RunJson(run), now).error
        == Some(Bridge.ResultError(CodeExecutor.TypeName(e.etype), e.code, e.message, e.stackTrace))
  {
    var body := McpResultBody(correlationId, run);
    var ms := body.members;
    Json.LookupCons(ms[0], ms[1..], "source");
    Json.LookupCons(ms[0], ms[1..], "result");
    Json.LookupCons(ms[1], ms[2..], "result");
    RunJsonFields(run);
    if run.error.Some? {
      ErrorJsonFields(run.error.value);
    }
  }

  lemma RunJsonFields(run: CodeRun)
    ensures Json.Get(RunJson(run), "success") == Some(Json.JBool(run.success))
    ensures Json.Get(RunJson(run), "data") == run.result
    ensures Json.Get(RunJson(run), "error") == if run.error.Some? then Some(ErrorJson(run.error.value)) else None
  {
    RunJsonData(run);
    RunJsonError(run);
  }

  /** The members of RunJson after the leading `success`. */
  function RunJsonTail(run: CodeRun): seq<Json.Member>
  {
    (if run.result.Some? then [Json.Member("data", run.result.value)] else [])
      + (if run.error.Some? then [Json.Member("error", ErrorJson(run.error.value))] else [])
  }

  lemma RunJsonData(run: CodeRun)
    ensures Json.Get(RunJson(run), "data") == run.result
  {
    var error := if run.error.Some? then [Json.Member("error", ErrorJson(run.error.value))] else [];
    assert RunJson(run).members == [Json.Member("success", Json.JBool(run.success))] + RunJsonTail(run);
    Json.LookupCons(Json.Member("success", Json.JBool(run.success)), RunJsonTail(run), "data");
    if run.result.Some? {
      Json.LookupCons(Json.Member("data", run.result.value), error, "data");
    } else if error != [] {
      Json.LookupCons(error[0], [], "data");
      assert error == [error[0]] + [];
    }
  }

  lemma RunJsonError(run: CodeRun)
    ensures Json.Get(RunJson(run), "error") == if run.error.Some? then Some(ErrorJson(run.error.value)) else None
  {
    var front := [Json.Member("success", Json.JBool(run.success))]
      + (if run.result.Some? then [Json.Member("data", run.result.value)] else []);
    assert forall k :: 0 <= k < |front| ==> front[k].key != "error";
    if run.error.Some? {
      var m := Json.Member("error", ErrorJson(run.error.value));
      assert RunJson(run).members == front + [m];
      Json.LookupLast(front, m);
    } else {
      assert RunJson(run).members == front;
    }
  }

  /** The members of ErrorJson, split around the optional ones. */
  lemma ErrorJsonShape(e: CodeExecutor.ExecutionError)
    ensures ErrorJson(e).members ==
      [Json.Member("type", Json.JStr(CodeExecutor.TypeName(e.etype)))] + (ErrorCodePart(e) + ([Json.Member("message", Json.JStr(e.message))] + ErrorStackPart(e)))
  {
  }

  function ErrorCodePart(e: CodeExecutor.ExecutionError): seq<Json.Member>
  {
    if e.code.Some? then [Json.Member("code", Json.JStr(e.code.value))] else []
  }

  function ErrorStackPart(e: CodeExecutor.ExecutionError): seq<Json.Member>
  {
    if e.stackTrace.Some? then [Json.Member("stackTrace", Json.JStr(e.stackTrace.value))] else []
  }

  /** Looking up a key past an optional single member with another key. */
  lemma LookupPastOptional(opt: seq<Json.Member>, rest: seq<Json.Member>, key: string)
    requires |opt| <= 1 && (|opt| == 1 ==> opt[0].key != key)
    ensures Json.Lookup(opt + rest, key) == Json.Lookup(rest, key)
  {
    if |opt| == 1 {
      Json.LookupCons(opt[0], rest, key);
      assert opt + rest == [opt[0]] + rest;
    } else {
      assert opt + rest == rest;
    }
  }

  lemma ErrorJsonFields(e: CodeExecutor.ExecutionError)
    ensures Json.GetString(ErrorJson(e), "type") == Some(CodeExecutor.TypeName(e.etype))
    ensures Json.GetString(ErrorJson(e), "code") == e.code
    ensures Json.GetString(ErrorJson(e), "message") == Some(e.message)
    ensures Json.GetString(ErrorJson(e), "stackTrace") == e.stackTrace
  {
    ErrorJsonShape(e);
    ErrorJsonCode(e);
    ErrorJsonMessage(e);
    ErrorJsonStack(e);
  }

  lemma ErrorJsonCode(e: CodeExecutor.ExecutionError)
    requires ErrorJson(e).members ==
      [Json.Member("type", Json.JStr(CodeExecutor.TypeName(e.etype)))] + (ErrorCodePart(e) + ([Json.Member("message", Json.JStr(e.message))] + ErrorStackPart(e)))
    ensures Json.GetString(ErrorJson(e), "code") == e.code
  {
    var t := Json.Member("type", Json.JStr(CodeExecutor.TypeName(e.etype)));
    var msg := Json.Member("message", Json.JStr(e.message));
    var code := ErrorCodePart(e);
    var stack := ErrorStackPart(e);
    var tail := [msg] + stack;
    Json.LookupCons(t, code + tail, "code");
    if code != [] {
      Json.LookupCons(code[0], tail, "code");
      assert code + tail == [code[0]] + tail;
    } else {
      assert code + tail == [msg] + stack;
      Json.LookupCons(msg, stack, "code");
      LookupPastOptional(stack, [], "code");
      assert stack + [] == stack;
    }
  }

  lemma ErrorJsonMessage(e: CodeExecutor.ExecutionError)
    requires ErrorJson(e).members ==
      [Json.Member("type", Json.JStr(CodeExecutor.TypeName(e.etype)))] + (ErrorCodePart(e) + ([Json.Member("message", Json.JStr(e.message))] + ErrorStackPart(e)))
    ensures Json.GetString(ErrorJson(e), "message") == Some(e.message)
  {
    var t := Json.Member("type", Json.JStr(CodeExecutor.TypeName(e.etype)));
    var msg := Json.Member("message", Json.JStr(e.message));
    var code := ErrorCodePart(e);
    var tail := [msg] + ErrorStackPart(e);
    Json.LookupCons(t, code + tail, "message");
    LookupPastOptional(code, tail, "message");
    Json.LookupCons(msg, ErrorStackPart(e), "message");
  }

  lemma ErrorJsonStack(e: CodeExecutor.ExecutionError)
    requires ErrorJson(e).members ==
      [Json.Member("type", Json.JStr(CodeExecutor.TypeName(e.etype)))] + (ErrorCodePart(e) + ([Json.Member("message", Json.JStr(e.message))] + ErrorStackPart(e)))
    ensures Json.GetString(ErrorJson(e), "stackTrace") == e.stackTrace
  {
    var t := Json.Member("type", Json.JStr(CodeExecutor.TypeName(e.etype)));
    var msg := Json.Member("message", Json.JStr(e.message));
    var code := ErrorCodePart(e);
    var stack := ErrorStackPart(e);
    var tail := [msg] + stack;
    var key := "stackTrace";
    assert Json.Lookup(ErrorJson(e).members, key) == Json.Lookup(code + tail, key) by {
      Json.LookupCons(t, code + tail, key);
    }
    assert Json.Lookup(code + tail, key) == Json.Lookup(tail, key) by {
      LookupPastOptional(code, tail, key);
    }
    assert Json.Lookup(tail, key) == Json.Lookup(stack, key) by {
      Json.LookupCons(msg, stack, key);
    }
    if e.stackTrace.Some? {
      assert Json.Lookup(stack, key) == Some(Json.JStr(e.stackTrace.value)) by {
        Json.LookupCons(stack[0], [], key);
        assert stack == [stack[0]] + [];
      }
    } else {
      assert stack == [];
    }
    assert Json.Get(ErrorJson(e), key) == Json.Lookup(stack, key);
  }

  // ---------------------------------------------------------------------
  // Push channel and its fallback to polling
  // ---------------------------------------------------------------------

  const MaxReconnectAttempts: nat := 3
  const ReconnectDelayMs: nat := 3000

  datatype LinkAction = ReconnectAfter(delayMs: nat) | FallBackToPolling

  /** The attempt counter and action after a connection error. */
  function ErrorStep(attempts: nat): (r: (nat, LinkAction))
    ensures r.0 == attempts + 1
    ensures r.1.FallBackToPolling? <==> attempts + 1 >= MaxReconnectAttempts
    ensures r.1.ReconnectAfter? ==> r.1.delayMs == ReconnectDelayMs
  {
    if attempts + 1 >= MaxReconnectAttempts then (attempts + 1, FallBackToPolling)
    else (attempts + 1, ReconnectAfter(ReconnectDelayMs))
  }

  /** From a fresh connection, the first two errors reconnect and the third falls back. */
  lemma ThirdErrorFallsBack()
    ensures ErrorStep(0).1.ReconnectAfter? && ErrorStep(ErrorStep(0).0).1.ReconnectAfter?
    ensures ErrorStep(ErrorStep(ErrorStep(0).0).0).1.FallBackToPolling?
  {
  }

  /** The push subscription's reconnect counter and the push/poll switch. */
  class PushChannel {
    var attempts: nat
    var useSse: bool

    ghost predicate Valid()
      reads this
    {
      useSse ==> attempts < MaxReconnectAttempts
    }

    constructor()
      ensures Valid() && attempts == 0 && useSse
    {
      attempts := 0;
      useSse := true;
    }

    /** The connection opened: the counter starts again. */
    method OnOpen()
      requires Valid()
      modifies this
      ensures Valid() && attempts == 0 && useSse == old(useSse)
    {
      attempts := 0;
    }

    /** A connection error while pushing: count it, then reconnect later or switch to polling. */
    method OnError() returns (action: LinkAction)
      requires Valid() && useSse
      modifies this
      ensures Valid()
      ensures (attempts, action) == ErrorStep(old(attempts))
      ensures useSse <==> action.ReconnectAfter?
    {
      attempts := attempts + 1;
      if attempts >= MaxReconnectAttempts {
        useSse := false;
        action := FallBackToPolling;
      } else {
        action := ReconnectAfter(ReconnectDelayMs);
      }
    }

    /** The subscription could not be set up: switch to polling at once. */
    method OnSetupError()
      modifies this
      ensures Valid() && !useSse && attempts == old(attempts)
    {
      useSse := false;
    }
  }

  // ---------------------------------------------------------------------
  // Transcript reducers
  // ---------------------------------------------------------------------

  /** `s.replace(/\r\n/g, "\n").trim()` */
  function Normalize(s: string): string
  {
    Str.Trim(Str.ReplaceAll(s, "\r\n", "\n"))
  }

  /** `isSameOrContained`: either normalised text contains the other; empty text never matches. */
  predicate SameOrContained(a: string, b: string)
  {
    var na := Normalize(a);
    var nb := Normalize(b);
    na != "" && nb != "" && (na == nb || Str.Contains(na, nb) || Str.Contains(nb, na))
  }

  /** The match is symmetric, and holds of a text and itself exactly when it is not blank. */
  lemma SameOrContainedShape(a: string, b: string)
    ensures SameOrContained(a, b) <==> SameOrContained(b, a)
    ensures SameOrContained(a, a) <==> Normalize(a) != ""
    ensures Normalize(a) == "" ==> !SameOrContained(a, b)
  {
  }

  /** `{ ...m, ...ui }`: the mapped message's fields over an entry's; absent keys keep the entry's. */
  function Overlay(m: ChatMessage, ui: UiMessage): ChatMessage
  {
    m.(role := ui.role, content := ui.content,
       metadata := if ui.metadata.Some? then ui.metadata else m.metadata,
       streaming := ui.streaming || m.streaming)
  }

  /**
   * A complete message while nothing streams: a message of the same role
   * whose text contains or is contained in the last entry's does not add
   * an entry, and replaces the last one only when its normalised text is
   * longer.
   */
  function MergeFinal(prev: seq<ChatMessage>, ui: UiMessage, id: string, timestamp: string): (r: seq<ChatMessage>)
    ensures |r| == |prev| || r == prev + [Entry(ui, id, timestamp)]
    ensures |r| == |prev| ==> |prev| > 0 && r[..|prev| - 1] == prev[..|prev| - 1] && r[|prev| - 1].id == prev[|prev| - 1].id
  {
    if |prev| > 0 && prev[|prev| - 1].role == ui.role && SameOrContained(prev[|prev| - 1].content, ui.content) then
      var last := prev[|prev| - 1];
      if |Normalize(ui.content)| > |Normalize(last.content)| then prev[..|prev| - 1] + [Overlay(last, ui)]
      else prev
    else prev + [Entry(ui, id, timestamp)]
  }

  /** The merge keeps every old entry's id in place. */
  lemma MergeKeepsIds(prev: seq<ChatMessage>, ui: UiMessage, id: string, timestamp: string)
    ensures var r := MergeFinal(prev, ui, id, timestamp);
      forall k :: 0 <= k < |prev| ==> r[k].id == prev[k].id
  {
    IdsKept(prev, MergeFinal(prev, ui, id, timestamp), Entry(ui, id, timestamp));
  }

  /** A list that is the old one with one entry appended, or with its last entry replaced under the same id, keeps the old ids. */
  lemma IdsKept(prev: seq<ChatMessage>, r: seq<ChatMessage>, e: ChatMessage)
    requires |r| == |prev| || r == prev + [e]
    requires |r| == |prev| ==> |prev| > 0 && r[..|prev| - 1] == prev[..|prev| - 1] && r[|prev| - 1].id == prev[|prev| - 1].id
    ensures forall k :: 0 <= k < |prev| ==> r[k].id == prev[k].id
  {
    if |r| == |prev| {
      forall k | 0 <= k < |prev| ensures r[k].id == prev[k].id {
        if k < |prev| - 1 {
          assert r[k] == r[..|prev| - 1][k];
        }
      }
    } else {
      assert forall k :: 0 <= k < |prev| ==> r[k] == prev[k];
    }
  }

  /**
   * The merge adds no entry exactly when the last entry has the same role
   * and a matching text, then keeps whichever normalised text is longer;
   * a blank message is never merged.
   */
  lemma MergeFinalKeepsLonger(prev: seq<ChatMessage>, ui: UiMessage, id: string, timestamp: string)
    ensures var r := MergeFinal(prev, ui, id, timestamp);
      (|r| == |prev| + 1 <==>
        |prev| == 0 || prev[|prev| - 1].role != ui.role || !SameOrContained(prev[|prev| - 1].content, ui.content))
      && (|r| == |prev| ==>
        var n := |Normalize(r[|r| - 1].content)|;
        n >= |Normalize(ui.content)| && n >= |Normalize(prev[|prev| - 1].content)|
        && (r != prev ==> r[|r| - 1].content == ui.content))
      && (Normalize(ui.content) == "" ==> |r| == |prev| + 1)
  {
  }

  /** `prev.find(m => m.id === id)`, as an index. */
  function FindById(msgs: seq<ChatMessage>, id: string, from: nat): (r: Option<nat>)
    requires from <= |msgs|
    ensures r.Some? ==> from <= r.value < |msgs| && msgs[r.value].id == id
    ensures r.None? ==> forall k :: from <= k < |msgs| ==> msgs[k].id != id
    decreases |msgs| - from
  {
    if from == |msgs| then None
    else if msgs[from].id == id then Some(from)
    else FindById(msgs, id, from + 1)
  }

  /** The message list and the id of the entry being streamed into. */
  datatype Transcript = Transcript(messages: seq<ChatMessage>, streamingId: Option<string>)

  /** Every entry with the given id, changed by `f`; the others unchanged. */
  function AppendChunk(msgs: seq<ChatMessage>, id: string, chunk: string): (r: seq<ChatMessage>)
    ensures |r| == |msgs|
    ensures forall k :: 0 <= k < |r| ==> r[k].id == msgs[k].id
    ensures forall k :: 0 <= k < |r| ==>
      if msgs[k].id == id then r[k] == msgs[k].(content := msgs[k].content + chunk) else r[k] == msgs[k]
  {
    seq(|msgs|, k requires 0 <= k < |msgs| => if msgs[k].id == id then msgs[k].(content := msgs[k].content + chunk) else msgs[k])
  }

  function Finalize(msgs: seq<ChatMessage>, id: string, ui: UiMessage): (r: seq<ChatMessage>)
    ensures |r| == |msgs|
    ensures forall k :: 0 <= k < |r| ==> r[k].id == msgs[k].id
    ensures forall k :: 0 <= k < |r| ==>
      if msgs[k].id == id then r[k] == Overlay(msgs[k], ui).(streaming := false) else r[k] == msgs[k]
  {
    seq(|msgs|, k requires 0 <= k < |msgs| => if msgs[k].id == id then Overlay(msgs[k], ui).(streaming := false) else msgs[k])
  }

  /**
   * A mapped message applied to the transcript: a streamed piece extends
   * the streaming entry when the roles agree and starts a new one
   * otherwise; a complete assistant message overwrites the streaming
   * entry; other complete messages are appended, or merged when nothing
   * streams.
   */
  function ApplyMessage(t: Transcript, ui: UiMessage, newId: string, timestamp: string): (r: Transcript)
    ensures |t.messages| <= |r.messages| <= |t.messages| + 1
    ensures forall k :: 0 <= k < |t.messages| ==> r.messages[k].id == t.messages[k].id
    ensures |r.messages| == |t.messages| + 1 ==> r.messages[|t.messages|] == Entry(ui, newId, timestamp)
    ensures ui.streaming ==> r.streamingId.Some?
    ensures !ui.streaming ==> r.streamingId == t.streamingId
  {
    if ui.streaming then ApplyPiece(t, ui, newId, timestamp) else ApplyComplete(t, ui, newId, timestamp)
  }

  /** A streamed piece. */
  function ApplyPiece(t: Transcript, ui: UiMessage, newId: string, timestamp: string): (r: Transcript)
    ensures |t.messages| <= |r.messages| <= |t.messages| + 1
    ensures forall k :: 0 <= k < |t.messages| ==> r.messages[k].id == t.messages[k].id
    ensures |r.messages| == |t.messages| + 1 ==> r.messages[|t.messages|] == Entry(ui, newId, timestamp)
    ensures r.streamingId.Some?
  {
    match t.streamingId
    case Some(sid) =>
      var e := FindById(t.messages, sid, 0);
      if e.Some? && t.messages[e.value].role == ui.role then Transcript(AppendChunk(t.messages, sid, ui.content), t.streamingId)
      else Transcript(t.messages + [Entry(ui, newId, timestamp)], Some(newId))
    case None => Transcript(t.messages + [Entry(ui, newId, timestamp)], Some(newId))
  }

  /** A complete message. */
  function ApplyComplete(t: Transcript, ui: UiMessage, newId: string, timestamp: string): (r: Transcript)
    ensures |t.messages| <= |r.messages| <= |t.messages| + 1
    ensures forall k :: 0 <= k < |t.messages| ==> r.messages[k].id == t.messages[k].id
    ensures |r.messages| == |t.messages| + 1 ==> r.messages[|t.messages|] == Entry(ui, newId, timestamp)
    ensures r.streamingId == t.streamingId
  {
    match t.streamingId
    case Some(sid) =>
      if ui.role == Assistant then Transcript(Finalize(t.messages, sid, ui), t.streamingId)
      else Transcript(t.messages + [Entry(ui, newId, timestamp)], t.streamingId)
    case None =>
      var r := MergeFinal(t.messages, ui, newId, timestamp);
      MergeKeepsIds(t.messages, ui, newId, timestamp);
      Transcript(r, None)
  }

  /** A streamed piece of the same role as the streaming entry is appended to its text, and nothing else changes. */
  lemma StreamingPieceExtends(t: Transcript, ui: UiMessage, newId: string, timestamp: string, j: nat)
    requires ui.streaming && t.streamingId.Some?
    requires j < |t.messages| && t.messages[j].id == t.streamingId.value && t.messages[j].role == ui.role
    requires forall k :: 0 <= k < j ==> t.messages[k].id != t.streamingId.value
    ensures var r := ApplyMessage(t, ui, newId, timestamp);
      r.streamingId == t.streamingId && |r.messages| == |t.messages|
      && r.messages[j].content == t.messages[j].content + ui.content
      && forall k :: 0 <= k < |t.messages| && t.messages[k].id != t.streamingId.value ==> r.messages[k] == t.messages[k]
  {
    assert FindById(t.messages, t.streamingId.value, 0) == Some(j) by {
      FindByIdFirst(t.messages, t.streamingId.value, 0, j);
    }
  }

  lemma {:induction false} FindByIdFirst(msgs: seq<ChatMessage>, id: string, from: nat, j: nat)
    requires from <= j < |msgs| && msgs[j].id == id
    requires forall k :: from <= k < j ==> msgs[k].id != id
    ensures FindById(msgs, id, from) == Some(j)
    decreases j - from
  {
    if from < j {
      FindByIdFirst(msgs, id, from + 1, j);
    }
  }

  /** The stream ended: nothing streams any more. */
  function Complete(t: Transcript): (r: Transcript)
    ensures r.messages == t.messages && r.streamingId.None?
  {
    Transcript(t.messages, None)
  }

  /**
   * A `message` event: a complete assistant message's hidden code blocks
   * are cut from its text and those not run before are handed out to run;
   * then the message is applied to the transcript.
   */
  method OnMessage(guard: CodeRunGuard, t: Transcript, ui: UiMessage, newId: string, timestamp: string)
    returns (r: Transcript, toRun: seq<CodeExecutor.OfficeCodeBlock>)
    modifies guard
    ensures var blocks := CodeExecutor.Trimmed(CodeExecutor.ExtractFrom(ui.content, 0));
      var runs := !ui.streaming && ui.role == Assistant && ui.content != "" && |blocks| > 0;
      (runs ==>
        toRun == FreshBlocks(blocks, old(guard.executed))
        && guard.executed == old(guard.executed) + KeysFrom(Fingerprints(blocks), 0)
        && r == ApplyMessage(t, ui.(content := CodeExecutor.RemoveHiddenOfficeCode(ui.content)), newId, timestamp))
      && (!runs ==> toRun == [] && guard.executed == old(guard.executed) && r == ApplyMessage(t, ui, newId, timestamp))
  {
    var shown := ui;
    toRun := [];
    if !ui.streaming && ui.role == Assistant && ui.content != "" {
      var blocks := CodeExecutor.ExtractHiddenOfficeCode(ui.content);
      if |blocks| > 0 {
        shown := ui.(content := CodeExecutor.RemoveHiddenOfficeCode(ui.content));
        toRun := guard.Admit(blocks);
      }
    }
    r := ApplyMessage(t, shown, newId, timestamp);
  }

  // ---------------------------------------------------------------------
  // Todo list and task updates
  // ---------------------------------------------------------------------

  const DefaultTaskTitle := "任务规划"

  /** `a || b` on optional strings: an empty string counts as absent. */
  function OrElse(a: Option<string>, b: Option<string>): (r: Option<string>)
    ensures r == a || r == b
    ensures a.Some? && a.value != "" ==> r == a
  {
    if a.Some? && a.value != "" then a else b
  }

  /** `prev.findIndex(m => m.role === "task_list")` */
  function FirstTaskList(msgs: seq<ChatMessage>, from: nat): (r: Option<nat>)
    requires from <= |msgs|
    ensures r.Some? ==> from <= r.value < |msgs| && msgs[r.value].role == TaskList
    ensures r.Some? ==> forall k :: from <= k < r.value ==> msgs[k].role != TaskList
    ensures r.None? ==> forall k :: from <= k < |msgs| ==> msgs[k].role != TaskList
    decreases |msgs| - from
  {
    if from == |msgs| then None
    else if msgs[from].role == TaskList then Some(from)
    else FirstTaskList(msgs, from + 1)
  }

  /** The number of task-list entries. */
  function CountTaskLists(msgs: seq<ChatMessage>): nat
  {
    if |msgs| == 0 then 0
    else CountTaskLists(msgs[..|msgs| - 1]) + (if msgs[|msgs| - 1].role == TaskList then 1 else 0)
  }

  /** The metadata of an existing task list after a `todos` event. */
  function PatchTaskMeta(meta: Option<Metadata>, todos: seq<TodoItem>, title: Option<string>, objective: Option<string>): Metadata
  {
    var m := meta.GetOr(NoMetadata);
    m.(tasks := Some(todos),
       taskTitle := OrElse(title, OrElse(m.taskTitle, Some(DefaultTaskTitle))),
       taskObjective := OrElse(objective, m.taskObjective))
  }

  /**
   * A `todos` event's update of the transcript: the first task-list entry
   * takes the new todos (the title falls back to its own, then to
   * 任务规划), or a new task-list entry is appended.
   */
  function UpsertTaskList(prev: seq<ChatMessage>, todos: seq<TodoItem>, title: Option<string>, objective: Option<string>,
                          id: string, timestamp: string): (r: seq<ChatMessage>)
    ensures FirstTaskList(r, 0).Some?
    ensures var j := FirstTaskList(r, 0).value;
      r[j].metadata.Some? && r[j].metadata.value.tasks == Some(todos)
      && r[j].metadata.value.taskTitle.Some? && r[j].metadata.value.taskTitle.value != ""
    ensures FirstTaskList(prev, 0).Some? ==>
      |r| == |prev| && forall k :: 0 <= k < |r| && k != FirstTaskList(prev, 0).value ==> r[k] == prev[k]
    ensures FirstTaskList(prev, 0).None? ==> |r| == |prev| + 1 && r[..|prev|] == prev
  {
    match FirstTaskList(prev, 0)
    case Some(j) =>
      var r := prev[j := prev[j].(metadata := Some(PatchTaskMeta(prev[j].metadata, todos, title, objective)))];
      assert FirstTaskList(r, 0) == Some(j) by { FirstTaskListAt(r, 0, j); }
      r
    case None =>
      var entry := ChatMessage(id, TaskList, "", timestamp,
        Some(NoMetadata.(tasks := Some(todos), taskTitle := OrElse(title, Some(DefaultTaskTitle)), taskObjective := objective)), false);
      var r := prev + [entry];
      assert FirstTaskList(r, 0) == Some(|prev|) by { FirstTaskListAt(r, 0, |prev|); }
      r
  }

  lemma {:induction false} FirstTaskListAt(msgs: seq<ChatMessage>, from: nat, j: nat)
    requires from <= j < |msgs| && msgs[j].role == TaskList
    requires forall k :: from <= k < j ==> msgs[k].role != TaskList
    ensures FirstTaskList(msgs, from) == Some(j)
    decreases j - from
  {
    if from < j {
      FirstTaskListAt(msgs, from + 1, j);
    }
  }

  /** Replacing an entry by one of the same kind keeps the number of task lists. */
  lemma {:induction false} CountTaskListsUpdate(msgs: seq<ChatMessage>, j: nat, m: ChatMessage)
    requires j < |msgs| && (m.role == TaskList <==> msgs[j].role == TaskList)
    ensures CountTaskLists(msgs[j := m]) == CountTaskLists(msgs)
  {
    var n := |msgs| - 1;
    if j < n {
      CountTaskListsUpdate(msgs[..n], j, m);
      assert msgs[j := m][..n] == msgs[..n][j := m];
    } else {
      assert msgs[j := m][..n] == msgs[..n];
    }
  }

  /** A `todos` event leaves exactly one task list where there were at most one. */
  lemma UpsertKeepsOneTaskList(prev: seq<ChatMessage>, todos: seq<TodoItem>, title: Option<string>, objective: Option<string>,
                               id: string, timestamp: string)
    requires CountTaskLists(prev) <= 1
    ensures CountTaskLists(UpsertTaskList(prev, todos, title, objective, id, timestamp)) == 1
  {
    var r := UpsertTaskList(prev, todos, title, objective, id, timestamp);
    match FirstTaskList(prev, 0)
    case Some(j) =>
      CountTaskListsUpdate(prev, j, r[j]);
      assert r == prev[j := r[j]];
      CountPositive(prev, j);
    case None =>
      CountZero(prev);
      assert r[..|prev|] == prev;
  }

  lemma {:induction false} CountPositive(msgs: seq<ChatMessage>, j: nat)
    requires j < |msgs| && msgs[j].role == TaskList
    ensures CountTaskLists(msgs) >= 1
  {
    var n := |msgs| - 1;
    if j < n {
      CountPositive(msgs[..n], j);
    }
  }

  lemma {:induction false} CountZero(msgs: seq<ChatMessage>)
    requires forall k :: 0 <= k < |msgs| ==> msgs[k].role != TaskList
    ensures CountTaskLists(msgs) == 0
  {
    if |msgs| > 0 {
      CountZero(msgs[..|msgs| - 1]);
    }
  }

  /** Two task-list entries mean at least two. */
  lemma {:induction false} CountTwo(msgs: seq<ChatMessage>, i: nat, j: nat)
    requires i < j < |msgs| && msgs[i].role == TaskList && msgs[j].role == TaskList
    ensures CountTaskLists(msgs) >= 2
  {
    var n := |msgs| - 1;
    if j < n {
      CountTwo(msgs[..n], i, j);
    } else {
      CountPositive(msgs[..n], i);
    }
  }

  /** The todo panel: its items and whether it is shown. */
  datatype TodoPanel = TodoPanel(todos: seq<TodoItem>, show: bool)

  /** A `todos` event; a missing, non-array or empty list changes nothing. */
  function OnTodos(msgs: seq<ChatMessage>, panel: TodoPanel, todos: Option<seq<TodoItem>>,
                   title: Option<string>, objective: Option<string>, id: string, timestamp: string)
    : (r: (seq<ChatMessage>, TodoPanel))
    ensures todos.None? || |todos.value| == 0 ==> r == (msgs, panel)
    ensures todos.Some? && |todos.value| > 0 ==>
      r.1 == TodoPanel(todos.value, true) && r.0 == UpsertTaskList(msgs, todos.value, title, objective, id, timestamp)
  {
    if todos.None? || |todos.value| == 0 then (msgs, panel)
    else (UpsertTaskList(msgs, todos.value, title, objective, id, timestamp), TodoPanel(todos.value, true))
  }

  /** The todo with the given id takes the status, result and error of a `task_update`. */
  function PatchTodo(t: TodoItem, taskId: string, status: TaskStatus, result: Option<string>, error: Option<string>): TodoItem
  {
    if t.id == taskId then t.(status := status, result := result, error := error) else t
  }

  /** `todos.map(...)`: only todos with the given id change, and only in status, result and error. */
  function UpdateTodos(todos: seq<TodoItem>, taskId: string, status: TaskStatus, result: Option<string>, error: Option<string>)
    : (r: seq<TodoItem>)
    ensures |r| == |todos|
    ensures forall k :: 0 <= k < |r| ==> r[k].id == todos[k].id && r[k].content == todos[k].content && r[k].activeForm == todos[k].activeForm
    ensures forall k :: 0 <= k < |r| && todos[k].id != taskId ==> r[k] == todos[k]
    ensures forall k :: 0 <= k < |r| && todos[k].id == taskId ==> r[k].status == status && r[k].result == result && r[k].error == error
  {
    seq(|todos|, k requires 0 <= k < |todos| => PatchTodo(todos[k], taskId, status, result, error))
  }

  /** Applying the same update twice is the same as once. */
  lemma UpdateTodosIdempotent(todos: seq<TodoItem>, taskId: string, status: TaskStatus, result: Option<string>, error: Option<string>)
    ensures UpdateTodos(UpdateTodos(todos, taskId, status, result, error), taskId, status, result, error)
         == UpdateTodos(todos, taskId, status, result, error)
  {
  }

  /** A task-list entry carrying tasks. */
  predicate HoldsTasks(m: ChatMessage)
  {
    m.role == TaskList && m.metadata.Some? && m.metadata.value.tasks.Some?
  }

  /** The index of the newest task-list entry carrying tasks. */
  function NewestTaskList(msgs: seq<ChatMessage>): (r: Option<nat>)
    ensures r.Some? ==> r.value < |msgs| && HoldsTasks(msgs[r.value])
    ensures r.Some? ==> forall k :: r.value < k < |msgs| ==> !HoldsTasks(msgs[k])
    ensures r.None? ==> forall k :: 0 <= k < |msgs| ==> !HoldsTasks(msgs[k])
  {
    if |msgs| == 0 then None
    else if HoldsTasks(msgs[|msgs| - 1]) then Some(|msgs| - 1)
    else NewestTaskList(msgs[..|msgs| - 1])
  }

  function PatchTaskList(m: ChatMessage, taskId: string, status: TaskStatus, result: Option<string>, error: Option<string>)
    : ChatMessage
    requires HoldsTasks(m)
  {
    var meta := m.metadata.value;
    m.(metadata := Some(meta.(tasks := Some(UpdateTodos(meta.tasks.value, taskId, status, result, error)))))
  }

  /** The transcript after a `task_update`, as a function of the old one. */
  function TaskUpdated(prev: seq<ChatMessage>, taskId: string, status: TaskStatus, result: Option<string>, error: Option<string>)
    : seq<ChatMessage>
  {
    match NewestTaskList(prev)
    case None => prev
    case Some(j) => prev[j := PatchTaskList(prev[j], taskId, status, result, error)]
  }

  /** The backward search of a `task_update`: the first task list from the end takes the update, then the loop stops. */
  method UpdateNewestTaskList(prev: seq<ChatMessage>, taskId: string, status: TaskStatus, result: Option<string>, error: Option<string>)
    returns (r: seq<ChatMessage>)
    ensures r == TaskUpdated(prev, taskId, status, result, error)
  {
    r := prev;
    var i := |prev|;
    while i > 0
      invariant 0 <= i <= |prev|
      invariant r == prev
      invariant forall k :: i <= k < |prev| ==> !HoldsTasks(prev[k])
    {
      i := i - 1;
      if HoldsTasks(prev[i]) {
        r := prev[i := PatchTaskList(prev[i], taskId, status, result, error)];
        NewestTaskListAt(prev, i);
        return;
      }
    }
    NewestTaskListNone(prev);
  }

  lemma {:induction false} NewestTaskListAt(msgs: seq<ChatMessage>, i: nat)
    requires i < |msgs| && HoldsTasks(msgs[i])
    requires forall k :: i < k < |msgs| ==> !HoldsTasks(msgs[k])
    ensures NewestTaskList(msgs) == Some(i)
  {
    if i < |msgs| - 1 {
      NewestTaskListAt(msgs[..|msgs| - 1], i);
    }
  }

  lemma {:induction false} NewestTaskListNone(msgs: seq<ChatMessage>)
    requires forall k :: 0 <= k < |msgs| ==> !HoldsTasks(msgs[k])
    ensures NewestTaskList(msgs) == None
  {
    if |msgs| > 0 {
      NewestTaskListNone(msgs[..|msgs| - 1]);
    }
  }

  /**
   * A `task_update` changes only the newest task list, and in it only the
   * todos with the given id; every other entry is kept.
   */
  lemma TaskUpdateNewestOnly(prev: seq<ChatMessage>, taskId: string, status: TaskStatus, result: Option<string>, error: Option<string>)
    ensures var r := TaskUpdated(prev, taskId, status, result, error);
      |r| == |prev|
      && (NewestTaskList(prev).None? ==> r == prev)
      && (NewestTaskList(prev).Some? ==>
            var j := NewestTaskList(prev).value;
            (forall k :: 0 <= k < |r| && k != j ==> r[k] == prev[k])
            && r[j].id == prev[j].id && HoldsTasks(r[j])
            && r[j].metadata.value.tasks.value
               == UpdateTodos(prev[j].metadata.value.tasks.value, taskId, status, result, error))
  {
  }

  /**
   * Once a `todos` event has kept a single task list, a `task_update`
   * updates that same entry.
   */
  lemma TaskUpdateFindsUpsertedList(prev: seq<ChatMessage>, todos: seq<TodoItem>, title: Option<string>, objective: Option<string>,
                                    id: string, timestamp: string)
    requires CountTaskLists(prev) <= 1
    ensures var r := UpsertTaskList(prev, todos, title, objective, id, timestamp);
      NewestTaskList(r) == FirstTaskList(r, 0)
  {
    var r := UpsertTaskList(prev, todos, title, objective, id, timestamp);
    UpsertKeepsOneTaskList(prev, todos, title, objective, id, timestamp);
    var j := FirstTaskList(r, 0).value;
    assert HoldsTasks(r[j]);
    var n := NewestTaskList(r);
    if n.value != j {
      assert j < n.value;
      CountTwo(r, j, n.value);
      assert false;
    }
  }
}
