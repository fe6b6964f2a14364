/**
 * The regression runner's executor (tests/office-skills/test-runner/
 * TestExecutor.ts): it posts a test case's prompt to the chat route with a
 * bounded retry, reads the streamed reply as server-sent events, rebuilds
 * the assistant text, takes the hidden Office code blocks for its host,
 * decides the test status, logs, and runs whole suites.
 *
 * The network, the Office.js run, the clock and `JSON.parse` are parameters:
 * `Env` says what each of them answers for one test case.
 */
module TestRun {
  import opened Wrappers
  import Str
  import Json
  import UseChat
  import CodeExecutor
  import opened TestTypes
  import TestLog

  // ---------------------------------------------------------------------------
  // The frame parser of this file
  // ---------------------------------------------------------------------------

  const Sep := UseChat.FrameSeparator

  /** The rest of a `data:` line after the prefix, less one leading space. */
  function StripOneSpace(v: string): (r: string)
    ensures |v| > 0 && v[0] == ' ' ==> v == [' '] + r
    ensures !(|v| > 0 && v[0] == ' ') ==> r == v
  {
    if |v| > 0 && v[0] == ' ' then v[1..] else v
  }

  /** The value a `data:` line contributes. */
  function DataValue(line: string): string
    requires Str.StartsWith(line, UseChat.DataPrefix)
  {
    StripOneSpace(line[|UseChat.DataPrefix|..])
  }

  /** One line of a frame: `event:` sets the type, `data:` appends to the data. */
  function ScanLine(f: UseChat.Fields, line: string): UseChat.Fields
  {
    if Str.StartsWith(line, UseChat.EventPrefix) then f.(eventType := Str.Trim(line[|UseChat.EventPrefix|..]))
    else if Str.StartsWith(line, UseChat.DataPrefix) then f.(data := f.data + DataValue(line))
    else f
  }

  function ScanLines(lines: seq<string>): UseChat.Fields
  {
    if |lines| == 0 then UseChat.Fields(UseChat.DefaultEventType, "")
    else ScanLine(ScanLines(lines[..|lines| - 1]), lines[|lines| - 1])
  }

  lemma ScanStep(lines: seq<string>, i: nat)
    requires i < |lines|
    ensures ScanLines(lines[..i + 1]) == ScanLine(ScanLines(lines[..i]), lines[i])
  {
    assert lines[..i + 1][..i] == lines[..i];
  }

  /** What one line does to the fields, branch by branch. */
  lemma ScanLineCases(f: UseChat.Fields, line: string)
    ensures Str.StartsWith(line, UseChat.EventPrefix) ==>
      ScanLine(f, line) == f.(eventType := Str.Trim(line[6..]))
    ensures !Str.StartsWith(line, UseChat.EventPrefix) && Str.StartsWith(line, UseChat.DataPrefix) ==>
      ScanLine(f, line) == f.(data := f.data + StripOneSpace(line[5..]))
    ensures !Str.StartsWith(line, UseChat.EventPrefix) && !Str.StartsWith(line, UseChat.DataPrefix) ==>
      ScanLine(f, line) == f
  {
  }

  /** The values of the `data:` lines, in order. */
  function DataValues(lines: seq<string>): (r: seq<string>)
    ensures |r| <= |lines|
  {
    if |lines| == 0 then []
    else
      var last := lines[|lines| - 1];
      DataValues(lines[..|lines| - 1]) + (if !Str.StartsWith(last, UseChat.EventPrefix) && Str.StartsWith(last, UseChat.DataPrefix) then [DataValue(last)] else [])
  }

  /** `pieces.join("")` */
  function Concat(ss: seq<string>): string
  {
    if |ss| == 0 then "" else Concat(ss[..|ss| - 1]) + ss[|ss| - 1]
  }

  lemma {:induction false} ConcatAppend(a: seq<string>, b: seq<string>)
    ensures Concat(a + b) == Concat(a) + Concat(b)
  {
    if |b| == 0 {
      assert a + b == a;
    } else {
      assert (a + b)[..|a + b| - 1] == a + b[..|b| - 1];
      ConcatAppend(a, b[..|b| - 1]);
    }
  }

  /** The data of a frame is every `data:` value, in order, with nothing between them. */
  lemma {:induction false} FrameData(lines: seq<string>)
    ensures ScanLines(lines).data == Concat(DataValues(lines))
  {
    if |lines| > 0 {
      var front, last := lines[..|lines| - 1], lines[|lines| - 1];
      FrameData(front);
      var vs := DataValues(front);
      if !Str.StartsWith(last, UseChat.EventPrefix) && Str.StartsWith(last, UseChat.DataPrefix) {
        assert (vs + [DataValue(last)])[..|vs|] == vs;
      } else {
        assert vs + [] == vs;
      }
    }
  }

  /** The type of a frame is the last `event:` line's, "message" when there is none. */
  lemma {:induction false} FrameType(lines: seq<string>)
    ensures ScanLines(lines).eventType ==
      match UseChat.LastWith(lines, UseChat.EventPrefix)
      case None => UseChat.DefaultEventType
      case Some(j) => Str.Trim(lines[j][|UseChat.EventPrefix|..])
  {
    if |lines| > 0 {
      var front, last := lines[..|lines| - 1], lines[|lines| - 1];
      FrameType(front);
      assert ScanLines(lines) == ScanLine(ScanLines(front), last);
      if Str.StartsWith(last, UseChat.EventPrefix) {
        assert UseChat.LastWith(lines, UseChat.EventPrefix) == Some(|lines| - 1);
      } else {
        assert UseChat.LastWith(lines, UseChat.EventPrefix) == UseChat.LastWith(front, UseChat.EventPrefix);
        assert ScanLines(lines).eventType == ScanLines(front).eventType;
        match UseChat.LastWith(front, UseChat.EventPrefix)
        case None =>
        case Some(j) => assert lines[j] == front[j];
      }
    }
  }

  function Lines(chunk: string): seq<string>
  {
    Str.Split(chunk, "\n")
  }

  /** The event a complete frame yields: none for a blank frame, no data, or data that does not parse. */
  function ChunkEvent(chunk: string, parse: string -> Option<Json.Json>): Option<UseChat.SseEvent>
  {
    if Str.Trim(chunk) == "" then None
    else
      var f := ScanLines(Lines(chunk));
      if f.data == "" then None
      else match parse(f.data)
        case Some(j) => Some(UseChat.SseEvent(f.eventType, j))
        case None => None
  }

  /** A frame yields an event exactly when it is not blank and its concatenated data is non-empty and parses. */
  lemma ChunkEventCases(chunk: string, parse: string -> Option<Json.Json>)
    ensures var d := Concat(DataValues(Lines(chunk)));
      (ChunkEvent(chunk, parse).Some? <==> Str.Trim(chunk) != "" && d != "" && parse(d).Some?)
      && (ChunkEvent(chunk, parse).Some? ==> ChunkEvent(chunk, parse).value.data == parse(d).value)
  {
    FrameData(Lines(chunk));
  }

  function EventOf(chunk: string, parse: string -> Option<Json.Json>): seq<UseChat.SseEvent>
  {
    match ChunkEvent(chunk, parse) case Some(e) => [e] case None => []
  }

  /** The events of the complete frames, in order. */
  function EventsOf(chunks: seq<string>, parse: string -> Option<Json.Json>): (r: seq<UseChat.SseEvent>)
    ensures |r| <= |chunks|
  {
    if |chunks| == 0 then [] else EventsOf(chunks[..|chunks| - 1], parse) + EventOf(chunks[|chunks| - 1], parse)
  }

  /** Frames are read independently: a frame that yields nothing does not stop the frames after it. */
  lemma {:induction false} EventsOfAppend(a: seq<string>, b: seq<string>, parse: string -> Option<Json.Json>)
    ensures EventsOf(a + b, parse) == EventsOf(a, parse) + EventsOf(b, parse)
  {
    if |b| == 0 {
      assert a + b == a;
    } else {
      assert (a + b)[..|a + b| - 1] == a + b[..|b| - 1];
      EventsOfAppend(a, b[..|b| - 1], parse);
    }
  }

  /** An unparsable frame between two runs of frames is skipped and nothing else is lost. */
  lemma BadFrameSkipped(a: seq<string>, bad: string, b: seq<string>, parse: string -> Option<Json.Json>)
    requires parse(ScanLines(Lines(bad)).data).None?
    ensures EventsOf(a + [bad] + b, parse) == EventsOf(a, parse) + EventsOf(b, parse)
  {
    assert ChunkEvent(bad, parse).None?;
    assert EventsOf([bad], parse) == [] by {
      assert [bad][..0] == [];
    }
    EventsOfAppend(a + [bad], b, parse);
    EventsOfAppend(a, [bad], parse);
  }

  lemma EventsOfStep(chunks: seq<string>, i: nat, parse: string -> Option<Json.Json>)
    requires i < |chunks|
    ensures EventsOf(chunks[..i + 1], parse) == EventsOf(chunks[..i], parse) + EventOf(chunks[i], parse)
  {
    assert chunks[..i + 1][..i] == chunks[..i];
  }

  /** The `event:`/`data:` loop over one frame's lines. */
  method ScanChunk(chunk: string) returns (eventType: string, data: string)
    ensures UseChat.Fields(eventType, data) == ScanLines(Lines(chunk))
  {
    var lines := Str.Split(chunk, "\n");
    eventType := UseChat.DefaultEventType;
    data := "";
    var i := 0;
    while i < |lines|
      invariant 0 <= i <= |lines|
      invariant UseChat.Fields(eventType, data) == ScanLines(lines[..i])
    {
      var line := lines[i];
      ScanStep(lines, i);
      ScanLineCases(UseChat.Fields(eventType, data), line);
      if Str.StartsWith(line, UseChat.EventPrefix) {
        eventType := Str.Trim(line[6..]);
      } else if Str.StartsWith(line, UseChat.DataPrefix) {
        var v := line[5..];
        data := data + (if |v| > 0 && v[0] == ' ' then v[1..] else v);
      }
      i := i + 1;
    }
    assert lines[..i] == lines;
  }

  /** The body of the frame loop: skip blank frames, empty data and data that does not parse. */
  method ParseChunk(chunk: string, parse: string -> Option<Json.Json>) returns (e: Option<UseChat.SseEvent>)
    ensures e == ChunkEvent(chunk, parse)
  {
    e := None;
    if Str.Trim(chunk) != "" {
      var eventType, data := ScanChunk(chunk);
      if data != "" {
        var value := parse(data);
        if value.Some? {
          e := Some(UseChat.SseEvent(eventType, value.value));
        }
      }
    }
  }

  /** `parseSSEBuffer`: the events of the complete frames, and the last segment as the rest. */
  method ParseSseBuffer(buffer: string, parse: string -> Option<Json.Json>)
    returns (parsed: seq<UseChat.SseEvent>, remaining: string)
    ensures parsed == EventsOf(UseChat.Chunks(buffer), parse)
    ensures remaining == UseChat.Remaining(buffer)
  {
    var segments := Str.Split(buffer, Sep);
    remaining := segments[|segments| - 1];
    var chunks := segments[..|segments| - 1];
    parsed := [];
    var i := 0;
    while i < |chunks|
      invariant 0 <= i <= |chunks|
      invariant parsed == EventsOf(chunks[..i], parse)
    {
      var e := ParseChunk(chunks[i], parse);
      EventsOfStep(chunks, i, parse);
      if e.Some? {
        parsed := parsed + [e.value];
      }
      i := i + 1;
    }
    assert chunks[..i] == chunks;
  }

  // ---------------------------------------------------------------------------
  // Text pieces of the assistant reply
  // ---------------------------------------------------------------------------

  /** `m?.type === t` */
  predicate TypeIs(m: Json.Json, t: string)
  {
    Json.GetString(m, "type") == Some(t)
  }

  /** A `stream_event`'s `event.delta`, when it is a `text_delta` whose text is a string. */
  function DeltaPieces(m: Json.Json): seq<string>
  {
    match Json.Get(m, "event")
    case None => []
    case Some(e) =>
      match Json.Get(e, "delta")
      case None => []
      case Some(d) =>
        if TypeIs(d, "text_delta") && Json.GetString(d, "text").Some? then [Json.GetString(d, "text").value] else []
  }

  /** The piece one content item gives: its text when its type is `text` and the text is a string. */
  function ItemPieces(c: Json.Json): seq<string>
  {
    if TypeIs(c, "text") && Json.GetString(c, "text").Some? then [Json.GetString(c, "text").value] else []
  }

  /** The textual items of a content array, in order. */
  function ContentPieces(items: seq<Json.Json>): seq<string>
  {
    if |items| == 0 then [] else ContentPieces(items[..|items| - 1]) + ItemPieces(items[|items| - 1])
  }

  /** An `assistant` message's `message.content`, when it is an array. */
  function AssistantPieces(m: Json.Json): seq<string>
  {
    match Json.Get(m, "message")
    case None => []
    case Some(msg) =>
      match Json.Get(msg, "content")
      case Some(JArr(items)) => ContentPieces(items)
      case _ => []
  }

  /** A `result` message's `result`, when the subtype is `success` and the result a string. */
  function ResultPieces(m: Json.Json): seq<string>
  {
    if Json.GetString(m, "subtype") == Some("success") && Json.GetString(m, "result").Some? then [Json.GetString(m, "result").value] else []
  }

  /**
   * The pieces of one message. While the stream is read, text deltas count;
   * the pass over what is left of the buffer afterwards only looks at
   * `assistant` and `result` messages.
   */
  function MessagePieces(m: Json.Json, streaming: bool): seq<string>
  {
    if streaming && TypeIs(m, "stream_event") then DeltaPieces(m)
    else if TypeIs(m, "assistant") then AssistantPieces(m)
    else if TypeIs(m, "result") then ResultPieces(m)
    else []
  }

  /** Only events of type `message` carry pieces. */
  function EventPiecesOf(e: UseChat.SseEvent, streaming: bool): seq<string>
  {
    if e.eventType == UseChat.DefaultEventType then MessagePieces(e.data, streaming) else []
  }

  function EventPieces(es: seq<UseChat.SseEvent>, streaming: bool): seq<string>
  {
    if |es| == 0 then [] else EventPieces(es[..|es| - 1], streaming) + EventPiecesOf(es[|es| - 1], streaming)
  }

  lemma {:induction false} EventPiecesAppend(a: seq<UseChat.SseEvent>, b: seq<UseChat.SseEvent>, streaming: bool)
    ensures EventPieces(a + b, streaming) == EventPieces(a, streaming) + EventPieces(b, streaming)
  {
    if |b| == 0 {
      assert a + b == a;
    } else {
      var front, last := b[..|b| - 1], b[|b| - 1];
      assert (a + b)[..|a + b| - 1] == a + front;
      assert (a + b)[|a + b| - 1] == last;
      EventPiecesAppend(a, front, streaming);
      assert EventPieces(a + b, streaming) == EventPieces(a + front, streaming) + EventPiecesOf(last, streaming);
      assert EventPieces(b, streaming) == EventPieces(front, streaming) + EventPiecesOf(last, streaming);
      Str.Assoc(EventPieces(a, streaming), EventPieces(front, streaming), EventPiecesOf(last, streaming));
    }
  }

  /** The two passes differ only on text deltas, which the pass after the stream drops. */
  lemma PassesDiffer(m: Json.Json)
    ensures TypeIs(m, "stream_event") ==> MessagePieces(m, true) == DeltaPieces(m) && MessagePieces(m, false) == []
    ensures !TypeIs(m, "stream_event") ==> MessagePieces(m, false) == MessagePieces(m, true)
  {
  }

  /** The inner loop over a content array. */
  method CollectContent(items: seq<Json.Json>) returns (pieces: seq<string>)
    ensures pieces == ContentPieces(items)
  {
    pieces := [];
    var i := 0;
    while i < |items|
      invariant 0 <= i <= |items|
      invariant pieces == ContentPieces(items[..i])
    {
      var c := items[i];
      if TypeIs(c, "text") && Json.GetString(c, "text").Some? {
        pieces := pieces + [Json.GetString(c, "text").value];
      }
      assert items[..i + 1][..i] == items[..i];
      i := i + 1;
    }
    assert items[..i] == items;
  }

  /** The pieces of one message, as the branches of the event loop push them. */
  method CollectMessage(m: Json.Json, streaming: bool) returns (pieces: seq<string>)
    ensures pieces == MessagePieces(m, streaming)
  {
    pieces := [];
    if streaming && TypeIs(m, "stream_event") {
      pieces := DeltaPieces(m);
    } else if TypeIs(m, "assistant") {
      var msg := Json.Get(m, "message");
      if msg.Some? {
        var content := Json.Get(msg.value, "content");
        if content.Some? && content.value.JArr? {
          pieces := CollectContent(content.value.items);
        }
      }
    } else if TypeIs(m, "result") {
      pieces := ResultPieces(m);
    }
  }

  /** The loop over parsed events, skipping those whose type is not `message`. */
  method CollectPieces(parsed: seq<UseChat.SseEvent>, streaming: bool) returns (pieces: seq<string>)
    ensures pieces == EventPieces(parsed, streaming)
  {
    pieces := [];
    var i := 0;
    while i < |parsed|
      invariant 0 <= i <= |parsed|
      invariant pieces == EventPieces(parsed[..i], streaming)
    {
      assert parsed[..i + 1][..i] == parsed[..i];
      if parsed[i].eventType == UseChat.DefaultEventType {
        var more := CollectMessage(parsed[i].data, streaming);
        pieces := pieces + more;
      }
      i := i + 1;
    }
    assert parsed[..i] == parsed;
  }

  // ---------------------------------------------------------------------------
  // Frames split across reads
  // ---------------------------------------------------------------------------

  /** A frame that splits off cleanly: no separator inside, and no line break at its end. */
  predicate Clean(f: string)
  {
    !Str.Contains(f, Sep) && !(|f| > 0 && f[|f| - 1] == '\n')
  }

  /** A clean frame followed by the separator splits off first, whatever follows. */
  lemma SplitOff(f: string, rest: string)
    requires Clean(f)
    ensures Str.Split(f + Sep + rest, Sep) == [f] + Str.Split(rest, Sep)
  {
    var s := f + Sep + rest;
    assert Str.OccursAt(s, Sep, |f|) by {
      assert s[|f|..|f| + 2] == Sep;
    }
    forall j | 0 <= j < |f|
      ensures !Str.OccursAt(s, Sep, j)
    {
      if j + 2 <= |f| {
        assert !Str.OccursAt(f, Sep, j);
        assert f[j..j + 2] == s[j..j + 2];
      } else if j + 2 <= |s| {
        assert s[j..j + 2][0] == f[|f| - 1];
      }
    }
    var r := Str.IndexOfFrom(s, Sep, 0);
    assert r == Some(|f|);
    assert s[..|f|] == f;
    assert s[|f| + |Sep|..] == rest;
  }

  /** Every piece of a split but the last is clean. */
  lemma {:induction false} SplitPiecesClean(s: string)
    ensures forall k :: 0 <= k < |Str.Split(s, Sep)| - 1 ==> Clean(Str.Split(s, Sep)[k])
    decreases |s|
  {
    Str.SplitPiecesFree(s, Sep);
    match Str.IndexOfFrom(s, Sep, 0)
    case None =>
    case Some(i) =>
      var rest := s[i + |Sep|..];
      SplitPiecesClean(rest);
      assert Str.Split(s, Sep) == [s[..i]] + Str.Split(rest, Sep);
      if i > 0 && s[i - 1] == '\n' {
        assert s[i - 1..i + 1] == Sep by {
          assert s[i..i + 2] == Sep;
          assert s[i - 1..i + 1][1] == s[i] == '\n';
        }
        assert Str.OccursAt(s, Sep, i - 1);
        assert false;
      }
      assert Clean(Str.Split(s, Sep)[0]);
      forall k | 1 <= k < |Str.Split(s, Sep)| - 1
        ensures Clean(Str.Split(s, Sep)[k])
      {
        assert Str.Split(s, Sep)[k] == Str.Split(rest, Sep)[k - 1];
      }
  }

  /** Clean frames and a last piece without a separator, joined, split back into themselves. */
  lemma {:induction false} SplitJoin(parts: seq<string>)
    requires |parts| > 0
    requires forall k :: 0 <= k < |parts| - 1 ==> Clean(parts[k])
    requires !Str.Contains(parts[|parts| - 1], Sep)
    ensures Str.Split(Str.Join(parts, Sep), Sep) == parts
  {
    if |parts| == 1 {
      assert Str.IndexOfFrom(parts[0], Sep, 0).None?;
    } else {
      var rest := parts[1..];
      SplitJoin(rest);
      Str.JoinCons(parts[0], rest, Sep);
      assert [parts[0]] + rest == parts;
      SplitOff(parts[0], Str.Join(rest, Sep));
    }
  }

  /** The text read so far, as the frames taken out of it and the buffer still held. */
  function Read(frames: seq<string>, buffer: string): string
  {
    Str.Join(frames + [buffer], Sep)
  }

  /** Reading more text extends the buffer. */
  lemma ReadMore(frames: seq<string>, buffer: string, chunk: string)
    ensures Read(frames, buffer) + chunk == Read(frames, buffer + chunk)
  {
    if |frames| == 0 {
      assert frames + [buffer] == [buffer];
      assert frames + [buffer + chunk] == [buffer + chunk];
    } else {
      Str.JoinAppend(frames, buffer, Sep);
      Str.JoinAppend(frames, buffer + chunk, Sep);
    }
  }

  /** Splitting the buffer moves its complete frames over to the frames taken out. */
  lemma ReadSplit(frames: seq<string>, buffer: string)
    ensures Read(frames, buffer) == Read(frames + UseChat.Chunks(buffer), UseChat.Remaining(buffer))
  {
    var fs := UseChat.Frames(buffer);
    assert UseChat.Chunks(buffer) + [UseChat.Remaining(buffer)] == fs;
    Str.JoinSplit(buffer, Sep);
    assert frames + UseChat.Chunks(buffer) + [UseChat.Remaining(buffer)] == frames + fs;
    if |frames| == 0 {
      assert frames + fs == fs;
      assert frames + [buffer] == [buffer];
    } else {
      Str.JoinConcat(frames, fs, Sep);
      Str.JoinAppend(frames, buffer, Sep);
    }
  }

  // ---------------------------------------------------------------------------
  // Reading the stream
  // ---------------------------------------------------------------------------

  /** The preview grows with every read until it reaches this length. */
  const PreviewLimit := 4000

  /** What the read loop carries from one read to the next. */
  datatype Reader = Reader(buffer: string, pieces: seq<string>, preview: string)

  /** One read: the chunk joins the buffer and the preview, the complete frames are parsed and the rest kept. */
  function Feed(r: Reader, chunk: string, parse: string -> Option<Json.Json>): Reader
  {
    var b := r.buffer + chunk;
    Reader(UseChat.Remaining(b),
           r.pieces + EventPieces(EventsOf(UseChat.Chunks(b), parse), true),
           if |r.preview| < PreviewLimit then r.preview + chunk else r.preview)
  }

  /** The reader after the given reads, in order, from an empty one. */
  function FeedAll(chunks: seq<string>, parse: string -> Option<Json.Json>): Reader
  {
    if |chunks| == 0 then Reader("", [], "")
    else Feed(FeedAll(chunks[..|chunks| - 1], parse), chunks[|chunks| - 1], parse)
  }

  /** The frames the reads have taken out of the buffer, and the buffer left. */
  function Framed(chunks: seq<string>): (seq<string>, string)
  {
    if |chunks| == 0 then ([], "")
    else
      var p := Framed(chunks[..|chunks| - 1]);
      var b := p.1 + chunks[|chunks| - 1];
      (p.0 + UseChat.Chunks(b), UseChat.Remaining(b))
  }

  /** The reader holds the pieces of exactly the frames taken out so far. */
  lemma {:induction false} FeedFramed(chunks: seq<string>, parse: string -> Option<Json.Json>)
    ensures FeedAll(chunks, parse).buffer == Framed(chunks).1
    ensures FeedAll(chunks, parse).pieces == EventPieces(EventsOf(Framed(chunks).0, parse), true)
  {
    if |chunks| > 0 {
      var front := chunks[..|chunks| - 1];
      FeedFramed(front, parse);
      var b := Framed(front).1 + chunks[|chunks| - 1];
      EventsOfAppend(Framed(front).0, UseChat.Chunks(b), parse);
      EventPiecesAppend(EventsOf(Framed(front).0, parse), EventsOf(UseChat.Chunks(b), parse), true);
    }
  }

  /** Nothing read is lost: the frames taken out and the buffer make up the stream so far, and every frame is clean. */
  lemma {:induction false} FramedInvariant(chunks: seq<string>)
    ensures Concat(chunks) == Read(Framed(chunks).0, Framed(chunks).1)
    ensures forall k :: 0 <= k < |Framed(chunks).0| ==> Clean(Framed(chunks).0[k])
    ensures !Str.Contains(Framed(chunks).1, Sep)
  {
    if |chunks| == 0 {
      assert [] + [""] == [""];
    } else {
      var front := chunks[..|chunks| - 1];
      FramedInvariant(front);
      var fs, buffer := Framed(front).0, Framed(front).1;
      var b := buffer + chunks[|chunks| - 1];
      ReadMore(fs, buffer, chunks[|chunks| - 1]);
      ReadSplit(fs, b);
      SplitPiecesClean(b);
      UseChat.FramesRebuild(b);
      var more := UseChat.Chunks(b);
      forall k | 0 <= k < |fs + more|
        ensures Clean((fs + more)[k])
      {
        if k >= |fs| {
          assert (fs + more)[k] == Str.Split(b, Sep)[k - |fs|];
        }
      }
    }
  }

  /** However the stream is cut into reads, the frames taken out and the buffer left are those of the whole text. */
  lemma StreamFramed(chunks: seq<string>)
    ensures Framed(chunks).0 == UseChat.Chunks(Concat(chunks))
    ensures Framed(chunks).1 == UseChat.Remaining(Concat(chunks))
  {
    FramedInvariant(chunks);
    var fs, buffer := Framed(chunks).0, Framed(chunks).1;
    var parts := fs + [buffer];
    assert forall k :: 0 <= k < |parts| - 1 ==> parts[k] == fs[k];
    SplitJoin(parts);
    assert UseChat.Frames(Concat(chunks)) == parts;
    assert parts[..|parts| - 1] == fs;
  }

  /** The read loop parses each complete frame of the whole text once, in order. */
  lemma ReadWhole(chunks: seq<string>, parse: string -> Option<Json.Json>)
    ensures FeedAll(chunks, parse).pieces == EventPieces(EventsOf(UseChat.Chunks(Concat(chunks)), parse), true)
    ensures FeedAll(chunks, parse).buffer == UseChat.Remaining(Concat(chunks))
  {
    FeedFramed(chunks, parse);
    StreamFramed(chunks);
  }

  /** The pieces do not depend on where the reads cut the stream. */
  lemma ChunkingIrrelevant(a: seq<string>, b: seq<string>, parse: string -> Option<Json.Json>)
    requires Concat(a) == Concat(b)
    ensures FeedAll(a, parse).pieces == FeedAll(b, parse).pieces
    ensures FeedAll(a, parse).buffer == FeedAll(b, parse).buffer
  {
    ReadWhole(a, parse);
    ReadWhole(b, parse);
  }

  /** The preview is the start of the stream, all of it while it is shorter than the limit. */
  lemma {:induction false} PreviewIsPrefix(chunks: seq<string>, parse: string -> Option<Json.Json>)
    ensures FeedAll(chunks, parse).preview <= Concat(chunks)
    ensures |FeedAll(chunks, parse).preview| < PreviewLimit ==> FeedAll(chunks, parse).preview == Concat(chunks)
  {
    if |chunks| > 0 {
      var front := chunks[..|chunks| - 1];
      PreviewIsPrefix(front, parse);
    }
  }

  /** The length of the longest chunk. */
  function Longest(chunks: seq<string>): nat
  {
    if |chunks| == 0 then 0
    else
      var front := Longest(chunks[..|chunks| - 1]);
      if |chunks[|chunks| - 1]| > front then |chunks[|chunks| - 1]| else front
  }

  /**
   * The preview stops growing once it has reached the limit, so it can pass
   * the limit only by the chunk that took it there.
   */
  lemma {:induction false} PreviewBounded(chunks: seq<string>, parse: string -> Option<Json.Json>)
    ensures |FeedAll(chunks, parse).preview| < PreviewLimit + Longest(chunks)
  {
    if |chunks| > 0 {
      PreviewBounded(chunks[..|chunks| - 1], parse);
    }
  }

  /** A buffer with no separator holds no complete frame. */
  lemma LeftoverHasNoFrame(buffer: string)
    requires !Str.Contains(buffer, Sep)
    ensures UseChat.Chunks(buffer) == []
  {
    assert Str.Split(buffer, Sep) == [buffer];
  }

  /** The whole reply: the read loop's pieces, then the pass over the buffer still held when it is not blank. */
  function StreamPieces(stream: seq<string>, parse: string -> Option<Json.Json>): seq<string>
  {
    var r := FeedAll(stream, parse);
    r.pieces + (if Str.Trim(r.buffer) != "" then EventPieces(EventsOf(UseChat.Chunks(r.buffer), parse), false) else [])
  }

  /**
   * The pass after the stream ends never adds anything: the loop has left
   * no separator in the buffer, so an unterminated last frame is dropped.
   */
  lemma StreamPiecesWhole(stream: seq<string>, parse: string -> Option<Json.Json>)
    ensures StreamPieces(stream, parse) == EventPieces(EventsOf(UseChat.Chunks(Concat(stream)), parse), true)
  {
    ReadWhole(stream, parse);
    FramedInvariant(stream);
    FeedFramed(stream, parse);
    LeftoverHasNoFrame(FeedAll(stream, parse).buffer);
    var r := FeedAll(stream, parse);
    assert r.pieces + [] == r.pieces;
  }

  /** The read loop, and the pass over what is left of the buffer. */
  lemma FeedAllStep(chunks: seq<string>, parse: string -> Option<Json.Json>, i: nat)
    requires i < |chunks|
    ensures FeedAll(chunks[..i + 1], parse) == Feed(FeedAll(chunks[..i], parse), chunks[i], parse)
  {
    assert chunks[..i + 1][..i] == chunks[..i];
  }

  /** One read of the loop in `executeTestCase`: the chunk is buffered and previewed, and the complete frames consumed. */
  method ReadChunk(buffer: string, pieces: seq<string>, preview: string, chunk: string, parse: string -> Option<Json.Json>)
    returns (buffer': string, pieces': seq<string>, preview': string)
    ensures Reader(buffer', pieces', preview') == Feed(Reader(buffer, pieces, preview), chunk, parse)
  {
    var b := buffer + chunk;
    preview' := preview;
    if |preview| < PreviewLimit {
      preview' := preview + chunk;
    }
    var parsed, remaining := ParseSseBuffer(b, parse);
    buffer' := remaining;
    var more := CollectPieces(parsed, true);
    pieces' := pieces + more;
  }

  method ReadStream(stream: seq<string>, parse: string -> Option<Json.Json>) returns (pieces: seq<string>, preview: string)
    ensures pieces == StreamPieces(stream, parse)
    ensures preview == FeedAll(stream, parse).preview
  {
    var buffer := "";
    pieces := [];
    preview := "";
    var i := 0;
    while i < |stream|
      invariant 0 <= i <= |stream|
      invariant Reader(buffer, pieces, preview) == FeedAll(stream[..i], parse)
    {
      buffer, pieces, preview := ReadChunk(buffer, pieces, preview, stream[i], parse);
      FeedAllStep(stream, parse, i);
      i := i + 1;
    }
    assert stream[..i] == stream;
    if Str.Trim(buffer) != "" {
      var parsed, rest := ParseSseBuffer(buffer, parse);
      var more := CollectPieces(parsed, false);
      pieces := pieces + more;
    }
  }

  // ---------------------------------------------------------------------------
  // The generated code
  // ---------------------------------------------------------------------------

  /** `blocks.filter(b => b.host === host).map(b => b.code).filter(Boolean)` */
  function HostCodes(blocks: seq<CodeExecutor.OfficeCodeBlock>, host: CodeExecutor.Host): seq<string>
  {
    if |blocks| == 0 then []
    else
      var b := blocks[|blocks| - 1];
      HostCodes(blocks[..|blocks| - 1], host) + (if b.host == host && b.code != "" then [b.code] else [])
  }

  /** The kept codes are the non-empty codes of the blocks for the host. */
  lemma {:induction false} HostCodesMembers(blocks: seq<CodeExecutor.OfficeCodeBlock>, host: CodeExecutor.Host)
    ensures forall c :: c in HostCodes(blocks, host) <==> c != "" && CodeExecutor.OfficeCodeBlock(host, c) in blocks
  {
    if |blocks| > 0 {
      var front := blocks[..|blocks| - 1];
      HostCodesMembers(front, host);
      assert blocks == front + [blocks[|blocks| - 1]];
    }
  }

  /** The separator between the unique codes. */
  const CodeSep := "\n\n"

  /** The distinct host codes, first occurrence first, joined by a blank line. */
  function GeneratedCode(blocks: seq<CodeExecutor.OfficeCodeBlock>, host: CodeExecutor.Host): string
  {
    Str.Join(Str.Distinct(HostCodes(blocks, host)), CodeSep)
  }

  /** The code of the assistant text, from the hidden blocks as extracted. */
  function CodeOf(text: string, host: CodeExecutor.Host): string
  {
    GeneratedCode(CodeExecutor.Trimmed(CodeExecutor.ExtractFrom(text, 0)), host)
  }

  lemma JoinNonEmpty(parts: seq<string>, sep: string)
    requires |parts| > 0 && parts[0] != ""
    ensures Str.Join(parts, sep) != ""
  {
    if |parts| > 1 {
      assert |Str.Join(parts, sep)| >= |parts[0]|;
    }
  }

  /**
   * The code is empty exactly when no block for the host has code; it holds
   * every such code, each just once.
   */
  lemma GeneratedCodeCases(blocks: seq<CodeExecutor.OfficeCodeBlock>, host: CodeExecutor.Host)
    ensures GeneratedCode(blocks, host) == "" <==> forall c :: CodeExecutor.OfficeCodeBlock(host, c) in blocks ==> c == ""
    ensures forall c :: c != "" && CodeExecutor.OfficeCodeBlock(host, c) in blocks ==> Str.Contains(GeneratedCode(blocks, host), c)
    ensures Str.NoDup(Str.Distinct(HostCodes(blocks, host)))
  {
    var codes := HostCodes(blocks, host);
    var d := Str.Distinct(codes);
    HostCodesMembers(blocks, host);
    Str.DistinctMembers(codes);
    if |d| > 0 {
      assert d[0] in codes;
      JoinNonEmpty(d, CodeSep);
    }
    forall c | c != "" && CodeExecutor.OfficeCodeBlock(host, c) in blocks
      ensures Str.Contains(GeneratedCode(blocks, host), c)
    {
      assert c in d;
      var k :| 0 <= k < |d| && d[k] == c;
      Str.JoinContainsPart(d, CodeSep, k);
    }
  }

  /** Blocks for another host never reach the code. */
  lemma {:induction false} OtherHostsIgnored(blocks: seq<CodeExecutor.OfficeCodeBlock>, b: CodeExecutor.OfficeCodeBlock, host: CodeExecutor.Host)
    requires b.host != host
    ensures HostCodes(blocks + [b], host) == HostCodes(blocks, host)
  {
    assert (blocks + [b])[..|blocks|] == blocks;
    assert HostCodes(blocks, host) + [] == HostCodes(blocks, host);
  }

  // ---------------------------------------------------------------------------
  // Posting the prompt with a bounded retry
  // ---------------------------------------------------------------------------

  /** The parts of a `fetch` response the executor looks at. */
  datatype Response = Response(ok: bool, status: int, statusText: string)

  /** One `fetch` of the chat route: a response, or a thrown error's message and stack. */
  datatype Attempt = Answered(response: Response) | Threw(message: string, stack: Option<string>)

  const Attempts: nat := 3

  /** The retry loop's variables: the last response, the last error, the posts made, the waits slept and whether it broke out. */
  datatype Posting = Posting(response: Option<Response>, lastError: Option<(string, Option<string>)>, tries: nat, waits: nat, stopped: bool)

  /** A response that ends the loop: a success, or a failure below 500. */
  predicate Stops(a: Attempt)
  {
    a.Answered? && (a.response.ok || a.response.status < 500)
  }

  /** The loop after `n` turns, given the answer to each post in order. */
  function Post(answer: nat -> Attempt, n: nat): Posting
  {
    if n == 0 then Posting(None, None, 0, 0, false)
    else
      var p := Post(answer, n - 1);
      if p.stopped then p
      else match answer(p.tries)
        case Answered(r) => p.(response := Some(r), tries := p.tries + 1, stopped := Stops(answer(p.tries)))
        case Threw(m, st) => p.(lastError := Some((m, st)), tries := p.tries + 1, waits := p.waits + 1)
  }

  /** The number of posts among the first `k` that threw. */
  function Throws(answer: nat -> Attempt, k: nat): nat
  {
    if k == 0 then 0 else Throws(answer, k - 1) + (if answer(k - 1).Threw? then 1 else 0)
  }

  /** The last answered response among the first `k` posts. */
  function LastAnswer(answer: nat -> Attempt, k: nat): Option<Response>
  {
    if k == 0 then None else if answer(k - 1).Answered? then Some(answer(k - 1).response) else LastAnswer(answer, k - 1)
  }

  /**
   * The loop posts until a response stops it or `n` posts are made; it waits
   * once per thrown post, keeps the last response it got, and the last error.
   */
  lemma {:induction false} PostFacts(answer: nat -> Attempt, n: nat)
    ensures var p := Post(answer, n);
      p.tries <= n
      && (p.stopped <==> p.tries > 0 && Stops(answer(p.tries - 1)))
      && (forall j :: 0 <= j < p.tries - 1 ==> !Stops(answer(j)))
      && (!p.stopped ==> p.tries == n)
      && p.waits == Throws(answer, p.tries)
      && p.response == LastAnswer(answer, p.tries)
      && (p.tries > 0 && answer(p.tries - 1).Threw? ==> p.lastError == Some((answer(p.tries - 1).message, answer(p.tries - 1).stack)))
  {
    if n > 0 {
      PostFacts(answer, n - 1);
    }
  }

  /** With no response at all, every post threw and the last error is set: the fallback error is never thrown. */
  lemma NoResponseAllThrew(answer: nat -> Attempt)
    requires Post(answer, Attempts).response.None?
    ensures Post(answer, Attempts).tries == Attempts
    ensures forall j :: 0 <= j < Attempts ==> answer(j).Threw?
    ensures Post(answer, Attempts).lastError == Some((answer(Attempts - 1).message, answer(Attempts - 1).stack))
  {
    PostFacts(answer, Attempts);
    var p := Post(answer, Attempts);
    LastAnswerNone(answer, p.tries);
  }

  lemma {:induction false} LastAnswerNone(answer: nat -> Attempt, k: nat)
    requires LastAnswer(answer, k).None?
    ensures forall j :: 0 <= j < k ==> answer(j).Threw?
  {
    if k > 0 {
      LastAnswerNone(answer, k - 1);
    }
  }

  /** Once the loop has broken out, further turns change nothing. */
  lemma {:induction false} StoppedStays(answer: nat -> Attempt, k: nat, m: nat)
    requires k <= m && Post(answer, k).stopped
    ensures Post(answer, m) == Post(answer, k)
    decreases m - k
  {
    if k < m {
      StoppedStays(answer, k, m - 1);
    }
  }

  /** The posting loop. */
  method PostWithRetry(answer: nat -> Attempt) returns (response: Option<Response>, lastError: Option<(string, Option<string>)>, tries: nat, waits: nat)
    ensures var p := Post(answer, Attempts);
      response == p.response && lastError == p.lastError && tries == p.tries && waits == p.waits
  {
    response, lastError, tries, waits := None, None, 0, 0;
    var i := 0;
    while i < Attempts
      invariant 0 <= i <= Attempts
      invariant Post(answer, i) == Posting(response, lastError, tries, waits, false)
    {
      var a := answer(tries);
      tries := tries + 1;
      match a {
        case Answered(r) =>
          response := Some(r);
          if r.ok || r.status < 500 {
            assert Post(answer, i + 1) == Posting(response, lastError, tries, waits, true);
            StoppedStays(answer, i + 1, Attempts);
            return;
          }
        case Threw(m, st) =>
          lastError := Some((m, st));
          waits := waits + 1;
      }
      i := i + 1;
    }
  }

  // ---------------------------------------------------------------------------
  // The result of one test case
  // ---------------------------------------------------------------------------

  /**
   * What running one test case meets: the chat route's answer to each post,
   * the decoded chunks of the reply, `JSON.parse`, the Office run of the
   * code, the message thrown by the test-report post when it throws, the
   * clock readings (`runStamp` is the one the Office run stamps its error
   * report with), the stack given to the errors the executor creates, the
   * Office version, and `navigator`'s platform and user agent.
   */
  datatype Env = Env(
    answer: nat -> Attempt,
    stream: seq<string>,
    parse: string -> Option<Json.Json>,
    execute: string -> CodeExecutor.ExecOutcome,
    reportFailure: Option<string>,
    startTime: string,
    endTime: string,
    elapsed: int,
    stamp: string,
    runStamp: string,
    createdStack: string,
    officeVersion: string,
    platform: string,
    userAgent: string)

  const FallbackError := "Network request failed after retries"
  const NetworkType := "NetworkError"
  const UnknownType := "UnknownError"
  const NoCodeMessage := "未生成 Office 代码"
  const ExecFailedMessage := "代码执行失败"

  function HttpErrorText(r: Response): string
  {
    "HTTP " + Str.IntToString(r.status) + ": " + r.statusText
  }

  /** The error the request throws, if any: the last thrown error when nothing answered, the status when the answer is not ok. */
  function RequestError(p: Posting, createdStack: string): Option<(string, Option<string>)>
  {
    if p.response.None? then Some(if p.lastError.Some? then p.lastError.value else (FallbackError, Some(createdStack)))
    else if !p.response.value.ok then Some((HttpErrorText(p.response.value), Some(createdStack)))
    else None
  }

  /** The request fails exactly when the last response got is not ok or there is none; a success is never retried. */
  lemma RequestErrorCases(answer: nat -> Attempt, createdStack: string)
    ensures var p := Post(answer, Attempts);
      (RequestError(p, createdStack).None? <==> p.response.Some? && p.response.value.ok)
      && (RequestError(p, createdStack).None? ==> answer(p.tries - 1) == Answered(p.response.value))
      && (p.response.None? ==> RequestError(p, createdStack) == Some((answer(Attempts - 1).message, answer(Attempts - 1).stack)))
  {
    var p := Post(answer, Attempts);
    PostFacts(answer, Attempts);
    if p.response.None? {
      NoResponseAllThrew(answer);
    } else if p.response.value.ok {
      assert p.tries > 0 && p.stopped by {
        if !p.stopped || p.tries == 0 {
          LastAnswerStops(answer, p.tries);
        }
      }
    }
  }

  /** An ok response stops the loop, so when the last answer is ok it is the last post's. */
  lemma {:induction false} LastAnswerStops(answer: nat -> Attempt, k: nat)
    requires forall j :: 0 <= j < k - 1 ==> !Stops(answer(j))
    requires k == 0 || !Stops(answer(k - 1))
    ensures LastAnswer(answer, k).None? || !LastAnswer(answer, k).value.ok
  {
    if k > 0 {
      LastAnswerStops(answer, k - 1);
    }
  }

  /** The error of a failed Office run: its type name or "UnknownError", its message or the default text, its stack. */
  function ExecError(e: Option<CodeExecutor.ExecutionError>): TestError
  {
    match e
    case None => TestError(UnknownType, None, ExecFailedMessage, None)
    case Some(x) => TestError(CodeExecutor.TypeName(x.etype), None, if x.message != "" then x.message else ExecFailedMessage, x.stackTrace)
  }

  /** The assistant text rebuilt from the reply. */
  function ReplyText(env: Env): string
  {
    Concat(StreamPieces(env.stream, env.parse))
  }

  /** What the run finds out before it decides: the request's error, the generated code and the preview. */
  datatype Observed = Observed(failure: Option<(string, Option<string>)>, code: string, preview: string)

  function Observe(host: CodeExecutor.Host, env: Env): Observed
  {
    Observed(RequestError(Post(env.answer, Attempts), env.createdStack), CodeOf(ReplyText(env), host), FeedAll(env.stream, env.parse).preview)
  }

  /** The status decision on what was observed. */
  function Verdict(tc: TestCase, env: Env, o: Observed): TestResult
  {
    match o.failure
    case Some(e) =>
      TestResult(tc.id, Failed, env.startTime, Some(env.endTime), Some(env.elapsed), Some(TestError(NetworkType, None, e.0, e.1)), None)
    case None =>
      var done := TestResult(tc.id, Passed, env.startTime, Some(env.endTime), Some(env.elapsed), None, Some(Str.Trim(o.code)));
      if o.code == "" then done.(status := Failed, error := Some(TestError(UnknownType, None, NoCodeMessage, None)))
      else if env.execute(o.code).success then done
      else done.(status := Failed, error := Some(ExecError(env.execute(o.code).error)))
  }

  /** The result `executeTestCase` returns. */
  function CaseResult(host: CodeExecutor.Host, tc: TestCase, env: Env): TestResult
  {
    Verdict(tc, env, Observe(host, env))
  }

  /**
   * A test passes exactly when the request succeeds, the reply carries code
   * and that code runs; it fails otherwise, with an error. The code is
   * recorded exactly when the request succeeded.
   */
  lemma VerdictCases(tc: TestCase, env: Env, o: Observed)
    ensures var r := Verdict(tc, env, o);
      r.testCaseId == tc.id
      && (r.status == Passed || r.status == Failed)
      && (r.status == Passed <==> o.failure.None? && o.code != "" && env.execute(o.code).success)
      && (r.error.Some? <==> r.status == Failed)
      && (r.actualCode.Some? <==> o.failure.None?)
      && (o.failure.None? ==> r.actualCode == Some(Str.Trim(o.code)))
      && (o.failure.Some? ==> r.error == Some(TestError(NetworkType, None, o.failure.value.0, o.failure.value.1)))
      && (o.failure.None? && o.code == "" ==> r.error.value.message == NoCodeMessage)
  {
  }

  /** A passing test had a hidden block for its own host with code in it. */
  lemma PassedHadBlock(host: CodeExecutor.Host, tc: TestCase, env: Env)
    requires CaseResult(host, tc, env).status == Passed
    ensures exists c :: c != "" && CodeExecutor.OfficeCodeBlock(host, c) in CodeExecutor.Trimmed(CodeExecutor.ExtractFrom(ReplyText(env), 0))
  {
    VerdictCases(tc, env, Observe(host, env));
    GeneratedCodeCases(CodeExecutor.Trimmed(CodeExecutor.ExtractFrom(ReplyText(env), 0)), host);
  }

  // ---------------------------------------------------------------------------
  // What a test case logs and saves
  // ---------------------------------------------------------------------------

  function ReportFailedText(message: string): string
  {
    "回传 test-report 失败（不影响测试结果）: " + message
  }

  /** The warning for a reply without code: the first 200 characters of the preview. */
  function NoCodeText(preview: string): string
  {
    "未生成代码。SSE 预览: " + (if |preview| <= 200 then preview else preview[..200]) + "..."
  }

  /** The report saved for a failed request: no code, the browser's context, an Office version that is not known. */
  function ReportOf(host: CodeExecutor.Host, tc: TestCase, env: Env, e: TestError): ErrorReport
  {
    ErrorReport(env.stamp, tc.id, CodeExecutor.HostName(host), e.errorType, None, e.message, e.stackTrace,
                tc.userInput, "", ReportContext("unknown", env.platform, Some(env.userAgent)))
  }

  /** The line `saveErrorReport` logs for a report given the index it finds. */
  function SaveLine(report: ErrorReport, index: StoredIndex, stamp: string): string
  {
    if TestLog.Appended(index, TestLog.EntryOf(report)).Some? then TestLog.Entry(stamp, TestLog.Info, TestLog.SavedText(ReportKey(report.timestamp)))
    else TestLog.Entry(stamp, TestLog.Error, TestLog.SaveFailed)
  }

  /** The index `saveErrorReport` leaves: the entry pushed, or the index untouched when it cannot be read. */
  function IndexAfterSave(index: StoredIndex, report: ErrorReport): StoredIndex
  {
    match TestLog.Appended(index, TestLog.EntryOf(report))
    case Some(es) => Entries(es)
    case None => index
  }

  /**
   * The report `executeOfficeCode` saves when a run fails
   * (src/lib/office/code-executor.ts:323-338): the run's error, the
   * normalised code, and the Office version and browser of the run.
   */
  function RunReport(host: CodeExecutor.Host, tc: TestCase, env: Env, code: string, e: CodeExecutor.ExecutionError): ErrorReport
  {
    ErrorReport(env.runStamp, tc.id, CodeExecutor.HostName(host), CodeExecutor.TypeName(e.etype), e.code, e.message,
                e.stackTrace, tc.userInput, CodeExecutor.NormalizeOfficeCode(code),
                ReportContext(env.officeVersion, env.platform, Some(env.userAgent)))
  }

  /**
   * `saveErrorReport` of the code executor (src/lib/office/code-executor.ts:139-171)
   * on the same `localStorage` slice the runner's logger writes: the report
   * goes in first; a readable index gets an entry that names the host and,
   * past 1000 entries, loses its oldest entry and that entry's report; an
   * unreadable index makes the rest throw, which the source swallows.
   */
  function RunSave(reports: map<string, ErrorReport>, index: StoredIndex, report: ErrorReport): (r: (map<string, ErrorReport>, StoredIndex))
    ensures index.Entries? && |index.entries| < CodeExecutor.MaxReports ==> r.0 == reports[ReportKey(report.timestamp) := report]
    ensures (index.Absent? || index.Entries?) ==> r.1.Entries? && |r.1.entries| > 0
    ensures (index.Absent? || index.Entries?) ==>
      r.1.entries[|r.1.entries| - 1] == IndexEntry(ReportKey(report.timestamp), report.timestamp, report.testCaseId, report.errorType, Some(report.hostType))
    ensures index.Entries? ==> |r.1.entries| == if |index.entries| < CodeExecutor.MaxReports then |index.entries| + 1 else |index.entries|
    ensures (index.Garbled? || index.NotList?) ==> r == (reports[ReportKey(report.timestamp) := report], index)
  {
    var key := ReportKey(report.timestamp);
    var entry := IndexEntry(key, report.timestamp, report.testCaseId, report.errorType, Some(report.hostType));
    match index
    case Absent => (reports[key := report], Entries([entry]))
    case Entries(es) =>
      if |es| + 1 > CodeExecutor.MaxReports then (reports[key := report] - {es[0].key}, Entries((es + [entry])[1..]))
      else (reports[key := report], Entries(es + [entry]))
    case _ => (reports[key := report], index)
  }

  /**
   * The reports and the index after one test case: a failed request saves
   * the runner's report; a failed Office run saves the code executor's. A
   * run outcome that fails without an error is never produced by
   * `executeOfficeCode` and saves nothing.
   */
  function StoreAfter(host: CodeExecutor.Host, tc: TestCase, env: Env, reports: map<string, ErrorReport>, index: StoredIndex)
    : (map<string, ErrorReport>, StoredIndex)
  {
    match RequestError(Post(env.answer, Attempts), env.createdStack)
    case Some(e) =>
      var report := ReportOf(host, tc, env, TestError(NetworkType, None, e.0, e.1));
      (reports[ReportKey(env.stamp) := report], IndexAfterSave(index, report))
    case None =>
      var code := CodeOf(ReplyText(env), host);
      RunStore(host, tc, env, code, reports, index)
  }

  /** The store after the Office run of `code`: a failed run saves its report, anything else changes nothing. */
  function RunStore(host: CodeExecutor.Host, tc: TestCase, env: Env, code: string, reports: map<string, ErrorReport>, index: StoredIndex)
    : (map<string, ErrorReport>, StoredIndex)
  {
    var run := env.execute(code);
    if code != "" && !run.success && run.error.Some? then RunSave(reports, index, RunReport(host, tc, env, code, run.error.value))
    else (reports, index)
  }

  /**
   * A test case whose request gets through and whose code fails in Office
   * leaves that run's report in storage, when the index has room.
   */
  lemma FailedRunSaves(host: CodeExecutor.Host, tc: TestCase, env: Env, reports: map<string, ErrorReport>, es: seq<IndexEntry>)
    requires RequestError(Post(env.answer, Attempts), env.createdStack).None?
    requires CodeOf(ReplyText(env), host) != ""
    requires !env.execute(CodeOf(ReplyText(env), host)).success && env.execute(CodeOf(ReplyText(env), host)).error.Some?
    requires |es| < CodeExecutor.MaxReports
    ensures var after := StoreAfter(host, tc, env, reports, Entries(es));
      ReportKey(env.runStamp) in after.0 && after.0[ReportKey(env.runStamp)].generatedCode == CodeExecutor.NormalizeOfficeCode(CodeOf(ReplyText(env), host))
      && after.1.Entries? && |after.1.entries| == |es| + 1
  {
  }

  /** A passing test case leaves the reports and the index as they were. */
  lemma PassedSavesNothing(host: CodeExecutor.Host, tc: TestCase, env: Env, reports: map<string, ErrorReport>, index: StoredIndex)
    requires CaseResult(host, tc, env).status == Passed
    ensures StoreAfter(host, tc, env, reports, index) == (reports, index)
  {
    VerdictCases(tc, env, Observe(host, env));
  }

  /** The lines logged between the start and the completion lines. */
  function MiddleLines(host: CodeExecutor.Host, tc: TestCase, env: Env, o: Observed, index: StoredIndex): seq<string>
  {
    match o.failure
    case Some(e) => [SaveLine(ReportOf(host, tc, env, TestError(NetworkType, None, e.0, e.1)), index, env.stamp)]
    case None =>
      if o.code == "" then [TestLog.Entry(env.stamp, TestLog.Warn, NoCodeText(o.preview))]
      else if env.reportFailure.Some? then [TestLog.Entry(env.stamp, TestLog.Warn, ReportFailedText(env.reportFailure.value))]
      else []
  }

  /** Everything one test case logs. */
  function LogsOf(host: CodeExecutor.Host, tc: TestCase, env: Env, o: Observed, index: StoredIndex): seq<string>
  {
    [TestLog.Entry(env.stamp, TestLog.Info, TestLog.StartText(tc.id, tc.name))]
    + MiddleLines(host, tc, env, o, index)
    + TestLog.CompleteLines(Verdict(tc, env, o), env.stamp)
  }

  /**
   * A test logs its start first and its completion last, with the error
   * line after it exactly when it failed; in between, one line: the save of
   * the report for a failed request, the warning for missing code, or the
   * warning for a failed test-report post, which is also the only case
   * where a test with code logs anything there.
   */
  lemma LogsCases(host: CodeExecutor.Host, tc: TestCase, env: Env, o: Observed, index: StoredIndex)
    ensures var r := Verdict(tc, env, o);
      var logs := LogsOf(host, tc, env, o, index);
      var m := MiddleLines(host, tc, env, o, index);
      logs[0] == TestLog.Entry(env.stamp, TestLog.Info, TestLog.StartText(tc.id, tc.name))
      && |logs| == 2 + |m| + (if r.status == Failed then 1 else 0)
      && logs[1 + |m|] == TestLog.Entry(env.stamp, TestLog.Info, TestLog.CompleteText(r))
      && (r.status == Failed ==> logs[2 + |m|] == TestLog.Entry(env.stamp, TestLog.Error, TestLog.ErrorText(r.error.value)))
      && (|m| == 0 <==> o.failure.None? && o.code != "" && env.reportFailure.None?)
      && |m| <= 1
  {
    VerdictCases(tc, env, o);
  }

  /** The session id: `test-` and the clock in milliseconds. */
  function SessionIdOf(now: int): string
  {
    "test-" + Str.IntToString(now)
  }

  // ---------------------------------------------------------------------------
  // Suites
  // ---------------------------------------------------------------------------

  datatype Summary = Summary(total: nat, passed: nat, failed: nat, skipped: nat)

  datatype Session = Session(id: string, hostType: string, startTime: string, endTime: Option<string>, results: seq<TestResult>, summary: Summary)

  /** The number of results with the given status. */
  function CountOf(results: seq<TestResult>, s: TestStatus): (n: nat)
    ensures n <= |results|
  {
    if |results| == 0 then 0 else CountOf(results[..|results| - 1], s) + (if results[|results| - 1].status == s then 1 else 0)
  }

  function SummaryOf(results: seq<TestResult>): Summary
  {
    Summary(|results|, CountOf(results, Passed), CountOf(results, Failed), CountOf(results, Skipped))
  }

  /** When every result passed or failed, the two counts add up to the total and none is skipped. */
  lemma {:induction false} CountsCover(results: seq<TestResult>)
    requires forall i :: 0 <= i < |results| ==> results[i].status == Passed || results[i].status == Failed
    ensures CountOf(results, Passed) + CountOf(results, Failed) == |results|
    ensures CountOf(results, Skipped) == 0
  {
    if |results| > 0 {
      CountsCover(results[..|results| - 1]);
    }
  }

  /** `executeTestCase` as a function of the case and its environment. */
  function Runner(host: CodeExecutor.Host): (TestCase, Env) -> TestResult
  {
    (tc: TestCase, env: Env) => CaseResult(host, tc, env)
  }

  /** The results of running the cases in order. */
  function ResultsOf(run: (TestCase, Env) -> TestResult, cases: seq<TestCase>, envs: seq<Env>): (r: seq<TestResult>)
    requires |envs| == |cases|
    ensures |r| == |cases|
  {
    if |cases| == 0 then []
    else ResultsOf(run, cases[..|cases| - 1], envs[..|envs| - 1]) + [run(cases[|cases| - 1], envs[|envs| - 1])]
  }

  lemma SuiteStep(run: (TestCase, Env) -> TestResult, cases: seq<TestCase>, envs: seq<Env>, i: nat, results: seq<TestResult>, r: TestResult)
    requires |envs| == |cases| && i < |cases|
    requires results == ResultsOf(run, cases[..i], envs[..i]) && r == run(cases[i], envs[i])
    ensures results + [r] == ResultsOf(run, cases[..i + 1], envs[..i + 1])
  {
    assert cases[..i + 1][..i] == cases[..i];
    assert envs[..i + 1][..i] == envs[..i];
  }

  /** The i-th result is the i-th case's, run in its own environment. */
  lemma {:induction false} ResultsOfAt(host: CodeExecutor.Host, cases: seq<TestCase>, envs: seq<Env>, i: nat)
    requires |envs| == |cases| && i < |cases|
    ensures ResultsOf(Runner(host), cases, envs)[i] == CaseResult(host, cases[i], envs[i])
  {
    if i < |cases| - 1 {
      var n := |cases| - 1;
      ResultsOfAt(host, cases[..n], envs[..n], i);
    }
  }

  /** The calls the progress callback gets before the first `n` cases: position and total. */
  function Progress(n: nat, total: nat): (r: seq<(nat, nat)>)
    ensures |r| == n
    ensures forall k :: 0 <= k < n ==> r[k] == (k + 1, total)
  {
    seq(n, k requires 0 <= k < n => (k + 1, total))
  }

  lemma CountOfAppend(results: seq<TestResult>, r: TestResult)
    ensures forall s :: CountOf(results + [r], s) == CountOf(results, s) + (if r.status == s then 1 else 0)
  {
    assert (results + [r])[..|results|] == results;
  }

  /** A suite run by the executor never skips: every case is counted as passed or failed. */
  lemma SuiteCounts(host: CodeExecutor.Host, cases: seq<TestCase>, envs: seq<Env>)
    requires |envs| == |cases|
    ensures var s := SummaryOf(ResultsOf(Runner(host), cases, envs));
      s.total == |cases| && s.passed + s.failed == |cases| && s.skipped == 0
  {
    var results := ResultsOf(Runner(host), cases, envs);
    forall i | 0 <= i < |results|
      ensures results[i].status == Passed || results[i].status == Failed
    {
      ResultsOfAt(host, cases, envs, i);
      VerdictCases(cases[i], envs[i], Observe(host, envs[i]));
    }
    CountsCover(results);
  }

  function SuiteStartText(total: nat): string
  {
    "开始执行测试套件: " + Str.IntToString(total) + " 个测试用例"
  }

  /** The decision and the logs look at the code and the preview only when the request got through. */
  lemma SameObservation(host: CodeExecutor.Host, tc: TestCase, env: Env, o1: Observed, o2: Observed, index: StoredIndex)
    requires o1.failure == o2.failure
    requires o1.failure.None? ==> o1.code == o2.code && o1.preview == o2.preview
    ensures Verdict(tc, env, o1) == Verdict(tc, env, o2)
    ensures LogsOf(host, tc, env, o1, index) == LogsOf(host, tc, env, o2, index)
  {
  }

  lemma PrefixExtends<T>(a: seq<T>, b: seq<T>, c: seq<T>)
    requires a <= b
    ensures a <= b + c
  {
    assert (b + c)[..|a|] == b[..|a|];
  }

  lemma PrefixTransitive<T>(a: seq<T>, b: seq<T>, c: seq<T>)
    requires a <= b && b <= c
    ensures a <= c
  {
    assert c[..|a|] == b[..|a|];
  }

  lemma ProgressStep(i: nat, total: nat)
    ensures Progress(i, total) + [(i + 1, total)] == Progress(i + 1, total)
  {
  }

  /** The posting loop and the checks after it: the error the request throws, if any. */
  method Request(answer: nat -> Attempt, createdStack: string) returns (failure: Option<(string, Option<string>)>)
    ensures failure == RequestError(Post(answer, Attempts), createdStack)
  {
    var response, lastError, tries, waits := PostWithRetry(answer);
    failure := None;
    if response.None? {
      failure := Some(if lastError.Some? then lastError.value else (FallbackError, Some(createdStack)));
    } else if !response.value.ok {
      failure := Some((HttpErrorText(response.value), Some(createdStack)));
    }
  }

  /** Reading the reply and taking the host's code out of the assistant text. */
  method ReadCode(host: CodeExecutor.Host, env: Env) returns (code: string, preview: string)
    ensures code == CodeOf(ReplyText(env), host)
    ensures preview == FeedAll(env.stream, env.parse).preview
  {
    var pieces;
    pieces, preview := ReadStream(env.stream, env.parse);
    var blocks := CodeExecutor.ExtractHiddenOfficeCode(Concat(pieces));
    code := GeneratedCode(blocks, host);
  }

  class TestExecutor {
    const host: CodeExecutor.Host
    const sessionId: string
    const logger: TestLog.TestLogger

    /** The session id comes from the clock; the logger is the executor's own. */
    constructor (host: CodeExecutor.Host, now: int)
      ensures this.host == host && sessionId == SessionIdOf(now)
      ensures fresh(logger) && logger.sessionId == sessionId && logger.logs == []
    {
      var id := SessionIdOf(now);
      this.host := host;
      sessionId := id;
      logger := new TestLog.TestLogger(id);
    }

    /** `saveErrorReport` on the executor's logger, in terms of the line it logs and the index it leaves. */
    method SaveReport(report: ErrorReport, store: ReportStorage, stamp: string)
      modifies logger, store
      ensures store.reports == old(store.reports)[ReportKey(report.timestamp) := report]
      ensures store.index == IndexAfterSave(old(store.index), report)
      ensures logger.logs == old(logger.logs) + [SaveLine(report, old(store.index), stamp)]
    {
      logger.SaveErrorReport(report, store, stamp);
    }

    /**
     * `executeTestCase`: the result, the lines logged, and the report saved:
     * the runner's own when the request fails, the code executor's when the
     * generated code fails in Office.
     */
    method ExecuteTestCase(tc: TestCase, env: Env, store: ReportStorage) returns (result: TestResult)
      modifies logger, store
      ensures result == CaseResult(host, tc, env)
      ensures logger.logs == old(logger.logs) + LogsOf(host, tc, env, Observe(host, env), old(store.index))
      ensures (store.reports, store.index) == StoreAfter(host, tc, env, old(store.reports), old(store.index))
    {
      ghost var index := store.index;
      logger.LogTestStart(tc.id, tc.name, env.stamp);
      ghost var started := logger.logs;
      var failure := Request(env.answer, env.createdStack);
      ghost var seen: Observed;
      ghost var reports := store.reports;
      if failure.Some? {
        seen := Observed(failure, "", "");
        result := RequestFailed(tc, env, failure.value, store);
      } else {
        seen := Observed(None, CodeOf(ReplyText(env), host), FeedAll(env.stream, env.parse).preview);
        result := ReplyRead(tc, env, store);
      }
      assert (store.reports, store.index) == StoreAfter(host, tc, env, reports, index);
      ghost var middle := MiddleLines(host, tc, env, seen, index);
      assert logger.logs == started + middle;
      logger.LogTestComplete(result, env.stamp);
      Str.Regroup(old(logger.logs), [TestLog.Entry(env.stamp, TestLog.Info, TestLog.StartText(tc.id, tc.name))], middle, TestLog.CompleteLines(result, env.stamp));
      SameObservation(host, tc, env, seen, Observe(host, env), index);
    }

    /** The catch branch: a failed request fails the test and saves an error report. */
    method RequestFailed(tc: TestCase, env: Env, e: (string, Option<string>), store: ReportStorage) returns (result: TestResult)
      modifies logger, store
      ensures result == Verdict(tc, env, Observed(Some(e), "", ""))
      ensures logger.logs == old(logger.logs) + MiddleLines(host, tc, env, Observed(Some(e), "", ""), old(store.index))
      ensures var report := ReportOf(host, tc, env, TestError(NetworkType, None, e.0, e.1));
        store.reports == old(store.reports)[ReportKey(env.stamp) := report]
        && store.index == IndexAfterSave(old(store.index), report)
    {
      var error := TestError(NetworkType, None, e.0, e.1);
      result := TestResult(tc.id, Failed, env.startTime, Some(env.endTime), Some(env.elapsed), Some(error), None);
      SaveReport(ReportOf(host, tc, env, error), store, env.stamp);
    }

    /**
     * The branch after a good response: read the reply, take the code, run
     * it (a failed run saves its report), decide, and warn where the source warns.
     */
    method ReplyRead(tc: TestCase, env: Env, store: ReportStorage) returns (result: TestResult)
      modifies logger, store
      ensures var seen := Observed(None, CodeOf(ReplyText(env), host), FeedAll(env.stream, env.parse).preview);
        result == Verdict(tc, env, seen)
        && logger.logs == old(logger.logs) + MiddleLines(host, tc, env, seen, StoredIndex.Absent)
      ensures (store.reports, store.index) == RunStore(host, tc, env, CodeOf(ReplyText(env), host), old(store.reports), old(store.index))
    {
      var code, preview := ReadCode(host, env);
      if |code| > 0 {
        result := RunCode(tc, env, code, preview, store);
      } else {
        result := TestResult(tc.id, Failed, env.startTime, Some(env.endTime), Some(env.elapsed), Some(TestError(UnknownType, None, NoCodeMessage, None)), Some(Str.Trim(code)));
        logger.Warn(NoCodeText(preview), env.stamp);
      }
    }

    /**
     * The branch with code: run it in Office (a failed run saves its report),
     * warn when the test-report post failed, and fail the test when the run did.
     */
    method RunCode(tc: TestCase, env: Env, code: string, preview: string, store: ReportStorage) returns (result: TestResult)
      requires code != ""
      modifies logger, store
      ensures result == Verdict(tc, env, Observed(None, code, preview))
      ensures logger.logs == old(logger.logs) + MiddleLines(host, tc, env, Observed(None, code, preview), StoredIndex.Absent)
      ensures (store.reports, store.index) == RunStore(host, tc, env, code, old(store.reports), old(store.index))
    {
      result := TestResult(tc.id, Passed, env.startTime, Some(env.endTime), Some(env.elapsed), None, Some(Str.Trim(code)));
      var run := env.execute(code);
      if !run.success && run.error.Some? {
        SaveRunReport(store, RunReport(host, tc, env, code, run.error.value));
      }
      if env.reportFailure.Some? {
        logger.Warn(ReportFailedText(env.reportFailure.value), env.stamp);
      }
      if !run.success {
        result := result.(status := Failed, error := Some(ExecError(run.error)));
      }
    }

    /** The code executor's `saveErrorReport` on the shared storage. */
    static method SaveRunReport(store: ReportStorage, report: ErrorReport)
      modifies store
      ensures (store.reports, store.index) == RunSave(old(store.reports), old(store.index), report)
    {
      var key := ReportKey(report.timestamp);
      var entry := IndexEntry(key, report.timestamp, report.testCaseId, report.errorType, Some(report.hostType));
      store.reports := store.reports[key := report];
      match store.index {
        case Absent =>
          store.index := Entries([entry]);
        case Entries(es) =>
          var pushed := es + [entry];
          if |pushed| > CodeExecutor.MaxReports {
            var oldestKey := pushed[0].key;
            pushed := pushed[1..];
            store.reports := store.reports - {oldestKey};
          }
          store.index := Entries(pushed);
        case _ =>
      }
    }

    /** The summary's counters after one more result. */
    static method Tally(passed: nat, failed: nat, skipped: nat, results: seq<TestResult>, result: TestResult)
      returns (passed': nat, failed': nat, skipped': nat)
      requires passed == CountOf(results, Passed) && failed == CountOf(results, Failed) && skipped == CountOf(results, Skipped)
      ensures passed' == CountOf(results + [result], Passed) && failed' == CountOf(results + [result], Failed)
      ensures skipped' == CountOf(results + [result], Skipped)
    {
      CountOfAppend(results, result);
      passed', failed', skipped' := passed, failed, skipped;
      if result.status == Passed {
        passed' := passed + 1;
      } else if result.status == Failed {
        failed' := failed + 1;
      } else if result.status == Skipped {
        skipped' := skipped + 1;
      }
    }

    /**
     * One case of the suite's loop. `run` stands for `executeTestCase`'s
     * result function; keeping it abstract keeps the loop's proof small.
     */
    method RunCase(ghost run: (TestCase, Env) -> TestResult, tc: TestCase, env: Env, store: ReportStorage) returns (result: TestResult)
      requires forall c, e {:trigger CaseResult(host, c, e)} :: run(c, e) == CaseResult(host, c, e)
      modifies logger, store
      ensures result == run(tc, env)
      ensures old(logger.logs) <= logger.logs
    {
      ghost var before := logger.logs;
      result := ExecuteTestCase(tc, env, store);
      PrefixExtends(before, before, logger.logs[|before|..]);
    }

    /** The loop of `executeTestSuite`: each case is announced to the progress callback, run, and counted. */
    method RunAll(ghost run: (TestCase, Env) -> TestResult, cases: seq<TestCase>, envs: seq<Env>, store: ReportStorage)
      returns (results: seq<TestResult>, passed: nat, failed: nat, skipped: nat, progress: seq<(nat, nat)>)
      requires |envs| == |cases|
      requires forall c, e {:trigger CaseResult(host, c, e)} :: run(c, e) == CaseResult(host, c, e)
      modifies logger, store
      ensures results == ResultsOf(run, cases, envs)
      ensures passed == CountOf(results, Passed) && failed == CountOf(results, Failed) && skipped == CountOf(results, Skipped)
      ensures progress == Progress(|cases|, |cases|)
      ensures old(logger.logs) <= logger.logs
    {
      results, passed, failed, skipped, progress := [], 0, 0, 0, [];
      ghost var opening := logger.logs;
      var i := 0;
      while i < |cases|
        invariant 0 <= i <= |cases|
        invariant results == ResultsOf(run, cases[..i], envs[..i])
        invariant progress == Progress(i, |cases|)
        invariant passed == CountOf(results, Passed) && failed == CountOf(results, Failed) && skipped == CountOf(results, Skipped)
        invariant opening == old(logger.logs) && opening <= logger.logs
      {
        var step: (nat, nat) := (i + 1, |cases|);
        progress := progress + [step];
        ghost var before := logger.logs;
        var result := RunCase(run, cases[i], envs[i], store);
        PrefixTransitive(opening, before, logger.logs);
        ProgressStep(i, |cases|);
        SuiteStep(run, cases, envs, i, results, result);
        passed, failed, skipped := Tally(passed, failed, skipped, results, result);
        results := results + [result];
        i := i + 1;
      }
      assert cases[..i] == cases && envs[..i] == envs;
    }

    /**
     * `executeTestSuite`: the cases run in order, each reported to the
     * progress callback first as its position and the total, and the summary
     * counts the statuses.
     */
    method ExecuteTestSuite(cases: seq<TestCase>, envs: seq<Env>, store: ReportStorage, startTime: string, endTime: string, stamp: string)
      returns (session: Session, progress: seq<(nat, nat)>)
      requires |envs| == |cases|
      modifies logger, store
      ensures session.id == sessionId && session.hostType == CodeExecutor.HostName(host)
      ensures session.startTime == startTime && session.endTime == Some(endTime)
      ensures session.results == ResultsOf(Runner(host), cases, envs)
      ensures session.summary == SummaryOf(session.results)
      ensures progress == Progress(|cases|, |cases|)
      ensures old(logger.logs) + [TestLog.Entry(stamp, TestLog.Info, SuiteStartText(|cases|))] <= logger.logs
    {
      logger.Info(SuiteStartText(|cases|), stamp);
      var results, passed, failed, skipped;
      results, passed, failed, skipped, progress := RunAll(Runner(host), cases, envs, store);
      session := Session(sessionId, CodeExecutor.HostName(host), startTime, Some(endTime), results, Summary(|cases|, passed, failed, skipped));
    }
  }
}
