/**
 * The browser-side half of the bridge: hidden `OFFICE-CODE` blocks in
 * assistant text, the classification of Office.js errors, the normalisation
 * applied to a script before it runs, the capped error-report index kept in
 * local storage, and the block-by-block execution loop.
 */
module CodeExecutor {
  import opened Wrappers
  import Str
  import Sorting

  datatype Host = Word | Excel | PowerPoint

  function HostName(h: Host): string
  {
    match h
    case Word => "word"
    case Excel => "excel"
    case PowerPoint => "powerpoint"
  }

  function ParseHost(s: string): (r: Option<Host>)
    ensures r.Some? ==> HostName(r.value) == s
    ensures r.None? ==> s != "word" && s != "excel" && s != "powerpoint"
  {
    if s == "word" then Some(Word)
    else if s == "excel" then Some(Excel)
    else if s == "powerpoint" then Some(PowerPoint)
    else None
  }

  datatype OfficeCodeBlock = OfficeCodeBlock(host: Host, code: string)

  datatype ErrorType = InvalidArgument | InvalidReference | ApiNotFound | GeneralException | NetworkError | UnknownError

  function TypeName(t: ErrorType): string
  {
    match t
    case InvalidArgument => "InvalidArgument"
    case InvalidReference => "InvalidReference"
    case ApiNotFound => "ApiNotFound"
    case GeneralException => "GeneralException"
    case NetworkError => "NetworkError"
    case UnknownError => "UnknownError"
  }

  /** The type a name denotes, if it names one of the six. */
  function ParseTypeName(name: string): (r: Option<ErrorType>)
    ensures r.Some? ==> TypeName(r.value) == name
    ensures r.None? ==> forall t: ErrorType :: TypeName(t) != name
  {
    if name == "InvalidArgument" then Some(InvalidArgument)
    else if name == "InvalidReference" then Some(InvalidReference)
    else if name == "ApiNotFound" then Some(ApiNotFound)
    else if name == "GeneralException" then Some(GeneralException)
    else if name == "NetworkError" then Some(NetworkError)
    else if name == "UnknownError" then Some(UnknownError)
    else
      assert forall t: ErrorType :: TypeName(t) in {"InvalidArgument", "InvalidReference", "ApiNotFound", "GeneralException", "NetworkError", "UnknownError"};
      None
  }
  /** Every type name parses back to its type. */
  lemma ParseOwnName(t: ErrorType)
    ensures ParseTypeName(TypeName(t)) == Some(t)
  {
    match t
    case InvalidArgument =>
    case InvalidReference =>
    case ApiNotFound =>
    case GeneralException =>
    case NetworkError =>
    case UnknownError =>
  }


  /** `ExecutionError`; `debugInfo` is carried opaquely by the source and is not modelled. */
  datatype ExecutionError = ExecutionError(etype: ErrorType, code: Option<string>, message: string, stackTrace: Option<string>)

  // ---------------------------------------------------------------------------
  // Hidden code blocks: <!--\s*OFFICE-CODE:(word|excel|powerpoint)\s*([\s\S]*?)-->
  // ---------------------------------------------------------------------------

  const Open := "<!--"
  const Marker := "OFFICE-CODE:"
  const Close := "-->"

  /** A block starting at `start`: the host, the raw body between the spacing and `-->`, and the end. */
  datatype Match = Match(start: nat, host: Host, bodyStart: nat, bodyEnd: nat, end: nat)

  /** The host name that follows the marker at `i`, if any. */
  function HostAt(s: string, i: nat): (r: Option<(Host, nat)>)
    requires i <= |s|
    ensures r.Some? ==> i < r.value.1 <= |s| && s[i..r.value.1] == HostName(r.value.0)
  {
    if Str.OccursAt(s, "word", i) then Some((Word, i + 4))
    else if Str.OccursAt(s, "excel", i) then Some((Excel, i + 5))
    else if Str.OccursAt(s, "powerpoint", i) then Some((PowerPoint, i + 10))
    else None
  }

  /**
   * The block whose `<!--` is at `i`. The lazy body stops at the first `-->`
   * after the spacing that follows the host name.
   */
  function BlockAt(s: string, i: nat): (r: Option<Match>)
    requires i <= |s|
    ensures r.Some? ==> var m := r.value;
      m.start == i && i < m.bodyStart <= m.bodyEnd && m.end == m.bodyEnd + 3 && m.end <= |s|
      && Str.OccursAt(s, Close, m.bodyEnd)
  {
    if !Str.OccursAt(s, Open, i) then None
    else
      var j := Str.SkipWs(s, i + |Open|);
      if !Str.OccursAt(s, Marker, j) then None
      else
        match HostAt(s, j + |Marker|)
        case None => None
        case Some(hk) =>
          var b := Str.SkipWs(s, hk.1);
          match Str.IndexOfFrom(s, Close, b)
          case None => None
          case Some(e) => Some(Match(i, hk.0, b, e, e + |Close|))
  }

  /** The leftmost block at or after `from`. */
  function NextBlock(s: string, from: nat): (r: Option<Match>)
    requires from <= |s|
    ensures r.Some? ==> from <= r.value.start <= |s| && BlockAt(s, r.value.start) == r
    decreases |s| - from
  {
    match BlockAt(s, from)
    case Some(m) => Some(m)
    case None => if from == |s| then None else NextBlock(s, from + 1)
  }

  /** The block found is the leftmost one: no block starts between `from` and it. */
  lemma {:induction false} NextBlockLeftmost(s: string, from: nat, i: nat)
    requires from <= i <= |s|
    requires NextBlock(s, from).None? || i < NextBlock(s, from).value.start
    ensures BlockAt(s, i).None?
    decreases |s| - from
  {
    if i > from {
      NextBlockLeftmost(s, from + 1, i);
    }
  }

  /** The block a match describes, with the code exactly as captured. */
  function BlockOf(s: string, m: Match): OfficeCodeBlock
    requires m.bodyStart <= m.bodyEnd <= |s|
  {
    OfficeCodeBlock(m.host, s[m.bodyStart..m.bodyEnd])
  }

  /** The blocks found by repeated `exec` from `from`, with the captured code untrimmed. */
  function ExtractFrom(s: string, from: nat): seq<OfficeCodeBlock>
    requires from <= |s|
    decreases |s| - from
  {
    match NextBlock(s, from)
    case None => []
    case Some(m) => [BlockOf(s, m)] + ExtractFrom(s, m.end)
  }

  lemma ExtractStep(s: string, from: nat)
    requires from <= |s|
    ensures NextBlock(s, from).None? ==> ExtractFrom(s, from) == []
    ensures NextBlock(s, from).Some? ==>
      ExtractFrom(s, from) == [BlockOf(s, NextBlock(s, from).value)] + ExtractFrom(s, NextBlock(s, from).value.end)
  {
  }

  function TrimCode(b: OfficeCodeBlock): OfficeCodeBlock
  {
    OfficeCodeBlock(b.host, Str.Trim(b.code))
  }

  /** Every block with its code trimmed. */
  function Trimmed(blocks: seq<OfficeCodeBlock>): (r: seq<OfficeCodeBlock>)
    ensures |r| == |blocks|
    ensures forall x :: 0 <= x < |blocks| ==> r[x] == TrimCode(blocks[x])
  {
    seq(|blocks|, x requires 0 <= x < |blocks| => TrimCode(blocks[x]))
  }

  lemma TrimmedAppend(blocks: seq<OfficeCodeBlock>, b: OfficeCodeBlock)
    ensures Trimmed(blocks + [b]) == Trimmed(blocks) + [TrimCode(b)]
  {
  }

  lemma ExtractLoopStep(s: string, from: nat, found: seq<OfficeCodeBlock>)
    requires from <= |s| && NextBlock(s, from).Some?
    ensures var m := NextBlock(s, from).value;
      found + ExtractFrom(s, from) == (found + [BlockOf(s, m)]) + ExtractFrom(s, m.end)
  {
    ExtractStep(s, from);
  }

  /**
   * `extractHiddenOfficeCode`: the `exec` loop of a global pattern, each
   * search resuming at the end of the previous match, each captured code
   * trimmed.
   */
  method ExtractHiddenOfficeCode(content: string) returns (matches: seq<OfficeCodeBlock>)
    ensures matches == Trimmed(ExtractFrom(content, 0))
  {
    matches := [];
    ghost var found: seq<OfficeCodeBlock> := [];
    var lastIndex := 0;
    while true
      invariant lastIndex <= |content|
      invariant found + ExtractFrom(content, lastIndex) == ExtractFrom(content, 0)
      invariant matches == Trimmed(found)
      decreases |content| - lastIndex
    {
      var m := NextBlock(content, lastIndex);
      ExtractStep(content, lastIndex);
      if m.None? {
        assert found == ExtractFrom(content, 0);
        break;
      }
      var block := m.value;
      ExtractLoopStep(content, lastIndex, found);
      TrimmedAppend(found, BlockOf(content, block));
      found := found + [BlockOf(content, block)];
      matches := matches + [TrimCode(BlockOf(content, block))];
      lastIndex := block.end;
    }
  }

  /** `removeHiddenOfficeCode`: every block replaced by the empty string. */
  function RemoveFrom(s: string, from: nat): string
    requires from <= |s|
    decreases |s| - from
  {
    match NextBlock(s, from)
    case None => s[from..]
    case Some(m) => s[from..m.start] + RemoveFrom(s, m.end)
  }

  lemma RemoveStep(s: string, from: nat)
    requires from <= |s|
    ensures NextBlock(s, from).None? ==> RemoveFrom(s, from) == s[from..]
    ensures NextBlock(s, from).Some? ==>
      RemoveFrom(s, from) == s[from..NextBlock(s, from).value.start] + RemoveFrom(s, NextBlock(s, from).value.end)
  {
  }

  function RemoveHiddenOfficeCode(content: string): string
  {
    RemoveFrom(content, 0)
  }

  /** The text seen as an alternation of visible text and hidden blocks. */
  datatype Piece = Visible(text: string) | Hidden(raw: string, block: OfficeCodeBlock)

  function Pieces(s: string, from: nat): seq<Piece>
    requires from <= |s|
    decreases |s| - from
  {
    match NextBlock(s, from)
    case None => [Visible(s[from..])]
    case Some(m) =>
      [Visible(s[from..m.start]), Hidden(s[m.start..m.end], BlockOf(s, m))] + Pieces(s, m.end)
  }

  function PieceText(p: Piece): string
  {
    match p
    case Visible(t) => t
    case Hidden(raw, _) => raw
  }

  function Concat(ps: seq<Piece>): string
  {
    if |ps| == 0 then "" else PieceText(ps[0]) + Concat(ps[1..])
  }

  function VisibleText(ps: seq<Piece>): string
  {
    if |ps| == 0 then "" else (if ps[0].Visible? then ps[0].text else "") + VisibleText(ps[1..])
  }

  function HiddenBlocks(ps: seq<Piece>): seq<OfficeCodeBlock>
  {
    if |ps| == 0 then [] else (if ps[0].Hidden? then [ps[0].block] else []) + HiddenBlocks(ps[1..])
  }

  lemma {:induction false} ConcatAppend(a: seq<Piece>, b: seq<Piece>)
    ensures Concat(a + b) == Concat(a) + Concat(b)
    ensures VisibleText(a + b) == VisibleText(a) + VisibleText(b)
    ensures HiddenBlocks(a + b) == HiddenBlocks(a) + HiddenBlocks(b)
  {
    if |a| == 0 {
      assert a + b == b;
    } else {
      var p, t := a[0], a[1..];
      assert (a + b)[0] == p;
      assert (a + b)[1..] == t + b;
      ConcatAppend(t, b);
      Str.Assoc(PieceText(p), Concat(t), Concat(b));
      Str.Assoc(if p.Visible? then p.text else "", VisibleText(t), VisibleText(b));
      Str.Assoc(if p.Hidden? then [p.block] else [], HiddenBlocks(t), HiddenBlocks(b));
    }
  }

  /** The two pieces in front of a match at or after `from`. */
  function Head(s: string, from: nat, m: Match): seq<Piece>
    requires from <= m.start <= m.bodyStart <= m.bodyEnd <= m.end <= |s|
  {
    [Visible(s[from..m.start]), Hidden(s[m.start..m.end], BlockOf(s, m))]
  }

  lemma PiecesUnfold(s: string, from: nat)
    requires from <= |s|
    ensures NextBlock(s, from).None? ==> Pieces(s, from) == [Visible(s[from..])]
    ensures NextBlock(s, from).Some? ==> var m := NextBlock(s, from).value;
      Pieces(s, from) == Head(s, from, m) + Pieces(s, m.end)
  {
  }

  lemma ConcatPair(p: Piece, q: Piece)
    ensures Concat([p, q]) == PieceText(p) + PieceText(q)
    ensures VisibleText([p, q]) == (if p.Visible? then p.text else "") + (if q.Visible? then q.text else "")
    ensures HiddenBlocks([p, q]) == (if p.Hidden? then [p.block] else []) + (if q.Hidden? then [q.block] else [])
  {
    assert [p, q][1..] == [q];
    assert [q][1..] == [];
    assert Concat([q]) == PieceText(q) + Concat([]);
    assert VisibleText([q]) == (if q.Visible? then q.text else "") + VisibleText([]);
    assert HiddenBlocks([q]) == (if q.Hidden? then [q.block] else []) + HiddenBlocks([]);
  }

  predicate Placed(s: string, from: nat, m: Match)
  {
    from <= m.start <= m.bodyStart <= m.bodyEnd <= m.end <= |s|
  }

  /** One step of each lossless fact: a visible piece and a hidden one in front of any rest. */
  lemma PiecesStep(p: Piece, q: Piece, rest: seq<Piece>)
    requires p.Visible? && q.Hidden?
    ensures Concat([p, q] + rest) == p.text + q.raw + Concat(rest)
    ensures VisibleText([p, q] + rest) == p.text + VisibleText(rest)
    ensures HiddenBlocks([p, q] + rest) == [q.block] + HiddenBlocks(rest)
  {
    ConcatAppend([p, q], rest);
    ConcatPair(p, q);
  }

  lemma SplitThree(s: string, a: nat, b: nat, c: nat)
    requires a <= b <= c <= |s|
    ensures s[a..] == s[a..b] + s[b..c] + s[c..]
  {
  }

  /** The pieces reassemble the text exactly. */
  lemma {:induction false} PiecesLossless(s: string, from: nat)
    requires from <= |s|
    ensures Concat(Pieces(s, from)) == s[from..]
    decreases |s| - from
  {
    PiecesUnfold(s, from);
    match NextBlock(s, from)
    case None =>
      assert [Visible(s[from..])][1..] == [];
    case Some(m) =>
      PiecesLossless(s, m.end);
      PiecesStep(Visible(s[from..m.start]), Hidden(s[m.start..m.end], BlockOf(s, m)), Pieces(s, m.end));
      SplitThree(s, from, m.start, m.end);
  }

  /** Removal keeps exactly the visible pieces, in order. */
  lemma {:induction false} RemoveKeepsVisible(s: string, from: nat)
    requires from <= |s|
    ensures VisibleText(Pieces(s, from)) == RemoveFrom(s, from)
    decreases |s| - from
  {
    RemoveStep(s, from);
    PiecesUnfold(s, from);
    match NextBlock(s, from)
    case None =>
      assert [Visible(s[from..])][1..] == [];
    case Some(m) =>
      RemoveKeepsVisible(s, m.end);
      PiecesStep(Visible(s[from..m.start]), Hidden(s[m.start..m.end], BlockOf(s, m)), Pieces(s, m.end));
  }

  /** Extraction yields exactly the hidden pieces, in order. */
  lemma {:induction false} ExtractYieldsHidden(s: string, from: nat)
    requires from <= |s|
    ensures HiddenBlocks(Pieces(s, from)) == ExtractFrom(s, from)
    decreases |s| - from
  {
    ExtractStep(s, from);
    PiecesUnfold(s, from);
    match NextBlock(s, from)
    case None =>
      assert [Visible(s[from..])][1..] == [];
    case Some(m) =>
      ExtractYieldsHidden(s, m.end);
      PiecesStep(Visible(s[from..m.start]), Hidden(s[m.start..m.end], BlockOf(s, m)), Pieces(s, m.end));
  }

  /** Every hidden piece is a complete block: it opens with `<!--` and closes with `-->`. */
  lemma RawIsBlock(s: string, m: Match)
    requires m.start <= |s| && BlockAt(s, m.start) == Some(m)
    ensures Str.StartsWith(s[m.start..m.end], Open) && Str.EndsWith(s[m.start..m.end], Close)
  {
    var raw := s[m.start..m.end];
    assert raw[..4] == s[m.start..m.start + 4];
    assert raw[|raw| - 3..] == s[m.bodyEnd..m.end];
  }

  lemma {:induction false} HiddenPiecesAreBlocks(s: string, from: nat)
    requires from <= |s|
    ensures forall x :: 0 <= x < |Pieces(s, from)| && Pieces(s, from)[x].Hidden? ==>
      Str.StartsWith(Pieces(s, from)[x].raw, Open) && Str.EndsWith(Pieces(s, from)[x].raw, Close)
    decreases |s| - from
  {
    match NextBlock(s, from)
    case None =>
    case Some(m) =>
      PiecesUnfold(s, from);
      HiddenPiecesAreBlocks(s, m.end);
      RawIsBlock(s, m);
      var head := Head(s, from, m);
      var ps := Pieces(s, from);
      forall x | 0 <= x < |ps| && ps[x].Hidden?
        ensures Str.StartsWith(ps[x].raw, Open) && Str.EndsWith(ps[x].raw, Close)
      {
        if x >= 2 {
          assert ps[x] == Pieces(s, m.end)[x - 2];
        } else {
          assert ps[x] == head[x];
        }
      }
  }

  /** Text without `<!--` loses nothing and yields no block. */
  lemma NoMarkerNoBlocks(s: string)
    requires !Str.Contains(s, Open)
    ensures RemoveHiddenOfficeCode(s) == s && ExtractFrom(s, 0) == []
  {
    match NextBlock(s, 0)
    case None =>
    case Some(m) =>
      Str.ContainsAt(s, Open, m.start);
  }

  // ---------------------------------------------------------------------------
  // Error classification
  // ---------------------------------------------------------------------------

  /**
   * What a thrown value offers to `parseOfficeError`: `code` is its
   * `String(error.code)` when `error.code` is truthy; `message` is
   * `error.message` when that is a string; `isError` is `instanceof Error`;
   * `display` is `String(error)`.
   */
  datatype Thrown = Thrown(
    code: Option<string>,
    name: Option<string>,
    message: Option<string>,
    isError: bool,
    stack: Option<string>,
    display: string)

  function MessageOr(t: Thrown, default: string): string
  {
    if t.message.Some? && t.message.value != "" then t.message.value else default
  }

  /** The four Office.js codes that name their own error type. */
  function OfficeCodeType(code: string): Option<ErrorType>
  {
    if code == "InvalidArgument" then Some(InvalidArgument)
    else if code == "InvalidReference" then Some(InvalidReference)
    else if code == "ApiNotFound" then Some(ApiNotFound)
    else if code == "GeneralException" then Some(GeneralException)
    else None
  }

  function DefaultMessage(t: ErrorType): string
  {
    match t
    case InvalidArgument => "参数无效或缺少，或格式不正确"
    case InvalidReference => "此引用对当前操作无效"
    case ApiNotFound => "找不到该 API"
    case GeneralException => "处理请求时发生内部错误"
    case NetworkError => "网络错误"
    case UnknownError => ""
  }

  predicate LooksLikeNetwork(t: Thrown)
  {
    t.name == Some("NetworkError") || (t.message.Some? && Str.Contains(t.message.value, "network"))
  }

  /** `parseOfficeError` */
  function ParseOfficeError(t: Thrown): (r: ExecutionError)
  {
    if t.code.Some? && OfficeCodeType(t.code.value).Some? then
      var ty := OfficeCodeType(t.code.value).value;
      ExecutionError(ty, t.code, MessageOr(t, DefaultMessage(ty)), None)
    else if LooksLikeNetwork(t) then
      ExecutionError(NetworkError, None, MessageOr(t, DefaultMessage(NetworkError)), None)
    else
      ExecutionError(UnknownError, None,
        if t.isError then t.message.GetOr("") else t.display,
        if t.isError then t.stack else None)
  }

  /**
   * The classification order: a recognised Office.js code decides first and
   * keeps the code; then a network name or message; everything else is
   * unknown.
   */
  lemma ClassificationOrder(t: Thrown)
    ensures var r := ParseOfficeError(t);
      && (r.etype in {InvalidArgument, InvalidReference, ApiNotFound, GeneralException} <==>
            t.code.Some? && OfficeCodeType(t.code.value).Some?)
      && (r.etype in {InvalidArgument, InvalidReference, ApiNotFound, GeneralException} ==>
            r.code == t.code && TypeName(r.etype) == t.code.value)
      && (r.etype == NetworkError <==> !(t.code.Some? && OfficeCodeType(t.code.value).Some?) && LooksLikeNetwork(t))
      && (r.etype == UnknownError <==> !(t.code.Some? && OfficeCodeType(t.code.value).Some?) && !LooksLikeNetwork(t))
      && (r.etype != UnknownError ==> r.message != "")
      && (r.etype != UnknownError ==> r.stackTrace.None?)
  {
    var r := ParseOfficeError(t);
    if t.code.Some? && OfficeCodeType(t.code.value).Some? {
      var c := t.code.value;
      assert TypeName(OfficeCodeType(c).value) == c;
    }
  }

  // ---------------------------------------------------------------------------
  // Normalisation
  // ---------------------------------------------------------------------------

  /** The last position `p` in `[lo, hi)` holding `c`. */
  function LastIndexOfChar(s: string, c: char, lo: nat, hi: nat): (r: Option<nat>)
    requires lo <= hi <= |s|
    ensures r.Some? ==> lo <= r.value < hi && s[r.value] == c
    ensures r.None? ==> forall p :: lo <= p < hi ==> s[p] != c
    ensures r.Some? ==> forall p :: r.value < p < hi ==> s[p] != c
    decreases hi
  {
    if hi == lo then None else if s[hi - 1] == c then Some(hi - 1) else LastIndexOfChar(s, c, lo, hi - 1)
  }

  const Fence := "```"

  /** `code.replace(/^\s*```[a-zA-Z]*\s*\n/, "")`: the greedy spacing ends at its last newline. */
  function StripOpeningFence(s: string): string
  {
    var j := Str.SkipWs(s, 0);
    if !Str.OccursAt(s, Fence, j) then s
    else
      var k := Str.LettersEnd(s, j + 3);
      match LastIndexOfChar(s, '\n', k, Str.SkipWs(s, k))
      case None => s
      case Some(p) => s[p + 1..]
  }

  /** A closing fence can start at the newline at `i`: spacing, "```", then only spacing to the end. */
  predicate ClosingFenceAt(s: string, i: nat)
    requires i <= |s|
  {
    i < |s| && s[i] == '\n'
    && var j := Str.SkipWs(s, i + 1);
    Str.OccursAt(s, Fence, j) && Str.AllWs(s[j + 3..])
  }

  function FirstClosingFence(s: string, from: nat): (r: Option<nat>)
    requires from <= |s|
    ensures r.Some? ==> from <= r.value < |s| && ClosingFenceAt(s, r.value)
    ensures r.None? ==> forall i :: from <= i <= |s| ==> !ClosingFenceAt(s, i)
    decreases |s| - from
  {
    if from == |s| then None
    else if ClosingFenceAt(s, from) then Some(from)
    else FirstClosingFence(s, from + 1)
  }

  /** `code.replace(/\n\s*```\s*$/, "")`: the leftmost match runs to the end of the text. */
  function StripClosingFence(s: string): (r: string)
    ensures Str.StartsWith(s, r)
  {
    match FirstClosingFence(s, 0)
    case None => s
    case Some(i) => s[..i]
  }

  /** A line start for `^` under the `m` flag: the text's start or just after a line terminator. */
  predicate LineStart(s: string, i: nat)
    requires i <= |s|
  {
    i == 0 || Str.IsLineTerminator(s[i - 1])
  }

  /** A line end for `$` under the `m` flag: the text's end or just before a line terminator. */
  predicate LineEnd(s: string, i: nat)
    requires i <= |s|
  {
    i == |s| || Str.IsLineTerminator(s[i])
  }

  /** The largest `e` in `[lo, hi]` where `$` matches under the `m` flag. */
  function LastLineEnd(s: string, lo: nat, hi: nat): (r: Option<nat>)
    requires lo <= hi <= |s|
    ensures r.Some? ==> lo <= r.value <= hi && LineEnd(s, r.value)
    ensures r.Some? ==> forall k :: r.value < k <= hi ==> !LineEnd(s, k)
    ensures r.None? ==> forall k :: lo <= k <= hi ==> !LineEnd(s, k)
    decreases hi - lo
  {
    if LineEnd(s, hi) then Some(hi)
    else if hi == lo then None
    else LastLineEnd(s, lo, hi - 1)
  }

  /**
   * `s[i..e]` is a match of `^\s*\.\.\.\s*$` (flags `gm`): it starts a line, holds white space, three dots
   * and white space, and ends a line.  Line breaks of every kind count, and `\s` crosses them.
   */
  ghost predicate PlaceholderMatch(s: string, i: nat, e: nat)
    requires i <= e <= |s|
  {
    var j := Str.SkipWs(s, i);
    LineStart(s, i) && Str.OccursAt(s, "...", j) && j + 3 <= e && LineEnd(s, e)
    && forall k :: j + 3 <= k < e ==> Str.IsWs(s[k])
  }

  /** The end of a match of `^\s*\.\.\.\s*$` (flags `gm`) starting at `i`: the longest match there, if any. */
  function EllipsisLineAt(s: string, i: nat): (r: Option<nat>)
    requires i <= |s|
    ensures r.Some? ==> i < r.value <= |s| && PlaceholderMatch(s, i, r.value)
    ensures r.Some? ==> forall e :: r.value < e <= |s| ==> !PlaceholderMatch(s, i, e)
    ensures r.None? ==> forall e :: i <= e <= |s| ==> !PlaceholderMatch(s, i, e)
  {
    if !LineStart(s, i) then None
    else
      var j := Str.SkipWs(s, i);
      if !Str.OccursAt(s, "...", j) then None
      else
        var hi := Str.SkipWs(s, j + 3);
        var r := LastLineEnd(s, j + 3, hi);
        assert forall e :: hi < e <= |s| ==> !PlaceholderMatch(s, i, e) by {
          forall e | hi < e <= |s| ensures !PlaceholderMatch(s, i, e) {
            assert !Str.IsWs(s[hi]);
          }
        }
        r
  }

  /** `code.replace(/^\s*\.\.\.\s*$/gm, "")`, scanning the original text from `from`. */
  function DropEllipsisLinesFrom(s: string, from: nat): string
    requires from <= |s|
    decreases |s| - from
  {
    if from == |s| then ""
    else match EllipsisLineAt(s, from)
      case Some(e) => DropEllipsisLinesFrom(s, e)
      case None => [s[from]] + DropEllipsisLinesFrom(s, from + 1)
  }

  function DropEllipsisLines(s: string): string
  {
    DropEllipsisLinesFrom(s, 0)
  }

  /** A text without a dot holds no placeholder line and passes through unchanged. */
  lemma {:induction false} NoDotUnchanged(s: string, from: nat)
    requires from <= |s|
    requires forall k :: 0 <= k < |s| ==> s[k] != '.'
    ensures DropEllipsisLinesFrom(s, from) == s[from..]
    decreases |s| - from
  {
    if from < |s| {
      var j := Str.SkipWs(s, from);
      assert j < |s| ==> s[j..][0] == s[j];
      assert !Str.OccursAt(s, "...", j);
      NoDotUnchanged(s, from + 1);
      assert s[from..] == [s[from]] + s[from + 1..];
    }
  }

  /** A carriage return ends a placeholder line as a line feed would: `"...\rx"` keeps only `"\rx"`. */
  lemma CarriageReturnEndsPlaceholder(s: string)
    requires |s| > 4 && Str.OccursAt(s, "...", 0) && s[3] == '\r' && !Str.IsWs(s[4])
    ensures EllipsisLineAt(s, 0) == Some(3)
    ensures DropEllipsisLines(s) == DropEllipsisLinesFrom(s, 3)
  {
    assert s[0] == s[..3][0] == '.';
    assert Str.SkipWs(s, 0) == 0;
    assert Str.SkipWs(s, 4) == 4;
    assert Str.SkipWs(s, 3) == 4;
  }

  /** The escape sequences are unescaped only when the text has fewer than three real lines. */
  predicate NeedsUnescape(s: string)
  {
    |Str.Split(s, "\n")| < 3 && Str.Contains(s, "\\n")
  }

  function UnescapeSequences(s: string): string
  {
    var a := Str.ReplaceAll(s, "\\r\\n", "\n");
    var b := Str.ReplaceAll(a, "\\n", "\n");
    var c := Str.ReplaceAll(b, "\\t", "\t");
    Str.ReplaceAll(c, "\\r", "\r")
  }

  /** The length of the run of newlines starting at `i`. */
  function NewlineRun(s: string, i: nat): (r: nat)
    requires i <= |s|
    ensures i + r <= |s|
    ensures forall k :: i <= k < i + r ==> s[k] == '\n'
    ensures i + r < |s| ==> s[i + r] != '\n'
    decreases |s| - i
  {
    if i < |s| && s[i] == '\n' then 1 + NewlineRun(s, i + 1) else 0
  }

  /** `code.replace(/\n{3,}/g, "\n\n")`: every maximal run of three or more newlines becomes two. */
  function CollapseNewlines(s: string): (r: string)
    ensures |s| > 0 && s[0] != '\n' ==> |r| > 0 && r[0] == s[0]
    ensures |s| > 0 && s[0] == '\n' ==> |r| > 0 && r[0] == '\n'
    ensures |s| == 0 ==> r == ""
    decreases |s|
  {
    if |s| == 0 then ""
    else if s[0] != '\n' then [s[0]] + CollapseNewlines(s[1..])
    else
      var n := NewlineRun(s, 0);
      (if n >= 3 then "\n\n" else s[..n]) + CollapseNewlines(s[n..])
  }

  predicate NoTripleNewline(s: string)
  {
    forall i :: 0 <= i && i + 2 < |s| ==> !(s[i] == '\n' && s[i + 1] == '\n' && s[i + 2] == '\n')
  }

  lemma {:induction false} CollapseNoTriple(s: string)
    ensures NoTripleNewline(CollapseNewlines(s))
    decreases |s|
  {
    if |s| == 0 {
    } else if s[0] != '\n' {
      CollapseNoTriple(s[1..]);
      var r := CollapseNewlines(s);
      assert r == [s[0]] + CollapseNewlines(s[1..]);
    } else {
      var n := NewlineRun(s, 0);
      CollapseNoTriple(s[n..]);
      var head: string := if n >= 3 then "\n\n" else s[..n];
      var tail := CollapseNewlines(s[n..]);
      assert |head| <= 2;
      assert |tail| > 0 ==> tail[0] != '\n';
      var r := head + tail;
      forall i | 0 <= i && i + 2 < |r| ensures !(r[i] == '\n' && r[i + 1] == '\n' && r[i + 2] == '\n') {
        if i >= |head| {
          assert r[i] == tail[i - |head|] && r[i + 1] == tail[i + 1 - |head|] && r[i + 2] == tail[i + 2 - |head|];
        } else {
          assert i + 2 >= |head|;
          var k := if i + 1 >= |head| then i + 1 else i + 2;
          assert k == |head| ==> r[k] == tail[0];
        }
      }
    }
  }

  lemma SubstringNoTriple(s: string, a: nat, b: nat)
    requires a <= b <= |s| && NoTripleNewline(s)
    ensures NoTripleNewline(s[a..b])
  {
    var t := s[a..b];
    forall i | 0 <= i && i + 2 < |t| ensures !(t[i] == '\n' && t[i + 1] == '\n' && t[i + 2] == '\n') {
      assert t[i] == s[a + i] && t[i + 1] == s[a + i + 1] && t[i + 2] == s[a + i + 2];
    }
  }

  /** `normalizeOfficeCode`, one step per replacement. */
  function NormalizeOfficeCode(input: string): string
  {
    var a := StripOpeningFence(input);
    var b := StripClosingFence(a);
    var c := DropEllipsisLines(b);
    var d := if NeedsUnescape(c) then UnescapeSequences(c) else c;
    Str.Trim(CollapseNewlines(d))
  }

  /** Trimming collapsed text leaves no triple newline and no whitespace at either end. */
  lemma TrimCollapsedShape(d: string)
    ensures var r := Str.Trim(CollapseNewlines(d));
      NoTripleNewline(r) && (|r| == 0 || (!Str.IsWs(r[0]) && !Str.IsWs(r[|r| - 1])))
  {
    var e := CollapseNewlines(d);
    CollapseNoTriple(d);
    var start := Str.TrimBounds(e);
    SubstringNoTriple(e, start, start + |Str.Trim(e)|);
  }

  /** Normalised code never holds three newlines in a row and has no whitespace at either end. */
  lemma NormalizedShape(input: string)
    ensures var r := NormalizeOfficeCode(input);
      NoTripleNewline(r) && (|r| == 0 || (!Str.IsWs(r[0]) && !Str.IsWs(r[|r| - 1])))
  {
    var a := StripOpeningFence(input);
    var b := StripClosingFence(a);
    var c := DropEllipsisLines(b);
    var d := if NeedsUnescape(c) then UnescapeSequences(c) else c;
    TrimCollapsedShape(d);
  }

  /** Text with three or more real lines keeps its escape sequences. */
  lemma ManyLinesKeepEscapes(c: string)
    requires |Str.Split(c, "\n")| >= 3
    ensures !NeedsUnescape(c)
  {
  }

  // ---------------------------------------------------------------------------
  // Error reports in local storage
  // ---------------------------------------------------------------------------

  datatype ReportContext = ReportContext(officeVersion: string, platform: string, browserInfo: Option<string>)

  datatype ErrorReport = ErrorReport(
    timestamp: string,
    testCaseId: Option<string>,
    hostType: Host,
    errorType: ErrorType,
    errorCode: Option<string>,
    errorMessage: string,
    stackTrace: Option<string>,
    userInput: Option<string>,
    generatedCode: string,
    context: ReportContext)

  datatype IndexEntry = IndexEntry(key: string, timestamp: string, testCaseId: Option<string>, errorType: ErrorType, hostType: Host)

  /**
   * The stored index: absent, unreadable (its JSON does not parse to an
   * array, so `JSON.parse` or `push` throws), or a list of entries.
   */
  datatype StoredIndex = Absent | Unreadable | Entries(entries: seq<IndexEntry>)

  const MaxReports := 1000

  function ReportKey(timestamp: string): string
  {
    "error-report-" + timestamp
  }

  /** The index after `push`, then one `shift` when it grew past 1000. */
  function PushCapped(index: seq<IndexEntry>, e: IndexEntry): (r: seq<IndexEntry>)
    ensures |index| <= MaxReports ==> |r| <= MaxReports
    ensures |r| <= |index| + 1
    ensures |r| > 0 && r[|r| - 1] == e
  {
    var pushed := index + [e];
    if |pushed| > MaxReports then pushed[1..] else pushed
  }

  /**
   * The error reports in local storage: the reports by key, and the index
   * under `error-reports-index`. The JSON encoding of both is abstracted: a
   * stored value reads back as what was written.
   */
  class ReportStore {
    var reports: map<string, ErrorReport>
    var index: StoredIndex

    constructor ()
      ensures reports == map[] && index == Absent
    {
      reports := map[];
      index := Absent;
    }

    /** The index never holds more than 1000 entries once saving has gone through this store. */
    predicate Bounded()
      reads this
    {
      index.Entries? ==> |index.entries| <= MaxReports
    }

    /**
     * `saveErrorReport`: the report is written first; a readable index gets
     * the new entry and, past 1000 entries, loses its oldest entry together
     * with that entry's report. An unreadable index makes the rest throw,
     * which the source swallows.
     */
    method SaveErrorReport(report: ErrorReport)
      modifies this
      ensures var key := ReportKey(report.timestamp);
        var entry := IndexEntry(key, report.timestamp, report.testCaseId, report.errorType, report.hostType);
        match old(index)
        case Unreadable => reports == old(reports)[key := report] && index == Unreadable
        case Absent => reports == old(reports)[key := report] && index == Entries([entry])
        case Entries(es) =>
          index == Entries(PushCapped(es, entry))
          && (if |es| + 1 > MaxReports
              then reports == old(reports)[key := report] - {es[0].key}
              else reports == old(reports)[key := report])
      ensures old(Bounded()) ==> Bounded()
    {
      var key := ReportKey(report.timestamp);
      reports := reports[key := report];
      var entry := IndexEntry(key, report.timestamp, report.testCaseId, report.errorType, report.hostType);
      match index {
        case Unreadable =>
        case Absent =>
          index := Entries([entry]);
        case Entries(es) =>
          var pushed := es + [entry];
          if |pushed| > MaxReports {
            var oldestKey := pushed[0].key;
            pushed := pushed[1..];
            reports := reports - {oldestKey};
          }
          index := Entries(pushed);
      }
    }

    /** The reports the index names, in index order, skipping keys with no stored report. */
    function IndexedReports(es: seq<IndexEntry>): (r: seq<ErrorReport>)
      reads this
      ensures |r| <= |es|
      ensures forall x :: 0 <= x < |r| ==> r[x] in reports.Values
    {
      if |es| == 0 then []
      else
        var front := IndexedReports(es[..|es| - 1]);
        var key := es[|es| - 1].key;
        if key in reports then front + [reports[key]] else front
    }

    /**
     * `getErrorReports`: the collecting loop over the index, then the sort
     * newest-first by the parsed timestamp (`timeOf`). An absent or
     * unreadable index gives the empty list.
     */
    method GetErrorReports(timeOf: string -> int) returns (r: seq<ErrorReport>)
      ensures index.Entries? ==> r == SortNewestFirst(IndexedReports(index.entries), timeOf)
      ensures !index.Entries? ==> r == []
    {
      if !index.Entries? {
        return [];
      }
      var es := index.entries;
      var collected: seq<ErrorReport> := [];
      var i := 0;
      while i < |es|
        invariant 0 <= i <= |es|
        invariant collected == IndexedReports(es[..i])
      {
        assert es[..i + 1][..i] == es[..i];
        if es[i].key in reports {
          collected := collected + [reports[es[i].key]];
        }
        i := i + 1;
      }
      assert es[..|es|] == es;
      r := SortNewestFirst(collected, timeOf);
    }

    /**
     * `clearErrorReports`: with a readable index, every indexed report and
     * the index itself are removed; otherwise nothing changes.
     */
    method ClearErrorReports()
      modifies this
      ensures old(index).Entries? ==>
        index == Absent && reports == old(reports) - KeysOf(old(index).entries)
      ensures !old(index).Entries? ==> index == old(index) && reports == old(reports)
    {
      if !index.Entries? {
        return;
      }
      var es := index.entries;
      var i := 0;
      while i < |es|
        invariant 0 <= i <= |es|
        invariant reports == old(reports) - KeysOf(es[..i])
      {
        assert es[..i + 1][..i] == es[..i];
        reports := reports - {es[i].key};
        i := i + 1;
      }
      assert es[..|es|] == es;
      index := Absent;
    }
  }

  /** The keys an index names. */
  function KeysOf(es: seq<IndexEntry>): set<string>
  {
    if |es| == 0 then {} else KeysOf(es[..|es| - 1]) + {es[|es| - 1].key}
  }

  lemma {:induction false} KeysOfMembers(es: seq<IndexEntry>, k: string)
    ensures k in KeysOf(es) <==> exists x :: 0 <= x < |es| && es[x].key == k
  {
    if |es| > 0 {
      var front := es[..|es| - 1];
      KeysOfMembers(front, k);
      if k in KeysOf(front) {
        var x :| 0 <= x < |front| && front[x].key == k;
        assert es[x].key == k;
      }
      if exists x :: 0 <= x < |es| && es[x].key == k {
        var x :| 0 <= x < |es| && es[x].key == k;
        if x < |front| {
          assert front[x].key == k;
        }
      }
    }
  }

  /** The parsed timestamp of a report, the sort key. */
  function TimeKey(timeOf: string -> int): ErrorReport -> int
  {
    (x: ErrorReport) => timeOf(x.timestamp)
  }

  predicate NewestFirst(rs: seq<ErrorReport>, timeOf: string -> int)
  {
    Sorting.Descending(rs, TimeKey(timeOf))
  }

  /** `reports.sort((a, b) => time(b) - time(a))`, a stable sort. */
  function SortNewestFirst(rs: seq<ErrorReport>, timeOf: string -> int): (r: seq<ErrorReport>)
    ensures multiset(r) == multiset(rs)
  {
    Sorting.SortDesc(rs, TimeKey(timeOf))
  }

  /** The sorted reports are newest-first and a permutation of the input; equal times keep their index order. */
  lemma SortNewestFirstSorted(rs: seq<ErrorReport>, timeOf: string -> int)
    ensures NewestFirst(SortNewestFirst(rs, timeOf), timeOf)
    ensures forall i, j :: 0 <= i < j < |SortNewestFirst(rs, timeOf)| ==>
      timeOf(SortNewestFirst(rs, timeOf)[i].timestamp) >= timeOf(SortNewestFirst(rs, timeOf)[j].timestamp)
    ensures multiset(SortNewestFirst(rs, timeOf)) == multiset(rs)
    ensures forall t :: Sorting.WithKey(SortNewestFirst(rs, timeOf), TimeKey(timeOf), t) == Sorting.WithKey(rs, TimeKey(timeOf), t)
  {
    Sorting.SortDescSorted(rs, TimeKey(timeOf));
  }

  // ---------------------------------------------------------------------------
  // Running several blocks
  // ---------------------------------------------------------------------------

  datatype ExecOutcome = ExecOutcome(success: bool, error: Option<ExecutionError>)

  /**
   * `executeOfficeCodeBlocks`: each block runs in turn through `execute`
   * (the Office.js call, abstracted), a failure does not stop the loop, and
   * the results line up with the blocks.
   */
  method ExecuteOfficeCodeBlocks(blocks: seq<OfficeCodeBlock>, execute: OfficeCodeBlock -> ExecOutcome)
    returns (results: seq<ExecOutcome>)
    ensures |results| == |blocks|
    ensures forall x :: 0 <= x < |blocks| ==> results[x] == execute(blocks[x])
  {
    results := [];
    var i := 0;
    while i < |blocks|
      invariant 0 <= i <= |blocks|
      invariant |results| == i
      invariant forall x :: 0 <= x < i ==> results[x] == execute(blocks[x])
    {
      var outcome := execute(blocks[i]);
      results := results + [outcome];
      i := i + 1;
    }
  }
}
