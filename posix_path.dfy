/**
 * The POSIX behaviour of the three functions of Node's `path` module that
 * the file routes rely on: `join`, `normalize` and `extname`. Paths are
 * handled as their `/`-separated segments.
 */
module PosixPath {
  import opened Wrappers
  import Str

  predicate NoSlash(s: string)
  {
    forall i :: 0 <= i < |s| ==> s[i] != '/'
  }

  /** A segment that normalisation keeps as it is: not empty, not `.` or `..`, and without `/`. */
  predicate IsName(s: string)
  {
    s != "" && s != "." && s != ".." && NoSlash(s)
  }

  predicate AllNames(ns: seq<string>)
  {
    forall k :: 0 <= k < |ns| ==> IsName(ns[k])
  }

  // ---------------------------------------------------------------------------
  // Segments
  // ---------------------------------------------------------------------------

  /** The index of the first `/` in `s`. */
  function FirstSlash(s: string): (r: Option<nat>)
    ensures r.Some? ==> r.value < |s| && s[r.value] == '/' && NoSlash(s[..r.value])
    ensures r.None? ==> NoSlash(s)
  {
    if |s| == 0 then None
    else if s[0] == '/' then Some(0)
    else match FirstSlash(s[1..])
      case None => None
      case Some(i) => Some(i + 1)
  }

  /** The pieces of `s` between `/` separators, as `s.split("/")` gives them. */
  function Segments(s: string): (r: seq<string>)
    ensures |r| >= 1
    decreases |s|
  {
    match FirstSlash(s)
    case None => [s]
    case Some(i) => [s[..i]] + Segments(s[i + 1..])
  }

  lemma SegmentsOfName(a: string)
    requires NoSlash(a)
    ensures Segments(a) == [a]
  {
  }

  /** The first `/` of `a + "/" + b` is the first one of `a`, or the added one. */
  lemma FirstSlashSplit(a: string, b: string)
    ensures FirstSlash(a + "/" + b) == (if FirstSlash(a).Some? then FirstSlash(a) else Some(|a|))
  {
    var s := a + "/" + b;
    assert s[|a|] == '/';
    assert forall j :: 0 <= j < |a| ==> s[j] == a[j];
  }

  /** A separator splits the segments of the two sides apart. */
  lemma {:induction false} SegmentsSplit(a: string, b: string)
    ensures Segments(a + "/" + b) == Segments(a) + Segments(b)
    decreases |a|
  {
    var s := a + "/" + b;
    FirstSlashSplit(a, b);
    match FirstSlash(a)
    case None =>
      assert s[..|a|] == a && s[|a| + 1..] == b;
    case Some(i) =>
      assert s[..i] == a[..i];
      assert s[i + 1..] == a[i + 1..] + "/" + b;
      SegmentsSplit(a[i + 1..], b);
  }

  /** Splitting names joined with `/` gives the names back. */
  lemma {:induction false} SegmentsOfJoin(ns: seq<string>)
    requires |ns| > 0 && forall k :: 0 <= k < |ns| ==> NoSlash(ns[k])
    ensures Segments(Str.Join(ns, "/")) == ns
  {
    if |ns| == 1 {
      SegmentsOfName(ns[0]);
    } else {
      var head, tail := ns[0], ns[1..];
      assert ns == [head] + tail;
      assert Str.Join(ns, "/") == head + "/" + Str.Join(tail, "/") by {
        Str.JoinCons(head, tail, "/");
      }
      assert Segments(Str.Join(tail, "/")) == tail by {
        SegmentsOfJoin(tail);
      }
      SegmentsOfName(head);
      SegmentsSplit(head, Str.Join(tail, "/"));
    }
  }

  // ---------------------------------------------------------------------------
  // normalize and join
  // ---------------------------------------------------------------------------

  /**
   * Node's `normalizeString`: empty and `.` segments are dropped and `..`
   * removes the last kept segment; a `..` with nothing to remove is dropped
   * in an absolute path and kept in a relative one.
   */
  function Resolve(kept: seq<string>, segs: seq<string>, absolute: bool): seq<string>
    decreases |segs|
  {
    if |segs| == 0 then kept
    else
      var s := segs[0];
      if s == "" || s == "." then Resolve(kept, segs[1..], absolute)
      else if s == ".." then
        if |kept| > 0 && kept[|kept| - 1] != ".." then Resolve(kept[..|kept| - 1], segs[1..], absolute)
        else if absolute then Resolve(kept, segs[1..], absolute)
        else Resolve(kept + [".."], segs[1..], absolute)
      else Resolve(kept + [s], segs[1..], absolute)
  }

  /** The resolved segments contain no empty or `.` segment, and in an absolute path no `..`. */
  lemma {:induction false} ResolvedNormal(kept: seq<string>, segs: seq<string>, absolute: bool)
    requires forall k :: 0 <= k < |kept| ==> kept[k] != "" && kept[k] != "." && (absolute ==> kept[k] != "..")
    ensures forall k :: 0 <= k < |Resolve(kept, segs, absolute)| ==>
      Resolve(kept, segs, absolute)[k] != "" && Resolve(kept, segs, absolute)[k] != "." &&
      (absolute ==> Resolve(kept, segs, absolute)[k] != "..")
    decreases |segs|
  {
    if |segs| > 0 {
      var s := segs[0];
      if s == "" || s == "." {
        ResolvedNormal(kept, segs[1..], absolute);
      } else if s == ".." {
        if |kept| > 0 && kept[|kept| - 1] != ".." {
          ResolvedNormal(kept[..|kept| - 1], segs[1..], absolute);
        } else if absolute {
          ResolvedNormal(kept, segs[1..], absolute);
        } else {
          ResolvedNormal(kept + [".."], segs[1..], absolute);
        }
      } else {
        ResolvedNormal(kept + [s], segs[1..], absolute);
      }
    }
  }

  /** Names are kept as they are. */
  lemma {:induction false} ResolveNames(kept: seq<string>, ns: seq<string>, absolute: bool)
    requires AllNames(ns)
    ensures Resolve(kept, ns, absolute) == kept + ns
    decreases |ns|
  {
    if |ns| > 0 {
      ResolveNames(kept + [ns[0]], ns[1..], absolute);
      assert kept + [ns[0]] + ns[1..] == kept + ns;
    }
  }

  /** Resolving a concatenation resolves the second part against what the first leaves. */
  lemma {:induction false} ResolveAppend(kept: seq<string>, a: seq<string>, b: seq<string>, absolute: bool)
    ensures Resolve(kept, a + b, absolute) == Resolve(Resolve(kept, a, absolute), b, absolute)
    decreases |a|
  {
    if |a| == 0 {
      assert a + b == b;
    } else {
      assert (a + b)[0] == a[0];
      assert (a + b)[1..] == a[1..] + b;
      var s := a[0];
      if s == "" || s == "." {
        ResolveAppend(kept, a[1..], b, absolute);
      } else if s == ".." {
        if |kept| > 0 && kept[|kept| - 1] != ".." {
          ResolveAppend(kept[..|kept| - 1], a[1..], b, absolute);
        } else if absolute {
          ResolveAppend(kept, a[1..], b, absolute);
        } else {
          ResolveAppend(kept + [".."], a[1..], b, absolute);
        }
      } else {
        ResolveAppend(kept + [s], a[1..], b, absolute);
      }
    }
  }

  /** `path.normalize(p)` */
  function Normalize(p: string): (r: string)
    ensures |r| > 0
  {
    if p == "" then "."
    else
      var absolute := p[0] == '/';
      var trailing := p[|p| - 1] == '/';
      var body := Str.Join(Resolve([], Segments(p), absolute), "/");
      if body == "" then (if absolute then "/" else if trailing then "./" else ".")
      else (if absolute then "/" else "") + body + (if trailing then "/" else "")
  }

  /** The non-empty arguments, in order. */
  function NonEmpty(parts: seq<string>): (r: seq<string>)
    ensures forall k :: 0 <= k < |r| ==> r[k] != ""
    ensures (forall k :: 0 <= k < |parts| ==> parts[k] != "") ==> r == parts
  {
    if |parts| == 0 then []
    else (if parts[0] == "" then [] else [parts[0]]) + NonEmpty(parts[1..])
  }

  /** `path.join(...parts)`: the non-empty parts joined with `/`, then normalised. */
  function Join(parts: seq<string>): (r: string)
    ensures |r| > 0
  {
    var joined := Str.Join(NonEmpty(parts), "/");
    if joined == "" then "." else Normalize(joined)
  }

  /** The text of an absolute path made of names: `/n1/n2/…`. */
  function Absolute(ns: seq<string>): string
  {
    "/" + Str.Join(ns, "/")
  }

  lemma {:induction false} JoinEndsWithLast(ns: seq<string>)
    requires |ns| > 0
    ensures Str.EndsWith(Str.Join(ns, "/"), ns[|ns| - 1])
  {
    if |ns| > 1 {
      var init := ns[..|ns| - 1];
      assert ns == init + [ns[|ns| - 1]];
      Str.JoinAppend(init, ns[|ns| - 1], "/");
    }
  }

  /** An absolute path made of names is already normal. */
  lemma NormalizeAbsolute(ns: seq<string>)
    requires |ns| > 0 && AllNames(ns)
    ensures Normalize(Absolute(ns)) == Absolute(ns)
  {
    var p := Absolute(ns);
    var body := Str.Join(ns, "/");
    assert Resolve([], Segments(p), true) == ns by {
      assert p == "" + "/" + body;
      SegmentsSplit("", body);
      SegmentsOfJoin(ns);
      ResolveAppend([], [""], ns, true);
      ResolveNames([], ns, true);
    }
    assert p[|p| - 1] != '/' by {
      JoinEndsWithLast(ns);
      var last := ns[|ns| - 1];
      assert p[|p| - 1] == body[|body| - 1] == last[|last| - 1];
    }
    assert body != "" by {
      JoinEndsWithLast(ns);
    }
  }

  /**
   * Joining names onto an absolute root made of names appends them:
   * `path.join("/r1/…/rm", n1, …, nk)` is `/r1/…/rm/n1/…/nk`.
   */
  lemma JoinNames(rs: seq<string>, ns: seq<string>)
    requires |rs| > 0 && AllNames(rs) && |ns| > 0 && AllNames(ns)
    ensures Join([Absolute(rs)] + ns) == Absolute(rs + ns)
    ensures Join([Absolute(rs)] + ns) == Absolute(rs) + "/" + Str.Join(ns, "/")
  {
    JoinedText(rs, ns);
    AllNamesConcat(rs, ns);
    NormalizeAbsolute(rs + ns);
  }

  lemma AllNamesConcat(a: seq<string>, b: seq<string>)
    requires AllNames(a) && AllNames(b)
    ensures AllNames(a + b)
  {
    forall k | 0 <= k < |a + b| ensures IsName((a + b)[k]) {
      if k >= |a| { assert (a + b)[k] == b[k - |a|]; }
    }
  }

  /** The text `path.join` normalises when the root and the names are all non-empty. */
  lemma JoinedText(rs: seq<string>, ns: seq<string>)
    requires |rs| > 0 && |ns| > 0 && AllNames(ns)
    ensures NonEmpty([Absolute(rs)] + ns) == [Absolute(rs)] + ns
    ensures Str.Join([Absolute(rs)] + ns, "/") == Absolute(rs + ns) == Absolute(rs) + "/" + Str.Join(ns, "/")
  {
    var parts := [Absolute(rs)] + ns;
    forall k | 0 <= k < |parts| ensures parts[k] != "" {
      if k > 0 { assert parts[k] == ns[k - 1]; }
    }
    Str.JoinCons(Absolute(rs), ns, "/");
    Str.JoinConcat(rs, ns, "/");
    Str.Regroup("/", Str.Join(rs, "/"), "/", Str.Join(ns, "/"));
  }

  lemma AbsoluteSegments(ns: seq<string>)
    requires |ns| > 0 && forall k :: 0 <= k < |ns| ==> NoSlash(ns[k])
    ensures Segments(Absolute(ns)) == [""] + ns
  {
    assert Absolute(ns) == "" + "/" + Str.Join(ns, "/");
    SegmentsSplit("", Str.Join(ns, "/"));
    SegmentsOfJoin(ns);
  }

  /** `path.join(root, n1, …, nk, tail)` with a root and names made of names is the normalised text `root/n1/…/nk/tail`. */
  lemma JoinTail(rs: seq<string>, ns: seq<string>, tail: string)
    requires |rs| > 0 && AllNames(rs) && AllNames(ns) && tail != ""
    ensures Join([Absolute(rs)] + ns + [tail]) == Normalize(Absolute(rs + ns) + "/" + tail)
  {
    var head := [Absolute(rs)] + ns;
    var parts := head + [tail];
    assert forall k :: 0 <= k < |parts| ==> parts[k] != "" by {
      forall k | 0 <= k < |parts| ensures parts[k] != "" {
        if 0 < k < |parts| - 1 { assert parts[k] == ns[k - 1]; }
      }
    }
    Str.JoinAppend(head, tail, "/");
    if |ns| > 0 {
      Str.JoinCons(Absolute(rs), ns, "/");
      Str.JoinConcat(rs, ns, "/");
    } else {
      assert head == [Absolute(rs)] && rs + ns == rs;
    }
    assert Str.Join(head, "/") == Absolute(rs + ns);
  }

  lemma SegmentsBelow(ks: seq<string>, tail: string)
    requires |ks| > 0 && AllNames(ks)
    ensures Segments(Absolute(ks) + "/" + tail) == [""] + ks + Segments(tail)
  {
    SegmentsSplit(Absolute(ks), tail);
    AbsoluteSegments(ks);
  }

  lemma ResolveBelow(ks: seq<string>, segs: seq<string>)
    requires AllNames(ks)
    ensures Resolve([], [""] + ks + segs, true) == Resolve(ks, segs, true)
  {
    ResolveAppend([], [""] + ks, segs, true);
    ResolveAppend([], [""], ks, true);
    assert [""][1..] == [];
    assert Resolve([], [""], true) == [];
    ResolveNames([], ks, true);
    assert [] + ks == ks;
    assert Resolve([], [""] + ks, true) == ks;
  }

  /** Normalising `/k1/…/km/tail` resolves the tail's segments against `k1 … km`. */
  lemma NormalizeBelow(ks: seq<string>, tail: string)
    requires |ks| > 0 && AllNames(ks) && tail != "" && tail[|tail| - 1] != '/'
    requires |Resolve(ks, Segments(tail), true)| > 0
    ensures Normalize(Absolute(ks) + "/" + tail) == Absolute(Resolve(ks, Segments(tail), true))
  {
    var p := Absolute(ks) + "/" + tail;
    SegmentsBelow(ks, tail);
    ResolveBelow(ks, Segments(tail));
    var out := Resolve(ks, Segments(tail), true);
    ResolvedNormal([], Segments(p), true);
    JoinEndsWithLast(out);
    assert out[|out| - 1] != "";
    assert p[0] == '/' && p[|p| - 1] == tail[|tail| - 1];
  }

  // ---------------------------------------------------------------------------
  // extname
  // ---------------------------------------------------------------------------

  /** The index of the last `c` in `s`. */
  function LastIndexOf(s: string, c: char): (r: Option<nat>)
    ensures r.Some? ==> r.value < |s| && s[r.value] == c && forall j :: r.value < j < |s| ==> s[j] != c
    ensures r.None? ==> forall j :: 0 <= j < |s| ==> s[j] != c
  {
    if |s| == 0 then None
    else if s[|s| - 1] == c then Some(|s| - 1)
    else LastIndexOf(s[..|s| - 1], c)
  }

  /** `s` without its trailing separators. */
  function TrimSlashes(s: string): (r: string)
    ensures Str.StartsWith(s, r) && (|r| > 0 ==> r[|r| - 1] != '/')
    ensures forall i :: |r| <= i < |s| ==> s[i] == '/'
  {
    if |s| > 0 && s[|s| - 1] == '/' then TrimSlashes(s[..|s| - 1]) else s
  }

  /** The last segment of `s`, trailing separators ignored. */
  function LastSegment(s: string): (r: string)
    ensures NoSlash(r) && Str.EndsWith(TrimSlashes(s), r)
  {
    var t := TrimSlashes(s);
    match LastIndexOf(t, '/')
    case None => t
    case Some(i) => t[i + 1..]
  }

  /**
   * `path.extname(p)`: from the last `.` of the last segment to its end,
   * or empty when that segment has no `.`, starts with its only counted
   * `.`, or is `..`.
   */
  function Extname(p: string): (r: string)
    ensures r == "" || (r[0] == '.' && Str.EndsWith(LastSegment(p), r))
    ensures forall i :: 1 <= i < |r| ==> r[i] != '.' && r[i] != '/'
  {
    var b := LastSegment(p);
    match LastIndexOf(b, '.')
    case None => ""
    case Some(d) =>
      if d == 0 || b == ".." then ""
      else
        SuffixAt(b, d);
        b[d..]
  }

  lemma SuffixAt(s: string, d: nat)
    requires d <= |s|
    ensures Str.EndsWith(s, s[d..])
    ensures forall i :: 0 <= i < |s| - d ==> s[d..][i] == s[d + i]
  {
  }

  /** A name `stem.ext` with a non-empty stem has the extension `.ext`. */
  lemma ExtnameOfName(stem: string, ext: string)
    requires stem != "" && NoSlash(stem) && NoSlash(ext)
    requires forall i :: 0 <= i < |ext| ==> ext[i] != '.'
    requires stem != "." || ext != ""
    ensures Extname(stem + "." + ext) == "." + ext
  {
    var p := stem + "." + ext;
    assert NoSlash(p) by {
      forall i | 0 <= i < |p| ensures p[i] != '/' {
        if i < |stem| { assert p[i] == stem[i]; }
        else if i > |stem| { assert p[i] == ext[i - |stem| - 1]; }
      }
    }
    assert p[|p| - 1] != '/';
    assert TrimSlashes(p) == p;
    assert LastSegment(p) == p;
    var d := LastIndexOf(p, '.');
    assert p[|stem|] == '.';
    assert forall j :: |stem| < j < |p| ==> p[j] == ext[j - |stem| - 1];
    assert d == Some(|stem|);
    assert p[|stem|..] == "." + ext;
  }

  /** A name without a `.`, or whose only `.` is its first character, has no extension. */
  lemma ExtnameOfPlainName(name: string)
    requires NoSlash(name)
    requires forall i :: 1 <= i < |name| ==> name[i] != '.'
    ensures Extname(name) == ""
  {
    if |name| > 0 {
      assert TrimSlashes(name) == name;
    }
    assert LastSegment(name) == name;
  }
}
