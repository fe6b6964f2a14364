/**
 * String helpers with the semantics of the JavaScript built-ins the repository
 * uses: `trim`, `split` on a literal separator, `join`, `indexOf`, `includes`,
 * `startsWith`, `replace` of a literal with the global flag, and decimal
 * rendering of integers.  Strings are sequences of characters.
 */
module Str {
  import opened Wrappers

  /** The characters JavaScript's `\s` and `String.prototype.trim` treat as white space. */
  predicate IsWs(c: char)
  {
    c == ' ' || c == '\t' || c == '\n' || c == '\r' || c == '\U{B}' || c == '\U{C}'
    || c == '\U{A0}' || c == '\U{1680}' || ('\U{2000}' <= c <= '\U{200A}')
    || c == '\U{2028}' || c == '\U{2029}' || c == '\U{202F}' || c == '\U{205F}'
    || c == '\U{3000}' || c == '\U{FEFF}'
  }

  /** Line terminators, the characters `.` does not match and `^`/`$` see in multiline mode. */
  predicate IsLineTerminator(c: char)
  {
    c == '\n' || c == '\r' || c == '\U{2028}' || c == '\U{2029}'
  }

  predicate IsDigit(c: char) { '0' <= c <= '9' }
  predicate IsUpper(c: char) { 'A' <= c <= 'Z' }
  predicate IsLower(c: char) { 'a' <= c <= 'z' }
  predicate IsLetter(c: char) { IsUpper(c) || IsLower(c) }

  predicate AllWs(s: string)
  {
    forall i :: 0 <= i < |s| ==> IsWs(s[i])
  }

  /** The number of white-space characters `s` starts with. */
  function LeadingWs(s: string): (n: nat)
    ensures n <= |s| && (n < |s| ==> !IsWs(s[n]))
    ensures forall i :: 0 <= i < n ==> IsWs(s[i])
  {
    if |s| > 0 && IsWs(s[0]) then 1 + LeadingWs(s[1..]) else 0
  }

  /** The number of white-space characters `s` ends with. */
  function TrailingWs(s: string): (n: nat)
    ensures n <= |s| && (n < |s| ==> !IsWs(s[|s| - 1 - n]))
    ensures forall i :: |s| - n <= i < |s| ==> IsWs(s[i])
  {
    if |s| > 0 && IsWs(s[|s| - 1]) then 1 + TrailingWs(s[..|s| - 1]) else 0
  }

  /** `s.trimStart()` */
  function TrimStart(s: string): (r: string)
    ensures |r| <= |s| && r == s[|s| - |r|..]
    ensures |r| > 0 ==> !IsWs(r[0])
    ensures forall i :: 0 <= i < |s| - |r| ==> IsWs(s[i])
  {
    s[LeadingWs(s)..]
  }

  /** `s.trimEnd()` */
  function TrimEnd(s: string): (r: string)
    ensures |r| <= |s| && r == s[..|r|]
    ensures |r| > 0 ==> !IsWs(r[|r| - 1])
    ensures forall i :: |r| <= i < |s| ==> IsWs(s[i])
  {
    s[..|s| - TrailingWs(s)]
  }

  /** `s.trim()` */
  function Trim(s: string): string
  {
    TrimEnd(TrimStart(s))
  }

  /** What `trim` keeps starts and ends with a character that is not white space. */
  lemma TrimClean(s: string)
    ensures Trim(s) == [] || (!IsWs(Trim(s)[0]) && !IsWs(Trim(s)[|Trim(s)| - 1]))
  {
    var t := TrimStart(s);
    var r := TrimEnd(t);
    if |r| > 0 {
      assert r[0] == t[0];
    }
  }

  /** What `trim` keeps sits at offset `|s| - |TrimStart(s)|` of the input. */
  lemma TrimOccurs(s: string)
    ensures OccursAt(s, Trim(s), |s| - |TrimStart(s)|)
  {
    var t := TrimStart(s);
    var a := |s| - |t|;
    assert t == s[a..];
    assert s[a..a + |TrimEnd(t)|] == TrimEnd(t);
  }

  /** Everything after what `trim` keeps is white space. */
  lemma TrimTailWs(s: string)
    ensures forall i :: |s| - |TrimStart(s)| + |Trim(s)| <= i < |s| ==> IsWs(s[i])
  {
    var t := TrimStart(s);
    var a := |s| - |t|;
    forall i | a + |TrimEnd(t)| <= i < |s| ensures IsWs(s[i]) {
      assert s[i] == t[i - a];
    }
  }

  /** What `trim` keeps is a contiguous piece of the input with no white space at either end. */
  lemma TrimBounds(s: string) returns (a: nat)
    ensures Trim(s) == [] || (!IsWs(Trim(s)[0]) && !IsWs(Trim(s)[|Trim(s)| - 1]))
    ensures OccursAt(s, Trim(s), a)
    ensures forall i :: 0 <= i < a ==> IsWs(s[i])
    ensures forall i :: a + |Trim(s)| <= i < |s| ==> IsWs(s[i])
  {
    a := |s| - |TrimStart(s)|;
    TrimClean(s);
    TrimOccurs(s);
    TrimTailWs(s);
  }

  /** Concatenation is associative. */
  lemma Assoc<T>(a: seq<T>, b: seq<T>, c: seq<T>)
    ensures a + b + c == a + (b + c)
  {
  }

  /** Equal lists with the same first part have the same rest. */
  lemma CancelPrefix<T>(p: seq<T>, s: seq<T>, t: seq<T>)
    requires p + s == p + t
    ensures s == t
  {
    assert s == (p + s)[|p|..];
    assert t == (p + t)[|p|..];
  }

  lemma Regroup<T>(a: seq<T>, b: seq<T>, c: seq<T>, d: seq<T>)
    ensures a + b + c + d == a + (b + c + d)
  {
  }

  lemma Flatten<T>(a: seq<T>, b: seq<T>, c: seq<T>, d: seq<T>, e: seq<T>)
    ensures a + (b + (c + d + e)) == a + b + c + d + e
  {
  }

  /** Where the `k`-th element of each middle part of a five-part concatenation sits. */
  lemma PartsAt<T>(a: seq<T>, b: seq<T>, c: seq<T>, d: seq<T>, e: seq<T>, k: nat)
    ensures k < |b| ==> (a + b + c + d + e)[|a| + k] == b[k]
    ensures k < |c| ==> (a + b + c + d + e)[|a| + |b| + k] == c[k]
    ensures k < |d| ==> (a + b + c + d + e)[|a| + |b| + |c| + k] == d[k]
  {
    var w := a + b + c + d + e;
    assert w == a + (b + (c + (d + e)));
    if k < |b| {
      assert w[|a| + k] == (b + (c + (d + e)))[k];
    }
    if k < |c| {
      assert w[|a| + |b| + k] == (c + (d + e))[k];
    }
    if k < |d| {
      assert w[|a| + |b| + |c| + k] == (d + e)[k];
    }
  }

  lemma TrimOfClean(s: string)
    requires s == [] || (!IsWs(s[0]) && !IsWs(s[|s| - 1]))
    ensures Trim(s) == s
  {
  }

  function Repeat(c: char, n: nat): (r: string)
    ensures |r| == n && forall i :: 0 <= i < n ==> r[i] == c
  {
    if n == 0 then "" else [c] + Repeat(c, n - 1)
  }

  predicate StartsWith(s: string, p: string)
  {
    |p| <= |s| && s[..|p|] == p
  }

  predicate EndsWith(s: string, p: string)
  {
    |p| <= |s| && s[|s| - |p|..] == p
  }

  /** `sub` occurs in `s` starting at index `i`. */
  predicate OccursAt(s: string, sub: string, i: nat)
  {
    i + |sub| <= |s| && s[i..i + |sub|] == sub
  }

  /** `s.indexOf(sub, from)`, as an option: the first occurrence at or after `from`. */
  function IndexOfFrom(s: string, sub: string, from: nat): (r: Option<nat>)
    requires from <= |s|
    ensures r.Some? ==>
      from <= r.value && OccursAt(s, sub, r.value) && forall j :: from <= j < r.value ==> !OccursAt(s, sub, j)
    ensures r.None? ==> forall j :: from <= j ==> !OccursAt(s, sub, j)
    decreases |s| - from
  {
    if from + |sub| > |s| then None
    else if s[from..from + |sub|] == sub then Some(from)
    else IndexOfFrom(s, sub, from + 1)
  }

  /** `s.includes(sub)` */
  predicate Contains(s: string, sub: string)
  {
    IndexOfFrom(s, sub, 0).Some?
  }

  lemma ContainsAt(s: string, sub: string, i: nat)
    requires OccursAt(s, sub, i)
    ensures Contains(s, sub)
  {
  }

  lemma NoOccurrence(s: string, sub: string)
    requires forall j: nat :: !OccursAt(s, sub, j)
    ensures !Contains(s, sub)
  {
  }

  lemma ContainsWitness(s: string, sub: string) returns (i: nat)
    requires Contains(s, sub)
    ensures OccursAt(s, sub, i)
  {
    i := IndexOfFrom(s, sub, 0).value;
  }

  lemma ContainsInPrefix(s: string, t: string, sub: string)
    requires Contains(s, sub)
    ensures Contains(s + t, sub) && Contains(t + s, sub)
  {
    var i := ContainsWitness(s, sub);
    assert (s + t)[i..i + |sub|] == s[i..i + |sub|];
    ContainsAt(s + t, sub, i);
    assert (t + s)[|t| + i..|t| + i + |sub|] == s[i..i + |sub|];
    ContainsAt(t + s, sub, |t| + i);
  }

  lemma ContainsSelf(s: string)
    ensures Contains(s, s)
  {
    assert OccursAt(s, s, 0);
    ContainsAt(s, s, 0);
  }

  /** The number of positions at or after `from` where `sub` starts. */
  function CountFrom(s: string, sub: string, from: nat): (n: nat)
    requires |sub| > 0 && from <= |s|
    ensures n <= |s| - from
    decreases |s| - from
  {
    if from == |s| then 0
    else (if OccursAt(s, sub, from) then 1 else 0) + CountFrom(s, sub, from + 1)
  }

  /**
   * The number of non-overlapping matches `s.match(/sub/g)` finds for a
   * literal `sub` that cannot overlap itself; equal to the number of start positions.
   */
  function CountOccurrences(s: string, sub: string): nat
    requires |sub| > 0
  {
    CountFrom(s, sub, 0)
  }

  lemma CountZeroIffAbsent(s: string, sub: string, from: nat)
    requires |sub| > 0 && from <= |s|
    ensures CountFrom(s, sub, from) == 0 <==> IndexOfFrom(s, sub, from).None?
    decreases |s| - from
  {
    if from < |s| {
      CountZeroIffAbsent(s, sub, from + 1);
    }
  }

  /** `s.split(sep)` for a non-empty literal separator. */
  function Split(s: string, sep: string): (r: seq<string>)
    requires |sep| > 0
    ensures |r| >= 1
    decreases |s|
  {
    match IndexOfFrom(s, sep, 0)
    case None => [s]
    case Some(i) => [s[..i]] + Split(s[i + |sep|..], sep)
  }

  /** `parts.join(sep)` */
  function Join(parts: seq<string>, sep: string): string
  {
    if |parts| == 0 then ""
    else if |parts| == 1 then parts[0]
    else parts[0] + sep + Join(parts[1..], sep)
  }

  lemma JoinCons(p: string, rest: seq<string>, sep: string)
    requires |rest| > 0
    ensures Join([p] + rest, sep) == p + sep + Join(rest, sep)
  {
    assert ([p] + rest)[1..] == rest;
  }

  /** A joined text begins with its first part. */
  lemma JoinStartsWithFirst(parts: seq<string>, sep: string)
    requires |parts| > 0
    ensures StartsWith(Join(parts, sep), parts[0])
  {
    if |parts| > 1 {
      var rest := sep + Join(parts[1..], sep);
      assert Join(parts, sep) == parts[0] + rest;
      assert (parts[0] + rest)[..|parts[0]|] == parts[0];
    }
  }

  lemma JoinAppend(parts: seq<string>, last: string, sep: string)
    requires |parts| > 0
    ensures Join(parts + [last], sep) == Join(parts, sep) + sep + last
  {
    if |parts| == 1 {
      assert parts + [last] == [parts[0], last];
    } else {
      assert (parts + [last])[1..] == parts[1..] + [last];
      JoinAppend(parts[1..], last, sep);
    }
  }

  lemma JoinConcat(a: seq<string>, b: seq<string>, sep: string)
    requires |a| > 0 && |b| > 0
    ensures Join(a + b, sep) == Join(a, sep) + sep + Join(b, sep)
  {
    if |a| == 1 {
      JoinCons(a[0], b, sep);
      assert a + b == [a[0]] + b;
    } else {
      assert (a + b)[1..] == a[1..] + b;
      JoinConcat(a[1..], b, sep);
    }
  }

  /** Joining the pieces of a split with the same separator gives back the string. */
  lemma {:induction false} JoinSplit(s: string, sep: string)
    requires |sep| > 0
    ensures Join(Split(s, sep), sep) == s
    decreases |s|
  {
    match IndexOfFrom(s, sep, 0)
    case None =>
    case Some(i) =>
      var rest := s[i + |sep|..];
      assert Split(s, sep) == [s[..i]] + Split(rest, sep);
      JoinSplit(rest, sep);
      JoinCons(s[..i], Split(rest, sep), sep);
      assert s == s[..i] + sep + rest;
  }

  /** A leading piece free of a one-character separator splits off first. */
  lemma SplitLead(a: string, c: char, b: string)
    requires forall i :: 0 <= i < |a| ==> a[i] != c
    ensures Split(a + [c] + b, [c]) == [a] + Split(b, [c])
  {
    var s := a + [c] + b;
    assert OccursAt(s, [c], |a|);
    var r := IndexOfFrom(s, [c], 0);
    assert r.Some?;
    forall i | 0 <= i < |a| ensures !OccursAt(s, [c], i) {
      assert s[i] == a[i];
      assert s[i..i + 1][0] == s[i];
    }
    assert r.value == |a|;
    assert s[..|a|] == a;
    assert s[|a| + 1..] == b;
  }

  /** No piece of a split contains the separator. */
  lemma {:induction false} SplitPiecesFree(s: string, sep: string)
    requires |sep| > 0
    ensures forall k :: 0 <= k < |Split(s, sep)| ==> !Contains(Split(s, sep)[k], sep)
    decreases |s|
  {
    match IndexOfFrom(s, sep, 0)
    case None =>
    case Some(i) =>
      var rest := s[i + |sep|..];
      SplitPiecesFree(rest, sep);
      forall j: nat ensures !OccursAt(s[..i], sep, j) {
        if j + |sep| <= i {
          assert !OccursAt(s, sep, j);
          assert s[..i][j..j + |sep|] == s[j..j + |sep|];
        }
      }
      NoOccurrence(s[..i], sep);
      forall k | 0 <= k < |Split(s, sep)|
        ensures !Contains(Split(s, sep)[k], sep)
      {
        if k > 0 {
          assert Split(s, sep)[k] == Split(rest, sep)[k - 1];
        }
      }
  }

  /** `s.replace(/lit/g, rep)` for a non-empty literal pattern. */
  function ReplaceAll(s: string, pat: string, rep: string): string
    requires |pat| > 0
  {
    Join(Split(s, pat), rep)
  }

  lemma ReplaceAllAbsent(s: string, pat: string, rep: string)
    requires |pat| > 0 && !Contains(s, pat)
    ensures ReplaceAll(s, pat, rep) == s
  {
  }

  /** Replacing every `"` by `\"`, as `text.replace(/"/g, '\\"')` does. */
  function EscapeQuotes(s: string): (r: string)
    ensures |r| >= |s|
  {
    if |s| == 0 then ""
    else (if s[0] == '"' then "\\\"" else [s[0]]) + EscapeQuotes(s[1..])
  }

  /**
   * Reading the escaped text back as the body of a JavaScript double-quoted
   * literal gives the original text when it has no backslash and no line break.
   */
  function UnescapeBody(s: string): string
  {
    if |s| >= 2 && s[0] == '\\' then [s[1]] + UnescapeBody(s[2..])
    else if |s| == 0 then ""
    else [s[0]] + UnescapeBody(s[1..])
  }

  lemma {:induction false} EscapeQuotesRoundTrip(s: string)
    requires forall i :: 0 <= i < |s| ==> s[i] != '\\'
    ensures UnescapeBody(EscapeQuotes(s)) == s
    ensures forall i :: 0 <= i < |EscapeQuotes(s)| ==> EscapeQuotes(s)[i] == '"' ==> i > 0 && EscapeQuotes(s)[i - 1] == '\\'
  {
    if |s| > 0 {
      EscapeQuotesRoundTrip(s[1..]);
      var head := if s[0] == '"' then "\\\"" else [s[0]];
      assert EscapeQuotes(s) == head + EscapeQuotes(s[1..]);
      if s[0] == '"' {
        assert UnescapeBody(head + EscapeQuotes(s[1..])) == [s[0]] + UnescapeBody(EscapeQuotes(s[1..]));
      } else {
        var t := EscapeQuotes(s[1..]);
        assert (head + t)[1..] == t;
        assert UnescapeBody(head + t) == [s[0]] + UnescapeBody(t);
      }
    }
  }

  /**
   * The one-to-one part of Unicode's lower-case mapping that the model
   * covers: the capitals of ASCII, Latin-1, basic Greek and basic Cyrillic.
   * Every other character maps to itself.
   */
  function LowerChar(c: char): (r: char)
    ensures IsUpper(c) ==> r as int == c as int + 32
    ensures c as int < 128 ==> r as int < 128 && (!IsUpper(c) ==> r == c)
    ensures c as int >= 128 ==> r as int >= 128
    ensures IsLower(r) ==> IsLower(c) || IsUpper(c)
  {
    var n := c as int;
    if IsUpper(c) || (0xC0 <= n <= 0xDE && n != 0xD7) || (0x391 <= n <= 0x3A9 && n != 0x3A2) || 0x410 <= n <= 0x42F then
      (n + 32) as char
    else if 0x400 <= n <= 0x40F then (n + 80) as char
    else c
  }

  /** `toLowerCase`, character by character. */
  function ToLower(s: string): (r: string)
    ensures |r| == |s|
    ensures forall i :: 0 <= i < |s| ==> r[i] == LowerChar(s[i])
  {
    if |s| == 0 then "" else [LowerChar(s[0])] + ToLower(s[1..])
  }

  /** Accented Latin capitals are lowered too: `.ÉXE` becomes `.éxe`. */
  lemma LowerAccented()
    ensures ToLower(".ÉXE") == ".éxe"
  {
    var r := ToLower(".ÉXE");
    assert r[1] == LowerChar('É') == 'é';
    assert r == [r[0], r[1], r[2], r[3]];
  }

  /** ASCII `toUpperCase`. */
  function ToUpper(s: string): (r: string)
    ensures |r| == |s|
  {
    if |s| == 0 then "" else [if IsLower(s[0]) then (s[0] as int - 32) as char else s[0]] + ToUpper(s[1..])
  }

  function DigitChar(d: nat): (c: char)
    requires d < 10
    ensures IsDigit(c)
  {
    ['0', '1', '2', '3', '4', '5', '6', '7', '8', '9'][d]
  }

  /** `String(n)` for a natural number. */
  function NatToString(n: nat): (r: string)
    ensures |r| > 0
    ensures forall i :: 0 <= i < |r| ==> IsDigit(r[i])
  {
    if n < 10 then [DigitChar(n)] else NatToString(n / 10) + [DigitChar(n % 10)]
  }

  /** `String(i)` for an integer. */
  function IntToString(i: int): (r: string)
    ensures |r| > 0
    ensures r[0] == '-' <==> i < 0
  {
    if i < 0 then "-" + NatToString(-i) else NatToString(i)
  }

  /** The value of a decimal digit. */
  function DigitValue(c: char): (d: nat)
    requires IsDigit(c)
    ensures d < 10
  {
    (c as int - '0' as int) as nat
  }

  lemma DigitRoundTrip(d: nat)
    requires d < 10
    ensures DigitValue(DigitChar(d)) == d
  {
  }

  /** The number a non-empty string of decimal digits denotes. */
  function ParseNat(s: string): nat
    requires |s| > 0 && forall i :: 0 <= i < |s| ==> IsDigit(s[i])
  {
    if |s| == 1 then DigitValue(s[0])
    else ParseNat(s[..|s| - 1]) * 10 + DigitValue(s[|s| - 1])
  }

  /** Reading the decimal text of a number back gives the number. */
  lemma {:induction false} NatToStringRoundTrip(n: nat)
    ensures ParseNat(NatToString(n)) == n
  {
    if n < 10 {
      DigitRoundTrip(n);
    } else {
      var r := NatToString(n);
      NatToStringRoundTrip(n / 10);
      DigitRoundTrip(n % 10);
      assert r[..|r| - 1] == NatToString(n / 10);
    }
  }

  /** Different integers have different decimal texts. */
  lemma NatToStringInjective(a: nat, b: nat)
    requires NatToString(a) == NatToString(b)
    ensures a == b
  {
    NatToStringRoundTrip(a);
    NatToStringRoundTrip(b);
  }

  lemma IntToStringInjective(i: int, j: int)
    requires IntToString(i) == IntToString(j)
    ensures i == j
  {
    var r := IntToString(i);
    assert i < 0 <==> j < 0;
    if i < 0 {
      assert r == "-" + NatToString(-i) && r == "-" + NatToString(-j);
      assert r[1..] == NatToString(-i) && r[1..] == NatToString(-j);
      NatToStringInjective(-i, -j);
    } else {
      NatToStringInjective(i, j);
    }
  }

  /** `String(n).padStart(width, '0')` */
  function PadZero(s: string, width: nat): (r: string)
    ensures |r| == if |s| >= width then |s| else width
    ensures r[|r| - |s|..] == s
  {
    if |s| >= width then s else Repeat('0', width - |s|) + s
  }

  function BoolToString(b: bool): string
  {
    if b then "true" else "false"
  }

  // ---------------------------------------------------------------------------
  // Scanning helpers
  // ---------------------------------------------------------------------------

  /** The first index at or after `from` that is not whitespace. */
  function SkipWs(s: string, from: nat): (r: nat)
    requires from <= |s|
    ensures from <= r <= |s| && (r < |s| ==> !IsWs(s[r]))
    ensures forall k :: from <= k < r ==> IsWs(s[k])
    decreases |s| - from
  {
    if from < |s| && IsWs(s[from]) then SkipWs(s, from + 1) else from
  }

  /** The first index at or after `from` that is not an ASCII letter. */
  function LettersEnd(s: string, from: nat): (r: nat)
    requires from <= |s|
    ensures from <= r <= |s| && (r < |s| ==> !IsLetter(s[r]))
    ensures forall k :: from <= k < r ==> IsLetter(s[k])
    decreases |s| - from
  {
    if from < |s| && IsLetter(s[from]) then LettersEnd(s, from + 1) else from
  }

  /** The first index at or after `from` that is not an ASCII digit. */
  function DigitsEnd(s: string, from: nat): (r: nat)
    requires from <= |s|
    ensures from <= r <= |s| && (r < |s| ==> !IsDigit(s[r]))
    ensures forall k :: from <= k < r ==> IsDigit(s[k])
    decreases |s| - from
  {
    if from < |s| && IsDigit(s[from]) then DigitsEnd(s, from + 1) else from
  }

  /** A regular-expression word character, `\w`. */
  predicate IsWordChar(c: char)
  {
    IsLetter(c) || IsDigit(c) || c == '_'
  }

  /** The first index at or after `from` that is not a word character. */
  function WordEnd(s: string, from: nat): (r: nat)
    requires from <= |s|
    ensures from <= r <= |s| && (r < |s| ==> !IsWordChar(s[r]))
    ensures forall k :: from <= k < r ==> IsWordChar(s[k])
    decreases |s| - from
  {
    if from < |s| && IsWordChar(s[from]) then WordEnd(s, from + 1) else from
  }

  // ---------------------------------------------------------------------------
  // Distinct elements
  // ---------------------------------------------------------------------------

  predicate NoDup(s: seq<string>)
  {
    forall i, j :: 0 <= i < j < |s| ==> s[i] != s[j]
  }

  /** One more element of a list without repeats: it is new, and the prefix grows by it. */
  lemma NoDupStep(s: seq<string>, i: nat)
    requires NoDup(s) && i < |s|
    ensures s[i] !in s[..i]
    ensures s[..i + 1] == s[..i] + [s[i]]
  {
  }

  /** `Array.from(new Set(s))`: the first occurrence of each element, in order. */
  function Distinct(s: seq<string>): (r: seq<string>)
  {
    if |s| == 0 then []
    else
      var d := Distinct(s[..|s| - 1]);
      if s[|s| - 1] in d then d else d + [s[|s| - 1]]
  }

  /** The distinct list is duplicate-free and holds exactly the input's elements. */
  lemma {:induction false} DistinctMembers(s: seq<string>)
    ensures NoDup(Distinct(s))
    ensures forall x :: x in Distinct(s) <==> x in s
  {
    if |s| > 0 {
      var front, last := s[..|s| - 1], s[|s| - 1];
      DistinctMembers(front);
      assert s == front + [last];
      assert forall x :: x in s <==> x in front || x == last;
      var d := Distinct(front);
      if last !in d {
        assert Distinct(s) == d + [last];
        assert forall i :: 0 <= i < |d| ==> (d + [last])[i] == d[i];
      }
    }
  }

  // ---------------------------------------------------------------------------
  // Building text line by line
  // ---------------------------------------------------------------------------

  /** Every item with `prefix` in front: `items.map(x => prefix + x)`. */
  function Prefixed(prefix: string, items: seq<string>): (r: seq<string>)
    ensures |r| == |items|
    ensures forall x :: 0 <= x < |items| ==> r[x] == prefix + items[x]
  {
    seq(|items|, x requires 0 <= x < |items| => prefix + items[x])
  }

  /** `items.map((s, i) => `${i + from}. ${s}`)` */
  function Numbered(items: seq<string>, from: nat): (r: seq<string>)
    ensures |r| == |items|
    ensures forall x :: 0 <= x < |items| ==> r[x] == NatToString(from + x) + ". " + items[x]
  {
    seq(|items|, x requires 0 <= x < |items| => NatToString(from + x) + ". " + items[x])
  }

  /**
   * The lines that `items.join("\n")` contributes to a text split into
   * lines: the items themselves, or one empty line for an empty list.
   */
  function BlockLines(items: seq<string>): (r: seq<string>)
    ensures |r| > 0
    ensures |items| > 0 ==> r == items
  {
    if |items| == 0 then [""] else items
  }

  lemma JoinBlockLines(items: seq<string>, sep: string)
    ensures Join(BlockLines(items), sep) == Join(items, sep)
  {
  }

  /** Each part of a join occurs in the joined text. */
  lemma {:induction false} JoinContainsPart(parts: seq<string>, sep: string, k: nat)
    requires k < |parts|
    ensures Contains(Join(parts, sep), parts[k])
  {
    if |parts| == 1 {
      ContainsSelf(parts[0]);
    } else if k == 0 {
      ContainsSelf(parts[0]);
      ContainsInPrefix(parts[0], sep + Join(parts[1..], sep), parts[0]);
      assert parts[0] + sep + Join(parts[1..], sep) == parts[0] + (sep + Join(parts[1..], sep));
    } else {
      JoinContainsPart(parts[1..], sep, k - 1);
      ContainsInPrefix(Join(parts[1..], sep), parts[0] + sep, parts[k]);
    }
  }

  /** A text containing `t` contains every substring of `t`. */
  lemma ContainsTransitive(s: string, t: string, u: string)
    requires Contains(s, t) && Contains(t, u)
    ensures Contains(s, u)
  {
    var i := ContainsWitness(s, t);
    var j := ContainsWitness(t, u);
    assert forall m :: 0 <= m < |t| ==> s[i + m] == t[m];
    assert forall m :: 0 <= m < |u| ==> t[j + m] == u[m];
    assert s[i + j..i + j + |u|] == u;
    ContainsAt(s, u, i + j);
  }

  // ---------------------------------------------------------------------------
  // UTF-16 code units: what `length`, `charCodeAt` and a regular expression
  // without the `u` flag see of a string.
  // ---------------------------------------------------------------------------

  /** A character outside the Basic Multilingual Plane, two code units in UTF-16. */
  predicate IsAstral(c: char)
  {
    c as int >= 0x1_0000
  }

  /** The UTF-16 code units of one character: itself, or its surrogate pair. */
  function UnitsOf(c: char): (r: seq<int>)
    ensures |r| == (if IsAstral(c) then 2 else 1)
    ensures forall k :: 0 <= k < |r| ==> 0 <= r[k] < 0x1_0000
    ensures !IsAstral(c) ==> r == [c as int]
  {
    if IsAstral(c) then
      var v := c as int - 0x1_0000;
      [0xD800 + v / 0x400, 0xDC00 + v % 0x400]
    else [c as int]
  }

  /** The UTF-16 code units of a string, in order. */
  function CodeUnits(s: string): (r: seq<int>)
    ensures |r| >= |s|
  {
    if |s| == 0 then [] else CodeUnits(s[..|s| - 1]) + UnitsOf(s[|s| - 1])
  }

  /** A string without astral characters has one code unit per character, its code. */
  lemma {:induction false} CodeUnitsOfBmp(s: string)
    requires forall k :: 0 <= k < |s| ==> !IsAstral(s[k])
    ensures |CodeUnits(s)| == |s|
    ensures forall k :: 0 <= k < |s| ==> CodeUnits(s)[k] == s[k] as int
  {
    if |s| > 0 {
      CodeUnitsOfBmp(s[..|s| - 1]);
    }
  }
}
