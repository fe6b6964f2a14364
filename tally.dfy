/**
 * Counting into a JavaScript object: `counts[k] = (counts[k] || 0) + 1`.
 * The object is a list of buckets in insertion order, which is the order in
 * which `Object.entries` and `Map.entries` give its keys back.
 */
module Tally {
  datatype Bucket<K> = Bucket(key: K, count: nat)

  /** The sum of all counts. */
  function Total<K>(t: seq<Bucket<K>>): nat
  {
    if |t| == 0 then 0 else t[0].count + Total(t[1..])
  }

  /** `counts[k] || 0` */
  function CountOf<K(==)>(t: seq<Bucket<K>>, k: K): nat
  {
    if |t| == 0 then 0 else if t[0].key == k then t[0].count else CountOf(t[1..], k)
  }

  /** The keys in insertion order: `Object.keys`. */
  function Keys<K>(t: seq<Bucket<K>>): (r: seq<K>)
    ensures |r| == |t|
    ensures forall i :: 0 <= i < |t| ==> r[i] == t[i].key
  {
    if |t| == 0 then [] else [t[0].key] + Keys(t[1..])
  }

  predicate NoDup<K(==)>(ks: seq<K>)
  {
    forall i, j :: 0 <= i < j < |ks| ==> ks[i] != ks[j]
  }

  /** No key twice, and every bucket counted at least once. */
  predicate Valid<K(==)>(t: seq<Bucket<K>>)
  {
    NoDup(Keys(t)) && forall i :: 0 <= i < |t| ==> t[i].count > 0
  }

  /** One more occurrence of `k`: its bucket grows, or a new bucket goes at the end. */
  function Bump<K(==)>(t: seq<Bucket<K>>, k: K): (r: seq<Bucket<K>>)
    ensures |r| == |t| || |r| == |t| + 1
  {
    if |t| == 0 then [Bucket(k, 1)]
    else if t[0].key == k then [Bucket(k, t[0].count + 1)] + t[1..]
    else [t[0]] + Bump(t[1..], k)
  }

  lemma {:induction false} BumpTotal<K>(t: seq<Bucket<K>>, k: K)
    ensures Total(Bump(t, k)) == Total(t) + 1
  {
    if |t| > 0 && t[0].key != k {
      BumpTotal(t[1..], k);
      assert ([t[0]] + Bump(t[1..], k))[1..] == Bump(t[1..], k);
    } else if |t| > 0 {
      assert ([Bucket(k, t[0].count + 1)] + t[1..])[1..] == t[1..];
    }
  }

  lemma {:induction false} BumpCount<K>(t: seq<Bucket<K>>, k: K, j: K)
    ensures CountOf(Bump(t, k), j) == CountOf(t, j) + (if j == k then 1 else 0)
  {
    if |t| > 0 && t[0].key != k {
      BumpCount(t[1..], k, j);
      assert ([t[0]] + Bump(t[1..], k))[1..] == Bump(t[1..], k);
    } else if |t| > 0 {
      assert ([Bucket(k, t[0].count + 1)] + t[1..])[1..] == t[1..];
    }
  }

  /** A new key goes at the end; a known key leaves the key list alone. */
  lemma {:induction false} BumpKeys<K>(t: seq<Bucket<K>>, k: K)
    ensures Keys(Bump(t, k)) == if k in Keys(t) then Keys(t) else Keys(t) + [k]
  {
    if |t| > 0 {
      assert Keys(t) == [t[0].key] + Keys(t[1..]);
      if t[0].key != k {
        BumpKeys(t[1..], k);
        assert ([t[0]] + Bump(t[1..], k))[1..] == Bump(t[1..], k);
      } else {
        assert ([Bucket(k, t[0].count + 1)] + t[1..])[1..] == t[1..];
      }
    }
  }

  lemma {:induction false} BumpPositive<K>(t: seq<Bucket<K>>, k: K)
    requires forall i :: 0 <= i < |t| ==> t[i].count > 0
    ensures forall i :: 0 <= i < |Bump(t, k)| ==> Bump(t, k)[i].count > 0
  {
    if |t| > 0 && t[0].key != k {
      BumpPositive(t[1..], k);
      assert forall i :: 0 < i < |Bump(t, k)| ==> Bump(t, k)[i] == Bump(t[1..], k)[i - 1];
    }
  }

  lemma BumpValid<K>(t: seq<Bucket<K>>, k: K)
    requires Valid(t)
    ensures Valid(Bump(t, k))
  {
    BumpKeys(t, k);
    BumpPositive(t, k);
  }

  /** How often `k` occurs. */
  function Occurrences<K(==)>(ks: seq<K>, k: K): nat
    ensures Occurrences(ks, k) <= |ks|
  {
    if |ks| == 0 then 0 else Occurrences(ks[..|ks| - 1], k) + (if ks[|ks| - 1] == k then 1 else 0)
  }

  /** The object a `for … of` loop builds by bumping each key in turn. */
  function Of<K(==)>(ks: seq<K>): seq<Bucket<K>>
  {
    if |ks| == 0 then [] else Bump(Of(ks[..|ks| - 1]), ks[|ks| - 1])
  }

  /** One loop step: bumping the next key extends the object built so far. */
  lemma OfStep<K>(ks: seq<K>, i: nat)
    requires i < |ks|
    ensures Of(ks[..i + 1]) == Bump(Of(ks[..i]), ks[i])
  {
    assert ks[..i + 1][..i] == ks[..i];
  }

  lemma OfAppend<K>(ks: seq<K>, k: K)
    ensures Of(ks + [k]) == Bump(Of(ks), k)
  {
    assert (ks + [k])[..|ks|] == ks;
  }

  /**
   * The counts add up to the number of keys counted; each key's count is
   * its number of occurrences; the keys are exactly those that occur, each
   * once.
   */
  lemma {:induction false} OfCounts<K>(ks: seq<K>)
    ensures Valid(Of(ks))
    ensures Total(Of(ks)) == |ks|
    ensures forall k :: CountOf(Of(ks), k) == Occurrences(ks, k)
    ensures forall k :: k in Keys(Of(ks)) <==> k in ks
  {
    if |ks| > 0 {
      var front, last := ks[..|ks| - 1], ks[|ks| - 1];
      OfCounts(front);
      BumpTotal(Of(front), last);
      BumpKeys(Of(front), last);
      BumpValid(Of(front), last);
      forall k ensures CountOf(Of(ks), k) == Occurrences(ks, k) {
        BumpCount(Of(front), last, k);
      }
      assert ks == front + [last];
      assert forall k :: k in ks <==> k in front || k == last;
    }
  }

  /** In a valid object, looking up a bucket's key gives that bucket's count. */
  lemma {:induction false} CountOfBucket<K>(t: seq<Bucket<K>>, i: nat)
    requires Valid(t) && i < |t|
    ensures CountOf(t, t[i].key) == t[i].count
  {
    if i > 0 {
      assert Keys(t[1..]) == Keys(t)[1..];
      CountOfBucket(t[1..], i - 1);
    }
  }

  lemma {:induction false} CountOfAbsent<K>(t: seq<Bucket<K>>, k: K)
    requires k !in Keys(t)
    ensures CountOf(t, k) == 0
  {
    if |t| > 0 {
      assert Keys(t) == [t[0].key] + Keys(t[1..]);
      CountOfAbsent(t[1..], k);
    }
  }

  /** In a valid object a bucket `(k, n)` with `n > 0` is present exactly when `k` counts `n`. */
  lemma BucketPresent<K>(t: seq<Bucket<K>>, k: K, n: nat)
    requires Valid(t) && n > 0
    ensures Bucket(k, n) in t <==> CountOf(t, k) == n
  {
    if Bucket(k, n) in t {
      var i :| 0 <= i < |t| && t[i] == Bucket(k, n);
      CountOfBucket(t, i);
    }
    if CountOf(t, k) == n {
      if k !in Keys(t) {
        CountOfAbsent(t, k);
      }
      var i :| 0 <= i < |t| && Keys(t)[i] == k;
      CountOfBucket(t, i);
    }
  }
}
