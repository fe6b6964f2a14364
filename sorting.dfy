/**
 * Stable sorting by an integer key, largest first: what
 * `xs.sort((a, b) => key(b) - key(a))` does in a JavaScript engine, whose
 * `Array.prototype.sort` is stable; and `slice(0, n)`.
 */
module Sorting {
  /** Keys never increase along the list. */
  predicate Descending<T>(xs: seq<T>, key: T -> int)
  {
    forall i, j :: 0 <= i < j < |xs| ==> key(xs[i]) >= key(xs[j])
  }

  /** The elements whose key is `k`, in list order. */
  function WithKey<T>(xs: seq<T>, key: T -> int, k: int): (r: seq<T>)
    ensures |r| <= |xs|
  {
    if |xs| == 0 then [] else (if key(xs[0]) == k then [xs[0]] else []) + WithKey(xs[1..], key, k)
  }

  /** Places `x` in front of every element whose key is not larger, so `x` stays ahead of equal keys. */
  function InsertFirst<T>(x: T, sorted: seq<T>, key: T -> int): (r: seq<T>)
    ensures multiset(r) == multiset(sorted) + multiset{x}
    ensures |r| == |sorted| + 1
  {
    if |sorted| == 0 then [x]
    else if key(x) >= key(sorted[0]) then [x] + sorted
    else
      assert sorted == [sorted[0]] + sorted[1..];
      [sorted[0]] + InsertFirst(x, sorted[1..], key)
  }

  /** The list sorted by `key`, largest first; the list is inserted from the back, which keeps ties in input order. */
  function SortDesc<T>(xs: seq<T>, key: T -> int): (r: seq<T>)
    ensures multiset(r) == multiset(xs)
    ensures |r| == |xs|
  {
    if |xs| == 0 then []
    else
      assert xs == [xs[0]] + xs[1..];
      InsertFirst(xs[0], SortDesc(xs[1..], key), key)
  }

  lemma {:induction false} InsertFirstSorted<T>(x: T, sorted: seq<T>, key: T -> int)
    requires Descending(sorted, key)
    ensures Descending(InsertFirst(x, sorted, key), key)
  {
    if |sorted| > 0 && key(x) < key(sorted[0]) {
      InsertFirstSorted(x, sorted[1..], key);
      var rest := InsertFirst(x, sorted[1..], key);
      var r := [sorted[0]] + rest;
      forall j | 0 < j < |r| ensures key(r[0]) >= key(r[j]) {
        assert r[j] in multiset(rest);
        assert r[j] in multiset(sorted[1..]) + multiset{x};
        if r[j] != x {
          assert r[j] in sorted[1..];
          var k :| 0 <= k < |sorted[1..]| && sorted[1..][k] == r[j];
          assert sorted[k + 1] == r[j];
        }
      }
    }
  }

  lemma WithKeyCons<T>(y: T, ys: seq<T>, key: T -> int, k: int)
    ensures key(y) == k ==> WithKey([y] + ys, key, k) == [y] + WithKey(ys, key, k)
    ensures key(y) != k ==> WithKey([y] + ys, key, k) == WithKey(ys, key, k)
  {
    assert ([y] + ys)[1..] == ys;
  }

  /** Inserting `x` adds it to the front of its own key's run and leaves every other run alone. */
  lemma {:induction false} InsertFirstWithKey<T>(x: T, sorted: seq<T>, key: T -> int, k: int)
    ensures key(x) == k ==> WithKey(InsertFirst(x, sorted, key), key, k) == [x] + WithKey(sorted, key, k)
    ensures key(x) != k ==> WithKey(InsertFirst(x, sorted, key), key, k) == WithKey(sorted, key, k)
  {
    if |sorted| == 0 {
      WithKeyCons(x, [], key, k);
    } else if key(x) >= key(sorted[0]) {
      WithKeyCons(x, sorted, key, k);
    } else {
      var s0, rest := sorted[0], sorted[1..];
      assert sorted == [s0] + rest;
      var ins := InsertFirst(x, rest, key);
      assert InsertFirst(x, sorted, key) == [s0] + ins;
      InsertFirstWithKey(x, rest, key, k);
      WithKeyCons(s0, ins, key, k);
      WithKeyCons(s0, rest, key, k);
    }
  }

  /**
   * The sort is a permutation that orders keys largest first, and it is
   * stable: the elements sharing any one key keep their input order.
   */
  lemma {:induction false} SortDescSorted<T>(xs: seq<T>, key: T -> int)
    ensures Descending(SortDesc(xs, key), key)
    ensures multiset(SortDesc(xs, key)) == multiset(xs)
    ensures forall k :: WithKey(SortDesc(xs, key), key, k) == WithKey(xs, key, k)
  {
    if |xs| > 0 {
      SortDescSorted(xs[1..], key);
      InsertFirstSorted(xs[0], SortDesc(xs[1..], key), key);
      forall k ensures WithKey(SortDesc(xs, key), key, k) == WithKey(xs, key, k) {
        InsertFirstWithKey(xs[0], SortDesc(xs[1..], key), key, k);
        WithKeyCons(xs[0], xs[1..], key, k);
        assert xs == [xs[0]] + xs[1..];
      }
    }
  }

  /** Members survive the sort, and no others appear. */
  lemma SortDescMembers<T>(xs: seq<T>, key: T -> int, x: T)
    ensures x in SortDesc(xs, key) <==> x in xs
  {
    var r := SortDesc(xs, key);
    assert x in r <==> x in multiset(r);
    assert x in xs <==> x in multiset(xs);
  }

  /** `xs.slice(0, n)` */
  function Take<T>(xs: seq<T>, n: nat): (r: seq<T>)
    ensures |r| <= n && |r| <= |xs|
    ensures |xs| <= n ==> r == xs
    ensures forall i :: 0 <= i < |r| ==> r[i] == xs[i]
  {
    if |xs| <= n then xs else xs[..n]
  }

  /** The first `n` elements of a descending list are descending. */
  lemma TakeDescending<T>(xs: seq<T>, key: T -> int, n: nat)
    requires Descending(xs, key)
    ensures Descending(Take(xs, n), key)
  {
  }
}
