/**
 * Grouping into a JavaScript `Map<K, T[]>`: for each element, the group of
 * its key is created on first sight and the element pushed onto it. The map
 * is a list of groups in insertion order, the order `Map.entries` gives.
 */
module Grouping {
  datatype Group<K, T> = Group(key: K, items: seq<T>)

  function Keys<K, T>(gs: seq<Group<K, T>>): (r: seq<K>)
    ensures |r| == |gs|
    ensures forall i :: 0 <= i < |gs| ==> r[i] == gs[i].key
  {
    if |gs| == 0 then [] else [gs[0].key] + Keys(gs[1..])
  }

  predicate NoDup<K(==)>(ks: seq<K>)
  {
    forall i, j :: 0 <= i < j < |ks| ==> ks[i] != ks[j]
  }

  /** `map.get(k) ?? []` */
  function ItemsOf<K(==), T>(gs: seq<Group<K, T>>, k: K): seq<T>
  {
    if |gs| == 0 then [] else if gs[0].key == k then gs[0].items else ItemsOf(gs[1..], k)
  }

  /** `if (!map.has(k)) map.set(k, []); map.get(k).push(x)` */
  function Add<K(==), T>(gs: seq<Group<K, T>>, k: K, x: T): (r: seq<Group<K, T>>)
    ensures |r| == |gs| || |r| == |gs| + 1
  {
    if |gs| == 0 then [Group(k, [x])]
    else if gs[0].key == k then [Group(k, gs[0].items + [x])] + gs[1..]
    else [gs[0]] + Add(gs[1..], k, x)
  }

  /** The elements whose key is `k`, in list order. */
  function Having<K(==), T>(xs: seq<T>, keyOf: T -> K, k: K): (r: seq<T>)
    ensures |r| <= |xs|
    ensures forall i :: 0 <= i < |r| ==> keyOf(r[i]) == k
  {
    if |xs| == 0 then []
    else Having(xs[..|xs| - 1], keyOf, k) + (if keyOf(xs[|xs| - 1]) == k then [xs[|xs| - 1]] else [])
  }

  /** The map a loop builds by adding each element under its key. */
  function By<K(==), T>(xs: seq<T>, keyOf: T -> K): seq<Group<K, T>>
  {
    if |xs| == 0 then [] else Add(By(xs[..|xs| - 1], keyOf), keyOf(xs[|xs| - 1]), xs[|xs| - 1])
  }

  lemma ByStep<K, T>(xs: seq<T>, keyOf: T -> K, i: nat)
    requires i < |xs|
    ensures By(xs[..i + 1], keyOf) == Add(By(xs[..i], keyOf), keyOf(xs[i]), xs[i])
  {
    assert xs[..i + 1][..i] == xs[..i];
  }

  lemma ByAppend<K, T>(xs: seq<T>, keyOf: T -> K, x: T)
    ensures By(xs + [x], keyOf) == Add(By(xs, keyOf), keyOf(x), x)
  {
    assert (xs + [x])[..|xs|] == xs;
  }

  lemma {:induction false} AddKeys<K, T>(gs: seq<Group<K, T>>, k: K, x: T)
    ensures Keys(Add(gs, k, x)) == if k in Keys(gs) then Keys(gs) else Keys(gs) + [k]
  {
    if |gs| > 0 {
      assert Keys(gs) == [gs[0].key] + Keys(gs[1..]);
      if gs[0].key != k {
        AddKeys(gs[1..], k, x);
        assert ([gs[0]] + Add(gs[1..], k, x))[1..] == Add(gs[1..], k, x);
      } else {
        assert ([Group(k, gs[0].items + [x])] + gs[1..])[1..] == gs[1..];
      }
    }
  }

  lemma {:induction false} AddItems<K, T>(gs: seq<Group<K, T>>, k: K, x: T, j: K)
    ensures ItemsOf(Add(gs, k, x), j) == ItemsOf(gs, j) + (if j == k then [x] else [])
  {
    if |gs| > 0 && gs[0].key != k {
      AddItems(gs[1..], k, x, j);
      assert ([gs[0]] + Add(gs[1..], k, x))[1..] == Add(gs[1..], k, x);
    } else if |gs| > 0 {
      assert ([Group(k, gs[0].items + [x])] + gs[1..])[1..] == gs[1..];
    }
  }

  /**
   * Each group holds exactly the elements of its key, in order; the keys
   * are distinct and are exactly the keys that occur.
   */
  lemma {:induction false} ByGroups<K, T>(xs: seq<T>, keyOf: T -> K)
    ensures NoDup(Keys(By(xs, keyOf)))
    ensures forall k :: ItemsOf(By(xs, keyOf), k) == Having(xs, keyOf, k)
    ensures forall k :: k in Keys(By(xs, keyOf)) <==> |Having(xs, keyOf, k)| > 0
  {
    if |xs| > 0 {
      var front, last := xs[..|xs| - 1], xs[|xs| - 1];
      ByGroups(front, keyOf);
      AddKeys(By(front, keyOf), keyOf(last), last);
      forall k ensures ItemsOf(By(xs, keyOf), k) == Having(xs, keyOf, k) {
        AddItems(By(front, keyOf), keyOf(last), last, k);
      }
    }
  }

  /** In a map with distinct keys, each group is what a lookup of its key returns. */
  lemma {:induction false} ItemsAt<K, T>(gs: seq<Group<K, T>>, i: nat)
    requires NoDup(Keys(gs)) && i < |gs|
    ensures ItemsOf(gs, gs[i].key) == gs[i].items
  {
    if i > 0 {
      assert Keys(gs[1..]) == Keys(gs)[1..];
      ItemsAt(gs[1..], i - 1);
    }
  }

  /** Every group of a built map holds its key's elements, and at least one. */
  lemma GroupAt<K, T>(xs: seq<T>, keyOf: T -> K, i: nat)
    requires i < |By(xs, keyOf)|
    ensures By(xs, keyOf)[i].items == Having(xs, keyOf, By(xs, keyOf)[i].key)
    ensures |By(xs, keyOf)[i].items| > 0
  {
    ByGroups(xs, keyOf);
    ItemsAt(By(xs, keyOf), i);
    assert Keys(By(xs, keyOf))[i] == By(xs, keyOf)[i].key;
  }

  /** A key has elements exactly when some element carries it. */
  lemma {:induction false} HavingNonEmpty<K, T>(xs: seq<T>, keyOf: T -> K, k: K)
    ensures |Having(xs, keyOf, k)| > 0 <==> exists i :: 0 <= i < |xs| && keyOf(xs[i]) == k
  {
    if |xs| > 0 {
      var front := xs[..|xs| - 1];
      HavingNonEmpty(front, keyOf, k);
      if exists i :: 0 <= i < |front| && keyOf(front[i]) == k {
        var i :| 0 <= i < |front| && keyOf(front[i]) == k;
        assert keyOf(xs[i]) == k;
      }
      if exists i :: 0 <= i < |xs| && keyOf(xs[i]) == k {
        var i :| 0 <= i < |xs| && keyOf(xs[i]) == k;
        if i < |front| {
          assert keyOf(front[i]) == k;
        }
      }
    }
  }

  /** Every element with key `k` is taken, and only elements of the list. */
  lemma {:induction false} HavingMembers<K, T>(xs: seq<T>, keyOf: T -> K, k: K)
    ensures forall x :: x in Having(xs, keyOf, k) <==> x in xs && keyOf(x) == k
  {
    if |xs| > 0 {
      var front := xs[..|xs| - 1];
      HavingMembers(front, keyOf, k);
      assert xs == front + [xs[|xs| - 1]];
    }
  }
}
