/**
 * Group-by sums as the dashboard widgets compute them with `reduce` into a
 * plain object: one entry per key, keys in order of first occurrence (the
 * order `Object.entries` yields string keys in), each holding the sum of a
 * weight over the elements with that key.
 */
module Grouping {
  import opened Collections
  import opened Text

  /** `xs.reduce((sum, x) => sum + w(x), 0)`, folded from the left. */
  function SumOf<T>(w: T -> real, xs: seq<T>): real {
    if xs == [] then 0.0 else SumOf(w, xs[..|xs| - 1]) + w(xs[|xs| - 1])
  }

  lemma SumOfSnoc<T>(w: T -> real, xs: seq<T>, x: T)
    ensures SumOf(w, xs + [x]) == SumOf(w, xs) + w(x)
  {
    assert (xs + [x])[..|xs|] == xs;
  }

  /** The weight that turns a sum into a count. */
  function Unit<T>(x: T): real {
    1.0
  }

  lemma {:induction false} SumOfUnit<T>(xs: seq<T>)
    ensures SumOf(Unit, xs) == |xs| as real
  {
    if xs != [] {
      SumOfUnit(xs[..|xs| - 1]);
    }
  }

  /** The elements with key `k`, in order. */
  function Group<T(!new), K(==)>(key: T -> K, xs: seq<T>, k: K): (r: seq<T>)
    ensures forall k' :: 0 <= k' < |r| ==> key(r[k']) == k
  {
    Filter((x: T) => key(x) == k, xs)
  }

  /** The sum of the weight over the elements with key `k`. */
  function KeySum<T(!new), K(==)>(key: T -> K, w: T -> real, xs: seq<T>, k: K): real {
    SumOf(w, Group(key, xs, k))
  }

  lemma KeySumSnoc<T(!new), K>(key: T -> K, w: T -> real, xs: seq<T>, y: T, k: K)
    ensures KeySum(key, w, xs + [y], k) == KeySum(key, w, xs, k) + (if key(y) == k then w(y) else 0.0)
  {
    FilterSnoc((x: T) => key(x) == k, xs, y);
    if key(y) == k {
      assert Group(key, xs + [y], k) == Group(key, xs, k) + [y];
      SumOfSnoc(w, Group(key, xs, k), y);
    } else {
      assert Group(key, xs + [y], k) == Group(key, xs, k);
    }
  }

  /** The number of elements with key `k` is their unit sum. */
  lemma GroupSizeIsUnitSum<T(!new), K>(key: T -> K, xs: seq<T>, k: K)
    ensures KeySum(key, Unit, xs, k) == |Group(key, xs, k)| as real
  {
    SumOfUnit(Group(key, xs, k));
  }

  /** The keys present, each once, in order of first occurrence. */
  function Keys<T, K(==,!new)>(key: T -> K, xs: seq<T>): (r: seq<K>)
    ensures Distinct(r)
    ensures forall k :: k in r <==> exists i :: 0 <= i < |xs| && key(xs[i]) == k
  {
    var ks := Map(key, xs);
    assert forall k :: k in ks <==> exists i :: 0 <= i < |xs| && key(xs[i]) == k by {
      forall k | k in ks ensures exists i :: 0 <= i < |xs| && key(xs[i]) == k {
        var i :| 0 <= i < |ks| && ks[i] == k;
      }
    }
    Dedup(ks)
  }

  /** A new key is appended; a known key leaves the order as it was. */
  lemma KeysSnoc<T, K(!new)>(key: T -> K, xs: seq<T>, x: T)
    ensures Keys(key, xs + [x]) == if key(x) in Keys(key, xs) then Keys(key, xs) else Keys(key, xs) + [key(x)]
  {
    MapConcat(key, xs, [x]);
    assert Map(key, [x]) == [key(x)];
    DedupSnoc(Map(key, xs), key(x));
  }

  /** Every key present has a non-empty group. */
  lemma KeysHaveMembers<T(!new), K(!new)>(key: T -> K, xs: seq<T>, k: K)
    requires k in Keys(key, xs)
    ensures |Group(key, xs, k)| >= 1
  {
    var i :| 0 <= i < |xs| && key(xs[i]) == k;
    assert xs[i] in Group(key, xs, k);
  }

  /** The group sums over the keys `ks`, added up. */
  function KeySums<T(!new), K(==)>(key: T -> K, w: T -> real, ks: seq<K>, xs: seq<T>): real {
    if ks == [] then 0.0 else KeySums(key, w, ks[..|ks| - 1], xs) + KeySum(key, w, xs, ks[|ks| - 1])
  }

  lemma {:induction false} KeySumsSnoc<T(!new), K>(key: T -> K, w: T -> real, ks: seq<K>, xs: seq<T>, x: T)
    requires Distinct(ks)
    ensures KeySums(key, w, ks, xs + [x]) == KeySums(key, w, ks, xs) + (if key(x) in ks then w(x) else 0.0)
  {
    if ks != [] {
      var init, last := ks[..|ks| - 1], ks[|ks| - 1];
      assert ks == init + [last];
      KeySumSnoc(key, w, xs, x, last);
      KeySumsSnoc(key, w, init, xs, x);
      assert key(x) in ks <==> key(x) == last || key(x) in init;
      if key(x) == last {
        assert key(x) !in init;
      }
    }
  }

  lemma {:induction false} KeySumsOfEmpty<T(!new), K>(key: T -> K, w: T -> real, ks: seq<K>)
    ensures KeySums(key, w, ks, []) == 0.0
  {
    if ks != [] {
      KeySumsOfEmpty(key, w, ks[..|ks| - 1]);
    }
  }

  /** Over duplicate-free keys covering every element, the group sums add up to the whole sum. */
  lemma {:induction false} KeySumsTotal<T(!new), K>(key: T -> K, w: T -> real, ks: seq<K>, xs: seq<T>)
    requires Distinct(ks)
    requires forall i :: 0 <= i < |xs| ==> key(xs[i]) in ks
    ensures KeySums(key, w, ks, xs) == SumOf(w, xs)
  {
    if xs == [] {
      KeySumsOfEmpty(key, w, ks);
    } else {
      var init, x := xs[..|xs| - 1], xs[|xs| - 1];
      assert xs == init + [x];
      KeySumsTotal(key, w, ks, init);
      KeySumsSnoc(key, w, ks, init, x);
    }
  }

  /** The groups the widgets show partition the whole: their sums add up to the total. */
  lemma GroupsPartition<T(!new), K(!new)>(key: T -> K, w: T -> real, xs: seq<T>)
    ensures KeySums(key, w, Keys(key, xs), xs) == SumOf(w, xs)
  {
    KeySumsTotal(key, w, Keys(key, xs), xs);
  }

  /** A list whose entries carry the group sums of `ks`, in order, sums to their total. */
  lemma {:induction false} EntriesSumToKeySums<E, T(!new), K>(c: E -> real, es: seq<E>, key: T -> K, w: T -> real, ks: seq<K>, xs: seq<T>)
    requires |es| == |ks|
    requires forall k :: 0 <= k < |es| ==> c(es[k]) == KeySum(key, w, xs, ks[k])
    ensures SumOf(c, es) == KeySums(key, w, ks, xs)
  {
    if es != [] {
      EntriesSumToKeySums(c, es[..|es| - 1], key, w, ks[..|ks| - 1], xs);
    }
  }

  /** A key no element has has an empty group. */
  lemma AbsentKeyEmptyGroup<T(!new), K(!new)>(key: T -> K, xs: seq<T>, k: K)
    requires k !in Keys(key, xs)
    ensures Group(key, xs, k) == []
  {
  }
}
