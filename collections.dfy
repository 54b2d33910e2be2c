/**
 * `Array.prototype.filter`, `includes`-based removal and counting, shared by
 * the stores and views.
 */
module Collections {

  /** `a` is `b` with some elements left out, the rest in their order. */
  predicate IsSubseq<T(==)>(a: seq<T>, b: seq<T>)
    decreases |b|
  {
    if a == [] then true
    else if b == [] then false
    else (a[0] == b[0] && IsSubseq(a[1..], b[1..])) || IsSubseq(a, b[1..])
  }

  lemma {:induction false} SubseqLength<T>(a: seq<T>, b: seq<T>)
    requires IsSubseq(a, b)
    ensures |a| <= |b|
    decreases |b|
  {
    if a != [] {
      if a[0] == b[0] && IsSubseq(a[1..], b[1..]) {
        SubseqLength(a[1..], b[1..]);
      } else {
        SubseqLength(a, b[1..]);
      }
    }
  }

  lemma {:induction false} SubseqReflexive<T>(a: seq<T>)
    ensures IsSubseq(a, a)
  {
    if a != [] {
      SubseqReflexive(a[1..]);
    }
  }

  /** `s.map(f)`. */
  function Map<A, B>(f: A -> B, s: seq<A>): (r: seq<B>)
    ensures |r| == |s| && forall k :: 0 <= k < |s| ==> r[k] == f(s[k])
  {
    seq(|s|, k requires 0 <= k < |s| => f(s[k]))
  }

  lemma MapConcat<A, B>(f: A -> B, a: seq<A>, b: seq<A>)
    ensures Map(f, a + b) == Map(f, a) + Map(f, b)
  {
  }

  /** `s.filter(p)`: exactly the elements satisfying `p`, in their order. */
  function Filter<T(!new)>(p: T -> bool, s: seq<T>): (r: seq<T>)
    ensures IsSubseq(r, s)
    ensures forall k :: 0 <= k < |r| ==> p(r[k])
    ensures forall x :: x in r <==> x in s && p(x)
  {
    if s == [] then []
    else
      var rest := Filter(p, s[1..]);
      assert s == [s[0]] + s[1..];
      if p(s[0]) then [s[0]] + rest else rest
  }

  /** The filter keeps every copy of an element that passes and none of one that fails. */
  lemma {:induction false} FilterMultiset<T(!new)>(p: T -> bool, s: seq<T>, x: T)
    ensures multiset(Filter(p, s))[x] == if p(x) then multiset(s)[x] else 0
  {
    if s != [] {
      FilterMultiset(p, s[1..], x);
      assert s == [s[0]] + s[1..];
    }
  }

  /** The filter of a longer list: the new element is kept if it passes. */
  lemma FilterSnoc<T(!new)>(p: T -> bool, s: seq<T>, x: T)
    ensures Filter(p, s + [x]) == if p(x) then Filter(p, s) + [x] else Filter(p, s)
  {
    FilterConcat(p, s, [x]);
    assert [x][1..] == [];
  }

  lemma FilterLength<T(!new)>(p: T -> bool, s: seq<T>)
    ensures |Filter(p, s)| <= |s|
  {
    SubseqLength(Filter(p, s), s);
  }

  /** A filter that every element passes changes nothing. */
  lemma {:induction false} FilterAll<T(!new)>(p: T -> bool, s: seq<T>)
    requires forall k :: 0 <= k < |s| ==> p(s[k])
    ensures Filter(p, s) == s
  {
    if s != [] {
      FilterAll(p, s[1..]);
      assert [s[0]] + s[1..] == s;
    }
  }

  lemma {:induction false} FilterConcat<T(!new)>(p: T -> bool, a: seq<T>, b: seq<T>)
    ensures Filter(p, a + b) == Filter(p, a) + Filter(p, b)
  {
    if a != [] {
      var s := a + b;
      assert s[0] == a[0] && s[1..] == a[1..] + b;
      FilterConcat(p, a[1..], b);
      var fa, fb := Filter(p, a[1..]), Filter(p, b);
      if p(a[0]) {
        assert Filter(p, s) == [a[0]] + (fa + fb);
        assert Filter(p, a) == [a[0]] + fa;
      } else {
        assert Filter(p, s) == fa + fb;
        assert Filter(p, a) == fa;
      }
    } else {
      assert a + b == b;
    }
  }

  /** `s.filter(p).length`. */
  function Count<T(!new)>(p: T -> bool, s: seq<T>): nat {
    |Filter(p, s)|
  }

  lemma {:induction false} CountUnfold<T(!new)>(p: T -> bool, s: seq<T>)
    requires s != []
    ensures Count(p, s) == Count(p, s[1..]) + (if p(s[0]) then 1 else 0)
  {
  }

  /** `s.filter((y) => y !== x)`: every occurrence of `x` removed. */
  function RemoveAll<T(==,!new)>(s: seq<T>, x: T): (r: seq<T>)
    ensures x !in r
    ensures IsSubseq(r, s)
    ensures forall y :: y != x ==> multiset(r)[y] == multiset(s)[y]
  {
    var r := Filter((y: T) => y != x, s);
    forall y | y != x ensures multiset(r)[y] == multiset(s)[y] {
      FilterMultiset((y: T) => y != x, s, y);
    }
    r
  }

  lemma RemoveAllAbsent<T(!new)>(s: seq<T>, x: T)
    requires x !in s
    ensures RemoveAll(s, x) == s
  {
    FilterAll((y: T) => y != x, s);
  }

  /** Appending an element and removing it again gives what removing alone gives. */
  lemma RemoveAllSnoc<T(!new)>(s: seq<T>, x: T)
    ensures RemoveAll(s + [x], x) == RemoveAll(s, x)
  {
    FilterConcat((y: T) => y != x, s, [x]);
    assert Filter((y: T) => y != x, [x]) == [] by {
      assert [x][1..] == [];
    }
  }
}
