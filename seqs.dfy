/** The two array built-ins the source uses over and over: `reduce` into a sum, and `filter`. */
module Seqs {

  /** `s.reduce((acc, x) => acc + f(x), acc)`: a left fold, visiting the elements in order. */
  function Fold<T>(s: seq<T>, f: T -> int, acc: int): int
    decreases |s|
  {
    if s == [] then acc else Fold(s[1..], f, acc + f(s[0]))
  }

  /** The fold started at 0, as every `reduce` of the source is. */
  function Sum<T>(s: seq<T>, f: T -> int): int {
    Fold(s, f, 0)
  }

  /** The accumulator of a fold can be pulled out. */
  lemma {:induction false} FoldShift<T>(s: seq<T>, f: T -> int, acc: int)
    ensures Fold(s, f, acc) == acc + Sum(s, f)
    decreases |s|
  {
    if s != [] {
      FoldShift(s[1..], f, acc + f(s[0]));
      FoldShift(s[1..], f, f(s[0]));
    }
  }

  /** Unfolding a non-empty sum at its head. */
  lemma SumCons<T>(s: seq<T>, f: T -> int)
    requires s != []
    ensures Sum(s, f) == f(s[0]) + Sum(s[1..], f)
  {
    FoldShift(s[1..], f, f(s[0]));
  }

  /** A sum distributes over concatenation. */
  lemma {:induction false} SumConcat<T>(a: seq<T>, b: seq<T>, f: T -> int)
    ensures Sum(a + b, f) == Sum(a, f) + Sum(b, f)
    decreases |a|
  {
    if a != [] {
      assert (a + b)[1..] == a[1..] + b;
      SumCons(a + b, f);
      SumCons(a, f);
      SumConcat(a[1..], b, f);
    } else {
      assert a + b == b;
    }
  }

  /** Appending one element adds exactly its term. */
  lemma SumAppend<T>(s: seq<T>, x: T, f: T -> int)
    ensures Sum(s + [x], f) == Sum(s, f) + f(x)
  {
    SumConcat(s, [x], f);
    SumCons([x], f);
  }

  /** Replacing one element changes the sum by the difference of the two terms. */
  lemma SumUpdate<T>(s: seq<T>, i: nat, x: T, f: T -> int)
    requires i < |s|
    ensures Sum(s[i := x], f) == Sum(s, f) - f(s[i]) + f(x)
  {
    assert s == s[..i] + [s[i]] + s[i + 1..];
    assert s[i := x] == s[..i] + [x] + s[i + 1..];
    SumConcat(s[..i] + [s[i]], s[i + 1..], f);
    SumConcat(s[..i] + [x], s[i + 1..], f);
    SumAppend(s[..i], s[i], f);
    SumAppend(s[..i], x, f);
  }

  /** Sums of non-negative terms are non-negative. */
  lemma {:induction false} SumNonNegative<T>(s: seq<T>, f: T -> int)
    requires forall i :: 0 <= i < |s| ==> f(s[i]) >= 0
    ensures Sum(s, f) >= 0
    decreases |s|
  {
    if s != [] {
      SumCons(s, f);
      SumNonNegative(s[1..], f);
    }
  }

  /** `s.filter(keep)`: the kept elements, in their original order. */
  function Filter<T>(s: seq<T>, keep: T -> bool): (r: seq<T>)
    ensures |r| <= |s|
    ensures forall i :: 0 <= i < |r| ==> keep(r[i])
    decreases |s|
  {
    if s == [] then []
    else if keep(s[0]) then [s[0]] + Filter(s[1..], keep)
    else Filter(s[1..], keep)
  }

  /** An element is in the filtered list exactly when it is in the list and is kept. */
  lemma {:induction false} FilterMembership<T>(s: seq<T>, keep: T -> bool, x: T)
    ensures x in Filter(s, keep) <==> x in s && keep(x)
    decreases |s|
  {
    if s != [] {
      FilterMembership(s[1..], keep, x);
      assert x in s <==> x == s[0] || x in s[1..];
    }
  }

  /** `a` is obtained from `b` by deleting elements, keeping the order of the others. */
  predicate IsSubsequence<T(==)>(a: seq<T>, b: seq<T>)
    decreases |b|
  {
    if a == [] then true
    else if b == [] then false
    else (a[0] == b[0] && IsSubsequence(a[1..], b[1..])) || IsSubsequence(a, b[1..])
  }

  lemma {:induction false} FilterIsSubsequence<T>(s: seq<T>, keep: T -> bool)
    ensures IsSubsequence(Filter(s, keep), s)
    decreases |s|
  {
    if s != [] {
      FilterIsSubsequence(s[1..], keep);
      var r := Filter(s, keep);
      if keep(s[0]) {
        assert r[0] == s[0] && r[1..] == Filter(s[1..], keep);
      }
    }
  }

  /** When every element is kept, filtering is the identity. */
  lemma {:induction false} FilterKeepsAll<T>(s: seq<T>, keep: T -> bool)
    requires forall i :: 0 <= i < |s| ==> keep(s[i])
    ensures Filter(s, keep) == s
    decreases |s|
  {
    if s != [] {
      FilterKeepsAll(s[1..], keep);
    }
  }
}
