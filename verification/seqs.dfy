/**
 Sequence combinators in the shape of JavaScript's `Array.prototype.filter`,
 `reduce` and `slice`, each with the facts the rest of the model relies on.
 */
module Seqs {

  /** `s.filter(p)`: the elements satisfying `p`, in their original order. */
  function Filter<T>(s: seq<T>, p: T -> bool): (r: seq<T>)
    ensures |r| <= |s|
    ensures forall i :: 0 <= i < |r| ==> r[i] in s && p(r[i])
    ensures forall i :: 0 <= i < |s| && p(s[i]) ==> s[i] in r
  {
    if |s| == 0 then []
    else
      assert s == [s[0]] + s[1..];
      var rest := Filter(s[1..], p);
      if p(s[0]) then [s[0]] + rest else rest
  }

  /** The number of elements satisfying `p`, counted one by one. */
  function Count<T>(s: seq<T>, p: T -> bool): (n: nat)
    ensures n <= |s|
  {
    if |s| == 0 then 0
    else Count(s[..|s| - 1], p) + (if p(s[|s| - 1]) then 1 else 0)
  }

  /** `s.reduce((t, x) => t + f(x), 0)`. */
  function SumOf<T>(s: seq<T>, f: T -> int): int
  {
    if |s| == 0 then 0 else f(s[0]) + SumOf(s[1..], f)
  }

  /**
   The sum of `f` over the elements satisfying `p`, accumulated in one pass
   (`s.reduce((t, x) => p(x) ? t + f(x) : t, 0)`): the reference that a
   filter followed by a sum is measured against.
   */
  function SumWhere<T>(s: seq<T>, p: T -> bool, f: T -> int): int
  {
    if |s| == 0 then 0 else (if p(s[0]) then f(s[0]) else 0) + SumWhere(s[1..], p, f)
  }

  /** `s.slice(0, n)`: the first `n` elements, or all of them when there are fewer. */
  function Take<T>(s: seq<T>, n: nat): (r: seq<T>)
    ensures |r| == if |s| < n then |s| else n
    ensures r <= s
  {
    if |s| <= n then s else s[..n]
  }

  /** No element occurs twice. */
  ghost predicate Distinct<T>(s: seq<T>)
  {
    forall i, j :: 0 <= i < j < |s| ==> s[i] != s[j]
  }

  /** Filtering keeps each value at most as often as the input holds it. */
  lemma {:induction false} FilterSubMultiset<T>(s: seq<T>, p: T -> bool)
    ensures multiset(Filter(s, p)) <= multiset(s)
  {
    if |s| > 0 {
      assert s == [s[0]] + s[1..];
      FilterSubMultiset(s[1..], p);
    }
  }

  /** Filtering and counting agree: `Count` is the length of `Filter`. */
  lemma {:induction false} CountIsFilterLength<T>(s: seq<T>, p: T -> bool)
    ensures Count(s, p) == |Filter(s, p)|
  {
    if |s| > 0 {
      var init, last := s[..|s| - 1], s[|s| - 1];
      CountIsFilterLength(init, p);
      FilterAppend(init, [last], p);
      assert init + [last] == s;
      assert Filter([last], p) == if p(last) then [last] else [];
    }
  }

  /** Filtering distributes over concatenation. */
  lemma {:induction false} FilterAppend<T>(a: seq<T>, b: seq<T>, p: T -> bool)
    ensures Filter(a + b, p) == Filter(a, p) + Filter(b, p)
  {
    if |a| > 0 {
      assert (a + b)[1..] == a[1..] + b;
      FilterAppend(a[1..], b, p);
    } else {
      assert a + b == b;
    }
  }

  /** Summation distributes over concatenation. */
  lemma {:induction false} SumAppend<T>(a: seq<T>, b: seq<T>, f: T -> int)
    ensures SumOf(a + b, f) == SumOf(a, f) + SumOf(b, f)
  {
    if |a| > 0 {
      assert (a + b)[1..] == a[1..] + b;
      SumAppend(a[1..], b, f);
    } else {
      assert a + b == b;
    }
  }

  /** A sum of non-negative terms is non-negative. */
  lemma {:induction false} SumNonNegative<T>(s: seq<T>, f: T -> int)
    requires forall x :: x in s ==> f(x) >= 0
    ensures SumOf(s, f) >= 0
  {
    if |s| > 0 {
      assert s[0] in s;
      assert forall x :: x in s[1..] ==> x in s;
      SumNonNegative(s[1..], f);
    }
  }

  /** Two predicates that agree on every element of `s` filter it alike. */
  lemma {:induction false} FilterCongruent<T>(s: seq<T>, p: T -> bool, q: T -> bool)
    requires forall x :: x in s ==> p(x) == q(x)
    ensures Filter(s, p) == Filter(s, q)
  {
    if |s| > 0 {
      assert s[0] in s;
      assert forall x :: x in s[1..] ==> x in s;
      FilterCongruent(s[1..], p, q);
    }
  }

  /** Filtering twice is filtering by the conjunction. */
  lemma {:induction false} FilterFilter<T>(s: seq<T>, p: T -> bool, q: T -> bool, pq: T -> bool)
    requires forall x :: pq(x) == (p(x) && q(x))
    ensures Filter(Filter(s, p), q) == Filter(s, pq)
  {
    if |s| > 0 {
      FilterFilter(s[1..], p, q, pq);
    }
  }

  /** A distinct sequence holds each value at most once. */
  lemma {:induction false} DistinctMultiplicity<T>(s: seq<T>, x: T)
    requires Distinct(s)
    ensures multiset(s)[x] <= 1
  {
    if |s| > 0 {
      var init := s[..|s| - 1];
      assert s == init + [s[|s| - 1]];
      assert Distinct(init);
      DistinctMultiplicity(init, x);
      if x == s[|s| - 1] {
        assert x !in init;
      }
    }
  }

  /** Every sub-multiset of a distinct sequence, laid out as a sequence, is distinct. */
  lemma SubMultisetKeepsDistinct<T>(a: seq<T>, b: seq<T>)
    requires multiset(b) <= multiset(a)
    requires Distinct(a)
    ensures Distinct(b)
  {
    forall i, j | 0 <= i < j < |b|
      ensures b[i] != b[j]
    {
      if b[i] == b[j] {
        var x := b[i];
        assert b == b[..j] + b[j..];
        assert x in b[..j];
        assert x in b[j..];
        assert multiset(b)[x] == multiset(b[..j])[x] + multiset(b[j..])[x];
        DistinctMultiplicity(a, x);
        assert false;
      }
    }
  }

  /** Counting by a weaker predicate never counts fewer. */
  lemma {:induction false} CountMonotone<T>(s: seq<T>, p: T -> bool, q: T -> bool)
    requires forall x :: p(x) ==> q(x)
    ensures Count(s, p) <= Count(s, q)
  {
    if |s| > 0 {
      CountMonotone(s[..|s| - 1], p, q);
    }
  }

  /** Two predicates that agree everywhere count alike. */
  lemma {:induction false} CountCongruent<T>(s: seq<T>, p: T -> bool, q: T -> bool)
    requires forall x :: p(x) == q(x)
    ensures Count(s, p) == Count(s, q)
  {
    if |s| > 0 {
      CountCongruent(s[..|s| - 1], p, q);
    }
  }

  /** Two sequences with the same multiset have the same members. */
  lemma PermutationMembers<T>(a: seq<T>, b: seq<T>)
    requires multiset(a) == multiset(b)
    ensures forall i :: 0 <= i < |a| ==> a[i] in b
    ensures forall i :: 0 <= i < |b| ==> b[i] in a
  {
    forall i | 0 <= i < |a| ensures a[i] in b {
      assert a[i] in multiset(a);
    }
    forall i | 0 <= i < |b| ensures b[i] in a {
      assert b[i] in multiset(b);
    }
  }

  /** Summing a filtered part of non-negative terms never exceeds summing them all. */
  lemma {:induction false} SumFilterBounded<T>(s: seq<T>, p: T -> bool, f: T -> int)
    requires forall i :: 0 <= i < |s| ==> f(s[i]) >= 0
    ensures SumOf(Filter(s, p), f) <= SumOf(s, f)
  {
    if |s| > 0 {
      SumFilterBounded(s[1..], p, f);
    }
  }

  /** Filtering and then summing is summing over the kept elements in one pass. */
  lemma {:induction false} SumOfFilter<T>(s: seq<T>, p: T -> bool, f: T -> int)
    ensures SumOf(Filter(s, p), f) == SumWhere(s, p, f)
  {
    if |s| > 0 {
      SumOfFilter(s[1..], p, f);
      var rest := Filter(s[1..], p);
      if p(s[0]) {
        assert ([s[0]] + rest)[1..] == rest;
      }
    }
  }

  /** Summing over the `q`-elements of the `p`-elements is summing over the elements satisfying both. */
  lemma SumWhereFilter<T>(s: seq<T>, p: T -> bool, q: T -> bool, pq: T -> bool, f: T -> int)
    requires forall x :: pq(x) == (p(x) && q(x))
    ensures SumWhere(Filter(s, p), q, f) == SumWhere(s, pq, f)
  {
    SumOfFilter(Filter(s, p), q, f);
    FilterFilter(s, p, q, pq);
    SumOfFilter(s, pq, f);
  }

  /** A prefix holds each value at most as often as the whole sequence. */
  lemma TakeSubMultiset<T>(s: seq<T>, n: nat)
    ensures multiset(Take(s, n)) <= multiset(s)
  {
    var r := Take(s, n);
    assert s == r + s[|r|..];
  }
}
