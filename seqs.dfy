/** The array operations the stores and views use — `filter`, `map` with a
    per-element replacement, `reduce` into a sum, `slice(0, n)` and a stable
    `sort` by a numeric key — as functions on sequences, with the facts about
    them that the store and view lemmas build on. */
module Seqs {

  /** `xs.filter(p)`: the elements that satisfy `p`, in their original order. */
  function Filter<T(!new)>(xs: seq<T>, p: T -> bool): (r: seq<T>)
    ensures |r| <= |xs|
    ensures forall x :: x in r <==> x in xs && p(x)
    ensures multiset(r) <= multiset(xs)
  {
    if xs == [] then []
    else
      assert xs == [xs[0]] + xs[1..];
      (if p(xs[0]) then [xs[0]] else []) + Filter(xs[1..], p)
  }

  /** Filtering distributes over concatenation: the kept elements keep their order. */
  lemma {:induction false} FilterConcat<T(!new)>(a: seq<T>, b: seq<T>, p: T -> bool)
    ensures Filter(a + b, p) == Filter(a, p) + Filter(b, p)
  {
    if a == [] {
      assert a + b == b;
    } else {
      assert (a + b)[0] == a[0] && (a + b)[1..] == a[1..] + b;
      FilterConcat(a[1..], b, p);
    }
  }

  /** Filtering keeps every element, with its multiplicity, that satisfies `p`. */
  lemma {:induction false} FilterKeepsCount<T(!new)>(xs: seq<T>, p: T -> bool, x: T)
    requires p(x)
    ensures multiset(Filter(xs, p))[x] == multiset(xs)[x]
  {
    if xs != [] {
      assert xs == [xs[0]] + xs[1..];
      FilterKeepsCount(xs[1..], p, x);
    }
  }

  /** A sequence none of whose elements fails `p` is left as it is. */
  lemma {:induction false} FilterAll<T(!new)>(xs: seq<T>, p: T -> bool)
    requires forall x :: x in xs ==> p(x)
    ensures Filter(xs, p) == xs
  {
    if xs != [] {
      assert xs == [xs[0]] + xs[1..];
      FilterAll(xs[1..], p);
    }
  }

  /** Filtering out at least one element shortens the sequence. */
  lemma {:induction false} FilterShorter<T(!new)>(xs: seq<T>, p: T -> bool)
    requires exists x :: x in xs && !p(x)
    ensures |Filter(xs, p)| < |xs|
  {
    var x :| x in xs && !p(x);
    assert xs == [xs[0]] + xs[1..];
    if p(xs[0]) {
      assert x in xs[1..];
      FilterShorter(xs[1..], p);
    }
  }

  /** `xs.filter(p).length`. */
  function Count<T(!new)>(xs: seq<T>, p: T -> bool): nat
  {
    |Filter(xs, p)|
  }

  lemma {:induction false} CountConcat<T(!new)>(a: seq<T>, b: seq<T>, p: T -> bool)
    ensures Count(a + b, p) == Count(a, p) + Count(b, p)
  {
    FilterConcat(a, b, p);
  }

  /** `xs.reduce((s, x) => s + f(x), 0)`. */
  function SumBy<T>(xs: seq<T>, f: T -> int): int
  {
    if xs == [] then 0 else f(xs[0]) + SumBy(xs[1..], f)
  }

  lemma {:induction false} SumConcat<T>(a: seq<T>, b: seq<T>, f: T -> int)
    ensures SumBy(a + b, f) == SumBy(a, f) + SumBy(b, f)
  {
    if a == [] {
      assert a + b == b;
    } else {
      assert (a + b)[0] == a[0] && (a + b)[1..] == a[1..] + b;
      SumConcat(a[1..], b, f);
    }
  }

  /** A sum of terms that are never negative is not negative. */
  lemma {:induction false} SumNonNegative<T>(xs: seq<T>, f: T -> int)
    requires forall x :: x in xs ==> f(x) >= 0
    ensures SumBy(xs, f) >= 0
  {
    if xs != [] {
      assert xs[0] in xs;
      assert forall x :: x in xs[1..] ==> x in xs;
      SumNonNegative(xs[1..], f);
    }
  }

  /** `xs.map(x => hit(x) ? f(x) : x)`: the elements `hit` selects are replaced. */
  function UpdateWhere<T>(xs: seq<T>, hit: T -> bool, f: T -> T): (r: seq<T>)
    ensures |r| == |xs|
    ensures forall i :: 0 <= i < |xs| ==> r[i] == if hit(xs[i]) then f(xs[i]) else xs[i]
  {
    seq(|xs|, i requires 0 <= i < |xs| => if hit(xs[i]) then f(xs[i]) else xs[i])
  }

  /** `xs.slice(0, n)`: at most the first `n` elements. */
  function Prefix<T>(xs: seq<T>, n: nat): (r: seq<T>)
    ensures |r| == if n < |xs| then n else |xs|
    ensures r <= xs
  {
    if n < |xs| then xs[..n] else xs
  }

  /** The keys of `xs` never decrease. */
  predicate SortedBy<T>(xs: seq<T>, key: T -> int)
  {
    forall i, j :: 0 <= i < j < |xs| ==> key(xs[i]) <= key(xs[j])
  }

  /** Inserts `x` before the first element whose key is not smaller. */
  function Insert<T(!new)>(x: T, xs: seq<T>, key: T -> int): (r: seq<T>)
    requires SortedBy(xs, key)
    ensures SortedBy(r, key)
    ensures multiset(r) == multiset(xs) + multiset{x}
  {
    if xs == [] || key(x) <= key(xs[0]) then
      assert forall j :: 0 <= j < |xs| ==> key(x) <= key(xs[j]) by {
        if xs != [] { SortedHeadIsLeast(xs, key); }
      }
      [x] + xs
    else
      var rest := Insert(x, xs[1..], key);
      assert xs == [xs[0]] + xs[1..];
      LowerBoundKept(xs[0], x, xs[1..], rest, key);
      ConsSorted(xs[0], rest, key);
      [xs[0]] + rest
  }

  /** An element no greater than every element of `rest` can go in front of it. */
  lemma ConsSorted<T>(x: T, rest: seq<T>, key: T -> int)
    requires SortedBy(rest, key)
    requires forall j :: 0 <= j < |rest| ==> key(x) <= key(rest[j])
    ensures SortedBy([x] + rest, key)
  {
    var r := [x] + rest;
    forall i, j | 0 <= i < j < |r| ensures key(r[i]) <= key(r[j]) {
      assert r[j] == rest[j - 1];
      if i > 0 { assert r[i] == rest[i - 1]; }
    }
  }

  /** A lower bound of `x` and of the sorted `xs` bounds every element of a
      sequence holding exactly `x` and the elements of `xs`. */
  lemma LowerBoundKept<T>(lo: T, x: T, xs: seq<T>, rest: seq<T>, key: T -> int)
    requires key(lo) <= key(x)
    requires forall j :: 0 <= j < |xs| ==> key(lo) <= key(xs[j])
    requires multiset(rest) == multiset(xs) + multiset{x}
    ensures forall j :: 0 <= j < |rest| ==> key(lo) <= key(rest[j])
  {
    forall j | 0 <= j < |rest| ensures key(lo) <= key(rest[j]) {
      assert rest[j] in multiset(rest);
      if rest[j] != x {
        assert rest[j] in multiset(xs);
        var k :| 0 <= k < |xs| && xs[k] == rest[j];
      }
    }
  }

  /** `[...xs].sort((a, b) => key(a) - key(b))`: an insertion sort. Like the
      engine's sort since ES2019, elements with equal keys keep their order. */
  function SortBy<T(!new)>(xs: seq<T>, key: T -> int): (r: seq<T>)
    ensures SortedBy(r, key)
    ensures multiset(r) == multiset(xs)
    ensures |r| == |xs|
  {
    if xs == [] then []
    else
      assert xs == [xs[0]] + xs[1..];
      var r := Insert(xs[0], SortBy(xs[1..], key), key);
      assert |r| == |multiset(r)|;
      r
  }

  /** A sorted sequence starts with an element of smallest key. */
  lemma SortedHeadIsLeast<T>(xs: seq<T>, key: T -> int)
    requires SortedBy(xs, key) && xs != []
    ensures forall x :: x in xs ==> key(xs[0]) <= key(x)
  {
    forall x | x in xs ensures key(xs[0]) <= key(x) {
      var j :| 0 <= j < |xs| && xs[j] == x;
      if j > 0 { }
    }
  }

  /** Sequences holding the same elements as often hold the same elements. */
  lemma SameMembers<T>(a: seq<T>, b: seq<T>)
    requires multiset(a) == multiset(b)
    ensures forall x :: x in a <==> x in b
  {
    forall x ensures x in a <==> x in b {
      assert x in a <==> x in multiset(a);
      assert x in b <==> x in multiset(b);
    }
  }
}
