/** Sequence operations the controllers are built from: JavaScript's
    `filter`, `reduce` (summing), `reverse`, and a stable sort by a numeric key. */
module Seqs {

  /** `r` can be obtained from `xs` by deleting elements: the order is kept. */
  predicate IsSubsequence<T(==)>(r: seq<T>, xs: seq<T>)
    decreases |xs|
  {
    |r| == 0
    || (|xs| > 0
        && ((r[0] == xs[0] && IsSubsequence(r[1..], xs[1..])) || IsSubsequence(r, xs[1..])))
  }

  /** `xs.filter(p)`. */
  function Filter<T(==,!new)>(xs: seq<T>, p: T -> bool): (r: seq<T>)
    ensures |r| <= |xs|
    ensures forall x :: x in r <==> x in xs && p(x)
    ensures IsSubsequence(r, xs)
  {
    if |xs| == 0 then []
    else
      var rest := Filter(xs[1..], p);
      if p(xs[0]) then [xs[0]] + rest else rest
  }

  /** Filtering with two predicates that agree on the elements gives the same result. */
  lemma {:induction false} FilterCongruent<T(!new)>(xs: seq<T>, p: T -> bool, q: T -> bool)
    requires forall x :: x in xs ==> p(x) == q(x)
    ensures Filter(xs, p) == Filter(xs, q)
  {
    if |xs| > 0 {
      assert xs[0] in xs;
      assert forall x :: x in xs[1..] ==> x in xs;
      FilterCongruent(xs[1..], p, q);
    }
  }

  /** Filtering a sequence extended by one element extends the result by that
      element when it passes. */
  lemma {:induction false} FilterSnoc<T(!new)>(xs: seq<T>, x: T, p: T -> bool)
    ensures Filter(xs + [x], p) == Filter(xs, p) + (if p(x) then [x] else [])
  {
    if |xs| > 0 {
      assert (xs + [x])[1..] == xs[1..] + [x];
      FilterSnoc(xs[1..], x, p);
    } else {
      assert xs + [x] == [x];
    }
  }

  /** `xs.reduce((sum, x) => sum + f(x), 0)`. */
  function SumBy<T>(xs: seq<T>, f: T -> real): real
  {
    if |xs| == 0 then 0.0 else f(xs[0]) + SumBy(xs[1..], f)
  }

  lemma {:induction false} SumByAppend<T>(a: seq<T>, b: seq<T>, f: T -> real)
    ensures SumBy(a + b, f) == SumBy(a, f) + SumBy(b, f)
  {
    if |a| == 0 {
      assert a + b == b;
    } else {
      assert (a + b)[1..] == a[1..] + b;
      SumByAppend(a[1..], b, f);
    }
  }

  /** Summing over the elements that satisfy `p` and over those that do not
      covers every element exactly once. */
  lemma {:induction false} SumByFilterSplit<T(!new)>(xs: seq<T>, p: T -> bool, f: T -> real)
    ensures SumBy(xs, f) == SumBy(Filter(xs, p), f) + SumBy(Filter(xs, x => !p(x)), f)
  {
    if |xs| > 0 {
      SumByFilterSplit(xs[1..], p, f);
    }
  }

  /** When `f` is zero on the elements that fail `p`, summing the filtered
      sequence gives the same total. */
  lemma {:induction false} SumByFilterZero<T(!new)>(xs: seq<T>, p: T -> bool, f: T -> real)
    requires forall x :: x in xs && !p(x) ==> f(x) == 0.0
    ensures SumBy(Filter(xs, p), f) == SumBy(xs, f)
  {
    if |xs| > 0 {
      assert xs[0] in xs;
      assert forall x :: x in xs[1..] ==> x in xs;
      SumByFilterZero(xs[1..], p, f);
    }
  }

  /** `[...xs].reverse()`. */
  function Reverse<T(==,!new)>(xs: seq<T>): (r: seq<T>)
    ensures |r| == |xs|
    ensures forall i :: 0 <= i < |xs| ==> r[i] == xs[|xs| - 1 - i]
    ensures forall x :: x in r <==> x in xs
  {
    if |xs| == 0 then [] else Reverse(xs[1..]) + [xs[0]]
  }

  lemma ReverseInvolutive<T(!new)>(xs: seq<T>)
    ensures Reverse(Reverse(xs)) == xs
  {
  }

  predicate SortedDesc<T>(xs: seq<T>, key: T -> real) {
    forall i, j :: 0 <= i < j < |xs| ==> key(xs[i]) >= key(xs[j])
  }

  predicate SortedAsc<T>(xs: seq<T>, key: T -> real) {
    forall i, j :: 0 <= i < j < |xs| ==> key(xs[i]) <= key(xs[j])
  }

  /** Inserts `x` before the first element whose key is not greater than its own. */
  function InsertDesc<T(==,!new)>(x: T, ys: seq<T>, key: T -> real): (r: seq<T>)
    requires SortedDesc(ys, key)
    ensures SortedDesc(r, key)
    ensures multiset(r) == multiset(ys) + multiset{x}
    ensures forall z :: z in r <==> z == x || z in ys
    ensures |r| == |ys| + 1 && (r[0] == x || (|ys| > 0 && r[0] == ys[0]))
  {
    if |ys| == 0 then [x]
    else if key(ys[0]) <= key(x) then [x] + ys
    else
      var tail := InsertDesc(x, ys[1..], key);
      var r := [ys[0]] + tail;
      assert ys == [ys[0]] + ys[1..];
      assert key(ys[0]) >= key(tail[0]);
      forall i, j | 0 <= i < j < |r|
        ensures key(r[i]) >= key(r[j])
      {
        if i == 0 {
          assert r[j] == tail[j - 1];
          assert key(tail[0]) >= key(tail[j - 1]);
        } else {
          assert r[i] == tail[i - 1] && r[j] == tail[j - 1];
        }
      }
      assert multiset(r) == multiset{ys[0]} + multiset(tail);
      r
  }

  /** `[...xs].sort((a, b) => key(b) - key(a))`: a stable sort, largest key first. */
  function SortDesc<T(==,!new)>(xs: seq<T>, key: T -> real): (r: seq<T>)
    ensures SortedDesc(r, key)
    ensures multiset(r) == multiset(xs)
    ensures |r| == |xs|
    ensures forall x :: x in r <==> x in xs
  {
    if |xs| == 0 then []
    else
      var r := InsertDesc(xs[0], SortDesc(xs[1..], key), key);
      assert xs == [xs[0]] + xs[1..];
      assert |r| == |multiset(r)|;
      r
  }

  /** Sorting by the negated key puts the smallest key first. */
  lemma NegatedSortIsAscending<T(!new)>(xs: seq<T>, key: T -> real)
    ensures SortedAsc(SortDesc(xs, x => -key(x)), key)
  {
  }

  /** The first `n` elements (`xs.slice(0, n)`). */
  function Take<T>(xs: seq<T>, n: nat): (r: seq<T>)
    ensures |r| == if n < |xs| then n else |xs|
    ensures forall i :: 0 <= i < |r| ==> r[i] == xs[i]
  {
    if n < |xs| then xs[..n] else xs
  }

  /** The `n` largest elements by `key`, largest first: a sorted prefix of the
      sorted sequence, drawn from `xs` without repetition beyond its own. */
  function TopN<T(==,!new)>(xs: seq<T>, key: T -> real, n: nat): (r: seq<T>)
    ensures |r| == if n < |xs| then n else |xs|
    ensures forall i :: 0 <= i < |r| ==> r[i] == SortDesc(xs, key)[i]
    ensures SortedDesc(r, key)
    ensures multiset(r) <= multiset(xs)
    ensures forall x :: x in r ==> x in xs
  {
    var sorted := SortDesc(xs, key);
    var r := Take(sorted, n);
    assert sorted == r + sorted[|r|..];
    r
  }

  /** The last `n` elements (`xs.slice(-n)` for n > 0). */
  function TakeLast<T>(xs: seq<T>, n: nat): (r: seq<T>)
    ensures |r| == if n < |xs| then n else |xs|
    ensures forall i :: 0 <= i < |r| ==> r[i] == xs[|xs| - |r| + i]
  {
    if n < |xs| then xs[|xs| - n..] else xs
  }
}
