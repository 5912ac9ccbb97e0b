/** Summing into buckets, the way the controllers fill a plain object with
    `forEach`: `acc[key] = (acc[key] || 0) + value`. A bucket exists once an
    element with its key has been seen; buckets appear in order of first
    occurrence. Sums are written from the back so that each step of the
    `forEach` is one unfolding. */
module Grouping {

  /** The keys of the buckets, in order of first occurrence. */
  function KeysInOrder<T, K(==,!new)>(xs: seq<T>, key: T -> K): (ks: seq<K>)
    ensures forall i, j :: 0 <= i < j < |ks| ==> ks[i] != ks[j]
    ensures forall k :: k in ks <==> exists i :: 0 <= i < |xs| && key(xs[i]) == k
  {
    if |xs| == 0 then []
    else
      var prefix := xs[..|xs| - 1];
      var ks := KeysInOrder(prefix, key);
      assert forall i :: 0 <= i < |prefix| ==> prefix[i] == xs[i];
      if key(xs[|xs| - 1]) in ks then ks else ks + [key(xs[|xs| - 1])]
  }

  /** The sum of `val` over all elements. */
  function Total<T>(xs: seq<T>, val: T -> real): real {
    if |xs| == 0 then 0.0 else Total(xs[..|xs| - 1], val) + val(xs[|xs| - 1])
  }

  /** The bucket of key `k`: the sum of `val` over the elements with that key
      (0 when there are none). */
  function KeySum<T, K(==)>(xs: seq<T>, key: T -> K, val: T -> real, k: K): real {
    if |xs| == 0 then 0.0
    else KeySum(xs[..|xs| - 1], key, val, k) + (if key(xs[|xs| - 1]) == k then val(xs[|xs| - 1]) else 0.0)
  }

  /** A key no element has has an empty bucket. */
  lemma {:induction false} KeySumAbsent<T, K>(xs: seq<T>, key: T -> K, val: T -> real, k: K)
    requires forall i :: 0 <= i < |xs| ==> key(xs[i]) != k
    ensures KeySum(xs, key, val, k) == 0.0
  {
    if |xs| > 0 {
      KeySumAbsent(xs[..|xs| - 1], key, val, k);
    }
  }

  /** The sum of the buckets of the keys `ks`. */
  function SumKeys<T, K(==)>(ks: seq<K>, xs: seq<T>, key: T -> K, val: T -> real): real {
    if |ks| == 0 then 0.0 else SumKeys(ks[..|ks| - 1], xs, key, val) + KeySum(xs, key, val, ks[|ks| - 1])
  }

  lemma {:induction false} SumKeysSnoc<T, K>(ks: seq<K>, xs: seq<T>, x: T, key: T -> K, val: T -> real)
    requires forall i, j :: 0 <= i < j < |ks| ==> ks[i] != ks[j]
    ensures SumKeys(ks, xs + [x], key, val) == SumKeys(ks, xs, key, val) + (if key(x) in ks then val(x) else 0.0)
  {
    assert (xs + [x])[..|xs|] == xs;
    if |ks| > 0 {
      var ks0 := ks[..|ks| - 1];
      SumKeysSnoc(ks0, xs, x, key, val);
      assert key(x) in ks <==> key(x) in ks0 || key(x) == ks[|ks| - 1];
      assert key(x) in ks0 ==> key(x) != ks[|ks| - 1];
    }
  }

  lemma {:induction false} SumKeysAbsent<T, K>(ks: seq<K>, xs: seq<T>, x: T, key: T -> K, val: T -> real)
    requires key(x) !in ks
    ensures SumKeys(ks, xs + [x], key, val) == SumKeys(ks, xs, key, val)
  {
    assert (xs + [x])[..|xs|] == xs;
    if |ks| > 0 {
      SumKeysAbsent(ks[..|ks| - 1], xs, x, key, val);
    }
  }

  /** Every element lands in exactly one bucket: the buckets add up to the total. */
  lemma {:induction false} BucketsCoverAll<T, K(!new)>(xs: seq<T>, key: T -> K, val: T -> real)
    ensures SumKeys(KeysInOrder(xs, key), xs, key, val) == Total(xs, val)
  {
    if |xs| > 0 {
      var prefix, x := xs[..|xs| - 1], xs[|xs| - 1];
      assert xs == prefix + [x];
      var ks0 := KeysInOrder(prefix, key);
      BucketsCoverAll(prefix, key, val);
      if key(x) in ks0 {
        SumKeysSnoc(ks0, prefix, x, key, val);
      } else {
        var ks := ks0 + [key(x)];
        assert ks[..|ks| - 1] == ks0;
        SumKeysAbsent(ks0, prefix, x, key, val);
        assert forall i :: 0 <= i < |prefix| ==> key(prefix[i]) != key(x);
        KeySumAbsent(prefix, key, val, key(x));
      }
    }
  }

  /** A bucket grows by each element added under its key and by nothing else. */
  lemma KeySumSnoc<T, K>(xs: seq<T>, x: T, key: T -> K, val: T -> real, k: K)
    ensures KeySum(xs + [x], key, val, k) == KeySum(xs, key, val, k) + (if key(x) == k then val(x) else 0.0)
  {
    assert (xs + [x])[..|xs|] == xs;
  }

  lemma TotalSnoc<T>(xs: seq<T>, x: T, val: T -> real)
    ensures Total(xs + [x], val) == Total(xs, val) + val(x)
  {
    assert (xs + [x])[..|xs|] == xs;
  }
}
