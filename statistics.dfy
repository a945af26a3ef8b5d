/** The pandas and numpy reductions the stacker uses, on exact reals:
    `Series.mean`, `Series.median` and `np.quantile` with its default
    linear interpolation. */
module Statistics {
  import Numerics

  function Sum(v: seq<real>): real {
    if v == [] then 0.0 else v[0] + Sum(v[1..])
  }

  function Mean(v: seq<real>): real
    requires |v| > 0
  {
    Sum(v) / |v| as real
  }

  predicate Sorted(v: seq<real>) {
    forall i, j :: 0 <= i <= j < |v| ==> v[i] <= v[j]
  }

  function Insert(x: real, v: seq<real>): (r: seq<real>)
    requires Sorted(v)
    ensures Sorted(r)
    ensures multiset(r) == multiset(v) + multiset{x}
    ensures forall y :: y in r ==> y == x || y in v
  {
    if v == [] then [x]
    else if x <= v[0] then [x] + v
    else
      var rest := Insert(x, v[1..]);
      assert v == [v[0]] + v[1..];
      assert forall k :: 0 <= k < |rest| ==> v[0] <= rest[k] by {
        forall k | 0 <= k < |rest| ensures v[0] <= rest[k] {
          assert rest[k] in rest;
        }
      }
      [v[0]] + rest
  }

  /** The values in ascending order (insertion sort). */
  function Sort(v: seq<real>): (r: seq<real>)
    ensures Sorted(r)
    ensures multiset(r) == multiset(v)
    ensures |r| == |v|
  {
    if v == [] then []
    else
      assert v == [v[0]] + v[1..];
      Insert(v[0], Sort(v[1..]))
  }

  /** A sorted arrangement of a multiset is unique: Sort is determined by
      its two properties. */
  lemma {:induction false} SortedUnique(a: seq<real>, b: seq<real>)
    requires Sorted(a) && Sorted(b) && multiset(a) == multiset(b)
    ensures a == b
  {
    assert |a| == |multiset(a)| == |multiset(b)| == |b|;
    if a != [] {
      assert a[0] in multiset(b) && b[0] in multiset(a);
      assert a[0] in b && b[0] in a;
      assert a[0] == b[0];
      SameTail(a, b);
      SortedTail(a);
      SortedTail(b);
      SortedUnique(a[1..], b[1..]);
      assert a == [a[0]] + a[1..] && b == [b[0]] + b[1..];
    }
  }

  lemma SameTail(a: seq<real>, b: seq<real>)
    requires a != [] && b != [] && a[0] == b[0] && multiset(a) == multiset(b)
    ensures multiset(a[1..]) == multiset(b[1..])
  {
    assert a == [a[0]] + a[1..] && b == [b[0]] + b[1..];
    var x0 := a[0];
    assert multiset(a) == multiset{x0} + multiset(a[1..]);
    assert multiset(b) == multiset{x0} + multiset(b[1..]);
    forall x ensures multiset(a[1..])[x] == multiset(b[1..])[x] {
      assert multiset(a)[x] == multiset{x0}[x] + multiset(a[1..])[x];
      assert multiset(b)[x] == multiset{x0}[x] + multiset(b[1..])[x];
    }
  }

  lemma SortedTail(a: seq<real>)
    requires a != [] && Sorted(a)
    ensures Sorted(a[1..])
  {
  }

  /** numpy's linear interpolation at the virtual index p of the values v
      (already sorted): between v[lo] and v[lo + 1], lo being p rounded down. */
  function Interp(v: seq<real>, p: real): real
    requires |v| > 0 && 0.0 <= p <= (|v| - 1) as real
  {
    var lo := p.Floor;
    if lo >= |v| - 1 then v[|v| - 1]
    else v[lo] + (p - lo as real) * (v[lo + 1] - v[lo])
  }

  /** Interpolating inside one gap of sorted values stays inside the gap. */
  lemma InterpInGap(v: seq<real>, p: real)
    requires |v| > 0 && Sorted(v) && 0.0 <= p <= (|v| - 1) as real
    requires p.Floor < |v| - 1
    ensures v[p.Floor] <= Interp(v, p) <= v[p.Floor + 1]
  {
    var lo := p.Floor;
    var t, d := p - lo as real, v[lo + 1] - v[lo];
    Numerics.MulNonneg(t, d);
    Numerics.MulNonneg(1.0 - t, d);
    assert (1.0 - t) * d == d - t * d;
  }

  /** Interpolation over sorted values is monotone in the virtual index. */
  lemma InterpMonotone(v: seq<real>, p1: real, p2: real)
    requires |v| > 0 && Sorted(v)
    requires 0.0 <= p1 <= p2 <= (|v| - 1) as real
    ensures Interp(v, p1) <= Interp(v, p2)
  {
    var lo1, lo2 := p1.Floor, p2.Floor;
    var n := |v|;
    if lo1 >= n - 1 {
      assert lo2 >= n - 1;
    } else if lo1 == lo2 {
      var d := v[lo1 + 1] - v[lo1];
      Numerics.MulNonneg(p2 - p1, d);
      assert (p2 - lo2 as real) * d - (p1 - lo1 as real) * d == (p2 - p1) * d;
    } else {
      InterpInGap(v, p1);
      if lo2 < n - 1 {
        InterpInGap(v, p2);
      }
    }
  }

  /** The virtual index q * (n - 1) of the q-th quantile of n values. */
  function QuantileIndex(q: real, n: nat): (p: real)
    requires 0.0 <= q <= 1.0 && n > 0
    ensures 0.0 <= p <= (n - 1) as real
  {
    Numerics.MulNonneg(q, (n - 1) as real);
    Numerics.MulNonneg(1.0 - q, (n - 1) as real);
    assert (1.0 - q) * (n - 1) as real == (n - 1) as real - q * (n - 1) as real;
    q * (n - 1) as real
  }

  /** `np.quantile(v, q)`: sort, then interpolate linearly at q * (n - 1). */
  function Quantile(v: seq<real>, q: real): real
    requires |v| > 0 && 0.0 <= q <= 1.0
  {
    Interp(Sort(v), QuantileIndex(q, |v|))
  }

  /** The quartiles of any sample are ordered: q25 <= q50 <= q75. */
  lemma QuartilesOrdered(v: seq<real>)
    requires |v| > 0
    ensures Quantile(v, 0.25) <= Quantile(v, 0.5) <= Quantile(v, 0.75)
  {
    var n, w := |v|, Sort(v);
    assert QuantileIndex(0.25, n) <= QuantileIndex(0.5, n) <= QuantileIndex(0.75, n);
    InterpMonotone(w, QuantileIndex(0.25, n), QuantileIndex(0.5, n));
    InterpMonotone(w, QuantileIndex(0.5, n), QuantileIndex(0.75, n));
  }

  /** pandas' `median` of sorted values: the middle one, or the average of
      the two middle ones. */
  function MedianSorted(v: seq<real>): real
    requires |v| > 0
  {
    var n := |v|;
    if n % 2 == 1 then v[n / 2] else (v[n / 2 - 1] + v[n / 2]) / 2.0
  }

  function Median(v: seq<real>): real
    requires |v| > 0
  {
    MedianSorted(Sort(v))
  }

  /** pandas' median is numpy's 0.5 quantile. */
  lemma MedianIsMiddleQuantile(v: seq<real>)
    requires |v| > 0
    ensures Median(v) == Quantile(v, 0.5)
  {
    MiddleInterp(Sort(v));
  }

  lemma MiddleInterp(w: seq<real>)
    requires |w| > 0
    ensures MedianSorted(w) == Interp(w, QuantileIndex(0.5, |w|))
  {
    var n := |w|;
    var p := QuantileIndex(0.5, n);
    var k := n / 2;
    if n % 2 == 1 {
      assert p == k as real;
      assert p.Floor == k;
    } else {
      assert p == (k - 1) as real + 0.5;
      assert p.Floor == k - 1;
    }
  }

  /** Half the interquartile range, `0.5 * (q75 - q25)`. */
  function HalfIqr(v: seq<real>): (r: real)
    requires |v| > 0
    ensures r >= 0.0
  {
    QuartilesOrdered(v);
    0.5 * (Quantile(v, 0.75) - Quantile(v, 0.25))
  }
}
