/** Python's numeric built-ins used by the stacker, stated on exact reals:
    `round` (ties to even), `int` (truncation toward zero) and `%` (floored). */
module Numerics {

  function Abs(x: real): real {
    if x < 0.0 then -x else x
  }

  /** The larger of a and b; a when a is not strictly smaller. */
  function Max(a: real, b: real): real {
    if a < b then b else a
  }

  /** x is an integer value. */
  predicate IsWhole(x: real) {
    x.Floor as real == x
  }

  /** Python's `round(x)`: the nearest integer, ties going to the even one. */
  function RoundHalfEven(x: real): (n: int)
    ensures -0.5 <= x - n as real <= 0.5
    ensures x - n as real == 0.5 || x - n as real == -0.5 ==> n % 2 == 0
  {
    var f := x.Floor;
    var frac := x - f as real;
    if frac < 0.5 then f
    else if frac > 0.5 then f + 1
    else if f % 2 == 0 then f
    else f + 1
  }

  /** The two properties of RoundHalfEven determine it: any integer within
      one half of x, and even when exactly one half away, is the rounded value. */
  lemma RoundHalfEvenUnique(x: real, n: int)
    requires -0.5 <= x - n as real <= 0.5
    requires x - n as real == 0.5 || x - n as real == -0.5 ==> n % 2 == 0
    ensures n == RoundHalfEven(x)
  {
  }

  /** Python's `int(x)` on a float: truncation toward zero. */
  function Trunc(x: real): (n: int)
    ensures 0.0 <= x ==> n as real <= x < n as real + 1.0
    ensures x < 0.0 ==> n as real - 1.0 < x <= n as real
    ensures Abs(n as real) <= Abs(x)
  {
    if x >= 0.0 then x.Floor else -((-x).Floor)
  }

  /** Python's `a % 365` on a float (the phase-folding period): the
      remainder is never negative. */
  function Mod365(a: real): (r: real)
    ensures 0.0 <= r < 365.0
    ensures IsWhole((a - r) / 365.0)
  {
    a - 365.0 * (a / 365.0).Floor as real
  }

  /** The two properties of Mod365 determine it: the only value in [0, 365)
      that differs from a by a whole number of periods. */
  lemma Mod365Unique(a: real, s: real)
    requires 0.0 <= s < 365.0
    requires IsWhole((a - s) / 365.0)
    ensures s == Mod365(a)
  {
    var k := ((a - s) / 365.0).Floor;
    assert a / 365.0 == k as real + s / 365.0;
    assert (a / 365.0).Floor == k;
  }

  lemma MulNonneg(a: real, b: real)
    requires 0.0 <= a && 0.0 <= b
    ensures 0.0 <= a * b
  {
  }
}
