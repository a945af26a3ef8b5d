/** Rows of an ATLAS forced-photometry light curve and the row masks that
    the stacker and the jump corrector apply to them. */
module LightCurve {
  import opened Numerics

  /** One epoch: `###MJD`, `uJy`, `duJy`, `F` (the band letter), `RA`, `Dec`.
      The remaining columns of the file are not represented: the row filters
      and the jump correction carry them unchanged, and the stacking drops them. */
  datatype Row = Row(mjd: real, flux: real, dflux: real, band: char, ra: real, dec: real)

  /** The boolean masks applied to a table, as `rows[mask]`. */
  datatype Mask =
    | BandIs(letter: char)           // F == letter
    | ErrorBelow(limit: real)        // duJy < limit
    | AbsFluxBelow(bound: real)      // |uJy| < bound
    | MjdBelow(t: real)              // MJD < t
    | MjdAbove(t: real)              // MJD > t
    | MjdWithin(lo: real, hi: real)  // lo < MJD < hi
    | MjdAmong(dates: seq<real>)     // MJD isin dates

  predicate Holds(m: Mask, r: Row) {
    match m
    case BandIs(f) => r.band == f
    case ErrorBelow(limit) => r.dflux < limit
    case AbsFluxBelow(bound) => Abs(r.flux) < bound
    case MjdBelow(t) => r.mjd < t
    case MjdAbove(t) => r.mjd > t
    case MjdWithin(lo, hi) => lo < r.mjd < hi
    case MjdAmong(dates) => r.mjd in dates
  }

  /** The rows that satisfy the mask, in their original order. */
  function Filter(rows: seq<Row>, m: Mask): (kept: seq<Row>)
    ensures |kept| <= |rows|
    ensures forall r :: r in kept ==> r in rows && Holds(m, r)
    ensures forall i :: 0 <= i < |rows| && Holds(m, rows[i]) ==> rows[i] in kept
  {
    if rows == [] then []
    else (if Holds(m, rows[0]) then [rows[0]] else []) + Filter(rows[1..], m)
  }

  /** Masking a concatenation masks each part. */
  lemma {:induction false} FilterAppend(a: seq<Row>, b: seq<Row>, m: Mask)
    ensures Filter(a + b, m) == Filter(a, m) + Filter(b, m)
  {
    if a == [] {
      assert a + b == b;
    } else {
      assert (a + b)[1..] == a[1..] + b;
      FilterAppend(a[1..], b, m);
    }
  }

  /** A row the mask rejects makes the result strictly shorter. */
  lemma {:induction false} FilterDropsRejected(rows: seq<Row>, m: Mask, i: nat)
    requires i < |rows| && !Holds(m, rows[i])
    ensures |Filter(rows, m)| < |rows|
  {
    if i > 0 {
      FilterDropsRejected(rows[1..], m, i - 1);
    }
  }

  /** The `uJy` column. */
  function Fluxes(rows: seq<Row>): (v: seq<real>)
    ensures |v| == |rows|
  {
    seq(|rows|, i requires 0 <= i < |rows| => rows[i].flux)
  }

  /** The `duJy` column. */
  function Errors(rows: seq<Row>): (v: seq<real>)
    ensures |v| == |rows|
  {
    seq(|rows|, i requires 0 <= i < |rows| => rows[i].dflux)
  }
}
