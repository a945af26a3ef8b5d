/** `mean_func` of stacker.py: the reduction of one bin to a stacked point,
    with its one-shot outlier retry. */
module Aggregation {
  import opened Wrappers
  import opened Numerics
  import opened Statistics
  import opened LightCurve
  import opened Binning

  /** One output row: `###MJD`, `uJy`, `duJy`, `duJyu`, `duJyl`, `duJym`,
      `median`, `phase_folded`, `F`, `RA`, `Dec`. */
  datatype StackedPoint = StackedPoint(
    mjd: real,
    flux: real,
    dflux: real,
    dfluxUpper: real,
    dfluxLower: real,
    dfluxMean: real,
    median: real,
    phaseFolded: real,
    band: char,
    ra: real,
    dec: real)

  /** The "Invalid filter" branch: a filter letter other than 'c' and 'o'. */
  datatype StackError = InvalidFilter(filt: char)

  function BandOf(filt: char): (band: Option<Band>)
    ensures band.Some? <==> filt == 'c' || filt == 'o'
    ensures band.Some? ==> Label(band.value) == filt
  {
    if filt == 'c' then Some(Cyan)
    else if filt == 'o' then Some(Orange)
    else None
  }

  /** `np.max(np.abs(x["uJy"]))`. */
  function MaxAbsFlux(x: seq<Row>): (m: real)
    requires |x| > 0
    ensures forall i :: 0 <= i < |x| ==> Abs(x[i].flux) <= m
  {
    if |x| == 1 then Abs(x[0].flux) else Max(Abs(x[0].flux), MaxAbsFlux(x[1..]))
  }

  /** The maximum is reached by some sample. */
  lemma {:induction false} MaxAbsFluxAttained(x: seq<Row>) returns (i: nat)
    requires |x| > 0
    ensures i < |x| && Abs(x[i].flux) == MaxAbsFlux(x)
  {
    if |x| == 1 || Abs(x[0].flux) >= MaxAbsFlux(x[1..]) {
      i := 0;
    } else {
      var j := MaxAbsFluxAttained(x[1..]);
      i := j + 1;
    }
  }

  /** The retry's sample set `x[np.abs(x["uJy"]) < np.max(np.abs(x["uJy"]))]`. */
  function Trim(x: seq<Row>): seq<Row>
    requires |x| > 0
  {
    Filter(x, AbsFluxBelow(MaxAbsFlux(x)))
  }

  /** Trimming drops every sample tied at the largest |uJy| (at least one),
      keeps every other sample, and keeps their order. */
  lemma TrimDropsEveryMaximum(x: seq<Row>)
    requires |x| > 0
    ensures |Trim(x)| < |x|
    ensures forall r :: r in Trim(x) ==> r in x && Abs(r.flux) < MaxAbsFlux(x)
    ensures forall i :: 0 <= i < |x| && Abs(x[i].flux) < MaxAbsFlux(x) ==> x[i] in Trim(x)
  {
    var i := MaxAbsFluxAttained(x);
    FilterDropsRejected(x, AbsFluxBelow(MaxAbsFlux(x)), i);
  }

  /** The record that `mean_func` builds from the samples x (lines 51-85),
      before its retry test. */
  function Candidate(x: seq<Row>, b: Binner, ra: real, dec: real): (p: StackedPoint)
    requires |x| > 2 && ValidBinner(b)
    ensures p.mjd == BinKey(b, x[0].mjd)
    ensures p.band == Label(b.band) && p.ra == ra && p.dec == dec
    ensures p.flux == Mean(Fluxes(x)) && p.median == Median(Fluxes(x))
    ensures p.dfluxMean == Mean(Errors(x))
    // the nominal error is the larger of the two estimates
    ensures p.dflux >= HalfIqr(Fluxes(x)) && p.dflux >= p.dfluxMean
    ensures p.dflux == HalfIqr(Fluxes(x)) || p.dflux == p.dfluxMean
    // symmetric errors when the mean individual error wins
    ensures HalfIqr(Fluxes(x)) < p.dfluxMean ==>
      p.dfluxLower == p.dflux == p.dfluxUpper == p.dfluxMean
    // quartile distances around the median otherwise
    ensures p.dfluxMean <= HalfIqr(Fluxes(x)) ==>
      && p.dflux == HalfIqr(Fluxes(x))
      && p.dfluxLower == p.median - Quantile(Fluxes(x), 0.25) >= 0.0
      && p.dfluxUpper == Quantile(Fluxes(x), 0.75) - p.median >= 0.0
      && p.dfluxLower + p.dfluxUpper == 2.0 * p.dflux
    ensures 0.0 <= p.phaseFolded < 365.0 && IsWhole((p.mjd - p.phaseFolded) / 365.0)
  {
    var v := Fluxes(x);
    var mjd := BinKey(b, x[0].mjd);
    var mean := Mean(Errors(x));
    var medianErr := HalfIqr(v);
    var q25, q50, q75 := Quantile(v, 0.25), Quantile(v, 0.5), Quantile(v, 0.75);
    QuartilesOrdered(v);
    MedianIsMiddleQuantile(v);
    var (dflux, lower, upper) :=
      if medianErr < mean then (mean, mean, mean)
      else (medianErr, q50 - q25, q75 - q50);
    StackedPoint(mjd, Mean(v), dflux, upper, lower, mean, Median(v), Mod365(mjd), Label(b.band), ra, dec)
  }

  /** `mean_func(x, filt, ra, dec, stack, err_lim, recursion)`, the new-moon
      dates passed explicitly. Success(None) is the all-NaN record of a bin
      with two or fewer samples. */
  function MeanFunc(x: seq<Row>, filt: char, ra: real, dec: real, stack: int, errLim: real,
                    newMoons: seq<real>, recursion: bool): (r: Result<Option<StackedPoint>, StackError>)
    requires |x| > 2 && filt == 'c' ==> |newMoons| > 0
    requires |x| > 2 && filt == 'o' ==> stack != 0
    decreases if recursion then 1 else 0
    ensures |x| <= 2 ==> r == Success(None)
    ensures r.Failure? <==> |x| > 2 && filt != 'c' && filt != 'o'
    // no retry: the candidate stands when retrying is off or its error is within the limit
    ensures |x| > 2 && BandOf(filt).Some? ==>
      var b := Binner(BandOf(filt).value, stack, newMoons);
      (!recursion || Candidate(x, b, ra, dec).dflux <= errLim) ==>
        r == Success(Some(Candidate(x, b, ra, dec)))
    // exactly one retry, on the trimmed samples, and no second one
    ensures |x| > 2 && BandOf(filt).Some? ==>
      var b := Binner(BandOf(filt).value, stack, newMoons);
      recursion && Candidate(x, b, ra, dec).dflux > errLim ==>
        r == Success(if |Trim(x)| > 2 then Some(Candidate(Trim(x), b, ra, dec)) else None)
  {
    if |x| <= 2 then Success(None)
    else
      match BandOf(filt)
      case None => Failure(InvalidFilter(filt))
      case Some(band) =>
        var p := Candidate(x, Binner(band, stack, newMoons), ra, dec);
        if p.dflux > errLim && recursion then
          MeanFunc(Trim(x), filt, ra, dec, stack, errLim, newMoons, false)
        else
          Success(Some(p))
  }
}
