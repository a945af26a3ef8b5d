/** A worked bin: four orange epochs of one
    7-day bin, the last a bright outlier, under an error limit of 50. */
module Scenarios {
  import opened Wrappers
  import opened Statistics
  import opened LightCurve
  import opened Binning
  import opened Aggregation

  function OutlierBin(): seq<Row> {
    [Row(58400.0, 100.0, 5.0, 'o', 0.0, 0.0), Row(58401.0, 102.0, 5.0, 'o', 0.0, 0.0),
     Row(58402.0, 98.0, 5.0, 'o', 0.0, 0.0), Row(58403.0, 500.0, 6.0, 'o', 0.0, 0.0)]
  }

  lemma SortFourFluxes()
    ensures Sort([100.0, 102.0, 98.0, 500.0]) == [98.0, 100.0, 102.0, 500.0]
  {
    var v, w := [100.0, 102.0, 98.0, 500.0], [98.0, 100.0, 102.0, 500.0];
    assert multiset(v) == multiset(w);
    assert Sorted(w);
    SortedUnique(Sort(v), w);
  }

  lemma SortThreeFluxes()
    ensures Sort([100.0, 102.0, 98.0]) == [98.0, 100.0, 102.0]
  {
    var v, w := [100.0, 102.0, 98.0], [98.0, 100.0, 102.0];
    assert multiset(v) == multiset(w);
    assert Sorted(w);
    SortedUnique(Sort(v), w);
  }

  /** With the outlier the quartiles are 99.5 and 201.5. */
  lemma QuartilesWithOutlier()
    ensures HalfIqr([100.0, 102.0, 98.0, 500.0]) == 51.0
  {
    SortFourFluxes();
    assert QuantileIndex(0.25, 4) == 0.75 && (0.75).Floor == 0;
    assert QuantileIndex(0.75, 4) == 2.25 && (2.25).Floor == 2;
  }

  /** Without it they are 99 and 101. */
  lemma QuartilesWithoutOutlier()
    ensures HalfIqr([100.0, 102.0, 98.0]) == 1.0
  {
    SortThreeFluxes();
    assert QuantileIndex(0.25, 3) == 0.5 && (0.5).Floor == 0;
    assert QuantileIndex(0.75, 3) == 1.5 && (1.5).Floor == 1;
  }

  lemma Columns()
    ensures Fluxes(OutlierBin()) == [100.0, 102.0, 98.0, 500.0]
    ensures Errors(OutlierBin()) == [5.0, 5.0, 5.0, 6.0]
    ensures Fluxes(OutlierBin()[..3]) == [100.0, 102.0, 98.0]
    ensures Errors(OutlierBin()[..3]) == [5.0, 5.0, 5.0]
  {
  }

  lemma Means()
    ensures Mean([5.0, 5.0, 5.0, 6.0]) == 5.25
    ensures Mean([5.0, 5.0, 5.0]) == 5.0
    ensures Mean([100.0, 102.0, 98.0]) == 100.0
  {
    assert Sum([6.0]) == 6.0 && Sum([5.0]) == 5.0 && Sum([98.0]) == 98.0;
    assert Sum([5.0, 6.0]) == 11.0 && Sum([5.0, 5.0]) == 10.0 && Sum([102.0, 98.0]) == 200.0;
  }

  /** The retry drops the outlier, the only epoch at the largest |uJy|. */
  lemma TrimDropsOutlier()
    ensures Trim(OutlierBin()) == OutlierBin()[..3]
  {
    var x := OutlierBin();
    assert MaxAbsFlux(x[3..]) == 500.0;
    assert MaxAbsFlux(x[2..]) == 500.0;
    assert MaxAbsFlux(x[1..]) == 500.0;
    assert MaxAbsFlux(x) == 500.0;
  }

  /** The first pass: the quartile error 51 beats the mean reported error
      5.25, so the nominal error is 51. */
  lemma FirstPassError()
    ensures Candidate(OutlierBin(), Binner(Orange, 7, []), 0.0, 0.0).dflux == 51.0
  {
    Columns();
    Means();
    QuartilesWithOutlier();
  }

  /** The retried pass: mean flux 100, and the mean reported error 5 beats
      the quartile error 1. */
  lemma SecondPassPoint()
    ensures var p := Candidate(OutlierBin()[..3], Binner(Orange, 7, []), 0.0, 0.0);
      p.flux == 100.0 && p.dflux == 5.0
  {
    Columns();
    Means();
    QuartilesWithoutOutlier();
  }

  /** The first pass has error 51 > 50 and is retried without the outlier;
      the retried point, mean flux 100 and error 5, stands. */
  lemma OutlierRetried()
    ensures var r := MeanFunc(OutlierBin(), 'o', 0.0, 0.0, 7, 50.0, [], true);
      r == Success(Some(Candidate(OutlierBin()[..3], Binner(Orange, 7, []), 0.0, 0.0)))
      && r.value.value.flux == 100.0 && r.value.value.dflux == 5.0
  {
    assert BandOf('o') == Some(Orange);
    FirstPassError();
    TrimDropsOutlier();
    SecondPassPoint();
  }
}
