/** `stack_and_save` of stacker.py without its file output: pre-filter the
    raw epochs, split the bands, group each band into bins, reduce every bin
    with `mean_func`, drop the points whose error is not below the band's
    limit, and join the orange points and then the cyan points. */
module Stacker {
  import opened Wrappers
  import opened LightCurve
  import opened Binning
  import opened Aggregation

  /** The command-line settings: `--stack`, `--error`, `--cyan`, `--orange`
      (defaults 7, 45, 35 and 50), and the new-moon dates of the `.npy` file. */
  datatype Config = Config(stack: int, errorLim: real, cyanLim: real, orangeLim: real, newMoons: seq<real>)

  /** `raw[raw["duJy"] < error_lim]`. */
  function Prefilter(raw: seq<Row>, errorLim: real): seq<Row> {
    Filter(raw, ErrorBelow(errorLim))
  }

  /** `raw[raw['F'] == f]`. */
  function SplitBand(rows: seq<Row>, f: char): seq<Row> {
    Filter(rows, BandIs(f))
  }

  /** `o1[o1["duJy"] < lim]`: an all-NaN record fails the test like any
      point whose error is not strictly below the limit. */
  function PostFilter(recs: seq<Option<StackedPoint>>, lim: real): (pts: seq<StackedPoint>)
    ensures forall p :: p in pts ==> Some(p) in recs && p.dflux < lim
    ensures forall i :: 0 <= i < |recs| && recs[i].Some? && recs[i].value.dflux < lim ==> recs[i].value in pts
  {
    if recs == [] then []
    else
      (if recs[0].Some? && recs[0].value.dflux < lim then [recs[0].value] else [])
      + PostFilter(recs[1..], lim)
  }

  /** The post-filter of a concatenation is the post-filter of each part
      joined, so it keeps the records' order and multiplicity. */
  lemma {:induction false} PostFilterAppend(a: seq<Option<StackedPoint>>, b: seq<Option<StackedPoint>>, lim: real)
    ensures PostFilter(a + b, lim) == PostFilter(a, lim) + PostFilter(b, lim)
  {
    if a == [] {
      assert a + b == b;
    } else {
      assert (a + b)[1..] == a[1..] + b;
      PostFilterAppend(a[1..], b, lim);
    }
  }

  /** `groupby(key).apply(mean_func, ...)`: one record per bin, in ascending
      key order. The filter letter is always valid here. */
  function Records(b: Binner, rows: seq<Row>, ra: real, dec: real, lim: real): seq<Option<StackedPoint>>
    requires ValidBinner(b)
  {
    var gs := Groups(b, rows);
    seq(|gs|, i requires 0 <= i < |gs| =>
      MeanFunc(gs[i], Label(b.band), ra, dec, b.stack, lim, b.newMoons, true).value)
  }

  /** The stacked points of one band after the post-filter. An empty band
      yields no points. */
  function StackBand(b: Binner, rows: seq<Row>, ra: real, dec: real, lim: real): seq<StackedPoint>
    requires rows != [] ==> ValidBinner(b)
  {
    if rows == [] then [] else PostFilter(Records(b, rows, ra, dec, lim), lim)
  }

  /** The stacked light curve of one source; RA and Dec come from the first
      epoch that passes the pre-filter. */
  function StackAndSave(raw: seq<Row>, cfg: Config): seq<StackedPoint>
    requires Prefilter(raw, cfg.errorLim) != []
    requires SplitBand(Prefilter(raw, cfg.errorLim), 'o') != [] ==> cfg.stack != 0
    requires SplitBand(Prefilter(raw, cfg.errorLim), 'c') != [] ==> |cfg.newMoons| > 0
  {
    var pre := Prefilter(raw, cfg.errorLim);
    var c, o := SplitBand(pre, 'c'), SplitBand(pre, 'o');
    var ra, dec := pre[0].ra, pre[0].dec;
    var c1 := StackBand(Binner(Cyan, cfg.stack, cfg.newMoons), c, ra, dec, cfg.cyanLim);
    var o1 := StackBand(Binner(Orange, cfg.stack, cfg.newMoons), o, ra, dec, cfg.orangeLim);
    o1 + c1
  }

  /** The date that `mean_func` recomputes from the first sample of a bin
      (or of its trimmed retry) is the bin's own key. */
  lemma MeanFuncDateIsBinKey(b: Binner, rows: seq<Row>, k: real, ra: real, dec: real, lim: real)
    requires ValidBinner(b) && Members(b, rows, k) != []
    ensures var r := MeanFunc(Members(b, rows, k), Label(b.band), ra, dec, b.stack, lim, b.newMoons, true);
      r.Success? && (r.value.Some? ==> r.value.value.mjd == k && r.value.value.band == Label(b.band)
                                       && r.value.value.ra == ra && r.value.value.dec == dec)
  {
    var x := Members(b, rows, k);
    assert BandOf(Label(b.band)) == Some(b.band);
    assert b == Binner(b.band, b.stack, b.newMoons);
    if |x| > 2 {
      assert x[0] in x;
      TrimDropsEveryMaximum(x);
      if |Trim(x)| > 2 {
        assert Trim(x)[0] in Trim(x);
      }
    }
  }

  /** The present records carry strictly increasing dates. */
  ghost predicate AscendingDates(recs: seq<Option<StackedPoint>>) {
    forall i, j :: 0 <= i < j < |recs| && recs[i].Some? && recs[j].Some? ==> recs[i].value.mjd < recs[j].value.mjd
  }

  ghost predicate Ascending(pts: seq<StackedPoint>) {
    forall i, j :: 0 <= i < j < |pts| ==> pts[i].mjd < pts[j].mjd
  }

  lemma ConsAscending(p: StackedPoint, tail: seq<StackedPoint>)
    requires Ascending(tail)
    requires forall q :: q in tail ==> p.mjd < q.mjd
    ensures Ascending([p] + tail)
  {
    var pts := [p] + tail;
    forall i, j | 0 <= i < j < |pts| ensures pts[i].mjd < pts[j].mjd {
      assert pts[j] == tail[j - 1];
      if i == 0 {
        assert tail[j - 1] in tail;
      } else {
        assert pts[i] == tail[i - 1];
      }
    }
  }

  /** The post-filter keeps the order of the records it keeps. */
  lemma {:induction false} PostFilterAscending(recs: seq<Option<StackedPoint>>, lim: real)
    requires AscendingDates(recs)
    ensures Ascending(PostFilter(recs, lim))
  {
    if recs != [] {
      var rest := recs[1..];
      assert AscendingDates(rest) by {
        forall i, j | 0 <= i < j < |rest| && rest[i].Some? && rest[j].Some?
          ensures rest[i].value.mjd < rest[j].value.mjd
        {
          assert rest[i] == recs[i + 1] && rest[j] == recs[j + 1];
        }
      }
      PostFilterAscending(rest, lim);
      var tail := PostFilter(rest, lim);
      if recs[0].Some? && recs[0].value.dflux < lim {
        forall q | q in tail ensures recs[0].value.mjd < q.mjd {
          var j :| 0 <= j < |rest| && rest[j] == Some(q);
          assert recs[j + 1] == Some(q);
        }
        ConsAscending(recs[0].value, tail);
        assert PostFilter(recs, lim) == [recs[0].value] + tail;
      } else {
        assert PostFilter(recs, lim) == tail;
      }
    }
  }

  /** Record i of a band is `mean_func` of the i-th bin; when present it is
      dated by that bin's key and carries the band and the source position. */
  lemma RecordAt(b: Binner, rows: seq<Row>, ra: real, dec: real, lim: real, i: nat)
    requires ValidBinner(b) && i < |Records(b, rows, ra, dec, lim)|
    ensures var k := SortedKeys(b, rows)[i];
      var rec := Records(b, rows, ra, dec, lim)[i];
      && Members(b, rows, k) != []
      && rec == MeanFunc(Members(b, rows, k), Label(b.band), ra, dec, b.stack, lim, b.newMoons, true).value
      && (rec.Some? ==> rec.value.mjd == k && rec.value.band == Label(b.band)
                        && rec.value.ra == ra && rec.value.dec == dec)
  {
    MeanFuncDateIsBinKey(b, rows, SortedKeys(b, rows)[i], ra, dec, lim);
  }

  /** Within a band the stacked points are in strictly ascending date order,
      at most one per bin. */
  lemma StackBandAscending(b: Binner, rows: seq<Row>, ra: real, dec: real, lim: real)
    requires ValidBinner(b)
    ensures Ascending(StackBand(b, rows, ra, dec, lim))
  {
    if rows != [] {
      var ks, recs := SortedKeys(b, rows), Records(b, rows, ra, dec, lim);
      forall i | 0 <= i < |recs| && recs[i].Some? ensures recs[i].value.mjd == ks[i] {
        RecordAt(b, rows, ra, dec, lim, i);
      }
      assert AscendingDates(recs);
      PostFilterAscending(recs, lim);
    }
  }

  /** Every point of a band passes the band's limit, carries the band's
      letter and the source position, and is exactly `mean_func` of the
      bin keyed by its date. */
  lemma StackBandPointsAreBins(b: Binner, rows: seq<Row>, ra: real, dec: real, lim: real, p: StackedPoint)
    requires ValidBinner(b) && p in StackBand(b, rows, ra, dec, lim)
    ensures p.band == Label(b.band) && p.dflux < lim && p.ra == ra && p.dec == dec
    ensures Members(b, rows, p.mjd) != []
    ensures MeanFunc(Members(b, rows, p.mjd), Label(b.band), ra, dec, b.stack, lim, b.newMoons, true)
            == Success(Some(p))
  {
    var recs := Records(b, rows, ra, dec, lim);
    var i :| 0 <= i < |recs| && recs[i] == Some(p);
    RecordAt(b, rows, ra, dec, lim, i);
  }

  /** Every bin whose `mean_func` point passes the band's limit contributes
      that point. */
  lemma StackBandKeepsBins(b: Binner, rows: seq<Row>, ra: real, dec: real, lim: real, k: real)
    requires ValidBinner(b) && Members(b, rows, k) != []
    ensures var r := MeanFunc(Members(b, rows, k), Label(b.band), ra, dec, b.stack, lim, b.newMoons, true);
      r.Success? && r.value.Some? && r.value.value.dflux < lim ==> r.value.value in StackBand(b, rows, ra, dec, lim)
  {
    var ks := SortedKeys(b, rows);
    var i :| 0 <= i < |ks| && ks[i] == k;
    RecordAt(b, rows, ra, dec, lim, i);
  }

  /** The points of one band carry its letter and pass its limit. */
  lemma BandPointsPass(b: Binner, rows: seq<Row>, ra: real, dec: real, lim: real)
    requires rows != [] ==> ValidBinner(b)
    ensures forall p :: p in StackBand(b, rows, ra, dec, lim) ==> p.band == Label(b.band) && p.dflux < lim
    ensures Ascending(StackBand(b, rows, ra, dec, lim))
  {
    if rows != [] {
      StackBandAscending(b, rows, ra, dec, lim);
      forall p | p in StackBand(b, rows, ra, dec, lim) ensures p.band == Label(b.band) && p.dflux < lim {
        StackBandPointsAreBins(b, rows, ra, dec, lim, p);
      }
    }
  }

  /** The layout of `pd.concat([o1, c1])`. */
  lemma JoinLayout(o1: seq<StackedPoint>, c1: seq<StackedPoint>, orangeLim: real, cyanLim: real)
    requires forall p :: p in o1 ==> p.band == 'o' && p.dflux < orangeLim
    requires forall p :: p in c1 ==> p.band == 'c' && p.dflux < cyanLim
    requires Ascending(o1) && Ascending(c1)
    ensures forall p :: p in o1 + c1 ==>
      (p.band == 'o' && p.dflux < orangeLim) || (p.band == 'c' && p.dflux < cyanLim)
    ensures forall i, j :: 0 <= i < j < |o1 + c1| ==> (o1 + c1)[i].band == 'o' || (o1 + c1)[j].band == 'c'
    ensures forall i, j :: 0 <= i < j < |o1 + c1| && (o1 + c1)[i].band == (o1 + c1)[j].band ==>
      (o1 + c1)[i].mjd < (o1 + c1)[j].mjd
  {
    var out := o1 + c1;
    assert forall i :: 0 <= i < |o1| ==> out[i] == o1[i] && o1[i] in o1;
    assert forall i :: |o1| <= i < |out| ==> out[i] == c1[i - |o1|] && c1[i - |o1|] in c1;
  }

  /** The joined light curve: orange points first, then cyan points; each
      point passes its band's limit; within a band dates strictly increase. */
  lemma StackAndSaveLayout(raw: seq<Row>, cfg: Config)
    requires Prefilter(raw, cfg.errorLim) != []
    requires SplitBand(Prefilter(raw, cfg.errorLim), 'o') != [] ==> cfg.stack != 0
    requires SplitBand(Prefilter(raw, cfg.errorLim), 'c') != [] ==> |cfg.newMoons| > 0
    ensures var out := StackAndSave(raw, cfg);
      forall p :: p in out ==>
        (p.band == 'o' && p.dflux < cfg.orangeLim) || (p.band == 'c' && p.dflux < cfg.cyanLim)
    ensures var out := StackAndSave(raw, cfg);
      forall i, j :: 0 <= i < j < |out| ==> out[i].band == 'o' || out[j].band == 'c'
    ensures var out := StackAndSave(raw, cfg);
      forall i, j :: 0 <= i < j < |out| && out[i].band == out[j].band ==> out[i].mjd < out[j].mjd
  {
    var pre := Prefilter(raw, cfg.errorLim);
    var c, o := SplitBand(pre, 'c'), SplitBand(pre, 'o');
    var ra, dec := pre[0].ra, pre[0].dec;
    var bc, bo := Binner(Cyan, cfg.stack, cfg.newMoons), Binner(Orange, cfg.stack, cfg.newMoons);
    var c1 := StackBand(bc, c, ra, dec, cfg.cyanLim);
    var o1 := StackBand(bo, o, ra, dec, cfg.orangeLim);
    BandPointsPass(bc, c, ra, dec, cfg.cyanLim);
    BandPointsPass(bo, o, ra, dec, cfg.orangeLim);
    JoinLayout(o1, c1, cfg.orangeLim, cfg.cyanLim);
    assert StackAndSave(raw, cfg) == o1 + c1;
  }

  /** An epoch whose error is at or above the first-order limit is removed
      by the pre-filter, wherever it stands in the input. */
  lemma PrefilterIgnoresHighError(raw: seq<Row>, i: nat, s: Row, errorLim: real)
    requires i <= |raw| && s.dflux >= errorLim
    ensures Prefilter(raw[..i] + [s] + raw[i..], errorLim) == Prefilter(raw, errorLim)
  {
    var m := ErrorBelow(errorLim);
    var pre, post := raw[..i], raw[i..];
    assert Filter([s], m) == [];
    calc {
      Filter(pre + [s] + post, m);
    == { FilterAppend(pre + [s], post, m); }
      Filter(pre + [s], m) + Filter(post, m);
    == { FilterAppend(pre, [s], m); }
      Filter(pre, m) + Filter(post, m);
    == { FilterAppend(pre, post, m); }
      Filter(pre + post, m);
    == { assert pre + post == raw; }
      Filter(raw, m);
    }
  }

  /** Such an epoch never influences the stacked light curve. */
  lemma PrefilterDiscardsHighErrors(raw: seq<Row>, i: nat, s: Row, cfg: Config)
    requires i <= |raw| && s.dflux >= cfg.errorLim
    requires Prefilter(raw, cfg.errorLim) != []
    requires SplitBand(Prefilter(raw, cfg.errorLim), 'o') != [] ==> cfg.stack != 0
    requires SplitBand(Prefilter(raw, cfg.errorLim), 'c') != [] ==> |cfg.newMoons| > 0
    ensures Prefilter(raw[..i] + [s] + raw[i..], cfg.errorLim) == Prefilter(raw, cfg.errorLim)
    ensures StackAndSave(raw[..i] + [s] + raw[i..], cfg) == StackAndSave(raw, cfg)
  {
    PrefilterIgnoresHighError(raw, i, s, cfg.errorLim);
  }

  /** A bin whose error equals the band's limit exactly is not retried
      (the retry test is strict) but its point is still discarded. */
  lemma ErrorAtLimitNotRetriedButDropped(x: seq<Row>, b: Binner, ra: real, dec: real, lim: real)
    requires |x| > 2 && ValidBinner(b)
    requires Candidate(x, b, ra, dec).dflux == lim
    ensures MeanFunc(x, Label(b.band), ra, dec, b.stack, lim, b.newMoons, true)
            == Success(Some(Candidate(x, b, ra, dec)))
    ensures PostFilter([Some(Candidate(x, b, ra, dec))], lim) == []
  {
    assert BandOf(Label(b.band)) == Some(b.band);
    assert b == Binner(b.band, b.stack, b.newMoons);
  }

  /** A bin of two or fewer epochs yields the all-NaN record, which the
      post-filter never keeps. */
  lemma SmallBinDropped(x: seq<Row>, b: Binner, ra: real, dec: real, lim: real)
    requires |x| <= 2
    ensures MeanFunc(x, Label(b.band), ra, dec, b.stack, lim, b.newMoons, true) == Success(None)
    ensures PostFilter([None], lim) == []
  {
  }
}
