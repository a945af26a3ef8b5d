/** `correct_jump` of correctlas.py: removes the two flux discontinuities
    ("wallpaper jumps") of an ATLAS difference light curve by shifting the
    epochs after each jump so that the jump in mean flux equals the one seen
    in the reduced light curve. */
module CorrectLas {
  import opened Wrappers
  import opened Statistics
  import opened LightCurve

  /** The cut dates for the wallpaper (reference image) changes and the buffer
      around them. The first change is at MJD 58417. The second is at MJD 58882,
      but the cut is placed at 58892 so that no epoch is left out of a segment;
      epochs with 58882 < MJD < 58892 therefore stay in segment 2. */
  const Wp1: real := 58417.0
  const Wp2: real := 58892.0
  const WpBuffer: real := 0.0
  /** Difference epochs with `duJy` at or above this are discarded. */
  const DiffErrorLimit: real := 45.0

  /** `lc[lc['F'] == flt]`, or the whole table when no filter is given. */
  function BandSelect(rows: seq<Row>, flt: Option<char>): seq<Row> {
    if flt.None? then rows else Filter(rows, BandIs(flt.value))
  }

  /** The difference epochs that take part: the chosen band, `duJy < 45`. */
  function SelectDiff(diffLc: seq<Row>, flt: Option<char>): seq<Row> {
    Filter(BandSelect(diffLc, flt), ErrorBelow(DiffErrorLimit))
  }

  /** The `###MJD` column. */
  function Mjds(rows: seq<Row>): seq<real> {
    seq(|rows|, i requires 0 <= i < |rows| => rows[i].mjd)
  }

  /** The reduced epochs of the chosen band taken at a date of `diff`. */
  function MatchRaw(rawLc: seq<Row>, flt: Option<char>, diff: seq<Row>): seq<Row> {
    Filter(BandSelect(rawLc, flt), MjdAmong(Mjds(diff)))
  }

  /** The three segments the jumps cut a curve into (strict comparisons:
      an epoch dated exactly at a wallpaper date is in none of them). */
  function Before(rows: seq<Row>): seq<Row> {
    Filter(rows, MjdBelow(Wp1 - WpBuffer))
  }

  function Between(rows: seq<Row>): seq<Row> {
    Filter(rows, MjdWithin(Wp1 + WpBuffer, Wp2 - WpBuffer))
  }

  function After(rows: seq<Row>): seq<Row> {
    Filter(rows, MjdAbove(Wp2 + WpBuffer))
  }

  /** `rows['uJy'].mean()`; None is the NaN mean of an empty segment. */
  function MeanFlux(rows: seq<Row>): Option<real> {
    if rows == [] then None else Some(Mean(Fluxes(rows)))
  }

  /** Float subtraction in which NaN absorbs everything. */
  function Sub(a: Option<real>, b: Option<real>): (d: Option<real>)
    ensures d.Some? <==> a.Some? && b.Some?
    ensures d.Some? ==> d.value + b.value == a.value
  {
    if a.Some? && b.Some? then Some(a.value - b.value) else None
  }

  /** Every value moved by d. */
  function Shifted(v: seq<real>, d: real): (w: seq<real>)
    ensures |w| == |v|
  {
    seq(|v|, i requires 0 <= i < |v| => v[i] + d)
  }

  lemma {:induction false} SumShifted(v: seq<real>, d: real)
    ensures Sum(Shifted(v, d)) == Sum(v) + |v| as real * d
  {
    if v != [] {
      assert Shifted(v, d)[1..] == Shifted(v[1..], d);
      SumShifted(v[1..], d);
      assert (|v| - 1) as real * d + d == |v| as real * d;
    }
  }

  /** Moving every value by d moves the mean by d. */
  lemma MeanShifted(v: seq<real>, d: real)
    requires |v| > 0
    ensures Mean(Shifted(v, d)) == Mean(v) + d
  {
    var n := |v| as real;
    SumShifted(v, d);
    assert (Sum(v) + n * d) / n == Sum(v) / n + d;
  }

  /** `lc['uJy'] = np.array(lc['uJy']) + d`: every flux moved by d, every
      other column untouched. */
  function ShiftFlux(rows: seq<Row>, d: real): (out: seq<Row>)
    ensures |out| == |rows|
  {
    seq(|rows|, i requires 0 <= i < |rows| => rows[i].(flux := rows[i].flux + d))
  }

  /** Shifting a non-empty segment's fluxes shifts its mean flux by the same
      amount. */
  lemma MeanFluxShift(rows: seq<Row>, d: real)
    requires rows != []
    ensures MeanFlux(ShiftFlux(rows, d)) == Some(MeanFlux(rows).value + d)
  {
    assert Fluxes(ShiftFlux(rows, d)) == Shifted(Fluxes(rows), d);
    MeanShifted(Fluxes(rows), d);
  }

  /** out is src with every flux moved by one common amount and every other
      column unchanged. */
  ghost predicate UniformShift(out: seq<Row>, src: seq<Row>) {
    && |out| == |src|
    && (forall i :: 0 <= i < |out| ==> out[i] == src[i].(flux := out[i].flux))
    && (forall i, j :: 0 <= i < |out| && 0 <= j < |out| ==>
          out[i].flux - src[i].flux == out[j].flux - src[j].flux)
  }

  lemma ShiftFluxIsUniform(rows: seq<Row>, d: real)
    ensures UniformShift(ShiftFlux(rows, d), rows)
  {
  }

  lemma UniformShiftSelf(rows: seq<Row>)
    ensures UniformShift(rows, rows)
  {
  }

  /** Whether `correct_jump` writes NaN into some `uJy`: the second segment
      is shifted by a NaN amount when a mean it needs is taken over an empty
      segment, and so is the third, which also needs the (possibly NaN)
      mean of the corrected second segment. */
  predicate NanWritten(r1: seq<Row>, r2: seq<Row>, r3: seq<Row>,
                       d1: seq<Row>, d2: seq<Row>, d3: seq<Row>, jump1: bool) {
    var nan2 := jump1 && d2 != [] && (r1 == [] || r2 == [] || d1 == []);
    nan2 || (d3 != [] && (r2 == [] || r3 == [] || d2 == []))
  }

  /** What a NaN-free result is, given the raw segments r1..r3 and the
      difference segments d1..d3: d1 as is, then d2 and d3 each moved by one
      common amount, such that each jump in mean flux equals the raw jump
      (the first one only when it is corrected; otherwise d2 as is). */
  ghost predicate Corrected(out: seq<Row>, r1: seq<Row>, r2: seq<Row>, r3: seq<Row>,
                            d1: seq<Row>, d2: seq<Row>, d3: seq<Row>, jump1: bool) {
    var n1, n2 := |d1|, |d1| + |d2|;
    && |out| == |d1| + |d2| + |d3|
    && out[..n1] == d1
    && UniformShift(out[n1..n2], d2)
    && UniformShift(out[n2..], d3)
    && (!jump1 ==> out[n1..n2] == d2)
    && (jump1 && d2 != [] ==>
          Sub(MeanFlux(out[n1..n2]), MeanFlux(d1)) == Sub(MeanFlux(r2), MeanFlux(r1)))
    && (d3 != [] ==>
          Sub(MeanFlux(out[n2..]), MeanFlux(out[n1..n2])) == Sub(MeanFlux(r3), MeanFlux(r2)))
  }

  /** `correct_jump(diff_lc, raw_lc, flt, jump_1)`. None stands for a result
      in which some `uJy` is NaN. */
  method CorrectJump(diffLc: seq<Row>, rawLc: seq<Row>, flt: Option<char>, jump1: bool)
    returns (r: Option<seq<Row>>)
    ensures var d := SelectDiff(diffLc, flt);
      var raw := MatchRaw(rawLc, flt, d);
      r.None? <==> NanWritten(Before(raw), Between(raw), After(raw), Before(d), Between(d), After(d), jump1)
    ensures var d := SelectDiff(diffLc, flt);
      var raw := MatchRaw(rawLc, flt, d);
      r.Some? ==> Corrected(r.value, Before(raw), Between(raw), After(raw), Before(d), Between(d), After(d), jump1)
    ensures r.Some? ==> forall i :: 0 <= i < |r.value| ==> Eligible(r.value[i], flt)
  {
    var diff := BandSelect(diffLc, flt);
    var raw := BandSelect(rawLc, flt);
    diff := Filter(diff, ErrorBelow(DiffErrorLimit));
    raw := Filter(raw, MjdAmong(Mjds(diff)));
    r := CorrectSegments(Before(raw), Between(raw), After(raw), Before(diff), Between(diff), After(diff), jump1);
    if r.Some? {
      CorrectedEpochsSelected(r.value, diffLc, rawLc, flt, jump1);
    }
  }

  /** The body of `correct_jump` once the curves are selected and cut into
      segments: the raw segments r1..r3 and the difference segments d1..d3. */
  method CorrectSegments(r1: seq<Row>, r2: seq<Row>, r3: seq<Row>,
                         d1: seq<Row>, d2: seq<Row>, d3: seq<Row>, jump1: bool)
    returns (r: Option<seq<Row>>)
    ensures r.None? <==> NanWritten(r1, r2, r3, d1, d2, d3, jump1)
    ensures r.Some? ==> Corrected(r.value, r1, r2, r3, d1, d2, d3, jump1)
  {
    var rawShift1 := Sub(MeanFlux(r2), MeanFlux(r1));
    var rawShift2 := Sub(MeanFlux(r3), MeanFlux(r2));

    var diff1, diff2, diff3 := d1, d2, d3;
    var diffShift1 := Sub(MeanFlux(diff2), MeanFlux(diff1));

    var nan2 := false;  // the uJy of diff2 have become NaN
    UniformShiftSelf(diff2);
    if jump1 && diff2 != [] {
      var c := Sub(rawShift1, diffShift1);
      if c.None? {
        nan2 := true;
      } else {
        MeanFluxShift(diff2, c.value);
        ShiftFluxIsUniform(diff2, c.value);
        diff2 := ShiftFlux(diff2, c.value);
      }
    }
    var diffShift2 := if nan2 then None else Sub(MeanFlux(diff3), MeanFlux(diff2));

    var nan3 := false;  // the uJy of diff3 have become NaN
    UniformShiftSelf(diff3);
    if diff3 != [] {
      var c := Sub(rawShift2, diffShift2);
      if c.None? {
        nan3 := true;
      } else {
        MeanFluxShift(diff3, c.value);
        ShiftFluxIsUniform(diff3, c.value);
        diff3 := ShiftFlux(diff3, c.value);
      }
    }

    if nan2 || nan3 {
      return None;
    }
    Assemble(d1, diff2, diff3, r1, r2, r3, d2, d3, jump1);
    return Some(d1 + diff2 + diff3);
  }

  /** The three corrected segments, joined, form a corrected curve. */
  lemma Assemble(d1: seq<Row>, o2: seq<Row>, o3: seq<Row>, r1: seq<Row>, r2: seq<Row>, r3: seq<Row>,
                 d2: seq<Row>, d3: seq<Row>, jump1: bool)
    requires UniformShift(o2, d2) && UniformShift(o3, d3)
    requires !jump1 ==> o2 == d2
    requires jump1 && d2 != [] ==> Sub(MeanFlux(o2), MeanFlux(d1)) == Sub(MeanFlux(r2), MeanFlux(r1))
    requires d3 != [] ==> Sub(MeanFlux(o3), MeanFlux(o2)) == Sub(MeanFlux(r3), MeanFlux(r2))
    ensures Corrected(d1 + o2 + o3, r1, r2, r3, d1, d2, d3, jump1)
  {
    var out := d1 + o2 + o3;
    assert out[..|d1|] == d1;
    assert out[|d1|..|d1| + |d2|] == o2;
    assert out[|d1| + |d2|..] == o3;
  }

  /** The jumps cut a curve into three: every epoch lies in exactly one
      segment, except those dated exactly at a wallpaper date, which lie in
      none. */
  lemma {:induction false} SegmentsPartition(rows: seq<Row>)
    ensures |Before(rows)| + |Between(rows)| + |After(rows)| + |Filter(rows, MjdAmong([Wp1, Wp2]))| == |rows|
  {
    if rows != [] {
      SegmentsPartition(rows[1..]);
    }
  }

  /** A reduced epoch kept by the date match shares its date with an epoch of d. */
  lemma MatchedDate(rawSel: seq<Row>, d: seq<Row>, row: Row)
    requires row in Filter(rawSel, MjdAmong(Mjds(d)))
    ensures exists i :: 0 <= i < |d| && d[i].mjd == row.mjd
  {
    var i :| 0 <= i < |Mjds(d)| && Mjds(d)[i] == row.mjd;
    assert d[i].mjd == row.mjd;
  }

  predicate IsSegment(m: Mask) {
    m == MjdBelow(Wp1 - WpBuffer) || m == MjdWithin(Wp1 + WpBuffer, Wp2 - WpBuffer) || m == MjdAbove(Wp2 + WpBuffer)
  }

  /** A segment of the reduced epochs is non-empty only when the same
      segment of the difference epochs is. */
  lemma SegmentOfMatched(rawSel: seq<Row>, d: seq<Row>, m: Mask)
    requires IsSegment(m)
    ensures Filter(Filter(rawSel, MjdAmong(Mjds(d))), m) != [] ==> Filter(d, m) != []
  {
    var raw := Filter(rawSel, MjdAmong(Mjds(d)));
    if Filter(raw, m) != [] {
      var row := Filter(raw, m)[0];
      assert row in Filter(raw, m);
      MatchedDate(rawSel, d, row);
      var i :| 0 <= i < |d| && d[i].mjd == row.mjd;
      assert Holds(m, d[i]);
      assert d[i] in Filter(d, m);
    }
  }

  /** The reduced epochs that take part are dated like difference epochs that
      take part, so NaN can only come from an empty difference segment or a
      date range the reduced curve misses. */
  lemma RawDatesAreDiffDates(diffLc: seq<Row>, rawLc: seq<Row>, flt: Option<char>)
    ensures var d := SelectDiff(diffLc, flt);
      forall row :: row in MatchRaw(rawLc, flt, d) ==> exists i :: 0 <= i < |d| && d[i].mjd == row.mjd
    ensures var d := SelectDiff(diffLc, flt);
      var raw := MatchRaw(rawLc, flt, d);
      && (Before(raw) != [] ==> Before(d) != [])
      && (Between(raw) != [] ==> Between(d) != [])
      && (After(raw) != [] ==> After(d) != [])
  {
    var d := SelectDiff(diffLc, flt);
    forall row | row in MatchRaw(rawLc, flt, d)
      ensures exists i :: 0 <= i < |d| && d[i].mjd == row.mjd
    {
      MatchedDate(BandSelect(rawLc, flt), d, row);
    }
    SegmentOfMatched(BandSelect(rawLc, flt), d, MjdBelow(Wp1 - WpBuffer));
    SegmentOfMatched(BandSelect(rawLc, flt), d, MjdWithin(Wp1 + WpBuffer, Wp2 - WpBuffer));
    SegmentOfMatched(BandSelect(rawLc, flt), d, MjdAbove(Wp2 + WpBuffer));
  }

  /** An epoch that may appear in a corrected curve of band flt. */
  predicate Eligible(row: Row, flt: Option<char>) {
    && row.dflux < DiffErrorLimit
    && (flt.Some? ==> row.band == flt.value)
    && row.mjd != Wp1 && row.mjd != Wp2
  }

  lemma SegmentEligible(diffLc: seq<Row>, flt: Option<char>, m: Mask)
    requires IsSegment(m)
    ensures forall row :: row in Filter(SelectDiff(diffLc, flt), m) ==> Eligible(row, flt)
  {
    forall row | row in Filter(SelectDiff(diffLc, flt), m)
      ensures Eligible(row, flt)
    {
      assert row in BandSelect(diffLc, flt);
    }
  }

  /** A uniform flux shift of eligible epochs leaves them eligible. */
  lemma ShiftedEligible(o: seq<Row>, src: seq<Row>, flt: Option<char>)
    requires UniformShift(o, src)
    requires forall row :: row in src ==> Eligible(row, flt)
    ensures forall i :: 0 <= i < |o| ==> Eligible(o[i], flt)
  {
    forall i | 0 <= i < |o|
      ensures Eligible(o[i], flt)
    {
      assert src[i] in src;
    }
  }

  lemma JoinedEligible(out: seq<Row>, r1: seq<Row>, r2: seq<Row>, r3: seq<Row>,
                       d1: seq<Row>, d2: seq<Row>, d3: seq<Row>, jump1: bool, flt: Option<char>)
    requires Corrected(out, r1, r2, r3, d1, d2, d3, jump1)
    requires forall row :: row in d1 ==> Eligible(row, flt)
    requires forall row :: row in d2 ==> Eligible(row, flt)
    requires forall row :: row in d3 ==> Eligible(row, flt)
    ensures forall i :: 0 <= i < |out| ==> Eligible(out[i], flt)
  {
    var n1, n2 := |d1|, |d1| + |d2|;
    UniformShiftSelf(d1);
    ShiftedEligible(out[..n1], d1, flt);
    ShiftedEligible(out[n1..n2], d2, flt);
    ShiftedEligible(out[n2..], d3, flt);
    forall i | 0 <= i < |out|
      ensures Eligible(out[i], flt)
    {
      if i < n1 {
        assert out[..n1][i] == out[i];
      } else if i < n2 {
        assert out[n1..n2][i - n1] == out[i];
      } else {
        assert out[n2..][i - n2] == out[i];
      }
    }
  }

  /** Every epoch of a corrected curve is of the chosen band, has an error
      below 45 and is not dated at a wallpaper date. */
  lemma CorrectedEpochsSelected(out: seq<Row>, diffLc: seq<Row>, rawLc: seq<Row>, flt: Option<char>, jump1: bool)
    requires var d := SelectDiff(diffLc, flt);
      var raw := MatchRaw(rawLc, flt, d);
      Corrected(out, Before(raw), Between(raw), After(raw), Before(d), Between(d), After(d), jump1)
    ensures forall i :: 0 <= i < |out| ==> Eligible(out[i], flt)
  {
    var d := SelectDiff(diffLc, flt);
    var raw := MatchRaw(rawLc, flt, d);
    SegmentEligible(diffLc, flt, MjdBelow(Wp1 - WpBuffer));
    SegmentEligible(diffLc, flt, MjdWithin(Wp1 + WpBuffer, Wp2 - WpBuffer));
    SegmentEligible(diffLc, flt, MjdAbove(Wp2 + WpBuffer));
    JoinedEligible(out, Before(raw), Between(raw), After(raw), Before(d), Between(d), After(d), jump1, flt);
  }

  /** `correct_jump` on band flt writes NaN. */
  predicate BandNan(diffLc: seq<Row>, rawLc: seq<Row>, flt: Option<char>, jump1: bool) {
    var d := SelectDiff(diffLc, flt);
    var raw := MatchRaw(rawLc, flt, d);
    NanWritten(Before(raw), Between(raw), After(raw), Before(d), Between(d), After(d), jump1)
  }

  /** out is a NaN-free result of `correct_jump` on band flt. */
  ghost predicate BandCorrected(out: seq<Row>, diffLc: seq<Row>, rawLc: seq<Row>, flt: Option<char>, jump1: bool) {
    var d := SelectDiff(diffLc, flt);
    var raw := MatchRaw(rawLc, flt, d);
    Corrected(out, Before(raw), Between(raw), After(raw), Before(d), Between(d), After(d), jump1)
  }

  /** Lines 79-81: the orange and then the cyan corrections, joined; None
      when either holds a NaN flux. */
  method CorrectBothBands(diffLc: seq<Row>, rawLc: seq<Row>, jump1: bool) returns (r: Option<seq<Row>>)
    ensures r.None? <==> BandNan(diffLc, rawLc, Some('o'), jump1) || BandNan(diffLc, rawLc, Some('c'), jump1)
    ensures r.Some? ==> exists o, c ::
      && BandCorrected(o, diffLc, rawLc, Some('o'), jump1)
      && BandCorrected(c, diffLc, rawLc, Some('c'), jump1)
      && r.value == o + c
  {
    var o := CorrectJump(diffLc, rawLc, Some('o'), jump1);
    var c := CorrectJump(diffLc, rawLc, Some('c'), jump1);
    if o.None? || c.None? {
      return None;
    }
    assert BandCorrected(o.value, diffLc, rawLc, Some('o'), jump1);
    assert BandCorrected(c.value, diffLc, rawLc, Some('c'), jump1);
    return Some(o.value + c.value);
  }
}
