# Correctlas stacking and jump correction, in Dafny

This project models the two computational cores of Correctlas, a toolkit for
ATLAS forced-photometry light curves:

- **Stacking** (`stacker.py`). Raw epochs whose error is at or above the
  first-order limit are dropped. The rest are split into the cyan (`c`) and
  orange (`o`) bands and binned. A cyan epoch goes to the bin of its nearest
  new moon. An orange epoch goes to `int(MJD)` when `stack == 1`, and
  otherwise to `stack * round(MJD / stack)`. `mean_func` reduces each bin to
  one stacked point:
  - the mean and median flux;
  - the mean reported error;
  - a nominal error that is the larger of half the interquartile range and
    that mean;
  - asymmetric lower and upper errors;
  - the date folded modulo 365.

  If the nominal error exceeds the band's limit, the bin is retried once
  without every sample tied at the largest `|uJy|` (which can be
  the most negative flux). Points whose error is not strictly below
  the band limit are then dropped, and the orange points are written before
  the cyan points.
- **Jump correction** (`correct_jump` in `correctlas.py`). The wallpaper
  (reference-image) changes cause flux jumps in a difference light curve.
  The first change is at MJD 58417 and the code cuts there. The second
  change is at MJD 58882, but the code cuts at 58892 (correctlas.py:33-35)
  so that no epoch is left behind; epochs with 58882 < MJD < 58892 are
  therefore still treated as segment 2. The corrector shifts the difference
  curve's segments so that the jumps in mean flux match those of the reduced
  light curve, taken over the same epochs.

Modules, one per file:

| file | module | content |
|---|---|---|
| `wrappers.dfy` | `Wrappers` | `Option`, `Result` |
| `numerics.dfy` | `Numerics` | Python's `round` (ties to even), `int` (truncation), `% 365` on reals |
| `light_curve.dfy` | `LightCurve` | the epoch record, row masks and order-preserving filtering |
| `statistics.dfy` | `Statistics` | sum, mean, sort, numpy's linear quantile, pandas' median |
| `binning.dfy` | `Binning` | bin keys, the group-by map and its ascending key order |
| `aggregation.dfy` | `Aggregation` | `mean_func` and its one-shot retry |
| `stacker.dfy` | `Stacker` | the non-I/O part of `stack_and_save` and its layout guarantees |
| `scenarios.dfy` | `Scenarios` | a worked orange bin with a bright outlier |
| `correct_las.dfy` | `CorrectLas` | `correct_jump` as a method with sequential segment updates |

Floats are modelled as exact `real`s. pandas' NaN is modelled with `Option`:
- an empty `mean_func` record is `None`;
- a NaN mean over an empty segment is `None`;
- a corrected curve with a NaN flux is `None`.

The stacking code is pure and is modelled by functions and lemmas.
`correct_jump` overwrites the flux column of segment 2 and then of segment 3,
in that order. It is modelled as a method that reassigns the segments in
sequence and is proved against the predicates `Corrected` and `NanWritten`.

Behaviours of the code that are easy to misread:
- The retry removes **every** sample tied at the largest `|uJy|`, not exactly
  one (stacker.py:89).
- The joined light curve holds the orange points first, then the cyan points
  (stacker.py:128).
- Bins are visited in ascending key order, which is pandas' sorted
  `groupby`. So within a band the points come out by strictly increasing
  date.

## Model

| member | source | states |
|---|---|---|
| `Numerics.RoundHalfEven` | stacker.py:58 | `round(x)` is an integer within one half of x, and is even when x lies exactly halfway |
| `Numerics.RoundHalfEvenUnique` | stacker.py:119 | any integer with those two properties is `round(x)`, so they define Python's rounding |
| `Numerics.Trunc` | stacker.py:56 | `int(x)` truncates toward zero: floor for x ≥ 0, ceiling for x < 0, never larger in magnitude |
| `Numerics.Mod365` | stacker.py:82 | `mjd % 365` lies in [0, 365) and differs from mjd by a whole number of periods |
| `Numerics.Mod365Unique` | stacker.py:82 | the only value with those properties is `mjd % 365` |
| `LightCurve.Filter` | stacker.py:100-104 | `rows[mask]` keeps exactly the rows satisfying the mask, drawn from the input, never more rows |
| `Statistics.Sort` | stacker.py:72 | the values numpy sorts before interpolating: sorted, a permutation of the input |
| `Statistics.SortedUnique` | stacker.py:72 | two sorted arrangements of one multiset are equal, so the sorted order is unique |
| `Statistics.QuantileIndex` | stacker.py:72 | the virtual index q·(n−1) lies within [0, n−1] |
| `Statistics.InterpMonotone` | stacker.py:72 | linear interpolation over sorted values is monotone in the index |
| `Statistics.QuartilesOrdered` | stacker.py:72-80 | q25 ≤ q50 ≤ q75 for every non-empty sample |
| `Statistics.MedianIsMiddleQuantile` | stacker.py:68-80 | pandas' median equals numpy's 0.5 quantile |
| `Statistics.HalfIqr` | stacker.py:72 | `0.5 * (q75 - q25)` is never negative |
| `Binning.NearestNewMoon` | stacker.py:53 | `argmin |date - nm|`: a valid index of minimal distance, strictly nearer than every earlier index (the first minimum) |
| `Binning.BinKey` | stacker.py:51-58 | cyan: the new moon at `argmin` (`NearestNewMoon`), so the first of the nearest; orange with stack 1: `int(date)` (`Trunc`), the whole day toward zero |
| `Binning.Members` | stacker.py:110-121 | the rows of one bin: exactly the rows whose key is k |
| `Binning.GroupByMembers` | stacker.py:110-121 | the group-by map holds exactly the non-empty bins, each with its members in input order |
| `Binning.SortedKeys` | stacker.py:110-121 | the keys in strictly ascending order, exactly those of non-empty bins |
| `Binning.Groups` | stacker.py:110-121 | the i-th group is the non-empty bin of the i-th ascending key |
| `Aggregation.BandOf` | stacker.py:52-61 | only `'c'` and `'o'` are valid filters, and each round-trips to its band's letter |
| `Aggregation.MaxAbsFlux` | stacker.py:89 | `np.max(np.abs(uJy))` bounds every sample's absolute flux |
| `Aggregation.MaxAbsFluxAttained` | stacker.py:89 | the maximum absolute flux is reached by some sample |
| `Aggregation.TrimDropsEveryMaximum` | stacker.py:89 | the retry's sample set is strictly smaller, holds only samples below the maximum, and keeps all of them |
| `Aggregation.Candidate` | stacker.py:50-85 | date = bin key of the first sample; mean and median flux; mean error; nominal error = max of half-IQR and mean error; symmetric errors in the mean branch; lower/upper = quartile distances, both ≥ 0 and summing to twice the error, in the other; phase in [0, 365) |
| `Aggregation.MeanFunc` | stacker.py:44-95 | ≤ 2 samples give the empty record; an invalid filter is an error exactly when > 2 samples; no retry unless error > limit and recursion is on; otherwise exactly one retry on the trimmed samples, empty if ≤ 2 remain |
| `Stacker.PostFilter` | stacker.py:124-125 | keeps exactly the present records whose error is strictly below the limit |
| `Stacker.PostFilterAppend` | stacker.py:124-125 | the post-filter of a concatenation is the post-filters of the parts joined, so records keep their order and multiplicity as under a boolean mask |
| `Stacker.PostFilterAscending` | stacker.py:124-125 | the post-filter keeps ascending dates ascending |
| `Stacker.MeanFuncDateIsBinKey` | stacker.py:51-58 | the date `mean_func` recomputes from a bin's first sample (also after the retry) is the bin's key |
| `Stacker.RecordAt` | stacker.py:110-121 | the i-th record is `mean_func` of the i-th bin and is dated by its key |
| `Stacker.StackBandAscending` | stacker.py:110-125 | within a band, points come out at strictly increasing dates (at most one per bin) |
| `Stacker.StackBandPointsAreBins` | stacker.py:110-125 | every output point passes the band limit, carries band and position, and is `mean_func` of the bin at its date |
| `Stacker.StackBandKeepsBins` | stacker.py:110-125 | every bin whose point passes the limit contributes that point |
| `Stacker.BandPointsPass` | stacker.py:124-125 | a band's points carry its letter, pass its limit and ascend in date |
| `Stacker.JoinLayout` | stacker.py:128 | `concat([o1, c1])`: orange before cyan, each point under its band's limit, dates ascending within a band |
| `Stacker.StackAndSaveLayout` | stacker.py:98-128 | the stacked curve: only orange points under the orange limit or cyan points under the cyan limit, orange first, ascending dates per band |
| `Stacker.PrefilterIgnoresHighError` | stacker.py:100 | inserting an epoch with `duJy ≥ error_lim` anywhere leaves the pre-filtered table unchanged |
| `Stacker.PrefilterDiscardsHighErrors` | stacker.py:98-128 | such an epoch never changes the stacked light curve |
| `Stacker.ErrorAtLimitNotRetriedButDropped` | stacker.py:87-90 | a point whose error equals the limit is not retried (`>`) but is dropped by the post-filter (`<`) |
| `Stacker.SmallBinDropped` | stacker.py:49-50 | a bin of ≤ 2 samples yields the empty record, which the post-filter never keeps |
| `Scenarios.QuartilesWithOutlier` | stacker.py:72 | fluxes 100, 102, 98, 500 have half-IQR 51 |
| `Scenarios.TrimDropsOutlier` | stacker.py:89 | the retry of that bin keeps the first three epochs |
| `Scenarios.OutlierRetried` | stacker.py:87-90 | with limit 50 the bin is retried without 500, giving flux 100 and error 5 |
| `CorrectLas.Sub` | correctlas.py:55-56 | a shift is defined exactly when both means are, and it is their difference |
| `CorrectLas.MeanShifted` | correctlas.py:65 | adding d to every flux adds d to the mean |
| `CorrectLas.MeanFluxShift` | correctlas.py:65-67 | shifting a non-empty segment's fluxes shifts its mean flux by the same amount |
| `CorrectLas.ShiftFluxIsUniform` | correctlas.py:65-67 | the flux shift moves every flux by one amount and leaves every other column alone |
| `CorrectLas.CorrectSegments` | correctlas.py:55-76 | on the cut segments: NaN exactly as `NanWritten` says; otherwise segment 1 unchanged, segments 2 and 3 uniformly shifted, segment 2 unchanged without `jump_1`, and each corrected jump in mean flux equal to the reduced curve's jump |
| `CorrectLas.CorrectJump` | correctlas.py:43-76 | the same, stated on the input curves after band, `duJy < 45` and date-match selection; every output row is of the band, has `duJy < 45` and is not dated at a wallpaper date |
| `CorrectLas.SegmentsPartition` | correctlas.py:58-61 | the three segments plus the epochs dated exactly at 58417 or 58892 account for every epoch |
| `CorrectLas.RawDatesAreDiffDates` | correctlas.py:47-53 | every reduced epoch used shares its date with a kept difference epoch; a non-empty reduced segment implies a non-empty difference segment |
| `CorrectLas.CorrectedEpochsSelected` | correctlas.py:44-61 | every row of a corrected curve has the chosen band, `duJy < 45` and a date other than 58417 and 58892 |
| `Stacker.StackAndSave` | stacker.py:98-128 | definition without its own contract: pre-filter, split by band, stack each band, post-filter, concatenate orange then cyan; its properties are the rows `Stacker.StackAndSaveLayout` and `Stacker.PrefilterDiscardsHighErrors` |
| `Stacker.StackBand` | stacker.py:110-125 | definition without its own contract: group one band's epochs by bin key, apply `mean_func` to each bin in key order, keep the points under the limit; its properties are the rows `Stacker.StackBandAscending`, `Stacker.StackBandPointsAreBins`, `Stacker.StackBandKeepsBins` and `Stacker.BandPointsPass` |
| `Stacker.Records` | stacker.py:110-121 | definition without its own contract: one `mean_func` record per group, in ascending key order; its property is the row `Stacker.RecordAt` |
| `Stacker.Prefilter` | stacker.py:100 | definition without its own contract: the `duJy < error_lim` mask (`LightCurve.Filter`); its property is the row `Stacker.PrefilterIgnoresHighError` |
| `Stacker.SplitBand` | stacker.py:103-104 | definition without its own contract: the `F == band` mask, whose kept rows `LightCurve.Filter` characterises |
| `Binning.GroupBy` | stacker.py:110-121 | definition without its own contract: the group-by map from bin key to the epochs of that bin in table order; its properties are the rows `Binning.GroupByMembers` and `Binning.Groups` |
| `Aggregation.Trim` | stacker.py:89 | definition without its own contract: drop every sample whose `|uJy|` equals the maximum; its property is the row `Aggregation.TrimDropsEveryMaximum` |
| `Statistics.Mean` | stacker.py:67-69 | definition without its own contract: the arithmetic mean of a non-empty column; its shift property is the row `CorrectLas.MeanShifted` |
| `Statistics.Median` | stacker.py:68 | definition without its own contract: pandas' median of a non-empty column; it equals the 0.5 quantile (row `Statistics.MedianIsMiddleQuantile`) |
| `Statistics.Quantile` | stacker.py:72 | definition without its own contract: numpy's linear quantile; its properties are the rows `Statistics.QuartilesOrdered`, `Statistics.InterpMonotone` and `Scenarios.QuartilesWithOutlier` |
| `CorrectLas.BandSelect` | correctlas.py:44-46 | definition without its own contract: the band mask when a band is given, the whole table otherwise |
| `CorrectLas.SelectDiff` | correctlas.py:44-47 | definition without its own contract: band selection followed by the `duJy < 45` mask; the row `CorrectLas.CorrectedEpochsSelected` states what it keeps |
| `CorrectLas.MatchRaw` | correctlas.py:48 | definition without its own contract: the reduced epochs dated at a kept difference epoch; its property is the row `CorrectLas.RawDatesAreDiffDates` |
| `CorrectLas.Before` | correctlas.py:50-61 | definition without its own contract: `MJD < 58417 - wp_buffer`; with `Between` and `After` covered by the row `CorrectLas.SegmentsPartition` |
| `CorrectLas.Between` | correctlas.py:50-61 | definition without its own contract: `58417 + wp_buffer < MJD < 58892 - wp_buffer`; covered by the row `CorrectLas.SegmentsPartition` |
| `CorrectLas.After` | correctlas.py:50-61 | definition without its own contract: `MJD > 58892 + wp_buffer`; covered by the row `CorrectLas.SegmentsPartition` |
| `CorrectLas.MeanFlux` | correctlas.py:50-63 | definition without its own contract: the mean `uJy` of a segment, NaN (`None`) when it is empty; its property is the row `CorrectLas.MeanFluxShift` |
| `CorrectLas.ShiftFlux` | correctlas.py:65-67 | definition whose own contract gives only the length: add one amount to every `uJy` of a segment; its properties are the rows `CorrectLas.ShiftFluxIsUniform` and `CorrectLas.MeanFluxShift` |
| `CorrectLas.CorrectBothBands` | correctlas.py:79-81 | the orange correction followed by the cyan correction, each one a corrected curve; NaN exactly when either band's correction writes NaN |

## Left out

- Command-line parsing, the module-level settings, directory checks, the batch loop, the `unread.txt` list, CSV and `.npy` reading and writing, and all plotting (stacker.py:8-41, 129-186; correctlas.py:1-32, 39-40, 86-96; plotter.py). These are I/O and orchestration. The limits, `stack`, the new-moon dates and `jump_1` are parameters.
- IEEE floating point: all arithmetic is exact `real` arithmetic, and NaN is modelled with `Option`.
- The other columns of an ATLAS light curve (`m`, `dm`, `err`, `chi/N`, `x`, `y`, …) are not represented. The row filters and `correct_jump` carry them unchanged; `mean_func` drops them, since a stacked point holds only its 11 fields (stacker.py:92-95).
- Failures the source does not handle are preconditions. An empty pre-filtered table fails at `iat[0]`. Cyan epochs with no new moons make `argmin` raise. `stack == 0` on orange epochs divides by zero.
- The "Invalid filter" branch of `mean_func` is modelled as a `Failure` result; `stack_and_save` never reaches it.
- Binning.BinKey: for orange with `stack != 1` the contract does not state that the key is a multiple of `stack` within `stack/2` of the date. This is nonlinear real arithmetic. The key is still the definition `stack * round(date / stack)`, with `Numerics.RoundHalfEven` fully specified.
- Statistics.QuartilesOrdered: monotonicity of the quantile is proved only at the levels 0.25, 0.5 and 0.75, which are the only ones the source uses.
- CorrectLas.CorrectJump: a result holding NaN is `None` as a whole. The model does not say which rows hold NaN; in the source these are all of segment 2 and/or all of segment 3.
- correctlas.py:83 (a commented-out call with no band filter) is covered by `flt = None`.
