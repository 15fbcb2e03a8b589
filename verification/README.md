# Mean-preserving temporal interpolation

This project models the two interpolation routines of the package's Python
core. Each routine turns one value per period (for example a monthly mean)
and the length of each period in samples (for example days) into a sample
series whose period means follow the input values.

- `interpolate_autoregressive_conserve_mean`
  (`inst/python/interpolate_autoregression_conserve_mean.py`) expands every
  value over its period. It then runs as many passes as there are samples.
  Each pass does three things:
  - smooths the series with a circular three-point average;
  - adds each period's mean deficit back uniformly over the period;
  - when a maximum and/or a minimum is given, clamps the series and
    rebalances each period by a headroom ratio.
- `interpol_spline_cons_mean` (`inst/python/interpolate_spline_conserve_mean.py`)
  runs a loop of rounds. In each round it:
  - fits a spline through the period midpoints and evaluates it at every
    sample;
  - compares each period's mean of that contribution with the period's
    target;
  - feeds the residuals back as the next round's targets.

  It stops when `max(resid) < tol` or after `max_iter` rounds. The output is
  the sum of all contributions computed.
- `accumulate`, the running-total helper that both files define, gives the
  period boundaries.

Numbers are Dafny `real`s, so all arithmetic is exact. The spline library
(`splrep`/`splev`) is a parameter of type `Spline`: any function that returns
one value per evaluation position. Every property of the spline routine holds
for every such function.

Modules:

| module | what it holds |
|---|---|
| `Outcome` (`outcome.dfy`) | `Option`, `Result` and the error cases: mismatched lengths, and no periods for the spline routine |
| `Series` (`series.dfy`) | sums, means and element-wise arithmetic on series, with their algebra |
| `RunningTotals` (`running_totals.dfy`) | period boundaries and the `accumulate` loop |
| `Periods` (`periods.dfy`) | `np.repeat`, `np.split` at the boundaries, period sums and means |
| `Smoothing` (`smoothing.dfy`) | `np.roll` and the circular three-point average |
| `BoundCorrection` (`bound_correction.dfy`) | clamping and headroom rebalancing for a maximum or a minimum |
| `Autoregressive` (`autoregressive.dfy`) | the autoregressive routine |
| `BoundedExamples` (`bounded_examples.dfy`) | worked first passes of the bounded branches from a small input |
| `SplineConserveMean` (`spline.dfy`) | the spline residual routine |

The autoregressive routine is modelled in two layers:
- a specification: `Step`, `Iterate` and `Interpolation` give the series
  after each pass;
- an imperative layer: `InterpolateAutoregressive`, `Pass` and the array
  methods perform the masked in-place updates, and are proved equal to the
  specification.

The spline routine is modelled the same way:
- `Loop` gives the rounds, for any contribution and residual maps;
- `Correction` fills the rows in a loop that can `break`, and is proved equal
  to `Loop`.

## Model

| member | source | states |
|---|---|---|
| `RunningTotals.Accumulate` | inst/python/interpolate_autoregression_conserve_mean.py:162-169 | one total per length; the first total is the first length and each later one the previous total plus the next length; total `i` is the end boundary of period `i` and the last total is the sample count; an empty input gives no totals. The spline file's copy (lines 94-101) is the same code |
| `RunningTotals.StartMonotone` | inst/python/interpolate_autoregression_conserve_mean.py:93 | period boundaries never decrease with the period index |
| `RunningTotals.PeriodInside` | inst/python/interpolate_autoregression_conserve_mean.py:91-93 | every period ends inside the expanded series |
| `Series.Mean` | inst/python/interpolate_autoregression_conserve_mean.py:99 | `np.mean` of a group: the mean times the group size is the group's sum; an empty group (NaN in numpy) gives 0 |
| `Periods.Repeat` | inst/python/interpolate_autoregression_conserve_mean.py:91 | `np.repeat(y_points, month_len)` has `sum(month_len)` samples |
| `Periods.RepeatAt` | inst/python/interpolate_autoregression_conserve_mean.py:91 | sample `j` of period `k` of the expanded series is `y_points[k]` |
| `Periods.RepeatFrom` | inst/python/interpolate_autoregression_conserve_mean.py:91 | every sample of the expanded series is one of the period values |
| `Periods.SegmentOfRepeat` | inst/python/interpolate_autoregression_conserve_mean.py:91 | period `k` of the expanded series is `month_len[k]` copies of `y_points[k]` |
| `Periods.PeriodOfRepeat` | inst/python/interpolate_autoregression_conserve_mean.py:91 | period `k` of the expanded series sums to `month_len[k]` copies of `y_points[k]` and, when non-empty, has mean `y_points[k]` |
| `Periods.PeriodMeans` | inst/python/interpolate_autoregression_conserve_mean.py:99 | one mean per period, each the mean of that period's samples (`map(np.mean, ...)` over the split); `MeansBySplit` proves it equal to the split-and-map form |
| `Periods.SplitAt` | inst/python/interpolate_autoregression_conserve_mean.py:99 | `np.split` at ascending cut points within the series gives one group more than there are cuts; `SplitAtBoundaries` proves that, cut at `cumm_date`, group `k` is period `k` |
| `Periods.Boundaries` | inst/python/interpolate_autoregression_conserve_mean.py:93 | `cumm_date` has one boundary fewer than there are periods, is ascending and stays within the series |
| `Periods.BoundariesFromTotals` | inst/python/interpolate_autoregression_conserve_mean.py:93 | the running totals without the last one are exactly the period boundaries |
| `Periods.SplitAtBoundaries` | inst/python/interpolate_autoregression_conserve_mean.py:99 | `np.split` at `cumm_date` gives exactly one group per period, and group `k` is the `month_len[k]` samples of period `k` |
| `Periods.MeansBySplit` | inst/python/interpolate_autoregression_conserve_mean.py:99 | `map(np.mean, np.split(s, cumm_date))` is the list of period means |
| `Periods.SumsBySplit` | inst/python/interpolate_autoregression_conserve_mean.py:113-114 | `map(np.sum, np.split(s, cumm_date))` is the list of period sums |
| `Periods.GroupMeans` | inst/python/interpolate_spline_conserve_mean.py:86 | `map(np.mean, groups)`: one mean per group, each times its group's size giving that group's sum, and 0 for an empty group |
| `Periods.GroupSums` | inst/python/interpolate_autoregression_conserve_mean.py:113-114 | `map(np.sum, groups)`: one sum per group, each its group's size times its mean |
| `Periods.SplitRepeat` | inst/python/interpolate_autoregression_conserve_mean.py:91-93 | splitting the expanded series gives one group per period, group `k` being `month_len[k]` copies of `y_points[k]` |
| `Periods.SegmentAdd` | inst/python/interpolate_autoregression_conserve_mean.py:101 | taking a period commutes with element-wise addition, so period sums add up |
| `Periods.SegmentSub` | inst/python/interpolate_autoregression_conserve_mean.py:98 | taking a period commutes with element-wise subtraction, so period sums subtract |
| `Periods.PeriodMeanAdd` | inst/python/interpolate_spline_conserve_mean.py:92 | the period mean of an element-wise sum is the sum of the period means |
| `Periods.PeriodSumNonNegative` | inst/python/interpolate_autoregression_conserve_mean.py:113-114 | a period of a series with no negative sample has a non-negative sum, which is zero only when every sample of the period is zero |
| `Periods.PeriodMeanOfZeros` | inst/python/interpolate_spline_conserve_mean.py:77-78 | every period of the all-zero series has mean zero |
| `Smoothing.Roll` | inst/python/interpolate_autoregression_conserve_mean.py:97 | `np.roll(x, shift)`: a series of the same length whose sample `j` is sample `j - shift` of `x`, indices wrapping round; `RollLeft` and `RollRight` give the two shifts the routine uses |
| `Smoothing.Smooth` | inst/python/interpolate_autoregression_conserve_mean.py:97 | the circular three-point average, a series of the same length; `SmoothAt` gives each sample and `SmoothPreservesSum` the total |
| `Smoothing.RollLeft` | inst/python/interpolate_autoregression_conserve_mean.py:97 | `np.roll(x, -1)` moves the first sample to the back |
| `Smoothing.RollRight` | inst/python/interpolate_autoregression_conserve_mean.py:97 | `np.roll(x, 1)` moves the last sample to the front |
| `Smoothing.SumRoll` | inst/python/interpolate_autoregression_conserve_mean.py:97 | both rolls keep the total of the series |
| `Smoothing.SmoothAt` | inst/python/interpolate_autoregression_conserve_mean.py:97 | smoothed sample `j` is `(x[j+1] + x[j] + x[j-1]) / 3`, where the first and last samples are each other's neighbours |
| `Smoothing.SmoothPreservesSum` | inst/python/interpolate_autoregression_conserve_mean.py:97 | circular smoothing keeps the total of the series |
| `Smoothing.SmoothConst` | inst/python/interpolate_autoregression_conserve_mean.py:97 | a constant series is a fixed point of the smoothing |
| `BoundCorrection.SafeRatio` | inst/python/interpolate_autoregression_conserve_mean.py:115 | `a / b`: a quotient that times `b` gives back `a` whenever `b` is non-zero, and the fallback value where numpy would divide by zero |
| `BoundCorrection.Headroom` | inst/python/interpolate_autoregression_conserve_mean.py:113-114 | `max_val - x`: each sample plus its headroom is `max_val`, and the headroom is non-negative exactly when the sample is at or below `max_val` |
| `BoundCorrection.CapAbove` | inst/python/interpolate_autoregression_conserve_mean.py:111 | after `x[x > max_val] = max_val` no sample exceeds `max_val`, samples at or below it are unchanged, and every sample above it becomes exactly `max_val` |
| `BoundCorrection.HeadroomRatios` | inst/python/interpolate_autoregression_conserve_mean.py:113-115 | `ls = sum1 / sum2`: one ratio per period, the headroom the targets leave below `max_val` over the headroom the clamped series leaves; its sign is given by `HeadroomRatiosNonNegative` |
| `BoundCorrection.RebalanceAbove` | inst/python/interpolate_autoregression_conserve_mean.py:117 | the masked update `new_MN[diff > 0] = max_val - fk*(max_val - new_MN)`: whatever the ratios, samples at or above their target are unchanged, and a sample below its target keeps its headroom to `max_val` scaled by its ratio |
| `BoundCorrection.MaxStep` | inst/python/interpolate_autoregression_conserve_mean.py:111-117 | one maximum correction (clamp, ratios, expand, rebalance), same length; `MaxStepBounded` proves the bound and `BoundedExamples.MaxCorrected` works one through |
| `BoundCorrection.RebalanceAboveBounded` | inst/python/interpolate_autoregression_conserve_mean.py:117 | with non-negative ratios the rebalance keeps a clamped series at or below `max_val` |
| `BoundCorrection.HeadroomRatiosNonNegative` | inst/python/interpolate_autoregression_conserve_mean.py:113-115 | when no target and no clamped sample exceeds `max_val`, every `sum1 / sum2` ratio is non-negative |
| `BoundCorrection.MaxStepBounded` | inst/python/interpolate_autoregression_conserve_mean.py:111-117 | when no target exceeds `max_val`, a maximum correction leaves no sample above `max_val` |
| `BoundCorrection.ZeroHeadroomAtCeiling` | inst/python/interpolate_autoregression_conserve_mean.py:114-115 | a period whose `sum2` is zero sits entirely at `max_val` |
| `BoundCorrection.ZeroHeadroomKeepsPeriod` | inst/python/interpolate_autoregression_conserve_mean.py:115-117 | in a period whose `sum2` is zero, every sample stays at `max_val` whatever ratio is used, so the guarded division changes nothing there |
| `BoundCorrection.CapBelow` | inst/python/interpolate_autoregression_conserve_mean.py:119 | after `x[x < min_val] = min_val` no sample is below `min_val`, samples at or above it are unchanged, and every sample below it becomes exactly `min_val` |
| `BoundCorrection.Footroom` | inst/python/interpolate_autoregression_conserve_mean.py:122 | `x - min_val`: `min_val` plus each sample's footroom is the sample, and the footroom is non-negative exactly when the sample is at or above `min_val` |
| `BoundCorrection.FloorRatios` | inst/python/interpolate_autoregression_conserve_mean.py:121-123 | `ls2 = sum3 / sum4`: one ratio per period, the clamped series' excess over the targets over its room above `min_val`; `FloorRatiosAtMostOne` bounds it |
| `BoundCorrection.RebalanceBelow` | inst/python/interpolate_autoregression_conserve_mean.py:125 | the masked update `new_MN[diff < 0] -= fk2*(new_MN - min_val)`: whatever the ratios, samples at or below their target are unchanged, and a sample above its target keeps its room above `min_val` scaled by one less its ratio |
| `BoundCorrection.MinStep` | inst/python/interpolate_autoregression_conserve_mean.py:119-125 | one minimum correction (clamp, ratios, expand, rebalance), same length; `MinStepBounded` proves the bound and `BoundedExamples.MinCorrected` works one through |
| `BoundCorrection.RebalanceBelowBounded` | inst/python/interpolate_autoregression_conserve_mean.py:125 | with ratios at most one the rebalance keeps a clamped series at or above `min_val` |
| `BoundCorrection.ExcessWithinFootroom` | inst/python/interpolate_autoregression_conserve_mean.py:121-122 | when no target is below `min_val`, each period's `sum3` is at most its `sum4` |
| `BoundCorrection.FloorRatiosAtMostOne` | inst/python/interpolate_autoregression_conserve_mean.py:121-123 | when no target and no clamped sample is below `min_val`, every `sum3 / sum4` ratio is at most one |
| `BoundCorrection.MinStepBounded` | inst/python/interpolate_autoregression_conserve_mean.py:119-125 | when no target is below `min_val`, a minimum correction leaves no sample below `min_val` |
| `BoundCorrection.ZeroFootroomAtFloor` | inst/python/interpolate_autoregression_conserve_mean.py:122-123 | a period whose `sum4` is zero sits entirely at `min_val` |
| `BoundCorrection.ZeroFootroomKeepsPeriod` | inst/python/interpolate_autoregression_conserve_mean.py:123-125 | in a period whose `sum4` is zero, every sample stays at `min_val` whatever ratio is used |
| `Autoregressive.BoundsOf` | inst/python/interpolate_autoregression_conserve_mean.py:94-143 | the branch is selected by which of `max_val` and `min_val` are given (both directions of each test), and the branch carries their values |
| `Autoregressive.Restore` | inst/python/interpolate_autoregression_conserve_mean.py:98-101 | adding `Cterm`, the period means of `MN - new_MN` repeated over their periods, gives a series of the same length; `RestoreConserves` proves every period then sums as in `MN` |
| `Autoregressive.Step` | inst/python/interpolate_autoregression_conserve_mean.py:96-158 | one pass of the loop body of a branch: smooth, restore, then the branch's maximum and/or minimum correction (maximum first), same length |
| `Autoregressive.Iterate` | inst/python/interpolate_autoregression_conserve_mean.py:96-158 | the series after a number of passes from `MN`, same length; the `Unbounded*` and `*Bounded` lemmas state what every pass keeps |
| `Autoregressive.Interpolation` | inst/python/interpolate_autoregression_conserve_mean.py:91-158 | the routine's result, `len(MN)` passes from `np.repeat(y_points, month_len)`, with `sum(month_len)` samples |
| `Autoregressive.RestoreConserves` | inst/python/interpolate_autoregression_conserve_mean.py:98-101 | adding `Cterm` makes every period of any series sum to the period sum of `MN` |
| `Autoregressive.UnboundedKeepsPeriodSums` | inst/python/interpolate_autoregression_conserve_mean.py:96-101 | without bounds, after any number of passes every period sums to its sum in `MN` |
| `Autoregressive.UnboundedKeepsMeans` | inst/python/interpolate_autoregression_conserve_mean.py:91-101 | without bounds, after any number of passes every non-empty period has mean exactly `y_points[k]` |
| `Autoregressive.UnboundedInterpolationKeepsMeans` | inst/python/interpolate_autoregression_conserve_mean.py:94-101 | the unbounded branch's result has mean exactly `y_points[k]` over every non-empty period |
| `Autoregressive.RepeatBelow` | inst/python/interpolate_autoregression_conserve_mean.py:91 | when no period value exceeds a bound, no expanded sample exceeds it |
| `Autoregressive.RepeatAbove` | inst/python/interpolate_autoregression_conserve_mean.py:91 | when no period value is below a bound, no expanded sample is below it |
| `Autoregressive.AboveBounded` | inst/python/interpolate_autoregression_conserve_mean.py:126-141 | with a maximum only, and no period value above it, no sample exceeds the maximum after any number of passes |
| `Autoregressive.BelowBounded` | inst/python/interpolate_autoregression_conserve_mean.py:102-125 | with a minimum, alone or with a maximum, and no period value below it, no sample falls below the minimum after any number of passes |
| `Autoregressive.RestoreConst` | inst/python/interpolate_autoregression_conserve_mean.py:98-101 | restoring a constant series against itself as targets adds nothing |
| `Autoregressive.StepKeepsConst` | inst/python/interpolate_autoregression_conserve_mean.py:96-158 | a pass over a series constant at a value the branch's bounds admit, against targets at that value, leaves every sample at that value |
| `Autoregressive.IterateConst` | inst/python/interpolate_autoregression_conserve_mean.py:96-158 | for a single period whose value the bounds admit, every pass keeps every sample at that value |
| `Autoregressive.SinglePeriod` | inst/python/interpolate_autoregression_conserve_mean.py:91-158 | a single period comes out as a constant series at its value, in every branch whose bounds admit the value |
| `Autoregressive.SmoothAndRestore` | inst/python/interpolate_autoregression_conserve_mean.py:97-101 | the smoothed, mean-restored series, computed into a fresh array, is `Restore(MN, Smooth(x))` |
| `Autoregressive.ClampAbove` | inst/python/interpolate_autoregression_conserve_mean.py:111 | the in-place clamp leaves the array equal to `CapAbove` of its old contents |
| `Autoregressive.ClampBelow` | inst/python/interpolate_autoregression_conserve_mean.py:119 | the in-place clamp leaves the array equal to `CapBelow` of its old contents |
| `Autoregressive.RaiseShortfalls` | inst/python/interpolate_autoregression_conserve_mean.py:117 | the masked in-place update leaves the array equal to `RebalanceAbove` of its old contents |
| `Autoregressive.LowerExcesses` | inst/python/interpolate_autoregression_conserve_mean.py:125 | the masked in-place update leaves the array equal to `RebalanceBelow` of its old contents |
| `Autoregressive.CorrectAbove` | inst/python/interpolate_autoregression_conserve_mean.py:135-141 | clamp, `sum1`, `sum2`, `fk` and rebalance leave the array equal to `MaxStep` of its old contents |
| `Autoregressive.CorrectBelow` | inst/python/interpolate_autoregression_conserve_mean.py:151-157 | clamp, `sum3`, `sum4`, `fk2` and rebalance leave the array equal to `MinStep` of its old contents |
| `Autoregressive.Ratios` | inst/python/interpolate_autoregression_conserve_mean.py:115 | element-wise `sum1/sum2` (and `sum3/sum4` at line 123): one ratio per period, which times a non-zero denominator gives back the numerator; a zero denominator gives the fallback |
| `Autoregressive.Pass` | inst/python/interpolate_autoregression_conserve_mean.py:104-125 | one loop body of the chosen branch computes `Step` of the current series |
| `Autoregressive.InterpolateAutoregressive` | inst/python/interpolate_autoregression_conserve_mean.py:87-158 | mismatched lengths give no series; otherwise the result is the series after `len(MN)` passes of the chosen branch, which has `sum(month_len)` samples |
| `BoundedExamples.Smoothed` | inst/python/interpolate_autoregression_conserve_mean.py:105 | first pass of the example (periods of 1, 1 and 3 samples with values 0, 4 and 7, so `MN` is 0, 4, 7, 7, 7): the circular average is 11/3, 11/3, 6, 7, 14/3 |
| `BoundedExamples.Restored` | inst/python/interpolate_autoregression_conserve_mean.py:106-109 | adding back each period's mean deficit gives 0, 4, 64/9, 73/9, 52/9 |
| `BoundedExamples.MaxCorrected` | inst/python/interpolate_autoregression_conserve_mean.py:111-117 | with maximum 8 the last period's ratio is 27/28 and the maximum correction gives 0, 4, 64/9, 8, 41/7 |
| `BoundedExamples.MinCorrected` | inst/python/interpolate_autoregression_conserve_mean.py:119-125 | the minimum correction that follows, minimum 0, has ratio -2/1321 in the last period and raises the fourth sample to 8 + 16/1321 |
| `BoundedExamples.MaxPassShiftsMean` | inst/python/interpolate_autoregression_conserve_mean.py:126-141 | with a maximum only, the first pass from `MN` leaves the last period summing to 1321/63 against the targets' 21: a bounded pass need not keep the period means |
| `BoundedExamples.BothBoundsPassExceedsMax` | inst/python/interpolate_autoregression_conserve_mean.py:102-125 | with both bounds and every value between them, the first pass from `MN` leaves a sample above the maximum |
| `BoundedExamples.OverMaxPass` | inst/python/interpolate_autoregression_conserve_mean.py:126-141 | with targets -100 and 30 over periods of 1 and 3 samples and maximum 25, the second period's ratio is -27/34 and the first pass gives -100, 65/2, 25, 65/2 |
| `BoundedExamples.OverMaxTargetBreaksBound` | inst/python/interpolate_autoregression_conserve_mean.py:126-141 | with a target above the maximum, the first pass leaves a sample above the maximum |
| `SplineConserveMean.Midpoints` | inst/python/interpolate_spline_conserve_mean.py:68 | `x_points`: one midpoint per period, its end boundary plus one less half of its length plus one; `MidpointCentred` says where it lies |
| `SplineConserveMean.Positions` | inst/python/interpolate_spline_conserve_mean.py:75 | `range(1, cumm_date[-1] + 1)`: `n` positions, position `j` being `j + 1` |
| `SplineConserveMean.MidpointCentred` | inst/python/interpolate_spline_conserve_mean.py:68-75 | the midpoint of a non-empty period is halfway between its first and last sample positions |
| `SplineConserveMean.MidpointInPeriod` | inst/python/interpolate_spline_conserve_mean.py:68 | the midpoint lies after the start of its period and at or before its end |
| `SplineConserveMean.MidpointsIncrease` | inst/python/interpolate_spline_conserve_mean.py:68 | with positive period lengths the midpoints strictly increase |
| `SplineConserveMean.Residual` | inst/python/interpolate_spline_conserve_mean.py:86-87 | `y_points_mat[i,:] - new_mean`: one residual per period, the target less the contribution's mean over the period; `SplineRound` uses it to link contributions to residuals |
| `SplineConserveMean.MaxOf` | inst/python/interpolate_spline_conserve_mean.py:88 | Python's `max` returns an element of the residuals that is at least every element |
| `SplineConserveMean.MaxBelow` | inst/python/interpolate_spline_conserve_mean.py:88 | `max(resid) < tol` holds exactly when every residual is below `tol` |
| `SplineConserveMean.Loop` | inst/python/interpolate_spline_conserve_mean.py:81-91 | the loop runs at most `max_iter` rounds, and fewer only when it stopped on the tolerance (at the first passing round, see `FirstPassingRound`); after stopping, every final residual is below `tol`; row 0 of the target matrix is the input, and there is one more target row than contributions unless the loop stopped |
| `SplineConserveMean.FirstPassingRound` | inst/python/interpolate_spline_conserve_mean.py:81-91 | the loop stops at the first round that passes `max(resid) < tol`: every earlier round, and the last one too when the loop did not converge, left a residual at or above `tol` |
| `SplineConserveMean.RowAt` | inst/python/interpolate_spline_conserve_mean.py:83-91 | contribution `i` is fitted through target row `i`, and target row `i + 1` is the residual of round `i` |
| `SplineConserveMean.FinalIsLastResidual` | inst/python/interpolate_spline_conserve_mean.py:86-91 | the final residual is that of the last round, or the input when no round ran |
| `SplineConserveMean.RowLengths` | inst/python/interpolate_spline_conserve_mean.py:77-87 | every contribution has one value per sample, and every target row one value per period |
| `SplineConserveMean.ColumnSum` | inst/python/interpolate_spline_conserve_mean.py:92 | `np.nansum(y_points_interp_mat, axis = 0)` over the filled rows: one element-wise sum of `n` values, all zero when no row was filled |
| `SplineConserveMean.Telescoping` | inst/python/interpolate_spline_conserve_mean.py:86-92 | for any round that removes a contribution's period means from the targets, the summed contributions have, over each period, the input target less the final residual |
| `SplineConserveMean.SplineRound` | inst/python/interpolate_spline_conserve_mean.py:83-87 | each spline round's contribution has one value per sample, and its period means are the target row less the residual row |
| `SplineConserveMean.Contribution` | inst/python/interpolate_spline_conserve_mean.py:83-85 | `splev(x_resampled_points, splrep(x_points, row))` as a function of the row: every row gives one value per sample |
| `SplineConserveMean.Residuals` | inst/python/interpolate_spline_conserve_mean.py:86-87 | the residual row as a function of the target row: a row with one value per period gives one per period, and target minus residual is the period mean of that row's contribution |
| `SplineConserveMean.Rounds` | inst/python/interpolate_spline_conserve_mean.py:81-91 | the spline loop from `y_points`: at most `max_iter` rounds, all of them unless it converged, each contributing one value per sample, and a final residual per period that is all below `tol` on convergence |
| `SplineConserveMean.SplineOutput` | inst/python/interpolate_spline_conserve_mean.py:75-92 | the output has `cumm_date[-1] = sum(month_len)` samples |
| `SplineConserveMean.OutputMeans` | inst/python/interpolate_spline_conserve_mean.py:61-92 | for every spline, the output's mean over each period is `y_points[k]` less the final residual; when the loop stopped on the tolerance, `y_points[k]` exceeds that mean by less than `tol` |
| `SplineConserveMean.ConvergedFarFromTarget` | inst/python/interpolate_spline_conserve_mean.py:88-90 | the test uses signed residuals: a fit of 100 everywhere, against a single period with target 0, stops the loop at once with the output's mean 100 above the target |
| `SplineConserveMean.Round` | inst/python/interpolate_spline_conserve_mean.py:83-88 | one loop body computes the round's contribution, its residual row and the stopping test `max(resid) < tol` |
| `SplineConserveMean.Grid` | inst/python/interpolate_spline_conserve_mean.py:68-80 | `x_points`, the positions `1 .. cumm_date[-1]` and `cumm_date[:-1]` are the midpoints, the sample positions and the period boundaries |
| `SplineConserveMean.Correction` | inst/python/interpolate_spline_conserve_mean.py:81-91 | the loop with its early `break` yields exactly the contributions of the rounds `Loop` runs |
| `SplineConserveMean.InterpolateSpline` | inst/python/interpolate_spline_conserve_mean.py:64-92 | mismatched lengths give no series; no periods give the failure of `cumm_date[-1]`; otherwise the result is the column sum of the contributions computed |

## Left out

- Warnings and `print` diagnostics are left out. The routines return `None`
  after the length-mismatch warning; the model returns `Failure(LengthMismatch)`.
- Floating point is left out. Numbers are exact reals, so rounding, NaN and
  infinities do not exist in the model.
- An empty period has mean 0.0 in the model, where numpy gives NaN. In the
  autoregressive routine such a mean is repeated zero times, so it never
  reaches the output. In the spline routine the NaN would spread into the
  residuals and the stopping test.
- The headroom ratios `sum1 / sum2` and `sum3 / sum4` are guarded. A zero
  denominator gives the ratio 1 (maximum side) or 0 (minimum side), where
  numpy gives inf or NaN. `ZeroHeadroomKeepsPeriod` and
  `ZeroFootroomKeepsPeriod` show that any finite ratio leaves such a period
  unchanged. numpy's inf times zero would instead write NaN into the masked
  samples of that period; this needs a target beyond the bound.
- Empty input follows the files' `python2` shebang. There, `next(it)` on an
  empty iterator silently ends the `accumulate` generator, so the totals are
  empty:
  - the autoregressive routine then returns an empty series;
  - the spline routine fails at `cumm_date[-1]` (`Failure(EmptyInput)`).
- `SplineConserveMean.Midpoints` uses real division for `(month_len + 1)/2`.
  Under Python 2, an integer `month_len` array floor-divides. Likewise an
  integer `y_points` array makes the first smoothing pass floor-divide by 3.
  The model takes all values as reals.
- `month_len` is a `seq<nat>`: the model takes it as a numpy array of
  non-negative integers and has no path for other values. The source raises
  on some of them:
  - a Python list, which the docstring at line 50 of the spline file
    accepts, makes `month_len + 1` at line 68 of that file raise `TypeError`;
  - a negative length makes `np.repeat` at line 91 of the autoregressive
    file raise, and a float-typed array is refused there too (its docstring,
    line 61, restricts `month_len` to integers);
  - in the spline file float lengths are not refused: `cumm_date` truncates
    their running totals with `.astype(int)` at line 74, while the midpoints
    at line 68 keep the fractions.
- The spline library is left out: `splrep`/`splev` are the `Spline` parameter.
  `splrep` also rejects inputs the model accepts: fewer points than its
  degree needs, or midpoints that do not strictly increase (which
  `MidpointsIncrease` shows cannot happen when every period is non-empty).
- The matrices `y_points_mat` and `y_points_interp_mat` are modelled as
  sequences of filled rows. The NaN rows that `np.nansum` skips are the rows
  the sequences do not hold.
- `max_iter` is a `nat`. A negative `max_iter` makes the source raise: with
  -1 the target matrix has no rows, so writing row 0 (line 72 of the spline
  file) fails, and a smaller value already fails when that matrix is
  allocated (line 69).
- Each of the four branches of the autoregressive routine repeats the same
  loop. The model has one loop whose body matches on the `Bounds` value.
- `Autoregressive.AboveBounded` assumes that no period value lies above the
  maximum. The routine accepts such values. Its bound can then break:
  `BoundedExamples.OverMaxTargetBreaksBound` shows a sample above the
  maximum after the first pass.
- `Autoregressive.BelowBounded` assumes that no period value lies below the
  minimum, which the routine does not check. In the branch with both bounds
  only the minimum is proved to hold. The maximum is not:
  `BoundedExamples.BothBoundsPassExceedsMax` shows the minimum correction
  pushing a sample back above it in the first pass.
- `BoundCorrection.MaxStepBounded` assumes that no target lies above the
  maximum. Without that, a ratio can be negative and the rebalance can lift
  a sample above the maximum (`BoundedExamples.OverMaxPass`). It is also not
  proved to conserve period means, because the source does not conserve them:
  the rebalance rescales only the masked samples
  (`BoundedExamples.MaxPassShiftsMean`).
- `BoundCorrection.MinStepBounded` assumes that no target lies below the
  minimum. Without that, a ratio can exceed one and the rebalance can push a
  sample below the minimum. Like the maximum side, it does not conserve
  period means.
