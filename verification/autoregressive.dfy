/** `interpolate_autoregressive_conserve_mean`: the period values are
    expanded over their periods, then, once per sample, the series is
    smoothed circularly, each period's mean deficit is added back uniformly,
    and, when bounds are given, the series is clamped and each period
    rebalanced by its headroom ratio. */
module Autoregressive {
  import opened Outcome
  import opened Series
  import opened RunningTotals
  import opened Periods
  import opened Smoothing
  import opened BoundCorrection

  /** Which of the four branches runs: no bounds, a maximum only, a minimum
      only, or both (maximum correction first). */
  datatype Bounds =
    | Unbounded
    | Above(max: real)
    | Below(min: real)
    | Between(max: real, min: real)

  /** The branch chosen from the optional `max_val` and `min_val`. */
  function BoundsOf(maxVal: Option<real>, minVal: Option<real>): (b: Bounds)
    ensures b.Unbounded? <==> maxVal.None? && minVal.None?
    ensures (b.Above? || b.Between?) <==> maxVal.Some?
    ensures (b.Below? || b.Between?) <==> minVal.Some?
    ensures (b.Above? || b.Between?) ==> b.max == maxVal.value
    ensures (b.Below? || b.Between?) ==> b.min == minVal.value
  {
    match (maxVal, minVal)
    case (None, None) => Unbounded
    case (Some(m), Some(lo)) => Between(m, lo)
    case (Some(m), None) => Above(m)
    case (None, Some(lo)) => Below(lo)
  }

  /** `new_MN + np.repeat(new_mean, month_len)` where `new_mean` holds the
      period means of `MN - new_MN`: every sample of a period is shifted by
      the period's mean deficit against the targets `mn`. */
  function Restore(mn: seq<real>, s: seq<real>, lens: seq<nat>): (r: seq<real>)
    requires |mn| == |s| == Total(lens)
    ensures |r| == |s|
  {
    Add(s, Repeat(PeriodMeans(Sub(mn, s), lens), lens))
  }

  /** Restoring makes every period sum to the period sum of the targets,
      whatever the series it starts from. */
  lemma RestoreConserves(mn: seq<real>, s: seq<real>, lens: seq<nat>, k: nat)
    requires |mn| == |s| == Total(lens) && k < |lens|
    ensures PeriodSum(Restore(mn, s, lens), lens, k) == PeriodSum(mn, lens, k)
  {
    var d := Sub(mn, s);
    var means := PeriodMeans(d, lens);
    SegmentAdd(s, Repeat(means, lens), lens, k);
    PeriodOfRepeat(means, lens, k);
    var g := Segment(d, lens, k);
    assert means[k] == Mean(g);
    SumConstMean(g, means[k]);
    SegmentSub(mn, s, lens, k);
  }

  /** One pass of the loop body of the branch `b`. */
  function Step(mn: seq<real>, x: seq<real>, lens: seq<nat>, b: Bounds): (r: seq<real>)
    requires |mn| == |x| == Total(lens)
    ensures |r| == |x|
  {
    var restored := Restore(mn, Smooth(x), lens);
    match b
    case Unbounded => restored
    case Above(m) => MaxStep(mn, restored, m, lens)
    case Below(lo) => MinStep(mn, restored, lo, lens)
    case Between(m, lo) => MinStep(mn, MaxStep(mn, restored, m, lens), lo, lens)
  }

  /** The series after `count` passes, starting from the targets. */
  function Iterate(mn: seq<real>, lens: seq<nat>, b: Bounds, count: nat): (r: seq<real>)
    requires |mn| == Total(lens)
    ensures |r| == |mn|
  {
    if count == 0 then mn else Step(mn, Iterate(mn, lens, b, count - 1), lens, b)
  }

  /** The routine's result for matching inputs: `len(MN)` passes over
      `MN = np.repeat(y_points, month_len)`. */
  function Interpolation(y: seq<real>, lens: seq<nat>, b: Bounds): (r: seq<real>)
    requires |y| == |lens|
    ensures |r| == Total(lens)
  {
    var mn := Repeat(y, lens);
    Iterate(mn, lens, b, |mn|)
  }

  /** Without bounds every pass keeps each period's sum at that of the
      targets. */
  lemma UnboundedKeepsPeriodSums(mn: seq<real>, lens: seq<nat>, count: nat, k: nat)
    requires |mn| == Total(lens) && k < |lens|
    ensures PeriodSum(Iterate(mn, lens, Unbounded, count), lens, k) == PeriodSum(mn, lens, k)
  {
    if count > 0 {
      RestoreConserves(mn, Smooth(Iterate(mn, lens, Unbounded, count - 1)), lens, k);
    }
  }

  /** Hence, without bounds, every non-empty period of the series has mean
      `y[k]` after every pass, and in particular in the result. */
  lemma UnboundedKeepsMeans(y: seq<real>, lens: seq<nat>, count: nat, k: nat)
    requires |y| == |lens| && k < |lens| && lens[k] > 0
    ensures PeriodMean(Iterate(Repeat(y, lens), lens, Unbounded, count), lens, k) == y[k]
  {
    var mn := Repeat(y, lens);
    var x := Iterate(mn, lens, Unbounded, count);
    UnboundedKeepsPeriodSums(mn, lens, count, k);
    SegmentOfRepeat(y, lens, k);
    MeanOfEqualSum(Segment(x, lens, k), Segment(mn, lens, k));
    MeanConst(lens[k], y[k]);
  }

  lemma UnboundedInterpolationKeepsMeans(y: seq<real>, lens: seq<nat>, k: nat)
    requires |y| == |lens| && k < |lens| && lens[k] > 0
    ensures PeriodMean(Interpolation(y, lens, Unbounded), lens, k) == y[k]
  {
    UnboundedKeepsMeans(y, lens, Total(lens), k);
  }

  lemma RepeatBelow(y: seq<real>, lens: seq<nat>, m: real)
    requires |y| == |lens|
    requires forall k :: 0 <= k < |y| ==> y[k] <= m
    ensures forall j :: 0 <= j < Total(lens) ==> Repeat(y, lens)[j] <= m
  {
    forall j | 0 <= j < Total(lens) ensures Repeat(y, lens)[j] <= m {
      RepeatFrom(y, lens, j);
    }
  }

  lemma RepeatAbove(y: seq<real>, lens: seq<nat>, lo: real)
    requires |y| == |lens|
    requires forall k :: 0 <= k < |y| ==> y[k] >= lo
    ensures forall j :: 0 <= j < Total(lens) ==> Repeat(y, lens)[j] >= lo
  {
    forall j | 0 <= j < Total(lens) ensures Repeat(y, lens)[j] >= lo {
      RepeatFrom(y, lens, j);
    }
  }

  /** With a maximum only, and no period value above it, no sample exceeds
      the maximum after any pass. */
  lemma AboveBounded(y: seq<real>, lens: seq<nat>, m: real, count: nat)
    requires |y| == |lens|
    requires forall k :: 0 <= k < |y| ==> y[k] <= m
    ensures forall j :: 0 <= j < Total(lens) ==> Iterate(Repeat(y, lens), lens, Above(m), count)[j] <= m
  {
    var mn := Repeat(y, lens);
    RepeatBelow(y, lens, m);
    if count > 0 {
      var prev := Iterate(mn, lens, Above(m), count - 1);
      MaxStepBounded(mn, Restore(mn, Smooth(prev), lens), m, lens);
    }
  }

  /** With a minimum, alone or together with a maximum, and no period value
      below it, no sample falls below the minimum after any pass. */
  lemma BelowBounded(y: seq<real>, lens: seq<nat>, b: Bounds, count: nat)
    requires |y| == |lens| && (b.Below? || b.Between?)
    requires forall k :: 0 <= k < |y| ==> y[k] >= b.min
    ensures forall j :: 0 <= j < Total(lens) ==> Iterate(Repeat(y, lens), lens, b, count)[j] >= b.min
  {
    var mn := Repeat(y, lens);
    RepeatAbove(y, lens, b.min);
    if count > 0 {
      var prev := Iterate(mn, lens, b, count - 1);
      var restored := Restore(mn, Smooth(prev), lens);
      if b.Below? {
        MinStepBounded(mn, restored, b.min, lens);
      } else {
        MinStepBounded(mn, MaxStep(mn, restored, b.max, lens), b.min, lens);
      }
    }
  }

  /** The bounds of the branch `b` admit the value `v`. */
  predicate Admits(b: Bounds, v: real)
  {
    match b
    case Unbounded => true
    case Above(m) => v <= m
    case Below(lo) => lo <= v
    case Between(m, lo) => lo <= v <= m
  }

  /** Restoring a series against itself adds nothing. */
  lemma RestoreConst(n: nat, v: real)
    ensures Total([n]) == n
    ensures Restore(Const(n, v), Const(n, v), [n]) == Const(n, v)
  {
    var c := Const(n, v);
    assert [n][..0] == [];
    var z := Sub(c, c);
    assert z == Const(Total([n]), 0.0);
    PeriodMeanOfZeros([n], 0);
    assert PeriodMeans(z, [n]) == [0.0];
    assert [0.0][..0] == [];
    assert Repeat([0.0], [n]) == Const(n, 0.0);
  }

  /** A pass over a series that is constant at a value the bounds admit,
      against targets at that value, leaves every sample at the value:
      smoothing and restoring change nothing, no sample is clamped and no
      sample differs from its target. */
  lemma StepKeepsConst(n: nat, v: real, b: Bounds, x: seq<real>)
    requires Admits(b, v)
    requires |x| == n && forall j :: 0 <= j < n ==> x[j] == v
    ensures Total([n]) == n
    ensures forall j :: 0 <= j < n ==> Step(Const(n, v), x, [n], b)[j] == v
  {
    var c := Const(n, v);
    assert x == c;
    SmoothConst(n, v);
    RestoreConst(n, v);
    match b
    case Unbounded =>
    case Above(m) =>
      assert CapAbove(c, m) == c;
      assert MaxStep(c, c, m, [n]) == c;
    case Below(lo) =>
      assert CapBelow(c, lo) == c;
      assert MinStep(c, c, lo, [n]) == c;
    case Between(m, lo) =>
      assert CapAbove(c, m) == c;
      assert MaxStep(c, c, m, [n]) == c;
      assert CapBelow(c, lo) == c;
      assert MinStep(c, c, lo, [n]) == c;
  }

  /** Hence every pass keeps a single period's series constant at the
      period's value. */
  lemma {:induction false} IterateConst(n: nat, v: real, b: Bounds, count: nat)
    requires Admits(b, v)
    ensures Total([n]) == n
    ensures forall j :: 0 <= j < n ==> Iterate(Const(n, v), [n], b, count)[j] == v
  {
    assert [n][..0] == [];
    if count > 0 {
      var prev := Iterate(Const(n, v), [n], b, count - 1);
      IterateConst(n, v, b, count - 1);
      StepKeepsConst(n, v, b, prev);
    }
  }

  /** A single period comes out as a constant series at its value, in every
      branch whose bounds admit that value. */
  lemma SinglePeriod(v: real, n: nat, b: Bounds)
    requires Admits(b, v)
    ensures Interpolation([v], [n], b) == Const(n, v)
  {
    assert [n][..0] == [] && [v][..0] == [];
    assert Repeat([v], [n]) == Const(n, v);
    IterateConst(n, v, b, n);
  }

  // ------------------------------------------------------------ the routine

  /** `(np.roll(x, -1) + x + np.roll(x, 1))/3`, then `+ Cterm`, into a new
      array; the period means are taken over `np.split(diff, cumm_date)`. */
  method SmoothAndRestore(mn: seq<real>, x: seq<real>, lens: seq<nat>, cuts: seq<nat>)
    returns (a: array<real>)
    requires |mn| == |x| == Total(lens) && |lens| > 0 && cuts == Boundaries(lens)
    ensures fresh(a) && a[..] == Restore(mn, Smooth(x), lens)
  {
    var s := DivBy(Add(Add(Roll(x, -1), x), Roll(x, 1)), 3.0);
    var diff := Sub(mn, s);
    var newMean := GroupMeans(SplitAt(diff, cuts));
    MeansBySplit(diff, lens);
    var cterm := Repeat(newMean, lens);
    a := new real[|s|](j requires 0 <= j < |s| => s[j] + cterm[j]);
    assert a[..] == Add(s, cterm);
  }

  /** `a[a > m] = m`. */
  method ClampAbove(a: array<real>, m: real)
    modifies a
    ensures a[..] == CapAbove(old(a[..]), m)
  {
    for j := 0 to a.Length
      invariant forall i :: 0 <= i < j ==> a[i] == CapAbove(old(a[..]), m)[i]
      invariant forall i :: j <= i < a.Length ==> a[i] == old(a[i])
    {
      if a[j] > m {
        a[j] := m;
      }
    }
  }

  /** `a[a < lo] = lo`. */
  method ClampBelow(a: array<real>, lo: real)
    modifies a
    ensures a[..] == CapBelow(old(a[..]), lo)
  {
    for j := 0 to a.Length
      invariant forall i :: 0 <= i < j ==> a[i] == CapBelow(old(a[..]), lo)[i]
      invariant forall i :: j <= i < a.Length ==> a[i] == old(a[i])
    {
      if a[j] < lo {
        a[j] := lo;
      }
    }
  }

  /** `a[diff > 0] = m - fk[diff > 0]*(m - a[diff > 0])`, `diff = mn - a`. */
  method RaiseShortfalls(a: array<real>, mn: seq<real>, fk: seq<real>, m: real)
    requires a.Length == |mn| == |fk|
    modifies a
    ensures a[..] == RebalanceAbove(mn, old(a[..]), fk, m)
  {
    for j := 0 to a.Length
      invariant forall i :: 0 <= i < j ==> a[i] == RebalanceAbove(mn, old(a[..]), fk, m)[i]
      invariant forall i :: j <= i < a.Length ==> a[i] == old(a[i])
    {
      if mn[j] - a[j] > 0.0 {
        a[j] := m - fk[j] * (m - a[j]);
      }
    }
  }

  /** `a[diff < 0] = a[diff < 0] - fk2[diff < 0]*(a[diff < 0] - lo)`,
      `diff = mn - a`. */
  method LowerExcesses(a: array<real>, mn: seq<real>, fk: seq<real>, lo: real)
    requires a.Length == |mn| == |fk|
    modifies a
    ensures a[..] == RebalanceBelow(mn, old(a[..]), fk, lo)
  {
    for j := 0 to a.Length
      invariant forall i :: 0 <= i < j ==> a[i] == RebalanceBelow(mn, old(a[..]), fk, lo)[i]
      invariant forall i :: j <= i < a.Length ==> a[i] == old(a[i])
    {
      if mn[j] - a[j] < 0.0 {
        a[j] := a[j] - fk[j] * (a[j] - lo);
      }
    }
  }

  /** Element-wise `num / den`, guarded where `den` is zero. */
  function Ratios(num: seq<real>, den: seq<real>, fallback: real): (ls: seq<real>)
    requires |num| == |den|
    ensures |ls| == |num|
    ensures forall k :: 0 <= k < |num| && den[k] != 0.0 ==> ls[k] * den[k] == num[k]
    ensures forall k :: 0 <= k < |num| && den[k] == 0.0 ==> ls[k] == fallback
  {
    seq(|num|, k requires 0 <= k < |num| => SafeRatio(num[k], den[k], fallback))
  }

  /** The maximum correction of lines with `max_val`: clamp, the per-period
      sums `sum1` and `sum2`, the expanded ratios `fk`, the rebalance. */
  method CorrectAbove(a: array<real>, mn: seq<real>, lens: seq<nat>, cuts: seq<nat>, m: real)
    requires a.Length == |mn| == Total(lens) && |lens| > 0 && cuts == Boundaries(lens)
    modifies a
    ensures a[..] == MaxStep(mn, old(a[..]), m, lens)
  {
    ClampAbove(a, m);
    var c := a[..];
    var sum1 := GroupSums(SplitAt(Headroom(mn, m), cuts));
    var sum2 := GroupSums(SplitAt(Headroom(c, m), cuts));
    SumsBySplit(Headroom(mn, m), lens);
    SumsBySplit(Headroom(c, m), lens);
    var ls := Ratios(sum1, sum2, 1.0);
    assert ls == HeadroomRatios(mn, c, m, lens);
    var fk := Repeat(ls, lens);
    RaiseShortfalls(a, mn, fk, m);
  }

  /** The minimum correction of lines with `min_val`: clamp, the per-period
      sums `sum3` and `sum4`, the expanded ratios `fk2`, the rebalance. */
  method CorrectBelow(a: array<real>, mn: seq<real>, lens: seq<nat>, cuts: seq<nat>, lo: real)
    requires a.Length == |mn| == Total(lens) && |lens| > 0 && cuts == Boundaries(lens)
    modifies a
    ensures a[..] == MinStep(mn, old(a[..]), lo, lens)
  {
    ClampBelow(a, lo);
    var c := a[..];
    var sum3 := GroupSums(SplitAt(Sub(c, mn), cuts));
    var sum4 := GroupSums(SplitAt(Footroom(c, lo), cuts));
    SumsBySplit(Sub(c, mn), lens);
    SumsBySplit(Footroom(c, lo), lens);
    var ls2 := Ratios(sum3, sum4, 0.0);
    assert ls2 == FloorRatios(mn, c, lo, lens);
    var fk2 := Repeat(ls2, lens);
    LowerExcesses(a, mn, fk2, lo);
  }

  /** One pass of the loop body of branch `b`: smooth and restore into a new
      array, then the masked in-place corrections the branch applies. */
  method Pass(mn: seq<real>, x: seq<real>, lens: seq<nat>, cuts: seq<nat>, b: Bounds)
    returns (next: seq<real>)
    requires |mn| == |x| == Total(lens) && |lens| > 0 && cuts == Boundaries(lens)
    ensures next == Step(mn, x, lens, b)
  {
    var a := SmoothAndRestore(mn, x, lens, cuts);
    match b {
      case Unbounded =>
      case Above(m) =>
        CorrectAbove(a, mn, lens, cuts, m);
      case Below(lo) =>
        CorrectBelow(a, mn, lens, cuts, lo);
      case Between(m, lo) =>
        CorrectAbove(a, mn, lens, cuts, m);
        CorrectBelow(a, mn, lens, cuts, lo);
    }
    next := a[..];
  }

  /** `interpolate_autoregressive_conserve_mean(y_points, month_len,
      max_val, min_val)`. Mismatched lengths give no series. */
  method InterpolateAutoregressive(y: seq<real>, lens: seq<nat>, maxVal: Option<real>, minVal: Option<real>)
    returns (r: Result<seq<real>>)
    ensures |y| != |lens| ==> r == Failure(LengthMismatch)
    ensures |y| == |lens| ==> r == Success(Interpolation(y, lens, BoundsOf(maxVal, minVal)))
  {
    if |lens| != |y| {
      return Failure(LengthMismatch);
    }
    var mn := Repeat(y, lens);
    var newMN := mn;
    var totals := Accumulate(lens);
    var cuts := if |totals| == 0 then [] else totals[..|totals| - 1];
    if |lens| > 0 {
      BoundariesFromTotals(lens, totals);
    }
    var b := BoundsOf(maxVal, minVal);
    for i := 0 to |mn|
      invariant newMN == Iterate(mn, lens, b, i)
    {
      newMN := Pass(mn, newMN, lens, cuts, b);
    }
    return Success(newMN);
  }
}
