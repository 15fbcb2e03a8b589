/** Clamping to a maximum or a minimum and rebalancing each period with a
    headroom ratio, the masked in-place updates of the bounded branches of the
    autoregressive routine. `mn` is the expanded target series `MN`, `c` the
    clamped current series. */
module BoundCorrection {
  import opened Series
  import opened RunningTotals
  import opened Periods

  // ------------------------------------------------------------ upper bound

  /** `x[x > m] = m`. */
  function CapAbove(x: seq<real>, m: real): (r: seq<real>)
    ensures |r| == |x|
    ensures forall j :: 0 <= j < |x| ==> r[j] <= m && (x[j] <= m ==> r[j] == x[j])
    ensures forall j :: 0 <= j < |x| && x[j] > m ==> r[j] == m
  {
    seq(|x|, j requires 0 <= j < |x| => if x[j] > m then m else x[j])
  }

  /** `max_val - x`. */
  function Headroom(x: seq<real>, m: real): (r: seq<real>)
    ensures |r| == |x|
    ensures forall j :: 0 <= j < |x| ==> x[j] + r[j] == m
    ensures forall j :: 0 <= j < |x| ==> (x[j] <= m <==> r[j] >= 0.0)
  {
    Sub(Const(|x|, m), x)
  }

  /** `a / b`, with `fallback` where `b` is zero (numpy would give inf or
      NaN there). */
  function SafeRatio(a: real, b: real, fallback: real): (q: real)
    ensures b != 0.0 ==> q * b == a
    ensures b == 0.0 ==> q == fallback
  {
    if b == 0.0 then fallback else a / b
  }

  lemma HeadroomAt(x: seq<real>, m: real)
    ensures forall j :: 0 <= j < |x| ==> Headroom(x, m)[j] == m - x[j]
  {
  }

  /** `sum1 / sum2` per period: the headroom the targets leave below `m`
      over the headroom the clamped series leaves. */
  function HeadroomRatios(mn: seq<real>, c: seq<real>, m: real, lens: seq<nat>): (ls: seq<real>)
    requires |mn| == |c| == Total(lens)
    ensures |ls| == |lens|
  {
    seq(|lens|, k requires 0 <= k < |lens| =>
      SafeRatio(PeriodSum(Headroom(mn, m), lens, k), PeriodSum(Headroom(c, m), lens, k), 1.0))
  }

  /** `c[diff > 0] = m - fk[diff > 0] * (m - c[diff > 0])` with
      `diff = mn - c`: samples that fell short of their target get their
      headroom scaled by the period's ratio. */
  function RebalanceAbove(mn: seq<real>, c: seq<real>, fk: seq<real>, m: real): (r: seq<real>)
    requires |mn| == |c| == |fk|
    ensures |r| == |c|
    ensures forall j :: 0 <= j < |c| && mn[j] <= c[j] ==> r[j] == c[j]
    ensures forall j :: 0 <= j < |c| && mn[j] > c[j] ==> m - r[j] == fk[j] * (m - c[j])
  {
    seq(|c|, j requires 0 <= j < |c| =>
      if mn[j] - c[j] > 0.0 then m - fk[j] * (m - c[j]) else c[j])
  }

  /** One maximum correction: clamp, then rebalance. */
  function MaxStep(mn: seq<real>, x: seq<real>, m: real, lens: seq<nat>): (r: seq<real>)
    requires |mn| == |x| == Total(lens)
    ensures |r| == |x|
  {
    var c := CapAbove(x, m);
    RebalanceAbove(mn, c, Repeat(HeadroomRatios(mn, c, m, lens), lens), m)
  }

  lemma ShrinkTowardCeiling(c: real, f: real, m: real, r: real)
    requires c <= m && f >= 0.0 && m - r == f * (m - c)
    ensures r <= m
  {
  }

  /** One sample of `RebalanceAboveBounded`. */
  lemma RebalanceAboveAt(mn: seq<real>, c: seq<real>, fk: seq<real>, m: real, j: nat)
    requires |mn| == |c| == |fk| && j < |c|
    requires c[j] <= m && fk[j] >= 0.0
    ensures RebalanceAbove(mn, c, fk, m)[j] <= m
  {
    var r := RebalanceAbove(mn, c, fk, m);
    if mn[j] > c[j] {
      ShrinkTowardCeiling(c[j], fk[j], m, r[j]);
    }
  }

  /** With non-negative ratios a rebalance keeps a clamped series at or below
      `m` (whatever the ratios, it changes only samples below their target,
      as `RebalanceAbove` states). */
  lemma RebalanceAboveBounded(mn: seq<real>, c: seq<real>, fk: seq<real>, m: real)
    requires |mn| == |c| == |fk|
    requires forall j :: 0 <= j < |c| ==> c[j] <= m
    requires forall j :: 0 <= j < |fk| ==> fk[j] >= 0.0
    ensures forall j :: 0 <= j < |c| ==> RebalanceAbove(mn, c, fk, m)[j] <= m
  {
    forall j | 0 <= j < |c| ensures RebalanceAbove(mn, c, fk, m)[j] <= m {
      RebalanceAboveAt(mn, c, fk, m, j);
    }
  }

  lemma RatioNonNegative(a: real, b: real)
    requires 0.0 <= a && 0.0 < b
    ensures a / b >= 0.0
  {
  }

  /** Targets at or below `m` give every period a non-negative ratio. */
  lemma HeadroomRatiosNonNegative(mn: seq<real>, c: seq<real>, m: real, lens: seq<nat>)
    requires |mn| == |c| == Total(lens)
    requires forall j :: 0 <= j < |mn| ==> mn[j] <= m
    requires forall j :: 0 <= j < |c| ==> c[j] <= m
    ensures forall k :: 0 <= k < |lens| ==> HeadroomRatios(mn, c, m, lens)[k] >= 0.0
  {
    var hm, hc := Headroom(mn, m), Headroom(c, m);
    HeadroomAt(mn, m);
    HeadroomAt(c, m);
    assert forall j :: 0 <= j < |hm| ==> hm[j] >= 0.0;
    assert forall j :: 0 <= j < |hc| ==> hc[j] >= 0.0;
    forall k | 0 <= k < |lens| ensures HeadroomRatios(mn, c, m, lens)[k] >= 0.0 {
      var a, b := PeriodSum(hm, lens, k), PeriodSum(hc, lens, k);
      PeriodSumNonNegative(hm, lens, k);
      PeriodSumNonNegative(hc, lens, k);
      if b != 0.0 {
        RatioNonNegative(a, b);
      }
    }
  }

  /** A maximum correction leaves no sample above `m`, provided no target
      lies above it. */
  lemma MaxStepBounded(mn: seq<real>, x: seq<real>, m: real, lens: seq<nat>)
    requires |mn| == |x| == Total(lens)
    requires forall j :: 0 <= j < |mn| ==> mn[j] <= m
    ensures forall j :: 0 <= j < |x| ==> MaxStep(mn, x, m, lens)[j] <= m
  {
    var c := CapAbove(x, m);
    var ls := HeadroomRatios(mn, c, m, lens);
    var fk := Repeat(ls, lens);
    HeadroomRatiosNonNegative(mn, c, m, lens);
    forall j | 0 <= j < |fk| ensures fk[j] >= 0.0 {
      RepeatFrom(ls, lens, j);
    }
    RebalanceAboveBounded(mn, c, fk, m);
  }

  /** A period whose clamped samples leave no headroom sits entirely at `m`. */
  lemma ZeroHeadroomAtCeiling(c: seq<real>, m: real, lens: seq<nat>, k: nat)
    requires |c| == Total(lens) && k < |lens|
    requires forall j :: 0 <= j < |c| ==> c[j] <= m
    requires PeriodSum(Headroom(c, m), lens, k) == 0.0
    ensures Start(lens, k) + lens[k] <= |c|
    ensures forall i :: Start(lens, k) <= i < Start(lens, k) + lens[k] ==> c[i] == m
  {
    var h := Headroom(c, m);
    HeadroomAt(c, m);
    assert forall j :: 0 <= j < |h| ==> h[j] >= 0.0;
    PeriodSumNonNegative(h, lens, k);
  }

  /** Where a whole period sits at `m`, the ratio of that period divides by
      zero; every sample of the period keeps its value whatever ratio is used,
      so the guard in `SafeRatio` changes nothing. */
  lemma ZeroHeadroomKeepsPeriod(mn: seq<real>, c: seq<real>, fk: seq<real>, m: real, lens: seq<nat>, k: nat)
    requires |mn| == |c| == |fk| == Total(lens) && k < |lens|
    requires forall j :: 0 <= j < |c| ==> c[j] <= m
    requires PeriodSum(Headroom(c, m), lens, k) == 0.0
    ensures Start(lens, k) + lens[k] <= |c|
    ensures forall i :: Start(lens, k) <= i < Start(lens, k) + lens[k] ==>
      RebalanceAbove(mn, c, fk, m)[i] == m
  {
    ZeroHeadroomAtCeiling(c, m, lens, k);
    forall i | Start(lens, k) <= i < Start(lens, k) + lens[k]
      ensures RebalanceAbove(mn, c, fk, m)[i] == m
    {
      if mn[i] > c[i] {
        ZeroTimes(fk[i], m - c[i]);
      }
    }
  }

  lemma ZeroTimes(f: real, d: real)
    requires d == 0.0
    ensures f * d == 0.0
  {
  }

  // ------------------------------------------------------------ lower bound

  /** `x[x < lo] = lo`. */
  function CapBelow(x: seq<real>, lo: real): (r: seq<real>)
    ensures |r| == |x|
    ensures forall j :: 0 <= j < |x| ==> r[j] >= lo && (x[j] >= lo ==> r[j] == x[j])
    ensures forall j :: 0 <= j < |x| && x[j] < lo ==> r[j] == lo
  {
    seq(|x|, j requires 0 <= j < |x| => if x[j] < lo then lo else x[j])
  }

  /** `x - min_val`. */
  function Footroom(x: seq<real>, lo: real): (r: seq<real>)
    ensures |r| == |x|
    ensures forall j :: 0 <= j < |x| ==> lo + r[j] == x[j]
    ensures forall j :: 0 <= j < |x| ==> (lo <= x[j] <==> r[j] >= 0.0)
  {
    Sub(x, Const(|x|, lo))
  }

  lemma FootroomAt(x: seq<real>, lo: real)
    ensures forall j :: 0 <= j < |x| ==> Footroom(x, lo)[j] == x[j] - lo
  {
  }

  /** `sum3 / sum4` per period: the excess of the clamped series over the
      targets, over the room the clamped series leaves above `lo`. */
  function FloorRatios(mn: seq<real>, c: seq<real>, lo: real, lens: seq<nat>): (ls: seq<real>)
    requires |mn| == |c| == Total(lens)
    ensures |ls| == |lens|
  {
    seq(|lens|, k requires 0 <= k < |lens| =>
      SafeRatio(PeriodSum(Sub(c, mn), lens, k), PeriodSum(Footroom(c, lo), lens, k), 0.0))
  }

  /** `c[diff < 0] = c[diff < 0] - fk2[diff < 0] * (c[diff < 0] - lo)` with
      `diff = mn - c`: samples above their target are pulled toward `lo` by
      the period's ratio. */
  function RebalanceBelow(mn: seq<real>, c: seq<real>, fk: seq<real>, lo: real): (r: seq<real>)
    requires |mn| == |c| == |fk|
    ensures |r| == |c|
    ensures forall j :: 0 <= j < |c| && mn[j] >= c[j] ==> r[j] == c[j]
    ensures forall j :: 0 <= j < |c| && mn[j] < c[j] ==> r[j] - lo == (1.0 - fk[j]) * (c[j] - lo)
  {
    seq(|c|, j requires 0 <= j < |c| =>
      if mn[j] - c[j] < 0.0 then c[j] - fk[j] * (c[j] - lo) else c[j])
  }

  /** One minimum correction: clamp, then rebalance. */
  function MinStep(mn: seq<real>, x: seq<real>, lo: real, lens: seq<nat>): (r: seq<real>)
    requires |mn| == |x| == Total(lens)
    ensures |r| == |x|
  {
    var c := CapBelow(x, lo);
    RebalanceBelow(mn, c, Repeat(FloorRatios(mn, c, lo, lens), lens), lo)
  }

  lemma ShrinkTowardFloor(c: real, f: real, lo: real, r: real)
    requires c >= lo && f <= 1.0 && r - lo == (1.0 - f) * (c - lo)
    ensures r >= lo
  {
  }

  /** One sample of `RebalanceBelowBounded`. */
  lemma RebalanceBelowAt(mn: seq<real>, c: seq<real>, fk: seq<real>, lo: real, j: nat)
    requires |mn| == |c| == |fk| && j < |c|
    requires c[j] >= lo && fk[j] <= 1.0
    ensures RebalanceBelow(mn, c, fk, lo)[j] >= lo
  {
    var r := RebalanceBelow(mn, c, fk, lo);
    if mn[j] < c[j] {
      ShrinkTowardFloor(c[j], fk[j], lo, r[j]);
    }
  }

  lemma RatioAtMostOne(a: real, b: real)
    requires 0.0 < b && a <= b
    ensures a / b <= 1.0
  {
  }

  /** With ratios at most one a rebalance keeps a clamped series at or above
      `lo` (whatever the ratios, it changes only samples above their target,
      as `RebalanceBelow` states). */
  lemma RebalanceBelowBounded(mn: seq<real>, c: seq<real>, fk: seq<real>, lo: real)
    requires |mn| == |c| == |fk|
    requires forall j :: 0 <= j < |c| ==> c[j] >= lo
    requires forall j :: 0 <= j < |fk| ==> fk[j] <= 1.0
    ensures forall j :: 0 <= j < |c| ==> RebalanceBelow(mn, c, fk, lo)[j] >= lo
  {
    forall j | 0 <= j < |c| ensures RebalanceBelow(mn, c, fk, lo)[j] >= lo {
      RebalanceBelowAt(mn, c, fk, lo, j);
    }
  }

  /** Per period, the excess over the targets is at most the room above `lo`
      when no target lies below `lo`. */
  lemma ExcessWithinFootroom(mn: seq<real>, c: seq<real>, lo: real, lens: seq<nat>, k: nat)
    requires |mn| == |c| == Total(lens) && k < |lens|
    requires forall j :: 0 <= j < |mn| ==> mn[j] >= lo
    ensures PeriodSum(Sub(c, mn), lens, k) <= PeriodSum(Footroom(c, lo), lens, k)
  {
    var floor := Const(|c|, lo);
    SegmentSub(c, mn, lens, k);
    SegmentSub(c, floor, lens, k);
    SegmentSub(mn, floor, lens, k);
    PeriodSumNonNegative(Sub(mn, floor), lens, k);
  }

  /** Targets at or above `lo` give every period a ratio of at most one. */
  lemma FloorRatiosAtMostOne(mn: seq<real>, c: seq<real>, lo: real, lens: seq<nat>)
    requires |mn| == |c| == Total(lens)
    requires forall j :: 0 <= j < |mn| ==> mn[j] >= lo
    requires forall j :: 0 <= j < |c| ==> c[j] >= lo
    ensures forall k :: 0 <= k < |lens| ==> FloorRatios(mn, c, lo, lens)[k] <= 1.0
  {
    forall k | 0 <= k < |lens| ensures FloorRatios(mn, c, lo, lens)[k] <= 1.0 {
      var a, b := PeriodSum(Sub(c, mn), lens, k), PeriodSum(Footroom(c, lo), lens, k);
      ExcessWithinFootroom(mn, c, lo, lens, k);
      PeriodSumNonNegative(Footroom(c, lo), lens, k);
      if b != 0.0 {
        RatioAtMostOne(a, b);
      }
    }
  }

  /** A minimum correction leaves no sample below `lo`, provided no target
      lies below it. */
  lemma MinStepBounded(mn: seq<real>, x: seq<real>, lo: real, lens: seq<nat>)
    requires |mn| == |x| == Total(lens)
    requires forall j :: 0 <= j < |mn| ==> mn[j] >= lo
    ensures forall j :: 0 <= j < |x| ==> MinStep(mn, x, lo, lens)[j] >= lo
  {
    var c := CapBelow(x, lo);
    var ls := FloorRatios(mn, c, lo, lens);
    var fk := Repeat(ls, lens);
    FloorRatiosAtMostOne(mn, c, lo, lens);
    forall j | 0 <= j < |fk| ensures fk[j] <= 1.0 {
      RepeatFrom(ls, lens, j);
    }
    RebalanceBelowBounded(mn, c, fk, lo);
  }

  /** A period whose clamped samples leave no room above `lo` sits entirely
      at `lo`. */
  lemma ZeroFootroomAtFloor(c: seq<real>, lo: real, lens: seq<nat>, k: nat)
    requires |c| == Total(lens) && k < |lens|
    requires forall j :: 0 <= j < |c| ==> c[j] >= lo
    requires PeriodSum(Footroom(c, lo), lens, k) == 0.0
    ensures Start(lens, k) + lens[k] <= |c|
    ensures forall i :: Start(lens, k) <= i < Start(lens, k) + lens[k] ==> c[i] == lo
  {
    var h := Footroom(c, lo);
    FootroomAt(c, lo);
    assert forall j :: 0 <= j < |h| ==> h[j] >= 0.0;
    PeriodSumNonNegative(h, lens, k);
  }

  /** Where a whole period sits at `lo`, the ratio of that period divides by
      zero; every sample of the period keeps its value whatever ratio is
      used. */
  lemma ZeroFootroomKeepsPeriod(mn: seq<real>, c: seq<real>, fk: seq<real>, lo: real, lens: seq<nat>, k: nat)
    requires |mn| == |c| == |fk| == Total(lens) && k < |lens|
    requires forall j :: 0 <= j < |c| ==> c[j] >= lo
    requires PeriodSum(Footroom(c, lo), lens, k) == 0.0
    ensures Start(lens, k) + lens[k] <= |c|
    ensures forall i :: Start(lens, k) <= i < Start(lens, k) + lens[k] ==>
      RebalanceBelow(mn, c, fk, lo)[i] == lo
  {
    ZeroFootroomAtFloor(c, lo, lens, k);
    forall i | Start(lens, k) <= i < Start(lens, k) + lens[k]
      ensures RebalanceBelow(mn, c, fk, lo)[i] == lo
    {
      if mn[i] < c[i] {
        ZeroTimes(1.0 - fk[i], c[i] - lo);
      }
    }
  }
}
