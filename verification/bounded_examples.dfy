/** Worked passes of the bounded branches of the autoregressive routine, on
    a state the routine reaches: three periods of 1, 1 and 3 samples with
    values 0, 4 and 7, so `MN` is 0, 4, 7, 7, 7, and the first pass from it
    with maximum 8 and, in the branch with both bounds, minimum 0. */
module BoundedExamples {
  import opened Series
  import opened RunningTotals
  import opened Periods
  import opened Smoothing
  import opened BoundCorrection
  import opened Autoregressive

  const Lens: seq<nat> := [1, 1, 3]
  const Values: seq<real> := [0.0, 4.0, 7.0]

  lemma Single(a: real)
    ensures Sum([a]) == a
  {
    assert [a][..0] == [];
  }

  lemma Sum3(a: real, b: real, c: real)
    ensures Sum([a, b, c]) == a + b + c
  {
    Single(a);
    assert [a, b][..1] == [a];
    assert Sum([a, b]) == a + b;
    assert [a, b, c][..2] == [a, b];
  }

  /** The three periods of a five-sample series. */
  lemma ThreePeriods(s: seq<real>)
    requires |s| == 5
    ensures Total(Lens) == 5
    ensures PeriodSum(s, Lens, 0) == s[0]
    ensures PeriodSum(s, Lens, 1) == s[1]
    ensures PeriodSum(s, Lens, 2) == s[2] + s[3] + s[4]
  {
    assert Lens[..0] == [] && Lens[..1] == [1] && Lens[..2] == [1, 1] && Lens[..3] == Lens;
    assert Start(Lens, 1) == 1 && Start(Lens, 2) == 2;
    assert Segment(s, Lens, 0) == [s[0]];
    Single(s[0]);
    assert Segment(s, Lens, 1) == [s[1]];
    Single(s[1]);
    assert Segment(s, Lens, 2) == [s[2], s[3], s[4]];
    Sum3(s[2], s[3], s[4]);
  }

  /** Three period values expanded over the three periods. */
  lemma RepeatThree(a: real, b: real, c: real)
    ensures Repeat([a, b, c], Lens) == [a, b, c, c, c]
  {
    assert Lens[..2] == [1, 1] && [a, b, c][..2] == [a, b];
    assert [1, 1][..1] == [1] && [a, b][..1] == [a];
    assert [1][..0] == [] && [a][..0] == [];
    assert Repeat([a], [1]) == [a];
    assert Repeat([a, b], [1, 1]) == [a, b];
  }

  /** Period means of a five-sample series. */
  lemma ThreeMeans(s: seq<real>)
    requires |s| == 5
    ensures |s| == Total(Lens)
    ensures PeriodMeans(s, Lens) == [s[0], s[1], (s[2] + s[3] + s[4]) / 3.0]
  {
    ThreePeriods(s);
    assert PeriodMean(s, Lens, 0) == s[0];
    assert PeriodMean(s, Lens, 1) == s[1];
    assert |Segment(s, Lens, 2)| == 3;
    assert PeriodMean(s, Lens, 2) == (s[2] + s[3] + s[4]) / 3.0;
  }

  lemma Targets()
    ensures Repeat(Values, Lens) == [0.0, 4.0, 7.0, 7.0, 7.0]
  {
    RepeatThree(0.0, 4.0, 7.0);
  }

  /** The circular average of the targets. */
  lemma Smoothed()
    ensures Smooth([0.0, 4.0, 7.0, 7.0, 7.0]) == [11.0 / 3.0, 11.0 / 3.0, 6.0, 7.0, 14.0 / 3.0]
  {
    var x := [0.0, 4.0, 7.0, 7.0, 7.0];
    SmoothAt(x, 0);
    SmoothAt(x, 1);
    SmoothAt(x, 2);
    SmoothAt(x, 3);
    SmoothAt(x, 4);
  }

  /** Each period gets its mean deficit back: 0 and 4 exactly, and 10/9 on
      every sample of the last period. */
  lemma Restored()
    ensures var mn := [0.0, 4.0, 7.0, 7.0, 7.0];
            Total(Lens) == 5 &&
            Restore(mn, [11.0 / 3.0, 11.0 / 3.0, 6.0, 7.0, 14.0 / 3.0], Lens)
              == [0.0, 4.0, 64.0 / 9.0, 73.0 / 9.0, 52.0 / 9.0]
  {
    var mn, s := [0.0, 4.0, 7.0, 7.0, 7.0], [11.0 / 3.0, 11.0 / 3.0, 6.0, 7.0, 14.0 / 3.0];
    var d := Sub(mn, s);
    assert d == [-11.0 / 3.0, 1.0 / 3.0, 1.0, 0.0, 7.0 / 3.0];
    ThreeMeans(d);
    RepeatThree(-11.0 / 3.0, 1.0 / 3.0, 10.0 / 9.0);
  }

  /** The maximum correction: only the fourth sample exceeds 8; the last
      period's ratio is 27/28 and only the fifth sample, below its target,
      is rescaled. */
  lemma MaxCorrected()
    ensures var mn := [0.0, 4.0, 7.0, 7.0, 7.0];
            Total(Lens) == 5 &&
            MaxStep(mn, [0.0, 4.0, 64.0 / 9.0, 73.0 / 9.0, 52.0 / 9.0], 8.0, Lens)
              == [0.0, 4.0, 64.0 / 9.0, 8.0, 41.0 / 7.0]
  {
    MaxRatios();
    RepeatThree(1.0, 1.0, 27.0 / 28.0);
  }

  /** The clamp and the per-period ratios of `MaxCorrected`. */
  lemma MaxRatios()
    ensures Total(Lens) == 5
    ensures CapAbove([0.0, 4.0, 64.0 / 9.0, 73.0 / 9.0, 52.0 / 9.0], 8.0)
              == [0.0, 4.0, 64.0 / 9.0, 8.0, 52.0 / 9.0]
    ensures HeadroomRatios([0.0, 4.0, 7.0, 7.0, 7.0], [0.0, 4.0, 64.0 / 9.0, 8.0, 52.0 / 9.0], 8.0, Lens)
              == [1.0, 1.0, 27.0 / 28.0]
  {
    var mn, c := [0.0, 4.0, 7.0, 7.0, 7.0], [0.0, 4.0, 64.0 / 9.0, 8.0, 52.0 / 9.0];
    ThreePeriods(c);
    assert CapAbove([0.0, 4.0, 64.0 / 9.0, 73.0 / 9.0, 52.0 / 9.0], 8.0) == c;
    var hm, hc := Headroom(mn, 8.0), Headroom(c, 8.0);
    assert hm == [8.0, 4.0, 1.0, 1.0, 1.0];
    assert hc == [8.0, 4.0, 8.0 / 9.0, 0.0, 20.0 / 9.0];
    ThreePeriods(hm);
    ThreePeriods(hc);
  }

  /** The minimum correction that follows in the branch with both bounds:
      the last period sums 2/63 below its target, so its ratio is -2/1321
      and the samples above their target are pushed up, away from 0. */
  lemma MinCorrected()
    ensures var mn := [0.0, 4.0, 7.0, 7.0, 7.0];
            Total(Lens) == 5 &&
            MinStep(mn, [0.0, 4.0, 64.0 / 9.0, 8.0, 41.0 / 7.0], 0.0, Lens)[3]
              == 8.0 + 16.0 / 1321.0
  {
    var mn, x := [0.0, 4.0, 7.0, 7.0, 7.0], [0.0, 4.0, 64.0 / 9.0, 8.0, 41.0 / 7.0];
    ThreePeriods(x);
    var c := CapBelow(x, 0.0);
    assert c == x;
    var ex, fr := Sub(c, mn), Footroom(c, 0.0);
    assert ex == [0.0, 0.0, 1.0 / 9.0, 1.0, -8.0 / 7.0];
    assert fr == x;
    ThreePeriods(ex);
    assert FloorRatios(mn, c, 0.0, Lens) == [0.0, 0.0, -2.0 / 1321.0];
    RepeatThree(0.0, 0.0, -2.0 / 1321.0);
  }

  /** With a maximum only, a pass need not keep the period means, unlike the
      unbounded branch (`Autoregressive.UnboundedKeepsPeriodSums`): after
      the first pass the last period sums to 1321/63 against the targets'
      21. */
  lemma MaxPassShiftsMean()
    ensures var mn := Repeat(Values, Lens);
            PeriodSum(Iterate(mn, Lens, Above(8.0), 1), Lens, 2) == 1321.0 / 63.0
            && PeriodSum(mn, Lens, 2) == 21.0
  {
    var mn := Repeat(Values, Lens);
    Targets();
    Smoothed();
    Restored();
    MaxCorrected();
    assert Iterate(mn, Lens, Above(8.0), 1) == [0.0, 4.0, 64.0 / 9.0, 8.0, 41.0 / 7.0];
    ThreePeriods(Iterate(mn, Lens, Above(8.0), 1));
    ThreePeriods(mn);
  }

  /** With both bounds the minimum correction runs after the maximum
      correction and can undo it: every target lies between 0 and 8, yet
      after the first pass the fourth sample exceeds 8. */
  lemma BothBoundsPassExceedsMax()
    ensures forall k :: 0 <= k < |Values| ==> 0.0 <= Values[k] <= 8.0
    ensures Iterate(Repeat(Values, Lens), Lens, Between(8.0, 0.0), 1)[3] > 8.0
  {
    var mn := Repeat(Values, Lens);
    Targets();
    Smoothed();
    Restored();
    MaxCorrected();
    MinCorrected();
    ValuesWithin();
  }

  lemma ValuesWithin()
    ensures forall k :: 0 <= k < |Values| ==> 0.0 <= Values[k] <= 8.0
  {
  }

  // ------------------------------------------- a target above the maximum

  const OverLens: seq<nat> := [1, 3]
  const OverValues: seq<real> := [-100.0, 30.0]

  /** The two periods of a four-sample series cut after its first sample. */
  lemma TwoPeriods(s: seq<real>)
    requires |s| == 4
    ensures Total(OverLens) == 4
    ensures PeriodSum(s, OverLens, 0) == s[0]
    ensures PeriodSum(s, OverLens, 1) == s[1] + s[2] + s[3]
    ensures PeriodMeans(s, OverLens) == [s[0], (s[1] + s[2] + s[3]) / 3.0]
  {
    assert OverLens[..0] == [] && OverLens[..1] == [1] && OverLens[..2] == OverLens;
    assert Start(OverLens, 1) == 1;
    assert Segment(s, OverLens, 0) == [s[0]];
    Single(s[0]);
    assert Segment(s, OverLens, 1) == [s[1], s[2], s[3]];
    Sum3(s[1], s[2], s[3]);
    assert PeriodMean(s, OverLens, 0) == s[0];
    assert PeriodMean(s, OverLens, 1) == (s[1] + s[2] + s[3]) / 3.0;
  }

  lemma RepeatTwo(a: real, b: real)
    ensures Repeat([a, b], OverLens) == [a, b, b, b]
  {
    assert OverLens[..1] == [1] && [a, b][..1] == [a];
    assert [1][..0] == [] && [a][..0] == [];
    assert Repeat([a], [1]) == [a];
  }

  /** The circular average of targets -100 and 30 over periods of 1 and 3
      samples. */
  lemma OverSmoothed()
    ensures Smooth([-100.0, 30.0, 30.0, 30.0]) == [-40.0 / 3.0, -40.0 / 3.0, 30.0, -40.0 / 3.0]
  {
    var mn := [-100.0, 30.0, 30.0, 30.0];
    SmoothAt(mn, 0);
    SmoothAt(mn, 1);
    SmoothAt(mn, 2);
    SmoothAt(mn, 3);
  }

  /** Restoring adds -260/3 to the first period and 260/9 to each sample of
      the second. */
  lemma OverRestored()
    ensures Total(OverLens) == 4
    ensures Restore([-100.0, 30.0, 30.0, 30.0], [-40.0 / 3.0, -40.0 / 3.0, 30.0, -40.0 / 3.0], OverLens)
              == [-100.0, 140.0 / 9.0, 530.0 / 9.0, 140.0 / 9.0]
  {
    var mn, sm := [-100.0, 30.0, 30.0, 30.0], [-40.0 / 3.0, -40.0 / 3.0, 30.0, -40.0 / 3.0];
    var d := Sub(mn, sm);
    assert d == [-260.0 / 3.0, 130.0 / 3.0, 0.0, 130.0 / 3.0];
    TwoPeriods(d);
    RepeatTwo(-260.0 / 3.0, 260.0 / 9.0);
  }

  /** The maximum correction with maximum 25: the headroom ratio of the
      second period is -27/34, negative because its target lies above the
      maximum, so the rebalance lifts the samples below their target past
      the maximum. */
  lemma OverMaxCorrected()
    ensures Total(OverLens) == 4
    ensures MaxStep([-100.0, 30.0, 30.0, 30.0], [-100.0, 140.0 / 9.0, 530.0 / 9.0, 140.0 / 9.0], 25.0, OverLens)
              == [-100.0, 65.0 / 2.0, 25.0, 65.0 / 2.0]
  {
    var mn, x := [-100.0, 30.0, 30.0, 30.0], [-100.0, 140.0 / 9.0, 530.0 / 9.0, 140.0 / 9.0];
    TwoPeriods(x);
    var c := CapAbove(x, 25.0);
    assert c == [-100.0, 140.0 / 9.0, 25.0, 140.0 / 9.0];
    var hm, hc := Headroom(mn, 25.0), Headroom(c, 25.0);
    assert hm == [125.0, -5.0, -5.0, -5.0];
    assert hc == [125.0, 85.0 / 9.0, 0.0, 85.0 / 9.0];
    TwoPeriods(hm);
    TwoPeriods(hc);
    assert HeadroomRatios(mn, c, 25.0, OverLens) == [1.0, -27.0 / 34.0];
    RepeatTwo(1.0, -27.0 / 34.0);
  }

  /** The whole first pass from targets -100 and 30, maximum 25. */
  lemma OverMaxPass()
    ensures Iterate(Repeat(OverValues, OverLens), OverLens, Above(25.0), 1)
              == [-100.0, 65.0 / 2.0, 25.0, 65.0 / 2.0]
  {
    RepeatTwo(-100.0, 30.0);
    OverSmoothed();
    OverRestored();
    OverMaxCorrected();
  }

  /** The bound holds only for targets within it: with a target above the
      maximum, the first pass leaves a sample above the maximum. */
  lemma OverMaxTargetBreaksBound()
    ensures exists k :: 0 <= k < |OverValues| && OverValues[k] > 25.0
    ensures Iterate(Repeat(OverValues, OverLens), OverLens, Above(25.0), 1)[1] > 25.0
  {
    assert OverValues[1] > 25.0;
    OverMaxPass();
  }
}
