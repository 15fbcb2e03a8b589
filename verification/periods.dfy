/** Moving between period space and sample space: `np.repeat` expands one
    value per period into the sample series, `np.split` at the running totals
    cuts a sample series back into per-period groups. */
module Periods {
  import opened Series
  import opened RunningTotals

  /** `np.repeat(ys, lens)`: value `ys[k]` written `lens[k]` times, period
      after period. */
  function Repeat(ys: seq<real>, lens: seq<nat>): (r: seq<real>)
    requires |ys| == |lens|
    ensures |r| == Total(lens)
  {
    if lens == [] then []
    else
      var n := |lens| - 1;
      Repeat(ys[..n], lens[..n]) + Const(lens[n], ys[n])
  }

  /** Every sample of the expanded series is one of the period values. */
  lemma {:induction false} RepeatFrom(ys: seq<real>, lens: seq<nat>, j: nat)
    requires |ys| == |lens| && j < Total(lens)
    ensures Repeat(ys, lens)[j] in ys
  {
    var n := |lens| - 1;
    var front := Repeat(ys[..n], lens[..n]);
    if j < |front| {
      RepeatFrom(ys[..n], lens[..n], j);
      var i :| 0 <= i < n && ys[..n][i] == front[j];
      assert ys[i] == front[j];
    } else {
      assert Repeat(ys, lens)[j] == ys[n];
    }
  }

  /** The samples of period `k` in a series of `Total(lens)` samples. */
  function Segment(s: seq<real>, lens: seq<nat>, k: nat): (g: seq<real>)
    requires |s| == Total(lens) && k < |lens|
    ensures |g| == lens[k]
  {
    PeriodInside(lens, k);
    s[Start(lens, k)..Start(lens, k) + lens[k]]
  }

  function PeriodSum(s: seq<real>, lens: seq<nat>, k: nat): real
    requires |s| == Total(lens) && k < |lens|
  {
    Sum(Segment(s, lens, k))
  }

  function PeriodMean(s: seq<real>, lens: seq<nat>, k: nat): real
    requires |s| == Total(lens) && k < |lens|
  {
    Mean(Segment(s, lens, k))
  }

  /** One mean per period, `map(np.mean, np.split(s, cumm_date))`. */
  function PeriodMeans(s: seq<real>, lens: seq<nat>): (m: seq<real>)
    requires |s| == Total(lens)
    ensures |m| == |lens|
  {
    seq(|lens|, k requires 0 <= k < |lens| => PeriodMean(s, lens, k))
  }

  /** Sample `j` of period `k` of the expanded series is `ys[k]`. */
  lemma {:induction false} RepeatAt(ys: seq<real>, lens: seq<nat>, k: nat, j: nat)
    requires |ys| == |lens| && k < |lens| && j < lens[k]
    ensures Start(lens, k) + j < Total(lens)
    ensures Repeat(ys, lens)[Start(lens, k) + j] == ys[k]
  {
    PeriodInside(lens, k);
    var n := |lens| - 1;
    var front := Repeat(ys[..n], lens[..n]);
    assert Repeat(ys, lens) == front + Const(lens[n], ys[n]);
    if k < n {
      StartOfPrefix(lens, n, k);
      assert ys[..n][k] == ys[k] && lens[..n][k] == lens[k];
      RepeatAt(ys[..n], lens[..n], k, j);
    } else {
      assert Start(lens, k) == Total(lens[..n]) == |front|;
    }
  }

  lemma SegmentAt(s: seq<real>, lens: seq<nat>, k: nat, j: nat)
    requires |s| == Total(lens) && k < |lens| && j < lens[k]
    ensures Start(lens, k) + j < |s|
    ensures Segment(s, lens, k)[j] == s[Start(lens, k) + j]
  {
    PeriodInside(lens, k);
  }

  /** Every period of the expanded series holds only its own value. */
  lemma SegmentOfRepeat(ys: seq<real>, lens: seq<nat>, k: nat)
    requires |ys| == |lens| && k < |lens|
    ensures Segment(Repeat(ys, lens), lens, k) == Const(lens[k], ys[k])
  {
    var r := Repeat(ys, lens);
    var g := Segment(r, lens, k);
    var c := Const(lens[k], ys[k]);
    forall j | 0 <= j < lens[k]
      ensures g[j] == c[j]
    {
      RepeatAt(ys, lens, k, j);
      SegmentAt(r, lens, k, j);
    }
    assert g == c;
  }

  /** Hence a non-empty period of the expanded series has mean `ys[k]`, and
      every period sums to `lens[k]` copies of `ys[k]`. */
  lemma PeriodOfRepeat(ys: seq<real>, lens: seq<nat>, k: nat)
    requires |ys| == |lens| && k < |lens|
    ensures PeriodSum(Repeat(ys, lens), lens, k) == Sum(Const(lens[k], ys[k]))
    ensures lens[k] > 0 ==> PeriodMean(Repeat(ys, lens), lens, k) == ys[k]
  {
    SegmentOfRepeat(ys, lens, k);
    if lens[k] > 0 {
      MeanConst(lens[k], ys[k]);
    }
  }

  /** Taking a period commutes with element-wise addition, so period sums
      add up. */
  lemma SegmentAdd(a: seq<real>, b: seq<real>, lens: seq<nat>, k: nat)
    requires |a| == |b| == Total(lens) && k < |lens|
    ensures Segment(Add(a, b), lens, k) == Add(Segment(a, lens, k), Segment(b, lens, k))
    ensures PeriodSum(Add(a, b), lens, k) == PeriodSum(a, lens, k) + PeriodSum(b, lens, k)
  {
    var ga, gb := Segment(a, lens, k), Segment(b, lens, k);
    var x := Segment(Add(a, b), lens, k);
    forall i | 0 <= i < lens[k] ensures x[i] == Add(ga, gb)[i] {
      SegmentAt(Add(a, b), lens, k, i);
      SegmentAt(a, lens, k, i);
      SegmentAt(b, lens, k, i);
    }
    assert x == Add(ga, gb);
    SumAdd(ga, gb);
  }

  /** Likewise for element-wise subtraction. */
  lemma SegmentSub(a: seq<real>, b: seq<real>, lens: seq<nat>, k: nat)
    requires |a| == |b| == Total(lens) && k < |lens|
    ensures Segment(Sub(a, b), lens, k) == Sub(Segment(a, lens, k), Segment(b, lens, k))
    ensures PeriodSum(Sub(a, b), lens, k) == PeriodSum(a, lens, k) - PeriodSum(b, lens, k)
  {
    var ga, gb := Segment(a, lens, k), Segment(b, lens, k);
    var x := Segment(Sub(a, b), lens, k);
    forall i | 0 <= i < lens[k] ensures x[i] == Sub(ga, gb)[i] {
      SegmentAt(Sub(a, b), lens, k, i);
      SegmentAt(a, lens, k, i);
      SegmentAt(b, lens, k, i);
    }
    assert x == Sub(ga, gb);
    SumSub(ga, gb);
  }

  /** A period of a series without negative samples has a non-negative sum,
      and the sum is zero only when every sample of the period is. */
  lemma PeriodSumNonNegative(s: seq<real>, lens: seq<nat>, k: nat)
    requires |s| == Total(lens) && k < |lens|
    requires forall j :: 0 <= j < |s| ==> s[j] >= 0.0
    ensures PeriodSum(s, lens, k) >= 0.0
    ensures Start(lens, k) + lens[k] <= |s|
    ensures PeriodSum(s, lens, k) == 0.0 ==>
      forall i :: Start(lens, k) <= i < Start(lens, k) + lens[k] ==> s[i] == 0.0
  {
    PeriodInside(lens, k);
    var g := Segment(s, lens, k);
    forall j | 0 <= j < |g| ensures g[j] >= 0.0 {
      SegmentAt(s, lens, k, j);
    }
    SumNonNegative(g);
    forall i | Start(lens, k) <= i < Start(lens, k) + lens[k]
      ensures g[i - Start(lens, k)] == s[i]
    {
      SegmentAt(s, lens, k, i - Start(lens, k));
    }
  }

  /** Period means add up under element-wise addition. */
  lemma PeriodMeanAdd(a: seq<real>, b: seq<real>, lens: seq<nat>, k: nat)
    requires |a| == |b| == Total(lens) && k < |lens|
    ensures PeriodMean(Add(a, b), lens, k) == PeriodMean(a, lens, k) + PeriodMean(b, lens, k)
  {
    SegmentAdd(a, b, lens, k);
    MeanAdd(Segment(a, lens, k), Segment(b, lens, k));
  }

  /** Every period of the all-zero series has mean 0.0 (an empty one by the
      model's convention for empty means). */
  lemma PeriodMeanOfZeros(lens: seq<nat>, k: nat)
    requires k < |lens|
    ensures PeriodMean(Const(Total(lens), 0.0), lens, k) == 0.0
  {
    var z := Const(Total(lens), 0.0);
    var g := Segment(z, lens, k);
    forall j | 0 <= j < lens[k] ensures g[j] == 0.0 {
      SegmentAt(z, lens, k, j);
    }
    assert g == Const(lens[k], 0.0);
    if lens[k] > 0 {
      MeanConst(lens[k], 0.0);
    }
  }

  // ---------------------------------------------------------------- np.split

  predicate Ascending(cuts: seq<nat>)
  {
    forall i, j :: 0 <= i <= j < |cuts| ==> cuts[i] <= cuts[j]
  }

  /** `np.split(s, cuts)` for ascending cut positions within the series: the
      piece before the first cut, the pieces between consecutive cuts, and the
      piece after the last cut. */
  function SplitAt(s: seq<real>, cuts: seq<nat>): (groups: seq<seq<real>>)
    requires Ascending(cuts) && (cuts != [] ==> cuts[|cuts| - 1] <= |s|)
    ensures |groups| == |cuts| + 1
    decreases |cuts|
  {
    if cuts == [] then [s]
    else
      var c := cuts[|cuts| - 1];
      SplitAt(s[..c], cuts[..|cuts| - 1]) + [s[c..]]
  }

  /** `cumm_date`: the running totals without the last one, which equals the
      series length and needs no split point. */
  function Boundaries(lens: seq<nat>): (cuts: seq<nat>)
    requires |lens| > 0
    ensures |cuts| == |lens| - 1
    ensures Ascending(cuts)
    ensures forall i :: 0 <= i < |cuts| ==> cuts[i] <= Total(lens)
  {
    var cuts := seq(|lens| - 1, i requires 0 <= i < |lens| - 1 => Start(lens, i + 1));
    assert forall i, j :: 0 <= i <= j < |cuts| ==> cuts[i] <= cuts[j] by {
      forall i, j | 0 <= i <= j < |cuts| ensures cuts[i] <= cuts[j] {
        StartMonotone(lens, i + 1, j + 1);
      }
    }
    assert forall i :: 0 <= i < |cuts| ==> cuts[i] <= Total(lens) by {
      forall i | 0 <= i < |cuts| ensures cuts[i] <= Total(lens) {
        StartMonotone(lens, i + 1, |lens|);
        StartOfAll(lens);
      }
    }
    cuts
  }

  /** `np.array(list(accumulate(lens)))[:-1]` are the period boundaries. */
  lemma BoundariesFromTotals(lens: seq<nat>, totals: seq<nat>)
    requires |lens| > 0 && |totals| == |lens|
    requires forall i :: 0 <= i < |totals| ==> totals[i] == Start(lens, i) + lens[i]
    ensures totals[..|totals| - 1] == Boundaries(lens)
  {
    forall i | 0 <= i < |lens| - 1
      ensures totals[..|totals| - 1][i] == Boundaries(lens)[i]
    {
      StartNext(lens, i);
    }
  }

  function GroupMeans(groups: seq<seq<real>>): (m: seq<real>)
    ensures |m| == |groups|
    ensures forall k :: 0 <= k < |groups| && |groups[k]| > 0 ==>
      m[k] * |groups[k]| as real == Sum(groups[k])
    ensures forall k :: 0 <= k < |groups| && |groups[k]| == 0 ==> m[k] == 0.0
  {
    seq(|groups|, k requires 0 <= k < |groups| => Mean(groups[k]))
  }

  function GroupSums(groups: seq<seq<real>>): (m: seq<real>)
    ensures |m| == |groups|
    ensures forall k :: 0 <= k < |groups| ==> m[k] == |groups[k]| as real * GroupMeans(groups)[k]
  {
    seq(|groups|, k requires 0 <= k < |groups| => Sum(groups[k]))
  }

  /** The boundaries of a prefix of the lengths are a prefix of the
      boundaries. */
  lemma BoundariesOfPrefix(lens: seq<nat>, n: nat)
    requires 0 < n < |lens|
    ensures Boundaries(lens)[..n - 1] == Boundaries(lens[..n])
  {
    var cuts := Boundaries(lens);
    forall i | 0 <= i < n - 1 ensures cuts[..n - 1][i] == Boundaries(lens[..n])[i] {
      StartOfPrefix(lens, n, i + 1);
    }
  }

  /** A period before the last one is the same period of the prefix series. */
  lemma SegmentOfPrefix(s: seq<real>, lens: seq<nat>, n: nat, k: nat)
    requires |s| == Total(lens) && k < n < |lens|
    requires Start(lens, n) <= |s| && |s[..Start(lens, n)]| == Total(lens[..n])
    ensures Segment(s[..Start(lens, n)], lens[..n], k) == Segment(s, lens, k)
  {
    StartOfPrefix(lens, n, k);
    PeriodInside(lens[..n], k);
    assert lens[..n][k] == lens[k];
  }

  /** Splitting a series of `Total(lens)` samples at the period boundaries
      yields exactly one group per period, group `k` being the `lens[k]`
      samples of period `k`. */
  lemma {:induction false} SplitAtBoundaries(s: seq<real>, lens: seq<nat>)
    requires |lens| > 0 && |s| == Total(lens)
    ensures |SplitAt(s, Boundaries(lens))| == |lens|
    ensures forall k :: 0 <= k < |lens| ==> SplitAt(s, Boundaries(lens))[k] == Segment(s, lens, k)
    decreases |lens|
  {
    var n := |lens| - 1;
    var cuts := Boundaries(lens);
    if n == 0 {
      assert Segment(s, lens, 0) == s;
    } else {
      var front := lens[..n];
      var c := cuts[n - 1];
      StartOfAll(lens);
      StartNext(lens, n);
      assert c == Start(lens, n) == Total(front);
      var s' := s[..c];
      BoundariesOfPrefix(lens, n);
      SplitAtBoundaries(s', front);
      var groups := SplitAt(s, cuts);
      assert groups == SplitAt(s', Boundaries(front)) + [s[c..]];
      forall k | 0 <= k < n
        ensures groups[k] == Segment(s, lens, k)
      {
        SegmentOfPrefix(s, lens, n, k);
      }
      assert groups[n] == Segment(s, lens, n);
    }
  }

  lemma MeansBySplit(s: seq<real>, lens: seq<nat>)
    requires |lens| > 0 && |s| == Total(lens)
    ensures GroupMeans(SplitAt(s, Boundaries(lens))) == PeriodMeans(s, lens)
  {
    SplitAtBoundaries(s, lens);
  }

  lemma SumsBySplit(s: seq<real>, lens: seq<nat>)
    requires |lens| > 0 && |s| == Total(lens)
    ensures |GroupSums(SplitAt(s, Boundaries(lens)))| == |lens|
    ensures forall k :: 0 <= k < |lens| ==> GroupSums(SplitAt(s, Boundaries(lens)))[k] == PeriodSum(s, lens, k)
  {
    SplitAtBoundaries(s, lens);
  }

  /** Splitting the expanded series at `cumm_date` gives `|lens|` groups,
      group `k` made of `lens[k]` copies of `ys[k]`. */
  lemma SplitRepeat(ys: seq<real>, lens: seq<nat>)
    requires |ys| == |lens| > 0
    ensures |SplitAt(Repeat(ys, lens), Boundaries(lens))| == |lens|
    ensures forall k :: 0 <= k < |lens| ==>
      SplitAt(Repeat(ys, lens), Boundaries(lens))[k] == Const(lens[k], ys[k])
  {
    SplitAtBoundaries(Repeat(ys, lens), lens);
    forall k | 0 <= k < |lens|
      ensures SplitAt(Repeat(ys, lens), Boundaries(lens))[k] == Const(lens[k], ys[k])
    {
      SegmentOfRepeat(ys, lens, k);
    }
  }
}
