/** The `accumulate` helper both interpolation files define: running totals of
    the period lengths, which give the period boundaries in sample space. */
module RunningTotals {

  /** Total number of samples, the sum of all period lengths: the same
      right fold as `Series.Sum`, over natural-number lengths. */
  function Total(lens: seq<nat>): nat
  {
    if lens == [] then 0 else Total(lens[..|lens| - 1]) + lens[|lens| - 1]
  }

  /** Index of the first sample of period `k` (0-based): the lengths of the
      periods before it, added up. `Start(lens, |lens|)` is the total. */
  function Start(lens: seq<nat>, k: nat): nat
    requires k <= |lens|
  {
    Total(lens[..k])
  }

  lemma StartNext(lens: seq<nat>, k: nat)
    requires k < |lens|
    ensures Start(lens, k + 1) == Start(lens, k) + lens[k]
  {
    assert lens[..k + 1][..k] == lens[..k];
  }

  lemma StartOfAll(lens: seq<nat>)
    ensures Start(lens, |lens|) == Total(lens)
  {
    assert lens[..|lens|] == lens;
  }

  /** Boundaries grow with the period index, so every period ends inside the
      series. */
  lemma {:induction false} StartMonotone(lens: seq<nat>, k: nat, m: nat)
    requires k <= m <= |lens|
    ensures Start(lens, k) <= Start(lens, m)
  {
    if k < m {
      StartMonotone(lens, k, m - 1);
      StartNext(lens, m - 1);
    }
  }

  lemma PeriodInside(lens: seq<nat>, k: nat)
    requires k < |lens|
    ensures Start(lens, k) + lens[k] <= Total(lens)
  {
    StartNext(lens, k);
    StartMonotone(lens, k + 1, |lens|);
    StartOfAll(lens);
  }

  /** A prefix of the lengths has the same boundaries for its own periods. */
  lemma StartOfPrefix(lens: seq<nat>, n: nat, k: nat)
    requires k <= n <= |lens|
    ensures Start(lens[..n], k) == Start(lens, k)
  {
    assert lens[..n][..k] == lens[..k];
  }

  /** `accumulate(month_len)`: the running totals of the period lengths. The
      first total is the first length, each later one the previous total plus
      the next length; total `i` is the end boundary of period `i`. On an
      empty input `next(it)` stops the generator before it yields anything,
      so the list of totals is empty. */
  method Accumulate(lens: seq<nat>) returns (totals: seq<nat>)
    ensures |totals| == |lens|
    ensures |lens| > 0 ==> totals[0] == lens[0]
    ensures forall i :: 0 < i < |totals| ==> totals[i] == totals[i - 1] + lens[i]
    ensures forall i :: 0 <= i < |totals| ==> totals[i] == Start(lens, i) + lens[i]
    ensures |lens| > 0 ==> totals[|totals| - 1] == Total(lens)
  {
    if |lens| == 0 {
      return [];
    }
    var total := lens[0];
    totals := [total];
    StartNext(lens, 0);
    for i := 1 to |lens|
      invariant |totals| == i
      invariant total == Start(lens, i)
      invariant forall j :: 0 <= j < i ==> totals[j] == Start(lens, j + 1)
    {
      StartNext(lens, i);
      total := total + lens[i];
      totals := totals + [total];
    }
    forall i | 0 <= i < |totals|
      ensures totals[i] == Start(lens, i) + lens[i]
      ensures i > 0 ==> totals[i] == totals[i - 1] + lens[i]
    {
      StartNext(lens, i);
    }
    StartOfAll(lens);
  }
}
