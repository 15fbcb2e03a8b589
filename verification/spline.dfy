/** `interpol_spline_cons_mean`: a spline through the period midpoints is
    evaluated at every sample; each period's mean of that contribution is
    compared with the period's target, and the residuals become the targets
    of the next round, until the largest residual is below the tolerance or
    `max_iter` rounds have run. The result is the sum of all contributions. */
module SplineConserveMean {
  import opened Outcome
  import opened Series
  import opened RunningTotals
  import opened Periods

  /** `splev(positions, splrep(xs, ys))`: the spline library is not part of
      the model, only that it yields one value per evaluation position. */
  type Spline = f: (seq<real>, seq<real>, seq<real>) -> seq<real>
    | forall xs, ys, ps :: |f(xs, ys, ps)| == |ps|
    witness (xs: seq<real>, ys: seq<real>, ps: seq<real>) => ps

  /** `x_points`: the midpoint of period `k` in sample positions, its end
      boundary plus one less half its length plus one. */
  function Midpoints(lens: seq<nat>): (xs: seq<real>)
    ensures |xs| == |lens|
  {
    seq(|lens|, k requires 0 <= k < |lens| =>
      (Start(lens, k) + lens[k]) as real + 1.0 - (lens[k] as real + 1.0) / 2.0)
  }

  /** `range(1, cumm_date[-1] + 1)`: the 1-based sample positions. */
  function Positions(n: nat): (ps: seq<real>)
    ensures |ps| == n
  {
    seq(n, j requires 0 <= j < n => (j + 1) as real)
  }

  /** The midpoint of a non-empty period lies halfway between its first and
      its last sample position. */
  lemma MidpointCentred(lens: seq<nat>, k: nat)
    requires k < |lens| && lens[k] > 0
    ensures Start(lens, k) + lens[k] <= Total(lens)
    ensures var ps, first := Positions(Total(lens)), Start(lens, k);
            Midpoints(lens)[k] == (ps[first] + ps[first + lens[k] - 1]) / 2.0
  {
    PeriodInside(lens, k);
  }

  /** Each midpoint lies after the start and at or before the end of its
      period. */
  lemma MidpointInPeriod(lens: seq<nat>, k: nat)
    requires k < |lens| && lens[k] > 0
    ensures Start(lens, k) as real < Midpoints(lens)[k] <= (Start(lens, k) + lens[k]) as real
  {
  }

  /** With positive period lengths the midpoints strictly increase, as the
      spline fit needs. */
  lemma MidpointsIncrease(lens: seq<nat>)
    requires forall k :: 0 <= k < |lens| ==> lens[k] > 0
    ensures forall i, j :: 0 <= i < j < |lens| ==> Midpoints(lens)[i] < Midpoints(lens)[j]
  {
    forall i, j | 0 <= i < j < |lens|
      ensures Midpoints(lens)[i] < Midpoints(lens)[j]
    {
      MidpointInPeriod(lens, i);
      MidpointInPeriod(lens, j);
      StartNext(lens, i);
      StartMonotone(lens, i + 1, j);
    }
  }

  /** `y_points_mat[i,:] - new_mean`: per period, the target less the mean
      of the contribution over the period. */
  function Residual(target: seq<real>, c: seq<real>, lens: seq<nat>): (res: seq<real>)
    requires |target| == |lens| && |c| == Total(lens)
    ensures |res| == |lens|
  {
    seq(|lens|, k requires 0 <= k < |lens| => target[k] - PeriodMean(c, lens, k))
  }

  /** Python's `max` over a non-empty sequence. */
  function MaxOf(s: seq<real>): (m: real)
    requires |s| > 0
    ensures m in s
    ensures forall i :: 0 <= i < |s| ==> s[i] <= m
  {
    if |s| == 1 then s[0]
    else
      var m := MaxOf(s[..|s| - 1]);
      if s[|s| - 1] > m then s[|s| - 1] else m
  }

  /** Every residual is below the tolerance. */
  predicate AllBelow(res: seq<real>, tol: real)
  {
    forall k :: 0 <= k < |res| ==> res[k] < tol
  }

  /** `max(resid) < tol` holds exactly when every residual is below `tol`. */
  lemma MaxBelow(res: seq<real>, tol: real)
    requires |res| > 0
    ensures MaxOf(res) < tol <==> AllBelow(res, tol)
  {
  }

  /** What the correction loop computes: the filled rows of the target
      matrix (`y_points_mat`) and of the contribution matrix
      (`y_points_interp_mat`), whether it stopped on the tolerance, and the
      residual of the last round (the initial targets if no round ran). */
  datatype Run = Run(targets: seq<seq<real>>, contribs: seq<seq<real>>, converged: bool, final: seq<real>)

  // ------------------------------------------------- the loop of rounds

  /** The loop from target row `t` with `fuel` rounds left, for a round that
      fits the contribution `contrib(t)` and leaves the residual row
      `resid(t)`. The loop stops after the first round whose residuals are
      all below `tol` (`max(resid) < tol`), and otherwise when the rounds
      run out. */
  function Loop(contrib: seq<real> -> seq<real>, resid: seq<real> -> seq<real>, t: seq<real>, fuel: nat, tol: real): (r: Run)
    ensures |r.contribs| <= fuel
    ensures !r.converged ==> |r.contribs| == fuel
    ensures r.converged ==> |r.contribs| > 0 && AllBelow(r.final, tol)
    ensures |r.targets| == |r.contribs| + (if r.converged then 0 else 1)
    ensures |r.targets| > 0 && r.targets[0] == t
    decreases fuel
  {
    if fuel == 0 then Run([t], [], false, t)
    else if AllBelow(resid(t), tol) then Run([t], [contrib(t)], true, resid(t))
    else
      var rest := Loop(contrib, resid, resid(t), fuel - 1, tol);
      Run([t] + rest.targets, [contrib(t)] + rest.contribs, rest.converged, rest.final)
  }

  /** The rows are chained as the loop writes them: contribution `i` is
      fitted through target row `i`, and target row `i + 1`, when filled, is
      the residual of round `i`. */
  lemma {:induction false} RowAt(contrib: seq<real> -> seq<real>, resid: seq<real> -> seq<real>,
                                 t: seq<real>, fuel: nat, tol: real, i: nat)
    requires i < |Loop(contrib, resid, t, fuel, tol).contribs|
    ensures var r := Loop(contrib, resid, t, fuel, tol);
      r.contribs[i] == contrib(r.targets[i]) &&
      (i + 1 < |r.targets| ==> r.targets[i + 1] == resid(r.targets[i]))
    decreases fuel
  {
    var r := Loop(contrib, resid, t, fuel, tol);
    if !AllBelow(resid(t), tol) {
      var rest := Loop(contrib, resid, resid(t), fuel - 1, tol);
      assert r == Run([t] + rest.targets, [contrib(t)] + rest.contribs, rest.converged, rest.final);
      if i > 0 {
        RowAt(contrib, resid, resid(t), fuel - 1, tol, i - 1);
        assert r.contribs[i] == rest.contribs[i - 1] && r.targets[i] == rest.targets[i - 1];
        assert i + 1 < |r.targets| ==> r.targets[i + 1] == rest.targets[i];
      }
    }
  }

  /** The loop stops at the first round that passes the test: every round
      before the last one, and the last one too when the loop did not
      converge, left some residual at or above `tol`. */
  lemma {:induction false} FirstPassingRound(contrib: seq<real> -> seq<real>, resid: seq<real> -> seq<real>,
                                             t: seq<real>, fuel: nat, tol: real, i: nat)
    requires i < |Loop(contrib, resid, t, fuel, tol).contribs|
    ensures var r := Loop(contrib, resid, t, fuel, tol);
      (i + 1 < |r.contribs| || !r.converged) ==> !AllBelow(resid(r.targets[i]), tol)
    decreases fuel
  {
    var r := Loop(contrib, resid, t, fuel, tol);
    if !AllBelow(resid(t), tol) {
      var rest := Loop(contrib, resid, resid(t), fuel - 1, tol);
      assert r == Run([t] + rest.targets, [contrib(t)] + rest.contribs, rest.converged, rest.final);
      if i > 0 {
        FirstPassingRound(contrib, resid, resid(t), fuel - 1, tol, i - 1);
        assert r.targets[i] == rest.targets[i - 1];
      }
    }
  }

  /** The final residual is that of the last round, or the starting row when
      no round ran. */
  lemma {:induction false} FinalIsLastResidual(contrib: seq<real> -> seq<real>, resid: seq<real> -> seq<real>,
                                               t: seq<real>, fuel: nat, tol: real)
    ensures var r := Loop(contrib, resid, t, fuel, tol);
      && (r.contribs == [] ==> r.final == t)
      && (r.contribs != [] ==> r.final == resid(r.targets[|r.contribs| - 1]))
    decreases fuel
  {
    var r := Loop(contrib, resid, t, fuel, tol);
    if fuel > 0 && !AllBelow(resid(t), tol) {
      var rest := Loop(contrib, resid, resid(t), fuel - 1, tol);
      FinalIsLastResidual(contrib, resid, resid(t), fuel - 1, tol);
      assert r == Run([t] + rest.targets, [contrib(t)] + rest.contribs, rest.converged, rest.final);
      if rest.contribs != [] {
        assert r.targets[|r.contribs| - 1] == rest.targets[|rest.contribs| - 1];
      }
    }
  }

  /** Rows keep their lengths: contributions have the length the fit gives,
      target rows and the final residual the number of periods. */
  lemma {:induction false} RowLengths(contrib: seq<real> -> seq<real>, resid: seq<real> -> seq<real>,
                                      t: seq<real>, fuel: nat, tol: real, n: nat, m: nat)
    requires forall u :: |contrib(u)| == n
    requires forall u :: |u| == m ==> |resid(u)| == m
    requires |t| == m
    ensures var r := Loop(contrib, resid, t, fuel, tol);
      && (forall i :: 0 <= i < |r.contribs| ==> |r.contribs[i]| == n)
      && (forall i :: 0 <= i < |r.targets| ==> |r.targets[i]| == m)
      && |r.final| == m
    decreases fuel
  {
    if fuel > 0 && !AllBelow(resid(t), tol) {
      RowLengths(contrib, resid, resid(t), fuel - 1, tol, n, m);
      var r := Loop(contrib, resid, t, fuel, tol);
      var rest := Loop(contrib, resid, resid(t), fuel - 1, tol);
      assert r == Run([t] + rest.targets, [contrib(t)] + rest.contribs, rest.converged, rest.final);
    }
  }

  /** `np.nansum(y_points_interp_mat, axis = 0)`: the rows never filled are
      NaN and add nothing; the filled rows are summed element-wise. */
  function ColumnSum(rows: seq<seq<real>>, n: nat): (s: seq<real>)
    requires forall i :: 0 <= i < |rows| ==> |rows[i]| == n
    ensures |s| == n
  {
    if rows == [] then Const(n, 0.0) else Add(rows[0], ColumnSum(rows[1..], n))
  }

  /** For any round whose contribution has, over each period, the mean the
      round removes from the target row, the summed contributions have over
      each period the starting target less the final residual. */
  lemma {:induction false} Telescoping(contrib: seq<real> -> seq<real>, resid: seq<real> -> seq<real>,
                                       lens: seq<nat>, t: seq<real>, fuel: nat, tol: real, k: nat)
    requires forall u :: |contrib(u)| == Total(lens)
    requires forall u :: |u| == |lens| ==> |resid(u)| == |lens|
    requires forall u, j :: |u| == |lens| && 0 <= j < |lens| ==>
      PeriodMean(contrib(u), lens, j) == u[j] - resid(u)[j]
    requires |t| == |lens| && k < |lens|
    ensures var r := Loop(contrib, resid, t, fuel, tol);
      (forall i :: 0 <= i < |r.contribs| ==> |r.contribs[i]| == Total(lens)) && |r.final| == |lens|
    ensures var r := Loop(contrib, resid, t, fuel, tol);
      PeriodMean(ColumnSum(r.contribs, Total(lens)), lens, k) == t[k] - r.final[k]
    decreases fuel
  {
    var n := Total(lens);
    var r := Loop(contrib, resid, t, fuel, tol);
    RowLengths(contrib, resid, t, fuel, tol, n, |lens|);
    if fuel == 0 {
      PeriodMeanOfZeros(lens, k);
    } else {
      var c, res := contrib(t), resid(t);
      var rest := if AllBelow(res, tol) then [] else Loop(contrib, resid, res, fuel - 1, tol).contribs;
      assert r.contribs == [c] + rest;
      assert r.contribs[1..] == rest;
      var tail := ColumnSum(rest, n);
      assert ColumnSum(r.contribs, n) == Add(c, tail);
      PeriodMeanAdd(c, tail, lens, k);
      if AllBelow(res, tol) {
        PeriodMeanOfZeros(lens, k);
      } else {
        Telescoping(contrib, resid, lens, res, fuel - 1, tol, k);
      }
    }
  }

  // ------------------------------------------------ the spline's rounds

  /** The contribution of a round: the spline through the midpoints and the
      target row, evaluated at every sample position. */
  function Contribution(fit: Spline, xs: seq<real>, lens: seq<nat>): (c: seq<real> -> seq<real>)
    ensures forall u :: |c(u)| == Total(lens)
  {
    var ps := Positions(Total(lens));
    var c := t => fit(xs, t, ps);
    assert forall u :: c(u) == fit(xs, u, ps);
    c
  }

  /** The residual row a round leaves. Rows of the loop always hold one value
      per period; any other row is left as it is. */
  function Residuals(fit: Spline, xs: seq<real>, lens: seq<nat>): (r: seq<real> -> seq<real>)
    ensures forall u :: |u| == |lens| ==> |r(u)| == |lens|
    ensures forall u, j {:trigger PeriodMean(Contribution(fit, xs, lens)(u), lens, j)} ::
      |u| == |lens| && 0 <= j < |lens| ==>
      u[j] - r(u)[j] == PeriodMean(Contribution(fit, xs, lens)(u), lens, j)
  {
    var ps := Positions(Total(lens));
    var r := t => if |t| == |lens| then Residual(t, fit(xs, t, ps), lens) else t;
    assert forall u :: Contribution(fit, xs, lens)(u) == fit(xs, u, ps);
    assert forall u :: |u| == |lens| ==> r(u) == Residual(u, fit(xs, u, ps), lens);
    r
  }

  /** The spline's rounds meet the hypotheses of `Telescoping`. */
  lemma SplineRound(fit: Spline, xs: seq<real>, lens: seq<nat>)
    ensures forall u :: |Contribution(fit, xs, lens)(u)| == Total(lens)
    ensures forall u :: |u| == |lens| ==> |Residuals(fit, xs, lens)(u)| == |lens|
    ensures forall u, j :: |u| == |lens| && 0 <= j < |lens| ==>
      PeriodMean(Contribution(fit, xs, lens)(u), lens, j) == u[j] - Residuals(fit, xs, lens)(u)[j]
  {
    var ps := Positions(Total(lens));
    forall u ensures |Contribution(fit, xs, lens)(u)| == Total(lens) {
      assert Contribution(fit, xs, lens)(u) == fit(xs, u, ps);
    }
    forall u | |u| == |lens|
      ensures |Residuals(fit, xs, lens)(u)| == |lens|
      ensures forall j :: 0 <= j < |lens| ==>
        PeriodMean(Contribution(fit, xs, lens)(u), lens, j) == u[j] - Residuals(fit, xs, lens)(u)[j]
    {
      var c := fit(xs, u, ps);
      assert Contribution(fit, xs, lens)(u) == c;
      assert Residuals(fit, xs, lens)(u) == Residual(u, c, lens);
    }
  }

  /** The loop of `interpol_spline_cons_mean` from the input targets: at
      most `maxIter` rounds, all of them when it does not converge, each
      contributing a row over all samples, and a final residual per period
      that, on convergence, is all below `tol`. */
  function Rounds(fit: Spline, y: seq<real>, lens: seq<nat>, maxIter: nat, tol: real): (r: Run)
    requires |y| == |lens|
    ensures |r.contribs| <= maxIter && (!r.converged ==> |r.contribs| == maxIter)
    ensures forall i :: 0 <= i < |r.contribs| ==> |r.contribs[i]| == Total(lens)
    ensures |r.final| == |lens| && (r.converged ==> AllBelow(r.final, tol))
  {
    var xs := Midpoints(lens);
    SplineRound(fit, xs, lens);
    RowLengths(Contribution(fit, xs, lens), Residuals(fit, xs, lens), y, maxIter, tol, Total(lens), |lens|);
    Loop(Contribution(fit, xs, lens), Residuals(fit, xs, lens), y, maxIter, tol)
  }

  /** The routine's result for matching, non-empty inputs. */
  function SplineOutput(fit: Spline, y: seq<real>, lens: seq<nat>, maxIter: nat, tol: real): (out: seq<real>)
    requires |y| == |lens| > 0
    ensures |out| == Total(lens)
  {
    ColumnSum(Rounds(fit, y, lens, maxIter, tol).contribs, Total(lens))
  }

  /** Whatever the spline, the output's mean over each period is the input
      value less the final residual; when the loop stopped on the tolerance,
      every input value exceeds its period's output mean by less than
      `tol`. */
  lemma OutputMeans(fit: Spline, y: seq<real>, lens: seq<nat>, maxIter: nat, tol: real)
    requires |y| == |lens| > 0
    ensures var r := Rounds(fit, y, lens, maxIter, tol);
      |r.final| == |lens| &&
      forall k :: 0 <= k < |lens| ==>
        PeriodMean(SplineOutput(fit, y, lens, maxIter, tol), lens, k) == y[k] - r.final[k] &&
        (r.converged ==> y[k] - PeriodMean(SplineOutput(fit, y, lens, maxIter, tol), lens, k) < tol)
  {
    var xs := Midpoints(lens);
    SplineRound(fit, xs, lens);
    RowLengths(Contribution(fit, xs, lens), Residuals(fit, xs, lens), y, maxIter, tol, Total(lens), |lens|);
    forall k | 0 <= k < |lens| {
      Telescoping(Contribution(fit, xs, lens), Residuals(fit, xs, lens), lens, y, maxIter, tol, k);
    }
  }

  /** The stopping test is `max(resid) < tol` on signed residuals: a fit that
      overshoots every period by far stops the loop at once. Here the fit is
      100 everywhere, the single period's target 0, and the output's mean
      exceeds the target by 100. */
  lemma ConvergedFarFromTarget()
    ensures var fit: Spline := (xs: seq<real>, ys: seq<real>, ps: seq<real>) => Const(|ps|, 100.0);
            var y, lens := [0.0], [1];
            Rounds(fit, y, lens, 5, 0.01).converged
            && PeriodMean(SplineOutput(fit, y, lens, 5, 0.01), lens, 0) == y[0] + 100.0
  {
    var fit: Spline := (xs: seq<real>, ys: seq<real>, ps: seq<real>) => Const(|ps|, 100.0);
    var y, lens := [0.0], [1];
    assert [1][..0] == [];
    assert Total(lens) == 1;
    var xs, ps := Midpoints(lens), Positions(1);
    var c := Const(1, 100.0);
    assert fit(xs, y, ps) == c;
    assert Contribution(fit, xs, lens)(y) == c;
    assert Segment(c, lens, 0) == c;
    MeanConst(1, 100.0);
    assert PeriodMean(c, lens, 0) == 100.0;
    assert Residuals(fit, xs, lens)(y) == Residual(y, c, lens) == [-100.0];
    assert AllBelow([-100.0], 0.01);
    OutputMeans(fit, y, lens, 5, 0.01);
  }

  // ------------------------------------------------------------ the routine

  /** The loop's state before a round: `rows` are the target rows filled so
      far, `contribs` the contributions of the rounds done, and the rounds
      still to run from the last row, with `fuel` rounds left, complete them
      to `whole`. */
  predicate Pending(contrib: seq<real> -> seq<real>, resid: seq<real> -> seq<real>,
                    rows: seq<seq<real>>, contribs: seq<seq<real>>, fuel: nat, tol: real, whole: Run)
  {
    && |rows| > 0
    && var rest := Loop(contrib, resid, rows[|rows| - 1], fuel, tol);
       rows[..|rows| - 1] + rest.targets == whole.targets
       && contribs + rest.contribs == whole.contribs
  }

  /** Before the first round, the rounds still to run are all of them. */
  lemma Begin(contrib: seq<real> -> seq<real>, resid: seq<real> -> seq<real>, t: seq<real>, fuel: nat, tol: real)
    ensures Pending(contrib, resid, [t], [], fuel, tol, Loop(contrib, resid, t, fuel, tol))
  {
    var whole := Loop(contrib, resid, t, fuel, tol);
    assert [t][..0] + whole.targets == whole.targets;
    assert [] + whole.contribs == whole.contribs;
  }

  /** A round that does not stop moves its contribution `c` and its
      residual `res` from the rounds still to run to those done. */
  lemma Advance(contrib: seq<real> -> seq<real>, resid: seq<real> -> seq<real>,
                rows: seq<seq<real>>, contribs: seq<seq<real>>, fuel: nat, tol: real, whole: Run,
                c: seq<real>, res: seq<real>)
    requires Pending(contrib, resid, rows, contribs, fuel, tol, whole) && fuel > 0
    requires c == contrib(rows[|rows| - 1]) && res == resid(rows[|rows| - 1]) && !AllBelow(res, tol)
    ensures Pending(contrib, resid, rows + [res], contribs + [c], fuel - 1, tol, whole)
  {
    var i := |rows| - 1;
    var rest := Loop(contrib, resid, res, fuel - 1, tol);
    var next := rows + [res];
    assert next[..i + 1] == rows && next[i + 1] == res;
    assert Loop(contrib, resid, rows[i], fuel, tol) == Run([rows[i]] + rest.targets, [c] + rest.contribs, rest.converged, rest.final);
    assert rows[..i] + ([rows[i]] + rest.targets) == rows + rest.targets;
    assert contribs + ([c] + rest.contribs) == (contribs + [c]) + rest.contribs;
  }

  /** A round that stops completes the contributions. */
  lemma Stop(contrib: seq<real> -> seq<real>, resid: seq<real> -> seq<real>,
             rows: seq<seq<real>>, contribs: seq<seq<real>>, fuel: nat, tol: real, whole: Run)
    requires Pending(contrib, resid, rows, contribs, fuel, tol, whole) && fuel > 0
    requires AllBelow(resid(rows[|rows| - 1]), tol)
    ensures contribs + [contrib(rows[|rows| - 1])] == whole.contribs
  {
    var t := rows[|rows| - 1];
    assert Loop(contrib, resid, t, fuel, tol) == Run([t], [contrib(t)], true, resid(t));
  }

  /** With no rounds left the contributions are complete. */
  lemma Exhausted(contrib: seq<real> -> seq<real>, resid: seq<real> -> seq<real>,
                  rows: seq<seq<real>>, contribs: seq<seq<real>>, tol: real, whole: Run)
    requires Pending(contrib, resid, rows, contribs, 0, tol, whole)
    ensures contribs == whole.contribs
  {
    assert contribs + [] == contribs;
  }

  /** One round of the loop body: fit and evaluate the spline through the
      current targets, take `resid` from the means over
      `np.split(contribution, cumm_date)`, and test `max(resid) < tol`. */
  method Round(fit: Spline, xs: seq<real>, lens: seq<nat>, ps: seq<real>, cuts: seq<nat>, target: seq<real>, tol: real)
    returns (c: seq<real>, resid: seq<real>, done: bool)
    requires |target| == |lens| > 0 && ps == Positions(Total(lens)) && cuts == Boundaries(lens)
    ensures c == Contribution(fit, xs, lens)(target)
    ensures resid == Residuals(fit, xs, lens)(target)
    ensures |c| == Total(lens) && |resid| == |lens|
    ensures done <==> AllBelow(resid, tol)
  {
    c := fit(xs, target, ps);
    var newMean := GroupMeans(SplitAt(c, cuts));
    MeansBySplit(c, lens);
    resid := Sub(target, newMean);
    assert resid == Residual(target, c, lens);
    MaxBelow(resid, tol);
    done := MaxOf(resid) < tol;
  }

  /** The grid of the routine: `cumm_date` from `accumulate`, the midpoints
      `x_points`, the sample positions `1 .. cumm_date[-1]` and the split
      points `cumm_date[:-1]`. */
  method Grid(lens: seq<nat>) returns (xs: seq<real>, ps: seq<real>, cuts: seq<nat>)
    requires |lens| > 0
    ensures xs == Midpoints(lens) && ps == Positions(Total(lens)) && cuts == Boundaries(lens)
  {
    var totals := Accumulate(lens);
    xs := seq(|lens|, k requires 0 <= k < |lens| =>
      totals[k] as real + 1.0 - (lens[k] as real + 1.0) / 2.0);
    assert xs == Midpoints(lens);
    ps := Positions(totals[|totals| - 1]);
    cuts := totals[..|totals| - 1];
    BoundariesFromTotals(lens, totals);
  }

  /** The correction loop: at most `maxIter` rounds from the targets `y`,
      stopping after the first round whose residuals are all below `tol`;
      the contributions of the rounds done, in order. */
  method Correction(fit: Spline, xs: seq<real>, lens: seq<nat>, ps: seq<real>, cuts: seq<nat>,
                    y: seq<real>, maxIter: nat, tol: real)
    returns (contribs: seq<seq<real>>)
    requires |y| == |lens| > 0 && ps == Positions(Total(lens)) && cuts == Boundaries(lens)
    ensures contribs == Loop(Contribution(fit, xs, lens), Residuals(fit, xs, lens), y, maxIter, tol).contribs
  {
    ghost var contrib, residual := Contribution(fit, xs, lens), Residuals(fit, xs, lens);
    ghost var whole := Loop(contrib, residual, y, maxIter, tol);
    var rows := [y];
    contribs := [];
    var i := 0;
    ghost var left: nat := maxIter;
    Begin(contrib, residual, y, maxIter, tol);
    while i < maxIter
      invariant i <= maxIter && |rows| == i + 1 && left == maxIter - i
      invariant |rows[i]| == |lens|
      invariant Pending(contrib, residual, rows, contribs, left, tol, whole)
    {
      var c, resid, done := Round(fit, xs, lens, ps, cuts, rows[i], tol);
      if done {
        Stop(contrib, residual, rows, contribs, left, tol, whole);
        contribs := contribs + [c];
        return;
      }
      Advance(contrib, residual, rows, contribs, left, tol, whole, c, resid);
      rows := rows + [resid];
      contribs := contribs + [c];
      i := i + 1;
      left := left - 1;
    }
    Exhausted(contrib, residual, rows, contribs, tol, whole);
  }

  /** `interpol_spline_cons_mean(y_points, month_len, max_iter, tol)`.
      Mismatched lengths give no series after a warning; with no periods
      `cumm_date` is empty and `cumm_date[-1]` has no element to take. The
      output is `np.nansum` over the contributions of the rounds done. */
  method InterpolateSpline(fit: Spline, y: seq<real>, lens: seq<nat>, maxIter: nat, tol: real)
    returns (r: Result<seq<real>>)
    ensures |y| != |lens| ==> r == Failure(LengthMismatch)
    ensures |y| == |lens| == 0 ==> r == Failure(EmptyInput)
    ensures |y| == |lens| > 0 ==> r == Success(SplineOutput(fit, y, lens, maxIter, tol))
  {
    if |lens| != |y| {
      return Failure(LengthMismatch);
    }
    if |lens| == 0 {
      return Failure(EmptyInput);
    }
    var xs, ps, cuts := Grid(lens);
    var contribs := Correction(fit, xs, lens, ps, cuts, y, maxIter, tol);
    SplineRound(fit, xs, lens);
    RowLengths(Contribution(fit, xs, lens), Residuals(fit, xs, lens), y, maxIter, tol, |ps|, |lens|);
    return Success(ColumnSum(contribs, |ps|));
  }
}
