/** The circular three-point moving average of the autoregressive routine,
    built from `np.roll` as the routine writes it. */
module Smoothing {
  import opened Series

  /** `np.roll(x, shift)`: sample `j` of the result is sample `j - shift` of
      `x`, indices taken modulo the length (Python's `%` and Dafny's agree
      for a positive modulus). */
  function Roll(x: seq<real>, shift: int): (r: seq<real>)
    ensures |r| == |x|
  {
    seq(|x|, j requires 0 <= j < |x| => x[(j - shift) % |x|])
  }

  /** `(np.roll(x, -1) + x + np.roll(x, 1)) / 3`. */
  function Smooth(x: seq<real>): (r: seq<real>)
    ensures |r| == |x|
  {
    DivBy(Add(Add(Roll(x, -1), x), Roll(x, 1)), 3.0)
  }

  lemma ModInRange(a: int, n: int)
    requires 0 <= a < n
    ensures a % n == a
  {
  }

  lemma ModOneBelow(n: int)
    requires n > 0
    ensures (-1) % n == n - 1 && n % n == 0
  {
  }

  /** Rolling by -1 moves the first sample to the back. */
  lemma RollLeft(x: seq<real>)
    requires |x| > 0
    ensures Roll(x, -1) == x[1..] + x[..1]
  {
    var n := |x|;
    forall j | 0 <= j < n ensures Roll(x, -1)[j] == (x[1..] + x[..1])[j] {
      if j < n - 1 {
        ModInRange(j + 1, n);
      } else {
        ModOneBelow(n);
      }
    }
  }

  /** Rolling by 1 moves the last sample to the front. */
  lemma RollRight(x: seq<real>)
    requires |x| > 0
    ensures Roll(x, 1) == x[|x| - 1..] + x[..|x| - 1]
  {
    var n := |x|;
    forall j | 0 <= j < n ensures Roll(x, 1)[j] == (x[n - 1..] + x[..n - 1])[j] {
      if j == 0 {
        ModOneBelow(n);
      } else {
        ModInRange(j - 1, n);
      }
    }
  }

  /** A rotation keeps the total. */
  lemma SumRoll(x: seq<real>)
    ensures Sum(Roll(x, -1)) == Sum(x)
    ensures Sum(Roll(x, 1)) == Sum(x)
  {
    if |x| > 0 {
      var n := |x|;
      RollLeft(x);
      RollRight(x);
      SumAppend(x[1..], x[..1]);
      SumAppend(x[..1], x[1..]);
      assert x[..1] + x[1..] == x;
      SumAppend(x[n - 1..], x[..n - 1]);
      SumAppend(x[..n - 1], x[n - 1..]);
      assert x[..n - 1] + x[n - 1..] == x;
    }
  }

  /** Circular smoothing moves mass between neighbours but keeps the total
      of the series. */
  lemma SmoothPreservesSum(x: seq<real>)
    ensures Sum(Smooth(x)) == Sum(x)
  {
    var a, b := Roll(x, -1), Roll(x, 1);
    SumRoll(x);
    SumAdd(a, x);
    SumAdd(Add(a, x), b);
    SumDivBy(Add(Add(a, x), b), 3.0);
  }

  /** Sample `j` of the smoothed series averages sample `j` with its two
      neighbours, the first and the last sample being neighbours of each
      other. */
  lemma SmoothAt(x: seq<real>, j: nat)
    requires j < |x|
    ensures var prev := if j == 0 then |x| - 1 else j - 1;
            var next := if j == |x| - 1 then 0 else j + 1;
            Smooth(x)[j] == (x[next] + x[j] + x[prev]) / 3.0
  {
    RollLeft(x);
    RollRight(x);
  }

  /** A constant series is left as it is. */
  lemma SmoothConst(n: nat, v: real)
    ensures Smooth(Const(n, v)) == Const(n, v)
  {
    var c := Const(n, v);
    forall j | 0 <= j < n ensures Smooth(c)[j] == c[j] {
      SmoothAt(c, j);
    }
  }
}
