/** Whole-array arithmetic on sample series, as the numpy expressions of the
    interpolation routines use it: sums, means and element-wise operations. */
module Series {

  /** Sum of a series (numpy.sum), folded from the right end. */
  function Sum(s: seq<real>): real
  {
    if s == [] then 0.0 else Sum(s[..|s| - 1]) + s[|s| - 1]
  }

  /** Mean of a group (numpy.mean). numpy yields NaN for an empty group; the
      model uses 0.0 there. */
  function Mean(s: seq<real>): (r: real)
    ensures |s| > 0 ==> r * |s| as real == Sum(s)
    ensures |s| == 0 ==> r == 0.0
  {
    if |s| == 0 then 0.0 else Sum(s) / |s| as real
  }

  /** A series of `n` copies of `v`. */
  function Const(n: nat, v: real): seq<real>
  {
    seq(n, _ => v)
  }

  function Add(a: seq<real>, b: seq<real>): seq<real>
    requires |a| == |b|
  {
    seq(|a|, j requires 0 <= j < |a| => a[j] + b[j])
  }

  function Sub(a: seq<real>, b: seq<real>): seq<real>
    requires |a| == |b|
  {
    seq(|a|, j requires 0 <= j < |a| => a[j] - b[j])
  }

  function DivBy(a: seq<real>, d: real): seq<real>
    requires d != 0.0
  {
    seq(|a|, j requires 0 <= j < |a| => a[j] / d)
  }

  lemma {:induction false} SumAppend(a: seq<real>, b: seq<real>)
    ensures Sum(a + b) == Sum(a) + Sum(b)
  {
    if b == [] {
      assert a + b == a;
    } else {
      assert (a + b)[..|a + b| - 1] == a + b[..|b| - 1];
      SumAppend(a, b[..|b| - 1]);
    }
  }

  lemma {:induction false} SumAdd(a: seq<real>, b: seq<real>)
    requires |a| == |b|
    ensures Sum(Add(a, b)) == Sum(a) + Sum(b)
  {
    if a != [] {
      var n := |a| - 1;
      assert Add(a, b)[..n] == Add(a[..n], b[..n]);
      SumAdd(a[..n], b[..n]);
    }
  }

  lemma {:induction false} SumSub(a: seq<real>, b: seq<real>)
    requires |a| == |b|
    ensures Sum(Sub(a, b)) == Sum(a) - Sum(b)
  {
    if a != [] {
      var n := |a| - 1;
      assert Sub(a, b)[..n] == Sub(a[..n], b[..n]);
      SumSub(a[..n], b[..n]);
    }
  }

  lemma {:induction false} SumDivBy(a: seq<real>, d: real)
    requires d != 0.0
    ensures Sum(DivBy(a, d)) == Sum(a) / d
  {
    if a != [] {
      var n := |a| - 1;
      assert DivBy(a, d)[..n] == DivBy(a[..n], d);
      SumDivBy(a[..n], d);
    }
  }

  lemma {:induction false} SumConst(n: nat, v: real)
    ensures Sum(Const(n, v)) == n as real * v
  {
    if n > 0 {
      assert Const(n, v)[..n - 1] == Const(n - 1, v);
      SumConst(n - 1, v);
    }
  }

  /** A sum of non-negative terms is non-negative, and it is zero only when
      every term is. */
  lemma {:induction false} SumNonNegative(s: seq<real>)
    requires forall j :: 0 <= j < |s| ==> s[j] >= 0.0
    ensures Sum(s) >= 0.0
    ensures Sum(s) == 0.0 ==> forall j :: 0 <= j < |s| ==> s[j] == 0.0
  {
    if s != [] {
      var n := |s| - 1;
      SumNonNegative(s[..n]);
      assert forall j :: 0 <= j < n ==> s[..n][j] == s[j];
    }
  }

  /** Spreading a group's mean `m` evenly over its size gives back its sum. */
  lemma SumConstMean(g: seq<real>, m: real)
    requires m == Mean(g)
    ensures Sum(Const(|g|, m)) == Sum(g)
  {
    SumConst(|g|, m);
    if |g| > 0 {
      ProductOfMean(g);
    }
  }

  lemma ProductOfMean(g: seq<real>)
    requires |g| > 0
    ensures |g| as real * Mean(g) == Sum(g)
  {
    var n, t := |g| as real, Sum(g);
    assert Mean(g) == t / n;
    TimesQuotient(n, t);
  }

  /** Groups of one size and one sum have one mean. */
  lemma MeanOfEqualSum(g: seq<real>, h: seq<real>)
    requires |g| == |h| && Sum(g) == Sum(h)
    ensures Mean(g) == Mean(h)
  {
  }

  /** A non-empty group summing to `|g| * v` has mean `v`. */
  lemma MeanFromSum(g: seq<real>, v: real)
    requires |g| > 0 && Sum(g) == |g| as real * v
    ensures Mean(g) == v
  {
    var n, t := |g| as real, Sum(g);
    assert Mean(g) == t / n;
    QuotientOfProduct(n, v);
  }

  lemma MeanConst(n: nat, v: real)
    requires n > 0
    ensures Mean(Const(n, v)) == v
  {
    var c := Const(n, v);
    SumConst(n, v);
    assert |c| as real == n as real;
    MeanFromSum(c, v);
  }

  /** The mean of an element-wise sum is the sum of the means. */
  lemma MeanAdd(a: seq<real>, b: seq<real>)
    requires |a| == |b|
    ensures Mean(Add(a, b)) == Mean(a) + Mean(b)
  {
    SumAdd(a, b);
    if |a| > 0 {
      QuotientOfSum(Sum(a), Sum(b), |a| as real);
    }
  }

  lemma QuotientOfSum(x: real, y: real, n: real)
    requires n != 0.0
    ensures (x + y) / n == x / n + y / n
  {
  }

  lemma TimesQuotient(n: real, t: real)
    requires n != 0.0
    ensures n * (t / n) == t
  {
  }

  lemma QuotientOfProduct(n: real, v: real)
    requires n != 0.0
    ensures (n * v) / n == v
  {
  }
}
