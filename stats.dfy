/** Sums, means and the signed / absolute / squared error metrics the
    error-analysis scripts print (NumPy reductions over exact reals). */
module Stats {
  import opened Wrappers

  function Abs(x: real): real {
    if x < 0.0 then -x else x
  }

  /** `numpy.sum(xs)`, accumulated from the left. */
  function Sum(xs: seq<real>): real {
    if xs == [] then 0.0 else Sum(xs[..|xs| - 1]) + xs[|xs| - 1]
  }

  /** `numpy.mean(xs)`; NumPy gives NaN for an empty array, modelled as `None`. */
  function Mean(xs: seq<real>): (r: Option<real>)
    ensures r.Some? <==> xs != []
  {
    if xs == [] then None else Some(Sum(xs) / |xs| as real)
  }

  /** `xs - c`, `(xs - c) ** 2` and `abs(xs)` element-wise. */
  function SquaredDeviations(xs: seq<real>, c: real): (r: seq<real>)
    ensures |r| == |xs| && forall i :: 0 <= i < |xs| ==> r[i] == (xs[i] - c) * (xs[i] - c)
  {
    seq(|xs|, i requires 0 <= i < |xs| => (xs[i] - c) * (xs[i] - c))
  }

  /** `numpy.var(xs)` (population variance, ddof = 0). */
  function Variance(xs: seq<real>): (r: Option<real>)
    ensures r.Some? <==> xs != []
  {
    if xs == [] then None
    else
      var m := Sum(xs) / |xs| as real;
      Some(Sum(SquaredDeviations(xs, m)) / |xs| as real)
  }

  function Differences(p: seq<real>, r: seq<real>): (d: seq<real>)
    requires |p| == |r|
    ensures |d| == |p| && forall i :: 0 <= i < |p| ==> d[i] == p[i] - r[i]
  {
    seq(|p|, i requires 0 <= i < |p| => p[i] - r[i])
  }

  function AbsAll(xs: seq<real>): (a: seq<real>)
    ensures |a| == |xs| && forall i :: 0 <= i < |xs| ==> a[i] == Abs(xs[i])
  {
    seq(|xs|, i requires 0 <= i < |xs| => Abs(xs[i]))
  }

  function Squares(xs: seq<real>): (s: seq<real>)
    ensures |s| == |xs| && forall i :: 0 <= i < |xs| ==> s[i] == xs[i] * xs[i]
  {
    seq(|xs|, i requires 0 <= i < |xs| => xs[i] * xs[i])
  }

  /** A sum of non-negative terms is non-negative. */
  lemma {:induction false} SumNonNegative(xs: seq<real>)
    requires forall i :: 0 <= i < |xs| ==> xs[i] >= 0.0
    ensures Sum(xs) >= 0.0
  {
    if xs != [] {
      SumNonNegative(xs[..|xs| - 1]);
    }
  }

  /** A sum of zeros is zero. */
  lemma {:induction false} SumOfZeros(xs: seq<real>)
    requires forall i :: 0 <= i < |xs| ==> xs[i] == 0.0
    ensures Sum(xs) == 0.0
  {
    if xs != [] {
      SumOfZeros(xs[..|xs| - 1]);
    }
  }

  /** Triangle inequality for a sum: |Σ x| ≤ Σ |x|. */
  lemma {:induction false} AbsSumAtMostSumAbs(xs: seq<real>)
    ensures Abs(Sum(xs)) <= Sum(AbsAll(xs))
  {
    if xs != [] {
      var n := |xs|;
      AbsSumAtMostSumAbs(xs[..n - 1]);
      assert AbsAll(xs)[..n - 1] == AbsAll(xs[..n - 1]);
    }
  }

  /** Every term of a sum of non-negative terms is at most that sum. */
  lemma {:induction false} TermAtMostSum(xs: seq<real>, k: nat)
    requires k < |xs|
    requires forall i :: 0 <= i < |xs| ==> xs[i] >= 0.0
    ensures xs[k] <= Sum(xs)
  {
    var n := |xs|;
    SumNonNegative(xs[..n - 1]);
    if k < n - 1 {
      TermAtMostSum(xs[..n - 1], k);
    }
  }

  /** Mean error, mean absolute error and mean squared error (the square of
      the RMSE) of `calc_errors`. */
  datatype ErrorMetrics = ErrorMetrics(me: real, mae: real, mse: real)

  /** `calc_errors(predicted, reference)`: the sums divided by
      `len(reference)`; an empty reference gives NaN in NumPy, here `None`. */
  function CalcErrors(predicted: seq<real>, reference: seq<real>): (r: Option<ErrorMetrics>)
    requires |predicted| == |reference|
    ensures r.Some? <==> reference != []
  {
    if reference == [] then None
    else
      var d := Differences(predicted, reference);
      var n := |reference| as real;
      Some(ErrorMetrics(Sum(d) / n, Sum(AbsAll(d)) / n, Sum(Squares(d)) / n))
  }

  /** The mean absolute error bounds the size of the mean error, and both
      the MAE and the MSE are non-negative. */
  lemma ErrorMetricsBounds(predicted: seq<real>, reference: seq<real>)
    requires |predicted| == |reference| && reference != []
    ensures var m := CalcErrors(predicted, reference).value;
      Abs(m.me) <= m.mae && m.mae >= 0.0 && m.mse >= 0.0
  {
    var d := Differences(predicted, reference);
    var n := |reference| as real;
    AbsSumAtMostSumAbs(d);
    SumNonNegative(AbsAll(d));
    SumNonNegative(Squares(d));
    AbsOfQuotient(Sum(d), n);
    QuotientMonotone(Abs(Sum(d)), Sum(AbsAll(d)), n);
  }

  lemma AbsOfQuotient(x: real, n: real)
    requires n > 0.0
    ensures Abs(x / n) == Abs(x) / n
  {
  }

  lemma QuotientMonotone(x: real, y: real, n: real)
    requires n > 0.0 && x <= y
    ensures x / n <= y / n
  {
  }

  /** A perfect prediction has zero ME, MAE and MSE. */
  lemma ErrorMetricsOfExactPrediction(values: seq<real>)
    requires values != []
    ensures CalcErrors(values, values) == Some(ErrorMetrics(0.0, 0.0, 0.0))
  {
    var d := Differences(values, values);
    SumOfZeros(d);
    SumOfZeros(AbsAll(d));
    SumOfZeros(Squares(d));
  }

  /** `numpy.max(xs)`; NumPy raises ValueError for an empty array. */
  function Max(xs: seq<real>): (m: real)
    requires xs != []
    ensures forall i :: 0 <= i < |xs| ==> xs[i] <= m
    ensures exists i :: 0 <= i < |xs| && xs[i] == m
  {
    if |xs| == 1 then xs[0]
    else
      var m := Max(xs[..|xs| - 1]);
      var last := xs[|xs| - 1];
      assert forall i :: 0 <= i < |xs| - 1 ==> xs[i] == xs[..|xs| - 1][i];
      if last > m then last else m
  }

  /** A sum of terms each at most `m` is at most `|xs| * m`. */
  lemma {:induction false} SumAtMostCountTimesBound(xs: seq<real>, m: real)
    requires forall i :: 0 <= i < |xs| ==> xs[i] <= m
    ensures Sum(xs) <= |xs| as real * m
  {
    if xs != [] {
      var k := |xs| - 1;
      SumAtMostCountTimesBound(xs[..k], m);
      assert k as real * m + m == (k + 1) as real * m;
    }
  }

  /** The mean never exceeds the maximum. */
  lemma MeanAtMostMax(xs: seq<real>)
    requires xs != []
    ensures Sum(xs) / |xs| as real <= Max(xs)
  {
    MeanAtMostBound(xs, Max(xs));
  }

  /** The mean of terms each at most `m` is at most `m`. */
  lemma MeanAtMostBound(xs: seq<real>, m: real)
    requires xs != []
    requires forall i :: 0 <= i < |xs| ==> xs[i] <= m
    ensures Sum(xs) / |xs| as real <= m
  {
    SumAtMostCountTimesBound(xs, m);
    QuotientAtMost(Sum(xs), |xs|, m);
  }

  lemma QuotientAtMost(x: real, n: nat, m: real)
    requires n > 0 && x <= n as real * m
    ensures x / n as real <= m
  {
  }

  /** Sums are monotone in their terms. */
  lemma {:induction false} SumMonotone(xs: seq<real>, ys: seq<real>)
    requires |xs| == |ys|
    requires forall i :: 0 <= i < |xs| ==> xs[i] <= ys[i]
    ensures Sum(xs) <= Sum(ys)
  {
    if xs != [] {
      var k := |xs| - 1;
      SumMonotone(xs[..k], ys[..k]);
    }
  }
}
