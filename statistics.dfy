/**
 * Sample statistics of a return window (T rows, N asset columns), as the
 * optimizers compute them: the column mean, and the unbiased covariance
 * (X - mean)^T (X - mean) / (T - 1).
 */
module Statistics {
  import opened Vectors

  /** Sum over the rows of column j. */
  function ColumnSum(x: Matrix, j: nat): real
    requires forall t :: 0 <= t < |x| ==> j < |x[t]|
  {
    if |x| == 0 then 0.0 else ColumnSum(x[..|x| - 1], j) + x[|x| - 1][j]
  }

  /** historical_returns.mean(dim=0) */
  function SampleMean(x: Matrix, n: nat): (m: Vec)
    requires |x| > 0 && Rectangular(x, n)
    ensures |m| == n
    ensures forall j :: 0 <= j < n ==> m[j] * |x| as real == ColumnSum(x, j)
  {
    seq(n, j requires 0 <= j < n => ColumnSum(x, j) / |x| as real)
  }

  /** historical_returns - mean_returns, broadcast over the rows. */
  function Centered(x: Matrix, m: Vec): (y: Matrix)
    requires Rectangular(x, |m|)
    ensures |y| == |x| && Rectangular(y, |m|)
    ensures forall t, j :: 0 <= t < |x| && 0 <= j < |m| ==> y[t][j] + m[j] == x[t][j]
  {
    seq(|x|, t requires 0 <= t < |x| => seq(|m|, j requires 0 <= j < |m| => x[t][j] - m[j]))
  }

  /** Entry (i, j) of y^T y: the sum over rows of y[t][i] * y[t][j]. */
  function CrossSum(y: Matrix, i: nat, j: nat): real
    requires forall t :: 0 <= t < |y| ==> i < |y[t]| && j < |y[t]|
  {
    if |y| == 0 then 0.0 else CrossSum(y[..|y| - 1], i, j) + y[|y| - 1][i] * y[|y| - 1][j]
  }

  /** (centered.T @ centered) / (T - 1); T = 1 would divide by zero. */
  function SampleCovariance(x: Matrix, n: nat): (c: Matrix)
    requires |x| >= 2 && Rectangular(x, n)
    ensures |c| == n && Rectangular(c, n)
  {
    var y := Centered(x, SampleMean(x, n));
    seq(n, i requires 0 <= i < n =>
      seq(n, j requires 0 <= j < n => CrossSum(y, i, j) / (|x| - 1) as real))
  }

  lemma {:induction false} CrossSumSymmetric(y: Matrix, i: nat, j: nat)
    requires forall t :: 0 <= t < |y| ==> i < |y[t]| && j < |y[t]|
    ensures CrossSum(y, i, j) == CrossSum(y, j, i)
  {
    if |y| > 0 {
      CrossSumSymmetric(y[..|y| - 1], i, j);
    }
  }

  lemma {:induction false} CrossSumSquaresNonNegative(y: Matrix, i: nat)
    requires forall t :: 0 <= t < |y| ==> i < |y[t]|
    ensures CrossSum(y, i, i) >= 0.0
  {
    if |y| > 0 {
      CrossSumSquaresNonNegative(y[..|y| - 1], i);
      var z := y[|y| - 1][i];
      assert z * z >= 0.0;
    }
  }

  /** The sample covariance is a symmetric matrix. */
  lemma SampleCovarianceSymmetric(x: Matrix, n: nat)
    requires |x| >= 2 && Rectangular(x, n)
    ensures forall i, j :: 0 <= i < n && 0 <= j < n ==>
              SampleCovariance(x, n)[i][j] == SampleCovariance(x, n)[j][i]
  {
    var y := Centered(x, SampleMean(x, n));
    forall i, j | 0 <= i < n && 0 <= j < n
      ensures SampleCovariance(x, n)[i][j] == SampleCovariance(x, n)[j][i]
    {
      CrossSumSymmetric(y, i, j);
    }
  }

  /** Its diagonal holds the sample variances, which are never negative. */
  lemma SampleVariancesNonNegative(x: Matrix, n: nat)
    requires |x| >= 2 && Rectangular(x, n)
    ensures forall i :: 0 <= i < n ==> SampleCovariance(x, n)[i][i] >= 0.0
  {
    var y := Centered(x, SampleMean(x, n));
    forall i | 0 <= i < n
      ensures SampleCovariance(x, n)[i][i] >= 0.0
    {
      CrossSumSquaresNonNegative(y, i);
    }
  }

  lemma {:induction false} ColumnSumOfCentered(x: Matrix, m: Vec, j: nat)
    requires Rectangular(x, |m|) && j < |m|
    ensures ColumnSum(Centered(x, m), j) == ColumnSum(x, j) - |x| as real * m[j]
  {
    if |x| > 0 {
      var k := |x| - 1;
      assert Centered(x, m)[..k] == Centered(x[..k], m);
      ColumnSumOfCentered(x[..k], m, j);
    }
  }

  /** Every centred column sums to zero: the mean is the balance point of its column. */
  lemma CenteredColumnsSumToZero(x: Matrix, n: nat, j: nat)
    requires |x| > 0 && Rectangular(x, n) && j < n
    ensures ColumnSum(Centered(x, SampleMean(x, n)), j) == 0.0
  {
    var m := SampleMean(x, n);
    ColumnSumOfCentered(x, m, j);
    assert m[j] * |x| as real == ColumnSum(x, j);
  }
}
