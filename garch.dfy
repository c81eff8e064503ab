/**
 * The variance part of MultiPeriodOptimizer's GARCH(1,1) forecast. Every
 * asset gets the same fixed parameters omega = 0.0001, alpha = 0.1 and
 * beta = 0.85; the forecast starts from each column's unbiased sample
 * variance and applies var <- omega + alpha * var + beta * var once per
 * period, appending each new variance vector. Because the squared-return
 * term is fed the variance itself, the recurrence is the affine map
 * var <- omega + 0.95 * var, which moves every variance monotonically
 * towards its fixed point omega / (1 - 0.95) = 0.002 and closes the gap by
 * a factor 0.95 per period.
 */
module Garch {
  import opened Vectors
  import opened Statistics

  /** The parameters _estimate_garch_parameters assigns to every asset. */
  const Omega: real := 0.0001
  const Alpha: real := 0.1
  const Beta: real := 0.85

  /** alpha + beta: the factor by which each period scales the distance to the long-run variance. */
  const Persistence: real := Alpha + Beta

  /** The fixed point of the recurrence. */
  const LongRunVariance: real := Omega / (1.0 - Persistence)

  /** One step of the recurrence for one asset. */
  function GarchStep(v: real): (next: real)
    ensures next - LongRunVariance == Persistence * (v - LongRunVariance)
  {
    Omega + Alpha * v + Beta * v
  }

  /** k steps for one asset, from variance v. */
  function Variance(v: real, k: nat): real
  {
    if k == 0 then v else GarchStep(Variance(v, k - 1))
  }

  /** One step for every asset: var_t = omega + alpha * var_t + beta * var_t. */
  function StepAll(v: Vec): (w: Vec)
    ensures |w| == |v|
    ensures forall i :: 0 <= i < |v| ==> w[i] - LongRunVariance == Persistence * (v[i] - LongRunVariance)
  {
    seq(|v|, i requires 0 <= i < |v| => GarchStep(v[i]))
  }

  /** var_t after k periods, starting from v0: each asset follows its own scalar recurrence. */
  function Forecast(v0: Vec, k: nat): (v: Vec)
    ensures |v| == |v0|
    ensures forall i :: 0 <= i < |v0| ==> v[i] == Variance(v0[i], k)
  {
    if k == 0 then v0 else StepAll(Forecast(v0, k - 1))
  }

  function Power(x: real, k: nat): real
  {
    if k == 0 then 1.0 else x * Power(x, k - 1)
  }

  /** torch.std(returns, dim=0, unbiased=True) ** 2: the diagonal of the sample covariance. */
  function CurrentVariances(x: Matrix, n: nat): (v: Vec)
    requires |x| >= 2 && Rectangular(x, n)
    ensures |v| == n && AllNonNegative(v)
    ensures forall i :: 0 <= i < n ==> v[i] == SampleCovariance(x, n)[i][i]
  {
    SampleVariancesNonNegative(x, n);
    seq(n, i requires 0 <= i < n => SampleCovariance(x, n)[i][i])
  }

  /**
   * The variance loop of _forecast_covariances: one appended variance vector
   * per period. With fewer than two rows the unbiased std is NaN, and so is
   * every forecast: None.
   */
  method ForecastVariances(x: Matrix, n: nat, horizon: nat) returns (result: Option<seq<Vec>>)
    requires Rectangular(x, n)
    ensures result.None? <==> |x| < 2
    ensures result.Some? ==> |result.value| == horizon
    ensures result.Some? ==>
              forall t :: 0 <= t < horizon ==> result.value[t] == Forecast(CurrentVariances(x, n), t + 1)
  {
    if |x| < 2 {
      return None;
    }
    var v := CurrentVariances(x, n);
    ghost var v0 := v;
    var forecasts := [];
    var t := 0;
    while t < horizon
      invariant 0 <= t <= horizon
      invariant v == Forecast(v0, t)
      invariant |forecasts| == t
      invariant forall j :: 0 <= j < t ==> forecasts[j] == Forecast(v0, j + 1)
    {
      v := StepAll(v);
      forecasts := forecasts + [v];
      t := t + 1;
    }
    result := Some(forecasts);
  }

  /** p * a == (p * b) * d when a == b * d. */
  lemma ScaleProduct(p: real, a: real, b: real, d: real)
    requires a == b * d
    ensures p * a == (p * b) * d
  {
  }

  /** Closed form: after k periods the distance to the long-run variance is 0.95^k times the initial one. */
  lemma {:induction false} VarianceClosedForm(v: real, k: nat)
    ensures Variance(v, k) - LongRunVariance == Power(Persistence, k) * (v - LongRunVariance)
  {
    if k > 0 {
      VarianceClosedForm(v, k - 1);
      ScaleProduct(Persistence, Variance(v, k - 1) - LongRunVariance, Power(Persistence, k - 1),
                   v - LongRunVariance);
    }
  }

  /** 0 < 0.95^k <= 1: the gap never grows and never changes sign. */
  lemma {:induction false} PersistencePowerBounds(k: nat)
    ensures 0.0 < Power(Persistence, k) <= 1.0
  {
    if k > 0 {
      PersistencePowerBounds(k - 1);
      ProductPositive(Persistence, Power(Persistence, k - 1));
    }
  }

  /** The long-run variance is a fixed point. */
  lemma LongRunIsFixed(k: nat)
    ensures Variance(LongRunVariance, k) == LongRunVariance
  {
    VarianceClosedForm(LongRunVariance, k);
  }

  /** A variance above the long-run level falls towards it, one below rises towards it. */
  lemma MovesTowardLongRun(v: real, k: nat)
    ensures v >= LongRunVariance ==> LongRunVariance <= Variance(v, k + 1) <= Variance(v, k)
    ensures v <= LongRunVariance ==> Variance(v, k) <= Variance(v, k + 1) <= LongRunVariance
  {
    VarianceClosedForm(v, k);
    PersistencePowerBounds(k);
    var d := v - LongRunVariance;
    if d >= 0.0 {
      ProductNonNegative(Power(Persistence, k), d);
    } else {
      ProductNonNegative(Power(Persistence, k), -d);
    }
  }

  /** From a non-negative start every forecast is at least omega, so strictly positive. */
  lemma {:induction false} VarianceAtLeastOmega(v: real, k: nat)
    requires v >= 0.0 && k >= 1
    ensures Variance(v, k) >= Omega
  {
    if k > 1 {
      VarianceAtLeastOmega(v, k - 1);
    }
  }

  /** Every variance vector _forecast_covariances produces is positive in every entry. */
  lemma ForecastsPositive(x: Matrix, n: nat, k: nat)
    requires |x| >= 2 && Rectangular(x, n) && k >= 1
    ensures forall i :: 0 <= i < n ==> Forecast(CurrentVariances(x, n), k)[i] >= Omega
  {
    var v0 := CurrentVariances(x, n);
    forall i | 0 <= i < n
      ensures Forecast(v0, k)[i] >= Omega
    {
      VarianceAtLeastOmega(v0[i], k);
    }
  }

  /** Each asset's forecast gap to 0.002 shrinks geometrically by 0.95 per period. */
  lemma ForecastsConverge(v0: Vec, k: nat, i: nat)
    requires i < |v0|
    ensures Forecast(v0, k)[i] - LongRunVariance == Power(Persistence, k) * (v0[i] - LongRunVariance)
  {
    assert Forecast(v0, k)[i] == Variance(v0[i], k);
    VarianceClosedForm(v0[i], k);
  }
}
