/**
 * The closed-form part of the backtest's performance metrics: total return,
 * the running-maximum drawdown and the win rate. The annualised figures,
 * volatility and the ratios built on them need powers and square roots and
 * are not part of this model.
 */
module Metrics {
  import opened Vectors

  /** (V_last - V_0) / V_0 with V_0 the initial capital. */
  function TotalReturn(values: seq<real>, capital: real): (r: real)
    requires |values| > 0 && capital != 0.0
    ensures values[|values| - 1] == capital * (1.0 + r)
  {
    (values[|values| - 1] - capital) / capital
  }

  /** The largest of s[0..k]. */
  function PrefixMax(s: seq<real>, k: nat): (r: real)
    requires k < |s|
    ensures forall j :: 0 <= j <= k ==> s[j] <= r
    ensures exists j :: 0 <= j <= k && r == s[j]
  {
    if k == 0 then s[0]
    else
      var p := PrefixMax(s, k - 1);
      assert exists j :: 0 <= j <= k && Max(p, s[k]) == s[j] by {
        if p < s[k] {
          assert Max(p, s[k]) == s[k];
        } else {
          var j :| 0 <= j <= k - 1 && p == s[j];
          assert Max(p, s[k]) == s[j];
        }
      }
      Max(p, s[k])
  }

  /** torch.cummax(values, dim=0)[0]: the best value seen so far. */
  function RunningMax(s: seq<real>): (m: seq<real>)
    ensures |m| == |s|
    ensures forall k, j :: 0 <= j <= k < |s| ==> s[j] <= m[k]
  {
    seq(|s|, k requires 0 <= k < |s| => PrefixMax(s, k))
  }

  /** Each running maximum is one of the values seen so far. */
  lemma RunningMaxAttained(s: seq<real>, k: nat)
    requires k < |s|
    ensures exists j :: 0 <= j <= k && RunningMax(s)[k] == s[j]
  {
    var j :| 0 <= j <= k && PrefixMax(s, k) == s[j];
    assert RunningMax(s)[k] == s[j];
  }

  /** (values - cummax) / cummax; the first value must be positive so no running maximum is 0. */
  function Drawdowns(s: seq<real>): (d: seq<real>)
    requires |s| > 0 && s[0] > 0.0
    ensures |d| == |s|
    ensures forall k :: 0 <= k < |s| ==> d[k] <= 0.0
    ensures d[0] == 0.0
  {
    var m := RunningMax(s);
    assert forall k :: 0 <= k < |s| ==> m[k] >= s[0] > 0.0;
    var d := seq(|s|, k requires 0 <= k < |s| => (s[k] - m[k]) / m[k]);
    assert forall k :: 0 <= k < |s| ==> d[k] <= 0.0 by {
      forall k | 0 <= k < |s|
        ensures d[k] <= 0.0
      {
        RelativeFallBounds(s[k], m[k]);
      }
    }
    d
  }

  /** torch.min of a non-empty vector. */
  function MinOf(v: seq<real>): (r: real)
    requires |v| > 0
    ensures forall k :: 0 <= k < |v| ==> r <= v[k]
    ensures exists k :: 0 <= k < |v| && r == v[k]
  {
    var k := |v| - 1;
    if k == 0 then v[0]
    else
      var p := MinOf(v[..k]);
      assert forall j :: 0 <= j < k ==> v[..k][j] == v[j];
      Min(p, v[k])
  }

  /** max_drawdown: the worst relative fall from a running maximum; never positive. */
  function MaxDrawdown(s: seq<real>): (r: real)
    requires |s| > 0 && s[0] > 0.0
    ensures r <= 0.0
    ensures AllNonNegative(s) ==> r >= -1.0
  {
    var d := Drawdowns(s);
    var m := RunningMax(s);
    assert forall k :: 0 <= k < |s| ==> m[k] >= s[0] > 0.0;
    assert AllNonNegative(s) ==> forall k :: 0 <= k < |s| ==> d[k] >= -1.0 by {
      if AllNonNegative(s) {
        forall k | 0 <= k < |s|
          ensures d[k] >= -1.0
        {
          RelativeFallBounds(s[k], m[k]);
        }
      }
    }
    MinOf(d)
  }

  /** (x - m) / m is at least -1 for x >= 0, and exactly -1 at x = 0. */
  lemma RelativeFallBounds(x: real, m: real)
    requires m > 0.0
    ensures x <= m ==> (x - m) / m <= 0.0
    ensures x >= 0.0 ==> (x - m) / m >= -1.0
    ensures x == 0.0 ==> (x - m) / m == -1.0
  {
    var q := (x - m) / m;
    assert q * m == x - m;
    if x == 0.0 {
      assert q * m == -1.0 * m;
    }
  }

  /** A value of 0 anywhere is a fall of at least 100%, and exactly 100% in a non-negative series. */
  lemma ZeroValueIsFullDrawdown(s: seq<real>, k: nat)
    requires |s| > 0 && s[0] > 0.0
    requires k < |s| && s[k] == 0.0
    ensures MaxDrawdown(s) <= -1.0
    ensures AllNonNegative(s) ==> MaxDrawdown(s) == -1.0
  {
    var m := RunningMax(s);
    assert m[k] >= s[0] > 0.0;
    RelativeFallBounds(s[k], m[k]);
    assert Drawdowns(s)[k] == -1.0;
  }

  /** [100, 120, 90, 110]: running max [100, 120, 120, 120], worst drawdown -0.25. */
  lemma MaxDrawdownExample()
    ensures MaxDrawdown([100.0, 120.0, 90.0, 110.0]) == -0.25
  {
    var s := [100.0, 120.0, 90.0, 110.0];
    var m := RunningMax(s);
    assert m[0] == 100.0;
    assert m[1] == 120.0 by { assert s[1] <= m[1]; }
    assert m[2] == 120.0 by { assert s[1] <= m[2]; }
    assert m[3] == 120.0 by { assert s[1] <= m[3]; }
    var d := Drawdowns(s);
    assert d[0] == 0.0;
    assert d[1] == 0.0;
    assert d[2] == -0.25;
    assert d[3] == (110.0 - 120.0) / 120.0;
    var r := MaxDrawdown(s);
    assert r <= -0.25 by { assert r <= d[2]; }
    assert r >= -0.25 by {
      var k :| 0 <= k < 4 && r == d[k];
    }
  }

  /** win_rate: the fraction of periods with a strictly positive return. */
  function WinRate(periodReturns: seq<real>): (r: real)
    requires |periodReturns| > 0
    ensures 0.0 <= r <= 1.0
    ensures r * |periodReturns| as real == CountAbove(periodReturns, 0.0) as real
  {
    var wins := CountAbove(periodReturns, 0.0);
    FractionInUnitInterval(wins as real, |periodReturns| as real);
    QuotientTimesDivisor(wins as real, |periodReturns| as real);
    wins as real / |periodReturns| as real
  }
}
