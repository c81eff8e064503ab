/**
 * Rebalance policy of the backtester (PortfolioBacktester.should_rebalance):
 * calendar frequencies compare the number of periods elapsed since the last
 * rebalance with a trading-day count; THRESHOLD compares the largest weight
 * drift with a tolerance.
 */
module Rebalance {
  import opened Vectors

  datatype Frequency = Daily | Weekly | Monthly | Quarterly | Annually | Threshold

  /** True for the frequencies decided by elapsed periods alone. */
  predicate IsCalendar(f: Frequency)
  {
    f != Threshold
  }

  /**
   * Trading-day periods between calendar rebalances. DAILY triggers
   * unconditionally, which is the same as "at least 0 periods elapsed"
   * only when the last rebalance is not in the future.
   */
  function CalendarDays(f: Frequency): (d: nat)
    requires IsCalendar(f) && f != Daily
    ensures d >= 5
    ensures f == Weekly ==> d == 5
    ensures f == Monthly ==> d == 21
    ensures f == Quarterly ==> d == 63
    ensures f == Annually ==> d == 252
  {
    match f
    case Weekly => 5
    case Monthly => 21
    case Quarterly => 63
    case Annually => 252
  }

  /**
   * should_rebalance(current, target, freq, current_idx, last_idx, threshold).
   * The THRESHOLD branch takes torch.max of |current - target|, which needs
   * at least one asset.
   */
  function ShouldRebalance(current: Vec, target: Vec, freq: Frequency,
                           now: int, last: int, threshold: real): (r: bool)
    requires |current| == |target|
    requires freq == Threshold ==> |current| > 0
    ensures freq == Daily ==> r
    ensures IsCalendar(freq) && freq != Daily ==> (r <==> now - last >= CalendarDays(freq))
    ensures freq == Threshold ==>
              (r <==> exists i :: 0 <= i < |current| && Abs(current[i] - target[i]) > threshold)
  {
    match freq
    case Daily => true
    case Weekly => now - last >= 5
    case Monthly => now - last >= 21
    case Quarterly => now - last >= 63
    case Annually => now - last >= 252
    case Threshold => MaxAbsDiff(current, target) > threshold
  }

  /** Calendar decisions do not look at the weight arguments at all. */
  lemma CalendarIgnoresWeights(a: Vec, b: Vec, c: Vec, d: Vec, freq: Frequency,
                               now: int, last: int, t1: real, t2: real)
    requires |a| == |b| && |c| == |d|
    requires IsCalendar(freq)
    ensures ShouldRebalance(a, b, freq, now, last, t1) == ShouldRebalance(c, d, freq, now, last, t2)
  {
  }

  /** A vector compared with itself never drifts past a non-negative threshold. */
  lemma ThresholdIgnoresIdenticalWeights(w: Vec, now: int, last: int, threshold: real)
    requires |w| > 0 && threshold >= 0.0
    ensures !ShouldRebalance(w, w, Threshold, now, last, threshold)
  {
  }

  /** With threshold 0 any drift at all triggers. */
  lemma ThresholdZeroTriggersOnAnyDrift(current: Vec, target: Vec, now: int, last: int)
    requires |current| == |target| > 0 && current != target
    ensures ShouldRebalance(current, target, Threshold, now, last, 0.0)
  {
    var i :| 0 <= i < |current| && current[i] != target[i];
    assert Abs(current[i] - target[i]) > 0.0;
  }

  /** Weights inside [0, 1] are never more than 1 apart, so threshold 1 never triggers. */
  lemma ThresholdOneNeverTriggersOnUnitWeights(current: Vec, target: Vec, now: int, last: int,
                                               threshold: real)
    requires |current| == |target| > 0 && threshold >= 1.0
    requires forall i :: 0 <= i < |current| ==> 0.0 <= current[i] <= 1.0 && 0.0 <= target[i] <= 1.0
    ensures !ShouldRebalance(current, target, Threshold, now, last, threshold)
  {
  }
}
