/**
 * Transaction-cost model (PortfolioBacktester.compute_transaction_costs).
 * The money traded in asset i is |new_i - old_i| * V; the models charge a
 * rate on the total, optionally a fixed fee per asset actually traded, or a
 * square-root impact term. The square root is a parameter of the model.
 */
module Costs {
  import opened Vectors

  datatype CostModel = Proportional | FixedPlusProportional | MarketImpact | NoCost

  /** cost_rate, fixed_cost and market_impact_coef. */
  datatype CostParams = CostParams(rate: real, fixedCost: real, impactCoef: real)

  /** The keyword defaults: cost_rate 0.001, fixed_cost 0, market_impact_coef 0. */
  const DefaultParams := CostParams(0.001, 0.0, 0.0)

  /** A weight change counts as a trade only above this size. */
  const TradeEpsilon: real := 0.000001

  /** trade_amounts = |after - before| * portfolio_value; never negative for a non-negative value. */
  function TradeAmounts(before: Vec, after: Vec, value: real): (t: Vec)
    requires |before| == |after|
    ensures |t| == |before|
    ensures value >= 0.0 ==> AllNonNegative(t)
  {
    seq(|before|, i requires 0 <= i < |before| => Abs(after[i] - before[i]) * value)
  }

  /**
   * Whether the MARKET_IMPACT branch takes torch.sqrt of a negative trade
   * amount, so that its cost is NaN whatever the coefficient: a negative
   * portfolio value and a weight that moves.
   */
  predicate ImpactIsNaN(before: Vec, after: Vec, value: real, model: CostModel)
    requires |before| == |after|
  {
    model == MarketImpact && value < 0.0 && before != after
  }

  /** ImpactIsNaN holds exactly when MARKET_IMPACT meets some negative trade amount. */
  lemma ImpactIsNaNOnNegativeAmounts(before: Vec, after: Vec, value: real, model: CostModel)
    requires |before| == |after|
    ensures ImpactIsNaN(before, after, value, model)
            <==> model == MarketImpact
                 && exists i :: 0 <= i < |before| && TradeAmounts(before, after, value)[i] < 0.0
  {
    var t := TradeAmounts(before, after, value);
    if ImpactIsNaN(before, after, value, model) {
      var i :| 0 <= i < |before| && before[i] != after[i];
      ProductPositive(Abs(after[i] - before[i]), -value);
      assert t[i] < 0.0;
    }
    if exists i :: 0 <= i < |before| && t[i] < 0.0 {
      var i :| 0 <= i < |before| && t[i] < 0.0;
      NegativeProductFactors(Abs(after[i] - before[i]), value);
    }
  }

  /** A non-negative factor of a negative product is positive and the other factor is negative. */
  lemma NegativeProductFactors(a: real, v: real)
    requires a >= 0.0 && a * v < 0.0
    ensures a > 0.0 && v < 0.0
  {
  }

  /** torch.sqrt applied entry by entry, with the square root given. */
  function SqrtEach(v: Vec, sqrt: real -> real): (r: Vec)
  {
    seq(|v|, i requires 0 <= i < |v| => sqrt(v[i]))
  }

  /** The money traded in total is the value times the L1 distance of the weights. */
  lemma SumOfTradeAmounts(before: Vec, after: Vec, value: real)
    requires |before| == |after|
    ensures Sum(TradeAmounts(before, after, value)) == L1Distance(before, after) * value
  {
    forall i | 0 <= i < |before|
      ensures TradeAmounts(before, after, value)[i] == Scale(AbsDiff(before, after), value)[i]
    {
      TradeAmountAt(before, after, value, i);
    }
    assert TradeAmounts(before, after, value) == Scale(AbsDiff(before, after), value);
    SumScale(AbsDiff(before, after), value);
  }

  lemma TradeAmountAt(before: Vec, after: Vec, value: real, i: nat)
    requires |before| == |after| && i < |before|
    ensures TradeAmounts(before, after, value)[i] == Scale(AbsDiff(before, after), value)[i]
  {
    assert Abs(after[i] - before[i]) == Abs(before[i] - after[i]);
    MultiplyEqual(Abs(after[i] - before[i]), Abs(before[i] - after[i]), value);
  }

  /** n_trades: the assets whose weight moves by more than TradeEpsilon. */
  function TradeCount(before: Vec, after: Vec): (n: nat)
    requires |before| == |after|
    ensures n <= |before|
  {
    CountAbove(AbsDiff(after, before), TradeEpsilon)
  }

  /** trade_amounts.sum() * cost_rate: the rate on all the money traded. */
  function ProportionalCharge(before: Vec, after: Vec, value: real, rate: real): (c: real)
    requires |before| == |after|
    ensures c == L1Distance(before, after) * value * rate
  {
    SumOfTradeAmounts(before, after, value);
    MultiplyEqual(Sum(TradeAmounts(before, after, value)), L1Distance(before, after) * value, rate);
    Sum(TradeAmounts(before, after, value)) * rate
  }

  function TransactionCost(before: Vec, after: Vec, value: real, model: CostModel,
                           p: CostParams, sqrt: real -> real): (c: real)
    requires |before| == |after|
    ensures model == NoCost ==> c == 0.0
    ensures model == Proportional ==> c == L1Distance(before, after) * value * p.rate
    ensures model == FixedPlusProportional ==>
              c == L1Distance(before, after) * value * p.rate + TradeCount(before, after) as real * p.fixedCost
    ensures model == MarketImpact ==>
              c == L1Distance(before, after) * value * p.rate
                   + p.impactCoef * Sum(SqrtEach(TradeAmounts(before, after, value), sqrt))
  {
    match model
    case NoCost => 0.0
    case Proportional => ProportionalCharge(before, after, value, p.rate)
    case FixedPlusProportional =>
      ProportionalCharge(before, after, value, p.rate) + TradeCount(before, after) as real * p.fixedCost
    case MarketImpact =>
      ProportionalCharge(before, after, value, p.rate)
      + p.impactCoef * Sum(SqrtEach(TradeAmounts(before, after, value), sqrt))
  }

  /** Not trading costs nothing, under every model whose square root maps 0 to 0. */
  lemma NoTradeNoCost(w: Vec, value: real, model: CostModel, p: CostParams, sqrt: real -> real)
    requires model == MarketImpact ==> sqrt(0.0) == 0.0
    ensures TransactionCost(w, w, value, model, p, sqrt) == 0.0
  {
    L1DistanceSelf(w);
    var d := AbsDiff(w, w);
    forall i | 0 <= i < |w|
      ensures d[i] == 0.0
    {
      assert d[i] == Abs(w[i] - w[i]) && w[i] - w[i] == 0.0;
    }
    NoTradesCounted(d);
    if model == MarketImpact {
      var roots := SqrtEach(TradeAmounts(w, w, value), sqrt);
      forall i | 0 <= i < |w|
        ensures roots[i] == 0.0
      {
        assert TradeAmounts(w, w, value)[i] == Abs(w[i] - w[i]) * value == 0.0;
      }
      SumOfAllZero(roots);
    }
  }

  lemma {:induction false} NoTradesCounted(d: Vec)
    requires forall i :: 0 <= i < |d| ==> d[i] == 0.0
    ensures CountAbove(d, TradeEpsilon) == 0
  {
    if |d| > 0 {
      NoTradesCounted(d[..|d| - 1]);
    }
  }

  /** The fixed part of FIXED_PLUS_PROPORTIONAL lies in [0, N * fixed_cost]. */
  lemma FixedPartBounds(before: Vec, after: Vec, fixedCost: real)
    requires |before| == |after| && fixedCost >= 0.0
    ensures 0.0 <= TradeCount(before, after) as real * fixedCost <= |before| as real * fixedCost
  {
    var k := TradeCount(before, after);
    assert k as real <= |before| as real;
  }

  /** Proportional costs are never negative for a non-negative rate and value. */
  lemma ProportionalCostNonNegative(before: Vec, after: Vec, value: real, p: CostParams, sqrt: real -> real)
    requires |before| == |after| && p.rate >= 0.0 && value >= 0.0
    ensures TransactionCost(before, after, value, Proportional, p, sqrt) >= 0.0
  {
    L1DistanceNonNegative(before, after);
    assert L1Distance(before, after) * value >= 0.0;
  }

  /** Moving [0.5, 0.5] to [0.7, 0.3] at value 1000 and rate 0.01 costs 4. */
  lemma ProportionalExample(sqrt: real -> real)
    ensures TransactionCost([0.5, 0.5], [0.7, 0.3], 1000.0, Proportional,
                            CostParams(0.01, 0.0, 0.0), sqrt) == 4.0
  {
    var d := AbsDiff([0.5, 0.5], [0.7, 0.3]);
    assert d == [0.2, 0.2];
    assert d[..1] == [0.2];
    assert Sum(d) == 0.4;
  }
}
