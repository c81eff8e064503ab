/**
 * MultiPeriodOptimizer.optimize_dynamic_program and _simulate_forward.
 * The planner fills the H x N table optimal_weights backwards, from row
 * H-1 down to row 0. Row H-1 solves the single-period problem from the
 * initial weights. Every other row t solves the continuation problem from
 * a reference row: the initial weights for t = 0, otherwise
 * optimal_weights[t-1], which the backward loop has not written yet and so
 * is still the zero row the table was created with. The LBFGS iterations
 * are a parameter (StageSolver); what the model keeps is the first
 * feasibility step of the closure (the start is clamped and divided by its
 * clamped sum) and the final clamp and renormalisation. A row whose
 * float computation would divide by a zero sum and carry NaN is None.
 * The forward simulation charges rate * turnover against the wealth, then
 * grows it by 1 + w_t . mu, starting from wealth 1.
 */
module MultiPeriod {
  import opened Vectors
  import opened Projection
  import opened Statistics

  /** _solve_single_period (the last row) or _solve_with_continuation (every other row). */
  datatype Stage = Terminal | Intermediate

  /**
   * The raw final LBFGS iterate of a stage, started from (and charged turnover
   * against) the given weights. _solve_with_continuation receives the next
   * row as well but never reads it, so the solver does not see it.
   */
  type StageSolver = (Stage, Vec) -> Vec

  ghost predicate StageSolverShaped(solve: StageSolver)
  {
    forall s, v :: |solve(s, v)| == |v|
  }

  /** The fields of a MultiPeriodOptimizer the planner uses. */
  datatype Optimizer = Optimizer(history: Matrix, assets: nat, horizon: nat,
                                 costRate: real, riskAversion: real)

  /**
   * At least one asset in every return row, and H >= 1: with H = 0 the
   * average period return divides the Python float wealth - 1 by 0 and
   * raises ZeroDivisionError.
   */
  predicate WellShaped(opt: Optimizer)
  {
    opt.assets >= 1 && Rectangular(opt.history, opt.assets) && opt.horizon >= 1
  }

  /**
   * Whether self.mean_returns and self.cov are numbers: the mean of no rows
   * is 0/0, and the covariance of one row divides a zero matrix by T - 1 = 0.
   * Both stage losses read both, so with fewer than two rows the gradient of
   * the first closure call, and from then on every iterate, is NaN.
   */
  predicate EstimatesDefined(opt: Optimizer)
  {
    |opt.history| >= 2
  }

  /** self.mean_returns */
  function MeanReturns(opt: Optimizer): (m: Vec)
    requires WellShaped(opt) && |opt.history| >= 1
    ensures |m| == opt.assets
  {
    SampleMean(opt.history, opt.assets)
  }

  /**
   * One stage solve. The closure's first evaluation clamps the start and
   * divides it by its clamped sum; the result is clamped and divided once
   * more. Either zero sum makes the row NaN.
   */
  function SolveStage(solve: StageSolver, stage: Stage, start: Vec, lo: real, hi: real): (r: Option<Vec>)
    requires StageSolverShaped(solve)
    ensures r.Some? <==> Sum(Clamp(start, lo, hi)) != 0.0 && Sum(Clamp(solve(stage, start), lo, hi)) != 0.0
    ensures r.Some? ==> |r.value| == |start| && Sum(r.value) == 1.0
    ensures r.Some? && lo >= 0.0 ==> AllNonNegative(r.value)
  {
    if Sum(Clamp(start, lo, hi)) == 0.0 then None
    else
      var raw := solve(stage, start);
      if Sum(Clamp(raw, lo, hi)) == 0.0 then None else Some(Projected(raw, lo, hi))
  }

  /** The last period of the horizon is solved as the terminal stage, every other one as intermediate. */
  function StageOf(t: nat, horizon: nat): (s: Stage)
    ensures s == Terminal <==> t + 1 == horizon
  {
    if t == horizon - 1 then Terminal else Intermediate
  }

  /** The weights row t is solved from: the initial weights for the first and last rows, the zero row otherwise. */
  function ReferenceRow(initial: Vec, horizon: nat, t: nat): (r: Vec)
    ensures |r| == |initial|
    ensures t == 0 || t + 1 == horizon ==> r == initial
    ensures 0 < t && t + 1 != horizon ==> forall i :: 0 <= i < |r| ==> r[i] == 0.0
  {
    if t == 0 || t == horizon - 1 then initial else Zeros(|initial|)
  }

  /** Row t of optimal_weights once the backward loop has finished. */
  function PlanRow(solve: StageSolver, initial: Vec, horizon: nat, lo: real, hi: real, t: nat): (r: Option<Vec>)
    requires StageSolverShaped(solve) && t < horizon
    ensures r.Some? ==> |r.value| == |initial| && Sum(r.value) == 1.0
    ensures r.Some? && lo >= 0.0 ==> AllNonNegative(r.value)
  {
    SolveStage(solve, StageOf(t, horizon), ReferenceRow(initial, horizon, t), lo, hi)
  }

  /** The path statistics _simulate_forward returns. */
  datatype PathStats = PathStats(expectedUtility: real, terminalWealth: real,
                                 totalCosts: real, averageReturn: real)

  /** MultiPeriodResult; expected_utility and terminal_wealth are read from the path statistics. */
  datatype PlanResult = PlanResult(optimalWeights: seq<Option<Vec>>, pathStatistics: Option<PathStats>,
                                   rebalancingPlan: seq<(nat, Option<Vec>)>)

  /** Every row of the plan and the mean have the width of the initial weights. */
  predicate PlanShaped(plan: seq<Vec>, initial: Vec, mean: Vec)
  {
    |mean| == |initial| && forall t :: 0 <= t < |plan| ==> |plan[t]| == |initial|
  }

  /** current_w when each period starts (and after the last): the initial weights, then each target in turn. */
  function Held(plan: seq<Vec>, initial: Vec): (h: seq<Vec>)
    ensures |h| == |plan| + 1
  {
    [initial] + plan
  }

  /** sum |target_w - current_w| for every period t; never negative. */
  function Turnovers(plan: seq<Vec>, initial: Vec, mean: Vec): (ts: seq<real>)
    requires PlanShaped(plan, initial, mean)
    ensures |ts| == |plan|
    ensures forall t :: 0 <= t < |plan| ==> ts[t] >= 0.0
  {
    var ts := seq(|plan|, t requires 0 <= t < |plan| => L1Distance(plan[t], Held(plan, initial)[t]));
    assert forall t :: 0 <= t < |plan| ==> ts[t] >= 0.0 by {
      forall t | 0 <= t < |plan|
        ensures ts[t] >= 0.0
      {
        L1DistanceNonNegative(plan[t], Held(plan, initial)[t]);
      }
    }
    ts
  }

  /** total_tc after k periods; non-negative charges add up to a non-negative total. */
  function CostsAfter(turnovers: seq<real>, rate: real, k: nat): (c: real)
    requires k <= |turnovers|
    ensures rate >= 0.0 && (forall j :: 0 <= j < k ==> turnovers[j] >= 0.0) ==> c >= 0.0
  {
    if k == 0 then 0.0 else CostsAfter(turnovers, rate, k - 1) + turnovers[k - 1] * rate
  }

  /** The plan's growth factor 1 + w_t . mu in every period. */
  function GrossReturns(plan: seq<Vec>, mean: Vec): (g: seq<real>)
    requires forall t :: 0 <= t < |plan| ==> |plan[t]| == |mean|
    ensures |g| == |plan|
  {
    seq(|plan|, t requires 0 <= t < |plan| => 1.0 + Dot(plan[t], mean))
  }

  /**
   * wealth after k periods: pay the period's cost, then grow by the period's
   * factor. With a zero rate the wealth is the compounded growth, whatever the turnover.
   */
  function WealthAfter(turnovers: seq<real>, gross: seq<real>, rate: real, k: nat): (w: real)
    requires k <= |turnovers| == |gross|
    ensures rate == 0.0 ==> w == Compounded(gross, k)
  {
    if k == 0 then 1.0 else (WealthAfter(turnovers, gross, rate, k - 1) - turnovers[k - 1] * rate) * gross[k - 1]
  }

  /** The wealth with free trading: the product of the first k growth factors. */
  function Compounded(gross: seq<real>, k: nat): real
    requires k <= |gross|
  {
    if k == 0 then 1.0 else Compounded(gross, k - 1) * gross[k - 1]
  }

  /** The sum of the first k turnovers. */
  function TotalTurnover(turnovers: seq<real>, k: nat): real
    requires k <= |turnovers|
  {
    if k == 0 then 0.0 else TotalTurnover(turnovers, k - 1) + turnovers[k - 1]
  }

  /** W - 0.5 * lambda * W^2, a concave quadratic whose maximum 0.5 / lambda sits at W = 1 / lambda. */
  function Utility(wealth: real, riskAversion: real): (u: real)
    ensures riskAversion > 0.0 ==> u <= 0.5 / riskAversion
    ensures riskAversion > 0.0 && wealth * riskAversion == 1.0 ==> u == 0.5 / riskAversion
  {
    UtilityGap(wealth, riskAversion);
    wealth - 0.5 * riskAversion * (wealth * wealth)
  }

  /** 0.5 / l - (w - 0.5 l w^2) == (0.5 / l) (1 - l w)^2. */
  lemma UtilityGap(w: real, l: real)
    ensures l > 0.0 ==> 0.5 / l - (w - 0.5 * l * (w * w)) >= 0.0
    ensures l > 0.0 && w * l == 1.0 ==> 0.5 / l - (w - 0.5 * l * (w * w)) == 0.0
  {
    if l <= 0.0 {
      return;
    }
    var c := 0.5 / l;
    assert c * l == 0.5;
    var q := 1.0 - l * w;
    ProductNonNegative(c, q * q);
    assert c * (q * q) == c - c * (2.0 * l * w) + c * (l * l * (w * w));
    assert c * (2.0 * l * w) == (c * l) * (2.0 * w);
    assert c * (l * l * (w * w)) == (c * l) * (l * (w * w));
  }

  /** The dictionary _simulate_forward returns, from the final wealth and total cost of H >= 1 periods. */
  function PathSummary(wealth: real, totalCosts: real, periods: nat, riskAversion: real): (r: PathStats)
    requires periods >= 1
    ensures r.averageReturn * periods as real == r.terminalWealth - 1.0
  {
    QuotientTimesDivisor(wealth - 1.0, periods as real);
    PathStats(Utility(wealth, riskAversion), wealth, totalCosts, (wealth - 1.0) / periods as real)
  }

  /** The statistics _simulate_forward computes for a plan of H >= 1 rows. */
  function ForwardStats(plan: seq<Vec>, initial: Vec, mean: Vec, rate: real, riskAversion: real): (r: PathStats)
    requires |plan| >= 1 && PlanShaped(plan, initial, mean)
    ensures r.averageReturn * |plan| as real == r.terminalWealth - 1.0
    ensures rate >= 0.0 ==> r.totalCosts >= 0.0
    ensures riskAversion > 0.0 ==> r.expectedUtility <= 0.5 / riskAversion
  {
    var ts := Turnovers(plan, initial, mean);
    PathSummary(WealthAfter(ts, GrossReturns(plan, mean), rate, |plan|), CostsAfter(ts, rate, |plan|),
                |plan|, riskAversion)
  }

  /** _simulate_forward */
  method SimulateForward(plan: seq<Vec>, initial: Vec, mean: Vec, rate: real, riskAversion: real)
    returns (stats: PathStats)
    requires |plan| >= 1 && PlanShaped(plan, initial, mean)
    ensures stats == ForwardStats(plan, initial, mean, rate, riskAversion)
  {
    ghost var ts := Turnovers(plan, initial, mean);
    ghost var gross := GrossReturns(plan, mean);
    var wealth := 1.0;
    var current := initial;
    var totalCosts := 0.0;
    var t := 0;
    while t < |plan|
      invariant 0 <= t <= |plan|
      invariant current == Held(plan, initial)[t]
      invariant wealth == WealthAfter(ts, gross, rate, t)
      invariant totalCosts == CostsAfter(ts, rate, t)
    {
      wealth, totalCosts := SimulatePeriod(plan, initial, mean, rate, t, current, wealth, totalCosts);
      current := plan[t];
      t := t + 1;
    }
    stats := PathSummary(wealth, totalCosts, |plan|, riskAversion);
  }

  /** One pass of the loop of _simulate_forward: charge the period's turnover, then grow. */
  method SimulatePeriod(plan: seq<Vec>, initial: Vec, mean: Vec, rate: real, t: nat,
                        current: Vec, wealth: real, totalCosts: real)
    returns (newWealth: real, newCosts: real)
    requires PlanShaped(plan, initial, mean) && t < |plan| && current == Held(plan, initial)[t]
    requires wealth == WealthAfter(Turnovers(plan, initial, mean), GrossReturns(plan, mean), rate, t)
    requires totalCosts == CostsAfter(Turnovers(plan, initial, mean), rate, t)
    ensures newWealth == WealthAfter(Turnovers(plan, initial, mean), GrossReturns(plan, mean), rate, t + 1)
    ensures newCosts == CostsAfter(Turnovers(plan, initial, mean), rate, t + 1)
  {
    ghost var ts := Turnovers(plan, initial, mean);
    ghost var gross := GrossReturns(plan, mean);
    var target := plan[t];
    var turnover := L1Distance(target, current);
    assert turnover == ts[t];
    var cost := turnover * rate;
    CostStep(ts, rate, t, totalCosts, turnover, cost);
    newCosts := totalCosts + cost;
    newWealth := wealth - cost;
    ghost var paid := newWealth;
    var periodReturn := Dot(target, mean);
    var growth := 1.0 + periodReturn;
    assert growth == gross[t];
    newWealth := newWealth * growth;
    WealthStep(ts, gross, rate, t, wealth, paid, newWealth, turnover, cost, growth);
  }

  /** Adding a period's charge advances total_tc by one period. */
  lemma CostStep(ts: seq<real>, rate: real, t: nat, costs: real, turnover: real, cost: real)
    requires t < |ts| && costs == CostsAfter(ts, rate, t)
    requires turnover == ts[t] && cost == turnover * rate
    ensures costs + cost == CostsAfter(ts, rate, t + 1)
  {
  }

  /** Paying a period's charge and growing by its factor advances the wealth by one period. */
  lemma WealthStep(ts: seq<real>, gross: seq<real>, rate: real, t: nat,
                   before: real, paid: real, after: real, turnover: real, cost: real, growth: real)
    requires t < |ts| == |gross|
    requires before == WealthAfter(ts, gross, rate, t)
    requires turnover == ts[t]
    requires cost == turnover * rate
    requires paid == before - cost
    requires growth == gross[t]
    requires after == paid * growth
    ensures after == WealthAfter(ts, gross, rate, t + 1)
  {
  }

  /** The rows of a plan none of whose rows is NaN. */
  function Defined(rows: seq<Option<Vec>>): (plan: seq<Vec>)
    requires forall t :: 0 <= t < |rows| ==> rows[t].Some?
    ensures |plan| == |rows| && forall t :: 0 <= t < |rows| ==> Some(plan[t]) == rows[t]
  {
    seq(|rows|, t requires 0 <= t < |rows| => rows[t].value)
  }

  /** [(t, optimal_weights[t]) for t in range(H)] */
  function RebalancingPlan(rows: seq<Option<Vec>>): (plan: seq<(nat, Option<Vec>)>)
    ensures |plan| == |rows| && forall t :: 0 <= t < |rows| ==> plan[t] == (t, rows[t])
  {
    seq(|rows|, t requires 0 <= t < |rows| => (t as nat, rows[t]))
  }

  /** optimize_dynamic_program; the statistics are None when a NaN row makes them NaN. */
  method OptimizeDynamicProgram(opt: Optimizer, initial: Vec, lo: real, hi: real, solve: StageSolver)
    returns (result: PlanResult)
    requires WellShaped(opt) && |initial| == opt.assets && StageSolverShaped(solve)
    ensures |result.optimalWeights| == opt.horizon
    ensures EstimatesDefined(opt) ==> forall t :: 0 <= t < opt.horizon ==>
              result.optimalWeights[t] == PlanRow(solve, initial, opt.horizon, lo, hi, t)
    ensures !EstimatesDefined(opt) ==> forall t :: 0 <= t < opt.horizon ==> result.optimalWeights[t].None?
    ensures |result.rebalancingPlan| == opt.horizon
    ensures forall t :: 0 <= t < opt.horizon ==> result.rebalancingPlan[t] == (t, result.optimalWeights[t])
    ensures result.pathStatistics.Some? <==>
              forall t :: 0 <= t < opt.horizon ==> result.optimalWeights[t].Some?
    ensures result.pathStatistics.Some? ==>
              EstimatesDefined(opt) &&
              PlanShaped(Defined(result.optimalWeights), initial, MeanReturns(opt)) &&
              result.pathStatistics.value == ForwardStats(Defined(result.optimalWeights), initial,
                                                          MeanReturns(opt), opt.costRate, opt.riskAversion)
  {
    var rows: seq<Option<Vec>> := seq(opt.horizon, _ => None);
    if EstimatesDefined(opt) {
      rows := SolveBackwards(initial, opt.horizon, lo, hi, solve);
    }
    var plan := RebalancingPlan(rows);
    if forall k :: 0 <= k < opt.horizon ==> rows[k].Some? {
      assert rows[0].Some?;
      var stats := SimulateForward(Defined(rows), initial, MeanReturns(opt), opt.costRate, opt.riskAversion);
      result := PlanResult(rows, Some(stats), plan);
    } else {
      result := PlanResult(rows, None, plan);
    }
  }

  /** The backward loop of optimize_dynamic_program over the zero-initialised table optimal_weights. */
  method SolveBackwards(initial: Vec, horizon: nat, lo: real, hi: real, solve: StageSolver)
    returns (rows: seq<Option<Vec>>)
    requires StageSolverShaped(solve)
    ensures |rows| == horizon
    ensures forall t :: 0 <= t < horizon ==> rows[t] == PlanRow(solve, initial, horizon, lo, hi, t)
  {
    var n := |initial|;
    var optimal := new Option<Vec>[horizon](_ => Some(Zeros(n)));
    var t := horizon;
    while t > 0
      invariant 0 <= t <= horizon
      invariant forall j :: 0 <= j < t ==> optimal[j] == Some(Zeros(n))
      invariant forall j :: t <= j < horizon ==> optimal[j] == PlanRow(solve, initial, horizon, lo, hi, j)
    {
      t := t - 1;
      if t == horizon - 1 {
        optimal[t] := SolveStage(solve, Terminal, initial, lo, hi);
      } else {
        var start := if t == 0 then initial else optimal[t - 1].value;
        optimal[t] := SolveStage(solve, Intermediate, start, lo, hi);
      }
    }
    rows := optimal[..];
  }

  /** Clamping the zero row gives N copies of clamp(0, lo, hi). */
  lemma ZeroRowClampedSum(n: nat, lo: real, hi: real)
    ensures Sum(Clamp(Zeros(n), lo, hi)) == n as real * ClampValue(0.0, lo, hi)
  {
    var c := Clamp(Zeros(n), lo, hi);
    assert forall i :: 0 <= i < n ==> c[i] == ClampValue(0.0, lo, hi);
    SumOfEqualEntries(c, ClampValue(0.0, lo, hi));
  }

  /**
   * Every row strictly between the first and the last is solved from the zero
   * row, so all of them are the same row; when clamp(0, lo, hi) is 0 (any
   * bounds with lo <= 0 <= hi, the default (0, 1) among them) they are NaN.
   */
  lemma ZeroReferenceRows(solve: StageSolver, initial: Vec, horizon: nat, lo: real, hi: real, t: nat)
    requires StageSolverShaped(solve) && |initial| >= 1
    requires 1 <= t < horizon - 1
    ensures PlanRow(solve, initial, horizon, lo, hi, t) == SolveStage(solve, Intermediate, Zeros(|initial|), lo, hi)
    ensures PlanRow(solve, initial, horizon, lo, hi, t).None? <==>
              ClampValue(0.0, lo, hi) == 0.0 ||
              Sum(Clamp(solve(Intermediate, Zeros(|initial|)), lo, hi)) == 0.0
  {
    var n := |initial|;
    assert ReferenceRow(initial, horizon, t) == Zeros(n) && StageOf(t, horizon) == Intermediate;
    ZeroRowClampedSum(n, lo, hi);
    if ClampValue(0.0, lo, hi) != 0.0 {
      ProductNonZero(n as real, ClampValue(0.0, lo, hi));
    }
  }

  lemma ProductNonZero(x: real, y: real)
    requires x != 0.0 && y != 0.0
    ensures x * y != 0.0
  {
  }

  /** With the default bounds (0, 1) and H >= 3, row 1 is NaN, and so are the path statistics. */
  lemma DefaultBoundsLeaveNaNRow(solve: StageSolver, initial: Vec, horizon: nat)
    requires StageSolverShaped(solve) && |initial| >= 1 && horizon >= 3
    ensures PlanRow(solve, initial, horizon, 0.0, 1.0, 1).None?
  {
    ZeroReferenceRows(solve, initial, horizon, 0.0, 1.0, 1);
  }

  /** total_tc == rate * (sum over periods of the turnover). */
  lemma {:induction false} CostsAreRateTimesTurnover(turnovers: seq<real>, rate: real, k: nat)
    requires k <= |turnovers|
    ensures CostsAfter(turnovers, rate, k) == TotalTurnover(turnovers, k) * rate
  {
    if k > 0 {
      CostsAreRateTimesTurnover(turnovers, rate, k - 1);
    }
  }

  /** A non-negative rate never produces a negative total cost. */
  lemma {:induction false} CostsNonNegative(plan: seq<Vec>, initial: Vec, mean: Vec, rate: real, k: nat)
    requires PlanShaped(plan, initial, mean) && k <= |plan| && rate >= 0.0
    ensures CostsAfter(Turnovers(plan, initial, mean), rate, k) >= 0.0
  {
    if k > 0 {
      var ts := Turnovers(plan, initial, mean);
      CostsNonNegative(plan, initial, mean, rate, k - 1);
      ProductNonNegative(ts[k - 1], rate);
    }
  }

  /** A plan that always holds the initial weights trades nothing. */
  lemma StandingStillTradesNothing(plan: seq<Vec>, initial: Vec, mean: Vec)
    requires PlanShaped(plan, initial, mean)
    requires forall t :: 0 <= t < |plan| ==> plan[t] == initial
    ensures forall t :: 0 <= t < |plan| ==> Turnovers(plan, initial, mean)[t] == 0.0
  {
    L1DistanceSelf(initial);
  }

  /** Periods without turnover cost nothing and leave the wealth at the compounded growth. */
  lemma {:induction false} NoTurnoverIsFree(turnovers: seq<real>, gross: seq<real>, rate: real, k: nat)
    requires k <= |turnovers| == |gross|
    requires forall t :: 0 <= t < |turnovers| ==> turnovers[t] == 0.0
    ensures CostsAfter(turnovers, rate, k) == 0.0
    ensures WealthAfter(turnovers, gross, rate, k) == Compounded(gross, k)
  {
    if k > 0 {
      NoTurnoverIsFree(turnovers, gross, rate, k - 1);
    }
  }

  /** Where every growth factor is 1 the wealth is 1 less the costs paid so far. */
  lemma {:induction false} FlatGrowthWealth(turnovers: seq<real>, gross: seq<real>, rate: real, k: nat)
    requires k <= |turnovers| == |gross|
    requires forall t :: 0 <= t < k ==> gross[t] == 1.0
    ensures WealthAfter(turnovers, gross, rate, k) == 1.0 - CostsAfter(turnovers, rate, k)
  {
    if k > 0 {
      FlatGrowthWealth(turnovers, gross, rate, k - 1);
    }
  }

  /**
   * When no period loses more than everything (every growth factor >= 0),
   * paying costs at a non-negative rate never leaves more wealth than free trading.
   */
  lemma {:induction false} CostsNeverHelp(turnovers: seq<real>, gross: seq<real>, rate: real, k: nat)
    requires k <= |turnovers| == |gross| && rate >= 0.0
    requires forall t :: 0 <= t < |turnovers| ==> turnovers[t] >= 0.0 && gross[t] >= 0.0
    ensures WealthAfter(turnovers, gross, rate, k) <= Compounded(gross, k)
  {
    if k > 0 {
      CostsNeverHelp(turnovers, gross, rate, k - 1);
      ProductNonNegative(turnovers[k - 1], rate);
      PayThenGrow(WealthAfter(turnovers, gross, rate, k - 1), Compounded(gross, k - 1),
                  turnovers[k - 1] * rate, gross[k - 1]);
    }
  }

  lemma PayThenGrow(a: real, b: real, c: real, g: real)
    requires a <= b && c >= 0.0 && g >= 0.0
    ensures (a - c) * g <= b * g
  {
    ProductNonNegative(b - (a - c), g);
  }

}
