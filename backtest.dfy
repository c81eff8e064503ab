/**
 * Walk-forward backtest (PortfolioBacktester.run_backtest and
 * _optimize_weights). Each period t from min_history to T-1:
 *   1. ask the rebalance policy, passing the current weights as BOTH the
 *      current and the target argument;
 *   2. if it says yes: optimise on the trailing window, pay the transaction
 *      cost, record cost and turnover, adopt the target, remember t;
 *   3. grow the value by 1 + w . r_t;
 *   4. let the weights drift with the asset returns and renormalise.
 * The gradient optimiser itself is a parameter (Solver): it maps the
 * objective and the return window to its raw final iterate, which is then
 * clamped and renormalised as the source does. Where the float program
 * would divide by a zero sum and carry NaN onwards, the model's run is
 * None.
 */
module Backtest {
  import opened Vectors
  import opened Rebalance
  import opened Costs
  import opened Projection

  /** The method strings _optimize_weights recognises; anything else keeps equal weights. */
  datatype Objective = MinimumVariance | MaximumSharpe | RiskParity | Unrecognised

  /** The raw final iterate of the library optimiser for an objective and a return window. */
  type Solver = (Objective, Matrix) -> Vec

  /** The fields of a PortfolioBacktester: a T x N return matrix and the initial capital. */
  datatype Market = Market(history: Matrix, assets: nat, initialCapital: real)

  /** The keyword arguments of run_backtest. */
  datatype Config = Config(objective: Objective, lookback: nat, freq: Frequency,
                           threshold: real, costModel: CostModel, costRate: real,
                           minHistory: nat, lo: real, hi: real)

  /** portfolio_value, current_weights and last_rebalance_idx. */
  datatype State = State(value: real, weights: Vec, lastRebalance: int)

  /** The preallocated per-period arrays and the rebalance list of BacktestResult. */
  datatype Report = Report(values: seq<real>, periodReturns: seq<real>, weightsHistory: seq<Vec>,
                           transactionCosts: seq<real>, turnover: seq<real>,
                           rebalanceDates: seq<nat>)

  /** What one period computes; `drifted` is the weight vector carried into the next period. */
  datatype Period = Period(rebalanced: bool, cost: real, turnover: real, held: Vec,
                           periodReturn: real, value: real, drifted: Vec)

  /** T >= 1 rows (index 0 is written before the loop), N >= 1 assets, every row of width N. */
  predicate WellShaped(mk: Market)
  {
    |mk.history| >= 1 && mk.assets >= 1 && Rectangular(mk.history, mk.assets)
  }

  ghost predicate SolverShaped(solve: Solver, n: nat)
  {
    forall o, h :: |solve(o, h)| == n
  }

  /** history[max(0, t - lookback) : t] */
  function Window(history: Matrix, t: nat, lookback: nat): (h: Matrix)
    requires t <= |history|
    ensures |h| == if t >= lookback then lookback else t
  {
    history[(if t >= lookback then t - lookback else 0)..t]
  }

  /** The optimiser's raw result: the solver's iterate, or the untouched 1/N start. */
  function RawWeights(window: Matrix, n: nat, objective: Objective, solve: Solver): (w: Vec)
    requires n >= 1 && SolverShaped(solve, n)
    ensures |w| == n
  {
    if objective == Unrecognised then Uniform(n) else solve(objective, window)
  }

  /**
   * Whether the window statistics a recognised objective uses are numbers:
   * one row makes the covariance 0/0, and no rows make the mean 0/0, which
   * only the Sharpe objective reads (with no rows the covariance is a zero
   * matrix and the other two objectives see a zero gradient).
   */
  predicate StatisticsDefined(window: Matrix, objective: Objective)
  {
    objective == Unrecognised || |window| >= 2 || (|window| == 0 && objective != MaximumSharpe)
  }

  /**
   * Whether the first clamp_ and div_ of the 1/N start, which every
   * recognised objective performs before its first loss, divides by a
   * non-zero sum.
   */
  predicate StartDefined(n: nat, objective: Objective, lo: real, hi: real)
    requires n >= 1
  {
    objective == Unrecognised || Sum(Clamp(Uniform(n), lo, hi)) != 0.0
  }

  /** _optimize_weights: the raw result clamped to [lo, hi] and divided by its sum. */
  function TargetWeights(window: Matrix, n: nat, objective: Objective, lo: real, hi: real,
                         solve: Solver): (r: Option<Vec>)
    requires n >= 1 && SolverShaped(solve, n)
    ensures r.Some? <==> && StatisticsDefined(window, objective)
                         && StartDefined(n, objective, lo, hi)
                         && Sum(Clamp(RawWeights(window, n, objective, solve), lo, hi)) != 0.0
    ensures r.Some? ==> |r.value| == n && Sum(r.value) == 1.0
    ensures r.Some? && lo >= 0.0 ==> AllNonNegative(r.value)
  {
    var raw := RawWeights(window, n, objective, solve);
    if !StatisticsDefined(window, objective) || !StartDefined(n, objective, lo, hi) then None
    else if Sum(Clamp(raw, lo, hi)) == 0.0 then None
    else Some(Projected(raw, lo, hi))
  }

  /** The backtest calls compute_transaction_costs with cost_rate only: no fixed fee, no impact. */
  function RebalanceCost(before: Vec, after: Vec, value: real, cfg: Config, sqrt: real -> real): (c: real)
    requires |before| == |after|
  {
    TransactionCost(before, after, value, cfg.costModel, CostParams(cfg.costRate, 0.0, 0.0), sqrt)
  }

  /** asset_values = current_weights * portfolio_value * (1 + returns[t]) */
  function AssetValues(w: Vec, value: real, r: Vec): (a: Vec)
    requires |w| == |r|
    ensures |a| == |w|
  {
    seq(|w|, i requires 0 <= i < |w| => w[i] * value * (1.0 + r[i]))
  }

  /** Steps 3 and 4: realise the return on the held weights, then let them drift. */
  function Realise(r: Vec, rebalanced: bool, cost: real, turnover: real, held: Vec,
                   value: real): (p: Option<Period>)
    requires |held| == |r|
    ensures p.Some? ==> |p.value.drifted| == |r|
  {
    var ret := Dot(held, r);
    var grown := value * (1.0 + ret);
    var assets := AssetValues(held, grown, r);
    var total := Sum(assets);
    if total == 0.0 then None
    else Some(Period(rebalanced, cost, turnover, held, ret, grown, DivideBy(assets, total)))
  }

  /** A rebalancing period: optimise on the window, pay the cost, adopt the target, realise. */
  function Rebalancing(mk: Market, cfg: Config, solve: Solver, sqrt: real -> real, t: nat,
                       st: State): (p: Option<Period>)
    requires WellShaped(mk) && SolverShaped(solve, mk.assets)
    requires t < |mk.history| && |st.weights| == mk.assets
    ensures p.Some? ==> |p.value.drifted| == mk.assets && p.value.rebalanced
  {
    match TargetWeights(Window(mk.history, t, cfg.lookback), mk.assets, cfg.objective,
                        cfg.lo, cfg.hi, solve)
    case None => None
    case Some(target) =>
      if ImpactIsNaN(st.weights, target, st.value, cfg.costModel) then None
      else
        var tc := RebalanceCost(st.weights, target, st.value, cfg, sqrt);
        Realise(mk.history[t], true, tc, L1Distance(target, st.weights), target, st.value - tc)
  }

  /** One period of the walk-forward loop at index t. */
  function Step(mk: Market, cfg: Config, solve: Solver, sqrt: real -> real, t: nat,
                st: State): (p: Option<Period>)
    requires WellShaped(mk) && SolverShaped(solve, mk.assets)
    requires t < |mk.history| && |st.weights| == mk.assets
    ensures p.Some? ==> |p.value.drifted| == mk.assets
    ensures p.Some? ==> p.value.rebalanced
                        == ShouldRebalance(st.weights, st.weights, cfg.freq, t, st.lastRebalance,
                                           cfg.threshold)
  {
    if ShouldRebalance(st.weights, st.weights, cfg.freq, t, st.lastRebalance, cfg.threshold) then
      Rebalancing(mk, cfg, solve, sqrt, t, st)
    else
      Realise(mk.history[t], false, 0.0, 0.0, st.weights, st.value)
  }

  /**
   * The state carried into period t + 1: the period's closing value, the
   * drifted weights, and t as the last rebalance exactly when it rebalanced.
   */
  function Next(t: nat, st: State, p: Period): (s: State)
    ensures s.value == p.value && s.weights == p.drifted
    ensures p.rebalanced ==> s.lastRebalance == t
    ensures !p.rebalanced ==> s.lastRebalance == st.lastRebalance
  {
    State(p.value, p.drifted, if p.rebalanced then t else st.lastRebalance)
  }

  /** The array slots period t writes, and the rebalance date it may append. */
  function Record(rep: Report, t: nat, p: Period): Report
    requires t < |rep.values| && t < |rep.periodReturns| && t < |rep.weightsHistory|
    requires t < |rep.transactionCosts| && t < |rep.turnover|
  {
    Report(rep.values[t := p.value], rep.periodReturns[t := p.periodReturn],
           rep.weightsHistory[t := p.drifted],
           if p.rebalanced then rep.transactionCosts[t := p.cost] else rep.transactionCosts,
           if p.rebalanced then rep.turnover[t := p.turnover] else rep.turnover,
           if p.rebalanced then rep.rebalanceDates + [t] else rep.rebalanceDates)
  }

  /**
   * Period t writes slot t of the value, return and weight arrays, slot t of
   * the cost and turnover arrays and a new rebalance date only when it
   * rebalanced, and nothing else.
   */
  lemma RecordWrites(rep: Report, t: nat, p: Period)
    requires ReportShaped(rep, |rep.values|) && t < |rep.values|
    ensures ReportShaped(Record(rep, t, p), |rep.values|)
    ensures var out := Record(rep, t, p);
            && out.values[t] == p.value && out.periodReturns[t] == p.periodReturn
            && out.weightsHistory[t] == p.drifted
            && out.transactionCosts[t] == (if p.rebalanced then p.cost else rep.transactionCosts[t])
            && out.turnover[t] == (if p.rebalanced then p.turnover else rep.turnover[t])
            && out.rebalanceDates == if p.rebalanced then rep.rebalanceDates + [t] else rep.rebalanceDates
    ensures var out := Record(rep, t, p);
            forall k :: 0 <= k < |rep.values| && k != t ==>
              && out.values[k] == rep.values[k] && out.periodReturns[k] == rep.periodReturns[k]
              && out.weightsHistory[k] == rep.weightsHistory[k]
              && out.transactionCosts[k] == rep.transactionCosts[k] && out.turnover[k] == rep.turnover[k]
  {
  }

  /** Every per-period sequence has one slot per period. */
  predicate ReportShaped(rep: Report, len: nat)
  {
    && |rep.values| == len && |rep.periodReturns| == len && |rep.weightsHistory| == len
    && |rep.transactionCosts| == len && |rep.turnover| == len
  }

  /** What one period does from a state, given its index; None where it would divide by zero. */
  type PeriodFn = (nat, State) -> Option<Period>

  /** The loop body of run_backtest as a period function: Step inside the return matrix. */
  function Periods(mk: Market, cfg: Config, solve: Solver, sqrt: real -> real): PeriodFn
    requires WellShaped(mk) && SolverShaped(solve, mk.assets)
  {
    (t: nat, st: State) =>
      if t < |mk.history| && |st.weights| == mk.assets then Step(mk, cfg, solve, sqrt, t, st) else None
  }

  /** The walk forward over periods t .. T-1 from state st, with the arrays so far in rep. */
  function Drive(step: PeriodFn, t: nat, st: State, rep: Report): (r: Option<Report>)
    requires ReportShaped(rep, |rep.values|)
    ensures r.Some? ==> ReportShaped(r.value, |rep.values|)
    decreases |rep.values| - t
  {
    if t >= |rep.values| then Some(rep)
    else
      match step(t, st)
      case None => None
      case Some(p) => Drive(step, t + 1, Next(t, st, p), Record(rep, t, p))
  }

  /** Equal weights, the full capital, and last_rebalance_idx = min_history. */
  function InitialState(mk: Market, cfg: Config): (st: State)
    requires WellShaped(mk)
    ensures st.value == mk.initialCapital && st.lastRebalance == cfg.minHistory
    ensures |st.weights| == mk.assets && AllNonNegative(st.weights) && Sum(st.weights) == 1.0
  {
    SumOfUniform(mk.assets);
    State(mk.initialCapital, Uniform(mk.assets), cfg.minHistory)
  }

  /** Zero-filled arrays, with slot 0 holding the capital and the equal weights. */
  function InitialReport(mk: Market): (rep: Report)
    requires WellShaped(mk)
    ensures ReportShaped(rep, |mk.history|)
  {
    var len := |mk.history|;
    Report(Zeros(len)[0 := mk.initialCapital], Zeros(len),
           seq(len, _ => Zeros(mk.assets))[0 := Uniform(mk.assets)],
           Zeros(len), Zeros(len), [])
  }

  /** The whole backtest; None when some period divides by a zero sum. */
  function Run(mk: Market, cfg: Config, solve: Solver, sqrt: real -> real): (r: Option<Report>)
    requires WellShaped(mk) && SolverShaped(solve, mk.assets)
    ensures r.Some? ==> ReportShaped(r.value, |mk.history|)
  {
    Drive(Periods(mk, cfg, solve, sqrt), cfg.minHistory, InitialState(mk, cfg), InitialReport(mk))
  }

  // ---------------------------------------------------------------------
  // The imperative program

  /**
   * _optimize_weights: start from the solver's iterate (or 1/N), then
   * clamp_ and div_ the weight buffer in place.
   */
  method OptimizeWeights(window: Matrix, n: nat, objective: Objective, lo: real, hi: real,
                         solve: Solver) returns (target: Option<Vec>)
    requires n >= 1 && SolverShaped(solve, n)
    ensures target == TargetWeights(window, n, objective, lo, hi, solve)
  {
    if !StatisticsDefined(window, objective) || !StartDefined(n, objective, lo, hi) {
      return None;
    }
    var raw := if objective == Unrecognised then Uniform(n) else solve(objective, window);
    var weights := new real[n](i requires 0 <= i < n => raw[i]);
    assert weights[..] == raw;
    if Sum(Clamp(weights[..], lo, hi)) == 0.0 {
      return None;
    }
    ProjectInPlace(weights, lo, hi);
    target := Some(weights[..]);
  }

  /**
   * The body of run_backtest's loop for period t: rebalance check, then
   * cost deduction and weight replacement.
   */
  method PeriodStep(mk: Market, cfg: Config, solve: Solver, sqrt: real -> real, t: nat,
                    st: State) returns (p: Option<Period>)
    requires WellShaped(mk) && SolverShaped(solve, mk.assets)
    requires t < |mk.history| && |st.weights| == mk.assets
    ensures p == Step(mk, cfg, solve, sqrt, t, st)
  {
    if ShouldRebalance(st.weights, st.weights, cfg.freq, t, st.lastRebalance, cfg.threshold) {
      p := RebalancePeriod(mk, cfg, solve, sqrt, t, st);
    } else {
      p := RealisePeriod(mk.history[t], false, 0.0, 0.0, st.weights, st.value);
    }
  }

  /** The rebalancing branch: optimise, deduct the cost, adopt the target, then realise. */
  method RebalancePeriod(mk: Market, cfg: Config, solve: Solver, sqrt: real -> real, t: nat,
                         st: State) returns (p: Option<Period>)
    requires WellShaped(mk) && SolverShaped(solve, mk.assets)
    requires t < |mk.history| && |st.weights| == mk.assets
    ensures p == Rebalancing(mk, cfg, solve, sqrt, t, st)
  {
    var target := OptimizeWeights(Window(mk.history, t, cfg.lookback), mk.assets, cfg.objective,
                                  cfg.lo, cfg.hi, solve);
    if target.None? || ImpactIsNaN(st.weights, target.value, st.value, cfg.costModel) {
      return None;
    }
    var cost := RebalanceCost(st.weights, target.value, st.value, cfg, sqrt);
    var traded := L1Distance(target.value, st.weights);
    p := RealisePeriod(mk.history[t], true, cost, traded, target.value, st.value - cost);
  }

  /** Grow the value by 1 + w . r, then let the weights drift and renormalise. */
  method RealisePeriod(r: Vec, rebalanced: bool, cost: real, traded: real, held: Vec,
                       value: real) returns (p: Option<Period>)
    requires |held| == |r|
    ensures p == Realise(r, rebalanced, cost, traded, held, value)
  {
    var periodReturn := Dot(held, r);
    var grown := value * (1.0 + periodReturn);
    var assets := AssetValues(held, grown, r);
    var total := Sum(assets);
    assert grown == value * (1.0 + Dot(held, r));
    assert assets == AssetValues(held, value * (1.0 + Dot(held, r)), r);
    if total == 0.0 {
      return None;
    }
    p := Some(Period(rebalanced, cost, traded, held, periodReturn, grown, DivideBy(assets, total)));
  }

  /** Inside the return matrix the period function is Step. */
  lemma PeriodsAt(mk: Market, cfg: Config, solve: Solver, sqrt: real -> real, t: nat, st: State)
    requires WellShaped(mk) && SolverShaped(solve, mk.assets)
    requires t < |mk.history| && |st.weights| == mk.assets
    ensures Periods(mk, cfg, solve, sqrt)(t, st) == Step(mk, cfg, solve, sqrt, t, st)
  {
  }

  /** A period without a result ends the walk with None. */
  lemma DriveStops(step: PeriodFn, t: nat, st: State, rep: Report)
    requires ReportShaped(rep, |rep.values|) && t < |rep.values| && step(t, st).None?
    ensures Drive(step, t, st, rep).None?
  {
  }

  /** A period with a result hands the walk on to the next index with the updated state and arrays. */
  lemma DriveUnfold(step: PeriodFn, t: nat, st: State, rep: Report, p: Period)
    requires ReportShaped(rep, |rep.values|) && t < |rep.values| && step(t, st) == Some(p)
    ensures ReportShaped(Record(rep, t, p), |rep.values|)
    ensures Drive(step, t, st, rep) == Drive(step, t + 1, Next(t, st, p), Record(rep, t, p))
  {
  }

  /** The array writes of one period: slots t of the value, return and weight arrays, and of the cost arrays and the rebalance dates on a rebalance. */
  method WritePeriod(values: array<real>, periodReturns: array<real>, weightsHistory: array<Vec>,
                     transactionCosts: array<real>, turnover: array<real>, dates: seq<nat>,
                     t: nat, p: Period, ghost rep: Report)
    returns (newDates: seq<nat>)
    requires t < values.Length && t < periodReturns.Length && t < weightsHistory.Length
    requires t < transactionCosts.Length && t < turnover.Length
    requires values != periodReturns && values != transactionCosts && values != turnover
    requires periodReturns != transactionCosts && periodReturns != turnover
    requires transactionCosts != turnover
    requires rep == Report(values[..], periodReturns[..], weightsHistory[..], transactionCosts[..],
                           turnover[..], dates)
    modifies values, periodReturns, weightsHistory, transactionCosts, turnover
    ensures Report(values[..], periodReturns[..], weightsHistory[..], transactionCosts[..],
                   turnover[..], newDates) == Record(rep, t, p)
  {
    newDates := dates;
    if p.rebalanced {
      turnover[t] := p.turnover;
      transactionCosts[t] := p.cost;
      newDates := dates + [t];
    }
    periodReturns[t] := p.periodReturn;
    values[t] := p.value;
    weightsHistory[t] := p.drifted;
  }

  /** The zero-filled per-period arrays, with slot 0 holding the capital and the equal weights. */
  method AllocateArrays(mk: Market)
    returns (values: array<real>, periodReturns: array<real>, weightsHistory: array<Vec>,
             transactionCosts: array<real>, turnover: array<real>)
    requires WellShaped(mk)
    ensures fresh(values) && fresh(periodReturns) && fresh(weightsHistory)
    ensures fresh(transactionCosts) && fresh(turnover)
    ensures values != periodReturns && values != transactionCosts && values != turnover
    ensures periodReturns != transactionCosts && periodReturns != turnover
    ensures transactionCosts != turnover
    ensures Report(values[..], periodReturns[..], weightsHistory[..], transactionCosts[..],
                   turnover[..], []) == InitialReport(mk)
  {
    var len, n := |mk.history|, mk.assets;
    values := new real[len](_ => 0.0);
    periodReturns := new real[len](_ => 0.0);
    weightsHistory := new Vec[len](_ => Zeros(n));
    transactionCosts := new real[len](_ => 0.0);
    turnover := new real[len](_ => 0.0);
    values[0] := mk.initialCapital;
    weightsHistory[0] := Uniform(n);
    assert values[..] == Zeros(len)[0 := mk.initialCapital];
    assert weightsHistory[..] == seq(len, _ => Zeros(n))[0 := Uniform(n)];
  }

  /** run_backtest: the walk-forward loop over preallocated per-period arrays. */
  method RunBacktest(mk: Market, cfg: Config, solve: Solver, sqrt: real -> real)
    returns (result: Option<Report>)
    requires WellShaped(mk) && SolverShaped(solve, mk.assets)
    ensures result == Run(mk, cfg, solve, sqrt)
  {
    var len, n := |mk.history|, mk.assets;
    var values, periodReturns, weightsHistory, transactionCosts, turnover := AllocateArrays(mk);
    var rebalanceDates: seq<nat> := [];
    var currentWeights := Uniform(n);
    var portfolioValue := mk.initialCapital;
    var lastRebalance: int := cfg.minHistory;
    ghost var rep := InitialReport(mk);
    assert InitialState(mk, cfg) == State(portfolioValue, currentWeights, lastRebalance);

    var t := cfg.minHistory;
    while t < len
      invariant |currentWeights| == n && ReportShaped(rep, len)
      invariant rep == Report(values[..], periodReturns[..], weightsHistory[..],
                              transactionCosts[..], turnover[..], rebalanceDates)
      invariant Drive(Periods(mk, cfg, solve, sqrt), t, State(portfolioValue, currentWeights, lastRebalance), rep)
                == Run(mk, cfg, solve, sqrt)
      decreases len - t
    {
      var st := State(portfolioValue, currentWeights, lastRebalance);
      var period := PeriodStep(mk, cfg, solve, sqrt, t, st);
      PeriodsAt(mk, cfg, solve, sqrt, t, st);
      if period.None? {
        DriveStops(Periods(mk, cfg, solve, sqrt), t, st, rep);
        return None;
      }
      var p := period.value;
      DriveUnfold(Periods(mk, cfg, solve, sqrt), t, st, rep, p);
      rebalanceDates := WritePeriod(values, periodReturns, weightsHistory, transactionCosts,
                                    turnover, rebalanceDates, t, p, rep);
      if p.rebalanced {
        lastRebalance := t;
      }
      portfolioValue := p.value;
      currentWeights := p.drifted;
      assert Next(t, st, p) == State(portfolioValue, currentWeights, lastRebalance);
      rep := Record(rep, t, p);
      t := t + 1;
    }
    result := Some(Report(values[..], periodReturns[..], weightsHistory[..],
                          transactionCosts[..], turnover[..], rebalanceDates));
  }
}
