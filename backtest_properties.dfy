/**
 * What the walk-forward backtest guarantees about its result: the shape of
 * the rebalance schedule, where costs can appear, which slots stay zero,
 * when the run is free of divisions by zero, and what a single period does.
 * The schedule and bookkeeping facts are proved for the walk over any period
 * function that follows the rebalance policy, then for run_backtest's own.
 */
module BacktestProperties {
  import opened Vectors
  import opened Rebalance
  import opened Costs
  import opened Projection
  import opened Backtest
  import opened Metrics

  // ---------------------------------------------------------------------
  // Bookkeeping: dates, cost slots and untouched value slots

  /** Strictly increasing dates, all in [lo, hi). */
  predicate DatesIn(dates: seq<nat>, lo: nat, hi: nat)
  {
    && (forall i, j :: 0 <= i < j < |dates| ==> dates[i] < dates[j])
    && (forall i :: 0 <= i < |dates| ==> lo <= dates[i] < hi)
  }

  /** Costs and turnover are recorded only on rebalance dates. */
  predicate CostsOnlyOnDates(rep: Report)
  {
    && (forall k :: 0 <= k < |rep.transactionCosts| && rep.transactionCosts[k] != 0.0 ==>
          k in rep.rebalanceDates)
    && (forall k :: 0 <= k < |rep.turnover| && rep.turnover[k] != 0.0 ==> k in rep.rebalanceDates)
  }

  /** Value slots the loop has not written: slot 0 holds the capital, the others 0. */
  predicate UnwrittenValues(rep: Report, m: nat, t: nat, capital: real)
  {
    forall k :: 0 <= k < |rep.values| && (k < m || k >= t) ==>
      rep.values[k] == if k == 0 then capital else 0.0
  }

  predicate Bookkeeping(rep: Report, m: nat, t: nat, capital: real)
  {
    DatesIn(rep.rebalanceDates, m, t) && CostsOnlyOnDates(rep) && UnwrittenValues(rep, m, t, capital)
  }

  /** Recording period t >= m keeps the bookkeeping, one period further on. */
  lemma RecordKeepsBookkeeping(rep: Report, t: nat, p: Period, m: nat, capital: real)
    requires ReportShaped(rep, |rep.values|) && t < |rep.values| && m <= t
    requires Bookkeeping(rep, m, t, capital)
    ensures Bookkeeping(Record(rep, t, p), m, t + 1, capital)
  {
    var next := Record(rep, t, p);
    assert forall k :: k in rep.rebalanceDates ==> k in next.rebalanceDates;
    assert p.rebalanced ==> t in next.rebalanceDates;
  }

  lemma {:induction false} DriveBookkeeping(step: PeriodFn, t: nat, st: State, rep: Report,
                                            m: nat, capital: real)
    requires ReportShaped(rep, |rep.values|) && m <= t && Bookkeeping(rep, m, t, capital)
    requires Drive(step, t, st, rep).Some?
    ensures Bookkeeping(Drive(step, t, st, rep).value, m,
                        if t < |rep.values| then |rep.values| else t, capital)
    decreases |rep.values| - t
  {
    if t < |rep.values| {
      var p := step(t, st).value;
      DriveUnfold(step, t, st, rep, p);
      RecordKeepsBookkeeping(rep, t, p, m, capital);
      DriveBookkeeping(step, t + 1, Next(t, st, p), Record(rep, t, p), m, capital);
    }
  }

  /**
   * rebalance_dates is strictly increasing inside [min_history, T); the cost
   * and turnover arrays are zero away from it; value slots 1 .. min_history-1
   * stay 0 and slot 0 keeps the capital unless period 0 is simulated.
   */
  lemma RunBookkeeping(mk: Market, cfg: Config, solve: Solver, sqrt: real -> real)
    requires WellShaped(mk) && SolverShaped(solve, mk.assets)
    requires Run(mk, cfg, solve, sqrt).Some?
    ensures DatesIn(Run(mk, cfg, solve, sqrt).value.rebalanceDates, cfg.minHistory, |mk.history|)
    ensures CostsOnlyOnDates(Run(mk, cfg, solve, sqrt).value)
    ensures forall k :: 0 < k < cfg.minHistory && k < |mk.history| ==>
              Run(mk, cfg, solve, sqrt).value.values[k] == 0.0
    ensures 0 < cfg.minHistory ==> Run(mk, cfg, solve, sqrt).value.values[0] == mk.initialCapital
  {
    var m := cfg.minHistory;
    var rep := InitialReport(mk);
    assert Bookkeeping(rep, m, m, mk.initialCapital);
    DriveBookkeeping(Periods(mk, cfg, solve, sqrt), m, InitialState(mk, cfg), rep, m, mk.initialCapital);
  }

  // ---------------------------------------------------------------------
  // The rebalance schedule

  /** A period function that decides to rebalance exactly as should_rebalance(w, w, ...) does. */
  ghost predicate FollowsPolicy(step: PeriodFn, n: nat, freq: Frequency, threshold: real)
    requires n >= 1
  {
    forall t: nat, st: State :: step(t, st).Some? ==>
      |st.weights| == n
      && step(t, st).value.rebalanced
         == ShouldRebalance(st.weights, st.weights, freq, t, st.lastRebalance, threshold)
  }

  /** run_backtest's loop body follows the policy. */
  lemma PeriodsFollowPolicy(mk: Market, cfg: Config, solve: Solver, sqrt: real -> real)
    requires WellShaped(mk) && SolverShaped(solve, mk.assets)
    ensures FollowsPolicy(Periods(mk, cfg, solve, sqrt), mk.assets, cfg.freq, cfg.threshold)
  {
  }

  lemma {:induction false} DriveNeverRebalances(step: PeriodFn, n: nat, threshold: real, t: nat,
                                                st: State, rep: Report)
    requires n >= 1 && FollowsPolicy(step, n, Threshold, threshold) && threshold >= 0.0
    requires ReportShaped(rep, |rep.values|) && rep.rebalanceDates == []
    requires Drive(step, t, st, rep).Some?
    ensures Drive(step, t, st, rep).value.rebalanceDates == []
    decreases |rep.values| - t
  {
    if t < |rep.values| {
      var p := step(t, st).value;
      ThresholdIgnoresIdenticalWeights(st.weights, t, st.lastRebalance, threshold);
      DriveUnfold(step, t, st, rep, p);
      DriveNeverRebalances(step, n, threshold, t + 1, Next(t, st, p), Record(rep, t, p));
    }
  }

  /**
   * THRESHOLD is asked about the current weights against themselves, so with
   * a non-negative threshold no period ever rebalances and nothing is paid.
   */
  lemma ThresholdNeverRebalances(mk: Market, cfg: Config, solve: Solver, sqrt: real -> real)
    requires WellShaped(mk) && SolverShaped(solve, mk.assets)
    requires cfg.freq == Threshold && cfg.threshold >= 0.0
    requires Run(mk, cfg, solve, sqrt).Some?
    ensures Run(mk, cfg, solve, sqrt).value.rebalanceDates == []
    ensures forall k :: 0 <= k < |mk.history| ==>
              Run(mk, cfg, solve, sqrt).value.transactionCosts[k] == 0.0
              && Run(mk, cfg, solve, sqrt).value.turnover[k] == 0.0
  {
    PeriodsFollowPolicy(mk, cfg, solve, sqrt);
    DriveNeverRebalances(Periods(mk, cfg, solve, sqrt), mk.assets, cfg.threshold, cfg.minHistory,
                         InitialState(mk, cfg), InitialReport(mk));
    RunBookkeeping(mk, cfg, solve, sqrt);
  }

  /** m + P, m + 2P, ..., m + kP: the calendar dates after a start at m. */
  function CalendarDates(m: nat, period: nat, k: nat): (d: seq<nat>)
    ensures |d| == k
    ensures forall i :: 0 <= i < k ==> d[i] == m + (i + 1) * period
  {
    if k == 0 then [] else CalendarDates(m, period, k - 1) + [m + k * period]
  }

  /** The calendar schedule with period P and start m, carried into period t. */
  predicate OnCalendar(m: nat, period: nat, t: nat, st: State, rep: Report)
  {
    var k := |rep.rebalanceDates|;
    && rep.rebalanceDates == CalendarDates(m, period, k)
    && st.lastRebalance == m + k * period
    && t <= st.lastRebalance + period
  }

  /** One calendar period either waits or rebalances exactly on the next date. */
  lemma CalendarStep(m: nat, period: nat, t: nat, st: State, rep: Report, p: Period)
    requires period >= 1 && OnCalendar(m, period, t, st, rep)
    requires ReportShaped(rep, |rep.values|) && t < |rep.values|
    requires p.rebalanced <==> t - st.lastRebalance >= period
    ensures OnCalendar(m, period, t + 1, Next(t, st, p), Record(rep, t, p))
  {
    var k := |rep.rebalanceDates|;
    var next := Record(rep, t, p);
    if p.rebalanced {
      var d := m + (k + 1) * period;
      NextMultiple(k, period);
      assert t == d;
      assert next.rebalanceDates == rep.rebalanceDates + [d];
      assert CalendarDates(m, period, k + 1) == CalendarDates(m, period, k) + [d];
    } else {
      assert next.rebalanceDates == rep.rebalanceDates;
    }
  }

  lemma {:induction false} DriveOnCalendar(step: PeriodFn, n: nat, freq: Frequency, threshold: real,
                                           m: nat, t: nat, st: State, rep: Report)
    requires n >= 1 && IsCalendar(freq) && freq != Daily && FollowsPolicy(step, n, freq, threshold)
    requires ReportShaped(rep, |rep.values|) && OnCalendar(m, CalendarDays(freq), t, st, rep)
    requires Drive(step, t, st, rep).Some?
    ensures var dates := Drive(step, t, st, rep).value.rebalanceDates;
            && dates == CalendarDates(m, CalendarDays(freq), |dates|)
            && (t <= |rep.values| ==> |rep.values| <= m + (|dates| + 1) * CalendarDays(freq))
    decreases |rep.values| - t
  {
    if t < |rep.values| {
      var p := step(t, st).value;
      CalendarPolicy(step, n, freq, threshold, t, st);
      DriveUnfold(step, t, st, rep, p);
      CalendarStep(m, CalendarDays(freq), t, st, rep, p);
      DriveOnCalendar(step, n, freq, threshold, m, t + 1, Next(t, st, p), Record(rep, t, p));
    } else {
      NextMultiple(|rep.rebalanceDates|, CalendarDays(freq));
    }
  }

  /** (k + 1) P = k P + P */
  lemma NextMultiple(k: nat, period: nat)
    ensures (k + 1) * period == k * period + period
  {
  }

  /** A period of a calendar policy rebalances exactly when P periods have passed. */
  lemma CalendarPolicy(step: PeriodFn, n: nat, freq: Frequency, threshold: real, t: nat, st: State)
    requires n >= 1 && IsCalendar(freq) && freq != Daily && FollowsPolicy(step, n, freq, threshold)
    requires step(t, st).Some?
    ensures step(t, st).value.rebalanced <==> t - st.lastRebalance >= CalendarDays(freq)
  {
  }

  /**
   * WEEKLY, MONTHLY, QUARTERLY and ANNUALLY rebalance exactly at
   * min_history + P, min_history + 2P, ... (P = 5, 21, 63, 252), and at no
   * later date that fits before T.
   */
  lemma CalendarSchedule(mk: Market, cfg: Config, solve: Solver, sqrt: real -> real)
    requires WellShaped(mk) && SolverShaped(solve, mk.assets)
    requires IsCalendar(cfg.freq) && cfg.freq != Daily
    requires Run(mk, cfg, solve, sqrt).Some?
    ensures var dates := Run(mk, cfg, solve, sqrt).value.rebalanceDates;
            && dates == CalendarDates(cfg.minHistory, CalendarDays(cfg.freq), |dates|)
            && |mk.history| <= cfg.minHistory + (|dates| + 1) * CalendarDays(cfg.freq)
  {
    PeriodsFollowPolicy(mk, cfg, solve, sqrt);
    DriveOnCalendar(Periods(mk, cfg, solve, sqrt), mk.assets, cfg.freq, cfg.threshold,
                    cfg.minHistory, cfg.minHistory, InitialState(mk, cfg), InitialReport(mk));
  }

  /** Under MONTHLY the first rebalance falls 21 periods after min_history. */
  lemma MonthlyFirstRebalance(mk: Market, cfg: Config, solve: Solver, sqrt: real -> real)
    requires WellShaped(mk) && SolverShaped(solve, mk.assets) && cfg.freq == Monthly
    requires Run(mk, cfg, solve, sqrt).Some?
    requires cfg.minHistory + 21 < |mk.history|
    ensures |Run(mk, cfg, solve, sqrt).value.rebalanceDates| > 0
    ensures Run(mk, cfg, solve, sqrt).value.rebalanceDates[0] == cfg.minHistory + 21
  {
    CalendarSchedule(mk, cfg, solve, sqrt);
  }

  /** lo, lo + 1, ..., hi - 1. */
  function Range(lo: nat, hi: nat): (r: seq<nat>)
    ensures |r| == if lo <= hi then hi - lo else 0
    ensures forall i :: 0 <= i < |r| ==> r[i] == lo + i
    decreases hi
  {
    if hi <= lo then [] else Range(lo, hi - 1) + [hi - 1]
  }

  lemma {:induction false} DriveDaily(step: PeriodFn, n: nat, threshold: real, m: nat, t: nat,
                                      st: State, rep: Report)
    requires n >= 1 && FollowsPolicy(step, n, Daily, threshold)
    requires ReportShaped(rep, |rep.values|) && m <= t <= |rep.values|
    requires rep.rebalanceDates == Range(m, t)
    requires Drive(step, t, st, rep).Some?
    ensures Drive(step, t, st, rep).value.rebalanceDates == Range(m, |rep.values|)
    decreases |rep.values| - t
  {
    if t < |rep.values| {
      var p := step(t, st).value;
      DriveUnfold(step, t, st, rep, p);
      assert Record(rep, t, p).rebalanceDates == Range(m, t + 1);
      DriveDaily(step, n, threshold, m, t + 1, Next(t, st, p), Record(rep, t, p));
    }
  }

  /** DAILY rebalances in every period from min_history to T - 1. */
  lemma DailySchedule(mk: Market, cfg: Config, solve: Solver, sqrt: real -> real)
    requires WellShaped(mk) && SolverShaped(solve, mk.assets)
    requires cfg.freq == Daily && cfg.minHistory <= |mk.history|
    requires Run(mk, cfg, solve, sqrt).Some?
    ensures Run(mk, cfg, solve, sqrt).value.rebalanceDates == Range(cfg.minHistory, |mk.history|)
  {
    PeriodsFollowPolicy(mk, cfg, solve, sqrt);
    DriveDaily(Periods(mk, cfg, solve, sqrt), mk.assets, cfg.threshold, cfg.minHistory,
               cfg.minHistory, InitialState(mk, cfg), InitialReport(mk));
  }

  // ---------------------------------------------------------------------
  // One period

  /**
   * The backtest passes cost_rate only, so every model but NO_COST is
   * proportional wherever the cost is a number.
   */
  lemma RebalanceCostIsProportional(before: Vec, after: Vec, value: real, cfg: Config,
                                    sqrt: real -> real)
    requires |before| == |after| && !ImpactIsNaN(before, after, value, cfg.costModel)
    ensures cfg.costModel == NoCost ==> RebalanceCost(before, after, value, cfg, sqrt) == 0.0
    ensures cfg.costModel != NoCost ==>
              RebalanceCost(before, after, value, cfg, sqrt)
              == L1Distance(before, after) * value * cfg.costRate
  {
  }

  /** The drifted asset values add up to the grown value times w . (1 + r). */
  lemma AssetValuesSum(w: Vec, value: real, r: Vec)
    requires |w| == |r|
    ensures Sum(AssetValues(w, value, r)) == Dot(w, OnePlus(r)) * value
  {
    var a := AssetValues(w, value, r);
    var s := Scale(Times(w, OnePlus(r)), value);
    forall i | 0 <= i < |w|
      ensures a[i] == s[i]
    {
      SwapLastFactors(w[i], value, 1.0 + r[i]);
    }
    assert a == s;
    SumScale(Times(w, OnePlus(r)), value);
  }

  /** Weights on the simplex: non-negative, summing to 1. */
  predicate OnSimplex(w: Vec)
  {
    AllNonNegative(w) && Sum(w) == 1.0
  }

  /**
   * With every asset return above -100%, a positive value held in simplex
   * weights grows to a positive value and drifts to simplex weights.
   */
  lemma RealiseKeepsSimplex(r: Vec, rebalanced: bool, cost: real, traded: real, held: Vec,
                            value: real)
    requires |held| == |r| && OnSimplex(held) && value > 0.0
    requires forall i :: 0 <= i < |r| ==> r[i] > -1.0
    ensures Realise(r, rebalanced, cost, traded, held, value).Some?
    ensures Realise(r, rebalanced, cost, traded, held, value).value.value > 0.0
    ensures OnSimplex(Realise(r, rebalanced, cost, traded, held, value).value.drifted)
  {
    var grown := value * (1.0 + Dot(held, r));
    GrowthPositive(r, held, value);
    var a := AssetValues(held, grown, r);
    AssetValuesNonNegative(held, grown, r);
    Normalised(a);
  }

  /** The portfolio's gross growth factor w . (1 + r) is 1 + w . r, and positive. */
  lemma GrowthFactor(r: Vec, held: Vec)
    requires |held| == |r| && OnSimplex(held)
    requires forall i :: 0 <= i < |r| ==> r[i] > -1.0
    ensures Dot(held, OnePlus(r)) == 1.0 + Dot(held, r)
    ensures 1.0 + Dot(held, r) > 0.0
  {
    DotOnePlus(held, r);
    DotPositive(held, OnePlus(r));
  }

  /** The grown value and the sum of the drifted asset values are both positive. */
  lemma GrowthPositive(r: Vec, held: Vec, value: real)
    requires |held| == |r| && OnSimplex(held) && value > 0.0
    requires forall i :: 0 <= i < |r| ==> r[i] > -1.0
    ensures value * (1.0 + Dot(held, r)) > 0.0
    ensures Sum(AssetValues(held, value * (1.0 + Dot(held, r)), r)) > 0.0
  {
    GrowthFactor(r, held);
    ProductPositive(value, 1.0 + Dot(held, r));
    AssetValuesSum(held, value * (1.0 + Dot(held, r)), r);
    ProductPositive(Dot(held, OnePlus(r)), value * (1.0 + Dot(held, r)));
  }

  lemma AssetValuesNonNegative(held: Vec, grown: real, r: Vec)
    requires |held| == |r| && AllNonNegative(held) && grown > 0.0
    requires forall i :: 0 <= i < |r| ==> r[i] > -1.0
    ensures AllNonNegative(AssetValues(held, grown, r))
  {
    var a := AssetValues(held, grown, r);
    forall i | 0 <= i < |a|
      ensures a[i] >= 0.0
    {
      ProductNonNegative(held[i], grown);
      ProductNonNegative(held[i] * grown, 1.0 + r[i]);
    }
  }

  /** A period with no market move and no rebalance leaves value and weights as they were. */
  lemma StillMarketKeepsState(r: Vec, held: Vec, value: real)
    requires |held| == |r| && Sum(held) == 1.0 && value != 0.0
    requires forall i :: 0 <= i < |r| ==> r[i] == 0.0
    ensures Realise(r, false, 0.0, 0.0, held, value)
            == Some(Period(false, 0.0, 0.0, held, 0.0, value, held))
  {
    StillMarketValues(r, held, value);
    SumScale(held, value);
    MultiplyEqual(Sum(held), 1.0, value);
    ScaleDivideCancel(held, value);
  }

  /** With zero returns w . r is 0 and the asset values are the weights times the value. */
  lemma StillMarketValues(r: Vec, held: Vec, value: real)
    requires |held| == |r|
    requires forall i :: 0 <= i < |r| ==> r[i] == 0.0
    ensures Dot(held, r) == 0.0
    ensures value * (1.0 + Dot(held, r)) == value
    ensures AssetValues(held, value, r) == Scale(held, value)
  {
    var products := Times(held, r);
    forall i | 0 <= i < |products|
      ensures products[i] == 0.0
    {
      assert products[i] == held[i] * r[i];
    }
    SumOfAllZero(products);
    forall i | 0 <= i < |held|
      ensures AssetValues(held, value, r)[i] == Scale(held, value)[i]
    {
      StillAssetValueAt(r, held, value, i);
    }
  }

  lemma StillAssetValueAt(r: Vec, held: Vec, value: real, i: nat)
    requires |held| == |r| && i < |r| && r[i] == 0.0
    ensures AssetValues(held, value, r)[i] == Scale(held, value)[i]
  {
    assert 1.0 + r[i] == 1.0;
  }

  /** The cost of moving between simplex weights is below the value when 2 * cost_rate < 1. */
  lemma CostBelowValue(cost: real, distance: real, value: real, rate: real)
    requires 0.0 <= distance <= 2.0 && value > 0.0 && 0.0 <= rate && 2.0 * rate < 1.0
    requires cost == distance * value * rate
    ensures 0.0 <= cost < value
  {
    var q := distance * rate;
    ProductNonNegative(2.0 - distance, rate);
    assert (2.0 - distance) * rate == 2.0 * rate - q;
    ProductNonNegative(distance, rate);
    assert 0.0 <= q < 1.0;
    SwapLastFactors(distance, value, rate);
    assert cost == q * value;
    ProductPositive(1.0 - q, value);
    assert (1.0 - q) * value == value - q * value;
    ProductNonNegative(q, value);
  }

  // ---------------------------------------------------------------------
  // A run without divisions by zero

  /** Every projection the optimiser can be asked for has a non-zero clamped sum. */
  ghost predicate ProjectionDefined(solve: Solver, n: nat, lo: real, hi: real)
    requires n >= 1 && SolverShaped(solve, n)
  {
    forall o: Objective, h: Matrix :: Sum(Clamp(RawWeights(h, n, o, solve), lo, hi)) != 0.0
  }

  /** A strictly positive lower bound below the upper one makes every projection defined. */
  lemma PositiveLowerBoundDefinesProjection(solve: Solver, n: nat, lo: real, hi: real)
    requires n >= 1 && SolverShaped(solve, n) && 0.0 < lo <= hi
    ensures ProjectionDefined(solve, n, lo, hi)
  {
    forall o: Objective, h: Matrix
      ensures Sum(Clamp(RawWeights(h, n, o, solve), lo, hi)) != 0.0
    {
      ClampedSumPositive(RawWeights(h, n, o, solve), lo, hi);
    }
  }

  /**
   * Positive capital, returns above -100%, a cost rate in [0, 1/2),
   * non-negative weight bounds with defined projections, and for a
   * recognised objective windows of at least two rows.
   */
  ghost predicate Viable(mk: Market, cfg: Config, solve: Solver)
    requires WellShaped(mk) && SolverShaped(solve, mk.assets)
  {
    && mk.initialCapital > 0.0
    && (forall t, i :: 0 <= t < |mk.history| && 0 <= i < mk.assets ==> mk.history[t][i] > -1.0)
    && 0.0 <= cfg.costRate && 2.0 * cfg.costRate < 1.0
    && 0.0 <= cfg.lo && ProjectionDefined(solve, mk.assets, cfg.lo, cfg.hi)
    && (cfg.objective != Unrecognised ==> cfg.minHistory >= 2 && cfg.lookback >= 2)
  }

  /** A positive value held in N simplex weights. */
  predicate Healthy(st: State, n: nat)
  {
    st.value > 0.0 && |st.weights| == n && OnSimplex(st.weights)
  }

  /** In a viable run every rebalance target exists and lies on the simplex. */
  lemma ViableTarget(mk: Market, cfg: Config, solve: Solver, t: nat)
    requires WellShaped(mk) && SolverShaped(solve, mk.assets) && Viable(mk, cfg, solve)
    requires cfg.minHistory <= t < |mk.history|
    ensures var target := TargetWeights(Window(mk.history, t, cfg.lookback), mk.assets,
                                        cfg.objective, cfg.lo, cfg.hi, solve);
            target.Some? && |target.value| == mk.assets && OnSimplex(target.value)
  {
    var window := Window(mk.history, t, cfg.lookback);
    assert Sum(Clamp(RawWeights(window, mk.assets, Unrecognised, solve), cfg.lo, cfg.hi)) != 0.0;
    assert Sum(Clamp(RawWeights(window, mk.assets, cfg.objective, solve), cfg.lo, cfg.hi)) != 0.0;
  }

  /** Moving between simplex weights at a cost rate in [0, 1/2) leaves a positive value. */
  lemma CostLeavesValue(before: Vec, after: Vec, value: real, cfg: Config, sqrt: real -> real)
    requires |before| == |after| && OnSimplex(before) && OnSimplex(after) && value > 0.0
    requires 0.0 <= cfg.costRate && 2.0 * cfg.costRate < 1.0
    ensures 0.0 <= RebalanceCost(before, after, value, cfg, sqrt) < value
  {
    RebalanceCostIsProportional(before, after, value, cfg, sqrt);
    L1DistanceOfSimplexPoints(before, after);
    L1DistanceNonNegative(before, after);
    if cfg.costModel != NoCost {
      CostBelowValue(RebalanceCost(before, after, value, cfg, sqrt), L1Distance(before, after),
                     value, cfg.costRate);
    }
  }

  lemma StepKeepsHealth(mk: Market, cfg: Config, solve: Solver, sqrt: real -> real, t: nat,
                        st: State)
    requires WellShaped(mk) && SolverShaped(solve, mk.assets) && Viable(mk, cfg, solve)
    requires cfg.minHistory <= t < |mk.history| && Healthy(st, mk.assets)
    ensures Step(mk, cfg, solve, sqrt, t, st).Some?
    ensures Healthy(Next(t, st, Step(mk, cfg, solve, sqrt, t, st).value), mk.assets)
  {
    var r := mk.history[t];
    assert forall i :: 0 <= i < |r| ==> r[i] > -1.0;
    if ShouldRebalance(st.weights, st.weights, cfg.freq, t, st.lastRebalance, cfg.threshold) {
      ViableTarget(mk, cfg, solve, t);
      var target := TargetWeights(Window(mk.history, t, cfg.lookback), mk.assets, cfg.objective,
                                  cfg.lo, cfg.hi, solve).value;
      CostLeavesValue(st.weights, target, st.value, cfg, sqrt);
      var tc := RebalanceCost(st.weights, target, st.value, cfg, sqrt);
      RealiseKeepsSimplex(r, true, tc, L1Distance(target, st.weights), target, st.value - tc);
    } else {
      RealiseKeepsSimplex(r, false, 0.0, 0.0, st.weights, st.value);
    }
  }

  /** A period function that, in periods m .. len-1, keeps every healthy state healthy. */
  ghost predicate KeepsHealth(step: PeriodFn, m: nat, len: nat, n: nat)
  {
    forall t: nat, st: State :: m <= t < len && Healthy(st, n) ==>
      step(t, st).Some? && Healthy(Next(t, st, step(t, st).value), n)
  }

  lemma PeriodsKeepHealth(mk: Market, cfg: Config, solve: Solver, sqrt: real -> real)
    requires WellShaped(mk) && SolverShaped(solve, mk.assets) && Viable(mk, cfg, solve)
    ensures KeepsHealth(Periods(mk, cfg, solve, sqrt), cfg.minHistory, |mk.history|, mk.assets)
  {
    forall t: nat, st: State | cfg.minHistory <= t < |mk.history| && Healthy(st, mk.assets)
      ensures Periods(mk, cfg, solve, sqrt)(t, st).Some?
      ensures Healthy(Next(t, st, Periods(mk, cfg, solve, sqrt)(t, st).value), mk.assets)
    {
      StepKeepsHealth(mk, cfg, solve, sqrt, t, st);
    }
  }

  lemma {:induction false} DriveStaysHealthy(step: PeriodFn, n: nat, m: nat, t: nat, st: State,
                                             rep: Report)
    requires ReportShaped(rep, |rep.values|) && KeepsHealth(step, m, |rep.values|, n)
    requires m <= t && Healthy(st, n)
    requires forall k :: m <= k < t && k < |rep.values| ==>
               rep.values[k] > 0.0 && OnSimplex(rep.weightsHistory[k])
    ensures Drive(step, t, st, rep).Some?
    ensures forall k :: m <= k < |rep.values| ==>
              Drive(step, t, st, rep).value.values[k] > 0.0
              && OnSimplex(Drive(step, t, st, rep).value.weightsHistory[k])
    decreases |rep.values| - t
  {
    if t < |rep.values| {
      var p := step(t, st).value;
      DriveUnfold(step, t, st, rep, p);
      DriveStaysHealthy(step, n, m, t + 1, Next(t, st, p), Record(rep, t, p));
    }
  }

  /**
   * Under those conditions no period divides by zero: the run has a result,
   * every value from min_history on is positive and every recorded weight
   * vector from min_history on is non-negative and sums to 1.
   */
  lemma ViableRunSucceeds(mk: Market, cfg: Config, solve: Solver, sqrt: real -> real)
    requires WellShaped(mk) && SolverShaped(solve, mk.assets) && Viable(mk, cfg, solve)
    ensures Run(mk, cfg, solve, sqrt).Some?
    ensures forall k :: cfg.minHistory <= k < |mk.history| ==>
              Run(mk, cfg, solve, sqrt).value.values[k] > 0.0
              && OnSimplex(Run(mk, cfg, solve, sqrt).value.weightsHistory[k])
  {
    SumOfUniform(mk.assets);
    PeriodsKeepHealth(mk, cfg, solve, sqrt);
    DriveStaysHealthy(Periods(mk, cfg, solve, sqrt), mk.assets, cfg.minHistory, cfg.minHistory,
                      InitialState(mk, cfg), InitialReport(mk));
  }

  /**
   * With min_history > 1 the value slot 1 is never written and stays 0, so
   * max_drawdown reports a fall of at least 100%, exactly 100% in a viable run.
   */
  lemma UnwrittenSlotIsFullDrawdown(mk: Market, cfg: Config, solve: Solver, sqrt: real -> real)
    requires WellShaped(mk) && SolverShaped(solve, mk.assets)
    requires mk.initialCapital > 0.0 && 1 < cfg.minHistory && 1 < |mk.history|
    requires Run(mk, cfg, solve, sqrt).Some?
    ensures Run(mk, cfg, solve, sqrt).value.values[0] == mk.initialCapital
    ensures Run(mk, cfg, solve, sqrt).value.values[1] == 0.0
    ensures MaxDrawdown(Run(mk, cfg, solve, sqrt).value.values) <= -1.0
    ensures Viable(mk, cfg, solve) ==> MaxDrawdown(Run(mk, cfg, solve, sqrt).value.values) == -1.0
  {
    var out := Run(mk, cfg, solve, sqrt).value;
    RunBookkeeping(mk, cfg, solve, sqrt);
    if Viable(mk, cfg, solve) {
      ViableRunSucceeds(mk, cfg, solve, sqrt);
      assert AllNonNegative(out.values);
    }
    ZeroValueIsFullDrawdown(out.values, 1);
  }

  /**
   * A defined period keeps what it was given, earns w . r on the held weights,
   * grows the value by 1 + w . r and hands on drifted weights that sum to 1:
   * they are divided by their own total.
   */
  lemma RealiseAccounting(r: Vec, rebalanced: bool, cost: real, traded: real, held: Vec, value: real,
                          p: Period)
    requires |held| == |r| && Realise(r, rebalanced, cost, traded, held, value) == Some(p)
    ensures p.rebalanced == rebalanced && p.cost == cost && p.turnover == traded && p.held == held
    ensures p.periodReturn == Dot(held, r)
    ensures p.value == value * (1.0 + p.periodReturn)
    ensures Sum(p.drifted) == 1.0
  {
    var assets := AssetValues(held, value * (1.0 + Dot(held, r)), r);
    SumDivideBy(assets, Sum(assets));
    SelfQuotient(Sum(assets));
  }

  /**
   * A period of the loop that rebalances trades to the projected target,
   * charges RebalanceCost for that trade and realises the return on the
   * target from the value left after the charge.
   */
  lemma RebalanceRealised(mk: Market, cfg: Config, solve: Solver, sqrt: real -> real, t: nat,
                          st: State, p: Period)
    requires WellShaped(mk) && SolverShaped(solve, mk.assets)
    requires t < |mk.history| && |st.weights| == mk.assets
    requires Step(mk, cfg, solve, sqrt, t, st) == Some(p) && p.rebalanced
    ensures var target := TargetWeights(Window(mk.history, t, cfg.lookback), mk.assets,
                                        cfg.objective, cfg.lo, cfg.hi, solve);
            && target.Some? && !ImpactIsNaN(st.weights, target.value, st.value, cfg.costModel)
            && var tc := RebalanceCost(st.weights, target.value, st.value, cfg, sqrt);
               Realise(mk.history[t], true, tc, L1Distance(target.value, st.weights), target.value,
                       st.value - tc) == Some(p)
  {
  }

  /**
   * The accounting of a rebalancing period: trading from `before` to `target`
   * at cost tc records tc and the L1 turnover, and the value becomes
   * (V - tc) * (1 + w . r) with w the target.
   */
  lemma ChargedPeriod(r: Vec, before: Vec, target: Vec, value: real, tc: real, p: Period)
    requires |before| == |target| == |r|
    requires Realise(r, true, tc, L1Distance(target, before), target, value - tc) == Some(p)
    ensures p.held == target && p.cost == tc && p.turnover == L1Distance(p.held, before)
    ensures p.periodReturn == Dot(p.held, r)
    ensures p.value == (value - p.cost) * (1.0 + p.periodReturn)
    ensures Sum(p.drifted) == 1.0
  {
    var left := value - tc;
    RealiseAccounting(r, true, tc, L1Distance(target, before), target, left, p);
    ChargeThenGrow(p.value, value, tc, left, p.cost, p.periodReturn);
  }

  /** A period without a rebalance: no cost, no turnover, the return on the drifted weights. */
  lemma HeldPeriod(mk: Market, cfg: Config, solve: Solver, sqrt: real -> real, t: nat,
                   st: State, p: Period)
    requires WellShaped(mk) && SolverShaped(solve, mk.assets)
    requires t < |mk.history| && |st.weights| == mk.assets
    requires Step(mk, cfg, solve, sqrt, t, st) == Some(p) && !p.rebalanced
    ensures p.cost == 0.0 && p.turnover == 0.0 && p.held == st.weights
    ensures p.periodReturn == Dot(p.held, mk.history[t])
    ensures p.value == (st.value - p.cost) * (1.0 + p.periodReturn)
    ensures Sum(p.drifted) == 1.0
  {
    RealiseAccounting(mk.history[t], false, 0.0, 0.0, st.weights, st.value, p);
    ChargeThenGrow(p.value, st.value, 0.0, st.value, p.cost, p.periodReturn);
  }

  /** Growing what is left after the charge, whichever name the charge goes by. */
  lemma ChargeThenGrow(after: real, before: real, tc: real, left: real, cost: real, ret: real)
    requires left == before - tc && cost == tc && after == left * (1.0 + ret)
    ensures after == (before - cost) * (1.0 + ret)
  {
  }

  /**
   * The drifted weight of asset i is its grown share of the portfolio:
   * w_i (1 + r_i) divided by w . (1 + r). A defined period has a non-zero
   * grown value and a non-zero denominator.
   */
  lemma DriftedWeights(r: Vec, rebalanced: bool, cost: real, traded: real, held: Vec, value: real,
                       p: Period, i: nat)
    requires |held| == |r| && i < |held|
    requires Realise(r, rebalanced, cost, traded, held, value) == Some(p)
    ensures p.value != 0.0 && Dot(held, OnePlus(r)) != 0.0
    ensures p.drifted[i] == held[i] * (1.0 + r[i]) / Dot(held, OnePlus(r))
  {
    var grown := value * (1.0 + Dot(held, r));
    var assets := AssetValues(held, grown, r);
    var d := Dot(held, OnePlus(r));
    AssetValuesSum(held, grown, r);
    assert Sum(assets) == d * grown;
    assert p.drifted[i] == assets[i] / Sum(assets);
    SwapLastFactors(held[i], grown, 1.0 + r[i]);
    CancelCommonFactor(held[i] * (1.0 + r[i]), grown, d);
  }

  /** (a g) / (d g) == a / d for non-zero g and d. */
  lemma CancelCommonFactor(a: real, g: real, d: real)
    requires d * g != 0.0
    ensures g != 0.0 && d != 0.0
    ensures (a * g) / (d * g) == a / d
  {
  }

  // ---------------------------------------------------------------------
  // A single asset

  /** The product of 1 + r_k[0] over the periods k = m .. t-1. */
  function Compound(history: Matrix, m: nat, t: nat): real
    requires m <= t <= |history| && Rectangular(history, 1)
    decreases t - m
  {
    if t == m then 1.0 else Compound(history, m, t - 1) * (1.0 + history[t - 1][0])
  }

  /** The capital compounded over the periods m .. t-1. */
  function Compounded(mk: Market, m: nat, t: nat): real
    requires WellShaped(mk) && mk.assets == 1 && m <= t <= |mk.history|
  {
    mk.initialCapital * Compound(mk.history, m, t)
  }

  /** A weight vector of one asset that sums to 1 is [1.0]. */
  lemma UnitSingleton(v: Vec)
    requires |v| == 1 && Sum(v) == 1.0
    ensures v == [1.0]
  {
    assert v[..0] == [];
  }

  /** [1.0] . r is the only return. */
  lemma SingletonDot(r: Vec)
    requires |r| == 1
    ensures Dot([1.0], r) == r[0]
  {
    var t := Times([1.0], r);
    assert t[..0] == [] && t[0] == r[0];
    assert Sum(t) == Sum(t[..0]) + t[0];
  }

  /** With one asset every target the optimiser returns is [1.0], whatever the objective and bounds. */
  lemma SingleAssetTarget(window: Matrix, objective: Objective, lo: real, hi: real, solve: Solver)
    requires SolverShaped(solve, 1)
    requires TargetWeights(window, 1, objective, lo, hi, solve).Some?
    ensures TargetWeights(window, 1, objective, lo, hi, solve).value == [1.0]
  {
    UnitSingleton(TargetWeights(window, 1, objective, lo, hi, solve).value);
  }

  /** Trading to the weights already held costs nothing in the backtest, under every model. */
  lemma StayingPutIsFree(w: Vec, value: real, cfg: Config, sqrt: real -> real)
    ensures RebalanceCost(w, w, value, cfg, sqrt) == 0.0
  {
    L1DistanceSelf(w);
    RebalanceCostIsProportional(w, w, value, cfg, sqrt);
  }

  /**
   * A period of a one-asset backtest holding [1.0] trades nothing, pays
   * nothing, grows the value by 1 + r_t and stays at [1.0].
   */
  lemma SingleAssetStep(mk: Market, cfg: Config, solve: Solver, sqrt: real -> real, t: nat,
                        st: State, p: Period)
    requires WellShaped(mk) && SolverShaped(solve, mk.assets) && mk.assets == 1
    requires t < |mk.history| && st.weights == [1.0]
    requires Step(mk, cfg, solve, sqrt, t, st) == Some(p)
    ensures p.held == [1.0] && p.cost == 0.0 && p.turnover == 0.0 && p.drifted == [1.0]
    ensures p.value == st.value * (1.0 + mk.history[t][0])
  {
    var r := mk.history[t];
    if p.rebalanced {
      RebalanceRealised(mk, cfg, solve, sqrt, t, st, p);
      var window := Window(mk.history, t, cfg.lookback);
      SingleAssetTarget(window, cfg.objective, cfg.lo, cfg.hi, solve);
      var target := TargetWeights(window, 1, cfg.objective, cfg.lo, cfg.hi, solve).value;
      StayingPutIsFree(st.weights, st.value, cfg, sqrt);
      var tc := RebalanceCost(st.weights, target, st.value, cfg, sqrt);
      ChargedPeriod(r, st.weights, target, st.value, tc, p);
    } else {
      HeldPeriod(mk, cfg, solve, sqrt, t, st, p);
    }
    assert p.held == [1.0] && p.cost == 0.0;
    SingletonDot(r);
    GrowFree(p.value, st.value, p.cost, p.periodReturn, r[0]);
    L1DistanceSelf([1.0]);
    UnitSingleton(p.drifted);
  }

  /** Growing a value charged nothing. */
  lemma GrowFree(after: real, before: real, cost: real, ret: real, x: real)
    requires after == (before - cost) * (1.0 + ret) && cost == 0.0 && ret == x
    ensures after == before * (1.0 + x)
  {
  }

  /**
   * The one-asset arrays up to period t: values from min_history on are the
   * compounded capital, the weights are [1.0], and no cost or turnover is
   * recorded anywhere.
   */
  predicate SingleAssetSoFar(rep: Report, mk: Market, m: nat, t: nat)
    requires WellShaped(mk) && mk.assets == 1
  {
    && ReportShaped(rep, |mk.history|)
    && (forall k :: m <= k < t && k < |mk.history| ==>
          rep.values[k] == Compounded(mk, m, k + 1)
          && rep.weightsHistory[k] == [1.0])
    && (forall k :: 0 <= k < |mk.history| ==> rep.transactionCosts[k] == 0.0 && rep.turnover[k] == 0.0)
  }

  /** One more period multiplies the compounded capital by 1 + r_t. */
  lemma CompoundOnce(mk: Market, m: nat, t: nat, value: real)
    requires WellShaped(mk) && mk.assets == 1 && m <= t < |mk.history|
    requires value == Compounded(mk, m, t)
    ensures value * (1.0 + mk.history[t][0]) == Compounded(mk, m, t + 1)
  {
    var c, a, g := mk.initialCapital, Compound(mk.history, m, t), 1.0 + mk.history[t][0];
    assert Compound(mk.history, m, t + 1) == a * g;
    assert (c * a) * g == c * (a * g);
  }

  /** Recording a period that trades nothing and ends at the compounded value keeps the one-asset arrays. */
  lemma RecordKeepsSingleAsset(rep: Report, mk: Market, m: nat, t: nat, p: Period)
    requires WellShaped(mk) && mk.assets == 1 && m <= t < |mk.history|
    requires SingleAssetSoFar(rep, mk, m, t)
    requires p.cost == 0.0 && p.turnover == 0.0 && p.drifted == [1.0]
    requires p.value == Compounded(mk, m, t + 1)
    ensures SingleAssetSoFar(Record(rep, t, p), mk, m, t + 1)
  {
    RecordWrites(rep, t, p);
  }

  /** A period function that, on one asset held at [1.0], trades nothing and grows the value by 1 + r_t. */
  ghost predicate GrowsSingleAsset(step: PeriodFn, mk: Market)
    requires WellShaped(mk) && mk.assets == 1
  {
    forall t: nat, st: State :: t < |mk.history| && st.weights == [1.0] && step(t, st).Some? ==>
      && step(t, st).value.cost == 0.0 && step(t, st).value.turnover == 0.0
      && step(t, st).value.drifted == [1.0]
      && step(t, st).value.value == st.value * (1.0 + mk.history[t][0])
  }

  lemma PeriodsGrowSingleAsset(mk: Market, cfg: Config, solve: Solver, sqrt: real -> real)
    requires WellShaped(mk) && SolverShaped(solve, mk.assets) && mk.assets == 1
    ensures GrowsSingleAsset(Periods(mk, cfg, solve, sqrt), mk)
  {
    var step := Periods(mk, cfg, solve, sqrt);
    forall t: nat, st: State | t < |mk.history| && st.weights == [1.0] && step(t, st).Some?
      ensures && step(t, st).value.cost == 0.0 && step(t, st).value.turnover == 0.0
              && step(t, st).value.drifted == [1.0]
              && step(t, st).value.value == st.value * (1.0 + mk.history[t][0])
    {
      PeriodsAt(mk, cfg, solve, sqrt, t, st);
      SingleAssetStep(mk, cfg, solve, sqrt, t, st, step(t, st).value);
    }
  }

  lemma {:induction false} DriveSingleAsset(step: PeriodFn, mk: Market, m: nat, t: nat, st: State,
                                            rep: Report)
    requires WellShaped(mk) && mk.assets == 1 && GrowsSingleAsset(step, mk)
    requires m <= t && st.weights == [1.0]
    requires t <= |mk.history| ==> st.value == Compounded(mk, m, t)
    requires SingleAssetSoFar(rep, mk, m, t)
    requires Drive(step, t, st, rep).Some?
    ensures SingleAssetSoFar(Drive(step, t, st, rep).value, mk, m, |mk.history|)
    decreases |mk.history| - t
  {
    if t < |mk.history| {
      var p := step(t, st).value;
      DriveUnfold(step, t, st, rep, p);
      CompoundOnce(mk, m, t, st.value);
      RecordKeepsSingleAsset(rep, mk, m, t, p);
      DriveSingleAsset(step, mk, m, t + 1, Next(t, st, p), Record(rep, t, p));
    }
  }

  /**
   * With one asset the backtest never trades: no cost or turnover is ever
   * recorded, every recorded weight vector from min_history on is [1.0],
   * and the value at period t is the capital times the product of
   * 1 + r_k over k = min_history .. t.
   */
  lemma SingleAssetRun(mk: Market, cfg: Config, solve: Solver, sqrt: real -> real)
    requires WellShaped(mk) && SolverShaped(solve, mk.assets) && mk.assets == 1
    requires Run(mk, cfg, solve, sqrt).Some?
    ensures forall k :: 0 <= k < |mk.history| ==>
              Run(mk, cfg, solve, sqrt).value.transactionCosts[k] == 0.0
              && Run(mk, cfg, solve, sqrt).value.turnover[k] == 0.0
    ensures forall k :: cfg.minHistory <= k < |mk.history| ==>
              Run(mk, cfg, solve, sqrt).value.values[k]
                == Compounded(mk, cfg.minHistory, k + 1)
              && Run(mk, cfg, solve, sqrt).value.weightsHistory[k] == [1.0]
  {
    assert Uniform(1) == [1.0];
    var step := Periods(mk, cfg, solve, sqrt);
    PeriodsGrowSingleAsset(mk, cfg, solve, sqrt);
    DriveSingleAsset(step, mk, cfg.minHistory, cfg.minHistory, InitialState(mk, cfg), InitialReport(mk));
    var out := Run(mk, cfg, solve, sqrt).value;
    assert out == Drive(step, cfg.minHistory, InitialState(mk, cfg), InitialReport(mk)).value;
    assert SingleAssetSoFar(out, mk, cfg.minHistory, |mk.history|);
  }
}
