# Portfolio bookkeeping of fin.py, modelled in Dafny

This project models the rule-based bookkeeping of `AdvancedConnectionCanvas/fin.py`: everything around the gradient optimisers. Exact `real` arithmetic stands in for the program's floats. Weight vectors are `seq<real>`, return matrices are `seq<seq<real>>`, and a NaN that a zero denominator would produce is an explicit `None`.

| file | module | what it models |
|---|---|---|
| `vectors.dfy` | `Vectors` | vector sums, L1 distance, max-abs drift, counting, and small arithmetic facts |
| `rebalance.dfy` | `Rebalance` | `PortfolioBacktester.should_rebalance` |
| `costs.dfy` | `Costs` | `compute_transaction_costs` under all four cost models |
| `projection.dfy` | `Projection` | the clamp-then-divide projection, as a function and as the in-place `clamp_`/`div_` on an array |
| `statistics.dfy` | `Statistics` | the sample mean, the centred data and `(X - m)^T (X - m) / (T - 1)` |
| `metrics.dfy` | `Metrics` | total return, the running-maximum drawdown, max drawdown and the win rate |
| `backtest.dfy` | `Backtest` | `run_backtest` (see below) |
| `backtest_properties.dfy` | `BacktestProperties` | what a backtest run guarantees: bookkeeping, rebalance schedules, value and weight health |
| `multiperiod.dfy` | `MultiPeriod` | `optimize_dynamic_program` and `_simulate_forward` |
| `garch.dfy` | `Garch` | the variance recurrence of `_forecast_covariances` |

`run_backtest` is modelled twice:
- as a pure specification: `Step` for one period, and `Drive`/`Run` for the walk-forward loop;
- as an imperative method, `RunBacktest`. It writes slots of five preallocated arrays and appends rebalance indices.

`RunBacktest` is proved equal to `Run`, and the properties of a run are lemmas about `Run`. The target-weight optimiser is a function parameter, `Solver`, that returns the raw final iterate. The model then applies the program's own final projection (fin.py:479-481). The same holds for the per-stage solver of the multi-period optimiser.

Several behaviours of the code differ from what its names and comments suggest. The model follows the code:

- **THRESHOLD rebalancing.** `run_backtest` passes `current_weights` as both weight arguments of `should_rebalance`, so a THRESHOLD backtest never rebalances. See `ThresholdNeverRebalances`.
- **Rows 1..H-2 of the dynamic program.** These rows start from `optimal_weights[t - 1]`, which the backward loop has not yet written and is still the zero row. Under the default bounds (0, 1) the clamped sum of that start is 0. The first closure evaluation therefore divides 0 by 0, and the row is NaN (`None` here). See `ZeroReferenceRows` and `DefaultBoundsLeaveNaNRow`.
- **`_solve_with_continuation`.** It receives the next period's weights but never reads them. The stage solver is therefore a function of the stage kind and the start only.
- **The projection.** Dividing by the sum can push a clamped weight back outside [lo, hi]. See `ProjectionMayLeaveBounds`.
- **The GARCH recurrence.** It feeds the variance itself where its comment names the squared return. The recurrence is then `var <- 0.0001 + 0.95 var`, which converges geometrically to 0.002.
- **Costs inside the backtest.** `run_backtest` passes only `cost_rate` to `compute_transaction_costs`, so the fixed fee and the impact coefficient are 0. Every cost model other than NONE then charges exactly the proportional cost, with one exception. Under MARKET_IMPACT with a negative portfolio value, a moved weight gives a negative trade amount, and `0 * sqrt(negative)` is NaN. See `RebalanceCostIsProportional` and `ImpactIsNaNOnNegativeAmounts`.
- **Short windows.** The covariance of a one-row window divides a zero matrix by T - 1 = 0, and the mean of an empty window is 0/0. A one-row window therefore makes every recognised objective NaN. An empty window makes only MAXIMUM_SHARPE NaN, because the other two objectives read only the covariance, and with no rows that is a zero matrix divided by -1. See `Backtest.TargetWeights`.
- **The 1/N start.** Every recognised objective first clamps the 1/N start and divides it by its sum, without checking that sum. Bounds that clamp every 1/N entry to 0 make the target NaN. See `Backtest.TargetWeights`.

## Model

| member | source | states |
|---|---|---|
| Rebalance.CalendarDays | AdvancedConnectionCanvas/fin.py:262-272 | WEEKLY, MONTHLY, QUARTERLY and ANNUALLY wait exactly 5, 21, 63 and 252 trading-day periods, so never fewer than 5 |
| Rebalance.ShouldRebalance | AdvancedConnectionCanvas/fin.py:238-278 | DAILY always rebalances; a calendar frequency rebalances iff the elapsed index difference reaches its day count; THRESHOLD rebalances iff some asset's absolute drift exceeds the threshold |
| Rebalance.CalendarIgnoresWeights | AdvancedConnectionCanvas/fin.py:259-272 | for calendar frequencies the decision does not depend on either weight vector or on the threshold |
| Rebalance.ThresholdIgnoresIdenticalWeights | AdvancedConnectionCanvas/fin.py:274-276 | THRESHOLD never fires on two identical weight vectors when the threshold is non-negative |
| Rebalance.ThresholdZeroTriggersOnAnyDrift | AdvancedConnectionCanvas/fin.py:274-276 | with threshold 0, any difference between current and target weights triggers a rebalance |
| Rebalance.ThresholdOneNeverTriggersOnUnitWeights | AdvancedConnectionCanvas/fin.py:274-276 | weights in [0, 1] never drift by more than 1, so a threshold of at least 1 never fires |
| Vectors.MaxAbsDiff | AdvancedConnectionCanvas/fin.py:275 | the result bounds every absolute difference and is attained by one of them (torch.max of the abs difference) |
| Costs.SumOfTradeAmounts | AdvancedConnectionCanvas/fin.py:216-222 | the traded dollar amounts add up to the L1 distance of the weights times the portfolio value |
| Costs.TradeAmounts | AdvancedConnectionCanvas/fin.py:216-218 | one dollar amount per asset, and every amount is non-negative when the portfolio value is |
| Costs.ImpactIsNaNOnNegativeAmounts | AdvancedConnectionCanvas/fin.py:216-233 | the inputs on which MARKET_IMPACT takes the square root of a negative trade amount are exactly those with a negative value and some moved weight |
| Costs.TradeCount | AdvancedConnectionCanvas/fin.py:225 | the number of weights moved by more than 1e-6 is at most the number of assets |
| Costs.ProportionalCharge | AdvancedConnectionCanvas/fin.py:221-222 | the proportional charge is rate times value times the L1 distance between the weight vectors |
| Costs.TransactionCost | AdvancedConnectionCanvas/fin.py:193-236 | NONE costs 0; PROPORTIONAL costs rate·V·Σ abs(Δw); FIXED_PLUS_PROPORTIONAL adds fixed_cost per moved weight; MARKET_IMPACT adds the impact coefficient times the sum of square roots of the trade amounts |
| Costs.NoTradeNoCost | AdvancedConnectionCanvas/fin.py:216-234 | trading to the same weights costs 0 under every model (MARKET_IMPACT needs sqrt(0) = 0) |
| Costs.NoTradesCounted | AdvancedConnectionCanvas/fin.py:225 | a zero difference vector counts no trades |
| Costs.FixedPartBounds | AdvancedConnectionCanvas/fin.py:224-228 | with fixed_cost >= 0, the fixed part lies between 0 and N·fixed_cost |
| Costs.ProportionalCostNonNegative | AdvancedConnectionCanvas/fin.py:221-222 | a non-negative rate and value give a non-negative cost |
| Costs.ProportionalExample | AdvancedConnectionCanvas/fin.py:221-222 | [0.5, 0.5] to [0.7, 0.3] on 1000 at rate 0.01 costs exactly 4 |
| Projection.ClampValue | AdvancedConnectionCanvas/fin.py:480 | the clamped value lies in [lo, hi] when lo <= hi, is unchanged inside the bounds, and is hi when lo > hi (torch.clamp semantics) |
| Projection.Clamp | AdvancedConnectionCanvas/fin.py:480 | clamp_ keeps the length, puts every entry in [lo, hi] when lo <= hi, and leaves entries already inside the bounds unchanged |
| Projection.Projected | AdvancedConnectionCanvas/fin.py:479-481 | whenever the clamped sum is non-zero, the projection keeps the length, sums to 1, and is non-negative when lo >= 0 |
| Projection.RatiosNonNegative | AdvancedConnectionCanvas/fin.py:481 | dividing clamped entries by their non-zero sum gives non-negative weights when lo >= 0 |
| Projection.ClampedSumPositive | AdvancedConnectionCanvas/fin.py:480-481 | with 0 < lo <= hi and at least one asset, the clamped sum is positive, so the division is defined |
| Projection.ProjectionFixesFeasible | AdvancedConnectionCanvas/fin.py:479-481 | weights already in the bounds and summing to 1 are left unchanged by the clamp and by the projection |
| Projection.ProjectionMayLeaveBounds | AdvancedConnectionCanvas/fin.py:479-481 | [0.5, 0.5] with bounds [0, 0.4] projects to [0.5, 0.5], above the upper bound |
| Projection.ProjectInPlace | AdvancedConnectionCanvas/fin.py:426-428 | the in-place clamp_ then div_ leaves the array holding the projection of its old contents |
| Projection.ClampInPlace | AdvancedConnectionCanvas/fin.py:480 | after the loop every slot holds its clamped old value |
| Projection.ArraySum | AdvancedConnectionCanvas/fin.py:481 | the loop returns the sum of the array |
| Projection.DivideInPlace | AdvancedConnectionCanvas/fin.py:481 | after the loop every slot holds its old value divided by the sum |
| Statistics.SampleMean | AdvancedConnectionCanvas/fin.py:414 | each mean entry times the number of rows is that column's sum |
| Statistics.Centered | AdvancedConnectionCanvas/fin.py:415 | the centred data has the shape of the data, and each entry plus its column mean gives back the original entry |
| Statistics.CenteredColumnsSumToZero | AdvancedConnectionCanvas/fin.py:414-415 | every column of the centred data sums to 0 |
| Statistics.ColumnSumOfCentered | AdvancedConnectionCanvas/fin.py:415 | centring a column by m lowers its sum by T·m |
| Statistics.SampleCovariance | AdvancedConnectionCanvas/fin.py:416 | the covariance is an N x N matrix |
| Statistics.CrossSumSymmetric | AdvancedConnectionCanvas/fin.py:416 | the cross-product sums of two centred columns do not depend on their order |
| Statistics.CrossSumSquaresNonNegative | AdvancedConnectionCanvas/fin.py:416 | a column's sum of squares is non-negative |
| Statistics.SampleCovarianceSymmetric | AdvancedConnectionCanvas/fin.py:416 | the sample covariance is symmetric |
| Statistics.SampleVariancesNonNegative | AdvancedConnectionCanvas/fin.py:416 | the diagonal of the sample covariance is non-negative |
| Metrics.TotalReturn | AdvancedConnectionCanvas/fin.py:492 | the final value is the capital times 1 plus the total return |
| Metrics.PrefixMax | AdvancedConnectionCanvas/fin.py:508 | the result bounds the prefix and is one of its elements |
| Metrics.RunningMax | AdvancedConnectionCanvas/fin.py:508 | each cummax entry is at least every earlier value |
| Metrics.RunningMaxAttained | AdvancedConnectionCanvas/fin.py:508 | each cummax entry is one of the values seen so far |
| Metrics.Drawdowns | AdvancedConnectionCanvas/fin.py:508-509 | every drawdown is <= 0, and the first is 0 when the first value is positive |
| Metrics.MinOf | AdvancedConnectionCanvas/fin.py:510 | torch.min bounds every entry and is attained |
| Metrics.MaxDrawdown | AdvancedConnectionCanvas/fin.py:508-510 | the maximum drawdown is <= 0, and >= -1 for a non-negative value series |
| Metrics.RelativeFallBounds | AdvancedConnectionCanvas/fin.py:509 | a fall relative to a positive running maximum is <= 0, at least -1 for non-negative values, and exactly -1 at 0 |
| Metrics.ZeroValueIsFullDrawdown | AdvancedConnectionCanvas/fin.py:508-510 | a value of 0 anywhere makes the maximum drawdown at most -1, and exactly -1 in a non-negative series |
| Metrics.MaxDrawdownExample | AdvancedConnectionCanvas/fin.py:508-510 | [100, 120, 90, 110] has maximum drawdown -0.25 |
| Metrics.WinRate | AdvancedConnectionCanvas/fin.py:515-517 | the win rate lies in [0, 1], and times the period count equals the number of strictly positive returns |
| Backtest.Window | AdvancedConnectionCanvas/fin.py:327-328 | the look-back window holds min(t, lookback) rows |
| Backtest.RawWeights | AdvancedConnectionCanvas/fin.py:419-477 | the optimiser's raw result has one weight per asset; an unrecognised method keeps the 1/N start |
| Backtest.TargetWeights | AdvancedConnectionCanvas/fin.py:396-483 | the target exists iff the window statistics the objective reads are numbers (at least 2 rows, or no rows for MINIMUM_VARIANCE and RISK_PARITY), the clamped 1/N start has a non-zero sum, and the clamped raw result has a non-zero sum. An unrecognised method needs only the last. The target then has N entries summing to 1, non-negative when lo >= 0 |
| Backtest.OptimizeWeights | AdvancedConnectionCanvas/fin.py:396-483 | the method computes TargetWeights |
| Backtest.AssetValues | AdvancedConnectionCanvas/fin.py:366-367 | one asset value per weight |
| Backtest.Realise | AdvancedConnectionCanvas/fin.py:357-370 | a realised period carries one drifted weight per asset |
| Backtest.Rebalancing | AdvancedConnectionCanvas/fin.py:335-368 | a rebalancing period, when defined, rebalances and has N drifted weights. It is undefined where the target is NaN or where MARKET_IMPACT would take the square root of a negative amount (see RebalanceRealised for its accounting) |
| Backtest.Step | AdvancedConnectionCanvas/fin.py:325-370 | a defined period has N drifted weights, and it rebalances exactly when should_rebalance(current, current, ...) says so |
| Backtest.Next | AdvancedConnectionCanvas/fin.py:349-368 | the next state carries the period's closing value and drifted weights, and takes t as the last rebalance exactly when the period rebalanced |
| Backtest.RecordWrites | AdvancedConnectionCanvas/fin.py:346-370 | period t writes slot t of the value, return and weight arrays; it writes slot t of costs and turnover and appends t to the dates only on a rebalance; every other slot is unchanged |
| Backtest.PeriodsAt | AdvancedConnectionCanvas/fin.py:325-370 | inside the return matrix the loop body is one Step |
| Backtest.Drive | AdvancedConnectionCanvas/fin.py:325-370 | driving the loop keeps every per-period array at its length |
| Backtest.InitialReport | AdvancedConnectionCanvas/fin.py:308-322 | the preallocated arrays have T slots each |
| Backtest.InitialState | AdvancedConnectionCanvas/fin.py:316-319 | the walk starts with the full capital, last_rebalance_idx = min_history, and N non-negative equal weights summing to 1 |
| Backtest.Run | AdvancedConnectionCanvas/fin.py:280-394 | a completed run has T slots in every per-period array |
| Backtest.WritePeriod | AdvancedConnectionCanvas/fin.py:346-370 | writing period t changes exactly the slots Record says (costs and turnover only on a rebalance) and appends t to the dates on a rebalance |
| Backtest.AllocateArrays | AdvancedConnectionCanvas/fin.py:308-322 | five fresh, distinct arrays holding the initial report: zeros, with the capital and 1/N weights in slot 0 |
| Backtest.RunBacktest | AdvancedConnectionCanvas/fin.py:280-394 | the imperative backtest returns exactly Run's report (None where the program would produce NaN) |
| BacktestProperties.RecordKeepsBookkeeping | AdvancedConnectionCanvas/fin.py:346-353 | recording a period keeps the dates increasing and in range, costs on dates only, and unwritten value slots untouched |
| BacktestProperties.DriveBookkeeping | AdvancedConnectionCanvas/fin.py:325-353 | the bookkeeping invariant holds at the end of the loop |
| BacktestProperties.RunBookkeeping | AdvancedConnectionCanvas/fin.py:308-353 | rebalance dates strictly increase within [min_history, T); non-zero costs and turnover occur only on rebalance dates; value slots 1..min_history-1 stay 0 and slot 0 holds the capital |
| BacktestProperties.PeriodsFollowPolicy | AdvancedConnectionCanvas/fin.py:331-333 | every defined period rebalances exactly as should_rebalance(current, current, ...) decides |
| BacktestProperties.DriveNeverRebalances | AdvancedConnectionCanvas/fin.py:331-333 | a THRESHOLD-driven loop appends no rebalance date |
| BacktestProperties.ThresholdNeverRebalances | AdvancedConnectionCanvas/fin.py:274-276 | a THRESHOLD backtest with threshold >= 0 has no rebalance dates, zero costs and zero turnover |
| BacktestProperties.CalendarStep | AdvancedConnectionCanvas/fin.py:331-352 | one period keeps the dates on the calendar grid |
| BacktestProperties.DriveOnCalendar | AdvancedConnectionCanvas/fin.py:319-352 | a calendar-driven loop rebalances exactly at m + k·period, and skips no grid point before the end |
| BacktestProperties.CalendarPolicy | AdvancedConnectionCanvas/fin.py:262-272 | under a calendar frequency a period rebalances iff its day count has elapsed since the last rebalance |
| BacktestProperties.CalendarSchedule | AdvancedConnectionCanvas/fin.py:319-353 | a calendar backtest rebalances exactly at min_history + k·days for k = 1, 2, ..., up to the last index |
| BacktestProperties.MonthlyFirstRebalance | AdvancedConnectionCanvas/fin.py:319 | under MONTHLY the first rebalance is at min_history + 21 |
| BacktestProperties.DriveDaily | AdvancedConnectionCanvas/fin.py:259-260 | a DAILY-driven loop appends every index it visits |
| BacktestProperties.DailySchedule | AdvancedConnectionCanvas/fin.py:325-353 | a DAILY backtest rebalances at every index from min_history to T-1 |
| BacktestProperties.RebalanceCostIsProportional | AdvancedConnectionCanvas/fin.py:340-343 | inside a backtest, wherever the cost is a number, NONE costs 0 and every other model costs rate·V·Σ abs(Δw) |
| BacktestProperties.AssetValuesSum | AdvancedConnectionCanvas/fin.py:366-368 | the asset values add up to the value times Σ w_i(1 + r_i) |
| BacktestProperties.RealiseKeepsSimplex | AdvancedConnectionCanvas/fin.py:358-368 | with returns above -100%, a positive value in simplex weights grows to a positive value and drifts to simplex weights |
| BacktestProperties.GrowthFactor | AdvancedConnectionCanvas/fin.py:358-362 | Σ w_i(1 + r_i) = 1 + w·r, which is positive for simplex weights and returns above -1 |
| BacktestProperties.GrowthPositive | AdvancedConnectionCanvas/fin.py:362-368 | the grown value and the drift denominator are positive |
| BacktestProperties.AssetValuesNonNegative | AdvancedConnectionCanvas/fin.py:366-367 | non-negative weights give non-negative asset values |
| BacktestProperties.StillMarketKeepsState | AdvancedConnectionCanvas/fin.py:358-368 | with all-zero returns and no rebalance, value and weights are unchanged |
| BacktestProperties.StillMarketValues | AdvancedConnectionCanvas/fin.py:358-367 | zero returns give w·r = 0, no growth, and asset values equal to weights times value |
| BacktestProperties.CostBelowValue | AdvancedConnectionCanvas/fin.py:340-349 | a proportional cost with 2·rate < 1 is non-negative and below the value |
| BacktestProperties.PositiveLowerBoundDefinesProjection | AdvancedConnectionCanvas/fin.py:479-481 | a lower bound 0 < lo <= hi makes every target projection defined |
| BacktestProperties.ViableTarget | AdvancedConnectionCanvas/fin.py:335-337 | in a viable run (including windows of at least 2 rows for a recognised objective), every target from min_history on exists and lies on the simplex |
| BacktestProperties.CostLeavesValue | AdvancedConnectionCanvas/fin.py:340-349 | between simplex weights the rebalance cost is non-negative and leaves a positive value |
| BacktestProperties.StepKeepsHealth | AdvancedConnectionCanvas/fin.py:331-370 | in a viable run a period from a positive value in simplex weights is defined and hands on a positive value in simplex weights |
| BacktestProperties.PeriodsKeepHealth | AdvancedConnectionCanvas/fin.py:325-370 | every in-range period of a viable run keeps health |
| BacktestProperties.DriveStaysHealthy | AdvancedConnectionCanvas/fin.py:325-370 | the health invariant holds through the loop, and the run is defined |
| BacktestProperties.ViableRunSucceeds | AdvancedConnectionCanvas/fin.py:280-394 | a viable run never hits a zero denominator, and every written slot holds a positive value and simplex weights |
| BacktestProperties.UnwrittenSlotIsFullDrawdown | AdvancedConnectionCanvas/fin.py:308-321 | with min_history > 1, slot 1 stays 0, so the run's maximum drawdown is at most -1, and exactly -1 when the run is viable |
| BacktestProperties.RealiseAccounting | AdvancedConnectionCanvas/fin.py:357-368 | a defined period earns w·r on its held weights, grows the value by 1 + w·r, and hands on drifted weights that sum to 1 |
| BacktestProperties.RebalanceRealised | AdvancedConnectionCanvas/fin.py:331-351 | a rebalancing period holds the projected target, charges its RebalanceCost and realises the return from V - tc |
| BacktestProperties.ChargedPeriod | AdvancedConnectionCanvas/fin.py:340-362 | a rebalance records cost tc and turnover Σ abs(target - current), and the value becomes (V - tc)(1 + target·r), with weights summing to 1 |
| BacktestProperties.HeldPeriod | AdvancedConnectionCanvas/fin.py:357-368 | a period without a rebalance has no cost and no turnover, keeps its weights, and grows the value to V(1 + w·r) |
| BacktestProperties.DriftedWeights | AdvancedConnectionCanvas/fin.py:357-368 | the drifted weight of asset i is w_i(1 + r_i) / Σ_j w_j(1 + r_j), whatever the value, and that denominator is non-zero |
| BacktestProperties.SingleAssetTarget | AdvancedConnectionCanvas/fin.py:419-483 | with one asset every defined target is [1.0], whatever the objective and bounds |
| BacktestProperties.StayingPutIsFree | AdvancedConnectionCanvas/fin.py:340-343 | trading to the weights already held costs 0 under every cost model |
| BacktestProperties.SingleAssetStep | AdvancedConnectionCanvas/fin.py:331-370 | a one-asset period holding [1.0] trades nothing, pays nothing, stays at [1.0] and grows the value by 1 + r_t |
| BacktestProperties.SingleAssetRun | AdvancedConnectionCanvas/fin.py:280-394 | a completed one-asset backtest has zero costs and turnover, weights [1.0] and, from min_history on, the value capital·Π(1 + r_k) over k = min_history..t |
| MultiPeriod.MeanReturns | AdvancedConnectionCanvas/fin.py:574 | the optimiser's mean has one entry per asset |
| MultiPeriod.SolveStage | AdvancedConnectionCanvas/fin.py:641-670 | a stage is defined iff both the clamped start (first closure call) and the clamped final iterate have a non-zero sum; it then has the start's length, sums to 1, and is non-negative when lo >= 0 |
| MultiPeriod.StageOf | AdvancedConnectionCanvas/fin.py:607-619 | row t is solved as the terminal single-period problem exactly when t = H - 1 |
| MultiPeriod.ReferenceRow | AdvancedConnectionCanvas/fin.py:610-619 | row t starts from the initial weights when t = 0 or t = H - 1, and from the all-zero row otherwise, because optimal_weights[t - 1] is not yet written |
| MultiPeriod.PlanRow | AdvancedConnectionCanvas/fin.py:607-619 | each defined row of the backward loop sums to 1 with N entries |
| MultiPeriod.SolveBackwards | AdvancedConnectionCanvas/fin.py:603-619 | the backward loop over the zero-initialised rows leaves exactly PlanRow in each row |
| MultiPeriod.RebalancingPlan | AdvancedConnectionCanvas/fin.py:629 | the plan has H entries, the t-th being (t, row t) |
| MultiPeriod.OptimizeDynamicProgram | AdvancedConnectionCanvas/fin.py:573-634 | H rows; each equals PlanRow when there are at least 2 return rows, and all are NaN otherwise (the mean or covariance every stage loss reads is NaN); the plan pairs each index with its row; path statistics exist iff every row is defined, and then equal the forward simulation of those rows |
| MultiPeriod.Turnovers | AdvancedConnectionCanvas/fin.py:729 | one non-negative turnover per period, against the previously held weights (the initial ones first) |
| MultiPeriod.CostsAfter | AdvancedConnectionCanvas/fin.py:729-730 | the running total of charges is non-negative when the rate and the turnovers are |
| MultiPeriod.GrossReturns | AdvancedConnectionCanvas/fin.py:734-735 | one growth factor per period |
| MultiPeriod.WealthAfter | AdvancedConnectionCanvas/fin.py:729-735 | at rate 0 the wealth is the product of the growth factors, whatever the turnover |
| MultiPeriod.Utility | AdvancedConnectionCanvas/fin.py:740 | with λ > 0, W - ½λW² is at most 1/(2λ), with equality at W = 1/λ |
| MultiPeriod.UtilityGap | AdvancedConnectionCanvas/fin.py:740 | the gap to the maximum utility 1/(2λ) is non-negative, and 0 at W = 1/λ |
| MultiPeriod.PathSummary | AdvancedConnectionCanvas/fin.py:739-747 | the average period return times H equals the terminal wealth minus 1 |
| MultiPeriod.ForwardStats | AdvancedConnectionCanvas/fin.py:716-747 | the statistics of a plan: average return times H is terminal wealth minus 1, total costs are non-negative when the rate is, and the utility is at most 1/(2λ) when λ > 0 |
| MultiPeriod.SimulateForward | AdvancedConnectionCanvas/fin.py:716-747 | the loop's statistics are those of the wealth and cost recurrences over the whole plan |
| MultiPeriod.ZeroRowClampedSum | AdvancedConnectionCanvas/fin.py:603 | the zero row clamps to N copies of clamp(0) |
| MultiPeriod.ZeroReferenceRows | AdvancedConnectionCanvas/fin.py:603-619 | rows 1..H-2 are the stage solved from the zero row, undefined iff clamp(0) = 0 or the solver's clamped output sums to 0 |
| MultiPeriod.DefaultBoundsLeaveNaNRow | AdvancedConnectionCanvas/fin.py:582-619 | with the default bounds (0, 1) and H >= 3, row 1 is undefined (NaN in the program) |
| MultiPeriod.CostsAreRateTimesTurnover | AdvancedConnectionCanvas/fin.py:729-730 | total costs equal the rate times the summed L1 turnovers |
| MultiPeriod.CostsNonNegative | AdvancedConnectionCanvas/fin.py:729-730 | with a non-negative rate, total costs are non-negative |
| MultiPeriod.StandingStillTradesNothing | AdvancedConnectionCanvas/fin.py:729 | a plan that keeps the initial weights has zero turnover every period |
| MultiPeriod.NoTurnoverIsFree | AdvancedConnectionCanvas/fin.py:729-735 | zero turnover costs nothing, and wealth is the compounded gross return |
| MultiPeriod.FlatGrowthWealth | AdvancedConnectionCanvas/fin.py:729-735 | when every growth factor is 1, the wealth is 1 minus the total costs paid |
| MultiPeriod.CostsNeverHelp | AdvancedConnectionCanvas/fin.py:729-735 | with non-negative turnovers, rate and growth factors, wealth never exceeds the cost-free compounded wealth |
| Garch.GarchStep | AdvancedConnectionCanvas/fin.py:828 | each step scales the distance to the long-run variance 0.002 by α + β = 0.95 |
| Garch.CurrentVariances | AdvancedConnectionCanvas/fin.py:819-820 | the start of the forecast is the non-negative diagonal of the sample covariance |
| Garch.ForecastVariances | AdvancedConnectionCanvas/fin.py:819-835 | with fewer than 2 return rows the unbiased std, and so every forecast, is NaN (None); otherwise the loop produces H variance vectors, the t-th being t + 1 steps of the recurrence from the current variances |
| Garch.StepAll | AdvancedConnectionCanvas/fin.py:828 | one step moves every asset's distance to the long-run variance 0.002 by the factor α + β = 0.95 |
| Garch.Forecast | AdvancedConnectionCanvas/fin.py:826-828 | after k steps each asset's entry is k steps of its own scalar recurrence |
| Garch.VarianceClosedForm | AdvancedConnectionCanvas/fin.py:826-828 | after k periods the distance to 0.002 is 0.95^k times the initial distance |
| Garch.PersistencePowerBounds | AdvancedConnectionCanvas/fin.py:806-807 | 0 < 0.95^k <= 1 |
| Garch.LongRunIsFixed | AdvancedConnectionCanvas/fin.py:828 | the long-run variance is a fixed point |
| Garch.MovesTowardLongRun | AdvancedConnectionCanvas/fin.py:826-828 | a variance above 0.002 decreases towards it, and one below increases towards it, without overshooting |
| Garch.VarianceAtLeastOmega | AdvancedConnectionCanvas/fin.py:805-828 | from a non-negative start every forecast is at least ω = 0.0001 |
| Garch.ForecastsPositive | AdvancedConnectionCanvas/fin.py:819-828 | every forecast variance is at least ω, hence positive |
| Garch.ForecastsConverge | AdvancedConnectionCanvas/fin.py:824-828 | each asset's forecast gap to 0.002 shrinks by the factor 0.95^k |

## Left out

- **Gradient optimisers.** The LBFGS and Adam iterations of `_optimize_weights`, `_solve_single_period` and `_solve_with_continuation` are library calls with floating-point convergence behaviour. They are function parameters returning the raw final iterate, and only the final projection is modelled. The projection inside each closure matters only when it divides by zero; that is modelled for the first closure call of a stage (see `MultiPeriod.SolveStage`).
- **Solver objectives.** The losses the optimisers minimise are not modelled, so nothing is proved about optimality. In particular, the minimum-variance, maximum-Sharpe and risk-parity objectives, the mean-variance utility of `_solve_single_period` and the 0.95-discounted continuation value are all left out.
- **Transcendental metrics.** The annualised return, volatility, Sharpe, Sortino and Calmar ratios and the win/loss averages use powers, `std` and `sqrt`, so they are not part of this model. The MARKET_IMPACT square root is a function parameter.
- **GARCH covariance matrices.** `_forecast_covariances` turns each variance vector into a covariance matrix through `sqrt` and `corrcoef`. The model keeps the variance vectors only. `optimize_with_garch` and `_solve_period_with_cov` are not part of this model.
- **`_estimate_garch_parameters`.** It computes a per-asset variance and then ignores it. The model uses its constant parameters directly.
- **Neural components, framework wrappers and demo code.** The neural modules, the `ModernPortfolioFramework` wrappers, data frames, logging, plotting, file output and random data generation are all left out.
- **Floats.** Arithmetic is exact over `real`, and float32 rounding is not modelled. A NaN is `None`. The model produces it for:
  - a zero denominator;
  - statistics of too short a window;
  - a 1/N start whose clamped sum is 0;
  - market impact on a negative trade amount.

  `Backtest.Run` and `Backtest.RunBacktest` return `None` where the program would continue with NaN values. The solver parameters return numbers, so a NaN that arises only inside the LBFGS or Adam iterations, from numbers that are themselves defined, is not modelled.
- **Costs.TransactionCost:** the square root is a parameter that always returns a number. The program's `torch.sqrt` of a negative trade amount is NaN. `ImpactIsNaN` names exactly those inputs (see `ImpactIsNaNOnNegativeAmounts`), and the backtest period returns `None` on them.
- **Backtest.RebalanceCost:** it carries no contract of its own. What it charges is stated by `RebalanceCostIsProportional`, `StayingPutIsFree` and `CostLeavesValue`.
- **Dates.** Rebalance dates are recorded as period indices t; the lookup `self.dates[t]` is not modelled.
- **Shape requirements.**
  - The backtest needs T >= 1 and N >= 1 (slot 0 is written before the loop).
  - The multi-period optimiser needs H >= 1: with H = 0 the average period return divides by 0 and raises ZeroDivisionError. With fewer than 2 return rows its mean or covariance is NaN, and every row is `None`.
  - The GARCH forecast is `None` with fewer than 2 return rows, because an unbiased standard deviation of one row is NaN.
- **Input validation.** The program's construction-time validation and exceptions, other than the shapes listed above, are not modelled.
- **MultiPeriod.OptimizeDynamicProgram.** `value_to_go` is allocated but never used, and is not modelled. The result's `expected_utility` and `terminal_wealth` fields are the ones from the path statistics. The model returns no path statistics when some row is NaN, where the program would return NaN statistics.
- **Garch.CurrentVariances.** The unbiased `std`, squared, is modelled as the diagonal of the sample covariance. The two agree over the reals.
