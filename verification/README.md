# Portfolio analytics and simulation engine — a Dafny model

This project models the analytics core of a portfolio-tracking back end. The modelled parts are:

- **Metrics calculator.** Turns a list of holdings into total value, cost and gain/loss figures, sector and asset-type allocations in percent, and an entropy-based diversification score.
- **Price merge.** Copies the prices returned by the intelligence service onto the stored holdings.
- **Health score composer.** Computes the 0-100 composite health score.
- **Benchmark ranker.** Compares the user with the community using a percentile, a five-band interpretation and fixed community tables.
- **Simulation engine.** Holds the scenario table, builds the payload sent to the intelligence service and computes the impact deltas.
- **Alert generator.** Maps confidence to severity, turns anomalies into alerts and assembles the alert batch.
- **Helpers.** Percentage change, the summary's sign flag and the per-asset-type ticker patterns.

Modelling choices:

- Money and percentages are `real`.
- `Math.round(x)` is `(x + 0.5).Floor`.
- `x || d` on a number that may be missing is `Numbers.JsOr`. A missing value and `0` both fall back to `d`.
- Each allocation map is a sequence of buckets with distinct keys (`Allocations.Bucket`), kept in first-seen order. JavaScript lists integer-like keys such as "2024" first, so for such sector names the order of the model's buckets differs from the order of the source's keys. The amounts, sums and scores do not depend on that order.
- `Math.log` is a parameter `ln`. The lemmas that need its behaviour assume `Diversification.LnLaws`: `ln(1) = 0`, `ln(x) > 0` above 1 and `ln(x) < 0` on (0, 1).
- The intelligence service, the database lookups and the storage call are function parameters. Each returns `Result` or `Option`, so a failure is a value. This applies to:
  - the analysis,
  - the simulation,
  - anomaly detection,
  - the portfolio lookup,
  - `insertMany`.

Files, each one module:

| file | module |
|---|---|
| `wrappers.dfy` | `Option` and `Result` |
| `numbers.dfy` | rounding, clamping, `||` defaults, percent |
| `allocations.dfy` | bucket tables: accumulate, tabulate, normalise |
| `domain.dfy` | holdings, portfolios, metrics, analyses, errors |
| `diversification.dfy` | entropy and the diversification score |
| `portfolio_metrics.dfy` | `calculatePortfolioMetrics` |
| `health_score.dfy` | `calculateHealthScore` |
| `price_merge.dfy` | the price-merge step of `getPortfolioAnalysis` |
| `benchmark.dfy` | `benchmarkService` |
| `simulation.dfy` | `simulationService` |
| `alerts.dfy` | `alertService` |
| `helpers.dfy` | `utils/helpers.js` |

## Model

| member | source | states |
|---|---|---|
| Allocations.Tabulate | services/portfolioService.js:14-27 | Accumulating the per-holding entries gives one bucket per key with no duplicates. A key is present exactly when some entry has it. Each bucket holds the sum of that key's entries. The grand total is unchanged, and the table is empty only for no entries. |
| Allocations.Normalise | services/portfolioService.js:33-39 | Normalising keeps the keys and their order. Each bucket becomes its amount as a percentage of the total. |
| Allocations.NormaliseTotal | services/portfolioService.js:33-39 | The normalised table sums to the original table's total as a percentage of the divisor. |
| Allocations.Percentages | services/portfolioService.js:14-39 | The allocation map has distinct keys, exactly those of the entries. Each key's percentage is its value's share of the total, and a non-empty map sums to 100. |
| PortfolioMetrics.GainLossPercent | services/portfolioService.js:30 | With a positive cost the percentage is the gain as a percentage of the cost, otherwise exactly 0. |
| PortfolioMetrics.SectorAllocation | services/portfolioService.js:14-35 | A sector appears exactly when some holding has it, with a missing or empty sector counted as 'other'. Its percentage is the sector's value share, and the sectors sum to 100. |
| PortfolioMetrics.AssetAllocation | services/portfolioService.js:14-39 | An asset type appears exactly when some holding has it. Its percentage is its value share, and the types sum to 100. |
| PortfolioMetrics.CalculateMetrics | services/portfolioService.js:6-51 | Value uses the current price, or the buy price when that is 0. Gain is value minus cost, and the percentage follows the zero-cost policy. The holding count is the list length. Both allocations sum to 100. An empty list gives zeros, empty maps and score 0. |
| PortfolioMetrics.DiversifiedIff | services/portfolioService.js:53-67 | For non-negative holdings the diversification score is never negative. It is positive exactly when two holdings of different sectors both have positive value. |
| PortfolioMetrics.ReportedDiversification | services/portfolioService.js:33-67 | The score reported for non-negative holdings of any total. With a non-zero total it is the metrics' score. A non-empty list worth 0 has every holding worth 0, and its score is 0: every sector weight is 0/0, which fails `weight > 0`. |
| PortfolioMetrics.ReportedDiversifiedIff | services/portfolioService.js:53-67 | On every non-negative list, including those worth 0, the reported score is never negative. It is positive exactly when two holdings of different sectors both have positive value. |
| Diversification.DiversificationScore | services/portfolioService.js:53-67 | No sectors score 0 and a single sector scores 0. Otherwise the score times `ln(number of sectors)` equals 100 times the entropy of the positive weights. |
| Diversification.DiversificationPositiveIff | services/portfolioService.js:53-67 | For a non-negative allocation summing to 100, the score is non-negative. It is positive iff two distinct sectors have positive weight. |
| HealthScore.Performance | services/portfolioService.js:147 | The performance term is 50 at break-even and moves 2 points per percent. It is clamped to 0 below -25% and to 100 above +25%. |
| HealthScore.CalculateHealthScore | services/portfolioService.js:136-152 | The score is an integer in [0, 100] within one half of the clamped weighted sum. |
| HealthScore.HealthScoreMonotone | services/portfolioService.js:145-151 | Improving any component never lowers the score. The components are diversification, gain percentage, and risk or liquidity score after defaults. |
| HealthScore.MissingScoresDefault | services/portfolioService.js:148-149 | A missing risk or liquidity score scores the same as a reported 0 and as the default (70 or 80). |
| HealthScore.BreakEvenDefaults | services/portfolioService.js:138-151 | An undiversified break-even portfolio with no intelligence scores scores 46. |
| PriceMerge.FirstWithTicker | services/portfolioService.js:108 | The index found is the first holding with the ticker; none is found exactly when no holding has it. |
| PriceMerge.MergePrices | services/portfolioService.js:106-113 | The merge keeps the list length and changes no field but the current price. |
| PriceMerge.MergePricesSpec | services/portfolioService.js:106-113 | A holding gets the price of the last quote for its ticker exactly when it is the first holding with that ticker. Every other holding is unchanged. |
| PriceMerge.RefreshPrices | services/portfolioService.js:106-113 | Without a quote list the holdings stay as they are. With one, the result is the merge of that list, so by MergePricesSpec the first holding of each quoted ticker takes the last quoted price and every other holding is unchanged. |
| Benchmark.ParseMetric | services/benchmarkService.js:33-50 | Exactly the four community-table keys name a metric, and the metric found carries the key asked for. |
| Benchmark.ParseMetricKey | services/benchmarkService.js:33-50 | Every metric's key looks that metric up again. |
| Benchmark.CommunityDistribution | services/benchmarkService.js:39-44 | Every community distribution is non-empty. |
| Benchmark.Sort | services/benchmarkService.js:67 | Sorting permutes the scores. |
| Benchmark.SortSorts | services/benchmarkService.js:67 | The sorted scores are in ascending order. |
| Benchmark.CalculatePercentile | services/benchmarkService.js:66-70 | The percentile is 100 times the number of community values strictly below the score, divided by the size of the distribution and rounded half up. That count is taken over the distribution as given, so the sort makes no difference. The result is an integer in [0, 100]. A score at or below every community value gives 0, and a score above all of them gives 100. |
| Benchmark.PercentileMonotone | services/benchmarkService.js:66-70 | A higher user score never gives a lower percentile. |
| Benchmark.PercentileIgnoresOrder | services/benchmarkService.js:67-69 | Two distributions that are permutations of each other give the same percentile. |
| Benchmark.GetInterpretation | services/benchmarkService.js:72-80 | The label is 'excellent', 'very good', 'average', 'below average' or 'needs improvement' exactly on the corresponding band of the difference from the average. Each band is closed at the top, so exactly +10 is 'very good' and exactly -10 is 'needs improvement'. |
| Benchmark.InterpretationMonotone | services/benchmarkService.js:72-80 | The band is monotone in the difference and does not depend on the metric name. |
| Benchmark.CalculateUserMetrics | services/benchmarkService.js:54-63 | An analysis failure propagates. Otherwise the user metrics take the analysis health score and the metrics' diversification score. A non-negative portfolio worth 0 is admitted and gets diversification 0. Annual return is 12.3, and risk score falls back to 55 when missing or 0. |
| Benchmark.GetCommunityBenchmark | services/benchmarkService.js:6-27 | A missing portfolio fails with 'Portfolio not found', and an analysis failure propagates. A non-negative portfolio worth 0 is admitted. An unknown metric fails. Success happens exactly otherwise. The report's user score is the requested metric of the user metrics. It also carries that metric's community average, benchmark, the score's percentile in the metric's distribution and its interpretation. |
| Simulation.LookupScenario | services/simulationService.js:42-47 | Exactly the four preset keys find an entry, with the table's descriptions and adjustments. |
| Simulation.PresetAdjustments | services/simulationService.js:42-47 | Each preset moves the market by at most a fifth, and only the boom is positive. |
| Simulation.CalculateImpact | services/simulationService.js:32-39 | Each delta added to the current value gives the simulated value. A missing or zero current risk counts as 0, and the diversification change is 0. |
| Simulation.NoChangeNoImpact | services/simulationService.js:32-39 | A simulated state equal to the current one has zero impact. |
| Simulation.RunPortfolioSimulation | services/simulationService.js:5-30 | The payload carries the user, the action as simulation type and the scenario as parameters. A simulation or analysis failure propagates. Recommendations default to the empty list. |
| Simulation.RunWhatIfScenario | services/simulationService.js:41-56 | An unknown key fails with 'Invalid scenario' whatever the collaborators do. A known key runs exactly the portfolio simulation of a stress test carrying its table entry. Only own keys count as known: this is the corrected lookup, and as written `"constructor"` also passes the guard (see Findings). |
| Simulation.ScenarioPropertyAsWritten | services/simulationService.js:49 | Reading the scenario object finds an own entry exactly for the presets. It finds `undefined` exactly for keys that are neither presets nor inherited property names. |
| Simulation.InheritedKeyPassesGuard | services/simulationService.js:49-50 | As written, 'constructor' passes the guard although it is not a preset. The corrected lookup rejects it. |
| Simulation.GuardAsWrittenAdmits | services/simulationService.js:49-50 | The guard as written admits the presets and the inherited names. The corrected lookup admits the presets only. |
| Alerts.MapSeverity | services/alertService.js:94-98 | Confidence above 0.8 is high, above 0.6 up to 0.8 is medium, and anything else is low. 'critical' is never produced. |
| Alerts.SeverityMonotone | services/alertService.js:94-98 | More confidence never lowers the severity. |
| Alerts.CheckAnomalies | services/alertService.js:53-74 | A missing portfolio or a failing detector gives no alerts. Otherwise there is one volatility alert per anomaly, in order. Each is titled "Unusual activity detected in " followed by the asset, names the asset as related asset, carries the description and the anomaly, and has the banded severity. It has no related metric, old or new value, or change percentage. |
| Alerts.AnomaliesRecoverable | services/alertService.js:63-70 | The detected anomalies can be read back, in order, from the alerts' metadata. |
| Alerts.Resolve | services/alertService.js:1-5 | For any set of host globals, an identifier resolves exactly when the module imports it (lines 1-3), declares it (`AlertService`, line 5), receives it from the CommonJS wrapper (`require`, `module`, ...) or it is a global. Otherwise reading it raises a ReferenceError naming it. |
| Alerts.ModuleReferences | services/alertService.js:1-101 | Under Node.js's globals every name the module reads resolves (the imports, `AlertService`, `console` at line 49, `module` at line 101) except `Portfolio`, which raises a ReferenceError. |
| Alerts.CheckAnomaliesAsWritten | services/alertService.js:53-74 | As written, the unbound `Portfolio` makes the detector return the empty list. |
| Alerts.AnomaliesAlwaysDropped | services/alertService.js:53-74 | As written, no anomaly ever becomes an alert. The corrected detector turns a detected anomaly into one high-severity alert. |
| Alerts.CheckSignificantChanges | services/alertService.js:34-51 | The detector always gives one medium health-score alert for 'health_score', from 80 to 75, with change -5. |
| Alerts.SignificantChangesPlaceholder | services/alertService.js:38-47 | The placeholder alert is the same for every user and analysis. Its change is the drop in points, while the percentage change from 80 to 75 is -6.25. |
| Alerts.AlertsToStore | services/alertService.js:25 | Every stored record is tagged with the user, one per alert. |
| Alerts.StoredRoundTrip | services/alertService.js:25 | Removing the tags gives back the batch. |
| Alerts.CheckGoalAlerts | services/alertService.js:76-80 | The goal detector reports no alerts for any user and analysis. |
| Alerts.StoreBatch | services/alertService.js:9-28 | The batch is the change alerts, then the anomaly alerts, then the goal alerts. A non-empty batch is stored tagged with the user, and a storage failure propagates. Otherwise the untagged batch is returned, and an empty batch is returned without storing. |
| Alerts.CheckPortfolioAlerts | services/alertService.js:6-32 | As written: an analysis failure propagates. Otherwise the batch is the placeholder change alert alone, because the anomaly detector as written never reports. That batch is stored tagged with the user, a storage failure propagates, and otherwise the batch is returned. |
| Alerts.AlertRunShape | services/alertService.js:9-28 | As written, a successful run returns exactly one alert, the placeholder, whatever the detector reports. |
| Alerts.CheckPortfolioAlertsCorrected | services/alertService.js:6-32 | With the corrected anomaly detector, an analysis failure propagates. The batch is the changes, then the anomalies, then the goals. It is stored tagged with the user, a storage failure propagates, and otherwise the batch is returned. |
| Alerts.CorrectedAlertRunShape | services/alertService.js:9-28 | With the corrected detector, a successful run returns the placeholder alert followed by exactly the anomaly alerts, since goals add none. No alert is critical. |
| Alerts.AlertRunDropsAnomaly | services/alertService.js:16 | With one detected anomaly and successful storage, the run as written returns one alert and the corrected run returns two. |
| Helpers.CalculatePercentageChange | utils/helpers.js:9-12 | A zero old value gives 0. Otherwise the result is the difference as a percentage of the old value. |
| Helpers.ChangeRestoresNewValue | utils/helpers.js:9-12 | Moving the old value by the reported percentage gives the new value. |
| Helpers.ChangeOfApplied | utils/helpers.js:9-12 | Moving a non-zero value by p percent reports exactly p. |
| Helpers.ChangeSign | utils/helpers.js:9-12 | Equal values report 0. From a positive old value, the change is positive or non-negative exactly when the new value is greater, or at least as great. |
| Helpers.PositiveIffValueCoversCost | utils/helpers.js:21 | The summary flag on computed metrics holds exactly when the holdings are worth at least their cost. |
| Helpers.StockMatchIff | utils/helpers.js:28 | The scanning stock matcher accepts exactly 1-5 capitals, optionally followed by a dot and two capitals. |
| Helpers.CryptoMatchIff | utils/helpers.js:29 | The scanning crypto matcher accepts exactly 3-10 capitals, a dash, then 3-10 capitals. |
| Helpers.FundMatchIff | utils/helpers.js:30 | The scanning fund matcher accepts exactly 5-15 capitals or digits. |
| Helpers.ValidateTicker | utils/helpers.js:25-35 | Stock, crypto and mutual-fund tickers are valid exactly when they match their pattern. Every other asset type accepts any ticker. |
| Helpers.SuffixedStockAccepted | utils/helpers.js:28 | 'INFY.NS' is a valid stock ticker. |
| Helpers.LongStockRejected | utils/helpers.js:28 | 'RELIANCE' is not a valid stock ticker. |
| Helpers.CryptoPairs | utils/helpers.js:29 | 'BTC-USD' is a valid crypto ticker and 'BTCUSD' is not. |

## Left out

- PortfolioMetrics.CalculateMetrics: requires a non-zero total value for a non-empty list. The source divides by the total without a guard; a list worth 0 gets NaN allocations, or infinite ones when negative and positive values cancel. IEEE special values are not modelled. The same requirement is on SectorAllocation and AssetAllocation.
- Benchmark.CalculateUserMetrics: requires a non-zero total value or non-negative holdings. A non-negative list worth 0 is modelled through ReportedDiversification, which gives the source's score of 0. Holdings with negative values that cancel to 0 are not modelled; the source's score for them involves infinite weights.
- Benchmark.GetCommunityBenchmark: has the same requirement as CalculateUserMetrics, for the same reason.
- Alerts.ModuleReferences: the Node.js globals are listed as the language's standard globals plus the common ones Node.js adds, not every one. The model relies only on `console` being a global and `Portfolio` not being one.
- Benchmark.CalculatePercentile: requires a non-empty distribution. An empty one gives NaN in the source. Every caller passes one of the fixed non-empty community tables.
- Diversification.DiversificationScore: the upper bound of 100, reached exactly for an even split, is not proved. It needs Gibbs' inequality, which the three laws assumed of `ln` do not give. Exact score values such as about 97.1 need a real logarithm.
- PortfolioMetrics.SectorAllocation: treats every sector name as an ordinary key. The source accumulates sectors on a plain object, and the sector is free text. A sector named `__proto__` is dropped from the keys there. A sector named after another inherited property, such as `constructor` or `toString`, produces a string that becomes NaN when normalised. For such names the model's buckets and their sum of 100 are not what the source returns.
- PortfolioMetrics.CalculateMetrics: its sector allocation and diversification score are those of SectorAllocation, so for sector names that are `Object.prototype` properties they differ from the source in the same way.
- PortfolioMetrics.DiversifiedIff: counts a `__proto__` sector as a sector. For holdings split between `__proto__` and one other sector, the source scores 0 while the lemma says the score is positive.
- PortfolioMetrics.ReportedDiversifiedIff: on holdings with a non-zero total it inherits the `__proto__` difference of DiversifiedIff.
- Helpers.ValidateTicker: takes the asset-type enumeration. Arbitrary strings are not modelled. The source would accept a string that is not a pattern key. It would throw on an inherited property name such as 'constructor'.
- Alerts.CheckAnomalies: the detector is given the holdings only. The historical data the source sends is always the empty list.
- Orchestration of `getPortfolioAnalysis` and `updatePortfolioValue` beyond the price merge is not modelled. This covers the database reads and saves, timestamps and the read-modify-write sequence. Its result enters the other services as the `analyse` parameter. In the source, the health score is computed from the metrics before the price refresh (services/portfolioService.js:98, 126).
- The `User.findById` call in `getCommunityBenchmark` is not modelled; its result is never used.
- The stubs `getPreviousAnalysis` and `getHistoricalData` are not modelled; they return constants.
- Schema defaults (`isRead`, `actionTaken`, `createdAt`) and the schema's requirement that `message` be present are not modelled. The detector reply is typed, so a reply without a description cannot occur in the model.
- Currency formatting (`formatCurrency`) and `toFixed` in the portfolio summary are not modelled; only the `isPositive` flag is.
- The scenario table in the simulation controller is a separate table the service does not use, so it is not modelled.
- Simulation parameters of any other shape are not modelled: a scenario is always a description and an adjustment.
- Logging is not modelled.
- The market-data mocks, the HTTP layer, routes, authentication and the bot are not modelled.

## Findings

| source | as written | input that shows it | evidently intended | confidence | as-written member | corrected member |
|---|---|---|---|---|---|---|
| services/simulationService.js:49-50 | `scenarios[scenario]` also reads properties inherited from `Object.prototype`, which are truthy and pass the `'Invalid scenario'` guard | scenario key `"constructor"` | only the four preset keys are accepted; any other key fails with 'Invalid scenario' | not executed; high | Simulation.InheritedKeyPassesGuard | Simulation.RunWhatIfScenario |
| services/alertService.js:55 | `Portfolio.findOne` names `Portfolio`, which the module never imports (lines 1-3). The ReferenceError is caught and the anomaly detector always returns `[]`, so every alert run stores and returns only the placeholder alert (Alerts.AlertRunShape, Alerts.AlertRunDropsAnomaly) | any user, with a detector reporting `Anomaly("INFY", 0.9, "price swing")` | the user's portfolio is looked up and each detected anomaly becomes an alert | not executed; high | Alerts.AnomaliesAlwaysDropped | Alerts.CheckAnomalies |
