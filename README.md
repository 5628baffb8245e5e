# Crypto dashboard rules, modelled in Dafny

The dashboard is a client-side web app. It shows a synthetic crypto market: a
price snapshot, hourly candles and news. It adds a portfolio, price alerts, a
diversification analysis, volume metrics, trading signals and social
sentiment. Every number is simulated. Under the views sits a set of small,
deterministic rules, and this project models those rules and proves what
they promise. JavaScript numbers are exact `real`s. Every `Math.random()`
draw is a parameter in [0, 1).

Modules, one per source file, plus two shared ones:

- `Collections`: `find`, `filter` and a summing `reduce` over `seq`.
- `Text`: ASCII `toLowerCase` / `toUpperCase` and substring `includes`.
- `Market` (lib/api.ts):
  - the snapshot perturbation and the per-coin parameter table;
  - the hourly candle generator, as a loop;
  - the in-place Fisher–Yates shuffle, on an `array`;
  - the related-coin augmentation of the news, as nested loops;
  - `capitalizeFirstLetter`.
- `PriceAlerts` (components/price-alerts.tsx): class `AlertBook`. It holds the alert list and the triggered list. Each alert is a latch. An evaluation loop flips alerts and reports exactly the flips.
- `PortfolioTracker` (components/portfolio-tracker.tsx): class `Portfolio`. It holds the holdings and four metrics. It covers the accumulation loop and the pie chart.
- `Diversification` (components/portfolio-diversification.tsx):
  - the category, risk and correlation tables;
  - the first-match category lookup;
  - the per-category aggregation into a dictionary;
  - the percentages, the weighted risk and the pairwise correlation score;
  - the composite score and the recommendations.
- `VolumeAnalysis` (components/volume-analysis.tsx):
  - the volume series, its average and the half-over-half trend;
  - the anomalies;
  - the two correlation loops;
  - `formatVolume`.
- `TradingSignals` (components/trading-signals.tsx): the four indicators and the majority vote.
- `Sentiment` (components/sentiment-analysis.tsx): the shares, the score, its label and icon, and the sample posts.
- `Dashboard` (components/crypto-dashboard.tsx): the search filter, the refresh filter, the timeframe-to-days mapping and the twelve-card grid.

Some properties follow from the code rather than from its comments. They are proved here:

- The diversification "high correlation" recommendation can never fire. With non-negative values the correlation score is at most 0.5, but the rule needs more than 0.7.
- The "Bearish" sentiment label can never show. The score never falls below -19, but the label needs less than -20.
- The RSI indicator never votes buy.
- A buy or sell signal always has a confidence of 50 or 75, never 100. No more than three of the four indicators can agree on a buy or on a sell.

Division by zero is modelled explicitly. JavaScript would produce `NaN` or `Infinity` in these places:

- the portfolio percentages (the `ZeroValue` outcome, which keeps the aggregation and the advice that reads no percentage);
- the volume trend, the anomaly percentages and the step changes (`None`).

A `NaN` from `Number.parseFloat` also appears in one place: in the alert form it is `None`. The portfolio form takes its parsed numbers as inputs (see "## Left out").

## Model

| member | source | states |
|---|---|---|
| Collections.FindSpec | components/portfolio-tracker.tsx:80 | `find` returns the first element satisfying the predicate, and none exactly when no element does |
| Collections.Filter | components/crypto-dashboard.tsx:48-54 | `filter` never lengthens the list |
| Collections.FilterSpec | components/crypto-dashboard.tsx:48-54 | `filter` keeps exactly the elements satisfying the predicate: every kept element is in the list and satisfies it, and every element that satisfies it is kept |
| Collections.FilterConcat | components/crypto-dashboard.tsx:48-54 | filtering distributes over concatenation, so kept elements stay in order |
| Collections.SumConcat | components/volume-analysis.tsx:79-81 | a summing `reduce` over a concatenation is the sum of the parts |
| Text.Contains | components/crypto-dashboard.tsx:50-51 | `includes` holds exactly when some window of the string equals the query |
| Market.FindCoinSpec | components/price-alerts.tsx:71 | the coin lookup fails exactly when no coin has the id, and otherwise returns a snapshot coin with that id |
| Market.PerturbBounds | lib/api.ts:371-372 | a perturbed price lies within ±0.5% of the base price and a perturbed 24h change within [-0.25, 0.25) of the base change |
| Market.SimulateCryptoData | lib/api.ts:369-373 | the snapshot keeps length, order, ids, symbols, names, caps and volumes; for draws in [0, 1) and a non-negative price it bounds every price and 24h change as above |
| Market.CoinParams | lib/api.ts:382-510 | an uncased coin id takes the default 63852 / 0.01; every entry has a positive base price and a volatility in (0, 0.04] |
| Market.BitcoinTakesDefault | lib/api.ts:507-510 | "bitcoin" has no case of its own and gets the same values as the initial default |
| Market.SessionModifier | lib/api.ts:521-527 | the session modifier lies in [0.997, 1.005] and exceeds 1 exactly in trading hours 9..17 |
| Market.CandleVolatility | lib/api.ts:554 | the candle volatility lies in [volatility, 2·volatility) |
| Market.MakeCandleShape | lib/api.ts:556-571 | open is the base, a bullish close is at least the open and a bearish one at most, their gap is at most 0.8·cv·base, and low ≤ min(open, close) ≤ max(open, close) ≤ high |
| Market.MakeCandlePositive | lib/api.ts:556-571 | with a positive base and a volatility of at most 0.04, every price of the candle is positive |
| Market.CandleBasePositive | lib/api.ts:548-551 | the base of a candle is positive for the trend, noise and modifier ranges of the generator |
| Market.CandleAtShape | lib/api.ts:513-573 | for table parameters and inputs in range each candle satisfies the OHLC invariant, opens at its base, has a candle volatility in [v, 2v), a body of at most 0.8·cv·base in the drawn direction and a positive low |
| Market.SimulateHistoricalData | lib/api.ts:377-576 | the loop pushes exactly days·24 candles, the i-th being the specified candle of iteration i; timestamps are now − (days·24 − i)·3600000, rise by exactly one hour, and the last is now − 3600000; for inputs in range every candle is valid OHLC with a positive low |
| Market.PickIndex | lib/api.ts:743 | the swap partner index is at most the loop index |
| Market.SwapPermutes | lib/api.ts:744-745 | a swap keeps the multiset of elements |
| Market.ShuffleDownPermutes | lib/api.ts:741-747 | the remaining swaps keep the length and the multiset |
| Market.ShuffleArray | lib/api.ts:741-747 | the in-place loop leaves the array equal to the specified shuffle of its old contents, a permutation of them |
| Market.ShuffledIsPermutation | lib/api.ts:741-747 | the shuffled list is a permutation of the input |
| Market.AddEach | lib/api.ts:723-728 | the inner `forEach`, as a recursive function, only appends candidates not yet present: the old list stays a prefix and a duplicate-free list stays duplicate-free |
| Market.AugmentSpec | lib/api.ts:716-729 | augmenting one news item keeps its list as a prefix, appends only the selected coin or listed coins, and keeps it duplicate-free |
| Market.AugmentRelatedCoins | lib/api.ts:716-729 | after the nested loops every item's list keeps its old list as a prefix, gains only the selected coin or listed coins, and stays duplicate-free |
| Market.CapitalizeFirstLetter | lib/api.ts:736-738 | only the first character is upper-cased; the length and the rest are unchanged |
| PriceAlerts.PassIsLatch | components/price-alerts.tsx:70-84 | a pass changes only `triggered`: it sets it exactly on alerts that flip, never clears it, and leaves alerts whose coin is missing untouched |
| PriceAlerts.EmptySnapshotIsNoop | components/price-alerts.tsx:64 | a pass over an empty snapshot changes nothing and reports nothing |
| PriceAlerts.QuietPassChangesNothing | components/price-alerts.tsx:79-89 | a pass that reports nothing leaves the list unchanged |
| PriceAlerts.ReportsExactlyTheFlips | components/price-alerts.tsx:79-84 | the reported alerts are exactly the list's alerts that flip |
| PriceAlerts.SecondPassIsQuiet | components/price-alerts.tsx:79-89 | idempotence: a second pass at the same prices changes and reports nothing |
| PriceAlerts.ReportedAtMostOnce | components/price-alerts.tsx:63-106 | over any run of snapshots each alert is reported at most once, never if it starts triggered, and once reported it stays triggered |
| PriceAlerts.AboveHundredScenario | components/price-alerts.tsx:75-83 | an "above 100" alert is reported exactly once over prices 90, 105, 95, 110 |
| PriceAlerts.NewlyTriggeredStep | components/price-alerts.tsx:79-83 | one iteration appends the alert to the reported list exactly when it flips |
| PriceAlerts.EvaluatePass | components/price-alerts.tsx:66-89 | the loop produces the evaluated list and the flips in order, and sets the changed flag exactly when something flipped |
| PriceAlerts.IsClose | components/price-alerts.tsx:379-385 | an alert is close exactly when its condition does not hold yet and the price is within 5% of the target on the approaching side |
| PriceAlerts.CoinOptions | components/price-alerts.tsx:161-162 | the selectable coins are the held coins, in snapshot order, or every coin when nothing is held |
| PriceAlerts.AlertBook.constructor | components/price-alerts.tsx:41-46 | the panel starts with no alerts, no triggered alerts and an empty form set to "above" |
| PriceAlerts.AlertBook.CheckAlerts | components/price-alerts.tsx:63-106 | the effect replaces the alerts by the evaluated list, appends the flips to the triggered list, does nothing on an empty list or snapshot, and leaves the form alone |
| PriceAlerts.AlertBook.AddAlert | components/price-alerts.tsx:108-136 | an alert is added exactly when a coin and a price are entered, the coin is in the snapshot and the price parses to a positive number; it is appended untriggered and the form is reset; otherwise nothing changes |
| PriceAlerts.AlertBook.ResetForm | components/price-alerts.tsx:154-158 | the form is cleared and the lists are kept |
| PriceAlerts.AlertBook.DeleteAlert | components/price-alerts.tsx:138-140 | exactly the alerts with the id are removed and the rest keep their order |
| PriceAlerts.AlertBook.ResetAlert | components/price-alerts.tsx:142-152 | matching alerts are re-armed with every other field kept, other alerts are unchanged, and matching alerts leave the triggered list |
| PortfolioTracker.AccumulateConcat | components/portfolio-tracker.tsx:79-85 | both totals over a concatenation are the sums of the parts |
| PortfolioTracker.MissingCoinsAreSkipped | components/portfolio-tracker.tsx:79-85 | holdings whose coin is missing contribute to neither total |
| PortfolioTracker.TotalsNonNegative | components/portfolio-tracker.tsx:79-85 | with non-negative amounts and prices both totals are non-negative |
| PortfolioTracker.ProfitPercentage | components/portfolio-tracker.tsx:90 | the percentage is 0 without a positive investment and otherwise the profit relative to the investment, times 100 |
| PortfolioTracker.ProfitPercentageSign | components/portfolio-tracker.tsx:89-90 | with a positive investment the percentage is positive exactly on a profit and zero exactly at break-even |
| PortfolioTracker.BitcoinProfitScenario | components/portfolio-tracker.tsx:76-90 | one bitcoin bought at 50000 and priced at 63852.41 shows value 63852.41 and profit 13852.41 |
| PortfolioTracker.PieChartData | components/portfolio-tracker.tsx:126-133 | one slice per holding, in order, named by the upper-cased symbol, valued at price·amount or 0 for a missing coin |
| PortfolioTracker.PieAddsUpToValue | components/portfolio-tracker.tsx:126-133 | the slices add up to the portfolio value |
| PortfolioTracker.Portfolio.constructor | components/portfolio-tracker.tsx:41-50 | the tracker starts with no holdings, zero metrics and an empty form |
| PortfolioTracker.Portfolio.UpdateMetrics | components/portfolio-tracker.tsx:67-91 | the metrics are zero without holdings or snapshot; otherwise value and investment are the accumulated totals, profit is their difference and the percentage is guarded |
| PortfolioTracker.Portfolio.AddHolding | components/portfolio-tracker.tsx:93-112 | a holding is appended exactly when every field is filled and the coin is in the snapshot, and the form is reset; otherwise nothing changes |
| PortfolioTracker.Portfolio.DeleteHolding | components/portfolio-tracker.tsx:114-116 | exactly the holdings with the id are removed and the rest keep their order |
| PortfolioTracker.Sweep | components/portfolio-tracker.tsx:76-85 | the `forEach` loop computes exactly the accumulated totals |
| Diversification.RiskDefaultUnused | components/portfolio-diversification.tsx:31-42 | every category has a non-zero table risk, so the `\|\| 5` default never applies; risks lie in 3..10 |
| Diversification.Correlation | components/portfolio-diversification.tsx:46-72 | the looked-up correlation lies in (0, 1] |
| Diversification.CorrelationSymmetric | components/portfolio-diversification.tsx:138-145 | trying `[c1][c2]`, then `[c2][c1]`, then 0.5 gives a symmetric value, at most 0.8 for two different categories |
| Diversification.FirstCategorySpec | components/portfolio-diversification.tsx:89-96 | for any coin table, the lookup returns the first category in table order that lists the coin, and Other when none does |
| Diversification.CategoryOfUnlisted | components/portfolio-diversification.tsx:89-96 | a coin in no list falls into Other |
| Diversification.FirstCategoryAt | components/portfolio-diversification.tsx:89-96 | a coin in the i-th list and in no earlier one falls into the i-th category |
| Diversification.DogecoinIsMeme | components/portfolio-diversification.tsx:17-28 | dogecoin is a meme coin |
| Diversification.GetCoinCategory | components/portfolio-diversification.tsx:89-96 | the early-return loop computes the first-match category |
| Diversification.TallyWellFormed | components/portfolio-diversification.tsx:103-120 | the aggregation keeps its key order duplicate-free, with one bucket per key, and bucket values adding up to the total |
| Diversification.TallyTotalIsPortfolioValue | components/portfolio-diversification.tsx:103-110 | the aggregated total is the portfolio value of the tracker, skipping missing coins |
| Diversification.BucketsHoldTheirCoins | components/portfolio-diversification.tsx:112-119 | every coin listed under a category belongs to it, is in the snapshot and is held |
| Diversification.AddValueCoins | components/portfolio-diversification.tsx:117-119 | a coin is pushed into its category's list only if absent, so each list stays duplicate-free |
| Diversification.TallyNonNegative | components/portfolio-diversification.tsx:103-120 | with non-negative amounts and prices every category value and the total are non-negative |
| Diversification.TallyHoldings | components/portfolio-diversification.tsx:99-120 | the `forEach` loop over holdings builds exactly the specified aggregation |
| Diversification.AbsorbHolding | components/portfolio-diversification.tsx:103-120 | one iteration skips a holding whose coin is missing and otherwise adds it under its looked-up category: one aggregation step |
| Diversification.AddHolding | components/portfolio-diversification.tsx:107-119 | one iteration for a priced holding is one aggregation step |
| Diversification.AddToCategory | components/portfolio-diversification.tsx:112-119 | the dictionary update creates the bucket on first use, adds the value and pushes a new coin |
| Diversification.ByCategory | components/portfolio-diversification.tsx:123-129 | one entry per category in insertion order, with its value, coins, table risk and share of the total |
| Diversification.PercentagesSumToHundred | components/portfolio-diversification.tsx:123-129 | with a non-zero total the percentages add up to 100 |
| Diversification.WeightedRiskBetween | components/portfolio-diversification.tsx:132-134 | the weighted risk lies between the smallest and the largest category risk, scaled by the percentage sum |
| Diversification.PairsExistIffTwoCategories | components/portfolio-diversification.tsx:138-158 | the nested loops visit n(n−1)/2 pairs, some exactly when there are two categories or more |
| Diversification.CorrelationScoreOf | components/portfolio-diversification.tsx:134-158 | the nested loops compute the specified score: the pair mean of corr·(pA+pB)/200, or 0.5 without pairs |
| Diversification.CorrelationRow | components/portfolio-diversification.tsx:142-153 | the inner loop for one category adds the terms of its pairs with every later category and counts n − i − 1 pairs |
| Diversification.CorrelationScoreAtMostHalf | components/portfolio-diversification.tsx:138-158 | with non-negative percentages adding up to 100 the correlation score lies in [0, 0.5] |
| Diversification.SortDescendingSpec | components/portfolio-diversification.tsx:168 | the sort returns a permutation ordered by descending percentage |
| Diversification.LargestIsFirst | components/portfolio-diversification.tsx:168 | the first sorted entry is an entry with the largest percentage |
| Diversification.SortKeepsPercentSum | components/portfolio-diversification.tsx:168 | sorting keeps the percentage sum |
| Diversification.Shown | components/portfolio-diversification.tsx:186-189 | the message shows the first one to three missing categories, in table order |
| Diversification.MissingSpec | components/portfolio-diversification.tsx:177-183 | the missing list is empty exactly when no category is suggestible, and holds only suggestible ones: absent, and not Other, Meme Coins or Privacy |
| Diversification.MissingRuleFires | components/portfolio-diversification.tsx:177-190 | the missing-categories advice appears exactly when some suggestible category is absent |
| Diversification.MissingRuleShows | components/portfolio-diversification.tsx:185-190 | the advice lists one to three missing categories, a prefix of the table-order list, all suggestible |
| Diversification.ConcentrationRule | components/portfolio-diversification.tsx:168-174 | the concentration advice appears exactly when the largest category exceeds 50%, and then it comes first |
| Diversification.FlagRules | components/portfolio-diversification.tsx:193-215 | high risk appears iff risk > 7, high correlation iff score > 0.7, few assets iff fewer than 3 holdings, in that order |
| Diversification.RecommendFlags | components/portfolio-diversification.tsx:166-215 | in the whole list, high risk, high correlation and few assets appear under the same conditions |
| Diversification.DiversificationScore | components/portfolio-diversification.tsx:162 | the composite score is at least 25 for risk ≤ 10 and correlation ≤ 0.5, and at most 100 for non-negative inputs |
| Diversification.ScoreBounds | components/portfolio-diversification.tsx:132-162 | with table risks and percentages adding up to 100: risk in [3, 10], correlation in [0, 0.5], composite in [25, 100] |
| Diversification.NeverHighCorrelation | components/portfolio-diversification.tsx:201-207 | with a correlation score of at most 0.5 the high-correlation advice is absent |
| Diversification.CategoriesAreWeights | components/portfolio-diversification.tsx:103-129 | with non-negative amounts and prices the category percentages are non-negative and add up to 100 |
| Diversification.AnalysisBounds | components/portfolio-diversification.tsx:83-215 | for non-negative prices and amounts an analysis has risk in [0, 10] (at least 3 with any category), correlation in [0, 0.5], composite at least 25 and never the high-correlation advice |
| Diversification.SingleCategoryScenario | components/portfolio-diversification.tsx:132-215 | a single category gets its own risk, correlation 0.5, composite 75 − 5·risk, concentration advice first and few-assets advice iff fewer than 3 holdings |
| Diversification.MemeOnlyScenario | components/portfolio-diversification.tsx:132-162 | an all-meme portfolio scores risk 10 and composite 25 |
| Diversification.Analyze | components/portfolio-diversification.tsx:83-225 | the effect runs only with holdings and a snapshot; it then computes the specified analysis, or, when categories exist but their total is 0, the zero-value outcome with the aggregation and its advice |
| Diversification.ZeroAdvice | components/portfolio-diversification.tsx:176-214 | the zero-total pushes are the missing-categories push and then the few-assets push |
| Diversification.ZeroValueAdvice | components/portfolio-diversification.tsx:99-214 | a zero-value outcome keeps the aggregation, with a zero total and at least one category, and carries the missing-categories hint for its categories and the few-assets hint |
| Diversification.ZeroHintsFlags | components/portfolio-diversification.tsx:192-214 | in the zero-total advice, few assets appears exactly with fewer than 3 holdings; high risk and high correlation never appear, since their tests fail on a `NaN` score (or on the 0.5 correlation of a single category) |
| Diversification.ZeroHintsMissing | components/portfolio-diversification.tsx:176-190 | in the zero-total advice the missing-categories hint is present exactly when a category is missing; it comes first and names the first one to three missing categories |
| Diversification.ScoreCategories | components/portfolio-diversification.tsx:132-215 | computes risk, correlation, composite score and advice as specified |
| VolumeAnalysis.Series | components/volume-analysis.tsx:44-72 | one point per candle, carrying the candle's timestamp and close |
| VolumeAnalysis.SeriesVolumeBounds | components/volume-analysis.tsx:50-63 | with a non-negative daily volume, positive closes and draws in [0, 1), every volume is at least total_volume/24 and every spike at least twice that |
| VolumeAnalysis.HalfIndex | components/volume-analysis.tsx:79 | the split point is within the series and the halves differ in length by at most one |
| VolumeAnalysis.HalvesSumToTotal | components/volume-analysis.tsx:79-81 | first-half plus second-half volume is the total volume |
| VolumeAnalysis.VolumeChange | components/volume-analysis.tsx:82 | the trend is undefined exactly when the first half's volume is zero |
| VolumeAnalysis.VolumeChangeSign | components/volume-analysis.tsx:205-213 | with a positive first half, the trend is non-negative (arrow up) exactly when the second half is at least the first, and positive exactly when it is larger |
| VolumeAnalysis.AverageAtLeastBase | components/volume-analysis.tsx:75-76 | if every volume is at least a bound, so is the average |
| VolumeAnalysis.Anomalies | components/volume-analysis.tsx:85-92 | one anomaly per point above 1.8·average |
| VolumeAnalysis.AnomaliesSpec | components/volume-analysis.tsx:85-92 | the anomalies are exactly the points above 1.8·average, and with a positive average each lies more than 80% above it |
| VolumeAnalysis.AnomaliesConcat | components/volume-analysis.tsx:86-87 | anomalies keep the series order |
| VolumeAnalysis.Changes | components/volume-analysis.tsx:96-107 | the price and volume change lists have n − 1 entries each, and are undefined exactly when a divisor is zero |
| VolumeAnalysis.StepChanges | components/volume-analysis.tsx:96-107 | the push loop computes exactly the specified change lists |
| VolumeAnalysis.Centered | components/volume-analysis.tsx:118-119 | each deviation is the value minus the mean |
| VolumeAnalysis.Accumulate | components/volume-analysis.tsx:113-124 | the accumulation loop computes the sums of deviation products and squares |
| VolumeAnalysis.CauchySchwarz | components/volume-analysis.tsx:113-126 | numerator² ≤ priceVariance·volumeVariance |
| VolumeAnalysis.CorrelationBounded | components/volume-analysis.tsx:110-126 | both variances are non-negative and the squared numerator is at most their product |
| VolumeAnalysis.CoefficientBounded | components/volume-analysis.tsx:126 | when both variances are positive the squared coefficient is at most 1, so the coefficient lies in [−1, 1] |
| VolumeAnalysis.GenerateVolumeData | components/volume-analysis.tsx:33-136 | nothing happens without candles; otherwise it computes the series and the specified metrics |
| VolumeAnalysis.FormatVolume | components/volume-analysis.tsx:150-160 | the unit is B from 1e9, M from 1e6, K from 1e3 and none below, checked in that order; the B, M and K amounts are at least 1, and the M and K amounts are below 1000 |
| TradingSignals.RsiValue | components/trading-signals.tsx:42 | the RSI lies in [30, 70) after a price rise and in [40, 80) otherwise |
| TradingSignals.RsiNeverBuys | components/trading-signals.tsx:42-58 | the RSI indicator never votes buy, and after a rise it always holds |
| TradingSignals.Indicators | components/trading-signals.tsx:46-81 | there are exactly four indicators |
| TradingSignals.CountBounds | components/trading-signals.tsx:86-87 | the buy, sell and hold counts add up to the number of indicators |
| TradingSignals.VoteCounts | components/trading-signals.tsx:46-87 | buy plus sell votes are at most 4, and each is at most 3 |
| TradingSignals.SignalSpec | components/trading-signals.tsx:89-101 | buy iff buy > sell and buy ≥ 2, sell symmetrically, confidence 25 per agreeing indicator (so 50 or 75), a hold 50 to 70 |
| TradingSignals.RiseCanSell | components/trading-signals.tsx:40-97 | a price rise can still produce a sell signal |
| Sentiment.Pick | components/sentiment-analysis.tsx:46-47 | `Math.floor(draw·k)` lies in 0..k−1 for a draw in [0, 1) |
| Sentiment.SharesSpec | components/sentiment-analysis.tsx:46-51 | positive in [20, 59], negative in [10, 39], neutral at least 2, the three add up to 100, score in [−19, 49] |
| Sentiment.Posts | components/sentiment-analysis.tsx:56-58 | one post per set of draws |
| Sentiment.PostsSpec | components/sentiment-analysis.tsx:56-78 | three posts, each with its sentiment's text, a user number below 1000 and an age of 1 to 12 hours |
| Sentiment.IconMatchesLabel | components/sentiment-analysis.tsx:89-107 | icon and label follow the same thresholds: above 20 bullish, below −20 bearish |
| Sentiment.NeverBearish | components/sentiment-analysis.tsx:46-107 | the generated score never produces the bearish label or icon |
| Sentiment.ReachableLabels | components/sentiment-analysis.tsx:46-51 | the bullish and the neutral labels both occur |
| Dashboard.SearchSpec | components/crypto-dashboard.tsx:47-58 | an empty query keeps the list; otherwise exactly the coins whose lower-cased name or symbol contains the lower-cased query |
| Dashboard.SearchKeepsOrder | components/crypto-dashboard.tsx:48-54 | the search keeps market order |
| Dashboard.QueryCaseInsensitive | components/crypto-dashboard.tsx:50-51 | upper-casing the query does not change the result |
| Dashboard.RefreshData | components/crypto-dashboard.tsx:77-90 | a refresh stores the new data |
| Dashboard.RefreshUsesSearchRule | components/crypto-dashboard.tsx:81-90 | a refresh shows exactly what the search would show for the new data |
| Dashboard.TimeframeDays | components/crypto-dashboard.tsx:109 | the days are always 1, 7, 30 or 365 |
| Dashboard.TimeframeDaysSpec | components/crypto-dashboard.tsx:109 | "24h" maps to 1, "7d" to 7, "30d" to 30, anything else to 365 |
| Dashboard.VisibleCards | components/crypto-dashboard.tsx:162-163 | the grid shows the first min(12, n) coins of the filtered list |

## Left out

- Network and timers. The fetch wrappers in lib/api.ts, the 30-second refresh interval and the `setTimeout` delays are I/O and event-loop scheduling, and so are the `fetchData` / `handleCryptoSelect` state updates. The guards of those effects are modelled where they decide something.
- Persistence. The `localStorage` load and save of holdings and alerts is a foreign API. The lists start empty as plain fields.
- Trigonometry and clocks. The candle generator's `Math.sin` trends and its `Date` hour and weekday are inputs. Only their ranges are assumed.
- Randomness. `Math.random` is not modelled. Its draws are parameters in [0, 1).
- Ids and dates. `Date.now()` ids and ISO dates are inputs, and nothing assumes they are unique.
- Toasts are left out. An alert's notification is its entry in the returned newly-triggered list.
- Display formatting is left out: `toFixed`, `toLocaleString`, dates, colours, icons, chart geometry and the correlation "Strong/Moderate/Weak" caption.
- components/crypto-news.tsx is not part of this model.
- The static snapshot and news fixtures of lib/api.ts are data, not rules. Only their generators are modelled.
- Numbers are exact reals, not IEEE doubles. `NaN` and `Infinity` are represented in these places only: `ZeroValue` for a zero-total portfolio, `None` in the volume metrics, and `None` for an alert price that does not parse.
- Diversification.Analyze: the zero-value outcome has no sorted `byCategory`, no scores and no concentration advice. Its percentages are infinite or `NaN`, and the concentration test on the first sorted entry depends on how the library sort orders such values. With a positive category value it can fire with an infinite percentage.
- PriceAlerts.AlertBook.AddAlert: the result of `Number.parseFloat(alertPrice)` is an input, with `None` standing for `NaN`; it is not derived from the stored form text. The `image` field and `setIsDialogOpen(false)` are not modelled.
- PortfolioTracker.Portfolio.AddHolding: the `Number.parseFloat` results of the amount and price fields are real-valued inputs, not derived from the form text. A field that does not parse would give `NaN`, and that case is not modelled. The `image` field and `setIsDialogOpen(false)` are not modelled.
- Text.ToLower: case mapping covers ASCII letters only, and so does Text.ToUpper. The results of Dashboard.SearchSpec, Dashboard.QueryCaseInsensitive, PortfolioTracker.PieChartData and Market.CapitalizeFirstLetter hold for that mapping. JavaScript's full Unicode mapping can change a string's length (`"ß".toUpperCase()` is `"SS"`), and then QueryCaseInsensitive and the `|r| == |s|` of CapitalizeFirstLetter need not hold.
- VolumeAnalysis.Series: requires every close but the last to be non-zero. JavaScript would divide by zero there, and that non-finite series is not modelled.
- VolumeAnalysis.SeriesVolumeBounds: assumes positive closes. With negative prices the volatility could be negative.
- VolumeAnalysis.CoefficientBounded: the coefficient is stated through its square. `Math.sqrt` is not modelled.
- VolumeAnalysis.StepChanges: returns `None` where JavaScript would push a non-finite change and carry on.
- Diversification.ByCategory: `byCategory.sort` is a library sort, modelled as a stable insertion sort on `seq` rather than in place.
- Diversification.TallyOf: the aggregation lemmas take the category lookup as a parameter. The loop method fixes it to the table lookup.
- Diversification.CategoryOf: the category lists are disjoint and need no first-match priority, but no lemma states that.
- Trading-signal and sentiment descriptions and the sample posts' user handles are display text. The post texts are modelled, and a user handle is its number.
- The 1.5-second and 1-second delays and the "loading" flags are left out. They are scheduling in trading-signals.tsx and sentiment-analysis.tsx. So are those effects' guards: `cryptoData && historicalData.length > 0` (trading-signals.tsx:21) and `if (cryptoId)` (sentiment-analysis.tsx:29). TradingSignals.GenerateSignals and Sentiment.GenerateSentimentData model the bodies that run once a guard passes.
