# InvestWise client: a Dafny model of its computational core

InvestWise is a React client for tracking a stock portfolio. It shows per-holding
cards and a portfolio dashboard with charts, news sentiment, and technical
indicators for a ticker. Most of the client fetches data and renders it. This
project models the parts that compute something, and proves what they promise.

- **Technical-indicator engine** (`calculateIndicators`, module `Indicators`).
  - It computes RSI over the earliest 14 price moves.
  - It computes a simple-average "MACD" with its signal line and histogram.
  - It computes Bollinger bands from the population mean and standard deviation
    of all closes.
  - It computes a 14-bar average true range.
  - Series shorter than 14 bars are rejected.
  - Every window is cut with JavaScript's clamping `slice` (module `JsArrays`).
    Every windowed average (RSI, the MACD family, ATR) divides by its fixed
    constant (14, 12, 26, 9), even when the window is shorter. The Bollinger
    mean and variance divide by the number of closes.
  - The unguarded `avgGain / avgLoss` can leave the finite numbers. So `rsi` is
    a JavaScript number with its IEEE special values (module `JsValues`).
  - `Math.sqrt` is a parameter of the engine. The Bollinger lemmas assume only
    that it is a square root: `sqrt(0) = 0`, and for every `v >= 0`,
    `sqrt(v) >= 0` and `sqrt(v)^2 = v`.
- **Per-ticker market-data cache** (`StockCache.StockDataCache`).
  - It is two module-level dictionaries (data and timestamps), modelled as a
    class with two `map` fields.
  - Entries are valid for 600000 ms. That is ten minutes; the comment beside
    the constant says five.
  - `fetchStockData` fills the cache on a miss and `clearCache` empties it on
    sign-out. Both keep the two dictionaries on the same key set.
  - The clock is passed in. The three HTTP requests are passed in as the
    outcomes they will have.
- **Sentiment classifiers** (`SentimentChart`, `StockCard`).
  - The chart's five-band classifier and its bar colour.
  - The card's label and colour ladders. They disagree with each other and
    with the chart's classifier at exactly 0.15.
- **Holding and portfolio arithmetic** (`StockCard`, `Dashboard`, `Valuation`).
  - Price fallbacks follow JavaScript's `||`, where 0 counts as missing.
  - Profit or loss, with its guarded percentage.
  - Per-holding enrichment that tolerates failed requests.
  - Total cost, and the average ticker sentiment.
- **News panel** (`NewsSentiment`).
  - Freshness categories by elapsed milliseconds, with inclusive bounds.
  - The per-ticker limit of ten articles, built by a loop.
  - The load sequence, with its empty-portfolio guard.
- **Portfolio pie chart** (`PortfolioPie`).
  - Aligned labels and values, and a zero-total guard.
  - Palette slicing.
  - Tooltip shares that add up to 100.

Prices and amounts are exact reals. Floating-point rounding is not modelled.

For a series shorter than 26 closes, the slow average is the sum of all closes
divided by 26. It is not the mean of the closes present. The model follows the
code on this.

`calculateIndicators` is modelled as a function of its input alone. Its input
array is never changed (it is a Dafny sequence), and its result has exactly the
eight named fields (`IndicatorSet`).

## Model

| member | source | states |
|---|---|---|
| `Indicators.CalculateIndicators` | src/utils/indicatorUtils.js:1-50 | fails with "Insufficient historical data for indicator calculation." exactly when there are fewer than 14 bars; otherwise histogram = macd − signal, bandWidth = upper − lower, atr ≥ 0, and rsi is NaN or a finite value in [0, 100] |
| `Indicators.IndicatorFields` | src/utils/indicatorUtils.js:49 | an accepted series yields exactly the eight indicator values of its closes and bars, bandWidth being upper − lower band |
| `Indicators.Closes` | src/utils/indicatorUtils.js:6 | one close per bar, in order |
| `Indicators.Deltas` | src/utils/indicatorUtils.js:10 | n − 1 deltas (none for an empty series) with `delta[i] = close[i+1] − close[i]` |
| `Indicators.GainLossSplit` | src/utils/indicatorUtils.js:11-12 | gain and loss are both ≥ 0, gain − loss = delta, and at least one of them is 0 |
| `Indicators.Gain` | src/utils/indicatorUtils.js:11 | the gain of a move is ≥ 0 and ≥ the move, and it is either the move or 0 |
| `Indicators.Loss` | src/utils/indicatorUtils.js:12 | the loss of a move is ≥ 0 and ≥ its negation, and it is either the negated move or 0 |
| `Indicators.Gains` | src/utils/indicatorUtils.js:11 | one gain per delta, in order |
| `Indicators.Losses` | src/utils/indicatorUtils.js:12 | one loss per delta, in order |
| `Indicators.AvgGain` | src/utils/indicatorUtils.js:13 | 14 times the average gain is the sum of the first min(14, n − 1) gains; see `RsiWindow` and `AveragesNonNegative` |
| `Indicators.AvgLoss` | src/utils/indicatorUtils.js:14 | 14 times the average loss is the sum of the first min(14, n − 1) losses |
| `Indicators.Rsi` | src/utils/indicatorUtils.js:15-16 | the RSI is NaN exactly when both averages are 0; its other outcomes are stated by `RsiOutcomes` |
| `Indicators.RsiWindow` | src/utils/indicatorUtils.js:13-14 | the RSI averages sum only the first min(14, n − 1) gains and losses |
| `Indicators.AveragesNonNegative` | src/utils/indicatorUtils.js:13-14 | avgGain ≥ 0 and avgLoss ≥ 0 |
| `Indicators.RsiOutcomes` | src/utils/indicatorUtils.js:13-16 | avgLoss > 0 gives a finite RSI in [0, 100); avgLoss = 0 < avgGain gives 100; both 0 gives NaN; no other outcome exists |
| `Indicators.RsiWithLosses` | src/utils/indicatorUtils.js:15-16 | when the window holds a loss, rs = avgGain/avgLoss ≥ 0 and the RSI is exactly the finite 100 − 100/(1 + rs) |
| `Indicators.RsiIgnoresLaterBars` | src/utils/indicatorUtils.js:10-16 | bars after index 14 change neither average nor the RSI |
| `Indicators.RsiFixedDivisor` | src/utils/indicatorUtils.js:13-14 | when the first min(14, n − 1) moves never fall, the average loss is 0 and the average gain is the total rise over that window divided by 14, not by the number of moves |
| `Indicators.RisingWindowSums` | src/utils/indicatorUtils.js:10-14 | over k non-falling moves the gains add up to the total rise close[k] − close[0] and the losses to 0 |
| `Indicators.AvgGainOfFourteenEvenRises` | src/utils/indicatorUtils.js:13 | fourteen closes rising by the same step give an average gain of 13·step/14: thirteen moves over the fixed divisor 14 |
| `Indicators.EvenRises` | src/utils/indicatorUtils.js:10 | k equal moves of size step rise by k·step in total |
| `Indicators.RsiOfFlatSeries` | src/utils/indicatorUtils.js:13-16 | a constant series has RSI NaN (0/0) |
| `Indicators.RsiOfRisingSeries` | src/utils/indicatorUtils.js:13-16 | a series rising over its first 14 moves has RSI exactly 100 |
| `Indicators.TrailingAverageWindow` | src/utils/indicatorUtils.js:22-31 | each MACD average sums the last min(window, n) closes and divides by the window constant |
| `Indicators.TrailingAverage` | src/utils/indicatorUtils.js:22-31 | the clamped trailing window summed and divided by the window constant; its window is stated by `TrailingAverageWindow` |
| `Indicators.FastAverage` | src/utils/indicatorUtils.js:22-24 | the trailing average with window 12; its values on constant series are stated by `MacdOfConstantSeries` |
| `Indicators.SlowAverage` | src/utils/indicatorUtils.js:25-27 | the trailing average with window 26; on short series stated by `SlowAverageOfShortSeries` |
| `Indicators.SignalLine` | src/utils/indicatorUtils.js:29-31 | the trailing average with window 9, taken over the closes and not over macd values |
| `Indicators.Macd` | src/utils/indicatorUtils.js:28 | the fast average minus the slow average; stated on constant series by `MacdOfConstantSeries` and `MacdOfShortConstantSeries` |
| `Indicators.MacdHistogram` | src/utils/indicatorUtils.js:32 | macd minus the signal line; `CalculateIndicators` states histogram = macd − signal in the result |
| `Indicators.SlowAverageOfShortSeries` | src/utils/indicatorUtils.js:25-27 | below 26 closes the slow average is the sum of all closes over 26, not their mean |
| `Indicators.MacdOfConstantSeries` | src/utils/indicatorUtils.js:22-32 | for n ≥ 26 constant closes c: macd 0, signal c, histogram −c |
| `Indicators.MacdOfShortConstantSeries` | src/utils/indicatorUtils.js:22-28 | for 12 ≤ n < 26 constant closes c: slow average n·c/26 and macd c − n·c/26 |
| `Indicators.SquaredDeviations` | src/utils/indicatorUtils.js:36 | one squared deviation from the mean per close |
| `Indicators.Mean` | src/utils/indicatorUtils.js:35 | the mean times the number of closes is their sum |
| `Indicators.Variance` | src/utils/indicatorUtils.js:36 | the population variance (divisor n); stated ≥ 0 by `VarianceNonNegative` |
| `Indicators.StdDev` | src/utils/indicatorUtils.js:36 | the host square root of the variance; stated ≥ 0 by `BandsStraddleMean` |
| `Indicators.UpperBand` | src/utils/indicatorUtils.js:37 | mean + 2·stddev; stated ≥ mean by `BandsStraddleMean` |
| `Indicators.LowerBand` | src/utils/indicatorUtils.js:38 | mean − 2·stddev; stated ≤ mean by `BandsStraddleMean` |
| `Indicators.VarianceNonNegative` | src/utils/indicatorUtils.js:36 | the population variance is ≥ 0 |
| `Indicators.BandsStraddleMean` | src/utils/indicatorUtils.js:35-39 | stddev ≥ 0, lower ≤ mean ≤ upper, and upper − lower = 4·stddev |
| `Indicators.BandsOfConstantSeries` | src/utils/indicatorUtils.js:35-39 | constant closes c give mean c, variance 0, stddev 0 and upper = lower = c |
| `Indicators.BandsOfIndicatorSet` | src/utils/indicatorUtils.js:37-39 | in the returned record lower ≤ upper and bandWidth = 4·stddev ≥ 0 |
| `Indicators.Max3` | src/utils/indicatorUtils.js:45 | `Math.max` of three is one of them and no smaller than any |
| `Indicators.Abs` | src/utils/indicatorUtils.js:45 | `Math.abs` is ≥ 0 and is either the number or its negation |
| `Indicators.TrueRange` | src/utils/indicatorUtils.js:45 | the largest of the bar's range and the close's distances to high and low; stated by `TrueRangeNonNegative` and `TrueRangeOfInsideClose` |
| `Indicators.TrueRanges` | src/utils/indicatorUtils.js:42-45 | each bar's true range uses that same bar's close |
| `Indicators.TrueRangeNonNegative` | src/utils/indicatorUtils.js:45 | a true range is ≥ 0 and ≥ high − low |
| `Indicators.TrueRangeOfInsideClose` | src/utils/indicatorUtils.js:45 | when low ≤ close ≤ high the true range is high − low |
| `Indicators.AtrWindow` | src/utils/indicatorUtils.js:44-47 | with n ≥ 14, exactly the last 14 true ranges are averaged over 14 |
| `Indicators.Atr` | src/utils/indicatorUtils.js:44-47 | the clamped last 14 true ranges summed and divided by 14; stated by `AtrWindow` and `AtrNonNegative` |
| `Indicators.AtrNonNegative` | src/utils/indicatorUtils.js:44-47 | atr ≥ 0 |
| `Indicators.AtrOfPointBars` | src/utils/indicatorUtils.js:44-47 | bars with high = low = close have atr 0 |
| `Indicators.PointBars` | src/utils/indicatorUtils.js:6 | the closes of point bars built from closes are those closes |
| `Indicators.SampleMoves` | src/utils/indicatorUtils.js:10-12 | the fourteen sample closes move by the listed gains and losses |
| `Indicators.SampleGainTotal` | src/utils/indicatorUtils.js:13 | the sample gains sum to 3.25 |
| `Indicators.SampleLossTotal` | src/utils/indicatorUtils.js:14 | the sample losses sum to 0.75 |
| `Indicators.SampleSeries` | src/utils/indicatorUtils.js:1-50 | the fourteen-bar sample series is accepted with rsi exactly 81.25 and atr 0 |
| `JsValues.Div` | src/utils/indicatorUtils.js:15-16 | JavaScript division: a quotient for a non-zero divisor; ±Infinity or NaN by the dividend's sign for a zero divisor |
| `JsArrays.SlicePrefix` | src/utils/indicatorUtils.js:13-14 | `slice(0, k)` keeps the first min(k, n) elements |
| `JsArrays.SliceLast` | src/utils/indicatorUtils.js:22-31 | `slice(-k)` keeps the last min(k, n) elements |
| `JsArrays.Slice` | src/utils/indicatorUtils.js:13-14 | `slice(start, end)` never fails and is never longer than the array; its windows are stated by `SlicePrefix` and `SliceLast` |
| `JsArrays.SliceFrom` | src/utils/indicatorUtils.js:10 | `slice(start)` runs from the clamped start to the end; stated by `SliceTail` and `SliceLast` |
| `JsArrays.SliceTail` | src/utils/indicatorUtils.js:10 | `slice(1)` drops exactly the first element |
| `JsArrays.SumZero` | src/components/PortfolioPieChart.js:29-30 | a sum of non-negative terms is 0 only when every term is 0 |
| `JsArrays.Sum` | src/utils/indicatorUtils.js:13-14 | `reduce((a, b) => a + b, 0)` as a left fold; its properties are stated by `SumStep`, `SumNonNegative`, `SumZero`, `SumBounds`, `SumConstant` and `SumScale` |
| `JsArrays.SumStep` | src/utils/indicatorUtils.js:13-14 | extending a prefix by one element adds that element to the fold |
| `JsArrays.SumNonNegative` | src/utils/indicatorUtils.js:13-14 | a fold of non-negative terms is ≥ 0 |
| `JsArrays.SumBounds` | src/pages/Dashboard.js:96-103 | a fold of terms in [lo, hi] lies in [lo·n, hi·n] |
| `JsArrays.SumConstant` | src/utils/indicatorUtils.js:35 | a fold of n copies of c is n·c |
| `JsArrays.SumScale` | src/components/PortfolioPieChart.js:29-80 | folding scaled terms scales the fold |
| `JsValues.Truthy` | src/components/StockCard.js:105 | JavaScript truthiness of a number that may be missing: present and non-zero; used by the contracts of `Or`, `OrZero` and `OrNull` |
| `JsValues.Or` | src/components/StockCard.js:105 | `a \|\| b` is a when a is truthy (present and non-zero), else b |
| `JsValues.OrZero` | src/pages/Dashboard.js:59 | `x \|\| 0` is x when x is truthy, else 0 |
| `JsValues.OrNull` | src/components/StockCard.js:34 | `x \|\| null` is x when x is truthy, else null |
| `JsValues.IsNaN` | src/components/StockCard.js:98 | `isNaN` is true for undefined and NaN, false for null and for every other number |
| `JsValues.AddSpecialValues` | src/utils/indicatorUtils.js:16 | the sum is finite iff both operands are, and then it is their sum; it is NaN iff an operand is NaN or the operands are opposite infinities |
| `JsValues.SubSpecialValues` | src/utils/indicatorUtils.js:16 | a finite difference comes from finite operands and is their difference; it is NaN iff an operand is NaN or both are the same infinity |
| `StockCache.StockDataCache.constructor` | src/context/UserContext.js:11-12 | both dictionaries start empty, with equal key sets |
| `StockCache.StockDataCache.IsCacheValid` | src/context/UserContext.js:19-24 | a missing or zero timestamp is never valid; otherwise valid exactly while now < timestamp + 600000 |
| `StockCache.StockDataCache.Hit` | src/context/UserContext.js:29 | the hit test: a stored entry whose timestamp is still valid; `FetchStockData` states that a hit sends no request and changes nothing |
| `StockCache.ValidityWindow` | src/context/UserContext.js:23 | an entry is stale at exactly timestamp + 600000 ms |
| `StockCache.ExpiryIsMonotone` | src/context/UserContext.js:19-24 | an entry valid at a later time was valid at every earlier time since it was stored |
| `StockCache.CacheDurationIsTenMinutes` | src/context/UserContext.js:23 | the window is ten minutes |
| `StockCache.StockDataCache.FetchStockData` | src/context/UserContext.js:27-53 | a hit returns the stored data with no request and no change; a full miss stores the three bodies and the completion time under the ticker only; a failing request's error is returned, later requests are not sent, and nothing changes; both maps keep equal key sets |
| `StockCache.StockDataCache.ClearCache` | src/context/UserContext.js:81-87 | the data map ends empty and every timestamp of a data key is deleted, so both maps are empty when they had equal keys |
| `StockCache.StockDataCache.OnAuthStateChanged` | src/context/UserContext.js:91-98 | signing out clears the cache; a signed-in user leaves it untouched |
| `SentimentChart.ClassifySentiment` | src/components/AverageSentimentBarChart.js:21-28 | exactly one of the five bands applies to every value, so "Unknown" is never returned |
| `SentimentChart.ClassifyIsMonotone` | src/components/AverageSentimentBarChart.js:21-28 | a larger value never gets a more bearish label |
| `SentimentChart.ChooseBarColour` | src/components/AverageSentimentBarChart.js:15-18 | the bar is teal iff the average is ≥ 0, red iff it is < 0 |
| `SentimentChart.BarColourMatchesLabel` | src/components/AverageSentimentBarChart.js:15-28 | a red bar is labelled neutral or bearish, a teal bar neutral or bullish |
| `Valuation.ProfitLossPercent` | src/components/StockCard.js:108 | for a positive cost, percent·cost = profitLoss·100; otherwise exactly 0 |
| `Valuation.PercentSign` | src/pages/Dashboard.js:89-90 | the percentage is ≥ 0 iff the profit is, and −100 iff everything invested was lost |
| `StockCard.LoadCardData` | src/components/StockCard.js:28-45 | a fetched record gives the price payload (or `{}`), the intraday close unless falsy, and the scores defaulting to 0; a failed fetch resets everything to the initial defaults |
| `StockCard.CurrentPrice` | src/components/StockCard.js:105 | intraday if truthy, else the latest close if truthy, else 0 |
| `StockCard.FailedFetchValuesAtZero` | src/components/StockCard.js:38-44 | a card whose fetch failed has current price 0 |
| `StockCard.Value` | src/components/StockCard.js:106-108 | stockValue = quantity·price, profitLoss + totalCost = stockValue, and the guarded percentage |
| `StockCard.ProfitLossColour` | src/components/StockCard.js:122-124 | border and profit/loss text are green iff profitLoss ≥ 0, else red |
| `StockCard.GreenWhenWorthItsCost` | src/components/StockCard.js:104-133 | the card is green iff quantity·current price ≥ total cost |
| `StockCard.SentimentColour` | src/components/StockCard.js:166-172 | green iff ≥ 0.15, yellow iff in (−0.15, 0.15), red iff ≤ −0.15 |
| `StockCard.CardLabel` | src/components/StockCard.js:175-183 | the five label bands of the card, with Neutral on (−0.15, 0.15] |
| `StockCard.LaddersDisagreeOnlyAtUpperNeutralBound` | src/components/StockCard.js:175-212 | the card's label and the chart's classifier differ iff the score is exactly 0.15 (Neutral against Somewhat Bullish) |
| `StockCard.ColourFollowsLabelExceptAtUpperBound` | src/components/StockCard.js:166-183 | green iff the label is bullish or the score is exactly 0.15, red iff the label is bearish; at 0.15 the colour is green and the label Neutral |
| `StockCard.ShouldRequestPrediction` | src/components/StockCard.js:92-102 | on the card's state (scores always numbers, a missing close read as undefined) a prediction is requested iff the latest close is present |
| `StockCard.PredictionGuard` | src/components/StockCard.js:94-99 | the guard over JavaScript values fires iff both scores are not null and the close is a number that is not NaN |
| `StockCard.NullCloseNeverFires` | src/components/StockCard.js:97-98 | a null, undefined or NaN close never fires the guard, whatever the scores |
| `StockCard.PredictionNeedsFetchedClose` | src/components/StockCard.js:27-45 | after a load the prediction is requested iff the fetch succeeded and its price payload carries a close |
| `StockCard.PredictionAfter` | src/components/StockCard.js:75-82 | a failed request sets "Error"; otherwise the response's prediction field |
| `StockCard.PredictionDisplay` | src/components/StockCard.js:225-295 | up iff "Increase", down iff "Decrease", the neutral icon for anything else |
| `StockCard.NoPredictionIsFlat` | src/components/StockCard.js:24 | no prediction yet, or a failed request, shows no movement |
| `NewsSentiment.GetFreshnessCategory` | src/components/NewsSentiment.js:5-25 | inclusive buckets: ≤ 1 h Breaking, ≤ 24 h Fresh, ≤ 7 days Somewhat Fresh, otherwise Stale; negative ages are Breaking |
| `NewsSentiment.FreshnessIsMonotone` | src/components/NewsSentiment.js:13-24 | an older article is never in a fresher category |
| `NewsSentiment.CategoriesAreDistinct` | src/components/NewsSentiment.js:13-24 | all four categories occur, with distinct texts and colours |
| `NewsSentiment.LimitNewsByTicker` | src/components/NewsSentiment.js:66-70 | same key set as the response; each list is its first min(length, 10) articles in order |
| `NewsSentiment.FetchPortfolioAndNews` | src/components/NewsSentiment.js:33-79 | no stocks: "No stocks found in the portfolio." and no news request; a failed request: "Failed to fetch news sentiment data."; otherwise the truncated news; loading ends in every case |
| `NewsSentiment.Render` | src/components/NewsSentiment.js:86-109 | loading first, then a non-empty error, then "no news" for an empty map; otherwise exactly one button per ticker key of the news map |
| `NewsSentiment.MountShowsLoading` | src/components/NewsSentiment.js:27-29 | the panel's initial state renders the loading message |
| `NewsSentiment.InitialNewsState` | src/components/NewsSentiment.js:27-29 | the initial `useState` values: no news, no error, loading; stated by `MountShowsLoading` |
| `Dashboard.LatestClose` | src/pages/Dashboard.js:59 | the price payload's close, or 0 when it is missing or falsy |
| `Dashboard.TickerSentiment` | src/pages/Dashboard.js:60-61 | the ticker sentiment score, or 0 when it is missing or falsy |
| `Dashboard.EnrichHolding` | src/pages/Dashboard.js:55-78 | keeps the holding and adds totalValue = price·quantity; a failed fetch zeroes price, sentiment and value |
| `Dashboard.EnrichPortfolio` | src/pages/Dashboard.js:54-79 | same length and order as the aggregate response, each holding enriched from its own ticker's data |
| `Dashboard.TotalCostIgnoresFetches` | src/pages/Dashboard.js:84-87 | total cost depends only on the holdings, never on the price requests |
| `Dashboard.TotalCost` | src/pages/Dashboard.js:84-87 | the left-fold sum of the holdings' costs; stated independent of the requests by `TotalCostIgnoresFetches` |
| `Dashboard.AverageSentiment` | src/pages/Dashboard.js:96-103 | 0 for an empty portfolio, otherwise average·length = total sentiment |
| `Dashboard.AverageSentimentBounds` | src/pages/Dashboard.js:96-103 | the average lies between any bounds of the individual scores |
| `Dashboard.FailedFetchesCountAsNeutral` | src/pages/Dashboard.js:69-76 | when every request fails the average sentiment is 0 |
| `Dashboard.LoadDashboard` | src/pages/Dashboard.js:25-112 | wealth figures default to 0; profitLoss = total wealth − total cost with the guarded percentage; the average sentiment of the enriched holdings; failure only if the wealth or portfolio request fails, with "Failed to fetch portfolio data." |
| `Dashboard.ProfitLossIgnoresFetches` | src/pages/Dashboard.js:84-90 | the total profit or loss and its percentage do not depend on the per-holding requests |
| `PortfolioPie.Labels` | src/components/PortfolioPieChart.js:21 | one label per holding: its ticker, in order |
| `PortfolioPie.SliceValue` | src/components/PortfolioPieChart.js:23-25 | (price, or 0 when missing or falsy) · quantity |
| `PortfolioPie.Values` | src/components/PortfolioPieChart.js:22-26 | one value per holding, in the labels' order |
| `PortfolioPie.Colours` | src/components/PortfolioPieChart.js:36-49 | the first min(6, n) palette colours |
| `PortfolioPie.PreparePie` | src/components/PortfolioPieChart.js:20-54 | no chart iff the values sum to 0; otherwise aligned labels and values, min(6, n) colours and a non-zero total |
| `PortfolioPie.NothingToDrawMeansWorthless` | src/components/PortfolioPieChart.js:22-33 | with no negative price or quantity, the chart is skipped iff every holding is worth 0 |
| `PortfolioPie.TooltipPercent` | src/components/PortfolioPieChart.js:79-80 | percent·total = (value or 0)·100 |
| `PortfolioPie.Shares` | src/components/PortfolioPieChart.js:79-80 | one tooltip share per slice of a drawn chart, in order; stated to sum to 100 by `SharesSumToHundred` |
| `PortfolioPie.SharesSumToHundred` | src/components/PortfolioPieChart.js:29-80 | the tooltip shares of a drawn chart sum to exactly 100 |
| `PortfolioPie.RenderEffect` | src/components/PortfolioPieChart.js:104-107 | nothing is attempted for an empty portfolio, and nothing is drawn when the total is 0 |
| `PortfolioPie.SlicesAreDashboardValues` | src/components/PortfolioPieChart.js:22-26 | for the dashboard's holdings each slice is exactly the holding's totalValue |
| `PortfolioPie.FromHoldings` | src/pages/Dashboard.js:183 | the dashboard hands each enriched holding to the pie with its ticker, its price and its quantity, in order |

## Left out

- Network I/O is not modelled. This covers the axios requests, `/api/predict`, Firebase authentication and the sign-in and sign-up flows. Each request is a parameter holding the outcome it will have.
- `fetchPortfolioAndWealth` in src/context/UserContext.js is not modelled. It only sequences two requests, and the dashboard's own load with the same shape is modelled as `Dashboard.LoadDashboard`.
- Time is a parameter. `Date.now()` and `parseISO` are replaced by a `now` parameter for the cache and by the elapsed milliseconds for the news panel.
- React state, effects, routing and the DOM are not modelled. Neither are Chart.js chart creation and destruction. This covers the other components and pages (header, login, sign-up, search, private route, footer, explainer, news page, wealth area chart).
- The thin pages have no module of their own. These are the total-cost formula of StockDetailsCard.js, the oversell guard of SellStockForm.js, the ticker filter of StockDetails.js and the form parsing of StockDetailsForm.js.
- Floating-point arithmetic is not modelled: values are exact reals. NaN, ±Infinity and signed zero appear only where `rsi` needs them. A missing numeric field in a response (for example `totalCost`), which would make a sum NaN, is not modelled.
- `Math.sqrt` is not computed. It is a parameter, constrained in lemmas by `IsSquareRoot`.
- String formatting is not modelled. This covers `toFixed`, `toLocaleString` and currency formatting. The dashboard stores the average sentiment as a three-decimal string; the model keeps the unrounded number.
- StockCard.PredictionGuard: a close that is a string (which `isNaN` coerces) is not modelled. Closes are `undefined`, `null` or numbers.
- StockCard.PredictionAfter: the request payload (`parseFloat` of each price field) is not modelled. Only the response's `prediction` field is.
- StockCache.StockDataCache.FetchStockData: the awaits are modelled as one atomic step. Interleaving with other concurrent fetches of the same ticker is not modelled.
- Dashboard.EnrichPortfolio: the concurrent `Promise.all` fan-out is modelled as a sequential map in portfolio order.
- Dashboard.LoadDashboard: the model describes one load and returns only its outcome. The client never resets `error`, so after one failed load the error message stays on screen even after a later successful load. The total wealth and invested amount it sets before a failing portfolio request are hidden behind that error view.
- NewsSentiment.Render: the order of the ticker buttons (the key order of `Object.keys`) is not modelled. The buttons are a set.
- NewsSentiment.FetchPortfolioAndNews: a non-array portfolio response, which would throw inside `map`, is not modelled. Portfolios are sequences.
