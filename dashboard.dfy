/**
  The dashboard's portfolio load: read total wealth and the aggregated
  holdings, enrich every holding with its current price and ticker sentiment
  (a holding whose data cannot be fetched is valued at zero), then derive the
  total profit or loss and the average sentiment. The per-holding requests,
  concurrent in the client, are taken one after another in portfolio order.
 */
module Dashboard {
  import opened JsValues
  import opened JsArrays
  import opened StockCache
  import opened Valuation

  const LoadFailedMessage := "Failed to fetch portfolio data."

  /** A holding as the aggregate endpoint returns it. */
  datatype Holding = Holding(ticker: string, name: string, totalQuantity: real, totalCost: real,
                             averagePurchasePrice: real)

  /** A holding with the three fields the dashboard adds to it. */
  datatype EnrichedHolding = EnrichedHolding(stock: Holding, currentPrice: real, tickerSentiment: real,
                                             totalValue: real)

  /** The price payload's close, or 0 when the payload, its close, or the close's value is missing. */
  function LatestClose(data: StockData): (price: real)
    ensures data.price.Some? && Truthy(data.price.value.close) ==> price == data.price.value.close.value
    ensures data.price.None? || !Truthy(data.price.value.close) ==> price == 0.0
  {
    if data.price.Some? then OrZero(data.price.value.close) else 0.0
  }

  /** The ticker sentiment score, or 0 when it is missing. */
  function TickerSentiment(data: StockData): (score: real)
    ensures data.sentiment.Some? && Truthy(data.sentiment.value.tickerSentimentScore) ==>
      score == data.sentiment.value.tickerSentimentScore.value
    ensures data.sentiment.None? || !Truthy(data.sentiment.value.tickerSentimentScore) ==> score == 0.0
  {
    if data.sentiment.Some? then OrZero(data.sentiment.value.tickerSentimentScore) else 0.0
  }

  /**
    One holding's enrichment: the fetched close and ticker sentiment (0 when
    missing) and the value of the position; a failed fetch keeps the holding
    and zeroes all three added fields rather than failing the dashboard.
   */
  function EnrichHolding(stock: Holding, fetched: Result<StockData, string>): (e: EnrichedHolding)
    ensures e.stock == stock
    ensures e.totalValue == e.currentPrice * stock.totalQuantity
    ensures fetched.Failure? ==> e.currentPrice == 0.0 && e.tickerSentiment == 0.0 && e.totalValue == 0.0
    ensures fetched.Success? ==>
      e.currentPrice == LatestClose(fetched.value) && e.tickerSentiment == TickerSentiment(fetched.value)
  {
    match fetched
    case Failure(_) => EnrichedHolding(stock, 0.0, 0.0, 0.0)
    case Success(data) =>
      var currentPrice := LatestClose(data);
      EnrichedHolding(stock, currentPrice, TickerSentiment(data), currentPrice * stock.totalQuantity)
  }

  /**
    The whole portfolio, enriched holding by holding with `fetch` answering
    for each ticker: same length, same order, each holding kept.
   */
  function EnrichPortfolio(portfolio: seq<Holding>, fetch: string -> Result<StockData, string>)
    : (enriched: seq<EnrichedHolding>)
    ensures |enriched| == |portfolio|
    ensures forall i :: 0 <= i < |portfolio| ==>
      enriched[i] == EnrichHolding(portfolio[i], fetch(portfolio[i].ticker))
  {
    seq(|portfolio|, i requires 0 <= i < |portfolio| => EnrichHolding(portfolio[i], fetch(portfolio[i].ticker)))
  }

  /** The cost of every enriched holding, in order. */
  function Costs(enriched: seq<EnrichedHolding>): (costs: seq<real>)
    ensures |costs| == |enriched|
    ensures forall i :: 0 <= i < |enriched| ==> costs[i] == enriched[i].stock.totalCost
  {
    seq(|enriched|, i requires 0 <= i < |enriched| => enriched[i].stock.totalCost)
  }

  /** The ticker sentiment of every enriched holding, in order. */
  function Sentiments(enriched: seq<EnrichedHolding>): (scores: seq<real>)
    ensures |scores| == |enriched|
    ensures forall i :: 0 <= i < |enriched| ==> scores[i] == enriched[i].tickerSentiment
  {
    seq(|enriched|, i requires 0 <= i < |enriched| => enriched[i].tickerSentiment)
  }

  /** The sum of the holdings' costs, added up from the first holding to the last. */
  function TotalCost(enriched: seq<EnrichedHolding>): real
  {
    Sum(Costs(enriched))
  }

  /**
    The total cost depends only on the holdings, never on what their price
    and sentiment requests returned, even when some of them failed.
   */
  lemma TotalCostIgnoresFetches(portfolio: seq<Holding>,
                                f: string -> Result<StockData, string>, g: string -> Result<StockData, string>)
    ensures TotalCost(EnrichPortfolio(portfolio, f)) == TotalCost(EnrichPortfolio(portfolio, g))
  {
    assert Costs(EnrichPortfolio(portfolio, f)) == Costs(EnrichPortfolio(portfolio, g));
  }

  /**
    The mean ticker sentiment, `totalSentiment / length`, or 0 for an empty
    portfolio: scaled back by the number of holdings it gives the total.
   */
  function AverageSentiment(enriched: seq<EnrichedHolding>): (average: real)
    ensures |enriched| == 0 ==> average == 0.0
    ensures |enriched| > 0 ==> average * |enriched| as real == Sum(Sentiments(enriched))
  {
    if |enriched| > 0 then Sum(Sentiments(enriched)) / |enriched| as real else 0.0
  }

  /** The average lies between any lower and upper bound of the scores it averages. */
  lemma AverageSentimentBounds(enriched: seq<EnrichedHolding>, lo: real, hi: real)
    requires |enriched| > 0
    requires forall i :: 0 <= i < |enriched| ==> lo <= enriched[i].tickerSentiment <= hi
    ensures lo <= AverageSentiment(enriched) <= hi
  {
    var n := |enriched| as real;
    var scores := Sentiments(enriched);
    SumBounds(scores, lo, hi);
    AverageWithinBounds(lo, hi, Sum(scores), AverageSentiment(enriched), n);
  }

  /** A total between `lo * n` and `hi * n`, shared out over `n`, gives an average between `lo` and `hi`. */
  lemma AverageWithinBounds(lo: real, hi: real, total: real, average: real, n: real)
    requires n > 0.0
    requires lo * n <= total <= hi * n
    requires average * n == total
    ensures lo <= average <= hi
  {
    CancelPositiveFactor(lo, average, n);
    CancelPositiveFactor(average, hi, n);
  }

  /** Dividing both sides of `a * n <= b * n` by a positive `n`. */
  lemma CancelPositiveFactor(a: real, b: real, n: real)
    requires n > 0.0 && a * n <= b * n
    ensures a <= b
  {
  }

  /** A failed per-holding fetch leaves its score at 0, which still counts toward the average. */
  lemma FailedFetchesCountAsNeutral(portfolio: seq<Holding>, fetch: string -> Result<StockData, string>)
    requires |portfolio| > 0
    requires forall i :: 0 <= i < |portfolio| ==> fetch(portfolio[i].ticker).Failure?
    ensures AverageSentiment(EnrichPortfolio(portfolio, fetch)) == 0.0
  {
    var enriched := EnrichPortfolio(portfolio, fetch);
    AverageSentimentBounds(enriched, 0.0, 0.0);
  }

  /** The wealth response: either figure may be missing. */
  datatype WealthResponse = WealthResponse(totalWealth: Option<real>, totalInvested: Option<real>)

  /** What the dashboard shows once the load has succeeded. */
  datatype Summary = Summary(totalWealth: real, totalInvested: real, portfolio: seq<EnrichedHolding>,
                             totalProfitLoss: real, totalProfitLossPercent: real,
                             averageTickerSentiment: real)

  /**
    `fetchPortfolioAndWealth`: wealth and invested amount default to 0; the
    profit or loss is the reported total wealth minus the holdings' total
    cost (not the sum of their current values), with its percentage of the
    cost; the average sentiment is over the enriched holdings. A failure of
    the wealth or the portfolio request ends in "Failed to fetch portfolio
    data.".
   */
  function LoadDashboard(wealth: Result<WealthResponse, string>, aggregate: Result<seq<Holding>, string>,
                         fetch: string -> Result<StockData, string>): (r: Result<Summary, string>)
    ensures r.Failure? <==> wealth.Failure? || aggregate.Failure?
    ensures r.Failure? ==> r.error == LoadFailedMessage
    ensures r.Success? ==>
      var s := r.value;
      && s.totalWealth == OrZero(wealth.value.totalWealth)
      && s.totalInvested == OrZero(wealth.value.totalInvested)
      && s.portfolio == EnrichPortfolio(aggregate.value, fetch)
      && s.totalProfitLoss == s.totalWealth - TotalCost(s.portfolio)
      && s.totalProfitLossPercent == ProfitLossPercent(s.totalProfitLoss, TotalCost(s.portfolio))
      && s.averageTickerSentiment == AverageSentiment(s.portfolio)
  {
    if wealth.Failure? || aggregate.Failure? then Failure(LoadFailedMessage)
    else
      var totalWealth := OrZero(wealth.value.totalWealth);
      var totalInvested := OrZero(wealth.value.totalInvested);
      var enriched := EnrichPortfolio(aggregate.value, fetch);
      var totalCost := TotalCost(enriched);
      var profitLoss := totalWealth - totalCost;
      Success(Summary(totalWealth, totalInvested, enriched, profitLoss,
                      ProfitLossPercent(profitLoss, totalCost), AverageSentiment(enriched)))
  }

  /**
    The reported profit or loss never depends on the per-holding requests:
    two loads that differ only in what `fetch` returns agree on it and on its
    percentage.
   */
  lemma ProfitLossIgnoresFetches(wealth: Result<WealthResponse, string>, aggregate: Result<seq<Holding>, string>,
                                 f: string -> Result<StockData, string>, g: string -> Result<StockData, string>)
    requires wealth.Success? && aggregate.Success?
    ensures LoadDashboard(wealth, aggregate, f).value.totalProfitLoss == LoadDashboard(wealth, aggregate, g).value.totalProfitLoss
    ensures LoadDashboard(wealth, aggregate, f).value.totalProfitLossPercent
         == LoadDashboard(wealth, aggregate, g).value.totalProfitLossPercent
  {
    TotalCostIgnoresFetches(aggregate.value, f, g);
  }
}
