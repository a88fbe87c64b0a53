/**
  The card shown for one holding: what it keeps of the cached market data,
  the price it values the holding at, the profit or loss, the sentiment
  labels and colours, and the predicted price movement.
 */
module StockCard {
  import opened JsValues
  import opened StockCache
  import opened SentimentChart
  import opened Valuation

  /**
    The card's state after loading: the latest price payload (`{}` when there
    is none, so its close is missing), the intraday close or `null`, and the
    two sentiment scores.
   */
  datatype CardState = CardState(latestPrice: Quote, intradayPrice: Option<real>,
                                 overallSentiment: real, tickerSentiment: real)

  /** The state a card starts in, and returns to when its data cannot be fetched. */
  const InitialCardState := CardState(Quote(None), None, 0.0, 0.0)

  /** The close of an optional payload: `payload?.close`. */
  function CloseOf(payload: Option<Quote>): Option<real>
  {
    if payload.Some? then payload.value.close else None
  }

  /**
    `fetchAllData`: a fetched record sets the latest price (or `{}`), the
    intraday close unless it is zero or missing, and each score with missing
    scores read as 0; a failed fetch resets all four to their defaults.
   */
  function LoadCardData(fetched: Result<StockData, string>): (s: CardState)
    ensures fetched.Failure? ==> s == InitialCardState
    ensures fetched.Success? ==>
      var data := fetched.value;
      && s.latestPrice == (if data.price.Some? then data.price.value else Quote(None))
      && (s.intradayPrice.Some? <==> Truthy(CloseOf(data.intraday)))
      && (s.intradayPrice.Some? ==> s.intradayPrice == CloseOf(data.intraday))
      && (data.sentiment.None? ==> s.overallSentiment == 0.0 && s.tickerSentiment == 0.0)
      && (data.sentiment.Some? ==>
            && s.overallSentiment == OrZero(data.sentiment.value.overallSentimentScore)
            && s.tickerSentiment == OrZero(data.sentiment.value.tickerSentimentScore))
  {
    match fetched
    case Failure(_) => InitialCardState
    case Success(data) =>
      CardState(
        if data.price.Some? then data.price.value else Quote(None),
        OrNull(CloseOf(data.intraday)),
        if data.sentiment.Some? then OrZero(data.sentiment.value.overallSentimentScore) else 0.0,
        if data.sentiment.Some? then OrZero(data.sentiment.value.tickerSentimentScore) else 0.0)
  }

  /** The intraday close when it is non-zero, else the latest close when it is non-zero, else 0. */
  function CurrentPrice(s: CardState): (price: real)
    ensures Truthy(s.intradayPrice) ==> price == s.intradayPrice.value
    ensures !Truthy(s.intradayPrice) && Truthy(s.latestPrice.close) ==> price == s.latestPrice.close.value
    ensures !Truthy(s.intradayPrice) && !Truthy(s.latestPrice.close) ==> price == 0.0
  {
    OrZero(Or(s.intradayPrice, s.latestPrice.close))
  }

  /** A card whose data could not be fetched values the holding at zero. */
  lemma FailedFetchValuesAtZero(error: string)
    ensures CurrentPrice(LoadCardData(Failure(error))) == 0.0
  {
  }

  /** The figures the card derives from its holding and its current price. */
  datatype CardFigures = CardFigures(stockValue: real, profitLoss: real, profitLossPercent: real)

  /** The holding's value at the current price, its profit or loss against the cost, and that as a percentage of the cost. */
  function Value(totalQuantity: real, totalCost: real, s: CardState): (v: CardFigures)
    ensures v.stockValue == totalQuantity * CurrentPrice(s)
    ensures v.profitLoss + totalCost == v.stockValue
    ensures totalCost > 0.0 ==> v.profitLossPercent * totalCost == v.profitLoss * 100.0
    ensures totalCost <= 0.0 ==> v.profitLossPercent == 0.0
  {
    var stockValue := totalQuantity * CurrentPrice(s);
    var profitLoss := stockValue - totalCost;
    CardFigures(stockValue, profitLoss, ProfitLossPercent(profitLoss, totalCost))
  }

  /** The colours the card uses for the border, the P/L text and the sentiment scores. */
  datatype Colour = Green | Yellow | Red

  /** The border and the profit/loss text are green for a gain or break-even, red for a loss. */
  function ProfitLossColour(profitLoss: real): (c: Colour)
    ensures c == Green <==> profitLoss >= 0.0
    ensures c != Yellow
  {
    if profitLoss >= 0.0 then Green else Red
  }

  /** A card's colour is green exactly when the holding is worth at least what it cost. */
  lemma GreenWhenWorthItsCost(totalQuantity: real, totalCost: real, s: CardState)
    ensures ProfitLossColour(Value(totalQuantity, totalCost, s).profitLoss) == Green
        <==> totalQuantity * CurrentPrice(s) >= totalCost
  {
  }

  /** The colour of a sentiment score: green from 0.15, yellow on (-0.15, 0.15), red up to -0.15. */
  function SentimentColour(score: real): (c: Colour)
    ensures c == Green <==> score >= 0.15
    ensures c == Yellow <==> -0.15 < score < 0.15
    ensures c == Red <==> score <= -0.15
  {
    if score >= 0.15 then Green
    else if score > -0.15 then Yellow
    else Red
  }

  /**
    The label the card prints next to a score (the same ladder for the news
    and the stock sentiment): Bullish from 0.35, Somewhat Bullish on (0.15,
    0.35), Neutral on (-0.15, 0.15], Somewhat Bearish on (-0.35, -0.15],
    Bearish up to -0.35.
   */
  function CardLabel(score: real): (l: Label)
    ensures l == Bullish <==> score >= 0.35
    ensures l == SomewhatBullish <==> 0.15 < score < 0.35
    ensures l == Neutral <==> -0.15 < score <= 0.15
    ensures l == SomewhatBearish <==> -0.35 < score <= -0.15
    ensures l == Bearish <==> score <= -0.35
  {
    if score >= 0.35 then Bullish
    else if score > 0.15 then SomewhatBullish
    else if score > -0.15 then Neutral
    else if score > -0.35 then SomewhatBearish
    else Bearish
  }

  /**
    The card's label ladder and the bar chart's classifier agree everywhere
    except at exactly 0.15, where the card says Neutral and the chart says
    Somewhat Bullish.
   */
  lemma LaddersDisagreeOnlyAtUpperNeutralBound(score: real)
    ensures CardLabel(score) != ClassifySentiment(score) <==> score == 0.15
    ensures score == 0.15 ==> CardLabel(score) == Neutral && ClassifySentiment(score) == SomewhatBullish
  {
  }

  /**
    The card's colour follows its label except at exactly 0.15, which is
    coloured green although it is labelled Neutral.
   */
  lemma ColourFollowsLabelExceptAtUpperBound(score: real)
    ensures SentimentColour(score) == Green <==> Rank(CardLabel(score)) > 2 || score == 0.15
    ensures SentimentColour(score) == Red <==> Rank(CardLabel(score)) < 2
    ensures score == 0.15 ==> SentimentColour(score) == Green && CardLabel(score) == Neutral
  {
  }

  /**
    The guard of the prediction effect: both scores are not `null`, and the
    latest close is not `null` and converts to a number. It holds exactly when
    the close is a number other than NaN; an `undefined` close fails it through
    `isNaN`, a `null` one through the comparison.
   */
  function PredictionGuard(overall: JsValue, ticker: JsValue, close: JsValue): (fire: bool)
    ensures fire <==> overall != Null && ticker != Null && close.Num? && !close.number.NaN?
  {
    overall != Null && ticker != Null && close != Null && !IsNaN(close)
  }

  /** A close as the effect reads it: a missing close is `undefined` (the `{}` payload). */
  function CloseValue(close: Option<real>): JsValue
  {
    match close
    case Some(c) => Num(Finite(c))
    case None => Undefined
  }

  /**
    Whether the card's state passes the prediction guard. The scores are
    always numbers (they default to 0), so the effect fires exactly when the
    latest close is present.
   */
  function ShouldRequestPrediction(s: CardState): (fire: bool)
    ensures fire <==> s.latestPrice.close.Some?
  {
    PredictionGuard(Num(Finite(s.overallSentiment)), Num(Finite(s.tickerSentiment)), CloseValue(s.latestPrice.close))
  }

  /** A `null` close in the response fails the guard just as a missing one does. */
  lemma NullCloseNeverFires(overall: JsValue, ticker: JsValue)
    ensures !PredictionGuard(overall, ticker, Null)
    ensures !PredictionGuard(overall, ticker, Undefined)
    ensures !PredictionGuard(overall, ticker, Num(NaN))
  {
  }

  /**
    After a load, a prediction is requested exactly when the fetch succeeded
    and its price payload carries a close; a failed fetch, a missing payload
    and a payload without a close never trigger one.
   */
  lemma PredictionNeedsFetchedClose(fetched: Result<StockData, string>)
    ensures ShouldRequestPrediction(LoadCardData(fetched))
        <==> fetched.Success? && fetched.value.price.Some? && fetched.value.price.value.close.Some?
  {
  }

  /**
    `fetchPrediction`: the `prediction` field of the response (possibly
    missing), or "Error" when the request or the JSON parse fails.
   */
  function PredictionAfter(response: Result<Option<string>, string>): (prediction: Option<string>)
    ensures response.Failure? ==> prediction == Some("Error")
    ensures response.Success? ==> prediction == response.value
  {
    match response
    case Success(p) => p
    case Failure(_) => Some("Error")
  }

  /** The three arrows the card can show. */
  datatype Movement = Up | Down | Flat

  /** "Increase" shows the green up arrow, "Decrease" the red down arrow, anything else the grey circle. */
  function PredictionDisplay(prediction: Option<string>): (m: Movement)
    ensures m == Up <==> prediction == Some("Increase")
    ensures m == Down <==> prediction == Some("Decrease")
  {
    if prediction == Some("Increase") then Up
    else if prediction == Some("Decrease") then Down
    else Flat
  }

  /** Before any prediction arrives, and after a failed request, the card shows no movement. */
  lemma NoPredictionIsFlat(error: string)
    ensures PredictionDisplay(None) == Flat
    ensures PredictionDisplay(PredictionAfter(Failure(error))) == Flat
  {
  }
}
