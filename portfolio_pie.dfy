/**
  The portfolio pie chart's data: one slice per holding, labelled by ticker
  and sized by the holding's current value, with colours from a fixed
  six-colour palette and a tooltip giving each slice's share of the total.
  Creating and destroying the chart object is not modelled.
 */
module PortfolioPie {
  import opened JsValues
  import opened JsArrays
  import Dashboard
  import StockCache

  /** The fields of a holding the chart reads; the price may be missing. */
  datatype PieStock = PieStock(ticker: string, currentPrice: Option<real>, totalQuantity: real)

  /** The segment colours, in the order they are handed out. */
  const Palette: seq<string> := ["#FF6384", "#36A2EB", "#FFCE56", "#4BC0C0", "#9966FF", "#FF9F40"]

  /** The slice labels: the tickers, in portfolio order. */
  function Labels(portfolio: seq<PieStock>): (labels: seq<string>)
    ensures |labels| == |portfolio|
    ensures forall i :: 0 <= i < |portfolio| ==> labels[i] == portfolio[i].ticker
  {
    seq(|portfolio|, i requires 0 <= i < |portfolio| => portfolio[i].ticker)
  }

  /** One slice's size: the quantity held times the current price, with a missing or zero price counting as 0. */
  function SliceValue(stock: PieStock): (value: real)
    ensures Truthy(stock.currentPrice) ==> value == stock.currentPrice.value * stock.totalQuantity
    ensures !Truthy(stock.currentPrice) ==> value == 0.0
  {
    OrZero(stock.currentPrice) * stock.totalQuantity
  }

  /** The slice sizes, one per holding, in portfolio order. */
  function Values(portfolio: seq<PieStock>): (values: seq<real>)
    ensures |values| == |portfolio|
    ensures forall i :: 0 <= i < |portfolio| ==> values[i] == SliceValue(portfolio[i])
  {
    seq(|portfolio|, i requires 0 <= i < |portfolio| => SliceValue(portfolio[i]))
  }

  /** The colours for `n` slices, cut from the palette with `slice`: the first `min(6, n)` colours. */
  function Colours(n: nat): (colours: seq<string>)
    ensures colours == Palette[..Min(6, n)]
    ensures |colours| <= 6 && (n <= 6 ==> |colours| == n)
  {
    SlicePrefix(Palette, n);
    Slice(Palette, 0, n)
  }

  /** The data handed to the chart. */
  datatype PieChart = PieChart(labels: seq<string>, data: seq<real>, backgroundColor: seq<string>, totalSum: real)

  /**
    The data preparation of `renderChart`: labels and values side by side; a
    total of zero draws nothing; otherwise the chart gets the labels, the
    values, the colours for as many labels as there are, and the total the
    tooltip divides by.
   */
  function PreparePie(portfolio: seq<PieStock>): (chart: Option<PieChart>)
    ensures chart.None? <==> Sum(Values(portfolio)) == 0.0
    ensures chart.Some? ==>
      && chart.value.labels == Labels(portfolio)
      && chart.value.data == Values(portfolio)
      && |chart.value.labels| == |chart.value.data| == |portfolio|
      && chart.value.backgroundColor == Palette[..Min(6, |portfolio|)]
      && chart.value.totalSum == Sum(chart.value.data) != 0.0
  {
    var labels := Labels(portfolio);
    var data := Values(portfolio);
    var totalSum := Sum(data);
    if totalSum == 0.0 then None
    else Some(PieChart(labels, data, Colours(|labels|), totalSum))
  }

  /**
    When no holding has a negative price or quantity, the chart is skipped
    exactly when every holding is worth zero.
   */
  lemma NothingToDrawMeansWorthless(portfolio: seq<PieStock>)
    requires forall i :: 0 <= i < |portfolio| ==> OrZero(portfolio[i].currentPrice) >= 0.0 && portfolio[i].totalQuantity >= 0.0
    ensures PreparePie(portfolio).None? <==> forall i :: 0 <= i < |portfolio| ==> SliceValue(portfolio[i]) == 0.0
  {
    var values := Values(portfolio);
    forall i | 0 <= i < |values|
      ensures values[i] >= 0.0
    {
      ProductNonNegative(OrZero(portfolio[i].currentPrice), portfolio[i].totalQuantity);
    }
    if Sum(values) == 0.0 {
      SumZero(values);
    } else if forall i :: 0 <= i < |portfolio| ==> SliceValue(portfolio[i]) == 0.0 {
      SumConstant(values, 0.0);
    }
  }

  /** The product of two non-negative numbers is non-negative. */
  lemma ProductNonNegative(a: real, b: real)
    requires a >= 0.0 && b >= 0.0
    ensures a * b >= 0.0
  {
  }

  /**
    The tooltip's share for a slice whose raw value is `raw` (a missing value
    counting as 0), in percent of the total. It is only ever shown on a drawn
    chart, whose total is non-zero.
   */
  function TooltipPercent(raw: Option<real>, totalSum: real): (percent: real)
    requires totalSum != 0.0
    ensures percent * totalSum == OrZero(raw) * 100.0
  {
    OrZero(raw) / totalSum * 100.0
  }

  /** The tooltip share of every slice of a drawn chart, in order. */
  function Shares(chart: PieChart): (shares: seq<real>)
    requires chart.totalSum != 0.0
    ensures |shares| == |chart.data|
    ensures forall i :: 0 <= i < |chart.data| ==> shares[i] == TooltipPercent(Some(chart.data[i]), chart.totalSum)
  {
    seq(|chart.data|, i requires 0 <= i < |chart.data| => TooltipPercent(Some(chart.data[i]), chart.totalSum))
  }

  /** The tooltip shares of a drawn chart add up to exactly 100. */
  lemma SharesSumToHundred(portfolio: seq<PieStock>)
    requires PreparePie(portfolio).Some?
    ensures Sum(Shares(PreparePie(portfolio).value)) == 100.0
  {
    var chart := PreparePie(portfolio).value;
    var total := chart.totalSum;
    var k := 100.0 / total;
    var shares := Shares(chart);
    forall i | 0 <= i < |chart.data|
      ensures shares[i] == k * chart.data[i]
    {
      ShareIsScaledValue(chart.data[i], total);
    }
    SumScale(chart.data, shares, k);
    assert Sum(shares) == k * total;
    ScaledTotal(total);
  }

  /** A share is the value scaled by `100 / total`. */
  lemma ShareIsScaledValue(value: real, total: real)
    requires total != 0.0
    ensures TooltipPercent(Some(value), total) == 100.0 / total * value
  {
  }

  lemma ScaledTotal(total: real)
    requires total != 0.0
    ensures 100.0 / total * total == 100.0
  {
  }

  /** What the render effect does for a portfolio. */
  datatype RenderOutcome = NotAttempted | NothingToDraw | Drawn(chart: PieChart)

  /**
    The effect renders only a non-empty portfolio, and a chart appears only
    when the slices have a non-zero total.
   */
  function RenderEffect(portfolio: seq<PieStock>): (outcome: RenderOutcome)
    ensures outcome == NotAttempted <==> |portfolio| == 0
    ensures outcome == NothingToDraw <==> |portfolio| > 0 && Sum(Values(portfolio)) == 0.0
    ensures outcome.Drawn? ==> Some(outcome.chart) == PreparePie(portfolio)
  {
    if |portfolio| > 0 then
      match PreparePie(portfolio)
      case None => NothingToDraw
      case Some(chart) => Drawn(chart)
    else
      NotAttempted
  }

  /** The chart for the dashboard's enriched holdings, whose prices are always present numbers. */
  function FromHoldings(holdings: seq<Dashboard.EnrichedHolding>): (portfolio: seq<PieStock>)
    ensures |portfolio| == |holdings|
    ensures forall i :: 0 <= i < |holdings| ==>
      portfolio[i] == PieStock(holdings[i].stock.ticker, Some(holdings[i].currentPrice), holdings[i].stock.totalQuantity)
  {
    seq(|holdings|, i requires 0 <= i < |holdings| =>
      PieStock(holdings[i].stock.ticker, Some(holdings[i].currentPrice), holdings[i].stock.totalQuantity))
  }

  /**
    Each slice the pie draws for the dashboard's holdings is the holding's
    `totalValue` as the dashboard computed it, including the zero of a
    holding whose data could not be fetched.
   */
  lemma SlicesAreDashboardValues(portfolio: seq<Dashboard.Holding>, fetch: string -> Result<StockCache.StockData, string>)
    ensures Values(FromHoldings(Dashboard.EnrichPortfolio(portfolio, fetch)))
         == seq(|portfolio|, i requires 0 <= i < |portfolio| => Dashboard.EnrichPortfolio(portfolio, fetch)[i].totalValue)
  {
    var enriched := Dashboard.EnrichPortfolio(portfolio, fetch);
    var pie := FromHoldings(enriched);
    forall i | 0 <= i < |portfolio|
      ensures Values(pie)[i] == enriched[i].totalValue
    {
      assert enriched[i].totalValue == enriched[i].currentPrice * enriched[i].stock.totalQuantity;
    }
  }
}
