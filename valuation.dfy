/**
  The profit-or-loss percentage that the stock card and the dashboard both
  compute: the gain relative to the money invested, guarded against a zero
  (or negative) cost.
 */
module Valuation {

  /** The profit or loss as a percentage of the cost, or 0 when the cost is not positive. */
  function ProfitLossPercent(profitLoss: real, totalCost: real): (percent: real)
    ensures totalCost > 0.0 ==> percent * totalCost == profitLoss * 100.0
    ensures totalCost <= 0.0 ==> percent == 0.0
  {
    if totalCost > 0.0 then profitLoss / totalCost * 100.0 else 0.0
  }

  /**
    The percentage has the sign of the profit or loss, and it is -100 exactly
    when everything invested was lost.
   */
  lemma PercentSign(profitLoss: real, totalCost: real)
    requires totalCost > 0.0
    ensures ProfitLossPercent(profitLoss, totalCost) >= 0.0 <==> profitLoss >= 0.0
    ensures ProfitLossPercent(profitLoss, totalCost) == -100.0 <==> profitLoss == -totalCost
  {
  }
}
