/**
  The average-sentiment bar chart: the label it prints under the bar and the
  colour of the bar.
 */
module SentimentChart {

  /** The labels the client prints for a sentiment score. */
  datatype Label = Bearish | SomewhatBearish | Neutral | SomewhatBullish | Bullish | Unknown
  {
    /** The text shown for the label. */
    function Text(): string
    {
      match this
      case Bearish => "Bearish"
      case SomewhatBearish => "Somewhat Bearish"
      case Neutral => "Neutral"
      case SomewhatBullish => "Somewhat Bullish"
      case Bullish => "Bullish"
      case Unknown => "Unknown"
    }
  }

  /** How bullish a label is: 0 for Bearish up to 4 for Bullish (Unknown sits with Neutral). */
  function Rank(l: Label): (k: nat)
    ensures k <= 4
  {
    match l
    case Bearish => 0
    case SomewhatBearish => 1
    case Neutral => 2
    case Unknown => 2
    case SomewhatBullish => 3
    case Bullish => 4
  }

  /**
    `classifySentiment(value)`: the if-chain with its "Unknown" fallback. The
    five bands cover the whole line, so the fallback is never taken:
    (-inf, -0.35], (-0.35, -0.15], (-0.15, 0.15), [0.15, 0.35), [0.35, inf).
   */
  function ClassifySentiment(value: real): (l: Label)
    ensures l != Unknown
    ensures l == Bearish <==> value <= -0.35
    ensures l == SomewhatBearish <==> -0.35 < value <= -0.15
    ensures l == Neutral <==> -0.15 < value < 0.15
    ensures l == SomewhatBullish <==> 0.15 <= value < 0.35
    ensures l == Bullish <==> 0.35 <= value
  {
    if value <= -0.35 then Bearish
    else if value > -0.35 && value <= -0.15 then SomewhatBearish
    else if value > -0.15 && value < 0.15 then Neutral
    else if value >= 0.15 && value < 0.35 then SomewhatBullish
    else if value >= 0.35 then Bullish
    else Unknown
  }

  /** A larger average never receives a more bearish label. */
  lemma ClassifyIsMonotone(a: real, b: real)
    requires a <= b
    ensures Rank(ClassifySentiment(a)) <= Rank(ClassifySentiment(b))
  {
  }

  /** The two colours of the bar. */
  datatype BarColour = TealBar | RedBar
  {
    /** The fill and the border colour the chart is given. */
    function Background(): string
    {
      match this
      case TealBar => "rgba(75, 192, 192, 0.6)"
      case RedBar => "rgba(255, 99, 132, 0.6)"
    }

    function Border(): string
    {
      match this
      case TealBar => "rgba(75, 192, 192, 1)"
      case RedBar => "rgba(255, 99, 132, 1)"
    }
  }

  /** The bar is teal for an average of zero or more, red below zero. */
  function ChooseBarColour(average: real): (c: BarColour)
    ensures c == TealBar <==> average >= 0.0
    ensures c == RedBar <==> average < 0.0
  {
    if average >= 0.0 then TealBar else RedBar
  }

  /**
    The colour agrees with the label: a red bar is labelled neutral or
    bearish, and a teal bar neutral or bullish.
   */
  lemma BarColourMatchesLabel(average: real)
    ensures ChooseBarColour(average) == RedBar ==> Rank(ClassifySentiment(average)) <= 2
    ensures ChooseBarColour(average) == TealBar ==> Rank(ClassifySentiment(average)) >= 2
  {
  }
}
