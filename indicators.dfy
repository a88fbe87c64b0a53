/**
  The technical-indicator engine (`calculateIndicators`): a pure function from
  a chronological series of price bars to RSI, a simple-average "MACD" with its
  signal line and histogram, Bollinger bands and the average true range.

  Every window is taken with `slice` (so it clamps on short series) and every
  windowed average (RSI, the MACD family, ATR) divides by its fixed constant,
  not by the number of values summed; the Bollinger mean and variance divide
  by the number of closes.
  Prices are exact reals; only the RSI division can leave the finite numbers,
  so `rsi` is a `Number`.
 */
module Indicators {
  import opened JsValues
  import opened JsArrays

  const RsiPeriod: nat := 14
  const MacdFast: nat := 12
  const MacdSlow: nat := 26
  const MacdSignal: nat := 9

  const InsufficientDataMessage: string := "Insufficient historical data for indicator calculation."

  /** One daily bar; the engine reads only its high, low and close. */
  datatype Bar = Bar(high: real, low: real, close: real)

  /** The eight fields returned by the engine. */
  datatype IndicatorSet = IndicatorSet(
    rsi: Number,
    macd: real,
    signalLine: real,
    macdHistogram: real,
    upperBand: real,
    lowerBand: real,
    bandWidth: real,
    atr: real)

  /** The closing price of every bar, in order. */
  function Closes(bars: seq<Bar>): (closes: seq<real>)
    ensures |closes| == |bars|
    ensures forall i :: 0 <= i < |bars| ==> closes[i] == bars[i].close
  {
    seq(|bars|, i requires 0 <= i < |bars| => bars[i].close)
  }

  // ---------------------------------------------------------------------------
  // RSI over the earliest RsiPeriod deltas

  /**
    The consecutive differences: every close after the first (taken with
    `slice(1)`) minus the close before it.
   */
  function Deltas(closes: seq<real>): (deltas: seq<real>)
    ensures |deltas| == if |closes| == 0 then 0 else |closes| - 1
    ensures forall i :: 0 <= i < |deltas| ==> deltas[i] == closes[i + 1] - closes[i]
  {
    if |closes| == 0 then [] else
    SliceTail(closes);
    var tail := SliceFrom(closes, 1);
    seq(|tail|, i requires 0 <= i < |tail| => tail[i] - closes[i])
  }

  /** The upward part of a move: the move itself when it is positive, else 0. */
  function Gain(d: real): (g: real)
    ensures g >= 0.0 && g >= d
    ensures g == d || g == 0.0
  {
    if d > 0.0 then d else 0.0
  }

  /** The downward part of a move: its size when it is negative, else 0. */
  function Loss(d: real): (l: real)
    ensures l >= 0.0 && l >= -d
    ensures l == -d || l == 0.0
  {
    if d < 0.0 then -d else 0.0
  }

  /** Every delta splits into a gain and a loss, both non-negative and at most one non-zero. */
  lemma GainLossSplit(d: real)
    ensures Gain(d) >= 0.0 && Loss(d) >= 0.0
    ensures Gain(d) - Loss(d) == d
    ensures Gain(d) == 0.0 || Loss(d) == 0.0
  {
  }

  function Gains(deltas: seq<real>): (gains: seq<real>)
    ensures |gains| == |deltas|
    ensures forall i :: 0 <= i < |deltas| ==> gains[i] == Gain(deltas[i])
  {
    seq(|deltas|, i requires 0 <= i < |deltas| => Gain(deltas[i]))
  }

  function Losses(deltas: seq<real>): (losses: seq<real>)
    ensures |losses| == |deltas|
    ensures forall i :: 0 <= i < |deltas| ==> losses[i] == Loss(deltas[i])
  {
    seq(|deltas|, i requires 0 <= i < |deltas| => Loss(deltas[i]))
  }

  /**
    The average gain: the gains of the earliest 14 moves (fewer when the
    series is short) summed and divided by 14 in every case.
   */
  function AvgGain(closes: seq<real>): (avg: real)
    ensures avg * 14.0 == Sum(Gains(Deltas(closes))[..Min(RsiPeriod, |Deltas(closes)|)])
  {
    SlicePrefix(Gains(Deltas(closes)), RsiPeriod);
    Sum(Slice(Gains(Deltas(closes)), 0, RsiPeriod)) / RsiPeriod as real
  }

  /** The average loss, over the same window and with the same divisor as the average gain. */
  function AvgLoss(closes: seq<real>): (avg: real)
    ensures avg * 14.0 == Sum(Losses(Deltas(closes))[..Min(RsiPeriod, |Deltas(closes)|)])
  {
    SlicePrefix(Losses(Deltas(closes)), RsiPeriod);
    Sum(Slice(Losses(Deltas(closes)), 0, RsiPeriod)) / RsiPeriod as real
  }

  /**
    The relative strength index from the ratio of the two averages, with no
    guard on the division: it is NaN exactly when the window holds neither a
    gain nor a loss.
   */
  function Rsi(closes: seq<real>): (r: Number)
    ensures r.NaN? <==> AvgGain(closes) == 0.0 && AvgLoss(closes) == 0.0
  {
    AveragesNonNegative(closes);
    var rs := Div(Finite(AvgGain(closes)), Finite(AvgLoss(closes)));
    Sub(Finite(100.0), Div(Finite(100.0), Add(Finite(1.0), rs)))
  }

  /** The first `min(14, n - 1)` deltas are the ones the averages sum. */
  lemma RsiWindow(closes: seq<real>)
    requires |closes| > 0
    ensures Slice(Gains(Deltas(closes)), 0, RsiPeriod) == Gains(Deltas(closes))[..Min(RsiPeriod, |closes| - 1)]
    ensures Slice(Losses(Deltas(closes)), 0, RsiPeriod) == Losses(Deltas(closes))[..Min(RsiPeriod, |closes| - 1)]
  {
    SlicePrefix(Gains(Deltas(closes)), RsiPeriod);
    SlicePrefix(Losses(Deltas(closes)), RsiPeriod);
  }

  /** Both averages are non-negative. */
  lemma {:induction false} AveragesNonNegative(closes: seq<real>)
    ensures AvgGain(closes) >= 0.0 && AvgLoss(closes) >= 0.0
  {
    var g := Slice(Gains(Deltas(closes)), 0, RsiPeriod);
    var l := Slice(Losses(Deltas(closes)), 0, RsiPeriod);
    SlicePrefix(Gains(Deltas(closes)), RsiPeriod);
    SlicePrefix(Losses(Deltas(closes)), RsiPeriod);
    SumNonNegative(g);
    SumNonNegative(l);
  }

  /**
    The three outcomes of the unguarded division: with losses the RSI is a
    finite value in [0, 100); with gains only it is exactly 100 (rs is
    +Infinity); with neither it is NaN (rs is 0 / 0).
   */
  lemma RsiOutcomes(closes: seq<real>)
    ensures AvgLoss(closes) > 0.0 ==> Rsi(closes).Finite? && 0.0 <= Rsi(closes).value < 100.0
    ensures AvgLoss(closes) == 0.0 && AvgGain(closes) > 0.0 ==> Rsi(closes) == Finite(100.0)
    ensures AvgLoss(closes) == 0.0 && AvgGain(closes) == 0.0 ==> Rsi(closes) == NaN
    ensures Rsi(closes).NaN? || (Rsi(closes).Finite? && 0.0 <= Rsi(closes).value <= 100.0)
  {
    var g, l := AvgGain(closes), AvgLoss(closes);
    AveragesNonNegative(closes);
    if l > 0.0 {
      var rs := g / l;
      assert rs >= 0.0;
      assert Div(Finite(g), Finite(l)) == Finite(rs);
      var q := 100.0 / (1.0 + rs);
      assert 0.0 < q <= 100.0 by {
        assert 1.0 + rs >= 1.0;
        assert q * (1.0 + rs) == 100.0;
      }
      assert Rsi(closes) == Finite(100.0 - q);
    } else if g > 0.0 {
      assert Div(Finite(g), Finite(l)) == PosInfinity;
    } else {
      assert Div(Finite(g), Finite(l)) == NaN;
    }
  }

  /** With losses in the window the RSI is the textbook value `100 - 100 / (1 + avgGain / avgLoss)`. */
  lemma RsiWithLosses(closes: seq<real>)
    requires AvgLoss(closes) > 0.0
    ensures AvgGain(closes) / AvgLoss(closes) >= 0.0
         && Rsi(closes) == Finite(100.0 - 100.0 / (1.0 + AvgGain(closes) / AvgLoss(closes)))
  {
    var g, l := AvgGain(closes), AvgLoss(closes);
    AveragesNonNegative(closes);
    var rs := g / l;
    assert rs >= 0.0;
    assert Div(Finite(g), Finite(l)) == Finite(rs);
    assert Add(Finite(1.0), Finite(rs)) == Finite(1.0 + rs);
    assert Div(Finite(100.0), Finite(1.0 + rs)) == Finite(100.0 / (1.0 + rs));
  }

  /** Only the first 15 closes (the first 14 deltas) affect the RSI. */
  lemma RsiIgnoresLaterBars(closes: seq<real>)
    requires |closes| >= RsiPeriod + 1
    ensures AvgGain(closes) == AvgGain(closes[..RsiPeriod + 1])
    ensures AvgLoss(closes) == AvgLoss(closes[..RsiPeriod + 1])
    ensures Rsi(closes) == Rsi(closes[..RsiPeriod + 1])
  {
    var head := closes[..RsiPeriod + 1];
    RsiWindow(closes);
    RsiWindow(head);
    assert forall i :: 0 <= i < RsiPeriod ==> Deltas(closes)[i] == Deltas(head)[i];
    assert Gains(Deltas(closes))[..RsiPeriod] == Gains(Deltas(head))[..RsiPeriod];
    assert Losses(Deltas(closes))[..RsiPeriod] == Losses(Deltas(head))[..RsiPeriod];
  }

  /**
    The divisor is always 14: when none of the first `min(14, n - 1)` moves
    is a fall, the average gain is the whole rise over that window divided by
    14, however few moves the window holds, and the average loss is 0.
   */
  lemma RsiFixedDivisor(closes: seq<real>)
    requires |closes| > 0
    requires forall i :: 0 <= i < Min(RsiPeriod, |closes| - 1) ==> closes[i] <= closes[i + 1]
    ensures AvgGain(closes) == (closes[Min(RsiPeriod, |closes| - 1)] - closes[0]) / 14.0
    ensures AvgLoss(closes) == 0.0
  {
    var w := Min(RsiPeriod, |closes| - 1);
    RisingWindowSums(closes, w);
    DivideByPeriod(AvgGain(closes), closes[w] - closes[0]);
    DivideByPeriod(AvgLoss(closes), 0.0);
  }

  /** An average that, scaled back by the period, gives a total is that total over the period. */
  lemma DivideByPeriod(avg: real, total: real)
    requires avg * 14.0 == total
    ensures avg == total / 14.0
  {
  }

  /** Over moves that never fall, the gains add up to the rise and the losses to 0. */
  lemma {:induction false} RisingWindowSums(closes: seq<real>, k: nat)
    requires k < |closes|
    requires forall i :: 0 <= i < k ==> closes[i] <= closes[i + 1]
    ensures Sum(Gains(Deltas(closes))[..k]) == closes[k] - closes[0]
    ensures Sum(Losses(Deltas(closes))[..k]) == 0.0
  {
    if k > 0 {
      RisingWindowSums(closes, k - 1);
      SumStep(Gains(Deltas(closes)), k - 1);
      SumStep(Losses(Deltas(closes)), k - 1);
    }
  }

  /**
    A 14-bar series rising by the same `step` at each of its 13 moves has an
    average gain of 13/14 of the step, not the step itself.
   */
  lemma AvgGainOfFourteenEvenRises(closes: seq<real>, step: real)
    requires |closes| == RsiPeriod && step >= 0.0
    requires forall i :: 0 <= i < 13 ==> closes[i + 1] - closes[i] == step
    ensures AvgGain(closes) == 13.0 * step / 14.0
  {
    EvenRises(closes, step, 13);
    RsiFixedDivisor(closes);
  }

  /** Equal moves of `step` add up to `k` steps. */
  lemma {:induction false} EvenRises(closes: seq<real>, step: real, k: nat)
    requires k < |closes|
    requires forall i :: 0 <= i < k ==> closes[i + 1] - closes[i] == step
    ensures closes[k] - closes[0] == k as real * step
  {
    if k > 0 {
      EvenRises(closes, step, k - 1);
    }
  }

  /** A flat series has neither gains nor losses, so its RSI is NaN. */
  lemma RsiOfFlatSeries(closes: seq<real>, c: real)
    requires forall i :: 0 <= i < |closes| ==> closes[i] == c
    ensures Rsi(closes) == NaN
  {
    if |closes| > 0 {
      RsiFixedDivisor(closes);
      assert AvgGain(closes) == 0.0;
    } else {
      assert Deltas(closes) == [];
      assert Slice(Gains(Deltas(closes)), 0, RsiPeriod) == [];
      assert Slice(Losses(Deltas(closes)), 0, RsiPeriod) == [];
    }
    RsiOutcomes(closes);
  }

  /** A series rising at every step of the RSI window has RSI exactly 100. */
  lemma RsiOfRisingSeries(closes: seq<real>)
    requires |closes| >= 2
    requires forall i :: 0 <= i < Min(RsiPeriod, |closes| - 1) ==> closes[i] < closes[i + 1]
    ensures Rsi(closes) == Finite(100.0)
  {
    var w := Min(RsiPeriod, |closes| - 1);
    RsiWindow(closes);
    var gains := Gains(Deltas(closes))[..w];
    var losses := Losses(Deltas(closes))[..w];
    SumConstant(losses, 0.0);
    SumAtLeastLast(gains);
    RsiOutcomes(closes);
  }

  /** A sum of non-negative terms is at least its last term. */
  lemma {:induction false} SumAtLeastLast(s: seq<real>)
    requires |s| > 0
    requires forall i :: 0 <= i < |s| ==> s[i] >= 0.0
    ensures Sum(s) >= s[|s| - 1]
  {
    SumNonNegative(s[..|s| - 1]);
  }

  // ---------------------------------------------------------------------------
  // "MACD": simple averages over trailing windows with fixed divisors

  /** The sum of the last `window` closes (all of them on a shorter series) divided by `window`. */
  function TrailingAverage(closes: seq<real>, window: nat): real
    requires window > 0
  {
    Sum(SliceFrom(closes, -(window as int))) / window as real
  }

  /** The trailing average sums the last `min(window, n)` closes and divides by `window`. */
  lemma TrailingAverageWindow(closes: seq<real>, window: nat)
    requires window > 0
    ensures TrailingAverage(closes, window) == Sum(closes[|closes| - Min(window, |closes|)..]) / window as real
  {
    SliceLast(closes, window);
  }

  function FastAverage(closes: seq<real>): real
  {
    TrailingAverage(closes, MacdFast)
  }

  function SlowAverage(closes: seq<real>): real
  {
    TrailingAverage(closes, MacdSlow)
  }

  function SignalLine(closes: seq<real>): real
  {
    TrailingAverage(closes, MacdSignal)
  }

  function Macd(closes: seq<real>): real
  {
    FastAverage(closes) - SlowAverage(closes)
  }

  function MacdHistogram(closes: seq<real>): real
  {
    Macd(closes) - SignalLine(closes)
  }

  /** Below 26 closes the slow window is the whole series, still divided by 26. */
  lemma SlowAverageOfShortSeries(closes: seq<real>)
    requires |closes| < MacdSlow
    ensures SlowAverage(closes) == Sum(closes) / MacdSlow as real
  {
    TrailingAverageWindow(closes, MacdSlow);
    assert closes[0..] == closes;
  }

  /** A trailing average of a constant series over a full window is the constant. */
  lemma {:induction false} TrailingAverageOfConstant(closes: seq<real>, window: nat, c: real)
    requires 0 < window <= |closes|
    requires forall i :: 0 <= i < |closes| ==> closes[i] == c
    ensures TrailingAverage(closes, window) == c
  {
    TrailingAverageWindow(closes, window);
    SumConstant(closes[|closes| - window..], c);
  }

  /** On at least 26 equal closes `c`: macd is 0, the signal line is `c` and the histogram `-c`. */
  lemma MacdOfConstantSeries(closes: seq<real>, c: real)
    requires |closes| >= MacdSlow
    requires forall i :: 0 <= i < |closes| ==> closes[i] == c
    ensures Macd(closes) == 0.0
    ensures SignalLine(closes) == c
    ensures MacdHistogram(closes) == -c
  {
    TrailingAverageOfConstant(closes, MacdFast, c);
    TrailingAverageOfConstant(closes, MacdSlow, c);
    TrailingAverageOfConstant(closes, MacdSignal, c);
  }

  /**
    On fewer than 26 (but at least 12) equal closes `c` the slow average is
    `n * c / 26`, not `c`, so macd is `c - n * c / 26`.
   */
  lemma MacdOfShortConstantSeries(closes: seq<real>, c: real)
    requires MacdFast <= |closes| < MacdSlow
    requires forall i :: 0 <= i < |closes| ==> closes[i] == c
    ensures SlowAverage(closes) == |closes| as real * c / MacdSlow as real
    ensures Macd(closes) == c - |closes| as real * c / MacdSlow as real
  {
    SlowAverageOfShortSeries(closes);
    SumConstant(closes, c);
    TrailingAverageOfConstant(closes, MacdFast, c);
  }

  // ---------------------------------------------------------------------------
  // Bollinger bands over the whole series

  /**
    The host's `Math.sqrt`: the non-negative square root of a non-negative
    value, exact at zero (IEEE-754 gives `sqrt(+0) == +0`).
   */
  ghost predicate IsSquareRoot(sqrt: real -> real)
  {
    && sqrt(0.0) == 0.0
    && forall v :: 0.0 <= v ==> 0.0 <= sqrt(v) && sqrt(v) * sqrt(v) == v
  }

  /** The mean of all closes. */
  function Mean(closes: seq<real>): (m: real)
    requires |closes| > 0
    ensures m * |closes| as real == Sum(closes)
  {
    Sum(closes) / |closes| as real
  }

  /** The squared deviation of every close from the mean: the terms of the variance sum. */
  function SquaredDeviations(closes: seq<real>, mean: real): (sq: seq<real>)
    ensures |sq| == |closes|
    ensures forall i :: 0 <= i < |closes| ==> sq[i] == (closes[i] - mean) * (closes[i] - mean)
  {
    seq(|closes|, i requires 0 <= i < |closes| => (closes[i] - mean) * (closes[i] - mean))
  }

  /** The population variance: the divisor is `n`, not `n - 1`. */
  function Variance(closes: seq<real>): real
    requires |closes| > 0
  {
    Sum(SquaredDeviations(closes, Mean(closes))) / |closes| as real
  }

  function StdDev(closes: seq<real>, sqrt: real -> real): real
    requires |closes| > 0
  {
    sqrt(Variance(closes))
  }

  function UpperBand(closes: seq<real>, sqrt: real -> real): real
    requires |closes| > 0
  {
    Mean(closes) + 2.0 * StdDev(closes, sqrt)
  }

  function LowerBand(closes: seq<real>, sqrt: real -> real): real
    requires |closes| > 0
  {
    Mean(closes) - 2.0 * StdDev(closes, sqrt)
  }

  lemma {:induction false} VarianceNonNegative(closes: seq<real>)
    requires |closes| > 0
    ensures Variance(closes) >= 0.0
  {
    var sq := SquaredDeviations(closes, Mean(closes));
    forall i | 0 <= i < |sq|
      ensures sq[i] >= 0.0
    {
      SquareNonNegative(closes[i] - Mean(closes));
    }
    SumNonNegative(sq);
  }

  lemma SquareNonNegative(x: real)
    ensures x * x >= 0.0
  {
  }

  /** The bands straddle the mean, and their width is four standard deviations. */
  lemma BandsStraddleMean(closes: seq<real>, sqrt: real -> real)
    requires |closes| > 0
    requires IsSquareRoot(sqrt)
    ensures StdDev(closes, sqrt) >= 0.0
    ensures LowerBand(closes, sqrt) <= Mean(closes) <= UpperBand(closes, sqrt)
    ensures UpperBand(closes, sqrt) - LowerBand(closes, sqrt) == 4.0 * StdDev(closes, sqrt)
  {
    VarianceNonNegative(closes);
  }

  lemma DivCancel(n: real, c: real)
    requires n > 0.0
    ensures n * c / n == c
  {
  }

  lemma SquareOfZero(x: real)
    requires x == 0.0
    ensures x * x == 0.0
  {
  }

  /** Equal closes `c` collapse both bands onto `c`, with zero width. */
  lemma {:induction false} BandsOfConstantSeries(closes: seq<real>, c: real, sqrt: real -> real)
    requires |closes| > 0
    requires IsSquareRoot(sqrt)
    requires forall i :: 0 <= i < |closes| ==> closes[i] == c
    ensures Mean(closes) == c
    ensures Variance(closes) == 0.0
    ensures StdDev(closes, sqrt) == 0.0
    ensures UpperBand(closes, sqrt) == c && LowerBand(closes, sqrt) == c
  {
    var n := |closes| as real;
    SumConstant(closes, c);
    DivCancel(n, c);
    assert Mean(closes) == c;
    var sq := SquaredDeviations(closes, Mean(closes));
    forall i | 0 <= i < |closes|
      ensures sq[i] == 0.0
    {
      SquareOfZero(closes[i] - c);
    }
    SumConstant(sq, 0.0);
    assert Variance(closes) == 0.0;
  }

  // ---------------------------------------------------------------------------
  // Average true range over the last RsiPeriod bars

  /** The magnitude of a number. */
  function Abs(x: real): (a: real)
    ensures a >= 0.0 && (a == x || a == -x)
  {
    if x < 0.0 then -x else x
  }

  /** The largest of three numbers. */
  function Max3(a: real, b: real, c: real): (m: real)
    ensures m >= a && m >= b && m >= c
    ensures m == a || m == b || m == c
  {
    if a >= b && a >= c then a else if b >= c then b else c
  }

  /** One bar's true range, against the close of the SAME bar. */
  function TrueRange(high: real, low: real, close: real): real
  {
    Max3(high - low, Abs(high - close), Abs(low - close))
  }

  /** A true range is never negative. */
  lemma TrueRangeNonNegative(high: real, low: real, close: real)
    ensures TrueRange(high, low, close) >= 0.0
    ensures TrueRange(high, low, close) >= high - low
  {
  }

  /** When the close lies inside the bar, the true range is just `high - low`. */
  lemma TrueRangeOfInsideClose(high: real, low: real, close: real)
    requires low <= close <= high
    ensures TrueRange(high, low, close) == high - low
  {
  }

  /** The true range of every bar, each against its own close, in order. */
  function TrueRanges(bars: seq<Bar>): (tr: seq<real>)
    ensures |tr| == |bars|
    ensures forall i :: 0 <= i < |bars| ==> tr[i] == TrueRange(bars[i].high, bars[i].low, bars[i].close)
  {
    var closes := Closes(bars);
    seq(|bars|, i requires 0 <= i < |bars| => TrueRange(bars[i].high, bars[i].low, closes[i]))
  }

  /** The average true range: the last 14 true ranges (all of them on a shorter series) summed and divided by 14. */
  function Atr(bars: seq<Bar>): real
  {
    Sum(SliceFrom(TrueRanges(bars), -(RsiPeriod as int))) / RsiPeriod as real
  }

  /** On an accepted series the ATR averages exactly the last 14 true ranges. */
  lemma AtrWindow(bars: seq<Bar>)
    requires |bars| >= RsiPeriod
    ensures |SliceFrom(TrueRanges(bars), -(RsiPeriod as int))| == RsiPeriod
    ensures Atr(bars) == Sum(TrueRanges(bars)[|bars| - RsiPeriod..]) / RsiPeriod as real
  {
    SliceLast(TrueRanges(bars), RsiPeriod);
  }

  lemma {:induction false} AtrNonNegative(bars: seq<Bar>)
    ensures Atr(bars) >= 0.0
  {
    var window := SliceFrom(TrueRanges(bars), -(RsiPeriod as int));
    SliceLast(TrueRanges(bars), RsiPeriod);
    forall i | 0 <= i < |window|
      ensures window[i] >= 0.0
    {
      var j := |bars| - |window| + i;
      TrueRangeNonNegative(bars[j].high, bars[j].low, bars[j].close);
    }
    SumNonNegative(window);
  }

  /** Bars whose high, low and close coincide have zero true range, so ATR 0. */
  lemma {:induction false} AtrOfPointBars(bars: seq<Bar>)
    requires forall i :: 0 <= i < |bars| ==> bars[i].high == bars[i].low == bars[i].close
    ensures Atr(bars) == 0.0
  {
    var window := SliceFrom(TrueRanges(bars), -(RsiPeriod as int));
    SliceLast(TrueRanges(bars), RsiPeriod);
    SumConstant(window, 0.0);
  }

  // ---------------------------------------------------------------------------
  // The engine

  /**
    `calculateIndicators(historicalData)`: fails when fewer than 14 bars are
    given, otherwise returns the eight fields. `sqrt` is the host's `Math.sqrt`.
   */
  function CalculateIndicators(bars: seq<Bar>, sqrt: real -> real): (r: Result<IndicatorSet, string>)
    ensures r.Failure? <==> |bars| < RsiPeriod
    ensures r.Failure? ==> r.error == InsufficientDataMessage
    ensures r.Success? ==> r.value.macdHistogram == r.value.macd - r.value.signalLine
    ensures r.Success? ==> r.value.bandWidth == r.value.upperBand - r.value.lowerBand
    ensures r.Success? ==> r.value.atr >= 0.0
    ensures r.Success? ==>
      r.value.rsi.NaN? || (r.value.rsi.Finite? && 0.0 <= r.value.rsi.value <= 100.0)
  {
    if |bars| < RsiPeriod then
      Failure(InsufficientDataMessage)
    else
      var closes := Closes(bars);
      RsiOutcomes(closes);
      AtrNonNegative(bars);
      var macd := FastAverage(closes) - SlowAverage(closes);
      var signalLine := SignalLine(closes);
      var upperBand := UpperBand(closes, sqrt);
      var lowerBand := LowerBand(closes, sqrt);
      Success(IndicatorSet(
        Rsi(closes),
        macd,
        signalLine,
        macd - signalLine,
        upperBand,
        lowerBand,
        upperBand - lowerBand,
        Atr(bars)))
  }

  /** Every field of an accepted series is the corresponding indicator of its closes and bars. */
  lemma IndicatorFields(bars: seq<Bar>, sqrt: real -> real)
    requires |bars| >= RsiPeriod
    ensures CalculateIndicators(bars, sqrt).Success?
    ensures var s := CalculateIndicators(bars, sqrt).value;
            var closes := Closes(bars);
            && s.rsi == Rsi(closes)
            && s.macd == Macd(closes)
            && s.signalLine == SignalLine(closes)
            && s.macdHistogram == MacdHistogram(closes)
            && s.upperBand == UpperBand(closes, sqrt)
            && s.lowerBand == LowerBand(closes, sqrt)
            && s.atr == Atr(bars)
            && s.bandWidth == UpperBand(closes, sqrt) - LowerBand(closes, sqrt)
  {
  }

  /** With a correct square root the bands are ordered and the width is `4 * stddev >= 0`. */
  lemma BandsOfIndicatorSet(bars: seq<Bar>, sqrt: real -> real)
    requires |bars| >= RsiPeriod
    requires IsSquareRoot(sqrt)
    ensures var s := CalculateIndicators(bars, sqrt).value;
            && s.lowerBand <= s.upperBand
            && s.bandWidth == 4.0 * StdDev(Closes(bars), sqrt)
            && s.bandWidth >= 0.0
  {
    BandsStraddleMean(Closes(bars), sqrt);
  }

  // ---------------------------------------------------------------------------
  // A worked series

  /** Fourteen daily closes; every bar has high == low == close. */
  const SampleCloses: seq<real> := [44.0, 44.25, 44.5, 43.75, 44.65, 45.12, 45.34, 45.45, 45.5, 45.6, 46.0, 46.21, 46.3, 46.5]

  function PointBars(closes: seq<real>): (bars: seq<Bar>)
    ensures Closes(bars) == closes
  {
    seq(|closes|, i requires 0 <= i < |closes| => Bar(closes[i], closes[i], closes[i]))
  }

  /** The gains and losses of the 13 deltas of `SampleCloses`. */
  const SampleGains: seq<real> := [0.25, 0.25, 0.0, 0.9, 0.47, 0.22, 0.11, 0.05, 0.1, 0.4, 0.21, 0.09, 0.2]
  const SampleLosses: seq<real> := [0.0, 0.0, 0.75, 0.0, 0.0, 0.0, 0.0, 0.0, 0.0, 0.0, 0.0, 0.0, 0.0]

  lemma SampleMoves()
    ensures Gains(Deltas(SampleCloses)) == SampleGains
    ensures Losses(Deltas(SampleCloses)) == SampleLosses
  {
    var deltas := [0.25, 0.25, -0.75, 0.9, 0.47, 0.22, 0.11, 0.05, 0.1, 0.4, 0.21, 0.09, 0.2];
    var d := Deltas(SampleCloses);
    forall i | 0 <= i < 13
      ensures d[i] == deltas[i]
    {
    }
    assert d == deltas;
  }

  lemma SampleGainTotal()
    ensures Sum(SampleGains) == 3.25
  {
    var g := SampleGains;
    SumStep(g, 0);
    SumStep(g, 1);
    SumStep(g, 2);
    SumStep(g, 3);
    SumStep(g, 4);
    SumStep(g, 5);
    SumStep(g, 6);
    SumStep(g, 7);
    SumStep(g, 8);
    SumStep(g, 9);
    SumStep(g, 10);
    SumStep(g, 11);
    SumStep(g, 12);
    assert g[..13] == g;
  }

  lemma SampleLossTotal()
    ensures Sum(SampleLosses) == 0.75
  {
    var l := SampleLosses;
    SumStep(l, 0);
    SumStep(l, 1);
    SumStep(l, 2);
    SumStep(l, 3);
    SumStep(l, 4);
    SumStep(l, 5);
    SumStep(l, 6);
    SumStep(l, 7);
    SumStep(l, 8);
    SumStep(l, 9);
    SumStep(l, 10);
    SumStep(l, 11);
    SumStep(l, 12);
    assert l[..13] == l;
  }

  /**
    On the sample series the 13 deltas gain 3.25 and lose 0.75 in total, both
    divided by 14, so rs = 13/3 and the RSI is 81.25; every true range is 0.
   */
  lemma SampleSeries(sqrt: real -> real)
    ensures CalculateIndicators(PointBars(SampleCloses), sqrt).Success?
    ensures CalculateIndicators(PointBars(SampleCloses), sqrt).value.rsi == Finite(81.25)
    ensures CalculateIndicators(PointBars(SampleCloses), sqrt).value.atr == 0.0
  {
    var closes := SampleCloses;
    var bars := PointBars(closes);
    SampleMoves();
    RsiWindow(closes);
    assert SampleGains[..13] == SampleGains;
    assert SampleLosses[..13] == SampleLosses;
    SampleGainTotal();
    SampleLossTotal();
    assert AvgGain(closes) == 3.25 / 14.0;
    assert AvgLoss(closes) == 0.75 / 14.0;
    AtrOfPointBars(bars);
  }
}
