/** Signal construction: from one candle list to an indicator snapshot,
    from the snapshot to the scorer's verdict, and from the verdict to a
    trade signal whose entry is the last close and whose stop-loss and
    take-profit sit at fixed offsets from it; and the multi-timeframe
    analysis, which runs this once per timeframe in a fixed order.

    Fetching the candles is I/O and is modelled by passing them in. The
    bot's standard deviation of the closes is a square root over doubles;
    here it is a parameter `std`, non-negative and 0 for fewer than two
    closes, as the bot's helper returns. */
module Analysis {
  import opened Common
  import opened Series
  import opened TradingLogic
  import opened SignalScoring

  /** One candle; the open price, open time and volume play no part in the
      analysis and are left out. */
  datatype Candle = Candle(high: real, low: real, close: real)

  /** What the analysis of one timeframe reports. */
  datatype TradeSignal = TradeSignal(
    symbol: string,
    direction: string,
    entry: real,
    stopLoss: real,
    takeProfit: real,
    rsi: real,
    emaFast: real,
    emaSlow: real,
    macd: real)

  datatype MultiTimeframeResult = MultiTimeframeResult(timeframe: string, signal: TradeSignal)

  /** The timeframes of the multi-timeframe analysis, in the order it runs them. */
  const Timeframes: seq<string> := ["5m", "15m", "1h"]

  /** The indicator periods the analysis uses (the indicators' defaults
      where it relies on them). */
  const RsiPeriod := 14
  const FastPeriod := 9
  const SlowPeriod := 21
  const MacdFastPeriod := 12
  const MacdSlowPeriod := 26
  const StochasticPeriod := 14
  const StochasticSmoothing := 3
  const AdxPeriod := 14
  const AtrPeriod := 14

  function Closes(candles: seq<Candle>): (r: seq<real>)
    ensures |r| == |candles| && forall i :: 0 <= i < |r| ==> r[i] == candles[i].close
  {
    seq(|candles|, i requires 0 <= i < |candles| => candles[i].close)
  }

  function Highs(candles: seq<Candle>): (r: seq<real>)
    ensures |r| == |candles| && forall i :: 0 <= i < |r| ==> r[i] == candles[i].high
  {
    seq(|candles|, i requires 0 <= i < |candles| => candles[i].high)
  }

  function Lows(candles: seq<Candle>): (r: seq<real>)
    ensures |r| == |candles| && forall i :: 0 <= i < |r| ==> r[i] == candles[i].low
  {
    seq(|candles|, i requires 0 <= i < |candles| => candles[i].low)
  }

  /** The inputs on which a division by zero reaches an indicator the bot
      reports are excluded: a flat Stochastic window (highest high equal to
      lowest low) among the last three, and an ADX window with a non-zero
      true range but no directional movement. */
  predicate IndicatorsDefined(candles: seq<Candle>)
  {
    StochasticDefined(Highs(candles), Lows(candles), Closes(candles), StochasticPeriod, StochasticSmoothing, StochasticSmoothing) &&
    AdxDefined(Highs(candles), Lows(candles), Closes(candles), AdxPeriod)
  }

  /** A value the bot's standard-deviation helper can return for these
      closes: non-negative, and 0 when there are fewer than two. */
  predicate StdDevOf(std: real, closes: seq<real>)
  {
    0.0 <= std && (|closes| <= 1 ==> std == 0.0)
  }

  /** Candle lists of one length have aligned ATR inputs. */
  lemma AtrInputsAligned(candles: seq<Candle>)
    ensures AtrDefined(Highs(candles), Lows(candles), Closes(candles), AtrPeriod)
  {
  }

  /** The indicator snapshot of a non-empty candle list. */
  function Snapshot(candles: seq<Candle>, std: real): IndicatorResult
    requires |candles| > 0 && IndicatorsDefined(candles)
  {
    var closes := Closes(candles);
    var highs := Highs(candles);
    var lows := Lows(candles);
    var avg := Mean(closes);
    var stoch := Stochastic(highs, lows, closes, StochasticPeriod, StochasticSmoothing, StochasticSmoothing);
    AtrInputsAligned(candles);
    IndicatorResult(
      rsi := Rsi(closes, RsiPeriod),
      emaFast := Ema(closes, FastPeriod),
      emaSlow := Ema(closes, SlowPeriod),
      macd := Ema(closes, MacdFastPeriod) - Ema(closes, MacdSlowPeriod),
      macdSignal := Ema(closes, FastPeriod),
      bbUpper := avg + 2.0 * std,
      bbLower := avg - 2.0 * std,
      close := candles[|candles| - 1].close,
      stochK := stoch.0,
      stochD := stoch.1,
      adx := Adx(highs, lows, closes, AdxPeriod),
      atr := Atr(highs, lows, closes, AtrPeriod))
  }

  /** Stop-loss and take-profit for an entry: 1% against and 2% with a
      LONG, and the mirror image for every other direction, NEUTRAL
      included. */
  function StopLoss(direction: string, entry: real): real
  {
    if direction == LONG then entry * 0.99 else entry * 1.01
  }

  function TakeProfit(direction: string, entry: real): real
  {
    if direction == LONG then entry * 1.02 else entry * 0.98
  }

  /** The signal of one timeframe: the scorer's direction on the snapshot,
      the last close as entry, the fixed exits, and four indicator values
      copied from the snapshot. */
  function SignalOf(symbol: string, candles: seq<Candle>, std: real, minScore: real): TradeSignal
    requires |candles| > 0 && IndicatorsDefined(candles)
  {
    var ind := Snapshot(candles, std);
    var direction := Score(ind, minScore).0;
    var entry := candles[|candles| - 1].close;
    TradeSignal(symbol, direction, entry, StopLoss(direction, entry), TakeProfit(direction, entry),
      ind.rsi, ind.emaFast, ind.emaSlow, ind.macd)
  }

  // ===================================================================
  // Properties of the snapshot and the signal
  // ===================================================================

  /** What the snapshot's values are bound to: RSI and ADX in [0, 100], a
      non-negative ATR, a Bollinger band whose upper edge is not below its
      lower edge, the MACD line as the difference of EMA(12) and EMA(26),
      a signal line that is the fast EMA itself, %K equal to %D, and, when
      every close lies within its candle, %K and %D in [0, 100]. */
  lemma SnapshotRanges(candles: seq<Candle>, std: real)
    requires |candles| > 0 && IndicatorsDefined(candles) && StdDevOf(std, Closes(candles))
    ensures var ind := Snapshot(candles, std);
      0.0 <= ind.rsi <= 100.0 && 0.0 <= ind.adx <= 100.0 && 0.0 <= ind.atr &&
      ind.bbLower <= ind.bbUpper &&
      ind.macd == Ema(Closes(candles), MacdFastPeriod) - Ema(Closes(candles), MacdSlowPeriod) &&
      ind.macdSignal == ind.emaFast &&
      ind.stochK == ind.stochD &&
      ind.close == candles[|candles| - 1].close
    ensures (forall i :: 0 <= i < |candles| ==> candles[i].low <= candles[i].close <= candles[i].high) ==>
      var ind := Snapshot(candles, std);
      0.0 <= ind.stochK <= 100.0 && 0.0 <= ind.stochD <= 100.0
  {
    var closes := Closes(candles);
    var highs := Highs(candles);
    var lows := Lows(candles);
    RsiRange(closes, RsiPeriod);
    AtrInputsAligned(candles);
    AtrNonNegative(highs, lows, closes, AtrPeriod);
    var stoch := Stochastic(highs, lows, closes, StochasticPeriod, StochasticSmoothing, StochasticSmoothing);
    assert stoch.0 == stoch.1;
    if forall i :: 0 <= i < |candles| ==> candles[i].low <= candles[i].close <= candles[i].high {
      CandlesStochasticInRange(candles);
    }
  }

  /** When every close lies within its candle, the Stochastic of the
      candles lies in [0, 100]. */
  lemma CandlesStochasticInRange(candles: seq<Candle>)
    requires IndicatorsDefined(candles)
    requires forall i :: 0 <= i < |candles| ==> candles[i].low <= candles[i].close <= candles[i].high
    ensures var s := Stochastic(Highs(candles), Lows(candles), Closes(candles), StochasticPeriod, StochasticSmoothing, StochasticSmoothing);
      0.0 <= s.0 <= 100.0 && 0.0 <= s.1 <= 100.0
  {
    var closes := Closes(candles);
    var highs := Highs(candles);
    var lows := Lows(candles);
    forall i | 0 <= i < |closes|
      ensures CandleInRange(highs, lows, closes, i)
    {
      assert candles[i].low <= candles[i].close <= candles[i].high;
    }
    StochasticInRange(highs, lows, closes, StochasticPeriod, StochasticSmoothing, StochasticSmoothing);
  }

  /** Because the signal line is the fast EMA and %K equals %D, the MACD
      vote compares the MACD line with the fast EMA and the Stochastic
      vote never goes to either side. */
  lemma SnapshotVotes(candles: seq<Candle>, std: real)
    requires |candles| > 0 && IndicatorsDefined(candles) && StdDevOf(std, Closes(candles))
    ensures var ind := Snapshot(candles, std);
      Vote(StochCross, ind) == NoVote &&
      Vote(MacdCross, ind) == CrossVote(ind.macd, ind.emaFast)
  {
    SnapshotRanges(candles, std);
  }

  /** The signal carries the scorer's direction on the snapshot, the last
      close as entry, and the snapshot's RSI, fast and slow EMA and MACD;
      its direction is LONG, SHORT or NEUTRAL. */
  lemma SignalContents(symbol: string, candles: seq<Candle>, std: real, minScore: real)
    requires |candles| > 0 && IndicatorsDefined(candles)
    ensures var s := SignalOf(symbol, candles, std, minScore);
      var ind := Snapshot(candles, std);
      s.symbol == symbol && s.direction == Score(ind, minScore).0 &&
      s.entry == candles[|candles| - 1].close &&
      s.rsi == ind.rsi && s.emaFast == ind.emaFast && s.emaSlow == ind.emaSlow && s.macd == ind.macd &&
      (s.direction == LONG || s.direction == SHORT || s.direction == NEUTRAL)
  {
  }

  /** For a positive entry: a LONG signal has its stop-loss below and its
      take-profit above the entry, every other signal the reverse; the
      stop-loss is always 1% of the entry away from it and the take-profit
      2%. */
  lemma ExitsAroundEntry(direction: string, entry: real)
    requires entry > 0.0
    ensures direction == LONG ==> StopLoss(direction, entry) < entry < TakeProfit(direction, entry)
    ensures direction != LONG ==> TakeProfit(direction, entry) < entry < StopLoss(direction, entry)
    ensures Abs(entry - StopLoss(direction, entry)) == 0.01 * entry
    ensures Abs(TakeProfit(direction, entry) - entry) == 0.02 * entry
  {
  }

  // ===================================================================
  // The analysis runs
  // ===================================================================

  /** The analysis of one timeframe. An empty candle list has no last
      candle, and the bot fails on it; here that is `None`. Otherwise the
      indicators are computed as the bot does, the scorer votes on the
      snapshot, and the signal is built from its verdict. */
  method AnalyzeSingle(scoring: SignalScoringService, symbol: string, candles: seq<Candle>, std: real)
    returns (signal: Option<TradeSignal>)
    requires IndicatorsDefined(candles) && StdDevOf(std, Closes(candles))
    ensures signal.None? <==> |candles| == 0
    ensures signal.Some? ==> signal.value == SignalOf(symbol, candles, std, scoring.minScore)
  {
    if |candles| == 0 {
      return None;
    }
    var closes := Closes(candles);
    var last := candles[|candles| - 1];
    var avg := Mean(closes);
    var highs := Highs(candles);
    var lows := Lows(candles);
    var stochK, stochD := CalculateStochastic(highs, lows, closes, StochasticPeriod, StochasticSmoothing, StochasticSmoothing);
    var adx := CalculateAdx(highs, lows, closes, AdxPeriod);
    AtrInputsAligned(candles);
    var atr := CalculateAtr(highs, lows, closes, AtrPeriod);
    var rsi := CalculateRsi(closes, RsiPeriod);
    var emaFast := CalculateEma(closes, FastPeriod);
    var emaSlow := CalculateEma(closes, SlowPeriod);
    var emaMacdFast := CalculateEma(closes, MacdFastPeriod);
    var emaMacdSlow := CalculateEma(closes, MacdSlowPeriod);
    var emaSignal := CalculateEma(closes, FastPeriod);
    var ind := IndicatorResult(
      rsi := rsi, emaFast := emaFast, emaSlow := emaSlow,
      macd := emaMacdFast - emaMacdSlow, macdSignal := emaSignal,
      bbUpper := avg + 2.0 * std, bbLower := avg - 2.0 * std,
      close := last.close, stochK := stochK, stochD := stochD, adx := adx, atr := atr);
    assert ind == Snapshot(candles, std);
    var direction, score := scoring.ScoreIndicators(ind);
    var stopLoss := if direction == LONG then last.close * 0.99 else last.close * 1.01;
    var takeProfit := if direction == LONG then last.close * 1.02 else last.close * 0.98;
    signal := Some(TradeSignal(symbol, direction, last.close, stopLoss, takeProfit, ind.rsi, ind.emaFast, ind.emaSlow, ind.macd));
  }

  /** What the inputs of the multi-timeframe analysis must satisfy: one
      candle list and one standard deviation per timeframe, each usable by
      the indicators. */
  predicate Analyzable(candles: seq<seq<Candle>>, stds: seq<real>)
  {
    |candles| == |Timeframes| && |stds| == |Timeframes| &&
    forall i :: 0 <= i < |Timeframes| ==> IndicatorsDefined(candles[i]) && StdDevOf(stds[i], Closes(candles[i]))
  }

  /** The results of a successful multi-timeframe analysis: one per
      timeframe, in the order 5m, 15m, 1h, each tagged with its timeframe
      and carrying the signal of that timeframe's (non-empty) candles. */
  predicate MultiResults(results: seq<MultiTimeframeResult>, symbol: string, candles: seq<seq<Candle>>, stds: seq<real>, minScore: real)
    requires Analyzable(candles, stds)
  {
    |results| == |Timeframes| &&
    forall i :: 0 <= i < |Timeframes| ==>
      |candles[i]| > 0 &&
      results[i] == MultiTimeframeResult(Timeframes[i], SignalOf(symbol, candles[i], stds[i], minScore))
  }

  /** The multi-timeframe analysis. A timeframe whose candle list is empty
      makes the whole run fail, as the bot's exception does. */
  method AnalyzeMulti(scoring: SignalScoringService, symbol: string, candles: seq<seq<Candle>>, stds: seq<real>)
    returns (results: Option<seq<MultiTimeframeResult>>)
    requires Analyzable(candles, stds)
    ensures results.None? <==> exists i :: 0 <= i < |Timeframes| && |candles[i]| == 0
    ensures results.Some? ==> MultiResults(results.value, symbol, candles, stds, scoring.minScore)
  {
    var list: seq<MultiTimeframeResult> := [];
    for i := 0 to |Timeframes|
      invariant |list| == i
      invariant forall j :: 0 <= j < i ==>
        |candles[j]| > 0 &&
        list[j] == MultiTimeframeResult(Timeframes[j], SignalOf(symbol, candles[j], stds[j], scoring.minScore))
    {
      var signal := AnalyzeSingle(scoring, symbol, candles[i], stds[i]);
      if signal.None? {
        return None;
      }
      list := list + [MultiTimeframeResult(Timeframes[i], signal.value)];
    }
    return Some(list);
  }
}
