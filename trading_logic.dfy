/** The indicator engine: RSI, EMA, ATR, Stochastic %K/%D and a one-shot
    ADX (really a single DX value) over ordered price series.

    Each indicator is given twice: a specification function that says what
    the value is, and a method that computes it with the loop the bot runs,
    proved to return the specified value. The bot works in `double`; here
    every value is an exact `real`, and the inputs for which the bot
    divides by zero in a value it reports (a flat Stochastic window among
    those the averages read, no directional movement at all in ADX) are
    excluded by the predicates `StochasticDefined` and `AdxDefined`. */
module TradingLogic {
  import opened Series

  // ===================================================================
  // RSI
  // ===================================================================

  function Change(closes: seq<real>, i: int): real
    requires 1 <= i < |closes|
  {
    closes[i] - closes[i - 1]
  }

  /** Total of the rises closes[i] - closes[i-1] >= 0 for lo <= i < hi
      (an empty range when lo >= hi). */
  function GainSum(closes: seq<real>, lo: int, hi: int): (g: real)
    requires 1 <= lo && hi <= |closes|
    ensures 0.0 <= g
    decreases hi - lo
  {
    if lo >= hi then 0.0
    else GainSum(closes, lo, hi - 1) + (if Change(closes, hi - 1) >= 0.0 then Change(closes, hi - 1) else 0.0)
  }

  /** Total of the falls (as positive amounts) for lo <= i < hi. */
  function LossSum(closes: seq<real>, lo: int, hi: int): (l: real)
    requires 1 <= lo && hi <= |closes|
    ensures 0.0 <= l
    decreases hi - lo
  {
    if lo >= hi then 0.0
    else LossSum(closes, lo, hi - 1) + (if Change(closes, hi - 1) >= 0.0 then 0.0 else -Change(closes, hi - 1))
  }

  /** RSI over the last `period` changes; 50 for a series shorter than
      period + 1 and 100 when no change in the window is a fall. For a
      non-positive period the window is empty, which also gives 100. */
  function Rsi(closes: seq<real>, period: int): real
  {
    if |closes| < period + 1 then 50.0
    else
      var lo := |closes| - period;
      var gain := GainSum(closes, lo, |closes|);
      var loss := LossSum(closes, lo, |closes|);
      if loss == 0.0 then 100.0
      else 100.0 - 100.0 / (1.0 + gain / loss)
  }

  method CalculateRsi(closes: seq<real>, period: int) returns (r: real)
    ensures r == Rsi(closes, period)
  {
    if |closes| < period + 1 {
      return 50.0;
    }
    var lo := |closes| - period;
    var gain, loss := 0.0, 0.0;
    var i := lo;
    while i < |closes|
      invariant i == lo || lo <= i <= |closes|
      invariant i <= |closes| ==> gain == GainSum(closes, lo, i) && loss == LossSum(closes, lo, i)
      invariant i > |closes| ==> gain == 0.0 && loss == 0.0
    {
      var change := closes[i] - closes[i - 1];
      if change >= 0.0 {
        gain := gain + change;
      } else {
        loss := loss - change;
      }
      i := i + 1;
    }
    if loss == 0.0 {
      return 100.0;
    }
    var rs := gain / loss;
    r := 100.0 - 100.0 / (1.0 + rs);
  }

  /** The RSI fallbacks and range: 50 on a short series; otherwise 100
      exactly when the window holds no fall, and a value in [0, 100)
      when it does. */
  lemma RsiRange(closes: seq<real>, period: int)
    ensures |closes| < period + 1 ==> Rsi(closes, period) == 50.0
    ensures |closes| >= period + 1 ==>
      (Rsi(closes, period) == 100.0 <==> LossSum(closes, |closes| - period, |closes|) == 0.0)
    ensures 0.0 <= Rsi(closes, period) <= 100.0
  {
    if |closes| >= period + 1 {
      var lo := |closes| - period;
      var gain := GainSum(closes, lo, |closes|);
      var loss := LossSum(closes, lo, |closes|);
      if loss != 0.0 {
        var rs := gain / loss;
        assert rs >= 0.0;
        var q := 100.0 / (1.0 + rs);
        assert q * (1.0 + rs) == 100.0;
        assert 0.0 < q <= 100.0;
      }
    }
  }

  /** No fall among the changes closes[i] - closes[i-1], lo <= i < hi,
      means a zero loss total. */
  lemma {:induction false} NoFallNoLoss(closes: seq<real>, lo: int, hi: int)
    requires 1 <= lo && hi <= |closes|
    requires forall i :: lo <= i < hi ==> closes[i - 1] <= closes[i]
    ensures LossSum(closes, lo, hi) == 0.0
    decreases hi - lo
  {
    if lo < hi {
      NoFallNoLoss(closes, lo, hi - 1);
    }
  }

  /** A series that never falls over the last `period` changes has RSI 100;
      in particular a constant series gives 100, not the neutral 50. */
  lemma RsiOfRisingSeries(closes: seq<real>, period: int)
    requires |closes| >= period + 1
    requires forall i :: |closes| - period <= i < |closes| ==> closes[i - 1] <= closes[i]
    ensures Rsi(closes, period) == 100.0
  {
    NoFallNoLoss(closes, |closes| - period, |closes|);
  }

  // ===================================================================
  // EMA
  // ===================================================================

  /** The smoothing factor k = 2 / (period + 1). */
  function Smoothing(period: int): (k: real)
    requires period >= 1
    ensures 0.0 < k <= 1.0
  {
    2.0 / ((period + 1) as real)
  }

  /** The EMA after the first n closes: seeded with the simple average of
      the first `period` closes, then ema := c*k + ema*(1-k). */
  function EmaAt(closes: seq<real>, period: int, n: int): real
    requires 1 <= period <= n <= |closes|
    decreases n
  {
    if n == period then Mean(closes[..period])
    else
      var k := Smoothing(period);
      closes[n - 1] * k + EmaAt(closes, period, n - 1) * (1.0 - k)
  }

  /** EMA of the whole series; 0 when it is shorter than `period`. */
  function Ema(closes: seq<real>, period: int): real
    requires period >= 1
  {
    if |closes| < period then 0.0 else EmaAt(closes, period, |closes|)
  }

  method CalculateEma(closes: seq<real>, period: int) returns (ema: real)
    requires period >= 1
    ensures ema == Ema(closes, period)
    ensures |closes| == period ==> ema == Mean(closes)
  {
    if |closes| < period {
      return 0.0;
    }
    var k := 2.0 / ((period + 1) as real);
    ema := Mean(closes[..period]);
    var i := period;
    while i < |closes|
      invariant period <= i <= |closes|
      invariant ema == EmaAt(closes, period, i)
    {
      ema := closes[i] * k + ema * (1.0 - k);
      i := i + 1;
    }
    assert closes[..|closes|] == closes;
  }

  /** Every EMA value stays within any common bounds of the closes seen so
      far, because each step is a convex combination (0 < k <= 1). */
  lemma {:induction false} EmaWithin(closes: seq<real>, period: int, n: int, lo: real, hi: real)
    requires 1 <= period <= n <= |closes|
    requires forall i :: 0 <= i < n ==> lo <= closes[i] <= hi
    ensures lo <= EmaAt(closes, period, n) <= hi
    decreases n
  {
    if n == period {
      var seed := closes[..period];
      assert forall i :: 0 <= i < |seed| ==> seed[i] == closes[i];
      MeanBounds(seed, lo, hi);
    } else {
      EmaWithin(closes, period, n - 1, lo, hi);
      EmaStepWithin(closes, period, n, lo, hi);
    }
  }

  /** One smoothing step keeps the EMA within bounds that hold for the
      previous EMA and the new close. */
  lemma EmaStepWithin(closes: seq<real>, period: int, n: int, lo: real, hi: real)
    requires 1 <= period < n <= |closes|
    requires lo <= closes[n - 1] <= hi && lo <= EmaAt(closes, period, n - 1) <= hi
    ensures lo <= EmaAt(closes, period, n) <= hi
  {
    ConvexStep(closes[n - 1], EmaAt(closes, period, n - 1), Smoothing(period), lo, hi);
  }

  /** One EMA step c*k + e*(1-k) with 0 < k <= 1 stays within any bounds
      holding for both c and e. */
  lemma ConvexStep(c: real, e: real, k: real, lo: real, hi: real)
    requires 0.0 < k <= 1.0 && lo <= c <= hi && lo <= e <= hi
    ensures lo <= c * k + e * (1.0 - k) <= hi
  {
    var m := 1.0 - k;
    assert c * k + e * m - lo == (c - lo) * k + (e - lo) * m;
    assert hi - (c * k + e * m) == (hi - c) * k + (hi - e) * m;
    ProductNonNegative(c - lo, k);
    ProductNonNegative(e - lo, m);
    ProductNonNegative(hi - c, k);
    ProductNonNegative(hi - e, m);
  }

  /** The EMA of a series long enough to have one lies between the
      series' minimum and maximum. */
  lemma EmaBetweenExtremes(closes: seq<real>, period: int)
    requires 1 <= period <= |closes|
    ensures MinOf(closes) <= Ema(closes, period) <= MaxOf(closes)
  {
    MinOfIsMinimum(closes);
    MaxOfIsMaximum(closes);
    EmaWithin(closes, period, |closes|, MinOf(closes), MaxOf(closes));
  }

  /** A constant series has that constant as its EMA. */
  lemma EmaOfConstant(closes: seq<real>, period: int, c: real)
    requires 1 <= period <= |closes|
    requires forall i :: 0 <= i < |closes| ==> closes[i] == c
    ensures Ema(closes, period) == c
  {
    EmaWithin(closes, period, |closes|, c, c);
  }

  // ===================================================================
  // True range and ATR
  // ===================================================================

  /** max(high - low, |high - prevClose|, |low - prevClose|). */
  function TrueRange(high: real, low: real, prevClose: real): (tr: real)
    ensures 0.0 <= tr
    ensures high - low <= tr && Abs(high - prevClose) <= tr && Abs(low - prevClose) <= tr
    ensures tr == high - low || tr == Abs(high - prevClose) || tr == Abs(low - prevClose)
  {
    Max(high - low, Max(Abs(high - prevClose), Abs(low - prevClose)))
  }

  /** The true ranges of bars 1 .. n-1, each against the previous close. */
  function TrueRanges(highs: seq<real>, lows: seq<real>, closes: seq<real>, n: int): (trs: seq<real>)
    requires n <= |highs| && n <= |lows| && n <= |closes| + 1
    ensures |trs| == if n <= 1 then 0 else n - 1
    decreases n
  {
    if n <= 1 then []
    else TrueRanges(highs, lows, closes, n - 1) + [TrueRange(highs[n - 1], lows[n - 1], closes[n - 2])]
  }

  /** Entry j of the true-range list is the true range of bar j+1. */
  lemma {:induction false} TrueRangesAt(highs: seq<real>, lows: seq<real>, closes: seq<real>, n: int)
    requires n <= |highs| && n <= |lows| && n <= |closes| + 1
    ensures forall j :: 0 <= j < |TrueRanges(highs, lows, closes, n)| ==>
      TrueRanges(highs, lows, closes, n)[j] == TrueRange(highs[j + 1], lows[j + 1], closes[j])
    decreases n
  {
    if n > 1 {
      TrueRangesAt(highs, lows, closes, n - 1);
    }
  }

  predicate AtrShort(highs: seq<real>, lows: seq<real>, closes: seq<real>, period: int)
  {
    |highs| < period || |lows| < period || |closes| < period
  }

  /** What the bot's ATR needs to run without an exception: a positive
      period and, past the fallback, at least one true range and highs and
      lows that reach as far as the closes. */
  predicate AtrDefined(highs: seq<real>, lows: seq<real>, closes: seq<real>, period: int)
  {
    period >= 1 &&
    (AtrShort(highs, lows, closes, period) || (|closes| >= 2 && |highs| >= |closes| && |lows| >= |closes|))
  }

  /** ATR: the mean of the last `period` true ranges (fewer when there are
      fewer); 0 when any input is shorter than `period`. */
  function Atr(highs: seq<real>, lows: seq<real>, closes: seq<real>, period: int): real
    requires AtrDefined(highs, lows, closes, period)
  {
    if AtrShort(highs, lows, closes, period) then 0.0
    else Mean(TakeLast(TrueRanges(highs, lows, closes, |closes|), period))
  }

  method CalculateAtr(highs: seq<real>, lows: seq<real>, closes: seq<real>, period: int) returns (atr: real)
    requires AtrDefined(highs, lows, closes, period)
    ensures atr == Atr(highs, lows, closes, period)
  {
    if |highs| < period || |lows| < period || |closes| < period {
      return 0.0;
    }
    var trs: seq<real> := [];
    for i := 1 to |closes|
      invariant trs == TrueRanges(highs, lows, closes, i)
    {
      var tr := Max(highs[i] - lows[i], Max(Abs(highs[i] - closes[i - 1]), Abs(lows[i] - closes[i - 1])));
      trs := trs + [tr];
    }
    atr := Mean(TakeLast(trs, period));
  }

  /** ATR is never negative, since every true range is non-negative. */
  lemma AtrNonNegative(highs: seq<real>, lows: seq<real>, closes: seq<real>, period: int)
    requires AtrDefined(highs, lows, closes, period)
    ensures 0.0 <= Atr(highs, lows, closes, period)
  {
    if !AtrShort(highs, lows, closes, period) {
      TrueRangesAt(highs, lows, closes, |closes|);
      TailMeanNonNegative(TrueRanges(highs, lows, closes, |closes|), period);
    }
  }

  // ===================================================================
  // Stochastic %K / %D
  // ===================================================================

  /** The window of bar i: up to `period` values from bar i-period+1 on,
      cut short where the list ends before bar i. */
  function Window(xs: seq<real>, period: int, i: int): (w: seq<real>)
    requires 1 <= period && period - 1 <= i && i - period + 1 < |xs|
    ensures 1 <= |w| <= period
  {
    xs[i - period + 1..if i + 1 <= |xs| then i + 1 else |xs|]
  }

  /** Highest high of the window of bar i. */
  function HighestHigh(highs: seq<real>, period: int, i: int): real
    requires 1 <= period && period - 1 <= i && i - period + 1 < |highs|
  {
    MaxOf(Window(highs, period, i))
  }

  /** Lowest low of the window of bar i. */
  function LowestLow(lows: seq<real>, period: int, i: int): real
    requires 1 <= period && period - 1 <= i && i - period + 1 < |lows|
  {
    MinOf(Window(lows, period, i))
  }

  /** Every window of bars period-1 .. |closes|-1 holds at least one high
      and one low (the bot's Max and Min throw on an empty window). */
  predicate WindowsPresent(highs: seq<real>, lows: seq<real>, closes: seq<real>, period: int)
  {
    1 <= period && |highs| > |closes| - period && |lows| > |closes| - period
  }

  /** A quotient of doubles where it is finite. Where the divisor is 0 the
      double result is NaN or an infinity; it is 0 here, and the
      preconditions below keep every such value out of a reported result. */
  function DoubleDiv(a: real, b: real): (q: real)
    ensures b != 0.0 ==> q * b == a
  {
    if b == 0.0 then 0.0 else a / b
  }

  /** The last `smooth` windows, those whose raw %K an average reads, have
      a nonzero high-low range. */
  predicate TailNonDegenerate(highs: seq<real>, lows: seq<real>, closes: seq<real>, period: int, smooth: int)
    requires WindowsPresent(highs, lows, closes, period)
  {
    forall i :: period - 1 <= i < |closes| && |closes| - smooth <= i ==>
      HighestHigh(highs, period, i) != LowestLow(lows, period, i)
  }

  /** The inputs on which the bot's Stochastic is finite: positive
      periods, windows that are not empty, and no zero range among the
      windows the two averages read. */
  predicate StochasticDefined(highs: seq<real>, lows: seq<real>, closes: seq<real>, period: int, smoothK: int, smoothD: int)
  {
    period >= 1 && smoothK >= 1 && smoothD >= 1 &&
    (|closes| >= period ==>
      WindowsPresent(highs, lows, closes, period) &&
      TailNonDegenerate(highs, lows, closes, period, smoothK) &&
      TailNonDegenerate(highs, lows, closes, period, smoothD))
  }

  /** Raw %K at bar i: where the close sits in the window's high-low range. */
  function RawK(highs: seq<real>, lows: seq<real>, closes: seq<real>, period: int, i: int): real
    requires WindowsPresent(highs, lows, closes, period)
    requires period - 1 <= i < |closes|
  {
    DoubleDiv(100.0 * (closes[i] - LowestLow(lows, period, i)), HighestHigh(highs, period, i) - LowestLow(lows, period, i))
  }

  /** The raw %K list for bars period-1 .. n-1. */
  function RawKs(highs: seq<real>, lows: seq<real>, closes: seq<real>, period: int, n: int): (ks: seq<real>)
    requires WindowsPresent(highs, lows, closes, period)
    requires period - 1 <= n <= |closes|
    ensures |ks| == n - period + 1
    decreases n
  {
    if n == period - 1 then []
    else RawKs(highs, lows, closes, period, n - 1) + [RawK(highs, lows, closes, period, n - 1)]
  }

  /** Entry j of the raw %K list is raw %K at bar period-1+j. */
  lemma {:induction false} RawKsAt(highs: seq<real>, lows: seq<real>, closes: seq<real>, period: int, n: int)
    requires WindowsPresent(highs, lows, closes, period)
    requires period - 1 <= n <= |closes|
    ensures forall j :: 0 <= j < n - period + 1 ==>
      RawKs(highs, lows, closes, period, n)[j] == RawK(highs, lows, closes, period, period - 1 + j)
    decreases n
  {
    if n > period - 1 {
      RawKsAt(highs, lows, closes, period, n - 1);
    }
  }

  lemma RawKsStep(highs: seq<real>, lows: seq<real>, closes: seq<real>, period: int, n: int)
    requires WindowsPresent(highs, lows, closes, period)
    requires period - 1 <= n < |closes|
    ensures RawKs(highs, lows, closes, period, n + 1) ==
      RawKs(highs, lows, closes, period, n) +
      [DoubleDiv(100.0 * (closes[n] - LowestLow(lows, period, n)), HighestHigh(highs, period, n) - LowestLow(lows, period, n))]
  {
  }

  /** Reported (%K, %D): both average a tail of the same raw %K list, of
      length smoothK and smoothD; (50, 50) on a series shorter than `period`. */
  function Stochastic(highs: seq<real>, lows: seq<real>, closes: seq<real>, period: int, smoothK: int, smoothD: int): (real, real)
    requires StochasticDefined(highs, lows, closes, period, smoothK, smoothD)
  {
    if |closes| < period then (50.0, 50.0)
    else
      var raw := RawKs(highs, lows, closes, period, |closes|);
      (Mean(TakeLast(raw, smoothK)), Mean(TakeLast(raw, smoothD)))
  }

  method CalculateStochastic(highs: seq<real>, lows: seq<real>, closes: seq<real>, period: int, smoothK: int, smoothD: int)
    returns (k: real, d: real)
    requires StochasticDefined(highs, lows, closes, period, smoothK, smoothD)
    ensures (k, d) == Stochastic(highs, lows, closes, period, smoothK, smoothD)
    ensures smoothK == smoothD ==> k == d
  {
    if |closes| < period {
      return 50.0, 50.0;
    }
    var stochK: seq<real> := [];
    for i := period - 1 to |closes|
      invariant stochK == RawKs(highs, lows, closes, period, i)
    {
      RawKsStep(highs, lows, closes, period, i);
      var high := HighestHigh(highs, period, i);
      var low := LowestLow(lows, period, i);
      var close := closes[i];
      var rawK := DoubleDiv(100.0 * (close - low), high - low);
      stochK := stochK + [rawK];
    }
    k := Mean(TakeLast(stochK, smoothK));
    d := Mean(TakeLast(stochK, smoothD));
  }

  /** A flat window early in the series does not stop the Stochastic:
      only the windows the averages read must have a range. Here the
      first window is flat and the last one gives (50, 50). */
  lemma StochasticFlatEarlyWindow()
    ensures StochasticDefined([1.0, 1.0, 2.0], [1.0, 1.0, 0.0], [1.0, 1.0, 1.0], 2, 1, 1)
    ensures Stochastic([1.0, 1.0, 2.0], [1.0, 1.0, 0.0], [1.0, 1.0, 1.0], 2, 1, 1) == (50.0, 50.0)
  {
    var highs, lows, closes := [1.0, 1.0, 2.0], [1.0, 1.0, 0.0], [1.0, 1.0, 1.0];
    assert Window(highs, 2, 2) == [1.0, 2.0] && Window(lows, 2, 2) == [1.0, 0.0];
    assert HighestHigh(highs, 2, 2) == 2.0 && LowestLow(lows, 2, 2) == 0.0;
    assert RawK(highs, lows, closes, 2, 2) == 50.0;
    var raw := RawKs(highs, lows, closes, 2, 3);
    assert raw == RawKs(highs, lows, closes, 2, 2) + [50.0];
    assert TakeLast(raw, 1) == [50.0];
    assert Sum([50.0]) == 50.0 by { assert [50.0][..0] == []; }
  }

  /** A candle whose close lies within its own low and high. */
  predicate CandleInRange(highs: seq<real>, lows: seq<real>, closes: seq<real>, i: int)
    requires 0 <= i < |closes| && i < |highs| && i < |lows|
  {
    lows[i] <= closes[i] <= highs[i]
  }

  /** Raw %K lies in [0, 100] at a bar whose close is within its own range. */
  lemma RawKInRange(highs: seq<real>, lows: seq<real>, closes: seq<real>, period: int, i: int)
    requires WindowsPresent(highs, lows, closes, period)
    requires period - 1 <= i < |closes| && i < |highs| && i < |lows|
    requires CandleInRange(highs, lows, closes, i)
    ensures 0.0 <= RawK(highs, lows, closes, period, i) <= 100.0
  {
    var hw := Window(highs, period, i);
    var lw := Window(lows, period, i);
    assert hw[period - 1] == highs[i] && lw[period - 1] == lows[i];
    MaxOfIsMaximum(hw);
    MinOfIsMinimum(lw);
    var high := HighestHigh(highs, period, i);
    var low := LowestLow(lows, period, i);
    assert low <= closes[i] <= high;
    if high - low != 0.0 {
      PercentInRange(closes[i] - low, high - low);
    }
  }

  /** When the highs and lows cover every close and every candle's close
      lies within its range, the reported %K and %D lie in [0, 100]. */
  lemma StochasticInRange(highs: seq<real>, lows: seq<real>, closes: seq<real>, period: int, smoothK: int, smoothD: int)
    requires StochasticDefined(highs, lows, closes, period, smoothK, smoothD)
    requires |highs| >= |closes| && |lows| >= |closes|
    requires forall i :: 0 <= i < |closes| ==> CandleInRange(highs, lows, closes, i)
    ensures var (k, d) := Stochastic(highs, lows, closes, period, smoothK, smoothD);
      0.0 <= k <= 100.0 && 0.0 <= d <= 100.0
  {
    if |closes| >= period {
      var raw := RawKs(highs, lows, closes, period, |closes|);
      RawKsAt(highs, lows, closes, period, |closes|);
      forall j | 0 <= j < |raw| ensures 0.0 <= raw[j] <= 100.0 {
        RawKInRange(highs, lows, closes, period, period - 1 + j);
      }
      TailInRange(raw, smoothK);
      TailInRange(raw, smoothD);
    }
  }

  lemma TailInRange(raw: seq<real>, n: int)
    requires |raw| > 0 && n >= 1
    requires forall j :: 0 <= j < |raw| ==> 0.0 <= raw[j] <= 100.0
    ensures 0.0 <= Mean(TakeLast(raw, n)) <= 100.0
  {
    var t := TakeLast(raw, n);
    assert forall j :: 0 <= j < |t| ==> t[j] == raw[|raw| - |t| + j];
    MeanBounds(t, 0.0, 100.0);
  }

  // ===================================================================
  // ADX (a single DX value)
  // ===================================================================

  /** (+DM, -DM) at bar i: the larger of the up move and the down move
      wins if it is positive; the other is 0. */
  function DirectionalMove(highs: seq<real>, lows: seq<real>, i: int): (dm: (real, real))
    requires 1 <= i < |highs| && i < |lows|
    ensures 0.0 <= dm.0 && 0.0 <= dm.1
    ensures !(dm.0 > 0.0 && dm.1 > 0.0)
  {
    var upMove := highs[i] - highs[i - 1];
    var downMove := lows[i - 1] - lows[i];
    (if upMove > downMove && upMove > 0.0 then upMove else 0.0,
     if downMove > upMove && downMove > 0.0 then downMove else 0.0)
  }

  /** The +DM list for bars 1 .. n-1. */
  function PlusDMs(highs: seq<real>, lows: seq<real>, n: int): (dms: seq<real>)
    requires n <= |highs| && n <= |lows|
    ensures |dms| == if n <= 1 then 0 else n - 1
    decreases n
  {
    if n <= 1 then [] else PlusDMs(highs, lows, n - 1) + [DirectionalMove(highs, lows, n - 1).0]
  }

  /** The -DM list for bars 1 .. n-1. */
  function MinusDMs(highs: seq<real>, lows: seq<real>, n: int): (dms: seq<real>)
    requires n <= |highs| && n <= |lows|
    ensures |dms| == if n <= 1 then 0 else n - 1
    decreases n
  {
    if n <= 1 then [] else MinusDMs(highs, lows, n - 1) + [DirectionalMove(highs, lows, n - 1).1]
  }

  /** Entry j of the directional-movement lists is the movement of bar j+1. */
  lemma {:induction false} DirectionalMovesAt(highs: seq<real>, lows: seq<real>, n: int)
    requires n <= |highs| && n <= |lows|
    ensures forall j :: 0 <= j < |PlusDMs(highs, lows, n)| ==>
      PlusDMs(highs, lows, n)[j] == DirectionalMove(highs, lows, j + 1).0 &&
      MinusDMs(highs, lows, n)[j] == DirectionalMove(highs, lows, j + 1).1
    decreases n
  {
    if n > 1 {
      DirectionalMovesAt(highs, lows, n - 1);
    }
  }

  predicate AdxShort(highs: seq<real>, lows: seq<real>, closes: seq<real>, period: int)
  {
    |highs| < period + 1 || |lows| < period + 1 || |closes| < period + 1
  }

  /** Past the fallback, the bot's ADX loop runs over the highs and reads
      the lows and the previous closes at the same bars. */
  predicate AdxAligned(highs: seq<real>, lows: seq<real>, closes: seq<real>, period: int)
  {
    period >= 1 && !AdxShort(highs, lows, closes, period) && |lows| >= |highs| && |closes| + 1 >= |highs|
  }

  predicate NonNegative(s: seq<real>)
  {
    forall j :: 0 <= j < |s| ==> 0.0 <= s[j]
  }

  /** When the mean true range of the window is not 0, there is some
      directional movement in it (else the bot computes 0/0). */
  predicate MovementPresent(plusDM: seq<real>, minusDM: seq<real>, trs: seq<real>, period: int)
  {
    period >= 1 && |trs| >= period &&
    (Mean(TakeLast(trs, period)) != 0.0 ==>
      Sum(TakeLast(plusDM, period)) + Sum(TakeLast(minusDM, period)) > 0.0)
  }

  /** The per-bar lists the DX step reads are usable: enough true ranges,
      no negative entries, and movement present. */
  predicate ListsDefined(plusDM: seq<real>, minusDM: seq<real>, trs: seq<real>, period: int)
  {
    NonNegative(plusDM) && NonNegative(minusDM) && NonNegative(trs) &&
    MovementPresent(plusDM, minusDM, trs, period)
  }

  /** The per-bar lists of any series have no negative entries. */
  lemma ListsNonNegative(highs: seq<real>, lows: seq<real>, closes: seq<real>, n: int)
    requires n <= |highs| && n <= |lows| && n <= |closes| + 1
    ensures NonNegative(PlusDMs(highs, lows, n)) && NonNegative(MinusDMs(highs, lows, n))
    ensures NonNegative(TrueRanges(highs, lows, closes, n))
  {
    DirectionalMovesAt(highs, lows, n);
    TrueRangesAt(highs, lows, closes, n);
  }

  /** The DX step over the last `period` entries of the per-bar lists: 0
      when the mean true range is 0, else DX of +DI and -DI. */
  function DxOfLists(plusDM: seq<real>, minusDM: seq<real>, trs: seq<real>, period: int): (dx: real)
    requires ListsDefined(plusDM, minusDM, trs, period)
    ensures 0.0 <= dx <= 100.0
  {
    TailMeanNonNegative(trs, period);
    TailSumNonNegative(plusDM, period);
    TailSumNonNegative(minusDM, period);
    var atr := Mean(TakeLast(trs, period));
    if atr == 0.0 then 0.0
    else
      var plusSum := Sum(TakeLast(plusDM, period));
      var minusSum := Sum(TakeLast(minusDM, period));
      DirectionalIndexesPositive(plusSum, minusSum, atr);
      Dx(DirectionalIndex(plusSum, atr), DirectionalIndex(minusSum, atr))
  }

  /** What the bot's ADX needs to avoid an exception or 0/0: a positive
      period and, past the fallback, aligned inputs with movement present. */
  predicate AdxDefined(highs: seq<real>, lows: seq<real>, closes: seq<real>, period: int)
  {
    period >= 1 &&
    (!AdxShort(highs, lows, closes, period) ==>
      AdxAligned(highs, lows, closes, period) &&
      MovementPresent(PlusDMs(highs, lows, |highs|), MinusDMs(highs, lows, |highs|), TrueRanges(highs, lows, closes, |highs|), period))
  }

  /** +DI or -DI: 100 times a directional-movement sum over the mean true range. */
  function DirectionalIndex(dmSum: real, atr: real): (di: real)
    requires 0.0 <= dmSum && 0.0 < atr
    ensures 0.0 <= di
  {
    100.0 * (dmSum / atr)
  }

  lemma DirectionalIndexesPositive(plusSum: real, minusSum: real, atr: real)
    requires 0.0 <= plusSum && 0.0 <= minusSum && plusSum + minusSum > 0.0 && atr > 0.0
    ensures DirectionalIndex(plusSum, atr) + DirectionalIndex(minusSum, atr) > 0.0
  {
    assert plusSum / atr + minusSum / atr == (plusSum + minusSum) / atr;
  }

  /** DX = 100 * |+DI - -DI| / (+DI + -DI), which lies in [0, 100]. */
  function Dx(plusDI: real, minusDI: real): (dx: real)
    requires 0.0 <= plusDI && 0.0 <= minusDI && plusDI + minusDI > 0.0
    ensures 0.0 <= dx <= 100.0
  {
    var spread := Abs(plusDI - minusDI);
    var total := plusDI + minusDI;
    PercentInRange(spread, total);
    100.0 * spread / total
  }

  /** The one-shot ADX: 0 on a short series or a zero mean true range,
      otherwise the DX of the last `period` bars, in [0, 100]. */
  function Adx(highs: seq<real>, lows: seq<real>, closes: seq<real>, period: int): (adx: real)
    requires AdxDefined(highs, lows, closes, period)
    ensures 0.0 <= adx <= 100.0
    ensures AdxShort(highs, lows, closes, period) ==> adx == 0.0
  {
    if AdxShort(highs, lows, closes, period) then 0.0
    else
      ListsNonNegative(highs, lows, closes, |highs|);
      DxOfLists(PlusDMs(highs, lows, |highs|), MinusDMs(highs, lows, |highs|), TrueRanges(highs, lows, closes, |highs|), period)
  }

  /** Past the fallback, a window whose mean true range is 0 gives an ADX
      of 0, whatever the directional movement. */
  lemma AdxFlatRange(highs: seq<real>, lows: seq<real>, closes: seq<real>, period: int)
    requires AdxDefined(highs, lows, closes, period) && !AdxShort(highs, lows, closes, period)
    requires Mean(TakeLast(TrueRanges(highs, lows, closes, |highs|), period)) == 0.0
    ensures Adx(highs, lows, closes, period) == 0.0
  {
  }

  /** The loop of the ADX code: per bar, +DM, -DM and the true range. */
  method DirectionalLists(highs: seq<real>, lows: seq<real>, closes: seq<real>)
    returns (plusDM: seq<real>, minusDM: seq<real>, trs: seq<real>)
    requires |highs| >= 1 && |lows| >= |highs| && |closes| + 1 >= |highs|
    ensures plusDM == PlusDMs(highs, lows, |highs|)
    ensures minusDM == MinusDMs(highs, lows, |highs|)
    ensures trs == TrueRanges(highs, lows, closes, |highs|)
  {
    plusDM, minusDM, trs := [], [], [];
    for i := 1 to |highs|
      invariant plusDM == PlusDMs(highs, lows, i)
      invariant minusDM == MinusDMs(highs, lows, i)
      invariant trs == TrueRanges(highs, lows, closes, i)
    {
      plusDM, minusDM, trs := DirectionalBar(highs, lows, closes, i, plusDM, minusDM, trs);
    }
  }

  /** One pass of the ADX loop: appends bar i's +DM, -DM and true range. */
  method DirectionalBar(highs: seq<real>, lows: seq<real>, closes: seq<real>, i: int,
                        plusDM0: seq<real>, minusDM0: seq<real>, trs0: seq<real>)
    returns (plusDM: seq<real>, minusDM: seq<real>, trs: seq<real>)
    requires 1 <= i < |highs| && |lows| >= |highs| && |closes| + 1 >= |highs|
    requires plusDM0 == PlusDMs(highs, lows, i) && minusDM0 == MinusDMs(highs, lows, i)
    requires trs0 == TrueRanges(highs, lows, closes, i)
    ensures plusDM == PlusDMs(highs, lows, i + 1) && minusDM == MinusDMs(highs, lows, i + 1)
    ensures trs == TrueRanges(highs, lows, closes, i + 1)
  {
    DirectionalStep(highs, lows, i);
    TrueRangeStep(highs, lows, closes, i);
    var upMove := highs[i] - highs[i - 1];
    var downMove := lows[i - 1] - lows[i];
    plusDM := plusDM0 + [if upMove > downMove && upMove > 0.0 then upMove else 0.0];
    minusDM := minusDM0 + [if downMove > upMove && downMove > 0.0 then downMove else 0.0];
    var high := highs[i];
    var low := lows[i];
    var prevClose := closes[i - 1];
    trs := trs0 + [Max(high - low, Max(Abs(high - prevClose), Abs(low - prevClose)))];
  }

  /** The lists at bar i + 1 extend those at bar i by the bar's +DM, -DM
      and true range, written as the ADX loop computes them. */
  lemma DirectionalStep(highs: seq<real>, lows: seq<real>, i: int)
    requires 1 <= i < |highs| && |lows| >= |highs|
    ensures PlusDMs(highs, lows, i + 1) == PlusDMs(highs, lows, i) +
      [var up := highs[i] - highs[i - 1]; var down := lows[i - 1] - lows[i]; if up > down && up > 0.0 then up else 0.0]
    ensures MinusDMs(highs, lows, i + 1) == MinusDMs(highs, lows, i) +
      [var up := highs[i] - highs[i - 1]; var down := lows[i - 1] - lows[i]; if down > up && down > 0.0 then down else 0.0]
  {
  }

  lemma TrueRangeStep(highs: seq<real>, lows: seq<real>, closes: seq<real>, i: int)
    requires 1 <= i < |highs| && i < |lows| && i <= |closes|
    ensures TrueRanges(highs, lows, closes, i + 1) == TrueRanges(highs, lows, closes, i) +
      [Max(highs[i] - lows[i], Max(Abs(highs[i] - closes[i - 1]), Abs(lows[i] - closes[i - 1])))]
  {
  }

  /** The DX step of the ADX code over the lists the loop built. */
  method DxStep(plusDM: seq<real>, minusDM: seq<real>, trs: seq<real>, period: int) returns (adx: real)
    requires ListsDefined(plusDM, minusDM, trs, period)
    ensures adx == DxOfLists(plusDM, minusDM, trs, period)
  {
    var atr := Mean(TakeLast(trs, period));
    if atr == 0.0 {
      return 0.0;
    }
    var plusSum := Sum(TakeLast(plusDM, period));
    var minusSum := Sum(TakeLast(minusDM, period));
    TailMeanNonNegative(trs, period);
    TailSumNonNegative(plusDM, period);
    TailSumNonNegative(minusDM, period);
    DirectionalIndexesPositive(plusSum, minusSum, atr);
    var plusDI := 100.0 * (plusSum / atr);
    var minusDI := 100.0 * (minusSum / atr);
    assert plusDI == DirectionalIndex(plusSum, atr);
    assert minusDI == DirectionalIndex(minusSum, atr);
    adx := 100.0 * Abs(plusDI - minusDI) / (plusDI + minusDI);
    assert adx == Dx(plusDI, minusDI);
  }

  method CalculateAdx(highs: seq<real>, lows: seq<real>, closes: seq<real>, period: int) returns (adx: real)
    requires AdxDefined(highs, lows, closes, period)
    ensures adx == Adx(highs, lows, closes, period)
  {
    if |highs| < period + 1 || |lows| < period + 1 || |closes| < period + 1 {
      return 0.0;
    }
    var plusDM, minusDM, trs := DirectionalLists(highs, lows, closes);
    ListsNonNegative(highs, lows, closes, |highs|);
    adx := DxStep(plusDM, minusDM, trs, period);
  }
}
