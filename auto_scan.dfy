/** One symbol's turn in the bot's periodic scan: analyse the three
    timeframes, close the symbol's open trades whose exit the first
    timeframe's entry price has reached, then, when at least two
    timeframes agree on LONG (or else on SHORT), open a trade from the
    first timeframe that agrees. */
module AutoScan {
  import opened Common
  import opened Series
  import opened Portfolio
  import opened SignalScoring
  import opened Analysis

  // ===================================================================
  // Consensus over the timeframes
  // ===================================================================

  /** How many results carry a signal in direction `d`. */
  function CountDirection(results: seq<MultiTimeframeResult>, d: string): (n: nat)
    ensures n <= |results|
  {
    if |results| == 0 then 0
    else (if results[0].signal.direction == d then 1 else 0) + CountDirection(results[1..], d)
  }

  /** The overall direction: LONG on two or more LONG votes, checked
      first, else SHORT on two or more SHORT votes, else NEUTRAL. */
  function Overall(results: seq<MultiTimeframeResult>): string
  {
    if CountDirection(results, LONG) >= 2 then LONG
    else if CountDirection(results, SHORT) >= 2 then SHORT
    else NEUTRAL
  }

  /** The signal of the first result, in timeframe order, whose direction
      is `d`; `None` when there is none. */
  function FirstWith(results: seq<MultiTimeframeResult>, d: string): Option<TradeSignal>
  {
    if |results| == 0 then None
    else if results[0].signal.direction == d then Some(results[0].signal)
    else FirstWith(results[1..], d)
  }

  /** The signal a trade is opened from: none when the overall direction is
      NEUTRAL, otherwise the first one in that direction. */
  function Consensus(results: seq<MultiTimeframeResult>): Option<TradeSignal>
  {
    var overall := Overall(results);
    if overall == NEUTRAL then None else FirstWith(results, overall)
  }

  /** A result is counted for at most one of LONG and SHORT. */
  lemma {:induction false} CountsDisjoint(results: seq<MultiTimeframeResult>)
    ensures CountDirection(results, LONG) + CountDirection(results, SHORT) <= |results|
  {
    if |results| > 0 {
      CountsDisjoint(results[1..]);
    }
  }

  /** Some result is in direction `d` exactly when the count of `d` is positive. */
  lemma {:induction false} CountPositive(results: seq<MultiTimeframeResult>, d: string)
    ensures CountDirection(results, d) > 0 <==> exists i :: 0 <= i < |results| && results[i].signal.direction == d
  {
    if |results| > 0 {
      CountPositive(results[1..], d);
      if results[0].signal.direction != d {
        forall i | 0 <= i < |results| && results[i].signal.direction == d
          ensures 0 <= i - 1 < |results[1..]| && results[1..][i - 1].signal.direction == d
        {
        }
      } else {
        assert results[0].signal.direction == d;
      }
    }
  }

  /** With three timeframes, LONG and SHORT cannot both have a majority,
      so the overall direction is LONG exactly when at least two
      timeframes say LONG and SHORT exactly when at least two say SHORT;
      which side is checked first does not matter. */
  lemma MajorityOfThree(results: seq<MultiTimeframeResult>)
    requires |results| == 3
    ensures !(CountDirection(results, LONG) >= 2 && CountDirection(results, SHORT) >= 2)
    ensures Overall(results) == LONG <==> CountDirection(results, LONG) >= 2
    ensures Overall(results) == SHORT <==> CountDirection(results, SHORT) >= 2
    ensures Overall(results) == NEUTRAL <==> CountDirection(results, LONG) < 2 && CountDirection(results, SHORT) < 2
  {
    var longs := CountDirection(results, LONG);
    var shorts := CountDirection(results, SHORT);
    CountsDisjoint(results);
    assert longs + shorts <= 3;
    DirectionsDistinct();
    assert Overall(results) == if longs >= 2 then LONG else if shorts >= 2 then SHORT else NEUTRAL;
  }

  /** FirstWith finds a signal exactly when some result is in direction
      `d`, and then it is the signal of the first such result. */
  lemma {:induction false} FirstWithIsFirst(results: seq<MultiTimeframeResult>, d: string)
    ensures FirstWith(results, d).Some? <==> exists i :: 0 <= i < |results| && results[i].signal.direction == d
    ensures FirstWith(results, d).Some? ==>
      exists i :: 0 <= i < |results| && results[i].signal == FirstWith(results, d).value &&
        results[i].signal.direction == d &&
        forall j :: 0 <= j < i ==> results[j].signal.direction != d
  {
    if |results| > 0 {
      FirstWithIsFirst(results[1..], d);
      if results[0].signal.direction != d {
        forall i | 0 <= i < |results| && results[i].signal.direction == d
          ensures 0 <= i - 1 < |results[1..]| && results[1..][i - 1].signal.direction == d
        {
        }
        if FirstWith(results, d).Some? {
          var k :| 0 <= k < |results[1..]| && results[1..][k].signal == FirstWith(results, d).value &&
            results[1..][k].signal.direction == d &&
            forall j :: 0 <= j < k ==> results[1..][j].signal.direction != d;
          assert results[k + 1] == results[1..][k];
          forall j | 0 <= j < k + 1 ensures results[j].signal.direction != d {
            if j > 0 {
              assert results[j] == results[1..][j - 1];
            }
          }
        }
      } else {
        assert results[0].signal == FirstWith(results, d).value;
      }
    }
  }

  /** A trade is opened exactly when the overall direction is not NEUTRAL;
      its signal then exists among the results, is in the overall
      direction, and comes from the first timeframe in that direction. */
  lemma ConsensusIsFirstMatch(results: seq<MultiTimeframeResult>)
    ensures Consensus(results).Some? <==> Overall(results) != NEUTRAL
    ensures Consensus(results).Some? ==>
      exists i :: 0 <= i < |results| && results[i].signal == Consensus(results).value &&
        results[i].signal.direction == Overall(results) &&
        forall j :: 0 <= j < i ==> results[j].signal.direction != Overall(results)
  {
    var overall := Overall(results);
    if overall != NEUTRAL {
      CountPositive(results, overall);
      FirstWithIsFirst(results, overall);
    }
  }

  // ===================================================================
  // The trade the consensus opens
  // ===================================================================

  /** The exits of a signal put the risked distance at 1% of the entry for
      every direction and every entry: for a positive entry the ledger's
      fallback never applies, and otherwise it yields the same value, so
      sizing divides by zero only for an entry of 0. */
  lemma SignalRisk(direction: string, entry: real)
    ensures RiskPerUnit(direction, entry, StopLoss(direction, entry)) == 0.01 * entry
  {
  }

  /** A LONG or SHORT trade opened from a signal with a positive entry does
      not reach its stop-loss or take-profit at the entry price itself. */
  lemma FreshTradeHoldsAtEntry(symbol: string, direction: string, entry: real, size: real, now: Timestamp)
    requires entry > 0.0
    ensures !ShouldClose(TradeRecord(symbol, direction, entry, StopLoss(direction, entry), TakeProfit(direction, entry),
      size, now, None, None, None), symbol, entry)
  {
  }

  /** The signal the consensus picks from an analysis is in the overall
      direction and has that direction's exits around its entry. */
  lemma ConsensusSignal(results: seq<MultiTimeframeResult>, symbol: string, candles: seq<seq<Candle>>, stds: seq<real>, minScore: real)
    requires Analyzable(candles, stds) && MultiResults(results, symbol, candles, stds, minScore)
    requires Consensus(results).Some?
    ensures var s := Consensus(results).value;
      s.direction == Overall(results) && (s.direction == LONG || s.direction == SHORT) &&
      s.stopLoss == StopLoss(s.direction, s.entry) && s.takeProfit == TakeProfit(s.direction, s.entry) &&
      RiskPerUnit(s.direction, s.entry, s.stopLoss) == 0.01 * s.entry
  {
    ConsensusIsFirstMatch(results);
    var s := Consensus(results).value;
    var i :| 0 <= i < |results| && results[i].signal == s && results[i].signal.direction == Overall(results) &&
      forall j :: 0 <= j < i ==> results[j].signal.direction != Overall(results);
    assert s == SignalOf(symbol, candles[i], stds[i], minScore);
    SignalRisk(s.direction, s.entry);
  }

  // ===================================================================
  // One symbol's scan
  // ===================================================================

  /** The scan of one symbol. When the analysis fails nothing changes.
      Otherwise the price is the first timeframe's entry (its last close),
      the symbol's trades whose exit that price reaches are closed and
      returned, and then, when the consensus picks a signal, a trade in
      the overall direction is opened from it, sized with the balance
      after the closes; an entry of 0, on which the bot's sizing divides
      by zero, opens nothing. */
  method ScanSymbol(portfolio: PortfolioService, scoring: SignalScoringService, symbol: string,
                    candles: seq<seq<Candle>>, stds: seq<real>, now: Timestamp)
    returns (results: Option<seq<MultiTimeframeResult>>, closed: seq<Trade>, newTrade: Option<Trade>)
    requires portfolio.Valid() && Analyzable(candles, stds)
    modifies portfolio, portfolio.trades
    ensures portfolio.Valid()
    ensures portfolio.initialCapital == old(portfolio.initialCapital) && portfolio.riskPerTrade == old(portfolio.riskPerTrade)
    ensures results.None? <==> exists i :: 0 <= i < |Timeframes| && |candles[i]| == 0
    ensures results.None? ==>
      closed == [] && newTrade.None? && portfolio.balance == old(portfolio.balance) &&
      portfolio.trades == old(portfolio.trades) && portfolio.records == old(portfolio.records)
    ensures results.Some? ==> MultiResults(results.value, symbol, candles, stds, scoring.minScore)
    ensures results.Some? ==>
      var rs := results.value;
      var price := rs[0].signal.entry;
      price == candles[0][|candles[0]| - 1].close &&
      closed == Select(old(portfolio.trades), old(portfolio.records), symbol, price) &&
      portfolio.balance == old(portfolio.balance) + ExitPnL(old(portfolio.records), symbol, price) &&
      (newTrade.Some? <==> Consensus(rs).Some? && Consensus(rs).value.entry != 0.0)
    ensures results.Some? && newTrade.None? ==>
      var price := results.value[0].signal.entry;
      portfolio.trades == old(portfolio.trades) &&
      portfolio.records == Settle(old(portfolio.records), symbol, price, now)
    ensures results.Some? && newTrade.Some? ==>
      var rs := results.value;
      var price := rs[0].signal.entry;
      var s := Consensus(rs).value;
      RiskPerUnit(s.direction, s.entry, s.stopLoss) != 0.0 &&
      fresh(newTrade.value) && portfolio.trades == old(portfolio.trades) + [newTrade.value] &&
      portfolio.records == Settle(old(portfolio.records), symbol, price, now) +
        [TradeRecord(symbol, Overall(rs), s.entry, s.stopLoss, s.takeProfit,
           PositionSize(portfolio.balance, portfolio.riskPerTrade, s.direction, s.entry, s.stopLoss), now, None, None, None)]
  {
    closed := [];
    newTrade := None;
    results := AnalyzeMulti(scoring, symbol, candles, stds);
    if results.None? {
      return;
    }
    var rs := results.value;
    var best := rs[0].signal;
    var currentPrice := best.entry;
    closed := portfolio.CheckAndCloseTrades(symbol, currentPrice, now);
    var longCount := CountDirection(rs, LONG);
    var shortCount := CountDirection(rs, SHORT);
    var overall := NEUTRAL;
    if longCount >= 2 {
      overall := LONG;
    } else if shortCount >= 2 {
      overall := SHORT;
    }
    assert overall == Overall(rs);
    if overall != NEUTRAL {
      ConsensusIsFirstMatch(rs);
      ConsensusSignal(rs, symbol, candles, stds, scoring.minScore);
      var bestSignal := FirstWith(rs, overall).value;
      newTrade := portfolio.OpenTrade(symbol, overall, bestSignal.entry, bestSignal.stopLoss, bestSignal.takeProfit, now);
    }
  }
}
