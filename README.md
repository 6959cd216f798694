# Koffiemachine trading bot — a verified model of its core

Koffiemachine is a Telegram trading bot. Once a minute it scans a fixed list
of symbols. For each symbol it analyses three timeframes (5m, 15m, 1h) of
candles with a set of technical indicators. A weighted-vote scorer turns the
indicator snapshot of each timeframe into a LONG / SHORT / NEUTRAL signal.
The bot then closes the symbol's paper trades whose stop-loss or take-profit
the current price has reached. When at least two timeframes agree, it opens
a new paper trade in a ledger. The ledger keeps its balance equal to the
initial capital plus the realised profit and loss.

This project models that core in Dafny and proves properties of it:

- `common.dfy`: `Option`, the setters' pass/fail `Outcome`, and the
  direction strings.
- `series.dfy`: sums, means, LINQ's `TakeLast`, and minimum/maximum over
  real sequences.
- `trading_logic.dfy`: the indicators RSI, EMA, ATR, Stochastic %K/%D and
  the one-shot ADX/DX. Each is a specification function plus the source's
  loop as a `method` proved equal to it, with lemmas on ranges and
  fallbacks.
- `signal_scoring.dfy`: the weight table, the votes, and the scorer class
  with its validated minimum score.
- `portfolio.dfy`: the ledger. `Trade` and `PortfolioService` are classes
  whose methods update their fields in place. The ghost `records` field
  gives the value view of the trade list, and `persisted` the copy written
  to the log after each change. `Valid()` is the ledger invariant.
- `analysis.dfy`: the indicator snapshot, the trade signal of one
  timeframe, and the ordered multi-timeframe loop.
- `auto_scan.dfy`: the consensus over the three timeframes, and one
  symbol's close-then-open step.

Modelling choices:

- `decimal` and `double` values are Dafny `real`s.
- A division by zero whose NaN or infinity reaches a reported indicator
  becomes a precondition. For the Stochastic this is a flat window (highest
  high equal to lowest low) among the last smoothK or smoothD windows, the
  only ones the two averages read. For ADX it is a window with true range but
  no directional movement. These are the `StochasticDefined` and `AdxDefined`
  predicates. A flat Stochastic window earlier in the series is allowed: its
  raw value is never read, and `DoubleDiv` gives it the placeholder 0.
- A division by zero that throws becomes an `Option` result. This covers the
  ledger's sizing on an entry of 0.
- Thrown `ArgumentException`s become a `Fail` outcome that changes nothing.
- An empty candle list makes `candles.Last()` throw. Here it is `None`.
- Timestamps are `int` parameters (`now`).
- The candle lists and the standard deviation of the closes come in as
  parameters. See "Left out".
- Directions stay strings, because the ledger treats every string other
  than "LONG" as the short side.

Two behaviours of the code worth knowing:

- A constant series of at least period + 1 closes gives an RSI of 100.
  There is no loss in the window, and a zero loss returns 100
  (`TradingLogic.RsiOfRisingSeries`). A shorter series gives 50.
- `Reset` does not validate the risk; only `SetRisk` does. The model keeps
  that.

## Model

| member | source | states |
|---|---|---|
| Portfolio.PortfolioService.constructor | Services/PortfolioService.cs:14-21 | the ledger starts with the given capital and risk; its records are the stored log's (none without a log) and its balance is the capital plus the log's realised profit and loss; it is Valid whenever the log is well formed |
| Portfolio.PortfolioService.LoadTrades | Services/PortfolioService.cs:34-42 | reloading rebuilds one trade object per stored record and recomputes the balance as the initial capital plus the sum of the set ProfitLoss values; without a log nothing changes |
| Portfolio.Trade.FromRecord | Services/PortfolioService.cs:39 | a deserialised trade carries exactly the stored record's fields |
| Portfolio.RealizedPnLAppend | Services/PortfolioService.cs:40 | the realised total of a list grows by a record's ProfitLoss when it has one and is unchanged otherwise |
| Portfolio.RiskPerUnit | Services/PortfolioService.cs:47-52 | for a positive entry the risked distance is positive, so sizing never divides by zero; it is 0 exactly for an entry of 0 with a non-positive raw distance (entry − stop-loss for LONG, stop-loss − entry otherwise); a positive raw distance is used as it is |
| Portfolio.PositionSize | Services/PortfolioService.cs:47-54 | the size times the risk per unit equals balance × risk per trade |
| Portfolio.PositionSizeNonNegative | Services/PortfolioService.cs:47-54 | with a non-negative balance and risk and a positive entry, the size is non-negative |
| Portfolio.SizingExample | Services/PortfolioService.cs:47-54 | risking 1% of 1000 on a LONG at 100 with the stop at 99 buys 10 units |
| Portfolio.Trade.Open | Services/PortfolioService.cs:56-65 | a new trade holds the given symbol, direction, prices, size and open time, and is open with no close price or profit and loss |
| Portfolio.PortfolioService.OpenTrade | Services/PortfolioService.cs:45-70 | fails and changes nothing exactly when the risk per unit is 0; otherwise appends one fresh open trade sized by PositionSize from the current balance, leaving the balance, capital, risk and every earlier trade unchanged, and keeps the ledger invariant |
| Portfolio.PortfolioService.Add | Services/PortfolioService.cs:67-68 | appending an open trade adds exactly its record at the end, writes the log, and keeps the balance and the invariant |
| Portfolio.Close | Services/PortfolioService.cs:77-85 | a closed record is no longer open, has the close price and ClosingPnL as its profit and loss, and keeps every other field |
| Portfolio.ClosingPnL | Services/PortfolioService.cs:77-81 | the profit or loss of a close: price gain times size for LONG, price fall times size otherwise; its sign is ClosingPnLSign and its symmetry ClosingPnLSymmetry |
| Portfolio.ClosingPnLSign | Services/PortfolioService.cs:77-81 | for a positive size the close is a profit exactly when the price moved the trade's way, and books 0 exactly at the entry price |
| Portfolio.ClosingPnLSymmetry | Services/PortfolioService.cs:77-81 | a LONG's profit at a price is a SHORT's loss at that price, and closing at the entry books 0 for either |
| Portfolio.Trade.Finish | Services/PortfolioService.cs:77-85 | closing a trade object returns the profit or loss ClosingPnL gives and turns its record into Close of the old record |
| Portfolio.BookOne | Services/PortfolioService.cs:87 | closing one open record raises the realised total by exactly the profit or loss it books and keeps the list well formed |
| Portfolio.BookAt | Services/PortfolioService.cs:87 | giving a record without profit and loss one adds that amount to the realised total |
| Portfolio.PortfolioService.CloseTrade | Services/PortfolioService.cs:73-89 | a closed trade is left alone (balance, records and log unchanged, so closing twice equals closing once); an open one is closed at the price with the direction's profit and loss, the balance moves by exactly that amount, every other trade is untouched, and the invariant holds |
| Portfolio.HitsExit | Services/PortfolioService.cs:98-102 | the stop-loss or take-profit test: at or beyond the stop-loss or the take-profit on the trade's side; see OpenWhileBetweenExits |
| Portfolio.ShouldClose | Services/PortfolioService.cs:96-104 | the automatic check closes an open trade of the symbol whose exit is hit |
| Portfolio.OpenWhileBetweenExits | Services/PortfolioService.cs:96-104 | an open trade of the symbol stays open exactly while the price lies strictly between its exits (stop-loss below take-profit for a LONG, above for a SHORT) |
| Portfolio.OtherDirectionsNeverClose | Services/PortfolioService.cs:98-102 | a trade whose direction is neither LONG nor SHORT never hits its stop-loss or take-profit |
| Portfolio.Settle | Services/PortfolioService.cs:96-108 | the settled list has the same length and settles each record on its own: closed at the price when it is an open trade of the symbol whose exit is hit, unchanged otherwise |
| Portfolio.SettleChanges | Services/PortfolioService.cs:96-108 | the automatic check changes a record exactly when that record should close |
| Portfolio.RealizedPnL | Services/PortfolioService.cs:40 | the sum of the ProfitLoss values that are set; its append law is RealizedPnLAppend |
| Portfolio.ExitPnL | Services/PortfolioService.cs:92-112 | the sum of the closing profit and loss of the records the check closes; SettleBooksExitPnL ties it to the balance |
| Portfolio.SettleBooksExitPnL | Services/PortfolioService.cs:92-112 | settling raises the realised total by exactly the profit and loss of the trades it closes, and keeps the list well formed |
| Portfolio.SettleIdempotent | Services/PortfolioService.cs:96 | settling twice at the same price equals settling once, since a closed trade is no longer checked |
| Portfolio.Select | Services/PortfolioService.cs:94-111 | the returned trades are among the ledger's trades and no more numerous |
| Portfolio.ClosingIndicesExact | Services/PortfolioService.cs:96-104 | the closing indices are ascending, each one's record should close, and every record that should close has its index listed |
| Portfolio.SelectAtClosingIndices | Services/PortfolioService.cs:94-111 | the returned list has one trade per closing index, in the same order: exactly the trades that close, in list order |
| Portfolio.SelectComplete | Services/PortfolioService.cs:96-108 | every trade whose record should close is returned |
| Portfolio.PortfolioService.CheckAndCloseTrades | Services/PortfolioService.cs:92-112 | the records become Settle of the old ones, the returned list is Select (so, by SelectAtClosingIndices, exactly the trades it closes, in list order), the balance moves by their profit and loss, and the trade list, capital, risk and invariant are kept |
| Portfolio.PortfolioService.CheckTrade | Services/PortfolioService.cs:96-108 | one step of the check closes the i-th trade exactly when it should close, changes only that record, and moves the balance by its exit profit and loss |
| Portfolio.PortfolioService.Reset | Services/PortfolioService.cs:115-122 | on any ledger, one loaded from a foreign log included, the list and the log become empty, the capital, balance and risk take the given values without validation, and the ledger is valid afterwards |
| Portfolio.PortfolioService.SetRisk | Services/PortfolioService.cs:125-130 | on any consistent ledger, succeeds exactly for 0 < r ≤ 1 and then sets the risk; otherwise fails and nothing changes; the trades are untouched, so a valid ledger stays valid |
| Portfolio.ClosedRecords | Services/PortfolioService.cs:136 | the closed records are all closed and no more than the list |
| Portfolio.OpenRecords | Services/PortfolioService.cs:135 | the open records are all open and no more than the list |
| Portfolio.OpenClosedSplit | Services/PortfolioService.cs:135-136 | the open and the closed records together are the list as a multiset; a record of the list is among the open ones exactly when it is open and among the closed ones exactly when it is closed |
| Portfolio.OpenAndClosedPartition | Services/PortfolioService.cs:135-136 | open count plus closed count is the number of trades |
| Portfolio.OpenRecordsCount | Services/PortfolioService.cs:135 | the open records are exactly as many as the open trades counted |
| Portfolio.PortfolioService.GetPortfolioInfo | Services/PortfolioService.cs:133-146 | on any consistent ledger, the open and closed counts add up to the number of trades, and the balance reported is the capital plus the total profit and loss reported |
| Portfolio.History | Services/PortfolioService.cs:150 | the history is at most `limit` closed trades, the most recent ones in order, and all of them when there are fewer |
| Portfolio.PortfolioService.GetTradeHistory | Services/PortfolioService.cs:148-161 | reports nothing exactly when the limit is not positive or no trade is closed; otherwise lists History, between 1 and `limit` trades |
| Portfolio.PortfolioService.GetOpenTrades | Services/PortfolioService.cs:163-175 | reports nothing exactly when no trade is open; otherwise lists the open trades in order |
| Portfolio.PortfolioService.ExportTradesToCsv | Services/PortfolioService.cs:177-196 | an empty ledger exports nothing and returns the empty path; otherwise the header line and then every record, in list order, are written to the given path |
| Portfolio.PortfolioService.Records | Services/PortfolioService.cs:25 | the trade list read off the objects is the ledger's records |
| TradingLogic.GainSum | Services/TradingLogic.cs:14-20 | the gain over a window is never negative |
| TradingLogic.LossSum | Services/TradingLogic.cs:14-20 | the loss over a window is never negative |
| TradingLogic.Rsi | Services/TradingLogic.cs:10-25 | 50 on a short series, 100 on a window without loss, else 100 − 100 / (1 + gain / loss); its range is RsiRange |
| TradingLogic.CalculateRsi | Services/TradingLogic.cs:10-25 | the loop computes Rsi |
| TradingLogic.RsiRange | Services/TradingLogic.cs:12-24 | RSI is 50 on a series shorter than period + 1; otherwise it is 100 exactly when the window has no loss; it always lies in [0, 100] |
| TradingLogic.NoFallNoLoss | Services/TradingLogic.cs:17-19 | a window without a fall has a loss of 0 |
| TradingLogic.RsiOfRisingSeries | Services/TradingLogic.cs:12-22 | a series of at least period + 1 closes that never falls in the window, a constant one included, has an RSI of 100 |
| TradingLogic.Smoothing | Services/TradingLogic.cs:32 | the EMA factor 2 / (period + 1) lies in (0, 1] |
| TradingLogic.Ema | Services/TradingLogic.cs:28-39 | 0 on a series shorter than the period, else the mean of the first `period` closes updated once per later close; see EmaWithin |
| TradingLogic.CalculateEma | Services/TradingLogic.cs:28-39 | the loop computes Ema; with exactly `period` closes it is their mean |
| TradingLogic.ConvexStep | Services/TradingLogic.cs:36 | one EMA update of a value and a close inside [lo, hi] stays inside [lo, hi] |
| TradingLogic.EmaWithin | Services/TradingLogic.cs:32-36 | when the closes lie in [lo, hi], every EMA value lies in [lo, hi] |
| TradingLogic.EmaBetweenExtremes | Services/TradingLogic.cs:30-38 | the EMA of a long enough series lies between its minimum and maximum |
| TradingLogic.EmaOfConstant | Services/TradingLogic.cs:30-38 | the EMA of a constant series is that constant |
| TradingLogic.TrueRange | Services/TradingLogic.cs:53 | the true range is non-negative, at least each of the three distances, and equal to one of them |
| TradingLogic.TrueRanges | Services/TradingLogic.cs:47-55 | one true range per bar after the first |
| TradingLogic.TrueRangesAt | Services/TradingLogic.cs:47-55 | each entry of the list is the TrueRange of its bar |
| TradingLogic.Atr | Services/TradingLogic.cs:42-58 | 0 on a short input, else the mean of the last `period` true ranges; see AtrNonNegative |
| TradingLogic.CalculateAtr | Services/TradingLogic.cs:42-58 | the loop computes Atr: 0 when an input is shorter than the period, else the mean of the last `period` true ranges |
| TradingLogic.AtrNonNegative | Services/TradingLogic.cs:44-57 | ATR is never negative |
| Series.MaxOfIsMaximum | Services/TradingLogic.cs:69 | the highest high of a window bounds every high of it and is one of them |
| Series.MinOfIsMinimum | Services/TradingLogic.cs:70 | the lowest low of a window is at most every low of it and is one of them |
| Series.TakeLast | Services/TradingLogic.cs:57 | the last `n` elements, or all when there are fewer, as a suffix of the list |
| TradingLogic.Window | Services/TradingLogic.cs:69-70 | the window of a bar holds between 1 and `period` values: the `period` values ending at the bar, cut short where the list ends |
| TradingLogic.DoubleDiv | Services/TradingLogic.cs:73 | the quotient, exact where the divisor is not 0 |
| TradingLogic.RawKs | Services/TradingLogic.cs:67-75 | one raw %K per bar from period − 1 on |
| TradingLogic.RawKsAt | Services/TradingLogic.cs:67-75 | each raw %K is 100 × (close − lowest low) / (highest high − lowest low) of its window, with the placeholder 0 for a flat window |
| TradingLogic.Stochastic | Services/TradingLogic.cs:61-84 | (50, 50) on a series shorter than the period, else the means of the last smoothK and of the last smoothD raw values |
| TradingLogic.CalculateStochastic | Services/TradingLogic.cs:61-84 | the loop computes Stochastic: (50, 50) on a short series, else the means of the last smoothK and smoothD raw values; with smoothK = smoothD, %K equals %D; it needs a range only in the windows the averages read |
| TradingLogic.StochasticFlatEarlyWindow | Services/TradingLogic.cs:67-83 | a flat window before the averaged tail does not stop the computation: highs 1, 1, 2, lows 1, 1, 0 and closes 1, 1, 1 with period 2 and smoothing 1 are accepted and give (50, 50) |
| TradingLogic.RawKInRange | Services/TradingLogic.cs:67-74 | a raw %K is in [0, 100] when its close lies within its candle |
| TradingLogic.StochasticInRange | Services/TradingLogic.cs:61-84 | when the highs and lows cover every bar and every close lies within its candle, %K and %D are in [0, 100] |
| TradingLogic.TailInRange | Services/TradingLogic.cs:78-81 | the mean of a tail of values in [0, 100] is in [0, 100] |
| TradingLogic.DirectionalMove | Services/TradingLogic.cs:97-101 | +DM and −DM of a bar are non-negative and never both positive |
| TradingLogic.PlusDMs | Services/TradingLogic.cs:95-100 | one +DM per bar after the first |
| TradingLogic.MinusDMs | Services/TradingLogic.cs:95-101 | one −DM per bar after the first |
| TradingLogic.DirectionalMovesAt | Services/TradingLogic.cs:95-101 | each list entry is the DirectionalMove of its bar |
| TradingLogic.ListsNonNegative | Services/TradingLogic.cs:95-107 | the +DM, −DM and true-range lists have no negative entry |
| TradingLogic.DirectionalIndex | Services/TradingLogic.cs:112-113 | +DI and −DI are non-negative |
| TradingLogic.DirectionalIndexesPositive | Services/TradingLogic.cs:112-113 | with some movement and a positive mean true range, +DI + −DI is positive |
| TradingLogic.Dx | Services/TradingLogic.cs:115 | DX lies in [0, 100] when +DI + −DI > 0 |
| TradingLogic.DxOfLists | Services/TradingLogic.cs:109-116 | the DX step over the last `period` bars lies in [0, 100] |
| TradingLogic.AdxDefined | Services/TradingLogic.cs:109-116 | past the short-series fallback, the lists are aligned and a positive mean true range comes with some directional movement, so DX never divides 0 by 0 |
| TradingLogic.Adx | Services/TradingLogic.cs:87-117 | ADX is in [0, 100] and 0 on a series shorter than period + 1 |
| TradingLogic.AdxFlatRange | Services/TradingLogic.cs:109-110 | past the fallback, a zero mean true range gives an ADX of 0 |
| TradingLogic.DirectionalLists | Services/TradingLogic.cs:91-107 | the loop builds exactly the +DM, −DM and true-range lists |
| TradingLogic.DirectionalBar | Services/TradingLogic.cs:95-107 | one loop step extends each list by its bar's value |
| TradingLogic.DxStep | Services/TradingLogic.cs:109-116 | the tail computation equals DxOfLists |
| TradingLogic.CalculateAdx | Services/TradingLogic.cs:87-117 | the whole ADX code computes Adx |
| SignalScoring.Vote | Services/SignalScoringService.cs:39-73 | each category's vote on a snapshot: the crosses, the RSI and Bollinger levels, the two filters; see CrossVote, LevelRules, FiltersFollowEmaCross |
| SignalScoring.Contribution | Services/SignalScoringService.cs:39-71 | a category adds its weight to the side it votes for and nothing to the other |
| SignalScoring.CrossVote | Services/SignalScoringService.cs:40-45 | a crossing rule votes long exactly above, short exactly below, and not on equality |
| SignalScoring.SideScore | Services/SignalScoringService.cs:36-71 | a side's score is never negative |
| SignalScoring.TableTotals | Services/SignalScoringService.cs:7-18 | the table sums to 1.25, and the seven consulted categories to 1.05 |
| SignalScoring.SidesWithinWeight | Services/SignalScoringService.cs:39-71 | since each category votes for at most one side, the two scores together never exceed the consulted weight |
| SignalScoring.ScoreBounds | Services/SignalScoringService.cs:39-75 | both scores are non-negative and sum to at most 1.05, and the reported score is in [0, 1.05] |
| SignalScoring.FiltersFollowEmaCross | Services/SignalScoringService.cs:59-73 | pattern and divergence never vote; the ADX vote needs ADX ≥ 25 and the ATR vote ATR > 0, and both equal the EMA-cross vote; equal EMAs get none of the three |
| SignalScoring.LevelRules | Services/SignalScoringService.cs:48-57 | RSI votes long exactly below 30 and short exactly above 70; Bollinger votes long exactly at or below the lower band and short exactly at or above the upper band when not long |
| SignalScoring.Score | Services/SignalScoringService.cs:75-81 | the score is the larger side's; the direction is LONG exactly when long strictly wins and reaches the minimum, SHORT symmetrically, else NEUTRAL |
| SignalScoring.TieIsNeutral | Services/SignalScoringService.cs:77-79 | a tie reports NEUTRAL |
| SignalScoring.MinimumGates | Services/SignalScoringService.cs:77-79 | a score below the minimum reports NEUTRAL; a strict winner reaching it is reported |
| SignalScoring.SignalRules | Services/SignalScoringService.cs:36-57 | the five signal rules add exactly each category's contribution to its side |
| SignalScoring.FilterRules | Services/SignalScoringService.cs:59-71 | the two filters add exactly their contributions |
| SignalScoring.SignalScoringService.constructor | Services/SignalScoringService.cs:22-25 | the constructor takes any minimum score unvalidated |
| SignalScoring.SignalScoringService.SetMinScore | Services/SignalScoringService.cs:27-32 | succeeds exactly for 0 ≤ m ≤ 1 and then sets the minimum; otherwise fails and keeps the old one |
| SignalScoring.SignalScoringService.ScoreIndicators | Services/SignalScoringService.cs:34-82 | the rule sequence reports exactly Score under the current minimum |
| Analysis.AtrInputsAligned | Services/AnalysisService.cs:47-52 | lists read off the same candles always meet the ATR's requirements |
| Analysis.SnapshotRanges | Services/AnalysisService.cs:45-68 | in the snapshot, RSI and ADX are in [0, 100] and ATR ≥ 0; the upper band is not below the lower; MACD = EMA(12) − EMA(26); the signal line equals the fast EMA; %K equals %D; the close is the last candle's; with closes inside their candles, %K and %D are in [0, 100] |
| Analysis.CandlesStochasticInRange | Services/AnalysisService.cs:47-49 | when every close lies within its candle, the snapshot's Stochastic is in [0, 100] |
| Analysis.Snapshot | Services/AnalysisService.cs:45-68 | the indicator snapshot of a candle list; its bounds are SnapshotRanges |
| Analysis.SnapshotVotes | Services/AnalysisService.cs:50-61 | on any snapshot the Stochastic cross never votes, and the MACD cross compares the MACD with the fast EMA |
| Analysis.SignalOf | Services/AnalysisService.cs:70-83 | the signal of one timeframe; its contents are SignalContents |
| Analysis.StopLoss | Services/AnalysisService.cs:77 | 1% below the entry for LONG, 1% above for any other direction; see ExitsAroundEntry |
| Analysis.TakeProfit | Services/AnalysisService.cs:78 | 2% above the entry for LONG, 2% below for any other direction; see ExitsAroundEntry |
| Analysis.SignalContents | Services/AnalysisService.cs:70-83 | the signal carries the symbol, the scorer's direction on the snapshot, the last close as entry, and the snapshot's RSI, EMAs and MACD; the direction is LONG, SHORT or NEUTRAL |
| Analysis.ExitsAroundEntry | Services/AnalysisService.cs:77-78 | for a positive entry a LONG has its stop-loss below and its take-profit above, every other direction the reverse; stop-loss and take-profit lie 1% and 2% of the entry away |
| Analysis.AnalyzeSingle | Services/AnalysisService.cs:39-84 | an empty candle list fails; otherwise the signal is SignalOf the candles under the scorer's minimum |
| Analysis.AnalyzeMulti | Services/AnalysisService.cs:19-37 | fails exactly when some timeframe has no candles; otherwise one result per timeframe in the order 5m, 15m, 1h, each the signal of its candles |
| AutoScan.CountDirection | Bot/TelegramBotService.cs:92-93 | a direction's count is at most the number of results |
| AutoScan.CountsDisjoint | Bot/TelegramBotService.cs:92-93 | the LONG and SHORT counts together are at most the number of results |
| AutoScan.CountPositive | Bot/TelegramBotService.cs:92-93 | a direction's count is positive exactly when some result has it |
| AutoScan.Overall | Bot/TelegramBotService.cs:92-97 | LONG on two or more LONG results, else SHORT on two or more SHORT ones, else NEUTRAL; see MajorityOfThree |
| AutoScan.MajorityOfThree | Bot/TelegramBotService.cs:92-97 | with three results LONG and SHORT cannot both reach 2, so the overall direction is LONG exactly on two or more LONG votes, SHORT exactly on two or more SHORT votes, NEUTRAL otherwise |
| AutoScan.FirstWith | Bot/TelegramBotService.cs:101 | the first result in the direction; see FirstWithIsFirst |
| AutoScan.FirstWithIsFirst | Bot/TelegramBotService.cs:101 | the first match exists exactly when some result has the direction, and it is the signal of the first such result |
| AutoScan.Consensus | Bot/TelegramBotService.cs:95-101 | no signal on NEUTRAL, else the first one in the overall direction; see ConsensusIsFirstMatch |
| AutoScan.ConsensusIsFirstMatch | Bot/TelegramBotService.cs:95-101 | a signal is chosen exactly when the overall direction is not NEUTRAL, and it is the first one in timeframe order that has that direction |
| AutoScan.SignalRisk | Bot/TelegramBotService.cs:104 | a signal's own stop-loss puts the ledger's risk per unit at 1% of the entry in every direction, for every entry: for a positive entry the fallback never applies, and otherwise it yields the same value |
| AutoScan.FreshTradeHoldsAtEntry | Bot/TelegramBotService.cs:104 | a trade opened from a signal with a positive entry does not reach its exits at the entry price |
| AutoScan.ConsensusSignal | Bot/TelegramBotService.cs:99-104 | the chosen signal has the overall direction (LONG or SHORT), that direction's exits, and a risk per unit of 1% of its entry |
| AutoScan.ScanSymbol | Bot/TelegramBotService.cs:72-104 | a failed analysis changes nothing; otherwise trades are settled at the first timeframe's entry (its last close), and only then is a trade opened from the consensus signal, sized with the balance after the closes and appended after the settled records; NEUTRAL or an entry of 0 opens nothing |

## Left out

- Fetching candles from the exchange (Exchange/ExchangeApi.cs, and the 150-candle fetch in Services/AnalysisService.cs:41) is I/O. The candle lists are parameters, one per timeframe. The Candle model file is not part of this model; a candle keeps only its high, low and close, since the analysis reads nothing else.
- The standard deviation of the closes (Helpers/MathExtensions.cs:9-17) is a square root over doubles. It is a parameter `std`, required to be non-negative and 0 for fewer than two closes, as that helper returns.
- Analysis.AnalyzeMulti: the timeframes come from a dictionary enumerated in insertion order. The model fixes that order as 5m, 15m, 1h.
- The definition of MultiTimeframeResult is not part of this model. Its two fields, timeframe and signal, are taken from where the analysis builds it.
- Floating point: `decimal` and `double` are reals, so there is no rounding, overflow, NaN or infinity. A division by zero whose NaN or infinity would reach a reported value is a precondition (`StochasticDefined` for a flat window among the averaged ones, `AdxDefined`), not a NaN result. On those inputs the bot still runs: in the analysis, where %K and %D average the same values, a NaN or infinite %K equals its %D or is NaN with it and casts no vote, and a NaN ADX casts none either; the model does not cover those inputs.
- TradingLogic.CalculateEma, CalculateAtr, CalculateStochastic, CalculateAdx: the `period ≥ 1` style requirements exclude inputs where the bot throws (an average of an empty list, an index out of range). The analysis always passes the fixed periods that meet them.
- The JSON log and the CSV file: the files, their text and the `F2`/`u` formatting are left out. The model keeps a ghost `persisted` copy of the records after each change, and the constructor takes the stored records as a parameter. An export returns the path and the rows it would write.
- Portfolio.PortfolioService.constructor: a log that this program did not write, with an open trade that has a profit or loss, is loaded, but the ledger is then only `Consistent` (balance invariant and log) rather than `Valid`. The queries, `SetRisk` and `Reset` accept such a ledger, and `Reset` makes it `Valid` again; opening and closing trades require `Valid`.
- Portfolio.PortfolioService.CloseTrade: called only with a trade of this ledger. The bot never closes a foreign trade object.
- Portfolio.PortfolioService.OpenTrade: the bot divides by zero on an entry of 0 with a non-positive raw risk and throws. Here this is a `None` result with nothing changed. No state was changed before the division, so the two agree.
- `DateTime.UtcNow` is a `now` parameter. CheckAndCloseTrades stamps every trade it closes in one call with the same `now`.
- The Telegram side is left out: the bot's `Start`, its one-minute timer, the command dispatch, the messages, the `_defaultChatId` gate, the loop over the symbol list, and the per-symbol try/catch (Bot/TelegramBotService.cs). AutoScan.ScanSymbol models one symbol's turn. A failed analysis changing nothing stands for the caught exception.
- Concurrency: the timer and the command handler share the ledger in the bot. The model runs one operation at a time.
