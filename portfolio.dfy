/** The portfolio ledger: a balance, the capital it started from, the
    fraction of the balance risked per trade, and an append-only list of
    trades. Opening a trade sizes it from the risk; closing it books its
    profit or loss into the balance, so that at all times

        balance == initial capital + the sum of the booked profits and losses.

    Every change to the list is written to a log file; the model keeps the
    logged copy as a ghost field. */
module Portfolio {
  import opened Common
  import opened Series

  /** Points in time, as the clock supplies them. */
  type Timestamp = int

  /** The value of one trade as it is logged and listed. */
  datatype TradeRecord = TradeRecord(
    symbol: string,
    direction: string,
    entry: real,
    stopLoss: real,
    takeProfit: real,
    size: real,
    openTime: Timestamp,
    closeTime: Option<Timestamp>,
    closePrice: Option<real>,
    profitLoss: Option<real>)
  {
    /** A trade is open until it has a close time. */
    predicate IsOpen() { closeTime.None? }
  }

  // ===================================================================
  // Sizing, profit and loss
  // ===================================================================

  /** The price distance to the stop-loss that the position risks: entry
      minus stop-loss for LONG, stop-loss minus entry for every other
      direction, and 1% of the entry when that distance is not positive.
      It is positive for a positive entry, so sizing never divides by zero
      there; it is 0 exactly when the fallback applies to an entry of 0. */
  function RiskPerUnit(direction: string, entry: real, stopLoss: real): (r: real)
    ensures entry > 0.0 ==> r > 0.0
    ensures var raw := if direction == LONG then entry - stopLoss else stopLoss - entry;
      (r == 0.0 <==> entry == 0.0 && raw <= 0.0) && (raw > 0.0 ==> r == raw)
  {
    var raw := if direction == LONG then entry - stopLoss else stopLoss - entry;
    if raw <= 0.0 then entry * 0.01 else raw
  }

  /** The position size: the amount at risk divided by the risk per unit. */
  function PositionSize(balance: real, riskPerTrade: real, direction: string, entry: real, stopLoss: real): (size: real)
    requires RiskPerUnit(direction, entry, stopLoss) != 0.0
    ensures size * RiskPerUnit(direction, entry, stopLoss) == balance * riskPerTrade
  {
    (balance * riskPerTrade) / RiskPerUnit(direction, entry, stopLoss)
  }

  /** With a non-negative balance and risk and a positive entry the size is
      non-negative. */
  lemma PositionSizeNonNegative(balance: real, riskPerTrade: real, direction: string, entry: real, stopLoss: real)
    requires 0.0 <= balance && 0.0 <= riskPerTrade && 0.0 < entry
    ensures RiskPerUnit(direction, entry, stopLoss) > 0.0
    ensures 0.0 <= PositionSize(balance, riskPerTrade, direction, entry, stopLoss)
  {
    ProductNonNegative(balance, riskPerTrade);
  }

  /** Risking 1% of 1000 on a LONG at 100 with the stop at 99 buys 10 units. */
  lemma SizingExample()
    ensures PositionSize(1000.0, 0.01, LONG, 100.0, 99.0) == 10.0
  {
    assert RiskPerUnit(LONG, 100.0, 99.0) == 1.0;
  }

  /** The profit or loss of closing at `closePrice`: price gain times size
      for LONG, price fall times size for every other direction. */
  function ClosingPnL(direction: string, entry: real, size: real, closePrice: real): real
  {
    if direction == LONG then (closePrice - entry) * size else (entry - closePrice) * size
  }

  /** A LONG and a SHORT of the same size between the same two prices book
      opposite results; closing at the entry books nothing. */
  lemma ClosingPnLSymmetry(entry: real, size: real, closePrice: real)
    ensures ClosingPnL(LONG, entry, size, closePrice) == -ClosingPnL(SHORT, entry, size, closePrice)
    ensures ClosingPnL(LONG, entry, size, entry) == 0.0 && ClosingPnL(SHORT, entry, size, entry) == 0.0
  {
  }

  /** For a position of positive size the result is a profit exactly when
      the price moved the trade's way (up for LONG, down for every other
      direction), and nothing exactly when it closes at the entry. */
  lemma ClosingPnLSign(direction: string, entry: real, size: real, closePrice: real)
    requires size > 0.0
    ensures ClosingPnL(direction, entry, size, closePrice) > 0.0 <==>
      (if direction == LONG then closePrice > entry else closePrice < entry)
    ensures ClosingPnL(direction, entry, size, closePrice) == 0.0 <==> closePrice == entry
  {
    var move := if direction == LONG then closePrice - entry else entry - closePrice;
    assert ClosingPnL(direction, entry, size, closePrice) == move * size;
    if move > 0.0 {
      assert move * size > 0.0;
    } else if move < 0.0 {
      assert move * size < 0.0;
    }
  }

  /** The record of an open trade closed at `price` at time `now`. */
  function Close(r: TradeRecord, price: real, now: Timestamp): (c: TradeRecord)
    ensures !c.IsOpen() && c.closePrice == Some(price)
    ensures c.profitLoss == Some(ClosingPnL(r.direction, r.entry, r.size, price))
    ensures c.(closeTime := r.closeTime, closePrice := r.closePrice, profitLoss := r.profitLoss) == r
  {
    r.(closeTime := Some(now), closePrice := Some(price), profitLoss := Some(ClosingPnL(r.direction, r.entry, r.size, price)))
  }

  // ===================================================================
  // The ledger's contents, as values
  // ===================================================================

  /** The sum of the booked profits and losses: over the trades that have one. */
  function RealizedPnL(rs: seq<TradeRecord>): real
  {
    if rs == [] then 0.0
    else
      var last := rs[|rs| - 1];
      RealizedPnL(rs[..|rs| - 1]) + (if last.profitLoss.Some? then last.profitLoss.value else 0.0)
  }

  /** Records as the program itself writes them: an open trade has no
      profit or loss booked yet. */
  predicate WellFormed(rs: seq<TradeRecord>)
  {
    forall i :: 0 <= i < |rs| ==> rs[i].IsOpen() ==> rs[i].profitLoss.None?
  }

  lemma RealizedPnLAppend(rs: seq<TradeRecord>, r: TradeRecord)
    ensures RealizedPnL(rs + [r]) == RealizedPnL(rs) + (if r.profitLoss.Some? then r.profitLoss.value else 0.0)
  {
    assert (rs + [r])[..|rs|] == rs;
  }

  /** Whether an open trade's exit is hit at `price`: a LONG exits at or
      below its stop-loss or at or above its take-profit, a SHORT the other
      way round; a trade of any other direction never exits. */
  predicate HitsExit(r: TradeRecord, price: real)
  {
    var hitSL := (r.direction == LONG && price <= r.stopLoss) || (r.direction == SHORT && price >= r.stopLoss);
    var hitTP := (r.direction == LONG && price >= r.takeProfit) || (r.direction == SHORT && price <= r.takeProfit);
    hitSL || hitTP
  }

  /** The trades the automatic check closes: open, of the symbol, exit hit. */
  predicate ShouldClose(r: TradeRecord, symbol: string, price: real)
  {
    r.symbol == symbol && r.IsOpen() && HitsExit(r, price)
  }

  /** A trade whose direction is neither LONG nor SHORT is never closed by
      the automatic check. */
  lemma OtherDirectionsNeverClose(r: TradeRecord, symbol: string, price: real)
    requires r.direction != LONG && r.direction != SHORT
    ensures !ShouldClose(r, symbol, price)
  {
  }

  /** An open trade of the symbol whose exits lie on either side of the
      price band stays open exactly while the price is strictly inside the
      band: between stop-loss and take-profit for a LONG, between
      take-profit and stop-loss for a SHORT. */
  lemma OpenWhileBetweenExits(r: TradeRecord, symbol: string, price: real)
    requires r.symbol == symbol && r.IsOpen()
    ensures r.direction == LONG && r.stopLoss < r.takeProfit ==>
      (!ShouldClose(r, symbol, price) <==> r.stopLoss < price < r.takeProfit)
    ensures r.direction == SHORT && r.takeProfit < r.stopLoss ==>
      (!ShouldClose(r, symbol, price) <==> r.takeProfit < price < r.stopLoss)
  {
    DirectionsDistinct();
  }

  /** One record after the automatic check. */
  function SettleOne(r: TradeRecord, symbol: string, price: real, now: Timestamp): TradeRecord
  {
    if ShouldClose(r, symbol, price) then Close(r, price, now) else r
  }

  /** What the automatic check books for one record. */
  function ExitOne(r: TradeRecord, symbol: string, price: real): real
  {
    if ShouldClose(r, symbol, price) then ClosingPnL(r.direction, r.entry, r.size, price) else 0.0
  }

  /** The ledger after the automatic check: the trades it closes are
      closed at `price`, every other record is unchanged. */
  function Settle(rs: seq<TradeRecord>, symbol: string, price: real, now: Timestamp): (out: seq<TradeRecord>)
    ensures |out| == |rs|
    ensures forall i {:trigger out[i]} :: 0 <= i < |rs| ==>
      out[i] == SettleOne(rs[i], symbol, price, now)
  {
    if rs == [] then []
    else
      var last := rs[|rs| - 1];
      Settle(rs[..|rs| - 1], symbol, price, now) + [SettleOne(last, symbol, price, now)]
  }

  /** The profit and loss the automatic check books. */
  function ExitPnL(rs: seq<TradeRecord>, symbol: string, price: real): real
  {
    if rs == [] then 0.0
    else
      var last := rs[|rs| - 1];
      ExitPnL(rs[..|rs| - 1], symbol, price) + ExitOne(last, symbol, price)
  }

  /** On well-formed records, what the automatic check books is exactly
      the change in the booked profit and loss of the ledger. */
  lemma {:induction false} SettleBooksExitPnL(rs: seq<TradeRecord>, symbol: string, price: real, now: Timestamp)
    requires WellFormed(rs)
    ensures RealizedPnL(Settle(rs, symbol, price, now)) == RealizedPnL(rs) + ExitPnL(rs, symbol, price)
    ensures WellFormed(Settle(rs, symbol, price, now))
  {
    if rs != [] {
      var init := rs[..|rs| - 1];
      var last := rs[|rs| - 1];
      assert WellFormed(init) by {
        forall i | 0 <= i < |init| ensures init[i].IsOpen() ==> init[i].profitLoss.None? {
          assert init[i] == rs[i];
        }
      }
      SettleBooksExitPnL(init, symbol, price, now);
      var head := Settle(init, symbol, price, now);
      var closed := SettleOne(last, symbol, price, now);
      assert Settle(rs, symbol, price, now) == head + [closed];
      RealizedPnLAppend(head, closed);
      assert rs == init + [last];
    }
  }

  /** Settling twice at the same price changes nothing more. */
  lemma SettleIdempotent(rs: seq<TradeRecord>, symbol: string, price: real, now: Timestamp, later: Timestamp)
    ensures Settle(Settle(rs, symbol, price, now), symbol, price, later) == Settle(rs, symbol, price, now)
  {
    var once := Settle(rs, symbol, price, now);
    var twice := Settle(once, symbol, price, later);
    assert forall i :: 0 <= i < |rs| ==> twice[i] == once[i];
  }

  /** The ledger part-way through the automatic check: the first `i`
      records settled, the rest as they were. */
  function SettledUpTo(rs: seq<TradeRecord>, i: int, symbol: string, price: real, now: Timestamp): (out: seq<TradeRecord>)
    requires 0 <= i <= |rs|
    ensures |out| == |rs|
  {
    Settle(rs[..i], symbol, price, now) + rs[i..]
  }

  /** Settling record i takes the ledger from `i` settled records to
      `i + 1`; with every record settled, it is the settled ledger. */
  lemma SettledUpToStep(rs: seq<TradeRecord>, i: int, symbol: string, price: real, now: Timestamp)
    requires 0 <= i < |rs|
    ensures SettledUpTo(rs, i, symbol, price, now)[i] == rs[i]
    ensures SettledUpTo(rs, i + 1, symbol, price, now) ==
      SettledUpTo(rs, i, symbol, price, now)[i := SettleOne(rs[i], symbol, price, now)]
  {
    var before := SettledUpTo(rs, i, symbol, price, now);
    var after := SettledUpTo(rs, i + 1, symbol, price, now);
    assert rs[..i + 1][..i] == rs[..i];
    assert Settle(rs[..i + 1], symbol, price, now) == Settle(rs[..i], symbol, price, now) + [SettleOne(rs[i], symbol, price, now)];
    assert forall j :: 0 <= j < |rs| ==> after[j] == before[i := SettleOne(rs[i], symbol, price, now)][j];
  }

  lemma SettledUpToEnds(rs: seq<TradeRecord>, symbol: string, price: real, now: Timestamp)
    ensures SettledUpTo(rs, 0, symbol, price, now) == rs
    ensures SettledUpTo(rs, |rs|, symbol, price, now) == Settle(rs, symbol, price, now)
  {
    assert rs[..0] == [] && rs[0..] == rs;
    assert rs[..|rs|] == rs && rs[|rs|..] == [];
  }

  lemma WholePrefix<T>(s: seq<T>)
    ensures s[..|s|] == s
  {
  }

  /** The trade objects whose records the automatic check closes, in list order. */
  function Select(ts: seq<Trade>, rs: seq<TradeRecord>, symbol: string, price: real): (out: seq<Trade>)
    requires |ts| == |rs|
    ensures |out| <= |ts|
    ensures forall t :: t in out ==> t in ts
  {
    if ts == [] then []
    else
      var n := |ts| - 1;
      Select(ts[..n], rs[..n], symbol, price) + (if ShouldClose(rs[n], symbol, price) then [ts[n]] else [])
  }

  lemma SelectStep(ts: seq<Trade>, rs: seq<TradeRecord>, symbol: string, price: real, i: int)
    requires |ts| == |rs| && 0 <= i < |ts|
    ensures Select(ts[..i + 1], rs[..i + 1], symbol, price) ==
      Select(ts[..i], rs[..i], symbol, price) + (if ShouldClose(rs[i], symbol, price) then [ts[i]] else [])
  {
    assert ts[..i + 1][..i] == ts[..i] && rs[..i + 1][..i] == rs[..i];
  }

  /** A record changes in the automatic check exactly when it should close. */
  lemma SettleChanges(rs: seq<TradeRecord>, symbol: string, price: real, now: Timestamp, i: int)
    requires 0 <= i < |rs|
    ensures Settle(rs, symbol, price, now)[i] != rs[i] <==> ShouldClose(rs[i], symbol, price)
  {
    if ShouldClose(rs[i], symbol, price) {
      assert !Settle(rs, symbol, price, now)[i].IsOpen() && rs[i].IsOpen();
    }
  }

  /** The indices of the records the automatic check closes, ascending. */
  function ClosingIndices(rs: seq<TradeRecord>, symbol: string, price: real): seq<int>
  {
    if rs == [] then []
    else
      var n := |rs| - 1;
      ClosingIndices(rs[..n], symbol, price) + (if ShouldClose(rs[n], symbol, price) then [n] else [])
  }

  /** ClosingIndices lists, in ascending order and each once, exactly the
      indices whose record should close. */
  lemma {:induction false} ClosingIndicesExact(rs: seq<TradeRecord>, symbol: string, price: real)
    ensures forall k :: 0 <= k < |ClosingIndices(rs, symbol, price)| ==>
      0 <= ClosingIndices(rs, symbol, price)[k] < |rs| && ShouldClose(rs[ClosingIndices(rs, symbol, price)[k]], symbol, price)
    ensures forall k, l :: 0 <= k < l < |ClosingIndices(rs, symbol, price)| ==>
      ClosingIndices(rs, symbol, price)[k] < ClosingIndices(rs, symbol, price)[l]
    ensures forall i :: 0 <= i < |rs| && ShouldClose(rs[i], symbol, price) ==> i in ClosingIndices(rs, symbol, price)
  {
    if rs != [] {
      var n := |rs| - 1;
      var init := rs[..n];
      ClosingIndicesExact(init, symbol, price);
      var pre := ClosingIndices(init, symbol, price);
      var idx := ClosingIndices(rs, symbol, price);
      assert idx == pre + (if ShouldClose(rs[n], symbol, price) then [n] else []);
      forall k | 0 <= k < |idx|
        ensures 0 <= idx[k] < |rs| && ShouldClose(rs[idx[k]], symbol, price)
      {
        if k < |pre| {
          assert idx[k] == pre[k] && init[pre[k]] == rs[pre[k]];
        }
      }
      forall i | 0 <= i < |rs| && ShouldClose(rs[i], symbol, price)
        ensures i in idx
      {
        if i < n {
          assert init[i] == rs[i];
        }
      }
    }
  }

  /** Select returns, in list order, the trade at each closing index. */
  lemma {:induction false} SelectAtClosingIndices(ts: seq<Trade>, rs: seq<TradeRecord>, symbol: string, price: real)
    requires |ts| == |rs|
    ensures var out, idx := Select(ts, rs, symbol, price), ClosingIndices(rs, symbol, price);
      |out| == |idx| && forall k :: 0 <= k < |idx| ==> 0 <= idx[k] < |ts| && out[k] == ts[idx[k]]
  {
    ClosingIndicesExact(rs, symbol, price);
    if ts != [] {
      var n := |ts| - 1;
      SelectAtClosingIndices(ts[..n], rs[..n], symbol, price);
      ClosingIndicesExact(rs[..n], symbol, price);
    }
  }

  /** Every trade whose record the automatic check closes is returned. */
  lemma SelectComplete(ts: seq<Trade>, rs: seq<TradeRecord>, symbol: string, price: real, i: int)
    requires |ts| == |rs| && 0 <= i < |ts| && ShouldClose(rs[i], symbol, price)
    ensures ts[i] in Select(ts, rs, symbol, price)
  {
    ClosingIndicesExact(rs, symbol, price);
    SelectAtClosingIndices(ts, rs, symbol, price);
    var idx := ClosingIndices(rs, symbol, price);
    var k :| 0 <= k < |idx| && idx[k] == i;
    assert Select(ts, rs, symbol, price)[k] == ts[i];
  }

  lemma ExitPnLStep(rs: seq<TradeRecord>, symbol: string, price: real, i: int)
    requires 0 <= i < |rs|
    ensures ExitPnL(rs[..i + 1], symbol, price) == ExitPnL(rs[..i], symbol, price) + ExitOne(rs[i], symbol, price)
  {
    assert rs[..i + 1][..i] == rs[..i];
  }

  function OpenCount(rs: seq<TradeRecord>): nat
  {
    if rs == [] then 0 else OpenCount(rs[..|rs| - 1]) + (if rs[|rs| - 1].IsOpen() then 1 else 0)
  }

  /** The closed records, in list order. */
  function ClosedRecords(rs: seq<TradeRecord>): (out: seq<TradeRecord>)
    ensures |out| <= |rs|
    ensures forall i :: 0 <= i < |out| ==> !out[i].IsOpen()
  {
    if rs == [] then []
    else ClosedRecords(rs[..|rs| - 1]) + (if rs[|rs| - 1].IsOpen() then [] else [rs[|rs| - 1]])
  }

  /** Every trade is either open or closed. */
  lemma {:induction false} OpenAndClosedPartition(rs: seq<TradeRecord>)
    ensures OpenCount(rs) + |ClosedRecords(rs)| == |rs|
  {
    if rs != [] {
      OpenAndClosedPartition(rs[..|rs| - 1]);
    }
  }

  /** The open records, in list order. */
  function OpenRecords(rs: seq<TradeRecord>): (out: seq<TradeRecord>)
    ensures |out| <= |rs|
    ensures forall i :: 0 <= i < |out| ==> out[i].IsOpen()
  {
    if rs == [] then []
    else OpenRecords(rs[..|rs| - 1]) + (if rs[|rs| - 1].IsOpen() then [rs[|rs| - 1]] else [])
  }

  lemma {:induction false} OpenRecordsCount(rs: seq<TradeRecord>)
    ensures |OpenRecords(rs)| == OpenCount(rs)
  {
    if rs != [] {
      OpenRecordsCount(rs[..|rs| - 1]);
    }
  }

  /** Every record is in exactly one of the open and the closed records. */
  lemma {:induction false} OpenClosedSplit(rs: seq<TradeRecord>)
    ensures multiset(OpenRecords(rs)) + multiset(ClosedRecords(rs)) == multiset(rs)
    ensures forall r :: r in rs ==> (r in OpenRecords(rs) <==> r.IsOpen()) && (r in ClosedRecords(rs) <==> !r.IsOpen())
  {
    if rs != [] {
      var n := |rs| - 1;
      OpenClosedSplit(rs[..n]);
      assert rs == rs[..n] + [rs[n]];
    }
  }

  /** The history shows the most recent `limit` closed trades: at most
      `limit` of them, all closed, the tail of the closed trades in order,
      and all of them when there are fewer than `limit`. */
  function History(rs: seq<TradeRecord>, limit: int): (h: seq<TradeRecord>)
    ensures limit <= 0 ==> h == []
    ensures limit > 0 ==> |h| == if limit < |ClosedRecords(rs)| then limit else |ClosedRecords(rs)|
    ensures h == ClosedRecords(rs)[|ClosedRecords(rs)| - |h|..]
    ensures forall i :: 0 <= i < |h| ==> !h[i].IsOpen()
  {
    TakeLast(ClosedRecords(rs), limit)
  }

  /** What a listing query reports: nothing to list, or the listed trades. */
  datatype Listing = NothingToList | Listed(items: seq<TradeRecord>)

  /** The summary the portfolio query reports. */
  datatype PortfolioInfo = PortfolioInfo(
    initialCapital: real,
    balance: real,
    totalPnL: real,
    openTrades: nat,
    closedTrades: nat)

  /** The header line of the CSV export. */
  const CsvHeader: string := "Symbol,Direction,Entry,StopLoss,TakeProfit,Size,OpenTime,CloseTime,ClosePrice,ProfitLoss"

  /** What the CSV export produces: the path it reports, the header line
      and the trades written after it; all empty when there is nothing to
      export. */
  datatype Export = Export(path: string, header: string, rows: seq<TradeRecord>)

  // ===================================================================
  // Trade objects
  // ===================================================================

  /** One trade; only its closing fields ever change. */
  class Trade {
    const symbol: string
    const direction: string
    const entry: real
    const stopLoss: real
    const takeProfit: real
    const size: real
    const openTime: Timestamp
    var closeTime: Option<Timestamp>
    var closePrice: Option<real>
    var profitLoss: Option<real>

    function Record(): TradeRecord
      reads this
    {
      TradeRecord(symbol, direction, entry, stopLoss, takeProfit, size, openTime, closeTime, closePrice, profitLoss)
    }

    predicate IsOpen()
      reads this
    {
      closeTime.None?
    }

    /** A newly opened trade. */
    constructor Open(symbol: string, direction: string, entry: real, stopLoss: real, takeProfit: real, size: real, now: Timestamp)
      ensures Record() == TradeRecord(symbol, direction, entry, stopLoss, takeProfit, size, now, None, None, None)
    {
      this.symbol := symbol;
      this.direction := direction;
      this.entry := entry;
      this.stopLoss := stopLoss;
      this.takeProfit := takeProfit;
      this.size := size;
      this.openTime := now;
      this.closeTime := None;
      this.closePrice := None;
      this.profitLoss := None;
    }

    /** A trade read back from the log. */
    constructor FromRecord(r: TradeRecord)
      ensures Record() == r
    {
      symbol := r.symbol;
      direction := r.direction;
      entry := r.entry;
      stopLoss := r.stopLoss;
      takeProfit := r.takeProfit;
      size := r.size;
      openTime := r.openTime;
      closeTime := r.closeTime;
      closePrice := r.closePrice;
      profitLoss := r.profitLoss;
    }

    /** Sets the closing fields of this trade at `price` and returns
        the profit or loss it books. */
    method Finish(price: real, now: Timestamp) returns (pnl: real)
      modifies this
      ensures pnl == ClosingPnL(direction, entry, size, price)
      ensures Record() == Close(old(Record()), price, now)
    {
      pnl := if direction == LONG then (price - entry) * size else (entry - price) * size;
      closePrice := Some(price);
      profitLoss := Some(pnl);
      closeTime := Some(now);
    }
  }

  /** The records of a list of trade objects. */
  function RecordsOf(ts: seq<Trade>): (rs: seq<TradeRecord>)
    reads ts
    ensures |rs| == |ts|
    ensures forall i {:trigger rs[i]} :: 0 <= i < |ts| ==> rs[i] == ts[i].Record()
  {
    if ts == [] then [] else RecordsOf(ts[..|ts| - 1]) + [ts[|ts| - 1].Record()]
  }

  predicate Distinct(ts: seq<Trade>)
  {
    forall i, j :: 0 <= i < j < |ts| ==> ts[i] != ts[j]
  }

  // ===================================================================
  // The ledger
  // ===================================================================

  class PortfolioService {
    var initialCapital: real
    var balance: real
    var riskPerTrade: real
    var trades: seq<Trade>
    /** The records of the trades, in list order. */
    ghost var records: seq<TradeRecord>
    /** What the log file holds: nothing yet, or the logged trades. */
    ghost var persisted: Option<seq<TradeRecord>>

    /** The ledger's invariant apart from the records' shape: distinct
        trade objects whose records are `records`, a log that matches the
        list, and a balance that is the initial capital plus the booked
        profit and loss. */
    ghost predicate Consistent()
      reads this, trades
    {
      |records| == |trades| &&
      (forall i {:trigger trades[i].Record()} :: 0 <= i < |trades| ==> trades[i].Record() == records[i]) &&
      Distinct(trades) &&
      (persisted == Some(records) || (persisted == None && trades == [])) &&
      balance == initialCapital + RealizedPnL(records)
    }

    ghost predicate Valid()
      reads this, trades
    {
      Consistent() && WellFormed(records)
    }

    /** The records, read off the trade objects. */
    function Records(): (rs: seq<TradeRecord>)
      reads this, trades
      requires Consistent()
      ensures rs == records
    {
      RecordsOf(trades)
    }

    /** A ledger with the given capital and risk, reloaded from the log
        when there is one (`stored`). A log this program did not write,
        with an open trade that has a profit or loss, is still loaded, but
        the ledger is then only Consistent. */
    constructor (initialCapital: real, riskPerTrade: real, stored: Option<seq<TradeRecord>>)
      ensures this.initialCapital == initialCapital && this.riskPerTrade == riskPerTrade
      ensures records == (if stored.Some? then stored.value else [])
      ensures balance == initialCapital + RealizedPnL(records)
      ensures persisted == stored
      ensures Consistent()
      ensures (stored.None? || WellFormed(stored.value)) ==> Valid()
    {
      this.initialCapital := initialCapital;
      this.balance := initialCapital;
      this.riskPerTrade := riskPerTrade;
      this.trades := [];
      this.records := [];
      this.persisted := None;
      new;
      LoadTrades(stored);
    }

    /** Reloads the trades from the log when it exists and recomputes the
        balance from them; with no log nothing changes. */
    method LoadTrades(stored: Option<seq<TradeRecord>>)
      requires trades == [] && records == [] && persisted == None && balance == initialCapital
      modifies this
      ensures initialCapital == old(initialCapital) && riskPerTrade == old(riskPerTrade)
      ensures records == (if stored.Some? then stored.value else [])
      ensures balance == initialCapital + RealizedPnL(records)
      ensures persisted == stored
      ensures Consistent()
    {
      if stored.None? {
        return;
      }
      var rs := stored.value;
      var loaded: seq<Trade> := [];
      for i := 0 to |rs|
        modifies {}
        invariant |loaded| == i
        invariant Distinct(loaded)
        invariant forall j :: 0 <= j < i ==> fresh(loaded[j]) && loaded[j].Record() == rs[j]
      {
        var t := new Trade.FromRecord(rs[i]);
        loaded := loaded + [t];
      }
      trades := loaded;
      records := rs;
      persisted := stored;
      balance := initialCapital + RealizedPnL(rs);
    }

    /** Opens a trade sized from the current balance and risk and appends
        it to the list; the balance and every earlier trade stay as they
        were. Fails, changing nothing, when the size would divide by zero
        (a fallback risk of 0, from an entry of 0). */
    method OpenTrade(symbol: string, direction: string, entry: real, stopLoss: real, takeProfit: real, now: Timestamp)
      returns (trade: Option<Trade>)
      requires Valid()
      modifies this
      ensures Valid()
      ensures trade.None? <==> RiskPerUnit(direction, entry, stopLoss) == 0.0
      ensures initialCapital == old(initialCapital) && balance == old(balance) && riskPerTrade == old(riskPerTrade)
      ensures trade.None? ==> trades == old(trades) && records == old(records) && persisted == old(persisted)
      ensures trade.Some? ==>
        fresh(trade.value) && trades == old(trades) + [trade.value] &&
        records == old(records) + [TradeRecord(symbol, direction, entry, stopLoss, takeProfit,
          PositionSize(old(balance), riskPerTrade, direction, entry, stopLoss), now, None, None, None)]
    {
      var riskAmount := balance * riskPerTrade;
      var riskPerUnit := if direction == LONG then entry - stopLoss else stopLoss - entry;
      if riskPerUnit <= 0.0 {
        riskPerUnit := entry * 0.01;
      }
      if riskPerUnit == 0.0 {
        return None;
      }
      var positionSize := riskAmount / riskPerUnit;
      assert positionSize == PositionSize(balance, riskPerTrade, direction, entry, stopLoss);
      var t := new Trade.Open(symbol, direction, entry, stopLoss, takeProfit, positionSize, now);
      Add(t);
      trade := Some(t);
    }

    /** Appends an open trade that is not yet in the list and writes the
        log; the balance stays as it was. */
    method Add(t: Trade)
      requires Valid() && t !in trades && t.IsOpen() && t.profitLoss.None?
      modifies this
      ensures Valid()
      ensures trades == old(trades) + [t] && records == old(records) + [t.Record()]
      ensures initialCapital == old(initialCapital) && balance == old(balance) && riskPerTrade == old(riskPerTrade)
    {
      RealizedPnLAppend(records, t.Record());
      trades := trades + [t];
      records := records + [t.Record()];
      persisted := Some(records);
    }

    /** Closes an open trade of the ledger at `closePrice`: books the
        profit or loss into the balance and sets the closing fields. A
        trade that is already closed is left alone, so closing twice is
        closing once. */
    method CloseTrade(trade: Trade, closePrice: real, now: Timestamp)
      requires Valid() && trade in trades
      modifies this, trade
      ensures Valid()
      ensures trades == old(trades)
      ensures initialCapital == old(initialCapital) && riskPerTrade == old(riskPerTrade)
      ensures !old(trade.IsOpen()) ==> balance == old(balance) && records == old(records) && persisted == old(persisted)
      ensures old(trade.IsOpen()) ==>
        trade.Record() == Close(old(trade.Record()), closePrice, now) &&
        balance == old(balance) + ClosingPnL(trade.direction, trade.entry, trade.size, closePrice)
      ensures |records| == |old(records)|
      ensures forall i :: 0 <= i < |trades| ==>
        records[i] == if trades[i] == trade && old(trade.IsOpen()) then Close(old(records[i]), closePrice, now) else old(records[i])
    {
      if !trade.IsOpen() {
        return;
      }
      ghost var k :| 0 <= k < |trades| && trades[k] == trade;
      assert trade.Record() == records[k];
      BookOne(records, k, closePrice, now);
      ghost var before := records;
      var pnl := trade.Finish(closePrice, now);
      balance := balance + pnl;
      records := records[k := Close(records[k], closePrice, now)];
      persisted := Some(records);
      forall i | 0 <= i < |trades|
        ensures trades[i].Record() == records[i]
        ensures records[i] == if trades[i] == trade then Close(before[i], closePrice, now) else before[i]
      {
        if i != k {
          assert trades[i] != trade;
          assert trades[i].Record() == old(trades[i].Record()) == before[i];
        }
      }
    }

    /** Closes, in list order, every open trade of `symbol` whose stop-loss
        or take-profit `currentPrice` has reached, and returns them in that
        order; every other trade is untouched. */
    method CheckAndCloseTrades(symbol: string, currentPrice: real, now: Timestamp) returns (closed: seq<Trade>)
      requires Valid()
      modifies this, trades
      ensures Valid()
      ensures trades == old(trades)
      ensures initialCapital == old(initialCapital) && riskPerTrade == old(riskPerTrade)
      ensures records == Settle(old(records), symbol, currentPrice, now)
      ensures closed == Select(trades, old(records), symbol, currentPrice)
      ensures balance == old(balance) + ExitPnL(old(records), symbol, currentPrice)
    {
      ghost var before := records;
      SettledUpToEnds(before, symbol, currentPrice, now);
      WholePrefix(before);
      WholePrefix(trades);
      closed := [];
      for i := 0 to |trades|
        invariant Valid()
        invariant trades == old(trades) && |before| == |trades|
        invariant initialCapital == old(initialCapital) && riskPerTrade == old(riskPerTrade)
        invariant records == SettledUpTo(before, i, symbol, currentPrice, now)
        invariant closed == Select(trades[..i], before[..i], symbol, currentPrice)
        invariant balance == old(balance) + ExitPnL(before[..i], symbol, currentPrice)
      {
        SelectStep(trades, before, symbol, currentPrice, i);
        ExitPnLStep(before, symbol, currentPrice, i);
        SettledUpToStep(before, i, symbol, currentPrice, now);
        var hit := CheckTrade(i, symbol, currentPrice, now);
        if hit {
          closed := closed + [trades[i]];
        }
      }
    }

    /** One step of the automatic check: the trade at position `i` is
        closed when it is open, of `symbol`, and its stop-loss or
        take-profit has been reached; nothing else changes. */
    method CheckTrade(i: int, symbol: string, currentPrice: real, now: Timestamp) returns (hit: bool)
      requires Valid() && 0 <= i < |trades|
      modifies this, trades[i]
      ensures Valid()
      ensures trades == old(trades)
      ensures initialCapital == old(initialCapital) && riskPerTrade == old(riskPerTrade)
      ensures hit == ShouldClose(old(records[i]), symbol, currentPrice)
      ensures records == old(records)[i := SettleOne(old(records[i]), symbol, currentPrice, now)]
      ensures balance == old(balance) + ExitOne(old(records[i]), symbol, currentPrice)
    {
      var trade := trades[i];
      assert trade.Record() == records[i];
      hit := false;
      if trade.symbol == symbol && trade.IsOpen() {
        var hitSL := (trade.direction == LONG && currentPrice <= trade.stopLoss) ||
                     (trade.direction == SHORT && currentPrice >= trade.stopLoss);
        var hitTP := (trade.direction == LONG && currentPrice >= trade.takeProfit) ||
                     (trade.direction == SHORT && currentPrice <= trade.takeProfit);
        if hitSL || hitTP {
          CloseTrade(trade, currentPrice, now);
          hit := true;
          assert forall j :: 0 <= j < |trades| && j != i ==> trades[j] != trade;
          assert records == old(records)[i := Close(old(records[i]), currentPrice, now)];
        }
      }
    }

    /** Starts over: the given capital as both initial capital and balance,
        the given risk (not validated here), and no trades. It runs on any
        ledger, one loaded from a foreign log included, and always leaves a
        valid one. */
    method Reset(initialCapital: real, riskPerTrade: real)
      modifies this
      ensures Valid()
      ensures this.initialCapital == initialCapital && balance == initialCapital && this.riskPerTrade == riskPerTrade
      ensures trades == [] && records == [] && persisted == Some([])
    {
      this.initialCapital := initialCapital;
      balance := initialCapital;
      this.riskPerTrade := riskPerTrade;
      trades := [];
      records := [];
      persisted := Some([]);
    }

    /** Accepts a risk per trade in (0, 1]; otherwise fails and changes
        nothing. The trades are untouched, so a valid ledger stays valid. */
    method SetRisk(r: real) returns (o: Outcome)
      requires Consistent()
      modifies this
      ensures Consistent() && (old(Valid()) ==> Valid())
      ensures o.Pass? <==> 0.0 < r <= 1.0
      ensures riskPerTrade == if o.Pass? then r else old(riskPerTrade)
      ensures initialCapital == old(initialCapital) && balance == old(balance)
      ensures trades == old(trades) && records == old(records) && persisted == old(persisted)
    {
      if r <= 0.0 || r > 1.0 {
        return Fail("Risk per trade must lie between 0 and 1 (e.g. 0.01 = 1%)");
      }
      riskPerTrade := r;
      return Pass;
    }

    /** The portfolio summary: every trade counted as open or closed, and a
        total profit and loss that is exactly what the balance has gained
        over the initial capital. */
    function GetPortfolioInfo(): (info: PortfolioInfo)
      reads this, trades
      requires Consistent()
      ensures info.openTrades + info.closedTrades == |trades|
      ensures info.openTrades == |OpenRecords(records)| && info.closedTrades == |ClosedRecords(records)|
      ensures info.balance == info.initialCapital + info.totalPnL
      ensures info.initialCapital == initialCapital && info.balance == balance
    {
      var rs := Records();
      OpenAndClosedPartition(rs);
      OpenRecordsCount(rs);
      PortfolioInfo(initialCapital, balance, RealizedPnL(rs), OpenCount(rs), |ClosedRecords(rs)|)
    }

    /** The trade history: the most recent `limit` closed trades, or nothing
        to list when there are none. */
    function GetTradeHistory(limit: int): (l: Listing)
      reads this, trades
      requires Consistent()
      ensures l.NothingToList? <==> limit <= 0 || |ClosedRecords(records)| == 0
      ensures l.Listed? ==> l.items == History(records, limit) && 0 < |l.items| <= limit
    {
      var h := History(Records(), limit);
      if |h| == 0 then NothingToList else Listed(h)
    }

    /** The open trades in list order, or nothing to list when there are none. */
    function GetOpenTrades(): (l: Listing)
      reads this, trades
      requires Consistent()
      ensures l.NothingToList? <==> OpenRecords(records) == []
      ensures l.Listed? ==> l.items == OpenRecords(records)
    {
      var o := OpenRecords(Records());
      if o == [] then NothingToList else Listed(o)
    }

    /** The CSV export: with no trades the empty path and nothing written;
        otherwise every trade, in list order, after the header, and the
        path it was written to. */
    function ExportTradesToCsv(filePath: string): (e: Export)
      reads this, trades
      requires Consistent()
      ensures trades == [] ==> e == Export("", "", [])
      ensures trades != [] ==> e == Export(filePath, CsvHeader, records)
    {
      if trades == [] then Export("", "", []) else Export(filePath, CsvHeader, Records())
    }
  }

  /** Closing record k of well-formed records, when it is open, books
      exactly its profit or loss and keeps the records well-formed. */
  lemma BookOne(rs: seq<TradeRecord>, k: int, price: real, now: Timestamp)
    requires WellFormed(rs) && 0 <= k < |rs| && rs[k].IsOpen()
    ensures RealizedPnL(rs[k := Close(rs[k], price, now)]) ==
      RealizedPnL(rs) + ClosingPnL(rs[k].direction, rs[k].entry, rs[k].size, price)
    ensures WellFormed(rs[k := Close(rs[k], price, now)])
  {
    BookAt(rs, k, Close(rs[k], price, now));
  }

  /** Replacing a record without a booked result by one with a booked
      result adds that result to the total. */
  lemma {:induction false} BookAt(rs: seq<TradeRecord>, k: int, r: TradeRecord)
    requires 0 <= k < |rs| && rs[k].profitLoss.None? && r.profitLoss.Some?
    ensures RealizedPnL(rs[k := r]) == RealizedPnL(rs) + r.profitLoss.value
  {
    var n := |rs| - 1;
    var updated := rs[k := r];
    assert updated[..n] == if k == n then rs[..n] else rs[..n][k := r];
    if k < n {
      BookAt(rs[..n], k, r);
    }
  }
}
