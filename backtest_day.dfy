/**
 * One simulated day of BacktestEngine.run_backtest
 * (src/backtest/backtest_engine.py), as functions of the loop state: sized
 * entries on BUY signals, the four-way exit rule over the holdings, deferred
 * removal of the closed positions and the valuation that gives the day's
 * equity point. RunDays folds the day step over a range of day numbers.
 */
module BacktestDay {
  import opened Wrappers
  import opened Config
  import opened Analyzer
  import opened BacktestRecords

  // Defaults the engine uses when a signal row has no suggestion.
  const DefaultExpectedReturn: real := 10.0
  const DefaultStopLoss: real := -8.0
  const DefaultHoldingDays: int := 5

  /** Share of the current cash one entry may use. */
  const CashFraction: real := 0.1

  /** The variables of the day loop: cash, holdings, trade log and equity curve. */
  datatype Portfolio = Portfolio(cash: real, holdings: seq<Holding>, trades: seq<Trade>, equity: seq<EquityPoint>)

  // ---------------------------------------------------------------------------
  // The holdings dictionary
  // ---------------------------------------------------------------------------

  /** The keys of the holdings dictionary, in insertion order. */
  function Stocks(hs: seq<Holding>): seq<StockId> {
    seq(|hs|, i requires 0 <= i < |hs| => hs[i].stock)
  }

  predicate UniqueStocks(hs: seq<Holding>) {
    forall i, j :: 0 <= i < j < |hs| ==> hs[i].stock != hs[j].stock
  }

  /**
   * What every open position satisfies: one per instrument, a positive share
   * count and a non-zero entry price.
   */
  predicate WellFormed(hs: seq<Holding>) {
    UniqueStocks(hs) && forall i :: 0 <= i < |hs| ==> hs[i].shares > 0 && hs[i].entryPrice != 0.0
  }

  /** Cost of `shares` shares at `price`. */
  function Cost(shares: int, price: real): real {
    shares as real * price
  }

  /** The holdings whose instrument is not listed in `rm`, in their order. */
  function Without(hs: seq<Holding>, rm: seq<StockId>): seq<Holding> {
    if hs == [] then []
    else
      var rest := Without(hs[..|hs| - 1], rm);
      if hs[|hs| - 1].stock in rm then rest else rest + [hs[|hs| - 1]]
  }

  /** Exactly the holdings of an instrument not listed in `rm` are kept. */
  lemma {:induction false} WithoutMembers(hs: seq<Holding>, rm: seq<StockId>)
    ensures forall h :: h in Without(hs, rm) <==> h in hs && h.stock !in rm
  {
    if hs != [] {
      var init := hs[..|hs| - 1];
      WithoutMembers(init, rm);
      assert hs == init + [hs[|hs| - 1]];
    }
  }

  /** Removing positions keeps the holdings well formed. */
  lemma {:induction false} WithoutWellFormed(hs: seq<Holding>, rm: seq<StockId>)
    requires WellFormed(hs)
    ensures WellFormed(Without(hs, rm))
  {
    if hs != [] {
      var init := hs[..|hs| - 1];
      var last := hs[|hs| - 1];
      assert hs == init + [last];
      assert WellFormed(init);
      WithoutWellFormed(init, rm);
      WithoutMembers(init, rm);
      if last.stock !in rm {
        WithoutKeepsUnique(hs, init, Without(init, rm), last);
      }
    }
  }

  lemma WithoutKeepsUnique(hs: seq<Holding>, init: seq<Holding>, rest: seq<Holding>, last: Holding)
    requires hs == init + [last]
    requires forall h :: h in rest ==> h in init
    requires WellFormed(hs) && WellFormed(rest)
    ensures WellFormed(rest + [last])
  {
    var r := rest + [last];
    forall i, j | 0 <= i < j < |r|
      ensures r[i].stock != r[j].stock
    {
      if j == |r| - 1 {
        assert r[i] == rest[i] && rest[i] in rest;
        var k :| 0 <= k < |init| && init[k] == r[i];
        assert hs[k] == r[i] && hs[|hs| - 1] == last;
      } else {
        assert r[i] == rest[i] && r[j] == rest[j];
      }
    }
    forall i | 0 <= i < |r|
      ensures r[i].shares > 0 && r[i].entryPrice != 0.0
    {
      if i < |rest| {
        assert r[i] == rest[i];
      } else {
        assert r[i] == hs[|hs| - 1];
      }
    }
  }

  // ---------------------------------------------------------------------------
  // Entries
  // ---------------------------------------------------------------------------

  /** Python's int() on a float: truncation toward zero. */
  function Trunc(x: real): (n: int)
    ensures 0.0 <= x ==> 0 <= n && n as real <= x < n as real + 1.0
    ensures x < 0.0 ==> n <= 0 && n as real - 1.0 < x <= n as real
  {
    if x >= 0.0 then x.Floor else -((-x).Floor)
  }

  /** Money one entry may use: the smaller of 10% of the initial and 10% of the current cash. */
  function PositionSize(initial: real, cash: real): (r: real)
    ensures r <= initial * MaxPositionSize && r <= cash * CashFraction
    ensures r == initial * MaxPositionSize || r == cash * CashFraction
  {
    if initial * MaxPositionSize <= cash * CashFraction then initial * MaxPositionSize else cash * CashFraction
  }

  /** Cash and holdings, the part of the state the entry step changes. */
  datatype Book = Book(cash: real, holdings: seq<Holding>)

  /** The position a signal opens at `price` with `shares` shares. */
  function Opened(s: Signal, shares: int, price: real, day: Day): Holding {
    Holding(s.stock, shares, price, day, s.grade,
            s.expectedReturn.GetOr(DefaultExpectedReturn),
            s.stopLoss.GetOr(DefaultStopLoss),
            s.holdingDays.GetOr(DefaultHoldingDays))
  }

  /**
   * One signal row of the entry step. Only a BUY for an instrument not held,
   * with a non-zero price in today's row, whose position size buys at least
   * one share, opens a position; it costs shares * price.
   */
  function EnterOne(initial: real, row: map<StockId, real>, day: Day, b: Book, s: Signal): (r: Book)
    ensures WellFormed(b.holdings) ==> WellFormed(r.holdings)
    ensures b.holdings <= r.holdings && |r.holdings| <= |b.holdings| + 1
    ensures s.kind != Buy || s.stock in Stocks(b.holdings) ==> r == b
    ensures |r.holdings| == |b.holdings| ==> r == b
    ensures s.kind == Buy && s.stock !in Stocks(b.holdings) && s.stock in row && row[s.stock] != 0.0
              && Trunc(PositionSize(initial, b.cash) / row[s.stock]) >= 1
            ==> |r.holdings| == |b.holdings| + 1
    ensures |r.holdings| == |b.holdings| + 1 ==>
              var h := r.holdings[|b.holdings|];
              s.kind == Buy && h == Opened(s, h.shares, h.entryPrice, day)
              && s.stock in row && h.entryPrice == row[s.stock] != 0.0
              && h.shares >= 1 && h.shares == Trunc(PositionSize(initial, b.cash) / h.entryPrice)
              && r.cash == b.cash - Cost(h.shares, h.entryPrice)
  {
    if s.kind != Buy || s.stock in Stocks(b.holdings) then b
    else
      var size := PositionSize(initial, b.cash);
      if s.stock !in row || row[s.stock] == 0.0 then b
      else
        var price := row[s.stock];
        var shares := Trunc(size / price);
        if shares > 0 then
          var h := Opened(s, shares, price, day);
          var hs := b.holdings + [h];
          assert forall i :: 0 <= i < |b.holdings| ==> Stocks(b.holdings)[i] == b.holdings[i].stock;
          assert forall i :: 0 <= i < |b.holdings| ==> hs[i] == b.holdings[i] && b.holdings[i].stock != s.stock;
          Book(b.cash - Cost(shares, price), hs)
        else b
  }

  /** The entry step over the day's signal rows, in order. */
  function Entries(initial: real, row: map<StockId, real>, day: Day, b: Book, signals: seq<Signal>): (r: Book)
    ensures WellFormed(b.holdings) ==> WellFormed(r.holdings)
    ensures b.holdings <= r.holdings
  {
    if signals == [] then b
    else
      var before := Entries(initial, row, day, b, signals[..|signals| - 1]);
      EnterOne(initial, row, day, before, signals[|signals| - 1])
  }

  // ---------------------------------------------------------------------------
  // Exits
  // ---------------------------------------------------------------------------

  /** The first signal row for an instrument, if any. */
  function FirstSignalFor(signals: seq<Signal>, stock: StockId): (r: Option<Signal>)
    ensures r.None? <==> forall s :: s in signals ==> s.stock != stock
    ensures r.Some? ==> r.value in signals && r.value.stock == stock
  {
    if signals == [] then None
    else if signals[0].stock == stock then Some(signals[0])
    else
      assert forall s :: s in signals ==> s == signals[0] || s in signals[1..];
      FirstSignalFor(signals[1..], stock)
  }

  /** No earlier row is about the same instrument. */
  lemma {:induction false} FirstSignalIsFirst(signals: seq<Signal>, stock: StockId)
    requires FirstSignalFor(signals, stock).Some?
    ensures exists k :: 0 <= k < |signals| && signals[k] == FirstSignalFor(signals, stock).value
                        && forall j :: 0 <= j < k ==> signals[j].stock != stock
  {
    if signals[0].stock != stock {
      var tail := signals[1..];
      FirstSignalIsFirst(tail, stock);
      var k :| 0 <= k < |tail| && tail[k] == FirstSignalFor(tail, stock).value
               && forall j :: 0 <= j < k ==> tail[j].stock != stock;
      assert signals[k + 1] == tail[k];
      assert forall j :: 1 <= j < k + 1 ==> signals[j] == tail[j - 1];
    }
  }

  datatype Exit = Exit(reason: ExitReason, price: real)

  /** The relative change of the live price from the entry price. */
  function Change(h: Holding, price: real): real
    requires h.entryPrice != 0.0
  {
    (price - h.entryPrice) / h.entryPrice
  }

  /** The price a target exit is booked at: the entry price grown by the expected return. */
  function TargetPrice(h: Holding): real {
    h.entryPrice * (1.0 + h.expectedReturn / 100.0)
  }

  /** The price a stop-loss exit is booked at: the entry price shrunk by the stop. */
  function StopPrice(h: Holding): real {
    h.entryPrice * (1.0 + h.stopLoss / 100.0)
  }

  /**
   * The exit rule for one holding at the live price: target, then stop-loss,
   * then the holding period, then a first signal row for it that is SELL.
   */
  function ExitDecision(h: Holding, day: Day, price: real, signals: seq<Signal>): (r: Option<Exit>)
    requires h.entryPrice != 0.0
    ensures (r.Some? && r.value.reason == Target) <==> Change(h, price) >= h.expectedReturn / 100.0
    ensures (r.Some? && r.value.reason == StopLoss) <==>
              Change(h, price) < h.expectedReturn / 100.0 && Change(h, price) <= h.stopLoss / 100.0
    ensures (r.Some? && r.value.reason == TimeLimit) <==>
              h.stopLoss / 100.0 < Change(h, price) < h.expectedReturn / 100.0
              && day - h.entryDay >= h.targetDays
    ensures (r.Some? && r.value.reason == SellSignal) <==>
              h.stopLoss / 100.0 < Change(h, price) < h.expectedReturn / 100.0
              && day - h.entryDay < h.targetDays
              && FirstSignalFor(signals, h.stock).Some? && FirstSignalFor(signals, h.stock).value.kind == Sell
    ensures r.Some? && r.value.reason == Target ==> r.value.price == TargetPrice(h)
    ensures r.Some? && r.value.reason == StopLoss ==> r.value.price == StopPrice(h)
    ensures r.Some? && r.value.reason in {TimeLimit, SellSignal} ==> r.value.price == price
  {
    if Change(h, price) >= h.expectedReturn / 100.0 then
      Some(Exit(Target, TargetPrice(h)))
    else if Change(h, price) <= h.stopLoss / 100.0 then
      Some(Exit(StopLoss, StopPrice(h)))
    else if day - h.entryDay >= h.targetDays then
      Some(Exit(TimeLimit, price))
    else
      var first := FirstSignalFor(signals, h.stock);
      if first.Some? && first.value.kind == Sell then Some(Exit(SellSignal, price)) else None
  }

  /** Cash, trade log and instruments to remove: what the exit step accumulates. */
  datatype Ledger = Ledger(cash: real, trades: seq<Trade>, removed: seq<StockId>)

  /** The trade record of closing `h` on `day` at `e`. */
  function Closed(h: Holding, day: Day, e: Exit): Trade
    requires h.entryPrice != 0.0
  {
    var proceeds := Cost(h.shares, e.price);
    Trade(h.stock, h.entryDay, day, h.entryPrice, e.price, h.shares, Buy, h.grade,
          h.expectedReturn, h.stopLoss, proceeds - Cost(h.shares, h.entryPrice),
          (e.price - h.entryPrice) / h.entryPrice, e.reason, day - h.entryDay)
  }

  /** The holding has a non-zero price in today's row and the exit rule fires on it. */
  predicate ExitsToday(row: map<StockId, real>, day: Day, signals: seq<Signal>, h: Holding)
    requires h.entryPrice != 0.0
  {
    h.stock in row && row[h.stock] != 0.0 && ExitDecision(h, day, row[h.stock], signals).Some?
  }

  /**
   * The exit step for one holding. Without a non-zero price for it in today's
   * row nothing happens; an exit credits shares * exit price, logs one trade
   * and marks the instrument for removal.
   */
  function ExitOne(row: map<StockId, real>, day: Day, signals: seq<Signal>, l: Ledger, h: Holding): (r: Ledger)
    requires h.entryPrice != 0.0
    ensures !ExitsToday(row, day, signals, h) ==> r == l
    ensures ExitsToday(row, day, signals, h) ==>
              var e := ExitDecision(h, day, row[h.stock], signals).value;
              r.trades == l.trades + [Closed(h, day, e)] && r.removed == l.removed + [h.stock]
              && r.cash == l.cash + Cost(h.shares, e.price)
  {
    if h.stock !in row || row[h.stock] == 0.0 then l
    else
      match ExitDecision(h, day, row[h.stock], signals)
      case None => l
      case Some(e) =>
        Ledger(l.cash + Cost(h.shares, e.price), l.trades + [Closed(h, day, e)], l.removed + [h.stock])
  }

  /** The exit step over the holdings, in insertion order. */
  function Exits(row: map<StockId, real>, day: Day, signals: seq<Signal>, l: Ledger, hs: seq<Holding>): (r: Ledger)
    requires forall i :: 0 <= i < |hs| ==> hs[i].entryPrice != 0.0
    ensures l.trades <= r.trades && l.removed <= r.removed
    ensures |r.trades| - |l.trades| == |r.removed| - |l.removed| <= |hs|
  {
    if hs == [] then l
    else
      var before := Exits(row, day, signals, l, hs[..|hs| - 1]);
      var r := ExitOne(row, day, signals, before, hs[|hs| - 1]);
      r
  }

  // ---------------------------------------------------------------------------
  // Valuation and the day step
  // ---------------------------------------------------------------------------

  /** Market value of the holdings that have a price in today's row. */
  function HoldingValue(hs: seq<Holding>, row: map<StockId, real>): real {
    if hs == [] then 0.0
    else
      var h := hs[|hs| - 1];
      HoldingValue(hs[..|hs| - 1], row) + (if h.stock in row then row[h.stock] * h.shares as real else 0.0)
  }

  /**
   * A day in the price index with signal rows: entries, then exits over the
   * holdings, then the removals, then the equity point of cash plus the
   * value of what is still held.
   */
  function TradingDay(initial: real, row: map<StockId, real>, day: Day, signals: seq<Signal>, p: Portfolio): (r: Portfolio)
    requires WellFormed(p.holdings)
    ensures WellFormed(r.holdings)
    ensures p.trades <= r.trades
    ensures r.equity == p.equity + [EquityPoint(day, r.cash + HoldingValue(r.holdings, row))]
  {
    var book := Entries(initial, row, day, Book(p.cash, p.holdings), signals);
    var ledger := Exits(row, day, signals, Ledger(book.cash, p.trades, []), book.holdings);
    var kept := Without(book.holdings, ledger.removed);
    WithoutWellFormed(book.holdings, ledger.removed);
    Portfolio(ledger.cash, kept, ledger.trades, p.equity + [EquityPoint(day, ledger.cash + HoldingValue(kept, row))])
  }

  /**
   * One date of the loop. A date outside the price index changes nothing; a
   * date without signal rows records the cash as its equity; otherwise a
   * trading day.
   */
  function DayStep(initial: real, data: PriceData, strategy: Day -> seq<Signal>, p: Portfolio, day: Day): (r: Portfolio)
    requires WellFormed(p.holdings)
    ensures WellFormed(r.holdings)
    ensures p.trades <= r.trades && p.equity <= r.equity
    ensures day !in data.rows ==> r == p
    ensures day in data.rows && strategy(day) == [] ==>
              r.cash == p.cash && r.holdings == p.holdings && r.trades == p.trades
              && r.equity == p.equity + [EquityPoint(day, p.cash)]
    ensures day in data.rows && strategy(day) != [] ==>
              r.equity == p.equity + [EquityPoint(day, r.cash + HoldingValue(r.holdings, data.rows[day]))]
  {
    if day !in data.rows then p
    else
      var signals := strategy(day);
      if signals == [] then p.(equity := p.equity + [EquityPoint(day, p.cash)])
      else TradingDay(initial, data.rows[day], day, signals, p)
  }

  /** The state after the dates start, ..., day - 1. */
  function RunDays(initial: real, data: PriceData, strategy: Day -> seq<Signal>, start: Day, day: Day): (r: Portfolio)
    ensures WellFormed(r.holdings)
    decreases day - start
  {
    if day <= start then Portfolio(initial, [], [], [])
    else DayStep(initial, data, strategy, RunDays(initial, data, strategy, start, day - 1), day - 1)
  }
}
