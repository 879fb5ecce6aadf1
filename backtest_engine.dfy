/**
 * BacktestEngine.run_backtest (src/backtest/backtest_engine.py) as the
 * engine runs it: a loop over the calendar days of the range that updates
 * cash, the holdings dictionary, the trade list and the equity curve in
 * place, with an inner loop over the BUY rows, one over the holdings and one
 * over the instruments to remove. Each loop is proved to compute the
 * corresponding function of BacktestDay, and the run as a whole to compute
 * the metrics of RunDays.
 */
module BacktestEngine {
  import opened Wrappers
  import opened Analyzer
  import opened BacktestRecords
  import opened BacktestMetrics
  import opened BacktestDay
  import opened BacktestProperties

  /** The entry loop over the day's signal rows; only BUY rows can open a position. */
  method ApplyEntries(initial: real, row: map<StockId, real>, day: Day, cash: real, holdings: seq<Holding>,
                      signals: seq<Signal>)
    returns (newCash: real, newHoldings: seq<Holding>)
    ensures Book(newCash, newHoldings) == Entries(initial, row, day, Book(cash, holdings), signals)
  {
    newCash, newHoldings := cash, holdings;
    var i := 0;
    while i < |signals|
      invariant 0 <= i <= |signals|
      invariant Book(newCash, newHoldings) == Entries(initial, row, day, Book(cash, holdings), signals[..i])
    {
      var s := signals[i];
      if s.kind == Buy && s.stock !in Stocks(newHoldings) {
        var size := PositionSize(initial, newCash);
        if s.stock in row && row[s.stock] != 0.0 {
          var price := row[s.stock];
          var shares := Trunc(size / price);
          if shares > 0 {
            newCash := newCash - Cost(shares, price);
            newHoldings := newHoldings + [Opened(s, shares, price, day)];
          }
        }
      }
      assert signals[..i + 1][..i] == signals[..i];
      i := i + 1;
    }
    assert signals[..|signals|] == signals;
  }

  /**
   * The exit loop over the holdings: credits each exit, logs its trade and
   * collects the instruments to remove afterwards.
   */
  method ProcessExits(row: map<StockId, real>, day: Day, signals: seq<Signal>, cash: real, trades: seq<Trade>,
                      holdings: seq<Holding>)
    returns (newCash: real, newTrades: seq<Trade>, toRemove: seq<StockId>)
    requires WellFormed(holdings)
    ensures Ledger(newCash, newTrades, toRemove) == Exits(row, day, signals, Ledger(cash, trades, []), holdings)
  {
    newCash, newTrades, toRemove := cash, trades, [];
    var i := 0;
    while i < |holdings|
      invariant 0 <= i <= |holdings|
      invariant WellFormed(holdings[..i])
      invariant Ledger(newCash, newTrades, toRemove) == Exits(row, day, signals, Ledger(cash, trades, []), holdings[..i])
    {
      var h := holdings[i];
      assert holdings[..i + 1][..i] == holdings[..i] && holdings[..i + 1][i] == h;
      WellFormedPrefix(holdings, i + 1);
      if h.stock in row && row[h.stock] != 0.0 {
        var price := row[h.stock];
        var pnlPct := (price - h.entryPrice) / h.entryPrice;
        assert pnlPct == Change(h, price);
        var exit: Option<Exit> := None;
        if pnlPct >= h.expectedReturn / 100.0 {
          exit := Some(Exit(Target, TargetPrice(h)));
        } else if pnlPct <= h.stopLoss / 100.0 {
          exit := Some(Exit(StopLoss, StopPrice(h)));
        } else if day - h.entryDay >= h.targetDays {
          exit := Some(Exit(TimeLimit, price));
        } else {
          var first := FirstSignalFor(signals, h.stock);
          if first.Some? && first.value.kind == Sell {
            exit := Some(Exit(SellSignal, price));
          }
        }
        assert exit == ExitDecision(h, day, price, signals);
        if exit.Some? {
          newCash := newCash + Cost(h.shares, exit.value.price);
          newTrades := newTrades + [Closed(h, day, exit.value)];
          toRemove := toRemove + [h.stock];
        }
      }
      i := i + 1;
    }
    assert holdings[..|holdings|] == holdings;
  }

  /** `del holdings[stock]`: the holdings without the position in `stock`, order kept. */
  function Delete(hs: seq<Holding>, stock: StockId): seq<Holding> {
    if hs == [] then []
    else
      var rest := Delete(hs[..|hs| - 1], stock);
      if hs[|hs| - 1].stock == stock then rest else rest + [hs[|hs| - 1]]
  }

  /** Deleting one more instrument after a removal is the removal of one more. */
  lemma {:induction false} DeleteAfterWithout(hs: seq<Holding>, rm: seq<StockId>, stock: StockId)
    ensures Delete(Without(hs, rm), stock) == Without(hs, rm + [stock])
  {
    if hs != [] {
      var init := hs[..|hs| - 1];
      var last := hs[|hs| - 1];
      DeleteAfterWithout(init, rm, stock);
      if last.stock !in rm {
        var kept := Without(init, rm) + [last];
        assert kept[..|kept| - 1] == Without(init, rm) && kept[|kept| - 1] == last;
      }
    }
  }

  lemma RemoveStep(hs: seq<Holding>, rm: seq<StockId>, i: int)
    requires 0 <= i < |rm|
    ensures Delete(Without(hs, rm[..i]), rm[i]) == Without(hs, rm[..i + 1])
  {
    TakeOneMore(rm, i);
    DeleteAfterWithout(hs, rm[..i], rm[i]);
  }

  lemma TakeOneMore(rm: seq<StockId>, i: int)
    requires 0 <= i < |rm|
    ensures rm[..i + 1] == rm[..i] + [rm[i]]
  {
  }

  /** The deletion loop: drops every instrument listed for removal from the holdings. */
  method RemoveExited(holdings: seq<Holding>, toRemove: seq<StockId>) returns (kept: seq<Holding>)
    ensures kept == Without(holdings, toRemove)
  {
    kept := holdings;
    WithoutNothing(holdings);
    var i := 0;
    while i < |toRemove|
      invariant 0 <= i <= |toRemove|
      invariant kept == Without(holdings, toRemove[..i])
    {
      RemoveStep(holdings, toRemove, i);
      kept := Delete(kept, toRemove[i]);
      i := i + 1;
    }
    assert toRemove[..|toRemove|] == toRemove;
  }

  /** Removing no instrument keeps the holdings as they are. */
  lemma {:induction false} WithoutNothing(hs: seq<Holding>)
    ensures Without(hs, []) == hs
  {
    if hs != [] {
      WithoutNothing(hs[..|hs| - 1]);
      assert hs == hs[..|hs| - 1] + [hs[|hs| - 1]];
    }
  }

  /** The body of the day loop on a date with signal rows. */
  method TradeDay(initial: real, row: map<StockId, real>, day: Day, signals: seq<Signal>,
                  cash: real, holdings: seq<Holding>, trades: seq<Trade>, equity: seq<EquityPoint>)
    returns (cash': real, holdings': seq<Holding>, trades': seq<Trade>, equity': seq<EquityPoint>)
    requires WellFormed(holdings)
    ensures Portfolio(cash', holdings', trades', equity')
            == TradingDay(initial, row, day, signals, Portfolio(cash, holdings, trades, equity))
  {
    cash', holdings' := ApplyEntries(initial, row, day, cash, holdings, signals);
    var toRemove;
    cash', trades', toRemove := ProcessExits(row, day, signals, cash', trades, holdings');
    holdings' := RemoveExited(holdings', toRemove);
    equity' := equity + [EquityPoint(day, cash' + HoldingValue(holdings', row))];
  }

  /**
   * One pass of the day loop: nothing on a date outside the price index, only
   * an equity point (the cash) on a day without signals, and otherwise a
   * trading day.
   */
  method SimulateDay(initial: real, data: PriceData, strategy: Day -> seq<Signal>, day: Day,
                     cash: real, holdings: seq<Holding>, trades: seq<Trade>, equity: seq<EquityPoint>)
    returns (cash': real, holdings': seq<Holding>, trades': seq<Trade>, equity': seq<EquityPoint>)
    requires WellFormed(holdings)
    ensures Portfolio(cash', holdings', trades', equity')
            == DayStep(initial, data, strategy, Portfolio(cash, holdings, trades, equity), day)
  {
    cash', holdings', trades', equity' := cash, holdings, trades, equity;
    if day in data.rows {
      var signals := strategy(day);
      if signals == [] {
        equity' := equity + [EquityPoint(day, cash)];
      } else {
        cash', holdings', trades', equity' := TradeDay(initial, data.rows[day], day, signals, cash, holdings, trades, equity);
      }
    }
  }

  /** The engine: its initial capital is fixed when it is built. */
  class Engine {
    const initialCapital: real

    constructor (initialCapital: real)
      ensures this.initialCapital == initialCapital
    {
      this.initialCapital := initialCapital;
    }

    /**
     * The backtest over the days start..end (inclusive), the dates of the
     * range that are in the price index one after the other.
     */
    method RunBacktest(start: Day, end: Day, data: PriceData, strategy: Day -> seq<Signal>,
                       pow: (real, real) -> real)
      returns (res: Result<BacktestResults, string>)
      requires initialCapital > 0.0 && NonNegativePrices(data) && SaneSuggestions(strategy)
      ensures res == Backtest(initialCapital, start, end, data, strategy, pow)
    {
      if IsEmpty(data) {
        return Failure("Stock price data not available");
      }
      var cash := initialCapital;
      var holdings: seq<Holding> := [];
      var trades: seq<Trade> := [];
      var equity: seq<EquityPoint> := [];
      var day := start;
      while day <= end
        invariant day == start || start < day <= end + 1
        invariant Portfolio(cash, holdings, trades, equity) == RunDays(initialCapital, data, strategy, start, day)
        decreases end + 1 - day
      {
        cash, holdings, trades, equity := SimulateDay(initialCapital, data, strategy, day, cash, holdings, trades, equity);
        day := day + 1;
      }
      FinishedRun(initialCapital, start, end, data, strategy, pow, day, Portfolio(cash, holdings, trades, equity));
      return Success(CalculateMetrics(initialCapital, start, end, trades, equity, pow));
    }
  }

  /**
   * run_backtest as a function of its inputs: an error for an empty price
   * table, otherwise the metrics of what RunDays accumulates over start..end.
   */
  function Backtest(initial: real, start: Day, end: Day, data: PriceData, strategy: Day -> seq<Signal>,
                    pow: (real, real) -> real): (r: Result<BacktestResults, string>)
    requires initial > 0.0 && NonNegativePrices(data) && SaneSuggestions(strategy)
    ensures r.Failure? <==> IsEmpty(data)
    ensures r.Failure? ==> r.error == "Stock price data not available"
  {
    if IsEmpty(data) then Failure("Stock price data not available")
    else
      var p := RunDays(initial, data, strategy, start, end + 1);
      RunDaysHealthy(initial, data, strategy, start, end + 1);
      Success(CalculateMetrics(initial, start, end, p.trades, p.equity, pow))
  }

  /** The state the day loop ends in gives the backtest's result. */
  lemma FinishedRun(initial: real, start: Day, end: Day, data: PriceData, strategy: Day -> seq<Signal>,
                    pow: (real, real) -> real, day: Day, p: Portfolio)
    requires initial > 0.0 && NonNegativePrices(data) && SaneSuggestions(strategy) && !IsEmpty(data)
    requires end < day && (day == start || start < day <= end + 1)
    requires p == RunDays(initial, data, strategy, start, day)
    ensures |p.trades| > 0 ==> |p.equity| > 0 && Positive(ValuesOf(p.equity))
    ensures Backtest(initial, start, end, data, strategy, pow) == Success(CalculateMetrics(initial, start, end, p.trades, p.equity, pow))
  {
    RunDaysHealthy(initial, data, strategy, start, day);
    assert p == RunDays(initial, data, strategy, start, end + 1);
  }

  /**
   * What a successful backtest reports: the whole range and capital, every
   * trade a sound BUY round trip closed within the range, winners and losers
   * among the trades, a drawdown in (-1, 0], and with trades a positive final
   * capital whose return over the initial capital is the total return.
   */
  lemma BacktestGuarantees(initial: real, start: Day, end: Day, data: PriceData, strategy: Day -> seq<Signal>,
                           pow: (real, real) -> real, r: BacktestResults)
    requires initial > 0.0 && NonNegativePrices(data) && SaneSuggestions(strategy)
    requires Backtest(initial, start, end, data, strategy, pow) == Success(r)
    ensures r.startDay == start && r.endDay == end && r.initialCapital == initial
    ensures r.totalTrades == |r.trades| && r.winningTrades + r.losingTrades == r.totalTrades
    ensures 0.0 <= r.winRate <= 1.0
    ensures forall k :: 0 <= k < |r.trades| ==> TradeSound(r.trades[k]) && r.trades[k].exitDay <= end
    ensures -1.0 < r.maxDrawdown <= 0.0
    ensures r.totalTrades > 0 ==> r.finalCapital > 0.0 && r.finalCapital - initial == initial * r.totalReturn
  {
    var p := RunDays(initial, data, strategy, start, end + 1);
    RunDaysHealthy(initial, data, strategy, start, end + 1);
    RunDaysSound(initial, data, strategy, start, end + 1);
    assert r == CalculateMetrics(initial, start, end, p.trades, p.equity, pow);
    if |p.trades| > 0 {
      TradeCounts(initial, start, end, p.trades, p.equity, pow);
      WinRateBounds(initial, start, end, p.trades, p.equity, pow);
      DrawdownOfRun(initial, start, end, p.trades, p.equity, pow);
      ReturnOnCapital(initial, start, end, p.trades, p.equity, pow, r);
      assert r.finalCapital == p.equity[|p.equity| - 1].value;
    }
  }
}
