/**
 * What the day loop of BacktestEngine.run_backtest keeps true: the accounting
 * identity between cash, open positions and realised pnl; one position per
 * instrument; an append-only trade log of well-formed BUY trades; and, for
 * non-negative prices and sane suggestions, positive cash and equity.
 */
module BacktestProperties {
  import opened Wrappers
  import opened Analyzer
  import opened BacktestRecords
  import opened BacktestDay

  // ---------------------------------------------------------------------------
  // Sums
  // ---------------------------------------------------------------------------

  /** What the open positions cost when they were entered. */
  function CostBasis(hs: seq<Holding>): real {
    if hs == [] then 0.0
    else CostBasis(hs[..|hs| - 1]) + Cost(hs[|hs| - 1].shares, hs[|hs| - 1].entryPrice)
  }

  /** The realised pnl of the trade log. */
  function TotalPnl(ts: seq<Trade>): real {
    if ts == [] then 0.0 else TotalPnl(ts[..|ts| - 1]) + ts[|ts| - 1].pnl
  }

  lemma CostBasisSnoc(hs: seq<Holding>, h: Holding)
    ensures CostBasis(hs + [h]) == CostBasis(hs) + Cost(h.shares, h.entryPrice)
  {
    assert (hs + [h])[..|hs|] == hs;
  }

  lemma TotalPnlSnoc(ts: seq<Trade>, t: Trade)
    ensures TotalPnl(ts + [t]) == TotalPnl(ts) + t.pnl
  {
    assert (ts + [t])[..|ts|] == ts;
  }

  // ---------------------------------------------------------------------------
  // Removal of the closed positions
  // ---------------------------------------------------------------------------

  lemma WithoutSnoc(hs: seq<Holding>, h: Holding, rm: seq<StockId>)
    ensures Without(hs + [h], rm) == if h.stock in rm then Without(hs, rm) else Without(hs, rm) + [h]
  {
    assert (hs + [h])[..|hs|] == hs;
  }

  /** Listing an instrument that is not held removes nothing more. */
  lemma {:induction false} WithoutIgnoresAbsent(hs: seq<Holding>, rm: seq<StockId>, s: StockId)
    requires s !in Stocks(hs)
    ensures Without(hs, rm + [s]) == Without(hs, rm)
  {
    if hs != [] {
      var init := hs[..|hs| - 1];
      var last := hs[|hs| - 1];
      assert hs == init + [last];
      assert Stocks(init) == Stocks(hs)[..|hs| - 1] && Stocks(hs)[|hs| - 1] == last.stock;
      WithoutIgnoresAbsent(init, rm, s);
      WithoutSnoc(init, last, rm);
      WithoutSnoc(init, last, rm + [s]);
    }
  }

  lemma WellFormedPrefix(hs: seq<Holding>, k: int)
    requires WellFormed(hs) && 0 <= k <= |hs|
    ensures WellFormed(hs[..k])
  {
    assert forall i :: 0 <= i < k ==> hs[..k][i] == hs[i];
  }

  // ---------------------------------------------------------------------------
  // Accounting: cash + cost basis == initial + realised pnl
  // ---------------------------------------------------------------------------

  predicate Balanced(initial: real, p: Portfolio) {
    p.cash + CostBasis(p.holdings) == initial + TotalPnl(p.trades)
  }

  /** An entry moves money from cash into the cost basis, one for one. */
  lemma EnterOneBalance(initial: real, row: map<StockId, real>, day: Day, b: Book, s: Signal)
    ensures var r := EnterOne(initial, row, day, b, s);
            r.cash + CostBasis(r.holdings) == b.cash + CostBasis(b.holdings)
  {
    var r := EnterOne(initial, row, day, b, s);
    if r != b {
      CostBasisSnoc(b.holdings, r.holdings[|b.holdings|]);
      assert r.holdings == b.holdings + [r.holdings[|b.holdings|]];
    }
  }

  lemma {:induction false} EntriesBalance(initial: real, row: map<StockId, real>, day: Day, b: Book, signals: seq<Signal>)
    ensures var r := Entries(initial, row, day, b, signals);
            r.cash + CostBasis(r.holdings) == b.cash + CostBasis(b.holdings)
  {
    if signals != [] {
      var init := signals[..|signals| - 1];
      EntriesBalance(initial, row, day, b, init);
      EnterOneBalance(initial, row, day, Entries(initial, row, day, b, init), signals[|signals| - 1]);
    }
  }

  // ---------------------------------------------------------------------------
  // The steps act exactly when the rules say so
  // ---------------------------------------------------------------------------

  /** The book after the first `k` signal rows is extended by the remaining rows. */
  lemma {:induction false} EntriesPrefix(initial: real, row: map<StockId, real>, day: Day, b: Book, signals: seq<Signal>, k: int)
    requires 0 <= k <= |signals|
    ensures Entries(initial, row, day, b, signals[..k]).holdings <= Entries(initial, row, day, b, signals).holdings
    decreases |signals| - k
  {
    if k < |signals| {
      var init := signals[..|signals| - 1];
      assert init[..k] == signals[..k];
      EntriesPrefix(initial, row, day, b, init, k);
    } else {
      assert signals[..k] == signals;
    }
  }

  /** The entry step over the first `k + 1` rows is the step over the first `k` rows, then row `k`. */
  lemma EntriesStep(initial: real, row: map<StockId, real>, day: Day, b: Book, signals: seq<Signal>, k: int)
    requires 0 <= k < |signals|
    ensures Entries(initial, row, day, b, signals[..k + 1])
            == EnterOne(initial, row, day, Entries(initial, row, day, b, signals[..k]), signals[k])
  {
    var pre := signals[..k + 1];
    assert pre[..|pre| - 1] == signals[..k] && pre[|pre| - 1] == signals[k];
  }

  /** The instrument of a holding is among the held instruments. */
  lemma HeldStock(hs: seq<Holding>, i: int)
    requires 0 <= i < |hs|
    ensures hs[i].stock in Stocks(hs)
  {
    assert Stocks(hs)[i] == hs[i].stock;
  }

  /**
   * A BUY row for an instrument with a non-zero price whose budget, at that
   * point of the day, buys at least one share leaves the instrument held.
   */
  lemma EntriesOpenQualified(initial: real, row: map<StockId, real>, day: Day, b: Book, signals: seq<Signal>, k: int)
    requires 0 <= k < |signals|
    requires var s := signals[k];
             var before := Entries(initial, row, day, b, signals[..k]);
             s.kind == Buy && s.stock in row && row[s.stock] != 0.0
             && Trunc(PositionSize(initial, before.cash) / row[s.stock]) >= 1
    ensures signals[k].stock in Stocks(Entries(initial, row, day, b, signals).holdings)
  {
    var s := signals[k];
    var before := Entries(initial, row, day, b, signals[..k]);
    EntriesStep(initial, row, day, b, signals, k);
    var after := Entries(initial, row, day, b, signals[..k + 1]);
    EntriesPrefix(initial, row, day, b, signals, k + 1);
    var final := Entries(initial, row, day, b, signals).holdings;
    var i: int;
    if s.stock in Stocks(before.holdings) {
      i :| 0 <= i < |before.holdings| && Stocks(before.holdings)[i] == s.stock;
      assert before.holdings <= after.holdings <= final;
      assert final[i] == before.holdings[i];
    } else {
      i := |before.holdings|;
      assert after.holdings[i].stock == s.stock;
      assert final[i] == after.holdings[i];
    }
    HeldStock(final, i);
  }

  /** `h` is a position opened today by one of the BUY rows, at its price in the row. */
  ghost predicate OpenedByBuy(row: map<StockId, real>, day: Day, signals: seq<Signal>, h: Holding) {
    exists s :: s in signals && s.kind == Buy && s.stock in row && h == Opened(s, h.shares, row[s.stock], day)
  }

  /** Every position the entry step opens comes from one of the day's BUY rows, at its price in the row. */
  lemma {:induction false} EntriesFromBuys(initial: real, row: map<StockId, real>, day: Day, b: Book, signals: seq<Signal>)
    ensures forall i :: |b.holdings| <= i < |Entries(initial, row, day, b, signals).holdings| ==>
              OpenedByBuy(row, day, signals, Entries(initial, row, day, b, signals).holdings[i])
  {
    if signals != [] {
      var init := signals[..|signals| - 1];
      var last := signals[|signals| - 1];
      assert signals == init + [last];
      EntriesFromBuys(initial, row, day, b, init);
      var before := Entries(initial, row, day, b, init);
      var r := Entries(initial, row, day, b, signals);
      assert r == EnterOne(initial, row, day, before, last);
      forall i | |b.holdings| <= i < |r.holdings|
        ensures OpenedByBuy(row, day, signals, r.holdings[i])
      {
        if i < |before.holdings| {
          assert OpenedByBuy(row, day, init, before.holdings[i]);
          var s :| s in init && s.kind == Buy && s.stock in row
                   && before.holdings[i] == Opened(s, before.holdings[i].shares, row[s.stock], day);
          assert s in signals && r.holdings[i] == before.holdings[i];
        } else {
          assert last in signals;
        }
      }
    }
  }

  /** `t` is the trade of a holding in `hs` that the exit rule fires on today. */
  ghost predicate ClosedToday(row: map<StockId, real>, day: Day, signals: seq<Signal>, hs: seq<Holding>, t: Trade) {
    exists h :: h in hs && h.entryPrice != 0.0 && ExitsToday(row, day, signals, h)
                && t == Closed(h, day, ExitDecision(h, day, row[h.stock], signals).value)
  }

  /** `stock` belongs to a holding in `hs` that the exit rule fires on today. */
  ghost predicate SoldToday(row: map<StockId, real>, day: Day, signals: seq<Signal>, hs: seq<Holding>, stock: StockId) {
    exists h :: h in hs && h.entryPrice != 0.0 && ExitsToday(row, day, signals, h) && stock == h.stock
  }

  /** Every holding the exit rule fires on is closed: its trade is logged and its instrument listed. */
  lemma {:induction false} ExitsCloseQualified(row: map<StockId, real>, day: Day, signals: seq<Signal>, l: Ledger, hs: seq<Holding>, k: int)
    requires forall i :: 0 <= i < |hs| ==> hs[i].entryPrice != 0.0
    requires 0 <= k < |hs| && ExitsToday(row, day, signals, hs[k])
    ensures var r := Exits(row, day, signals, l, hs);
            Closed(hs[k], day, ExitDecision(hs[k], day, row[hs[k].stock], signals).value) in r.trades
            && hs[k].stock in r.removed
  {
    var init := hs[..|hs| - 1];
    var before := Exits(row, day, signals, l, init);
    var r := Exits(row, day, signals, l, hs);
    var t := Closed(hs[k], day, ExitDecision(hs[k], day, row[hs[k].stock], signals).value);
    if k < |hs| - 1 {
      assert init[k] == hs[k];
      ExitsCloseQualified(row, day, signals, l, init, k);
      assert before.trades <= r.trades && before.removed <= r.removed;
      var j :| 0 <= j < |before.trades| && before.trades[j] == t;
      assert r.trades[j] == t;
      var m :| 0 <= m < |before.removed| && before.removed[m] == hs[k].stock;
      assert r.removed[m] == hs[k].stock;
    } else {
      assert r == ExitOne(row, day, signals, before, hs[k]);
      assert r.trades[|before.trades|] == t;
      assert r.removed[|before.removed|] == hs[k].stock;
    }
  }

  /**
   * The exit step closes nothing else: every trade it logs and every
   * instrument it lists belongs to a holding the exit rule fires on.
   */
  lemma {:induction false} ExitsOnlyQualified(row: map<StockId, real>, day: Day, signals: seq<Signal>, l: Ledger, hs: seq<Holding>)
    requires forall i :: 0 <= i < |hs| ==> hs[i].entryPrice != 0.0
    ensures forall j :: |l.trades| <= j < |Exits(row, day, signals, l, hs).trades| ==>
              ClosedToday(row, day, signals, hs, Exits(row, day, signals, l, hs).trades[j])
    ensures forall j :: |l.removed| <= j < |Exits(row, day, signals, l, hs).removed| ==>
              SoldToday(row, day, signals, hs, Exits(row, day, signals, l, hs).removed[j])
  {
    if hs != [] {
      var init := hs[..|hs| - 1];
      var h := hs[|hs| - 1];
      assert hs == init + [h];
      ExitsOnlyQualified(row, day, signals, l, init);
      var before := Exits(row, day, signals, l, init);
      var r := Exits(row, day, signals, l, hs);
      assert r == ExitOne(row, day, signals, before, h);
      forall j | |l.trades| <= j < |r.trades|
        ensures ClosedToday(row, day, signals, hs, r.trades[j])
      {
        if j < |before.trades| {
          assert ClosedToday(row, day, signals, init, before.trades[j]);
          var g :| g in init && g.entryPrice != 0.0 && ExitsToday(row, day, signals, g)
                   && before.trades[j] == Closed(g, day, ExitDecision(g, day, row[g.stock], signals).value);
          assert g in hs && r.trades[j] == before.trades[j];
        } else {
          assert h in hs;
        }
      }
      forall j | |l.removed| <= j < |r.removed|
        ensures SoldToday(row, day, signals, hs, r.removed[j])
      {
        if j < |before.removed| {
          assert SoldToday(row, day, signals, init, before.removed[j]);
          var g :| g in init && g.entryPrice != 0.0 && ExitsToday(row, day, signals, g) && before.removed[j] == g.stock;
          assert g in hs && r.removed[j] == before.removed[j];
        } else {
          assert h in hs;
        }
      }
    }
  }

  /** The exit step only marks instruments it was given. */
  lemma {:induction false} ExitsRemoveHeld(row: map<StockId, real>, day: Day, signals: seq<Signal>, l: Ledger, hs: seq<Holding>)
    requires forall i :: 0 <= i < |hs| ==> hs[i].entryPrice != 0.0
    ensures forall s :: s in Exits(row, day, signals, l, hs).removed ==> s in l.removed || s in Stocks(hs)
  {
    if hs != [] {
      var init := hs[..|hs| - 1];
      ExitsRemoveHeld(row, day, signals, l, init);
      assert Stocks(init) == Stocks(hs)[..|hs| - 1] && Stocks(hs)[|hs| - 1] == hs[|hs| - 1].stock;
      assert forall s :: s in Stocks(init) ==> s in Stocks(hs);
    }
  }

  /**
   * The exit step credits the proceeds to cash and their excess over cost to
   * the realised pnl, and the positions it closes leave the cost basis.
   */
  lemma {:induction false} ExitsBalance(row: map<StockId, real>, day: Day, signals: seq<Signal>, l: Ledger, hs: seq<Holding>)
    requires WellFormed(hs) && l.removed == []
    ensures var r := Exits(row, day, signals, l, hs);
            r.cash - TotalPnl(r.trades) + CostBasis(Without(hs, r.removed))
            == l.cash - TotalPnl(l.trades) + CostBasis(hs)
  {
    if hs != [] {
      var init := hs[..|hs| - 1];
      var h := hs[|hs| - 1];
      assert hs == init + [h];
      WellFormedPrefix(hs, |hs| - 1);
      ExitsBalance(row, day, signals, l, init);
      var a := Exits(row, day, signals, l, init);
      ExitsRemoveHeld(row, day, signals, l, init);
      assert h.stock !in Stocks(init) by {
        forall i | 0 <= i < |init|
          ensures init[i].stock != h.stock
        {
          assert init[i] == hs[i];
        }
      }
      assert h.stock !in a.removed;
      var r := ExitOne(row, day, signals, a, h);
      assert r == Exits(row, day, signals, l, hs);
      CostBasisSnoc(init, h);
      if h.stock !in row || row[h.stock] == 0.0 || ExitDecision(h, day, row[h.stock], signals).None? {
        assert r == a;
        WithoutSnoc(init, h, a.removed);
        CostBasisSnoc(Without(init, a.removed), h);
      } else {
        var e := ExitDecision(h, day, row[h.stock], signals).value;
        var t := Closed(h, day, e);
        assert r == Ledger(a.cash + Cost(h.shares, e.price), a.trades + [t], a.removed + [h.stock]);
        WithoutSnoc(init, h, r.removed);
        WithoutIgnoresAbsent(init, a.removed, h.stock);
        TotalPnlSnoc(a.trades, t);
      }
    }
  }

  lemma DayStepBalanced(initial: real, data: PriceData, strategy: Day -> seq<Signal>, p: Portfolio, day: Day)
    requires WellFormed(p.holdings) && Balanced(initial, p)
    ensures Balanced(initial, DayStep(initial, data, strategy, p, day))
  {
    if day in data.rows && strategy(day) != [] {
      var signals := strategy(day);
      var row := data.rows[day];
      var book := Entries(initial, row, day, Book(p.cash, p.holdings), signals);
      EntriesBalance(initial, row, day, Book(p.cash, p.holdings), signals);
      ExitsBalance(row, day, signals, Ledger(book.cash, p.trades, []), book.holdings);
    }
  }

  /**
   * After every processed date, cash plus the cost of the open positions is
   * the initial capital plus the realised pnl.
   */
  lemma {:induction false} RunDaysBalanced(initial: real, data: PriceData, strategy: Day -> seq<Signal>, start: Day, day: Day)
    ensures Balanced(initial, RunDays(initial, data, strategy, start, day))
    decreases day - start
  {
    if day > start {
      RunDaysBalanced(initial, data, strategy, start, day - 1);
      DayStepBalanced(initial, data, strategy, RunDays(initial, data, strategy, start, day - 1), day - 1);
    }
  }

  // ---------------------------------------------------------------------------
  // The trade log
  // ---------------------------------------------------------------------------

  /** The log and the equity curve only ever grow. */
  lemma {:induction false} LogsOnlyGrow(initial: real, data: PriceData, strategy: Day -> seq<Signal>, start: Day, d1: Day, d2: Day)
    requires d1 <= d2
    ensures RunDays(initial, data, strategy, start, d1).trades <= RunDays(initial, data, strategy, start, d2).trades
    ensures RunDays(initial, data, strategy, start, d1).equity <= RunDays(initial, data, strategy, start, d2).equity
    decreases d2 - d1
  {
    if d1 < d2 {
      LogsOnlyGrow(initial, data, strategy, start, d1, d2 - 1);
      if d2 - 1 < start {
        assert RunDays(initial, data, strategy, start, d2) == RunDays(initial, data, strategy, start, d2 - 1);
      }
    }
  }

  /**
   * A closed trade as the engine logs it: a BUY, a positive share count, a
   * non-negative holding period matching its dates, and
   * pnl == (exit - entry) * shares.
   */
  predicate TradeSound(t: Trade) {
    t.signalType == Buy && t.shares > 0 && t.entryPrice != 0.0
    && t.holdingDays == t.exitDay - t.entryDay && t.holdingDays >= 0
    && t.pnl == (t.exitPrice - t.entryPrice) * t.shares as real
    && t.pnlPct == (t.exitPrice - t.entryPrice) / t.entryPrice
  }

  predicate EnteredBy(hs: seq<Holding>, day: Day) {
    forall h :: h in hs ==> h.entryDay <= day
  }

  lemma ClosedSound(h: Holding, day: Day, e: Exit)
    requires h.entryPrice != 0.0 && h.shares > 0 && h.entryDay <= day
    ensures TradeSound(Closed(h, day, e)) && Closed(h, day, e).exitDay == day
  {
    assert Cost(h.shares, e.price) - Cost(h.shares, h.entryPrice) == (e.price - h.entryPrice) * h.shares as real;
  }

  /** The trades from index `from` on are sound and were closed on `day`. */
  predicate ClosedOn(trades: seq<Trade>, from: nat, day: Day) {
    forall k :: from <= k < |trades| ==> TradeSound(trades[k]) && trades[k].exitDay == day
  }

  lemma {:induction false} ExitsSound(row: map<StockId, real>, day: Day, signals: seq<Signal>, l: Ledger, hs: seq<Holding>)
    requires WellFormed(hs) && EnteredBy(hs, day)
    ensures ClosedOn(Exits(row, day, signals, l, hs).trades, |l.trades|, day)
  {
    if hs != [] {
      var init := hs[..|hs| - 1];
      var h := hs[|hs| - 1];
      assert hs == init + [h];
      WellFormedPrefix(hs, |hs| - 1);
      assert EnteredBy(init, day) by {
        forall g | g in init ensures g.entryDay <= day {
          assert g in hs;
        }
      }
      ExitsSound(row, day, signals, l, init);
      var a := Exits(row, day, signals, l, init);
      var r := ExitOne(row, day, signals, a, h);
      assert h in hs && h.shares > 0 && h.entryPrice != 0.0 && h.entryDay <= day;
      if r != a {
        assert h.stock in row && row[h.stock] != 0.0;
        var e := ExitDecision(h, day, row[h.stock], signals).value;
        ClosedSound(h, day, e);
        assert r.trades == a.trades + [Closed(h, day, e)];
        forall k | |l.trades| <= k < |r.trades|
          ensures TradeSound(r.trades[k]) && r.trades[k].exitDay == day
        {
          if k < |a.trades| {
            assert r.trades[k] == a.trades[k];
          }
        }
      }
    }
  }

  lemma {:induction false} EntriesEnteredBy(initial: real, row: map<StockId, real>, day: Day, b: Book, signals: seq<Signal>)
    requires EnteredBy(b.holdings, day)
    ensures EnteredBy(Entries(initial, row, day, b, signals).holdings, day)
  {
    if signals != [] {
      EntriesEnteredBy(initial, row, day, b, signals[..|signals| - 1]);
    }
  }

  /** A day's step keeps positions dated no later than the day and logs only sound trades closed on it. */
  lemma DayStepSound(initial: real, data: PriceData, strategy: Day -> seq<Signal>, p: Portfolio, day: Day)
    requires WellFormed(p.holdings) && EnteredBy(p.holdings, day)
    ensures var q := DayStep(initial, data, strategy, p, day);
            EnteredBy(q.holdings, day)
            && ClosedOn(q.trades, |p.trades|, day)
  {
    if day in data.rows && strategy(day) != [] {
      var signals := strategy(day);
      var row := data.rows[day];
      var book := Entries(initial, row, day, Book(p.cash, p.holdings), signals);
      EntriesEnteredBy(initial, row, day, Book(p.cash, p.holdings), signals);
      var ledger := Exits(row, day, signals, Ledger(book.cash, p.trades, []), book.holdings);
      ExitsSound(row, day, signals, Ledger(book.cash, p.trades, []), book.holdings);
      WithoutMembers(book.holdings, ledger.removed);
    }
  }

  /**
   * Every logged trade is sound and closed before `day`; every open position
   * was entered before `day`.
   */
  lemma {:induction false} RunDaysSound(initial: real, data: PriceData, strategy: Day -> seq<Signal>, start: Day, day: Day)
    ensures var p := RunDays(initial, data, strategy, start, day);
            EnteredBy(p.holdings, day - 1)
            && forall k :: 0 <= k < |p.trades| ==> TradeSound(p.trades[k]) && p.trades[k].exitDay < day
    decreases day - start
  {
    if day > start {
      var d := day - 1;
      RunDaysSound(initial, data, strategy, start, d);
      var p := RunDays(initial, data, strategy, start, d);
      DayStepSound(initial, data, strategy, p, d);
      var q := RunDays(initial, data, strategy, start, day);
      assert q == DayStep(initial, data, strategy, p, d);
      forall k | 0 <= k < |q.trades|
        ensures TradeSound(q.trades[k]) && q.trades[k].exitDay < day
      {
        if k < |p.trades| {
          assert q.trades[k] == p.trades[k];
        }
      }
    }
  }

  // ---------------------------------------------------------------------------
  // The exit rule
  // ---------------------------------------------------------------------------

  /** A target exit books exactly the expected return, whatever the live price. */
  lemma TargetTradeReturn(h: Holding, day: Day, e: Exit)
    requires h.entryPrice != 0.0 && e.price == TargetPrice(h)
    ensures Closed(h, day, e).pnlPct == h.expectedReturn / 100.0
  {
    var x := h.expectedReturn / 100.0;
    assert e.price - h.entryPrice == h.entryPrice * x;
  }

  /** A stop-loss exit books exactly the stop-loss percentage. */
  lemma StopTradeReturn(h: Holding, day: Day, e: Exit)
    requires h.entryPrice != 0.0 && e.price == StopPrice(h)
    ensures Closed(h, day, e).pnlPct == h.stopLoss / 100.0
  {
    var x := h.stopLoss / 100.0;
    assert e.price - h.entryPrice == h.entryPrice * x;
  }

  /**
   * 10 shares entered at 100 with a 10% target, priced at 112 a day later:
   * the exit is the target at 110, not the live 112, with pnl 100.
   */
  lemma TargetExitExample()
    ensures var h := Holding("2330", 10, 100.0, 0, GradeA, 10.0, -8.0, 5);
            var r := ExitOne(map["2330" := 112.0], 1, [], Ledger(0.0, [], []), h);
            r.cash == 1100.0 && |r.trades| == 1 && r.removed == ["2330"]
            && r.trades[0].exitReason == Target && r.trades[0].exitPrice == 110.0
            && r.trades[0].pnl == 100.0 && r.trades[0].pnlPct == 0.1 && r.trades[0].holdingDays == 1
  {
    var h := Holding("2330", 10, 100.0, 0, GradeA, 10.0, -8.0, 5);
    assert Change(h, 112.0) == 0.12;
    assert ExitDecision(h, 1, 112.0, []) == Some(Exit(Target, 110.0));
  }

  /** A BUY row for an instrument already held leaves the book as it was. */
  lemma HeldStockIsNotBoughtAgain(initial: real, row: map<StockId, real>, day: Day, b: Book, s: Signal, k: int)
    requires 0 <= k < |b.holdings| && b.holdings[k].stock == s.stock
    ensures EnterOne(initial, row, day, b, s) == b
  {
    assert Stocks(b.holdings)[k] == s.stock;
  }

  // ---------------------------------------------------------------------------
  // Solvency
  // ---------------------------------------------------------------------------

  predicate NonNegativeRow(row: map<StockId, real>) {
    forall s :: s in row ==> row[s] >= 0.0
  }

  predicate NonNegativePrices(data: PriceData) {
    forall d :: d in data.rows ==> NonNegativeRow(data.rows[d])
  }

  /** BUY rows never suggest losing more than everything. */
  ghost predicate SaneSuggestions(strategy: Day -> seq<Signal>) {
    forall d, s :: s in strategy(d) && s.kind == Buy ==>
      s.expectedReturn.GetOr(DefaultExpectedReturn) >= -100.0 && s.stopLoss.GetOr(DefaultStopLoss) >= -100.0
  }

  predicate Solvent(hs: seq<Holding>) {
    forall h :: h in hs ==> h.entryPrice > 0.0 && h.expectedReturn >= -100.0 && h.stopLoss >= -100.0
  }

  /** An entry spends at most 10% of the cash. */
  lemma EntryCostBound(initial: real, cash: real, price: real)
    requires initial > 0.0 && cash > 0.0 && price > 0.0
    ensures Cost(Trunc(PositionSize(initial, cash) / price), price) <= cash * CashFraction
  {
    var size := PositionSize(initial, cash);
    var q := size / price;
    assert q * price == size;
    var n := Trunc(q);
    assert n as real <= q;
    assert (n as real) * price <= q * price;
  }

  lemma {:induction false} EntriesSolvent(initial: real, row: map<StockId, real>, day: Day, b: Book, signals: seq<Signal>)
    requires initial > 0.0 && b.cash > 0.0 && NonNegativeRow(row) && Solvent(b.holdings)
    requires forall s :: s in signals && s.kind == Buy ==>
               s.expectedReturn.GetOr(DefaultExpectedReturn) >= -100.0 && s.stopLoss.GetOr(DefaultStopLoss) >= -100.0
    ensures var r := Entries(initial, row, day, b, signals);
            r.cash > 0.0 && Solvent(r.holdings)
  {
    if signals != [] {
      var init := signals[..|signals| - 1];
      var s := signals[|signals| - 1];
      assert forall x :: x in init ==> x in signals;
      EntriesSolvent(initial, row, day, b, init);
      var before := Entries(initial, row, day, b, init);
      var r := EnterOne(initial, row, day, before, s);
      if |r.holdings| == |before.holdings| + 1 {
        var h := r.holdings[|before.holdings|];
        EntryCostBound(initial, before.cash, h.entryPrice);
        assert r.holdings == before.holdings + [h];
      }
    }
  }

  lemma ExitPriceNonNegative(entry: real, pct: real)
    requires entry > 0.0 && pct >= -100.0
    ensures entry * (1.0 + pct / 100.0) >= 0.0
  {
    assert 1.0 + pct / 100.0 >= 0.0;
  }

  lemma {:induction false} ExitsSolvent(row: map<StockId, real>, day: Day, signals: seq<Signal>, l: Ledger, hs: seq<Holding>)
    requires WellFormed(hs) && Solvent(hs) && NonNegativeRow(row)
    ensures Exits(row, day, signals, l, hs).cash >= l.cash
  {
    if hs != [] {
      var init := hs[..|hs| - 1];
      var h := hs[|hs| - 1];
      WellFormedPrefix(hs, |hs| - 1);
      ExitsSolvent(row, day, signals, l, init);
      var a := Exits(row, day, signals, l, init);
      var r := ExitOne(row, day, signals, a, h);
      if r != a {
        var e := ExitDecision(h, day, row[h.stock], signals).value;
        ExitPriceNonNegative(h.entryPrice, h.expectedReturn);
        ExitPriceNonNegative(h.entryPrice, h.stopLoss);
        assert e.price >= 0.0;
        assert Cost(h.shares, e.price) >= 0.0;
      }
    }
  }

  lemma {:induction false} HoldingValueNonNegative(hs: seq<Holding>, row: map<StockId, real>)
    requires WellFormed(hs) && NonNegativeRow(row)
    ensures HoldingValue(hs, row) >= 0.0
  {
    if hs != [] {
      WellFormedPrefix(hs, |hs| - 1);
      HoldingValueNonNegative(hs[..|hs| - 1], row);
      var h := hs[|hs| - 1];
      if h.stock in row {
        assert row[h.stock] * h.shares as real >= 0.0;
      }
    }
  }

  /** Positive cash, positive equity points, and no trade without an equity point. */
  predicate Healthy(p: Portfolio) {
    p.cash > 0.0 && Solvent(p.holdings)
    && (forall k :: 0 <= k < |p.equity| ==> p.equity[k].value > 0.0)
    && (|p.trades| > 0 ==> |p.equity| > 0)
  }

  lemma AppendPositivePoint(equity: seq<EquityPoint>, pt: EquityPoint)
    requires forall k :: 0 <= k < |equity| ==> equity[k].value > 0.0
    requires pt.value > 0.0
    ensures forall k :: 0 <= k < |equity + [pt]| ==> (equity + [pt])[k].value > 0.0
  {
  }

  lemma TradingDayHealthy(initial: real, data: PriceData, strategy: Day -> seq<Signal>, p: Portfolio, day: Day)
    requires initial > 0.0 && NonNegativePrices(data) && SaneSuggestions(strategy)
    requires WellFormed(p.holdings) && Healthy(p)
    requires day in data.rows && strategy(day) != []
    ensures Healthy(DayStep(initial, data, strategy, p, day))
  {
    var q := DayStep(initial, data, strategy, p, day);
    var signals := strategy(day);
    var row := data.rows[day];
    var book := Entries(initial, row, day, Book(p.cash, p.holdings), signals);
    EntriesSolvent(initial, row, day, Book(p.cash, p.holdings), signals);
    var ledger := Exits(row, day, signals, Ledger(book.cash, p.trades, []), book.holdings);
    ExitsSolvent(row, day, signals, Ledger(book.cash, p.trades, []), book.holdings);
    var kept := Without(book.holdings, ledger.removed);
    WithoutMembers(book.holdings, ledger.removed);
    assert q.cash == ledger.cash && q.holdings == kept;
    HoldingValueNonNegative(kept, row);
    AppendPositivePoint(p.equity, EquityPoint(day, ledger.cash + HoldingValue(kept, row)));
  }

  lemma DayStepHealthy(initial: real, data: PriceData, strategy: Day -> seq<Signal>, p: Portfolio, day: Day)
    requires initial > 0.0 && NonNegativePrices(data) && SaneSuggestions(strategy)
    requires WellFormed(p.holdings) && Healthy(p)
    ensures Healthy(DayStep(initial, data, strategy, p, day))
  {
    if day in data.rows {
      if strategy(day) != [] {
        TradingDayHealthy(initial, data, strategy, p, day);
      } else {
        AppendPositivePoint(p.equity, EquityPoint(day, p.cash));
      }
    }
  }

  /**
   * With a positive initial capital, non-negative prices and sane BUY
   * suggestions, the cash and every equity point stay positive, and a run
   * with a trade has an equity point.
   */
  lemma {:induction false} RunDaysHealthy(initial: real, data: PriceData, strategy: Day -> seq<Signal>, start: Day, day: Day)
    requires initial > 0.0 && NonNegativePrices(data) && SaneSuggestions(strategy)
    ensures Healthy(RunDays(initial, data, strategy, start, day))
    decreases day - start
  {
    if day > start {
      RunDaysHealthy(initial, data, strategy, start, day - 1);
      DayStepHealthy(initial, data, strategy, RunDays(initial, data, strategy, start, day - 1), day - 1);
    }
  }
}
