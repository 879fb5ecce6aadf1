/**
 * The performance metrics of src/backtest/backtest_engine.py (_calculate_metrics):
 * trade counts, win rate, total return, the guarded annual return and the
 * maximum drawdown against the running maximum of the equity curve.
 */
module BacktestMetrics {
  import opened BacktestRecords

  // ---------------------------------------------------------------------------
  // Trade counts
  // ---------------------------------------------------------------------------

  /** Trades with a positive pnl. */
  function CountWinning(trades: seq<Trade>): (n: nat)
    ensures n <= |trades|
  {
    if trades == [] then 0
    else CountWinning(trades[..|trades| - 1]) + (if trades[|trades| - 1].pnl > 0.0 then 1 else 0)
  }

  /** Trades with a pnl of 0 or less. */
  function CountLosing(trades: seq<Trade>): (n: nat)
    ensures n <= |trades|
  {
    if trades == [] then 0
    else CountLosing(trades[..|trades| - 1]) + (if trades[|trades| - 1].pnl <= 0.0 then 1 else 0)
  }

  /** Every trade is either winning or losing, never both. */
  lemma {:induction false} WinningPlusLosing(trades: seq<Trade>)
    ensures CountWinning(trades) + CountLosing(trades) == |trades|
  {
    if trades != [] {
      WinningPlusLosing(trades[..|trades| - 1]);
    }
  }

  // ---------------------------------------------------------------------------
  // Drawdown
  // ---------------------------------------------------------------------------

  /** The values of the equity curve, point by point. */
  function ValuesOf(curve: seq<EquityPoint>): seq<real> {
    seq(|curve|, i requires 0 <= i < |curve| => curve[i].value)
  }

  predicate Positive(vs: seq<real>) {
    forall i :: 0 <= i < |vs| ==> vs[i] > 0.0
  }

  /** The running maximum (cummax) at the last position: the largest value so far. */
  function Peak(vs: seq<real>): (m: real)
    requires |vs| > 0
    ensures m in vs
    ensures forall i :: 0 <= i < |vs| ==> vs[i] <= m
  {
    if |vs| == 1 then vs[0]
    else
      var p := Peak(vs[..|vs| - 1]);
      var last := vs[|vs| - 1];
      assert vs == vs[..|vs| - 1] + [last];
      if last > p then last else p
  }

  /** (v - m) / m with v <= m and both positive lies in (-1, 0]. */
  lemma RelativeDropBounds(v: real, m: real)
    requires 0.0 < v <= m
    ensures -1.0 < (v - m) / m <= 0.0
  {
    var d := (v - m) / m;
    assert d * m == v - m;
    assert (d + 1.0) * m == v;
  }

  /** The relative distance of v below the maximum m. */
  function Drop(v: real, m: real): (d: real)
    requires 0.0 < v <= m
    ensures -1.0 < d <= 0.0
    ensures d == 0.0 <==> v == m
  {
    RelativeDropBounds(v, m);
    (v - m) / m
  }

  /** Drawdown at position i: the relative distance below the running maximum. */
  function DrawdownAt(vs: seq<real>, i: int): (d: real)
    requires Positive(vs) && 0 <= i < |vs|
    ensures -1.0 < d <= 0.0
  {
    var m := Peak(vs[..i + 1]);
    assert vs[..i + 1][i] == vs[i];
    Drop(vs[i], m)
  }

  /** The drawdown at a position depends only on the curve up to it. */
  lemma DrawdownOfPrefix(vs: seq<real>, k: int, i: int)
    requires Positive(vs) && 0 <= i < k <= |vs|
    ensures Positive(vs[..k]) && DrawdownAt(vs[..k], i) == DrawdownAt(vs, i)
  {
    assert vs[..k][..i + 1] == vs[..i + 1];
  }

  /** The deepest drawdown of the curve (the minimum of the drawdown series). */
  function MaxDrawdown(vs: seq<real>): (d: real)
    requires |vs| > 0 && Positive(vs)
    ensures -1.0 < d <= 0.0
    ensures forall i :: 0 <= i < |vs| ==> d <= DrawdownAt(vs, i)
    ensures exists i :: 0 <= i < |vs| && d == DrawdownAt(vs, i)
  {
    var n := |vs|;
    if n == 1 then DrawdownAt(vs, 0)
    else
      var before := MaxDrawdown(vs[..n - 1]);
      var here := DrawdownAt(vs, n - 1);
      MaxDrawdownStep(vs, vs[..n - 1], before);
      if here < before then here else before
  }

  lemma MaxDrawdownStep(vs: seq<real>, init: seq<real>, before: real)
    requires |vs| > 1 && Positive(vs) && init == vs[..|vs| - 1] && Positive(init)
    requires forall i :: 0 <= i < |init| ==> before <= DrawdownAt(init, i)
    requires exists i :: 0 <= i < |init| && before == DrawdownAt(init, i)
    ensures forall i :: 0 <= i < |init| ==> before <= DrawdownAt(vs, i)
    ensures exists i :: 0 <= i < |init| && before == DrawdownAt(vs, i)
  {
    forall i | 0 <= i < |init|
      ensures DrawdownAt(init, i) == DrawdownAt(vs, i)
    {
      DrawdownOfPrefix(vs, |init|, i);
    }
    var k :| 0 <= k < |init| && before == DrawdownAt(init, k);
    assert before == DrawdownAt(vs, k);
  }

  predicate NonDecreasing(vs: seq<real>) {
    forall i, j :: 0 <= i < j < |vs| ==> vs[i] <= vs[j]
  }

  lemma PeakOfNonDecreasing(vs: seq<real>)
    requires |vs| > 0 && NonDecreasing(vs)
    ensures Peak(vs) == vs[|vs| - 1]
  {
    var m := Peak(vs);
    var k :| 0 <= k < |vs| && vs[k] == m;
    if k < |vs| - 1 {
      assert vs[k] <= vs[|vs| - 1];
    }
  }

  /** A curve that never falls has no drawdown. */
  lemma NoDrawdownWhenNonDecreasing(vs: seq<real>)
    requires |vs| > 0 && Positive(vs) && NonDecreasing(vs)
    ensures MaxDrawdown(vs) == 0.0
  {
    forall i | 0 <= i < |vs|
      ensures DrawdownAt(vs, i) == 0.0
    {
      var prefix := vs[..i + 1];
      assert NonDecreasing(prefix);
      PeakOfNonDecreasing(prefix);
      assert Peak(prefix) == vs[i];
    }
  }

  /** Halving from the peak and recovering: the drawdown is -50%. */
  lemma HalvingDrawdownExample()
    ensures MaxDrawdown([100.0, 50.0, 100.0]) == -0.5
  {
    var vs := [100.0, 50.0, 100.0];
    assert vs[..1] == [100.0];
    assert vs[..2] == [100.0, 50.0] && vs[..2][..1] == [100.0];
    assert vs[..3] == vs && vs[..3][..2] == [100.0, 50.0];
    assert DrawdownAt(vs, 0) == 0.0;
    assert DrawdownAt(vs, 1) == -0.5;
    assert DrawdownAt(vs, 2) == 0.0;
  }

  // ---------------------------------------------------------------------------
  // The results record
  // ---------------------------------------------------------------------------

  /** The relative gain of `final` over `initial` scales `initial` back to `final`. */
  lemma RelativeGain(final: real, initial: real, gain: real)
    requires initial > 0.0 && gain == (final - initial) / initial
    ensures final - initial == initial * gain
    ensures gain > 0.0 <==> final > initial
  {
    assert gain * initial == final - initial;
  }

  /** A share of a positive whole lies in [0, 1]. */
  lemma ShareBounds(part: nat, whole: nat)
    requires 0 < whole && part <= whole
    ensures 0.0 <= part as real / whole as real <= 1.0
    ensures (part as real / whole as real) * (whole as real) == part as real
  {
    var r := part as real / whole as real;
    assert r * (whole as real) == part as real;
    assert (1.0 - r) * (whole as real) == (whole - part) as real;
  }

  /**
   * The compounded yearly return over `days` calendar days, 0 when the period
   * is not positive. `pow` stands for the floating-point power.
   */
  function AnnualReturn(final: real, initial: real, days: int, pow: (real, real) -> real): (r: real)
    requires initial > 0.0
    ensures days <= 0 ==> r == 0.0
  {
    var years := days as real / 365.0;
    if days > 0 then pow(final / initial, 1.0 / years) - 1.0 else 0.0
  }

  /** The maximum drawdown of an equity curve. */
  function CurveDrawdown(equity: seq<EquityPoint>): (d: real)
    requires |equity| > 0 && Positive(ValuesOf(equity))
    ensures -1.0 < d <= 0.0
  {
    MaxDrawdown(ValuesOf(equity))
  }

  /**
   * The metrics of a finished run. The fractional power of the annual return
   * is a floating-point operation outside this model: `pow` stands for it.
   */
  function CalculateMetrics(initial: real, start: Day, end: Day, trades: seq<Trade>,
                            equity: seq<EquityPoint>, pow: (real, real) -> real): (r: BacktestResults)
    requires initial > 0.0
    requires |trades| > 0 ==> |equity| > 0 && Positive(ValuesOf(equity))
    ensures r.startDay == start && r.endDay == end && r.initialCapital == initial
    ensures r.trades == trades && r.equityCurve == equity && r.totalTrades == |trades|
    ensures |trades| == 0 ==>
              r.finalCapital == (if |equity| > 0 then equity[|equity| - 1].value else initial)
              && r.winningTrades == 0 && r.losingTrades == 0 && r.winRate == 0.0
              && r.totalReturn == 0.0 && r.annualReturn == 0.0 && r.maxDrawdown == 0.0
    ensures |trades| > 0 ==> r == TradedMetrics(initial, start, end, trades, equity, pow)
  {
    if |trades| == 0 then
      BacktestResults(start, end, initial,
                      if |equity| > 0 then equity[|equity| - 1].value else initial,
                      0, 0, 0, 0.0, 0.0, 0.0, 0.0, trades, equity)
    else
      TradedMetrics(initial, start, end, trades, equity, pow)
  }

  /** The metrics of a run with at least one closed trade. */
  function TradedMetrics(initial: real, start: Day, end: Day, trades: seq<Trade>,
                         equity: seq<EquityPoint>, pow: (real, real) -> real): (r: BacktestResults)
    requires initial > 0.0 && |trades| > 0 && |equity| > 0 && Positive(ValuesOf(equity))
    ensures r.startDay == start && r.endDay == end && r.initialCapital == initial
    ensures r.trades == trades && r.equityCurve == equity && r.totalTrades == |trades|
    ensures r.finalCapital == equity[|equity| - 1].value
  {
    var final := equity[|equity| - 1].value;
    var winning := CountWinning(trades);
    BacktestResults(start, end, initial, final, |trades|, winning, CountLosing(trades),
                    winning as real / |trades| as real, (final - initial) / initial,
                    AnnualReturn(final, initial, end - start, pow), CurveDrawdown(equity), trades, equity)
  }

  /** Winning and losing trades partition the log. */
  lemma TradeCounts(initial: real, start: Day, end: Day, trades: seq<Trade>,
                    equity: seq<EquityPoint>, pow: (real, real) -> real)
    requires initial > 0.0 && |trades| > 0 && |equity| > 0 && Positive(ValuesOf(equity))
    ensures var r := TradedMetrics(initial, start, end, trades, equity, pow);
            r.winningTrades == CountWinning(trades) && r.losingTrades == CountLosing(trades)
            && r.winningTrades + r.losingTrades == r.totalTrades
  {
    WinningPlusLosing(trades);
  }

  /** The win rate is the share of winning trades, within [0, 1]. */
  lemma WinRateBounds(initial: real, start: Day, end: Day, trades: seq<Trade>,
                      equity: seq<EquityPoint>, pow: (real, real) -> real)
    requires initial > 0.0 && |trades| > 0 && |equity| > 0 && Positive(ValuesOf(equity))
    ensures var r := TradedMetrics(initial, start, end, trades, equity, pow);
            0.0 <= r.winRate <= 1.0 && r.winRate * (|trades| as real) == r.winningTrades as real
  {
    var r := TradedMetrics(initial, start, end, trades, equity, pow);
    var w := CountWinning(trades);
    assert r.winRate == w as real / |trades| as real && r.winningTrades == w;
    ShareBounds(w, |trades|);
  }

  /** The final capital is the initial capital grown by the total return. */
  lemma ReturnOnCapital(initial: real, start: Day, end: Day, trades: seq<Trade>,
                        equity: seq<EquityPoint>, pow: (real, real) -> real, r: BacktestResults)
    requires initial > 0.0 && |trades| > 0 && |equity| > 0 && Positive(ValuesOf(equity))
    requires r == TradedMetrics(initial, start, end, trades, equity, pow)
    ensures r.finalCapital - initial == initial * r.totalReturn
    ensures r.totalReturn > 0.0 <==> r.finalCapital > initial
  {
    RelativeGain(r.finalCapital, initial, r.totalReturn);
  }

  /** A period of no positive length has no annualised return. */
  lemma AnnualReturnGuard(initial: real, start: Day, end: Day, trades: seq<Trade>,
                          equity: seq<EquityPoint>, pow: (real, real) -> real)
    requires initial > 0.0 && |trades| > 0 && |equity| > 0 && Positive(ValuesOf(equity))
    requires end <= start
    ensures TradedMetrics(initial, start, end, trades, equity, pow).annualReturn == 0.0
  {
  }

  /** The reported drawdown is the deepest fall below the running maximum, in (-1, 0]. */
  lemma DrawdownOfRun(initial: real, start: Day, end: Day, trades: seq<Trade>,
                      equity: seq<EquityPoint>, pow: (real, real) -> real)
    requires initial > 0.0 && |trades| > 0 && |equity| > 0 && Positive(ValuesOf(equity))
    ensures var r := TradedMetrics(initial, start, end, trades, equity, pow);
            r.maxDrawdown == MaxDrawdown(ValuesOf(equity)) && -1.0 < r.maxDrawdown <= 0.0
  {
  }
}
