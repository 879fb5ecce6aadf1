/**
 * Technical indicators of src/margin_momentum_analyzer.py (class TechnicalIndicators):
 * the Wilder-smoothed RSI and the trailing simple moving average, over exact reals.
 */
module Indicators {
  import opened Wrappers

  // ---------------------------------------------------------------------------
  // RSI: specification
  // ---------------------------------------------------------------------------

  /** Price change at index `i` (pandas `diff`); index 0 has no change. */
  function Delta(prices: seq<real>, i: nat): real
    requires 1 <= i < |prices|
  {
    prices[i] - prices[i - 1]
  }

  /** Sum of the non-negative changes at indices 1 .. k-1 (the seed's `seed[seed >= 0].sum()`). */
  function SeedGains(prices: seq<real>, k: nat): (r: real)
    requires k <= |prices|
    ensures r >= 0.0
  {
    if k <= 1 then 0.0
    else SeedGains(prices, k - 1) + (if Delta(prices, k - 1) >= 0.0 then Delta(prices, k - 1) else 0.0)
  }

  /** Magnitude of the negative changes at indices 1 .. k-1 (the seed's `-seed[seed < 0].sum()`). */
  function SeedLosses(prices: seq<real>, k: nat): (r: real)
    requires k <= |prices|
    ensures r >= 0.0
  {
    if k <= 1 then 0.0
    else SeedLosses(prices, k - 1) + (if Delta(prices, k - 1) < 0.0 then -Delta(prices, k - 1) else 0.0)
  }

  /** How many prices the seed slice `deltas[:period + 1]` covers. */
  function SeedEnd(n: nat, period: nat): (k: nat)
    ensures k <= n && k <= period + 1
    ensures k == n || k == period + 1
  {
    if period + 1 < n then period + 1 else n
  }

  /** Smoothed average gain and loss. */
  datatype Averages = Averages(up: real, down: real)

  predicate NonNegative(a: Averages) {
    a.up >= 0.0 && a.down >= 0.0
  }

  /** The seed averages: both sums are divided by `period`, whatever the number of changes. */
  function SeedAverages(prices: seq<real>, period: nat): (a: Averages)
    requires period >= 1
    ensures NonNegative(a)
  {
    var k := SeedEnd(|prices|, period);
    Averages(SeedGains(prices, k) / period as real, SeedLosses(prices, k) / period as real)
  }

  /** Wilder's running mean: `(avg * (period - 1) + value) / period`. */
  function WilderMean(avg: real, value: real, period: nat): (r: real)
    requires period >= 1 && avg >= 0.0 && value >= 0.0
    ensures r >= 0.0
  {
    (avg * (period - 1) as real + value) / period as real
  }

  /** One Wilder step; a zero change counts as a zero loss. */
  function Smooth(a: Averages, delta: real, period: nat): (r: Averages)
    requires period >= 1 && NonNegative(a)
    ensures NonNegative(r)
  {
    var upval := if delta > 0.0 then delta else 0.0;
    var downval := if delta > 0.0 then 0.0 else -delta;
    Averages(WilderMean(a.up, upval, period), WilderMean(a.down, downval, period))
  }

  /** The averages in force at index `i`: the seed before `period`, then one smoothing step per index. */
  function AveragesAt(prices: seq<real>, period: nat, i: nat): (a: Averages)
    requires period >= 1 && i < |prices|
    ensures NonNegative(a)
  {
    if i < period then SeedAverages(prices, period)
    else Smooth(AveragesAt(prices, period, i - 1), Delta(prices, i), period)
  }

  /**
   * The source's RSI formula: RS is taken as 0 when the average loss is 0, so
   * that case yields 0. Otherwise it is the usual 100 * up / (up + down).
   */
  function RsiFromAverages(a: Averages): (r: real)
    requires NonNegative(a)
    ensures 0.0 <= r < 100.0
    ensures a.down == 0.0 ==> r == 0.0
    ensures a.down != 0.0 ==> r * (a.up + a.down) == 100.0 * a.up
  {
    var rs := if a.down != 0.0 then a.up / a.down else 0.0;
    100.0 - 100.0 / (1.0 + rs)
  }

  /** RSI value at index `i`. */
  function RsiAt(prices: seq<real>, period: nat, i: nat): (r: real)
    requires period >= 1 && i < |prices|
    ensures 0.0 <= r <= 100.0
  {
    RsiFromAverages(AveragesAt(prices, period, i))
  }

  // ---------------------------------------------------------------------------
  // RSI: the computation (calculate_rsi)
  // ---------------------------------------------------------------------------

  /**
   * Fills an array of the input's length: the first `period` slots get the
   * seed RSI, every later slot one smoothing step more.
   */
  method CalculateRsi(prices: seq<real>, period: nat) returns (rsi: seq<real>)
    requires period >= 1
    ensures |rsi| == |prices|
    ensures forall i :: 0 <= i < |prices| ==> rsi[i] == RsiAt(prices, period, i)
    ensures forall i :: 0 <= i < |rsi| && i < period ==>
              rsi[i] == RsiFromAverages(SeedAverages(prices, period))
    ensures forall i :: 0 <= i < |rsi| ==> 0.0 <= rsi[i] <= 100.0
  {
    var n := |prices|;
    var k := SeedEnd(n, period);
    var up := SeedGains(prices, k) / period as real;
    var down := SeedLosses(prices, k) / period as real;
    var values := new real[n];
    var seedRsi := RsiFromAverages(Averages(up, down));
    forall j | 0 <= j < n && j < period {
      values[j] := seedRsi;
    }
    var i := period;
    while i < n
      invariant period <= i
      invariant i <= n || i == period
      invariant i <= n ==> Averages(up, down) == AveragesAt(prices, period, i - 1)
      invariant forall j :: 0 <= j < n && j < period ==> values[j] == seedRsi
      invariant forall j :: 0 <= j < n && j < i ==> values[j] == RsiAt(prices, period, j)
    {
      ghost var before := AveragesAt(prices, period, i - 1);
      var delta := Delta(prices, i);
      var upval, downval;
      if delta > 0.0 {
        upval, downval := delta, 0.0;
      } else {
        upval, downval := 0.0, -delta;
      }
      up := WilderMean(up, upval, period);
      down := WilderMean(down, downval, period);
      assert Averages(up, down) == Smooth(before, delta, period);
      values[i] := RsiFromAverages(Averages(up, down));
      i := i + 1;
    }
    rsi := values[..];
  }

  // ---------------------------------------------------------------------------
  // RSI on a series that never falls (the degenerate branch)
  // ---------------------------------------------------------------------------

  predicate NonDecreasing(prices: seq<real>) {
    forall j :: 1 <= j < |prices| ==> prices[j - 1] <= prices[j]
  }

  lemma {:induction false} SeedLossesVanishOnRise(prices: seq<real>, k: nat)
    requires k <= |prices| && NonDecreasing(prices)
    ensures SeedLosses(prices, k) == 0.0
  {
    if k > 1 {
      SeedLossesVanishOnRise(prices, k - 1);
    }
  }

  /** A series that never falls has no average loss at any index. */
  lemma {:induction false} NoLossOnRise(prices: seq<real>, period: nat, i: nat)
    requires period >= 1 && i < |prices| && NonDecreasing(prices)
    ensures AveragesAt(prices, period, i).down == 0.0
  {
    if i < period {
      SeedLossesVanishOnRise(prices, SeedEnd(|prices|, period));
    } else {
      NoLossOnRise(prices, period, i - 1);
    }
  }

  /** As written, a series that never falls reads as RSI 0 ("oversold") everywhere. */
  lemma RisingPricesGiveZeroRsi(prices: seq<real>, period: nat, i: nat)
    requires period >= 1 && i < |prices| && NonDecreasing(prices)
    ensures RsiAt(prices, period, i) == 0.0
  {
    NoLossOnRise(prices, period, i);
  }

  /** Wilder's RSI: 100 when there is no average loss, the source's formula otherwise. */
  function WilderRsiFromAverages(a: Averages): (r: real)
    requires NonNegative(a)
    ensures 0.0 <= r <= 100.0
    ensures a.down != 0.0 ==> r == RsiFromAverages(a)
    ensures a.up > 0.0 && a.down == 0.0 ==> r > RsiFromAverages(a)
  {
    if a.down == 0.0 then 100.0 else 100.0 - 100.0 / (1.0 + a.up / a.down)
  }

  function WilderRsiAt(prices: seq<real>, period: nat, i: nat): (r: real)
    requires period >= 1 && i < |prices|
    ensures 0.0 <= r <= 100.0
  {
    WilderRsiFromAverages(AveragesAt(prices, period, i))
  }

  /** Corrected: a series that never falls reads as RSI 100 everywhere. */
  lemma RisingPricesGiveFullWilderRsi(prices: seq<real>, period: nat, i: nat)
    requires period >= 1 && i < |prices| && NonDecreasing(prices)
    ensures WilderRsiAt(prices, period, i) == 100.0
  {
    NoLossOnRise(prices, period, i);
  }

  /** The prices 10, 11, 12 with period 2: RSI 0 as written, 100 as intended. */
  lemma RsiRisingCounterexample()
    ensures RsiAt([10.0, 11.0, 12.0], 2, 2) == 0.0
    ensures WilderRsiAt([10.0, 11.0, 12.0], 2, 2) == 100.0
  {
    var prices := [10.0, 11.0, 12.0];
    assert NonDecreasing(prices);
    RisingPricesGiveZeroRsi(prices, 2, 2);
    RisingPricesGiveFullWilderRsi(prices, 2, 2);
  }

  // ---------------------------------------------------------------------------
  // Moving average (calculate_ma)
  // ---------------------------------------------------------------------------

  function Sum(s: seq<real>): real {
    if s == [] then 0.0 else Sum(s[..|s| - 1]) + s[|s| - 1]
  }

  /**
   * `prices.rolling(window=period).mean()`: undefined before `period - 1`,
   * then the mean of the `period` most recent prices.
   */
  function MovingAverage(prices: seq<real>, period: nat): (ma: seq<Option<real>>)
    requires period >= 1
    ensures |ma| == |prices|
    ensures forall i :: 0 <= i < |prices| ==> (ma[i].Some? <==> i + 1 >= period)
  {
    seq(|prices|, i requires 0 <= i < |prices| =>
      if i + 1 < period then None else Some(Sum(prices[i + 1 - period .. i + 1]) / period as real))
  }

  lemma {:induction false} SumBounds(s: seq<real>, lo: real, hi: real)
    requires forall j :: 0 <= j < |s| ==> lo <= s[j] <= hi
    ensures |s| as real * lo <= Sum(s) <= |s| as real * hi
  {
    if s != [] {
      SumBounds(s[..|s| - 1], lo, hi);
    }
  }

  lemma {:induction false} SumFront(s: seq<real>)
    requires |s| > 0
    ensures Sum(s) == s[0] + Sum(s[1..])
  {
    if |s| > 1 {
      SumFront(s[..|s| - 1]);
      assert s[..|s| - 1][1..] == s[1..][..|s[1..]| - 1];
    }
  }

  /** A defined moving average lies within any bounds on its window. */
  lemma MovingAverageWithinWindow(prices: seq<real>, period: nat, i: nat, lo: real, hi: real)
    requires period >= 1 && i + 1 >= period && i < |prices|
    requires forall j :: i + 1 - period <= j <= i ==> lo <= prices[j] <= hi
    ensures MovingAverage(prices, period)[i].Some?
    ensures lo <= MovingAverage(prices, period)[i].value <= hi
  {
    var w := prices[i + 1 - period .. i + 1];
    SumBounds(w, lo, hi);
    var p := period as real;
    assert MovingAverage(prices, period)[i].value == Sum(w) / p;
    assert p * lo <= Sum(w) <= p * hi;
  }

  /** Sliding the window one step adds the newest price and drops the oldest. */
  lemma MovingAverageSlide(prices: seq<real>, period: nat, i: nat)
    requires period >= 1 && period <= i < |prices|
    ensures MovingAverage(prices, period)[i].Some? && MovingAverage(prices, period)[i - 1].Some?
    ensures MovingAverage(prices, period)[i].value
         == MovingAverage(prices, period)[i - 1].value + (prices[i] - prices[i - period]) / period as real
  {
    var now := prices[i + 1 - period .. i + 1];
    var before := prices[i - period .. i];
    assert now[..|now| - 1] == prices[i + 1 - period .. i];
    assert before[1..] == prices[i + 1 - period .. i];
    SumFront(before);
    assert Sum(now) == Sum(before) - prices[i - period] + prices[i];
  }
}
