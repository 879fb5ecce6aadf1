/**
 * Signal detection of src/margin_momentum_analyzer.py (class MarginMomentumAnalyzer):
 * the per-instrument margin/short anomaly rule, the detection loop over the
 * price columns, and the post-filter that keeps a price band and orders by grade.
 */
module Analyzer {
  import opened Wrappers
  import opened Config

  type StockId = string

  datatype SignalType = Buy | Sell

  /** S級, A級 and B級 grade buys; URGENT and HIGH grade sells. */
  datatype Grade = GradeS | GradeA | GradeB | Urgent | High

  /**
   * One signal record. The percent-change columns hold fractions (the source
   * multiplies by 100 and rounds for display); `marginChange` is set on BUY
   * records, `shortChange` on SELL records, and only BUY records carry the
   * expected return, stop-loss and holding-days suggestions.
   */
  datatype Signal = Signal(
    stock: StockId,
    date: int,
    kind: SignalType,
    grade: Grade,
    price: real,
    rsi: real,
    ma20: real,
    marginBalance: real,
    shortBalance: real,
    marginChange: Option<real>,
    shortChange: Option<real>,
    marginShortRatio: real,
    expectedReturn: Option<real>,
    stopLoss: Option<real>,
    holdingDays: Option<int>)

  /**
   * What the rule reads about one instrument on the analysis date. `None`
   * stands for a NaN cell or a missing column: for the balances, a column
   * missing from that margin table; for `rsi` and `ma20`, no value.
   */
  datatype Instrument = Instrument(
    stock: StockId,
    price: Option<real>,
    marginToday: Option<real>,
    marginPrev: Option<real>,
    shortToday: Option<real>,
    shortPrev: Option<real>,
    rsi: Option<real>,
    ma20: Option<real>)

  // Grade thresholds written into the rule itself.
  const StrongMarginIncrease: real := 0.15
  const DeepOversold: real := 25.0
  const DeepBelowMa: real := -0.05
  const StrongShortIncrease: real := 0.15
  const DeepOverbought: real := 75.0

  // Suggestions attached to BUY records.
  const ExpectedReturnS: real := 15.0
  const ExpectedReturnA: real := 10.0
  const SuggestedStopLoss: real := -8.0
  const SuggestedHoldingDays: int := 5

  // ---------------------------------------------------------------------------
  // Ratios with their fallbacks
  // ---------------------------------------------------------------------------

  /**
   * Day-over-day change of a balance. A missing previous balance defaults to
   * today's (a 0 change); a previous balance <= 0 gives 0.
   */
  function PctChange(today: real, prev: Option<real>): (r: real)
    ensures prev.None? ==> r == 0.0
    ensures prev.Some? && prev.value <= 0.0 ==> r == 0.0
    ensures prev.Some? && prev.value > 0.0 ==> r * prev.value == today - prev.value
  {
    var base := prev.GetOr(today);
    if base > 0.0 then (today - base) / base else 0.0
  }

  /** Short balance over margin balance, 0 when the margin balance is <= 0. */
  function ShortToMarginRatio(short: real, margin: real): (r: real)
    ensures margin <= 0.0 ==> r == 0.0
    ensures margin > 0.0 ==> r * margin == short
  {
    if margin > 0.0 then short / margin else 0.0
  }

  /** Relative distance of the price from MA20, 0 when MA20 is missing or <= 0. */
  function PriceVsMa(price: real, ma: Option<real>): (r: real)
    ensures ma.None? || ma.value <= 0.0 ==> r == 0.0
    ensures ma.Some? && ma.value > 0.0 ==> r * ma.value == price - ma.value
    ensures ma.Some? && ma.value > 0.0 ==> (r < 0.0 <==> price < ma.value) && (r > 0.0 <==> price > ma.value)
  {
    if ma.Some? && ma.value > 0.0 then (price - ma.value) / ma.value else 0.0
  }

  // ---------------------------------------------------------------------------
  // The rule
  // ---------------------------------------------------------------------------

  datatype Verdict = Verdict(kind: SignalType, grade: Grade)

  /**
   * BUY when margin change > 10%, RSI < 30 and price below MA20 (S when
   * > 15%, < 25 and more than 5% below, else A); otherwise SELL when short
   * change > 10%, RSI > 70 and price above MA20 (URGENT when > 15% and RSI
   * > 75, else HIGH). A missing RSI fails every comparison, as NaN does.
   */
  function Decide(marginChange: real, shortChange: real, rsi: Option<real>, pvm: real): (r: Option<Verdict>)
    ensures r.Some? ==> rsi.Some? && pvm != 0.0
  {
    if rsi.Some? && marginChange > MarginIncreaseThreshold && rsi.value < RsiOversold && pvm < 0.0 then
      Some(Verdict(Buy,
        if marginChange > StrongMarginIncrease && rsi.value < DeepOversold && pvm < DeepBelowMa
        then GradeS else GradeA))
    else if rsi.Some? && shortChange > ShortIncreaseThreshold && rsi.value > RsiOverbought && pvm > 0.0 then
      Some(Verdict(Sell,
        if shortChange > StrongShortIncrease && rsi.value > DeepOverbought then Urgent else High))
    else
      None
  }

  /** Instruments the rule looks at: a non-zero latest price and a column in today's margin table. */
  predicate Eligible(x: Instrument) {
    x.price.Some? && x.price.value != 0.0 && x.marginToday.Some?
  }

  function MarginChangeOf(x: Instrument): real
    requires Eligible(x)
  {
    PctChange(x.marginToday.value, x.marginPrev)
  }

  /** A missing short column reads as a 0 balance. */
  function ShortChangeOf(x: Instrument): real {
    PctChange(x.shortToday.GetOr(0.0), x.shortPrev)
  }

  function PriceVsMa20Of(x: Instrument): real
    requires Eligible(x)
  {
    PriceVsMa(x.price.value, x.ma20)
  }

  /** The rule's verdict on one instrument, if any. */
  function VerdictOf(x: Instrument): (r: Option<Verdict>)
    ensures r.Some? ==> Eligible(x) && x.rsi.Some? && x.ma20.Some?
  {
    if !Eligible(x) then None
    else Decide(MarginChangeOf(x), ShortChangeOf(x), x.rsi, PriceVsMa20Of(x))
  }

  /** The record the rule emits for one instrument, if any. */
  function Classify(x: Instrument, date: int): (r: Option<Signal>)
    ensures r.Some? <==> VerdictOf(x).Some?
    ensures r.Some? ==> r.value.kind == VerdictOf(x).value.kind && r.value.grade == VerdictOf(x).value.grade
    ensures r.Some? ==> Eligible(x) && r.value.stock == x.stock && r.value.date == date
                        && x.price == Some(r.value.price)
                        && x.rsi == Some(r.value.rsi) && x.ma20 == Some(r.value.ma20)
    ensures r.Some? && r.value.kind == Buy ==>
              r.value.grade in {GradeS, GradeA}
              && r.value.expectedReturn == Some(if r.value.grade == GradeS then ExpectedReturnS else ExpectedReturnA)
              && r.value.stopLoss == Some(SuggestedStopLoss)
              && r.value.holdingDays == Some(SuggestedHoldingDays)
    ensures r.Some? && r.value.kind == Sell ==>
              r.value.grade in {Urgent, High}
              && r.value.expectedReturn.None? && r.value.stopLoss.None? && r.value.holdingDays.None?
  {
    match VerdictOf(x)
    case None => None
    case Some(v) =>
      var margin := x.marginToday.value;
      var short := x.shortToday.GetOr(0.0);
      var buy := v.kind == Buy;
      Some(Signal(
        x.stock, date, v.kind, v.grade, x.price.value, x.rsi.value, x.ma20.value, margin, short,
        if buy then Some(MarginChangeOf(x)) else None,
        if buy then None else Some(ShortChangeOf(x)),
        ShortToMarginRatio(short, margin),
        if buy then Some(if v.grade == GradeS then ExpectedReturnS else ExpectedReturnA) else None,
        if buy then Some(SuggestedStopLoss) else None,
        if buy then Some(SuggestedHoldingDays) else None))
  }

  // ---------------------------------------------------------------------------
  // Properties of the rule
  // ---------------------------------------------------------------------------

  /** No record without a usable price and a column in today's margin table. */
  lemma SkippedInstruments(x: Instrument, date: int)
    requires x.price.None? || x.price == Some(0.0) || x.marginToday.None?
    ensures Classify(x, date).None?
  {
  }

  /** A missing RSI or MA20 never produces a record. */
  lemma MissingIndicatorNoSignal(x: Instrument, date: int)
    requires x.rsi.None? || x.ma20.None?
    ensures Classify(x, date).None?
  {
  }

  /**
   * The balance fallbacks: without a previous margin balance there is no BUY,
   * without a previous short balance there is no SELL.
   */
  lemma MissingPreviousBalance(x: Instrument, date: int)
    ensures x.marginPrev.None? && Classify(x, date).Some? ==> Classify(x, date).value.kind == Sell
    ensures x.shortPrev.None? && Classify(x, date).Some? ==> Classify(x, date).value.kind == Buy
  {
  }

  /** BUY fires exactly when the three oversold conditions hold. */
  lemma BuyRule(x: Instrument, date: int)
    ensures (Classify(x, date).Some? && Classify(x, date).value.kind == Buy)
        <==> (Eligible(x) && x.rsi.Some? && MarginChangeOf(x) > MarginIncreaseThreshold
              && x.rsi.value < RsiOversold && PriceVsMa20Of(x) < 0.0)
    ensures (Classify(x, date).Some? && Classify(x, date).value.grade == GradeS)
        <==> (Eligible(x) && x.rsi.Some? && MarginChangeOf(x) > StrongMarginIncrease
              && x.rsi.value < DeepOversold && PriceVsMa20Of(x) < DeepBelowMa)
  {
  }

  /** SELL fires exactly when BUY does not and the three overbought conditions hold. */
  lemma SellRule(x: Instrument, date: int)
    ensures (Classify(x, date).Some? && Classify(x, date).value.kind == Sell)
        <==> (Eligible(x) && x.rsi.Some? && ShortChangeOf(x) > ShortIncreaseThreshold
              && x.rsi.value > RsiOverbought && PriceVsMa20Of(x) > 0.0)
    ensures (Classify(x, date).Some? && Classify(x, date).value.grade == Urgent)
        <==> (Eligible(x) && x.rsi.Some? && ShortChangeOf(x) > StrongShortIncrease
              && x.rsi.value > DeepOverbought && PriceVsMa20Of(x) > 0.0)
  {
  }

  /**
   * More extreme readings never weaken a BUY: a higher margin change, a lower
   * RSI and a price further below MA20 still buy, and an S stays an S.
   */
  lemma BuyIsMonotone(m: real, s: real, rsi: real, pvm: real, m': real, s': real, rsi': real, pvm': real)
    requires Decide(m, s, Some(rsi), pvm).Some? && Decide(m, s, Some(rsi), pvm).value.kind == Buy
    requires m' >= m && rsi' <= rsi && pvm' <= pvm
    ensures Decide(m', s', Some(rsi'), pvm').Some? && Decide(m', s', Some(rsi'), pvm').value.kind == Buy
    ensures Decide(m, s, Some(rsi), pvm).value.grade == GradeS ==> Decide(m', s', Some(rsi'), pvm').value.grade == GradeS
  {
  }

  /** Likewise for SELL: a higher short change, RSI and premium over MA20 still sell. */
  lemma SellIsMonotone(m: real, s: real, rsi: real, pvm: real, m': real, s': real, rsi': real, pvm': real)
    requires Decide(m, s, Some(rsi), pvm).Some? && Decide(m, s, Some(rsi), pvm).value.kind == Sell
    requires s' >= s && rsi' >= rsi && pvm' >= pvm
    ensures Decide(m', s', Some(rsi'), pvm').Some? && Decide(m', s', Some(rsi'), pvm').value.kind == Sell
    ensures Decide(m, s, Some(rsi), pvm).value.grade == Urgent ==> Decide(m', s', Some(rsi'), pvm').value.grade == Urgent
  {
  }

  /** A balance counted in a unit `c` times smaller. */
  function Scaled(o: Option<real>, c: real): Option<real> {
    if o.Some? then Some(c * o.value) else None
  }

  lemma PctChangeScales(today: real, prev: Option<real>, c: real)
    requires c > 0.0
    ensures PctChange(c * today, Scaled(prev, c)) == PctChange(today, prev)
  {
    if prev.Some? && prev.value > 0.0 {
      var p := prev.value;
      var r := PctChange(today, prev);
      var r' := PctChange(c * today, Some(c * p));
      assert c * p > 0.0;
      assert r' * (c * p) == c * today - c * p;
      assert c * (r' * p) == c * (today - p);
      assert r' * p == today - p;
      assert r * p == today - p;
    }
  }


  function Rescaled(x: Instrument, c: real): Instrument {
    x.(marginToday := Scaled(x.marginToday, c), marginPrev := Scaled(x.marginPrev, c),
       shortToday := Scaled(x.shortToday, c), shortPrev := Scaled(x.shortPrev, c))
  }

  lemma ShortChangeIgnoresScale(x: Instrument, c: real)
    requires c > 0.0
    ensures ShortChangeOf(Rescaled(x, c)) == ShortChangeOf(x)
  {
    assert Rescaled(x, c).shortToday.GetOr(0.0) == c * x.shortToday.GetOr(0.0);
    assert Rescaled(x, c).shortPrev == Scaled(x.shortPrev, c);
    PctChangeScales(x.shortToday.GetOr(0.0), x.shortPrev, c);
  }

  lemma MarginChangeIgnoresScale(x: Instrument, c: real)
    requires c > 0.0 && Eligible(x)
    ensures Eligible(Rescaled(x, c)) && MarginChangeOf(Rescaled(x, c)) == MarginChangeOf(x)
  {
    assert Rescaled(x, c).marginToday.value == c * x.marginToday.value;
    assert Rescaled(x, c).marginPrev == Scaled(x.marginPrev, c);
    PctChangeScales(x.marginToday.value, x.marginPrev, c);
  }

  /**
   * The rule reads balances only through their relative changes: scaling all
   * four balances by the same positive factor leaves the verdict unchanged.
   */
  lemma VerdictIgnoresBalanceScale(x: Instrument, c: real)
    requires c > 0.0
    ensures VerdictOf(Rescaled(x, c)) == VerdictOf(x)
  {
    ShortChangeIgnoresScale(x, c);
    if Eligible(x) {
      MarginChangeIgnoresScale(x, c);
      assert PriceVsMa20Of(Rescaled(x, c)) == PriceVsMa20Of(x);
    }
  }

  /** Margin change 20%, RSI 22, 8% below MA20: one BUY record graded S with 15 / -8 / 5. */
  lemma StrongBuyExample()
    ensures var x := Instrument("X", Some(92.0), Some(120.0), Some(100.0), Some(50.0), Some(50.0), Some(22.0), Some(100.0));
            var r := Classify(x, 0);
            r.Some? && r.value.kind == Buy && r.value.grade == GradeS
            && r.value.expectedReturn == Some(15.0) && r.value.stopLoss == Some(-8.0)
            && r.value.holdingDays == Some(5)
  {
    var x := Instrument("X", Some(92.0), Some(120.0), Some(100.0), Some(50.0), Some(50.0), Some(22.0), Some(100.0));
    assert MarginChangeOf(x) == 0.2;
    assert PriceVsMa20Of(x) == -0.08;
  }

  /** Short change 12%, RSI 72, 3% above MA20: one SELL record graded HIGH (RSI is not above 75). */
  lemma HighSellExample()
    ensures var x := Instrument("Y", Some(103.0), Some(100.0), Some(100.0), Some(112.0), Some(100.0), Some(72.0), Some(100.0));
            var r := Classify(x, 0);
            r.Some? && r.value.kind == Sell && r.value.grade == High
  {
    var x := Instrument("Y", Some(103.0), Some(100.0), Some(100.0), Some(112.0), Some(100.0), Some(72.0), Some(100.0));
    assert MarginChangeOf(x) == 0.0;
    assert ShortChangeOf(x) == 0.12;
    assert PriceVsMa20Of(x) == 0.03;
  }

  // ---------------------------------------------------------------------------
  // The detection loop (_detect_margin_anomalies)
  // ---------------------------------------------------------------------------

  function RecordOf(r: Option<Signal>): seq<Signal> {
    match r
    case Some(s) => [s]
    case None => []
  }

  /** Records of the instruments in price-column order, at most one each. */
  function DetectAll(xs: seq<Instrument>, date: int): (r: seq<Signal>)
    ensures |r| <= |xs|
  {
    if xs == [] then []
    else DetectAll(xs[..|xs| - 1], date) + RecordOf(Classify(xs[|xs| - 1], date))
  }

  /**
   * The loop over the price columns. Without rows in today's margin table no
   * instrument is looked at.
   */
  method DetectMarginAnomalies(marginTableHasRows: bool, xs: seq<Instrument>, date: int)
    returns (signals: seq<Signal>)
    ensures !marginTableHasRows ==> signals == []
    ensures marginTableHasRows ==> signals == DetectAll(xs, date)
  {
    signals := [];
    if !marginTableHasRows {
      return;
    }
    var i := 0;
    while i < |xs|
      invariant 0 <= i <= |xs|
      invariant signals == DetectAll(xs[..i], date)
    {
      var verdict := Classify(xs[i], date);
      if verdict.Some? {
        signals := signals + [verdict.value];
      }
      assert xs[..i + 1][..i] == xs[..i];
      i := i + 1;
    }
    assert xs[..i] == xs;
  }

  /** Every record is the rule's verdict on one of the instruments. */
  lemma {:induction false} DetectAllSound(xs: seq<Instrument>, date: int, s: Signal)
    requires s in DetectAll(xs, date)
    ensures exists k :: 0 <= k < |xs| && Classify(xs[k], date) == Some(s)
  {
    if xs != [] {
      var init := xs[..|xs| - 1];
      if s in DetectAll(init, date) {
        DetectAllSound(init, date, s);
        var k :| 0 <= k < |init| && Classify(init[k], date) == Some(s);
        assert xs[k] == init[k];
      } else {
        assert Classify(xs[|xs| - 1], date) == Some(s);
      }
    }
  }

  /** Every instrument the rule flags has its record in the output. */
  lemma {:induction false} DetectAllComplete(xs: seq<Instrument>, date: int, x: Instrument)
    requires x in xs && Classify(x, date).Some?
    ensures Classify(x, date).value in DetectAll(xs, date)
  {
    var init := xs[..|xs| - 1];
    if x != xs[|xs| - 1] {
      assert x in init;
      DetectAllComplete(init, date, x);
    }
  }

  predicate DistinctStocks(ss: seq<Signal>) {
    forall i, j :: 0 <= i < j < |ss| ==> ss[i].stock != ss[j].stock
  }

  lemma AppendFreshStock(prev: seq<Signal>, extra: seq<Signal>, stock: StockId)
    requires DistinctStocks(prev) && |extra| <= 1
    requires forall s :: s in prev ==> s.stock != stock
    requires forall s :: s in extra ==> s.stock == stock
    ensures DistinctStocks(prev + extra)
  {
    var r := prev + extra;
    forall i, j | 0 <= i < j < |r|
      ensures r[i].stock != r[j].stock
    {
      assert r[i] == prev[i] && prev[i] in prev;
      if j >= |prev| {
        assert r[j] == extra[j - |prev|] && r[j] in extra;
      } else {
        assert r[j] == prev[j];
      }
    }
  }

  /** Distinct price columns give records for distinct instruments. */
  lemma {:induction false} DetectAllOnePerInstrument(xs: seq<Instrument>, date: int)
    requires forall i, j :: 0 <= i < j < |xs| ==> xs[i].stock != xs[j].stock
    ensures DistinctStocks(DetectAll(xs, date))
  {
    if xs != [] {
      var init := xs[..|xs| - 1];
      var last := xs[|xs| - 1];
      DetectAllOnePerInstrument(init, date);
      var prev := DetectAll(init, date);
      forall s | s in prev
        ensures s.stock != last.stock
      {
        DetectAllSound(init, date, s);
        var k :| 0 <= k < |init| && Classify(init[k], date) == Some(s);
        assert xs[k] == init[k];
        assert s.stock == xs[k].stock;
      }
      AppendFreshStock(prev, RecordOf(Classify(last, date)), last.stock);
    }
  }

  // ---------------------------------------------------------------------------
  // The post-filter (filter_signals)
  // ---------------------------------------------------------------------------

  /** Display order of grades: S級 0, A級 1, B級 2, URGENT 3, HIGH 4. */
  function GradeRank(g: Grade): (k: nat)
    ensures k <= 4
  {
    match g
    case GradeS => 0
    case GradeA => 1
    case GradeB => 2
    case Urgent => 3
    case High => 4
  }

  predicate InPriceBand(s: Signal) {
    MinStockPrice <= s.price <= MaxStockPrice
  }

  /** The records priced within the band, in their original order. */
  function KeepInBand(ss: seq<Signal>): (r: seq<Signal>)
    ensures forall s :: multiset(r)[s] == if InPriceBand(s) then multiset(ss)[s] else 0
  {
    if ss == [] then []
    else
      var last := ss[|ss| - 1];
      assert ss == ss[..|ss| - 1] + [last];
      KeepInBand(ss[..|ss| - 1]) + (if InPriceBand(last) then [last] else [])
  }

  /** The records of rank `k`, in their original order. */
  function WithRank(ss: seq<Signal>, k: nat): (r: seq<Signal>)
    ensures forall s :: multiset(r)[s] == if GradeRank(s.grade) == k then multiset(ss)[s] else 0
  {
    if ss == [] then []
    else
      var last := ss[|ss| - 1];
      assert ss == ss[..|ss| - 1] + [last];
      WithRank(ss[..|ss| - 1], k) + (if GradeRank(last.grade) == k then [last] else [])
  }

  lemma RanksConcatenate(here: seq<Signal>, rest: seq<Signal>, k: nat)
    requires forall s :: s in here ==> GradeRank(s.grade) == k
    requires forall i :: 0 <= i < |rest| ==> GradeRank(rest[i].grade) >= k + 1
    requires forall i, j :: 0 <= i < j < |rest| ==> GradeRank(rest[i].grade) <= GradeRank(rest[j].grade)
    ensures forall i :: 0 <= i < |here + rest| ==> GradeRank((here + rest)[i].grade) >= k
    ensures forall i, j :: 0 <= i < j < |here + rest| ==> GradeRank((here + rest)[i].grade) <= GradeRank((here + rest)[j].grade)
  {
    var r := here + rest;
    forall i | 0 <= i < |r|
      ensures GradeRank(r[i].grade) >= k
      ensures i < |here| ==> GradeRank(r[i].grade) == k
      ensures i >= |here| ==> r[i] == rest[i - |here|]
    {
      if i < |here| {
        assert r[i] == here[i] && here[i] in here;
      }
    }
  }

  /** The records of rank `k` or more, ordered by rank. */
  function RanksFrom(ss: seq<Signal>, k: nat): (r: seq<Signal>)
    ensures forall s :: multiset(r)[s] == if GradeRank(s.grade) >= k then multiset(ss)[s] else 0
    ensures forall i :: 0 <= i < |r| ==> GradeRank(r[i].grade) >= k
    ensures forall i, j :: 0 <= i < j < |r| ==> GradeRank(r[i].grade) <= GradeRank(r[j].grade)
    decreases 5 - k
  {
    if k > 4 then []
    else
      var here := WithRank(ss, k);
      var rest := RanksFrom(ss, k + 1);
      RanksConcatenate(here, rest, k);
      here + rest
  }

  /**
   * Empty input is returned as is; otherwise exactly the records priced in
   * [10, 500], ordered by grade rank. Records of equal rank may come in any
   * order (the source's sort is not stable), so none is promised.
   */
  function FilterSignals(ss: seq<Signal>): (r: seq<Signal>)
    ensures ss == [] ==> r == []
    ensures forall s :: multiset(r)[s] == if InPriceBand(s) then multiset(ss)[s] else 0
    ensures forall i :: 0 <= i < |r| ==> InPriceBand(r[i])
    ensures forall i, j :: 0 <= i < j < |r| ==> GradeRank(r[i].grade) <= GradeRank(r[j].grade)
  {
    if ss == [] then ss
    else
      var kept := KeepInBand(ss);
      var r := RanksFrom(kept, 0);
      KeptAreInBand(r, ss);
      r
  }

  lemma KeptAreInBand(r: seq<Signal>, ss: seq<Signal>)
    requires forall s :: multiset(r)[s] == if InPriceBand(s) then multiset(ss)[s] else 0
    ensures forall i :: 0 <= i < |r| ==> InPriceBand(r[i])
  {
    forall i | 0 <= i < |r|
      ensures InPriceBand(r[i])
    {
      assert multiset(r)[r[i]] > 0;
    }
  }
}
