/** `crates/strategy/src/tri_arbitrage.rs`: detecting the two cycles of a triangle. */
module TriArbitrage {
  import opened Wrappers
  import opened RealFacts
  import opened TriViews

  datatype FeeInfo = FeeInfo(maker: real, taker: real)

  datatype LegEstimate = LegEstimate(symbol: string, sideBuy: bool, price: real, qty: real)

  datatype Opportunity = Opportunity(
    startCurrency: string,
    estimatedProfit: real,
    impliedPrice: real,
    legs: seq<LegEstimate>)

  type FeeMap = map<string, FeeInfo>

  const START: real := 10000.0

  function TakerFee(fees: FeeMap, symbol: string): real {
    if symbol in fees then fees[symbol].taker else 0.0
  }

  /** What a taker fee leaves of an amount. */
  function Keep(x: real, fee: real): real { x * (1.0 - fee) }

  /** AB -> AC -> BC: buy at ask_ab, buy at ask_ac, sell at bid_bc. */
  function Cycle1(view: TriView, fees: FeeMap, minProfit: real): Outcome<seq<Opportunity>> {
    match (Best(view.asksAb), Best(view.bidsBc), Best(view.asksAc))
    case (Some(askAb), Some(bidBc), Some(askAc)) =>
      if askAb == 0.0 || askAc == 0.0 then Panicked
      else
        var feeAb, feeBc, feeAc := TakerFee(fees, view.symAb), TakerFee(fees, view.symBc), TakerFee(fees, view.symAc);
        var btc := Keep(START / askAb, feeAb);
        var eth := Keep(btc / askAc, feeAc);
        var profit := Keep(Times(eth, bidBc), feeBc) - START;
        if profit > minProfit then
          NonZeroProduct(askAb, askAc);
          Done([Opportunity("USDT", profit, bidBc / Times(askAb, askAc), [
            LegEstimate(view.symAb, true, askAb, START / askAb),
            LegEstimate(view.symAc, true, askAc, btc / askAc),
            LegEstimate(view.symBc, false, bidBc, eth)])])
        else Done([])
    case _ => Done([])
  }

  /** BC -> AC -> AB: buy at ask_bc, sell at bid_ac, sell at bid_ab. */
  function Cycle2(view: TriView, fees: FeeMap, minProfit: real): Outcome<seq<Opportunity>> {
    match (Best(view.asksBc), Best(view.bidsAc), Best(view.bidsAb))
    case (Some(askBc), Some(bidAc), Some(bidAb)) =>
      if askBc == 0.0 then Panicked
      else
        var feeAb, feeBc, feeAc := TakerFee(fees, view.symAb), TakerFee(fees, view.symBc), TakerFee(fees, view.symAc);
        var eth := Keep(START / askBc, feeBc);
        var btc := Keep(Times(eth, bidAc), feeAc);
        var profit := Keep(Times(btc, bidAb), feeAb) - START;
        if profit > minProfit then
          Done([Opportunity("USDT", profit, Times(bidAb, bidAc) / askBc, [
            LegEstimate(view.symBc, true, askBc, START / askBc),
            LegEstimate(view.symAc, false, bidAc, eth),
            LegEstimate(view.symAb, false, bidAb, btc)])])
        else Done([])
    case _ => Done([])
  }

  function Detect(view: TriView, fees: FeeMap, minProfit: real): Outcome<seq<Opportunity>> {
    match (Cycle1(view, fees, minProfit), Cycle2(view, fees, minProfit))
    case (Done(ops1), Done(ops2)) => Done(ops1 + ops2)
    case _ => Panicked
  }

  lemma NonZeroProduct(x: real, y: real)
    requires x != 0.0 && y != 0.0
    ensures x * y != 0.0
  {
  }

  // ----- conditions on quotes and fees -----

  predicate PositiveQuote(q: Option<real>) { q.Some? ==> q.value > 0.0 }

  predicate PositiveQuotes(view: TriView) {
    && PositiveQuote(Best(view.bidsAb)) && PositiveQuote(Best(view.asksAb))
    && PositiveQuote(Best(view.bidsBc)) && PositiveQuote(Best(view.asksBc))
    && PositiveQuote(Best(view.bidsAc)) && PositiveQuote(Best(view.asksAc))
  }

  /** bid <= value <= ask wherever the quotes exist. */
  predicate Brackets(bids: seq<Quote>, asks: seq<Quote>, v: real) {
    && (Best(bids).Some? ==> Best(bids).value <= v)
    && (Best(asks).Some? ==> v <= Best(asks).value)
  }

  predicate Uncrossed(bids: seq<Quote>, asks: seq<Quote>) {
    Best(bids).Some? && Best(asks).Some? ==> Best(bids).value <= Best(asks).value
  }

  predicate UnitFee(fee: real) { 0.0 <= fee <= 1.0 }

  predicate UnitFees(view: TriView, fees: FeeMap) {
    UnitFee(TakerFee(fees, view.symAb)) && UnitFee(TakerFee(fees, view.symBc)) && UnitFee(TakerFee(fees, view.symAc))
  }

  /** What three taker fees leave of a unit. */
  function Kept(feeAb: real, feeBc: real, feeAc: real): real {
    Times(Times(1.0 - feeAb, 1.0 - feeAc), 1.0 - feeBc)
  }

  lemma KeptIsFraction(feeAb: real, feeBc: real, feeAc: real)
    requires UnitFee(feeAb) && UnitFee(feeBc) && UnitFee(feeAc)
    ensures 0.0 <= Kept(feeAb, feeBc, feeAc) <= 1.0
  {
    hide Times;
    var a, b, c := 1.0 - feeAb, 1.0 - feeBc, 1.0 - feeAc;
    FractionProduct(a, c);
    FractionProduct(Times(a, c), b);
  }

  lemma FractionProduct(x: real, y: real)
    requires 0.0 <= x <= 1.0 && 0.0 <= y <= 1.0
    ensures 0.0 <= Times(x, y) <= 1.0
  {
    hide Times;
    TimesNonNegative(x, y);
    TimesMonotone(x, y, 1.0);
    TimesByOne(x);
  }

  lemma TimesByOne(x: real)
    ensures Times(x, 1.0) == x
  {
  }

  // ----- the two cycles as cross-multiplied inequalities -----

  /** Cycle 1's proceeds, cleared of divisions. */
  lemma Proceeds1(askAb: real, bidBc: real, askAc: real, feeAb: real, feeBc: real, feeAc: real)
    requires askAb != 0.0 && askAc != 0.0
    ensures var btc := Keep(START / askAb, feeAb);
            var eth := Keep(btc / askAc, feeAc);
            Times(Keep(Times(eth, bidBc), feeBc), Times(askAb, askAc)) == Sells(Kept(feeAb, feeBc, feeAc), bidBc)
  {
    var q1 := START / askAb;
    var btc := q1 * (1.0 - feeAb);
    var q2 := btc / askAc;
    Clear1(q1, q2, askAb, askAc, bidBc, 1.0 - feeAb, 1.0 - feeAc, 1.0 - feeBc);
  }

  lemma Clear1(q1: real, q2: real, askAb: real, askAc: real, bidBc: real, a: real, c: real, b: real)
    requires q1 * askAb == START && q2 * askAc == q1 * a
    ensures q2 * c * bidBc * b * (askAb * askAc) == START * (a * c * b) * bidBc
  {
    calc {
      q2 * c * bidBc * b * (askAb * askAc);
      (q2 * askAc) * (c * bidBc * b * askAb);
      (q1 * a) * (c * bidBc * b * askAb);
      (q1 * askAb) * (a * c * b * bidBc);
      START * (a * c * b * bidBc);
      START * (a * c * b) * bidBc;
    }
  }

  lemma Proceeds2(askBc: real, bidAc: real, bidAb: real, feeAb: real, feeBc: real, feeAc: real)
    requires askBc != 0.0
    ensures var eth := Keep(START / askBc, feeBc);
            var btc := Keep(Times(eth, bidAc), feeAc);
            Times(Keep(Times(btc, bidAb), feeAb), askBc) == Sells(Kept(feeAb, feeBc, feeAc), Times(bidAb, bidAc))
  {
    Clear2(START / askBc, askBc, bidAc, bidAb, 1.0 - feeAb, 1.0 - feeAc, 1.0 - feeBc);
  }

  lemma Clear2(q1: real, askBc: real, bidAc: real, bidAb: real, a: real, c: real, b: real)
    requires q1 * askBc == START
    ensures q1 * b * bidAc * c * bidAb * a * askBc == START * (a * c * b) * (bidAb * bidAc)
  {
    calc {
      q1 * b * bidAc * c * bidAb * a * askBc;
      (q1 * askBc) * (b * bidAc * c * bidAb * a);
      START * (b * bidAc * c * bidAb * a);
      START * (a * c * b) * (bidAb * bidAc);
    }
  }

  lemma ClearedComparison(x: real, y: real, d: real)
    requires 0.0 < d
    ensures x > y <==> x * d > y * d
  {
    if x > y {
      PositiveProduct(x - y, d);
      assert (x - y) * d == x * d - y * d;
    } else {
      ScaleMonotone(d, x, y);
    }
  }

  /** The proceeds beat the threshold exactly when the product of the sell rates does. */
  lemma Threshold(proceeds: real, d: real, cleared: real, minProfit: real)
    requires 0.0 < d && Times(proceeds, d) == cleared
    ensures proceeds - START > minProfit <==> cleared > Needs(minProfit, d)
  {
    ClearedComparison(proceeds, START + minProfit, d);
  }

  /** START times what the fees keep of a sell-side rate. */
  function Sells(kept: real, rate: real): real { START * kept * rate }

  /** What a buy-side rate must be beaten by. */
  function Needs(minProfit: real, rate: real): real { (START + minProfit) * rate }

  function KeptOn(view: TriView, fees: FeeMap): real {
    Kept(TakerFee(fees, view.symAb), TakerFee(fees, view.symBc), TakerFee(fees, view.symAc))
  }

  /** Cycle 1 is reported exactly when the cross-multiplied rates beat the threshold. */
  lemma Cycle1Reported(view: TriView, fees: FeeMap, minProfit: real)
    requires PositiveQuotes(view)
    ensures Cycle1(view, fees, minProfit).Done? && |Cycle1(view, fees, minProfit).value| <= 1
    ensures Cycle1(view, fees, minProfit).value != [] <==>
              && Best(view.asksAb).Some? && Best(view.bidsBc).Some? && Best(view.asksAc).Some?
              && Sells(KeptOn(view, fees), Best(view.bidsBc).value)
                   > Needs(minProfit, Times(Best(view.asksAb).value, Best(view.asksAc).value))
  {
    hide Times, Keep, Kept, Sells, Needs;
    if Best(view.asksAb).Some? && Best(view.bidsBc).Some? && Best(view.asksAc).Some? {
      var askAb, bidBc, askAc := Best(view.asksAb).value, Best(view.bidsBc).value, Best(view.asksAc).value;
      var feeAb, feeBc, feeAc := TakerFee(fees, view.symAb), TakerFee(fees, view.symBc), TakerFee(fees, view.symAc);
      Proceeds1(askAb, bidBc, askAc, feeAb, feeBc, feeAc);
      PositiveProduct(askAb, askAc);
      var proceeds := Keep(Times(Keep(Keep(START / askAb, feeAb) / askAc, feeAc), bidBc), feeBc);
      Threshold(proceeds, Times(askAb, askAc), Sells(KeptOn(view, fees), bidBc), minProfit);
    }
  }

  lemma Cycle2Reported(view: TriView, fees: FeeMap, minProfit: real)
    requires PositiveQuotes(view)
    ensures Cycle2(view, fees, minProfit).Done? && |Cycle2(view, fees, minProfit).value| <= 1
    ensures Cycle2(view, fees, minProfit).value != [] <==>
              && Best(view.asksBc).Some? && Best(view.bidsAc).Some? && Best(view.bidsAb).Some?
              && Sells(KeptOn(view, fees), Times(Best(view.bidsAb).value, Best(view.bidsAc).value))
                   > Needs(minProfit, Best(view.asksBc).value)
  {
    hide Times, Keep, Kept, Sells, Needs;
    if Best(view.asksBc).Some? && Best(view.bidsAc).Some? && Best(view.bidsAb).Some? {
      var askBc, bidAc, bidAb := Best(view.asksBc).value, Best(view.bidsAc).value, Best(view.bidsAb).value;
      var feeAb, feeBc, feeAc := TakerFee(fees, view.symAb), TakerFee(fees, view.symBc), TakerFee(fees, view.symAc);
      Proceeds2(askBc, bidAc, bidAb, feeAb, feeBc, feeAc);
      var proceeds := Keep(Times(Keep(Times(Keep(START / askBc, feeBc), bidAc), feeAc), bidAb), feeAb);
      Threshold(proceeds, askBc, Sells(KeptOn(view, fees), Times(bidAb, bidAc)), minProfit);
    }
  }

  /**
   The profit threshold is worth at least what the fees invent: what three fees keep of the start
   amount is not above what must be exceeded. Fees of at most one and a non-negative threshold
   always meet it.
   */
  predicate ThresholdCovers(kept: real, minProfit: real) {
    0.0 <= START + minProfit && START * kept <= START + minProfit
  }

  /** Then a reported cycle gains on the fee-free cross rate: its sell side strictly beats its buy side. */
  lemma GainNeedsEdge(kept: real, minProfit: real, sell: real, buy: real)
    requires ThresholdCovers(kept, minProfit) && 0.0 < buy && 0.0 <= sell
    requires Sells(kept, sell) > Needs(minProfit, buy)
    ensures sell > buy
  {
    ScaleMonotone(sell, START * kept, START + minProfit);
    if sell <= buy {
      ScaleMonotone(START + minProfit, sell, buy);
    }
  }

  lemma ProductMonotone(a: real, b: real, x: real, y: real)
    requires 0.0 <= a <= x && 0.0 <= b <= y
    ensures Times(a, b) <= Times(x, y)
  {
    ScaleMonotone(a, b, y);
    ScaleMonotone(y, a, x);
  }

  lemma Cycle1NeedsEdge(view: TriView, fees: FeeMap, minProfit: real)
    requires PositiveQuotes(view) && ThresholdCovers(KeptOn(view, fees), minProfit)
    requires Cycle1(view, fees, minProfit).Done? && Cycle1(view, fees, minProfit).value != []
    ensures Best(view.asksAb).Some? && Best(view.bidsBc).Some? && Best(view.asksAc).Some?
    ensures Best(view.bidsBc).value > Times(Best(view.asksAb).value, Best(view.asksAc).value)
  {
    Cycle1Reported(view, fees, minProfit);
    PositiveProduct(Best(view.asksAb).value, Best(view.asksAc).value);
    GainNeedsEdge(KeptOn(view, fees), minProfit, Best(view.bidsBc).value,
        Times(Best(view.asksAb).value, Best(view.asksAc).value));
  }

  lemma Cycle2NeedsEdge(view: TriView, fees: FeeMap, minProfit: real)
    requires PositiveQuotes(view) && ThresholdCovers(KeptOn(view, fees), minProfit)
    requires Cycle2(view, fees, minProfit).Done? && Cycle2(view, fees, minProfit).value != []
    ensures Best(view.asksBc).Some? && Best(view.bidsAc).Some? && Best(view.bidsAb).Some?
    ensures Times(Best(view.bidsAb).value, Best(view.bidsAc).value) > Best(view.asksBc).value
  {
    Cycle2Reported(view, fees, minProfit);
    PositiveProduct(Best(view.bidsAb).value, Best(view.bidsAc).value);
    GainNeedsEdge(KeptOn(view, fees), minProfit, Times(Best(view.bidsAb).value, Best(view.bidsAc).value),
        Best(view.asksBc).value);
  }

  predicate UncrossedView(view: TriView) {
    && PositiveQuotes(view)
    && Uncrossed(view.bidsAb, view.asksAb) && Uncrossed(view.bidsBc, view.asksBc) && Uncrossed(view.bidsAc, view.asksAc)
  }

  predicate AtMostOne(ops: Outcome<seq<Opportunity>>) { ops.Done? && |ops.value| <= 1 }

  /** Books that are not crossed never show an opportunity in both directions. */
  lemma NeverBothDirections(view: TriView, fees: FeeMap, minProfit: real)
    requires UncrossedView(view) && ThresholdCovers(KeptOn(view, fees), minProfit)
    ensures AtMostOne(Detect(view, fees, minProfit))
  {
    Cycle1Reported(view, fees, minProfit);
    Cycle2Reported(view, fees, minProfit);
    if Cycle1(view, fees, minProfit).value != [] && Cycle2(view, fees, minProfit).value != [] {
      Cycle1NeedsEdge(view, fees, minProfit);
      Cycle2NeedsEdge(view, fees, minProfit);
      ProductMonotone(Best(view.bidsAb).value, Best(view.bidsAc).value, Best(view.asksAb).value,
          Best(view.asksAc).value);
    }
  }

  /** Positive quotes that one valuation of the three assets explains. */
  predicate Consistent(view: TriView, vAb: real, vAc: real) {
    && PositiveQuotes(view) && 0.0 <= vAb && 0.0 <= vAc
    && Brackets(view.bidsAb, view.asksAb, vAb) && Brackets(view.bidsAc, view.asksAc, vAc)
    && Brackets(view.bidsBc, view.asksBc, Times(vAb, vAc))
  }

  /** Consistent prices show no opportunity at all. */
  lemma NoPhantomArbitrage(view: TriView, fees: FeeMap, minProfit: real, vAb: real, vAc: real)
    requires Consistent(view, vAb, vAc) && ThresholdCovers(KeptOn(view, fees), minProfit)
    ensures Detect(view, fees, minProfit) == Done([])
  {
    Cycle1Reported(view, fees, minProfit);
    Cycle2Reported(view, fees, minProfit);
    assert Cycle1(view, fees, minProfit).value == [] by {
      if Cycle1(view, fees, minProfit).value != [] {
        Cycle1NeedsEdge(view, fees, minProfit);
        ProductMonotone(vAb, vAc, Best(view.asksAb).value, Best(view.asksAc).value);
      }
    }
    assert Cycle2(view, fees, minProfit).value == [] by {
      if Cycle2(view, fees, minProfit).value != [] {
        Cycle2NeedsEdge(view, fees, minProfit);
        ProductMonotone(Best(view.bidsAb).value, Best(view.bidsAc).value, vAb, vAc);
      }
    }
    assert Cycle1(view, fees, minProfit).value + Cycle2(view, fees, minProfit).value == [];
  }

  /** Fees of at most one each keep at most the whole, so any non-negative threshold covers them. */
  lemma UnitFeesAreCovered(view: TriView, fees: FeeMap, minProfit: real)
    requires UnitFees(view, fees)
    ensures 0.0 <= KeptOn(view, fees) <= 1.0
    ensures 0.0 <= minProfit ==> ThresholdCovers(KeptOn(view, fees), minProfit)
  {
    KeptIsFraction(TakerFee(fees, view.symAb), TakerFee(fees, view.symBc), TakerFee(fees, view.symAc));
  }

  // ----- the condition on fees and threshold is exact -----

  datatype Symbols = Symbols(ab: string, bc: string, ac: string)

  predicate Names(symbols: Symbols, view: TriView) {
    view.symAb == symbols.ab && view.symBc == symbols.bc && view.symAc == symbols.ac
  }

  function KeptFor(symbols: Symbols, fees: FeeMap): real {
    Kept(TakerFee(fees, symbols.ab), TakerFee(fees, symbols.bc), TakerFee(fees, symbols.ac))
  }

  /** Every book bidding 1 and asking `ask`: consistent with all three assets worth the same. */
  function SpreadView(symbols: Symbols, ask: real): TriView {
    TriView(symbols.ab, [(1.0, 1.0)], [(ask, 1.0)], symbols.bc, [(1.0, 1.0)], [(ask, 1.0)], symbols.ac, [(1.0, 1.0)],
        [(ask, 1.0)])
  }

  /** No consistent view of these symbols is ever reported on. */
  ghost predicate NeverPhantom(symbols: Symbols, fees: FeeMap, minProfit: real) {
    forall view, vAb, vAc :: Names(symbols, view) && Consistent(view, vAb, vAc) ==>
        Detect(view, fees, minProfit) == Done([])
  }

  /** No uncrossed view of these symbols is ever reported in both directions. */
  ghost predicate NeverBoth(symbols: Symbols, fees: FeeMap, minProfit: real) {
    forall view :: Names(symbols, view) && UncrossedView(view) ==> AtMostOne(Detect(view, fees, minProfit))
  }

  lemma SpreadReported(symbols: Symbols, fees: FeeMap, minProfit: real, ask: real)
    requires 0.0 < ask
    ensures var k, t := START * KeptFor(symbols, fees), START + minProfit;
            var detected := Detect(SpreadView(symbols, ask), fees, minProfit);
            && detected.Done?
            && |detected.value| == (if k > t * (ask * ask) then 1 else 0) + (if k > t * ask then 1 else 0)
  {
    hide Kept, Cycle1, Cycle2, TakerFee;
    Cycle1Reported(SpreadView(symbols, ask), fees, minProfit);
    Cycle2Reported(SpreadView(symbols, ask), fees, minProfit);
  }

  /**
   Flat unit prices, for every configuration: nothing is shown if and only if what the fees keep
   of 10000 does not exceed 10000 plus the threshold; otherwise both directions are.
   */
  lemma FlatPricesQuiet(symbols: Symbols, fees: FeeMap, minProfit: real)
    ensures var detected := Detect(SpreadView(symbols, 1.0), fees, minProfit);
            && detected.Done?
            && (detected.value == [] <==> START * KeptFor(symbols, fees) <= START + minProfit)
            && (detected.value != [] ==> |detected.value| == 2)
  {
    hide Kept, Detect, TakerFee;
    SpreadReported(symbols, fees, minProfit, 1.0);
  }

  /** Against a negative target some spread is wide enough to miss it in neither direction. */
  lemma WideAsk(k: real, t: real) returns (ask: real)
    requires k <= t < 0.0
    ensures 1.0 <= ask && k > t * ask && k > t * (ask * ask)
  {
    var q := k / t;
    assert q * t == k;
    QuotientAtLeastOne(k, t);
    ask := q + 1.0;
    assert t * ask == k + t;
    ScaleMonotone(ask, 1.0, ask);
    ScaleMonotone(-t, ask, ask * ask);
  }

  lemma QuotientAtLeastOne(k: real, t: real)
    requires k <= t < 0.0
    ensures 1.0 <= k / t
  {
    QuotientMonotone(-t, -k, -t);
    QuotientUnique(-t, -t, 1.0);
    QuotientUnique(-k, -t, k / t);
  }

  /**
   Both guarantees hold of every view if and only if the threshold covers the fees, a condition on
   the configuration alone. Validation asks only for non-negative fees and no particular
   threshold, so it admits configurations, such as two fees of 3.0 or a threshold of -1.0, that
   report profit on consistent prices.
   */
  lemma SoundIffThresholdCovers(symbols: Symbols, fees: FeeMap, minProfit: real)
    ensures NeverPhantom(symbols, fees, minProfit) <==> ThresholdCovers(KeptFor(symbols, fees), minProfit)
    ensures NeverBoth(symbols, fees, minProfit) <==> ThresholdCovers(KeptFor(symbols, fees), minProfit)
  {
    if ThresholdCovers(KeptFor(symbols, fees), minProfit) {
      CoveredIsSound(symbols, fees, minProfit);
    } else {
      var ask := UncoveredReports(symbols, fees, minProfit);
      var view := SpreadView(symbols, ask);
      assert Names(symbols, view) && Consistent(view, 1.0, 1.0) && UncrossedView(view);
      assert !AtMostOne(Detect(view, fees, minProfit));
    }
  }

  lemma CoveredIsSound(symbols: Symbols, fees: FeeMap, minProfit: real)
    requires ThresholdCovers(KeptFor(symbols, fees), minProfit)
    ensures NeverPhantom(symbols, fees, minProfit) && NeverBoth(symbols, fees, minProfit)
  {
    hide Detect, ThresholdCovers, Consistent, UncrossedView, Kept, TakerFee;
    forall view, vAb, vAc | Names(symbols, view) && Consistent(view, vAb, vAc)
      ensures Detect(view, fees, minProfit) == Done([])
    {
      NoPhantomArbitrage(view, fees, minProfit, vAb, vAc);
    }
    forall view | Names(symbols, view) && UncrossedView(view) ensures AtMostOne(Detect(view, fees, minProfit)) {
      NeverBothDirections(view, fees, minProfit);
    }
  }

  lemma UncoveredReports(symbols: Symbols, fees: FeeMap, minProfit: real) returns (ask: real)
    requires !ThresholdCovers(KeptFor(symbols, fees), minProfit)
    ensures 1.0 <= ask && Detect(SpreadView(symbols, ask), fees, minProfit).Done?
    ensures |Detect(SpreadView(symbols, ask), fees, minProfit).value| == 2
  {
    hide Kept, Detect, TakerFee;
    var k, t := START * KeptFor(symbols, fees), START + minProfit;
    ask := 1.0;
    if k <= t {
      ask := WideAsk(k, t);
    }
    SpreadReported(symbols, fees, minProfit, ask);
  }

  lemma ExamplesKeep(symbols: Symbols, fees: FeeMap, fee: real)
    requires TakerFee(fees, symbols.ab) == TakerFee(fees, symbols.bc) == fee && TakerFee(fees, symbols.ac) == 0.0
    ensures fee == 3.0 ==> KeptFor(symbols, fees) == 4.0
    ensures fee == 0.0 ==> KeptFor(symbols, fees) == 1.0
  {
    hide TakerFee;
  }

  /** Two configurations that validation admits and that report profit on flat unit prices. */
  lemma ValidConfigurationsInventProfit(symbols: Symbols, fees: FeeMap)
    requires TakerFee(fees, symbols.ab) == TakerFee(fees, symbols.bc) == 3.0 && TakerFee(fees, symbols.ac) == 0.0
    ensures Detect(SpreadView(symbols, 1.0), fees, 0.0).Done?
    ensures |Detect(SpreadView(symbols, 1.0), fees, 0.0).value| == 2
    ensures Detect(SpreadView(symbols, 1.0), map[], -1.0).Done?
    ensures |Detect(SpreadView(symbols, 1.0), map[], -1.0).value| == 2
  {
    assert TakerFee(map[], symbols.ab) == TakerFee(map[], symbols.bc) == TakerFee(map[], symbols.ac) == 0.0;
    ExamplesKeep(symbols, fees, 3.0);
    ExamplesKeep(symbols, map[], 0.0);
    FlatPricesQuiet(symbols, fees, 0.0);
    FlatPricesQuiet(symbols, map[], -1.0);
  }

  // ----- what a reported opportunity says -----

  /** The taker fee listed for a symbol, none if it is not listed. */
  predicate Charges(fees: FeeMap, symbol: string, fee: real) {
    if symbol in fees then fee == fees[symbol].taker else fee == 0.0
  }

  predicate Trades(leg: LegEstimate, symbol: string, buy: bool, price: real) {
    leg.symbol == symbol && leg.sideBuy == buy && leg.price == price
  }

  /** Cycle 1, leg by leg: each on its own symbol at that book's quote, sized by what the last one left. */
  predicate ReportsCycle1(view: TriView, op: Opportunity, askAb: real, askAc: real, bidBc: real,
                          feeAb: real, feeAc: real, feeBc: real)
  {
    && |op.legs| == 3 && op.startCurrency == "USDT"
    && Trades(op.legs[0], view.symAb, true, askAb) && Times(op.legs[0].qty, askAb) == 10000.0
    && Trades(op.legs[1], view.symAc, true, askAc)
    && Times(op.legs[1].qty, askAc) == Times(op.legs[0].qty, 1.0 - feeAb)
    && Trades(op.legs[2], view.symBc, false, bidBc) && op.legs[2].qty == Times(op.legs[1].qty, 1.0 - feeAc)
    && 10000.0 + op.estimatedProfit == Times(Times(op.legs[2].qty, bidBc), 1.0 - feeBc)
    && Times(op.impliedPrice, Times(askAb, askAc)) == bidBc
    && 10000.0 + op.estimatedProfit == Times(10000.0, Times(Kept(feeAb, feeBc, feeAc), op.impliedPrice))
  }

  /** Cycle 2, likewise. */
  predicate ReportsCycle2(view: TriView, op: Opportunity, askBc: real, bidAc: real, bidAb: real,
                          feeBc: real, feeAc: real, feeAb: real)
  {
    && |op.legs| == 3 && op.startCurrency == "USDT"
    && Trades(op.legs[0], view.symBc, true, askBc) && Times(op.legs[0].qty, askBc) == 10000.0
    && Trades(op.legs[1], view.symAc, false, bidAc) && op.legs[1].qty == Times(op.legs[0].qty, 1.0 - feeBc)
    && Trades(op.legs[2], view.symAb, false, bidAb)
    && op.legs[2].qty == Times(Times(op.legs[1].qty, bidAc), 1.0 - feeAc)
    && 10000.0 + op.estimatedProfit == Times(Times(op.legs[2].qty, bidAb), 1.0 - feeAb)
    && Times(op.impliedPrice, askBc) == Times(bidAb, bidAc)
    && 10000.0 + op.estimatedProfit == Times(10000.0, Times(Kept(feeAb, feeBc, feeAc), op.impliedPrice))
  }

  lemma KeepIsTimes(x: real, fee: real)
    ensures Keep(x, fee) == Times(x, 1.0 - fee)
  {
  }

  lemma QuotientTimes(x: real, d: real)
    requires 0.0 < d
    ensures Times(x / d, d) == x
  {
    PerUnitTimes(x, d);
  }

  lemma Charged(fees: FeeMap, symbol: string, fee: real)
    requires Charges(fees, symbol, fee)
    ensures TakerFee(fees, symbol) == fee
  {
  }

  lemma ChargedAll(view: TriView, fees: FeeMap, feeAb: real, feeAc: real, feeBc: real)
    requires Charges(fees, view.symAb, feeAb) && Charges(fees, view.symAc, feeAc) && Charges(fees, view.symBc, feeBc)
    ensures TakerFee(fees, view.symAb) == feeAb && TakerFee(fees, view.symAc) == feeAc
    ensures TakerFee(fees, view.symBc) == feeBc
  {
    Charged(fees, view.symAb, feeAb);
    Charged(fees, view.symAc, feeAc);
    Charged(fees, view.symBc, feeBc);
  }

  /** A reported cycle 1 trades AB, AC and BC at their quotes, and its profit is its implied price after fees. */
  lemma Cycle1Says(view: TriView, fees: FeeMap, minProfit: real, op: Opportunity, feeAb: real, feeAc: real, feeBc: real)
    requires PositiveQuotes(view)
    requires Charges(fees, view.symAb, feeAb) && Charges(fees, view.symAc, feeAc) && Charges(fees, view.symBc, feeBc)
    requires Cycle1(view, fees, minProfit).Done? && op in Cycle1(view, fees, minProfit).value
    ensures view.asksAb != [] && view.asksAc != [] && view.bidsBc != []
    ensures ReportsCycle1(view, op, view.asksAb[0].0, view.asksAc[0].0, view.bidsBc[0].0, feeAb, feeAc, feeBc)
  {
    hide Times, Keep, Kept, TakerFee, Charges, Sells;
    ChargedAll(view, fees, feeAb, feeAc, feeBc);
    var askAb, askAc, bidBc := view.asksAb[0].0, view.asksAc[0].0, view.bidsBc[0].0;
    var btc := START / askAb;
    var left := Keep(btc, feeAb);
    var eth := left / askAc;
    KeepIsTimes(btc, feeAb);
    KeepIsTimes(eth, feeAc);
    KeepIsTimes(Times(Keep(eth, feeAc), bidBc), feeBc);
    PositiveProduct(askAb, askAc);
    QuotientTimes(START, askAb);
    QuotientTimes(left, askAc);
    QuotientTimes(bidBc, Times(askAb, askAc));
    Proceeds1(askAb, bidBc, askAc, feeAb, feeBc, feeAc);
    ProceedsByImplied(START + op.estimatedProfit, Times(askAb, askAc), Kept(feeAb, feeBc, feeAc), bidBc,
        op.impliedPrice);
  }

  lemma Cycle2Says(view: TriView, fees: FeeMap, minProfit: real, op: Opportunity, feeBc: real, feeAc: real, feeAb: real)
    requires PositiveQuotes(view)
    requires Charges(fees, view.symAb, feeAb) && Charges(fees, view.symAc, feeAc) && Charges(fees, view.symBc, feeBc)
    requires Cycle2(view, fees, minProfit).Done? && op in Cycle2(view, fees, minProfit).value
    ensures view.asksBc != [] && view.bidsAc != [] && view.bidsAb != []
    ensures ReportsCycle2(view, op, view.asksBc[0].0, view.bidsAc[0].0, view.bidsAb[0].0, feeBc, feeAc, feeAb)
  {
    hide Times, Keep, Kept, TakerFee, Charges, Sells;
    ChargedAll(view, fees, feeAb, feeAc, feeBc);
    var askBc, bidAc, bidAb := view.asksBc[0].0, view.bidsAc[0].0, view.bidsAb[0].0;
    var eth := Keep(START / askBc, feeBc);
    var btc := Keep(Times(eth, bidAc), feeAc);
    KeepIsTimes(START / askBc, feeBc);
    KeepIsTimes(Times(eth, bidAc), feeAc);
    KeepIsTimes(Times(btc, bidAb), feeAb);
    QuotientTimes(START, askBc);
    QuotientTimes(Times(bidAb, bidAc), askBc);
    Proceeds2(askBc, bidAc, bidAb, feeAb, feeBc, feeAc);
    ProceedsByImplied(START + op.estimatedProfit, askBc, Kept(feeAb, feeBc, feeAc), Times(bidAb, bidAc),
        op.impliedPrice);
  }

  /** When both cycles are reported, cycle 1 comes first. */
  lemma BothInOrder(view: TriView, fees: FeeMap, minProfit: real)
    requires PositiveQuotes(view) && Detect(view, fees, minProfit).Done?
    requires |Detect(view, fees, minProfit).value| > 1
    ensures var ops := Detect(view, fees, minProfit).value;
            && |ops| == 2 && |ops[0].legs| == |ops[1].legs| == 3 && view.asksAb != [] && view.asksBc != []
            && Trades(ops[0].legs[0], view.symAb, true, view.asksAb[0].0)
            && Trades(ops[1].legs[0], view.symBc, true, view.asksBc[0].0)
  {
    hide Times, Keep, Kept, TakerFee, Sells, Needs;
    Cycle1Reported(view, fees, minProfit);
    Cycle2Reported(view, fees, minProfit);
  }

  /** Proceeds that clear to a kept rate are the kept fraction of the implied price. */
  lemma ProceedsByImplied(proceeds: real, d: real, kept: real, rate: real, implied: real)
    requires 0.0 < d && Times(proceeds, d) == Sells(kept, rate) && Times(implied, d) == rate
    ensures proceeds == Times(START, Times(kept, implied))
  {
    assert START * kept * (implied * d) == START * (kept * implied) * d;
    QuotientUnique(proceeds * d, d, proceeds);
    QuotientUnique(proceeds * d, d, START * (kept * implied));
  }

  // ----- replaying the legs on a wallet -----

  datatype Asset = Usdt | Btc | Eth

  datatype Wallet = Wallet(usdt: real, btc: real, eth: real) {
    function Credit(a: Asset, x: real): Wallet {
      match a
      case Usdt => this.(usdt := usdt + x)
      case Btc => this.(btc := btc + x)
      case Eth => this.(eth := eth + x)
    }

    predicate Solvent() { usdt >= 0.0 && btc >= 0.0 && eth >= 0.0 }
  }

  /** What a symbol trades: AB is btc against usdt, AC eth against btc, BC eth against usdt. */
  datatype Market = Market(base: Asset, quote: Asset)

  const AB := Market(Btc, Usdt)
  const AC := Market(Eth, Btc)
  const BC := Market(Eth, Usdt)

  /** Executes one leg on its market: the taker fee is charged on what the leg buys. */
  function Trade(m: Market, fees: FeeMap, w: Wallet, leg: LegEstimate): Wallet {
    var fee := TakerFee(fees, leg.symbol);
    if leg.sideBuy then w.Credit(m.quote, -Times(leg.qty, leg.price)).Credit(m.base, Keep(leg.qty, fee))
    else w.Credit(m.base, -leg.qty).Credit(m.quote, Keep(Times(leg.qty, leg.price), fee))
  }

  /** Executes legs in order, each on the market of its place in the route. */
  function Replay(route: seq<Market>, fees: FeeMap, w: Wallet, legs: seq<LegEstimate>): Wallet
    requires |legs| <= |route|
  {
    if legs == [] then w
    else Trade(route[|legs| - 1], fees, Replay(route, fees, w, legs[..|legs| - 1]), legs[|legs| - 1])
  }

  lemma ReplayThree(route: seq<Market>, fees: FeeMap, w: Wallet, legs: seq<LegEstimate>)
    requires |legs| == |route| == 3
    ensures Replay(route, fees, w, legs[..0]) == w
    ensures Replay(route, fees, w, legs[..1]) == Trade(route[0], fees, w, legs[0])
    ensures Replay(route, fees, w, legs[..2]) == Trade(route[1], fees, Trade(route[0], fees, w, legs[0]), legs[1])
    ensures Replay(route, fees, w, legs[..3]) ==
              Trade(route[2], fees, Trade(route[1], fees, Trade(route[0], fees, w, legs[0]), legs[1]), legs[2])
  {
    assert legs[..1][..0] == legs[..0] && legs[..2][..1] == legs[..1] && legs[..3][..2] == legs[..2];
  }

  const START_WALLET := Wallet(START, 0.0, 0.0)

  /**
   Replaying the legs along the route from exactly 10000 USDT never overdraws any asset, leaves
   nothing in the two intermediate assets, and ends with the estimated profit.
   */
  predicate Finances(route: seq<Market>, fees: FeeMap, op: Opportunity)
    requires |route| == 3
  {
    && |op.legs| == 3
    && (forall k :: 0 <= k <= 3 ==> Replay(route, fees, START_WALLET, op.legs[..k]).Solvent())
    && Replay(route, fees, START_WALLET, op.legs) == Wallet(START + op.estimatedProfit, 0.0, 0.0)
  }

  // ----- what the replay holds after each leg -----

  /** The wallets after one, two and three legs. */
  function Wallets(route: seq<Market>, fees: FeeMap, legs: seq<LegEstimate>): (Wallet, Wallet, Wallet)
    requires |legs| == |route| == 3
  {
    var w1 := Trade(route[0], fees, START_WALLET, legs[0]);
    var w2 := Trade(route[1], fees, w1, legs[1]);
    (w1, w2, Trade(route[2], fees, w2, legs[2]))
  }

  lemma FinancesByWallets(route: seq<Market>, fees: FeeMap, op: Opportunity)
    requires |op.legs| == |route| == 3
    ensures var (w1, w2, w3) := Wallets(route, fees, op.legs);
            && Replay(route, fees, START_WALLET, op.legs[..1]) == w1
            && Replay(route, fees, START_WALLET, op.legs) == w3
            && (Finances(route, fees, op) <==>
                  w1.Solvent() && w2.Solvent() && w3.Solvent() && w3 == Wallet(START + op.estimatedProfit, 0.0, 0.0))
  {
    hide Trade, Replay;
    ReplayThree(route, fees, START_WALLET, op.legs);
    assert op.legs[..3] == op.legs;
    var (w1, w2, w3) := Wallets(route, fees, op.legs);
    if w1.Solvent() && w2.Solvent() && w3.Solvent() {
      forall k | 0 <= k <= 3 ensures Replay(route, fees, START_WALLET, op.legs[..k]).Solvent() {
        assert k == 0 || k == 1 || k == 2 || k == 3;
      }
    }
  }

  function Only(a: Asset, x: real): Wallet { Wallet(0.0, 0.0, 0.0).Credit(a, x) }

  /** Spending all of one asset on a buy leg moves everything, less the fee, into the base. */
  lemma BuyAll(m: Market, fees: FeeMap, leg: LegEstimate, w: Wallet, x: real)
    requires leg.sideBuy && m.base != m.quote && w == Only(m.quote, x)
    requires leg.price > 0.0 && leg.qty == x / leg.price
    ensures Trade(m, fees, w, leg) == Only(m.base, Keep(leg.qty, TakerFee(fees, leg.symbol)))
  {
    hide TakerFee, Keep;
    assert Times(leg.qty, leg.price) == x by { PerUnitTimes(x, leg.price); }
  }

  lemma SellAll(m: Market, fees: FeeMap, leg: LegEstimate, w: Wallet, x: real)
    requires !leg.sideBuy && m.base != m.quote && w == Only(m.base, x) && leg.qty == x
    ensures Trade(m, fees, w, leg) == Only(m.quote, Keep(Times(x, leg.price), TakerFee(fees, leg.symbol)))
  {
    hide TakerFee, Keep, Times;
  }

  lemma ScaledSign(k: real, y: real)
    requires 0.0 < k
    ensures 0.0 <= k * y <==> 0.0 <= y
  {
    if y < 0.0 {
      PositiveProduct(k, -y);
    }
  }

  /** Buying from a positive amount leaves a debt exactly when the fee is above one. */
  lemma FirstLegSign(price: real, fee: real)
    requires 0.0 < price
    ensures 0.0 <= Keep(START / price, fee) <==> fee <= 1.0
  {
    PositiveQuotient(START, price);
    assert 0.0 < START / price;
    ScaledSign(START / price, 1.0 - fee);
  }

  lemma SecondBuySign(price: real, fee: real, next: real, nextFee: real)
    requires 0.0 < price && 0.0 < next
    ensures 0.0 <= Keep(Keep(START / price, fee) / next, nextFee) <==> 0.0 <= Times(1.0 - fee, 1.0 - nextFee)
  {
    var q := START / price;
    PositiveQuotient(START, price);
    var a, c := 1.0 - fee, 1.0 - nextFee;
    var r := q / next;
    PositiveQuotient(q, next);
    assert 0.0 < q && 0.0 < r;
    QuotientUnique(q * a, next, r * a) by { Rearranged(r, a, next, q); }
    assert r * a * c == r * (a * c);
    ScaledSign(r, a * c);
  }

  lemma Rearranged(r: real, a: real, d: real, q: real)
    requires r * d == q
    ensures q * a == r * a * d
  {
    assert r * a * d == r * d * a;
  }

  lemma SecondSellSign(price: real, fee: real, next: real, nextFee: real)
    requires 0.0 < price && 0.0 < next
    ensures 0.0 <= Keep(Times(Keep(START / price, fee), next), nextFee) <==> 0.0 <= Times(1.0 - fee, 1.0 - nextFee)
  {
    var q := START / price;
    PositiveQuotient(START, price);
    assert 0.0 < q;
    var a, c := 1.0 - fee, 1.0 - nextFee;
    PositiveProduct(q, next);
    Regrouped(q, a, next, c);
    ScaledSign(q * next, a * c);
  }

  lemma Regrouped(q: real, a: real, p: real, c: real)
    ensures q * a * p * c == (q * p) * (a * c)
  {
    calc {
      q * a * p * c;
      q * p * a * c;
      (q * p) * (a * c);
    }
  }

  /** No debt after any leg of a cycle: the first fee, the first two together, and the final balance. */
  predicate NoDebt(firstFee: real, secondFee: real, profit: real) {
    firstFee <= 1.0 && 0.0 <= Times(1.0 - firstFee, 1.0 - secondFee) && 0.0 <= START + profit
  }

  lemma Wallets1(view: TriView, fees: FeeMap, minProfit: real, op: Opportunity)
    requires PositiveQuotes(view)
    requires Cycle1(view, fees, minProfit).Done? && op in Cycle1(view, fees, minProfit).value
    ensures |op.legs| == 3
    ensures var (w1, w2, w3) := Wallets([AB, AC, BC], fees, op.legs);
            && w3 == Wallet(START + op.estimatedProfit, 0.0, 0.0)
            && (w1.Solvent() && w2.Solvent() && w3.Solvent() <==>
                  NoDebt(TakerFee(fees, view.symAb), TakerFee(fees, view.symAc), op.estimatedProfit))
  {
    hide TakerFee, Keep, Times, Trade;
    var l0, l1, l2 := op.legs[0], op.legs[1], op.legs[2];
    var feeAb, feeAc := TakerFee(fees, view.symAb), TakerFee(fees, view.symAc);
    BuyAll(AB, fees, l0, START_WALLET, START);
    BuyAll(AC, fees, l1, Only(Btc, Keep(l0.qty, feeAb)), Keep(l0.qty, feeAb));
    SellAll(BC, fees, l2, Only(Eth, l2.qty), l2.qty);
    FirstLegSign(l0.price, feeAb);
    SecondBuySign(l0.price, feeAb, l1.price, feeAc);
  }

  lemma Wallets2(view: TriView, fees: FeeMap, minProfit: real, op: Opportunity)
    requires PositiveQuotes(view)
    requires Cycle2(view, fees, minProfit).Done? && op in Cycle2(view, fees, minProfit).value
    ensures |op.legs| == 3
    ensures var (w1, w2, w3) := Wallets([BC, AC, AB], fees, op.legs);
            && w3 == Wallet(START + op.estimatedProfit, 0.0, 0.0)
            && (w1.Solvent() && w2.Solvent() && w3.Solvent() <==>
                  NoDebt(TakerFee(fees, view.symBc), TakerFee(fees, view.symAc), op.estimatedProfit))
  {
    hide TakerFee, Keep, Times, Trade;
    var l0, l1, l2 := op.legs[0], op.legs[1], op.legs[2];
    var feeBc, feeAc := TakerFee(fees, view.symBc), TakerFee(fees, view.symAc);
    BuyAll(BC, fees, l0, START_WALLET, START);
    SellAll(AC, fees, l1, Only(Eth, l1.qty), l1.qty);
    SellAll(AB, fees, l2, Only(Btc, l2.qty), l2.qty);
    FirstLegSign(l0.price, feeBc);
    SecondSellSign(l0.price, feeBc, l1.price, feeAc);
  }

  lemma DetectedExceeds(view: TriView, fees: FeeMap, minProfit: real, op: Opportunity)
    requires Detect(view, fees, minProfit).Done? && op in Detect(view, fees, minProfit).value
    ensures op.estimatedProfit > minProfit && |op.legs| == 3 && op.legs[0].sideBuy
  {
  }

  /**
   Self-financing at any fees. Replaying a reported opportunity along its cycle's route always
   ends at exactly 10000 plus the estimated profit with nothing in the intermediate assets; it never
   overdraws on the way if and only if the first leg's fee is at most one, the first two fees
   together keep no negative part, and the end is not a debt, which a threshold of at least -10000
   rules out.
   */
  lemma SelfFinancingIff(view: TriView, fees: FeeMap, minProfit: real, op: Opportunity)
    requires PositiveQuotes(view)
    requires Detect(view, fees, minProfit).Done? && op in Detect(view, fees, minProfit).value
    ensures |op.legs| == 3 && (0.0 <= START + minProfit ==> 0.0 <= START + op.estimatedProfit)
    ensures op in Cycle1(view, fees, minProfit).value || op in Cycle2(view, fees, minProfit).value
    ensures var end := Wallet(START + op.estimatedProfit, 0.0, 0.0);
            && (op in Cycle1(view, fees, minProfit).value ==>
                  && Replay([AB, AC, BC], fees, START_WALLET, op.legs) == end
                  && (Finances([AB, AC, BC], fees, op) <==>
                        NoDebt(TakerFee(fees, view.symAb), TakerFee(fees, view.symAc), op.estimatedProfit)))
            && (op in Cycle2(view, fees, minProfit).value ==>
                  && Replay([BC, AC, AB], fees, START_WALLET, op.legs) == end
                  && (Finances([BC, AC, AB], fees, op) <==>
                        NoDebt(TakerFee(fees, view.symBc), TakerFee(fees, view.symAc), op.estimatedProfit)))
  {
    hide Cycle1, Cycle2, Trade, Replay, PositiveQuotes, Finances, NoDebt, TakerFee, Wallets;
    DetectedExceeds(view, fees, minProfit, op);
    if op in Cycle1(view, fees, minProfit).value {
      Wallets1(view, fees, minProfit, op);
      FinancesByWallets([AB, AC, BC], fees, op);
    }
    if op in Cycle2(view, fees, minProfit).value {
      Wallets2(view, fees, minProfit, op);
      FinancesByWallets([BC, AC, AB], fees, op);
    }
  }

  /** With fees of at most one, every reported opportunity finances itself along its own cycle's route. */
  lemma SelfFinancing(view: TriView, fees: FeeMap, minProfit: real, op: Opportunity)
    requires PositiveQuotes(view) && UnitFees(view, fees)
    requires Detect(view, fees, minProfit).Done? && op in Detect(view, fees, minProfit).value
    ensures op in Cycle1(view, fees, minProfit).value || op in Cycle2(view, fees, minProfit).value
    ensures op in Cycle1(view, fees, minProfit).value ==> Finances([AB, AC, BC], fees, op)
    ensures op in Cycle2(view, fees, minProfit).value ==> Finances([BC, AC, AB], fees, op)
  {
    hide Cycle1, Cycle2, Detect, PositiveQuotes, Finances, TakerFee, Times;
    SelfFinancingIff(view, fees, minProfit, op);
    TimesNonNegative(1.0 - TakerFee(fees, view.symAb), 1.0 - TakerFee(fees, view.symAc));
    TimesNonNegative(1.0 - TakerFee(fees, view.symBc), 1.0 - TakerFee(fees, view.symAc));
    UnitProceeds(view, fees, minProfit, op);
  }

  /** Unit fees never turn 10000 into a debt, whatever the threshold. */
  lemma UnitProceeds(view: TriView, fees: FeeMap, minProfit: real, op: Opportunity)
    requires PositiveQuotes(view) && UnitFees(view, fees)
    requires Detect(view, fees, minProfit).Done? && op in Detect(view, fees, minProfit).value
    ensures 0.0 <= START + op.estimatedProfit
  {
    hide TakerFee, Times, Keep;
    var l0, l1, l2 := op.legs[0], op.legs[1], op.legs[2];
    var f0, f1, f2 := TakerFee(fees, l0.symbol), TakerFee(fees, l1.symbol), TakerFee(fees, l2.symbol);
    TimesNonNegative(1.0 - f0, 1.0 - f1);
    SecondBuySign(l0.price, f0, l1.price, f1);
    SecondSellSign(l0.price, f0, l1.price, f1);
    TimesNonNegative(l2.qty, l2.price);
    KeepNonNegative(Times(l2.qty, l2.price), f2);
  }

  lemma KeepNonNegative(x: real, fee: real)
    requires 0.0 <= x && fee <= 1.0
    ensures 0.0 <= Keep(x, fee)
  {
    ProductNonNegative(x, 1.0 - fee);
  }

  /**
   Two fees of 3.0, which validation admits: the first leg of the opportunity reported on flat unit
   prices spends the 10000 USDT and owes 20000 of what it bought.
   */
  lemma ReportedCycleOverdraws(symbols: Symbols, fees: FeeMap)
    requires TakerFee(fees, symbols.ab) == TakerFee(fees, symbols.bc) == 3.0 && TakerFee(fees, symbols.ac) == 0.0
    ensures var view := SpreadView(symbols, 1.0);
            && Cycle1(view, fees, 0.0).Done? && |Cycle1(view, fees, 0.0).value| == 1
            && (var op := Cycle1(view, fees, 0.0).value[0];
                && |op.legs| == 3 && !Finances([AB, AC, BC], fees, op)
                && Replay([AB, AC, BC], fees, START_WALLET, op.legs[..1]) == Wallet(0.0, -20000.0, 0.0))
  {
    hide TakerFee, Replay, Finances;
    ExamplesKeep(symbols, fees, 3.0);
    Cycle1Reported(SpreadView(symbols, 1.0), fees, 0.0);
    var op := Cycle1(SpreadView(symbols, 1.0), fees, 0.0).value[0];
    FinancesByWallets([AB, AC, BC], fees, op);
  }

  lemma PositiveQuotient(x: real, d: real)
    requires 0.0 <= x && 0.0 < d
    ensures 0.0 <= x / d && x / d * d == x
  {
    var q := x / d;
    assert q * d == x;
    if q < 0.0 { PositiveProduct(-q, d); }
  }
}
