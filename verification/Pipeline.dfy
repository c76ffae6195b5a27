/** The stages composed: from three books to a plan the executor completes. */
module Pipeline {
  import opened Wrappers
  import opened RealFacts
  import opened MarketTypes
  import opened OrderBooks
  import opened TriViews
  import opened TriArbitrage
  import opened Planner
  import opened Protocol
  import opened FillLedger
  import opened MockExecution
  import opened Rollbacks
  import Joint

  predicate PricedBook(b: Book) {
    (forall p :: p in b.bids ==> p > 0.0) && (forall p :: p in b.asks ==> p > 0.0)
  }

  /** No resting bid is above a resting ask. */
  predicate UncrossedBook(b: Book) {
    forall p, q :: p in b.bids && q in b.asks ==> p <= q
  }

  /** A value no bid is above and no ask is below. */
  predicate Values(b: Book, v: real) {
    (forall p :: p in b.bids ==> p <= v) && (forall q :: q in b.asks ==> v <= q)
  }

  datatype Triangle = Triangle(symAb: string, ab: Book, symBc: string, bc: Book, symAc: string, ac: Book) {
    function Symbols(): Symbols { TriArbitrage.Symbols.Symbols(symAb, symBc, symAc) }
  }

  /** The view a subscriber of this triangle is sent. */
  function Seen(t: Triangle, topN: nat): TriView {
    ViewOf(t.symAb, t.ab.Copy(t.symAb), t.symBc, t.bc.Copy(t.symBc), t.symAc, t.ac.Copy(t.symAc), topN)
  }

  lemma QuotesOfBook(b: Book, symbol: string, n: nat)
    ensures var bid, ask := Best(Prefix(Quotes(b.Copy(symbol).bids), n)), Best(Prefix(Quotes(b.Copy(symbol).asks), n));
            (bid.Some? ==> bid.value in b.bids) && (ask.Some? ==> ask.value in b.asks)
  {
    ViewAgreesWithBook(b, symbol, n);
  }

  lemma SeenQuotes(t: Triangle, n: nat)
    requires PricedBook(t.ab) && PricedBook(t.bc) && PricedBook(t.ac)
    ensures PositiveQuotes(Seen(t, n))
  {
    QuotesOfBook(t.ab, t.symAb, n);
    QuotesOfBook(t.bc, t.symBc, n);
    QuotesOfBook(t.ac, t.symAc, n);
  }

  /** Uncrossed books with positive prices never yield opportunities in both directions. */
  lemma BooksNeverBothDirections(t: Triangle, n: nat, fees: FeeMap, minProfit: real)
    requires PricedBook(t.ab) && PricedBook(t.bc) && PricedBook(t.ac)
    requires UncrossedBook(t.ab) && UncrossedBook(t.bc) && UncrossedBook(t.ac)
    requires ThresholdCovers(KeptFor(t.Symbols(), fees), minProfit)
    ensures AtMostOne(Detect(Seen(t, n), fees, minProfit))
  {
    SeenQuotes(t, n);
    QuotesOfBook(t.ab, t.symAb, n);
    QuotesOfBook(t.bc, t.symBc, n);
    QuotesOfBook(t.ac, t.symAc, n);
    NeverBothDirections(Seen(t, n), fees, minProfit);
  }

  /** Books consistent with one valuation of the three assets yield nothing. */
  lemma BooksNoPhantomArbitrage(t: Triangle, n: nat, fees: FeeMap, minProfit: real, vAb: real, vAc: real)
    requires PricedBook(t.ab) && PricedBook(t.bc) && PricedBook(t.ac)
    requires 0.0 <= vAb && 0.0 <= vAc
    requires Values(t.ab, vAb) && Values(t.ac, vAc) && Values(t.bc, Times(vAb, vAc))
    requires ThresholdCovers(KeptFor(t.Symbols(), fees), minProfit)
    ensures Detect(Seen(t, n), fees, minProfit) == Done([])
  {
    SeenQuotes(t, n);
    QuotesOfBook(t.ab, t.symAb, n);
    QuotesOfBook(t.bc, t.symBc, n);
    QuotesOfBook(t.ac, t.symAc, n);
    NoPhantomArbitrage(Seen(t, n), fees, minProfit, vAb, vAc);
  }

  // ----- what walking the books for an opportunity's quantities pays -----

  /** The levels an order for this leg walks, best first. */
  function Walked(b: Book, leg: LegEstimate): seq<Level> { b.Opposite(if leg.sideBuy then Bid else Ask) }

  /** Quoted at the best level, and deep enough to fill. */
  predicate Fillable(b: Book, leg: LegEstimate) {
    var levels := Walked(b, leg);
    levels != [] && leg.price == levels[0].price && 0.0 <= leg.qty <= Fill.Depth(levels)
  }

  predicate WithinBest(b: Book, leg: LegEstimate)
    requires Walked(b, leg) != []
  {
    leg.qty <= Walked(b, leg)[0].size
  }

  /** What the leg's order spends, walking the book. */
  function Spent(b: Book, leg: LegEstimate): real {
    if leg.sideBuy then Fill.Cost(Walked(b, leg), leg.qty) else leg.qty
  }

  /** What the leg's order delivers after its fee, walking the book. */
  function Received(b: Book, leg: LegEstimate, fee: real): real {
    Keep(if leg.sideBuy then leg.qty else Fill.Cost(Walked(b, leg), leg.qty), fee)
  }

  lemma WalkedLeg(b: Book, leg: LegEstimate, fee: real)
    requires b.PositiveSizes() && Fillable(b, leg)
    ensures Spent(b, leg) >= Drawn(leg, leg.qty)
    ensures Spent(b, leg) == Drawn(leg, leg.qty) <==> !leg.sideBuy || WithinBest(b, leg)
    ensures fee <= 1.0 ==> Received(b, leg, fee) <= Delivered(leg, leg.qty, fee)
    ensures fee >= 1.0 ==> Received(b, leg, fee) >= Delivered(leg, leg.qty, fee)
    ensures Received(b, leg, fee) == Delivered(leg, leg.qty, fee) <==> leg.sideBuy || WithinBest(b, leg) || fee == 1.0
  {
    hide Times, Keep, Fill.Cost, Fill.Depth;
    var levels := Walked(b, leg);
    if leg.sideBuy {
      Fill.BuyingAboveQuote(levels, leg.qty);
    } else {
      Fill.SellingBelowQuote(levels, leg.qty);
      KeepOrder(Fill.Cost(levels, leg.qty), Times(leg.qty, leg.price), fee);
    }
  }

  /** What is left after a fee follows the amount, backwards once the fee is above one. */
  lemma KeepOrder(x: real, y: real, fee: real)
    requires x <= y
    ensures fee <= 1.0 ==> Keep(x, fee) <= Keep(y, fee)
    ensures fee >= 1.0 ==> Keep(x, fee) >= Keep(y, fee)
    ensures Keep(x, fee) == Keep(y, fee) <==> x == y || fee == 1.0
  {
    assert (y - x) * (1.0 - fee) == Keep(y, fee) - Keep(x, fee);
    if x < y && fee < 1.0 {
      PositiveProduct(y - x, 1.0 - fee);
    } else if x < y && fee > 1.0 {
      PositiveProduct(y - x, fee - 1.0);
    }
  }

  lemma QuoteIsBestLevel(b: Book, symbol: string, n: nat)
    ensures var bid, ask := Best(Prefix(Quotes(b.Copy(symbol).bids), n)), Best(Prefix(Quotes(b.Copy(symbol).asks), n));
            && (bid.Some? ==> b.Opposite(Ask) != [] && bid.value == b.Opposite(Ask)[0].price)
            && (ask.Some? ==> b.Opposite(Bid) != [] && ask.value == b.Opposite(Bid)[0].price)
  {
  }

  /** The books a reported opportunity's legs trade on, in leg order. */
  predicate TradesOn(t: Triangle, n: nat, fees: FeeMap, minProfit: real, op: Opportunity, route: seq<Book>) {
    var c1, c2 := Cycle1(Seen(t, n), fees, minProfit), Cycle2(Seen(t, n), fees, minProfit);
    || (c1.Done? && op in c1.value && route == [t.ab, t.ac, t.bc])
    || (c2.Done? && op in c2.value && route == [t.bc, t.ac, t.ab])
  }

  lemma LegsAreQuoted(t: Triangle, n: nat, fees: FeeMap, minProfit: real, op: Opportunity, route: seq<Book>)
    requires TradesOn(t, n, fees, minProfit, op, route)
    ensures |op.legs| == |route| == 3
    ensures forall i :: 0 <= i < 3 ==>
            Walked(route[i], op.legs[i]) != [] && op.legs[i].price == Walked(route[i], op.legs[i])[0].price
  {
    hide Book.Copy, Book.Opposite, Prefix, Quotes, Times, Keep;
    QuoteIsBestLevel(t.ab, t.symAb, n);
    QuoteIsBestLevel(t.bc, t.symBc, n);
    QuoteIsBestLevel(t.ac, t.symAc, n);
  }

  /** Every leg is quoted at the best level of its book, which is deep enough to fill it. */
  predicate FillableAlong(op: Opportunity, route: seq<Book>) {
    |op.legs| == |route| == 3 && forall i :: 0 <= i < 3 ==> route[i].PositiveSizes() && Fillable(route[i], op.legs[i])
  }

  /** What the cycle nets, walking the books: received by its last leg less spent by its first. */
  function WalkedNet(op: Opportunity, route: seq<Book>, fees: FeeMap): real
    requires FillableAlong(op, route)
  {
    Received(route[2], op.legs[2], FeeOf(fees, op.legs[2])) - Spent(route[0], op.legs[0])
  }

  /** A sale that owes nothing at a fee above one sells nothing. */
  lemma NothingSold(leg: LegEstimate, fee: real)
    requires !leg.sideBuy && leg.price > 0.0 && leg.qty >= 0.0 && fee > 1.0
    requires 0.0 <= Delivered(leg, leg.qty, fee)
    ensures leg.qty == 0.0
  {
    if leg.qty > 0.0 {
      DeliveredDebt(leg, leg.qty, fee);
    }
  }

  /** Selling no more than the best level holds is selling at the quote. */
  lemma NothingWithinBest(b: Book, leg: LegEstimate)
    requires b.PositiveSizes() && Fillable(b, leg) && leg.qty == 0.0
    ensures WithinBest(b, leg)
  {
  }

  /**
   For legs sized as detection sizes them, at any fees: walking the books, no leg is ever left with
   more than the next one spends. If the last fee is at most one the cycle never nets more than its
   estimated profit, and nets exactly that if and only if the first leg fits the best level and so
   does the last, unless the last leg's fee takes everything. With a last fee above one and a first
   leg that fits, it nets no more than the estimate if and only if the last leg fits.
   */
  lemma EstimateIsUpperBound(op: Opportunity, route: seq<Book>, fees: FeeMap)
    requires Sized(op, fees) && FillableAlong(op, route)
    ensures forall i :: 0 < i < 3 ==>
              Received(route[i - 1], op.legs[i - 1], FeeOf(fees, op.legs[i - 1])) <= Spent(route[i], op.legs[i])
    ensures var net, fee := WalkedNet(op, route, fees), FeeOf(fees, op.legs[2]);
            var first, last := WithinBest(route[0], op.legs[0]), WithinBest(route[2], op.legs[2]);
            && (fee <= 1.0 ==>
                  net <= op.estimatedProfit && (net == op.estimatedProfit <==> first && (last || fee == 1.0)))
            && (fee > 1.0 && first ==> (net <= op.estimatedProfit <==> last))
  {
    hide Walked, Spent, Received, Delivered, Drawn, WithinBest, Fill.Depth;
    SizedIsChained(op, fees);
    WalkedLeg(route[0], op.legs[0], FeeOf(fees, op.legs[0]));
    WalkedLeg(route[1], op.legs[1], FeeOf(fees, op.legs[1]));
    WalkedLeg(route[2], op.legs[2], FeeOf(fees, op.legs[2]));
    SaleIsDrawn(op.legs[2], op.legs[2].qty);
    if FeeOf(fees, op.legs[1]) > 1.0 && !op.legs[1].sideBuy {
      NothingSold(op.legs[1], FeeOf(fees, op.legs[1]));
      NothingWithinBest(route[1], op.legs[1]);
    }
  }

  lemma SaleIsDrawn(leg: LegEstimate, qty: real)
    ensures !leg.sideBuy ==> Drawn(leg, qty) == qty
  {
  }

  /**
   Detected opportunities are sized so and quoted so: detection reads prices only, so depth alone is
   left to ask for, and quantities that can be ordered, which fees of at most one guarantee. A
   threshold of at least -10000 rules out a last fee above one.
   */
  lemma DetectedEstimateIsUpperBound(t: Triangle, n: nat, fees: FeeMap, minProfit: real, op: Opportunity,
                                     route: seq<Book>)
    requires PricedBook(t.ab) && PricedBook(t.bc) && PricedBook(t.ac) && TradesOn(t, n, fees, minProfit, op, route)
    requires forall i :: 0 <= i < |route| ==> route[i].PositiveSizes()
    requires forall i :: 0 <= i < |route| && i < |op.legs| ==>
             op.legs[i].qty <= Fill.Depth(Walked(route[i], op.legs[i]))
    requires forall i :: 0 <= i < |op.legs| ==> 0.0 <= op.legs[i].qty || UnitFees(Seen(t, n), fees)
    ensures Sized(op, fees) && FillableAlong(op, route)
    ensures 0.0 <= START + minProfit || UnitFees(Seen(t, n), fees) ==> WalkedNet(op, route, fees) <= op.estimatedProfit
  {
    hide PricedBook, Walked, WalkedNet, Fill.Depth, Seen, TakerFee, Cycle1, Cycle2;
    SeenQuotes(t, n);
    LegsAreQuoted(t, n, fees, minProfit, op, route);
    CyclesAreSized(Seen(t, n), fees, minProfit, op);
    LegFees(t, n, fees, minProfit, op, route);
    if UnitFees(Seen(t, n), fees) {
      SizedIsNonNegative(op, fees);
    }
    EstimateIsUpperBound(op, route, fees);
    if 0.0 <= START + minProfit {
      LastFeeKeeps(op, fees, minProfit);
    }
  }

  /** Each leg is charged one of the three fees, and the cycle was reported for exceeding the threshold. */
  lemma LegFees(t: Triangle, n: nat, fees: FeeMap, minProfit: real, op: Opportunity, route: seq<Book>)
    requires TradesOn(t, n, fees, minProfit, op, route)
    ensures |op.legs| == 3 && op.estimatedProfit > minProfit
    ensures UnitFees(Seen(t, n), fees) ==> forall i :: 0 <= i < 3 ==> FeeOf(fees, op.legs[i]) <= 1.0
  {
    hide TakerFee, Book.Copy, Prefix, Quotes, Times, Keep;
  }

  lemma LastFeeKeeps(op: Opportunity, fees: FeeMap, minProfit: real)
    requires Sized(op, fees) && 0.0 <= op.legs[2].qty && op.estimatedProfit > minProfit && 0.0 <= START + minProfit
    ensures FeeOf(fees, op.legs[2]) <= 1.0
  {
    var last, fee := op.legs[2], FeeOf(fees, op.legs[2]);
    if fee > 1.0 {
      NothingSold(last, fee);
      TimesZero(last.price);
    }
  }

  // ----- from detection to a completed plan -----

  /** A detected opportunity's plan is one the protocol accepts, for three executor reports. */
  lemma DetectedPlanIsExecutable(view: TriView, cfg: StrategyConfig, op: Opportunity, id: string)
    requires PositiveQuotes(view)
    requires Detect(view, cfg.fees, cfg.limits.minProfitAbs).Done?
    requires op in Detect(view, cfg.fees, cfg.limits.minProfitAbs).value
    ensures PlanOf(id, op, cfg).Done?
    ensures PlanOf(id, op, cfg).value.Ok? ==>
              var plan := PlanOf(id, op, cfg).value.value;
              && plan.id == id && WellFormed(plan) && |plan.legs| == 3
              && (AllTaker(plan) <==> cfg.aggression == Aggressive)
  {
    DetectedAreChained(view, cfg, cfg.limits.minProfitAbs, op);
    PositiveBasis(op);
    if PlanLegs(op.legs, cfg).Legs? {
      PlansAreWellFormed(id, op, cfg);
      var plan := PlanOf(id, op, cfg).value.value;
      assert SameOrder(plan.legs[0], op.legs[0], cfg);
      forall i | 0 <= i < 3 ensures plan.legs[i].isTaker <==> cfg.aggression == Aggressive {
        assert SameOrder(plan.legs[i], op.legs[i], cfg);
      }
    }
  }

  /**
   End to end, over every run of engine and executor: a plan built from a detected opportunity and
   sent is in flight exactly until it times out or its third report has been handled.
   */
  lemma DetectedPlanCompletes(view: TriView, cfg: StrategyConfig, op: Opportunity, id: string, moves: seq<Joint.Move>)
    requires PositiveQuotes(view)
    requires Detect(view, cfg.fees, cfg.limits.minProfitAbs).Done?
    requires op in Detect(view, cfg.fees, cfg.limits.minProfitAbs).value
    requires PlanOf(id, op, cfg).Done? && PlanOf(id, op, cfg).value.Ok?
    requires Joint.Run(cfg, moves).Some? && PlanOf(id, op, cfg).value.value in Joint.Run(cfg, moves).value.engine.sent
    ensures var s := Joint.Run(cfg, moves).value.engine;
            id in s.inflight <==> !TimedOut(s.removals, id) && |ReportsOn(s.handled, id)| < 3
  {
    hide PositiveQuotes, Detect, PlanOf, Joint.Run, Exec, Orderly, Accounted, TimedOut, ReportsOn;
    DetectedPlanIsExecutable(view, cfg, op, id);
    var plan, s := PlanOf(id, op, cfg).value.value, Joint.Run(cfg, moves).value.engine;
    Joint.EngineRunIsOrderly(cfg, moves);
    SentInvariant(cfg, Joint.EngineRun(cfg, moves));
    var i :| 0 <= i < |s.sent| && s.sent[i] == plan;
    assert s.sent[i].id == id;
    Joint.InFlightUntilLastReport(cfg, moves, id);
  }
}
