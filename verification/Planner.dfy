/** `crates/strategy/src/planner.rs` and the planning part of `config.rs`: opportunities into plans. */
module Planner {
  import opened Wrappers
  import opened RealFacts
  import opened TriViews
  import opened TriArbitrage

  datatype Aggression = Aggressive | Passive

  datatype LotRule = LotRule(minSize: real, stepSize: real, minNotional: real)

  datatype Limits = Limits(minProfitAbs: real, minProfitPct: real)

  datatype StrategyConfig = StrategyConfig(
    fees: FeeMap,
    limits: Limits,
    aggression: Aggression,
    maxConcurrentPlans: nat,
    orderTimeoutMs: nat,
    lotRules: map<string, LotRule>)

  datatype StrategyError =
    | QtyRoundedZero(symbol: string)
    | MinNotional(symbol: string, notional: real, required: real)

  type LegIdx = n: nat | n < 256

  datatype OrderLeg = OrderLeg(
    symbol: string,
    buyBase: bool,
    priceHint: real,
    qty: real,
    isTaker: bool,
    legIdx: LegIdx)

  datatype TradePlan = TradePlan(
    id: string,
    startCurrency: string,
    estimatedProfit: real,
    estimatedProfitPct: real,
    legs: seq<OrderLeg>)

  // ----- rounding -----

  function Steps(n: int, step: real): real { n as real * step }

  function RoundQtyToStep(qty: real, step: real): real {
    if step <= 0.0 then qty
    else
      var rounded := Steps((qty / step).Floor, step);
      if rounded < 0.0 then 0.0 else rounded
  }

  /** A whole number of steps. */
  ghost predicate OnGrid(x: real, step: real) {
    exists n: int :: x == Steps(n, step)
  }

  lemma FloorBounds(qty: real, step: real)
    requires step > 0.0
    ensures var n := (qty / step).Floor; Steps(n, step) <= qty < Steps(n, step) + step
  {
    var q := qty / step;
    var n := q.Floor as real;
    assert q * step == qty;
    AboveThisStep(qty, q, n, step);
    BelowNextStep(qty, q, n, step);
  }

  lemma AboveThisStep(qty: real, q: real, n: real, step: real)
    requires step > 0.0 && n <= q && q * step == qty
    ensures n * step <= qty
  {
    ScaleMonotone(step, n, q);
  }

  lemma BelowNextStep(qty: real, q: real, n: real, step: real)
    requires step > 0.0 && q < n + 1.0 && q * step == qty
    ensures qty < n * step + step
  {
    PositiveProduct(n + 1.0 - q, step);
    RoomBelowCeiling(n, q, step);
  }

  lemma RoomBelowCeiling(n: real, q: real, step: real)
    ensures (n + 1.0 - q) * step == n * step + step - q * step
  {
  }

  lemma StepsMonotone(m: int, n: int, step: real)
    requires m <= n && step > 0.0
    ensures Steps(m, step) <= Steps(n, step)
    ensures Steps(m + 1, step) == Steps(m, step) + step
  {
    ScaleMonotone(step, m as real, n as real);
    assert (m + 1) as real == m as real + 1.0;
    assert (m as real + 1.0) * step == m as real * step + step;
  }

  /** Rounding a quantity down keeps it non-negative, on the grid, and within one step. */
  lemma RoundingBounds(qty: real, step: real)
    requires qty >= 0.0
    ensures 0.0 <= RoundQtyToStep(qty, step) <= qty
    ensures step > 0.0 ==> qty < RoundQtyToStep(qty, step) + step && OnGrid(RoundQtyToStep(qty, step), step)
    ensures step <= 0.0 ==> RoundQtyToStep(qty, step) == qty
  {
    if step > 0.0 {
      var n := (qty / step).Floor;
      FloorBounds(qty, step);
      assert RoundQtyToStep(qty, step) == Steps(n, step) || RoundQtyToStep(qty, step) == Steps(0, step);
    }
  }

  /** ... and it is the largest grid point that is not above the quantity. */
  lemma RoundingIsGreatest(qty: real, step: real, n: int)
    requires qty >= 0.0 && step > 0.0 && Steps(n, step) <= qty
    ensures Steps(n, step) <= RoundQtyToStep(qty, step)
  {
    FloorBounds(qty, step);
    var m := (qty / step).Floor;
    if n > m {
      StepsMonotone(m + 1, n, step);
      StepsMonotone(m, m, step);
    } else {
      StepsMonotone(n, m, step);
    }
  }

  /** Rounding twice is rounding once. */
  lemma RoundingIdempotent(qty: real, step: real)
    requires qty >= 0.0
    ensures RoundQtyToStep(RoundQtyToStep(qty, step), step) == RoundQtyToStep(qty, step)
  {
    RoundingBounds(qty, step);
    var once := RoundQtyToStep(qty, step);
    RoundingBounds(once, step);
    if step > 0.0 {
      var n: int :| once == Steps(n, step);
      RoundingIsGreatest(once, step, n);
    }
  }

  // ----- one leg -----

  function PlannedQty(qty: real, rule: LotRule): real {
    var rounded := if rule.stepSize > 0.0 then RoundQtyToStep(qty, rule.stepSize) else qty;
    if rule.minSize > 0.0 && rounded < rule.minSize then rule.minSize else rounded
  }

  function PlanLeg(l: LegEstimate, cfg: StrategyConfig, idx: nat): Result<OrderLeg, StrategyError> {
    var taker := cfg.aggression == Aggressive;
    if l.symbol in cfg.lotRules then
      var rule := cfg.lotRules[l.symbol];
      var qty := PlannedQty(l.qty, rule);
      if rule.minNotional > 0.0 && Times(qty, l.price) < rule.minNotional then
        Err(MinNotional(l.symbol, Times(qty, l.price), rule.minNotional))
      else if qty <= 0.0 then Err(QtyRoundedZero(l.symbol))
      else Ok(OrderLeg(l.symbol, l.sideBuy, l.price, qty, taker, idx % 256))
    else if l.qty <= 0.0 then Err(QtyRoundedZero(l.symbol))
    else Ok(OrderLeg(l.symbol, l.sideBuy, l.price, l.qty, taker, idx % 256))
  }

  /**
   The planner never orders more than the estimate, and at most one step less, exactly when the
   minimum size is not above the estimate: that is when the min-size bump cannot oversize a leg.
   */
  lemma PlannedQtyBounds(qty: real, rule: LotRule)
    requires qty >= 0.0
    ensures PlannedQty(qty, rule) <= qty <==> rule.minSize <= 0.0 || rule.minSize <= qty
    ensures PlannedQty(qty, rule) >= RoundQtyToStep(qty, rule.stepSize)
    ensures rule.stepSize > 0.0 ==> qty < PlannedQty(qty, rule) + rule.stepSize
    ensures rule.stepSize <= 0.0 ==> qty <= PlannedQty(qty, rule)
  {
    RoundingBounds(qty, rule.stepSize);
  }

  // ----- what a planned quantity is -----

  /** The floor of a quantity in whole steps, a negative one counting as nothing. */
  ghost predicate FloorOf(q: real, qty: real, step: real) {
    OnGrid(q, step) && q <= (if qty < 0.0 then 0.0 else qty) < q + step
  }

  /**
   The quantity a lot rule makes of an estimate: its floor in whole steps, unless a positive minimum
   size is above every whole step that the estimate reaches, and then exactly the minimum size.
   Without a step it is the estimate, or a larger minimum size.
   */
  ghost predicate LotSized(qty: real, rule: LotRule, q: real) {
    if rule.stepSize > 0.0 then
      || (FloorOf(q, qty, rule.stepSize) && (rule.minSize > 0.0 ==> rule.minSize <= q))
      || (0.0 < rule.minSize == q && forall n: int :: Steps(n, rule.stepSize) <= qty ==> Steps(n, rule.stepSize) < q)
    else
      || (q == qty && (rule.minSize > 0.0 ==> rule.minSize <= q))
      || (0.0 < rule.minSize == q && qty < q)
  }

  lemma FloorIsUnique(q: real, r: real, qty: real, step: real)
    requires step > 0.0 && FloorOf(q, qty, step) && FloorOf(r, qty, step)
    ensures q == r
  {
    var m: int :| q == Steps(m, step);
    var n: int :| r == Steps(n, step);
    if m < n {
      StepsMonotone(m + 1, n, step);
      StepsMonotone(m, m, step);
    } else if n < m {
      StepsMonotone(n + 1, m, step);
      StepsMonotone(n, n, step);
    }
  }

  lemma NothingToRound(qty: real, step: real)
    requires qty < 0.0
    ensures RoundQtyToStep(qty, step) <= 0.0
  {
    if step > 0.0 {
      FloorBounds(qty, step);
    }
  }

  lemma RoundingIsFloor(qty: real, step: real)
    requires step > 0.0
    ensures FloorOf(RoundQtyToStep(qty, step), qty, step)
  {
    if qty < 0.0 {
      NothingToRound(qty, step);
      assert RoundQtyToStep(qty, step) == Steps(0, step);
    } else {
      RoundingBounds(qty, step);
    }
  }

  /** Nothing else is a lot-sized quantity. */
  lemma LotSizedIsUnique(qty: real, rule: LotRule, q: real, r: real)
    requires LotSized(qty, rule, q) && LotSized(qty, rule, r)
    ensures q == r
  {
    var step := rule.stepSize;
    if step > 0.0 {
      if FloorOf(q, qty, step) && FloorOf(r, qty, step) {
        FloorIsUnique(q, r, qty, step);
      } else if FloorOf(q, qty, step) {
        FloorReached(q, qty, step, r);
      } else if FloorOf(r, qty, step) {
        FloorReached(r, qty, step, q);
      }
    }
  }

  /** No bound above every step the estimate reaches is at most the floor, unless the floor is nothing. */
  lemma FloorReached(q: real, qty: real, step: real, bound: real)
    requires step > 0.0 && FloorOf(q, qty, step) && 0.0 < bound
    requires forall n: int :: Steps(n, step) <= qty ==> Steps(n, step) < bound
    ensures q < bound
  {
    var n: int :| q == Steps(n, step);
  }

  /** The planner's quantity is the lot-sized one. */
  lemma PlannedIsLotSized(qty: real, rule: LotRule)
    ensures LotSized(qty, rule, PlannedQty(qty, rule))
  {
    var step := rule.stepSize;
    if step > 0.0 {
      RoundingIsFloor(qty, step);
      var rounded := RoundQtyToStep(qty, step);
      if 0.0 < rule.minSize && rounded < rule.minSize {
        forall n: int | Steps(n, step) <= qty ensures Steps(n, step) < rule.minSize {
          if qty >= 0.0 {
            RoundingIsGreatest(qty, step, n);
          }
        }
      }
    }
  }

  predicate BelowNotional(rule: LotRule, qty: real, price: real) {
    rule.minNotional > 0.0 && Times(qty, price) < rule.minNotional
  }

  /**
   A leg is refused if and only if its lot-sized quantity misses a positive minimum notional or is
   not positive, the notional being looked at first; otherwise that quantity is ordered.
   */
  lemma LegRefusedIff(l: LegEstimate, cfg: StrategyConfig, idx: nat, q: real)
    requires if l.symbol in cfg.lotRules then LotSized(l.qty, cfg.lotRules[l.symbol], q) else q == l.qty
    ensures var missed := l.symbol in cfg.lotRules && BelowNotional(cfg.lotRules[l.symbol], q, l.price);
            match PlanLeg(l, cfg, idx)
            case Ok(leg) => !missed && 0.0 < q && leg.qty == q
            case Err(MinNotional(symbol, notional, required)) =>
              missed && symbol == l.symbol && notional == q * l.price && required == cfg.lotRules[l.symbol].minNotional
            case Err(QtyRoundedZero(symbol)) => !missed && q <= 0.0 && symbol == l.symbol
  {
    hide LotSized, PlannedQty;
    if l.symbol in cfg.lotRules {
      PlannedIsLotSized(l.qty, cfg.lotRules[l.symbol]);
      LotSizedIsUnique(l.qty, cfg.lotRules[l.symbol], q, PlannedQty(l.qty, cfg.lotRules[l.symbol]));
    }
  }

  // ----- the whole plan -----

  datatype LegsResult = Legs(legs: seq<OrderLeg>) | Refused(error: StrategyError)

  /** The planned legs of a prefix, or the first leg's error. */
  function PlanLegs(ls: seq<LegEstimate>, cfg: StrategyConfig): LegsResult {
    if ls == [] then Legs([])
    else
      var n := |ls| - 1;
      match PlanLegs(ls[..n], cfg)
      case Refused(e) => Refused(e)
      case Legs(done) =>
        match PlanLeg(ls[n], cfg, n)
        case Err(e) => Refused(e)
        case Ok(leg) => Legs(done + [leg])
  }

  /** The divisor of `estimated_profit_pct`. */
  function ProfitBasis(op: Opportunity): real {
    if op.legs == [] then 1.0 else Times(op.legs[0].qty, op.impliedPrice)
  }

  function PlanOf(id: string, op: Opportunity, cfg: StrategyConfig): Outcome<Result<TradePlan, StrategyError>> {
    match PlanLegs(op.legs, cfg)
    case Refused(e) => Done(Err(e))
    case Legs(legs) =>
      if ProfitBasis(op) == 0.0 then Panicked
      else Done(Ok(TradePlan(id, op.startCurrency, op.estimatedProfit, op.estimatedProfit / ProfitBasis(op), legs)))
  }

  lemma {:induction false} FirstErrorSticks(ls: seq<LegEstimate>, cfg: StrategyConfig, i: nat)
    requires i <= |ls| && PlanLegs(ls[..i], cfg).Refused?
    ensures PlanLegs(ls, cfg) == PlanLegs(ls[..i], cfg)
  {
    if i < |ls| {
      var n := |ls| - 1;
      assert ls[..n][..i] == ls[..i];
      FirstErrorSticks(ls[..n], cfg, i);
    } else {
      assert ls[..i] == ls;
    }
  }

  /** The loop body of `build_trade_plan`: round, bump to the minimum size, check, emit. */
  method BuildLeg(l: LegEstimate, cfg: StrategyConfig, idx: nat) returns (r: Result<OrderLeg, StrategyError>)
    ensures r == PlanLeg(l, cfg, idx)
  {
    var qty := l.qty;
    if l.symbol in cfg.lotRules {
      var rule := cfg.lotRules[l.symbol];
      if rule.stepSize > 0.0 {
        qty := RoundQtyToStep(qty, rule.stepSize);
      }
      if rule.minSize > 0.0 {
        if qty < rule.minSize {
          qty := rule.minSize;
        }
      }
      if rule.minNotional > 0.0 {
        var notional := Times(qty, l.price);
        if notional < rule.minNotional {
          return Err(MinNotional(l.symbol, notional, rule.minNotional));
        }
      }
    } else {
      if qty <= 0.0 {
        return Err(QtyRoundedZero(l.symbol));
      }
    }
    if qty <= 0.0 {
      return Err(QtyRoundedZero(l.symbol));
    }
    var isTaker := cfg.aggression == Aggressive;
    r := Ok(OrderLeg(l.symbol, l.sideBuy, l.price, qty, isTaker, idx % 256));
  }

  /** `build_trade_plan`; the fresh uuid is a parameter. */
  method BuildTradePlan(id: string, op: Opportunity, cfg: StrategyConfig)
    returns (r: Outcome<Result<TradePlan, StrategyError>>)
    ensures r == PlanOf(id, op, cfg)
  {
    var legs: seq<OrderLeg> := [];
    for idx := 0 to |op.legs|
      invariant PlanLegs(op.legs[..idx], cfg) == Legs(legs)
    {
      assert op.legs[..idx + 1][..idx] == op.legs[..idx];
      var planned := BuildLeg(op.legs[idx], cfg, idx);
      if planned.Err? {
        FirstErrorSticks(op.legs, cfg, idx + 1);
        return Done(Err(planned.error));
      }
      legs := legs + [planned.value];
    }
    assert op.legs[..|op.legs|] == op.legs;
    var basis := ProfitBasis(op);
    if basis == 0.0 {
      return Panicked;
    }
    r := Done(Ok(TradePlan(id, op.startCurrency, op.estimatedProfit, op.estimatedProfit / basis, legs)));
  }

  /** What every built plan promises the engine and the executor. */
  predicate WellFormed(plan: TradePlan) {
    && (forall i :: 0 <= i < |plan.legs| ==> plan.legs[i].qty > 0.0)
    && (forall i :: 0 <= i < |plan.legs| ==> plan.legs[i].legIdx == i % 256)
  }

  lemma {:induction false} PlannedLegs(ls: seq<LegEstimate>, cfg: StrategyConfig)
    requires PlanLegs(ls, cfg).Legs?
    ensures var legs := PlanLegs(ls, cfg).legs;
            && |legs| == |ls|
            && forall i :: 0 <= i < |ls| ==> PlanLeg(ls[i], cfg, i) == Ok(legs[i])
  {
    if ls != [] {
      PlannedLegs(ls[..|ls| - 1], cfg);
    }
  }

  /** A plan is refused if and only if some leg is, and then with the first such leg's error. */
  lemma {:induction false} RefusedAtFirst(ls: seq<LegEstimate>, cfg: StrategyConfig)
    ensures PlanLegs(ls, cfg).Refused? <==> exists i :: 0 <= i < |ls| && PlanLeg(ls[i], cfg, i).Err?
    ensures forall i :: 0 <= i < |ls| && PlanLeg(ls[i], cfg, i).Err?
                        && (forall j :: 0 <= j < i ==> PlanLeg(ls[j], cfg, j).Ok?) ==>
              PlanLegs(ls, cfg) == Refused(PlanLeg(ls[i], cfg, i).error)
  {
    hide PlanLeg;
    if ls != [] {
      var n := |ls| - 1;
      RefusedAtFirst(ls[..n], cfg);
      assert forall i :: 0 <= i < n ==> ls[..n][i] == ls[i];
      if PlanLegs(ls[..n], cfg).Refused? {
        var i :| 0 <= i < n && PlanLeg(ls[..n][i], cfg, i).Err?;
        assert PlanLeg(ls[i], cfg, i).Err?;
      }
    }
  }

  predicate SameOrder(leg: OrderLeg, l: LegEstimate, cfg: StrategyConfig) {
    && leg.symbol == l.symbol && leg.buyBase == l.sideBuy && leg.priceHint == l.price
    && (leg.isTaker <==> cfg.aggression == Aggressive)
  }

  /** Every leg of a built plan orders the lot-sized quantity of its estimate, or the estimate if no rule applies. */
  ghost predicate OrdersLots(legs: seq<OrderLeg>, ls: seq<LegEstimate>, cfg: StrategyConfig)
    requires |legs| == |ls|
  {
    forall i :: 0 <= i < |ls| ==>
      if ls[i].symbol in cfg.lotRules then LotSized(ls[i].qty, cfg.lotRules[ls[i].symbol], legs[i].qty)
      else legs[i].qty == ls[i].qty
  }

  lemma PlansAreLotSized(id: string, op: Opportunity, cfg: StrategyConfig)
    requires PlanOf(id, op, cfg).Done? && PlanOf(id, op, cfg).value.Ok?
    ensures |PlanOf(id, op, cfg).value.value.legs| == |op.legs|
    ensures OrdersLots(PlanOf(id, op, cfg).value.value.legs, op.legs, cfg)
  {
    hide LotSized, PlannedQty;
    PlannedLegs(op.legs, cfg);
    forall i | 0 <= i < |op.legs| && op.legs[i].symbol in cfg.lotRules
      ensures LotSized(op.legs[i].qty, cfg.lotRules[op.legs[i].symbol], PlanOf(id, op, cfg).value.value.legs[i].qty)
    {
      PlannedIsLotSized(op.legs[i].qty, cfg.lotRules[op.legs[i].symbol]);
    }
  }

  /**
   A plan carries the opportunity's currency and profit, and the profit per unit of first-leg
   quantity times implied price.
   */
  lemma PlansCarryProfit(id: string, op: Opportunity, cfg: StrategyConfig)
    requires PlanOf(id, op, cfg).Done? && PlanOf(id, op, cfg).value.Ok?
    ensures var plan := PlanOf(id, op, cfg).value.value;
            && plan.startCurrency == op.startCurrency && plan.estimatedProfit == op.estimatedProfit
            && (op.legs != [] ==> plan.estimatedProfitPct * (op.legs[0].qty * op.impliedPrice) == op.estimatedProfit)
            && (op.legs == [] ==> plan.estimatedProfitPct == op.estimatedProfit)
  {
    hide PlanLegs;
    PerUnitTimes(op.estimatedProfit, ProfitBasis(op));
  }

  /** Planning panics if and only if every leg is accepted and the profit would be divided by zero. */
  lemma PlanPanicsIff(id: string, op: Opportunity, cfg: StrategyConfig)
    ensures PlanOf(id, op, cfg).Panicked? <==>
              && (forall i :: 0 <= i < |op.legs| ==> PlanLeg(op.legs[i], cfg, i).Ok?)
              && op.legs != [] && op.legs[0].qty * op.impliedPrice == 0.0
  {
    hide PlanLeg, PlanLegs;
    RefusedAtFirst(op.legs, cfg);
  }

  lemma PlansAreWellFormed(id: string, op: Opportunity, cfg: StrategyConfig)
    requires PlanOf(id, op, cfg).Done? && PlanOf(id, op, cfg).value.Ok?
    ensures var plan := PlanOf(id, op, cfg).value.value;
            && WellFormed(plan) && plan.id == id && |plan.legs| == |op.legs|
            && (forall i :: 0 <= i < |op.legs| ==> SameOrder(plan.legs[i], op.legs[i], cfg))
  {
    PlannedLegs(op.legs, cfg);
    forall i | 0 <= i < |op.legs| ensures PlanLeg(op.legs[i], cfg, i).Ok? {
    }
  }

  // ----- rounding error across a chain of legs -----

  /** What a leg of this quantity draws from the asset it spends. */
  function Drawn(l: LegEstimate, qty: real): real {
    if l.sideBuy then Times(qty, l.price) else qty
  }

  /** What a leg of this quantity delivers after its fee. */
  function Delivered(l: LegEstimate, qty: real, fee: real): real {
    Keep(if l.sideBuy then qty else Times(qty, l.price), fee)
  }

  /** Every leg spends exactly what the leg before it delivered. */
  predicate Chained(legs: seq<LegEstimate>, fees: FeeMap) {
    forall i :: 0 < i < |legs| ==>
      Drawn(legs[i], legs[i].qty) == Delivered(legs[i - 1], legs[i - 1].qty, TakerFee(fees, legs[i - 1].symbol))
  }

  function Step(cfg: StrategyConfig, symbol: string): real {
    if symbol in cfg.lotRules && cfg.lotRules[symbol].stepSize > 0.0 then cfg.lotRules[symbol].stepSize else 0.0
  }

  /** This leg's minimum size does not exceed its estimated quantity, so no bump oversizes it. */
  predicate NotOversized(l: LegEstimate, cfg: StrategyConfig) {
    l.symbol in cfg.lotRules ==> cfg.lotRules[l.symbol].minSize <= 0.0 || cfg.lotRules[l.symbol].minSize <= l.qty
  }

  predicate Priced(legs: seq<LegEstimate>) {
    forall i :: 0 <= i < |legs| ==> legs[i].price > 0.0
  }

  /** A planned leg orders no more than its estimate exactly if not oversized, and never a whole step less. */
  lemma PlannedLegBounds(l: LegEstimate, cfg: StrategyConfig, idx: nat)
    requires PlanLeg(l, cfg, idx).Ok?
    ensures 0.0 < PlanLeg(l, cfg, idx).value.qty
    ensures PlanLeg(l, cfg, idx).value.qty <= l.qty <==> NotOversized(l, cfg)
    ensures l.qty <= PlanLeg(l, cfg, idx).value.qty + Step(cfg, l.symbol)
  {
    if l.symbol in cfg.lotRules {
      if l.qty < 0.0 {
        NothingToRound(l.qty, cfg.lotRules[l.symbol].stepSize);
        return;
      }
      PlannedQtyBounds(l.qty, cfg.lotRules[l.symbol]);
    }
  }

  lemma DrawnMonotone(l: LegEstimate, x: real, y: real)
    requires l.price > 0.0 && x <= y
    ensures Drawn(l, x) <= Drawn(l, y)
  {
    ScaleMonotone(l.price, x, y);
  }

  lemma DeliveredShortfall(l: LegEstimate, x: real, y: real, s: real, fee: real)
    requires l.price > 0.0 && fee <= 1.0 && y <= x + s
    ensures Delivered(l, y, fee) <= Delivered(l, x, fee) + Delivered(l, s, fee)
  {
    var k := 1.0 - fee;
    if l.sideBuy {
      ScaleMonotone(k, y, x + s);
      assert (x + s) * k == x * k + s * k;
    } else {
      ScaleMonotone(l.price, y, x + s);
      ScaleMonotone(k, y * l.price, (x + s) * l.price);
      assert (x + s) * l.price * k == x * l.price * k + s * l.price * k;
    }
  }

  /** A fee above one turns everything a leg delivers into a debt. */
  lemma DeliveredDebt(l: LegEstimate, qty: real, fee: real)
    requires l.price > 0.0 && fee > 1.0 && qty > 0.0
    ensures Delivered(l, qty, fee) < 0.0
  {
    PositiveProduct(qty, l.price);
    PositiveProduct(if l.sideBuy then qty else qty * l.price, fee - 1.0);
  }

  lemma DeliveredSum(l: LegEstimate, x: real, y: real, fee: real)
    ensures Delivered(l, x + y, fee) == Delivered(l, x, fee) + Delivered(l, y, fee)
  {
    var k := 1.0 - fee;
    assert (x + y) * k == x * k + y * k;
    assert (x + y) * l.price * k == x * l.price * k + y * l.price * k;
  }

  lemma DrawnPositive(l: LegEstimate, qty: real)
    requires l.price > 0.0 && qty > 0.0
    ensures Drawn(l, qty) > 0.0
  {
    PositiveProduct(qty, l.price);
  }

  /** What planned leg i draws is covered by what the one before delivers and one step of it. */
  predicate WithinOneStep(ls: seq<LegEstimate>, legs: seq<OrderLeg>, cfg: StrategyConfig, i: nat)
    requires 0 < i < |ls| == |legs|
  {
    var prev, fee := ls[i - 1], TakerFee(cfg.fees, ls[i - 1].symbol);
    Drawn(ls[i], legs[i].qty) <= Delivered(prev, legs[i - 1].qty, fee) + Delivered(prev, Step(cfg, prev.symbol), fee)
  }

  /**
   Rounding error between legs: a rounded leg that its minimum size does not oversize overdraws
   what the rounded leg before it delivers by at most one step of that leg, carried through its
   rate and fee, if and only if that fee is at most one.
   */
  lemma OverdrawWithinOneStep(op: Opportunity, cfg: StrategyConfig, i: nat)
    requires 0 < i < |op.legs| && Chained(op.legs, cfg.fees) && Priced(op.legs) && NotOversized(op.legs[i], cfg)
    requires PlanLegs(op.legs, cfg).Legs?
    ensures |PlanLegs(op.legs, cfg).legs| == |op.legs|
    ensures WithinOneStep(op.legs, PlanLegs(op.legs, cfg).legs, cfg, i) <==>
            TakerFee(cfg.fees, op.legs[i - 1].symbol) <= 1.0
  {
    hide Drawn, Delivered;
    PlannedLegs(op.legs, cfg);
    var legs, prev := PlanLegs(op.legs, cfg).legs, op.legs[i - 1];
    var fee, step := TakerFee(cfg.fees, prev.symbol), Step(cfg, prev.symbol);
    assert PlanLeg(prev, cfg, i - 1) == Ok(legs[i - 1]) && PlanLeg(op.legs[i], cfg, i) == Ok(legs[i]);
    PlannedLegBounds(prev, cfg, i - 1);
    PlannedLegBounds(op.legs[i], cfg, i);
    if fee <= 1.0 {
      DrawnMonotone(op.legs[i], legs[i].qty, op.legs[i].qty);
      DeliveredShortfall(prev, legs[i - 1].qty, prev.qty, step, fee);
    } else {
      DeliveredSum(prev, legs[i - 1].qty, step, fee);
      DeliveredDebt(prev, legs[i - 1].qty + step, fee);
      DrawnPositive(op.legs[i], legs[i].qty);
    }
  }

  /** Start currency delivered by the last leg less start currency drawn by the first. */
  function Net(ls: seq<LegEstimate>, qFirst: real, qLast: real, fees: FeeMap): real
    requires ls != []
  {
    Delivered(ls[|ls| - 1], qLast, TakerFee(fees, ls[|ls| - 1].symbol)) - Drawn(ls[0], qFirst)
  }

  /** Rounding costs a cycle whose first leg is not oversized at most one step of its last leg. */
  lemma NetAfterRounding(op: Opportunity, cfg: StrategyConfig)
    requires op.legs != [] && Priced(op.legs) && NotOversized(op.legs[0], cfg)
    requires TakerFee(cfg.fees, op.legs[|op.legs| - 1].symbol) <= 1.0
    requires PlanLegs(op.legs, cfg).Legs?
    ensures var n, legs := |op.legs|, PlanLegs(op.legs, cfg).legs;
            var last := op.legs[n - 1];
            && |legs| == n
            && Net(op.legs, legs[0].qty, legs[n - 1].qty, cfg.fees) >=
                 Net(op.legs, op.legs[0].qty, last.qty, cfg.fees)
                 - Delivered(last, Step(cfg, last.symbol), TakerFee(cfg.fees, last.symbol))
  {
    PlannedLegs(op.legs, cfg);
    var n, legs := |op.legs|, PlanLegs(op.legs, cfg).legs;
    var last := op.legs[n - 1];
    PlannedLegBounds(op.legs[0], cfg, 0);
    PlannedLegBounds(last, cfg, n - 1);
    DrawnMonotone(op.legs[0], legs[0].qty, op.legs[0].qty);
    DeliveredShortfall(last, legs[n - 1].qty, last.qty, Step(cfg, last.symbol), TakerFee(cfg.fees, last.symbol));
  }

  /** Detected opportunities are chained, priced, and net exactly their estimated profit, whatever the fees. */
  lemma DetectedAreChained(view: TriView, cfg: StrategyConfig, minProfit: real, op: Opportunity)
    requires PositiveQuotes(view)
    requires Detect(view, cfg.fees, minProfit).Done? && op in Detect(view, cfg.fees, minProfit).value
    ensures |op.legs| == 3 && Chained(op.legs, cfg.fees) && Priced(op.legs)
    ensures Net(op.legs, op.legs[0].qty, op.legs[2].qty, cfg.fees) == op.estimatedProfit
    ensures Drawn(op.legs[0], op.legs[0].qty) == START
    ensures op.impliedPrice > 0.0 && op.legs[0].qty > 0.0
    ensures UnitFees(view, cfg.fees) ==> forall i :: 0 <= i < 3 ==> 0.0 <= op.legs[i].qty
  {
    DetectedAreSized(view, cfg.fees, minProfit, op);
    SizedIsChained(op, cfg.fees);
    if UnitFees(view, cfg.fees) {
      LegsAreCharged(view, cfg.fees, minProfit, op);
      SizedIsNonNegative(op, cfg.fees);
    }
  }

  lemma LegsAreCharged(view: TriView, fees: FeeMap, minProfit: real, op: Opportunity)
    requires Detect(view, fees, minProfit).Done? && op in Detect(view, fees, minProfit).value && UnitFees(view, fees)
    ensures |op.legs| == 3 && forall i :: 0 <= i < 3 ==> UnitFee(FeeOf(fees, op.legs[i]))
  {
    hide TakerFee, Times, Keep;
  }

  lemma DetectedAreSized(view: TriView, fees: FeeMap, minProfit: real, op: Opportunity)
    requires PositiveQuotes(view)
    requires Detect(view, fees, minProfit).Done? && op in Detect(view, fees, minProfit).value
    ensures Sized(op, fees) && op.impliedPrice > 0.0
  {
    hide Cycle1, Cycle2, Sized;
    CyclesAreSized(view, fees, minProfit, op);
  }

  lemma CyclesAreSized(view: TriView, fees: FeeMap, minProfit: real, op: Opportunity)
    requires PositiveQuotes(view)
    requires var c1, c2 := Cycle1(view, fees, minProfit), Cycle2(view, fees, minProfit);
             (c1.Done? && op in c1.value) || (c2.Done? && op in c2.value)
    ensures Sized(op, fees) && op.impliedPrice > 0.0
  {
    hide Cycle1, Cycle2, Sized;
    if Cycle1(view, fees, minProfit).Done? && op in Cycle1(view, fees, minProfit).value {
      Cycle1IsSized(view, fees, minProfit, op);
    } else {
      Cycle2IsSized(view, fees, minProfit, op);
    }
  }

  function FeeOf(fees: FeeMap, l: LegEstimate): real { TakerFee(fees, l.symbol) }

  /** The sizing both cycles share: start divided by the first ask, then leg by leg. */
  predicate Sized(op: Opportunity, fees: FeeMap) {
    && |op.legs| == 3
    && (forall i :: 0 <= i < 3 ==> op.legs[i].price > 0.0)
    && op.legs[0].sideBuy && !op.legs[2].sideBuy
    && op.legs[0].qty == START / op.legs[0].price
    && (var delivered := Delivered(op.legs[0], op.legs[0].qty, FeeOf(fees, op.legs[0]));
        op.legs[1].qty == if op.legs[1].sideBuy then delivered / op.legs[1].price else delivered)
    && op.legs[2].qty == Delivered(op.legs[1], op.legs[1].qty, FeeOf(fees, op.legs[1]))
    && op.estimatedProfit == Delivered(op.legs[2], op.legs[2].qty, FeeOf(fees, op.legs[2])) - START
  }

  lemma SizedIsChained(op: Opportunity, fees: FeeMap)
    requires Sized(op, fees)
    ensures Chained(op.legs, fees) && Priced(op.legs)
    ensures Net(op.legs, op.legs[0].qty, op.legs[2].qty, fees) == op.estimatedProfit
    ensures Drawn(op.legs[0], op.legs[0].qty) == START
    ensures op.legs[0].qty > 0.0
  {
    var l0, l1, l2 := op.legs[0], op.legs[1], op.legs[2];
    DrawnOfQuotient(l0, START);
    PositiveRatio(START, l0.price);
    if l1.sideBuy {
      DrawnOfQuotient(l1, Delivered(l0, l0.qty, FeeOf(fees, l0)));
    }
  }

  /** With fees of at most one every estimated quantity is one that can be ordered. */
  lemma SizedIsNonNegative(op: Opportunity, fees: FeeMap)
    requires Sized(op, fees) && forall i :: 0 <= i < 3 ==> FeeOf(fees, op.legs[i]) <= 1.0
    ensures forall i :: 0 <= i < 3 ==> 0.0 <= op.legs[i].qty
  {
    var l0, l1, l2 := op.legs[0], op.legs[1], op.legs[2];
    PositiveRatio(START, l0.price);
    DeliveredNonNegative(l0, l0.qty, FeeOf(fees, l0));
    if l1.sideBuy {
      PositiveQuotient(Delivered(l0, l0.qty, FeeOf(fees, l0)), l1.price);
    }
    DeliveredNonNegative(l1, l1.qty, FeeOf(fees, l1));
  }

  lemma Cycle1IsSized(view: TriView, fees: FeeMap, minProfit: real, op: Opportunity)
    requires PositiveQuotes(view)
    requires Cycle1(view, fees, minProfit).Done? && op in Cycle1(view, fees, minProfit).value
    ensures Sized(op, fees) && op.impliedPrice > 0.0
  {
    var l0, l1, l2 := op.legs[0], op.legs[1], op.legs[2];
    PositiveProduct(l0.price, l1.price);
    PositiveRatio(l2.price, Times(l0.price, l1.price));
  }

  lemma Cycle2IsSized(view: TriView, fees: FeeMap, minProfit: real, op: Opportunity)
    requires PositiveQuotes(view)
    requires Cycle2(view, fees, minProfit).Done? && op in Cycle2(view, fees, minProfit).value
    ensures Sized(op, fees) && op.impliedPrice > 0.0
  {
    var l0, l1, l2 := op.legs[0], op.legs[1], op.legs[2];
    PositiveProduct(l2.price, l1.price);
    PositiveRatio(Times(l2.price, l1.price), l0.price);
  }

  /** A buy leg sized by dividing by its price draws exactly what was divided. */
  lemma DrawnOfQuotient(l: LegEstimate, x: real)
    requires l.sideBuy && 0.0 < l.price && l.qty == x / l.price
    ensures Drawn(l, l.qty) == x
  {
    PerUnitTimes(x, l.price);
  }

  lemma DeliveredNonNegative(l: LegEstimate, qty: real, fee: real)
    requires 0.0 < l.price && 0.0 <= qty && fee <= 1.0
    ensures 0.0 <= Delivered(l, qty, fee)
  {
    ProductNonNegative(qty, l.price);
    ProductNonNegative(if l.sideBuy then qty else qty * l.price, 1.0 - fee);
  }

  lemma PositiveRatio(x: real, d: real)
    requires 0.0 < x && 0.0 < d
    ensures 0.0 < x / d
  {
    PositiveQuotient(x, d);
  }

  /**
   Detector and planner together, at any fees: rounding a detected opportunity leaves every leg that
   is not oversized funded to within one step of the leg before exactly when that leg's fee is at
   most one, and, if the first leg is not oversized and the last fee is at most one, the cycle's net
   at least its estimate less one step of the last leg sold at its price after fee.
   */
  lemma RoundedCycle(view: TriView, cfg: StrategyConfig, minProfit: real, op: Opportunity, id: string)
    requires PositiveQuotes(view)
    requires Detect(view, cfg.fees, minProfit).Done? && op in Detect(view, cfg.fees, minProfit).value
    ensures PlanOf(id, op, cfg).Done?
    ensures PlanOf(id, op, cfg).value.Ok? ==>
              var plan := PlanOf(id, op, cfg).value.value;
              && |op.legs| == |plan.legs| == 3
              && (forall i :: 0 < i < 3 && NotOversized(op.legs[i], cfg) ==>
                    (WithinOneStep(op.legs, plan.legs, cfg, i) <==> FeeOf(cfg.fees, op.legs[i - 1]) <= 1.0))
              && (NotOversized(op.legs[0], cfg) && FeeOf(cfg.fees, op.legs[2]) <= 1.0 ==>
                    Net(op.legs, plan.legs[0].qty, plan.legs[2].qty, cfg.fees) >=
                      op.estimatedProfit
                      - Delivered(op.legs[2], Step(cfg, op.legs[2].symbol), FeeOf(cfg.fees, op.legs[2])))
  {
    hide Detect, PositiveQuotes, Delivered, Drawn, WithinOneStep;
    DetectedAreChained(view, cfg, minProfit, op);
    PositiveBasis(op);
    if PlanLegs(op.legs, cfg).Legs? {
      PlannedLegs(op.legs, cfg);
      forall i | 0 < i < 3 && NotOversized(op.legs[i], cfg)
        ensures WithinOneStep(op.legs, PlanLegs(op.legs, cfg).legs, cfg, i) <==> FeeOf(cfg.fees, op.legs[i - 1]) <= 1.0
      {
        OverdrawWithinOneStep(op, cfg, i);
      }
      if NotOversized(op.legs[0], cfg) && FeeOf(cfg.fees, op.legs[2]) <= 1.0 {
        NetAfterRounding(op, cfg);
      }
    }
  }

  // ----- pre-trade checks: `crates/strategy/src/engine.rs` -----

  function PreTradeChecks(op: Opportunity, limits: Limits): Outcome<bool> {
    if op.estimatedProfit <= limits.minProfitAbs then Done(false)
    else if limits.minProfitPct > 0.0 then
      if op.legs == [] then Done(false)
      else
        var startAmount := Times(op.legs[0].qty, op.impliedPrice);
        if startAmount == 0.0 then Panicked
        else Done(!(op.estimatedProfit / startAmount < limits.minProfitPct))
    else Done(true)
  }

  /**
   On detected opportunities the checks never panic, the absolute threshold never fires (detection
   already applied it), and the percentage threshold is `profit >= pct * basis`. The basis is the
   10000 the cycle starts with if and only if the implied price equals the first leg's price.
   */
  lemma ChecksOnDetected(view: TriView, cfg: StrategyConfig, op: Opportunity)
    requires PositiveQuotes(view)
    requires Detect(view, cfg.fees, cfg.limits.minProfitAbs).Done?
    requires op in Detect(view, cfg.fees, cfg.limits.minProfitAbs).value
    ensures op.legs != []
    ensures PreTradeChecks(op, cfg.limits) ==
              Done(cfg.limits.minProfitPct <= 0.0 || op.estimatedProfit >= cfg.limits.minProfitPct * ProfitBasis(op))
    ensures ProfitBasis(op) == START <==> op.impliedPrice == op.legs[0].price
  {
    DetectedAreChained(view, cfg, cfg.limits.minProfitAbs, op);
    PositiveBasis(op);
    DetectedExceeds(view, cfg.fees, cfg.limits.minProfitAbs, op);
    RatioThreshold(op.estimatedProfit, ProfitBasis(op), cfg.limits.minProfitPct);
    BasisIsStart(op);
  }

  /** The checks on any opportunity, with its profit weighed against first-leg quantity times implied price. */
  lemma ChecksDecide(op: Opportunity, limits: Limits)
    ensures var profit, pct := op.estimatedProfit, limits.minProfitPct;
            var basis := if op.legs == [] then 0.0 else op.legs[0].qty * op.impliedPrice;
            var weighed := profit > limits.minProfitAbs && pct > 0.0 && op.legs != [];
            && (PreTradeChecks(op, limits).Panicked? <==> weighed && basis == 0.0)
            && (weighed && basis > 0.0 ==> PreTradeChecks(op, limits) == Done(profit >= pct * basis))
            && (weighed && basis < 0.0 ==> PreTradeChecks(op, limits) == Done(profit <= pct * basis))
            && (!weighed ==> PreTradeChecks(op, limits) == Done(profit > limits.minProfitAbs && pct <= 0.0))
  {
    if op.legs != [] {
      var basis, profit, pct := op.legs[0].qty * op.impliedPrice, op.estimatedProfit, limits.minProfitPct;
      if basis > 0.0 {
        RatioThreshold(profit, basis, pct);
      } else if basis < 0.0 {
        var q := profit / basis;
        QuotientUnique(-profit, -basis, q);
        RatioThreshold(-profit, -basis, pct);
      }
    }
  }

  /** A profit and a basis both quoted through an implied price, compared in quotes. */
  lemma QuotedComparison(proceeds: real, basis: real, kept: real, implied: real, d: real, rate: real, first: real,
                         pct: real)
    requires 0.0 < d && 0.0 < first && Times(implied, d) == rate
    requires proceeds == Times(START, Times(kept, implied)) && Times(basis, first) == Times(START, implied)
    ensures proceeds - START >= pct * basis <==> Times(Times(kept, rate) - d, first) >= Times(pct, rate)
  {
    hide Times;
    var m := Times(d, first);
    PositiveProduct(d, first);
    ScaledLeft(proceeds, kept, implied, d, rate, first);
    ScaledRight(basis, implied, d, rate, first, pct);
    ClearedComparison(pct * basis, proceeds - START, m);
    ClearedComparison(Times(pct, rate), Times(Times(kept, rate) - d, first), START);
    MultiplyOut(proceeds - START, pct * basis, m);
  }

  lemma MultiplyOut(x: real, y: real, m: real)
    ensures Times(x, m) == x * m && Times(y, m) == y * m
    ensures Times(START, x) == x * START && Times(START, y) == y * START
  {
  }

  lemma ScaledLeft(proceeds: real, kept: real, implied: real, d: real, rate: real, first: real)
    requires Times(implied, d) == rate && proceeds == Times(START, Times(kept, implied))
    ensures (proceeds - START) * Times(d, first) == Times(Times(kept, rate) - d, first) * START
  {
    calc {
      (proceeds - START) * (d * first);
      (START * (kept * implied) - START) * (d * first);
      START * (kept * (implied * d) - d) * first;
      (kept * rate - d) * first * START;
    }
  }

  lemma ScaledRight(basis: real, implied: real, d: real, rate: real, first: real, pct: real)
    requires Times(implied, d) == rate && Times(basis, first) == Times(START, implied)
    ensures pct * basis * Times(d, first) == Times(pct, rate) * START
  {
    calc {
      pct * basis * (d * first);
      pct * (basis * first) * d;
      pct * (START * implied) * d;
      pct * (implied * d) * START;
      pct * rate * START;
    }
  }

  /**
   The decision in quotes and fees alone. Cycle 1 passes a positive percentage if and only if what
   the fees keep of bid_bc exceeds ask_ab * ask_ac by the percentage of bid_bc per unit of ask_ab.
   */
  lemma Cycle1Passes(view: TriView, fees: FeeMap, limits: Limits, op: Opportunity, feeAb: real, feeAc: real,
                     feeBc: real)
    requires PositiveQuotes(view)
    requires Charges(fees, view.symAb, feeAb) && Charges(fees, view.symAc, feeAc) && Charges(fees, view.symBc, feeBc)
    requires Cycle1(view, fees, limits.minProfitAbs).Done? && op in Cycle1(view, fees, limits.minProfitAbs).value
    ensures view.asksAb != [] && view.asksAc != [] && view.bidsBc != []
    ensures var askAb, askAc, bidBc := view.asksAb[0].0, view.asksAc[0].0, view.bidsBc[0].0;
            PreTradeChecks(op, limits) ==
              Done(limits.minProfitPct <= 0.0
                   || Times(Times(Kept(feeAb, feeBc, feeAc), bidBc) - Times(askAb, askAc), askAb)
                        >= Times(limits.minProfitPct, bidBc))
  {
    hide Times, Kept, PreTradeChecks, ProfitBasis, Charges, Cycle1, Cycle2;
    Cycle1Says(view, fees, limits.minProfitAbs, op, feeAb, feeAc, feeBc);
    var askAb, d := view.asksAb[0].0, Times(view.asksAb[0].0, view.asksAc[0].0);
    PositiveProduct(askAb, view.asksAc[0].0);
    DetectedFromCycles(view, fees, limits.minProfitAbs, op);
    ChecksOnDetected(view, StrategyConfig(fees, limits, Aggressive, 0, 0, map[]), op);
    BasisTimesFirst(op, askAb);
    QuotedComparison(START + op.estimatedProfit, ProfitBasis(op), Kept(feeAb, feeBc, feeAc), op.impliedPrice, d,
                     view.bidsBc[0].0, askAb, limits.minProfitPct);
  }

  /** Cycle 2 likewise, with bid_ab * bid_ac against ask_bc, per unit of ask_bc. */
  lemma Cycle2Passes(view: TriView, fees: FeeMap, limits: Limits, op: Opportunity, feeAb: real, feeAc: real,
                     feeBc: real)
    requires PositiveQuotes(view)
    requires Charges(fees, view.symAb, feeAb) && Charges(fees, view.symAc, feeAc) && Charges(fees, view.symBc, feeBc)
    requires Cycle2(view, fees, limits.minProfitAbs).Done? && op in Cycle2(view, fees, limits.minProfitAbs).value
    ensures view.asksBc != [] && view.bidsAc != [] && view.bidsAb != []
    ensures var askBc, rate := view.asksBc[0].0, Times(view.bidsAb[0].0, view.bidsAc[0].0);
            PreTradeChecks(op, limits) ==
              Done(limits.minProfitPct <= 0.0
                   || Times(Times(Kept(feeAb, feeBc, feeAc), rate) - askBc, askBc) >= Times(limits.minProfitPct, rate))
  {
    hide Times, Kept, PreTradeChecks, ProfitBasis, Charges, Cycle1, Cycle2;
    Cycle2Says(view, fees, limits.minProfitAbs, op, feeBc, feeAc, feeAb);
    var askBc := view.asksBc[0].0;
    DetectedFromCycles(view, fees, limits.minProfitAbs, op);
    ChecksOnDetected(view, StrategyConfig(fees, limits, Aggressive, 0, 0, map[]), op);
    BasisTimesFirst(op, askBc);
    QuotedComparison(START + op.estimatedProfit, ProfitBasis(op), Kept(feeAb, feeBc, feeAc), op.impliedPrice, askBc,
                     Times(view.bidsAb[0].0, view.bidsAc[0].0), askBc, limits.minProfitPct);
  }

  lemma DetectedFromCycles(view: TriView, fees: FeeMap, minProfit: real, op: Opportunity)
    requires PositiveQuotes(view)
    requires var c1, c2 := Cycle1(view, fees, minProfit), Cycle2(view, fees, minProfit);
             (c1.Done? && op in c1.value) || (c2.Done? && op in c2.value)
    ensures Detect(view, fees, minProfit).Done? && op in Detect(view, fees, minProfit).value
  {
    hide Cycle1, Cycle2;
    Cycle1Reported(view, fees, minProfit);
    Cycle2Reported(view, fees, minProfit);
  }

  lemma BasisTimesFirst(op: Opportunity, first: real)
    requires op.legs != [] && Times(op.legs[0].qty, first) == START
    ensures Times(ProfitBasis(op), first) == Times(START, op.impliedPrice)
  {
    assert op.legs[0].qty * op.impliedPrice * first == op.legs[0].qty * first * op.impliedPrice;
  }

  /** The decision the configured percentage describes: profit against the 10000 start amount. */
  predicate JudgedByStart(op: Opportunity, minProfitAbs: real, pct: real) {
    PreTradeChecks(op, Limits(minProfitAbs, pct)) == Done(op.estimatedProfit >= pct * START)
  }

  /**
   The checks take that decision at every positive percentage if and only if the opportunity loses
   money anyway or its implied price equals its first leg's price.
   */
  lemma ChecksJudgeByStartIff(view: TriView, fees: FeeMap, minProfitAbs: real, op: Opportunity)
    requires PositiveQuotes(view)
    requires Detect(view, fees, minProfitAbs).Done? && op in Detect(view, fees, minProfitAbs).value
    ensures op.legs != []
    ensures (forall pct :: pct > 0.0 ==> JudgedByStart(op, minProfitAbs, pct)) <==>
              op.estimatedProfit <= 0.0 || op.impliedPrice == op.legs[0].price
  {
    hide Detect, PreTradeChecks, JudgedByStart, ProfitBasis;
    var profit, basis := op.estimatedProfit, ProfitBasis(op);
    forall pct | pct > 0.0
      ensures JudgedByStart(op, minProfitAbs, pct) <==> (profit >= pct * basis <==> profit >= pct * START)
    {
      JudgedAt(view, fees, minProfitAbs, pct, op);
    }
    DetectedBasis(view, fees, minProfitAbs, op);
    if profit > 0.0 && basis != START {
      var pct := SeparatingPct(profit, basis);
      assert !JudgedByStart(op, minProfitAbs, pct);
    } else if profit <= 0.0 {
      forall pct | pct > 0.0 ensures JudgedByStart(op, minProfitAbs, pct) {
        PositiveProduct(pct, basis);
      }
    }
  }

  lemma DetectedBasis(view: TriView, fees: FeeMap, minProfitAbs: real, op: Opportunity)
    requires PositiveQuotes(view)
    requires Detect(view, fees, minProfitAbs).Done? && op in Detect(view, fees, minProfitAbs).value
    ensures op.legs != [] && ProfitBasis(op) > 0.0
    ensures ProfitBasis(op) == START <==> op.impliedPrice == op.legs[0].price
  {
    var cfg := StrategyConfig(fees, Limits(minProfitAbs, 0.0), Aggressive, 0, 0, map[]);
    ChecksOnDetected(view, cfg, op);
    DetectedAreChained(view, cfg, minProfitAbs, op);
    PositiveBasis(op);
  }

  lemma JudgedAt(view: TriView, fees: FeeMap, minProfitAbs: real, pct: real, op: Opportunity)
    requires PositiveQuotes(view) && pct > 0.0
    requires Detect(view, fees, minProfitAbs).Done? && op in Detect(view, fees, minProfitAbs).value
    ensures JudgedByStart(op, minProfitAbs, pct) <==>
              (op.estimatedProfit >= pct * ProfitBasis(op) <==> op.estimatedProfit >= pct * START)
  {
    hide Detect, PreTradeChecks, ProfitBasis;
    ChecksOnDetected(view, StrategyConfig(fees, Limits(minProfitAbs, pct), Aggressive, 0, 0, map[]), op);
  }

  /** A positive profit meets some percentage of the smaller of two amounts and misses it of the larger. */
  lemma SeparatingPct(profit: real, basis: real) returns (pct: real)
    requires 0.0 < profit && 0.0 < basis && basis != START
    ensures 0.0 < pct && !(profit >= pct * basis <==> profit >= pct * START)
  {
    pct := profit / if basis < START then basis else START;
    if basis < START {
      PositiveRatio(profit, basis);
      assert pct * basis == profit;
      PositiveProduct(pct, START - basis);
    } else {
      PositiveRatio(profit, START);
      assert pct * START == profit;
      PositiveProduct(pct, basis - START);
    }
  }

  /** BTC at 50000, ETH at 0.06 BTC and 3100 USDT: a 3.3% profit that the checks take for more than 50%. */
  lemma FiftyPercentThresholdPasses(fees: FeeMap, symAb: string, symBc: string, symAc: string)
    requires TakerFee(fees, symAb) == TakerFee(fees, symBc) == TakerFee(fees, symAc) == 0.0
    ensures var view := TriView(symAb, [], [(50000.0, 1.0)], symBc, [(3100.0, 1.0)], [], symAc, [], [(0.06, 1.0)]);
            && Detect(view, fees, 0.0).Done? && |Detect(view, fees, 0.0).value| == 1
            && (var op := Detect(view, fees, 0.0).value[0];
                && 0.033 * START < op.estimatedProfit < 0.034 * START
                && PreTradeChecks(op, Limits(0.0, 0.5)) == Done(true))
  {
    hide TakerFee;
    var qty, eth := START / 50000.0, START / 50000.0 / 0.06;
    assert qty == 0.2;
    QuotientUnique(0.2, 0.06, 10.0 / 3.0);
    assert eth == 10.0 / 3.0;
    QuotientUnique(3100.0, 3000.0, 31.0 / 30.0);
  }

  lemma PositiveBasis(op: Opportunity)
    requires op.legs != [] && op.legs[0].qty > 0.0 && op.impliedPrice > 0.0
    ensures ProfitBasis(op) > 0.0
  {
    PositiveProduct(op.legs[0].qty, op.impliedPrice);
  }

  lemma RatioThreshold(x: real, d: real, k: real)
    requires 0.0 < d
    ensures !(x / d < k) <==> x >= k * d
  {
    ClearedComparison(k, x / d, d);
  }

  lemma BasisIsStart(op: Opportunity)
    requires op.legs != [] && op.legs[0].sideBuy && op.legs[0].qty > 0.0
    requires Drawn(op.legs[0], op.legs[0].qty) == START
    ensures ProfitBasis(op) == START <==> op.impliedPrice == op.legs[0].price
  {
    var q, p, price := op.legs[0].qty, op.impliedPrice, op.legs[0].price;
    if p != price {
      NonZeroProduct(q, p - price);
      assert q * (p - price) == q * p - q * price;
    }
  }
}
