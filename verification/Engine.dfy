/**
 `crates/strategy/src/engine.rs`: in-flight plans. The functions say what each critical section
 does to the map; the class performs them on its fields, one task at a time. How the detector
 and monitor tasks interleave between critical sections is the subject of `Protocol`.
 */
module Engine {
  import opened Wrappers
  import opened TriViews
  import opened TriArbitrage
  import opened Planner

  type PlanId = string

  datatype ExecStatus = New | PartiallyFilled | Filled | Cancelled | Rejected | Error(message: string)

  datatype ExecutionReport = ExecutionReport(
    planId: PlanId,
    legIdx: LegIdx,
    filledQty: real,
    remainingQty: real,
    status: ExecStatus)

  /** Times are in milliseconds. */
  datatype InFlightPlan = InFlightPlan(plan: TradePlan, filled: seq<real>, submittedAt: int, timeoutMs: nat)

  type InFlight = map<PlanId, InFlightPlan>

  function NewlyInFlight(plan: TradePlan, now: int, timeoutMs: nat): InFlightPlan {
    InFlightPlan(plan, seq(|plan.legs|, _ => 0.0), now, timeoutMs)
  }

  function Credited(p: InFlightPlan, r: ExecutionReport): InFlightPlan {
    if r.legIdx < |p.filled| then p.(filled := p.filled[r.legIdx := p.filled[r.legIdx] + r.filledQty]) else p
  }

  predicate AllLegged(p: InFlightPlan) {
    forall i :: 0 <= i < |p.filled| && i < |p.plan.legs| ==> p.filled[i] >= p.plan.legs[i].qty
  }

  predicate Finishes(p: InFlightPlan, status: ExecStatus) {
    match status
    case Filled => AllLegged(p)
    case Cancelled => true
    case Rejected => true
    case PartiallyFilled => true
    case New => false
    case Error(_) => false
  }

  predicate RequestsCancel(status: ExecStatus) { status == Rejected || status == PartiallyFilled }

  predicate Removes(inflight: InFlight, r: ExecutionReport) {
    r.planId in inflight && Finishes(Credited(inflight[r.planId], r), r.status)
  }

  function AfterReport(inflight: InFlight, r: ExecutionReport): InFlight {
    if r.planId !in inflight then inflight
    else if Removes(inflight, r) then inflight - {r.planId}
    else inflight[r.planId := Credited(inflight[r.planId], r)]
  }

  function CancelsAfterReport(inflight: InFlight, r: ExecutionReport): seq<PlanId> {
    if r.planId in inflight && RequestsCancel(r.status) then [r.planId] else []
  }

  predicate Overdue(p: InFlightPlan, now: int) { now - p.submittedAt > p.timeoutMs }

  function OverdueIds(inflight: InFlight, now: int): set<PlanId> {
    set id | id in inflight && Overdue(inflight[id], now)
  }

  /** A listing of a set of ids in some order: what iterating a hash map yields. */
  predicate Enumerates(ids: seq<PlanId>, s: set<PlanId>) {
    && (forall i :: 0 <= i < |ids| ==> ids[i] in s)
    && (forall i, j :: 0 <= i < j < |ids| ==> ids[i] != ids[j])
    && |ids| == |s|
  }

  lemma NothingCollected(inflight: InFlight, now: int)
    ensures Enumerates([], OverdueIds(inflight, now) - inflight.Keys)
  {
    assert OverdueIds(inflight, now) - inflight.Keys == {};
  }

  lemma CollectOne(inflight: InFlight, now: int, unseen: set<PlanId>, id: PlanId)
    requires id in inflight && id in unseen
    ensures Overdue(inflight[id], now) ==>
            OverdueIds(inflight, now) - (unseen - {id}) == OverdueIds(inflight, now) - unseen + {id}
    ensures !Overdue(inflight[id], now) ==>
            OverdueIds(inflight, now) - (unseen - {id}) == OverdueIds(inflight, now) - unseen
  {
  }

  lemma EnumerateOneMore(ids: seq<PlanId>, s: set<PlanId>, id: PlanId)
    requires Enumerates(ids, s) && id !in s
    ensures Enumerates(ids + [id], s + {id})
  {
  }

  /** What the engine holds between two uninterrupted operations, and what each of them makes of it. */
  datatype EngineState = EngineState(
    inflight: InFlight,
    submitted: nat,
    executed: nat,
    cancelled: nat,
    rejected: nat,
    cancelRequests: seq<PlanId>)
  {
    function Reported(r: ExecutionReport): EngineState {
      this.(inflight := AfterReport(inflight, r), cancelRequests := cancelRequests + CancelsAfterReport(inflight, r),
            executed := executed + if Removes(inflight, r) then 1 else 0)
    }

    function Withdrawn(id: PlanId): EngineState {
      this.(inflight := inflight - {id}, executed := executed + if id in inflight then 1 else 0)
    }

    /** A scan's outcome, the overdue plans being asked to cancel in any order. */
    predicate ScannedTo(after: EngineState, now: int) {
      && cancelRequests <= after.cancelRequests
      && Enumerates(after.cancelRequests[|cancelRequests|..], OverdueIds(inflight, now))
      && after == this.(inflight := inflight - OverdueIds(inflight, now),
                        cancelled := cancelled + |OverdueIds(inflight, now)|, cancelRequests := after.cancelRequests)
    }

    function TurnedDown(): EngineState { this.(rejected := rejected + 1) }

    /** One opportunity, from the capacity check to the counted submission or rejection. */
    function Decided(cfg: StrategyConfig, op: Opportunity, id: PlanId, now: int, sendOk: bool): Outcome<EngineState> {
      if |inflight| >= cfg.maxConcurrentPlans then Done(TurnedDown())
      else match PreTradeChecks(op, cfg.limits)
        case Panicked => Panicked
        case Done(false) => Done(TurnedDown())
        case Done(true) =>
          match PlanOf(id, op, cfg)
          case Panicked => Panicked
          case Done(Err(_)) => Done(TurnedDown())
          case Done(Ok(plan)) =>
            if sendOk then
              Done(this.(inflight := inflight[id := NewlyInFlight(plan, now, cfg.orderTimeoutMs)],
                         submitted := submitted + 1))
            else Done(TurnedDown())
    }
  }

  lemma DecidedCases(e: EngineState, cfg: StrategyConfig, op: Opportunity, id: PlanId, now: int, sendOk: bool)
    ensures var decided := e.Decided(cfg, op, id, now, sendOk);
            var checked, planned := PreTradeChecks(op, cfg.limits), PlanOf(id, op, cfg);
            if |e.inflight| >= cfg.maxConcurrentPlans then decided == Done(e.TurnedDown())
            else if checked.Panicked? || (checked.value && planned.Panicked?) then decided == Panicked
            else if !checked.value || planned.value.Err? || !sendOk then decided == Done(e.TurnedDown())
            else
              var entry := NewlyInFlight(planned.value.value, now, cfg.orderTimeoutMs);
              decided == Done(e.(inflight := e.inflight[id := entry], submitted := e.submitted + 1))
  {
    hide PlanOf, PreTradeChecks;
  }

  class StrategyEngine {
    const cfg: StrategyConfig
    var inflight: InFlight
    var plansSubmitted: nat
    var plansExecuted: nat
    var plansCancelled: nat
    var plansRejected: nat
    var cancelRequests: seq<PlanId> // everything sent on the cancel channel

    constructor (cfg: StrategyConfig)
      ensures this.cfg == cfg && inflight == map[] && cancelRequests == []
      ensures plansSubmitted == plansExecuted == plansCancelled == plansRejected == 0
    {
      this.cfg := cfg;
      inflight, cancelRequests := map[], [];
      plansSubmitted, plansExecuted, plansCancelled, plansRejected := 0, 0, 0, 0;
    }

    function Current(): EngineState
      reads this
    {
      EngineState(inflight, plansSubmitted, plansExecuted, plansCancelled, plansRejected, cancelRequests)
    }

    /** A plan just submitted: nothing filled, and the configured time left from now. */
    predicate Starts(p: InFlightPlan, plan: TradePlan, now: int) {
      && p.plan == plan && p.submittedAt == now && p.timeoutMs == cfg.orderTimeoutMs
      && |p.filled| == |plan.legs| && forall i :: 0 <= i < |p.filled| ==> p.filled[i] == 0.0
    }

    /** Registers a planned opportunity before submission, and rolls back if the send fails. */
    method Submit(plan: TradePlan, now: int, sendOk: bool)
      modifies this`inflight, this`plansSubmitted, this`plansRejected
      ensures sendOk ==>
                && inflight == old(inflight)[plan.id := NewlyInFlight(plan, now, cfg.orderTimeoutMs)]
                && Starts(inflight[plan.id], plan, now)
                && plansSubmitted == old(plansSubmitted) + 1 && plansRejected == old(plansRejected)
      ensures !sendOk ==>
                && inflight == old(inflight) - {plan.id}
                && (plan.id !in old(inflight) ==> inflight == old(inflight))
                && plansSubmitted == old(plansSubmitted) && plansRejected == old(plansRejected) + 1
    {
      inflight := inflight[plan.id := NewlyInFlight(plan, now, cfg.orderTimeoutMs)];
      if sendOk {
        plansSubmitted := plansSubmitted + 1;
      } else {
        inflight := inflight - {plan.id};
        plansRejected := plansRejected + 1;
      }
    }

    /**
     The detector loop's body for one opportunity, uninterrupted: check capacity, run the
     pre-trade checks, plan, register and send. It is counted once, as submitted or as rejected.
     */
    method OnOpportunity(op: Opportunity, now: int, id: PlanId, sendOk: bool) returns (panicked: bool)
      requires |inflight| <= cfg.maxConcurrentPlans && id !in inflight
      modifies this`inflight, this`plansSubmitted, this`plansRejected
      ensures |inflight| <= cfg.maxConcurrentPlans
      ensures old(Current()).Decided(cfg, op, id, now, sendOk) == if panicked then Panicked else Done(Current())
      ensures panicked <==> |old(inflight)| < cfg.maxConcurrentPlans && Panics(op, id)
      ensures plansSubmitted + plansRejected == old(plansSubmitted) + old(plansRejected) + if panicked then 0 else 1
      ensures var goes := |old(inflight)| < cfg.maxConcurrentPlans && Accepted(op, id) && sendOk;
              && plansSubmitted == old(plansSubmitted) + (if goes then 1 else 0)
              && (!goes ==> inflight == old(inflight))
              && (goes ==> inflight == old(inflight)[id := Expected(op, id, now)])
    {
      hide PlanOf, PreTradeChecks, EngineState.Decided, NewlyInFlight;
      DecidedCases(Current(), cfg, op, id, now, sendOk);
      if |inflight| >= cfg.maxConcurrentPlans {
        plansRejected := plansRejected + 1;
        return false;
      }
      var checked := PreTradeChecks(op, cfg.limits);
      if checked.Panicked? { return true; }
      if !checked.value {
        plansRejected := plansRejected + 1;
        return false;
      }
      var planned := BuildTradePlan(id, op, cfg);
      if planned.Panicked? { return true; }
      if planned.value.Err? {
        plansRejected := plansRejected + 1;
        return false;
      }
      var plan := planned.value.value;
      PlanKeepsId(id, op, cfg);
      SizeAfterInsert(inflight, id, NewlyInFlight(plan, now, cfg.orderTimeoutMs));
      Submit(plan, now, sendOk);
      panicked := false;
    }

    predicate Panics(op: Opportunity, id: PlanId) {
      || PreTradeChecks(op, cfg.limits).Panicked?
      || (PreTradeChecks(op, cfg.limits) == Done(true) && PlanOf(id, op, cfg).Panicked?)
    }

    /** The entry an accepted opportunity becomes. */
    function Expected(op: Opportunity, id: PlanId, now: int): InFlightPlan
      requires Accepted(op, id)
    {
      NewlyInFlight(PlanOf(id, op, cfg).value.value, now, cfg.orderTimeoutMs)
    }

    predicate Accepted(op: Opportunity, id: PlanId) {
      && PreTradeChecks(op, cfg.limits) == Done(true)
      && PlanOf(id, op, cfg).Done? && PlanOf(id, op, cfg).value.Ok?
    }

    /** In flight because a detected opportunity passed the checks and planned to exactly this. */
    predicate Justified(ops: seq<Opportunity>, ids: seq<PlanId>, id: PlanId, p: InFlightPlan, now: int) {
      exists i :: 0 <= i < |ops| && i < |ids| && ids[i] == id && Accepted(ops[i], id) && p == Expected(ops[i], id, now)
    }

    /** One more opportunity: nothing lost or altered, everything new justified, and the later ids still unused. */
    lemma JustifiedOneMore(start: InFlight, before: InFlight, after: InFlight, ops: seq<Opportunity>,
                           ids: seq<PlanId>, now: int, i: nat)
      requires i < |ops| && |ids| == 2 && i < 2 && ids[0] != ids[1] && forall j :: i <= j < 2 ==> ids[j] !in before
      requires forall id :: id in start ==> id in before && before[id] == start[id]
      requires forall id :: id in before && id !in start ==> Justified(ops, ids, id, before[id], now)
      requires after == before || (Accepted(ops[i], ids[i]) && after == before[ids[i] := Expected(ops[i], ids[i], now)])
      ensures forall j :: i + 1 <= j < 2 ==> ids[j] !in after
      ensures forall id :: id in start ==> id in after && after[id] == start[id]
      ensures forall id :: id in after && id !in start ==> Justified(ops, ids, id, after[id], now)
    {
      hide Accepted, Expected;
      assert after != before ==> Justified(ops, ids, ids[i], after[ids[i]], now);
    }

    /** How many plans are in flight once the first i opportunities are dealt with, from that many before. */
    function Occupied(start: nat, ops: seq<Opportunity>, ids: seq<PlanId>, sends: seq<bool>, i: nat): nat
      requires i <= |ops| <= |ids| == |sends|
      decreases i, 0
    {
      if i == 0 then start
      else Occupied(start, ops, ids, sends, i - 1) + if Enters(start, ops, ids, sends, i - 1) then 1 else 0
    }

    /** An opportunity enters if there is room after the ones before it, it is accepted and its send succeeds. */
    predicate Enters(start: nat, ops: seq<Opportunity>, ids: seq<PlanId>, sends: seq<bool>, i: nat)
      requires i < |ops| <= |ids| == |sends|
      decreases i, 1
    {
      Occupied(start, ops, ids, sends, i) < cfg.maxConcurrentPlans && Accepted(ops[i], ids[i]) && sends[i]
    }

    /** Of the first i opportunities exactly those that may enter are in the map, and nothing else has been added. */
    predicate Admits(start: nat, current: InFlight, ops: seq<Opportunity>, ids: seq<PlanId>, sends: seq<bool>, i: nat)
      requires i <= |ops| <= |ids| == |sends|
    {
      && |current| == Occupied(start, ops, ids, sends, i)
      && forall j :: 0 <= j < i ==> (ids[j] in current <==> Enters(start, ops, ids, sends, j))
    }

    lemma AdmitsNone(inflight: InFlight, ops: seq<Opportunity>, ids: seq<PlanId>, sends: seq<bool>)
      requires |ops| <= |ids| == |sends|
      ensures Admits(|inflight|, inflight, ops, ids, sends, 0)
    {
    }

    lemma AdmitsOneMore(start: nat, before: InFlight, after: InFlight, ops: seq<Opportunity>, ids: seq<PlanId>,
                        sends: seq<bool>, now: int, i: nat)
      requires i < |ops| <= |ids| == |sends| && (forall j :: 0 <= j < i ==> ids[j] != ids[i])
      requires Admits(start, before, ops, ids, sends, i) && ids[i] !in before
      requires var goes := |before| < cfg.maxConcurrentPlans && Accepted(ops[i], ids[i]) && sends[i];
               after == if goes then before[ids[i] := Expected(ops[i], ids[i], now)] else before
      ensures Admits(start, after, ops, ids, sends, i + 1)
      ensures |after| == |before| + if Enters(start, ops, ids, sends, i) then 1 else 0
    {
      hide Accepted, Expected;
      if Enters(start, ops, ids, sends, i) {
        SizeAfterInsert(before, ids[i], Expected(ops[i], ids[i], now));
      }
    }

    /**
     One view through the detector loop, uninterrupted. `ids` supplies fresh uuids, `sends` whether
     each send succeeds. Exactly the accepted and sent opportunities that find room enter the map,
     nothing in it changes, the bound holds, and positive quotes never panic.
     */
    method OnView(view: TriView, now: int, ids: seq<PlanId>, sends: seq<bool>) returns (panicked: bool)
      requires |inflight| <= cfg.maxConcurrentPlans
      requires |ids| == |sends| == 2 && ids[0] != ids[1] && ids[0] !in inflight && ids[1] !in inflight
      modifies this`inflight, this`plansSubmitted, this`plansRejected
      ensures |inflight| <= cfg.maxConcurrentPlans
      ensures forall id :: id in old(inflight) ==> id in inflight && inflight[id] == old(inflight)[id]
      ensures forall id :: id in inflight && id !in old(inflight) ==>
                Detect(view, cfg.fees, cfg.limits.minProfitAbs).Done?
                && Justified(Detect(view, cfg.fees, cfg.limits.minProfitAbs).value, ids, id, inflight[id], now)
      ensures PositiveQuotes(view) ==> !panicked
      ensures !panicked ==>
                && Detect(view, cfg.fees, cfg.limits.minProfitAbs).Done?
                && (var ops := Detect(view, cfg.fees, cfg.limits.minProfitAbs).value;
                    && |ops| <= 2
                    && Admits(|old(inflight)|, inflight, ops, ids, sends, |ops|)
                    && plansSubmitted - old(plansSubmitted) == |inflight| - |old(inflight)|
                    && plansRejected - old(plansRejected) == |ops| - (|inflight| - |old(inflight)|))
    {
      hide Detect, Accepted, Expected, Justified, EngineState.Decided, Occupied, Enters, Admits, PositiveQuotes;
      var detected := Detect(view, cfg.fees, cfg.limits.minProfitAbs);
      DetectedAtMostTwo(view, cfg.fees, cfg.limits.minProfitAbs);
      if detected.Panicked? { return true; }
      var ops := detected.value;
      AdmitsNone(inflight, ops, ids, sends);
      for i := 0 to |ops|
        invariant |inflight| <= cfg.maxConcurrentPlans
        invariant forall j :: i <= j < 2 ==> ids[j] !in inflight
        invariant forall id :: id in old(inflight) ==> id in inflight && inflight[id] == old(inflight)[id]
        invariant forall id :: id in inflight && id !in old(inflight) ==>
                    Justified(ops, ids, id, inflight[id], now)
        invariant plansSubmitted + plansRejected == old(plansSubmitted) + old(plansRejected) + i
        invariant plansSubmitted - old(plansSubmitted) == |inflight| - |old(inflight)|
        invariant Admits(|old(inflight)|, inflight, ops, ids, sends, i)
      {
        if PositiveQuotes(view) {
          DetectedNeverPanics(view, cfg, ops[i], ids[i]);
        }
        ghost var before := inflight;
        var failed := OnOpportunity(ops[i], now, ids[i], sends[i]);
        JustifiedOneMore(old(inflight), before, inflight, ops, ids, now, i);
        AdmitsOneMore(|old(inflight)|, before, inflight, ops, ids, sends, now, i);
        if failed { return true; }
      }
      panicked := false;
    }

    method RemoveInflight(planId: PlanId)
      modifies this`inflight, this`plansExecuted
      ensures Current() == old(Current()).Withdrawn(planId)
    {
      if planId in inflight {
        inflight := inflight - {planId};
        plansExecuted := plansExecuted + 1;
      }
    }

    /** The reports that end a plan: any cancelled, rejected or partial one, or the fill that covers every leg. */
    predicate Ends(p: InFlightPlan, report: ExecutionReport) {
      || report.status.Cancelled? || report.status.Rejected? || report.status.PartiallyFilled?
      || (report.status.Filled?
          && forall i :: 0 <= i < |p.filled| && i < |p.plan.legs| ==>
               p.filled[i] + (if i == report.legIdx then report.filledQty else 0.0) >= p.plan.legs[i].qty)
    }

    /** The report's quantity goes to its own leg, and nothing else about the plan changes. */
    predicate Adds(p: InFlightPlan, report: ExecutionReport, after: InFlightPlan) {
      && after.plan == p.plan && after.submittedAt == p.submittedAt && after.timeoutMs == p.timeoutMs
      && |after.filled| == |p.filled|
      && forall i :: 0 <= i < |p.filled| ==>
           after.filled[i] == p.filled[i] + if i == report.legIdx then report.filledQty else 0.0
    }

    method HandleExecReport(report: ExecutionReport)
      modifies this`inflight, this`plansExecuted, this`cancelRequests
      ensures Current() == old(Current()).Reported(report)
      ensures report.planId !in old(inflight) ==> Current() == old(Current())
      ensures inflight - {report.planId} == old(inflight) - {report.planId}
      ensures report.planId in old(inflight) ==>
                && (report.planId !in inflight <==> Ends(old(inflight)[report.planId], report))
                && plansExecuted == old(plansExecuted) + (if report.planId in inflight then 0 else 1)
                && (report.planId in inflight ==> Adds(old(inflight)[report.planId], report, inflight[report.planId]))
      ensures cancelRequests == old(cancelRequests) +
                if report.planId in old(inflight) && (report.status.Rejected? || report.status.PartiallyFilled?)
                then [report.planId] else []
    {
      var removePlan := false;
      if report.planId in inflight {
        var p := inflight[report.planId];
        var idx := report.legIdx;
        if idx < |p.filled| {
          p := p.(filled := p.filled[idx := p.filled[idx] + report.filledQty]);
        }
        inflight := inflight[report.planId := p];
        match report.status {
          case Filled =>
            if AllLegged(p) {
              removePlan := true;
            }
          case Cancelled =>
            removePlan := true;
          case Rejected =>
            cancelRequests := cancelRequests + [report.planId];
            removePlan := true;
          case PartiallyFilled =>
            cancelRequests := cancelRequests + [report.planId];
            removePlan := true;
          case New =>
          case Error(_) =>
        }
      }
      if removePlan {
        inflight := inflight - {report.planId};
        plansExecuted := plansExecuted + 1;
      }
    }

    /** The first critical section of a scan: the overdue ids, in whatever order the map yields them. */
    method CollectOverdue(now: int) returns (toCancel: seq<PlanId>)
      ensures Enumerates(toCancel, OverdueIds(inflight, now))
      ensures forall id :: id in toCancel <==>
                id in inflight && now - inflight[id].submittedAt > inflight[id].timeoutMs
    {
      hide OverdueIds, Enumerates, Overdue;
      NothingCollected(inflight, now);
      toCancel := [];
      var unseen := inflight.Keys;
      while unseen != {}
        invariant unseen <= inflight.Keys
        invariant Enumerates(toCancel, OverdueIds(inflight, now) - unseen)
        decreases |unseen|
      {
        var planId :| planId in unseen;
        ghost var before := OverdueIds(inflight, now) - unseen;
        CollectOne(inflight, now, unseen, planId);
        unseen := unseen - {planId};
        if Overdue(inflight[planId], now) {
          EnumerateOneMore(toCancel, before, planId);
          toCancel := toCancel + [planId];
        }
      }
      assert OverdueIds(inflight, now) - {} == OverdueIds(inflight, now);
      EnumeratesOverdue(toCancel, inflight, now);
    }

    /** A whole scan, uninterrupted: every overdue plan is asked to cancel, removed and counted, once. */
    method ScanTimeouts(now: int)
      modifies this`inflight, this`plansCancelled, this`cancelRequests
      ensures old(Current()).ScannedTo(Current(), now)
      ensures forall id :: id in inflight <==>
                id in old(inflight) && now - old(inflight)[id].submittedAt <= old(inflight)[id].timeoutMs
      ensures forall id :: id in cancelRequests[|old(cancelRequests)|..] <==>
                id in old(inflight) && now - old(inflight)[id].submittedAt > old(inflight)[id].timeoutMs
    {
      hide OverdueIds, Enumerates;
      var toCancel := CollectOverdue(now);
      OverdueAreOurs(inflight, now);
      EnumerationSize(toCancel, OverdueIds(inflight, now));
      EnumerationMembers(toCancel, OverdueIds(inflight, now));
      ghost var overdue := OverdueIds(inflight, now);
      for i := 0 to |toCancel|
        invariant Enumerates(toCancel, overdue) && overdue <= old(inflight).Keys
        invariant inflight == old(inflight) - (set j | 0 <= j < i :: toCancel[j])
        invariant plansCancelled == old(plansCancelled) + i
        invariant cancelRequests == old(cancelRequests) + toCancel[..i]
      {
        var planId := toCancel[i];
        cancelRequests := cancelRequests + [planId];
        if planId in inflight {
          inflight := inflight - {planId};
          plansCancelled := plansCancelled + 1;
        }
      }
      EnumerationCovers(toCancel, overdue);
      assert toCancel[..|toCancel|] == toCancel;
    }
  }

  lemma OverdueAreOurs(inflight: InFlight, now: int)
    ensures OverdueIds(inflight, now) <= inflight.Keys
  {
  }

  lemma EnumerationSize(ids: seq<PlanId>, s: set<PlanId>)
    requires Enumerates(ids, s)
    ensures |ids| == |s| && forall i, j :: 0 <= i < j < |ids| ==> ids[i] != ids[j]
  {
  }

  lemma EnumerationMembers(ids: seq<PlanId>, s: set<PlanId>)
    requires Enumerates(ids, s)
    ensures forall i :: 0 <= i < |ids| ==> ids[i] in s
  {
  }

  /** A listing of the overdue ids lists exactly the plans whose time since submission exceeds their timeout. */
  lemma EnumeratesOverdue(ids: seq<PlanId>, inflight: InFlight, now: int)
    requires Enumerates(ids, OverdueIds(inflight, now))
    ensures forall id :: id in ids <==> id in inflight && now - inflight[id].submittedAt > inflight[id].timeoutMs
  {
    EnumerationCovers(ids, OverdueIds(inflight, now));
    var listed := set j | 0 <= j < |ids| :: ids[j];
    forall id ensures id in ids <==> id in OverdueIds(inflight, now) {
      assert id in ids <==> id in listed;
    }
  }

  lemma SizeAfterInsert(inflight: InFlight, id: PlanId, p: InFlightPlan)
    ensures id !in inflight ==> |inflight[id := p]| == |inflight| + 1
    ensures id !in inflight ==> inflight[id := p] - {id} == inflight
  {
    if id !in inflight {
      assert inflight[id := p].Keys == inflight.Keys + {id};
      assert |inflight[id := p]| == |inflight[id := p].Keys|;
    }
  }

  lemma PlanKeepsId(id: PlanId, op: Opportunity, cfg: StrategyConfig)
    requires PlanOf(id, op, cfg).Done? && PlanOf(id, op, cfg).value.Ok?
    ensures PlanOf(id, op, cfg).value.value.id == id
  {
  }

  lemma DetectedNeverPanics(view: TriView, cfg: StrategyConfig, op: Opportunity, id: PlanId)
    requires PositiveQuotes(view)
    requires Detect(view, cfg.fees, cfg.limits.minProfitAbs).Done?
    requires op in Detect(view, cfg.fees, cfg.limits.minProfitAbs).value
    ensures PreTradeChecks(op, cfg.limits).Done? && PlanOf(id, op, cfg).Done?
  {
    ChecksOnDetected(view, cfg, op);
    DetectedAreChained(view, cfg, cfg.limits.minProfitAbs, op);
    PositiveBasis(op);
  }

  lemma DetectedAtMostTwo(view: TriView, fees: FeeMap, minProfit: real)
    ensures Detect(view, fees, minProfit).Done? ==> |Detect(view, fees, minProfit).value| <= 2
    ensures PositiveQuotes(view) ==> Detect(view, fees, minProfit).Done?
  {
    if PositiveQuotes(view) {
      Cycle1Reported(view, fees, minProfit);
      Cycle2Reported(view, fees, minProfit);
    }
  }

  /** Distinct members, as many as the set has, are all of it. */
  lemma EnumerationCovers(ids: seq<PlanId>, s: set<PlanId>)
    requires Enumerates(ids, s)
    ensures (set j | 0 <= j < |ids| :: ids[j]) == s
  {
    var listed := set j | 0 <= j < |ids| :: ids[j];
    DistinctCount(ids);
    assert listed <= s;
    assert s == listed + (s - listed);
    assert |s| == |listed| + |s - listed|;
  }

  lemma {:induction false} DistinctCount<T>(xs: seq<T>)
    requires forall i, j :: 0 <= i < j < |xs| ==> xs[i] != xs[j]
    ensures |set j | 0 <= j < |xs| :: xs[j]| == |xs|
  {
    if xs != [] {
      var n := |xs| - 1;
      DistinctCount(xs[..n]);
      var rest := set j | 0 <= j < |xs[..n]| :: xs[..n][j];
      assert (set j | 0 <= j < |xs| :: xs[j]) == rest + {xs[n]};
    }
  }
}
