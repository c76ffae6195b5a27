/**
 `crates/execution/src/mock.rs`: the simulated executor's canceller and per-plan worker, for
 plans of taker legs, and the worker composed with the engine.
 */
module MockExecution {
  import opened Planner
  import opened Engine
  import opened Protocol
  import opened FillLedger

  /** A one-shot channel: a sent signal is received once, then never again. */
  class OneShot {
    var pending: bool

    constructor ()
      ensures !pending
    {
      pending := false;
    }

    method Send()
      modifies this
      ensures pending
    {
      pending := true;
    }

    method TryRecv() returns (ok: bool)
      modifies this
      ensures ok == old(pending) && !pending
    {
      ok := pending;
      pending := false;
    }
  }

  predicate AllTaker(plan: TradePlan) {
    forall i :: 0 <= i < |plan.legs| ==> plan.legs[i].isTaker
  }

  function FilledReport(id: PlanId, leg: OrderLeg): ExecutionReport {
    ExecutionReport(id, leg.legIdx, leg.qty, 0.0, Filled)
  }

  function CancelledReport(id: PlanId, leg: OrderLeg): ExecutionReport {
    ExecutionReport(id, leg.legIdx, 0.0, leg.qty, Cancelled)
  }

  /** The worker's reports when the cancel signal is noticed before leg k (none if k is past the last leg). */
  function MockReports(plan: TradePlan, k: nat): (rs: seq<ExecutionReport>)
    ensures |rs| == |plan.legs|
  {
    seq(|plan.legs|, i requires 0 <= i < |plan.legs| =>
      if i == k then CancelledReport(plan.id, plan.legs[i]) else FilledReport(plan.id, plan.legs[i]))
  }

  /** `schedule[i]`: the requests the canceller handles between leg i - 1's check and leg i's. */
  type Schedule = seq<seq<PlanId>>

  /** The first leg check that can see a request for this plan; past the end if there is none. */
  function FirstRequest(schedule: Schedule, id: PlanId): (k: nat)
    ensures k <= |schedule|
    ensures k < |schedule| ==> id in schedule[k]
    ensures forall j :: 0 <= j < k ==> id !in schedule[j]
  {
    if schedule == [] then 0
    else
      var k := FirstRequest(schedule[..|schedule| - 1], id);
      if k < |schedule| - 1 || id in schedule[|schedule| - 1] then k else |schedule|
  }

  function Requested(schedule: Schedule): set<PlanId> {
    set i, j | 0 <= i < |schedule| && 0 <= j < |schedule[i]| :: schedule[i][j]
  }

  lemma NothingRequested(schedule: Schedule)
    ensures Requested(schedule[..0]) == {}
  {
  }

  lemma RequestedOneMore(schedule: Schedule, i: nat)
    requires i < |schedule|
    ensures Requested(schedule[..i + 1]) == Requested(schedule[..i]) + set j | 0 <= j < |schedule[i]| :: schedule[i][j]
  {
    var before, after := schedule[..i], schedule[..i + 1];
    forall id | id in Requested(before) ensures id in Requested(after) {
      var a, b :| 0 <= a < |before| && 0 <= b < |before[a]| && before[a][b] == id;
      assert after[a][b] == id;
    }
    forall j | 0 <= j < |schedule[i]| ensures schedule[i][j] in Requested(after) {
      assert after[i][j] == schedule[i][j];
    }
  }

  lemma ReportsOneMore(plan: TradePlan, schedule: Schedule, i: nat)
    requires i < |schedule| == |plan.legs|
    ensures var k, k' := FirstRequest(schedule[..i], plan.id), FirstRequest(schedule[..i + 1], plan.id);
            && (k' == i <==> k == i && plan.id in schedule[i])
            && (k' == i + 1 <==> k == i && plan.id !in schedule[i])
            && MockReports(plan, k')[..i + 1] ==
                 MockReports(plan, k)[..i] + [
                   if k' == i then CancelledReport(plan.id, plan.legs[i]) else FilledReport(plan.id, plan.legs[i])]
  {
    assert schedule[..i + 1][..i] == schedule[..i];
  }

  /** Removing more keys, seen through a map that ignores one id. */
  lemma WithdrawMore<K, V>(start: map<K, V>, before: map<K, V>, after: map<K, V>, gone: set<K>, more: set<K>, id: K)
    requires before - {id} == start - gone - {id} && after == before - more
    ensures after - {id} == start - (gone + more) - {id}
  {
    forall k ensures (k in after - {id} <==> k in start - (gone + more) - {id}) {
      assert k in before - {id} <==> k in start - gone - {id};
    }
    forall k | k in after - {id} ensures (after - {id})[k] == start[k] {
      assert (before - {id})[k] == (start - gone - {id})[k];
    }
  }

  class MockExecutor {
    var cancelMap: map<PlanId, OneShot>

    constructor ()
      ensures cancelMap == map[]
    {
      cancelMap := map[];
    }

    /** The canceller task, for one request: take the plan's sender out of the map and signal it. */
    method HandleCancel(planId: PlanId)
      modifies this, cancelMap.Values
      ensures cancelMap == old(cancelMap) - {planId}
      ensures forall s :: s in old(cancelMap.Values) ==>
                s.pending == (old(s.pending) || (planId in old(cancelMap) && s == old(cancelMap)[planId]))
    {
      if planId in cancelMap {
        var tx := cancelMap[planId];
        cancelMap := cancelMap - {planId};
        tx.Send();
      }
    }

    method HandleCancels(planIds: seq<PlanId>, ghost own: PlanId, ghost rx: OneShot)
      requires rx in cancelMap.Values <==> own in cancelMap
      requires forall id :: id in cancelMap && cancelMap[id] == rx ==> id == own
      modifies this, cancelMap.Values, rx
      ensures cancelMap == old(cancelMap) - (set i | 0 <= i < |planIds| :: planIds[i])
      ensures rx.pending == (old(rx.pending) || (own in old(cancelMap) && own in planIds))
    {
      for i := 0 to |planIds|
        invariant cancelMap == old(cancelMap) - (set j | 0 <= j < i :: planIds[j])
        invariant rx.pending == (old(rx.pending) || (own in old(cancelMap) && own in planIds[..i]))
      {
        HandleCancel(planIds[i]);
      }
    }

    /**
     The per-plan worker, interleaved with the canceller as the schedule says. One report per
     leg, in leg order; the one-shot signal turns exactly one of them into a cancellation.
     */
    method ExecutePlan(plan: TradePlan, schedule: Schedule) returns (reports: seq<ExecutionReport>)
      requires AllTaker(plan) && |schedule| == |plan.legs|
      modifies this, cancelMap.Values
      ensures reports == MockReports(plan, FirstRequest(schedule, plan.id))
      ensures cancelMap == old(cancelMap) - Requested(schedule) - {plan.id}
    {
      hide MockReports, FirstRequest, Requested;
      var rx := new OneShot();
      cancelMap := cancelMap[plan.id := rx];
      NothingRequested(schedule);
      reports := [];
      for i := 0 to |plan.legs|
        invariant fresh(rx)
        invariant cancelMap - {plan.id} == old(cancelMap) - Requested(schedule[..i]) - {plan.id}
        invariant plan.id in cancelMap <==> FirstRequest(schedule[..i], plan.id) == i
        invariant plan.id in cancelMap ==> cancelMap[plan.id] == rx
        invariant forall id :: id in cancelMap && id != plan.id ==> cancelMap[id] in old(cancelMap.Values)
        invariant !rx.pending
        invariant reports == MockReports(plan, FirstRequest(schedule[..i], plan.id))[..i]
      {
        assert schedule[..i + 1][..i] == schedule[..i];
        RequestedOneMore(schedule, i);
        ghost var before, asked := cancelMap, set j | 0 <= j < |schedule[i]| :: schedule[i][j];
        HandleCancels(schedule[i], plan.id, rx);
        WithdrawMore(old(cancelMap), before, cancelMap, Requested(schedule[..i]), asked, plan.id);
        var leg := plan.legs[i];
        var cancelled := rx.TryRecv();
        ReportsOneMore(plan, schedule, i);
        if cancelled {
          reports := reports + [CancelledReport(plan.id, leg)];
        } else if leg.isTaker {
          reports := reports + [FilledReport(plan.id, leg)];
        }
      }
      assert schedule[..|schedule|] == schedule;
      cancelMap := cancelMap - {plan.id};
    }
  }

  // ----- what the reports amount to -----

  /** Every leg is accounted for exactly once, in order, with filled and remaining adding up. */
  lemma ReportsAccountForLegs(plan: TradePlan, k: nat, i: nat)
    requires i < |plan.legs|
    ensures var r := MockReports(plan, k)[i];
            && r.planId == plan.id && r.legIdx == plan.legs[i].legIdx
            && r.filledQty + r.remainingQty == plan.legs[i].qty
            && (r.status.Cancelled? <==> i == k)
            && (r.status.Filled? <==> i != k)
            && (r.status.Filled? ==> r.remainingQty == 0.0) && (r.status.Cancelled? ==> r.filledQty == 0.0)
  {
  }

  predicate AllCancelledFrom(reports: seq<ExecutionReport>, k: nat) {
    forall i :: k <= i < |reports| ==> reports[i].status.Cancelled?
  }

  /**
   The module's own description says a cancel stops every remaining leg. It does exactly when the
   signal is noticed at the last leg: the signal is consumed there, so later taker legs fill.
   */
  lemma CancelStopsRemainingLegsIffLast(plan: TradePlan, k: nat)
    requires k < |plan.legs|
    ensures AllCancelledFrom(MockReports(plan, k), k) <==> k == |plan.legs| - 1
  {
    if k + 1 < |plan.legs| {
      assert MockReports(plan, k)[k + 1].status.Filled?;
    }
  }

  /** Two taker legs cancelled before the first: the second is filled all the same. */
  lemma CancelBeforeFirstStillFillsSecond()
    ensures var legs := [OrderLeg("A", true, 1.0, 1.0, true, 0), OrderLeg("B", true, 1.0, 2.0, true, 1)];
            var plan := TradePlan("p", "USDT", 0.0, 0.0, legs);
            MockReports(plan, FirstRequest([["p"], []], "p")) ==
              [CancelledReport("p", legs[0]), FilledReport("p", legs[1])]
  {
    var s: Schedule := [["p"], []];
    assert "p" in s[0];
    var k := FirstRequest(s, "p");
    assert k == 0;
  }

  // ----- engine and mock together -----

  lemma MockFillsAreFull(plan: TradePlan, k: nat, m: nat)
    requires WellFormed(plan) && |plan.legs| <= 256 && m <= |plan.legs| && m <= k
    ensures FullFills(plan, MockReports(plan, k)[..m])
  {
    forall i | 0 <= i < m ensures MockReports(plan, k)[..m][i].legIdx == i {
      assert plan.legs[i].legIdx == i % 256;
    }
  }

  /**
   With no cancel, timeout, rollback or external removal, the engine keeps a plan in flight until
   it has handled the executor's report on the last leg, and removes it exactly there, whatever
   else it handles in between.
   */
  lemma PlanCompletesOnLastLeg(cfg: StrategyConfig, acts: seq<Action>, id: PlanId, m: nat)
    requires Exec(cfg, acts).Some? && id in Exec(cfg, acts).value.plans
    requires var s := Exec(cfg, acts).value;
             && 0 < |s.plans[id].legs| <= 256 && m <= |s.plans[id].legs|
             && ReportsOn(s.handled, id) == MockReports(s.plans[id], |s.plans[id].legs|)[..m]
             && OnlyByReport(s.removals, id)
    ensures var s := Exec(cfg, acts).value;
            id in s.inflight <==> m < |s.plans[id].legs|
  {
    LedgerInvariant(cfg, acts);
    var s := Exec(cfg, acts).value;
    MockFillsAreFull(s.plans[id], |s.plans[id].legs|, m);
    FullFillsCompleteAtLast(cfg, acts, id);
  }

  /**
   With the cancel signal noticed at leg k, the plan leaves on that leg's report, and the engine
   never handles the executor's later fills as the plan's own.
   */
  lemma CancelledPlanLeavesAtCancel(cfg: StrategyConfig, acts: seq<Action>, id: PlanId, k: nat, m: nat)
    requires Exec(cfg, acts).Some? && id in Exec(cfg, acts).value.plans
    requires var s := Exec(cfg, acts).value;
             && k < |s.plans[id].legs| <= 256 && m <= |s.plans[id].legs|
             && ReportsOn(s.handled, id) == MockReports(s.plans[id], k)[..m]
             && OnlyByReport(s.removals, id)
    ensures m <= k + 1
    ensures id in Exec(cfg, acts).value.inflight <==> m <= k
  {
    hide Exec, ReportsOn, LegSum, Covered, WellFormed, OnlyByReport;
    InFlightOrClosed(cfg, acts, id);
    var s := Exec(cfg, acts).value;
    var plan, rs := s.plans[id], ReportsOn(s.handled, id);
    if m > k {
      assert rs[k].status.Cancelled?;
      CancelledLegUncovered(plan, k, m);
    } else {
      MockFillsAreFull(plan, k, m);
      CoveredByAll(plan, rs);
    }
  }

  lemma CancelledLegUncovered(plan: TradePlan, k: nat, m: nat)
    requires WellFormed(plan) && k < m <= |plan.legs| <= 256
    ensures !Covered(plan, MockReports(plan, k)[..m])
  {
    CancelledLegSum(plan, k, m);
  }

  lemma {:induction false} CancelledLegSum(plan: TradePlan, k: nat, m: nat)
    requires WellFormed(plan) && k < |plan.legs| <= 256 && m <= |plan.legs|
    ensures LegSum(MockReports(plan, k)[..m], k) == 0.0
  {
    if m > 0 {
      var rs := MockReports(plan, k);
      assert rs[..m][..m - 1] == rs[..m - 1];
      assert plan.legs[m - 1].legIdx == (m - 1) % 256 && plan.legs[k].legIdx == k % 256;
      CancelledLegSum(plan, k, m - 1);
    }
  }
}
