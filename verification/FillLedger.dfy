/**
 The fill ledger of `handle_exec_report` over every run of `Protocol`: what the per-leg `filled`
 vector adds up to, when a plan leaves the map through reports, and that the order of full
 fills does not matter.
 */
module FillLedger {
  import opened Planner
  import opened Engine
  import opened Protocol

  /** The reports about one plan, in the order handled. */
  function ReportsOn(handled: seq<ExecutionReport>, id: PlanId): (mine: seq<ExecutionReport>)
    ensures forall k :: 0 <= k < |mine| ==> mine[k] in handled && mine[k].planId == id
  {
    if handled == [] then []
    else
      var last := handled[|handled| - 1];
      ReportsOn(handled[..|handled| - 1], id) + if last.planId == id then [last] else []
  }

  lemma OneMoreReport(handled: seq<ExecutionReport>, r: ExecutionReport, id: PlanId)
    ensures ReportsOn(handled + [r], id) ==
            if r.planId == id then ReportsOn(handled, id) + [r] else ReportsOn(handled, id)
  {
    assert (handled + [r])[..|handled|] == handled;
  }

  /** Total quantity reported filled for one leg. */
  function LegSum(rs: seq<ExecutionReport>, i: nat): real {
    if rs == [] then 0.0
    else
      var last := rs[|rs| - 1];
      LegSum(rs[..|rs| - 1], i) + if last.legIdx == i then last.filledQty else 0.0
  }

  lemma LegSumOneMore(rs: seq<ExecutionReport>, r: ExecutionReport, i: nat)
    ensures LegSum(rs + [r], i) == LegSum(rs, i) + if r.legIdx == i then r.filledQty else 0.0
  {
    assert (rs + [r])[..|rs|] == rs;
  }

  predicate Terminal(status: ExecStatus) { status.Cancelled? || status.Rejected? || status.PartiallyFilled? }

  predicate Covered(plan: TradePlan, rs: seq<ExecutionReport>) {
    forall i :: 0 <= i < |plan.legs| ==> LegSum(rs, i) >= plan.legs[i].qty
  }

  /** A plan in flight: its ledger is exact, and nothing so far was reason to remove it. */
  ghost predicate Open(p: InFlightPlan, rs: seq<ExecutionReport>) {
    && |p.filled| == |p.plan.legs|
    && (forall i :: 0 <= i < |p.filled| ==> p.filled[i] == LegSum(rs, i))
    && (forall k :: 0 <= k < |rs| ==> !Terminal(rs[k].status))
    && (rs != [] && rs[|rs| - 1].status.Filled? ==> !Covered(p.plan, rs))
  }

  /** A plan removed by its last handled report: that report was terminal, or completed every leg. */
  predicate Closed(plan: TradePlan, rs: seq<ExecutionReport>, r: ExecutionReport) {
    && rs != [] && rs[|rs| - 1] == r
    && (Terminal(r.status) || (r.status.Filled? && Covered(plan, rs)))
  }

  ghost predicate Ledger(s: State) {
    && (forall id :: id in s.inflight ==> Open(s.inflight[id], ReportsOn(s.handled, id)))
    && (forall i :: 0 <= i < |s.removals| && s.removals[i].cause.ByReport? ==> ClosedIn(s, s.removals[i]))
    && (forall k :: 0 <= k < |s.handled| ==> s.handled[k].planId in s.plans)
    && (forall id :: id in s.plans ==> WellFormed(s.plans[id]))
    && (s.detector.Planned? ==> WellFormed(s.detector.plan))
  }

  predicate ClosedIn(s: State, removal: Removal)
    requires removal.cause.ByReport?
  {
    Closed(removal.plan, ReportsOn(s.handled, removal.plan.id), removal.cause.report)
  }

  // ----- one report against one plan -----

  lemma CreditedLedger(p: InFlightPlan, rs: seq<ExecutionReport>, r: ExecutionReport)
    requires Open(p, rs)
    ensures var p' := Credited(p, r);
            && p'.plan == p.plan && |p'.filled| == |p.filled|
            && (forall i :: 0 <= i < |p'.filled| ==> p'.filled[i] == LegSum(rs + [r], i))
            && (AllLegged(p') <==> Covered(p.plan, rs + [r]))
            && (Finishes(p', r.status) <==> Terminal(r.status) || (r.status.Filled? && Covered(p.plan, rs + [r])))
  {
    var p' := Credited(p, r);
    forall i | 0 <= i < |p'.filled| ensures p'.filled[i] == LegSum(rs + [r], i) {
      LegSumOneMore(rs, r, i);
    }
  }

  lemma StaysOpen(p: InFlightPlan, rs: seq<ExecutionReport>, r: ExecutionReport)
    requires Open(p, rs) && !Finishes(Credited(p, r), r.status)
    ensures Open(Credited(p, r), rs + [r])
  {
    CreditedLedger(p, rs, r);
    hide LegSum, Credited, Finishes, AllLegged, Covered;
  }

  lemma Closes(p: InFlightPlan, rs: seq<ExecutionReport>, r: ExecutionReport)
    requires Open(p, rs) && Finishes(Credited(p, r), r.status)
    ensures Closed(p.plan, rs + [r], r)
  {
    CreditedLedger(p, rs, r);
    hide LegSum, Credited, Finishes, AllLegged, Covered;
  }

  lemma {:induction false} NoReportsYet(handled: seq<ExecutionReport>, plans: set<PlanId>, id: PlanId)
    requires id !in plans && forall k :: 0 <= k < |handled| ==> handled[k].planId in plans
    ensures ReportsOn(handled, id) == []
  {
    if handled != [] {
      NoReportsYet(handled[..|handled| - 1], plans, id);
    }
  }

  // ----- the invariant -----

  lemma OpenAtFirst(plan: TradePlan, now: int, timeoutMs: nat)
    ensures Open(NewlyInFlight(plan, now, timeoutMs), [])
  {
  }

  lemma LedgerAfterRegister(cfg: StrategyConfig, s: State)
    requires Enabled(s, Register) && Ledger(s) && Final(s)
    ensures Ledger(Do(cfg, s, Register))
  {
    hide Open, Closed, ReportsOn, WellFormed;
    var plan := s.detector.plan;
    NoReportsYet(s.handled, s.plans.Keys, plan.id);
    OpenAtFirst(plan, s.clock, cfg.orderTimeoutMs);
    var s' := Do(cfg, s, Register);
    forall i | 0 <= i < |s'.removals| && s'.removals[i].cause.ByReport? ensures ClosedIn(s', s'.removals[i]) {
      assert ClosedIn(s, s.removals[i]);
    }
  }

  lemma OpenAfterApply(s: State, r: ExecutionReport, id: PlanId)
    requires Ledger(s) && r.planId in s.inflight && id in AfterReport(s.inflight, r)
    ensures Open(AfterReport(s.inflight, r)[id], ReportsOn(s.handled + [r], id))
  {
    hide Open, ReportsOn, Credited, Finishes;
    OneMoreReport(s.handled, r, id);
    if id == r.planId {
      StaysOpen(s.inflight[id], ReportsOn(s.handled, id), r);
    }
  }

  lemma ClosedAfterApply(s: State, r: ExecutionReport, removal: Removal)
    requires removal.cause.ByReport? && ClosedIn(s, removal) && removal.plan.id != r.planId
    ensures Closed(removal.plan, ReportsOn(s.handled + [r], removal.plan.id), removal.cause.report)
  {
    OneMoreReport(s.handled, r, removal.plan.id);
  }

  lemma ClosedByApply(s: State, r: ExecutionReport)
    requires Ledger(s) && Removes(s.inflight, r)
    ensures Closed(s.inflight[r.planId].plan, ReportsOn(s.handled + [r], r.planId), r)
  {
    hide Open, Closed, ReportsOn, Credited, Finishes;
    OneMoreReport(s.handled, r, r.planId);
    Closes(s.inflight[r.planId], ReportsOn(s.handled, r.planId), r);
  }

  lemma LedgerAfterApply(cfg: StrategyConfig, s: State)
    requires Enabled(s, Apply) && Ledger(s) && Final(s)
    ensures Ledger(Do(cfg, s, Apply))
  {
    var r, s' := s.monitor.report, Do(cfg, s, Apply);
    if r.planId in s.inflight {
      LedgerAfterHandled(s, s', r);
    }
  }

  lemma LedgerAfterHandled(s: State, s': State, r: ExecutionReport)
    requires Ledger(s) && Final(s) && r.planId in s.inflight
    requires s'.inflight == AfterReport(s.inflight, r) && s'.handled == s.handled + [r]
    requires s'.plans == s.plans && s'.detector == s.detector
    requires s'.removals ==
               if Removes(s.inflight, r) then s.removals + [Removal(s.inflight[r.planId].plan, ByReport(r))]
               else s.removals
    ensures Ledger(s')
  {
    hide Open, Closed, ReportsOn, AfterReport, Removes;
    forall id | id in s'.inflight ensures Open(s'.inflight[id], ReportsOn(s'.handled, id)) {
      OpenAfterApply(s, r, id);
    }
    forall i | 0 <= i < |s'.removals| && s'.removals[i].cause.ByReport? ensures ClosedIn(s', s'.removals[i]) {
      if i < |s.removals| {
        assert s'.removals[i] == s.removals[i] && RemovedProperly(s, s.removals[i]);
        ClosedAfterApply(s, r, s.removals[i]);
      } else {
        ClosedByApply(s, r);
      }
    }
  }

  lemma DropFrame(s: State, id: PlanId, cause: Cause)
    requires !cause.ByReport?
    ensures var s' := Drop(s, id, cause);
            && s'.inflight.Keys <= s.inflight.Keys
            && (forall id :: id in s'.inflight ==> s'.inflight[id] == s.inflight[id])
            && s'.handled == s.handled && s'.plans == s.plans && s'.detector == s.detector
            && (s'.removals == s.removals
                || (s'.removals != [] && s'.removals[..|s'.removals| - 1] == s.removals &&
                     !s'.removals[|s'.removals| - 1].cause.ByReport?))
  {
  }

  /** Steps that neither register nor handle a report may only drop plans, and never by report. */
  lemma OtherFrame(cfg: StrategyConfig, s: State, a: Action)
    requires Enabled(s, a) && !a.Register? && !a.Apply?
    ensures var s' := Do(cfg, s, a);
            && s'.inflight.Keys <= s.inflight.Keys
            && (forall id :: id in s'.inflight ==> s'.inflight[id] == s.inflight[id])
            && s'.handled == s.handled && s'.plans == s.plans
            && (s'.removals == s.removals
                || (s'.removals != [] && s'.removals[..|s'.removals| - 1] == s.removals &&
                     !s'.removals[|s'.removals| - 1].cause.ByReport?))
            && (s'.detector.Planned? ==> s'.detector == s.detector || WellFormed(s'.detector.plan))
  {
    hide WellFormed, OverdueIds, Enumerates, AfterReport, Removes, CancelsAfterReport, Drop;
    match a {
      case Rollback => DropFrame(s, s.detector.plan.id, ByRollback);
      case RemoveOverdue => DropFrame(s, s.monitor.todo[s.monitor.k], ByTimeout);
      case CallerRemove(id) => DropFrame(s, id, ByCaller);
      case _ => QuietFrame(cfg, s, a);
    }
  }

  lemma LedgerAfterOther(cfg: StrategyConfig, s: State, a: Action)
    requires Enabled(s, a) && Ledger(s) && !a.Register? && !a.Apply?
    ensures Ledger(Do(cfg, s, a))
  {
    OtherFrame(cfg, s, a);
    var s' := Do(cfg, s, a);
    LedgerAfterDrops(s, s');
  }

  lemma LedgerAfterDrops(s: State, s': State)
    requires Ledger(s)
    requires s'.inflight.Keys <= s.inflight.Keys && forall id :: id in s'.inflight ==> s'.inflight[id] == s.inflight[id]
    requires s'.handled == s.handled && s'.plans == s.plans
    requires s'.removals == s.removals
             || (s'.removals != [] && s'.removals[..|s'.removals| - 1] == s.removals &&
                  !s'.removals[|s'.removals| - 1].cause.ByReport?)
    requires s'.detector.Planned? ==> s'.detector == s.detector || WellFormed(s'.detector.plan)
    ensures Ledger(s')
  {
    hide Open, Closed, ReportsOn;
    forall id | id in s'.inflight ensures Open(s'.inflight[id], ReportsOn(s'.handled, id)) {
      assert id in s.inflight.Keys;
    }
    forall i | 0 <= i < |s'.removals| && s'.removals[i].cause.ByReport? ensures ClosedIn(s', s'.removals[i]) {
      assert s'.removals[i] == s.removals[i] && ClosedIn(s, s.removals[i]);
    }
  }

  lemma LedgerInitially()
    ensures Ledger(INITIAL)
  {
  }

  lemma {:induction false} LedgerInvariant(cfg: StrategyConfig, acts: seq<Action>)
    requires Exec(cfg, acts).Some?
    ensures Ledger(Exec(cfg, acts).value)
  {
    hide Ledger, Final, Do, Enabled;
    if acts == [] {
      LedgerInitially();
    } else {
      var before, a := acts[..|acts| - 1], acts[|acts| - 1];
      LedgerInvariant(cfg, before);
      FinalInvariant(cfg, before);
      var s := Exec(cfg, before).value;
      match a {
        case Register => LedgerAfterRegister(cfg, s);
        case Apply => LedgerAfterApply(cfg, s);
        case _ => LedgerAfterOther(cfg, s, a);
      }
    }
  }

  predicate RemovedByFill(cause: Cause) { cause.ByReport? && cause.report.status.Filled? }

  /**
   In every reachable state each in-flight leg's filled quantity is the sum reported for it, and
   a plan that left through a report did so at a terminal report, or at a Filled report with
   every leg's sum covering its quantity.
   */
  lemma LedgerIsExact(cfg: StrategyConfig, acts: seq<Action>)
    requires Exec(cfg, acts).Some?
    ensures var s := Exec(cfg, acts).value;
            && (forall id, i :: id in s.inflight && 0 <= i < |s.inflight[id].plan.legs| ==>
                  i < |s.inflight[id].filled| && s.inflight[id].filled[i] == LegSum(ReportsOn(s.handled, id), i))
            && (forall k :: 0 <= k < |s.removals| && RemovedByFill(s.removals[k].cause) ==>
                  Covered(s.removals[k].plan, ReportsOn(s.handled, s.removals[k].plan.id)))
  {
    LedgerInvariant(cfg, acts);
    var s := Exec(cfg, acts).value;
    forall k | 0 <= k < |s.removals| && RemovedByFill(s.removals[k].cause)
      ensures Covered(s.removals[k].plan, ReportsOn(s.handled, s.removals[k].plan.id))
    {
      assert ClosedIn(s, s.removals[k]);
    }
  }

  // ----- full fills, in any order -----

  predicate FullFill(plan: TradePlan, r: ExecutionReport) {
    r.legIdx < |plan.legs| && r.filledQty == plan.legs[r.legIdx].qty && r.status.Filled?
  }

  /** Full fills of distinct legs. */
  predicate FullFills(plan: TradePlan, rs: seq<ExecutionReport>) {
    && (forall k :: 0 <= k < |rs| ==> FullFill(plan, rs[k]))
    && (forall j, k :: 0 <= j < k < |rs| ==> rs[j].legIdx != rs[k].legIdx)
  }

  predicate Reported(rs: seq<ExecutionReport>, i: nat) {
    exists k :: 0 <= k < |rs| && rs[k].legIdx == i
  }

  lemma {:induction false} SumOfFullFills(plan: TradePlan, rs: seq<ExecutionReport>, i: nat)
    requires FullFills(plan, rs) && i < |plan.legs|
    ensures LegSum(rs, i) == if Reported(rs, i) then plan.legs[i].qty else 0.0
  {
    if rs != [] {
      var n := |rs| - 1;
      var rest := rs[..n];
      SumOfFullFills(plan, rest, i);
      if Reported(rest, i) {
        var k :| 0 <= k < |rest| && rest[k].legIdx == i;
        assert rs[k].legIdx == i;
      }
      if Reported(rs, i) && rs[n].legIdx != i {
        var k :| 0 <= k < |rs| && rs[k].legIdx == i;
        assert rest[k].legIdx == i;
      }
    }
  }

  function Legs(rs: seq<ExecutionReport>): set<nat> { set k | 0 <= k < |rs| :: rs[k].legIdx as nat }

  function Below(n: nat): (s: set<nat>)
    ensures forall i: nat :: i in s <==> i < n
    ensures |s| == n
  {
    if n == 0 then {} else Below(n - 1) + {n - 1}
  }

  lemma LegsOneMore(rs: seq<ExecutionReport>)
    requires rs != []
    ensures var n := |rs| - 1; Legs(rs) == Legs(rs[..n]) + {rs[n].legIdx as nat}
    ensures var n := |rs| - 1;
            (forall k :: 0 <= k < n ==> rs[k].legIdx != rs[n].legIdx) ==> rs[n].legIdx as nat !in Legs(rs[..n])
  {
  }

  lemma {:induction false} LegsSize(plan: TradePlan, rs: seq<ExecutionReport>)
    requires FullFills(plan, rs)
    ensures |Legs(rs)| == |rs| && Legs(rs) <= Below(|plan.legs|)
  {
    if rs != [] {
      var n := |rs| - 1;
      LegsSize(plan, rs[..n]);
      LegsOneMore(rs);
      hide Legs, Below;
    }
  }

  /** Distinct full fills cover a plan exactly when there is one for every leg. */
  lemma CoveredByAll(plan: TradePlan, rs: seq<ExecutionReport>)
    requires FullFills(plan, rs) && WellFormed(plan)
    ensures |rs| <= |plan.legs|
    ensures Covered(plan, rs) <==> |rs| == |plan.legs|
  {
    hide LegSum, Below;
    var n := |plan.legs|;
    LegsSize(plan, rs);
    assert Below(n) == Legs(rs) + (Below(n) - Legs(rs));
    assert |Below(n)| == |Legs(rs)| + |Below(n) - Legs(rs)|;
    forall i | 0 <= i < n ensures LegSum(rs, i) >= plan.legs[i].qty <==> i in Legs(rs) {
      SumOfFullFills(plan, rs, i);
    }
    assert Covered(plan, rs) <==> Below(n) <= Legs(rs);
  }

  predicate OnlyByReport(removals: seq<Removal>, id: PlanId) {
    forall i :: 0 <= i < |removals| && removals[i].plan.id == id ==> removals[i].cause.ByReport?
  }

  /** A plan that only reports can remove is still open in the map, or was closed by its last report. */
  lemma InFlightOrClosed(cfg: StrategyConfig, acts: seq<Action>, id: PlanId)
    requires Exec(cfg, acts).Some? && id in Exec(cfg, acts).value.plans
    requires OnlyByReport(Exec(cfg, acts).value.removals, id)
    ensures var s := Exec(cfg, acts).value;
            var plan, rs := s.plans[id], ReportsOn(s.handled, id);
            && WellFormed(plan)
            && (id in s.inflight ==> s.inflight[id].plan == plan && Open(s.inflight[id], rs))
            && (id !in s.inflight ==> rs != [] && Closed(plan, rs, rs[|rs| - 1]))
  {
    hide Exec, ReportsOn, LegSum, WellFormed, Open;
    LedgerInvariant(cfg, acts);
    FinalInvariant(cfg, acts);
    var s := Exec(cfg, acts).value;
    if id !in s.inflight {
      assert WasRemoved(s.removals, id);
      var i :| 0 <= i < |s.removals| && s.removals[i].plan.id == id;
      assert RemovedProperly(s, s.removals[i]) && ClosedIn(s, s.removals[i]);
    }
  }

  /**
   Order independence: with no timeout, rollback or external removal, a plan reported by full
   fills of distinct legs, in whatever order and however interleaved with other plans, is in
   flight exactly until every leg has been reported.
   */
  lemma FullFillsCompleteAtLast(cfg: StrategyConfig, acts: seq<Action>, id: PlanId)
    requires Exec(cfg, acts).Some? && id in Exec(cfg, acts).value.plans
    requires var s := Exec(cfg, acts).value;
             && s.plans[id].legs != []
             && FullFills(s.plans[id], ReportsOn(s.handled, id))
             && OnlyByReport(s.removals, id)
    ensures var s := Exec(cfg, acts).value;
            id in s.inflight <==> |ReportsOn(s.handled, id)| < |s.plans[id].legs|
  {
    hide Exec, ReportsOn, LegSum, Covered, WellFormed, OnlyByReport;
    InFlightOrClosed(cfg, acts, id);
    var s := Exec(cfg, acts).value;
    CoveredByAll(s.plans[id], ReportsOn(s.handled, id));
  }
}
