/**
 When plans time out and who is asked to cancel, over every run of `Protocol`, in terms of the
 run alone: the clock at each registration and at the start of each scan, the statuses handled.
 */
module Timeouts {
  import opened Wrappers
  import opened Planner
  import opened Engine
  import opened Protocol

  // ----- clocks of a run -----

  predicate RegistersAt(cfg: StrategyConfig, acts: seq<Action>, i: int, id: PlanId, t: int) {
    && 0 <= i < |acts| && acts[i] == Register && Exec(cfg, acts[..i]).Some?
    && var s := Exec(cfg, acts[..i]).value;
       s.detector.Planned? && s.detector.plan.id == id && s.clock == t
  }

  /** The run registered the plan when the clock stood at t. */
  ghost predicate RegisteredAt(cfg: StrategyConfig, acts: seq<Action>, id: PlanId, t: int) {
    exists i :: RegistersAt(cfg, acts, i, id, t)
  }

  predicate ScansAt(cfg: StrategyConfig, acts: seq<Action>, i: int, now: int) {
    0 <= i < |acts| && acts[i] == StartScan && Exec(cfg, acts[..i]).Some? && Exec(cfg, acts[..i]).value.clock == now
  }

  /** The run started a scan when the clock stood at now. */
  ghost predicate ScannedAt(cfg: StrategyConfig, acts: seq<Action>, now: int) {
    exists i :: ScansAt(cfg, acts, i, now)
  }

  /** More than the configured timeout passed between the plan's registration and now. */
  ghost predicate Late(cfg: StrategyConfig, acts: seq<Action>, id: PlanId, now: int) {
    exists t :: RegisteredAt(cfg, acts, id, t) && now - t > cfg.orderTimeoutMs
  }

  /** Some scan of the run started too late for the plan. */
  ghost predicate ScannedLate(cfg: StrategyConfig, acts: seq<Action>, id: PlanId) {
    exists now :: ScannedAt(cfg, acts, now) && Late(cfg, acts, id, now)
  }

  ghost predicate ScanOf(cfg: StrategyConfig, acts: seq<Action>, todo: seq<PlanId>) {
    forall i :: 0 <= i < |todo| ==> ScannedLate(cfg, acts, todo[i])
  }

  // ----- longer runs -----

  lemma RegisteredStays(cfg: StrategyConfig, acts: seq<Action>, a: Action, id: PlanId, t: int)
    requires RegisteredAt(cfg, acts, id, t)
    ensures RegisteredAt(cfg, acts + [a], id, t)
  {
    var i :| RegistersAt(cfg, acts, i, id, t);
    assert (acts + [a])[..i] == acts[..i];
    assert RegistersAt(cfg, acts + [a], i, id, t);
  }

  lemma ScannedStays(cfg: StrategyConfig, acts: seq<Action>, a: Action, now: int)
    requires ScannedAt(cfg, acts, now)
    ensures ScannedAt(cfg, acts + [a], now)
  {
    var i :| ScansAt(cfg, acts, i, now);
    assert (acts + [a])[..i] == acts[..i];
    assert ScansAt(cfg, acts + [a], i, now);
  }

  lemma ScannedLateStays(cfg: StrategyConfig, acts: seq<Action>, a: Action, id: PlanId)
    requires ScannedLate(cfg, acts, id)
    ensures ScannedLate(cfg, acts + [a], id)
  {
    hide RegisteredAt, ScannedAt;
    var now :| ScannedAt(cfg, acts, now) && Late(cfg, acts, id, now);
    var t :| RegisteredAt(cfg, acts, id, t) && now - t > cfg.orderTimeoutMs;
    RegisteredStays(cfg, acts, a, id, t);
    ScannedStays(cfg, acts, a, now);
  }

  lemma RegisteredNow(cfg: StrategyConfig, acts: seq<Action>)
    requires Exec(cfg, acts).Some? && Exec(cfg, acts).value.detector.Planned?
    ensures var s := Exec(cfg, acts).value; RegisteredAt(cfg, acts + [Register], s.detector.plan.id, s.clock)
  {
    hide Exec;
    var s := Exec(cfg, acts).value;
    assert (acts + [Register])[..|acts|] == acts;
    assert RegistersAt(cfg, acts + [Register], |acts|, s.detector.plan.id, s.clock);
  }

  lemma ScannedNow(cfg: StrategyConfig, acts: seq<Action>)
    requires Exec(cfg, acts).Some?
    ensures ScannedAt(cfg, acts + [StartScan], Exec(cfg, acts).value.clock)
  {
    hide Exec;
    assert (acts + [StartScan])[..|acts|] == acts;
    assert ScansAt(cfg, acts + [StartScan], |acts|, Exec(cfg, acts).value.clock);
  }

  // ----- the invariant -----

  /** An entry carries the clock of its registration and the configured timeout. */
  ghost predicate EntryTimed(cfg: StrategyConfig, acts: seq<Action>, id: PlanId, p: InFlightPlan) {
    RegisteredAt(cfg, acts, id, p.submittedAt) && p.timeoutMs == cfg.orderTimeoutMs
  }

  ghost predicate MapTimed(cfg: StrategyConfig, acts: seq<Action>, s: State) {
    forall id :: id in s.inflight ==> EntryTimed(cfg, acts, id, s.inflight[id])
  }

  ghost predicate MonitorTimed(cfg: StrategyConfig, acts: seq<Action>, m: Monitor) {
    match m
    case ScanStarting(now) => ScannedAt(cfg, acts, now)
    case Scanning(todo, k) => ScanOf(cfg, acts, todo)
    case Cancelling(todo, k) => ScanOf(cfg, acts, todo)
    case _ => true
  }

  ghost predicate RemovalsTimed(cfg: StrategyConfig, acts: seq<Action>, s: State) {
    forall i :: 0 <= i < |s.removals| && s.removals[i].cause.ByTimeout? ==>
        ScannedLate(cfg, acts, s.removals[i].plan.id)
  }

  ghost predicate Timed(cfg: StrategyConfig, acts: seq<Action>, s: State) {
    MapTimed(cfg, acts, s) && MonitorTimed(cfg, acts, s.monitor) && RemovalsTimed(cfg, acts, s)
  }

  lemma MonitorTimedStays(cfg: StrategyConfig, acts: seq<Action>, a: Action, m: Monitor)
    requires MonitorTimed(cfg, acts, m)
    ensures MonitorTimed(cfg, acts + [a], m)
  {
    hide ScannedAt, ScannedLate;
    if m.ScanStarting? {
      ScannedStays(cfg, acts, a, m.now);
    } else if m.Scanning? || m.Cancelling? {
      forall i | 0 <= i < |m.todo| ensures ScannedLate(cfg, acts + [a], m.todo[i]) {
        ScannedLateStays(cfg, acts, a, m.todo[i]);
      }
    }
  }

  /** Entries that were there keep their times, and an entry that was not is registered by this very step. */
  lemma MapTimedStep(cfg: StrategyConfig, acts: seq<Action>, s: State, a: Action)
    requires Exec(cfg, acts) == Some(s) && Enabled(s, a) && MapTimed(cfg, acts, s)
    ensures MapTimed(cfg, acts + [a], Do(cfg, s, a))
  {
    hide Exec, RegisteredAt, Do, Enabled;
    var s' := Do(cfg, s, a);
    EntriesKept(cfg, s, a);
    if a.Register? {
      RegistersPlanned(cfg, s);
      RegisteredNow(cfg, acts);
    }
    forall id | id in s'.inflight ensures EntryTimed(cfg, acts + [a], id, s'.inflight[id]) {
      if id in s.inflight && !(a.Register? && id == s.detector.plan.id) {
        assert EntryTimed(cfg, acts, id, s.inflight[id]);
        RegisteredStays(cfg, acts, a, id, s.inflight[id].submittedAt);
      }
    }
  }

  lemma RegistersPlanned(cfg: StrategyConfig, s: State)
    requires Enabled(s, Register)
    ensures s.detector.Planned?
    ensures var (plan, s') := (s.detector.plan, Do(cfg, s, Register));
            && s'.inflight.Keys == s.inflight.Keys + {plan.id}
            && s'.inflight[plan.id].submittedAt == s.clock && s'.inflight[plan.id].timeoutMs == cfg.orderTimeoutMs
  {
  }

  /** No step changes the times of an entry that stays, unless it registers that very id. */
  lemma EntriesKept(cfg: StrategyConfig, s: State, a: Action)
    requires Enabled(s, a)
    ensures var s' := Do(cfg, s, a);
            && (!a.Register? ==> s'.inflight.Keys <= s.inflight.Keys)
            && forall id :: id in s'.inflight && id in s.inflight && !(a.Register? && id == s.detector.plan.id) ==>
                 SameTimes(s.inflight[id], s'.inflight[id])
  {
    hide Removes, CancelsAfterReport, WellFormed, OverdueIds, Enumerates;
    match a {
      case Apply => ReportsKeepTimes(s.inflight, s.monitor.report);
      case Register =>
      case Rollback =>
      case RemoveOverdue =>
      case CallerRemove(_) =>
      case _ => QuietFrame(cfg, s, a);
    }
  }

  predicate SameTimes(p: InFlightPlan, q: InFlightPlan) { p.submittedAt == q.submittedAt && p.timeoutMs == q.timeoutMs }

  lemma ReportsKeepTimes(inflight: InFlight, r: ExecutionReport)
    ensures AfterReport(inflight, r).Keys <= inflight.Keys
    ensures forall id :: id in AfterReport(inflight, r) ==> SameTimes(inflight[id], AfterReport(inflight, r)[id])
  {
  }

  /** Collecting lists plans whose time since registration exceeds the timeout at the scan's start. */
  lemma CollectedLate(cfg: StrategyConfig, acts: seq<Action>, s: State, todo: seq<PlanId>)
    requires Enabled(s, Collect(todo)) && MapTimed(cfg, acts, s) && ScannedAt(cfg, acts, s.monitor.now)
    ensures ScanOf(cfg, acts, todo)
  {
    hide RegisteredAt, ScannedAt;
    forall i | 0 <= i < |todo| ensures ScannedLate(cfg, acts, todo[i]) {
      assert todo[i] in OverdueIds(s.inflight, s.monitor.now);
      assert EntryTimed(cfg, acts, todo[i], s.inflight[todo[i]]);
      assert Late(cfg, acts, todo[i], s.monitor.now);
    }
  }

  lemma MonitorTimedStep(cfg: StrategyConfig, acts: seq<Action>, s: State, a: Action)
    requires Exec(cfg, acts) == Some(s) && Enabled(s, a) && Timed(cfg, acts, s)
    ensures MonitorTimed(cfg, acts + [a], Do(cfg, s, a).monitor)
  {
    hide Exec, ScannedAt, ScanOf, MapTimed, RemovalsTimed, RegisteredAt, ScannedLate, AfterReport, Removes,
         CancelsAfterReport, WellFormed, OverdueIds, Enumerates;
    MonitorTimedStays(cfg, acts, a, s.monitor);
    match a {
      case StartScan => ScannedNow(cfg, acts);
      case Collect(todo) =>
        CollectedLate(cfg, acts, s, todo);
        MonitorTimedStays(cfg, acts, a, Scanning(todo, 0));
      case _ =>
    }
  }

  lemma RemovalsTimedStep(cfg: StrategyConfig, acts: seq<Action>, s: State, a: Action)
    requires Enabled(s, a) && Final(s) && MonitorTimed(cfg, acts, s.monitor) && RemovalsTimed(cfg, acts, s)
    ensures RemovalsTimed(cfg, acts + [a], Do(cfg, s, a))
  {
    hide ScannedLate, Final, Do, Enabled;
    var s' := Do(cfg, s, a);
    TimeoutsRemove(cfg, s, a);
    forall i | 0 <= i < |s'.removals| && s'.removals[i].cause.ByTimeout?
      ensures ScannedLate(cfg, acts + [a], s'.removals[i].plan.id)
    {
      if i < |s.removals| {
        assert s'.removals[i] == s.removals[i];
      }
      ScannedLateStays(cfg, acts, a, s'.removals[i].plan.id);
    }
  }

  /** A new removal by timeout is of the plan the scan has reached. */
  lemma TimeoutsRemove(cfg: StrategyConfig, s: State, a: Action)
    requires Enabled(s, a) && Final(s)
    ensures var s' := Do(cfg, s, a);
            && s.removals <= s'.removals && |s'.removals| <= |s.removals| + 1
            && (|s'.removals| > |s.removals| && s'.removals[|s.removals|].cause.ByTimeout? ==>
                  && s.monitor.Cancelling? && s.monitor.k < |s.monitor.todo|
                  && s'.removals[|s.removals|].plan.id == s.monitor.todo[s.monitor.k])
  {
    hide AfterReport, Removes, CancelsAfterReport, WellFormed, OverdueIds, Enumerates, WasRemoved, RemovedProperly;
    match a {
      case Apply =>
      case Register =>
      case Rollback =>
      case RemoveOverdue =>
      case CallerRemove(_) =>
      case _ => QuietFrame(cfg, s, a);
    }
  }

  lemma {:induction false} TimedInvariant(cfg: StrategyConfig, acts: seq<Action>)
    requires Exec(cfg, acts).Some?
    ensures Timed(cfg, acts, Exec(cfg, acts).value)
  {
    if acts != [] {
      var before, a := acts[..|acts| - 1], acts[|acts| - 1];
      assert acts == before + [a];
      TimedInvariant(cfg, before);
      FinalInvariant(cfg, before);
      var s := Exec(cfg, before).value;
      MapTimedStep(cfg, before, s, a);
      MonitorTimedStep(cfg, before, s, a);
      RemovalsTimedStep(cfg, before, s, a);
    }
  }

  // ----- each plan is registered once -----

  lemma RegisteredEarlier(cfg: StrategyConfig, acts: seq<Action>, i: int, id: PlanId, t: int)
    requires acts != [] && RegistersAt(cfg, acts, i, id, t) && i < |acts| - 1
    ensures RegistersAt(cfg, acts[..|acts| - 1], i, id, t)
  {
    assert acts[..|acts| - 1][..i] == acts[..i];
  }

  lemma {:induction false} RegisteredIsKnown(cfg: StrategyConfig, acts: seq<Action>, id: PlanId, t: int)
    requires Exec(cfg, acts).Some? && RegisteredAt(cfg, acts, id, t)
    ensures id in Exec(cfg, acts).value.plans
  {
    hide Do, Enabled, Final;
    var i :| RegistersAt(cfg, acts, i, id, t);
    var n := |acts| - 1;
    var s := Exec(cfg, acts[..n]).value;
    FinalInvariant(cfg, acts[..n]);
    PlansKept(cfg, s, acts[n]);
    if i < n {
      RegisteredEarlier(cfg, acts, i, id, t);
      RegisteredIsKnown(cfg, acts[..n], id, t);
      assert id in s.plans.Keys;
    }
  }

  lemma PlansKept(cfg: StrategyConfig, s: State, a: Action)
    requires Enabled(s, a) && Final(s)
    ensures s.plans.Keys <= Do(cfg, s, a).plans.Keys
    ensures a.Register? ==>
              && s.detector.Planned? && s.detector.plan.id !in s.plans
              && s.detector.plan.id in Do(cfg, s, a).plans
  {
    hide WasRemoved, RemovedProperly;
    NoReturn(cfg, s, a);
  }

  lemma {:induction false} RegisteredOnce(cfg: StrategyConfig, acts: seq<Action>, id: PlanId, t: int, u: int)
    requires Exec(cfg, acts).Some? && RegisteredAt(cfg, acts, id, t) && RegisteredAt(cfg, acts, id, u)
    ensures t == u
  {
    hide Do, Enabled, Final;
    var i :| RegistersAt(cfg, acts, i, id, t);
    var j :| RegistersAt(cfg, acts, j, id, u);
    var n := |acts| - 1;
    FinalInvariant(cfg, acts[..n]);
    PlansKept(cfg, Exec(cfg, acts[..n]).value, acts[n]);
    if i < n {
      RegisteredEarlier(cfg, acts, i, id, t);
      RegisteredIsKnown(cfg, acts[..n], id, t);
    }
    if j < n {
      RegisteredEarlier(cfg, acts, j, id, u);
      RegisteredIsKnown(cfg, acts[..n], id, u);
    }
    if i < n && j < n {
      RegisteredOnce(cfg, acts[..n], id, t, u);
    }
  }

  // ----- what it comes to -----

  /** Every entry in flight was registered exactly at its submission time, and carries the configured timeout. */
  lemma EntriesAreTimed(cfg: StrategyConfig, acts: seq<Action>, id: PlanId, t: int)
    requires Exec(cfg, acts).Some? && id in Exec(cfg, acts).value.inflight
    ensures var p := Exec(cfg, acts).value.inflight[id];
            && p.timeoutMs == cfg.orderTimeoutMs
            && (RegisteredAt(cfg, acts, id, t) <==> p.submittedAt == t)
  {
    hide Exec, RegisteredAt;
    TimedInvariant(cfg, acts);
    var p := Exec(cfg, acts).value.inflight[id];
    assert EntryTimed(cfg, acts, id, p);
    if RegisteredAt(cfg, acts, id, t) {
      RegisteredOnce(cfg, acts, id, t, p.submittedAt);
    }
  }

  /**
   No plan is timed out early: a plan removed by timeout was registered at some clock t, and some
   scan started at a clock that exceeds t by more than the configured timeout.
   */
  lemma TimeoutsAreLate(cfg: StrategyConfig, acts: seq<Action>, i: nat)
    requires Exec(cfg, acts).Some? && i < |Exec(cfg, acts).value.removals|
    requires Exec(cfg, acts).value.removals[i].cause.ByTimeout?
    ensures exists t, now :: RegisteredAt(cfg, acts, Exec(cfg, acts).value.removals[i].plan.id, t)
                             && ScannedAt(cfg, acts, now) && now - t > cfg.orderTimeoutMs
  {
    hide Exec, RegisteredAt, ScannedAt;
    TimedInvariant(cfg, acts);
    var id := Exec(cfg, acts).value.removals[i].plan.id;
    assert ScannedLate(cfg, acts, id);
    var now :| ScannedAt(cfg, acts, now) && Late(cfg, acts, id, now);
    var t :| RegisteredAt(cfg, acts, id, t) && now - t > cfg.orderTimeoutMs;
  }

  /** The run's last scan started at step k and has not collected yet. */
  predicate ScanPendingSince(acts: seq<Action>, k: nat) {
    k < |acts| && acts[k] == StartScan && forall i :: k < i < |acts| ==> !acts[i].Collect?
  }

  lemma {:induction false} ScanWaits(cfg: StrategyConfig, acts: seq<Action>, k: nat)
    requires Exec(cfg, acts).Some? && ScanPendingSince(acts, k)
    ensures Exec(cfg, acts[..k]).Some?
    ensures Exec(cfg, acts).value.monitor == ScanStarting(Exec(cfg, acts[..k]).value.clock)
  {
    hide Do, Enabled;
    var n := |acts| - 1;
    if n == k {
      ScanStarts(cfg, Exec(cfg, acts[..n]).value);
    } else {
      assert acts[..n][..k] == acts[..k];
      ScanWaits(cfg, acts[..n], k);
      StartKept(cfg, Exec(cfg, acts[..n]).value, acts[n]);
    }
  }

  lemma ScanStarts(cfg: StrategyConfig, s: State)
    requires Enabled(s, StartScan)
    ensures Do(cfg, s, StartScan).monitor == ScanStarting(s.clock)
  {
  }

  lemma StartKept(cfg: StrategyConfig, s: State, a: Action)
    requires Enabled(s, a) && s.monitor.ScanStarting? && !a.Collect?
    ensures Do(cfg, s, a).monitor == s.monitor
  {
    hide AfterReport, Removes, CancelsAfterReport, WellFormed, OverdueIds, Enumerates;
  }

  /**
   No overdue plan is missed: when a scan ends, every plan registered by its collection whose
   registration the scan's start exceeds by more than the configured timeout is out of the map.
   */
  lemma LateAreRemoved(cfg: StrategyConfig, acts: seq<Action>, k: nat, todo: seq<PlanId>, during: seq<Action>,
                       id: PlanId, t: int)
    requires Exec(cfg, acts).Some? && ScanPendingSince(acts, k) && RegisteredAt(cfg, acts, id, t)
    requires Exec(cfg, acts + [Collect(todo)] + during).Some?
    requires Enabled(Exec(cfg, acts + [Collect(todo)] + during).value, EndScan)
    requires forall i :: 0 <= i < |during| ==> during[i] != EndScan
    ensures Exec(cfg, acts[..k]).Some?
    ensures Exec(cfg, acts[..k]).value.clock - t > cfg.orderTimeoutMs ==>
              id !in Exec(cfg, acts + [Collect(todo)] + during).value.inflight
  {
    hide Exec, RegisteredAt, Enabled, WasRemoved, OverdueIds, ScanPendingSince;
    ScanLeavesNothingOverdue(cfg, acts, todo, during, id);
    ScanWaits(cfg, acts, k);
    RegisteredIsKnown(cfg, acts, id, t);
    var s := Exec(cfg, acts).value;
    if id in s.inflight {
      EntriesAreTimed(cfg, acts, id, t);
    } else {
      GoneStaysGone(cfg, acts, todo, during, id);
    }
  }

  lemma GoneStaysGone(cfg: StrategyConfig, acts: seq<Action>, todo: seq<PlanId>, during: seq<Action>, id: PlanId)
    requires Exec(cfg, acts + [Collect(todo)] + during).Some? && Exec(cfg, acts).Some?
    requires id in Exec(cfg, acts).value.plans && id !in Exec(cfg, acts).value.inflight
    ensures id !in Exec(cfg, acts + [Collect(todo)] + during).value.inflight
  {
    hide Exec, WasRemoved;
    ExactlyOnce(cfg, acts, id);
    assert acts + [Collect(todo)] + during == acts + ([Collect(todo)] + during);
    RemovedForGood(cfg, acts, [Collect(todo)] + during, id);
  }

  // ----- cancel requests -----

  /** Reports handled in flight that call for a cancel of this plan: rejections and partial fills. */
  function Alarms(handled: seq<ExecutionReport>, id: PlanId): nat {
    if handled == [] then 0
    else
      var r := handled[|handled| - 1];
      Alarms(handled[..|handled| - 1], id)
        + if r.planId == id && (r.status.Rejected? || r.status.PartiallyFilled?) then 1 else 0
  }

  /** Turns at which a scan of the run reached this plan. */
  function ScanTurns(cfg: StrategyConfig, acts: seq<Action>, id: PlanId): nat {
    if acts == [] then 0
    else
      var n := |acts| - 1;
      ScanTurns(cfg, acts[..n], id) +
        if acts[n].RequestCancel? && Exec(cfg, acts[..n]).Some? && NextToScan(Exec(cfg, acts[..n]).value.monitor, id)
        then 1 else 0
  }

  predicate NextToScan(m: Monitor, id: PlanId) { m.Scanning? && m.k < |m.todo| && m.todo[m.k] == id }

  /**
   Cancel requests, exactly: each plan has been sent one for every rejection or partial fill handled
   for it while it was in flight, and one for every time a scan reached it, and no other.
   */
  lemma {:induction false} RequestsExactly(cfg: StrategyConfig, acts: seq<Action>, id: PlanId)
    requires Exec(cfg, acts).Some?
    ensures var s := Exec(cfg, acts).value;
            multiset(s.cancelRequests)[id] == Alarms(s.handled, id) + ScanTurns(cfg, acts, id)
  {
    hide Do, Enabled;
    if acts != [] {
      var before, a := acts[..|acts| - 1], acts[|acts| - 1];
      RequestsExactly(cfg, before, id);
      RequestsStep(cfg, Exec(cfg, before).value, a, id);
    }
  }

  lemma AlarmsOneMore(handled: seq<ExecutionReport>, r: ExecutionReport, id: PlanId)
    ensures Alarms(handled + [r], id) ==
              Alarms(handled, id) + if r.planId == id && (r.status.Rejected? || r.status.PartiallyFilled?) then 1 else 0
  {
    assert (handled + [r])[..|handled|] == handled;
  }

  lemma CountOneMoreId(ids: seq<PlanId>, other: PlanId, id: PlanId)
    ensures multiset(ids + [other])[id] == multiset(ids)[id] + if other == id then 1 else 0
    ensures multiset(ids + [])[id] == multiset(ids)[id]
  {
    assert ids + [] == ids;
  }

  lemma RequestsStep(cfg: StrategyConfig, s: State, a: Action, id: PlanId)
    requires Enabled(s, a)
    ensures var s' := Do(cfg, s, a);
            multiset(s'.cancelRequests)[id] - Alarms(s'.handled, id) ==
              multiset(s.cancelRequests)[id] - Alarms(s.handled, id)
              + if a.RequestCancel? && NextToScan(s.monitor, id) then 1 else 0
  {
    hide Alarms, AfterReport, Removes, CancelsAfterReport, WellFormed, OverdueIds, Enumerates;
    match a {
      case Apply => AlarmsAnswered(cfg, s, id);
      case RequestCancel => CountOneMoreId(s.cancelRequests, s.monitor.todo[s.monitor.k], id);
      case _ => RequestsUntouched(cfg, s, a);
    }
  }

  lemma AlarmsAnswered(cfg: StrategyConfig, s: State, id: PlanId)
    requires Enabled(s, Apply)
    ensures var s' := Do(cfg, s, Apply);
            multiset(s'.cancelRequests)[id] - Alarms(s'.handled, id) ==
              multiset(s.cancelRequests)[id] - Alarms(s.handled, id)
  {
    hide Alarms, AfterReport, Removes;
    var r := s.monitor.report;
    AlarmsOneMore(s.handled, r, id);
    CountOneMoreId(s.cancelRequests, r.planId, id);
  }

  lemma RequestsUntouched(cfg: StrategyConfig, s: State, a: Action)
    requires Enabled(s, a) && !a.Apply? && !a.RequestCancel?
    ensures Do(cfg, s, a).cancelRequests == s.cancelRequests && Do(cfg, s, a).handled == s.handled
  {
    hide AfterReport, Removes, CancelsAfterReport, WellFormed, OverdueIds, Enumerates;
  }
}
