/**
 The engine object against `Protocol`: whatever an uninterrupted operation of the class does is
 what some run of consecutive protocol steps does, so the class is one schedule among those the
 protocol's theorems cover.
 */
module Refinement {
  import opened Wrappers
  import opened TriArbitrage
  import opened Planner
  import opened Engine
  import opened Protocol

  /** What the class holds of a protocol state. */
  function StateOf(s: State): EngineState {
    EngineState(s.inflight, s.submitted, s.executed, s.cancelled, s.rejected, s.cancelRequests)
  }

  /** The state after consecutive steps, if each was enabled. */
  function ExecFrom(cfg: StrategyConfig, s: State, acts: seq<Action>): Option<State> {
    if acts == [] then Some(s)
    else
      match ExecFrom(cfg, s, acts[..|acts| - 1])
      case None => None
      case Some(t) => if Enabled(t, acts[|acts| - 1]) then Some(Do(cfg, t, acts[|acts| - 1])) else None
  }

  /** Consecutive steps from a reachable state are the rest of a run. */
  lemma {:induction false} ExecContinues(cfg: StrategyConfig, before: seq<Action>, acts: seq<Action>)
    requires Exec(cfg, before).Some?
    ensures Exec(cfg, before + acts) == ExecFrom(cfg, Exec(cfg, before).value, acts)
  {
    if acts == [] {
      assert before + acts == before;
    } else {
      assert (before + acts)[..|before + acts| - 1] == before + acts[..|acts| - 1];
      ExecContinues(cfg, before, acts[..|acts| - 1]);
    }
  }

  lemma OneMoreStep(cfg: StrategyConfig, s: State, acts: seq<Action>, a: Action)
    requires ExecFrom(cfg, s, acts).Some? && Enabled(ExecFrom(cfg, s, acts).value, a)
    ensures ExecFrom(cfg, s, acts + [a]) == Some(Do(cfg, ExecFrom(cfg, s, acts).value, a))
  {
    assert (acts + [a])[..|acts|] == acts;
  }

  /** The steps lead to this engine state, both tasks being back where they were. */
  predicate Reaches(cfg: StrategyConfig, s: State, acts: seq<Action>, after: EngineState) {
    && ExecFrom(cfg, s, acts).Some?
    && (var t := ExecFrom(cfg, s, acts).value;
        StateOf(t) == after && t.detector == s.detector && t.monitor == s.monitor && t.clock == s.clock)
  }

  // ----- a report -----

  function ReportSteps(s: State, r: ExecutionReport): seq<Action> {
    if Removes(s.inflight, r) then [Receive(r), Apply, CountExecuted] else [Receive(r), Apply]
  }

  /** `HandleExecReport`. */
  lemma ReportRefines(cfg: StrategyConfig, s: State, r: ExecutionReport)
    requires s.monitor.Listening?
    ensures Reaches(cfg, s, ReportSteps(s, r), StateOf(s).Reported(r))
  {
    assert ExecFrom(cfg, s, []) == Some(s);
    hide ExecFrom, AfterReport, CancelsAfterReport, Finishes;
    OneMoreStep(cfg, s, [], Receive(r));
    var a1 := [] + [Receive(r)];
    OneMoreStep(cfg, s, a1, Apply);
    var a2 := a1 + [Apply];
    if Removes(s.inflight, r) {
      OneMoreStep(cfg, s, a2, CountExecuted);
      assert a2 + [CountExecuted] == ReportSteps(s, r);
    } else {
      AfterReportNoted(s.inflight, r);
      assert a2 == ReportSteps(s, r);
    }
  }

  lemma AfterReportNoted(inflight: InFlight, r: ExecutionReport)
    ensures r.planId !in inflight ==> AfterReport(inflight, r) == inflight && CancelsAfterReport(inflight, r) == []
  {
  }

  // ----- a caller -----

  /** `RemoveInflight`. */
  lemma CallerRefines(cfg: StrategyConfig, s: State, id: PlanId)
    ensures Reaches(cfg, s, [CallerRemove(id)], StateOf(s).Withdrawn(id))
  {
    OneMoreStep(cfg, s, [], CallerRemove(id));
    assert [] + [CallerRemove(id)] == [CallerRemove(id)];
    assert id !in s.inflight ==> s.inflight - {id} == s.inflight;
  }

  // ----- an opportunity -----

  function RefusalSteps(cfg: StrategyConfig, s: State): seq<Action> {
    [Take, CheckCapacity] + if |s.inflight| >= cfg.maxConcurrentPlans then [Reject] else [Decline, Reject]
  }

  function DetectorSteps(cfg: StrategyConfig, s: State, op: Opportunity, id: PlanId, sendOk: bool): seq<Action> {
    if |s.inflight| >= cfg.maxConcurrentPlans then RefusalSteps(cfg, s)
    else
      match PlanOf(id, op, cfg)
      case Done(Ok(plan)) =>
        if PreTradeChecks(op, cfg.limits) != Done(true) then RefusalSteps(cfg, s)
        else [Take, CheckCapacity, Plan(plan), Register, Send(sendOk), if sendOk then CountSubmitted else Rollback]
      case _ => RefusalSteps(cfg, s)
  }

  lemma CheckRefines(cfg: StrategyConfig, s: State)
    requires s.detector.Idle?
    ensures ExecFrom(cfg, s, [Take, CheckCapacity]) ==
              Some(s.(taken := s.taken + 1, detector :=
                  if |s.inflight| >= cfg.maxConcurrentPlans then Refusing else Admitted))
  {
    assert ExecFrom(cfg, s, []) == Some(s);
    hide ExecFrom;
    OneMoreStep(cfg, s, [], Take);
    OneMoreStep(cfg, s, [] + [Take], CheckCapacity);
    assert [] + [Take] + [CheckCapacity] == [Take, CheckCapacity];
  }

  /** `OnOpportunity`, whenever it does not panic. */
  lemma OpportunityRefines(cfg: StrategyConfig, s: State, op: Opportunity, id: PlanId, sendOk: bool)
    requires s.detector.Idle? && id !in s.plans && id !in s.inflight
    requires StateOf(s).Decided(cfg, op, id, s.clock, sendOk).Done?
    ensures Reaches(cfg, s, DetectorSteps(cfg, s, op, id, sendOk),
            StateOf(s).Decided(cfg, op, id, s.clock, sendOk).value)
  {
    hide ExecFrom, PlanOf, PreTradeChecks, EngineState.Decided, WellFormed, NewlyInFlight;
    DecidedCases(StateOf(s), cfg, op, id, s.clock, sendOk);
    if |s.inflight| >= cfg.maxConcurrentPlans {
      RefusalRefines(cfg, s);
    } else if PreTradeChecks(op, cfg.limits) == Done(true)
              && PlanOf(id, op, cfg).Done? && PlanOf(id, op, cfg).value.Ok? {
      PlansAreWellFormed(id, op, cfg);
      SubmissionRefines(cfg, s, PlanOf(id, op, cfg).value.value, sendOk);
    } else {
      RefusalRefines(cfg, s);
    }
  }

  lemma RefusalRefines(cfg: StrategyConfig, s: State)
    requires s.detector.Idle?
    ensures Reaches(cfg, s, RefusalSteps(cfg, s), StateOf(s).TurnedDown())
  {
    hide ExecFrom;
    CheckRefines(cfg, s);
    var a2 := [Take, CheckCapacity];
    if |s.inflight| >= cfg.maxConcurrentPlans {
      OneMoreStep(cfg, s, a2, Reject);
    } else {
      OneMoreStep(cfg, s, a2, Decline);
      OneMoreStep(cfg, s, a2 + [Decline], Reject);
      assert a2 + [Decline] + [Reject] == a2 + [Decline, Reject];
    }
  }

  lemma RegistrationRefines(cfg: StrategyConfig, s: State, plan: TradePlan)
    requires s.detector.Idle? && plan.id !in s.plans && WellFormed(plan) && |s.inflight| < cfg.maxConcurrentPlans
    ensures ExecFrom(cfg, s, [Take, CheckCapacity, Plan(plan), Register]) ==
              Some(s.(taken := s.taken + 1, detector := Registered(plan), plans := s.plans[plan.id := plan],
                      inflight := s.inflight[plan.id := NewlyInFlight(plan, s.clock, cfg.orderTimeoutMs)]))
  {
    hide ExecFrom, WellFormed, NewlyInFlight;
    CheckRefines(cfg, s);
    var a2 := [Take, CheckCapacity];
    OneMoreStep(cfg, s, a2, Plan(plan));
    OneMoreStep(cfg, s, a2 + [Plan(plan)], Register);
    assert a2 + [Plan(plan)] + [Register] == [Take, CheckCapacity, Plan(plan), Register];
  }

  lemma SubmissionRefines(cfg: StrategyConfig, s: State, plan: TradePlan, sendOk: bool)
    requires s.detector.Idle? && plan.id !in s.plans && plan.id !in s.inflight && WellFormed(plan)
    requires |s.inflight| < cfg.maxConcurrentPlans
    ensures Reaches(cfg, s, [Take, CheckCapacity, Plan(plan), Register, Send(sendOk),
            if sendOk then CountSubmitted else Rollback],
                    if sendOk then
                      StateOf(s).(inflight := s.inflight[plan.id := NewlyInFlight(plan, s.clock, cfg.orderTimeoutMs)],
                          submitted := s.submitted + 1)
                    else StateOf(s).TurnedDown())
  {
    hide ExecFrom, WellFormed, NewlyInFlight;
    RegistrationRefines(cfg, s, plan);
    var a4 := [Take, CheckCapacity, Plan(plan), Register];
    OneMoreStep(cfg, s, a4, Send(sendOk));
    var a5, last := a4 + [Send(sendOk)], if sendOk then CountSubmitted else Rollback;
    OneMoreStep(cfg, s, a5, last);
    SizeAfterInsert(s.inflight, plan.id, NewlyInFlight(plan, s.clock, cfg.orderTimeoutMs));
    assert a5 + [last] == [Take, CheckCapacity, Plan(plan), Register, Send(sendOk), last];
  }

  // ----- a scan -----

  function RemovalSteps(n: nat): seq<Action> {
    if n == 0 then [] else RemovalSteps(n - 1) + [RequestCancel, RemoveOverdue]
  }

  function ScanSteps(todo: seq<PlanId>): seq<Action> {
    [StartScan, Collect(todo)] + RemovalSteps(|todo|) + [EndScan]
  }

  function Listed(todo: seq<PlanId>, n: nat): set<PlanId>
    requires n <= |todo|
  {
    set i | 0 <= i < n :: todo[i]
  }

  /** n plans of the list removed, from the state the scan collected in. */
  predicate RemovedSoFar(s: State, t: State, todo: seq<PlanId>, n: nat)
    requires n <= |todo|
  {
    && t.monitor == Scanning(todo, n) && t.detector == s.detector && t.clock == s.clock
    && StateOf(t) == StateOf(s).(inflight := s.inflight - Listed(todo, n),
                                 cancelled := s.cancelled + n, cancelRequests := s.cancelRequests + todo[..n])
  }

  lemma RemovesOneMore(cfg: StrategyConfig, s: State, t: State, todo: seq<PlanId>, n: nat)
    requires n < |todo| && RemovedSoFar(s, t, todo, n) && todo[n] in s.inflight
    requires forall i :: 0 <= i < n ==> todo[i] != todo[n]
    ensures Enabled(t, RequestCancel) && Enabled(Do(cfg, t, RequestCancel), RemoveOverdue)
    ensures RemovedSoFar(s, Do(cfg, Do(cfg, t, RequestCancel), RemoveOverdue), todo, n + 1)
  {
    assert todo[..n + 1] == todo[..n] + [todo[n]];
    assert Listed(todo, n + 1) == Listed(todo, n) + {todo[n]};
  }

  lemma {:induction false} RemovalsRefine(cfg: StrategyConfig, s: State, todo: seq<PlanId>, n: nat)
    requires s.monitor.Listening? && Enumerates(todo, OverdueIds(s.inflight, s.clock)) && n <= |todo|
    ensures var acts := [StartScan, Collect(todo)] + RemovalSteps(n);
            ExecFrom(cfg, s, acts).Some? && RemovedSoFar(s, ExecFrom(cfg, s, acts).value, todo, n)
  {
    hide ExecFrom, Enumerates, OverdueIds, RemovedSoFar, Do, Enabled;
    if n == 0 {
      CollectRefines(cfg, s, todo);
      assert [StartScan, Collect(todo)] + RemovalSteps(0) == [StartScan, Collect(todo)];
    } else {
      RemovalsRefine(cfg, s, todo, n - 1);
      var acts := [StartScan, Collect(todo)] + RemovalSteps(n - 1);
      ListedOverdue(s, todo, n - 1);
      RemovesOneMore(cfg, s, ExecFrom(cfg, s, acts).value, todo, n - 1);
      OneMoreStep(cfg, s, acts, RequestCancel);
      OneMoreStep(cfg, s, acts + [RequestCancel], RemoveOverdue);
      assert acts + [RequestCancel] + [RemoveOverdue] == [StartScan, Collect(todo)] + RemovalSteps(n);
    }
  }

  lemma CollectRefines(cfg: StrategyConfig, s: State, todo: seq<PlanId>)
    requires s.monitor.Listening? && Enumerates(todo, OverdueIds(s.inflight, s.clock))
    ensures var acts := [StartScan, Collect(todo)];
            ExecFrom(cfg, s, acts).Some? && RemovedSoFar(s, ExecFrom(cfg, s, acts).value, todo, 0)
  {
    assert ExecFrom(cfg, s, []) == Some(s);
    hide ExecFrom, Enumerates, OverdueIds;
    OneMoreStep(cfg, s, [], StartScan);
    OneMoreStep(cfg, s, [] + [StartScan], Collect(todo));
    assert [] + [StartScan] + [Collect(todo)] == [StartScan, Collect(todo)];
    assert s.cancelRequests + todo[..0] == s.cancelRequests;
    assert Listed(todo, 0) == {} && s.inflight - {} == s.inflight;
  }

  lemma ListedOverdue(s: State, todo: seq<PlanId>, n: nat)
    requires Enumerates(todo, OverdueIds(s.inflight, s.clock)) && n < |todo|
    ensures todo[n] in s.inflight && forall i :: 0 <= i < n ==> todo[i] != todo[n]
  {
  }

  /** `ScanTimeouts`: every outcome the class allows, whatever order it lists the overdue plans in. */
  lemma ScanRefines(cfg: StrategyConfig, s: State, after: EngineState)
    requires s.monitor.Listening? && StateOf(s).ScannedTo(after, s.clock)
    ensures Reaches(cfg, s, ScanSteps(after.cancelRequests[|s.cancelRequests|..]), after)
  {
    hide ExecFrom, Enumerates, OverdueIds, RemovalSteps;
    var todo, overdue := after.cancelRequests[|s.cancelRequests|..], OverdueIds(s.inflight, s.clock);
    var acts := [StartScan, Collect(todo)] + RemovalSteps(|todo|);
    RemovalsRefine(cfg, s, todo, |todo|);
    OneMoreStep(cfg, s, acts, EndScan);
    EnumerationCovers(todo, overdue);
    EnumerationSize(todo, overdue);
    assert todo[..|todo|] == todo && s.cancelRequests + todo == after.cancelRequests;
  }
}
