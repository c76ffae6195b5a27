/**
 The engine's two tasks as one step relation. Each step is one critical section of the shared
 map's lock, one counter update made outside it, or one channel operation, so runs of `Exec`
 are all interleavings of the detector, the monitor, callers of `remove_inflight` and the
 clock, over an arbitrary stream of execution reports.
 */
module Protocol {
  import opened Wrappers
  import opened Planner
  import opened Engine

  /** Where the detector loop stands within one opportunity. */
  datatype Detector =
    | Idle
    | Deciding                          // took an opportunity, capacity not yet read
    | Refusing                          // turned down, rejection not yet counted
    | Admitted                          // capacity check passed, its lock released
    | Planned(plan: TradePlan)
    | Registered(plan: TradePlan)       // inserted, not yet sent
    | Sent(plan: TradePlan)             // sent, submission not yet counted
    | SendFailed(plan: TradePlan)       // to be rolled back
  {
    /** A plan is in the map's hands but counted neither as submitted nor as rejected. */
    function Window(): nat { if Registered? || Sent? || SendFailed? then 1 else 0 }
  }

  /** Where the monitor loop stands within one report or one scan. */
  datatype Monitor =
    | Listening
    | Handling(report: ExecutionReport) // before the update's lock; storage may be awaited here
    | Counting(report: ExecutionReport) // removed its plan, execution not yet counted
    | ScanStarting(now: int)            // clock read, map not yet
    | Scanning(todo: seq<PlanId>, k: nat)
    | Cancelling(todo: seq<PlanId>, k: nat) // cancel request for todo[k] sent, removal pending
  {
    function Window(): nat { if Counting? then 1 else 0 }
  }

  datatype Cause = ByReport(report: ExecutionReport) | ByTimeout | ByCaller | ByRollback

  datatype Removal = Removal(plan: TradePlan, cause: Cause)

  /** Shared state, both program counters, and the history the properties speak about. */
  datatype State = State(
    inflight: InFlight,
    submitted: nat, executed: nat, cancelled: nat, rejected: nat,
    cancelRequests: seq<PlanId>,
    clock: int,
    detector: Detector,
    monitor: Monitor,
    taken: nat,                         // opportunities the detector started on
    lost: seq<PlanId>,                  // plans whose rollback found them already gone
    sent: seq<TradePlan>,               // plans handed to the executor
    plans: map<PlanId, TradePlan>,      // every plan ever registered
    removals: seq<Removal>,             // every removal from the map that found its plan
    handled: seq<ExecutionReport>)      // every report handled while its plan was in flight

  const INITIAL := State(map[], 0, 0, 0, 0, [], 0, Idle, Listening, 0, [], [], map[], [], [])

  datatype Action =
    | Tick(to: int)
    | Take | CheckCapacity | Reject | Decline | Plan(plan: TradePlan)
    | Register | Send(ok: bool) | CountSubmitted | Rollback
    | Receive(report: ExecutionReport) | Apply | CountExecuted
    | StartScan | Collect(todo: seq<PlanId>) | RequestCancel | RemoveOverdue | EndScan
    | CallerRemove(planId: PlanId)

  predicate Enabled(s: State, a: Action) {
    match a
    case Tick(to) => s.clock <= to
    case Take => s.detector.Idle?
    case CheckCapacity => s.detector.Deciding?
    case Reject => s.detector.Refusing?
    case Decline => s.detector.Admitted?
    case Plan(plan) => s.detector.Admitted? && WellFormed(plan) && plan.id !in s.plans
    case Register => s.detector.Planned?
    case Send(_) => s.detector.Registered?
    case CountSubmitted => s.detector.Sent?
    case Rollback => s.detector.SendFailed?
    case Receive(_) => s.monitor.Listening?
    case Apply => s.monitor.Handling?
    case CountExecuted => s.monitor.Counting?
    case StartScan => s.monitor.Listening?
    case Collect(todo) => s.monitor.ScanStarting? && Enumerates(todo, OverdueIds(s.inflight, s.monitor.now))
    case RequestCancel => s.monitor.Scanning? && s.monitor.k < |s.monitor.todo|
    case RemoveOverdue => s.monitor.Cancelling? && s.monitor.k < |s.monitor.todo|
    case EndScan => s.monitor.Scanning? && s.monitor.k == |s.monitor.todo|
    case CallerRemove(_) => true
  }

  /** Takes a plan out of the map and records why, if it is there. */
  function Drop(s: State, id: PlanId, cause: Cause): State {
    if id in s.inflight then
      s.(inflight := s.inflight - {id}, removals := s.removals + [Removal(s.inflight[id].plan, cause)])
    else s
  }

  function DoDetector(cfg: StrategyConfig, s: State, a: Action): State
    requires Enabled(s, a)
  {
    match a
    case Take => s.(taken := s.taken + 1, detector := Deciding)
    case CheckCapacity =>
      s.(detector := if |s.inflight| >= cfg.maxConcurrentPlans then Refusing else Admitted)
    case Reject => s.(rejected := s.rejected + 1, detector := Idle)
    case Decline => s.(detector := Refusing)
    case Plan(plan) => s.(detector := Planned(plan))
    case Register =>
      var plan := s.detector.plan;
      s.(inflight := s.inflight[plan.id := NewlyInFlight(plan, s.clock, cfg.orderTimeoutMs)],
         plans := s.plans[plan.id := plan], detector := Registered(plan))
    case Send(ok) =>
      var plan := s.detector.plan;
      if ok then s.(sent := s.sent + [plan], detector := Sent(plan)) else s.(detector := SendFailed(plan))
    case CountSubmitted => s.(submitted := s.submitted + 1, detector := Idle)
    case Rollback =>
      var found := s.detector.plan.id in s.inflight;
      Drop(s, s.detector.plan.id, ByRollback).(
        rejected := s.rejected + 1, detector := Idle, lost := s.lost + if found then [] else [s.detector.plan.id])
    case _ => s
  }

  function DoMonitor(s: State, a: Action): State
    requires Enabled(s, a)
  {
    match a
    case Receive(report) => s.(monitor := Handling(report))
    case Apply =>
      var r := s.monitor.report;
      if r.planId !in s.inflight then s.(monitor := Listening)
      else
        s.(inflight := AfterReport(s.inflight, r),
           cancelRequests := s.cancelRequests + CancelsAfterReport(s.inflight, r),
           handled := s.handled + [r],
           removals :=
             if Removes(s.inflight, r) then s.removals + [Removal(s.inflight[r.planId].plan, ByReport(r))]
             else s.removals,
           monitor := if Removes(s.inflight, r) then Counting(r) else Listening)
    case CountExecuted => s.(executed := s.executed + 1, monitor := Listening)
    case StartScan => s.(monitor := ScanStarting(s.clock))
    case Collect(todo) => s.(monitor := Scanning(todo, 0))
    case RequestCancel =>
      s.(cancelRequests := s.cancelRequests + [s.monitor.todo[s.monitor.k]],
          monitor := Cancelling(s.monitor.todo, s.monitor.k))
    case RemoveOverdue =>
      var id := s.monitor.todo[s.monitor.k];
      Drop(s, id, ByTimeout).(
        cancelled := s.cancelled + (if id in s.inflight then 1 else 0),
            monitor := Scanning(s.monitor.todo, s.monitor.k + 1))
    case EndScan => s.(monitor := Listening)
    case _ => s
  }

  function Do(cfg: StrategyConfig, s: State, a: Action): State
    requires Enabled(s, a)
  {
    match a
    case Tick(to) => s.(clock := to)
    case CallerRemove(id) => Drop(s, id, ByCaller).(executed := s.executed + if id in s.inflight then 1 else 0)
    case Receive(_) => DoMonitor(s, a)
    case Apply => DoMonitor(s, a)
    case CountExecuted => DoMonitor(s, a)
    case StartScan => DoMonitor(s, a)
    case Collect(_) => DoMonitor(s, a)
    case RequestCancel => DoMonitor(s, a)
    case RemoveOverdue => DoMonitor(s, a)
    case EndScan => DoMonitor(s, a)
    case _ => DoDetector(cfg, s, a)
  }

  /** The state after a run, if every action of it was enabled when its turn came. */
  function Exec(cfg: StrategyConfig, acts: seq<Action>): Option<State> {
    if acts == [] then Some(INITIAL)
    else
      match Exec(cfg, acts[..|acts| - 1])
      case None => None
      case Some(s) => if Enabled(s, acts[|acts| - 1]) then Some(Do(cfg, s, acts[|acts| - 1])) else None
  }

  // ----- capacity and accounting -----

  predicate WithinCapacity(cfg: StrategyConfig, s: State) {
    && |s.inflight| <= cfg.maxConcurrentPlans
    && (s.detector.Admitted? || s.detector.Planned? ==> |s.inflight| < cfg.maxConcurrentPlans)
  }

  predicate Conserved(s: State) {
    && s.taken == s.rejected + s.submitted + (if s.detector.Idle? then 0 else 1)
    && s.submitted + s.detector.Window() + |s.lost| ==
         |s.inflight| + s.executed + s.cancelled + s.monitor.Window()
  }

  /** The detector never plans with an id it has used. */
  predicate Fresh(s: State) {
    && s.inflight.Keys <= s.plans.Keys
    && (s.detector.Planned? ==> s.detector.plan.id !in s.plans)
  }

  lemma DropSize(inflight: InFlight, id: PlanId)
    ensures |inflight - {id}| == |inflight| - if id in inflight then 1 else 0
  {
    assert (inflight - {id}).Keys == inflight.Keys - {id};
    assert |inflight - {id}| == |(inflight - {id}).Keys|;
  }

  lemma AfterReportSize(inflight: InFlight, r: ExecutionReport)
    ensures |AfterReport(inflight, r)| == |inflight| - if Removes(inflight, r) then 1 else 0
    ensures AfterReport(inflight, r).Keys == if Removes(inflight, r) then inflight.Keys - {r.planId} else inflight.Keys
    ensures Removes(inflight, r) ==> r.planId in inflight && AfterReport(inflight, r) == inflight - {r.planId}
    ensures forall id :: id in AfterReport(inflight, r) ==> AfterReport(inflight, r)[id].plan == inflight[id].plan
  {
    DropSize(inflight, r.planId);
    if r.planId in inflight && !Removes(inflight, r) {
      assert AfterReport(inflight, r).Keys == inflight.Keys;
      assert |AfterReport(inflight, r)| == |AfterReport(inflight, r).Keys|;
    }
  }

  ghost predicate CountersOk(cfg: StrategyConfig, s: State) {
    WithinCapacity(cfg, s) && Conserved(s) && Fresh(s)
  }

  lemma CountersAfterRegister(cfg: StrategyConfig, s: State)
    requires Enabled(s, Register) && CountersOk(cfg, s)
    ensures CountersOk(cfg, DoDetector(cfg, s, Register))
  {
    SizeAfterInsert(s.inflight, s.detector.plan.id, NewlyInFlight(s.detector.plan, s.clock, cfg.orderTimeoutMs));
  }

  lemma CountersAfterRollback(cfg: StrategyConfig, s: State)
    requires Enabled(s, Rollback) && CountersOk(cfg, s)
    ensures CountersOk(cfg, DoDetector(cfg, s, Rollback))
  {
    DropSize(s.inflight, s.detector.plan.id);
  }

  lemma CountersAfterApply(cfg: StrategyConfig, s: State)
    requires Enabled(s, Apply) && CountersOk(cfg, s)
    ensures CountersOk(cfg, DoMonitor(s, Apply))
  {
    hide AfterReport, Removes, CancelsAfterReport;
    AfterReportSize(s.inflight, s.monitor.report);
  }

  lemma CountersAfterRemoveOverdue(cfg: StrategyConfig, s: State)
    requires Enabled(s, RemoveOverdue) && CountersOk(cfg, s)
    ensures CountersOk(cfg, DoMonitor(s, RemoveOverdue))
  {
    DropSize(s.inflight, s.monitor.todo[s.monitor.k]);
  }

  lemma CountersAfterCaller(cfg: StrategyConfig, s: State, id: PlanId)
    requires CountersOk(cfg, s)
    ensures CountersOk(cfg, Do(cfg, s, CallerRemove(id)))
  {
    DropSize(s.inflight, id);
  }

  /** The steps that leave the map alone. */
  predicate Quiet(a: Action) {
    !a.Register? && !a.Rollback? && !a.Apply? && !a.RemoveOverdue? && !a.CallerRemove?
  }

  lemma QuietFrame(cfg: StrategyConfig, s: State, a: Action)
    requires Enabled(s, a) && Quiet(a)
    ensures var s' := Do(cfg, s, a);
            && s'.inflight == s.inflight && s'.plans == s.plans && s'.removals == s.removals && s'.handled == s.handled
            && s'.lost == s.lost && s.sent <= s'.sent && s'.cancelled == s.cancelled
            && s'.executed + s'.monitor.Window() == s.executed + s.monitor.Window()
            && s.cancelRequests <= s'.cancelRequests
            && (s'.detector.Planned? ==> s'.detector == s.detector || (a.Plan? && s'.detector.plan == a.plan))
  {
  }

  lemma CountersAfterQuiet(cfg: StrategyConfig, s: State, a: Action)
    requires Enabled(s, a) && Quiet(a) && CountersOk(cfg, s)
    ensures CountersOk(cfg, Do(cfg, s, a))
  {
    QuietFrame(cfg, s, a);
  }

  lemma CountersStep(cfg: StrategyConfig, s: State, a: Action)
    requires Enabled(s, a) && CountersOk(cfg, s)
    ensures CountersOk(cfg, Do(cfg, s, a))
  {
    hide CountersOk;
    match a {
      case Register => CountersAfterRegister(cfg, s);
      case Rollback => CountersAfterRollback(cfg, s);
      case Apply => CountersAfterApply(cfg, s);
      case RemoveOverdue => CountersAfterRemoveOverdue(cfg, s);
      case CallerRemove(id) => CountersAfterCaller(cfg, s, id);
      case _ => CountersAfterQuiet(cfg, s, a);
    }
  }

  lemma {:induction false} CountersInvariant(cfg: StrategyConfig, acts: seq<Action>)
    requires Exec(cfg, acts).Some?
    ensures CountersOk(cfg, Exec(cfg, acts).value)
  {
    if acts != [] {
      CountersInvariant(cfg, acts[..|acts| - 1]);
      CountersStep(cfg, Exec(cfg, acts[..|acts| - 1]).value, acts[|acts| - 1]);
    }
  }

  /** The in-flight bound holds in every reachable state, though check and insert are separate sections. */
  lemma ConcurrencyBound(cfg: StrategyConfig, acts: seq<Action>)
    requires Exec(cfg, acts).Some?
    ensures |Exec(cfg, acts).value.inflight| <= cfg.maxConcurrentPlans
  {
    CountersInvariant(cfg, acts);
  }

  predicate NoFailedSend(acts: seq<Action>) {
    forall i :: 0 <= i < |acts| ==> acts[i] != Send(false)
  }

  lemma {:induction false} NoLostRollbacks(cfg: StrategyConfig, acts: seq<Action>)
    requires Exec(cfg, acts).Some? && NoFailedSend(acts)
    ensures Exec(cfg, acts).value.lost == [] && !Exec(cfg, acts).value.detector.SendFailed?
  {
    if acts != [] {
      NoLostRollbacks(cfg, acts[..|acts| - 1]);
      assert acts[|acts| - 1] != Send(false);
    }
  }

  /**
   Conservation over every interleaving. A failing send needs one extra term, for rollbacks whose
   plan something else had already removed; with no failing send that term is zero.
   */
  lemma Conservation(cfg: StrategyConfig, acts: seq<Action>)
    requires Exec(cfg, acts).Some?
    ensures var s := Exec(cfg, acts).value;
            && s.taken == s.rejected + s.submitted + (if s.detector.Idle? then 0 else 1)
            && s.submitted + s.detector.Window() + |s.lost| ==
                 |s.inflight| + s.executed + s.cancelled + s.monitor.Window()
            && (NoFailedSend(acts) ==> s.lost == [])
  {
    CountersInvariant(cfg, acts);
    if NoFailedSend(acts) {
      NoLostRollbacks(cfg, acts);
    }
  }

  lemma ExecOneMore(cfg: StrategyConfig, acts: seq<Action>, a: Action)
    requires Exec(cfg, acts).Some? && Enabled(Exec(cfg, acts).value, a)
    ensures Exec(cfg, acts + [a]) == Some(Do(cfg, Exec(cfg, acts).value, a))
  {
    assert (acts + [a])[..|acts|] == acts;
  }

  /**
   The extra term is needed: any plan whose send fails may time out before its rollback runs. It
   is then counted both as rejected and as cancelled, and submitted plans alone no longer account
   for the counters.
   */
  lemma FailedSendCanTimeOut(cfg: StrategyConfig, plan: TradePlan)
    requires cfg.maxConcurrentPlans > 0 && WellFormed(plan)
    ensures var acts := FailedSend(plan) + TimedOutScan(plan.id, cfg.orderTimeoutMs) + [Rollback];
            && Exec(cfg, acts).Some?
            && (var s := Exec(cfg, acts).value;
                && s.submitted == s.executed == 0 && s.cancelled == s.rejected == 1
                && s.inflight == map[] && s.lost == [plan.id])
  {
    hide Exec;
    AfterFailedSend(cfg, plan);
    AfterTimedOutScan(cfg, plan);
    ExecOneMore(cfg, FailedSend(plan) + TimedOutScan(plan.id, cfg.orderTimeoutMs), Rollback);
  }

  function FailedSend(plan: TradePlan): seq<Action> { [Take, CheckCapacity, Plan(plan), Register, Send(false)] }

  function TimedOutScan(id: PlanId, timeoutMs: nat): seq<Action> {
    [Tick(timeoutMs + 1), StartScan, Collect([id]), RequestCancel, RemoveOverdue]
  }

  lemma AfterFailedSend(cfg: StrategyConfig, plan: TradePlan)
    requires cfg.maxConcurrentPlans > 0 && WellFormed(plan)
    ensures Exec(cfg, FailedSend(plan)) ==
              Some(INITIAL.(inflight := map[plan.id := NewlyInFlight(plan, 0, cfg.orderTimeoutMs)],
                            detector := SendFailed(plan), taken := 1, plans := map[plan.id := plan]))
  {
    assert Exec(cfg, []) == Some(INITIAL);
    hide Exec, WellFormed;
    ExecOneMore(cfg, [], Take);
    var a1 := [] + [Take];
    ExecOneMore(cfg, a1, CheckCapacity);
    var a2 := a1 + [CheckCapacity];
    ExecOneMore(cfg, a2, Plan(plan));
    var a3 := a2 + [Plan(plan)];
    ExecOneMore(cfg, a3, Register);
    var a4 := a3 + [Register];
    ExecOneMore(cfg, a4, Send(false));
    assert a4 + [Send(false)] == FailedSend(plan);
  }

  lemma AfterCollection(cfg: StrategyConfig, plan: TradePlan)
    requires cfg.maxConcurrentPlans > 0 && WellFormed(plan)
    ensures Exec(cfg, FailedSend(plan) + TimedOutScan(plan.id, cfg.orderTimeoutMs)[..3]) ==
              Some(INITIAL.(inflight := map[plan.id := NewlyInFlight(plan, 0, cfg.orderTimeoutMs)],
                            detector := SendFailed(plan), taken := 1, plans := map[plan.id := plan],
                            clock := cfg.orderTimeoutMs + 1, monitor := Scanning([plan.id], 0)))
  {
    hide Exec, WellFormed, FailedSend;
    AfterFailedSend(cfg, plan);
    var a0, late := FailedSend(plan), cfg.orderTimeoutMs + 1;
    ExecOneMore(cfg, a0, Tick(late));
    var a1 := a0 + [Tick(late)];
    ExecOneMore(cfg, a1, StartScan);
    var a2 := a1 + [StartScan];
    assert OverdueIds(Exec(cfg, a2).value.inflight, late) == {plan.id};
    ExecOneMore(cfg, a2, Collect([plan.id]));
    assert a2 + [Collect([plan.id])] == a0 + TimedOutScan(plan.id, cfg.orderTimeoutMs)[..3];
  }

  lemma AfterTimedOutScan(cfg: StrategyConfig, plan: TradePlan)
    requires cfg.maxConcurrentPlans > 0 && WellFormed(plan)
    ensures Exec(cfg, FailedSend(plan) + TimedOutScan(plan.id, cfg.orderTimeoutMs)) ==
              Some(INITIAL.(detector := SendFailed(plan), taken := 1, plans := map[plan.id := plan],
                            clock := cfg.orderTimeoutMs + 1, cancelRequests := [plan.id], cancelled := 1,
                            removals := [Removal(plan, ByTimeout)], monitor := Scanning([plan.id], 1)))
  {
    hide Exec, WellFormed, FailedSend, NewlyInFlight;
    AfterCollection(cfg, plan);
    var a0, scan := FailedSend(plan), TimedOutScan(plan.id, cfg.orderTimeoutMs);
    var a3 := a0 + scan[..3];
    ExecOneMore(cfg, a3, RequestCancel);
    var a4 := a3 + [RequestCancel];
    ExecOneMore(cfg, a4, RemoveOverdue);
    assert a4 + [RemoveOverdue] == a0 + scan;
    var p := NewlyInFlight(plan, 0, cfg.orderTimeoutMs);
    assert p.plan == plan by { PlanOfNew(plan, 0, cfg.orderTimeoutMs); }
    assert map[plan.id := p] - {plan.id} == map[] && [] + [plan.id] == [plan.id];
    assert [] + [Removal(plan, ByTimeout)] == [Removal(plan, ByTimeout)];
  }

  lemma PlanOfNew(plan: TradePlan, now: int, timeoutMs: nat)
    ensures NewlyInFlight(plan, now, timeoutMs).plan == plan
  {
  }

  // ----- finalisation -----

  ghost predicate Final(s: State) {
    && (forall id :: id in s.inflight ==> id in s.plans && s.inflight[id].plan == s.plans[id])
    && (forall id :: id in s.plans ==> s.plans[id].id == id)
    && (forall i :: 0 <= i < |s.removals| ==> RemovedProperly(s, s.removals[i]))
    && (forall i, j :: 0 <= i < j < |s.removals| ==> s.removals[i].plan.id != s.removals[j].plan.id)
    && (forall id :: id in s.plans && id !in s.inflight ==> WasRemoved(s.removals, id))
    && (s.detector.Planned? ==> s.detector.plan.id !in s.plans)
  }

  predicate RemovedProperly(s: State, r: Removal) {
    r.plan.id in s.plans && s.plans[r.plan.id] == r.plan && r.plan.id !in s.inflight
  }

  predicate WasRemoved(removals: seq<Removal>, id: PlanId) {
    exists i :: 0 <= i < |removals| && removals[i].plan.id == id
  }

  lemma RemovedOneMore(removals: seq<Removal>, r: Removal, id: PlanId)
    ensures WasRemoved(removals + [r], id) <==> WasRemoved(removals, id) || r.plan.id == id
  {
    var more := removals + [r];
    if WasRemoved(removals, id) {
      var i :| 0 <= i < |removals| && removals[i].plan.id == id;
      assert more[i].plan.id == id;
    }
    assert more[|removals|] == r;
  }

  /** Taking one plan out, for any cause, keeps the books: the map may shrink by one id only. */
  lemma FinalAfterRemoval(s: State, s': State, id: PlanId, cause: Cause)
    requires Final(s) && id in s.inflight
    requires s'.inflight == s.inflight - {id} && s'.plans == s.plans
    requires s'.removals == s.removals + [Removal(s.inflight[id].plan, cause)]
    requires s'.detector.Planned? ==> s'.detector == s.detector
    ensures Final(s')
  {
    var n, removal := |s.removals|, Removal(s.inflight[id].plan, cause);
    forall i | 0 <= i < |s'.removals| ensures RemovedProperly(s', s'.removals[i]) {
      if i < n { assert s'.removals[i] == s.removals[i] && RemovedProperly(s, s.removals[i]); }
    }
    forall i, j | 0 <= i < j < |s'.removals| ensures s'.removals[i].plan.id != s'.removals[j].plan.id {
      assert s'.removals[i] == s.removals[i] && RemovedProperly(s, s.removals[i]);
    }
    forall other | other in s'.plans && other !in s'.inflight ensures WasRemoved(s'.removals, other) {
      RemovedOneMore(s.removals, removal, other);
    }
  }

  lemma FinalAfterUpdate(s: State, s': State)
    requires Final(s)
    requires s'.inflight.Keys == s.inflight.Keys
    requires forall id :: id in s.inflight ==> s'.inflight[id].plan == s.inflight[id].plan
    requires s'.plans == s.plans && s'.removals == s.removals
    requires s'.detector.Planned? ==> s'.detector.plan.id !in s.plans
    ensures Final(s')
  {
    forall i | 0 <= i < |s'.removals| ensures RemovedProperly(s', s'.removals[i]) {
      assert RemovedProperly(s, s.removals[i]);
    }
  }

  lemma FinalAfterRegister(cfg: StrategyConfig, s: State)
    requires Final(s) && Enabled(s, Register)
    ensures Final(Do(cfg, s, Register))
  {
    var s' := Do(cfg, s, Register);
    forall i | 0 <= i < |s'.removals| ensures RemovedProperly(s', s'.removals[i]) {
      assert RemovedProperly(s, s.removals[i]);
    }
  }

  lemma FinalAfterApply(cfg: StrategyConfig, s: State)
    requires Enabled(s, Apply) && Final(s)
    ensures Final(Do(cfg, s, Apply))
  {
    hide AfterReport, Removes, CancelsAfterReport;
    var r, s' := s.monitor.report, Do(cfg, s, Apply);
    AfterReportSize(s.inflight, r);
    if Removes(s.inflight, r) {
      FinalAfterRemoval(s, s', r.planId, ByReport(r));
    } else {
      FinalAfterUpdate(s, s');
    }
  }

  lemma FinalAfterQuiet(cfg: StrategyConfig, s: State, a: Action)
    requires Enabled(s, a) && Quiet(a) && Final(s)
    ensures Final(Do(cfg, s, a))
  {
    QuietFrame(cfg, s, a);
    FinalAfterUpdate(s, Do(cfg, s, a));
  }

  lemma FinalStep(cfg: StrategyConfig, s: State, a: Action)
    requires Enabled(s, a) && Final(s)
    ensures Final(Do(cfg, s, a))
  {
    hide Final;
    var s' := Do(cfg, s, a);
    match a {
      case Register => FinalAfterRegister(cfg, s);
      case Rollback => FinalAfterDrop(s, s', s.detector.plan.id, ByRollback);
      case RemoveOverdue => FinalAfterDrop(s, s', s.monitor.todo[s.monitor.k], ByTimeout);
      case CallerRemove(id) => FinalAfterDrop(s, s', id, ByCaller);
      case Apply => FinalAfterApply(cfg, s);
      case _ => FinalAfterQuiet(cfg, s, a);
    }
  }

  lemma FinalAfterDrop(s: State, s': State, id: PlanId, cause: Cause)
    requires Final(s)
    requires s'.inflight == Drop(s, id, cause).inflight && s'.removals == Drop(s, id, cause).removals
    requires s'.plans == s.plans
    requires s'.detector.Planned? ==> s'.detector == s.detector
    ensures Final(s')
  {
    if id in s.inflight {
      FinalAfterRemoval(s, s', id, cause);
    } else {
      FinalAfterUpdate(s, s');
    }
  }

  lemma {:induction false} FinalInvariant(cfg: StrategyConfig, acts: seq<Action>)
    requires Exec(cfg, acts).Some?
    ensures Final(Exec(cfg, acts).value)
  {
    if acts != [] {
      FinalInvariant(cfg, acts[..|acts| - 1]);
      FinalStep(cfg, Exec(cfg, acts[..|acts| - 1]).value, acts[|acts| - 1]);
    }
  }

  /**
   Exactly-once finalisation: every registered plan is either still in flight or in the removal
   record, never both and never twice.
   */
  lemma ExactlyOnce(cfg: StrategyConfig, acts: seq<Action>, id: PlanId)
    requires Exec(cfg, acts).Some?
    ensures var s := Exec(cfg, acts).value;
            && (id in s.plans <==> id in s.inflight || WasRemoved(s.removals, id))
            && !(id in s.inflight && WasRemoved(s.removals, id))
            && forall i, j :: 0 <= i < j < |s.removals| ==>
                 !(s.removals[i].plan.id == id && s.removals[j].plan.id == id)
  {
    FinalInvariant(cfg, acts);
    var s := Exec(cfg, acts).value;
    if WasRemoved(s.removals, id) {
      var i :| 0 <= i < |s.removals| && s.removals[i].plan.id == id;
      assert RemovedProperly(s, s.removals[i]);
    }
  }

  // ----- which counter counts a removal -----

  function CountCause(removals: seq<Removal>, timeouts: bool): nat {
    if removals == [] then 0
    else
      var last := removals[|removals| - 1].cause;
      CountCause(removals[..|removals| - 1], timeouts)
        + if (if timeouts then last.ByTimeout? else last.ByReport? || last.ByCaller?) then 1 else 0
  }

  /** Each removal is counted once: timeouts as cancelled, reports and callers as executed, rollbacks as neither. */
  predicate Counted(s: State) {
    && s.cancelled == CountCause(s.removals, true)
    && s.executed + s.monitor.Window() == CountCause(s.removals, false)
  }

  lemma CountOneMore(removals: seq<Removal>, r: Removal)
    ensures CountCause(removals + [r], true) == CountCause(removals, true) + if r.cause.ByTimeout? then 1 else 0
    ensures CountCause(removals + [r], false) ==
              CountCause(removals, false) + if r.cause.ByReport? || r.cause.ByCaller? then 1 else 0
  {
    assert (removals + [r])[..|removals|] == removals;
  }

  lemma CountedAfterDrop(s: State, id: PlanId, cause: Cause)
    ensures var found, after := id in s.inflight, Drop(s, id, cause).removals;
            && CountCause(after, true) == CountCause(s.removals, true) + (if found && cause.ByTimeout? then 1 else 0)
            && CountCause(after, false) ==
                 CountCause(s.removals, false) + (if found && (cause.ByReport? || cause.ByCaller?) then 1 else 0)
  {
    if id in s.inflight {
      CountOneMore(s.removals, Removal(s.inflight[id].plan, cause));
    }
  }

  lemma CountedAfterApply(cfg: StrategyConfig, s: State)
    requires Enabled(s, Apply) && Counted(s)
    ensures Counted(Do(cfg, s, Apply))
  {
    hide CountCause, AfterReport, CancelsAfterReport, Removes;
    var r := s.monitor.report;
    if r.planId in s.inflight {
      CountOneMore(s.removals, Removal(s.inflight[r.planId].plan, ByReport(r)));
    }
  }

  lemma CountedStep(cfg: StrategyConfig, s: State, a: Action)
    requires Enabled(s, a) && Counted(s)
    ensures Counted(Do(cfg, s, a))
  {
    hide CountCause;
    match a {
      case Rollback => CountedAfterDrop(s, s.detector.plan.id, ByRollback);
      case RemoveOverdue => CountedAfterDrop(s, s.monitor.todo[s.monitor.k], ByTimeout);
      case CallerRemove(id) => CountedAfterDrop(s, id, ByCaller);
      case Apply => CountedAfterApply(cfg, s);
      case Register =>
      case _ => QuietFrame(cfg, s, a);
    }
  }

  lemma {:induction false} RemovalsCountedOnce(cfg: StrategyConfig, acts: seq<Action>)
    requires Exec(cfg, acts).Some?
    ensures Counted(Exec(cfg, acts).value)
  {
    if acts != [] {
      RemovalsCountedOnce(cfg, acts[..|acts| - 1]);
      CountedStep(cfg, Exec(cfg, acts[..|acts| - 1]).value, acts[|acts| - 1]);
    }
  }

  /** The plan an action would take out of the map or update, if it is there. */
  function Touches(s: State, a: Action): Option<PlanId>
    requires Enabled(s, a)
  {
    match a
    case Apply => Some(s.monitor.report.planId)
    case RemoveOverdue => Some(s.monitor.todo[s.monitor.k])
    case CallerRemove(id) => Some(id)
    case _ => None
  }

  /** Reports, scans and callers that come after a plan is gone change neither the map nor a counter. */
  lemma LateTouchesDoNothing(cfg: StrategyConfig, s: State, a: Action)
    requires Enabled(s, a) && Touches(s, a).Some? && Touches(s, a).value !in s.inflight
    ensures var s' := Do(cfg, s, a);
            && s'.inflight == s.inflight && s'.removals == s.removals && s'.handled == s.handled
            && s'.submitted == s.submitted && s'.executed == s.executed
            && s'.cancelled == s.cancelled && s'.rejected == s.rejected
            && s'.monitor.Window() == s.monitor.Window()
  {
  }

  /** Removal is for good: over any continuation of a run, a removed plan never reappears. */
  lemma {:induction false} RemovedForGood(cfg: StrategyConfig, acts: seq<Action>, more: seq<Action>, id: PlanId)
    requires Exec(cfg, acts + more).Some?
    ensures Exec(cfg, acts).Some?
    ensures WasRemoved(Exec(cfg, acts).value.removals, id) ==>
              id !in Exec(cfg, acts + more).value.inflight && WasRemoved(Exec(cfg, acts + more).value.removals, id)
  {
    if more == [] {
      assert acts + more == acts;
    } else {
      var n := |more| - 1;
      assert (acts + more)[..|acts + more| - 1] == acts + more[..n];
      RemovedForGood(cfg, acts, more[..n], id);
      if WasRemoved(Exec(cfg, acts).value.removals, id) {
        RemovalsGrow(cfg, Exec(cfg, acts + more[..n]).value, more[n], id);
      }
    }
    ExactlyOnce(cfg, acts + more, id);
  }

  /**
   Over every run: whatever touches a plan after its removal, be it a report, a scan or a caller,
   changes neither the map nor a counter nor the record.
   */
  lemma RemovedIsUntouchable(cfg: StrategyConfig, acts: seq<Action>, a: Action)
    requires Exec(cfg, acts).Some? && Enabled(Exec(cfg, acts).value, a)
    requires var touched := Touches(Exec(cfg, acts).value, a);
             touched.Some? && WasRemoved(Exec(cfg, acts).value.removals, touched.value)
    ensures Exec(cfg, acts + [a]).Some?
    ensures var s, s' := Exec(cfg, acts).value, Exec(cfg, acts + [a]).value;
            && s'.inflight == s.inflight && s'.removals == s.removals && s'.handled == s.handled
            && s'.submitted == s.submitted && s'.executed == s.executed
            && s'.cancelled == s.cancelled && s'.rejected == s.rejected
  {
    hide Exec, Do, Enabled, WasRemoved;
    var s := Exec(cfg, acts).value;
    ExactlyOnce(cfg, acts, Touches(s, a).value);
    ExecOneMore(cfg, acts, a);
    LateTouchesDoNothing(cfg, s, a);
  }

  lemma RemovalsGrow(cfg: StrategyConfig, s: State, a: Action, id: PlanId)
    requires Enabled(s, a) && WasRemoved(s.removals, id)
    ensures WasRemoved(Do(cfg, s, a).removals, id)
  {
    var s' := Do(cfg, s, a);
    var i :| 0 <= i < |s.removals| && s.removals[i].plan.id == id;
    assert s'.removals[i].plan.id == id;
  }

  // ----- scans -----

  /** Everything the running scan has passed is gone, and everything it lists was registered. */
  predicate ScanDone(s: State) {
    match s.monitor
    case Scanning(todo, k) => ScannedTo(s, todo, k)
    case Cancelling(todo, k) => ScannedTo(s, todo, k) && k < |todo| && todo[k] in s.cancelRequests
    case _ => true
  }

  predicate ScannedTo(s: State, todo: seq<PlanId>, k: nat) {
    && k <= |todo|
    && (forall j :: 0 <= j < |todo| ==> todo[j] in s.plans)
    && (forall j :: 0 <= j < k ==> todo[j] !in s.inflight)
  }

  /** Ids already registered cannot come back into the map. */
  lemma NoReturn(cfg: StrategyConfig, s: State, a: Action)
    requires Enabled(s, a) && (s.detector.Planned? ==> s.detector.plan.id !in s.plans)
    ensures s.plans.Keys <= Do(cfg, s, a).plans.Keys
    ensures forall id :: id in s.plans && id in Do(cfg, s, a).inflight ==> id in s.inflight
  {
    hide AfterReport, Removes, CancelsAfterReport, OverdueIds, Enumerates, WellFormed;
    match a {
      case Apply => AfterReportSize(s.inflight, s.monitor.report);
      case Register =>
      case Rollback =>
      case RemoveOverdue =>
      case CallerRemove(_) =>
      case _ => QuietFrame(cfg, s, a);
    }
  }

  lemma ScannedStays(s: State, s': State, todo: seq<PlanId>, k: nat)
    requires ScannedTo(s, todo, k)
    requires s.plans.Keys <= s'.plans.Keys
    requires forall id :: id in s.plans && id in s'.inflight ==> id in s.inflight
    ensures ScannedTo(s', todo, k)
  {
    forall j | 0 <= j < |todo| ensures todo[j] in s'.plans {
      assert todo[j] in s.plans.Keys;
    }
  }

  lemma ScanStep(cfg: StrategyConfig, s: State, a: Action)
    requires Enabled(s, a) && ScanDone(s) && Final(s)
    ensures ScanDone(Do(cfg, s, a))
  {
    NoReturn(cfg, s, a);
    var s' := Do(cfg, s, a);
    if s.monitor.Scanning? || s.monitor.Cancelling? {
      ScannedStays(s, s', s.monitor.todo, s.monitor.k);
      ScanMoves(cfg, s, a);
    } else if a.Collect? {
      assert ScannedTo(s', a.todo, 0);
    }
  }

  /** One step of the scan's own, from what its list already satisfies. */
  lemma ScanMoves(cfg: StrategyConfig, s: State, a: Action)
    requires Enabled(s, a) && (s.monitor.Scanning? || s.monitor.Cancelling?) && ScanDone(s)
    requires ScannedTo(Do(cfg, s, a), s.monitor.todo, s.monitor.k)
    ensures ScanDone(Do(cfg, s, a))
  {
    hide AfterReport, Removes, CancelsAfterReport, OverdueIds;
  }

  lemma {:induction false} ScanInvariant(cfg: StrategyConfig, acts: seq<Action>)
    requires Exec(cfg, acts).Some?
    ensures ScanDone(Exec(cfg, acts).value)
  {
    if acts != [] {
      FinalInvariant(cfg, acts[..|acts| - 1]);
      ScanInvariant(cfg, acts[..|acts| - 1]);
      ScanStep(cfg, Exec(cfg, acts[..|acts| - 1]).value, acts[|acts| - 1]);
    }
  }

  predicate ScansFor(m: Monitor, todo: seq<PlanId>) {
    (m.Scanning? || m.Cancelling?) && m.todo == todo
  }

  lemma ExecLast(cfg: StrategyConfig, acts: seq<Action>, a: Action)
    requires Exec(cfg, acts + [a]).Some?
    ensures Exec(cfg, acts).Some? && Enabled(Exec(cfg, acts).value, a)
    ensures Exec(cfg, acts + [a]).value == Do(cfg, Exec(cfg, acts).value, a)
  {
    assert (acts + [a])[..|acts|] == acts;
  }

  lemma ScanKeepsItsList(cfg: StrategyConfig, s: State, a: Action, todo: seq<PlanId>)
    requires Enabled(s, a) && a != EndScan && ScansFor(s.monitor, todo)
    ensures ScansFor(Do(cfg, s, a).monitor, todo)
  {
  }

  /** Once collected, the list is worked through undisturbed until the scan ends. */
  lemma {:induction false} ScanGoesOn(cfg: StrategyConfig, before: seq<Action>, todo: seq<PlanId>, during: seq<Action>)
    requires Exec(cfg, before + [Collect(todo)] + during).Some?
    requires forall i :: 0 <= i < |during| ==> during[i] != EndScan
    ensures Exec(cfg, before).Some? && Enabled(Exec(cfg, before).value, Collect(todo))
    ensures ScansFor(Exec(cfg, before + [Collect(todo)] + during).value.monitor, todo)
  {
    hide Exec, Do, Enabled;
    if during == [] {
      assert before + [Collect(todo)] + during == before + [Collect(todo)];
      ExecLast(cfg, before, Collect(todo));
      CollectStarts(cfg, Exec(cfg, before).value, todo);
    } else {
      var n := |during| - 1;
      var acts := before + [Collect(todo)] + during[..n];
      assert before + [Collect(todo)] + during == acts + [during[n]];
      ExecLast(cfg, acts, during[n]);
      ScanGoesOn(cfg, before, todo, during[..n]);
      ScanKeepsItsList(cfg, Exec(cfg, acts).value, during[n], todo);
    }
  }

  lemma CollectStarts(cfg: StrategyConfig, s: State, todo: seq<PlanId>)
    requires Enabled(s, Collect(todo))
    ensures ScansFor(Do(cfg, s, Collect(todo)).monitor, todo)
  {
  }

  lemma OverdueIff(inflight: InFlight, id: PlanId, now: int)
    requires id in inflight
    ensures id in OverdueIds(inflight, now) <==> now - inflight[id].submittedAt > inflight[id].timeoutMs
  {
  }

  /** When a scan ends, no plan that was overdue at its collection is left in the map. */
  lemma ScanLeavesNothingOverdue(cfg: StrategyConfig, before: seq<Action>, todo: seq<PlanId>, during: seq<Action>,
                                 id: PlanId)
    requires Exec(cfg, before + [Collect(todo)] + during).Some?
    requires Enabled(Exec(cfg, before + [Collect(todo)] + during).value, EndScan)
    requires forall i :: 0 <= i < |during| ==> during[i] != EndScan
    ensures Exec(cfg, before).Some? && Exec(cfg, before).value.monitor.ScanStarting?
    ensures var s := Exec(cfg, before).value;
            id in s.inflight && s.monitor.now - s.inflight[id].submittedAt > s.inflight[id].timeoutMs ==>
              id !in Exec(cfg, before + [Collect(todo)] + during).value.inflight
  {
    ScanGoesOn(cfg, before, todo, during);
    var s := Exec(cfg, before).value;
    var overdue := OverdueIds(s.inflight, s.monitor.now);
    EnumerationCovers(todo, overdue);
    ScanInvariant(cfg, before + [Collect(todo)] + during);
    if id in s.inflight {
      OverdueIff(s.inflight, id, s.monitor.now);
    }
    if id in overdue {
      assert id in set j | 0 <= j < |todo| :: todo[j];
    }
  }

  /** Whoever a cancel is owed to has been sent one. */
  predicate CancelsSent(s: State) {
    forall i :: 0 <= i < |s.removals| && OwesCancel(s.removals[i].cause) ==> s.removals[i].plan.id in s.cancelRequests
  }

  predicate OwesCancel(cause: Cause) {
    cause.ByTimeout? || (cause.ByReport? && (cause.report.status.Rejected? || cause.report.status.PartiallyFilled?))
  }

  lemma CancelsKept(s: State, s': State)
    requires CancelsSent(s) && s.cancelRequests <= s'.cancelRequests
    requires s'.removals == s.removals
             || (|s'.removals| == |s.removals| + 1 && s'.removals[..|s.removals|] == s.removals
                 && (OwesCancel(s'.removals[|s.removals|].cause) ==>
                      s'.removals[|s.removals|].plan.id in s'.cancelRequests))
    ensures CancelsSent(s')
  {
    forall i | 0 <= i < |s'.removals| && OwesCancel(s'.removals[i].cause)
      ensures s'.removals[i].plan.id in s'.cancelRequests
    {
      if i < |s.removals| {
        assert s'.removals[i] == s.removals[i];
      }
    }
  }

  lemma CancelsStep(cfg: StrategyConfig, s: State, a: Action)
    requires Enabled(s, a) && CancelsSent(s) && ScanDone(s) && Final(s)
    ensures CancelsSent(Do(cfg, s, a))
  {
    hide CancelsSent;
    var s' := Do(cfg, s, a);
    if Quiet(a) {
      QuietFrame(cfg, s, a);
    }
    CancelsKept(s, s');
  }

  /** Every plan removed by a timeout, a rejection or a partial fill was first sent a cancel request. */
  lemma {:induction false} CancelBeforeRemoval(cfg: StrategyConfig, acts: seq<Action>)
    requires Exec(cfg, acts).Some?
    ensures CancelsSent(Exec(cfg, acts).value)
  {
    if acts != [] {
      var before := acts[..|acts| - 1];
      CancelBeforeRemoval(cfg, before);
      FinalInvariant(cfg, before);
      ScanInvariant(cfg, before);
      CancelsStep(cfg, Exec(cfg, before).value, acts[|acts| - 1]);
    }
  }
}
