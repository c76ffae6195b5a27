/**
 The engine and the simulated executor as one step relation, wired as in
 `crates/demo/src/mock_execution_demo.rs`: sent plans, cancel requests and reports each travel in
 order, at any delay. One worker per accepted plan steps through its legs while the canceller
 signals workers, and the engine takes every step of `Protocol` except callers' removals.
 */
module Joint {
  import opened Wrappers
  import opened Planner
  import opened Engine
  import opened Protocol
  import opened FillLedger
  import opened MockExecution
  import opened Rollbacks

  /** Where a plan's worker stands: its sender not yet listed, before a leg's check, during a fill, done. */
  datatype Phase = Starting | Checking | Filling | Finished

  datatype Worker = Worker(
    plan: TradePlan,
    phase: Phase,
    next: nat,       // legs reported on
    signalled: bool, // the one-shot signal is pending
    noticed: nat)    // the leg whose check took the signal; past the last leg until one does

  datatype System = System(
    engine: State,
    accepted: nat,   // sent plans the executor has taken
    workers: map<PlanId, Worker>,
    senders: set<PlanId>, // the cancel map
    heard: nat,      // cancel requests the canceller has taken
    reports: seq<ExecutionReport>, // everything the workers have sent
    received: nat)   // reports the engine has taken

  const START_SYSTEM := System(INITIAL, 0, map[], {}, 0, [], 0)

  datatype Move =
    | EngineStep(action: Action)
    | Deliver
    | Accept
    | ListSender(id: PlanId)
    | Signal
    | Check(id: PlanId)
    | Fill(id: PlanId)
    | Finish(id: PlanId)

  /** The engine step a move makes, if any. */
  function ActionOf(j: System, m: Move): Option<Action> {
    match m
    case EngineStep(a) => Some(a)
    case Deliver => if j.received < |j.reports| then Some(Receive(j.reports[j.received])) else None
    case _ => None
  }

  predicate Possible(j: System, m: Move) {
    match m
    case EngineStep(a) => Enabled(j.engine, a) && !a.Receive? && !a.CallerRemove? && (a.Plan? ==> AllTaker(a.plan))
    case Deliver => j.received < |j.reports| && j.engine.monitor.Listening?
    case Accept => j.accepted < |j.engine.sent|
    case ListSender(id) => id in j.workers && j.workers[id].phase.Starting?
    case Signal => j.heard < |j.engine.cancelRequests|
    case Check(id) => id in j.workers && j.workers[id].phase.Checking? && j.workers[id].next < |j.workers[id].plan.legs|
    case Fill(id) => id in j.workers && j.workers[id].phase.Filling? && j.workers[id].next < |j.workers[id].plan.legs|
    case Finish(id) =>
      id in j.workers && j.workers[id].phase.Checking? && j.workers[id].next == |j.workers[id].plan.legs|
  }

  /** The canceller: take the sender out of the map and signal its worker, if it is listed. */
  function Signalled(j: System, id: PlanId): System {
    if id in j.senders && id in j.workers then
      j.(heard := j.heard + 1, senders := j.senders - {id},
         workers := j.workers[id := j.workers[id].(signalled := true)])
    else j.(heard := j.heard + 1)
  }

  /** A leg's check: a pending signal is consumed and reported as a cancellation, otherwise the leg starts filling. */
  function Checked(j: System, id: PlanId): System
    requires Possible(j, Check(id))
  {
    var w := j.workers[id];
    if w.signalled then
      j.(reports := j.reports + [CancelledReport(w.plan.id, w.plan.legs[w.next])],
         workers := j.workers[id := w.(signalled := false, noticed := w.next, next := w.next + 1)])
    else j.(workers := j.workers[id := w.(phase := Filling)])
  }

  function Moved(cfg: StrategyConfig, j: System, m: Move): System
    requires Possible(j, m)
  {
    match m
    case EngineStep(a) => j.(engine := Do(cfg, j.engine, a))
    case Deliver => j.(engine := Do(cfg, j.engine, Receive(j.reports[j.received])), received := j.received + 1)
    case Accept =>
      var plan := j.engine.sent[j.accepted];
      j.(accepted := j.accepted + 1, workers := j.workers[plan.id := Worker(plan, Starting, 0, false, |plan.legs|)])
    case ListSender(id) =>
      j.(senders := j.senders + {id}, workers := j.workers[id := j.workers[id].(phase := Checking)])
    case Signal => Signalled(j, j.engine.cancelRequests[j.heard])
    case Check(id) => Checked(j, id)
    case Fill(id) =>
      var w := j.workers[id];
      j.(reports := j.reports + [FilledReport(w.plan.id, w.plan.legs[w.next])],
         workers := j.workers[id := w.(phase := Checking, next := w.next + 1)])
    case Finish(id) =>
      j.(senders := j.senders - {id}, workers := j.workers[id := j.workers[id].(phase := Finished)])
  }

  /** The system after a run, if every move of it was possible when its turn came. */
  function Run(cfg: StrategyConfig, moves: seq<Move>): Option<System> {
    if moves == [] then Some(START_SYSTEM)
    else
      match Run(cfg, moves[..|moves| - 1])
      case None => None
      case Some(j) => if Possible(j, moves[|moves| - 1]) then Some(Moved(cfg, j, moves[|moves| - 1])) else None
  }

  /** The engine's part of a run. */
  function EngineRun(cfg: StrategyConfig, moves: seq<Move>): seq<Action>
    requires Run(cfg, moves).Some?
  {
    if moves == [] then []
    else
      var before := moves[..|moves| - 1];
      match ActionOf(Run(cfg, before).value, moves[|moves| - 1])
      case None => EngineRun(cfg, before)
      case Some(a) => EngineRun(cfg, before) + [a]
  }

  // ----- the executor's side -----

  predicate WorkerSound(j: System, id: PlanId, w: Worker) {
    && w.plan.id == id && w.next <= |w.plan.legs|
    && (w.phase.Starting? ==> w.next == 0) && (w.phase.Finished? ==> w.next == |w.plan.legs|)
    && (w.noticed == |w.plan.legs| || w.noticed < w.next)
    && (id in j.senders ==> !w.phase.Starting? && !w.signalled && w.noticed == |w.plan.legs|)
    && (w.signalled ==> w.noticed == |w.plan.legs|)
    && (w.signalled || w.noticed < |w.plan.legs| ==> id in j.engine.cancelRequests && !w.phase.Starting?)
    && ReportsOn(j.reports, id) == MockReports(w.plan, w.noticed)[..w.next]
  }

  predicate ReportSound(j: System, r: ExecutionReport) {
    r.planId in j.workers && (r.status.Filled? || r.status.Cancelled?)
  }

  predicate Employed(j: System) {
    && j.accepted <= |j.engine.sent|
    && (forall i :: 0 <= i < j.accepted ==>
          j.engine.sent[i].id in j.workers && j.workers[j.engine.sent[i].id].plan == j.engine.sent[i])
    && (forall id :: id in j.workers ==> Launched(j.engine.sent[..j.accepted], id))
  }

  predicate ExecutorSound(j: System) {
    && Employed(j) && j.senders <= j.workers.Keys
    && (forall id :: id in j.workers ==> WorkerSound(j, id, j.workers[id]))
    && (forall k :: 0 <= k < |j.reports| ==> ReportSound(j, j.reports[k]))
  }

  // ----- the report channel -----

  /** The reports the engine has finished with. */
  function HandledSoFar(j: System): nat {
    if j.engine.monitor.Handling? && j.received > 0 then j.received - 1 else j.received
  }

  predicate Received(j: System) {
    && j.received <= |j.reports|
    && (j.engine.monitor.Handling? ==> j.received > 0 && j.engine.monitor.report == j.reports[j.received - 1])
  }

  /**
   What the engine handled of a plan's reports: a prefix, and all it has finished with while the plan
   is in flight.
   */
  predicate HandledOf(j: System, id: PlanId)
    requires Received(j)
  {
    && ReportsOn(j.engine.handled, id) <= ReportsOn(j.reports[..HandledSoFar(j)], id)
    && (id in j.engine.inflight ==> ReportsOn(j.engine.handled, id) == ReportsOn(j.reports[..HandledSoFar(j)], id))
  }

  ghost predicate Linked(j: System) {
    Received(j) && forall id :: HandledOf(j, id)
  }

  // ----- cancel requests -----

  predicate Cancels(m: Monitor, id: PlanId) { m.Cancelling? && m.k < |m.todo| && m.todo[m.k] == id }

  /** A plan is asked to cancel only when it times out; its removal follows at once unless it is rolled back first. */
  predicate CancelsTimeOut(s: State) {
    forall i :: 0 <= i < |s.cancelRequests| ==>
        Settled(s, s.cancelRequests[i]) || Cancels(s.monitor, s.cancelRequests[i])
  }

  predicate Settled(s: State, id: PlanId) {
    TimedOut(s.removals, id) || RolledBack(s.removals, id)
  }

  predicate RolledBack(removals: seq<Removal>, id: PlanId) {
    exists i :: 0 <= i < |removals| && removals[i].plan.id == id && removals[i].cause.ByRollback?
  }

  /** What the running scan still has to remove is in the map, unless a rollback has taken it. */
  predicate Pending(s: State, todo: seq<PlanId>, k: nat) {
    && (forall i :: k <= i < |todo| ==>
         todo[i] in s.plans && (todo[i] in s.inflight || RolledBack(s.removals, todo[i])))
    && (forall i, j :: 0 <= i < j < |todo| ==> todo[i] != todo[j])
  }

  predicate ScanPending(s: State) {
    match s.monitor
    case Scanning(todo, k) => Pending(s, todo, k)
    case Cancelling(todo, k) => k < |todo| && Pending(s, todo, k)
    case _ => true
  }

  predicate FilledOnly(removals: seq<Removal>) {
    forall i :: 0 <= i < |removals| && removals[i].cause.ByReport? ==> removals[i].cause.report.status.Filled?
  }

  ghost predicate Sound(j: System) {
    ExecutorSound(j) && Linked(j) && CancelsTimeOut(j.engine) && ScanPending(j.engine) && FilledOnly(j.engine.removals)
  }

  // ----- steps of the executor -----

  lemma MockMore(plan: TradePlan, k: nat, n: nat)
    requires n < |plan.legs|
    ensures MockReports(plan, k)[..n + 1] ==
              MockReports(plan, k)[..n] + [
                if n == k then CancelledReport(plan.id, plan.legs[n]) else FilledReport(plan.id, plan.legs[n])]
  {
  }

  lemma MockSame(plan: TradePlan, k: nat, l: nat, n: nat)
    requires n <= |plan.legs| && n <= k && n <= l
    ensures MockReports(plan, k)[..n] == MockReports(plan, l)[..n]
  {
  }

  /** One worker moves: every other worker's reports are as they were. */
  lemma OneWorkerMoves(j: System, j': System, id: PlanId, w: Worker)
    requires ExecutorSound(j) && id in j.workers && w.plan == j.workers[id].plan
    requires j'.engine == j.engine && j'.accepted == j.accepted && j'.workers == j.workers[id := w]
    requires j'.senders <= j'.workers.Keys && forall other :: other != id ==>
             (other in j'.senders <==> other in j.senders)
    requires j.reports <= j'.reports && |j'.reports| <= |j.reports| + 1
    requires |j'.reports| > |j.reports| ==>
             j'.reports[|j.reports|].planId == id && ReportSound(j', j'.reports[|j.reports|])
    requires WorkerSound(j', id, w)
    ensures ExecutorSound(j')
  {
    hide Launched, MockReports, ReportsOn;
    forall other | other in j'.workers ensures WorkerSound(j', other, j'.workers[other]) {
      if other != id {
        assert WorkerSound(j, other, j.workers[other]);
        if |j'.reports| > |j.reports| {
          assert j'.reports == j.reports + [j'.reports[|j.reports|]];
          OneMoreReport(j.reports, j'.reports[|j.reports|], other);
        } else {
          assert j'.reports == j.reports;
        }
      }
    }
    forall k | 0 <= k < |j'.reports| ensures ReportSound(j', j'.reports[k]) {
      if k < |j.reports| {
        assert j'.reports[k] == j.reports[k] && ReportSound(j, j.reports[k]);
      }
    }
  }

  lemma CheckSound(cfg: StrategyConfig, j: System, id: PlanId)
    requires ExecutorSound(j) && Possible(j, Check(id))
    ensures ExecutorSound(Moved(cfg, j, Check(id)))
  {
    hide Launched, MockReports, ReportsOn, Employed;
    var w, j' := j.workers[id], Moved(cfg, j, Check(id));
    assert WorkerSound(j, id, w);
    if w.signalled {
      MockSame(w.plan, w.noticed, w.next, w.next);
      MockMore(w.plan, w.next, w.next);
      OneMoreReport(j.reports, CancelledReport(w.plan.id, w.plan.legs[w.next]), id);
    }
    OneWorkerMoves(j, j', id, j'.workers[id]);
  }

  lemma FillSound(cfg: StrategyConfig, j: System, id: PlanId)
    requires ExecutorSound(j) && Possible(j, Fill(id))
    ensures ExecutorSound(Moved(cfg, j, Fill(id)))
  {
    hide Launched, MockReports, ReportsOn, Employed;
    var w, j' := j.workers[id], Moved(cfg, j, Fill(id));
    assert WorkerSound(j, id, w);
    MockMore(w.plan, w.noticed, w.next);
    OneMoreReport(j.reports, FilledReport(w.plan.id, w.plan.legs[w.next]), id);
    OneWorkerMoves(j, j', id, j'.workers[id]);
  }

  lemma ListedSound(cfg: StrategyConfig, j: System, id: PlanId)
    requires ExecutorSound(j) && Possible(j, ListSender(id))
    ensures ExecutorSound(Moved(cfg, j, ListSender(id)))
  {
    hide Launched, MockReports, ReportsOn, Employed;
    var j' := Moved(cfg, j, ListSender(id));
    assert WorkerSound(j, id, j.workers[id]);
    OneWorkerMoves(j, j', id, j'.workers[id]);
  }

  lemma FinishSound(cfg: StrategyConfig, j: System, id: PlanId)
    requires ExecutorSound(j) && Possible(j, Finish(id))
    ensures ExecutorSound(Moved(cfg, j, Finish(id)))
  {
    hide Launched, MockReports, ReportsOn, Employed;
    var j' := Moved(cfg, j, Finish(id));
    assert WorkerSound(j, id, j.workers[id]);
    OneWorkerMoves(j, j', id, j'.workers[id]);
  }

  lemma SignalSound(cfg: StrategyConfig, j: System)
    requires ExecutorSound(j) && Possible(j, Signal)
    ensures ExecutorSound(Moved(cfg, j, Signal))
  {
    hide Launched, MockReports, ReportsOn, Employed;
    var id, j' := j.engine.cancelRequests[j.heard], Moved(cfg, j, Signal);
    if id in j.senders {
      assert WorkerSound(j, id, j.workers[id]);
      OneWorkerMoves(j, j', id, j'.workers[id]);
    } else {
      SameExecutor(j, j');
    }
  }

  /** The executor's side only depends on what the engine has sent it so far. */
  lemma SameExecutor(j: System, j': System)
    requires ExecutorSound(j)
    requires j'.workers == j.workers && j'.senders == j.senders && j'.reports == j.reports && j'.accepted == j.accepted
    requires j.engine.sent <= j'.engine.sent && j.engine.cancelRequests <= j'.engine.cancelRequests
    ensures ExecutorSound(j')
  {
    hide Launched, MockReports, ReportsOn;
    assert j'.engine.sent[..j.accepted] == j.engine.sent[..j.accepted];
    forall i | 0 <= i < j'.accepted
      ensures j'.engine.sent[i].id in j'.workers && j'.workers[j'.engine.sent[i].id].plan == j'.engine.sent[i]
    {
      assert j'.engine.sent[i] == j.engine.sent[i];
    }
    forall id | id in j'.workers ensures WorkerSound(j', id, j'.workers[id]) {
      assert WorkerSound(j, id, j.workers[id]);
    }
    forall k | 0 <= k < |j'.reports| ensures ReportSound(j', j'.reports[k]) {
      assert ReportSound(j, j.reports[k]);
    }
  }

  lemma AcceptSound(cfg: StrategyConfig, j: System)
    requires ExecutorSound(j) && Possible(j, Accept) && DetectorAhead(j.engine)
    ensures ExecutorSound(Moved(cfg, j, Accept))
  {
    hide Launched, MockReports, ReportsOn, DetectorAhead, Employed;
    assert j.accepted < |j.engine.sent|;
    var plan, j' := j.engine.sent[j.accepted], Moved(cfg, j, Accept);
    NewcomerUnknown(j);
    AcceptEmploys(cfg, j);
    forall k | 0 <= k < |j.reports| ensures j.reports[k].planId in j.workers.Keys {
      assert ReportSound(j, j.reports[k]);
    }
    NoReportsYet(j.reports, j.workers.Keys, plan.id);
    forall id | id in j'.workers ensures WorkerSound(j', id, j'.workers[id]) {
      if id in j.workers {
        assert WorkerSound(j, id, j.workers[id]);
      }
    }
    forall k | 0 <= k < |j'.reports| ensures ReportSound(j', j'.reports[k]) {
      assert ReportSound(j, j.reports[k]);
    }
  }

  lemma NewcomerUnknown(j: System)
    requires Employed(j) && j.accepted < |j.engine.sent| && DetectorAhead(j.engine)
    ensures j.engine.sent[j.accepted].id !in j.workers
  {
  }

  lemma AcceptEmploys(cfg: StrategyConfig, j: System)
    requires Employed(j) && Possible(j, Accept) && j.engine.sent[j.accepted].id !in j.workers
    ensures Employed(Moved(cfg, j, Accept))
  {
    hide Launched;
    var sent, n := j.engine.sent, j.accepted;
    var j' := Moved(cfg, j, Accept);
    forall id | id in j'.workers ensures Launched(sent[..n + 1], id) {
      if id in j.workers {
        LaunchedGrows(sent[..n], sent[..n + 1], id);
      } else {
        LaunchedLast(sent, n);
      }
    }
  }

  lemma ExecutorStep(cfg: StrategyConfig, j: System, m: Move)
    requires ExecutorSound(j) && Possible(j, m) && ActionOf(j, m).None? && DetectorAhead(j.engine)
    ensures ExecutorSound(Moved(cfg, j, m)) && Moved(cfg, j, m).engine == j.engine
    ensures Moved(cfg, j, m).received == j.received && j.reports <= Moved(cfg, j, m).reports
  {
    hide ExecutorSound, DetectorAhead, Launched;
    match m {
      case Accept => AcceptSound(cfg, j);
      case ListSender(id) => ListedSound(cfg, j, id);
      case Signal => SignalSound(cfg, j);
      case Check(id) => CheckSound(cfg, j, id);
      case Fill(id) => FillSound(cfg, j, id);
      case Finish(id) => FinishSound(cfg, j, id);
      case _ =>
    }
  }

  // ----- the report channel, step by step -----

  lemma ReportsPrefix(reports: seq<ExecutionReport>, more: seq<ExecutionReport>, n: nat)
    requires n <= |reports| && reports <= more
    ensures more[..n] == reports[..n]
  {
  }

  /** Moves of the executor leave what the engine has taken as it was. */
  lemma LinkedAfterExecutor(j: System, j': System)
    requires Linked(j) && j'.engine == j.engine && j'.received == j.received && j.reports <= j'.reports
    ensures Linked(j')
  {
    hide ReportsOn;
    ReportsPrefix(j.reports, j'.reports, HandledSoFar(j));
    forall id ensures HandledOf(j', id) {
      assert HandledOf(j, id);
    }
  }

  /** The monitor holds a report only from receiving it until applying it. */
  lemma MonitorHolds(cfg: StrategyConfig, s: State, a: Action)
    requires Enabled(s, a) && !a.Receive? && !a.Apply?
    ensures Do(cfg, s, a).monitor.Handling? <==> s.monitor.Handling?
    ensures s.monitor.Handling? ==> Do(cfg, s, a).monitor == s.monitor
  {
    hide AfterReport, Removes, CancelsAfterReport, WellFormed, OverdueIds, Enumerates;
  }

  /** Steps that neither receive, apply nor register. */
  lemma LinkedAfterOther(j: System, j': System)
    requires Linked(j) && j' == j.(engine := j'.engine)
    requires j'.engine.monitor.Handling? <==> j.engine.monitor.Handling?
    requires j.engine.monitor.Handling? ==> j'.engine.monitor == j.engine.monitor
    requires j'.engine.handled == j.engine.handled && j'.engine.inflight.Keys <= j.engine.inflight.Keys
    ensures Linked(j')
  {
    hide ReportsOn;
    forall id ensures HandledOf(j', id) {
      assert HandledOf(j, id);
      assert id in j'.engine.inflight.Keys ==> id in j.engine.inflight.Keys;
    }
  }

  lemma LinkedAfterDelivery(cfg: StrategyConfig, j: System)
    requires Linked(j) && Possible(j, Deliver)
    ensures Linked(Moved(cfg, j, Deliver))
  {
    hide ReportsOn;
    var j' := Moved(cfg, j, Deliver);
    forall id ensures HandledOf(j', id) {
      assert HandledOf(j, id);
    }
  }

  /** A newly registered plan has no worker, so no report is about it. */
  lemma LinkedAfterRegister(cfg: StrategyConfig, j: System)
    requires Linked(j) && ExecutorSound(j) && Enabled(j.engine, Register) && Final(j.engine) && DetectorAhead(j.engine)
    ensures Linked(j.(engine := Do(cfg, j.engine, Register)))
  {
    hide ReportsOn, Launched;
    var id, j' := j.engine.detector.plan.id, j.(engine := Do(cfg, j.engine, Register));
    forall k | 0 <= k < |j.reports| ensures j.reports[k].planId in j.workers.Keys {
      assert ReportSound(j, j.reports[k]);
    }
    assert id !in j.workers by {
      UnsentUnemployed(j, id);
    }
    NoReportsYet(j.reports[..HandledSoFar(j)], j.workers.Keys, id);
    forall other ensures HandledOf(j', other) {
      assert HandledOf(j, other);
    }
  }

  lemma UnsentUnemployed(j: System, id: PlanId)
    requires Employed(j) && !Launched(j.engine.sent, id)
    ensures id !in j.workers
  {
    if id in j.workers {
      LaunchedGrows(j.engine.sent[..j.accepted], j.engine.sent, id);
    }
  }

  lemma HandledOneMore(j: System)
    requires Received(j) && j.engine.monitor.Handling?
    ensures j.reports[..j.received] == j.reports[..HandledSoFar(j)] + [j.engine.monitor.report]
  {
  }

  lemma LinkedAfterApply(cfg: StrategyConfig, j: System)
    requires Linked(j) && Enabled(j.engine, Apply)
    ensures Linked(j.(engine := Do(cfg, j.engine, Apply)))
  {
    hide ReportsOn, AfterReport, Removes, CancelsAfterReport;
    var s, j' := j.engine, j.(engine := Do(cfg, j.engine, Apply));
    var r := s.monitor.report;
    HandledOneMore(j);
    AfterReportSize(s.inflight, r);
    forall id ensures HandledOf(j', id) {
      assert HandledOf(j, id);
      OneMoreReport(j.reports[..HandledSoFar(j)], r, id);
      OneMoreReport(s.handled, r, id);
      assert id in j'.engine.inflight.Keys ==> id in s.inflight.Keys;
    }
  }

  lemma LinkedStep(cfg: StrategyConfig, j: System, a: Action)
    requires Linked(j) && ExecutorSound(j) && Final(j.engine) && DetectorAhead(j.engine)
    requires Possible(j, EngineStep(a))
    ensures Linked(j.(engine := Do(cfg, j.engine, a)))
  {
    hide Linked, ExecutorSound, Final, DetectorAhead, Do;
    var j' := j.(engine := Do(cfg, j.engine, a));
    match a {
      case Register => LinkedAfterRegister(cfg, j);
      case Apply => LinkedAfterApply(cfg, j);
      case _ =>
        OtherFrame(cfg, j.engine, a);
        MonitorHolds(cfg, j.engine, a);
        LinkedAfterOther(j, j');
    }
  }

  // ----- cancel requests, step by step -----

  lemma {:induction false} ReportListed(reports: seq<ExecutionReport>, k: nat)
    requires k < |reports|
    ensures reports[k] in ReportsOn(reports, reports[k].planId)
    decreases |reports|
  {
    hide ReportsOn;
    var n := |reports| - 1;
    assert reports == reports[..n] + [reports[n]];
    OneMoreReport(reports[..n], reports[n], reports[k].planId);
    if k < n {
      ReportListed(reports[..n], k);
    }
  }

  /** A worker reports a cancellation only once it has noticed a signal. */
  lemma CancellationNoticed(j: System, k: nat)
    requires ExecutorSound(j) && k < |j.reports| && j.reports[k].status.Cancelled?
    ensures j.reports[k].planId in j.workers
    ensures j.reports[k].planId in j.engine.cancelRequests && Launched(j.engine.sent, j.reports[k].planId)
  {
    hide ReportsOn, Launched;
    var id := j.reports[k].planId;
    assert ReportSound(j, j.reports[k]) && WorkerSound(j, id, j.workers[id]);
    ReportListed(j.reports, k);
    var w := j.workers[id];
    var i :| 0 <= i < w.next && MockReports(w.plan, w.noticed)[..w.next][i] == j.reports[k];
    ReportsAccountForLegs(w.plan, w.noticed, i);
    LaunchedGrows(j.engine.sent[..j.accepted], j.engine.sent, id);
  }

  lemma SettledIsGone(s: State, id: PlanId)
    requires Final(s) && Settled(s, id)
    ensures id !in s.inflight
  {
    var i :| 0 <= i < |s.removals| && s.removals[i].plan.id == id;
    assert RemovedProperly(s, s.removals[i]);
  }

  /** A Cancelled report finds its plan gone: it was asked to cancel because it had timed out. */
  lemma CancellationIsLate(j: System)
    requires Sound(j) && Final(j.engine) && j.engine.monitor.Handling? && j.engine.monitor.report.status.Cancelled?
    ensures j.engine.monitor.report.planId !in j.engine.inflight
  {
    hide Launched, Settled, ExecutorSound, Final;
    var id := j.engine.monitor.report.planId;
    CancellationNoticed(j, j.received - 1);
    var i :| 0 <= i < |j.engine.cancelRequests| && j.engine.cancelRequests[i] == id;
    SettledIsGone(j.engine, id);
  }

  /** The report being handled fills or cancels, so it asks for no cancel. */
  lemma HandledReportFills(j: System)
    requires Sound(j) && Final(j.engine) && j.engine.monitor.Handling?
    requires j.engine.monitor.report.planId in j.engine.inflight
    ensures j.engine.monitor.report.status.Filled?
  {
    assert ReportSound(j, j.reports[j.received - 1]);
    if j.engine.monitor.report.status.Cancelled? {
      CancellationIsLate(j);
    }
  }

  lemma FilledOnlyStep(cfg: StrategyConfig, j: System, a: Action)
    requires Sound(j) && Final(j.engine) && Enabled(j.engine, a)
    ensures FilledOnly(Do(cfg, j.engine, a).removals)
  {
    hide Sound, Final, AfterReport, Removes, CancelsAfterReport, WellFormed, OverdueIds, Enumerates;
    SoundMeansFilledOnly(j);
    if a.Apply? {
      if j.engine.monitor.report.planId in j.engine.inflight {
        HandledReportFills(j);
      }
    } else if a.Register? {
    } else {
      OtherFrame(cfg, j.engine, a);
    }
  }

  lemma SoundMeansFilledOnly(j: System)
    requires Sound(j)
    ensures FilledOnly(j.engine.removals)
  {
  }

  lemma RolledBackGrows(removals: seq<Removal>, more: seq<Removal>, id: PlanId)
    requires removals <= more && RolledBack(removals, id)
    ensures RolledBack(more, id)
  {
    var i :| 0 <= i < |removals| && removals[i].plan.id == id && removals[i].cause.ByRollback?;
    assert more[i].plan.id == id;
  }

  lemma SettledStays(s: State, s': State, id: PlanId)
    requires s.removals <= s'.removals && Settled(s, id)
    ensures Settled(s', id)
  {
    hide TimedOut, RolledBack;
    if TimedOut(s.removals, id) {
      TimedOutGrows(s.removals, s'.removals, id);
    } else {
      RolledBackGrows(s.removals, s'.removals, id);
    }
  }

  /** What a scan still has to do stays so while plans only enter the map or are rolled back. */
  lemma PendingStays(s: State, s': State, todo: seq<PlanId>, k: nat, k': nat)
    requires Pending(s, todo, k) && k <= k'
    requires s.plans.Keys <= s'.plans.Keys && s.removals <= s'.removals
    requires forall i :: k' <= i < |todo| && todo[i] in s.inflight ==>
             todo[i] in s'.inflight || RolledBack(s'.removals, todo[i])
    ensures Pending(s', todo, k')
  {
    hide RolledBack;
    forall i | k' <= i < |todo|
      ensures todo[i] in s'.plans && (todo[i] in s'.inflight || RolledBack(s'.removals, todo[i]))
    {
      assert todo[i] in s.plans.Keys;
      if RolledBack(s.removals, todo[i]) {
        RolledBackGrows(s.removals, s'.removals, todo[i]);
      }
    }
  }

  lemma RollbackRecorded(cfg: StrategyConfig, s: State, id: PlanId)
    requires Enabled(s, Rollback) && Final(s) && id in s.inflight
    ensures id in Do(cfg, s, Rollback).inflight || RolledBack(Do(cfg, s, Rollback).removals, id)
  {
    if id == s.detector.plan.id {
      var s' := Do(cfg, s, Rollback);
      assert s'.removals[|s.removals|] == Removal(s.inflight[id].plan, ByRollback);
    }
  }

  lemma CollectedPending(s: State, s': State, todo: seq<PlanId>, now: int)
    requires Final(s) && Enumerates(todo, OverdueIds(s.inflight, now))
    requires s'.plans == s.plans && s'.inflight == s.inflight
    ensures Pending(s', todo, 0)
  {
    hide RolledBack;
  }

  lemma ScanPendingStep(cfg: StrategyConfig, s: State, a: Action)
    requires Enabled(s, a) && Final(s) && !a.CallerRemove? && ScanPending(s)
    ensures ScanPending(Do(cfg, s, a))
  {
    hide Final, Pending, RolledBack, AfterReport, Removes, CancelsAfterReport, WellFormed, OverdueIds, Enumerates;
    var s' := Do(cfg, s, a);
    match a {
      case Register => RegisterPending(cfg, s);
      case Apply =>
      case Rollback => RollbackPending(cfg, s);
      case RemoveOverdue => RemovalPending(cfg, s);
      case Collect(todo) => CollectedPending(s, s', todo, s.monitor.now);
      case _ => QuietPending(cfg, s, a);
    }
  }

  lemma RemovalPending(cfg: StrategyConfig, s: State)
    requires Enabled(s, RemoveOverdue) && ScanPending(s)
    ensures ScanPending(Do(cfg, s, RemoveOverdue))
  {
    hide RolledBack;
    PendingStays(s, Do(cfg, s, RemoveOverdue), s.monitor.todo, s.monitor.k, s.monitor.k + 1);
  }

  lemma RegisterPending(cfg: StrategyConfig, s: State)
    requires Enabled(s, Register) && ScanPending(s)
    ensures ScanPending(Do(cfg, s, Register))
  {
    hide Pending, RolledBack;
    if s.monitor.Scanning? || s.monitor.Cancelling? {
      PendingStays(s, Do(cfg, s, Register), s.monitor.todo, s.monitor.k, s.monitor.k);
    }
  }

  lemma RollbackPending(cfg: StrategyConfig, s: State)
    requires Enabled(s, Rollback) && Final(s) && ScanPending(s)
    ensures ScanPending(Do(cfg, s, Rollback))
  {
    hide Pending, RolledBack, Final;
    var s' := Do(cfg, s, Rollback);
    if s.monitor.Scanning? || s.monitor.Cancelling? {
      var todo, k := s.monitor.todo, s.monitor.k;
      forall i | k <= i < |todo| && todo[i] in s.inflight
        ensures todo[i] in s'.inflight || RolledBack(s'.removals, todo[i])
      {
        RollbackRecorded(cfg, s, todo[i]);
      }
      PendingStays(s, s', todo, k, k);
    }
  }

  lemma QuietPending(cfg: StrategyConfig, s: State, a: Action)
    requires Enabled(s, a) && Quiet(a) && !a.Collect? && ScanPending(s)
    ensures ScanPending(Do(cfg, s, a))
  {
    hide Pending, RolledBack, AfterReport, Removes, CancelsAfterReport, WellFormed, OverdueIds, Enumerates;
    QuietFrame(cfg, s, a);
    if s.monitor.Scanning? || s.monitor.Cancelling? {
      PendingStays(s, Do(cfg, s, a), s.monitor.todo, s.monitor.k, s.monitor.k);
    }
  }

  lemma CancelsTimeOutFrom(s: State, s': State)
    requires CancelsTimeOut(s) && s.removals <= s'.removals
    requires forall id :: Cancels(s.monitor, id) ==> Settled(s', id) || Cancels(s'.monitor, id)
    requires s.cancelRequests <= s'.cancelRequests && |s'.cancelRequests| <= |s.cancelRequests| + 1
    requires |s'.cancelRequests| > |s.cancelRequests| ==> Cancels(s'.monitor, s'.cancelRequests[|s.cancelRequests|])
    ensures CancelsTimeOut(s')
  {
    hide Settled, Cancels;
    forall i | 0 <= i < |s'.cancelRequests|
      ensures Settled(s', s'.cancelRequests[i]) || Cancels(s'.monitor, s'.cancelRequests[i])
    {
      if i < |s.cancelRequests| {
        assert s'.cancelRequests[i] == s.cancelRequests[i];
        if Settled(s, s.cancelRequests[i]) {
          SettledStays(s, s', s.cancelRequests[i]);
        }
      }
    }
  }

  /** The plan being cancelled stays so until its removal, which settles it. */
  lemma RemovalSettles(cfg: StrategyConfig, s: State)
    requires Enabled(s, RemoveOverdue) && Final(s) && ScanPending(s)
    ensures Settled(Do(cfg, s, RemoveOverdue), s.monitor.todo[s.monitor.k])
  {
    hide RolledBack;
    var id, s' := s.monitor.todo[s.monitor.k], Do(cfg, s, RemoveOverdue);
    if id in s.inflight {
      assert s'.removals[|s.removals|] == Removal(s.inflight[id].plan, ByTimeout);
    } else {
      RolledBackGrows(s.removals, s'.removals, id);
    }
  }

  lemma RequestsFrame(cfg: StrategyConfig, s: State, a: Action)
    requires Enabled(s, a) && !a.Apply? && !a.RemoveOverdue?
    ensures var s' := Do(cfg, s, a);
            && s.removals <= s'.removals
            && (forall id :: Cancels(s.monitor, id) ==> Cancels(s'.monitor, id))
            && s.cancelRequests <= s'.cancelRequests && |s'.cancelRequests| <= |s.cancelRequests| + 1
            && (|s'.cancelRequests| > |s.cancelRequests| ==> Cancels(s'.monitor, s'.cancelRequests[|s.cancelRequests|]))
  {
    hide AfterReport, Removes, CancelsAfterReport, WellFormed, OverdueIds, Enumerates;
    match a {
      case RequestCancel =>
      case Rollback =>
      case CallerRemove(_) =>
      case _ => RequestsUnchanged(cfg, s, a);
    }
  }

  lemma RequestsUnchanged(cfg: StrategyConfig, s: State, a: Action)
    requires Enabled(s, a) && !a.Apply? && !a.RemoveOverdue? && !a.RequestCancel?
    ensures var s' := Do(cfg, s, a);
            s'.cancelRequests == s.cancelRequests && (s.monitor.Cancelling? ==> s'.monitor == s.monitor)
    ensures !a.Rollback? && !a.CallerRemove? ==> Do(cfg, s, a).removals == s.removals
  {
    hide AfterReport, Removes, CancelsAfterReport, WellFormed, OverdueIds, Enumerates;
  }

  lemma CancelsTimeOutStep(cfg: StrategyConfig, j: System, a: Action)
    requires Sound(j) && Final(j.engine) && Enabled(j.engine, a)
    ensures CancelsTimeOut(Do(cfg, j.engine, a))
  {
    hide Sound, Final, CancelsTimeOut, Settled, Cancels, Do, Enabled;
    SoundParts(j);
    match a {
      case Apply => ApplyRequestsNone(cfg, j);
      case RemoveOverdue => RemovalSettlesRequest(cfg, j.engine);
      case _ =>
        RequestsFrame(cfg, j.engine, a);
        CancelsTimeOutFrom(j.engine, Do(cfg, j.engine, a));
    }
  }

  lemma ApplyRequestsNone(cfg: StrategyConfig, j: System)
    requires Sound(j) && Final(j.engine) && Enabled(j.engine, Apply)
    ensures CancelsTimeOut(Do(cfg, j.engine, Apply))
  {
    hide Sound, Final, CancelsTimeOut, Settled, AfterReport, Removes;
    SoundParts(j);
    if j.engine.monitor.report.planId in j.engine.inflight {
      HandledReportFills(j);
    }
    CancelsTimeOutFrom(j.engine, Do(cfg, j.engine, Apply));
  }

  lemma RemovalSettlesRequest(cfg: StrategyConfig, s: State)
    requires Enabled(s, RemoveOverdue) && Final(s) && ScanPending(s) && CancelsTimeOut(s)
    ensures CancelsTimeOut(Do(cfg, s, RemoveOverdue))
  {
    hide Final, CancelsTimeOut, Settled, ScanPending;
    RemovalSettles(cfg, s);
    CancelsTimeOutFrom(s, Do(cfg, s, RemoveOverdue));
  }

  lemma SoundParts(j: System)
    requires Sound(j)
    ensures ExecutorSound(j) && Linked(j) && CancelsTimeOut(j.engine) && ScanPending(j.engine)
    ensures FilledOnly(j.engine.removals)
  {
  }

  // ----- whole runs -----

  lemma EngineStepSound(cfg: StrategyConfig, j: System, a: Action)
    requires Sound(j) && Final(j.engine) && DetectorAhead(j.engine) && Possible(j, EngineStep(a))
    ensures Sound(j.(engine := Do(cfg, j.engine, a)))
  {
    hide ExecutorSound, Linked, CancelsTimeOut, ScanPending, FilledOnly, Final, DetectorAhead;
    var j' := j.(engine := Do(cfg, j.engine, a));
    EngineFrame(cfg, j.engine, a);
    SameExecutor(j, j');
    LinkedStep(cfg, j, a);
    CancelsTimeOutStep(cfg, j, a);
    ScanPendingStep(cfg, j.engine, a);
    FilledOnlyStep(cfg, j, a);
  }

  lemma EngineFrame(cfg: StrategyConfig, s: State, a: Action)
    requires Enabled(s, a)
    ensures s.sent <= Do(cfg, s, a).sent && s.cancelRequests <= Do(cfg, s, a).cancelRequests
  {
    hide AfterReport, Removes, CancelsAfterReport, WellFormed, OverdueIds, Enumerates;
    if Quiet(a) {
      QuietFrame(cfg, s, a);
    }
  }

  lemma DeliverySound(cfg: StrategyConfig, j: System)
    requires Sound(j) && Possible(j, Deliver)
    ensures Sound(Moved(cfg, j, Deliver))
    ensures OrderlyStep(j.engine, Receive(j.reports[j.received]))
  {
    hide ExecutorSound, Linked, CancelsTimeOut, FilledOnly, Launched;
    var j', id := Moved(cfg, j, Deliver), j.reports[j.received].planId;
    SameExecutor(j, j');
    LinkedAfterDelivery(cfg, j);
    RequestsFrame(cfg, j.engine, Receive(j.reports[j.received]));
    CancelsTimeOutFrom(j.engine, j'.engine);
    ReporterLaunched(j, j.received);
  }

  lemma ReporterLaunched(j: System, k: nat)
    requires ExecutorSound(j) && k < |j.reports|
    ensures Launched(j.engine.sent, j.reports[k].planId)
  {
    hide Launched;
    assert ReportSound(j, j.reports[k]);
    LaunchedGrows(j.engine.sent[..j.accepted], j.engine.sent, j.reports[k].planId);
  }

  lemma MoveSound(cfg: StrategyConfig, j: System, m: Move)
    requires Sound(j) && Final(j.engine) && DetectorAhead(j.engine) && Possible(j, m)
    ensures Sound(Moved(cfg, j, m))
    ensures match ActionOf(j, m)
            case None => Moved(cfg, j, m).engine == j.engine
            case Some(a) =>
              && Enabled(j.engine, a) && OrderlyStep(j.engine, a)
              && Moved(cfg, j, m).engine == Do(cfg, j.engine, a)
  {
    hide ExecutorSound, Linked, CancelsTimeOut, ScanPending, FilledOnly, Final, DetectorAhead, Do, Signalled, Checked;
    match m {
      case EngineStep(a) => EngineStepSound(cfg, j, a);
      case Deliver => DeliverySound(cfg, j);
      case _ =>
        ExecutorStep(cfg, j, m);
        LinkedAfterExecutor(j, Moved(cfg, j, m));
    }
  }

  lemma EngineRunStep(cfg: StrategyConfig, moves: seq<Move>)
    requires moves != [] && Run(cfg, moves).Some?
    ensures var n := |moves| - 1;
            && Run(cfg, moves[..n]).Some? && Possible(Run(cfg, moves[..n]).value, moves[n])
            && Run(cfg, moves).value == Moved(cfg, Run(cfg, moves[..n]).value, moves[n])
            && EngineRun(cfg, moves) ==
                 match ActionOf(Run(cfg, moves[..n]).value, moves[n])
                 case None => EngineRun(cfg, moves[..n])
                 case Some(a) => EngineRun(cfg, moves[..n]) + [a]
  {
  }

  lemma OrderlyOneMore(cfg: StrategyConfig, acts: seq<Action>, a: Action)
    requires Orderly(cfg, acts) && Exec(cfg, acts).Some? && OrderlyStep(Exec(cfg, acts).value, a)
    ensures Orderly(cfg, acts + [a])
  {
    assert (acts + [a])[..|acts|] == acts;
  }

  lemma SoundAtFirst()
    ensures Sound(START_SYSTEM)
  {
  }

  /**
   Over every run of engine and executor together, the engine's own steps are an orderly run of
   `Protocol`, so everything proved of those holds here, and the composed invariants hold.
   */
  lemma {:induction false} EngineRunIsOrderly(cfg: StrategyConfig, moves: seq<Move>)
    requires Run(cfg, moves).Some?
    ensures var acts := EngineRun(cfg, moves);
            && Exec(cfg, acts) == Some(Run(cfg, moves).value.engine) && Orderly(cfg, acts)
    ensures Sound(Run(cfg, moves).value)
  {
    hide Sound, Run, EngineRun, Moved, Possible, ActionOf, Exec, Orderly, OrderlyStep, Final, DetectorAhead, Do,
        Enabled;
    if moves == [] {
      RunsFromStart(cfg);
    } else {
      var n := |moves| - 1;
      EngineRunStep(cfg, moves);
      EngineRunIsOrderly(cfg, moves[..n]);
      var j, acts := Run(cfg, moves[..n]).value, EngineRun(cfg, moves[..n]);
      FinalInvariant(cfg, acts);
      SentInvariant(cfg, acts);
      MoveSound(cfg, j, moves[n]);
      match ActionOf(j, moves[n]) {
        case None =>
        case Some(a) =>
          ExecOneMore(cfg, acts, a);
          OrderlyOneMore(cfg, acts, a);
      }
    }
  }

  lemma RunsFromStart(cfg: StrategyConfig)
    ensures Run(cfg, []) == Some(START_SYSTEM) && EngineRun(cfg, []) == [] && Sound(START_SYSTEM)
    ensures Exec(cfg, []) == Some(START_SYSTEM.engine) && Orderly(cfg, [])
  {
    SoundAtFirst();
  }

  // ----- what the engine makes of a sent plan -----

  lemma {:induction false} PrefixOfReports(reports: seq<ExecutionReport>, n: nat, id: PlanId)
    requires n <= |reports|
    ensures ReportsOn(reports[..n], id) <= ReportsOn(reports, id)
    decreases |reports|
  {
    hide ReportsOn;
    if n < |reports| {
      var l := |reports| - 1;
      var rest := reports[..l];
      assert reports == rest + [reports[l]] && rest[..n] == reports[..n];
      OneMoreReport(rest, reports[l], id);
      PrefixOfReports(rest, n, id);
    } else {
      assert reports[..n] == reports;
    }
  }

  lemma LaunchedPlan(s: State, id: PlanId)
    requires DetectorAhead(s) && Launched(s.sent, id)
    ensures id in s.plans && exists i :: 0 <= i < |s.sent| && s.sent[i].id == id && s.sent[i] == s.plans[id]
  {
    var i :| 0 <= i < |s.sent| && s.sent[i].id == id;
    assert s.sent[i] == s.plans[id];
  }

  lemma EmployedPlan(j: System, id: PlanId)
    requires Employed(j) && DetectorAhead(j.engine) && id in j.workers
    ensures id in j.engine.plans && j.workers[id].plan == j.engine.plans[id]
  {
    var i :| 0 <= i < j.accepted && j.engine.sent[..j.accepted][i].id == id;
    assert j.engine.sent[i].id == id;
  }

  /** The leg whose check took the plan's cancel signal, past the last if none did. */
  function NoticedAt(j: System, id: PlanId): nat
    requires id in j.engine.plans
  {
    if id in j.workers then j.workers[id].noticed else |j.engine.plans[id].legs|
  }

  /** What the engine has handled of a sent plan is a prefix of that plan's own mock execution. */
  lemma HandledIsMock(cfg: StrategyConfig, moves: seq<Move>, id: PlanId)
    requires Run(cfg, moves).Some? && Launched(Run(cfg, moves).value.engine.sent, id)
    ensures var j := Run(cfg, moves).value;
            && id in j.engine.plans
            && var mine, plan := ReportsOn(j.engine.handled, id), j.engine.plans[id];
               |mine| <= |plan.legs| && mine == MockReports(plan, NoticedAt(j, id))[..|mine|]
  {
    hide Run, Exec, Launched, ReportsOn, MockReports, Orderly, Final;
    EngineRunIsOrderly(cfg, moves);
    SentInvariant(cfg, EngineRun(cfg, moves));
    var j := Run(cfg, moves).value;
    LaunchedPlan(j.engine, id);
    assert HandledOf(j, id);
    PrefixOfReports(j.reports, HandledSoFar(j), id);
    if id in j.workers {
      EmployedPlan(j, id);
      assert WorkerSound(j, id, j.workers[id]);
    } else {
      forall k | 0 <= k < |j.reports| ensures j.reports[k].planId in j.workers.Keys {
        assert ReportSound(j, j.reports[k]);
      }
      NoReportsYet(j.reports, j.workers.Keys, id);
    }
  }

  /** A sent plan that has not timed out can only have left through a report. */
  lemma LeavesByReport(s: State, id: PlanId)
    requires Accounted(s) && Launched(s.sent, id) && !TimedOut(s.removals, id)
    ensures OnlyByReport(s.removals, id)
  {
    hide Launched;
    forall i | 0 <= i < |s.removals| && s.removals[i].plan.id == id ensures s.removals[i].cause.ByReport? {
      assert Caused(s, s.removals[i]);
    }
  }

  /** A worker that noticed a cancel has a plan that timed out, or whose removal is the engine's next scan step. */
  lemma NoticedIsTimedOut(j: System, id: PlanId)
    requires Sound(j) && Final(j.engine) && Accounted(j.engine) && Launched(j.engine.sent, id)
    requires !TimedOut(j.engine.removals, id)
    requires id in j.workers && j.workers[id].noticed < |j.workers[id].plan.legs|
    ensures id in j.engine.inflight
  {
    hide Launched, ReportsOn, Linked, Employed, Final;
    assert WorkerSound(j, id, j.workers[id]);
    var i :| 0 <= i < |j.engine.cancelRequests| && j.engine.cancelRequests[i] == id;
    NotRolledBack(j.engine, id);
    assert Cancels(j.engine.monitor, id);
  }

  lemma NotRolledBack(s: State, id: PlanId)
    requires Accounted(s) && Launched(s.sent, id)
    ensures !RolledBack(s.removals, id)
  {
    hide Launched;
  }

  /**
   The composed system's main result: in every run, a sent plan is in flight exactly until it times
   out or the report on its last leg is handled. No other step, and no cancellation, removes it.
   */
  lemma InFlightUntilLastReport(cfg: StrategyConfig, moves: seq<Move>, id: PlanId)
    requires Run(cfg, moves).Some? && Launched(Run(cfg, moves).value.engine.sent, id)
    requires id in Run(cfg, moves).value.engine.plans ==> 0 < |Run(cfg, moves).value.engine.plans[id].legs| <= 256
    ensures var s := Run(cfg, moves).value.engine;
            && id in s.plans
            && (id in s.inflight <==> !TimedOut(s.removals, id) && |ReportsOn(s.handled, id)| < |s.plans[id].legs|)
  {
    hide Run, Exec, Launched, ReportsOn, MockReports, Orderly, TimedOut, OnlyByReport, Accounted, Sound, Final;
    EngineRunIsOrderly(cfg, moves);
    var j, acts := Run(cfg, moves).value, EngineRun(cfg, moves);
    FinalInvariant(cfg, acts);
    AccountedInvariant(cfg, acts);
    HandledIsMock(cfg, moves, id);
    var m := |ReportsOn(j.engine.handled, id)|;
    if TimedOut(j.engine.removals, id) {
      SettledIsGone(j.engine, id);
    } else {
      LeavesByReport(j.engine, id);
      if NoticedAt(j, id) < |j.engine.plans[id].legs| {
        SentInvariant(cfg, acts);
        WorkersPlan(j, id);
        NoticedIsTimedOut(j, id);
        CancelledPlanLeavesAtCancel(cfg, acts, id, NoticedAt(j, id), m);
      } else {
        MockSame(j.engine.plans[id], NoticedAt(j, id), |j.engine.plans[id].legs|, m);
        PlanCompletesOnLastLeg(cfg, acts, id, m);
      }
    }
  }

  lemma WorkersPlan(j: System, id: PlanId)
    requires Sound(j) && DetectorAhead(j.engine) && id in j.workers
    ensures id in j.engine.plans && j.workers[id].plan == j.engine.plans[id]
  {
    EmployedPlan(j, id);
  }

  /** Every removal by a report is by a Filled report that left every leg covered. */
  lemma ReportsRemoveOnlyFilled(cfg: StrategyConfig, moves: seq<Move>)
    requires Run(cfg, moves).Some?
    ensures var s := Run(cfg, moves).value.engine;
            && (forall i :: 0 <= i < |s.removals| && s.removals[i].cause.ByReport? ==>
                  && s.removals[i].cause.report.status.Filled?
                  && Covered(s.removals[i].plan, ReportsOn(s.handled, s.removals[i].plan.id)))
            && s.executed + s.monitor.Window() == CountCause(s.removals, false)
  {
    hide Run, Exec, Orderly, Covered, ReportsOn, ExecutorSound, Linked;
    EngineRunIsOrderly(cfg, moves);
    LedgerIsExact(cfg, EngineRun(cfg, moves));
    RemovalsCountedOnce(cfg, EngineRun(cfg, moves));
  }

  /** The executor has finished and everything it sent has been handled. */
  predicate Drained(j: System) {
    && j.accepted == |j.engine.sent|
    && (forall id :: id in j.workers ==> j.workers[id].phase.Finished?)
    && j.received == |j.reports| && !j.engine.monitor.Handling?
  }

  /** Once the executor is done and drained, no sent plan is left in flight. */
  lemma DrainedLeavesNothing(cfg: StrategyConfig, moves: seq<Move>, id: PlanId)
    requires Run(cfg, moves).Some? && Launched(Run(cfg, moves).value.engine.sent, id) && Drained(Run(cfg, moves).value)
    requires id in Run(cfg, moves).value.engine.plans ==> 0 < |Run(cfg, moves).value.engine.plans[id].legs| <= 256
    ensures id !in Run(cfg, moves).value.engine.inflight
  {
    hide Run, Exec, Launched, ReportsOn, MockReports, Orderly, TimedOut, Final;
    InFlightUntilLastReport(cfg, moves, id);
    EngineRunIsOrderly(cfg, moves);
    SentInvariant(cfg, EngineRun(cfg, moves));
    var j := Run(cfg, moves).value;
    assert j.engine.sent[..j.accepted] == j.engine.sent;
    AllEmployed(j, id);
    EmployedPlan(j, id);
    assert HandledOf(j, id) && WorkerSound(j, id, j.workers[id]);
    assert j.reports[..HandledSoFar(j)] == j.reports;
  }

  lemma AllEmployed(j: System, id: PlanId)
    requires Employed(j) && j.accepted == |j.engine.sent| && Launched(j.engine.sent, id)
    ensures id in j.workers
  {
    var i :| 0 <= i < |j.engine.sent| && j.engine.sent[i].id == id;
  }

  lemma GoneStays(cfg: StrategyConfig, s: State, a: Action, id: PlanId)
    requires Enabled(s, a) && Final(s) && id in s.plans && id !in s.inflight
    ensures var s' := Do(cfg, s, a);
            id in s'.plans && id !in s'.inflight && ReportsOn(s'.handled, id) == ReportsOn(s.handled, id)
  {
    hide ReportsOn, AfterReport, Removes, CancelsAfterReport;
    NoReturn(cfg, s, a);
    assert id in s.plans.Keys;
    match a {
      case Apply =>
        if s.monitor.report.planId in s.inflight {
          OneMoreReport(s.handled, s.monitor.report, id);
        }
      case Register =>
      case _ => OtherFrame(cfg, s, a);
    }
  }

  /**
   The executor's reports on a plan that has left, fills and cancellations alike, change nothing
   about it ever after.
   */
  lemma {:induction false} LateReportsChangeNothing(cfg: StrategyConfig, moves: seq<Move>, more: seq<Move>, id: PlanId)
    requires Run(cfg, moves + more).Some?
    ensures Run(cfg, moves).Some?
    ensures var s, s' := Run(cfg, moves).value.engine, Run(cfg, moves + more).value.engine;
            id in s.plans && id !in s.inflight ==>
              id in s'.plans && id !in s'.inflight && ReportsOn(s'.handled, id) == ReportsOn(s.handled, id)
  {
    hide Run, Moved, Possible, ReportsOn, Sound, Do, Enabled, Exec, Orderly, Final;
    if more == [] {
      assert moves + more == moves;
    } else {
      var n, all := |more| - 1, moves + more;
      assert all[..|all| - 1] == moves + more[..n];
      EngineRunStep(cfg, all);
      LateReportsChangeNothing(cfg, moves, more[..n], id);
      EngineRunIsOrderly(cfg, moves + more[..n]);
      FinalInvariant(cfg, EngineRun(cfg, moves + more[..n]));
      SentInvariant(cfg, EngineRun(cfg, moves + more[..n]));
      var j, s := Run(cfg, moves + more[..n]).value, Run(cfg, moves).value.engine;
      MoveSound(cfg, j, more[n]);
      if id in s.plans && id !in s.inflight {
        match ActionOf(j, more[n]) {
          case None =>
          case Some(a) => GoneStays(cfg, j.engine, a, id);
        }
      }
    }
  }
}
