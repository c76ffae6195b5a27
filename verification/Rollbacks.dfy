/**
 What a failed send can cost: over runs of `Protocol` in which reports are only about plans that
 were sent and nobody else removes plans, a rollback finds its plan gone only after a timeout.
 */
module Rollbacks {
  import opened Planner
  import opened Engine
  import opened Protocol

  predicate Launched(sent: seq<TradePlan>, id: PlanId) {
    exists i :: 0 <= i < |sent| && sent[i].id == id
  }

  predicate TimedOut(removals: seq<Removal>, id: PlanId) {
    exists i :: 0 <= i < |removals| && removals[i].plan.id == id && removals[i].cause.ByTimeout?
  }

  /** Allowed in an orderly run: no callers, and reports only about plans that were sent. */
  predicate OrderlyStep(s: State, a: Action) {
    !a.CallerRemove? && (a.Receive? ==> Launched(s.sent, a.report.planId))
  }

  predicate Orderly(cfg: StrategyConfig, acts: seq<Action>) {
    if acts == [] then true
    else
      var before := acts[..|acts| - 1];
      Orderly(cfg, before) && Exec(cfg, before).Some? && OrderlyStep(Exec(cfg, before).value, acts[|acts| - 1])
  }

  /** The plan the detector has registered without having sent it. */
  predicate Unsent(d: Detector, id: PlanId) { (d.Registered? || d.SendFailed?) && d.plan.id == id }

  /** Reports remove only sent plans, callers none, and a rollback only an unsent plan the detector is done with. */
  predicate Caused(s: State, r: Removal) {
    match r.cause
    case ByReport(_) => Launched(s.sent, r.plan.id)
    case ByTimeout => true
    case ByCaller => false
    case ByRollback => !Unsent(s.detector, r.plan.id) && !Launched(s.sent, r.plan.id)
  }

  /** The detector's plan is not sent yet, and every sent plan is a registered one, sent once. */
  predicate DetectorAhead(s: State) {
    && (s.detector.Planned? || s.detector.Registered? || s.detector.SendFailed? ==>
         !Launched(s.sent, s.detector.plan.id))
    && (s.detector.Registered? || s.detector.SendFailed? ==>
          s.detector.plan.id in s.plans && s.plans[s.detector.plan.id] == s.detector.plan)
    && (s.monitor.Handling? ==> Launched(s.sent, s.monitor.report.planId))
    && (forall i :: 0 <= i < |s.sent| ==> s.sent[i].id in s.plans && s.plans[s.sent[i].id] == s.sent[i])
    && (forall i, j :: 0 <= i < j < |s.sent| ==> s.sent[i].id != s.sent[j].id)
  }

  predicate LostAreTimeouts(s: State) {
    && (forall i :: 0 <= i < |s.lost| ==>
          && s.lost[i] in s.plans && TimedOut(s.removals, s.lost[i])
          && !Launched(s.sent, s.lost[i]) && !Unsent(s.detector, s.lost[i]))
    && (forall i, j :: 0 <= i < j < |s.lost| ==> s.lost[i] != s.lost[j])
  }

  /**
   Every plan in the map was sent or is the detector's, and every one that timed out was sent, is the
   detector's or is lost.
   */
  predicate Tracked(s: State) {
    && (forall id :: id in s.inflight ==> Launched(s.sent, id) || Unsent(s.detector, id))
    && (forall i :: 0 <= i < |s.removals| && s.removals[i].cause.ByTimeout? ==> Followed(s, s.removals[i].plan.id))
  }

  predicate Followed(s: State, id: PlanId) {
    Launched(s.sent, id) || Unsent(s.detector, id) || id in s.lost
  }

  predicate Accounted(s: State) {
    && DetectorAhead(s)
    && LostAreTimeouts(s)
    && Tracked(s)
    && (forall i :: 0 <= i < |s.removals| ==> Caused(s, s.removals[i]))
  }

  // ----- one step -----

  lemma LaunchedGrows(sent: seq<TradePlan>, more: seq<TradePlan>, id: PlanId)
    requires sent <= more && Launched(sent, id)
    ensures Launched(more, id)
  {
    var i :| 0 <= i < |sent| && sent[i].id == id;
    assert more[i].id == id;
  }

  lemma TimedOutGrows(removals: seq<Removal>, more: seq<Removal>, id: PlanId)
    requires removals <= more && TimedOut(removals, id)
    ensures TimedOut(more, id)
  {
    var i :| 0 <= i < |removals| && removals[i].plan.id == id && removals[i].cause.ByTimeout?;
    assert more[i].plan.id == id;
  }

  /**
   At most one removal more, with its cause in order, and nothing registered before becomes the
   detector's unsent plan.
   */
  predicate Follows(s: State, s': State) {
    && s.plans.Keys <= s'.plans.Keys && s.sent <= s'.sent
    && (forall i :: |s.sent| <= i < |s'.sent| ==> Unsent(s.detector, s'.sent[i].id))
    && s.removals <= s'.removals && |s'.removals| <= |s.removals| + 1
    && (|s'.removals| > |s.removals| ==> Caused(s', s'.removals[|s.removals|]))
    && (forall id :: id in s.plans && Unsent(s'.detector, id) ==> Unsent(s.detector, id))
  }

  lemma CausesKept(s: State, s': State)
    requires Final(s) && Accounted(s) && Follows(s, s')
    ensures forall i :: 0 <= i < |s'.removals| ==> Caused(s', s'.removals[i])
  {
    hide Launched, TimedOut, DetectorAhead, LostAreTimeouts;
    forall i | 0 <= i < |s'.removals| ensures Caused(s', s'.removals[i]) {
      if i < |s.removals| {
        assert s'.removals[i] == s.removals[i] && Caused(s, s.removals[i]) && RemovedProperly(s, s.removals[i]);
        if s.removals[i].cause.ByReport? {
          LaunchedGrows(s.sent, s'.sent, s.removals[i].plan.id);
        } else if Launched(s'.sent, s.removals[i].plan.id) {
          LaunchedNow(s, s', s.removals[i].plan.id);
        }
      }
    }
  }

  lemma LostKept(s: State, s': State)
    requires Accounted(s) && Follows(s, s') && s'.lost == s.lost
    ensures LostAreTimeouts(s')
  {
    hide Launched, TimedOut, DetectorAhead, Caused, Follows, Unsent, Tracked;
    forall i | 0 <= i < |s'.lost|
      ensures s'.lost[i] in s'.plans && TimedOut(s'.removals, s'.lost[i])
      ensures !Launched(s'.sent, s'.lost[i]) && !Unsent(s'.detector, s'.lost[i])
    {
      FollowsPlan(s, s', s.lost[i]);
      TimedOutGrows(s.removals, s'.removals, s.lost[i]);
      if Launched(s'.sent, s.lost[i]) {
        LaunchedNow(s, s', s.lost[i]);
      }
    }
  }

  lemma FollowsPlan(s: State, s': State, id: PlanId)
    requires Follows(s, s') && id in s.plans
    ensures id in s'.plans && s.removals <= s'.removals && (Unsent(s'.detector, id) ==> Unsent(s.detector, id))
  {
    assert id in s.plans.Keys;
  }

  lemma LaunchedNow(s: State, s': State, id: PlanId)
    requires Follows(s, s') && Launched(s'.sent, id)
    ensures Launched(s.sent, id) || Unsent(s.detector, id)
  {
    var i :| 0 <= i < |s'.sent| && s'.sent[i].id == id;
    if i < |s.sent| {
      assert s.sent[i] == s'.sent[i];
    }
  }

  /** A plan registered, never sent and no longer in the map has timed out. */
  lemma GoneUnsentTimedOut(s: State)
    requires Final(s) && Accounted(s) && s.detector.SendFailed? && s.detector.plan.id !in s.inflight
    ensures TimedOut(s.removals, s.detector.plan.id)
  {
    var id := s.detector.plan.id;
    var i :| 0 <= i < |s.removals| && s.removals[i].plan.id == id;
    assert Caused(s, s.removals[i]);
  }

  lemma RollbackFollows(cfg: StrategyConfig, s: State)
    requires Enabled(s, Rollback) && Final(s) && DetectorAhead(s)
    ensures Follows(s, Do(cfg, s, Rollback))
  {
    hide Launched;
  }

  lemma RollbackAccounted(cfg: StrategyConfig, s: State)
    requires Enabled(s, Rollback) && Final(s) && Accounted(s)
    ensures Accounted(Do(cfg, s, Rollback))
  {
    hide Launched, TimedOut, Final, Follows, DetectorAhead, Caused, LostAreTimeouts, Tracked, Do, Enabled;
    var s' := Do(cfg, s, Rollback);
    RollbackFollows(cfg, s);
    CausesKept(s, s');
    StaysAhead(cfg, s, Rollback);
    RollbackLoses(cfg, s);
    RollbackTracked(cfg, s);
  }

  lemma RollbackTracked(cfg: StrategyConfig, s: State)
    requires Enabled(s, Rollback) && Final(s) && Tracked(s)
    ensures Tracked(Do(cfg, s, Rollback))
  {
    hide Launched, WasRemoved;
    var id, s' := s.detector.plan.id, Do(cfg, s, Rollback);
    forall i | 0 <= i < |s'.removals| && s'.removals[i].cause.ByTimeout? ensures Followed(s', s'.removals[i].plan.id) {
      assert s'.removals[i] == s.removals[i] && RemovedProperly(s, s.removals[i]) && Followed(s, s.removals[i].plan.id);
    }
  }

  lemma RollbackLoses(cfg: StrategyConfig, s: State)
    requires Enabled(s, Rollback) && Final(s) && Accounted(s) && Follows(s, Do(cfg, s, Rollback))
    ensures LostAreTimeouts(Do(cfg, s, Rollback))
  {
    hide Launched, TimedOut, Final, Follows;
    if s.detector.plan.id in s.inflight {
      LostKept(s, Do(cfg, s, Rollback));
    } else {
      GoneUnsentTimedOut(s);
    }
  }

  lemma AccountedStep(cfg: StrategyConfig, s: State, a: Action)
    requires Enabled(s, a) && Final(s) && Accounted(s) && OrderlyStep(s, a)
    ensures Accounted(Do(cfg, s, a))
  {
    hide TimedOut, LostAreTimeouts, Tracked, DetectorAhead, Caused, Final, Follows, Launched;
    if a.Rollback? {
      RollbackAccounted(cfg, s);
    } else {
      var s' := Do(cfg, s, a);
      StepFollows(cfg, s, a);
      CausesKept(s, s');
      LostKept(s, s');
      StaysAhead(cfg, s, a);
      StaysTracked(cfg, s, a);
    }
  }

  /** Nobody enters the map, the detector's plan stays its own until sent, and only plans of the map time out. */
  lemma TrackedKept(s: State, s': State)
    requires Tracked(s) && Shrinks(s, s')
    requires forall id :: Unsent(s.detector, id) ==> Unsent(s'.detector, id) || Launched(s'.sent, id)
    ensures Tracked(s')
  {
    hide Launched, Unsent;
    forall id | Launched(s.sent, id) ensures Launched(s'.sent, id) {
      LaunchedGrows(s.sent, s'.sent, id);
    }
    forall id | id in s'.inflight ensures Launched(s'.sent, id) || Unsent(s'.detector, id) {
      assert id in s.inflight.Keys;
    }
    forall i | 0 <= i < |s'.removals| && s'.removals[i].cause.ByTimeout? ensures Followed(s', s'.removals[i].plan.id) {
      if i < |s.removals| {
        assert s'.removals[i] == s.removals[i] && Followed(s, s.removals[i].plan.id);
      }
    }
  }

  lemma StaysTracked(cfg: StrategyConfig, s: State, a: Action)
    requires Enabled(s, a) && Final(s) && Accounted(s) && OrderlyStep(s, a) && !a.Rollback?
    ensures Tracked(Do(cfg, s, a))
  {
    hide Tracked, Launched, Caused, DetectorAhead, LostAreTimeouts, Do, Enabled;
    var s' := Do(cfg, s, a);
    match a {
      case Register => RegisterTracked(cfg, s);
      case _ =>
        MapShrinks(cfg, s, a);
        UnsentStays(cfg, s, a);
        TrackedKept(s, s');
    }
  }

  lemma RegisterTracked(cfg: StrategyConfig, s: State)
    requires Enabled(s, Register) && Tracked(s)
    ensures Tracked(Do(cfg, s, Register))
  {
    hide Launched, WellFormed;
    var s' := Do(cfg, s, Register);
    forall i | 0 <= i < |s'.removals| && s'.removals[i].cause.ByTimeout? ensures Followed(s', s'.removals[i].plan.id) {
      assert Followed(s, s.removals[i].plan.id);
    }
  }

  /** The map only shrinks, and a new removal record is of a plan that was in it. */
  predicate Shrinks(s: State, s': State) {
    && s'.inflight.Keys <= s.inflight.Keys && s'.lost == s.lost && s.sent <= s'.sent
    && s.removals <= s'.removals && |s'.removals| <= |s.removals| + 1
    && (|s'.removals| > |s.removals| ==> s'.removals[|s.removals|].plan.id in s.inflight)
  }

  lemma DropShrinks(s: State, id: PlanId, cause: Cause)
    requires Final(s)
    ensures Shrinks(s, Drop(s, id, cause))
  {
    hide Final;
    if id in s.inflight {
      PlanCarriesId(s, id);
    }
  }

  lemma PlanCarriesId(s: State, id: PlanId)
    requires Final(s) && id in s.inflight
    ensures s.inflight[id].plan.id == id
  {
    hide WasRemoved, RemovedProperly;
  }

  lemma ApplyShrinks(cfg: StrategyConfig, s: State)
    requires Enabled(s, Apply) && Final(s)
    ensures Shrinks(s, Do(cfg, s, Apply))
  {
    hide AfterReport, Removes, CancelsAfterReport, Final;
    var s', r := Do(cfg, s, Apply), s.monitor.report;
    AfterReportSize(s.inflight, r);
    if Removes(s.inflight, r) {
      PlanCarriesId(s, r.planId);
      assert s'.removals == s.removals + [Removal(s.inflight[r.planId].plan, ByReport(r))];
    }
  }

  lemma MapShrinks(cfg: StrategyConfig, s: State, a: Action)
    requires Enabled(s, a) && Final(s) && !a.Register? && !a.Rollback?
    ensures Shrinks(s, Do(cfg, s, a))
  {
    hide Drop, Final, WellFormed, OverdueIds, Enumerates;
    match a {
      case Apply => ApplyShrinks(cfg, s);
      case RemoveOverdue => DropShrinks(s, s.monitor.todo[s.monitor.k], ByTimeout);
      case CallerRemove(id) => DropShrinks(s, id, ByCaller);
      case _ => QuietFrame(cfg, s, a);
    }
  }

  lemma UnsentStays(cfg: StrategyConfig, s: State, a: Action)
    requires Enabled(s, a) && !a.Rollback?
    ensures forall id :: Unsent(s.detector, id) ==>
            Unsent(Do(cfg, s, a).detector, id) || Launched(Do(cfg, s, a).sent, id)
  {
    hide AfterReport, Removes, CancelsAfterReport, WellFormed, OverdueIds, Enumerates, Launched;
    if a == Send(true) {
      LaunchedLast(Do(cfg, s, a).sent, |s.sent|);
      assert Do(cfg, s, a).sent[..|s.sent| + 1] == Do(cfg, s, a).sent;
    }
  }

  lemma LaunchedLast(sent: seq<TradePlan>, n: nat)
    requires n < |sent|
    ensures Launched(sent[..n + 1], sent[n].id)
  {
    assert sent[..n + 1][n] == sent[n];
  }

  /** Only registering gives the detector an unsent plan it did not have, and only sending hands one over. */
  lemma DetectorMoves(cfg: StrategyConfig, s: State, a: Action)
    requires Enabled(s, a) && !a.Register?
    ensures var s' := Do(cfg, s, a);
            && (s'.detector.Registered? || s'.detector.SendFailed? ==>
                  (s.detector.Registered? || s.detector.SendFailed?) && s'.detector.plan == s.detector.plan)
            && (s'.detector.Planned? ==> s'.detector == s.detector || s'.detector.plan.id !in s.plans)
  {
    hide AfterReport, Removes, CancelsAfterReport, WellFormed, OverdueIds, Enumerates, Drop;
    match a {
      case Rollback =>
      case RemoveOverdue => DropKeepsDetector(s, s.monitor.todo[s.monitor.k], ByTimeout);
      case CallerRemove(id) => DropKeepsDetector(s, id, ByCaller);
      case _ =>
    }
  }

  lemma DropKeepsDetector(s: State, id: PlanId, cause: Cause)
    ensures Drop(s, id, cause).detector == s.detector
  {
  }

  lemma SentMoves(cfg: StrategyConfig, s: State, a: Action)
    requires Enabled(s, a) && !a.Register?
    ensures Do(cfg, s, a).plans == s.plans
    ensures !a.Send? ==> Do(cfg, s, a).sent == s.sent
    ensures a.Send? ==> s.detector.Registered? && Do(cfg, s, a).sent == s.sent + if a.ok then [s.detector.plan] else []
  {
    hide AfterReport, Removes, CancelsAfterReport, WellFormed, OverdueIds, Enumerates;
  }

  lemma StepFollows(cfg: StrategyConfig, s: State, a: Action)
    requires Enabled(s, a) && Final(s) && Accounted(s) && OrderlyStep(s, a) && !a.Rollback?
    ensures Follows(s, Do(cfg, s, a)) && Do(cfg, s, a).lost == s.lost
  {
    hide Follows, Accounted, Final, Launched;
    match a {
      case Register => RegisterFollows(cfg, s);
      case Apply => ApplyFollows(cfg, s);
      case RemoveOverdue => RemovalFollows(cfg, s);
      case _ => QuietFollows(cfg, s, a);
    }
  }

  lemma RemovalFollows(cfg: StrategyConfig, s: State)
    requires Enabled(s, RemoveOverdue)
    ensures Follows(s, Do(cfg, s, RemoveOverdue)) && Do(cfg, s, RemoveOverdue).lost == s.lost
  {
    hide Launched;
  }

  lemma QuietFollows(cfg: StrategyConfig, s: State, a: Action)
    requires Enabled(s, a) && Quiet(a)
    ensures Follows(s, Do(cfg, s, a)) && Do(cfg, s, a).lost == s.lost
  {
    hide Do, Launched, Enabled;
    QuietFrame(cfg, s, a);
    DetectorMoves(cfg, s, a);
    SentMoves(cfg, s, a);
  }

  lemma RegisterFollows(cfg: StrategyConfig, s: State)
    requires Enabled(s, Register) && Final(s) && Accounted(s)
    ensures Follows(s, Do(cfg, s, Register)) && Do(cfg, s, Register).lost == s.lost
  {
    hide TimedOut, LostAreTimeouts, Launched, WellFormed;
  }

  lemma ApplyFollows(cfg: StrategyConfig, s: State)
    requires Enabled(s, Apply) && Final(s) && Accounted(s)
    ensures Follows(s, Do(cfg, s, Apply)) && Do(cfg, s, Apply).lost == s.lost
  {
    hide TimedOut, LostAreTimeouts, AfterReport, CancelsAfterReport, Launched, Finishes;
    DetectorMoves(cfg, s, Apply);
    SentMoves(cfg, s, Apply);
  }

  lemma StaysAhead(cfg: StrategyConfig, s: State, a: Action)
    requires Enabled(s, a) && DetectorAhead(s) && OrderlyStep(s, a)
    ensures DetectorAhead(Do(cfg, s, a))
  {
    hide DetectorAhead, Launched, Do, Enabled, Unsent;
    var s' := Do(cfg, s, a);
    match a {
      case Register => RegisterStaysAhead(cfg, s);
      case Send(ok) => SendStaysAhead(cfg, s, ok);
      case _ =>
        DetectorMoves(cfg, s, a);
        SentMoves(cfg, s, a);
        ReportHeld(cfg, s, a);
        AheadKept(s, s');
    }
  }

  /** Nothing new is registered or sent, and the detector keeps its plan or takes an unused one. */
  lemma AheadKept(s: State, s': State)
    requires DetectorAhead(s) && s'.plans == s.plans && s'.sent == s.sent
    requires s'.detector.Planned? ==> s'.detector == s.detector || s'.detector.plan.id !in s.plans
    requires s'.detector.Registered? || s'.detector.SendFailed? ==>
               (s.detector.Registered? || s.detector.SendFailed?) && s'.detector.plan == s.detector.plan
    requires s'.monitor.Handling? ==> Launched(s.sent, s'.monitor.report.planId)
    ensures DetectorAhead(s')
  {
    hide Launched;
    if s'.detector.Planned? && s'.detector.plan.id !in s.plans {
      NotLaunched(s, s'.detector.plan.id);
    }
  }

  lemma ReportHeld(cfg: StrategyConfig, s: State, a: Action)
    requires Enabled(s, a) && DetectorAhead(s) && OrderlyStep(s, a)
    ensures Do(cfg, s, a).monitor.Handling? ==> Launched(s.sent, Do(cfg, s, a).monitor.report.planId)
  {
    hide Launched, AfterReport, Removes, CancelsAfterReport, WellFormed, OverdueIds, Enumerates;
  }

  lemma RegisterStaysAhead(cfg: StrategyConfig, s: State)
    requires Enabled(s, Register) && DetectorAhead(s)
    ensures DetectorAhead(Do(cfg, s, Register))
  {
    hide Launched, WellFormed;
    NoneLaunched(s.sent, s.detector.plan.id);
  }

  lemma NotLaunched(s: State, id: PlanId)
    requires DetectorAhead(s) && id !in s.plans
    ensures !Launched(s.sent, id)
  {
  }

  lemma NoneLaunched(sent: seq<TradePlan>, id: PlanId)
    requires !Launched(sent, id)
    ensures forall i :: 0 <= i < |sent| ==> sent[i].id != id
  {
  }

  lemma SendStaysAhead(cfg: StrategyConfig, s: State, ok: bool)
    requires Enabled(s, Send(ok)) && DetectorAhead(s)
    ensures DetectorAhead(Do(cfg, s, Send(ok)))
  {
    hide Launched;
    NoneLaunched(s.sent, s.detector.plan.id);
    if s.monitor.Handling? {
      LaunchedGrows(s.sent, Do(cfg, s, Send(ok)).sent, s.monitor.report.planId);
    }
  }

  // ----- whole runs -----

  lemma {:induction false} AccountedInvariant(cfg: StrategyConfig, acts: seq<Action>)
    requires Exec(cfg, acts).Some? && Orderly(cfg, acts)
    ensures Accounted(Exec(cfg, acts).value)
  {
    hide Do, Enabled, Accounted, Final, OrderlyStep;
    if acts != [] {
      var before := acts[..|acts| - 1];
      AccountedInvariant(cfg, before);
      FinalInvariant(cfg, before);
      AccountedStep(cfg, Exec(cfg, before).value, acts[|acts| - 1]);
    } else {
      AccountedAtFirst();
    }
  }

  lemma AccountedAtFirst()
    ensures Accounted(INITIAL)
  {
  }

  lemma SentInvariant(cfg: StrategyConfig, acts: seq<Action>)
    requires Exec(cfg, acts).Some? && Orderly(cfg, acts)
    ensures DetectorAhead(Exec(cfg, acts).value)
  {
    AccountedInvariant(cfg, acts);
  }

  function TimeoutIds(removals: seq<Removal>): set<PlanId> {
    set i | 0 <= i < |removals| && removals[i].cause.ByTimeout? :: removals[i].plan.id
  }

  lemma NoTimeouts()
    ensures TimeoutIds([]) == {}
  {
  }

  lemma TimeoutsOneMore(removals: seq<Removal>)
    requires removals != []
    ensures var n := |removals| - 1;
            TimeoutIds(removals) == TimeoutIds(removals[..n]) +
                if removals[n].cause.ByTimeout? then {removals[n].plan.id} else {}
  {
  }

  lemma {:induction false} TimeoutsCounted(removals: seq<Removal>)
    ensures |TimeoutIds(removals)| <= CountCause(removals, true)
  {
    hide TimeoutIds;
    NoTimeouts();
    if removals != [] {
      TimeoutsCounted(removals[..|removals| - 1]);
      TimeoutsOneMore(removals);
    }
  }

  lemma SubsetSize<T>(a: set<T>, b: set<T>)
    requires a <= b
    ensures |a| <= |b|
  {
    assert b == a + (b - a);
  }

  /** The plans lost are exactly the timed-out ones that were never sent and that the detector is done with. */
  lemma LostExactly(s: State, id: PlanId)
    requires Accounted(s)
    ensures id in s.lost <==> TimedOut(s.removals, id) && !Launched(s.sent, id) && !Unsent(s.detector, id)
  {
    hide Launched, DetectorAhead;
    if TimedOut(s.removals, id) {
      var i :| 0 <= i < |s.removals| && s.removals[i].plan.id == id && s.removals[i].cause.ByTimeout?;
      assert Followed(s, s.removals[i].plan.id);
    }
  }

  /**
   A rollback loses a plan exactly when its send failed and it had timed out, so the lost-rollback
   term never exceeds the cancelled counter, and no more plans are counted as executed than were
   submitted or are being.
   */
  lemma LostRollbacksAreTimeouts(cfg: StrategyConfig, acts: seq<Action>)
    requires Exec(cfg, acts).Some? && Orderly(cfg, acts)
    ensures var s := Exec(cfg, acts).value;
            && (forall id :: id in s.lost <==>
                  TimedOut(s.removals, id) && !Launched(s.sent, id) && !Unsent(s.detector, id))
            && (forall i :: 0 <= i < |s.removals| && s.removals[i].cause.ByReport? ==>
                  Launched(s.sent, s.removals[i].plan.id))
            && |s.lost| <= s.cancelled
            && s.executed + s.monitor.Window() <= s.submitted + s.detector.Window()
  {
    hide Exec, Orderly, Launched, Unsent;
    AccountedInvariant(cfg, acts);
    Conservation(cfg, acts);
    RemovalsCountedOnce(cfg, acts);
    var s := Exec(cfg, acts).value;
    forall id ensures id in s.lost <==> TimedOut(s.removals, id) && !Launched(s.sent, id) && !Unsent(s.detector, id) {
      LostExactly(s, id);
    }
    forall i | 0 <= i < |s.removals| && s.removals[i].cause.ByReport? ensures Launched(s.sent, s.removals[i].plan.id) {
      assert Caused(s, s.removals[i]);
    }
    DistinctCount(s.lost);
    TimeoutsCounted(s.removals);
    LostAmongTimeouts(s);
    SubsetSize(set j | 0 <= j < |s.lost| :: s.lost[j], TimeoutIds(s.removals));
  }

  lemma LostAmongTimeouts(s: State)
    requires LostAreTimeouts(s)
    ensures (set j | 0 <= j < |s.lost| :: s.lost[j]) <= TimeoutIds(s.removals)
  {
    hide Launched, Unsent;
  }
}
