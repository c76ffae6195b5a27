/**
 What a symbol's event history says about its book, with no book in sight: the specification
 that the per-symbol worker of `crates/marketdata/src/manager.rs` is proved to refine.
 */
module EventLogs {
  import opened Wrappers
  import opened MarketTypes
  import opened Ladders
  import opened OrderBooks

  datatype WorkerConfig = WorkerConfig(maxBufferedDeltas: nat, maxAcceptableSequenceGap: u64)

  datatype SymbolMessage = SnapshotMessage(snapshot: OrderbookSnapshot) | DeltaMessage(delta: OrderbookDelta)

  /** One received message, with what the snapshot provider answers should the worker ask it. */
  datatype Input = Input(msg: SymbolMessage, fetched: Option<OrderbookSnapshot>)

  /** What became of a delivery. */
  datatype Event =
    | Snapped(snapshot: OrderbookSnapshot)
    | Accepted(delta: OrderbookDelta)
    | Refused(delta: OrderbookDelta)
    | Buffered(delta: OrderbookDelta)
    | Overflowed(delta: OrderbookDelta) // arrived at a full buffer: dropped along with it
  {
    predicate Applied() { Snapped? || Accepted? }
  }

  type Log = seq<Event>

  // ----- readings of a log -----

  predicate HasSnapshot(log: Log) {
    exists i :: 0 <= i < |log| && log[i].Snapped?
  }

  function SequenceStep(sequence: Option<u64>, e: Event): Option<u64> {
    match e
    case Snapped(s) => s.sequence
    case Accepted(d) => d.sequence
    case _ => sequence
  }

  function Sequence(log: Log): Option<u64> {
    if log == [] then None else SequenceStep(Sequence(log[..|log| - 1]), log[|log| - 1])
  }

  function WritesStep(writes: seq<Level>, e: Event, side: Side): seq<Level> {
    match e
    case Snapped(s) => PositiveOnly(if side == Bid then s.bids else s.asks)
    case Accepted(d) => writes + if side == Bid then d.bids else d.asks
    case _ => writes
  }

  /** Every write to a side since the last snapshot: its positive levels, then each accepted delta. */
  function Writes(log: Log, side: Side): seq<Level> {
    if log == [] then [] else WritesStep(Writes(log[..|log| - 1], side), log[|log| - 1], side)
  }

  function WaitingStep(waiting: seq<OrderbookDelta>, e: Event): seq<OrderbookDelta> {
    match e
    case Buffered(d) => waiting + [d]
    case Snapped(_) => []
    case Overflowed(_) => []
    case _ => waiting
  }

  function Waiting(log: Log): seq<OrderbookDelta> {
    if log == [] then [] else WaitingStep(Waiting(log[..|log| - 1]), log[|log| - 1])
  }

  /** A refused delta came after the last successful apply. */
  predicate NeedsResync(log: Log) {
    exists i :: 0 <= i < |log| && log[i].Refused? && forall j :: i < j < |log| ==> !log[j].Applied()
  }

  /** The ladder entry for one price is the last write to it, a zero write meaning absent. */
  predicate ReadsAt(l: Ladder, writes: seq<Level>, p: real) {
    match LastWrite(writes, p)
    case None => p !in l
    case Some(z) => (p in l <==> z != 0.0) && (z != 0.0 ==> l[p] == z)
  }

  ghost predicate Reads(l: Ladder, writes: seq<Level>) {
    forall p :: ReadsAt(l, writes, p)
  }

  // ----- how deliveries extend a log -----

  function Fetched(snapshot: Option<OrderbookSnapshot>): Log {
    match snapshot
    case None => []
    case Some(s) => [Snapped(s)]
  }

  function Extend(cfg: WorkerConfig, log: Log, input: Input): Log {
    match input.msg
    case SnapshotMessage(s) => log + [Snapped(s)]
    case DeltaMessage(d) =>
      if !HasSnapshot(log) then
        if |Waiting(log)| >= cfg.maxBufferedDeltas then log + [Overflowed(d)] + Fetched(input.fetched)
        else log + [Buffered(d)]
      else if WithinGap(Sequence(log), d.prevSequence, cfg.maxAcceptableSequenceGap) then log + [Accepted(d)]
      else log + [Refused(d)] + Fetched(input.fetched)
  }

  function History(cfg: WorkerConfig, first: Option<OrderbookSnapshot>, inputs: seq<Input>): Log {
    if inputs == [] then Fetched(first)
    else Extend(cfg, History(cfg, first, inputs[..|inputs| - 1]), inputs[|inputs| - 1])
  }

  // ----- one event at a time -----

  lemma AfterEvent(log: Log, e: Event)
    ensures HasSnapshot(log + [e]) <==> HasSnapshot(log) || e.Snapped?
    ensures NeedsResync(log + [e]) <==> e.Refused? || (NeedsResync(log) && !e.Applied())
    ensures Sequence(log + [e]) == SequenceStep(Sequence(log), e)
    ensures Waiting(log + [e]) == WaitingStep(Waiting(log), e)
    ensures forall side :: Writes(log + [e], side) == WritesStep(Writes(log, side), e, side)
  {
    var after, n := log + [e], |log|;
    assert after[..n] == log && after[n] == e;
    if HasSnapshot(log) {
      var i :| 0 <= i < n && log[i].Snapped?;
      assert after[i].Snapped?;
    }
    ResyncAfterEvent(log, e);
  }

  lemma ResyncAfterEvent(log: Log, e: Event)
    ensures NeedsResync(log + [e]) <==> e.Refused? || (NeedsResync(log) && !e.Applied())
  {
    var after, n := log + [e], |log|;
    assert after[n] == e && forall j :: 0 <= j < n ==> after[j] == log[j];
    if NeedsResync(log) && !e.Applied() {
      var i :| 0 <= i < n && log[i].Refused? && forall j :: i < j < n ==> !log[j].Applied();
      assert after[i].Refused? && forall j :: i < j < |after| ==> !after[j].Applied();
    }
    if NeedsResync(after) && !e.Refused? {
      var i :| 0 <= i < |after| && after[i].Refused? && forall j :: i < j < |after| ==> !after[j].Applied();
      assert log[i].Refused? && forall j :: i < j < n ==> !log[j].Applied();
    }
  }

  // ----- what every history satisfies -----

  /** Invariants of every reachable log, all of them about the worker's own variables. */
  ghost predicate Sound(cfg: WorkerConfig, log: Log) {
    && |Waiting(log)| <= cfg.maxBufferedDeltas
    && (HasSnapshot(log) ==> Waiting(log) == [])
    && (!HasSnapshot(log) ==>
          && Writes(log, Bid) == [] && Writes(log, Ask) == []
          && Sequence(log) == None && !NeedsResync(log))
  }

  lemma FetchKeepsSound(cfg: WorkerConfig, log: Log, fetched: Option<OrderbookSnapshot>)
    requires Sound(cfg, log)
    ensures Sound(cfg, log + Fetched(fetched))
  {
    match fetched
    case None => assert log + [] == log;
    case Some(s) => AfterEvent(log, Snapped(s));
  }

  lemma ExtendKeepsSound(cfg: WorkerConfig, log: Log, input: Input)
    requires Sound(cfg, log)
    ensures Sound(cfg, Extend(cfg, log, input))
  {
    hide HasSnapshot, Waiting, Writes, NeedsResync, Sequence, WithinGap, Fetched;
    match input.msg
    case SnapshotMessage(s) => AfterEvent(log, Snapped(s));
    case DeltaMessage(d) =>
      if !HasSnapshot(log) {
        AfterEvent(log, Overflowed(d));
        AfterEvent(log, Buffered(d));
        FetchKeepsSound(cfg, log + [Overflowed(d)], input.fetched);
      } else {
        AfterEvent(log, Accepted(d));
        AfterEvent(log, Refused(d));
        FetchKeepsSound(cfg, log + [Refused(d)], input.fetched);
      }
  }

  lemma {:induction false} HistoryIsSound(cfg: WorkerConfig, first: Option<OrderbookSnapshot>, inputs: seq<Input>)
    ensures Sound(cfg, History(cfg, first, inputs))
  {
    if inputs == [] {
      FetchKeepsSound(cfg, [], first);
      assert [] + Fetched(first) == Fetched(first);
    } else {
      HistoryIsSound(cfg, first, inputs[..|inputs| - 1]);
      ExtendKeepsSound(cfg, History(cfg, first, inputs[..|inputs| - 1]), inputs[|inputs| - 1]);
    }
  }

  // ----- what becomes of each delivery -----

  /** Everything is as this snapshot says, and nothing waits or is asked for. */
  ghost predicate LoadedFrom(log: Log, s: OrderbookSnapshot) {
    && HasSnapshot(log) && Sequence(log) == s.sequence && Waiting(log) == [] && !NeedsResync(log)
    && Writes(log, Bid) == PositiveOnly(s.bids) && Writes(log, Ask) == PositiveOnly(s.asks)
  }

  /** Ladders and sequence are as before. */
  ghost predicate SameBook(before: Log, after: Log) {
    && Sequence(after) == Sequence(before) && HasSnapshot(after) == HasSnapshot(before)
    && Writes(after, Bid) == Writes(before, Bid) && Writes(after, Ask) == Writes(before, Ask)
  }

  /** Both sequence numbers are known and more than the tolerance apart, on either side. */
  predicate TooFar(last: Option<u64>, prev: Option<u64>, maxGap: u64) {
    last.Some? && prev.Some? && (prev.value - last.value > maxGap || last.value - prev.value > maxGap)
  }

  /** What a delta that arrives before any snapshot does: it waits, or empties a full buffer. */
  ghost predicate Holds(cfg: WorkerConfig, log: Log, d: OrderbookDelta, fetched: Option<OrderbookSnapshot>,
      after: Log) {
    if |Waiting(log)| < cfg.maxBufferedDeltas then
      SameBook(log, after) && Waiting(after) == Waiting(log) + [d] && !NeedsResync(after)
    else if fetched.Some? then LoadedFrom(after, fetched.value)
    else SameBook(log, after) && Waiting(after) == [] && !NeedsResync(after)
  }

  /** What a delta does once there is a snapshot: it is written, or refused for being too far off. */
  ghost predicate Sequences(cfg: WorkerConfig, log: Log, d: OrderbookDelta, fetched: Option<OrderbookSnapshot>,
                            after: Log)
  {
    if !TooFar(Sequence(log), d.prevSequence, cfg.maxAcceptableSequenceGap) then
      && Writes(after, Bid) == Writes(log, Bid) + d.bids && Writes(after, Ask) == Writes(log, Ask) + d.asks
      && Sequence(after) == d.sequence && HasSnapshot(after) && Waiting(after) == [] && !NeedsResync(after)
    else if fetched.Some? then LoadedFrom(after, fetched.value)
    else SameBook(log, after) && Waiting(after) == [] && NeedsResync(after)
  }

  /**
   Over every run, what one more delivery does. A snapshot is loaded. Before any snapshot a delta
   waits, or finds the buffer full, empties it and asks the provider. Afterwards a delta is written
   unless its predecessor is too far from the sequence, and is then refused and the provider asked.
   A fetched snapshot is loaded, clearing any resync request; a failed fetch after a refusal raises it.
   A run starts from the snapshot of the proactive fetch, or from nothing.
   */
  lemma DeliveryOutcome(cfg: WorkerConfig, first: Option<OrderbookSnapshot>, inputs: seq<Input>, input: Input)
    ensures var log, after := History(cfg, first, inputs), History(cfg, first, inputs + [input]);
            if input.msg.SnapshotMessage? then LoadedFrom(after, input.msg.snapshot)
            else if !HasSnapshot(log) then Holds(cfg, log, input.msg.delta, input.fetched, after)
            else Sequences(cfg, log, input.msg.delta, input.fetched, after)
    ensures if first.Some? then LoadedFrom(History(cfg, first, []), first.value) else History(cfg, first, []) == []
  {
    hide HasSnapshot, Waiting, Writes, NeedsResync, Sequence, PositiveOnly, History;
    HistoryStarts(cfg, first);
    var log := History(cfg, first, inputs);
    HistoryIsSound(cfg, first, inputs);
    HistoryOfMore(cfg, first, inputs, input);
    match input.msg
    case SnapshotMessage(s) => AfterEvent(log, Snapped(s));
    case DeltaMessage(d) =>
      AfterEvent(log, Overflowed(d));
      AfterEvent(log, Buffered(d));
      AfterEvent(log, Accepted(d));
      AfterEvent(log, Refused(d));
      AfterFetch(log + [Overflowed(d)], input.fetched);
      AfterFetch(log + [Refused(d)], input.fetched);
  }

  lemma HistoryStarts(cfg: WorkerConfig, first: Option<OrderbookSnapshot>)
    ensures if first.Some? then LoadedFrom(History(cfg, first, []), first.value) else History(cfg, first, []) == []
  {
    AfterFetch([], first);
    assert [] + Fetched(first) == Fetched(first);
  }

  lemma HistoryOfMore(cfg: WorkerConfig, first: Option<OrderbookSnapshot>, inputs: seq<Input>, input: Input)
    ensures History(cfg, first, inputs + [input]) == Extend(cfg, History(cfg, first, inputs), input)
  {
    assert (inputs + [input])[..|inputs|] == inputs;
  }

  lemma AfterFetch(log: Log, fetched: Option<OrderbookSnapshot>)
    ensures fetched.None? ==> log + Fetched(fetched) == log
    ensures fetched.Some? ==> LoadedFrom(log + Fetched(fetched), fetched.value)
  {
    hide HasSnapshot, Waiting, Writes, NeedsResync, Sequence, PositiveOnly;
    match fetched
    case None => assert log + [] == log;
    case Some(s) => AfterEvent(log, Snapped(s));
  }

  predicate NonNegativeInputs(inputs: seq<Input>) {
    forall i :: 0 <= i < |inputs| && inputs[i].msg.DeltaMessage? ==> NonNegativeDelta(inputs[i].msg.delta)
  }

  ghost predicate NonNegativeWrites(log: Log) {
    forall side :: NonNegativeSizes(Writes(log, side))
  }

  lemma EventKeepsNonNegative(log: Log, e: Event)
    requires NonNegativeWrites(log) && (e.Accepted? ==> NonNegativeDelta(e.delta))
    ensures NonNegativeWrites(log + [e])
  {
    hide Writes, HasSnapshot, NeedsResync, Sequence, Waiting, PositiveOnly;
    AfterEvent(log, e);
  }

  lemma FetchKeepsNonNegative(log: Log, fetched: Option<OrderbookSnapshot>)
    requires NonNegativeWrites(log)
    ensures NonNegativeWrites(log + Fetched(fetched))
  {
    match fetched
    case None => assert log + [] == log;
    case Some(s) => EventKeepsNonNegative(log, Snapped(s));
  }

  lemma ExtendKeepsNonNegative(cfg: WorkerConfig, log: Log, input: Input)
    requires NonNegativeWrites(log) && (input.msg.DeltaMessage? ==> NonNegativeDelta(input.msg.delta))
    ensures NonNegativeWrites(Extend(cfg, log, input))
  {
    hide NonNegativeWrites, HasSnapshot, Sequence, Waiting, WithinGap, Fetched, NonNegativeDelta;
    match input.msg
    case SnapshotMessage(s) => EventKeepsNonNegative(log, Snapped(s));
    case DeltaMessage(d) =>
      EventKeepsNonNegative(log, Overflowed(d));
      EventKeepsNonNegative(log, Buffered(d));
      EventKeepsNonNegative(log, Accepted(d));
      EventKeepsNonNegative(log, Refused(d));
      FetchKeepsNonNegative(log + [Overflowed(d)], input.fetched);
      FetchKeepsNonNegative(log + [Refused(d)], input.fetched);
  }

  /** Without negative delta sizes no ladder ever holds a non-positive size. */
  lemma {:induction false} HistoryIsNonNegative(cfg: WorkerConfig, first: Option<OrderbookSnapshot>, inputs: seq<Input>)
    requires NonNegativeInputs(inputs)
    ensures NonNegativeWrites(History(cfg, first, inputs))
  {
    if inputs == [] {
      FetchKeepsNonNegative([], first);
      assert [] + Fetched(first) == Fetched(first);
    } else {
      HistoryIsNonNegative(cfg, first, inputs[..|inputs| - 1]);
      ExtendKeepsNonNegative(cfg, History(cfg, first, inputs[..|inputs| - 1]), inputs[|inputs| - 1]);
    }
  }

  /** The log with everything that was not applied struck out. */
  function OnlyApplied(log: Log): Log {
    if log == [] then []
    else OnlyApplied(log[..|log| - 1]) + if log[|log| - 1].Applied() then [log[|log| - 1]] else []
  }

  /** Refused, buffered and overflowed deltas contribute nothing to ladders or sequence. */
  lemma {:induction false} UnappliedContributeNothing(log: Log)
    ensures Sequence(OnlyApplied(log)) == Sequence(log)
    ensures forall side :: Writes(OnlyApplied(log), side) == Writes(log, side)
  {
    if log != [] {
      var rest, e := log[..|log| - 1], log[|log| - 1];
      UnappliedContributeNothing(rest);
      assert log == rest + [e];
      AfterEvent(rest, e);
      if e.Applied() {
        AfterEvent(OnlyApplied(rest), e);
      } else {
        assert OnlyApplied(log) == OnlyApplied(rest);
      }
    }
  }

  /** How much of a log a book still shows: everything up to the last applied event. */
  function LastApplied(log: Log): (k: nat)
    ensures k <= |log|
    ensures k > 0 ==> log[k - 1].Applied()
    ensures forall i :: k <= i < |log| ==> !log[i].Applied()
  {
    if log == [] then 0
    else if log[|log| - 1].Applied() then |log|
    else LastApplied(log[..|log| - 1])
  }

  /** Ladders and sequence are as the last successful apply left them. */
  lemma {:induction false} HeldSinceLastApplied(log: Log)
    ensures Sequence(log) == Sequence(log[..LastApplied(log)])
    ensures forall side :: Writes(log, side) == Writes(log[..LastApplied(log)], side)
  {
    if log != [] && !log[|log| - 1].Applied() {
      var rest := log[..|log| - 1];
      HeldSinceLastApplied(rest);
      assert rest[..LastApplied(rest)] == log[..LastApplied(log)];
    } else {
      assert log[..|log|] == log;
    }
  }

  lemma {:induction false} WritesAreRead(writes: seq<Level>)
    ensures Reads(WriteAll(map[], writes), writes)
  {
    forall p ensures ReadsAt(WriteAll(map[], writes), writes, p) {
      WriteAllReadsLastWrite(map[], writes, p);
    }
  }
}
