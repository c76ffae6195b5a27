/** `crates/marketdata/src/adapter_wiring.rs`: adapter updates into worker messages, and sequence drift. */
module AdapterWiring {
  import opened Wrappers
  import opened MarketTypes
  import opened Ladders
  import opened OrderBooks
  import opened EventLogs
  import opened SymbolWorkers

  /** The adapter's normalised update: `crates/adapters/src/types.rs`. */
  datatype OrderbookUpdate = OrderbookUpdate(
    symbol: string,
    bids: seq<Level>,
    asks: seq<Level>,
    sequence: Option<u64>,
    isSnapshot: bool)

  function SaturatingSub(x: u64, y: u64): u64 { if x < y then 0 else x - y }

  function MapSnapshot(u: OrderbookUpdate): OrderbookSnapshot {
    OrderbookSnapshot(u.symbol, u.bids, u.asks, u.sequence)
  }

  function MapUpdate(u: OrderbookUpdate): (string, SymbolMessage) {
    if u.isSnapshot then
      (u.symbol, SnapshotMessage(OrderbookSnapshot(u.symbol, u.bids, u.asks, u.sequence)))
    else
      var prev := match u.sequence case None => None case Some(s) => Some(SaturatingSub(s, 1));
      (u.symbol, DeltaMessage(OrderbookDelta(u.symbol, u.bids, u.asks, prev, u.sequence)))
  }

  /** A numbered adapter delta, with an id of at least `least`: it claims the saturating predecessor of its id. */
  predicate Numbered(d: OrderbookDelta, least: u64) {
    && d.sequence.Some? && d.sequence.value >= least
    && d.prevSequence == Some(SaturatingSub(d.sequence.value, 1))
  }

  predicate NumberedInputs(inputs: seq<Input>, least: u64) {
    forall i :: 0 <= i < |inputs| && inputs[i].msg.DeltaMessage? ==> Numbered(inputs[i].msg.delta, least)
  }

  /** Mapping flags exactly the snapshots, and numbers exactly the deltas that carry an id. */
  lemma MappedUpdates(u: OrderbookUpdate, least: u64)
    ensures u.isSnapshot <==> MapUpdate(u).1.SnapshotMessage?
    ensures u.isSnapshot ==> MapUpdate(u).1.snapshot == MapSnapshot(u)
    ensures !u.isSnapshot ==> (Numbered(MapUpdate(u).1.delta, least) <==> u.sequence.Some? && u.sequence.value >= least)
  {
  }

  /** What the worker receives from the adapter, `fetches[i]` being what the provider would answer. */
  function Feed(updates: seq<OrderbookUpdate>, fetches: seq<Option<OrderbookSnapshot>>): (inputs: seq<Input>)
    requires |updates| == |fetches|
    ensures |inputs| == |updates|
  {
    seq(|updates|, i requires 0 <= i < |updates| => Input(MapUpdate(updates[i]).1, fetches[i]))
  }

  /** A feed is numbered exactly when every update in it that is not a snapshot carries a large enough id. */
  lemma FeedIsNumbered(updates: seq<OrderbookUpdate>, fetches: seq<Option<OrderbookSnapshot>>, least: u64)
    requires |updates| == |fetches|
    ensures NumberedInputs(Feed(updates, fetches), least) <==>
              forall i :: 0 <= i < |updates| && !updates[i].isSnapshot ==>
                  updates[i].sequence.Some? && updates[i].sequence.value >= least
  {
    var inputs := Feed(updates, fetches);
    forall i | 0 <= i < |updates|
      ensures inputs[i].msg.DeltaMessage? <==> !updates[i].isSnapshot
      ensures !updates[i].isSnapshot ==>
                (Numbered(inputs[i].msg.delta, least) <==>
                    updates[i].sequence.Some? && updates[i].sequence.value >= least)
    {
      MappedUpdates(updates[i], least);
    }
  }

  // ----- what a message says of its update -----

  /** The message carries the update's own symbol, sides and id, and a delta also claims the id before it. */
  predicate Conveys(msg: SymbolMessage, u: OrderbookUpdate) {
    match msg
    case SnapshotMessage(s) =>
      u.isSnapshot && s.symbol == u.symbol && s.bids == u.bids && s.asks == u.asks && s.sequence == u.sequence
    case DeltaMessage(d) =>
      && !u.isSnapshot && d.symbol == u.symbol && d.bids == u.bids && d.asks == u.asks && d.sequence == u.sequence
      && (d.prevSequence.None? <==> u.sequence.None?)
      && (u.sequence.Some? ==> d.prevSequence.value == if u.sequence.value == 0 then 0 else u.sequence.value - 1)
  }

  lemma MappingConveys(u: OrderbookUpdate)
    ensures MapUpdate(u).0 == u.symbol && Conveys(MapUpdate(u).1, u)
  {
  }

  /** The updates for one symbol, in order. */
  function Only(updates: seq<OrderbookUpdate>, symbol: string): seq<OrderbookUpdate> {
    if updates == [] then []
    else
      var last := updates[|updates| - 1];
      Only(updates[..|updates| - 1], symbol) + if last.symbol == symbol then [last] else []
  }

  predicate Carries(msgs: seq<SymbolMessage>, updates: seq<OrderbookUpdate>) {
    |msgs| == |updates| && forall i :: 0 <= i < |msgs| ==> Conveys(msgs[i], updates[i])
  }

  lemma OnlyOneMore(updates: seq<OrderbookUpdate>, i: nat, symbol: string)
    requires i < |updates|
    ensures Only(updates[..i + 1], symbol) ==
              Only(updates[..i], symbol) + if updates[i].symbol == symbol then [updates[i]] else []
  {
    assert updates[..i + 1][..i] == updates[..i];
  }

  /** The forwarder: each registered symbol's worker is sent that symbol's updates, in order, and others are dropped. */
  method Forward(updates: seq<OrderbookUpdate>, registered: set<string>)
    returns (queues: map<string, seq<SymbolMessage>>)
    ensures queues.Keys == registered
    ensures forall symbol :: symbol in registered ==> Carries(queues[symbol], Only(updates, symbol))
  {
    queues := map symbol | symbol in registered :: [];
    for i := 0 to |updates|
      invariant queues.Keys == registered
      invariant forall symbol :: symbol in registered ==> Carries(queues[symbol], Only(updates[..i], symbol))
    {
      MappingConveys(updates[i]);
      forall symbol ensures Only(updates[..i + 1], symbol) ==
                              Only(updates[..i], symbol) + if updates[i].symbol == symbol then [updates[i]] else []
      {
        OnlyOneMore(updates, i, symbol);
      }
      var (symbol, msg) := MapUpdate(updates[i]);
      if symbol in queues {
        queues := queues[symbol := queues[symbol] + [msg]];
      }
    }
    assert updates[..|updates|] == updates;
  }

  // ----- from updates to the book -----

  /** What a history event goes back to: a fetched snapshot, one of the feed's updates, or nothing applied. */
  datatype Origin = FromFetch(snapshot: OrderbookSnapshot) | FromUpdate(index: nat) | Unapplied

  predicate OriginOf(first: Option<OrderbookSnapshot>, updates: seq<OrderbookUpdate>,
                     fetches: seq<Option<OrderbookSnapshot>>, n: nat, e: Event, o: Origin)
    requires n <= |updates| == |fetches|
  {
    match o
    case FromFetch(s) => e == Snapped(s) && (first == Some(s) || Some(s) in fetches)
    case FromUpdate(i) => i < n && if updates[i].isSnapshot then e.Snapped? else e.Accepted?
    case Unapplied => !e.Applied()
  }

  /** The log's applied events, in order, are the feed's own: every snapshot, some deltas, and fetched snapshots. */
  ghost predicate Traced(first: Option<OrderbookSnapshot>, updates: seq<OrderbookUpdate>,
                         fetches: seq<Option<OrderbookSnapshot>>, n: nat, log: Log, origins: seq<Origin>)
    requires n <= |updates| == |fetches|
  {
    && |origins| == |log|
    && (forall k :: 0 <= k < |log| ==> OriginOf(first, updates, fetches, n, log[k], origins[k]))
    && (forall j, k :: 0 <= j < k < |log| && origins[j].FromUpdate? && origins[k].FromUpdate? ==>
          origins[j].index < origins[k].index)
    && (forall i :: 0 <= i < n && updates[i].isSnapshot ==> FromUpdate(i) in origins)
  }

  function WritesAfter(before: seq<Level>, o: Origin, updates: seq<OrderbookUpdate>, side: Side): seq<Level> {
    match o
    case FromFetch(s) => PositiveOnly(if side == Bid then s.bids else s.asks)
    case FromUpdate(i) =>
      if i >= |updates| then before
      else
        var levels := if side == Bid then updates[i].bids else updates[i].asks;
        if updates[i].isSnapshot then PositiveOnly(levels) else before + levels
    case Unapplied => before
  }

  /** A side's writes since the last applied snapshot: its positive levels, then each accepted update's levels. */
  function WritesFrom(origins: seq<Origin>, updates: seq<OrderbookUpdate>, side: Side): seq<Level> {
    if origins == [] then []
    else
      var n := |origins| - 1;
      WritesAfter(WritesFrom(origins[..n], updates, side), origins[n], updates, side)
  }

  lemma WritesFromOneMore(origins: seq<Origin>, o: Origin, updates: seq<OrderbookUpdate>, side: Side)
    ensures WritesFrom(origins + [o], updates, side) ==
              WritesAfter(WritesFrom(origins, updates, side), o, updates, side)
  {
    assert (origins + [o])[..|origins|] == origins;
  }

  ghost predicate SameWrites(log: Log, origins: seq<Origin>, updates: seq<OrderbookUpdate>) {
    forall side :: Writes(log, side) == WritesFrom(origins, updates, side)
  }

  /** The event does to each side what its origin says. */
  predicate Matches(e: Event, o: Origin, updates: seq<OrderbookUpdate>) {
    match o
    case FromFetch(s) => e == Snapped(s)
    case Unapplied => !e.Applied()
    case FromUpdate(i) =>
      i < |updates| &&
      match e
      case Snapped(s) => updates[i].isSnapshot && s.bids == updates[i].bids && s.asks == updates[i].asks
      case Accepted(d) => !updates[i].isSnapshot && d.bids == updates[i].bids && d.asks == updates[i].asks
      case _ => false
  }

  lemma SameWritesOneMore(log: Log, origins: seq<Origin>, updates: seq<OrderbookUpdate>, e: Event, o: Origin)
    requires SameWrites(log, origins, updates) && Matches(e, o, updates)
    ensures SameWrites(log + [e], origins + [o], updates)
  {
    hide Writes, WritesFrom, PositiveOnly, HasSnapshot, NeedsResync, Waiting, Sequence;
    AfterEvent(log, e);
    WritesFromOneMore(origins, o, updates, Bid);
    WritesFromOneMore(origins, o, updates, Ask);
    forall side ensures Writes(log + [e], side) == WritesFrom(origins + [o], updates, side) {
      assert side == Bid || side == Ask;
    }
  }

  lemma TracedOneMore(first: Option<OrderbookSnapshot>, updates: seq<OrderbookUpdate>,
                      fetches: seq<Option<OrderbookSnapshot>>, n: nat, log: Log, origins: seq<Origin>, e: Event,
                      o: Origin)
    requires n < |updates| == |fetches| && Traced(first, updates, fetches, n, log, origins)
    requires OriginOf(first, updates, fetches, n + 1, e, o) && (o.FromUpdate? ==> o.index == n)
    requires updates[n].isSnapshot ==> o == FromUpdate(n)
    ensures Traced(first, updates, fetches, n + 1, log + [e], origins + [o])
  {
    var more := origins + [o];
    forall i | 0 <= i < n + 1 && updates[i].isSnapshot ensures FromUpdate(i) in more {
      if i < n {
        var k :| 0 <= k < |origins| && origins[k] == FromUpdate(i);
        assert more[k] == FromUpdate(i);
      } else {
        assert more[|origins|] == FromUpdate(i);
      }
    }
  }

  /** A fetch adds its snapshot and nothing else. */
  lemma TracedFetch(first: Option<OrderbookSnapshot>, updates: seq<OrderbookUpdate>,
                    fetches: seq<Option<OrderbookSnapshot>>, n: nat, log: Log, origins: seq<Origin>,
                    fetched: Option<OrderbookSnapshot>)
    returns (more: seq<Origin>)
    requires n <= |updates| == |fetches| && Traced(first, updates, fetches, n, log, origins)
    requires SameWrites(log, origins, updates) && (fetched == first || fetched in fetches)
    ensures Traced(first, updates, fetches, n, log + Fetched(fetched), more)
    ensures SameWrites(log + Fetched(fetched), more, updates)
  {
    match fetched
    case None =>
      more := origins;
      assert log + [] == log;
    case Some(s) =>
      more := origins + [FromFetch(s)];
      SameWritesOneMore(log, origins, updates, Snapped(s), FromFetch(s));
      forall i | 0 <= i < n && updates[i].isSnapshot ensures FromUpdate(i) in more {
        var k :| 0 <= k < |origins| && origins[k] == FromUpdate(i);
        assert more[k] == FromUpdate(i);
      }
  }

  /** One update's event, then the provider's answer if it was asked. */
  lemma TracedUpdate(cfg: WorkerConfig, first: Option<OrderbookSnapshot>, updates: seq<OrderbookUpdate>,
                     fetches: seq<Option<OrderbookSnapshot>>, n: nat, log: Log, origins: seq<Origin>)
    returns (more: seq<Origin>)
    requires n < |updates| == |fetches| && Traced(first, updates, fetches, n, log, origins)
    requires SameWrites(log, origins, updates)
    ensures var after := Extend(cfg, log, Input(MapUpdate(updates[n]).1, fetches[n]));
            Traced(first, updates, fetches, n + 1, after, more) && SameWrites(after, more, updates)
  {
    hide Traced, SameWrites, MapUpdate, HasSnapshot, Waiting, Sequence, WithinGap, Fetched;
    var msg := MapUpdate(updates[n]).1;
    MappingConveys(updates[n]);
    match msg {
      case SnapshotMessage(s) =>
        more := origins + [FromUpdate(n)];
        TracedOneMore(first, updates, fetches, n, log, origins, Snapped(s), FromUpdate(n));
        SameWritesOneMore(log, origins, updates, Snapped(s), FromUpdate(n));
      case DeltaMessage(d) =>
        var after := Extend(cfg, log, Input(msg, fetches[n]));
        var e := after[|log|];
        var o := if e.Accepted? then FromUpdate(n) else Unapplied;
        DeltaEvent(cfg, log, d, fetches[n]);
        TracedOneMore(first, updates, fetches, n, log, origins, e, o);
        SameWritesOneMore(log, origins, updates, e, o);
        if after == log + [e] {
          more := origins + [o];
        } else {
          more := TracedFetch(first, updates, fetches, n + 1, log + [e], origins + [o], fetches[n]);
        }
    }
  }

  /** A delta is recorded as itself, whatever becomes of it, and only then may a fetch follow. */
  lemma DeltaEvent(cfg: WorkerConfig, log: Log, d: OrderbookDelta, fetched: Option<OrderbookSnapshot>)
    ensures var after := Extend(cfg, log, Input(DeltaMessage(d), fetched));
            && |after| > |log| && !after[|log|].Snapped? && after[|log|].delta == d
            && (after == log + [after[|log|]] || after == log + [after[|log|]] + Fetched(fetched))
  {
    hide HasSnapshot, Waiting, Sequence, WithinGap, Fetched;
  }

  lemma {:induction false} FeedIsTraced(cfg: WorkerConfig, first: Option<OrderbookSnapshot>,
                                        updates: seq<OrderbookUpdate>, fetches: seq<Option<OrderbookSnapshot>>, n: nat)
    returns (origins: seq<Origin>)
    requires n <= |updates| == |fetches|
    ensures var log := History(cfg, first, Feed(updates, fetches)[..n]);
            Traced(first, updates, fetches, n, log, origins) && SameWrites(log, origins, updates)
  {
    hide Traced, SameWrites, History;
    var inputs := Feed(updates, fetches);
    if n == 0 {
      NothingTraced(first, updates, fetches);
      origins := TracedFetch(first, updates, fetches, 0, [], [], first);
      FirstHistory(cfg, first, inputs);
    } else {
      var before := FeedIsTraced(cfg, first, updates, fetches, n - 1);
      HistoryExtends(cfg, first, inputs[..n]);
      assert inputs[..n][..n - 1] == inputs[..n - 1];
      origins := TracedUpdate(cfg, first, updates, fetches, n - 1, History(cfg, first, inputs[..n - 1]), before);
    }
  }

  lemma NothingTraced(first: Option<OrderbookSnapshot>, updates: seq<OrderbookUpdate>,
                      fetches: seq<Option<OrderbookSnapshot>>)
    requires |updates| == |fetches|
    ensures Traced(first, updates, fetches, 0, [], []) && SameWrites([], [], updates)
  {
  }

  lemma FirstHistory(cfg: WorkerConfig, first: Option<OrderbookSnapshot>, inputs: seq<Input>)
    ensures History(cfg, first, inputs[..0]) == [] + Fetched(first)
  {
    assert [] + Fetched(first) == Fetched(first);
  }

  lemma HistoryExtends(cfg: WorkerConfig, first: Option<OrderbookSnapshot>, inputs: seq<Input>)
    requires inputs != []
    ensures var n := |inputs| - 1;
            History(cfg, first, inputs) == Extend(cfg, History(cfg, first, inputs[..n]), inputs[n])
  {
  }

  /**
   The adapter's updates for one symbol through mapping and worker. Every price of each side holds
   the last write to it among the positive levels of that side of the last applied snapshot and the
   same side of the updates accepted after it, in feed order, a zero write meaning absent.
   */
  method WorkFeed(symbol: string, cfg: WorkerConfig, first: Option<OrderbookSnapshot>,
                  updates: seq<OrderbookUpdate>, fetches: seq<Option<OrderbookSnapshot>>)
    returns (book: OrderBook, buffered: seq<OrderbookDelta>, snapshotApplied: bool)
    requires |updates| == |fetches|
    ensures fresh(book)
    ensures exists origins ::
              && Traced(first, updates, fetches, |updates|, History(cfg, first, Feed(updates, fetches)), origins)
              && Reads(book.bids, WritesFrom(origins, updates, Bid))
              && Reads(book.asks, WritesFrom(origins, updates, Ask))
  {
    hide Traced, SameWrites, History, WritesFrom, Reads, Writes, HasSnapshot, Waiting, Sequence, NeedsResync,
         NonNegativeInputs, MapUpdate;
    var inputs := [];
    for i := 0 to |updates|
      invariant inputs == Feed(updates, fetches)[..i]
    {
      var message := MapUpdate(updates[i]);
      inputs := inputs + [Input(message.1, fetches[i])];
    }
    assert Feed(updates, fetches)[..|updates|] == Feed(updates, fetches) == inputs;
    book, buffered, snapshotApplied := PerSymbolWorker(symbol, cfg, first, inputs);
    ghost var origins := FeedIsTraced(cfg, first, updates, fetches, |updates|);
    BothSides(History(cfg, first, inputs), origins, updates);
  }

  lemma BothSides(log: Log, origins: seq<Origin>, updates: seq<OrderbookUpdate>)
    requires SameWrites(log, origins, updates)
    ensures Writes(log, Bid) == WritesFrom(origins, updates, Bid)
    ensures Writes(log, Ask) == WritesFrom(origins, updates, Ask)
  {
  }

  // ----- drift -----

  /** Deltas accepted since the last snapshot. */
  function AcceptedSince(log: Log): nat {
    if log == [] then 0
    else match log[|log| - 1]
      case Snapped(_) => 0
      case Accepted(_) => AcceptedSince(log[..|log| - 1]) + 1
      case _ => AcceptedSince(log[..|log| - 1])
  }

  /** Deltas with id 0 accepted since the last snapshot. */
  function ZeroIds(log: Log): nat {
    if log == [] then 0
    else match log[|log| - 1]
      case Snapped(_) => 0
      case Accepted(d) => ZeroIds(log[..|log| - 1]) + if d.sequence == Some(0) then 1 else 0
      case _ => ZeroIds(log[..|log| - 1])
  }

  /** The sequence the last snapshot carried. */
  function BaseSequence(log: Log): Option<u64> {
    if log == [] then None
    else match log[|log| - 1]
      case Snapped(s) => s.sequence
      case _ => BaseSequence(log[..|log| - 1])
  }

  /** Every accepted delta is numbered and was within tolerance of the sequence before it. */
  ghost predicate Tolerated(gap: u64, least: u64, log: Log) {
    forall i :: 0 <= i < |log| && log[i].Accepted? ==>
      Numbered(log[i].delta, least) && WithinGap(Sequence(log[..i]), log[i].delta.prevSequence, gap)
  }

  lemma ToleratedAfter(gap: u64, least: u64, log: Log, e: Event)
    requires Tolerated(gap, least, log)
    requires e.Accepted? ==> Numbered(e.delta, least) && WithinGap(Sequence(log), e.delta.prevSequence, gap)
    ensures Tolerated(gap, least, log + [e])
  {
    var after := log + [e];
    forall i | 0 <= i < |after| && after[i].Accepted?
      ensures Numbered(after[i].delta, least) && WithinGap(Sequence(after[..i]), after[i].delta.prevSequence, gap)
    {
      if i < |log| {
        assert after[..i] == log[..i];
      } else {
        assert after[..i] == log;
      }
    }
  }

  lemma ToleratedAfterFetch(gap: u64, least: u64, log: Log, fetched: Option<OrderbookSnapshot>)
    requires Tolerated(gap, least, log)
    ensures Tolerated(gap, least, log + Fetched(fetched))
  {
    match fetched
    case None => assert log + [] == log;
    case Some(s) => ToleratedAfter(gap, least, log, Snapped(s));
  }

  lemma {:induction false} HistoryTolerated(cfg: WorkerConfig, first: Option<OrderbookSnapshot>, inputs: seq<Input>,
                                            least: u64)
    requires NumberedInputs(inputs, least)
    ensures Tolerated(cfg.maxAcceptableSequenceGap, least, History(cfg, first, inputs))
  {
    var gap := cfg.maxAcceptableSequenceGap;
    if inputs == [] {
      ToleratedAfterFetch(gap, least, [], first);
      assert [] + Fetched(first) == Fetched(first);
    } else {
      var before, input := History(cfg, first, inputs[..|inputs| - 1]), inputs[|inputs| - 1];
      HistoryTolerated(cfg, first, inputs[..|inputs| - 1], least);
      match input.msg
      case SnapshotMessage(s) => ToleratedAfter(gap, least, before, Snapped(s));
      case DeltaMessage(d) =>
        ToleratedAfter(gap, least, before, Overflowed(d));
        ToleratedAfter(gap, least, before, Buffered(d));
        ToleratedAfter(gap, least, before, Refused(d));
        ToleratedAfterFetch(gap, least, before + [Overflowed(d)], input.fetched);
        ToleratedAfterFetch(gap, least, before + [Refused(d)], input.fetched);
        if WithinGap(Sequence(before), d.prevSequence, gap) {
          ToleratedAfter(gap, least, before, Accepted(d));
        }
    }
  }

  /** n tolerances. */
  function Budget(n: nat, gap: u64): nat {
    if n == 0 then 0 else Budget(n - 1, gap) + gap
  }

  lemma {:induction false} BudgetIsProduct(n: nat, gap: u64)
    ensures Budget(n, gap) == n * gap
  {
    if n > 0 {
      BudgetIsProduct(n - 1, gap);
      assert (n - 1) * gap + gap == n * gap;
    }
  }

  /** How one more event changes the counts. */
  lemma CountsAfter(log: Log, e: Event)
    ensures BaseSequence([]) == None
    ensures BaseSequence(log + [e]) == if e.Snapped? then e.snapshot.sequence else BaseSequence(log)
    ensures AcceptedSince(log + [e]) == if e.Snapped? then 0 else AcceptedSince(log) + if e.Accepted? then 1 else 0
    ensures ZeroIds(log + [e]) ==
              if e.Snapped? then 0 else ZeroIds(log) + if e.Accepted? && e.delta.sequence == Some(0) then 1 else 0
  {
    assert (log + [e])[..|log|] == log;
  }

  lemma ToleratedBefore(gap: u64, least: u64, log: Log, e: Event)
    requires Tolerated(gap, least, log + [e])
    ensures Tolerated(gap, least, log)
    ensures e.Accepted? ==> Numbered(e.delta, least) && WithinGap(Sequence(log), e.delta.prevSequence, gap)
  {
    hide Sequence, WithinGap, Numbered;
    var after := log + [e];
    assert after[..|log|] == log && after[|log|] == e;
    forall i | 0 <= i < |log| && log[i].Accepted?
      ensures Numbered(log[i].delta, least) && WithinGap(Sequence(log[..i]), log[i].delta.prevSequence, gap)
    {
      assert after[i] == log[i] && after[..i] == log[..i];
    }
  }

  lemma BudgetGrows(n: nat, gap: u64)
    ensures Budget(n + 1, gap) == Budget(n, gap) + gap && Budget(0, gap) == 0
  {
  }

  lemma {:induction false} ToleratedDrift(gap: u64, log: Log)
    requires Tolerated(gap, 0, log) && BaseSequence(log).Some?
    ensures Sequence(log).Some?
    ensures Distance(Sequence(log).value + ZeroIds(log), BaseSequence(log).value + AcceptedSince(log))
              <= Budget(AcceptedSince(log), gap)
  {
    hide Tolerated, BaseSequence, AcceptedSince, ZeroIds, Sequence, Writes, Waiting, HasSnapshot, NeedsResync, Budget;
    if log == [] {
      CountsAfter([], Snapped(OrderbookSnapshot("", [], [], None)));
    } else {
      var rest, e := log[..|log| - 1], log[|log| - 1];
      assert log == rest + [e];
      AfterEvent(rest, e);
      CountsAfter(rest, e);
      BudgetGrows(AcceptedSince(rest), gap);
      if !e.Snapped? {
        ToleratedBefore(gap, 0, rest, e);
        ToleratedDrift(gap, rest);
      }
    }
  }

  lemma {:induction false} PositiveIdsAreNotZero(gap: u64, log: Log)
    requires Tolerated(gap, 1, log)
    ensures Tolerated(gap, 0, log) && ZeroIds(log) == 0
  {
    if log != [] {
      var n := |log| - 1;
      var rest := log[..n];
      assert forall i :: 0 <= i < n ==> rest[..i] == log[..i];
      PositiveIdsAreNotZero(gap, rest);
    }
  }

  /**
   Sequence drift over every worker run fed with numbered updates: n deltas accepted since a
   snapshot numbered s0, z of them with id 0, leave the book within n * G of s0 + n - z.
   */
  lemma DriftBound(cfg: WorkerConfig, first: Option<OrderbookSnapshot>, inputs: seq<Input>)
    requires NumberedInputs(inputs, 0)
    requires BaseSequence(History(cfg, first, inputs)).Some?
    ensures var log := History(cfg, first, inputs);
            && Sequence(log).Some?
            && Distance(Sequence(log).value + ZeroIds(log), BaseSequence(log).value + AcceptedSince(log))
                 <= AcceptedSince(log) * cfg.maxAcceptableSequenceGap
            && (NumberedInputs(inputs, 1) ==> ZeroIds(log) == 0)
  {
    hide History, Tolerated, Sequence, AcceptedSince, BaseSequence, ZeroIds, NumberedInputs, Budget, Distance;
    var log := History(cfg, first, inputs);
    HistoryTolerated(cfg, first, inputs, 0);
    ToleratedDrift(cfg.maxAcceptableSequenceGap, log);
    BudgetIsProduct(AcceptedSince(log), cfg.maxAcceptableSequenceGap);
    if NumberedInputs(inputs, 1) {
      HistoryTolerated(cfg, first, inputs, 1);
      PositiveIdsAreNotZero(cfg.maxAcceptableSequenceGap, log);
    }
  }

  /** So zero tolerance forces exactly consecutive updates, if and only if no update with id 0 was accepted. */
  lemma NoToleranceNoDrift(cfg: WorkerConfig, first: Option<OrderbookSnapshot>, inputs: seq<Input>)
    requires NumberedInputs(inputs, 0) && cfg.maxAcceptableSequenceGap == 0
    requires BaseSequence(History(cfg, first, inputs)).Some?
    ensures var log := History(cfg, first, inputs);
            && Sequence(log).Some?
            && (Sequence(log).value == BaseSequence(log).value + AcceptedSince(log) <==> ZeroIds(log) == 0)
  {
    DriftBound(cfg, first, inputs);
  }

  function ZeroUpdate(): OrderbookUpdate { OrderbookUpdate("X", [], [], Some(0), false) }

  /**
   After a snapshot numbered 0, any number of updates with id 0 is accepted at any tolerance, and the
   sequence stays 0.
   */
  lemma {:induction false} ZeroIdsStall(cfg: WorkerConfig, s: OrderbookSnapshot, n: nat)
    requires s.sequence == Some(0)
    ensures var log := History(cfg, Some(s), Feed(seq(n, _ => ZeroUpdate()), seq(n, _ => None)));
            && HasSnapshot(log) && BaseSequence(log) == Some(0)
            && AcceptedSince(log) == ZeroIds(log) == n && Sequence(log) == Some(0)
  {
    hide History, HasSnapshot, BaseSequence, AcceptedSince, ZeroIds, Sequence;
    var inputs := Feed(seq(n, _ => ZeroUpdate()), seq(n, _ => None));
    if n == 0 {
      StalledAtFirst(cfg, s);
      assert inputs == [];
    } else {
      assert inputs[..n - 1] == Feed(seq(n - 1, _ => ZeroUpdate()), seq(n - 1, _ => None));
      ZeroIdsStall(cfg, s, n - 1);
      HistoryExtends(cfg, Some(s), inputs);
      ZeroIdAccepted(cfg, History(cfg, Some(s), inputs[..n - 1]));
    }
  }

  lemma StalledAtFirst(cfg: WorkerConfig, s: OrderbookSnapshot)
    ensures var log := History(cfg, Some(s), []);
            && HasSnapshot(log) && BaseSequence(log) == Sequence(log) == s.sequence
            && AcceptedSince(log) == ZeroIds(log) == 0
  {
    assert Fetched(Some(s))[0].Snapped?;
  }

  lemma ZeroIdAccepted(cfg: WorkerConfig, log: Log)
    requires HasSnapshot(log) && Sequence(log) == Some(0)
    ensures var after := Extend(cfg, log, Input(MapUpdate(ZeroUpdate()).1, None));
            && HasSnapshot(after) && Sequence(after) == Some(0) && BaseSequence(after) == BaseSequence(log)
            && AcceptedSince(after) == AcceptedSince(log) + 1 && ZeroIds(after) == ZeroIds(log) + 1
  {
    hide HasSnapshot, BaseSequence, AcceptedSince, ZeroIds, Sequence, Waiting, Writes, NeedsResync;
    AfterEvent(log, Accepted(MapUpdate(ZeroUpdate()).1.delta));
    CountsAfter(log, Accepted(MapUpdate(ZeroUpdate()).1.delta));
  }

  /** An unnumbered update is always accepted, and disarms the check for the update after it. */
  lemma UnnumberedDisarms(log: Log, u: OrderbookUpdate, next: OrderbookDelta, gap: u64)
    requires u.sequence == None && !u.isSnapshot
    ensures WithinGap(Sequence(log), MapUpdate(u).1.delta.prevSequence, gap)
    ensures WithinGap(Sequence(log + [Accepted(MapUpdate(u).1.delta)]), next.prevSequence, gap)
  {
  }

  /**
   Why every update must be numbered: a snapshot numbered s0, one update without an id and one
   with any id at all are accepted at every tolerance, and leave the book at that last id.
   */
  lemma UnnumberedBreaksDrift(cfg: WorkerConfig, s: OrderbookSnapshot, id: u64)
    requires s.sequence.Some?
    ensures var updates := [OrderbookUpdate("X", [], [], None, false), OrderbookUpdate("X", [], [], Some(id), false)];
            var log := History(cfg, Some(s), Feed(updates, [None, None]));
            BaseSequence(log) == s.sequence && AcceptedSince(log) == 2 && Sequence(log) == Some(id)
  {
    var updates := [OrderbookUpdate("X", [], [], None, false), OrderbookUpdate("X", [], [], Some(id), false)];
    var inputs := Feed(updates, [None, None]);
    var log0, d1, d2 := Fetched(Some(s)), MapUpdate(updates[0]).1.delta, MapUpdate(updates[1]).1.delta;
    assert inputs[..0] == [] && inputs[..1][..0] == [] && inputs[..2] == inputs && inputs[..2][..1] == inputs[..1];
    assert HasSnapshot(log0) by { assert log0[0].Snapped?; }
    UnnumberedDisarms(log0, updates[0], d2, cfg.maxAcceptableSequenceGap);
    AfterEvent(log0, Accepted(d1));
    var log1 := log0 + [Accepted(d1)];
    assert History(cfg, Some(s), inputs[..1]) == log1;
    AfterEvent(log1, Accepted(d2));
    assert History(cfg, Some(s), inputs) == log1 + [Accepted(d2)];
    assert log1[..1] == log0 && BaseSequence(log1) == s.sequence && AcceptedSince(log1) == 1;
    assert (log1 + [Accepted(d2)])[..2] == log1;
  }
}
