/** The per-symbol worker loop of `crates/marketdata/src/manager.rs`. */
module SymbolWorkers {
  import opened Wrappers
  import opened MarketTypes
  import opened Ladders
  import opened OrderBooks
  import opened EventLogs

  /** The worker's book says what its log says. */
  ghost predicate Shows(b: Book, log: Log) {
    && b.bids == WriteAll(map[], Writes(log, Bid))
    && b.asks == WriteAll(map[], Writes(log, Ask))
    && b.lastSeq == Sequence(log)
    && b.resyncRequired == NeedsResync(log)
  }

  lemma ShowsAfter(b: Book, log: Log, e: Event, maxGap: u64)
    requires Shows(b, log)
    requires e.Accepted? ==> WithinGap(b.lastSeq, e.delta.prevSequence, maxGap)
    requires e.Refused? ==> !WithinGap(b.lastSeq, e.delta.prevSequence, maxGap)
    ensures var b' := match e
                      case Snapped(s) => b.Loaded(s)
                      case Accepted(d) => b.Tolerant(d, maxGap)
                      case Refused(d) => b.Tolerant(d, maxGap)
                      case _ => b;
            Shows(b', log + [e])
  {
    AfterEvent(log, e);
    match e {
      case Accepted(d) =>
        WriteAllAppend(map[], Writes(log, Bid), d.bids);
        WriteAllAppend(map[], Writes(log, Ask), d.asks);
      case _ =>
    }
  }

  /**
   Runs the worker over any finite message stream until the channel closes. Fetch outcomes are
   arbitrary: `first` answers the proactive fetch, `inputs[i].fetched` any fetch made while
   handling message i. The final book, buffer and flag are readings of the event history alone.
   */
  method PerSymbolWorker(symbol: string, cfg: WorkerConfig, first: Option<OrderbookSnapshot>, inputs: seq<Input>)
    returns (book: OrderBook, buffered: seq<OrderbookDelta>, snapshotApplied: bool)
    ensures fresh(book)
    ensures var log := History(cfg, first, inputs);
            && Reads(book.bids, Writes(log, Bid))
            && Reads(book.asks, Writes(log, Ask))
            && book.lastSeq == Sequence(log)
            && book.resyncRequired == NeedsResync(log)
            && buffered == Waiting(log)
            && snapshotApplied == HasSnapshot(log)
    ensures |buffered| <= cfg.maxBufferedDeltas
    ensures snapshotApplied ==> buffered == []
    ensures !snapshotApplied ==> book.View() == EMPTY_BOOK
    ensures NonNegativeInputs(inputs) ==> book.View().PositiveSizes()
  {
    hide Shows, Waiting, HasSnapshot, Extend, History, Fetched;
    book := new OrderBook(symbol);
    buffered := [];
    HistoryStart(book.View(), cfg, first, inputs);
    snapshotApplied := Resync(book, [], first, cfg.maxAcceptableSequenceGap);

    for i := 0 to |inputs|
      invariant fresh(book)
      invariant Shows(book.View(), History(cfg, first, inputs[..i]))
      invariant buffered == Waiting(History(cfg, first, inputs[..i]))
      invariant snapshotApplied == HasSnapshot(History(cfg, first, inputs[..i]))
    {
      ghost var log := History(cfg, first, inputs[..i]);
      HistoryOneMore(cfg, first, inputs, i);
      HistoryIsSound(cfg, first, inputs[..i]);
      match inputs[i].msg {
        case SnapshotMessage(snap) =>
          assert inputs[i] == Input(SnapshotMessage(snap), inputs[i].fetched);
          LoadSnapshot(book, cfg, log, snap, inputs[i].fetched);
          snapshotApplied := true;
          buffered := [];

        case DeltaMessage(delta) =>
          assert inputs[i] == Input(DeltaMessage(delta), inputs[i].fetched);
          if !snapshotApplied {
            buffered, snapshotApplied := BufferDelta(book, cfg, log, buffered, delta, inputs[i].fetched);
            continue;
          }
          SequenceDelta(book, cfg, log, delta, inputs[i].fetched);
      }
    }
    assert inputs[..|inputs|] == inputs;
    Readings(book.View(), cfg, first, inputs);
  }

  lemma HistoryStart(b: Book, cfg: WorkerConfig, first: Option<OrderbookSnapshot>, inputs: seq<Input>)
    requires b == EMPTY_BOOK
    ensures Shows(b, []) && Waiting([]) == [] && !HasSnapshot([])
    ensures History(cfg, first, inputs[..0]) == [] + Fetched(first)
  {
    assert [] + Fetched(first) == Fetched(first);
  }

  /** A snapshot message: the book is replaced and anything waiting is stale. */
  method LoadSnapshot(book: OrderBook, cfg: WorkerConfig, ghost log: Log, snap: OrderbookSnapshot,
                      ghost fetched: Option<OrderbookSnapshot>)
    requires Shows(book.View(), log)
    modifies book
    ensures var after := Extend(cfg, log, Input(SnapshotMessage(snap), fetched));
            Shows(book.View(), after) && Waiting(after) == [] && HasSnapshot(after)
  {
    ShowsAfter(book.View(), log, Snapped(snap), 0);
    AfterEvent(log, Snapped(snap));
    var r := book.ApplySnapshot(snap);
  }

  lemma HistoryOneMore(cfg: WorkerConfig, first: Option<OrderbookSnapshot>, inputs: seq<Input>, i: nat)
    requires i < |inputs|
    ensures History(cfg, first, inputs[..i + 1]) == Extend(cfg, History(cfg, first, inputs[..i]), inputs[i])
  {
    assert inputs[..i + 1][..i] == inputs[..i];
  }

  /** What a book showing a whole history amounts to. */
  lemma Readings(b: Book, cfg: WorkerConfig, first: Option<OrderbookSnapshot>, inputs: seq<Input>)
    requires Shows(b, History(cfg, first, inputs))
    ensures var log := History(cfg, first, inputs);
            && Reads(b.bids, Writes(log, Bid)) && Reads(b.asks, Writes(log, Ask))
            && b.lastSeq == Sequence(log) && b.resyncRequired == NeedsResync(log)
            && |Waiting(log)| <= cfg.maxBufferedDeltas
            && (HasSnapshot(log) ==> Waiting(log) == [])
            && (!HasSnapshot(log) ==> b == EMPTY_BOOK)
            && (NonNegativeInputs(inputs) ==> b.PositiveSizes())
  {
    var log := History(cfg, first, inputs);
    HistoryIsSound(cfg, first, inputs);
    if NonNegativeInputs(inputs) {
      HistoryIsNonNegative(cfg, first, inputs);
      WriteAllKeepsPositive(map[], Writes(log, Bid));
      WriteAllKeepsPositive(map[], Writes(log, Ask));
    }
    WritesAreRead(Writes(log, Bid));
    WritesAreRead(Writes(log, Ask));
  }

  /** A delta that arrives before any snapshot: buffered, or dropped with the whole buffer when it is full. */
  method BufferDelta(book: OrderBook, cfg: WorkerConfig, ghost log: Log, waiting: seq<OrderbookDelta>,
                     delta: OrderbookDelta, fetched: Option<OrderbookSnapshot>)
    returns (buffered: seq<OrderbookDelta>, snapshotApplied: bool)
    requires Shows(book.View(), log) && waiting == Waiting(log) && !HasSnapshot(log)
    modifies book
    ensures var after := Extend(cfg, log, Input(DeltaMessage(delta), fetched));
            Shows(book.View(), after) && buffered == Waiting(after) && snapshotApplied == HasSnapshot(after)
  {
    if |waiting| >= cfg.maxBufferedDeltas {
      ShowsAfter(book.View(), log, Overflowed(delta), 0);
      AfterEvent(log, Overflowed(delta));
      buffered := [];
      snapshotApplied := Resync(book, log + [Overflowed(delta)], fetched, 0);
    } else {
      ShowsAfter(book.View(), log, Buffered(delta), 0);
      AfterEvent(log, Buffered(delta));
      buffered, snapshotApplied := waiting + [delta], false;
    }
  }

  /** A delta once there is a snapshot: applied within tolerance, or refused and resynchronised. */
  method SequenceDelta(book: OrderBook, cfg: WorkerConfig, ghost log: Log, delta: OrderbookDelta,
                       fetched: Option<OrderbookSnapshot>)
    requires Shows(book.View(), log) && Sound(cfg, log) && HasSnapshot(log)
    modifies book
    ensures var after := Extend(cfg, log, Input(DeltaMessage(delta), fetched));
            Shows(book.View(), after) && Waiting(after) == Waiting(log) && HasSnapshot(after)
  {
    var r := ApplyLogged(book, log, delta, cfg.maxAcceptableSequenceGap);
    AfterEvent(log, Accepted(delta));
    AfterEvent(log, Refused(delta));
    if r.Err? {
      var applied := Resync(book, log + [Refused(delta)], fetched, cfg.maxAcceptableSequenceGap);
      if !applied {
        book.resyncRequired := true;
      }
    }
  }

  /** Applies a delta with tolerance, and says which event that was. */
  method ApplyLogged(book: OrderBook, ghost log: Log, delta: OrderbookDelta, maxGap: u64)
    returns (r: Result<(), OrderBookError>)
    requires Shows(book.View(), log)
    modifies book
    ensures r.Ok? <==> WithinGap(Sequence(log), delta.prevSequence, maxGap)
    ensures Shows(book.View(), log + [if r.Ok? then Accepted(delta) else Refused(delta)])
  {
    if WithinGap(book.lastSeq, delta.prevSequence, maxGap) {
      ShowsAfter(book.View(), log, Accepted(delta), maxGap);
    } else {
      ShowsAfter(book.View(), log, Refused(delta), maxGap);
    }
    r := book.ApplyDeltaWithGapTolerance(delta, maxGap);
  }

  /** Asks the snapshot provider, and loads what it answers. */
  method Resync(book: OrderBook, ghost log: Log, fetched: Option<OrderbookSnapshot>, ghost maxGap: u64)
    returns (applied: bool)
    requires Shows(book.View(), log)
    modifies book
    ensures applied == fetched.Some?
    ensures Shows(book.View(), log + Fetched(fetched))
    ensures Waiting(log) == [] ==> Waiting(log + Fetched(fetched)) == []
    ensures HasSnapshot(log + Fetched(fetched)) <==> HasSnapshot(log) || applied
    ensures !applied ==> book.View() == old(book.View())
  {
    applied := fetched.Some?;
    if fetched.Some? {
      ShowsAfter(book.View(), log, Snapped(fetched.value), maxGap);
      AfterEvent(log, Snapped(fetched.value));
      var r := book.ApplySnapshot(fetched.value);
    } else {
      assert log + [] == log;
    }
  }
}
