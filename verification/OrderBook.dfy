/**
 `crates/orderbook/src/orderbook.rs`: the two-sided book. `Book` is the value a book object
 holds; `OrderBook` is the object, whose methods update its fields in place and are proved
 against functions of that value.
 */
module OrderBooks {
  import opened Wrappers
  import opened RealFacts
  import opened MarketTypes
  import opened Ladders
  import Fill

  datatype Book = Book(bids: Ladder, asks: Ladder, lastSeq: Option<u64>, resyncRequired: bool) {

    predicate PositiveSizes() { Positive(bids) && Positive(asks) }

    /** The levels an order of this side walks, best first. */
    function Opposite(side: Side): seq<Level> {
      match side
      case Bid => Ascending(asks)
      case Ask => Descending(bids)
    }

    /** The levels resting on this side, best first. */
    function Own(side: Side): seq<Level> {
      match side
      case Bid => Descending(bids)
      case Ask => Ascending(asks)
    }

    function Loaded(s: OrderbookSnapshot): Book {
      Book(WriteAll(map[], PositiveOnly(s.bids)), WriteAll(map[], PositiveOnly(s.asks)), s.sequence, false)
    }

    /** The ladders and sequence an accepted delta leaves; the flag is up to the caller. */
    function Written(d: OrderbookDelta, flag: bool): Book {
      Book(WriteAll(bids, d.bids), WriteAll(asks, d.asks), d.sequence, flag)
    }

    function Strict(d: OrderbookDelta): Book {
      if WithinGap(lastSeq, d.prevSequence, 0) then Written(d, resyncRequired) else this.(resyncRequired := true)
    }

    function Tolerant(d: OrderbookDelta, maxGap: u64): Book {
      if WithinGap(lastSeq, d.prevSequence, maxGap) then Written(d, false) else this.(resyncRequired := true)
    }

    function Copy(symbol: string): OrderbookSnapshot {
      OrderbookSnapshot(symbol, Own(Bid), Own(Ask), lastSeq)
    }

    function TopN(side: Side, n: nat): seq<Level> {
      var levels := Own(side);
      if n < |levels| then levels[..n] else levels
    }
  }

  function Distance(x: int, y: int): nat { if x < y then y - x else x - y }

  /** A delta is refused only if both sequence numbers are known and too far apart. */
  predicate WithinGap(last: Option<u64>, prev: Option<u64>, maxGap: u64) {
    last.Some? && prev.Some? ==> Distance(last.value, prev.value) <= maxGap
  }

  const EMPTY_BOOK := Book(map[], map[], None, false)

  // ----- the object -----

  class OrderBook {
    const symbol: string
    var bids: Ladder
    var asks: Ladder
    var lastSeq: Option<u64>
    var resyncRequired: bool

    function View(): Book
      reads this
    {
      Book(bids, asks, lastSeq, resyncRequired)
    }

    constructor (symbol: string)
      ensures View() == EMPTY_BOOK && this.symbol == symbol
    {
      this.symbol := symbol;
      bids, asks, lastSeq, resyncRequired := map[], map[], None, false;
    }

    function BestBid(): (r: Option<Level>)
      reads this
      ensures r == None <==> bids.Keys == {}
      ensures r.Some? ==> r.value.price in bids && r.value.size == bids[r.value.price]
                          && forall p :: p in bids ==> p <= r.value.price
    {
      var levels := Descending(bids);
      HighestFirst(levels, bids);
      if levels == [] then None else Some(levels[0])
    }

    function BestAsk(): (r: Option<Level>)
      reads this
      ensures r == None <==> asks.Keys == {}
      ensures r.Some? ==> r.value.price in asks && r.value.size == asks[r.value.price]
                          && forall p :: p in asks ==> r.value.price <= p
    {
      var levels := Ascending(asks);
      LowestFirst(levels, asks);
      if levels == [] then None else Some(levels[0])
    }

    method ApplySnapshot(snapshot: OrderbookSnapshot) returns (r: Result<(), OrderBookError>)
      modifies this
      ensures r == Ok(()) && View() == old(View()).Loaded(snapshot)
    {
      bids := LoadLevels(snapshot.bids);
      asks := LoadLevels(snapshot.asks);
      lastSeq := snapshot.sequence;
      resyncRequired := false;
      r := Ok(());
    }

    method WriteLevels(delta: OrderbookDelta)
      modifies this`bids, this`asks
      ensures bids == WriteAll(old(bids), delta.bids) && asks == WriteAll(old(asks), delta.asks)
    {
      for i := 0 to |delta.bids|
        invariant bids == WriteAll(old(bids), delta.bids[..i]) && asks == old(asks)
      {
        var lvl := delta.bids[i];
        WriteOne(old(bids), delta.bids, i);
        if lvl.size == 0.0 {
          bids := bids - {lvl.price};
        } else {
          bids := bids[lvl.price := lvl.size];
        }
      }
      assert delta.bids[..|delta.bids|] == delta.bids;
      for i := 0 to |delta.asks|
        invariant asks == WriteAll(old(asks), delta.asks[..i])
        invariant bids == WriteAll(old(bids), delta.bids)
      {
        var lvl := delta.asks[i];
        WriteOne(old(asks), delta.asks, i);
        if lvl.size == 0.0 {
          asks := asks - {lvl.price};
        } else {
          asks := asks[lvl.price := lvl.size];
        }
      }
      assert delta.asks[..|delta.asks|] == delta.asks;
    }

    method ApplyDelta(delta: OrderbookDelta) returns (r: Result<(), OrderBookError>)
      modifies this
      ensures View() == old(View()).Strict(delta)
      ensures r.Err? <==>
                && old(lastSeq).Some? && delta.prevSequence.Some?
                && delta.prevSequence.value != old(lastSeq).value
      ensures r.Err? ==> r.error == SequenceError(old(lastSeq).value, delta.prevSequence.value)
    {
      if lastSeq.Some? && delta.prevSequence.Some? {
        var prev, dPrev := lastSeq.value, delta.prevSequence.value;
        if dPrev != prev {
          resyncRequired := true;
          return Err(SequenceError(prev, dPrev));
        }
      }
      WriteLevels(delta);
      lastSeq := delta.sequence;
      r := Ok(());
    }

    method ApplyDeltaWithGapTolerance(delta: OrderbookDelta, maxGap: u64) returns (r: Result<(), OrderBookError>)
      modifies this
      ensures View() == old(View()).Tolerant(delta, maxGap)
      ensures r.Err? <==>
                && old(lastSeq).Some? && delta.prevSequence.Some?
                && !(-(maxGap as int) <= delta.prevSequence.value - old(lastSeq).value <= maxGap)
      ensures r.Err? ==> r.error == SequenceError(old(lastSeq).value, delta.prevSequence.value)
    {
      if lastSeq.Some? && delta.prevSequence.Some? {
        var prev, dPrev := lastSeq.value, delta.prevSequence.value;
        if dPrev != prev {
          var gap: u64 := if dPrev > prev then dPrev - prev else prev - dPrev;
          if gap > maxGap {
            resyncRequired := true;
            return Err(SequenceError(prev, dPrev));
          }
        }
      }
      WriteLevels(delta);
      lastSeq := delta.sequence;
      resyncRequired := false;
      r := Ok(());
    }

    /**
     Walks the opposite side. On success the notional is the best achievable for that quantity
     over every allocation: the least when buying from the asks, the most when selling to the bids.
     */
    method EstimateFillPrice(side: Side, size: real) returns (r: Result<EstimatedFill, OrderBookError>)
      ensures size <= 0.0 <==> r == Err(InvalidArgument("size must be > 0"))
      ensures View().PositiveSizes() && size > 0.0 ==>
                (r == Err(InsufficientDepth) <==> size > Fill.Depth(View().Opposite(side)))
      ensures r.Ok? ==> r.value.totalQty == size && Times(r.value.avgPrice, size) == r.value.totalNotional
                        && r.value.totalNotional == Fill.Cost(View().Opposite(side), size)
      ensures r.Ok? && side == Bid ==> forall xs :: Fill.Allocation(xs, Ascending(asks), size) ==>
                r.value.totalNotional <= Fill.Notional(xs, Ascending(asks))
      ensures r.Ok? && side == Ask ==> forall xs :: Fill.Allocation(xs, Descending(bids), size) ==>
                r.value.totalNotional >= Fill.Notional(xs, Descending(bids))
      ensures r.Err? && size > 0.0 ==> r.error == InsufficientDepth
    {
      hide Times, PerUnit;
      if size <= 0.0 {
        return Err(InvalidArgument("size must be > 0"));
      }
      var levels := View().Opposite(side);
      var targetSize, totalQty, totalNotional := Walk(levels, size);
      if View().PositiveSizes() {
        Fill.UnfilledIsShortfall(levels, size);
      }
      if targetSize > 0.0 {
        return Err(InsufficientDepth);
      }
      Optimal(side, levels, size);
      PerUnitTimes(totalNotional, totalQty);
      r := Ok(EstimatedFill(PerUnit(totalNotional, totalQty), totalQty, totalNotional));
    }

    function SnapshotCopy(): (s: OrderbookSnapshot)
      reads this
      ensures Lists(s.bids, bids) && Falling(s.bids) && Lists(s.asks, asks) && Rising(s.asks)
      ensures s.symbol == symbol && s.sequence == lastSeq
    {
      View().Copy(symbol)
    }
  }

  /** The loop that refills one cleared side from a snapshot. */
  method LoadLevels(levels: seq<Level>) returns (l: Ladder)
    ensures l == WriteAll(map[], PositiveOnly(levels))
  {
    l := map[];
    for i := 0 to |levels|
      invariant l == WriteAll(map[], PositiveOnly(levels[..i]))
    {
      LoadOne(levels, i);
      if levels[i].size > 0.0 {
        l := l[levels[i].price := levels[i].size];
      }
    }
    assert levels[..|levels|] == levels;
  }

  /** The loop both sides of `estimate_fill_price` run. */
  method Walk(levels: seq<Level>, size: real) returns (targetSize: real, totalQty: real, totalNotional: real)
    requires 0.0 < size
    ensures targetSize == Fill.Unfilled(levels, size) && totalQty == size - targetSize
    ensures totalNotional == Fill.Cost(levels, size)
  {
    hide Times;
    targetSize, totalQty, totalNotional := size, 0.0, 0.0;
    var i := 0;
    while i < |levels|
      invariant 0 <= i <= |levels|
      invariant 0.0 <= targetSize && totalQty == size - targetSize
      invariant totalNotional == Fill.Cost(levels, size) - Fill.Cost(levels[i..], targetSize)
      invariant Fill.Unfilled(levels[i..], targetSize) == Fill.Unfilled(levels, size)
    {
      if targetSize <= 0.0 { break; }
      var lvl := levels[i];
      var take := if lvl.size <= targetSize then lvl.size else targetSize;
      WalkStep(levels, i, lvl, targetSize, take);
      totalQty := totalQty + take;
      totalNotional := totalNotional + Times(take, lvl.price);
      targetSize := targetSize - take;
      i := i + 1;
    }
    WalkDone(levels[i..], targetSize);
  }

  lemma WalkDone(levels: seq<Level>, t: real)
    requires 0.0 <= t && (levels == [] || t <= 0.0)
    ensures Fill.Cost(levels, t) == 0.0 && Fill.Unfilled(levels, t) == t
  {
  }

  lemma WalkStep(levels: seq<Level>, i: nat, lvl: Level, t: real, take: real)
    requires i < |levels| && lvl == levels[i] && 0.0 < t
    requires take == if lvl.size <= t then lvl.size else t
    ensures Fill.Cost(levels[i..], t) == Times(take, lvl.price) + Fill.Cost(levels[i + 1..], t - take)
    ensures Fill.Unfilled(levels[i..], t) == Fill.Unfilled(levels[i + 1..], t - take)
  {
    assert levels[i..][1..] == levels[i + 1..];
  }

  lemma Optimal(side: Side, levels: seq<Level>, size: real)
    ensures side == Bid && Rising(levels) ==>
              forall xs :: Fill.Allocation(xs, levels, size) ==> Fill.Cost(levels, size) <= Fill.Notional(xs, levels)
    ensures side == Ask && Falling(levels) ==>
              forall xs :: Fill.Allocation(xs, levels, size) ==> Fill.Cost(levels, size) >= Fill.Notional(xs, levels)
  {
    forall xs | Fill.Allocation(xs, levels, size)
      ensures side == Bid && Rising(levels) ==> Fill.Cost(levels, size) <= Fill.Notional(xs, levels)
      ensures side == Ask && Falling(levels) ==> Fill.Cost(levels, size) >= Fill.Notional(xs, levels)
    {
      if Rising(levels) { Fill.GreedyIsCheapest(levels, xs, size); }
      if Falling(levels) { Fill.GreedyIsDearest(levels, xs, size); }
    }
  }

  lemma LoadOne(levels: seq<Level>, i: nat)
    requires i < |levels|
    ensures var before := WriteAll(map[], PositiveOnly(levels[..i]));
            WriteAll(map[], PositiveOnly(levels[..i + 1])) ==
            if levels[i].size > 0.0 then Write(before, levels[i]) else before
  {
    PositiveOnlyStep(levels, i);
    WriteLast(map[], PositiveOnly(levels[..i]), levels[i]);
  }

  lemma PositiveOnlyStep(levels: seq<Level>, i: nat)
    requires i < |levels|
    ensures PositiveOnly(levels[..i + 1]) ==
            if levels[i].size > 0.0 then PositiveOnly(levels[..i]) + [levels[i]] else PositiveOnly(levels[..i])
  {
    assert levels[..i + 1][..i] == levels[..i];
  }

  lemma WriteOne(l: Ladder, writes: seq<Level>, i: nat)
    requires i < |writes|
    ensures WriteAll(l, writes[..i + 1]) == Write(WriteAll(l, writes[..i]), writes[i])
  {
    assert writes[..i + 1][..i] == writes[..i];
  }

  // ----- strict and tolerant application in lockstep -----

  datatype Update = Load(snapshot: OrderbookSnapshot) | Change(delta: OrderbookDelta)

  datatype Trace = Trace(book: Book, outcomes: seq<bool>)

  /** Folds a run of updates through the strict or the tolerant apply, keeping each Ok/Err. */
  function RunStrict(b: Book, updates: seq<Update>): Trace {
    if updates == [] then Trace(b, [])
    else
      var before := RunStrict(b, updates[..|updates| - 1]);
      match updates[|updates| - 1]
      case Load(s) => Trace(before.book.Loaded(s), before.outcomes + [true])
      case Change(d) => Trace(before.book.Strict(d),
          before.outcomes + [WithinGap(before.book.lastSeq, d.prevSequence, 0)])
  }

  function RunTolerant(b: Book, updates: seq<Update>, maxGap: u64): Trace {
    if updates == [] then Trace(b, [])
    else
      var before := RunTolerant(b, updates[..|updates| - 1], maxGap);
      match updates[|updates| - 1]
      case Load(s) => Trace(before.book.Loaded(s), before.outcomes + [true])
      case Change(d) => Trace(before.book.Tolerant(d, maxGap),
          before.outcomes + [WithinGap(before.book.lastSeq, d.prevSequence, maxGap)])
  }

  /** Some delta was refused since the last load (or since the start, if the flag was already up). */
  predicate RefusedSinceLoad(flag: bool, updates: seq<Update>, outcomes: seq<bool>)
    requires |updates| == |outcomes|
  {
    if updates == [] then flag
    else
      var n := |updates| - 1;
      !outcomes[n] || (updates[n].Change? && RefusedSinceLoad(flag, updates[..n], outcomes[..n]))
  }

  /**
   With tolerance 0 the tolerant apply makes the same decisions and leaves the same ladders and
   sequence over every run. Only the resync flag may differ, and only one way: strict applies
   never lower it, so it tells whether anything was refused since the last snapshot, while the
   tolerant one tells whether the very last update was refused.
   */
  lemma {:induction false} ZeroToleranceIsStrict(b: Book, updates: seq<Update>)
    ensures var s, t := RunStrict(b, updates), RunTolerant(b, updates, 0);
            && s.outcomes == t.outcomes && |s.outcomes| == |updates|
            && t.book == s.book.(resyncRequired := t.book.resyncRequired)
            && (s.book.resyncRequired <==> RefusedSinceLoad(b.resyncRequired, updates, s.outcomes))
            && (t.book.resyncRequired <==> if updates == [] then b.resyncRequired else !s.outcomes[|updates| - 1])
  {
    if updates != [] {
      var n := |updates| - 1;
      ZeroToleranceIsStrict(b, updates[..n]);
      var s := RunStrict(b, updates);
      assert s.outcomes[..n] == RunStrict(b, updates[..n]).outcomes;
    }
  }

  // ----- copies -----

  /** Reloading a book's own copy restores its ladders and sequence exactly when every size is positive. */
  lemma CopyRestores(b: Book, symbol: string)
    ensures b.Loaded(b.Copy(symbol)) == b.(resyncRequired := false) <==> b.PositiveSizes()
  {
    LoadListing(Descending(b.bids), b.bids);
    LoadListing(Ascending(b.asks), b.asks);
  }

  /** A negative delta size is stored, and then the copy no longer restores the book. */
  lemma NegativeSizeBreaksCopy()
    ensures var d := OrderbookDelta("X", [Level(1.0, -1.0)], [], None, None);
            var b := EMPTY_BOOK.Tolerant(d, 0);
            b.bids == map[1.0 := -1.0] && b.Loaded(b.Copy("X")) != b.(resyncRequired := false)
  {
    var w := [Level(1.0, -1.0)];
    var d := OrderbookDelta("X", w, [], None, None);
    var b := EMPTY_BOOK.Tolerant(d, 0);
    assert w[..0] == [];
    assert WriteAll(map[], w) == Write(WriteAll(map[], []), w[0]);
    CopyRestores(b, "X");
    assert b.bids[1.0] < 0.0;
  }

  predicate NonNegativeDelta(d: OrderbookDelta) {
    NonNegativeSizes(d.bids) && NonNegativeSizes(d.asks)
  }

  /** Snapshots always leave positive sizes; deltas keep them if they carry no negative size. */
  lemma PositiveSizesKept(b: Book, s: OrderbookSnapshot, d: OrderbookDelta, maxGap: u64)
    ensures b.Loaded(s).PositiveSizes()
    ensures b.PositiveSizes() && NonNegativeDelta(d) ==>
              b.Strict(d).PositiveSizes() && b.Tolerant(d, maxGap).PositiveSizes()
  {
    WriteAllKeepsPositive(map[], PositiveOnly(s.bids));
    WriteAllKeepsPositive(map[], PositiveOnly(s.asks));
    if b.PositiveSizes() && NonNegativeDelta(d) {
      WriteAllKeepsPositive(b.bids, d.bids);
      WriteAllKeepsPositive(b.asks, d.asks);
    }
  }

  /** Writing a just-accepted delta's levels again changes nothing, even with duplicate prices in it. */
  lemma AcceptedDeltaIsIdempotent(b: Book, d: OrderbookDelta, maxGap: u64)
    requires WithinGap(b.lastSeq, d.prevSequence, maxGap)
    ensures var once := b.Tolerant(d, maxGap);
            once.Written(d, once.resyncRequired) == once
  {
    WriteAllIdempotent(b.bids, d.bids);
    WriteAllIdempotent(b.asks, d.asks);
  }

  // ----- fills against a book -----

  function FillDelta(b: Book, side: Side, t: real): OrderbookDelta {
    var writes := Fill.FillWrites(b.Opposite(side), t);
    match side
    case Bid => OrderbookDelta("", [], writes, None, b.lastSeq)
    case Ask => OrderbookDelta("", writes, [], None, b.lastSeq)
  }

  /**
   Estimating a + b on a book is estimating a, applying the level changes that fill publishes as
   a delta, and estimating b on the book that results.
   */
  lemma FillThroughDelta(b: Book, side: Side, x: real, y: real)
    requires b.PositiveSizes() && 0.0 <= x && 0.0 <= y
    ensures var after := b.Tolerant(FillDelta(b, side, x), 0);
            && after.Opposite(side) == Fill.Remaining(b.Opposite(side), x)
            && Fill.Cost(b.Opposite(side), x + y) == Fill.Cost(b.Opposite(side), x) + Fill.Cost(after.Opposite(side), y)
            && (Fill.Unfilled(b.Opposite(side), x) == 0.0 ==>
                  Fill.Unfilled(b.Opposite(side), x + y) == Fill.Unfilled(after.Opposite(side), y))
  {
    var levels := b.Opposite(side);
    var l := if side == Bid then b.asks else b.bids;
    FillLeaves(l, levels, side, x);
    Fill.FillsCompose(levels, x, y);
  }

  lemma FillLeaves(l: Ladder, levels: seq<Level>, side: Side, t: real)
    requires 0.0 <= t
    requires levels == match side case Bid => Ascending(l) case Ask => Descending(l)
    ensures var left := WriteAll(l, Fill.FillWrites(levels, t));
            Fill.Remaining(levels, t) == match side case Bid => Ascending(left) case Ask => Descending(left)
  {
    var left := WriteAll(l, Fill.FillWrites(levels, t));
    var remaining := Fill.Remaining(levels, t);
    Fill.FillWritesLeaveRemaining(levels, l, t);
    Fill.RemainingOrdered(levels, t);
    SoleListing(remaining, left, side);
  }

  lemma SoleListing(levels: seq<Level>, l: Ladder, side: Side)
    requires Lists(levels, l) && if side == Bid then Rising(levels) else Falling(levels)
    ensures levels == match side case Bid => Ascending(l) case Ask => Descending(l)
  {
    match side
    case Bid => RisingListingUnique(levels, Ascending(l), l);
    case Ask => FallingListingUnique(levels, Descending(l), l);
  }

  /** The average price of a larger fill is never better, on either side of any positive book. */
  lemma LargerFillIsNoBetter(b: Book, side: Side, t1: real, t2: real)
    requires b.PositiveSizes() && 0.0 < t1 < t2 <= Fill.Depth(b.Opposite(side))
    ensures var levels := b.Opposite(side);
            match side
            case Bid => PerUnit(Fill.Cost(levels, t1), t1) <= PerUnit(Fill.Cost(levels, t2), t2)
            case Ask => PerUnit(Fill.Cost(levels, t1), t1) >= PerUnit(Fill.Cost(levels, t2), t2)
  {
    match side
    case Bid => Fill.AverageBuyPriceRises(b.Opposite(side), t1, t2);
    case Ask => Fill.AverageSellPriceFalls(b.Opposite(side), t1, t2);
  }
}
