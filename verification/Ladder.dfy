/**
 One side of a book: price -> size, as the sorted map of `crates/orderbook/src/orderbook.rs`.
 Writes are folds over level lists; reads are the sorted listings that iteration produces.
 */
module Ladders {
  import opened Wrappers
  import opened MarketTypes

  type Ladder = map<real, real>

  predicate Positive(l: Ladder) {
    forall p :: p in l ==> l[p] > 0.0
  }

  // ----- writes -----

  /** One delta level: a zero size deletes the price, anything else overwrites it. */
  function Write(l: Ladder, lvl: Level): Ladder {
    if lvl.size == 0.0 then l - {lvl.price} else l[lvl.price := lvl.size]
  }

  function WriteAll(l: Ladder, writes: seq<Level>): Ladder {
    if writes == [] then l
    else Write(WriteAll(l, writes[..|writes| - 1]), writes[|writes| - 1])
  }

  /** The levels a snapshot load keeps. */
  function PositiveOnly(levels: seq<Level>): (kept: seq<Level>)
    ensures PositiveSizes(kept)
    ensures PositiveSizes(levels) ==> kept == levels
  {
    if levels == [] then []
    else
      var last := levels[|levels| - 1];
      PositiveOnly(levels[..|levels| - 1]) + if last.size > 0.0 then [last] else []
  }

  /** What a history of writes says about one price, with no ladder in sight. */
  function LastWrite(writes: seq<Level>, p: real): Option<real> {
    if writes == [] then None
    else if writes[|writes| - 1].price == p then Some(writes[|writes| - 1].size)
    else LastWrite(writes[..|writes| - 1], p)
  }

  predicate LastMention(writes: seq<Level>, p: real, i: int) {
    && 0 <= i < |writes|
    && writes[i].price == p
    && forall j :: i < j < |writes| ==> writes[j].price != p
  }

  /** `LastWrite` is the size at the last position that mentions the price, if any does. */
  lemma {:induction false} LastWriteIsLast(writes: seq<Level>, p: real)
    ensures LastWrite(writes, p) == None <==> forall i :: 0 <= i < |writes| ==> writes[i].price != p
    ensures forall i :: LastMention(writes, p, i) ==> LastWrite(writes, p) == Some(writes[i].size)
  {
    if writes != [] && writes[|writes| - 1].price != p {
      var rest := writes[..|writes| - 1];
      LastWriteIsLast(rest, p);
      forall i | LastMention(writes, p, i) ensures LastWrite(writes, p) == Some(writes[i].size) {
        assert LastMention(rest, p, i);
      }
      if LastWrite(writes, p) != None {
        var i :| 0 <= i < |rest| && rest[i].price == p;
        assert writes[i].price == p;
      }
    }
  }

  /** The ladder after any writes is the pointwise reading of the last write to each price. */
  lemma {:induction false} WriteAllReadsLastWrite(l: Ladder, writes: seq<Level>, p: real)
    ensures match LastWrite(writes, p)
            case None => (p in WriteAll(l, writes) <==> p in l)
                         && (p in l ==> WriteAll(l, writes)[p] == l[p])
            case Some(z) => (p in WriteAll(l, writes) <==> z != 0.0)
                            && (z != 0.0 ==> WriteAll(l, writes)[p] == z)
  {
    if writes != [] {
      WriteAllReadsLastWrite(l, writes[..|writes| - 1], p);
    }
  }

  predicate PositiveMention(levels: seq<Level>, p: real, i: int) {
    0 <= i < |levels| && levels[i].price == p && levels[i].size > 0.0
  }

  predicate LastPositiveMention(levels: seq<Level>, p: real, i: int) {
    PositiveMention(levels, p, i) && forall j :: i < j < |levels| ==> !PositiveMention(levels, p, j)
  }

  lemma LoadNothing()
    ensures PositiveOnly([]) == [] && WriteAll(map[], []) == map[]
  {
  }

  lemma LoadStep(levels: seq<Level>)
    requires levels != []
    ensures var n := |levels| - 1;
            var before := WriteAll(map[], PositiveOnly(levels[..n]));
            WriteAll(map[], PositiveOnly(levels)) == if levels[n].size > 0.0 then Write(before, levels[n]) else before
  {
    var n := |levels| - 1;
    WriteLast(map[], PositiveOnly(levels[..n]), levels[n]);
    assert PositiveOnly(levels[..n]) + [] == PositiveOnly(levels[..n]);
  }

  /** A freshly loaded ladder holds each price's last positive level, and no other price. */
  lemma {:induction false} LoadReadsLastPositive(levels: seq<Level>, p: real)
    ensures forall i :: LastPositiveMention(levels, p, i) ==>
              p in WriteAll(map[], PositiveOnly(levels)) && WriteAll(map[], PositiveOnly(levels))[p] == levels[i].size
    ensures (forall i :: !PositiveMention(levels, p, i)) ==> p !in WriteAll(map[], PositiveOnly(levels))
  {
    hide WriteAll, PositiveOnly;
    if levels == [] {
      assert PositiveOnly(levels) == [] && WriteAll(map[], []) == map[] by { LoadNothing(); }
    } else {
      var n := |levels| - 1;
      var rest := levels[..n];
      LoadReadsLastPositive(rest, p);
      LoadStep(levels);
      forall i | LastPositiveMention(levels, p, i)
        ensures p in WriteAll(map[], PositiveOnly(levels)) && WriteAll(map[], PositiveOnly(levels))[p] == levels[i].size
      {
        if i < n {
          LastPositiveShorter(levels, p, i);
          assert !PositiveMention(levels, p, n);
        }
      }
      if forall i :: !PositiveMention(levels, p, i) {
        assert !PositiveMention(levels, p, n);
        forall i ensures !PositiveMention(rest, p, i) {
          assert !PositiveMention(levels, p, i);
        }
      }
    }
  }

  lemma LastPositiveShorter(levels: seq<Level>, p: real, i: int)
    requires LastPositiveMention(levels, p, i) && i < |levels| - 1
    ensures LastPositiveMention(levels[..|levels| - 1], p, i)
  {
    var rest := levels[..|levels| - 1];
    forall j | i < j < |rest| ensures !PositiveMention(rest, p, j) {
      assert !PositiveMention(levels, p, j);
    }
  }

  lemma WriteLast(l: Ladder, writes: seq<Level>, lvl: Level)
    ensures WriteAll(l, writes + [lvl]) == Write(WriteAll(l, writes), lvl)
  {
    assert (writes + [lvl])[..|writes|] == writes;
  }

  /** Applying the same level list twice is applying it once, duplicates included. */
  lemma WriteAllIdempotent(l: Ladder, writes: seq<Level>)
    ensures WriteAll(WriteAll(l, writes), writes) == WriteAll(l, writes)
  {
    var once := WriteAll(l, writes);
    var twice := WriteAll(once, writes);
    forall p ensures (p in twice <==> p in once) && (p in once ==> twice[p] == once[p]) {
      WriteAllReadsLastWrite(l, writes, p);
      WriteAllReadsLastWrite(once, writes, p);
    }
  }

  lemma {:induction false} WriteAllAppend(l: Ladder, xs: seq<Level>, ys: seq<Level>)
    ensures WriteAll(l, xs + ys) == WriteAll(WriteAll(l, xs), ys)
  {
    if ys == [] {
      assert xs + ys == xs;
    } else {
      var n := |ys| - 1;
      assert (xs + ys)[..|xs + ys| - 1] == xs + ys[..n];
      WriteAllAppend(l, xs, ys[..n]);
    }
  }

  /** Non-negative deltas keep a ladder positive. */
  lemma {:induction false} WriteAllKeepsPositive(l: Ladder, writes: seq<Level>)
    requires Positive(l) && NonNegativeSizes(writes)
    ensures Positive(WriteAll(l, writes))
  {
    if writes != [] {
      WriteAllKeepsPositive(l, writes[..|writes| - 1]);
    }
  }

  // ----- sorted listings -----

  lemma {:induction false} LeastExists(s: set<real>)
    requires s != {}
    ensures exists m :: m in s && forall k :: k in s ==> m <= k
  {
    assert (forall x :: x !in s) ==> s == {};
    var x :| x in s;
    var rest := s - {x};
    if rest == {} {
      assert s == {x};
    } else {
      LeastExists(rest);
      var m :| m in rest && forall k :: k in rest ==> m <= k;
      var least := if x < m then x else m;
      assert forall k :: k in s ==> k == x || k in rest;
      assert least in s && forall k :: k in s ==> least <= k;
    }
  }

  function Least(s: set<real>): (m: real)
    requires s != {}
    ensures m in s && forall k :: k in s ==> m <= k
  {
    LeastExists(s);
    var m :| m in s && forall k :: k in s ==> m <= k;
    m
  }

  /** The ladder in ascending price order, the order of a forward iteration. */
  function Ascending(l: Ladder): (levels: seq<Level>)
    ensures Rising(levels) && Lists(levels, l)
    decreases |l.Keys|
  {
    if l.Keys == {} then []
    else
      var p := Least(l.Keys);
      var rest := l - {p};
      assert rest.Keys == l.Keys - {p};
      var tail := Ascending(rest);
      var levels := [Level(p, l[p])] + tail;
      AscendingStep(l, p, tail);
      levels
  }

  lemma AscendingStep(l: Ladder, p: real, tail: seq<Level>)
    requires p in l && forall k :: k in l ==> p <= k
    requires Rising(tail) && Lists(tail, l - {p})
    ensures Rising([Level(p, l[p])] + tail) && Lists([Level(p, l[p])] + tail, l)
  {
    var levels := [Level(p, l[p])] + tail;
    forall q | q in l ensures Mentions(levels, q) {
      if q == p {
        assert levels[0].price == q;
      } else {
        assert Mentions(tail, q);
        var i :| 0 <= i < |tail| && tail[i].price == q;
        assert levels[i + 1].price == q;
      }
    }
  }

  /** The ladder in descending price order, the order of a reversed iteration. */
  function Descending(l: Ladder): (levels: seq<Level>)
    ensures Falling(levels) && Lists(levels, l)
  {
    ReversedLists(Ascending(l), l);
    Reversed(Ascending(l))
  }

  function Reversed(levels: seq<Level>): (r: seq<Level>)
    ensures |r| == |levels|
    ensures forall i :: 0 <= i < |r| ==> r[i] == levels[|levels| - 1 - i]
  {
    if levels == [] then [] else Reversed(levels[1..]) + [levels[0]]
  }

  predicate Mentions(levels: seq<Level>, p: real) {
    exists i :: 0 <= i < |levels| && levels[i].price == p
  }

  /** The listing holds exactly the ladder's entries. */
  ghost predicate Lists(levels: seq<Level>, l: Ladder) {
    && (forall i :: 0 <= i < |levels| ==> levels[i].price in l && l[levels[i].price] == levels[i].size)
    && (forall p {:trigger Mentions(levels, p)} :: p in l ==> Mentions(levels, p))
  }

  predicate DistinctPrices(levels: seq<Level>) {
    forall i, j :: 0 <= i < j < |levels| ==> levels[i].price != levels[j].price
  }

  lemma TailLists(xs: seq<Level>, l: Ladder)
    requires xs != [] && DistinctPrices(xs) && Lists(xs, l)
    ensures Lists(xs[1..], l - {xs[0].price})
  {
    var tail := xs[1..];
    forall p | p in l - {xs[0].price} ensures Mentions(tail, p) {
      assert Mentions(xs, p);
      var i :| 0 <= i < |xs| && xs[i].price == p;
      assert tail[i - 1].price == p;
    }
  }

  lemma RisingHead(xs: seq<Level>, ys: seq<Level>, l: Ladder)
    requires Rising(xs) && Rising(ys) && Lists(xs, l) && Lists(ys, l)
    requires xs != [] && ys != []
    ensures xs[0].price <= ys[0].price
  {
    assert Mentions(xs, ys[0].price);
  }

  /** A ladder has one ascending listing. */
  lemma {:induction false} RisingListingUnique(xs: seq<Level>, ys: seq<Level>, l: Ladder)
    requires Rising(xs) && Rising(ys) && Lists(xs, l) && Lists(ys, l)
    ensures xs == ys
  {
    if xs == [] {
      assert ys != [] ==> Mentions(xs, ys[0].price);
    } else {
      assert Mentions(ys, xs[0].price);
      RisingHead(xs, ys, l);
      RisingHead(ys, xs, l);
      assert xs[0] == ys[0];
      TailLists(xs, l);
      TailLists(ys, l);
      RisingListingUnique(xs[1..], ys[1..], l - {xs[0].price});
      assert xs == [xs[0]] + xs[1..] && ys == [ys[0]] + ys[1..];
    }
  }

  lemma ReversedLists(xs: seq<Level>, l: Ladder)
    requires Lists(xs, l)
    ensures Lists(Reversed(xs), l)
  {
    var r := Reversed(xs);
    forall p | p in l ensures Mentions(r, p) {
      assert Mentions(xs, p);
      var i :| 0 <= i < |xs| && xs[i].price == p;
      assert r[|xs| - 1 - i].price == p;
    }
  }

  lemma HighestFirst(levels: seq<Level>, l: Ladder)
    requires Falling(levels) && Lists(levels, l)
    ensures levels == [] <==> l.Keys == {}
    ensures levels != [] ==> levels[0].price in l && forall p :: p in l ==> p <= levels[0].price
  {
    forall p | p in l ensures levels != [] && p <= levels[0].price {
      assert Mentions(levels, p);
    }
  }

  lemma LowestFirst(levels: seq<Level>, l: Ladder)
    requires Rising(levels) && Lists(levels, l)
    ensures levels == [] <==> l.Keys == {}
    ensures levels != [] ==> levels[0].price in l && forall p :: p in l ==> levels[0].price <= p
  {
    forall p | p in l ensures levels != [] && levels[0].price <= p {
      assert Mentions(levels, p);
    }
  }

  lemma ReversedTwice(xs: seq<Level>)
    ensures Reversed(Reversed(xs)) == xs
  {
  }

  /** A ladder has one descending listing. */
  lemma FallingListingUnique(xs: seq<Level>, ys: seq<Level>, l: Ladder)
    requires Falling(xs) && Falling(ys) && Lists(xs, l) && Lists(ys, l)
    ensures xs == ys
  {
    ReversedLists(xs, l);
    ReversedLists(ys, l);
    RisingListingUnique(Reversed(xs), Reversed(ys), l);
    ReversedTwice(xs);
    ReversedTwice(ys);
  }

  lemma ListingIsLastWrite(levels: seq<Level>, l: Ladder, p: real)
    requires DistinctPrices(levels) && Lists(levels, l)
    ensures LastWrite(levels, p) == if p in l then Some(l[p]) else None
  {
    hide LastWrite;
    LastWriteIsLast(levels, p);
    if p in l {
      assert Mentions(levels, p);
      var i :| 0 <= i < |levels| && levels[i].price == p;
      assert LastMention(levels, p, i);
    }
  }

  lemma LoadPositiveListing(levels: seq<Level>, l: Ladder)
    requires DistinctPrices(levels) && Lists(levels, l) && Positive(l)
    ensures WriteAll(map[], PositiveOnly(levels)) == l
  {
    hide WriteAll, LastWrite, PositiveOnly;
    var loaded := WriteAll(map[], levels);
    assert PositiveOnly(levels) == levels;
    forall p ensures (p in loaded <==> p in l) && (p in l ==> loaded[p] == l[p]) {
      WriteAllReadsLastWrite(map[], levels, p);
      ListingIsLastWrite(levels, l, p);
    }
  }

  /** Loading a listing of a ladder gives the ladder back exactly when every size is positive. */
  lemma LoadListing(levels: seq<Level>, l: Ladder)
    requires DistinctPrices(levels) && Lists(levels, l)
    ensures WriteAll(map[], PositiveOnly(levels)) == l <==> Positive(l)
  {
    WriteAllKeepsPositive(map[], PositiveOnly(levels));
    if Positive(l) {
      LoadPositiveListing(levels, l);
    }
  }
}
