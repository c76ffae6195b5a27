/** `crates/marketdata/src/triview.rs`: best-first views of three books. */
module TriViews {
  import opened Wrappers
  import opened MarketTypes
  import opened Ladders
  import opened OrderBooks

  type Quote = (real, real) // price, size

  datatype TriView = TriView(
    symAb: string, bidsAb: seq<Quote>, asksAb: seq<Quote>,
    symBc: string, bidsBc: seq<Quote>, asksBc: seq<Quote>,
    symAc: string, bidsAc: seq<Quote>, asksAc: seq<Quote>)

  function Quotes(levels: seq<Level>): (r: seq<Quote>)
    ensures |r| == |levels|
    ensures forall i :: 0 <= i < |r| ==> r[i] == (levels[i].price, levels[i].size)
  {
    seq(|levels|, i requires 0 <= i < |levels| => (levels[i].price, levels[i].size))
  }

  function Prefix<T>(s: seq<T>, n: nat): seq<T> { if n < |s| then s[..n] else s }

  method TakeTop(levels: seq<Level>, topN: nat) returns (out: seq<Quote>)
    ensures out == Prefix(Quotes(levels), topN)
  {
    out := [];
    for i := 0 to |levels|
      invariant i <= topN || i == 0
      invariant out == Quotes(levels)[..i]
    {
      if i >= topN { break; }
      out := out + [(levels[i].price, levels[i].size)];
    }
  }

  function ViewOf(symAb: string, ab: OrderbookSnapshot, symBc: string, bc: OrderbookSnapshot, symAc: string,
                  ac: OrderbookSnapshot, n: nat): TriView {
    TriView(symAb, Prefix(Quotes(ab.bids), n), Prefix(Quotes(ab.asks), n),
            symBc, Prefix(Quotes(bc.bids), n), Prefix(Quotes(bc.asks), n),
            symAc, Prefix(Quotes(ac.bids), n), Prefix(Quotes(ac.asks), n))
  }

  /** The first n levels, price and size in place, or all of them if there are fewer. */
  predicate FirstOf(quotes: seq<Quote>, levels: seq<Level>, n: nat) {
    && |quotes| == (if n < |levels| then n else |levels|)
    && forall i :: 0 <= i < |quotes| ==> quotes[i].0 == levels[i].price && quotes[i].1 == levels[i].size
  }

  method BuildTriView(symAb: string, ab: OrderbookSnapshot, symBc: string, bc: OrderbookSnapshot, symAc: string,
                      ac: OrderbookSnapshot, topN: nat)
    returns (view: TriView)
    ensures view == ViewOf(symAb, ab, symBc, bc, symAc, ac, topN)
    ensures view.symAb == symAb && view.symBc == symBc && view.symAc == symAc
    ensures FirstOf(view.bidsAb, ab.bids, topN) && FirstOf(view.asksAb, ab.asks, topN)
    ensures FirstOf(view.bidsBc, bc.bids, topN) && FirstOf(view.asksBc, bc.asks, topN)
    ensures FirstOf(view.bidsAc, ac.bids, topN) && FirstOf(view.asksAc, ac.asks, topN)
  {
    var bidsAb := TakeTop(ab.bids, topN);
    var asksAb := TakeTop(ab.asks, topN);
    var bidsBc := TakeTop(bc.bids, topN);
    var asksBc := TakeTop(bc.asks, topN);
    var bidsAc := TakeTop(ac.bids, topN);
    var asksAc := TakeTop(ac.asks, topN);
    view := TriView(symAb, bidsAb, asksAb, symBc, bidsBc, asksBc, symAc, bidsAc, asksAc);
  }

  function Best(quotes: seq<Quote>): Option<real> {
    if quotes == [] then None else Some(quotes[0].0)
  }

  /**
   A view taken from a book's copy is the book's own top-n on each side, strictly sorted
   best-first, and with n >= 1 its heads are the book's extreme prices.
   */
  lemma ViewAgreesWithBook(b: Book, symbol: string, n: nat)
    ensures Prefix(Quotes(b.Copy(symbol).bids), n) == Quotes(b.TopN(Bid, n)) && Falling(b.TopN(Bid, n))
    ensures Prefix(Quotes(b.Copy(symbol).asks), n) == Quotes(b.TopN(Ask, n)) && Rising(b.TopN(Ask, n))
    ensures n >= 1 ==> HeadIsBest(b, Best(Quotes(b.TopN(Bid, n))), Best(Quotes(b.TopN(Ask, n))))
  {
    hide Rising, Falling;
    SortedPrefix(b.Own(Bid), n);
    SortedPrefix(b.Own(Ask), n);
    PrefixOfQuotes(b.Own(Bid), n);
    PrefixOfQuotes(b.Own(Ask), n);
    if n >= 1 {
      HighestFirst(b.Own(Bid), b.bids);
      LowestFirst(b.Own(Ask), b.asks);
    }
  }

  lemma SortedPrefix(levels: seq<Level>, n: nat)
    ensures Falling(levels) ==> Falling(Prefix(levels, n))
    ensures Rising(levels) ==> Rising(Prefix(levels, n))
  {
  }

  lemma PrefixOfQuotes(levels: seq<Level>, n: nat)
    ensures Prefix(Quotes(levels), n) == Quotes(Prefix(levels, n))
  {
  }

  ghost predicate HeadIsBest(b: Book, bid: Option<real>, ask: Option<real>) {
    && (bid == None <==> b.bids.Keys == {})
    && (bid.Some? ==> bid.value in b.bids && forall p :: p in b.bids ==> p <= bid.value)
    && (ask == None <==> b.asks.Keys == {})
    && (ask.Some? ==> ask.value in b.asks && forall p :: p in b.asks ==> ask.value <= p)
  }
}
