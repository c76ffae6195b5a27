/** Canonical order book types: `crates/orderbook/src/types.rs`. */
module MarketTypes {
  import opened Wrappers

  const U64_LIMIT: nat := 0x1_0000_0000_0000_0000

  type u64 = n: nat | n < U64_LIMIT

  datatype Side = Bid | Ask

  datatype Level = Level(price: real, size: real)

  datatype OrderbookSnapshot = OrderbookSnapshot(
    symbol: string,
    bids: seq<Level>,
    asks: seq<Level>,
    sequence: Option<u64>)

  datatype OrderbookDelta = OrderbookDelta(
    symbol: string,
    bids: seq<Level>,
    asks: seq<Level>,
    prevSequence: Option<u64>,
    sequence: Option<u64>)

  datatype EstimatedFill = EstimatedFill(avgPrice: real, totalQty: real, totalNotional: real)

  datatype OrderBookError =
    | SequenceError(expected: u64, got: u64)
    | InsufficientDepth
    | InvalidArgument(reason: string)

  predicate PositiveSizes(levels: seq<Level>) {
    forall i :: 0 <= i < |levels| ==> levels[i].size > 0.0
  }

  predicate NonNegativeSizes(levels: seq<Level>) {
    forall i :: 0 <= i < |levels| ==> levels[i].size >= 0.0
  }

  /** Strictly increasing prices: asks, best first. */
  predicate Rising(levels: seq<Level>) {
    forall i, j :: 0 <= i < j < |levels| ==> levels[i].price < levels[j].price
  }

  /** Strictly decreasing prices: bids, best first. */
  predicate Falling(levels: seq<Level>) {
    forall i, j :: 0 <= i < j < |levels| ==> levels[i].price > levels[j].price
  }
}
