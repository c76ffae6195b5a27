/**
 The market-order walk of `estimate_fill_price`, as a function on a best-first listing,
 and what it achieves: the greedy walk is optimal over every allocation, its cost is convex,
 and it composes with itself through the ladder it leaves behind.
 */
module Fill {
  import opened RealFacts
  import opened MarketTypes
  import opened Ladders

  function Min(x: real, y: real): real { if x <= y then x else y }

  /** Total notional of walking the listing best-first for `t` units. */
  function Cost(levels: seq<Level>, t: real): real {
    if levels == [] || t <= 0.0 then 0.0
    else
      var take := Min(levels[0].size, t);
      Times(take, levels[0].price) + Cost(levels[1..], t - take)
  }

  /** The quantity the walk could not place. */
  function Unfilled(levels: seq<Level>, t: real): (u: real)
    ensures t >= 0.0 ==> u >= 0.0
  {
    if levels == [] || t <= 0.0 then t
    else Unfilled(levels[1..], t - Min(levels[0].size, t))
  }

  function Depth(levels: seq<Level>): real {
    if levels == [] then 0.0 else levels[0].size + Depth(levels[1..])
  }

  // ----- allocations: every way of splitting an order over the levels -----

  function Sum(xs: seq<real>): real {
    if xs == [] then 0.0 else xs[0] + Sum(xs[1..])
  }

  function Notional(xs: seq<real>, levels: seq<Level>): real
    requires |xs| == |levels|
  {
    if xs == [] then 0.0 else Times(xs[0], levels[0].price) + Notional(xs[1..], levels[1..])
  }

  predicate Allocation(xs: seq<real>, levels: seq<Level>, t: real) {
    && |xs| == |levels|
    && (forall i :: 0 <= i < |xs| ==> 0.0 <= xs[i] <= levels[i].size)
    && Sum(xs) == t
  }

  /** The allocation the walk itself makes. */
  function Takes(levels: seq<Level>, t: real): (xs: seq<real>)
    ensures |xs| == |levels|
  {
    if levels == [] then []
    else
      var take := if t <= 0.0 then 0.0 else Min(levels[0].size, t);
      [take] + Takes(levels[1..], t - take)
  }

  predicate PricesAtLeast(levels: seq<Level>, p: real) {
    forall i :: 0 <= i < |levels| ==> p <= levels[i].price
  }

  lemma {:induction false} AllocationBounds(xs: seq<real>, levels: seq<Level>, t: real)
    requires Allocation(xs, levels, t)
    ensures NonNegativeSizes(levels)
    ensures 0.0 <= t <= Depth(levels)
  {
    if xs != [] {
      assert levels[0].size >= xs[0] >= 0.0;
      AllocationBounds(xs[1..], levels[1..], t - xs[0]);
    }
  }

  /** The walk fails to place an order exactly when the side is not deep enough. */
  lemma {:induction false} UnfilledIsShortfall(levels: seq<Level>, t: real)
    requires NonNegativeSizes(levels) && t >= 0.0
    ensures Unfilled(levels, t) == if t <= Depth(levels) then 0.0 else t - Depth(levels)
  {
    if levels != [] {
      DepthNonNegative(levels[1..]);
      if t > 0.0 {
        UnfilledIsShortfall(levels[1..], t - Min(levels[0].size, t));
      }
    }
  }

  lemma {:induction false} DepthNonNegative(levels: seq<Level>)
    requires NonNegativeSizes(levels)
    ensures Depth(levels) >= 0.0
  {
    if levels != [] { DepthNonNegative(levels[1..]); }
  }

  /** The walk's own takes are an allocation, and cost what the walk reports. */
  lemma {:induction false} TakesAreAllocation(levels: seq<Level>, t: real)
    requires NonNegativeSizes(levels) && 0.0 <= t <= Depth(levels)
    ensures Allocation(Takes(levels, t), levels, t)
    ensures Notional(Takes(levels, t), levels) == Cost(levels, t)
  {
    hide Times;
    if levels != [] {
      var take := if t <= 0.0 then 0.0 else Min(levels[0].size, t);
      var rest := Takes(levels[1..], t - take);
      assert take <= t && t - take <= Depth(levels[1..]) by { DepthNonNegative(levels[1..]); }
      TakesAreAllocation(levels[1..], t - take);
      CostStep(levels, t);
      MoreTaken(levels[0], levels[1..], take, rest, t - take);
      assert [levels[0]] + levels[1..] == levels;
    }
  }

  lemma CostStep(levels: seq<Level>, t: real)
    requires levels != [] && t >= 0.0
    ensures var take := if t <= 0.0 then 0.0 else Min(levels[0].size, t);
            Cost(levels, t) == Times(take, levels[0].price) + Cost(levels[1..], t - take)
  {
    CostOfNothing(levels[1..]);
    TimesZero(levels[0].price);
  }

  lemma MoreTaken(level: Level, levels: seq<Level>, x: real, xs: seq<real>, t: real)
    requires Allocation(xs, levels, t) && 0.0 <= x <= level.size
    ensures Allocation([x] + xs, [level] + levels, x + t)
    ensures Notional([x] + xs, [level] + levels) == Times(x, level.price) + Notional(xs, levels)
  {
    hide Times;
    assert ([x] + xs)[1..] == xs && ([level] + levels)[1..] == levels;
  }

  lemma CostOfNothing(levels: seq<Level>)
    ensures Cost(levels, 0.0) == 0.0
  {
  }

  /** Every further unit costs at least the lowest price on the listing. */
  lemma {:induction false} MarginalCost(levels: seq<Level>, p: real, a: real, b: real)
    requires NonNegativeSizes(levels) && PricesAtLeast(levels, p)
    requires 0.0 <= a <= b <= Depth(levels)
    ensures Cost(levels, b) - Cost(levels, a) >= Times(b - a, p)
  {
    hide Times;
    if levels == [] || a == b {
      assert b - a == 0.0;
      TimesZero(p);
    } else {
      var s, p0, rest := levels[0].size, levels[0].price, levels[1..];
      DepthNonNegative(rest);
      if b <= s {
        CostWithinTop(levels, a);
        CostWithinTop(levels, b);
        TimesDifference(a, b, p0);
        TimesMonotone(b - a, p, p0);
      } else if a <= s {
        MarginalCost(rest, p, 0.0, b - s);
        CostWithinTop(levels, a);
        CostBeyondTop(levels, b);
        CostOfNothing(rest);
        TimesDifference(a, s, p0);
        TimesMonotone(s - a, p, p0);
        assert b - s - 0.0 == b - s && (s - a) + (b - s) == b - a;
        TimesSum(s - a, b - s, p);
      } else {
        MarginalCost(rest, p, a - s, b - s);
        CostBeyondTop(levels, a);
        CostBeyondTop(levels, b);
        assert (b - s) - (a - s) == b - a;
      }
    }
  }

  lemma TimesDifference(a: real, b: real, p: real)
    ensures Times(b, p) - Times(a, p) == Times(b - a, p)
  {
    hide Times;
    assert a + (b - a) == b;
    TimesSum(a, b - a, p);
  }

  lemma CostBeyondTop(levels: seq<Level>, t: real)
    requires levels != [] && 0.0 <= levels[0].size <= t
    ensures Cost(levels, t) == Times(levels[0].size, levels[0].price) + Cost(levels[1..], t - levels[0].size)
  {
    hide Times;
    if t == 0.0 {
      CostOfNothing(levels[1..]);
      TimesZero(levels[0].price);
    }
  }

  lemma CostWithinTop(levels: seq<Level>, t: real)
    requires levels != [] && 0.0 <= t <= levels[0].size
    ensures Cost(levels, t) == Times(t, levels[0].price)
  {
    hide Times;
    CostOfNothing(levels[1..]);
    TimesZero(levels[0].price);
  }

  /** Greedy optimality: no allocation of the same quantity over an ascending listing is cheaper. */
  lemma {:induction false} GreedyIsCheapest(levels: seq<Level>, xs: seq<real>, t: real)
    requires Rising(levels) && Allocation(xs, levels, t)
    ensures Cost(levels, t) <= Notional(xs, levels)
  {
    hide Times;
    AllocationBounds(xs, levels, t);
    if levels != [] {
      var s, p0, rest, x := levels[0].size, levels[0].price, levels[1..], xs[0];
      AllocationBounds(xs[1..], rest, t - x);
      GreedyIsCheapest(rest, xs[1..], t - x);
      var take := Min(s, t);
      MarginalCost(rest, p0, t - take, t - x);
      TimesDifference(x, take, p0);
      assert (t - x) - (t - take) == take - x;
      if t <= 0.0 {
        CostOfNothing(rest);
        CostOfNothing(levels);
        TimesZero(p0);
      }
    }
  }

  // ----- selling: the same walk with the prices mirrored -----

  function Mirrored(levels: seq<Level>): (m: seq<Level>)
    ensures |m| == |levels|
    ensures forall i :: 0 <= i < |m| ==> m[i] == Level(-levels[i].price, levels[i].size)
  {
    if levels == [] then []
    else [Level(-levels[0].price, levels[0].size)] + Mirrored(levels[1..])
  }

  lemma {:induction false} MirrorNegatesCost(levels: seq<Level>, t: real)
    ensures Cost(Mirrored(levels), t) == -Cost(levels, t)
  {
    hide Times;
    if levels != [] && t > 0.0 {
      var take := Min(levels[0].size, t);
      assert Mirrored(levels)[1..] == Mirrored(levels[1..]);
      MirrorNegatesCost(levels[1..], t - take);
      TimesNegated(take, levels[0].price);
    }
  }

  lemma {:induction false} MirrorNegatesNotional(xs: seq<real>, levels: seq<Level>)
    requires |xs| == |levels|
    ensures Notional(xs, Mirrored(levels)) == -Notional(xs, levels)
  {
    hide Times;
    if xs != [] {
      assert Mirrored(levels)[1..] == Mirrored(levels[1..]);
      MirrorNegatesNotional(xs[1..], levels[1..]);
      TimesNegated(xs[0], levels[0].price);
    }
  }

  /** Greedy optimality when selling into a descending listing: no allocation earns more. */
  lemma GreedyIsDearest(levels: seq<Level>, xs: seq<real>, t: real)
    requires Falling(levels) && Allocation(xs, levels, t)
    ensures Cost(levels, t) >= Notional(xs, levels)
  {
    hide Times;
    GreedyIsCheapest(Mirrored(levels), xs, t);
    MirrorNegatesCost(levels, t);
    MirrorNegatesNotional(xs, levels);
  }

  // ----- convexity, from optimality -----

  function Mix(j: real, xs: seq<real>, k: real, ys: seq<real>): (zs: seq<real>)
    requires |xs| == |ys|
    ensures |zs| == |xs|
  {
    if xs == [] then [] else [Times(j, xs[0]) + Times(k, ys[0])] + Mix(j, xs[1..], k, ys[1..])
  }

  predicate Weights(j: real, k: real) {
    0.0 <= j && 0.0 <= k && j + k == 1.0
  }

  lemma {:induction false} NotionalOfMix(j: real, xs: seq<real>, k: real, ys: seq<real>, levels: seq<Level>)
    requires |xs| == |ys| == |levels|
    ensures Notional(Mix(j, xs, k, ys), levels) == Times(j, Notional(xs, levels)) + Times(k, Notional(ys, levels))
  {
    hide Times;
    if xs == [] {
      TimesZero(j);
      TimesZero(k);
    } else {
      var p := levels[0].price;
      assert Mix(j, xs, k, ys)[1..] == Mix(j, xs[1..], k, ys[1..]);
      NotionalOfMix(j, xs[1..], k, ys[1..], levels[1..]);
      TimesSum(Times(j, xs[0]), Times(k, ys[0]), p);
      TimesAssociates(j, xs[0], p);
      TimesAssociates(k, ys[0], p);
      TimesOfSum(j, Times(xs[0], p), Notional(xs[1..], levels[1..]));
      TimesOfSum(k, Times(ys[0], p), Notional(ys[1..], levels[1..]));
    }
  }

  lemma {:induction false} MixIsAllocation(j: real, xs: seq<real>, k: real, ys: seq<real>, levels: seq<Level>, a: real,
                                           b: real)
    requires Weights(j, k)
    requires Allocation(xs, levels, a) && Allocation(ys, levels, b)
    ensures Allocation(Mix(j, xs, k, ys), levels, Times(j, a) + Times(k, b))
  {
    hide Times;
    if xs == [] {
      TimesZero(j);
      TimesZero(k);
    } else {
      var x, y, a', b' := xs[0], ys[0], a - xs[0], b - ys[0];
      assert Allocation(xs[1..], levels[1..], a') && Allocation(ys[1..], levels[1..], b');
      MixIsAllocation(j, xs[1..], k, ys[1..], levels[1..], a', b');
      BlendBounds(j, k, x, y, levels[0].size);
      TimesOfSum(j, x, a');
      TimesOfSum(k, y, b');
      assert x + a' == a && y + b' == b;
      AllocationCons(Times(j, x) + Times(k, y), Mix(j, xs[1..], k, ys[1..]), levels, Times(j, a') + Times(k, b'));
    }
  }

  lemma AllocationCons(z: real, zs: seq<real>, levels: seq<Level>, t: real)
    requires levels != [] && 0.0 <= z <= levels[0].size
    requires Allocation(zs, levels[1..], t)
    ensures Allocation([z] + zs, levels, z + t)
  {
    assert ([z] + zs)[1..] == zs;
  }

  /** The cost of buying is a convex function of the quantity. */
  lemma CostIsConvex(levels: seq<Level>, j: real, a: real, k: real, b: real)
    requires Rising(levels) && NonNegativeSizes(levels) && Weights(j, k)
    requires 0.0 <= a <= Depth(levels) && 0.0 <= b <= Depth(levels)
    ensures Cost(levels, Times(j, a) + Times(k, b)) <= Times(j, Cost(levels, a)) + Times(k, Cost(levels, b))
  {
    hide *;
    TakesAreAllocation(levels, a);
    TakesAreAllocation(levels, b);
    var xs, ys := Takes(levels, a), Takes(levels, b);
    MixIsAllocation(j, xs, k, ys, levels, a, b);
    NotionalOfMix(j, xs, k, ys, levels);
    GreedyIsCheapest(levels, Mix(j, xs, k, ys), Times(j, a) + Times(k, b));
  }

  lemma CostOfPart(levels: seq<Level>, k: real, t: real)
    requires Rising(levels) && NonNegativeSizes(levels) && 0.0 <= k <= 1.0 && 0.0 <= t <= Depth(levels)
    ensures Cost(levels, Times(k, t)) <= Times(k, Cost(levels, t))
  {
    hide Times;
    var j := 1.0 - k;
    CostIsConvex(levels, k, t, j, 0.0);
    CostOfNothing(levels);
    TimesZero(j);
  }

  /** A larger buy never gets a better average price. */
  lemma AverageBuyPriceRises(levels: seq<Level>, t1: real, t2: real)
    requires Rising(levels) && NonNegativeSizes(levels) && 0.0 < t1 < t2 <= Depth(levels)
    ensures PerUnit(Cost(levels, t1), t1) <= PerUnit(Cost(levels, t2), t2)
  {
    hide Times, PerUnit;
    var k := Fraction(t1, t2);
    CostOfPart(levels, k, t2);
    PerUnitOfPart(Cost(levels, t1), Cost(levels, t2), k, t1, t2);
  }

  lemma Fraction(t1: real, t2: real) returns (k: real)
    requires 0.0 < t1 < t2
    ensures 0.0 <= k <= 1.0 && Times(k, t2) == t1
  {
    k := t1 / t2;
  }

  /** A larger sale never gets a better average price. */
  lemma AverageSellPriceFalls(levels: seq<Level>, t1: real, t2: real)
    requires Falling(levels) && NonNegativeSizes(levels) && 0.0 < t1 < t2 <= Depth(levels)
    ensures PerUnit(Cost(levels, t1), t1) >= PerUnit(Cost(levels, t2), t2)
  {
    hide *;
    MirrorSorted(levels);
    MirrorDepth(levels);
    AverageBuyPriceRises(Mirrored(levels), t1, t2);
    MirrorNegatesCost(levels, t1);
    MirrorNegatesCost(levels, t2);
    NegatedAverages(Cost(levels, t1), t1, Cost(levels, t2), t2);
  }

  lemma NegatedAverages(c: real, t: real, d: real, u: real)
    requires t > 0.0 && u > 0.0 && PerUnit(-c, t) <= PerUnit(-d, u)
    ensures PerUnit(c, t) >= PerUnit(d, u)
  {
    hide PerUnit;
    PerUnitNegated(c, t);
    PerUnitNegated(d, u);
  }

  lemma MirrorSorted(levels: seq<Level>)
    requires Falling(levels) && NonNegativeSizes(levels)
    ensures Rising(Mirrored(levels)) && NonNegativeSizes(Mirrored(levels))
  {
  }

  lemma {:induction false} MirrorDepth(levels: seq<Level>)
    ensures Depth(Mirrored(levels)) == Depth(levels)
  {
    if levels != [] {
      assert Mirrored(levels)[1..] == Mirrored(levels[1..]);
      MirrorDepth(levels[1..]);
    }
  }

  // ----- the walk against the best quote -----

  /**
   Buying a quantity never costs less than all of it at the best ask, and costs that exactly within
   the best level.
   */
  lemma BuyingAboveQuote(levels: seq<Level>, t: real)
    requires levels != [] && Rising(levels) && PositiveSizes(levels) && 0.0 <= t <= Depth(levels)
    ensures Cost(levels, t) >= Times(t, levels[0].price)
    ensures Cost(levels, t) == Times(t, levels[0].price) <==> t <= levels[0].size
  {
    hide Times, Cost;
    var s, p, rest := levels[0].size, levels[0].price, levels[1..];
    if t <= s {
      CostWithinTop(levels, t);
    } else {
      CostBeyondTop(levels, t);
      MarginalCost(rest, rest[0].price, 0.0, t - s);
      CostOfNothing(rest);
      TimesDifference(s, t, p);
      TimesStrictlyMonotone(t - s, p, rest[0].price);
      assert t - s - 0.0 == t - s;
    }
  }

  /** Selling never earns more than all of it at the best bid, and earns that exactly within the best level. */
  lemma SellingBelowQuote(levels: seq<Level>, t: real)
    requires levels != [] && Falling(levels) && PositiveSizes(levels) && 0.0 <= t <= Depth(levels)
    ensures Cost(levels, t) <= Times(t, levels[0].price)
    ensures Cost(levels, t) == Times(t, levels[0].price) <==> t <= levels[0].size
  {
    hide Times, Cost, Depth;
    MirrorDepth(levels);
    BuyingAboveQuote(Mirrored(levels), t);
    MirrorNegatesCost(levels, t);
    TimesNegated(t, levels[0].price);
  }

  // ----- the ladder a fill leaves behind -----

  /** The listing left after walking `t` units off the front. */
  function Remaining(levels: seq<Level>, t: real): seq<Level> {
    if levels == [] || t <= 0.0 then levels
    else if t < levels[0].size then [Level(levels[0].price, levels[0].size - t)] + levels[1..]
    else Remaining(levels[1..], t - levels[0].size)
  }

  /** The level changes an exchange would publish for that fill, in delta form. */
  function FillWrites(levels: seq<Level>, t: real): seq<Level> {
    if levels == [] || t <= 0.0 then []
    else if t < levels[0].size then [Level(levels[0].price, levels[0].size - t)]
    else [Level(levels[0].price, 0.0)] + FillWrites(levels[1..], t - levels[0].size)
  }

  /** Filling a + b costs exactly filling a, then b on what is left. */
  lemma {:induction false} FillsCompose(levels: seq<Level>, a: real, b: real)
    requires PositiveSizes(levels) && 0.0 <= a && 0.0 <= b
    ensures Cost(levels, a + b) == Cost(levels, a) + Cost(Remaining(levels, a), b)
    ensures Unfilled(levels, a) == 0.0 ==> Unfilled(levels, a + b) == Unfilled(Remaining(levels, a), b)
  {
    hide Times;
    if levels == [] || a == 0.0 {
      CostOfNothing(levels);
      assert a + b == b || levels == [];
    } else if a < levels[0].size {
      FillsComposeWithinTop(levels, a, b);
    } else {
      var s := levels[0].size;
      FillsCompose(levels[1..], a - s, b);
      CostBeyondTop(levels, a);
      CostBeyondTop(levels, a + b);
      assert a - s + b == a + b - s;
    }
  }

  lemma FillsComposeWithinTop(levels: seq<Level>, a: real, b: real)
    requires levels != [] && 0.0 < a < levels[0].size && 0.0 <= b
    ensures Cost(levels, a + b) == Cost(levels, a) + Cost(Remaining(levels, a), b)
    ensures Unfilled(levels, a + b) == Unfilled(Remaining(levels, a), b)
  {
    hide Times;
    var s, q := levels[0].size, levels[0].price;
    var left := Remaining(levels, a);
    assert left[1..] == levels[1..];
    CostWithinTop(levels, a);
    if b <= s - a {
      CostWithinTop(levels, a + b);
      CostWithinTop(left, b);
      TimesSum(a, b, q);
    } else {
      CostBeyondTop(levels, a + b);
      CostBeyondTop(left, b);
      assert a + b - s == b - (s - a);
      TimesDifference(a, s, q);
    }
  }

  /** Publishing the fill's level changes as a delta leaves exactly the remaining listing. */
  lemma {:induction false} FillWritesLeaveRemaining(levels: seq<Level>, l: Ladder, t: real)
    requires DistinctPrices(levels) && Lists(levels, l) && 0.0 <= t
    ensures Lists(Remaining(levels, t), WriteAll(l, FillWrites(levels, t)))
  {
    if levels != [] && t > 0.0 {
      var p, s, rest := levels[0].price, levels[0].size, levels[1..];
      if t < s {
        var w := Level(p, s - t);
        assert [w][..0] == [];
        assert WriteAll(l, [w]) == Write(WriteAll(l, []), w) == l[p := s - t];
        var left := Remaining(levels, t);
        forall q | q in l[p := s - t] ensures Mentions(left, q) {
          assert Mentions(levels, q);
          var i :| 0 <= i < |levels| && levels[i].price == q;
          assert left[i].price == q;
        }
      } else {
        TailLists(levels, l);
        var w := Level(p, 0.0);
        assert [w][..0] == [];
        assert WriteAll(l, [w]) == Write(WriteAll(l, []), w) == l - {p};
        FillWritesLeaveRemaining(rest, l - {p}, t - s);
        WriteAllAppend(l, [w], FillWrites(rest, t - s));
      }
    }
  }

  lemma {:induction false} RemainingOrdered(levels: seq<Level>, t: real)
    ensures Rising(levels) ==> Rising(Remaining(levels, t))
    ensures Falling(levels) ==> Falling(Remaining(levels, t))
  {
    if levels != [] && t > 0.0 && t >= levels[0].size {
      RemainingOrdered(levels[1..], t - levels[0].size);
    }
  }
}
