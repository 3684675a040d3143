/** The walk of an arriving order through one side of the book, as a function of the available
    levels, and what it achieves: it keeps limit and budget, and a buy gets within one share lot
    of the most shares any allocation could get. */
module Matching {
  import opened Decimals
  import opened Domain

  datatype Lot = Lot(price: real, shares: real)

  /** The lots taken and the budget (or shares) left over. */
  datatype Walk = Walk(lots: seq<Lot>, left: real)

  function Notional(price: real, shares: real): real {
    price * shares
  }

  function Spent(lots: seq<Lot>): real {
    if lots == [] then 0.0 else Notional(lots[0].price, lots[0].shares) + Spent(lots[1..])
  }

  function Shares(lots: seq<Lot>): real {
    if lots == [] then 0.0 else lots[0].shares + Shares(lots[1..])
  }

  function BuyTake(level: Level, budget: real): real
    requires level.price > 0.0
  {
    Min(level.size, FloorTo(budget / level.price, SHARE_LOT))
  }

  function BuyWalk(levels: seq<Level>, limit: real, budget: real): Walk
    requires PricedInRange(levels)
  {
    if levels == [] || levels[0].price > limit || budget <= 0.0 then
      Walk([], budget)
    else if levels[0].size <= 0.0 || BuyTake(levels[0], budget) <= 0.0 then
      BuyWalk(levels[1..], limit, budget)
    else
      var take := BuyTake(levels[0], budget);
      var rest := BuyWalk(levels[1..], limit, budget - Notional(levels[0].price, take));
      Walk([Lot(levels[0].price, take)] + rest.lots, rest.left)
  }

  function SellWalk(levels: seq<Level>, limit: real, remaining: real): Walk {
    if levels == [] || levels[0].price < limit || remaining <= 0.0 then
      Walk([], remaining)
    else if levels[0].size <= 0.0 then
      SellWalk(levels[1..], limit, remaining)
    else
      var take := Min(levels[0].size, remaining);
      var rest := SellWalk(levels[1..], limit, remaining - take);
      Walk([Lot(levels[0].price, take)] + rest.lots, rest.left)
  }

  /** A buy is complete when not even one more lot at the last price is affordable. */
  predicate BuyComplete(w: Walk) {
    w.lots != [] && w.left < w.lots[|w.lots| - 1].price * SHARE_LOT
  }

  predicate SellComplete(w: Walk) {
    w.left <= 0.0
  }

  // ---------------------------------------------------------------- what every walk keeps

  /** Every lot comes from a distinct level, in order, and takes at most what it offers. */
  ghost predicate TakenFrom(lots: seq<Lot>, levels: seq<Level>)
    decreases |levels|
  {
    if lots == [] then true
    else if levels == [] then false
    else
      || TakenFrom(lots, levels[1..])
      || (lots[0].price == levels[0].price && 0.0 < lots[0].shares <= levels[0].size
          && TakenFrom(lots[1..], levels[1..]))
  }

  ghost predicate LotsWithin(lots: seq<Lot>, side: Side, limit: real) {
    forall i :: 0 <= i < |lots| ==>
      && 0.0 < lots[i].price < 1.0 && lots[i].shares > 0.0
      && (if side.Buy? then lots[i].price <= limit else lots[i].price >= limit)
  }

  lemma {:induction false} BuyWalkKeeps(levels: seq<Level>, limit: real, budget: real)
    requires PricedInRange(levels) && budget >= 0.0
    ensures var w := BuyWalk(levels, limit, budget);
      && LotsWithin(w.lots, Buy, limit) && TakenFrom(w.lots, levels) && |w.lots| <= |levels|
      && w.left >= 0.0 && Spent(w.lots) + w.left == budget
    decreases |levels|
  {
    if levels == [] || levels[0].price > limit || budget <= 0.0 {
    } else if levels[0].size <= 0.0 || BuyTake(levels[0], budget) <= 0.0 {
      BuyWalkKeeps(levels[1..], limit, budget);
    } else {
      Affordable(levels[0], budget);
      BuyWalkKeeps(levels[1..], limit, budget - Notional(levels[0].price, BuyTake(levels[0], budget)));
    }
  }

  lemma Affordable(level: Level, budget: real)
    requires level.price > 0.0
    ensures Notional(level.price, BuyTake(level, budget)) <= budget
  {
    MulLe(BuyTake(level, budget), budget / level.price, level.price);
    DivMul(budget, level.price);
  }

  lemma {:induction false} SellWalkKeeps(levels: seq<Level>, limit: real, remaining: real)
    requires PricedInRange(levels) && remaining >= 0.0
    ensures var w := SellWalk(levels, limit, remaining);
      && LotsWithin(w.lots, Sell, limit) && TakenFrom(w.lots, levels) && |w.lots| <= |levels|
      && w.left >= 0.0 && Shares(w.lots) + w.left == remaining
    decreases |levels|
  {
    if levels == [] || levels[0].price < limit || remaining <= 0.0 {
    } else if levels[0].size <= 0.0 {
      SellWalkKeeps(levels[1..], limit, remaining);
    } else {
      SellWalkKeeps(levels[1..], limit, remaining - Min(levels[0].size, remaining));
    }
  }

  // ---------------------------------------------------------------- near-optimality of a buy

  /** `x[i]` shares bought at level `i`, within the sizes and at or below the limit. */
  ghost predicate Feasible(levels: seq<Level>, limit: real, x: seq<real>) {
    |x| == |levels| &&
    (levels != [] ==>
       && 0.0 <= x[0] <= Max(0.0, levels[0].size)
       && (levels[0].price > limit ==> x[0] == 0.0)
       && Feasible(levels[1..], limit, x[1..]))
  }

  ghost function Cost(levels: seq<Level>, x: seq<real>): real
    requires |x| == |levels|
  {
    if levels == [] then 0.0 else Notional(levels[0].price, x[0]) + Cost(levels[1..], x[1..])
  }

  ghost function Total(x: seq<real>): real {
    if x == [] then 0.0 else x[0] + Total(x[1..])
  }

  /** No allocation within the sizes, the limit and the budget gets more than one share lot
      more than the walk does. */
  lemma NearOptimalBuy(levels: seq<Level>, limit: real, budget: real, x: seq<real>)
    requires PricedInRange(levels) && Ascending(levels) && budget >= 0.0
    requires Feasible(levels, limit, x) && Cost(levels, x) <= budget
    ensures Total(x) <= Shares(BuyWalk(levels, limit, budget).lots) + SHARE_LOT
  {
    if levels == [] {
    } else {
      Surplus(levels, limit, budget, x, 0.0);
      NoExcess(Excess(levels, limit, budget, x), levels[0].price);
    }
  }

  lemma NoExcess(t: real, p: real)
    requires Within(t, p, 0.0) && p > 0.0
    ensures t <= 0.0
  {
  }

  ghost predicate Within(t: real, p: real, over: real) {
    t * p <= over
  }

  /** An allocation that overspends the budget by at most `over`. */
  ghost predicate Rival(levels: seq<Level>, limit: real, budget: real, x: seq<real>, over: real) {
    && PricedInRange(levels) && Ascending(levels) && budget >= 0.0 && over >= 0.0
    && Feasible(levels, limit, x) && Cost(levels, x) <= budget + over
  }

  /** What a rival allocation gets above the walk and one lot. */
  ghost function Excess(levels: seq<Level>, limit: real, budget: real, x: seq<real>): real
    requires PricedInRange(levels)
  {
    Total(x) - Shares(BuyWalk(levels, limit, budget).lots) - SHARE_LOT
  }

  /** Strengthened for the induction: an allocation that overspends by `over` gains at most
      `over` divided by the lowest price on top of one lot. */
  lemma {:induction false} Surplus(
      levels: seq<Level>, limit: real, budget: real, x: seq<real>, over: real)
    requires Rival(levels, limit, budget, x, over) && levels != []
    ensures Within(Excess(levels, limit, budget, x), levels[0].price, over)
    decreases |levels|, 1
  {
    hide Within, Feasible, Cost, Excess, BuyTake;
    if levels[0].price > limit {
      AboveLimit(levels, limit, budget, x, over);
    } else if budget <= 0.0 {
      NoBudget(levels, limit, budget, x, over);
    } else if levels[0].size <= 0.0 {
      EmptyLevel(levels, limit, budget, x, over);
    } else if BuyTake(levels[0], budget) == levels[0].size {
      FullLevel(levels, limit, budget, x, over);
    } else {
      PartialLevel(levels, limit, budget, x, over);
    }
  }

  lemma AboveLimit(levels: seq<Level>, limit: real, budget: real, x: seq<real>, over: real)
    requires Rival(levels, limit, budget, x, over) && levels != [] && levels[0].price > limit
    ensures Within(Excess(levels, limit, budget, x), levels[0].price, over)
  {
    NothingAboveLimit(levels, limit, x);
    Lighten(-SHARE_LOT, over, levels[0].price);
  }

  lemma NoBudget(levels: seq<Level>, limit: real, budget: real, x: seq<real>, over: real)
    requires Rival(levels, limit, budget, x, over) && levels != [] && budget <= 0.0
    ensures Within(Excess(levels, limit, budget, x), levels[0].price, over)
  {
    PricesAtLeast(levels, limit, x, levels[0].price);
    MulLe(Total(x) - SHARE_LOT, Total(x), levels[0].price);
  }

  lemma {:induction false} EmptyLevel(
      levels: seq<Level>, limit: real, budget: real, x: seq<real>, over: real)
    requires Rival(levels, limit, budget, x, over) && levels != []
    requires levels[0].price <= limit && budget > 0.0 && levels[0].size <= 0.0
    ensures Within(Excess(levels, limit, budget, x), levels[0].price, over)
    decreases |levels|, 0
  {
    assert x[0] == 0.0;
    assert Total(x) == Total(x[1..]);
    assert Excess(levels, limit, budget, x) == Excess(levels[1..], limit, budget, x[1..]);
    SkippedCost(levels, x);
    Later(levels, limit, budget, x[1..], over);
  }

  lemma SkippedCost(levels: seq<Level>, x: seq<real>)
    requires |levels| == |x| > 0 && x[0] == 0.0
    ensures Cost(levels, x) == Cost(levels[1..], x[1..])
  {
  }

  /** The claim for the levels after the first, at the first level's lower price. */
  lemma {:induction false} Later(
      levels: seq<Level>, limit: real, budget: real, x: seq<real>, over: real)
    requires PricedInRange(levels) && Ascending(levels) && levels != []
    requires Rival(levels[1..], limit, budget, x, over)
    ensures Within(Excess(levels[1..], limit, budget, x), levels[0].price, over)
    decreases |levels| - 1, 2
  {
    hide Within;
    var rest := levels[1..];
    if rest == [] {
      Lighten(-SHARE_LOT, over, levels[0].price);
    } else {
      hide *;
      Surplus(rest, limit, budget, x, over);
      Cheaper(Excess(rest, limit, budget, x), over, rest[0].price, levels[0].price);
    }
  }

  /** The level is taken whole: exchange argument against the allocation's `x[0]`. */
  lemma {:induction false} FullLevel(
      levels: seq<Level>, limit: real, budget: real, x: seq<real>, over: real)
    requires Rival(levels, limit, budget, x, over) && levels != []
    requires levels[0].price <= limit && budget > 0.0 && levels[0].size > 0.0
    requires BuyTake(levels[0], budget) == levels[0].size
    ensures Within(Excess(levels, limit, budget, x), levels[0].price, over)
    decreases |levels|, 0
  {
    var p, size := levels[0].price, levels[0].size;
    var left := budget - Notional(p, size);
    var over' := over + Notional(p, size - x[0]);
    Affordable(levels[0], budget);
    Exchange(p, size, x[0], Cost(levels[1..], x[1..]), budget, over);
    Later(levels, limit, left, x[1..], over');
    Taken(levels, limit, budget, x);
    Regroup(Excess(levels[1..], limit, left, x[1..]), size - x[0], p, over);
  }

  lemma Taken(levels: seq<Level>, limit: real, budget: real, x: seq<real>)
    requires PricedInRange(levels) && levels != [] && x != []
    requires levels[0].price <= limit && budget > 0.0 && levels[0].size > 0.0
    requires BuyTake(levels[0], budget) == levels[0].size
    ensures var left := budget - Notional(levels[0].price, levels[0].size);
      Excess(levels, limit, budget, x)
        == Excess(levels[1..], limit, left, x[1..]) - (levels[0].size - x[0])
  {
    hide Notional, BuyTake;
  }

  lemma Exchange(p: real, size: real, x0: real, rest: real, budget: real, over: real)
    requires 0.0 < p && x0 <= size && Notional(p, x0) + rest <= budget + over
    ensures rest <= (budget - Notional(p, size)) + (over + Notional(p, size - x0))
    ensures Notional(p, size - x0) >= 0.0
  {
    MulLe(0.0, size - x0, p);
    assert Notional(p, size - x0) == Notional(p, size) - Notional(p, x0);
  }

  /** Only part of the level was affordable: what is left buys less than one lot anywhere. */
  lemma PartialLevel(levels: seq<Level>, limit: real, budget: real, x: seq<real>, over: real)
    requires Rival(levels, limit, budget, x, over) && levels != []
    requires levels[0].price <= limit && budget > 0.0 && levels[0].size > 0.0
    requires BuyTake(levels[0], budget) != levels[0].size
    ensures Within(Excess(levels, limit, budget, x), levels[0].price, over)
  {
    hide Within, Cost, Feasible;
    var got := Shares(BuyWalk(levels, limit, budget).lots);
    WalkGetsAtLeast(levels, limit, budget);
    PricesAtLeast(levels, limit, x, levels[0].price);
    LastLot(budget, levels[0].price, BuyTake(levels[0], budget), Total(x), got, over);
  }

  lemma Regroup(t: real, d: real, p: real, over: real)
    requires Within(t, p, over + Notional(p, d))
    ensures Within(t - d, p, over)
  {
    assert (t - d) * p == t * p - d * p;
  }

  lemma MulSub(a: real, b: real, p: real)
    ensures (a - b) * p == a * p - b * p
  {
  }

  lemma Lighten(t: real, over: real, p: real)
    requires t <= 0.0 <= over && p > 0.0
    ensures Within(t, p, over)
  {
    MulLe(t, 0.0, p);
  }

  lemma Cheaper(t: real, over: real, p: real, low: real)
    requires Within(t, p, over) && 0.0 <= over && 0.0 < low <= p
    ensures Within(t, low, over)
  {
    if t <= 0.0 {
      Lighten(t, over, low);
    } else {
      MulLe(low, p, t);
    }
  }

  /** Past the last lot the budget left could not buy another lot at `p` or above. */
  lemma LastLot(budget: real, p: real, take: real, total: real, got: real, over: real)
    requires p > 0.0 && take == FloorTo(budget / p, SHARE_LOT) && got >= take
    requires total * p <= budget + over
    ensures Within(total - got - SHARE_LOT, p, over)
  {
    DivMul(budget, p);
    MulLe(budget / p, got + SHARE_LOT, p);
    Difference(total, got + SHARE_LOT, p, budget, over);
  }

  lemma Difference(total: real, got: real, p: real, budget: real, over: real)
    requires total * p <= budget + over && budget <= got * p
    ensures (total - got) * p <= over
  {
    MulSub(total, got, p);
  }

  lemma {:induction false} SharesNonNegative(lots: seq<Lot>, side: Side, limit: real)
    requires LotsWithin(lots, side, limit)
    ensures Shares(lots) >= 0.0
  {
    if lots != [] {
      SharesNonNegative(lots[1..], side, limit);
    }
  }

  lemma WalkGetsAtLeast(levels: seq<Level>, limit: real, budget: real)
    requires PricedInRange(levels) && levels != [] && budget > 0.0
    requires levels[0].price <= limit && levels[0].size > 0.0
    ensures Shares(BuyWalk(levels, limit, budget).lots) >= BuyTake(levels[0], budget)
  {
    var take := BuyTake(levels[0], budget);
    if take <= 0.0 {
      BuyWalkKeeps(levels, limit, budget);
      SharesNonNegative(BuyWalk(levels, limit, budget).lots, Buy, limit);
    } else {
      Affordable(levels[0], budget);
      var left := budget - Notional(levels[0].price, take);
      BuyWalkKeeps(levels[1..], limit, left);
      SharesNonNegative(BuyWalk(levels[1..], limit, left).lots, Buy, limit);
    }
  }

  lemma {:induction false} NothingAboveLimit(levels: seq<Level>, limit: real, x: seq<real>)
    requires Ascending(levels) && Feasible(levels, limit, x)
    requires levels != [] ==> levels[0].price > limit
    ensures Total(x) == 0.0
    decreases |levels|
  {
    if levels != [] {
      NothingAboveLimit(levels[1..], limit, x[1..]);
    }
  }

  lemma {:induction false} PricesAtLeast(levels: seq<Level>, limit: real, x: seq<real>, low: real)
    requires Ascending(levels) && Feasible(levels, limit, x)
    requires levels != [] ==> low <= levels[0].price
    ensures Total(x) * low <= Cost(levels, x)
    decreases |levels|
  {
    if levels != [] {
      PricesAtLeast(levels[1..], limit, x[1..], low);
      Cheapest(x[0], Total(x[1..]), low, levels[0].price, Cost(levels[1..], x[1..]));
    }
  }

  lemma Cheapest(a: real, b: real, low: real, p: real, rest: real)
    requires b * low <= rest && low <= p && 0.0 <= a
    ensures (a + b) * low <= Notional(p, a) + rest
  {
    MulLe(low, p, a);
    AddTimes(a, b, low);
  }

  lemma AddTimes(a: real, b: real, p: real)
    ensures (a + b) * p == a * p + b * p
  {
  }

  // ---------------------------------------------------------------- what a match costs

  /** Simulated fee of one lot: the market's taker fee times the stress multiplier. */
  function LotFee(rate: real, mult: real, lot: Lot): real {
    TakerFee(rate, lot.shares, lot.price) * mult
  }

  function Fees(rate: real, mult: real, lots: seq<Lot>): real {
    if lots == [] then 0.0 else LotFee(rate, mult, lots[0]) + Fees(rate, mult, lots[1..])
  }

  lemma LotFeeBounds(rate: real, mult: real, lot: Lot)
    requires 0.0 <= rate && 0.0 <= mult && lot.shares > 0.0 && 0.0 < lot.price < 1.0
    ensures 0.0 <= LotFee(rate, mult, lot)
    ensures LotFee(rate, mult, lot) <= Stressed(rate, mult) * Notional(lot.price, lot.shares) + FEE_QUANTUM * mult
  {
    hide Notional, TakerFee;
    TakerFeeBounds(rate, lot.shares, lot.price);
    NotionalIs(lot.price, lot.shares);
    ScaledFee(TakerFee(rate, lot.shares, lot.price), rate * Notional(lot.price, lot.shares), mult);
    Reorder(rate, Notional(lot.price, lot.shares), mult);
  }

  lemma NotionalIs(price: real, shares: real)
    ensures Notional(price, shares) == price * shares
  {
  }

  lemma Reorder(a: real, b: real, c: real)
    ensures (a * b) * c == a * c * b
  {
  }

  lemma ScaledFee(f: real, bound: real, mult: real)
    requires 0.0 <= f <= bound + FEE_QUANTUM && 0.0 <= mult
    ensures 0.0 <= f * mult <= bound * mult + FEE_QUANTUM * mult
  {
    MulLe(0.0, f, mult);
    MulLe(f, bound + FEE_QUANTUM, mult);
    AddTimes(bound, FEE_QUANTUM, mult);
  }

  /** The market's fee rate under the simulation's stress multiplier. */
  function Stressed(rate: real, mult: real): real {
    rate * mult
  }

  lemma StressedNonNegative(rate: real, mult: real)
    requires 0.0 <= rate && 0.0 <= mult
    ensures 0.0 <= Stressed(rate, mult)
  {
    MulLe(0.0, rate, mult);
  }

  /** The fee rate on what was spent, plus a rounding quantum for each of `n` lots. */
  function FeeCeiling(spent: real, n: nat, rm: real, mult: real): real {
    rm * spent + n as real * (FEE_QUANTUM * mult)
  }

  /** The budget grown by the whole fee rate, plus a rounding quantum for each of `n` lots. */
  function CostCeiling(budget: real, n: nat, rm: real, mult: real): real {
    budget * (1.0 + rm) + n as real * (FEE_QUANTUM * mult)
  }

  lemma {:induction false} FeesBound(rate: real, mult: real, lots: seq<Lot>, side: Side, limit: real)
    requires 0.0 <= rate && 0.0 <= mult && LotsWithin(lots, side, limit)
    ensures 0.0 <= Fees(rate, mult, lots) <= FeeCeiling(Spent(lots), |lots|, Stressed(rate, mult), mult)
  {
    hide LotFee, FeeCeiling, Notional, Stressed;
    if lots == [] {
      NoFees(Stressed(rate, mult), mult);
    } else {
      FeesBound(rate, mult, lots[1..], side, limit);
      LotFeeBounds(rate, mult, lots[0]);
      FeesSum(Stressed(rate, mult), Notional(lots[0].price, lots[0].shares), Spent(lots[1..]), mult, |lots| - 1);
    }
  }

  lemma NoFees(rm: real, mult: real)
    ensures FeeCeiling(0.0, 0, rm, mult) == 0.0
  {
  }

  lemma FeesSum(rm: real, a: real, b: real, mult: real, n: nat)
    ensures rm * a + FEE_QUANTUM * mult + FeeCeiling(b, n, rm, mult) == FeeCeiling(a + b, n + 1, rm, mult)
  {
    assert rm * (a + b) == rm * a + rm * b;
    assert (n + 1) as real * (FEE_QUANTUM * mult) == n as real * (FEE_QUANTUM * mult) + FEE_QUANTUM * mult;
  }

  /** A bounded buy spends at most its budget and, fees included, at most the budget grown by
      the whole fee rate plus one rounding quantum a lot. The fee rate at the limit price, which
      the venue reserves, is no such bound (see `FeeReserve.ReserveFallsShort`). */
  lemma BuyCostBound(levels: seq<Level>, limit: real, budget: real, rate: real, mult: real)
    requires PricedInRange(levels) && budget >= 0.0 && 0.0 <= rate && 0.0 <= mult
    ensures var lots := BuyWalk(levels, limit, budget).lots;
      && Spent(lots) <= budget
      && Spent(lots) + Fees(rate, mult, lots) <= CostCeiling(budget, |lots|, Stressed(rate, mult), mult)
  {
    hide *;
    var lots := BuyWalk(levels, limit, budget).lots;
    BuyWalkKeeps(levels, limit, budget);
    FeesBound(rate, mult, lots, Buy, limit);
    StressedNonNegative(rate, mult);
    GrownBudget(Spent(lots), |lots|, budget, Stressed(rate, mult), mult);
  }

  lemma GrownBudget(spent: real, n: nat, budget: real, rm: real, mult: real)
    requires spent <= budget && 0.0 <= rm
    ensures spent + FeeCeiling(spent, n, rm, mult) <= CostCeiling(budget, n, rm, mult)
  {
    MulLe(spent, budget, rm);
    assert budget * (1.0 + rm) == budget + budget * rm;
  }

  // ---------------------------------------------------------------- a sell is exact

  /** Shares the bids offer at or above the limit. */
  ghost function DepthWithin(levels: seq<Level>, limit: real): real {
    if levels == [] || levels[0].price < limit then 0.0
    else Max(0.0, levels[0].size) + DepthWithin(levels[1..], limit)
  }

  lemma {:induction false} DepthNonNegative(levels: seq<Level>, limit: real)
    ensures DepthWithin(levels, limit) >= 0.0
  {
    if levels != [] && levels[0].price >= limit {
      DepthNonNegative(levels[1..], limit);
    }
  }

  /** A sell gets exactly what is offered within its limit, up to what it has to sell. */
  lemma {:induction false} SellFillsExactly(levels: seq<Level>, limit: real, remaining: real)
    requires remaining >= 0.0
    ensures Shares(SellWalk(levels, limit, remaining).lots) == Min(remaining, DepthWithin(levels, limit))
    decreases |levels|
  {
    DepthNonNegative(levels, limit);
    if levels == [] || levels[0].price < limit || remaining <= 0.0 {
    } else if levels[0].size <= 0.0 {
      SellFillsExactly(levels[1..], limit, remaining);
    } else {
      SellFillsExactly(levels[1..], limit, remaining - Min(levels[0].size, remaining));
      DepthNonNegative(levels[1..], limit);
    }
  }

  lemma {:induction false} TakenLots(lots: seq<Lot>, levels: seq<Level>)
    requires TakenFrom(lots, levels)
    ensures forall i :: 0 <= i < |lots| ==>
      exists k :: 0 <= k < |levels| && levels[k].price == lots[i].price && lots[i].shares <= levels[k].size
    decreases |levels|
  {
    if lots != [] {
      var rest := if TakenFrom(lots, levels[1..]) then lots else lots[1..];
      TakenLots(rest, levels[1..]);
      forall i | 0 <= i < |lots|
        ensures exists k :: 0 <= k < |levels| && levels[k].price == lots[i].price && lots[i].shares <= levels[k].size
      {
        var j := i - (|lots| - |rest|);
        if j < 0 {
          assert levels[0].price == lots[i].price;
        } else {
          assert lots[i] == rest[j];
          var k :| 0 <= k < |levels[1..]| && levels[1..][k].price == rest[j].price && rest[j].shares <= levels[1..][k].size;
          assert levels[k + 1].price == lots[i].price;
        }
      }
    }
  }
}
