/** The walk that prices an entry: up the asks while the marginal cost of a share, its price with
    its fee and the slippage buffer, stays within what the estimate allows. */
module EdgeWalk {
  import opened Decimals
  import opened Domain
  import opened Matching
  import opened PaperExchange

  datatype BookWalk = BookWalk(shares: real, notional: real, fees: real, worst: Option<real>, best: Option<real>, depthUsd: real)

  datatype Terms = Terms(feeRate: real, buffer: real, maxMarginal: real)
  {
    predicate Valid() {
      0.0 <= feeRate <= 1.0
    }
  }

  function Marginal(t: Terms, price: real): real {
    price + FeeRateAt(t.feeRate, price) + t.buffer
  }

  predicate Affordable(t: Terms, level: Level) {
    Marginal(t, level.price) <= t.maxMarginal
  }

  /** How many levels come before the first one that is too expensive. */
  function Reach(t: Terms, asks: seq<Level>): (n: nat)
    ensures n <= |asks|
    ensures forall i :: 0 <= i < n ==> Affordable(t, asks[i])
    ensures n < |asks| ==> !Affordable(t, asks[n])
  {
    if asks == [] || !Affordable(t, asks[0]) then 0 else 1 + Reach(t, asks[1..])
  }

  function Depth(levels: seq<Level>): real {
    if levels == [] then 0.0 else Depth(levels[..|levels| - 1]) + Notional(levels[|levels| - 1].price, levels[|levels| - 1].size)
  }

  /** Depth of the affordable levels of a book, wherever they are. */
  function AffordableDepth(t: Terms, levels: seq<Level>): real {
    if levels == [] then 0.0
    else
      var last := levels[|levels| - 1];
      AffordableDepth(t, levels[..|levels| - 1]) + if Affordable(t, last) then Notional(last.price, last.size) else 0.0
  }

  /** The buy walk that the budget gets on the levels within reach; prices stay below one. */
  function Bought(t: Terms, asks: seq<Level>, budget: real): Walk
    requires PricedInRange(asks)
  {
    BuyWalk(asks[..Reach(t, asks)], 1.0, budget)
  }

  function WorstOf(lots: seq<Lot>): Option<real> {
    if lots == [] then None else Some(lots[|lots| - 1].price)
  }

  /** One pass over the asks; the book's size beyond the budget still counts as depth. */
  method WalkAsks(asks: seq<Level>, budget: real, t: Terms) returns (w: BookWalk)
    requires PricedInRange(asks)
    ensures var lots := Bought(t, asks, budget).lots;
      && w.shares == Shares(lots) && w.notional == Spent(lots) && w.fees == Fees(t.feeRate, 1.0, lots)
      && w.worst == WorstOf(lots) && w.best == (if asks == [] then None else Some(asks[0].price))
      && w.depthUsd == Depth(asks[..Reach(t, asks)])
  {
    hide FloorTo, Notional, BuyWalk, LotFee, TakerFee, Marginal, BuyTake;
    var best := if asks == [] then None else Some(asks[0].price);
    var shares, notional, fees, depth := 0.0, 0.0, 0.0, 0.0;
    var worst: Option<real> := None;
    ghost var cut := asks[..Reach(t, asks)];
    ghost var lots: seq<Lot> := [];
    ghost var goal := BuyWalk(cut, 1.0, budget);
    assert cut[0..] == cut;
    var i := 0;
    while i < |asks|
      invariant 0 <= i <= |cut|
      invariant goal == Prepend(lots, BuyWalk(cut[i..], 1.0, budget - notional))
      invariant shares == Shares(lots) && notional == Spent(lots) && fees == Fees(t.feeRate, 1.0, lots) && worst == WorstOf(lots)
      invariant depth == Depth(cut[..i])
    {
      var level := asks[i];
      if Marginal(t, level.price) > t.maxMarginal {
        break;
      }
      assert cut[i] == level;
      assert cut[..i + 1][..i] == cut[..i];
      depth := depth + Notional(level.price, level.size);
      var remaining := budget - notional;
      if remaining > 0.0 {
        BuyStep(cut, i, 1.0, remaining);
        var take := Min(level.size, FloorTo(remaining / level.price, SHARE_LOT));
        TakeIs(level, remaining);
        if take > 0.0 {
          PrependLot(lots, Lot(level.price, take), BuyWalk(cut[i + 1..], 1.0, remaining - Notional(level.price, take)));
          MoreLots(t.feeRate, lots, Lot(level.price, take));
          lots := lots + [Lot(level.price, take)];
          shares := shares + take;
          notional := notional + Notional(level.price, take);
          fees := fees + TakerFee(t.feeRate, take, level.price);
          worst := Some(level.price);
        }
      } else {
        BuyEnd(cut, i, 1.0, remaining);
        BuyEnd(cut, i + 1, 1.0, remaining);
      }
      i := i + 1;
    }
    assert i == |cut|;
    assert cut[..i] == cut;
    BuyEnd(cut, i, 1.0, budget - notional);
    assert goal.lots == lots + [] == lots;
    w := BookWalk(shares, notional, fees, worst, best, depth);
  }

  lemma {:induction false} MoreLots(rate: real, lots: seq<Lot>, lot: Lot)
    ensures Shares(lots + [lot]) == Shares(lots) + lot.shares
    ensures Spent(lots + [lot]) == Spent(lots) + Notional(lot.price, lot.shares)
    ensures Fees(rate, 1.0, lots + [lot]) == Fees(rate, 1.0, lots) + TakerFee(rate, lot.shares, lot.price)
    decreases |lots|
  {
    hide Notional, TakerFee;
    if lots == [] {
      assert [] + [lot] == [lot] && [lot][1..] == [];
    } else {
      MoreLots(rate, lots[1..], lot);
      assert (lots + [lot])[1..] == lots[1..] + [lot];
    }
  }

  // ---------------------------------------------------------------- stopping early loses nothing

  /** A share at a higher price always costs more in all, fees included. */
  lemma MarginalIncreases(t: Terms, p: real, q: real)
    requires t.Valid() && 0.0 < p < q < 1.0
    ensures Marginal(t, p) < Marginal(t, q)
  {
    hide *;
    var r, x := t.feeRate, (q - p) * (1.0 - p - q);
    RateOf(t);
    Spread(p, q);
    Distribute(r, q * (1.0 - q), p * (1.0 - p));
    RateTimes(r, q - p, 1.0 - p - q, x);
    MarginalIs(t, p, r * (p * (1.0 - p)));
    MarginalIs(t, q, r * (q * (1.0 - q)));
    Apart(p, q, r * (p * (1.0 - p)), r * (q * (1.0 - q)), r * x, t.buffer, Marginal(t, p), Marginal(t, q));
  }

  lemma RateOf(t: Terms)
    requires t.Valid()
    ensures 0.0 <= t.feeRate <= 1.0
  {
  }

  lemma MarginalIs(t: Terms, p: real, fee: real)
    requires 0.0 < p < 1.0 && fee == t.feeRate * (p * (1.0 - p))
    ensures Marginal(t, p) == p + fee + t.buffer
  {
  }

  lemma Apart(p: real, q: real, feeP: real, feeQ: real, gap: real, buffer: real, atP: real, atQ: real)
    requires feeQ - feeP == gap && (q - p) + gap > 0.0
    requires atP == p + feeP + buffer && atQ == q + feeQ + buffer
    ensures atP < atQ
  {
  }

  lemma Spread(p: real, q: real)
    ensures q * (1.0 - q) - p * (1.0 - p) == (q - p) * (1.0 - p - q)
  {
  }

  lemma Distribute(r: real, a: real, b: real)
    ensures r * a - r * b == r * (a - b)
  {
  }

  lemma RateTimes(r: real, d: real, s: real, x: real)
    requires 0.0 <= r <= 1.0 && d > 0.0 && -1.0 < s && x == d * s
    ensures d + r * x > 0.0
  {
    Above(d, s, x);
    if x >= 0.0 {
      MulLe(0.0, r, x);
    } else {
      AtMostWhole(r, -x);
      Opposite(r, x);
    }
  }

  lemma Above(d: real, s: real, x: real)
    requires d > 0.0 && -1.0 < s && x == d * s
    ensures x > -d
  {
    MulLt(0.0, s + 1.0, d);
  }

  lemma AtMostWhole(r: real, y: real)
    requires r <= 1.0 && y >= 0.0
    ensures r * y <= y
  {
    MulLe(r, 1.0, y);
  }

  lemma Opposite(r: real, x: real)
    ensures r * (-x) == -(r * x)
  {
  }

  /** A sorted book is bought exactly as far as a share's price, its fee and the buffer stay within the
      limit. */
  lemma ReachExactly(t: Terms, asks: seq<Level>, i: nat)
    requires t.Valid() && PricedInRange(asks) && Ascending(asks) && i < |asks|
    ensures i < Reach(t, asks) <==>
      asks[i].price + t.feeRate * (asks[i].price * (1.0 - asks[i].price)) + t.buffer <= t.maxMarginal
  {
    hide *;
    WithinReach(t, asks, i);
    AskInRange(asks, i);
    ShareMarginal(t, asks[i].price);
    AffordableIs(t, asks[i]);
  }

  lemma AskInRange(asks: seq<Level>, i: nat)
    requires PricedInRange(asks) && i < |asks|
    ensures 0.0 < asks[i].price < 1.0
  {
  }

  lemma AffordableIs(t: Terms, level: Level)
    ensures Affordable(t, level) <==> Marginal(t, level.price) <= t.maxMarginal
  {
  }

  lemma WithinReach(t: Terms, asks: seq<Level>, i: nat)
    requires t.Valid() && PricedInRange(asks) && Ascending(asks) && i < |asks|
    ensures Affordable(t, asks[i]) <==> i < Reach(t, asks)
  {
    hide Marginal;
    var n := Reach(t, asks);
    if i > n {
      MarginalIncreases(t, asks[n].price, asks[i].price);
    }
  }

  lemma ShareMarginal(t: Terms, price: real)
    requires 0.0 < price < 1.0
    ensures Marginal(t, price) == price + t.feeRate * (price * (1.0 - price)) + t.buffer
  {
  }

  /** On a sorted book the depth within reach is the depth of every affordable level. */
  lemma DepthIsComplete(t: Terms, asks: seq<Level>)
    requires t.Valid() && PricedInRange(asks) && Ascending(asks)
    ensures Depth(asks[..Reach(t, asks)]) == AffordableDepth(t, asks)
  {
    hide Affordable;
    var n := Reach(t, asks);
    forall i | 0 <= i < |asks|
      ensures Affordable(t, asks[i]) <==> i < n
    {
      WithinReach(t, asks, i);
    }
    DepthSplits(t, asks, n);
  }

  lemma {:induction false} DepthSplits(t: Terms, asks: seq<Level>, n: nat)
    requires n <= |asks| && forall i :: 0 <= i < |asks| ==> (Affordable(t, asks[i]) <==> i < n)
    ensures Depth(asks[..n]) == AffordableDepth(t, asks)
    decreases |asks|
  {
    hide Affordable, Notional;
    if asks != [] {
      var k := |asks| - 1;
      if n == |asks| {
        assert asks[..n] == asks;
        DepthSplits(t, asks[..k], k);
        assert asks[..k][..k] == asks[..k];
      } else {
        DepthSplits(t, asks[..k], n);
        assert asks[..k][..n] == asks[..n];
      }
    }
  }

  // ---------------------------------------------------------------- what is paid in all

  /** The all-in cost of what was bought, fees rounded up and buffer included, is at most the
      marginal limit on every share plus one rounding quantum a level. */
  lemma AllInCostBounded(t: Terms, asks: seq<Level>, budget: real)
    requires t.Valid() && PricedInRange(asks) && PositiveSizes(asks) && budget >= 0.0
    ensures var lots := Bought(t, asks, budget).lots;
      && Spent(lots) <= budget
      && Spent(lots) + Fees(t.feeRate, 1.0, lots) + Times(t.buffer, Shares(lots))
           <= Times(t.maxMarginal, Shares(lots)) + |lots| as real * FEE_QUANTUM
      && |lots| <= Reach(t, asks)
  {
    hide BuyWalk, Fees, Spent, Affordable;
    var cut := asks[..Reach(t, asks)];
    BuyWalkKeeps(cut, 1.0, budget);
    var lots := Bought(t, asks, budget).lots;
    LotsAffordable(t, cut, lots);
    LotsCost(t, lots);
    TakenCount(lots, cut);
  }

  function Times(a: real, b: real): real {
    a * b
  }

  ghost predicate GoodLots(t: Terms, lots: seq<Lot>) {
    forall i :: 0 <= i < |lots| ==> 0.0 < lots[i].price < 1.0 && lots[i].shares > 0.0 && Marginal(t, lots[i].price) <= t.maxMarginal
  }

  lemma LotsAffordable(t: Terms, cut: seq<Level>, lots: seq<Lot>)
    requires TakenFrom(lots, cut) && LotsWithin(lots, Buy, 1.0) && forall i :: 0 <= i < |cut| ==> Affordable(t, cut[i])
    ensures GoodLots(t, lots)
  {
    TakenLots(lots, cut);
    forall i | 0 <= i < |lots|
      ensures 0.0 < lots[i].price < 1.0 && lots[i].shares > 0.0 && Marginal(t, lots[i].price) <= t.maxMarginal
    {
      var k :| 0 <= k < |cut| && cut[k].price == lots[i].price && lots[i].shares <= cut[k].size;
      assert Affordable(t, cut[k]);
    }
  }

  lemma {:induction false} TakenCount(lots: seq<Lot>, levels: seq<Level>)
    requires TakenFrom(lots, levels)
    ensures |lots| <= |levels|
    decreases |levels|
  {
    if levels != [] && lots != [] {
      if TakenFrom(lots, levels[1..]) {
        TakenCount(lots, levels[1..]);
      } else {
        TakenCount(lots[1..], levels[1..]);
      }
    }
  }

  lemma {:induction false} LotsCost(t: Terms, lots: seq<Lot>)
    requires t.Valid() && GoodLots(t, lots)
    ensures Spent(lots) + Fees(t.feeRate, 1.0, lots) + Times(t.buffer, Shares(lots))
      <= Times(t.maxMarginal, Shares(lots)) + |lots| as real * FEE_QUANTUM
  {
    hide Notional, LotFee, Times, Marginal;
    if lots == [] {
      TimesZero(t.buffer);
      TimesZero(t.maxMarginal);
    } else {
      LotsCost(t, lots[1..]);
      LotCost(t, lots[0]);
      TimesAdd(t.buffer, lots[0].shares, Shares(lots[1..]));
      TimesAdd(t.maxMarginal, lots[0].shares, Shares(lots[1..]));
    }
  }

  lemma TimesZero(a: real)
    ensures Times(a, 0.0) == 0.0
  {
  }

  lemma TimesAdd(a: real, b: real, c: real)
    ensures Times(a, b + c) == Times(a, b) + Times(a, c)
  {
  }

  lemma LotCost(t: Terms, lot: Lot)
    requires t.Valid() && 0.0 < lot.price < 1.0 && lot.shares > 0.0 && Marginal(t, lot.price) <= t.maxMarginal
    ensures Notional(lot.price, lot.shares) + LotFee(t.feeRate, 1.0, lot) + Times(t.buffer, lot.shares)
      <= Times(t.maxMarginal, lot.shares) + FEE_QUANTUM
  {
    var f := FeeRateAt(t.feeRate, lot.price);
    assert TakerFee(t.feeRate, lot.shares, lot.price) <= lot.shares * f + FEE_QUANTUM;
    ShareCost(lot.price, f, t.buffer, t.maxMarginal, lot.shares);
  }

  lemma ShareCost(price: real, fee: real, buffer: real, limit: real, shares: real)
    requires price + fee + buffer <= limit && shares > 0.0
    ensures Notional(price, shares) + shares * fee + Times(buffer, shares) <= Times(limit, shares)
  {
    MulLe(price + fee + buffer, limit, shares);
  }
}
