/** What one order's match looks like from outside: its fills, then exactly one terminal update,
    all inside the order's own limits, so that nothing the venue emits can trip the engine. */
module MatchBlocks {
  import opened Decimals
  import opened Domain
  import opened Matching
  import opened PaperVenue
  import opened VenueRuns
  import opened Execution
  import opened Delivery
  import opened Sums

  /** The events of a match that takes `lots`. */
  function BlockOf(cfg: Config, p: Pending, plan: Plan, now: int): seq<Event> {
    FillEvents(cfg, p, plan.lots, |plan.lots|, now) + [FinalUpdate(p, plan, now)]
  }

  function FillEvents(cfg: Config, p: Pending, lots: seq<Lot>, n: nat, now: int): seq<Event>
    requires n <= |lots|
  {
    seq(n, i requires 0 <= i < n => FillEvent(FillOf(cfg, p, lots[i], i, now)))
  }

  lemma FillEventsStep(cfg: Config, p: Pending, lots: seq<Lot>, n: nat, now: int)
    requires 0 < n <= |lots|
    ensures FillEvents(cfg, p, lots, n, now)
      == FillEvents(cfg, p, lots, n - 1, now) + [FillEvent(FillOf(cfg, p, lots[n - 1], n - 1, now))]
  {
  }

  /** The plan an order is matched with; no book means no lots. */
  function PlanAt(cfg: Config, v: Venue, books: Books, p: Pending, now: int): Plan {
    var token := p.intent.tokenId;
    if token !in books then Plan([], false)
    else PlanOf(p.intent, Available(v.consumed, token, p.intent.side, SideLevels(books[token], p.intent.side), now - cfg.replenishMs))
  }

  function Block(cfg: Config, v: Venue, books: Books, p: Pending, now: int): seq<Event> {
    BlockOf(cfg, p, PlanAt(cfg, v, books, p, now), now)
  }

  function LogAll(token: TokenId, events: seq<Event>): seq<Logged> {
    seq(|events|, i requires 0 <= i < |events| => Logged(token, events[i]))
  }

  function CashOf(ev: Event): real {
    if ev.FillEvent? then CashDelta(ev.fill) else 0.0
  }

  function SharesDeltaOf(ev: Event): real {
    if ev.FillEvent? then ShareDelta(ev.fill) else 0.0
  }

  /** The venue after `events` of one order are done: logged, and booked in its ledger. */
  ghost predicate Booked(v: Venue, w: Venue, token: TokenId, events: seq<Event>) {
    && w.pending == v.pending && w.submitted == v.submitted
    && w.history == v.history + LogAll(token, events)
    && w.events == v.events + events
    && w.cash == v.cash + Sum(CashOf, events)
    && w.Held(token) == v.Held(token) + Sum(SharesDeltaOf, events)
    && forall t :: t != token ==> w.Held(t) == v.Held(t)
  }

  lemma {:induction false} FillLotsBooked(cfg: Config, v: Venue, p: Pending, lots: seq<Lot>, n: nat, now: int)
    requires n <= |lots|
    ensures Booked(v, FillLots(cfg, v, p, lots, n, now), p.intent.tokenId,
                   FillEvents(cfg, p, lots, n, now))
    decreases n
  {
    if n > 0 {
      FillLotsBooked(cfg, v, p, lots, n - 1, now);
      var prior := FillEvents(cfg, p, lots, n - 1, now);
      var last := FillEvent(FillOf(cfg, p, lots[n - 1], n - 1, now));
      FillEventsStep(cfg, p, lots, n, now);
      SumLast(CashOf, prior, last);
      SumLast(SharesDeltaOf, prior, last);
      hide CashDelta, ShareDelta, FillOf, Consume;
      LogOneMore(p.intent.tokenId, prior, last);
    }
  }

  lemma LogOneMore(token: TokenId, events: seq<Event>, last: Event)
    ensures LogAll(token, events + [last]) == LogAll(token, events) + [Logged(token, last)]
  {
  }

  /** A match emits exactly its block and books exactly its block. */
  lemma MatchIsBlock(cfg: Config, v: Venue, books: Books, p: Pending, now: int)
    ensures Booked(v, Match(cfg, v, books, p, now), p.intent.tokenId, Block(cfg, v, books, p, now))
  {
    hide Booked, MatchBook, Block;
    if p.intent.tokenId in books {
      MatchBookIsBlock(cfg, v, books, p, now);
    } else {
      NoBookIsBlock(cfg, v, books, p, now);
    }
  }

  lemma NoBookIsBlock(cfg: Config, v: Venue, books: Books, p: Pending, now: int)
    requires p.intent.tokenId !in books
    ensures Booked(v, Match(cfg, v, books, p, now), p.intent.tokenId, Block(cfg, v, books, p, now))
  {
    var update := FinalUpdate(p, Plan([], false), now);
    assert Block(cfg, v, books, p, now) == [] + [update];
    LastUpdate([], update, p.intent.tokenId);
    assert Shares([]) == 0.0;
  }

  lemma MatchBookIsBlock(cfg: Config, v: Venue, books: Books, p: Pending, now: int)
    requires p.intent.tokenId in books
    ensures Booked(v, MatchBook(cfg, v, books[p.intent.tokenId], p, now), p.intent.tokenId, Block(cfg, v, books, p, now))
  {
    hide PlanOf, FillEvents, FillLots, Available, Pruned, CashOf, SharesDeltaOf, FinalUpdate;
    var token := p.intent.tokenId;
    var plan := PlanAt(cfg, v, books, p, now);
    var levels := SideLevels(books[token], p.intent.side);
    var looked := v.(consumed := Pruned(v.consumed, token, p.intent.side, levels, now - cfg.replenishMs));
    var fills := FillEvents(cfg, p, plan.lots, |plan.lots|, now);
    FillLotsBooked(cfg, looked, p, plan.lots, |plan.lots|, now);
    IsUpdate(p, plan, now);
    var update := FinalUpdate(p, plan, now);
    LastUpdate(fills, update, token);
    var filled := FillLots(cfg, looked, p, plan.lots, |plan.lots|, now);
    assert MatchBook(cfg, v, books[token], p, now) == Emit(filled, token, update);
    var w := Emit(filled, token, update);
    assert Block(cfg, v, books, p, now) == fills + [update];
    forall t | t != token
      ensures w.Held(t) == v.Held(t)
    {
      assert filled.Held(t) == looked.Held(t);
    }
    assert w.events == v.events + (fills + [update]);
    assert w.history == v.history + LogAll(token, fills + [update]);
  }

  lemma IsUpdate(p: Pending, plan: Plan, now: int)
    ensures FinalUpdate(p, plan, now).UpdateEvent?
  {
  }

  lemma LastUpdate(fills: seq<Event>, update: Event, token: TokenId)
    requires update.UpdateEvent?
    ensures Sum(CashOf, fills + [update]) == Sum(CashOf, fills)
    ensures Sum(SharesDeltaOf, fills + [update]) == Sum(SharesDeltaOf, fills)
    ensures LogAll(token, fills + [update]) == LogAll(token, fills) + [Logged(token, update)]
  {
    SumLast(CashOf, fills, update);
    SumLast(SharesDeltaOf, fills, update);
    LogOneMore(token, fills, update);
  }

  lemma CancelIsBlock(v: Venue, id: OrderId, now: int)
    requires Find(v.pending, id).Some?
    ensures var p := Find(v.pending, id).value;
      Booked(v.(pending := Without(v.pending, id)), Cancel(v, id, now), p.intent.tokenId, [CancelUpdate(p, now)])
  {
    var update := CancelUpdate(Find(v.pending, id).value, now);
    LastUpdate([], update, Find(v.pending, id).value.intent.tokenId);
    assert [] + [update] == [update];
  }

  // ---------------------------------------------------------------- sound for the engine

  lemma {:induction false} SharesPrefix(lots: seq<Lot>, n: nat)
    requires n < |lots|
    ensures Shares(lots[..n + 1]) == Shares(lots[..n]) + lots[n].shares
    ensures Spent(lots[..n + 1]) == Spent(lots[..n]) + Notional(lots[n].price, lots[n].shares)
    decreases n
  {
    if n > 0 {
      SharesPrefix(lots[1..], n - 1);
      assert lots[1..][..n] == lots[..n + 1][1..];
      assert lots[1..][..n - 1] == lots[..n][1..];
    } else {
      assert lots[..1][1..] == [];
    }
  }

  lemma {:induction false} PrefixBounded(lots: seq<Lot>, n: nat, side: Side, limit: real)
    requires n <= |lots| && LotsWithin(lots, side, limit)
    ensures Shares(lots[..n]) <= Shares(lots) && Spent(lots[..n]) <= Spent(lots)
    decreases |lots| - n
  {
    if n == |lots| {
      assert lots[..n] == lots;
    } else {
      SharesPrefix(lots, n);
      MulLe(0.0, lots[n].shares, lots[n].price);
      PrefixBounded(lots, n + 1, side, limit);
    }
  }

  /** The record after the first `n` fills of a block holds their totals. */
  lemma {:induction false} RecordAfterFills(cfg: Config, p: Pending, plan: Plan, now: int, rec: OrderRecord, n: nat)
    requires n <= |plan.lots| && rec.filledShares == 0.0 && rec.filledNotional == 0.0
    ensures var r := AfterAll(rec, BlockOf(cfg, p, plan, now), n);
      && r.intent == rec.intent
      && r.filledShares == Shares(plan.lots[..n]) && r.filledNotional == Spent(plan.lots[..n])
      && (r.status.IsTerminal() <==> rec.status.IsTerminal())
    decreases n
  {
    if n > 0 {
      RecordAfterFills(cfg, p, plan, now, rec, n - 1);
      SharesPrefix(plan.lots, n - 1);
      hide Notional;
      assert BlockOf(cfg, p, plan, now)[n - 1] == FillEvent(FillOf(cfg, p, plan.lots[n - 1], n - 1, now));
    }
  }

  ghost predicate GoodPending(cfg: Config, p: Pending) {
    cfg.Valid() && p.intent.Valid() && 0.0 <= p.feeRate <= 1.0
  }

  /** What every plan of a valid order satisfies. */
  ghost predicate GoodPlan(p: Pending, plan: Plan) {
    && LotsWithin(plan.lots, p.intent.side, p.intent.limitPrice)
    && (p.intent.side.Buy? ==> Spent(plan.lots) <= p.intent.quantity)
    && (p.intent.side.Sell? ==> Shares(plan.lots) <= p.intent.quantity)
  }

  lemma PlanIsGood(cfg: Config, v: Venue, books: Books, p: Pending, now: int)
    requires GoodPending(cfg, p)
    ensures GoodPlan(p, PlanAt(cfg, v, books, p, now))
    ensures p.intent.tokenId in books ==>
      |PlanAt(cfg, v, books, p, now).lots| <= |SideLevels(books[p.intent.tokenId], p.intent.side)|
    ensures p.intent.tokenId !in books ==> PlanAt(cfg, v, books, p, now).lots == []
  {
    if p.intent.tokenId in books {
      hide PlanOf, Used, Recent;
      PlanTaken(p.intent, Available(v.consumed, p.intent.tokenId, p.intent.side,
                                    SideLevels(books[p.intent.tokenId], p.intent.side), now - cfg.replenishMs));
    }
  }

  lemma FillIsValid(cfg: Config, p: Pending, lot: Lot, index: nat, now: int)
    requires GoodPending(cfg, p) && 0.0 < lot.price < 1.0 && lot.shares > 0.0
    ensures FillOf(cfg, p, lot, index, now).Valid()
  {
    hide LotFee;
    LotFeeBounds(p.feeRate, cfg.feeMult, lot);
  }

  /** Nothing a match emits can trip the engine. */
  lemma BlockIsSound(cfg: Config, p: Pending, plan: Plan, now: int, rec: OrderRecord)
    requires GoodPending(cfg, p) && GoodPlan(p, plan)
    requires rec.intent == p.intent && rec.filledShares == 0.0 && rec.filledNotional == 0.0
    ensures Sound(rec, BlockOf(cfg, p, plan, now))
  {
    var block := BlockOf(cfg, p, plan, now);
    var n := |plan.lots|;
    forall i | 0 <= i < |block| && block[i].FillEvent?
      ensures SoundFill(rec, block, i)
    {
      BlockFillIsSound(cfg, p, plan, now, rec, i);
    }
    RecordAfterFills(cfg, p, plan, now, rec, n);
    assert plan.lots[..n] == plan.lots;
    assert block[n].UpdateEvent? && SoundUpdate(rec, block, n);
  }

  lemma BlockFillIsSound(cfg: Config, p: Pending, plan: Plan, now: int, rec: OrderRecord, i: nat)
    requires GoodPending(cfg, p) && GoodPlan(p, plan) && i < |plan.lots|
    requires rec.intent == p.intent && rec.filledShares == 0.0 && rec.filledNotional == 0.0
    ensures var block := BlockOf(cfg, p, plan, now); block[i].FillEvent? && SoundFill(rec, block, i)
  {
    hide AfterAll, FillOf;
    var block := BlockOf(cfg, p, plan, now);
    var lot := plan.lots[i];
    FillIsValid(cfg, p, lot, i, now);
    FillFields(cfg, p, lot, i, now);
    RecordAfterFills(cfg, p, plan, now, rec, i + 1);
    PrefixBounded(plan.lots, i + 1, p.intent.side, p.intent.limitPrice);
  }

  lemma FillFields(cfg: Config, p: Pending, lot: Lot, index: nat, now: int)
    ensures var f := FillOf(cfg, p, lot, index, now);
      && f.side == p.intent.side && f.tokenId == p.intent.tokenId && f.price == lot.price && f.shares == lot.shares
      && f.intentId == Some(p.intent.intentId) && f.fillId == FillId(p.orderId, index) && f.tsMs == now
      && f.conditionId == p.intent.conditionId && f.outcome == p.intent.outcome && f.exchangeOrderId == Some(p.orderId)
  {
  }

  /** What the venue calls complete, the engine calls fully filled. */
  lemma CompleteIsFullyFilled(cfg: Config, v: Venue, books: Books, p: Pending, now: int, rec: OrderRecord)
    requires GoodPending(cfg, p) && rec.intent == p.intent && rec.filledShares == 0.0 && rec.filledNotional == 0.0
    requires PlanAt(cfg, v, books, p, now).lots != [] && PlanAt(cfg, v, books, p, now).complete
    ensures var block := Block(cfg, v, books, p, now); FullyFilled(AfterAll(rec, block, |block| - 1))
  {
    var plan := PlanAt(cfg, v, books, p, now);
    var levels := Available(v.consumed, p.intent.tokenId, p.intent.side,
                            SideLevels(books[p.intent.tokenId], p.intent.side), now - cfg.replenishMs);
    hide AfterAll, BuyWalk, SellWalk, Available, BlockOf;
    RecordAfterFills(cfg, p, plan, now, rec, |plan.lots|);
    assert plan.lots[..|plan.lots|] == plan.lots;
    BlockLength(cfg, p, plan, now);
    CompleteWalk(p.intent, levels);
  }

  /** Once a match is applied, the engine has the order FILLED exactly when something was filled
      and its own test says fully, and CANCELLED otherwise. */
  lemma FinalStatus(cfg: Config, v: Venue, books: Books, p: Pending, now: int, rec: OrderRecord)
    requires GoodPending(cfg, p) && rec.intent == p.intent && rec.filledShares == 0.0 && rec.filledNotional == 0.0
    requires !rec.status.IsTerminal()
    ensures var block := Block(cfg, v, books, p, now);
      && block != []
      && var before, after := AfterAll(rec, block, |block| - 1), AfterAll(rec, block, |block|);
         && after.filledShares == before.filledShares
         && after.status == if before.filledShares > 0.0 && FullyFilled(before) then Filled else Cancelled
  {
    hide PlanAt, BlockOf, AfterAll, FullyFilled, GoodPlan;
    var plan := PlanAt(cfg, v, books, p, now);
    var n := |plan.lots|;
    BlockLength(cfg, p, plan, now);
    RecordAfterFills(cfg, p, plan, now, rec, n);
    assert plan.lots[..n] == plan.lots;
    PlanIsGood(cfg, v, books, p, now);
    LastIsFinal(cfg, p, plan, now, rec);
    if plan.lots != [] {
      SomethingFilled(p, plan);
      if plan.complete {
        CompleteIsFullyFilled(cfg, v, books, p, now, rec);
      }
    }
  }

  lemma LastIsFinal(cfg: Config, p: Pending, plan: Plan, now: int, rec: OrderRecord)
    ensures var block := BlockOf(cfg, p, plan, now);
      && |block| == |plan.lots| + 1
      && AfterAll(rec, block, |block|) == UpdateRecord(AfterAll(rec, block, |plan.lots|), FinalUpdate(p, plan, now).update)
  {
  }

  lemma SomethingFilled(p: Pending, plan: Plan)
    requires GoodPlan(p, plan) && plan.lots != []
    ensures Shares(plan.lots) > 0.0
  {
    assert LotsWithin(plan.lots[1..], p.intent.side, p.intent.limitPrice);
    SharesNonNegative(plan.lots[1..], p.intent.side, p.intent.limitPrice);
  }

  lemma BlockLength(cfg: Config, p: Pending, plan: Plan, now: int)
    ensures |BlockOf(cfg, p, plan, now)| == |plan.lots| + 1
  {
  }

  lemma CompleteWalk(intent: OrderIntent, levels: seq<Level>)
    requires PricedInRange(levels) && intent.Valid()
    requires PlanOf(intent, levels).complete && PlanOf(intent, levels).lots != []
    ensures var lots := PlanOf(intent, levels).lots;
      && (intent.side.Buy? ==> intent.quantity - Spent(lots) < intent.limitPrice * 0.01)
      && (intent.side.Sell? ==> Shares(lots) >= intent.quantity)
  {
    hide BuyWalk, SellWalk, TakenFrom, Spent;
    if intent.side.Buy? {
      BuyWalkKeeps(levels, intent.limitPrice, intent.quantity);
    } else {
      SellWalkKeeps(levels, intent.limitPrice, intent.quantity);
    }
  }

  // ---------------------------------------------------------------- what a block can cost

  /** Cash a fill takes out, if it takes any. */
  function Outlay(ev: Event): real {
    Max(0.0, -CashOf(ev))
  }

  /** Cash that covers an order on any book of at most `n` levels a side: for a buy its budget
      with the whole fee rate and a rounding quantum a level; a sell needs cash only where its
      fees exceed its proceeds. */
  function Reserve(intent: OrderIntent, n: nat, rate: real, mult: real): real {
    if intent.side.Buy? then CostCeiling(intent.quantity, n, Stressed(rate, mult), mult)
    else DustCeiling(intent.quantity, n, rate, mult)
  }

  lemma {:induction false} BuyOutlay(cfg: Config, p: Pending, lots: seq<Lot>, n: nat, now: int)
    requires GoodPending(cfg, p) && p.intent.side.Buy? && LotsWithin(lots, Buy, p.intent.limitPrice) && n <= |lots|
    ensures Sum(Outlay, FillEvents(cfg, p, lots, n, now))
      == Spent(lots[..n]) + Fees(p.feeRate, cfg.feeMult, lots[..n])
    decreases n
  {
    if n > 0 {
      BuyOutlay(cfg, p, lots, n - 1, now);
      var prior := FillEvents(cfg, p, lots, n - 1, now);
      var last := FillEvent(FillOf(cfg, p, lots[n - 1], n - 1, now));
      FillEventsStep(cfg, p, lots, n, now);
      SumLast(Outlay, prior, last);
      SharesPrefix(lots, n - 1);
      FeesPrefix(p.feeRate, cfg.feeMult, lots, n - 1);
      BuyLotOutlay(cfg, p, lots[n - 1], n - 1, now);
    }
  }

  lemma BuyLotOutlay(cfg: Config, p: Pending, lot: Lot, index: nat, now: int)
    requires GoodPending(cfg, p) && p.intent.side.Buy? && 0.0 < lot.price < 1.0 && lot.shares > 0.0
    ensures Outlay(FillEvent(FillOf(cfg, p, lot, index, now))) == Notional(lot.price, lot.shares) + LotFee(p.feeRate, cfg.feeMult, lot)
  {
    hide LotFee;
    LotFeeBounds(p.feeRate, cfg.feeMult, lot);
    MulLe(0.0, lot.shares, lot.price);
  }

  lemma {:induction false} FeesPrefix(rate: real, mult: real, lots: seq<Lot>, n: nat)
    requires n < |lots|
    ensures Fees(rate, mult, lots[..n + 1]) == Fees(rate, mult, lots[..n]) + LotFee(rate, mult, lots[n])
    decreases n
  {
    hide LotFee;
    if n > 0 {
      FeesPrefix(rate, mult, lots[1..], n - 1);
      assert lots[1..][..n] == lots[..n + 1][1..];
      assert lots[1..][..n - 1] == lots[..n][1..];
    } else {
      assert lots[..1][1..] == [];
    }
  }

  /** How far fees can exceed proceeds per share, when the stressed fee rate passes one. */
  function Stress(rate: real, mult: real): real {
    Max(0.0, Stressed(rate, mult) - 1.0)
  }

  /** Excess of fees over proceeds that `n` dust lots of `shares` shares in all can reach. */
  function DustCeiling(shares: real, n: nat, rate: real, mult: real): real {
    Stress(rate, mult) * shares + n as real * (FEE_QUANTUM * mult)
  }

  lemma {:induction false} SellOutlay(cfg: Config, p: Pending, lots: seq<Lot>, n: nat, now: int)
    requires GoodPending(cfg, p) && p.intent.side.Sell? && LotsWithin(lots, Sell, p.intent.limitPrice) && n <= |lots|
    ensures Sum(Outlay, FillEvents(cfg, p, lots, n, now))
      <= DustCeiling(Shares(lots[..n]), n, p.feeRate, cfg.feeMult)
    decreases n
  {
    if n == 0 {
      NoDust(p.feeRate, cfg.feeMult);
    } else {
      hide DustCeiling, Outlay, FillEvents, Notional;
      SellOutlay(cfg, p, lots, n - 1, now);
      var prior := FillEvents(cfg, p, lots, n - 1, now);
      var last := FillEvent(FillOf(cfg, p, lots[n - 1], n - 1, now));
      FillEventsStep(cfg, p, lots, n, now);
      SumLast(Outlay, prior, last);
      SharesPrefix(lots, n - 1);
      SellLotOutlay(cfg, p, lots[n - 1], n - 1, now);
      DustAdds(Shares(lots[..n - 1]), lots[n - 1].shares, n - 1, p.feeRate, cfg.feeMult);
    }
  }

  lemma NoDust(rate: real, mult: real)
    ensures DustCeiling(0.0, 0, rate, mult) == 0.0
  {
    hide Stress;
  }

  lemma DustAdds(a: real, b: real, n: nat, rate: real, mult: real)
    ensures DustCeiling(a, n, rate, mult) + DustCeiling(b, 1, rate, mult) == DustCeiling(a + b, n + 1, rate, mult)
  {
    hide Stress;
    var k := Stress(rate, mult);
    var q := FEE_QUANTUM * mult;
    assert k * a + k * b == k * (a + b);
    assert n as real * q + 1 as real * q == (n + 1) as real * q;
  }

  lemma SellLotOutlay(cfg: Config, p: Pending, lot: Lot, index: nat, now: int)
    requires GoodPending(cfg, p) && p.intent.side.Sell? && 0.0 < lot.price < 1.0 && lot.shares > 0.0
    ensures Outlay(FillEvent(FillOf(cfg, p, lot, index, now))) <= DustCeiling(lot.shares, 1, p.feeRate, cfg.feeMult)
  {
    hide LotFee, DustCeiling, Notional;
    LotFeeBounds(p.feeRate, cfg.feeMult, lot);
    NotionalWithin(lot);
    Dust(LotFee(p.feeRate, cfg.feeMult, lot), Notional(lot.price, lot.shares), lot.shares, p.feeRate, cfg.feeMult);
  }

  lemma NotionalWithin(lot: Lot)
    requires 0.0 < lot.price < 1.0 && lot.shares > 0.0
    ensures 0.0 <= Notional(lot.price, lot.shares) <= lot.shares
  {
    NotionalPositive(lot.price, lot.shares);
    NotionalBelowShares(lot.price, lot.shares);
  }

  lemma NotionalPositive(price: real, shares: real)
    requires 0.0 < price && 0.0 < shares
    ensures 0.0 < Notional(price, shares)
  {
    MulLt(0.0, price, shares);
  }

  lemma NotionalBelowShares(price: real, shares: real)
    requires price < 1.0 && 0.0 < shares
    ensures Notional(price, shares) < shares
  {
    MulLt(price, 1.0, shares);
  }

  lemma Dust(fee: real, n: real, shares: real, rate: real, mult: real)
    requires 0.0 <= n <= shares && 0.0 <= mult && fee <= Stressed(rate, mult) * n + FEE_QUANTUM * mult
    ensures Max(0.0, fee - n) <= DustCeiling(shares, 1, rate, mult)
  {
    var k := Stress(rate, mult);
    DustRate(Stressed(rate, mult), k, n, shares);
    assert 1 as real * (FEE_QUANTUM * mult) == FEE_QUANTUM * mult;
  }

  lemma DustRate(rm: real, k: real, n: real, shares: real)
    requires 0.0 <= n <= shares && 0.0 <= k && rm - 1.0 <= k
    ensures rm * n - n <= k * shares && 0.0 <= k * shares
  {
    MulLe(rm - 1.0, k, n);
    MulLe(n, shares, k);
    MulLe(0.0, k, n);
    assert (rm - 1.0) * n == rm * n - n;
  }

  lemma MoreLevels(a: nat, b: nat, q: real)
    requires a <= b && q >= 0.0
    ensures a as real * q <= b as real * q
  {
    MulLe(a as real, b as real, q);
  }

  /** A match never takes out more cash than the order's reserve. */
  lemma BlockWithinReserve(cfg: Config, v: Venue, books: Books, p: Pending, now: int, n: nat)
    requires GoodPending(cfg, p)
    requires p.intent.tokenId in books ==> |SideLevels(books[p.intent.tokenId], p.intent.side)| <= n
    ensures Sum(Outlay, Block(cfg, v, books, p, now)) <= Reserve(p.intent, n, p.feeRate, cfg.feeMult)
  {
    var plan := PlanAt(cfg, v, books, p, now);
    PlanIsGood(cfg, v, books, p, now);
    PlanWithinReserve(cfg, p, plan, now, n);
  }

  lemma PlanWithinReserve(cfg: Config, p: Pending, plan: Plan, now: int, n: nat)
    requires GoodPending(cfg, p) && GoodPlan(p, plan) && |plan.lots| <= n
    ensures Sum(Outlay, BlockOf(cfg, p, plan, now)) <= Reserve(p.intent, n, p.feeRate, cfg.feeMult)
  {
    hide *;
    var k := |plan.lots|;
    var fills := FillEvents(cfg, p, plan.lots, k, now);
    assert plan.lots[..k] == plan.lots;
    IsUpdate(p, plan, now);
    NoOutlay(FinalUpdate(p, plan, now));
    SumLast(Outlay, fills, FinalUpdate(p, plan, now));
    BlockParts(cfg, p, plan, now);
    if p.intent.side.Buy? {
      PlanLots(cfg, p, plan);
      BuyOutlay(cfg, p, plan.lots, k, now);
      BuyPlanWithin(cfg, p, plan, n);
    } else {
      PlanLots(cfg, p, plan);
      SellOutlay(cfg, p, plan.lots, k, now);
      SellPlanWithin(cfg, p, plan, n);
    }
  }

  lemma BlockParts(cfg: Config, p: Pending, plan: Plan, now: int)
    ensures BlockOf(cfg, p, plan, now) == FillEvents(cfg, p, plan.lots, |plan.lots|, now) + [FinalUpdate(p, plan, now)]
  {
  }

  lemma PlanLots(cfg: Config, p: Pending, plan: Plan)
    requires GoodPending(cfg, p) && GoodPlan(p, plan)
    ensures LotsWithin(plan.lots, p.intent.side, p.intent.limitPrice)
  {
  }

  lemma SellPlanWithin(cfg: Config, p: Pending, plan: Plan, n: nat)
    requires GoodPending(cfg, p) && GoodPlan(p, plan) && |plan.lots| <= n && p.intent.side.Sell?
    ensures DustCeiling(Shares(plan.lots), |plan.lots|, p.feeRate, cfg.feeMult) <= Reserve(p.intent, n, p.feeRate, cfg.feeMult)
  {
    hide DustCeiling;
    SellReserve(Shares(plan.lots), p.intent.quantity, |plan.lots|, n, p.feeRate, cfg.feeMult);
  }

  lemma BuyPlanWithin(cfg: Config, p: Pending, plan: Plan, n: nat)
    requires GoodPending(cfg, p) && GoodPlan(p, plan) && |plan.lots| <= n && p.intent.side.Buy?
    ensures Spent(plan.lots) + Fees(p.feeRate, cfg.feeMult, plan.lots)
      <= Reserve(p.intent, n, p.feeRate, cfg.feeMult)
  {
    hide CostCeiling, FeeCeiling, Spent, Fees, DustCeiling, Stressed;
    var rm := Stressed(p.feeRate, cfg.feeMult);
    FeesBound(p.feeRate, cfg.feeMult, plan.lots, Buy, p.intent.limitPrice);
    StressedNonNegative(p.feeRate, cfg.feeMult);
    GrownBudget(Spent(plan.lots), |plan.lots|, p.intent.quantity, rm, cfg.feeMult);
    BuyReserve(p.intent.quantity, |plan.lots|, n, rm, cfg.feeMult);
  }

  lemma NoOutlay(ev: Event)
    requires ev.UpdateEvent?
    ensures Outlay(ev) == 0.0
  {
  }

  lemma BuyReserve(quantity: real, k: nat, n: nat, rm: real, mult: real)
    requires k <= n && 0.0 <= mult
    ensures CostCeiling(quantity, k, rm, mult) <= CostCeiling(quantity, n, rm, mult)
  {
    MoreLevels(k, n, FEE_QUANTUM * mult);
  }

  lemma SellReserve(shares: real, quantity: real, k: nat, n: nat, rate: real, mult: real)
    requires shares <= quantity && k <= n && 0.0 <= mult
    ensures DustCeiling(shares, k, rate, mult) <= DustCeiling(quantity, n, rate, mult)
  {
    MoreLevels(k, n, FEE_QUANTUM * mult);
    MulLe(shares, quantity, Stress(rate, mult));
  }
}
