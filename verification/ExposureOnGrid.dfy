/** On the venue's own grids the exposure limit is exact. With book prices on the finest tick, book
    sizes and sells on the token's six decimals and fees on the accounting grid, every fill of every
    reachable state is on those grids, rounding never leaves a cost basis below zero, and no
    rounding dust enters the limit. */
module ExposureOnGrid {
  import opened Decimals
  import opened Domain
  import opened Matching
  import opened PaperVenue
  import opened Sums
  import opened TradingDesk
  import opened OrderPath
  import opened OrderPathProof
  import opened Exposure
  import Execution
  import Accounting
  import RiskEngine
  import VenueRuns

  const PRICE_Q: real := 0.0001
  const SHARE_Q: real := 0.000001

  // ---------------------------------------------------------------- what lies on the grids

  ghost predicate GridLevels(levels: seq<Level>) {
    forall i :: 0 <= i < |levels| ==> OnGrid(levels[i].price, PRICE_Q) && OnGrid(levels[i].size, SHARE_Q)
  }

  ghost predicate GridBooks(books: Books) {
    forall t :: t in books ==> GridLevels(books[t].asks) && GridLevels(books[t].bids)
  }

  /** A fee quantum, stressed, is a whole number of accounting steps. */
  ghost predicate GridFees(cfg: Config) {
    OnGrid(FEE_QUANTUM * cfg.feeMult, ACCOUNTING_Q)
  }

  /** What the steps bring in from outside: books, and the shares of a sell. */
  ghost predicate GridStep(step: Step) {
    && (step.ChangeBooks? ==> GridBooks(step.books))
    && (step.SubmitOrder? && step.decision.side.Sell? ==> OnGrid(step.decision.maxShares, SHARE_Q))
  }

  ghost predicate GridSteps(steps: seq<Step>) {
    forall i :: 0 <= i < |steps| ==> GridStep(steps[i])
  }

  ghost predicate GridUses(uses: seq<Use>) {
    forall i :: 0 <= i < |uses| ==> OnGrid(uses[i].size, SHARE_Q)
  }

  ghost predicate GridEvent(ev: Event) {
    ev.FillEvent? ==> Accounting.GridFill(ev.fill)
  }

  ghost predicate GridEvents(events: seq<Event>) {
    forall i :: 0 <= i < |events| ==> GridEvent(events[i])
  }

  ghost predicate GridConsumed(consumed: map<LevelKey, seq<Use>>) {
    forall key :: key in consumed ==> GridUses(consumed[key])
  }

  ghost predicate GridOrder(intent: OrderIntent) {
    intent.side.Sell? ==> OnGrid(intent.quantity, SHARE_Q)
  }

  ghost predicate GridPending(pending: seq<Pending>) {
    forall p :: p in pending ==> GridOrder(p.intent)
  }

  ghost predicate GridHistory(history: seq<Logged>) {
    forall q :: 0 <= q < |history| ==> GridEvent(history[q].event)
  }

  ghost predicate GridVenue(v: Venue) {
    GridPending(v.pending) && GridConsumed(v.consumed) && GridHistory(v.history) && GridEvents(v.events)
  }

  ghost predicate GridDesk(d: Desk) {
    Accounting.WellKept(d.ledger) && Accounting.CostsOnGrid(d.ledger.positions)
  }

  ghost predicate GridSys(s: Sys) {
    GridBooks(s.books) && GridVenue(s.venue) && GridDesk(s.desk)
  }

  // ---------------------------------------------------------------- lots

  lemma {:induction false} RecentOnGrid(uses: seq<Use>, horizon: int)
    requires GridUses(uses)
    ensures GridUses(Recent(uses, horizon)) && OnGrid(Used(Recent(uses, horizon)), SHARE_Q)
  {
    if uses == [] {
      Accounting.GridZero(SHARE_Q);
    } else {
      hide OnGrid;
      RecentOnGrid(uses[1..], horizon);
      var rest := Recent(uses[1..], horizon);
      GridAdd(uses[0].size, Used(rest), SHARE_Q);
      if uses[0].tsMs > horizon {
        assert ([uses[0]] + rest)[1..] == rest;
      }
    }
  }

  lemma AvailableOnGrid(consumed: map<LevelKey, seq<Use>>, token: TokenId, side: Side, levels: seq<Level>, horizon: int)
    requires GridConsumed(consumed) && GridLevels(levels)
    ensures GridLevels(Available(consumed, token, side, levels, horizon))
  {
    hide OnGrid, Recent, Used;
    var avail := Available(consumed, token, side, levels, horizon);
    forall i | 0 <= i < |avail|
      ensures OnGrid(avail[i].price, PRICE_Q) && OnGrid(avail[i].size, SHARE_Q)
    {
      var uses := UsesOf(consumed, LevelKey(token, side, levels[i].price));
      assert GridUses(uses);
      RecentOnGrid(uses, horizon);
      GridAdd(levels[i].size, Used(Recent(uses, horizon)), SHARE_Q);
    }
  }

  /** Hundredths are millionths. */
  lemma LotOnGrid(x: real)
    requires OnGrid(x, SHARE_LOT)
    ensures OnGrid(x, SHARE_Q)
  {
    var k: int :| x == Multiple(k, SHARE_LOT);
    assert x == Multiple(k * 10000, SHARE_Q);
  }

  ghost predicate GridLots(lots: seq<Lot>) {
    forall i :: 0 <= i < |lots| ==> OnGrid(lots[i].price, PRICE_Q) && OnGrid(lots[i].shares, SHARE_Q)
  }

  lemma FirstLot(lot: Lot, rest: seq<Lot>)
    requires OnGrid(lot.price, PRICE_Q) && OnGrid(lot.shares, SHARE_Q) && GridLots(rest)
    ensures GridLots([lot] + rest)
  {
    hide OnGrid;
  }

  lemma RestOnGrid(levels: seq<Level>)
    requires GridLevels(levels) && levels != []
    ensures OnGrid(levels[0].price, PRICE_Q) && OnGrid(levels[0].size, SHARE_Q) && GridLevels(levels[1..])
  {
    hide OnGrid;
  }

  lemma TakeOnGrid(level: Level, budget: real)
    requires level.price > 0.0 && OnGrid(level.size, SHARE_Q)
    ensures OnGrid(BuyTake(level, budget), SHARE_Q)
  {
    hide FloorTo, OnGrid;
    RoundedOnGrid(budget / level.price, SHARE_LOT);
    LotOnGrid(FloorTo(budget / level.price, SHARE_LOT));
  }

  lemma {:induction false} BuyOnGrid(levels: seq<Level>, limit: real, budget: real)
    requires PricedInRange(levels) && GridLevels(levels)
    ensures GridLots(BuyWalk(levels, limit, budget).lots)
    decreases |levels|
  {
    hide OnGrid, BuyTake, Notional, GridLevels, GridLots;
    if levels == [] || levels[0].price > limit || budget <= 0.0 {
      NoLots();
    } else {
      RestOnGrid(levels);
      if levels[0].size <= 0.0 || BuyTake(levels[0], budget) <= 0.0 {
        BuyOnGrid(levels[1..], limit, budget);
      } else {
        var take := BuyTake(levels[0], budget);
        var left := budget - Notional(levels[0].price, take);
        BuyOnGrid(levels[1..], limit, left);
        TakeOnGrid(levels[0], budget);
        FirstLot(Lot(levels[0].price, take), BuyWalk(levels[1..], limit, left).lots);
      }
    }
  }

  lemma NoLots()
    ensures GridLots([])
  {
  }

  lemma {:induction false} SellOnGrid(levels: seq<Level>, limit: real, remaining: real)
    requires GridLevels(levels) && OnGrid(remaining, SHARE_Q)
    ensures GridLots(SellWalk(levels, limit, remaining).lots)
    decreases |levels|
  {
    hide OnGrid, GridLevels, GridLots;
    if levels == [] || levels[0].price < limit || remaining <= 0.0 {
      NoLots();
    } else {
      RestOnGrid(levels);
      if levels[0].size <= 0.0 {
        SellOnGrid(levels[1..], limit, remaining);
      } else {
        var take := Min(levels[0].size, remaining);
        GridAdd(remaining, take, SHARE_Q);
        SellOnGrid(levels[1..], limit, remaining - take);
        FirstLot(Lot(levels[0].price, take), SellWalk(levels[1..], limit, remaining - take).lots);
      }
    }
  }

  lemma PlanOnGrid(intent: OrderIntent, levels: seq<Level>)
    requires PricedInRange(levels) && GridLevels(levels) && GridOrder(intent)
    ensures GridLots(PlanOf(intent, levels).lots)
  {
    hide OnGrid, GridLevels, BuyWalk, SellWalk, BuyComplete, SellComplete;
    NoLots();
    if intent.side.Buy? {
      BuyOnGrid(levels, intent.limitPrice, intent.quantity);
    } else {
      SellOnGrid(levels, intent.limitPrice, intent.quantity);
    }
  }

  // ---------------------------------------------------------------- fills

  lemma StressedFee(k: int, mult: real, j: int)
    requires FEE_QUANTUM * mult == Multiple(j, ACCOUNTING_Q)
    ensures Multiple(k, FEE_QUANTUM) * mult == Multiple(k * j, ACCOUNTING_Q)
  {
    var x, y := k as real, j as real;
    assert (x * FEE_QUANTUM) * mult == x * (FEE_QUANTUM * mult);
    assert (k * j) as real == x * y;
  }

  lemma QuantumOnGrid(fee: real, mult: real, unit: real, product: real)
    requires unit == FEE_QUANTUM * mult && product == fee * mult
    requires OnGrid(fee, FEE_QUANTUM) && OnGrid(unit, ACCOUNTING_Q)
    ensures OnGrid(product, ACCOUNTING_Q)
  {
    var k: int :| fee == Multiple(k, FEE_QUANTUM);
    var j: int :| unit == Multiple(j, ACCOUNTING_Q);
    hide Multiple;
    StressedFee(k, mult, j);
  }

  lemma TakerFeeOnGrid(rate: real, shares: real, price: real)
    ensures OnGrid(TakerFee(rate, shares, price), FEE_QUANTUM)
  {
    hide CeilTo, FeeRateAt, OnGrid;
    var raw := shares * FeeRateAt(rate, price);
    RoundedOnGrid(raw, FEE_QUANTUM);
    assert TakerFee(rate, shares, price) == CeilTo(raw, FEE_QUANTUM);
  }

  lemma FeeOnGrid(cfg: Config, rate: real, lot: Lot)
    requires GridFees(cfg)
    ensures OnGrid(LotFee(rate, cfg.feeMult, lot), ACCOUNTING_Q)
  {
    hide TakerFee, OnGrid;
    TakerFeeOnGrid(rate, lot.shares, lot.price);
    QuantumOnGrid(TakerFee(rate, lot.shares, lot.price), cfg.feeMult, FEE_QUANTUM * cfg.feeMult, LotFee(rate, cfg.feeMult, lot));
  }

  lemma FillOnGrid(cfg: Config, p: Pending, lot: Lot, index: nat, now: int)
    requires GridFees(cfg) && OnGrid(lot.price, PRICE_Q) && OnGrid(lot.shares, SHARE_Q)
    ensures Accounting.GridFill(FillOf(cfg, p, lot, index, now))
  {
    hide OnGrid, LotFee, GridFees;
    FeeOnGrid(cfg, p.feeRate, lot);
  }

  // ---------------------------------------------------------------- the venue

  lemma EmitOnGrid(v: Venue, token: TokenId, ev: Event)
    requires GridVenue(v) && GridEvent(ev)
    ensures GridVenue(Emit(v, token, ev))
  {
    hide GridEvent, GridPending, GridConsumed;
  }

  lemma ConsumeOnGrid(consumed: map<LevelKey, seq<Use>>, key: LevelKey, use: Use)
    requires GridConsumed(consumed) && OnGrid(use.size, SHARE_Q)
    ensures GridConsumed(Consume(consumed, key, use))
  {
    hide OnGrid;
  }

  lemma PrunedOnGrid(consumed: map<LevelKey, seq<Use>>, token: TokenId, side: Side, levels: seq<Level>, horizon: int)
    requires GridConsumed(consumed)
    ensures GridConsumed(Pruned(consumed, token, side, levels, horizon))
  {
    hide OnGrid, GridUses, Touched, Recent;
    var after := Pruned(consumed, token, side, levels, horizon);
    forall key | key in after
      ensures GridUses(after[key])
    {
      RecentOnGrid(consumed[key], horizon);
    }
  }

  lemma LotFilledOnGrid(cfg: Config, v: Venue, p: Pending, lot: Lot, index: nat, now: int)
    requires GridVenue(v) && GridFees(cfg) && OnGrid(lot.price, PRICE_Q) && OnGrid(lot.shares, SHARE_Q)
    ensures GridVenue(FillLot(cfg, v, p, lot, index, now))
  {
    hide OnGrid, GridFees, FillOf, CashDelta, ShareDelta, Consume, Accounting.GridFill, GridHistory, GridEvents, GridPending, GridConsumed;
    FillOnGrid(cfg, p, lot, index, now);
    ConsumeOnGrid(v.consumed, LevelKey(p.intent.tokenId, p.intent.side, lot.price), Use(now, lot.shares));
    var fill := FillOf(cfg, p, lot, index, now);
    var booked := v.(consumed := Consume(v.consumed, LevelKey(p.intent.tokenId, p.intent.side, lot.price), Use(now, lot.shares)),
                     cash := v.cash + CashDelta(fill),
                     positions := v.positions[p.intent.tokenId := v.Held(p.intent.tokenId) + ShareDelta(fill)]);
    EmitOnGrid(booked, p.intent.tokenId, FillEvent(fill));
  }

  lemma {:induction false} LotsFilledOnGrid(cfg: Config, v: Venue, p: Pending, lots: seq<Lot>, n: nat, now: int)
    requires GridVenue(v) && GridFees(cfg) && GridLots(lots) && n <= |lots|
    ensures GridVenue(FillLots(cfg, v, p, lots, n, now))
    decreases n
  {
    hide GridVenue, GridFees, OnGrid, FillLot;
    if n > 0 {
      LotsFilledOnGrid(cfg, v, p, lots, n - 1, now);
      LotFilledOnGrid(cfg, FillLots(cfg, v, p, lots, n - 1, now), p, lots[n - 1], n - 1, now);
    }
  }

  lemma MatchOnGrid(cfg: Config, v: Venue, books: Books, p: Pending, now: int)
    requires GridVenue(v) && GridFees(cfg) && GridBooks(books) && GridOrder(p.intent)
    ensures GridVenue(Match(cfg, v, books, p, now))
  {
    hide MatchBook, GridLevels, GridFees, GridHistory, GridEvents, GridPending, GridConsumed;
    if p.intent.tokenId in books {
      BookMatchOnGrid(cfg, v, books[p.intent.tokenId], p, now);
    } else {
      EmitOnGrid(v, p.intent.tokenId, CancelUpdate(p, now));
    }
  }

  lemma BookMatchOnGrid(cfg: Config, v: Venue, book: Book, p: Pending, now: int)
    requires GridVenue(v) && GridFees(cfg) && GridLevels(book.asks) && GridLevels(book.bids) && GridOrder(p.intent)
    ensures GridVenue(MatchBook(cfg, v, book, p, now))
  {
    hide GridLevels, GridFees, GridHistory, GridEvents, GridPending, GridConsumed, GridLots, PlanOf, Available, Pruned, FillLots, GridOrder,
      OnGrid;
    var token, side := p.intent.tokenId, p.intent.side;
    var levels, horizon := SideLevels(book, side), now - cfg.replenishMs;
    var avail := Available(v.consumed, token, side, levels, horizon);
    AvailableOnGrid(v.consumed, token, side, levels, horizon);
    PricesKept(v.consumed, token, side, levels, horizon);
    PlanOnGrid(p.intent, avail);
    PrunedOnGrid(v.consumed, token, side, levels, horizon);
    var plan := PlanOf(p.intent, avail);
    var looked := v.(consumed := Pruned(v.consumed, token, side, levels, horizon));
    LotsFilledOnGrid(cfg, looked, p, plan.lots, |plan.lots|, now);
    EmitOnGrid(FillLots(cfg, looked, p, plan.lots, |plan.lots|, now), token, FinalUpdate(p, plan, now));
  }

  lemma PricesKept(consumed: map<LevelKey, seq<Use>>, token: TokenId, side: Side, levels: seq<Level>, horizon: int)
    requires PricedInRange(levels)
    ensures PricedInRange(Available(consumed, token, side, levels, horizon))
  {
  }

  lemma WithoutOnGrid(v: Venue, id: OrderId)
    requires GridVenue(v)
    ensures GridVenue(v.(pending := Without(v.pending, id)))
  {
    hide GridHistory, GridEvents, GridConsumed, GridOrder;
  }

  lemma {:induction false} MatchesOnGrid(cfg: Config, v: Venue, books: Books, orders: seq<Pending>)
    requires GridVenue(v) && GridFees(cfg) && GridBooks(books) && forall p :: p in orders ==> GridOrder(p.intent)
    ensures GridVenue(MatchAll(cfg, v, books, orders))
    decreases |orders|
  {
    hide GridVenue, GridFees, GridBooks, GridOrder, Match;
    if orders != [] {
      var p := orders[0];
      WithoutOnGrid(v, p.orderId);
      var taken := v.(pending := Without(v.pending, p.orderId));
      MatchOnGrid(cfg, taken, books, p, p.dueMs);
      MatchesOnGrid(cfg, Match(cfg, taken, books, p, p.dueMs), books, orders[1..]);
    }
  }

  lemma PendingOnGrid(v: Venue, p: Pending)
    requires GridVenue(v) && p in v.pending
    ensures GridOrder(p.intent)
  {
    hide GridHistory, GridEvents, GridConsumed, GridOrder;
  }

  lemma AdvanceOnGrid(cfg: Config, v: Venue, books: Books, now: int)
    requires GridVenue(v) && GridFees(cfg) && GridBooks(books)
    ensures GridVenue(Advance(cfg, v, books, now))
  {
    hide GridVenue, GridFees, GridBooks, GridOrder, MatchAll, SortByDue;
    var orders := SortByDue(Due(v.pending, now));
    VenueRuns.SortByDueSorts(Due(v.pending, now));
    forall p | p in orders
      ensures GridOrder(p.intent)
    {
      PendingOnGrid(v, p);
    }
    MatchesOnGrid(cfg, v, books, orders);
  }

  lemma CancelOnGrid(v: Venue, id: OrderId, now: int)
    requires GridVenue(v)
    ensures GridVenue(Cancel(v, id, now))
  {
    hide GridVenue;
    var found := Find(v.pending, id);
    if found.Some? {
      WithoutOnGrid(v, id);
      EmitOnGrid(v.(pending := Without(v.pending, id)), found.value.intent.tokenId, CancelUpdate(found.value, now));
    }
  }

  lemma {:induction false} CancelsOnGrid(v: Venue, ids: seq<OrderId>, now: int)
    requires GridVenue(v)
    ensures GridVenue(CancelEach(v, ids, now))
    decreases |ids|
  {
    hide GridVenue, Cancel;
    if ids != [] {
      CancelOnGrid(v, ids[0], now);
      CancelsOnGrid(Cancel(v, ids[0], now), ids[1..], now);
    }
  }

  // ---------------------------------------------------------------- the desk

  lemma OneOnGrid(d: Desk, ev: Event)
    requires GridDesk(d) && ValidEvent(ev) && GridEvent(ev)
    ensures GridDesk(DeliverOne(d, ev))
  {
    hide Accounting.ApplyFill, Accounting.GridFill, Accounting.WellKept, Accounting.CostsOnGrid, Execution.ApplyUpdate, Execution.ApplyFill;
    if ev.FillEvent? && Accounting.ApplyFill(d.ledger, ev.fill).Ok? {
      Accounting.CostsOnGridFill(d.ledger, ev.fill);
      Accounting.WellKeptStep(d.ledger, Accounting.FillOp(ev.fill));
    }
  }

  lemma {:induction false} AllOnGrid(d: Desk, events: seq<Event>)
    requires GridDesk(d) && ValidEvents(events) && GridEvents(events)
    ensures GridDesk(DeliverAll(d, events))
    decreases |events|
  {
    hide GridDesk, ValidEvent, GridEvent, DeliverOne;
    if events != [] {
      OneOnGrid(d, events[0]);
      AllOnGrid(DeliverOne(d, events[0]), events[1..]);
    }
  }

  lemma {:induction false} SinceOnGrid(history: seq<Logged>, token: TokenId, since: int)
    requires GridHistory(history)
    ensures GridEvents(OrdersSince(history, token, since))
  {
    hide GridEvent;
    if history != [] {
      SinceOnGrid(history[1..], token, since);
    }
  }

  lemma {:induction false} MineOnGrid(events: seq<Event>, rec: OrderRecord)
    requires GridEvents(events)
    ensures GridEvents(Execution.Mine(events, rec))
  {
    hide GridEvent;
    if events != [] {
      MineOnGrid(events[1..], rec);
    }
  }

  lemma FoundOnGrid(s: Sys, rec: OrderRecord)
    requires GridVenue(s.venue)
    ensures GridEvents(Found(s, rec))
  {
    hide GridHistory, GridEvents, GridPending, GridConsumed, OrdersSince, Execution.Mine;
    SinceOnGrid(s.venue.history, rec.intent.tokenId, rec.intent.createdMs);
    MineOnGrid(OrdersSince(s.venue.history, rec.intent.tokenId, rec.intent.createdMs), rec);
  }

  lemma SettledOnGrid(d: Desk, condition: ConditionId, winner: Outcome, ts: int)
    requires GridDesk(d)
    ensures GridDesk(d.(ledger := Accounting.Settle(d.ledger, condition, winner, ts)))
  {
    hide Accounting.Settle, Accounting.WellKept, Accounting.CostsOnGrid;
    Accounting.CostsOnGridStep(d.ledger, Accounting.SettleOp(condition, winner, ts));
    Accounting.WellKeptStep(d.ledger, Accounting.SettleOp(condition, winner, ts));
  }

  // ---------------------------------------------------------------- steps and runs

  lemma EventsPolled(v: Venue)
    requires GridVenue(v)
    ensures GridEvents(v.events) && GridVenue(v.(events := []))
  {
    hide GridHistory, GridPending, GridConsumed, GridEvent;
  }

  lemma SubmitOnGrid(setup: Setup, s: Sys, step: Step)
    requires step.SubmitOrder? && step.condition in setup.markets && setup.markets[step.condition].Valid()
    requires GridSys(s) && GridStep(step)
    ensures GridSys(AfterSubmit(setup, s, step))
  {
    hide GridBooks, GridHistory, GridEvents, GridConsumed, GridDesk, OnGrid, Execution.Prepare, Execution.Conclude, Execution.MarkSubmitting,
      Execution.InsertIntent, PreparedBy, Validate;
    var b := PreparedBy(setup, s, step);
    if b.Built? {
      QuantityOnGrid(setup, s, step);
      SameLedger(setup, s, step);
    }
  }

  lemma QuantityOnGrid(setup: Setup, s: Sys, step: Step)
    requires step.SubmitOrder? && step.condition in setup.markets && setup.markets[step.condition].Valid()
    requires PreparedBy(setup, s, step).Built? && GridStep(step)
    ensures GridOrder(PreparedBy(setup, s, step).intent)
  {
    hide FloorTo, CeilTo, Execution.OpenIds, Execution.UnknownIds, OnGrid, GridBooks;
  }

  lemma SameLedger(setup: Setup, s: Sys, step: Step)
    requires step.SubmitOrder? && step.condition in setup.markets && setup.markets[step.condition].Valid()
    requires GridDesk(s.desk)
    ensures GridDesk(AfterSubmit(setup, s, step).desk)
  {
    hide Execution.Prepare, Execution.Conclude, Execution.MarkSubmitting, Execution.InsertIntent, PreparedBy, Submit, Accounting.WellKept,
      Accounting.CostsOnGrid;
  }

  /** Every step with inputs on the grids keeps everything on them. */
  lemma NextOnGrid(setup: Setup, s: Sys, step: Step)
    requires GridFees(setup.cfg) && GridSys(s) && GridStep(step)
    ensures GridSys(Next(setup, s, step))
  {
    hide GridBooks, GridVenue, GridDesk, GridFees, AfterSubmit, Advance, Cancel, CancelEach, DeliverAll, Accounting.Settle, Found, ValidEvent,
      GridEvents, Execution.MarkResolvedNoFill;
    match step
    case Tick(_) =>
    case ChangeBooks(_) =>
    case SubmitOrder(_, condition, _, _, _, _, _) =>
      if condition in setup.markets && setup.markets[condition].Valid() {
        SubmitOnGrid(setup, s, step);
      }
    case AdvanceVenue => AdvanceOnGrid(setup.cfg, s.venue, s.books, s.clock);
    case CancelOrder(id) => CancelOnGrid(s.venue, id, s.clock);
    case CancelAllOrders => CancelsOnGrid(s.venue, Ids(s.venue.pending), s.clock);
    case PollAndApply =>
      AdvanceOnGrid(setup.cfg, s.venue, s.books, s.clock);
      var v := Advance(setup.cfg, s.venue, s.books, s.clock);
      EventsPolled(v);
      if ValidEvents(v.events) {
        AllOnGrid(s.desk, v.events);
      }
    case ResolveUnknown(id) =>
      if id in s.desk.engine.orders {
        var mine := Found(s, s.desk.engine.orders[id]);
        FoundOnGrid(s, s.desk.engine.orders[id]);
        if ValidEvents(mine) {
          AllOnGrid(s.desk, mine);
        }
      }
    case OperatorNoFill(id) =>
      if id in s.desk.engine.orders {
        DeskOnly(s.desk, Execution.MarkResolvedNoFill(s.desk.engine, id, s.clock));
      }
    case SettleMarket(condition, winner, loser) =>
      SettledOnGrid(s.desk, condition, winner.outcome, s.clock);
      PaidOnGrid(s.venue, winner.tokenId, loser.tokenId);
  }

  lemma DeskOnly(d: Desk, e: Execution.Engine)
    requires GridDesk(d)
    ensures GridDesk(d.(engine := e))
  {
  }

  lemma PaidOnGrid(v: Venue, winner: TokenId, loser: TokenId)
    requires GridVenue(v)
    ensures GridVenue(Settle(v, winner, loser))
  {
    hide GridHistory, GridPending, GridConsumed, GridEvents;
  }

  lemma GridAtFirst(cash: real, clock: int)
    ensures GridSys(Start(cash, clock))
  {
  }

  lemma {:induction false} RunOnGrid(setup: Setup, w: World, steps: seq<Step>)
    requires GridFees(setup.cfg) && GridSys(w.sys) && GridSteps(steps)
    ensures GridSys(Run(setup, w, steps).sys)
    decreases |steps|
  {
    hide GridFees, GridSys, GridStep, Next;
    if steps != [] {
      NextOnGrid(setup, w.sys, steps[0]);
      RunOnGrid(setup, NextWorld(setup, w, steps[0]), steps[1..]);
    }
  }

  /** In every state a run with inputs on the grids can reach, every fill the venue ever made is on
      them, and every cost basis is on the accounting grid and not negative. */
  lemma CostsOnGridOverRuns(setup: Setup, cash: real, clock: int, steps: seq<Step>)
    requires GridFees(setup.cfg) && GridSteps(steps)
    ensures var s := Run(setup, Begin(cash, clock), steps).sys;
      && Accounting.CostsOnGrid(s.desk.ledger.positions)
      && forall q :: 0 <= q < |s.venue.history| && s.venue.history[q].event.FillEvent? ==> Accounting.GridFill(s.venue.history[q].event.fill)
  {
    hide Run, GridFees, GridSteps, Accounting.CostsOnGrid, Accounting.GridFill, Accounting.WellKept;
    GridAtFirst(cash, clock);
    RunOnGrid(setup, Begin(cash, clock), steps);
  }

  lemma ApprovedIsSized(policy: RiskEngine.Policy, s: Sys, step: Step)
    requires GridSys(s) && Approved(policy, s, step)
    ensures Sized(policy, s, step, 0.0)
  {
    hide Approved, GridBooks, GridVenue, Accounting.CostsOnGrid, Accounting.WellKept, Debt;
    NoDebtOnGrid(s.desk.ledger.positions);
  }

  lemma {:induction false} ApprovedRunIsSized(policy: RiskEngine.Policy, setup: Setup, w: World, steps: seq<Step>)
    requires GridFees(setup.cfg) && GridSys(w.sys) && GridSteps(steps) && ApprovedRun(policy, setup, w, steps)
    ensures SizedRun(policy, setup, w, steps, 0.0)
    decreases |steps|
  {
    hide GridFees, GridSys, GridStep, Next, Approved, Sized;
    if steps != [] {
      ApprovedIsSized(policy, w.sys, steps[0]);
      NextOnGrid(setup, w.sys, steps[0]);
      ApprovedRunIsSized(policy, setup, NextWorld(setup, w, steps[0]), steps[1..]);
    }
  }

  /** Main theorem: over any run whose entries the risk engine approved and whose inputs are on the
      venue's grids, open cost basis plus pending buys never exceeds the policy's limit plus the
      fees paid, with nothing to add for rounding. */
  lemma ExposureBoundOnGrid(policy: RiskEngine.Policy, setup: Setup, cash: real, clock: int, steps: seq<Step>)
    requires policy.Valid() && setup.Valid() && cash >= 0.0 && GridFees(setup.cfg) && GridSteps(steps)
    requires EnabledRun(setup, Begin(cash, clock), steps) && ApprovedRun(policy, setup, Begin(cash, clock), steps)
    ensures var d := Run(setup, Begin(cash, clock), steps).sys.desk;
      && Accounting.Exposure(d.ledger.positions) >= 0.0
      && Accounting.Exposure(d.ledger.positions) + Execution.PendingBuyUsd(d.engine) <= policy.maxTotalExposure + d.ledger.feesPaid
  {
    hide Run, EnabledRun, ApprovedRun, SizedRun, GridFees, GridSteps;
    GridAtFirst(cash, clock);
    ApprovedRunIsSized(policy, setup, Begin(cash, clock), steps);
    ExposureBoundWithSlack(policy, setup, cash, clock, steps, 0.0);
    CostsOnGridOverRuns(setup, cash, clock, steps);
    SumNonNegative(Accounting.CostOf, Run(setup, Begin(cash, clock), steps).sys.desk.ledger.positions);
  }
}
