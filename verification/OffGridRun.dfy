/** Off the grids the exact exposure limit can be passed: a reachable run in which the rounded cost of
    a partial sale leaves a cost basis below zero, the next entry is sized with that room, and the
    settlement of the position takes the room away again. Every order is decided on a deep book, and
    the book changes while it is on its way. */
module OffGridRun {
  import opened Decimals
  import opened Domain
  import opened Matching
  import opened PaperVenue
  import opened MatchBlocks
  import opened Sums
  import opened TradingDesk
  import opened OrderPath
  import opened OrderPathProof
  import opened Exposure
  import opened ExecutionEngine
  import opened Decisions
  import Execution
  import Accounting
  import Intents
  import LazyMatching
  import Rates
  import RiskEngine
  import Trades

  const FIRST: Market := Market("c", Token("a", "Up"), Token("x", "Down"), 0.01, 0.0, 5.0)
  const SECOND: Market := Market("m", Token("b", "Up"), Token("y", "Down"), 0.01, 0.0, 5.0)
  const THIRD: Market := Market("k", Token("d", "Up"), Token("z", "Down"), 0.01, 0.0, 5.0)
  const SETUP: Setup := Setup(Config(150, 0, 50, 2000, 1.0), 1, map["c" := FIRST, "m" := SECOND, "k" := THIRD], 1)

  const LIMITS: RiskEngine.Policy := DEFAULTS.(maxTotalExposure := 10.0, maxOpenPositions := 3, maxTradesPerMinute := 4)

  /** The books of every decision, and what each order then meets. */
  const DECIDING: Books := map["a" := DEEP, "b" := DEEP, "d" := DEEP]
  const MET_A: Books := map["a" := Snapshot([], [Level(0.5, 5.00000000012)])]
  const MET_SALE: Books := map["a" := Snapshot([Level(0.49, 5.00000000011)], [])]
  const MET_B: Books := map["b" := Snapshot([], [Level(0.5, 5.00000000008)])]

  const BUY_A: Step := SubmitOrder(Execution.Decision("d1", true, Buy, "a", 0.5, 10.0, 20.0, 0), "c", "Up", 1, Delivered, 0, false)
  const SELL_A: Step := SubmitOrder(Execution.Decision("d2", true, Sell, "a", 0.49, 0.0, 5.00000000012, 200), "c", "Up", 2, Delivered, 0, false)
  const BUY_B: Step := SubmitOrder(Execution.Decision("d3", true, Buy, "b", 0.5, 10.0, 20.0, 400), "m", "Up", 3, Delivered, 0, false)
  const BUY_D: Step := SubmitOrder(Execution.Decision("d4", true, Buy, "d", 0.5, 7.5, 15.0, 600), "k", "Up", 4, Delivered, 0, false)
  const SETTLE: Step := SettleMarket("c", Token("a", "Up"), Token("x", "Down"))

  const ORDER_A: OrderIntent := OrderIntent(1, "d1", "c", "a", "Up", Buy, FAK, 0.5, 10.0, 0)
  const SALE_A: OrderIntent := OrderIntent(2, "d2", "c", "a", "Up", Sell, FAK, 0.49, 5.00000000012, 200)
  const ORDER_B: OrderIntent := OrderIntent(3, "d3", "m", "b", "Up", Buy, FAK, 0.5, 10.0, 400)
  const ORDER_D: OrderIntent := OrderIntent(4, "d4", "k", "d", "Up", Buy, FAK, 0.5, 7.5, 600)

  const LOT_A: Lot := Lot(0.5, 5.00000000012)
  const LOT_SOLD: Lot := Lot(0.49, 5.00000000011)
  const LOT_B: Lot := Lot(0.5, 5.00000000008)

  // ---------------------------------------------------------------- no fees

  lemma NoRate(shares: real, price: real)
    ensures TakerFee(0.0, shares, price) == 0.0
  {
    hide CeilTo;
    assert shares * FeeRateAt(0.0, price) == 0.0;
    assert Multiple(0, FEE_QUANTUM) == 0.0;
    GridStays(0, FEE_QUANTUM);
  }

  lemma NoCharges()
    ensures Charges(0.0, 0.0, 0.0) && LimitFee(SETUP.cfg, 0.0, 0.5) == 0.0
  {
    hide TakerFee;
    NoRate(20.0, 0.5);
    assert FeeRateAt(0.0, 0.5) == 0.0 && FeeRateAt(0.0, 0.49) == 0.0;
  }

  /** What a fill without fees looks like. */
  lemma FreeFill(s: Sys, step: Step, intent: OrderIntent, lot: Lot)
    requires step.SubmitOrder? && step.condition in SETUP.markets && SETUP.markets[step.condition].feeRate == 0.0
    ensures var f := Trades.TradeFill(SETUP, s, step, intent, lot);
      f.price == lot.price && f.shares == lot.shares && f.fee == 0.0 && f.side == intent.side && f.tokenId == intent.tokenId
      && f.conditionId == intent.conditionId && f.outcome == intent.outcome
  {
    hide TakerFee;
    NoRate(lot.shares, lot.price);
  }

  // ---------------------------------------------------------------- what each order takes

  lemma TakesA()
    ensures PlanOf(ORDER_A, MET_A["a"].asks).lots == [LOT_A]
  {
    hide FloorTo, Notional;
    TwentyShares();
    OneBought(MET_A["a"].asks[0], 10.0, LOT_A);
  }

  lemma TakesB()
    ensures PlanOf(ORDER_B, MET_B["b"].asks).lots == [LOT_B]
  {
    hide FloorTo, Notional;
    TwentyShares();
    OneBought(MET_B["b"].asks[0], 10.0, LOT_B);
  }

  lemma TwentyShares()
    ensures FloorTo(10.0 / 0.5, SHARE_LOT) == 20.0
  {
    hide FloorTo;
    assert Multiple(2000, SHARE_LOT) == 20.0 && 10.0 / 0.5 == 20.0;
    GridStays(2000, SHARE_LOT);
  }

  lemma OneBought(level: Level, budget: real, lot: Lot)
    requires 0.0 < level.price <= 0.5 && level.size > 0.0 && budget > 0.0
    requires BuyTake(level, budget) == level.size && lot == Lot(level.price, level.size)
    ensures BuyWalk([level], 0.5, budget).lots == [lot]
  {
    hide BuyTake, Notional;
    assert [level][1..] == [];
    assert BuyWalk([], 0.5, budget - Notional(level.price, level.size)).lots == [];
    assert [lot] + [] == [lot];
  }

  lemma SellsA()
    ensures PlanOf(SALE_A, MET_SALE["a"].bids).lots == [LOT_SOLD]
  {
    var level := MET_SALE["a"].bids[0];
    assert [level][1..] == [];
    assert SellWalk([], 0.49, 5.00000000012 - 5.00000000011).lots == [];
    assert [LOT_SOLD] + [] == [LOT_SOLD];
  }

  // ---------------------------------------------------------------- the ledger

  /** The ledger as far as the loss limits look at it: the day began with twenty dollars. */
  ghost predicate Steady(l: Accounting.Ledger) {
    && l.startOfDayEquity == 20.0 && l.peakEquity == 20.0 && l.currentDay == 0 && l.consecutiveLosses == 0 && l.lastLossMs == None
    && l.feesPaid == 0.0
  }

  lemma BoughtNew(l: Accounting.Ledger, f: Fill)
    requires f.Valid() && f.side.Buy? && f.fee == 0.0 && Notional(f.price, f.shares) <= l.cash && !Accounting.Has(l.positions, f.tokenId)
    ensures Accounting.ApplyFill(l, f).Ok?
    ensures var l', p := Accounting.ApplyFill(l, f).value, Accounting.Bought(Accounting.Opened(f), f);
      && l'.positions == l.positions + [p] && l'.cash == l.cash - Notional(f.price, f.shares) && (Steady(l) ==> Steady(l'))
      && p.cost == Notional(f.price, f.shares) && p.shares == f.shares && p.tokenId == f.tokenId && p.conditionId == f.conditionId
  {
    hide Notional;
  }

  /** All but a sliver sold, and a whole grid step of cost gone with it. */
  lemma SliverLeft(l: Accounting.Ledger, p: Accounting.Position, f: Fill)
    requires l.positions == [p] && p.tokenId == "a" && p.shares == 5.00000000012 && p.cost == 2.50000000006
    requires f.Valid() && f.side.Sell? && f.tokenId == "a" && f.price == 0.49 && f.shares == 5.00000000011 && f.fee == 0.0
    ensures Accounting.ApplyFill(l, f).Ok?
    ensures var l' := Accounting.ApplyFill(l, f).value;
      && |l'.positions| == 1 && l'.cash == l.cash + 2.4500000000539 && (Steady(l) ==> Steady(l'))
      && l'.positions[0] == Accounting.Sold(p, f) && l'.positions[0].cost == -0.00000000004 && l'.positions[0].shares == 0.00000000001
  {
    hide Accounting.CostRemoved;
    CostOfSliver(p);
    assert Accounting.IndexOf(l.positions, "a") == 0;
    assert Notional(0.49, 5.00000000011) == 2.4500000000539;
  }

  lemma CostOfSliver(p: Accounting.Position)
    requires p.shares == 5.00000000012 && p.cost == 2.50000000006
    ensures Accounting.CostRemoved(p, 5.00000000011) == 2.5000000001
  {
    hide Accounting.ProRata, RoundHalfEven;
    ProRataOfSliver();
    RoundsUp(Accounting.ProRata(p.cost, 5.00000000011, p.shares));
  }

  lemma ProRataOfSliver()
    ensures 2.50000000005 < Accounting.ProRata(2.50000000006, 5.00000000011, 5.00000000012) <= 2.50000000006
  {
    var held, product := 5.00000000012, 2.50000000006 * 5.00000000011;
    assert 2.50000000005 * held < product <= 2.50000000006 * held;
    QuotientBetween(2.50000000005, product, 2.50000000006, held);
  }

  lemma QuotientBetween(lo: real, product: real, hi: real, held: real)
    requires held > 0.0 && lo * held < product <= hi * held
    ensures lo < product / held <= hi
  {
    DivMul(product, held);
    if product / held <= lo {
      MulLe(product / held, lo, held);
    }
    if hi < product / held {
      MulLt(hi, product / held, held);
    }
  }

  lemma RoundsUp(x: real)
    requires 2.50000000005 < x <= 2.50000000006
    ensures RoundHalfEven(x, ACCOUNTING_Q) == 2.5000000001
  {
    var r := RoundHalfEven(x, ACCOUNTING_Q);
    hide RoundHalfEven;
    RoundedOnGrid(x, ACCOUNTING_Q);
    assert Multiple(25000000000, ACCOUNTING_Q) == 2.5 && Multiple(25000000001, ACCOUNTING_Q) == 2.5000000001;
    assert OnGrid(2.5, ACCOUNTING_Q) && OnGrid(2.5000000001, ACCOUNTING_Q);
    GridStep(2.5, r, ACCOUNTING_Q);
    if r > 2.5000000001 {
      GridStep(2.5000000001, r, ACCOUNTING_Q);
    }
  }

  // ---------------------------------------------------------------- no limit on losses is near

  lemma NoLoss(view: RiskEngine.View)
    requires view.startOfDayEquity == 20.0 && 19.0 <= view.equity && view.peakEquity == Max(20.0, view.equity)
    ensures !RiskEngine.LossLimitBreached(LIMITS, view)
  {
    BelowTenth(-view.DailyPnl(), 20.0);
    BelowTenth(view.peakEquity - view.equity, view.peakEquity);
  }

  lemma BelowTenth(loss: real, base: real)
    requires base >= 20.0 && loss <= 1.0
    ensures loss / base < 0.1
  {
    var q := loss / base;
    DivMul(loss, base);
    if q >= 0.1 {
      MulLe(0.1, q, base);
    }
  }

  /** Marked at the bids, the portfolio is worth what its conservative value says. */
  lemma Equity(d: Desk, now: int)
    requires Steady(d.ledger) && 0 <= now < Accounting.DAY_MS
    requires d.ledger.cash + Accounting.ConservativeValue(d.ledger.positions, Accounting.Marked(d.ledger, BidsOf(d.ledger.positions))) >= 19.0
    ensures var view := ViewOf(d, now); !RiskEngine.LossLimitBreached(LIMITS, view) && view.consecutiveLosses == 0 && view.lastLossMs == None
  {
    hide Accounting.Marked, Accounting.ConservativeValue, Execution.PendingBuyUsd, RiskEngine.LossLimitBreached;
    NoLoss(ViewOf(d, now));
  }

  lemma MarkIs(l: Accounting.Ledger, i: nat)
    requires i < |l.positions|
    ensures Accounting.MarkOf(Accounting.Marked(l, BidsOf(l.positions)), l.positions[i].tokenId) == 0.49
  {
    HasAt(l.positions, i);
    assert l.positions[i].tokenId in BidsOf(l.positions);
  }

  lemma {:induction false} HasAt(positions: seq<Accounting.Position>, i: nat)
    requires i < |positions|
    ensures Accounting.Has(positions, positions[i].tokenId)
  {
  }

  lemma ValueOfOne(p: Accounting.Position, marks: map<TokenId, real>)
    ensures Accounting.ConservativeValue([p], marks) == Min(Accounting.MarkedAt(p, marks), p.cost)
  {
    hide Accounting.MarkedAt;
    assert [p][1..] == [];
  }

  lemma ValueOfTwo(p: Accounting.Position, q: Accounting.Position, marks: map<TokenId, real>)
    ensures Accounting.ConservativeValue([p, q], marks) == Min(Accounting.MarkedAt(p, marks), p.cost) + Min(Accounting.MarkedAt(q, marks), q.cost)
  {
    hide Accounting.MarkedAt;
    assert [p, q][1..] == [q];
    ValueOfOne(q, marks);
  }

  // ---------------------------------------------------------------- state by state

  /** The position in the first market, whole and after its sale. */
  ghost predicate Held(p: Accounting.Position, shares: real, cost: real) {
    p.tokenId == "a" && p.conditionId == "c" && p.shares == shares && p.cost == cost
  }

  /** A state between trades, back on the book decisions are made on. */
  ghost predicate Between(s: Sys, ids: set<IntentId>, decisions: set<DecisionId>, cash: real, clock: int) {
    && Trades.Clear(s, ids, decisions) && s.books == DECIDING && s.clock == clock
    && Steady(s.desk.ledger) && s.desk.ledger.cash >= cash && s.venue.cash >= cash
  }

  ghost predicate Untraded(s: Sys) {
    && Between(s, {}, {}, 20.0, 0) && s.venue.consumed == map[] && s.venue.positions == map[] && s.desk.ledger.positions == []
  }

  ghost predicate HoldsA(s: Sys) {
    && Between(s, {1}, {"d1"}, 17.4, 200) && LazyMatching.Untouched(s.venue, "a", Sell) && LazyMatching.Untouched(s.venue, "b", Buy)
    && s.venue.Held("a") == 5.00000000012
    && |s.desk.ledger.positions| == 1 && Held(s.desk.ledger.positions[0], 5.00000000012, 2.50000000006)
  }

  ghost predicate BelowZero(s: Sys) {
    && Between(s, {1, 2}, {"d1", "d2"}, 19.8, 400) && LazyMatching.Untouched(s.venue, "b", Buy)
    && |s.desk.ledger.positions| == 1 && Held(s.desk.ledger.positions[0], 0.00000000001, -0.00000000004)
  }

  ghost predicate HoldsBoth(s: Sys) {
    && Between(s, {1, 2, 3}, {"d1", "d2", "d3"}, 17.2, 600)
    && |s.desk.ledger.positions| == 2 && Held(s.desk.ledger.positions[0], 0.00000000001, -0.00000000004)
    && var p := s.desk.ledger.positions[1]; p.tokenId == "b" && p.conditionId == "m" && p.shares == 5.00000000008 && p.cost == 2.50000000004
  }

  /** A trade, and the book of the next decision. */
  function Traded(s: Sys, step: Step, met: Books): Sys
    requires step.SubmitOrder?
  {
    Trades.AfterTrade(SETUP, s, step, met).(books := DECIDING)
  }

  lemma ClearAnyBook(s: Sys, books: Books, ids: set<IntentId>, decisions: set<DecisionId>)
    requires Trades.Clear(s, ids, decisions)
    ensures Trades.Clear(s.(books := books), ids, decisions)
  {
  }

  lemma OnTheTicks()
    ensures OnTick(0.5, 0.01) && FloorTo(0.5, 0.01) == 0.5 && OnTick(0.49, 0.01) && CeilTo(0.49, 0.01) == 0.49
  {
    hide FloorTo, CeilTo, OnTick, OnGrid;
    FiftyTicks();
    Whole(50, 0.01, 0.5);
    Whole(49, 0.01, 0.49);
  }

  lemma FiftyTicks()
    ensures Multiple(50, 0.01) == 0.5 && Multiple(49, 0.01) == 0.49
  {
  }

  lemma Whole(k: int, tick: real, x: real)
    requires tick > 0.0 && x == Multiple(k, tick)
    ensures OnTick(x, tick) && FloorTo(x, tick) == x && CeilTo(x, tick) == x
  {
    hide FloorTo, OnTick, Multiple, CeilTo;
    assert OnGrid(x, tick);
    Intents.TickIsGrid(x, tick);
    GridStays(k, tick);
  }

  lemma IsBuilt(s: Sys, step: Step, intent: OrderIntent)
    requires step.SubmitOrder? && step.condition in SETUP.markets && step.decision.decisionId !in s.desk.engine.usedDecisions
    requires step in {BUY_A, SELL_A, BUY_B, BUY_D} && s.clock == step.decision.timestampMs
    requires intent == (if step == BUY_A then ORDER_A else if step == SELL_A then SALE_A else if step == BUY_B then ORDER_B else ORDER_D)
    ensures Trades.Builds(SETUP, s, step, intent) && intent.Valid()
  {
    hide FloorTo, CeilTo, OnTick;
    OnTheTicks();
  }

  lemma BuyAccepted(v: Venue, intent: OrderIntent, market: Market)
    requires intent in {ORDER_A, ORDER_B, ORDER_D} && v.cash >= 17.0
    requires market == if intent == ORDER_A then FIRST else if intent == ORDER_B then SECOND else THIRD
    ensures Validate(SETUP.cfg, v, intent, market) == None
  {
    hide OnTick, LimitFee, FloorTo, CeilTo, Charges;
    OnTheTicks();
    NoCharges();
    NoMarkup(intent.quantity, LimitFee(SETUP.cfg, market.feeRate, 0.5));
  }

  lemma NoMarkup(quantity: real, fee: real)
    requires fee == 0.0
    ensures quantity * (1.0 + fee) == quantity
  {
  }

  lemma SaleAccepted(v: Venue)
    requires v.Held("a") == 5.00000000012
    ensures Validate(SETUP.cfg, v, SALE_A, FIRST) == None
  {
    hide OnTick, CeilTo, FloorTo;
    OnTheTicks();
  }

  lemma TradesA(s: Sys)
    requires Untraded(s)
    ensures Trades.Trades(SETUP, s, BUY_A, MET_A, ORDER_A, LOT_A, {}, {}) && Trades.TradeFill(SETUP, s, BUY_A, ORDER_A, LOT_A).Valid()
    ensures LazyMatching.Untouched(s.venue, "a", Sell) && LazyMatching.Untouched(s.venue, "b", Buy) && s.venue.Held("a") == 0.0
  {
    hide PlanOf, Validate, Trades.Builds, Trades.TradeFill, Execution.BuildIntent, Trades.Clear, Steady;
    UsedSoFar(s, {}, {});
    IsBuilt(s, BUY_A, ORDER_A);
    BuyAccepted(s.venue, ORDER_A, FIRST);
    TakesA();
    FreeFill(s, BUY_A, ORDER_A, LOT_A);
  }

  lemma FirstTrade(s: Sys)
    requires Untraded(s)
    ensures HoldsA(Traded(s, BUY_A, MET_A))
  {
    hide PlanOf, Validate, Trades.Builds, Trades.AfterTrade, Accounting.ApplyFill, CashDelta, ShareDelta, FillOf, Trades.TradeFill, Notional,
      Execution.BuildIntent, Trades.Clear, Trades.Trades, Steady, LazyMatching.Untouched;
    TradesA(s);
    FreeFill(s, BUY_A, ORDER_A, LOT_A);
    var f := Trades.TradeFill(SETUP, s, BUY_A, ORDER_A, LOT_A);
    assert Notional(f.price, f.shares) == 2.50000000006 by { CostA(); }
    Trades.Traded(SETUP, s, BUY_A, MET_A, ORDER_A, LOT_A, {}, {});
    BoughtNew(s.desk.ledger, f);
    Deltas(f);
    assert {} + {1} == {1} && {} + {"d1"} == {"d1"};
    ClearAnyBook(Trades.AfterTrade(SETUP, s, BUY_A, MET_A), DECIDING, {1}, {"d1"});
  }

  lemma CostA()
    ensures Notional(0.5, 5.00000000012) == 2.50000000006
  {
  }

  lemma CostB()
    ensures Notional(0.5, 5.00000000008) == 2.50000000004
  {
  }

  lemma Deltas(f: Fill)
    ensures f.side.Buy? && f.fee == 0.0 ==> CashDelta(f) == -Notional(f.price, f.shares) && ShareDelta(f) == f.shares
    ensures f.side.Sell? && f.fee == 0.0 ==> CashDelta(f) == Notional(f.price, f.shares)
  {
    hide Notional;
  }

  lemma TradesSale(s: Sys)
    requires HoldsA(s)
    ensures Trades.Trades(SETUP, s, SELL_A, MET_SALE, SALE_A, LOT_SOLD, {1}, {"d1"})
    ensures Trades.TradeFill(SETUP, s, SELL_A, SALE_A, LOT_SOLD).Valid()
  {
    hide PlanOf, Validate, Trades.Builds, Trades.TradeFill, Execution.BuildIntent, Trades.Clear, Steady, LazyMatching.Untouched;
    UsedSoFar(s, {1}, {"d1"});
    IsBuilt(s, SELL_A, SALE_A);
    SaleAccepted(s.venue);
    SellsA();
    FreeFill(s, SELL_A, SALE_A, LOT_SOLD);
  }

  lemma SecondTrade(s: Sys)
    requires HoldsA(s)
    ensures BelowZero(Traded(s, SELL_A, MET_SALE))
  {
    hide PlanOf, Validate, Trades.Builds, Trades.AfterTrade, Accounting.ApplyFill, CashDelta, ShareDelta, FillOf, Trades.TradeFill, Notional,
      Execution.BuildIntent, Trades.Clear, Accounting.Sold, Trades.Trades, Steady, LazyMatching.Untouched;
    TradesSale(s);
    FreeFill(s, SELL_A, SALE_A, LOT_SOLD);
    var f, p := Trades.TradeFill(SETUP, s, SELL_A, SALE_A, LOT_SOLD), s.desk.ledger.positions[0];
    Trades.Traded(SETUP, s, SELL_A, MET_SALE, SALE_A, LOT_SOLD, {1}, {"d1"});
    SliverLeft(s.desk.ledger, p, f);
    SameName(p, f);
    Deltas(f);
    SaleProceeds();
    assert {1} + {2} == {1, 2} && {"d1"} + {"d2"} == {"d1", "d2"};
    ClearAnyBook(Trades.AfterTrade(SETUP, s, SELL_A, MET_SALE), DECIDING, {1, 2}, {"d1", "d2"});
  }

  lemma UsedSoFar(s: Sys, ids: set<IntentId>, decisions: set<DecisionId>)
    requires Trades.Clear(s, ids, decisions)
    ensures s.desk.engine.usedDecisions == decisions && s.desk.engine.orders.Keys == ids
    ensures s.venue.pending == [] && s.venue.events == [] && !s.desk.raised
  {
  }

  lemma SameName(p: Accounting.Position, f: Fill)
    requires p.shares > 0.0
    ensures Accounting.Sold(p, f).tokenId == p.tokenId && Accounting.Sold(p, f).conditionId == p.conditionId
  {
  }

  lemma SaleProceeds()
    ensures Notional(0.49, 5.00000000011) == 2.4500000000539
  {
  }

  lemma TradesB(s: Sys)
    requires BelowZero(s)
    ensures Trades.Trades(SETUP, s, BUY_B, MET_B, ORDER_B, LOT_B, {1, 2}, {"d1", "d2"})
    ensures Trades.TradeFill(SETUP, s, BUY_B, ORDER_B, LOT_B).Valid()
  {
    hide PlanOf, Validate, Trades.Builds, Trades.TradeFill, Execution.BuildIntent, Trades.Clear, Steady, LazyMatching.Untouched;
    UsedSoFar(s, {1, 2}, {"d1", "d2"});
    IsBuilt(s, BUY_B, ORDER_B);
    BuyAccepted(s.venue, ORDER_B, SECOND);
    TakesB();
    FreeFill(s, BUY_B, ORDER_B, LOT_B);
  }

  lemma ThirdTrade(s: Sys)
    requires BelowZero(s)
    ensures HoldsBoth(Traded(s, BUY_B, MET_B))
  {
    hide PlanOf, Validate, Trades.Builds, Trades.AfterTrade, Accounting.ApplyFill, CashDelta, ShareDelta, FillOf, Trades.TradeFill, Notional,
      Execution.BuildIntent, Trades.Clear, Trades.Trades, Steady, LazyMatching.Untouched;
    TradesB(s);
    FreeFill(s, BUY_B, ORDER_B, LOT_B);
    var f := Trades.TradeFill(SETUP, s, BUY_B, ORDER_B, LOT_B);
    assert Notional(f.price, f.shares) == 2.50000000004 by { CostB(); }
    Trades.Traded(SETUP, s, BUY_B, MET_B, ORDER_B, LOT_B, {1, 2}, {"d1", "d2"});
    assert !Accounting.Has(s.desk.ledger.positions, "b");
    BoughtNew(s.desk.ledger, f);
    Deltas(f);
    assert {1, 2} + {3} == {1, 2, 3} && {"d1", "d2"} + {"d3"} == {"d1", "d2", "d3"};
    ClearAnyBook(Trades.AfterTrade(SETUP, s, BUY_B, MET_B), DECIDING, {1, 2, 3}, {"d1", "d2", "d3"});
  }

  // ---------------------------------------------------------------- the last entry, and the settlement

  lemma ClearAsksNothing(s: Sys, ids: set<IntentId>, decisions: set<DecisionId>)
    requires Trades.Clear(s, ids, decisions)
    ensures Execution.PendingBuyUsd(s.desk.engine) == 0.0
  {
    NothingPending(s.desk.engine.orders, s.desk.engine.intents, "");
  }

  /** Seven and a half dollars more are pending, and nothing else has changed for the first market. */
  lemma LastEntry(s: Sys)
    requires HoldsBoth(s)
    ensures var s' := Next(SETUP, s, BUY_D);
      && s'.desk.ledger == s.desk.ledger && Execution.PendingBuyUsd(s'.desk.engine) == 7.5
      && Trades.DeliveredIn(s'.venue.history, s'.desk.engine.fillIds)
      && (forall p :: p in s'.venue.pending ==> p.intent.tokenId == "d")
  {
    hide Validate, Trades.Builds, Next, Execution.PendingBuyFrom, Execution.BuildIntent, Trades.DeliveredIn;
    UsedSoFar(s, {1, 2, 3}, {"d1", "d2", "d3"});
    IsBuilt(s, BUY_D, ORDER_D);
    BuyAccepted(s.venue, ORDER_D, THIRD);
    Trades.Submitted(SETUP, s, BUY_D, ORDER_D, {1, 2, 3}, {"d1", "d2", "d3"});
    var e, rec := s.desk.engine, Trades.LiveRecord(ORDER_D, s.venue.submitted + 1, s.clock);
    ClearAsksNothing(s, {1, 2, 3}, {"d1", "d2", "d3"});
    PendingAppend(e.orders[4 := rec], e.intents, 4);
    PendingSame(e.orders, e.intents, 4, rec);
  }

  lemma SliverSettled(l: Accounting.Ledger, ts: int)
    requires |l.positions| == 2 && l.positions[0].conditionId == "c" && l.positions[0].shares != 0.0 && l.positions[1].conditionId == "m"
    ensures var l' := Accounting.Settle(l, "c", "Up", ts); l'.positions == [l.positions[1]] && l'.feesPaid == l.feesPaid
  {
    hide Accounting.SettleAt;
    LedgerFactsOfSettle(l, 0, "Up", ts);
    var l1 := Accounting.SettleAt(l, 0, "Up", ts);
    assert l1.positions == [l.positions[1]];
    assert Accounting.SettleFrom(l1, 1, "c", "Up", ts) == l1;
    assert Accounting.SettleFrom(l1, 0, "c", "Up", ts) == l1;
  }

  /** Once the sliver is settled, nothing offsets the other costs any more. */
  lemma SettledAbove(s: Sys)
    requires |s.desk.ledger.positions| == 2 && Held(s.desk.ledger.positions[0], 0.00000000001, -0.00000000004)
    requires var p := s.desk.ledger.positions[1]; p.conditionId == "m" && p.cost == 2.50000000004
    ensures var d := Next(SETUP, s, SETTLE).desk;
      && Accounting.Exposure(d.ledger.positions) == 2.50000000004 && d.ledger.feesPaid == s.desk.ledger.feesPaid && d.engine == s.desk.engine
  {
    hide Accounting.Settle, Accounting.Exposure;
    SliverSettled(s.desk.ledger, s.clock);
    OneCost(s.desk.ledger.positions[1]);
  }

  lemma OneCost(p: Accounting.Position)
    ensures Accounting.Exposure([p]) == p.cost
  {
    SumLast(Accounting.CostOf, [], p);
    assert [] + [p] == [p];
  }

  lemma TwoCosts(p: Accounting.Position, q: Accounting.Position)
    ensures Accounting.Exposure([p, q]) == p.cost + q.cost
  {
    OneCost(p);
    SumLast(Accounting.CostOf, [p], q);
    assert [p] + [q] == [p, q];
  }

  // ---------------------------------------------------------------- every step is enabled

  lemma SetupValid()
    ensures SETUP.Valid() && LIMITS.Valid() && AtDefaults(LIMITS)
  {
    MarketsApart();
  }

  lemma MarketsApart()
    ensures FIRST.Valid() && SECOND.Valid() && THIRD.Valid()
    ensures FIRST.first.outcome != FIRST.second.outcome && SECOND.first.outcome != SECOND.second.outcome && THIRD.first.outcome != THIRD.second.outcome
    ensures forall t :: !(FIRST.HasToken(t) && SECOND.HasToken(t)) && !(FIRST.HasToken(t) && THIRD.HasToken(t)) && !(SECOND.HasToken(t) && THIRD.HasToken(t))
  {
    assert "a"[0] == 'a' && "x"[0] == 'x' && "b"[0] == 'b' && "y"[0] == 'y' && "d"[0] == 'd' && "z"[0] == 'z';
    assert "Up"[0] != "Down"[0];
  }

  lemma SmallReserve(intent: OrderIntent, cash: real)
    requires intent in {ORDER_A, SALE_A, ORDER_B, ORDER_D} && cash >= 17.0
    ensures ReserveOf(SETUP, intent) <= cash
  {
    assert RateOf(SETUP, intent) == 0.0 && Stressed(0.0, 1.0) == 0.0 && Stress(0.0, 1.0) == 0.0;
  }

  lemma SubmitEnabled(s: Sys, a: Aux, step: Step, intent: OrderIntent, ids: set<IntentId>, decisions: set<DecisionId>)
    requires Trades.Clear(s, ids, decisions) && Trades.Builds(SETUP, s, step, intent) && s.desk.ledger.cash >= 17.0
    requires step.id !in ids && step.decision.decisionId !in decisions && intent in {ORDER_A, SALE_A, ORDER_B, ORDER_D}
    ensures Enabled(SETUP, s, a, step)
  {
    hide Execution.BuildIntent, Covered, Execution.InFlight, PreparedBy, ReserveOf;
    Trades.PreparedIs(SETUP, s, step, intent, ids, decisions);
    Trades.NothingInFlight(s, ids, decisions, step.decision.tokenId);
    SmallReserve(intent, s.desk.ledger.cash);
    Trades.ClearCovers(SETUP, s, a, intent, ids, decisions);
  }

  lemma SettleEnabled(s: Sys, a: Aux)
    requires Trades.DeliveredIn(s.venue.history, s.desk.engine.fillIds) && forall p :: p in s.venue.pending ==> p.intent.tokenId == "d"
    ensures Enabled(SETUP, s, a, SETTLE)
  {
  }

  // ---------------------------------------------------------------- every order is decided

  const RATES_A: Rates.RateView := Rates.RateView(0, 0, 0, 0, map[])
  const RATES_SALE: Rates.RateView := Rates.RateView(1, 1, 1, 0, map["c" := 0])
  const RATES_B: Rates.RateView := Rates.RateView(1, 1, 1, 1, map["c" := 200])
  const RATES_D: Rates.RateView := Rates.RateView(2, 2, 2, 1, map["c" := 200, "m" := 400])

  lemma Cents()
    ensures Multiple(1000, RiskEngine.CENT) == 10.0 && Multiple(750, RiskEngine.CENT) == 7.5
  {
  }

  lemma FirstDecided(s: Sys)
    requires Untraded(s)
    ensures Decided(EDGE, LIMITS, SETUP, s, BUY_A)
  {
    hide Charges, Decided, Trades.Clear, ViewOf, Multiple, Accounting.ConservativeValue, Accounting.Marked, RiskEngine.LossLimitBreached;
    SetupValid();
    NoCharges();
    Cents();
    NothingWorth(Accounting.Marked(s.desk.ledger, BidsOf([])));
    Equity(s.desk, 0);
    assert Accounting.Exposure([]) == 0.0;
    EntryIsDecided(LIMITS, SETUP, s, BUY_A, RATES_A, 0.0, 0.0, 10.0, 1000, {}, {});
  }

  lemma NothingWorth(marks: map<TokenId, real>)
    ensures Accounting.ConservativeValue([], marks) == 0.0
  {
  }

  /** The exit is of all that is held. */
  lemma SaleDecided(s: Sys)
    requires HoldsA(s)
    ensures Decided(EDGE, LIMITS, SETUP, s, SELL_A)
  {
    hide Trades.Clear, ViewOf, OnTick, Sees, FloorTo, CeilTo, LazyMatching.Untouched;
    var ctx := ContextOf(s.desk, "c", RATES_SALE, s.clock);
    ClearIsSeen(s, {1}, {"d1"}, "c", RATES_SALE);
    OnTheTicks();
    ViewHolds(s.desk, s.clock);
    var d := SELL_A.decision;
    assert RiskEngine.ExitAllowed(LIMITS, ctx, d.tokenId, d.maxShares, Some(d.limitPrice), Some(FIRST), false);
    assert ApprovedExit(LIMITS, ctx, FIRST, false, s.desk, d);
  }

  lemma ViewHolds(d: Desk, now: int)
    requires |d.ledger.positions| == 1 && Held(d.ledger.positions[0], 5.00000000012, 2.50000000006)
    ensures RiskEngine.HeldShares(ViewOf(d, now), "a") == 5.00000000012 && RiskEngine.PendingSell(ViewOf(d, now), "a") == 0.0
  {
    hide Accounting.Marked, Accounting.ConservativeValue, Execution.PendingBuyUsd;
    assert Accounting.IndexOf(d.ledger.positions, "a") == 0;
  }

  lemma SliverWorth(l: Accounting.Ledger)
    requires |l.positions| == 1 && Held(l.positions[0], 0.00000000001, -0.00000000004)
    ensures Accounting.ConservativeValue(l.positions, Accounting.Marked(l, BidsOf(l.positions))) == -0.00000000004
  {
    hide Accounting.Marked, Accounting.MarkOf;
    MarkIs(l, 0);
    ValueOfOne(l.positions[0], Accounting.Marked(l, BidsOf(l.positions)));
    assert l.positions == [l.positions[0]];
  }

  lemma ThirdDecided(s: Sys)
    requires BelowZero(s)
    ensures Decided(EDGE, LIMITS, SETUP, s, BUY_B)
  {
    hide Charges, Decided, Trades.Clear, ViewOf, Multiple, Accounting.ConservativeValue, Accounting.Marked, RiskEngine.LossLimitBreached,
      LazyMatching.Untouched, Accounting.Exposure;
    SetupValid();
    NoCharges();
    Cents();
    var p := s.desk.ledger.positions[0];
    assert s.desk.ledger.positions == [p];
    OneCost(p);
    SliverWorth(s.desk.ledger);
    Equity(s.desk, 400);
    EntryIsDecided(LIMITS, SETUP, s, BUY_B, RATES_B, 0.0, 0.0, 10.0, 1000, {1, 2}, {"d1", "d2"});
  }

  lemma BothWorth(l: Accounting.Ledger)
    requires |l.positions| == 2 && Held(l.positions[0], 0.00000000001, -0.00000000004)
    requires var p := l.positions[1]; p.shares == 5.00000000008 && p.cost == 2.50000000004
    ensures Accounting.ConservativeValue(l.positions, Accounting.Marked(l, BidsOf(l.positions))) >= 2.4
  {
    hide Accounting.Marked, Accounting.MarkOf;
    MarkIs(l, 0);
    MarkIs(l, 1);
    ValueOfTwo(l.positions[0], l.positions[1], Accounting.Marked(l, BidsOf(l.positions)));
    assert l.positions == [l.positions[0], l.positions[1]];
  }

  lemma LastDecided(s: Sys)
    requires HoldsBoth(s)
    ensures Decided(EDGE, LIMITS, SETUP, s, BUY_D)
  {
    hide Charges, Decided, Trades.Clear, ViewOf, Multiple, Accounting.ConservativeValue, Accounting.Marked, RiskEngine.LossLimitBreached,
      Accounting.Exposure;
    SetupValid();
    NoCharges();
    Cents();
    var ps := s.desk.ledger.positions;
    assert ps == [ps[0], ps[1]];
    TwoCosts(ps[0], ps[1]);
    BothWorth(s.desk.ledger);
    Equity(s.desk, 600);
    EntryIsDecided(LIMITS, SETUP, s, BUY_D, RATES_D, 0.0, 0.0, 7.5, 750, {1, 2, 3}, {"d1", "d2", "d3"});
  }

  // ---------------------------------------------------------------- the run

  /** A run of enabled steps whose orders are all decided as the bot does. */
  ghost predicate Proper(w: World, steps: seq<Step>) {
    EnabledRun(SETUP, w, steps) && DecidedRun(EDGE, LIMITS, SETUP, w, steps)
  }

  /** And that ends above the limit. */
  ghost predicate Passes(w: World, steps: seq<Step>) {
    && Proper(w, steps)
    && var d := Run(SETUP, w, steps).sys.desk;
       Accounting.Exposure(d.ledger.positions) + Execution.PendingBuyUsd(d.engine) == 10.00000000004 && d.ledger.feesPaid == 0.0
  }

  lemma OneMore(w: World, step: Step, rest: seq<Step>)
    requires Enabled(SETUP, w.sys, w.aux, step) && Decided(EDGE, LIMITS, SETUP, w.sys, step) && Passes(NextWorld(SETUP, w, step), rest)
    ensures Passes(w, [step] + rest)
  {
    hide Enabled, Decided, NextWorld, Accounting.Exposure, Execution.PendingBuyUsd;
    assert ([step] + rest)[1..] == rest;
  }

  lemma QuietStep(w: World, step: Step)
    requires step.ChangeBooks? || step.Tick? || step.PollAndApply? || step.SettleMarket?
    ensures Decided(EDGE, LIMITS, SETUP, w.sys, step) && NextWorld(SETUP, w, step).sys == Next(SETUP, w.sys, step)
    ensures step.PollAndApply? || (step.Tick? && w.sys.clock <= step.now) ==> Enabled(SETUP, w.sys, w.aux, step)
    ensures step.ChangeBooks? && BooksWithin(step.books, 1) ==> Enabled(SETUP, w.sys, w.aux, step)
  {
    hide Next, BooksWithin, ApprovedExit, ApprovedEntry, Quoted;
  }

  /** No book of the run is deeper than a level. */
  lemma OneLevelEach()
    ensures BooksWithin(DECIDING, 1) && BooksWithin(MET_A, 1) && BooksWithin(MET_SALE, 1) && BooksWithin(MET_B, 1)
  {
    assert BooksWithin(DECIDING, 1);
    OneLevelMet();
  }

  lemma OneLevelMet()
    ensures BooksWithin(MET_A, 1) && BooksWithin(MET_SALE, 1) && BooksWithin(MET_B, 1)
  {
  }

  lemma TakenStep(w: World, step: Step)
    ensures NextWorld(SETUP, w, step).sys == Next(SETUP, w.sys, step)
  {
    hide Next;
  }

  function Cycle(step: Step, met: Books, due: int): seq<Step> {
    [step] + ([ChangeBooks(met)] + ([Tick(due)] + ([PollAndApply] + [ChangeBooks(DECIDING)])))
  }

  ghost function AfterCycle(w: World, step: Step, met: Books, due: int): World {
    NextWorld(SETUP, NextWorld(SETUP, NextWorld(SETUP, NextWorld(SETUP, NextWorld(SETUP, w, step), ChangeBooks(met)), Tick(due)), PollAndApply), ChangeBooks(DECIDING))
  }

  lemma CycledState(w: World, step: Step, met: Books, due: int)
    requires step.SubmitOrder? && due == Trades.Due(SETUP, w.sys, step)
    ensures AfterCycle(w, step, met, due).sys == Traded(w.sys, step, met)
  {
    hide Next, NextWorld, Trades.Arrived;
    Trades.ArrivedIs(SETUP, w.sys, step, met);
    TakenStep(w, step);
    var w1 := NextWorld(SETUP, w, step);
    TakenStep(w1, ChangeBooks(met));
    var w2 := NextWorld(SETUP, w1, ChangeBooks(met));
    TakenStep(w2, Tick(due));
    var w3 := NextWorld(SETUP, w2, Tick(due));
    TakenStep(w3, PollAndApply);
    var w4 := NextWorld(SETUP, w3, PollAndApply);
    TakenStep(w4, ChangeBooks(DECIDING));
    NewBooks(w4.sys);
  }

  lemma NewBooks(s: Sys)
    ensures Next(SETUP, s, ChangeBooks(DECIDING)) == s.(books := DECIDING)
  {
  }

  /** A submission, the change of the book, the arrival and the poll, before the rest of a run. */
  lemma CycleMore(w: World, step: Step, met: Books, due: int, rest: seq<Step>)
    requires step.SubmitOrder? && due == Trades.Due(SETUP, w.sys, step) && BooksWithin(met, 1)
    requires Enabled(SETUP, w.sys, w.aux, step) && Decided(EDGE, LIMITS, SETUP, w.sys, step)
    requires Passes(AfterCycle(w, step, met, due), rest)
    ensures Passes(w, Cycle(step, met, due) + rest)
  {
    hide Enabled, Decided, NextWorld, Next, Passes, BooksWithin, Trades.Due;
    var w1 := NextWorld(SETUP, w, step);
    var w2 := NextWorld(SETUP, w1, ChangeBooks(met));
    var polled := [PollAndApply] + ([ChangeBooks(DECIDING)] + rest);
    PollThenBooks(NextWorld(SETUP, w2, Tick(due)), rest);
    DueLater(w, step, met);
    QuietStep(w2, Tick(due));
    OneMore(w2, Tick(due), polled);
    QuietStep(w1, ChangeBooks(met));
    OneMore(w1, ChangeBooks(met), [Tick(due)] + polled);
    OneMore(w, step, [ChangeBooks(met)] + ([Tick(due)] + polled));
    CycleThen(step, met, due, rest);
  }

  lemma PollThenBooks(w: World, rest: seq<Step>)
    requires Passes(NextWorld(SETUP, NextWorld(SETUP, w, PollAndApply), ChangeBooks(DECIDING)), rest)
    ensures Passes(w, [PollAndApply] + ([ChangeBooks(DECIDING)] + rest))
  {
    hide Enabled, Decided, NextWorld, Next, Passes, BooksWithin;
    var w1 := NextWorld(SETUP, w, PollAndApply);
    OneLevelEach();
    QuietStep(w1, ChangeBooks(DECIDING));
    OneMore(w1, ChangeBooks(DECIDING), rest);
    QuietStep(w, PollAndApply);
    OneMore(w, PollAndApply, [ChangeBooks(DECIDING)] + rest);
  }

  lemma CycleThen(step: Step, met: Books, due: int, rest: seq<Step>)
    ensures Cycle(step, met, due) + rest
      == [step] + ([ChangeBooks(met)] + ([Tick(due)] + ([PollAndApply] + ([ChangeBooks(DECIDING)] + rest))))
  {
  }

  lemma DueLater(w: World, step: Step, met: Books)
    requires step.SubmitOrder?
    ensures NextWorld(SETUP, NextWorld(SETUP, w, step), ChangeBooks(met)).sys.clock <= Trades.Due(SETUP, w.sys, step)
  {
    hide NextWorld;
    ClockKept(w, step, met);
  }

  lemma ClockKept(w: World, step: Step, met: Books)
    requires step.SubmitOrder?
    ensures NextWorld(SETUP, NextWorld(SETUP, w, step), ChangeBooks(met)).sys.clock == w.sys.clock
  {
    hide NextWorld, Execution.Prepare, Submit;
    TakenStep(w, step);
    TakenStep(NextWorld(SETUP, w, step), ChangeBooks(met));
  }

  const ENDING: seq<Step> := [BUY_D] + [SETTLE]
  const LAST: seq<Step> := Cycle(BUY_B, MET_B, 600) + ENDING
  const SALE: seq<Step> := Cycle(SELL_A, MET_SALE, 400) + LAST
  const STEPS: seq<Step> := [ChangeBooks(DECIDING)] + (Cycle(BUY_A, MET_A, 200) + SALE)

  lemma Ending(w: World)
    requires HoldsBoth(w.sys)
    ensures Passes(w, ENDING)
  {
    hide Enabled, Decided, NextWorld, Next, Passes, Trades.Builds, Execution.PendingBuyUsd, Accounting.Exposure, Trades.Clear;
    var s := w.sys;
    UsedSoFar(s, {1, 2, 3}, {"d1", "d2", "d3"});
    IsBuilt(s, BUY_D, ORDER_D);
    SubmitEnabled(s, w.aux, BUY_D, ORDER_D, {1, 2, 3}, {"d1", "d2", "d3"});
    LastDecided(s);
    LastEntry(s);
    var w1 := NextWorld(SETUP, w, BUY_D);
    TakenStep(w, BUY_D);
    SettleEnabled(w1.sys, w1.aux);
    QuietStep(w1, SETTLE);
    SettledAbove(w1.sys);
    NothingMore(NextWorld(SETUP, w1, SETTLE));
    OneMore(w1, SETTLE, []);
    assert [SETTLE] + [] == [SETTLE];
    OneMore(w, BUY_D, [SETTLE]);
  }

  lemma NothingMore(w: World)
    requires var d := w.sys.desk; Accounting.Exposure(d.ledger.positions) + Execution.PendingBuyUsd(d.engine) == 10.00000000004 && d.ledger.feesPaid == 0.0
    ensures Passes(w, [])
  {
    hide Accounting.Exposure, Execution.PendingBuyUsd;
  }

  lemma FromBelowZero(w: World)
    requires BelowZero(w.sys)
    ensures Passes(w, LAST)
  {
    hide Enabled, Decided, NextWorld, Next, Passes, Trades.Builds, Trades.Clear, Traded, AfterCycle, Cycle, BooksWithin;
    UsedSoFar(w.sys, {1, 2}, {"d1", "d2"});
    IsBuilt(w.sys, BUY_B, ORDER_B);
    SubmitEnabled(w.sys, w.aux, BUY_B, ORDER_B, {1, 2}, {"d1", "d2"});
    ThirdDecided(w.sys);
    ThirdTrade(w.sys);
    CycledState(w, BUY_B, MET_B, 600);
    Ending(AfterCycle(w, BUY_B, MET_B, 600));
    OneLevelEach();
    CycleMore(w, BUY_B, MET_B, 600, ENDING);
  }

  lemma FromA(w: World)
    requires HoldsA(w.sys)
    ensures Passes(w, SALE)
  {
    hide Enabled, Decided, NextWorld, Next, Passes, Trades.Builds, Trades.Clear, Traded, AfterCycle, Cycle, BooksWithin;
    UsedSoFar(w.sys, {1}, {"d1"});
    IsBuilt(w.sys, SELL_A, SALE_A);
    SubmitEnabled(w.sys, w.aux, SELL_A, SALE_A, {1}, {"d1"});
    SaleDecided(w.sys);
    SecondTrade(w.sys);
    CycledState(w, SELL_A, MET_SALE, 400);
    FromBelowZero(AfterCycle(w, SELL_A, MET_SALE, 400));
    OneLevelEach();
    CycleMore(w, SELL_A, MET_SALE, 400, LAST);
  }

  lemma FromStart(w: World)
    requires Untraded(w.sys)
    ensures Passes(w, Cycle(BUY_A, MET_A, 200) + SALE)
  {
    hide Enabled, Decided, NextWorld, Next, Passes, Trades.Builds, Trades.Clear, Traded, AfterCycle, Cycle, BooksWithin;
    UsedSoFar(w.sys, {}, {});
    IsBuilt(w.sys, BUY_A, ORDER_A);
    SubmitEnabled(w.sys, w.aux, BUY_A, ORDER_A, {}, {});
    FirstDecided(w.sys);
    FirstTrade(w.sys);
    CycledState(w, BUY_A, MET_A, 200);
    FromA(AfterCycle(w, BUY_A, MET_A, 200));
    OneLevelEach();
    CycleMore(w, BUY_A, MET_A, 200, SALE);
  }

  /** The failing run: every step enabled, every order decided and approved on the book of the moment,
      no fee paid, and open cost plus pending buys above the limit. Only sizes off the grids make it
      possible. */
  lemma LimitPassedOffGrid()
    ensures SETUP.Valid() && LIMITS.Valid()
    ensures var w := Begin(20.0, 0);
      && EnabledRun(SETUP, w, STEPS) && DecidedRun(EDGE, LIMITS, SETUP, w, STEPS) && ApprovedRun(LIMITS, SETUP, w, STEPS)
      && var d := Run(SETUP, w, STEPS).sys.desk;
         Accounting.Exposure(d.ledger.positions) + Execution.PendingBuyUsd(d.engine) > LIMITS.maxTotalExposure + d.ledger.feesPaid
  {
    hide Enabled, Decided, NextWorld, EnabledRun, DecidedRun, ApprovedRun, Run, Execution.PendingBuyUsd, Accounting.Exposure, Cycle, BooksWithin;
    SetupValid();
    var w := Begin(20.0, 0);
    Beginning(w);
    FromStart(NextWorld(SETUP, w, ChangeBooks(DECIDING)));
    OneLevelEach();
    QuietStep(w, ChangeBooks(DECIDING));
    OneMore(w, ChangeBooks(DECIDING), Cycle(BUY_A, MET_A, 200) + SALE);
    DecidedRunIsApproved(EDGE, LIMITS, SETUP, w, STEPS);
  }

  lemma Beginning(w: World)
    requires w == Begin(20.0, 0)
    ensures Untraded(NextWorld(SETUP, w, ChangeBooks(DECIDING)).sys)
  {
    TakenStep(w, ChangeBooks(DECIDING));
  }
}
