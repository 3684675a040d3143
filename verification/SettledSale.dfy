/** Why a settlement asks for no pending sell: a run in which the market is settled while an approved
    exit is on its way. Both ledgers drop the shares, the venue still matches the sale, and the
    portfolio refuses the fill. A pending buy does no such harm. */
module SettledSale {
  import opened Domain
  import opened PaperVenue
  import opened TradingDesk
  import opened OrderPath
  import opened OrderPathProof
  import opened Decisions
  import opened OffGridRun
  import Execution
  import Accounting
  import Exposure
  import LazyMatching
  import Trades

  /** Shares bought, and a sale of all of them on its way. */
  const SELLING: seq<Step> := [ChangeBooks(DECIDING)] + (Cycle(BUY_A, MET_A, 200) + [SELL_A])

  /** The market resolves, and the sale arrives. */
  const RESOLVED: seq<Step> := [SETTLE, ChangeBooks(MET_SALE), Tick(400), PollAndApply]

  /** The state with the sale on its way. */
  ghost predicate OnItsWay(s: Sys) {
    && s.venue.pending == [Pending(SALE_A, s.venue.submitted, 400, 0.0)] && s.venue.events == [] && LazyMatching.Untouched(s.venue, "a", Sell)
    && s.clock == 200 && !s.desk.raised && Trades.DeliveredIn(s.venue.history, s.desk.engine.fillIds)
    && 2 in s.desk.engine.orders && s.desk.engine.orders[2] == Trades.LiveRecord(SALE_A, s.venue.submitted, 200)
    && FillId(s.venue.submitted, 0) !in s.desk.engine.fillIds
    && |s.desk.ledger.positions| == 1 && Held(s.desk.ledger.positions[0], 5.00000000012, 2.50000000006)
  }

  lemma SaleSubmitted(s: Sys)
    requires HoldsA(s)
    ensures OnItsWay(Next(SETUP, s, SELL_A))
  {
    hide Validate, Trades.Builds, Next, Trades.Clear, Execution.BuildIntent, Trades.DeliveredIn;
    UsedSoFar(s, {1}, {"d1"});
    IsBuilt(s, SELL_A, SALE_A);
    SaleAccepted(s.venue);
    ClearHistory(s, {1}, {"d1"});
    Trades.Submitted(SETUP, s, SELL_A, SALE_A, {1}, {"d1"});
    Trades.SameTouch(s.venue, Next(SETUP, s, SELL_A).venue, "a", Sell);
  }

  lemma ClearHistory(s: Sys, ids: set<IntentId>, decisions: set<DecisionId>)
    requires Trades.Clear(s, ids, decisions)
    ensures Trades.DeliveredIn(s.venue.history, s.desk.engine.fillIds) && FillId(s.venue.submitted + 1, 0) !in s.desk.engine.fillIds
  {
  }

  // ---------------------------------------------------------------- what the settlement leaves

  lemma NothingHeld(l: Accounting.Ledger, ts: int)
    requires |l.positions| == 1 && Held(l.positions[0], 5.00000000012, 2.50000000006)
    ensures Accounting.Settle(l, "c", "Up", ts).positions == []
  {
    hide Accounting.SettleAt, Accounting.SettleFrom;
    Exposure.LedgerFactsOfSettle(l, 0, "Up", ts);
    var l1 := Accounting.SettleAt(l, 0, "Up", ts);
    Accounting.SettleFromIs(l, 0, "c", "Up", ts);
    Accounting.SettleFromIs(l1, 0, "c", "Up", ts);
  }

  /** The poll at the sale's due time, after the settlement. */
  function Polled(s: Sys): Sys {
    Next(SETUP, Next(SETUP, s, SETTLE).(books := MET_SALE, clock := 400), PollAndApply)
  }

  lemma SaleOf(s: Sys) returns (p: Pending, f: Fill)
    requires OnItsWay(s)
    ensures p == Pending(SALE_A, s.venue.submitted, 400, 0.0) && f == FillOf(SETUP.cfg, p, LOT_SOLD, 0, 400) && f.Valid()
    ensures f.intentId == Some(2) && f.fillId == FillId(s.venue.submitted, 0) && f.side.Sell? && f.tokenId == "a"
  {
    hide TakerFee;
    p := Pending(SALE_A, s.venue.submitted, 400, 0.0);
    f := FillOf(SETUP.cfg, p, LOT_SOLD, 0, 400);
    NoRate(LOT_SOLD.shares, LOT_SOLD.price);
  }

  lemma SettledState(s: Sys)
    requires OnItsWay(s)
    ensures var s' := Next(SETUP, s, SETTLE);
      && s'.venue.pending == s.venue.pending && s'.venue.events == [] && s'.venue.consumed == s.venue.consumed
      && s'.desk.engine == s.desk.engine && !s'.desk.raised && s'.desk.ledger.positions == []
  {
    hide Accounting.Settle;
    NothingHeld(s.desk.ledger, s.clock);
  }

  lemma NobodySells(l: Accounting.Ledger, f: Fill)
    requires l.positions == [] && f.Valid() && f.side.Sell?
    ensures Accounting.ApplyFill(l, f).InvariantError?
  {
  }

  lemma PolledRaises(s: Sys)
    requires OnItsWay(s)
    ensures Polled(s).desk.raised
  {
    hide PlanOf, Advance, FillOf, FinalUpdate, DeliverAll, ValidEvent, Accounting.ApplyFill, Accounting.Settle, LazyMatching.Untouched,
      CashDelta, ShareDelta, Next;
    var p, f := SaleOf(s);
    SettledState(s);
    var s1 := Next(SETUP, s, SETTLE).(books := MET_SALE, clock := 400);
    Trades.SameTouch(s.venue, s1.venue, "a", Sell);
    SellsA();
    Trades.Matched(SETUP.cfg, s1.venue, MET_SALE, p, LOT_SOLD, 400);
    var w := Advance(SETUP.cfg, s1.venue, MET_SALE, 400);
    var u := LastUpdate(p, PlanOf(SALE_A, MET_SALE["a"].bids));
    NobodySells(s1.desk.ledger, f);
    Trades.DeskTraded(s1.desk, 2, f, u);
    Trades.AfterPoll(SETUP, s1, w);
  }

  lemma LastUpdate(p: Pending, plan: Plan) returns (u: OrderUpdate)
    requires p.intent == SALE_A
    ensures FinalUpdate(p, plan, 400) == UpdateEvent(u) && u.intentId == Some(2) && u.status.IsTerminal()
  {
    u := FinalUpdate(p, plan, 400).update;
  }

  // ---------------------------------------------------------------- the run

  lemma FourSteps(w: World, a: Step, b: Step, c: Step, d: Step)
    ensures Run(SETUP, w, [a, b, c, d]).sys == Next(SETUP, Next(SETUP, Next(SETUP, Next(SETUP, w.sys, a), b), c), d)
  {
    hide Next, NextWorld, Run;
    var w1 := NextWorld(SETUP, w, a);
    var w2 := NextWorld(SETUP, w1, b);
    var w3 := NextWorld(SETUP, w2, c);
    Trades.RunFirst(SETUP, w, a, [b, c, d]);
    Trades.RunFirst(SETUP, w1, b, [c, d]);
    Trades.RunFirst(SETUP, w2, c, [d]);
    Trades.RunFirst(SETUP, w3, d, []);
    assert [a] + [b, c, d] == [a, b, c, d] && [b] + [c, d] == [b, c, d] && [c] + [d] == [c, d] && [d] + [] == [d];
    Trades.NoSteps(SETUP, NextWorld(SETUP, w3, d));
  }

  lemma EndsRaised(w: World)
    requires OnItsWay(w.sys)
    ensures Run(SETUP, w, RESOLVED).sys.desk.raised
  {
    hide Next, Run, OnItsWay;
    FourSteps(w, SETTLE, ChangeBooks(MET_SALE), Tick(400), PollAndApply);
    ThenArrives(Next(SETUP, w.sys, SETTLE));
    PolledRaises(w.sys);
  }

  lemma ThenArrives(s: Sys)
    ensures Next(SETUP, Next(SETUP, s, ChangeBooks(MET_SALE)), Tick(400)) == s.(books := MET_SALE, clock := 400)
  {
  }

  /** Enabled, decided as the bot does, and with the sale on its way at the end. */
  ghost predicate Sells(w: World, steps: seq<Step>) {
    Proper(w, steps) && OnItsWay(Run(SETUP, w, steps).sys)
  }

  lemma SellsLater(w: World, step: Step, rest: seq<Step>)
    requires Enabled(SETUP, w.sys, w.aux, step) && Decided(EDGE, LIMITS, SETUP, w.sys, step) && Sells(NextWorld(SETUP, w, step), rest)
    ensures Sells(w, [step] + rest)
  {
    hide Enabled, Decided, NextWorld, OnItsWay;
    assert ([step] + rest)[1..] == rest;
  }

  lemma SellsNow(w: World)
    requires HoldsA(w.sys)
    ensures Sells(w, [SELL_A])
  {
    hide Enabled, Decided, NextWorld, Next, OnItsWay, Sells, Trades.Builds, Trades.Clear;
    UsedSoFar(w.sys, {1}, {"d1"});
    IsBuilt(w.sys, SELL_A, SALE_A);
    SubmitEnabled(w.sys, w.aux, SELL_A, SALE_A, {1}, {"d1"});
    SaleDecided(w.sys);
    SaleSubmitted(w.sys);
    TakenStep(w, SELL_A);
    SoldAlready(NextWorld(SETUP, w, SELL_A));
    SellsLater(w, SELL_A, []);
    assert [SELL_A] + [] == [SELL_A];
  }

  lemma SoldAlready(w: World)
    requires OnItsWay(w.sys)
    ensures Sells(w, [])
  {
    hide OnItsWay;
  }

  lemma CycleThenSells(w: World, rest: seq<Step>)
    requires Untraded(w.sys) && Sells(AfterCycle(w, BUY_A, MET_A, 200), rest)
    ensures Sells(w, Cycle(BUY_A, MET_A, 200) + rest)
  {
    hide Enabled, Decided, NextWorld, Next, Sells, BooksWithin, Trades.Clear, Trades.Builds;
    UsedSoFar(w.sys, {}, {});
    IsBuilt(w.sys, BUY_A, ORDER_A);
    SubmitEnabled(w.sys, w.aux, BUY_A, ORDER_A, {}, {});
    FirstDecided(w.sys);
    var w1 := NextWorld(SETUP, w, BUY_A);
    var w2 := NextWorld(SETUP, w1, ChangeBooks(MET_A));
    var polled := [PollAndApply] + ([ChangeBooks(DECIDING)] + rest);
    PollThenSells(NextWorld(SETUP, w2, Tick(200)), rest);
    DueLater(w, BUY_A, MET_A);
    AtZero(w.sys);
    QuietStep(w2, Tick(200));
    SellsLater(w2, Tick(200), polled);
    OneLevelEach();
    QuietStep(w1, ChangeBooks(MET_A));
    SellsLater(w1, ChangeBooks(MET_A), [Tick(200)] + polled);
    SellsLater(w, BUY_A, [ChangeBooks(MET_A)] + ([Tick(200)] + polled));
    CycleThen(BUY_A, MET_A, 200, rest);
  }

  lemma PollThenSells(w: World, rest: seq<Step>)
    requires Sells(NextWorld(SETUP, NextWorld(SETUP, w, PollAndApply), ChangeBooks(DECIDING)), rest)
    ensures Sells(w, [PollAndApply] + ([ChangeBooks(DECIDING)] + rest))
  {
    hide Enabled, Decided, NextWorld, Next, Sells, BooksWithin;
    var w1 := NextWorld(SETUP, w, PollAndApply);
    OneLevelEach();
    QuietStep(w1, ChangeBooks(DECIDING));
    SellsLater(w1, ChangeBooks(DECIDING), rest);
    QuietStep(w, PollAndApply);
    SellsLater(w, PollAndApply, [ChangeBooks(DECIDING)] + rest);
  }

  /** The failing run: up to the sale every step is enabled and decided as the bot does; the settlement
      then meets all its conditions but the one on pending sells, and the next poll ends in an
      invariant error. */
  lemma SettlingUnderASaleRaises()
    ensures var w := Begin(20.0, 0);
      && EnabledRun(SETUP, w, SELLING) && DecidedRun(EDGE, LIMITS, SETUP, w, SELLING)
      && var at := Run(SETUP, w, SELLING);
         && PairOf(FIRST, SETTLE.winner, SETTLE.loser) && AllDeliveredOn(at.sys, "a") && AllDeliveredOn(at.sys, "x")
         && !NoPendingSellOn(at.sys, "a")
         && Run(SETUP, at, RESOLVED).sys.desk.raised
  {
    hide Enabled, Decided, NextWorld, Next, Sells, OnItsWay, EnabledRun, DecidedRun, Run, BooksWithin, HoldsA, Untraded, Traded, Cycle, AfterCycle;
    var w := Begin(20.0, 0);
    var w1 := NextWorld(SETUP, w, ChangeBooks(DECIDING));
    Beginning(w);
    FirstTrade(w1.sys);
    AtZero(w1.sys);
    CycledState(w1, BUY_A, MET_A, 200);
    SellsNow(AfterCycle(w1, BUY_A, MET_A, 200));
    CycleThenSells(w1, [SELL_A]);
    OneLevelEach();
    QuietStep(w, ChangeBooks(DECIDING));
    SellsLater(w, ChangeBooks(DECIDING), Cycle(BUY_A, MET_A, 200) + [SELL_A]);
    SellsParts(w, SELLING);
    var at := Run(SETUP, w, SELLING);
    OnlyTheSale(at.sys);
    EndsRaised(at);
  }

  lemma AtZero(s: Sys)
    requires Untraded(s)
    ensures s.clock == 0
  {
  }

  lemma SellsParts(w: World, steps: seq<Step>)
    requires Sells(w, steps)
    ensures EnabledRun(SETUP, w, steps) && DecidedRun(EDGE, LIMITS, SETUP, w, steps) && OnItsWay(Run(SETUP, w, steps).sys)
  {
    hide EnabledRun, DecidedRun, Run, OnItsWay;
  }

  lemma OnlyTheSale(s: Sys)
    requires OnItsWay(s)
    ensures PairOf(FIRST, SETTLE.winner, SETTLE.loser) && AllDeliveredOn(s, "a") && AllDeliveredOn(s, "x") && !NoPendingSellOn(s, "a")
  {
    assert s.venue.pending[0] in s.venue.pending;
  }
}
