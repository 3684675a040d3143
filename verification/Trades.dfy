/** One whole trade on the order path, worked out step by step: an order submitted while nothing is
    open, its match, and the delivery of its events. Concrete runs are built from it. */
module Trades {
  import opened Domain
  import opened Matching
  import opened PaperVenue
  import opened TradingDesk
  import opened OrderPath
  import opened OrderPathProof
  import opened LazyMatching
  import Execution
  import Accounting

  /** Nothing is open, pending or on its way; `ids` and `decisions` are those used so far. */
  ghost predicate Clear(s: Sys, ids: set<IntentId>, decisions: set<DecisionId>) {
    && s.venue.pending == [] && s.venue.events == [] && !s.desk.raised
    && var e := s.desk.engine;
       && e.orders.Keys == ids && e.stored.Keys == ids && e.usedDecisions == decisions
       && (forall id :: id in e.orders ==> e.orders[id].status.IsTerminal())
       && (forall id :: id in e.stored ==> e.stored[id].intent.decisionId in decisions)
       && (forall f :: f in e.fillIds ==> f.orderId <= s.venue.submitted)
       && (forall id :: id in e.intents <==> id in ids)
       && DeliveredIn(s.venue.history, e.fillIds)
  }

  /** Every fill of the history is among `seen`. */
  ghost predicate DeliveredIn(history: seq<Logged>, seen: set<FillId>) {
    forall q :: 0 <= q < |history| && history[q].event.FillEvent? ==> history[q].event.fill.fillId in seen
  }

  lemma TwoMoreDelivered(history: seq<Logged>, seen: set<FillId>, token: TokenId, f: Fill, u: Event)
    requires DeliveredIn(history, seen) && u.UpdateEvent?
    ensures DeliveredIn(history + [Logged(token, FillEvent(f)), Logged(token, u)], seen + {f.fillId})
  {
  }

  // ---------------------------------------------------------------- submission

  lemma {:induction false} NoneOpen(e: Execution.Engine, ids: seq<IntentId>)
    requires forall id :: id in e.orders ==> e.orders[id].status.IsTerminal()
    ensures Execution.OpenIds(e, ids) == [] && Execution.UnknownIds(e, ids) == []
  {
    if ids != [] {
      NoneOpen(e, ids[1..]);
    }
  }

  lemma NothingInFlight(s: Sys, ids: set<IntentId>, decisions: set<DecisionId>, token: TokenId)
    requires Clear(s, ids, decisions)
    ensures !Execution.InFlight(s.desk.engine, token)
  {
  }

  /** The order as the engine builds it from a decision that is approved, fresh and of the market. */
  ghost predicate Builds(setup: Setup, s: Sys, step: Step, intent: OrderIntent) {
    && step.SubmitOrder? && step.condition in setup.markets && setup.markets[step.condition].Valid()
    && Execution.BuildIntent(s.desk.engine, step.decision, setup.markets[step.condition], step.outcome, step.id, s.clock) == Execution.Built(intent)
    && intent.decisionId == step.decision.decisionId && intent.intentId == step.id
  }

  lemma PreparedIs(setup: Setup, s: Sys, step: Step, intent: OrderIntent, ids: set<IntentId>, decisions: set<DecisionId>)
    requires Clear(s, ids, decisions) && Builds(setup, s, step, intent) && setup.maxInFlight > 0
    requires step.id !in ids && step.decision.decisionId !in decisions
    ensures PreparedBy(setup, s, step) == Execution.Built(intent)
  {
    hide Execution.BuildIntent, Execution.OpenIds, Execution.UnknownIds;
    NoneOpen(s.desk.engine, s.desk.engine.intents);
  }

  function Due(setup: Setup, s: Sys, step: Step): int
    requires step.SubmitOrder?
  {
    s.clock + setup.cfg.latencyMs + step.jitter + setup.cfg.takerDelayMs
  }

  function LiveRecord(intent: OrderIntent, x: OrderId, now: int): OrderRecord {
    OrderRecord(intent, OrderStatus.Live, Some(x), 0.0, 0.0, 0.0, now)
  }

  /** The venue takes the order and the engine has it LIVE. */
  lemma Submitted(setup: Setup, s: Sys, step: Step, intent: OrderIntent, ids: set<IntentId>, decisions: set<DecisionId>)
    requires Clear(s, ids, decisions) && Builds(setup, s, step, intent) && intent.Valid() && setup.maxInFlight > 0
    requires step.id !in ids && step.decision.decisionId !in decisions && step.link.Delivered? && !step.chaos
    requires Validate(setup.cfg, s.venue, intent, setup.markets[step.condition]) == None
    ensures var x, s' := s.venue.submitted + 1, Next(setup, s, step);
      && s' == s.(venue := s'.venue, desk := s.desk.(engine := s'.desk.engine))
      && s'.venue == s.venue.(submitted := x, pending := [Pending(intent, x, Due(setup, s, step), setup.markets[step.condition].feeRate)])
      && var e, e' := s.desk.engine, s'.desk.engine;
         && e'.orders == e.orders[step.id := LiveRecord(intent, x, s.clock)] && e'.stored == e.stored[step.id := LiveRecord(intent, x, s.clock)]
         && e'.usedDecisions == e.usedDecisions + {intent.decisionId} && e'.fillIds == e.fillIds && e'.intents == e.intents + [step.id]
  {
    hide Validate, PreparedBy, Execution.BuildIntent, Execution.Conclude, Execution.MarkSubmitting, Execution.InsertIntent;
    PreparedIs(setup, s, step, intent, ids, decisions);
    Concluded(s.desk.engine, intent, s.venue.submitted + 1, s.clock);
  }

  lemma Concluded(e: Execution.Engine, intent: OrderIntent, x: OrderId, now: int)
    ensures var begun := Execution.MarkSubmitting(Execution.InsertIntent(e, intent), intent);
      var e' := Execution.Conclude(begun, intent, Execution.Acked(OrderAck(true, OrderStatus.Live, Some(x), now)));
      && e'.orders == e.orders[intent.intentId := LiveRecord(intent, x, now)]
      && e'.stored == e.stored[intent.intentId := LiveRecord(intent, x, now)]
      && e'.usedDecisions == e.usedDecisions + {intent.decisionId} && e'.fillIds == e.fillIds
      && e'.intents == e.intents + [intent.intentId]
  {
  }

  /** With everything closed nothing is pledged, so an order is covered by the cash there is. */
  lemma ClearCovers(setup: Setup, s: Sys, a: Aux, intent: OrderIntent, ids: set<IntentId>, decisions: set<DecisionId>)
    requires Clear(s, ids, decisions) && ReserveOf(setup, intent) <= s.desk.ledger.cash
    ensures Covered(setup, s, a, intent)
  {
    hide ReserveOf;
    NothingPledged(setup, s, a, s.desk.engine.intents);
  }

  lemma {:induction false} NothingPledged(setup: Setup, s: Sys, a: Aux, intents: seq<IntentId>)
    requires forall id :: id in s.desk.engine.orders ==> s.desk.engine.orders[id].status.IsTerminal()
    ensures PledgeTotal(intents, Pledges(setup, s, a)) == 0.0
  {
    hide ReserveOf;
    if intents != [] {
      NothingPledged(setup, s, a, intents[1..]);
    }
  }

  // ---------------------------------------------------------------- match

  /** What a match of the one pending order that takes one lot leaves behind. */
  lemma Matched(cfg: Config, v: Venue, books: Books, p: Pending, lot: Lot, now: int)
    requires v.pending == [p] && v.events == [] && p.dueMs <= now && p.intent.tokenId in books
    requires Untouched(v, p.intent.tokenId, p.intent.side)
    requires PricedInRange(SideLevels(books[p.intent.tokenId], p.intent.side))
    requires PlanOf(p.intent, SideLevels(books[p.intent.tokenId], p.intent.side)).lots == [lot]
    ensures var w, f := Advance(cfg, v, books, now), FillOf(cfg, p, lot, 0, p.dueMs);
      var plan := PlanOf(p.intent, SideLevels(books[p.intent.tokenId], p.intent.side));
      && w.pending == [] && w.submitted == v.submitted && w.cash == v.cash + CashDelta(f)
      && w.Held(p.intent.tokenId) == v.Held(p.intent.tokenId) + ShareDelta(f)
      && (forall t :: t != p.intent.tokenId ==> w.Held(t) == v.Held(t))
      && w.events == [FillEvent(f), FinalUpdate(p, plan, p.dueMs)]
      && w.history == v.history + [Logged(p.intent.tokenId, FillEvent(f)), Logged(p.intent.tokenId, FinalUpdate(p, plan, p.dueMs))]
      && (forall key :: key in w.consumed ==> key in v.consumed || (key.token == p.intent.tokenId && key.side == p.intent.side))
  {
    hide PlanOf, FillOf, CashDelta, ShareDelta, FinalUpdate, Match, Advance;
    OneOrder(cfg, v, books, p, now);
    BookMatched(cfg, v.(pending := []), books, p, lot, p.dueMs);
  }

  // ---------------------------------------------------------------- delivery

  lemma TwoEvents(d: Desk, f: Event, u: Event)
    requires ValidEvent(f) && ValidEvent(u)
    ensures ValidEvents([f, u]) && DeliverAll(d, [f, u]) == DeliverOne(DeliverOne(d, f), u)
  {
    hide DeliverOne, ValidEvent;
    assert [f, u][1..] == [u] && [u][1..] == [];
    assert DeliverAll(DeliverOne(DeliverOne(d, f), u), []) == DeliverOne(DeliverOne(d, f), u);
  }

  /** A fill that the portfolio takes moves the order and the ledger; one it refuses ends it all. */
  lemma FillDelivered(d: Desk, id: IntentId, f: Fill)
    requires !d.raised && f.Valid() && f.intentId == Some(id) && id in d.engine.orders && f.fillId !in d.engine.fillIds
    requires var rec := d.engine.orders[id]; rec.intent.intentId == id && f.side == rec.intent.side && f.tokenId == rec.intent.tokenId
    ensures var d', r := DeliverOne(d, FillEvent(f)), Accounting.ApplyFill(d.ledger, f);
      && d'.raised == !r.Ok? && d'.ledger == (if r.Ok? then r.value else d.ledger)
      && d'.engine.orders == d.engine.orders[id := Execution.FillRecord(d.engine.orders[id], f)]
      && d'.engine.stored == d.engine.stored[id := Execution.FillRecord(d.engine.orders[id], f)]
      && d'.engine.usedDecisions == d.engine.usedDecisions && d'.engine.intents == d.engine.intents
      && d'.engine.fillIds == d.engine.fillIds + {f.fillId}
  {
    hide Accounting.ApplyFill, Notional, Execution.PastLimit, Execution.Overfilled;
  }

  lemma UpdateDelivered(d: Desk, id: IntentId, u: OrderUpdate)
    requires !d.raised && u.intentId == Some(id) && id in d.engine.orders && u.status.IsTerminal()
    requires var rec := d.engine.orders[id]; rec.intent.intentId == id && !rec.status.IsTerminal()
    ensures var d' := DeliverOne(d, UpdateEvent(u));
      && !d'.raised && d'.ledger == d.ledger
      && id in d'.engine.orders && d'.engine.orders[id].status.IsTerminal() && d'.engine.orders[id].intent == d.engine.orders[id].intent
      && d'.engine.orders == d.engine.orders[id := d'.engine.orders[id]] && d'.engine.stored == d.engine.stored[id := d'.engine.orders[id]]
      && d'.engine.usedDecisions == d.engine.usedDecisions && d'.engine.intents == d.engine.intents && d'.engine.fillIds == d.engine.fillIds
  {
    hide Execution.FullyFilled;
  }

  lemma Refused(d: Desk, ev: Event)
    requires d.raised && ValidEvent(ev)
    ensures DeliverOne(d, ev) == d
  {
  }

  /** Both events of a match at the desk. */
  lemma DeskTraded(d: Desk, id: IntentId, f: Fill, u: OrderUpdate)
    requires !d.raised && f.Valid() && f.intentId == Some(id) && id in d.engine.orders && f.fillId !in d.engine.fillIds
    requires var rec := d.engine.orders[id];
      && rec.intent.intentId == id && f.side == rec.intent.side && f.tokenId == rec.intent.tokenId && rec.status.Live?
    requires u.intentId == Some(id) && u.status.IsTerminal()
    ensures ValidEvents([FillEvent(f), UpdateEvent(u)])
    ensures var d', r := DeliverAll(d, [FillEvent(f), UpdateEvent(u)]), Accounting.ApplyFill(d.ledger, f);
      && d'.raised == !r.Ok?
      && (r.Ok? ==>
            && d'.ledger == r.value
            && id in d'.engine.orders && d'.engine.orders[id].status.IsTerminal() && d'.engine.orders[id].intent == d.engine.orders[id].intent
            && d'.engine.orders == d.engine.orders[id := d'.engine.orders[id]] && d'.engine.stored == d.engine.stored[id := d'.engine.orders[id]]
            && d'.engine.usedDecisions == d.engine.usedDecisions && d'.engine.intents == d.engine.intents
            && d'.engine.fillIds == d.engine.fillIds + {f.fillId})
  {
    hide Accounting.ApplyFill, DeliverOne, DeliverAll, Fill.Valid;
    TwoEvents(d, FillEvent(f), UpdateEvent(u));
    FillDelivered(d, id, f);
    var d1 := DeliverOne(d, FillEvent(f));
    if d1.raised {
      Refused(d1, UpdateEvent(u));
    } else {
      UpdateDelivered(d1, id, u);
    }
  }

  // ---------------------------------------------------------------- runs step by step

  lemma NoSteps(setup: Setup, w: World)
    ensures Run(setup, w, []) == w
  {
  }

  lemma RunFirst(setup: Setup, w: World, step: Step, rest: seq<Step>)
    ensures Run(setup, w, [step] + rest) == Run(setup, NextWorld(setup, w, step), rest)
    ensures NextWorld(setup, w, step).sys == Next(setup, w.sys, step)
  {
    hide Next;
    assert ([step] + rest)[1..] == rest;
  }

  // ---------------------------------------------------------------- one trade

  /** The state the poll meets: the order submitted, the book changed while it is on its way, and the
      clock at its due time. */
  function Arrived(setup: Setup, s: Sys, step: Step, met: Books): Sys
    requires step.SubmitOrder?
  {
    Next(setup, s, step).(books := met, clock := Due(setup, s, step))
  }

  function AfterTrade(setup: Setup, s: Sys, step: Step, met: Books): Sys
    requires step.SubmitOrder?
  {
    Next(setup, Arrived(setup, s, step, met), PollAndApply)
  }

  lemma ArrivedIs(setup: Setup, s: Sys, step: Step, met: Books)
    requires step.SubmitOrder?
    ensures Arrived(setup, s, step, met) == Next(setup, Next(setup, Next(setup, s, step), ChangeBooks(met)), Tick(Due(setup, s, step)))
  {
    hide AfterSubmit;
  }

  /** The fill a trade makes. */
  function TradeFill(setup: Setup, s: Sys, step: Step, intent: OrderIntent, lot: Lot): Fill
    requires step.SubmitOrder? && step.condition in setup.markets
  {
    FillOf(setup.cfg, Pending(intent, s.venue.submitted + 1, Due(setup, s, step), setup.markets[step.condition].feeRate), lot, 0, Due(setup, s, step))
  }

  /** A submission that the venue accepts and that takes one lot of the untouched book it meets. */
  ghost predicate Trades(setup: Setup, s: Sys, step: Step, met: Books, intent: OrderIntent, lot: Lot,
                         ids: set<IntentId>, decisions: set<DecisionId>)
  {
    && Clear(s, ids, decisions) && Builds(setup, s, step, intent) && intent.Valid() && setup.maxInFlight > 0
    && step.id !in ids && step.decision.decisionId !in decisions && step.link.Delivered? && !step.chaos
    && Validate(setup.cfg, s.venue, intent, setup.markets[step.condition]) == None
    && intent.tokenId in met && Untouched(s.venue, intent.tokenId, intent.side)
    && PlanOf(intent, SideLevels(met[intent.tokenId], intent.side)).lots == [lot]
    && TradeFill(setup, s, step, intent, lot).Valid()
  }

  /** The state after a trade: clear again if the portfolio took the fill. */
  lemma Traded(setup: Setup, s: Sys, step: Step, met: Books, intent: OrderIntent, lot: Lot,
              ids: set<IntentId>, decisions: set<DecisionId>)
    requires Trades(setup, s, step, met, intent, lot, ids, decisions)
    ensures var f, r := TradeFill(setup, s, step, intent, lot), Accounting.ApplyFill(s.desk.ledger, TradeFill(setup, s, step, intent, lot));
      var s' := AfterTrade(setup, s, step, met);
      && s'.clock == Due(setup, s, step) && s'.books == met && s'.venue.cash == s.venue.cash + CashDelta(f)
      && s'.desk.raised == !r.Ok?
      && (r.Ok? ==> s'.desk.ledger == r.value && Clear(s', ids + {step.id}, decisions + {step.decision.decisionId}))
      && s'.venue.Held(intent.tokenId) == s.venue.Held(intent.tokenId) + ShareDelta(f)
      && (forall t :: t != intent.tokenId ==> s'.venue.Held(t) == s.venue.Held(t))
      && (forall token, side :: Untouched(s.venue, token, side) && (token != intent.tokenId || side != intent.side) ==> Untouched(s'.venue, token, side))
  {
    hide Trades, Clear, CashDelta, ShareDelta, Advance, DeliverAll, Accounting.ApplyFill, Next, Untouched, TradeFill, AfterTrade;
    VenueTraded(setup, s, step, met, intent, lot, ids, decisions);
    ClearAgain(setup, s, step, met, intent, lot, ids, decisions);
  }

  /** The poll after the submission: the match, then both its events at the desk. */
  lemma PollIs(setup: Setup, s: Sys, step: Step, met: Books, intent: OrderIntent, lot: Lot,
              ids: set<IntentId>, decisions: set<DecisionId>)
    returns (s1: Sys, w: Venue, f: Fill, u: OrderUpdate)
    requires Trades(setup, s, step, met, intent, lot, ids, decisions)
    ensures s1 == Arrived(setup, s, step, met) && w == Advance(setup.cfg, s1.venue, s1.books, s1.clock) && f == TradeFill(setup, s, step, intent, lot)
    ensures w.history == s.venue.history + [Logged(intent.tokenId, FillEvent(f)), Logged(intent.tokenId, UpdateEvent(u))]
    ensures w.events == [FillEvent(f), UpdateEvent(u)] && u.intentId == Some(step.id) && u.status.IsTerminal()
    ensures w.pending == [] && w.submitted == s.venue.submitted + 1 && w.cash == s.venue.cash + CashDelta(f)
    ensures w.Held(intent.tokenId) == s.venue.Held(intent.tokenId) + ShareDelta(f)
    ensures forall t :: t != intent.tokenId ==> w.Held(t) == s.venue.Held(t)
    ensures forall key :: key in w.consumed ==> key in s.venue.consumed || (key.token == intent.tokenId && key.side == intent.side)
    ensures f.intentId == Some(step.id) && f.fillId == FillId(s.venue.submitted + 1, 0) && f.side == intent.side && f.tokenId == intent.tokenId
    ensures f.Valid() && intent.intentId == step.id && intent.decisionId == step.decision.decisionId
    ensures s1.clock == Due(setup, s, step) && s1.books == met && s1.desk == s.desk.(engine := s1.desk.engine)
    ensures var e, e', rec := s.desk.engine, s1.desk.engine, LiveRecord(intent, s.venue.submitted + 1, s.clock);
      && e'.orders == e.orders[step.id := rec] && e'.stored == e.stored[step.id := rec]
      && e'.usedDecisions == e.usedDecisions + {intent.decisionId} && e'.fillIds == e.fillIds && e'.intents == e.intents + [step.id]
  {
    hide Validate, PlanOf, Builds, CashDelta, ShareDelta, FillOf, Advance, Next, Clear, Untouched;
    IsMarket(setup, s, step, intent);
    IsQuiet(s, ids, decisions);
    Submitted(setup, s, step, intent, ids, decisions);
    s1 := Arrived(setup, s, step, met);
    var p := Pending(intent, s.venue.submitted + 1, Due(setup, s, step), setup.markets[step.condition].feeRate);
    SameTouch(s.venue, s1.venue, intent.tokenId, intent.side);
    Matched(setup.cfg, s1.venue, met, p, lot, p.dueMs);
    w := Advance(setup.cfg, s1.venue, s1.books, s1.clock);
    f := FillOf(setup.cfg, p, lot, 0, p.dueMs);
    u := FinalUpdate(p, PlanOf(intent, SideLevels(met[intent.tokenId], intent.side)), p.dueMs).update;
    FillIs(setup.cfg, p, lot, p.dueMs);
  }

  lemma IsQuiet(s: Sys, ids: set<IntentId>, decisions: set<DecisionId>)
    requires Clear(s, ids, decisions)
    ensures s.venue.pending == [] && s.venue.events == []
  {
  }

  lemma SameTouch(v: Venue, w: Venue, token: TokenId, side: Side)
    requires w.consumed == v.consumed && Untouched(v, token, side)
    ensures Untouched(w, token, side)
  {
  }

  lemma AfterPoll(setup: Setup, s1: Sys, w: Venue)
    requires w == Advance(setup.cfg, s1.venue, s1.books, s1.clock) && ValidEvents(w.events)
    ensures Next(setup, s1, PollAndApply) == s1.(venue := w.(events := []), desk := DeliverAll(s1.desk, w.events))
  {
    hide Advance, DeliverAll, ValidEvent;
  }

  lemma VenueTraded(setup: Setup, s: Sys, step: Step, met: Books, intent: OrderIntent, lot: Lot,
              ids: set<IntentId>, decisions: set<DecisionId>)
    requires Trades(setup, s, step, met, intent, lot, ids, decisions)
    ensures var f, s' := TradeFill(setup, s, step, intent, lot), AfterTrade(setup, s, step, met);
      && s'.clock == Due(setup, s, step) && s'.books == met && s'.venue.cash == s.venue.cash + CashDelta(f)
      && s'.venue.Held(intent.tokenId) == s.venue.Held(intent.tokenId) + ShareDelta(f)
      && (forall t :: t != intent.tokenId ==> s'.venue.Held(t) == s.venue.Held(t))
      && (forall token, side :: Untouched(s.venue, token, side) && (token != intent.tokenId || side != intent.side) ==> Untouched(s'.venue, token, side))
  {
    hide Trades, CashDelta, ShareDelta, Advance, DeliverAll, Next, TradeFill, ValidEvent;
    var s1, w, f, u := PollIs(setup, s, step, met, intent, lot, ids, decisions);
    IsValid(f, u);
    AfterPoll(setup, s1, w);
  }

  lemma IsValid(f: Fill, u: OrderUpdate)
    requires f.Valid()
    ensures ValidEvents([FillEvent(f), UpdateEvent(u)])
  {
  }

  lemma IsClear(setup: Setup, s: Sys, step: Step, met: Books, intent: OrderIntent, lot: Lot,
              ids: set<IntentId>, decisions: set<DecisionId>)
    requires Trades(setup, s, step, met, intent, lot, ids, decisions)
    ensures Clear(s, ids, decisions) && step.SubmitOrder? && step.id !in ids
  {
    hide Clear, Untouched, Validate, TradeFill, Execution.BuildIntent;
  }

  lemma ClearAgain(setup: Setup, s: Sys, step: Step, met: Books, intent: OrderIntent, lot: Lot,
              ids: set<IntentId>, decisions: set<DecisionId>)
    requires Trades(setup, s, step, met, intent, lot, ids, decisions)
    ensures var r, s' := Accounting.ApplyFill(s.desk.ledger, TradeFill(setup, s, step, intent, lot)), AfterTrade(setup, s, step, met);
      && s'.desk.raised == !r.Ok?
      && (r.Ok? ==> s'.desk.ledger == r.value && Clear(s', ids + {step.id}, decisions + {step.decision.decisionId}))
  {
    hide DeliveredIn, Trades, CashDelta, ShareDelta, Advance, DeliverAll, Next, TradeFill, ValidEvent, Accounting.ApplyFill;
    var s1, w, f, u := PollIs(setup, s, step, met, intent, lot, ids, decisions);
    IsClear(setup, s, step, met, intent, lot, ids, decisions);
    IsValid(f, u);
    AfterPoll(setup, s1, w);
    DeskTraded(s1.desk, step.id, f, u);
    TwoMoreDelivered(s.venue.history, s.desk.engine.fillIds, intent.tokenId, f, UpdateEvent(u));
  }

  lemma IsMarket(setup: Setup, s: Sys, step: Step, intent: OrderIntent)
    requires Builds(setup, s, step, intent)
    ensures step.SubmitOrder? && step.condition in setup.markets && setup.markets[step.condition].Valid() && intent.intentId == step.id
    ensures intent.decisionId == step.decision.decisionId
  {
  }

  lemma FillIs(cfg: Config, p: Pending, lot: Lot, now: int)
    ensures var f := FillOf(cfg, p, lot, 0, now);
      f.intentId == Some(p.intent.intentId) && f.fillId == FillId(p.orderId, 0) && f.side == p.intent.side && f.tokenId == p.intent.tokenId
  {
  }
}
