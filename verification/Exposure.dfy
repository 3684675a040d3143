/** The exposure limit over whole runs: if every entry is sized by the risk engine, open cost
    basis plus pending buys never exceeds the policy's limit plus the fees paid so far, whatever
    partial fills, cancels, sells, settlements and lost replies come between. */
module Exposure {
  import opened Decimals
  import opened Domain
  import opened Matching
  import opened PaperVenue
  import opened MatchBlocks
  import opened Histories
  import opened Sums
  import opened TradingDesk
  import opened OrderPath
  import opened DeliverStep
  import opened SubmitStep
  import opened OrderPathProof
  import SettleStep
  import Execution
  import Accounting
  import Delivery
  import RiskEngine

  const HALF_STEP: real := ACCOUNTING_Q / 2.0

  /** Cost basis can dip below zero by rounding; these are its two parts. */
  function Above(p: Accounting.Position): real {
    Max(0.0, p.cost)
  }

  function Below(p: Accounting.Position): real {
    Max(0.0, -p.cost)
  }

  function CostAbove(positions: seq<Accounting.Position>): real {
    Sum(Above, positions)
  }

  function Debt(positions: seq<Accounting.Position>): real {
    Sum(Below, positions)
  }

  ghost predicate NearlyNonNegative(positions: seq<Accounting.Position>) {
    forall i :: 0 <= i < |positions| ==> positions[i].cost >= -HALF_STEP
  }

  lemma {:induction false} ExposureParts(positions: seq<Accounting.Position>)
    ensures Accounting.Exposure(positions) == CostAbove(positions) - Debt(positions)
    ensures Debt(positions) >= 0.0
  {
    if positions != [] {
      ExposureParts(positions[1..]);
    }
  }

  /** Rounding dust never adds up to more than half a grid step a position. */
  lemma {:induction false} DebtIsDust(positions: seq<Accounting.Position>)
    requires NearlyNonNegative(positions)
    ensures Debt(positions) <= |positions| as real * HALF_STEP
  {
    if positions != [] {
      DebtIsDust(positions[1..]);
    }
  }

  /** On the accounting grid there is none. */
  lemma {:induction false} NoDebtOnGrid(positions: seq<Accounting.Position>)
    requires Accounting.CostsOnGrid(positions)
    ensures Debt(positions) == 0.0
  {
    if positions != [] {
      NoDebtOnGrid(positions[1..]);
    }
  }

  // ---------------------------------------------------------------- the portfolio's side

  lemma RemovedPart(cost: real, x: real)
    requires cost >= -HALF_STEP
    requires if cost >= 0.0 then 0.0 <= x <= cost else cost < x <= 0.0
    ensures cost - RoundHalfEven(x, ACCOUNTING_Q) >= -HALF_STEP
    ensures Max(0.0, cost - RoundHalfEven(x, ACCOUNTING_Q)) <= Max(0.0, cost)
  {
    hide RoundHalfEven;
    var r := RoundHalfEven(x, ACCOUNTING_Q);
    RoundedOnGrid(x, ACCOUNTING_Q);
    Accounting.GridZero(ACCOUNTING_Q);
    if r < 0.0 {
      GridStep(r, 0.0, ACCOUNTING_Q);
    }
    if cost < 0.0 && r > 0.0 {
      GridStep(0.0, r, ACCOUNTING_Q);
    }
  }

  lemma ProRataNegative(cost: real, shares: real, held: real)
    requires cost < 0.0 && 0.0 < shares < held
    ensures cost < Accounting.ProRata(cost, shares, held) <= 0.0
  {
    var x := Accounting.ProRata(cost, shares, held);
    MulLt(shares, held, -cost);
    MulLt(0.0, shares, -cost);
    DivMul(cost * shares, held);
    if x <= cost {
      MulLe(x, cost, held);
    }
    if x > 0.0 {
      MulLt(0.0, x, held);
    }
  }

  lemma SaleKeepsCost(p: Accounting.Position, f: Fill)
    requires f.Valid() && f.shares <= p.shares && p.cost >= -HALF_STEP
    ensures Accounting.Sold(p, f).cost >= -HALF_STEP
    ensures Above(Accounting.Sold(p, f)) <= Above(p)
  {
    hide Notional, RoundHalfEven, Accounting.ProRata;
    if f.shares != p.shares {
      if p.cost >= 0.0 {
        Accounting.ProRataWithin(p.cost, f.shares, p.shares);
      } else {
        ProRataNegative(p.cost, f.shares, p.shares);
      }
      RemovedPart(p.cost, Accounting.ProRata(p.cost, f.shares, p.shares));
    }
  }

  lemma DropCost(positions: seq<Accounting.Position>, i: nat)
    requires i < |positions| && NearlyNonNegative(positions)
    ensures NearlyNonNegative(Accounting.Drop(positions, i))
    ensures CostAbove(Accounting.Drop(positions, i)) <= CostAbove(positions)
  {
    SumRemove(Above, positions, i);
  }

  lemma ReplaceCost(positions: seq<Accounting.Position>, i: nat, p: Accounting.Position)
    requires i < |positions| && NearlyNonNegative(positions) && p.cost >= -HALF_STEP
    ensures NearlyNonNegative(positions[i := p])
    ensures CostAbove(positions[i := p]) == CostAbove(positions) - Above(positions[i]) + Above(p)
  {
    SumUpdate(Above, positions, i, p);
  }

  lemma AppendCost(positions: seq<Accounting.Position>, p: Accounting.Position)
    requires NearlyNonNegative(positions) && p.cost >= -HALF_STEP
    ensures NearlyNonNegative(positions + [p])
    ensures CostAbove(positions + [p]) == CostAbove(positions) + Above(p)
  {
    SumLast(Above, positions, p);
  }

  /** A buy adds at most its cost; a sell adds nothing. */
  lemma FillCost(l: Accounting.Ledger, f: Fill)
    requires NearlyNonNegative(l.positions) && f.Valid() && Accounting.ApplyFill(l, f).Ok?
    ensures var l' := Accounting.ApplyFill(l, f).value;
      && NearlyNonNegative(l'.positions) && l'.feesPaid == l.feesPaid + f.fee
      && CostAbove(l'.positions) <= CostAbove(l.positions) + if f.side.Buy? then Accounting.BuyCost(f) else 0.0
  {
    hide Notional, Accounting.CostRemoved, Accounting.Sold, CostAbove, NearlyNonNegative;
    var i := Accounting.IndexOf(l.positions, f.tokenId);
    if f.side.Buy? {
      NotionalPositive(f.price, f.shares);
      if i < |l.positions| {
        AtLeast(l.positions, i);
        ReplaceCost(l.positions, i, Accounting.Bought(l.positions[i], f));
      } else {
        AppendCost(l.positions, Accounting.Bought(Accounting.Opened(f), f));
      }
    } else {
      AtLeast(l.positions, i);
      var p := Accounting.Sold(l.positions[i], f);
      SaleKeepsCost(l.positions[i], f);
      ReplaceCost(l.positions, i, p);
      DropCost(l.positions[i := p], i);
    }
  }

  lemma AtLeast(positions: seq<Accounting.Position>, i: nat)
    requires NearlyNonNegative(positions) && i < |positions|
    ensures positions[i].cost >= -HALF_STEP
  {
  }

  lemma {:induction false} SettleCost(l: Accounting.Ledger, kept: nat, condition: ConditionId, winner: Outcome, ts: int)
    requires NearlyNonNegative(l.positions) && kept <= |l.positions|
    ensures var l' := Accounting.SettleFrom(l, kept, condition, winner, ts);
      && NearlyNonNegative(l'.positions) && CostAbove(l'.positions) <= CostAbove(l.positions) && l'.feesPaid == l.feesPaid
    decreases |l.positions| - kept
  {
    hide CostAbove, NearlyNonNegative;
    if kept < |l.positions| {
      if l.positions[kept].conditionId != condition || l.positions[kept].shares == 0.0 {
        SettleCost(l, kept + 1, condition, winner, ts);
      } else {
        LedgerFactsOfSettle(l, kept, winner, ts);
        DropCost(l.positions, kept);
        SettleCost(Accounting.SettleAt(l, kept, winner, ts), kept, condition, winner, ts);
      }
    }
  }

  lemma LedgerFactsOfSettle(l: Accounting.Ledger, i: nat, winner: Outcome, ts: int)
    requires i < |l.positions|
    ensures Accounting.SettleAt(l, i, winner, ts).positions == Accounting.Drop(l.positions, i)
    ensures Accounting.SettleAt(l, i, winner, ts).feesPaid == l.feesPaid
  {
    var q := Accounting.SettledPosition(l.positions[i], winner);
    assert Accounting.Drop(l.positions[i := q], i) == Accounting.Drop(l.positions, i);
  }

  // ---------------------------------------------------------------- the engine's side

  lemma {:induction false} PendingSame(orders: map<IntentId, OrderRecord>, ids: seq<IntentId>, id: IntentId, rec: OrderRecord)
    requires id !in ids
    ensures Execution.PendingBuyFrom(orders[id := rec], ids) == Execution.PendingBuyFrom(orders, ids)
  {
    if ids != [] {
      PendingSame(orders, ids[1..], id, rec);
    }
  }

  lemma {:induction false} PendingMoved(orders: map<IntentId, OrderRecord>, ids: seq<IntentId>, id: IntentId, rec: OrderRecord)
    requires NoRepeats(ids) && id in ids
    ensures Execution.PendingBuyFrom(orders[id := rec], ids)
      == Execution.PendingBuyFrom(orders, ids) - Execution.PendingBuyOf(orders, id) + Execution.PendingBuyOf(orders[id := rec], id)
  {
    if ids[0] == id {
      forall j | 0 <= j < |ids[1..]|
        ensures ids[1..][j] != id
      {
        assert ids[1..][j] == ids[j + 1];
      }
      PendingSame(orders, ids[1..], id, rec);
    } else {
      PendingMoved(orders, ids[1..], id, rec);
    }
  }

  lemma {:induction false} PendingAppend(orders: map<IntentId, OrderRecord>, ids: seq<IntentId>, id: IntentId)
    ensures Execution.PendingBuyFrom(orders, ids + [id]) == Execution.PendingBuyFrom(orders, ids) + Execution.PendingBuyOf(orders, id)
  {
    if ids == [] {
      assert [] + [id] == [id] && [id][1..] == [];
    } else {
      PendingAppend(orders, ids[1..], id);
      assert (ids + [id])[1..] == ids[1..] + [id];
    }
  }

  lemma {:induction false} AfterAllSpent(rec: OrderRecord, stream: seq<Event>, n: nat)
    requires n <= |stream|
    ensures Delivery.AfterAll(rec, stream, n).filledNotional == rec.filledNotional + Sum(SpentIn, stream[..n])
    decreases n
  {
    if n > 0 {
      hide Notional;
      AfterAllSpent(rec, stream, n - 1);
      assert stream[..n] == stream[..n - 1] + [stream[n - 1]];
      SumLast(SpentIn, stream[..n - 1], stream[n - 1]);
    }
  }

  lemma {:induction false} SpentPrefix(stream: seq<Event>, n: nat)
    requires n <= |stream| && forall i :: 0 <= i < |stream| && stream[i].FillEvent? ==> stream[i].fill.Valid()
    ensures Sum(SpentIn, stream[..n]) <= Sum(SpentIn, stream)
  {
    assert stream == stream[..n] + stream[n..];
    SumAppend(SpentIn, stream[..n], stream[n..]);
    forall i | 0 <= i < |stream[n..]|
      ensures SpentIn(stream[n..][i]) >= 0.0
    {
      SpentNonNegative(stream[n + i]);
    }
    SumNonNegative(SpentIn, stream[n..]);
  }

  lemma SpentNonNegative(ev: Event)
    requires ev.FillEvent? ==> ev.fill.Valid()
    ensures SpentIn(ev) >= 0.0
  {
    if ev.FillEvent? {
      NotionalPositive(ev.fill.price, ev.fill.shares);
    }
  }

  /** The venue never fills a buy beyond its budget, so neither does the engine's record. */
  lemma FilledWithinBudget(setup: Setup, s: Sys, a: Aux, id: IntentId, n: nat)
    requires StreamsOk(setup, s, a) && id in a.base && a.base[id].intent.side.Buy? && n <= |StreamOf(s.venue.history, id)|
    requires StreamOf(s.venue.history, id) != []
    ensures Delivery.AfterAll(a.base[id], StreamOf(s.venue.history, id), n).filledNotional <= a.base[id].intent.quantity
  {
    hide StreamOf, StreamsOk;
    KnownOrder(setup, s, a, id);
    var stream := StreamOf(s.venue.history, id);
    AfterAllSpent(a.base[id], stream, n);
    forall i | 0 <= i < |stream| && stream[i].FillEvent?
      ensures stream[i].fill.Valid()
    {
      assert Delivery.SoundFill(a.base[id], stream, i);
    }
    SpentPrefix(stream, n);
  }

  // ---------------------------------------------------------------- deliveries

  ghost predicate Bounded(d: Desk, bound: real) {
    && CostAbove(d.ledger.positions) + Execution.PendingBuyUsd(d.engine) <= bound + d.ledger.feesPaid
    && d.ledger.feesPaid >= 0.0 && NearlyNonNegative(d.ledger.positions)
  }

  lemma OrderIds(setup: Setup, s: Sys, a: Aux, id: IntentId)
    requires IntentsOk(setup, s, a) && id in a.base
    ensures NoRepeats(s.desk.engine.intents) && id in s.desk.engine.intents
  {
  }

  lemma PendingAfterFill(setup: Setup, s: Sys, a: Aux, id: IntentId, f: Fill)
    requires FillArrives(setup, s, a, id, f)
    ensures id in s.desk.engine.orders
    ensures var orders := s.desk.engine.orders;
      var after := orders[id := Execution.FillRecord(orders[id], f)];
      Execution.PendingBuyOf(after, id)
        == Execution.PendingBuyOf(orders, id) - if f.side.Buy? then Notional(f.price, f.shares) else 0.0
  {
    hide StreamOf, IntentsOk, AllPendingOk, HistoryOk, Coupled, CashCovers, SharesCover, OneOpenPerToken, LedgerOk, Notional,
      StreamsOk, Delivery.Sound, StreamOk;
    var q := FillFacts(setup, s, a, id, f);
    KnownOrder(setup, s, a, id);
    var stream, n := StreamOf(s.venue.history, id), a.marks[id];
    OneMore(a.base[id], stream, n);
    if f.side.Buy? {
      FilledWithinBudget(setup, s, a, id, n);
      FilledWithinBudget(setup, s, a, id, n + 1);
    }
    OpenOrTerminal(s.desk.engine.orders[id].status);
  }

  /** Moving one order, and the ledger with it, keeps the bound when the two changes balance. */
  lemma OrderMoves(d: Desk, d': Desk, id: IntentId, rec: OrderRecord, bound: real)
    requires Bounded(d, bound) && NoRepeats(d.engine.intents) && id in d.engine.intents
    requires d'.engine.orders == d.engine.orders[id := rec] && d'.engine.intents == d.engine.intents
    requires CostAbove(d'.ledger.positions) + Execution.PendingBuyOf(d'.engine.orders, id) - d'.ledger.feesPaid
      <= CostAbove(d.ledger.positions) + Execution.PendingBuyOf(d.engine.orders, id) - d.ledger.feesPaid
    requires d'.ledger.feesPaid >= 0.0 && NearlyNonNegative(d'.ledger.positions)
    ensures Bounded(d', bound)
  {
    hide CostAbove, NearlyNonNegative, Execution.PendingBuyFrom, Execution.PendingBuyOf;
    PendingMoved(d.engine.orders, d.engine.intents, id, rec);
  }

  lemma IdsOfCore(setup: Setup, s: Sys, a: Aux, id: IntentId)
    requires Core(setup, s, a) && id in a.base
    ensures NoRepeats(s.desk.engine.intents) && id in s.desk.engine.intents
  {
    hide *;
    CoreHistory(setup, s, a);
    OrderIds(setup, s, a, id);
  }

  lemma FillParts(setup: Setup, s: Sys, a: Aux, id: IntentId, f: Fill)
    requires f.Valid() && FillArrives(setup, s, a, id, f)
    ensures id in s.desk.engine.orders && id in a.base && f.Valid() && Accounting.ApplyFill(s.desk.ledger, f).Ok?
    ensures ValidEvent(FillEvent(f))
    ensures var d' := DeliverOne(s.desk, FillEvent(f));
      && d'.engine.orders == s.desk.engine.orders[id := Execution.FillRecord(s.desk.engine.orders[id], f)]
      && d'.engine.intents == s.desk.engine.intents && d'.ledger == Accounting.ApplyFill(s.desk.ledger, f).value
    ensures NoRepeats(s.desk.engine.intents) && id in s.desk.engine.intents
  {
    hide DeliverOne, StreamOf, Core, Accounting.ApplyFill, Execution.FillRecord, NoRepeats;
    FillIsAccepted(setup, s, a, id, f);
    var q := FillFacts(setup, s, a, id, f);
    IdsOfCore(setup, s, a, id);
  }

  lemma FillKeepsBound(setup: Setup, s: Sys, a: Aux, id: IntentId, f: Fill, bound: real)
    requires f.Valid() && FillArrives(setup, s, a, id, f) && Bounded(s.desk, bound)
    ensures Bounded(DeliverOne(s.desk, FillEvent(f)), bound)
  {
    hide *;
    BoundedParts(s.desk, bound);
    FillParts(setup, s, a, id, f);
    FillCost(s.desk.ledger, f);
    PendingAfterFill(setup, s, a, id, f);
    FillBalances(f);
    OrderMoves(s.desk, DeliverOne(s.desk, FillEvent(f)), id, Execution.FillRecord(s.desk.engine.orders[id], f), bound);
  }

  lemma BoundedParts(d: Desk, bound: real)
    requires Bounded(d, bound)
    ensures d.ledger.feesPaid >= 0.0 && NearlyNonNegative(d.ledger.positions)
  {
  }

  lemma FillBalances(f: Fill)
    requires f.Valid()
    ensures f.fee >= 0.0 && Accounting.BuyCost(f) == Notional(f.price, f.shares) + f.fee
  {
  }

  lemma UpdateParts(setup: Setup, s: Sys, a: Aux, id: IntentId, u: OrderUpdate)
    requires UpdateArrives(setup, s, a, id, u)
    ensures id in s.desk.engine.orders && id in a.base && u.status.IsTerminal() && !s.desk.engine.orders[id].status.IsTerminal()
    ensures ValidEvent(UpdateEvent(u))
    ensures var d' := DeliverOne(s.desk, UpdateEvent(u));
      && d'.engine.orders == s.desk.engine.orders[id := Execution.UpdateRecord(s.desk.engine.orders[id], u)]
      && d'.engine.intents == s.desk.engine.intents && d'.ledger == s.desk.ledger
    ensures NoRepeats(s.desk.engine.intents) && id in s.desk.engine.intents
  {
    hide DeliverOne, StreamOf, Core, Execution.UpdateRecord, NoRepeats;
    UpdateIsApplied(setup, s, a, id, u);
    var q := UpdateFacts(setup, s, a, id, u);
    IdsOfCore(setup, s, a, id);
  }

  /** A closed order asks for no more cash. */
  lemma ClosedAsksNothing(orders: map<IntentId, OrderRecord>, id: IntentId, rec: OrderRecord)
    requires rec.status.IsTerminal()
    ensures Execution.PendingBuyOf(orders[id := rec], id) == 0.0 <= Execution.PendingBuyOf(orders, id)
  {
  }

  lemma UpdatedIsTerminal(rec: OrderRecord, u: OrderUpdate)
    requires u.status.IsTerminal()
    ensures Execution.UpdateRecord(rec, u).status.IsTerminal()
  {
  }

  lemma UpdateKeepsBound(setup: Setup, s: Sys, a: Aux, id: IntentId, u: OrderUpdate, bound: real)
    requires UpdateArrives(setup, s, a, id, u) && Bounded(s.desk, bound)
    ensures Bounded(DeliverOne(s.desk, UpdateEvent(u)), bound)
  {
    hide *;
    BoundedParts(s.desk, bound);
    UpdateParts(setup, s, a, id, u);
    UpdatedIsTerminal(s.desk.engine.orders[id], u);
    ClosedAsksNothing(s.desk.engine.orders, id, Execution.UpdateRecord(s.desk.engine.orders[id], u));
    OrderMoves(s.desk, DeliverOne(s.desk, UpdateEvent(u)), id, Execution.UpdateRecord(s.desk.engine.orders[id], u), bound);
  }

  /** No arrival, new or repeated, raises the bound. */
  lemma DeliveryKeepsBound(setup: Setup, s: Sys, a: Aux, id: IntentId, j: nat, bound: real)
    requires setup.Valid() && Core(setup, s, a) && id in a.marks && j <= a.marks[id] && j < |StreamOf(s.venue.history, id)|
    requires Bounded(s.desk, bound)
    ensures id in a.base && ValidEvent(StreamOf(s.venue.history, id)[j])
    ensures Bounded(DeliverOne(s.desk, StreamOf(s.venue.history, id)[j]), bound)
  {
    hide StreamOf, Core, DeliverOne, Bounded;
    StreamEventsValid(setup, s, a, id, j);
    var ev := StreamOf(s.venue.history, id)[j];
    if j < a.marks[id] {
      RepeatChangesNothing(setup, s, a, id, j);
    } else if ev.FillEvent? {
      FillKeepsBound(setup, s, a, id, ev.fill, bound);
    } else {
      UpdateKeepsBound(setup, s, a, id, ev.update, bound);
    }
  }

  lemma {:induction false} DrainKeepsBound(setup: Setup, s: Sys, a: Aux, q: nat, bound: real)
    requires setup.Valid() && Core(setup, s, a) && PolledOk(s, a, q) && Bounded(s.desk, bound)
    ensures ValidEvents(EventsOf(s.venue.history[q..]))
    ensures Bounded(DeliverAll(s.desk, EventsOf(s.venue.history[q..])), bound)
    decreases |s.venue.history| - q
  {
    hide StreamOf, Core, DeliverOne, PolledOk, DeliverAll, Drained, EventsOf, HistoryOk, StreamsOk, IntentsOk, Coupled, ValidEvent,
      ValidEvents, Bounded;
    QueueBound(s, a, q);
    if q == |s.venue.history| {
      NothingToDrain(s, a, q);
    } else {
      CoreHistory(setup, s, a);
      QueuedIsGapFree(setup, s, a, q);
      var ev := s.venue.history[q].event;
      var id := ev.IntentId().value;
      var j := |StreamOf(s.venue.history[..q], id)|;
      DeliverKeepsCore(setup, s, a, id, j);
      DeliveryKeepsBound(setup, s, a, id, j, bound);
      PolledOneMore(s, a, q, id, j);
      var s1, a1 := s.(desk := DeliverOne(s.desk, ev)), a.(marks := Delivery.Raise(a.marks, id, j));
      SamePolled(s, s1, a1, q + 1);
      DrainKeepsBound(setup, s1, a1, q + 1, bound);
      DrainFirst(s, a, q, id);
    }
  }

  lemma {:induction false} ReplayKeepsBound(setup: Setup, s: Sys, a: Aux, id: IntentId, j: nat, bound: real)
    requires setup.Valid() && Core(setup, s, a) && id in a.marks && j <= a.marks[id] <= |StreamOf(s.venue.history, id)|
    requires Bounded(s.desk, bound)
    ensures ValidEvents(StreamOf(s.venue.history, id)[j..])
    ensures Bounded(DeliverAll(s.desk, StreamOf(s.venue.history, id)[j..]), bound)
    decreases |StreamOf(s.venue.history, id)| - j
  {
    hide StreamOf, Core, DeliverOne, Bounded;
    var stream := StreamOf(s.venue.history, id);
    if j < |stream| {
      DeliverKeepsCore(setup, s, a, id, j);
      DeliveryKeepsBound(setup, s, a, id, j, bound);
      var s1, a1 := s.(desk := DeliverOne(s.desk, stream[j])), a.(marks := Delivery.Raise(a.marks, id, j));
      ReplayKeepsBound(setup, s1, a1, id, j + 1, bound);
      assert stream[j..][1..] == stream[j + 1..];
      FirstValid(stream[j], stream[j + 1..]);
      assert [stream[j]] + stream[j + 1..] == stream[j..];
    }
  }

  // ---------------------------------------------------------------- steps

  /** The risk engine looks at this desk: its cash and positions, and its open orders. */
  ghost predicate Sees(ctx: RiskEngine.Context, d: Desk) {
    var e := d.engine;
    && ctx.view.cash == d.ledger.cash && ctx.view.positions == d.ledger.positions
    && ctx.view.pendingBuy == Execution.PendingBuyUsd(e)
    && ctx.health.inFlight == |Execution.OpenIds(e, e.intents)| && ctx.health.unknown == |Execution.UnknownIds(e, e.intents)|
    && forall token: TokenId ::
         && (token in ctx.health.inFlightTokens <==> Execution.InFlight(e, token))
         && RiskEngine.PendingSell(ctx.view, token) == Execution.PendingSellOn(e.orders, e.intents, token)
  }

  ghost predicate ApprovedEntry(policy: RiskEngine.Policy, ctx: RiskEngine.Context, c: RiskEngine.Candidate, d: Desk, decision: Execution.Decision) {
    && c.market.Valid() && Sees(ctx, d) && RiskEngine.EntryAllowed(policy, ctx, c)
    && decision.tokenId == c.tokenId && decision.limitPrice == c.worstPrice
    && decision.maxSizeUsd == RiskEngine.EntrySize(policy, ctx.view, c)
  }

  predicate IsEntry(step: Step) {
    step.SubmitOrder? && step.decision.side.Buy?
  }

  /** Every entry that gets through was approved by the risk engine on the state it meets. */
  ghost predicate Approved(policy: RiskEngine.Policy, s: Sys, step: Step) {
    IsEntry(step) ==> exists ctx: RiskEngine.Context, c: RiskEngine.Candidate :: ApprovedEntry(policy, ctx, c, s.desk, step.decision)
  }

  ghost predicate ApprovedRun(policy: RiskEngine.Policy, setup: Setup, w: World, steps: seq<Step>)
    decreases |steps|
  {
    steps == [] || (Approved(policy, w.sys, steps[0]) && ApprovedRun(policy, setup, NextWorld(setup, w, steps[0]), steps[1..]))
  }

  /** Approved, with at most `slack` of cost below zero in the books. */
  ghost predicate Sized(policy: RiskEngine.Policy, s: Sys, step: Step, slack: real) {
    Approved(policy, s, step) && (IsEntry(step) ==> Debt(s.desk.ledger.positions) <= slack)
  }

  ghost predicate SizedRun(policy: RiskEngine.Policy, setup: Setup, w: World, steps: seq<Step>, slack: real)
    decreases |steps|
  {
    steps == []
    || (Sized(policy, w.sys, steps[0], slack) && SizedRun(policy, setup, NextWorld(setup, w, steps[0]), steps[1..], slack))
  }

  lemma EntryLeavesRoom(policy: RiskEngine.Policy, ctx: RiskEngine.Context, c: RiskEngine.Candidate, d: Desk, decision: Execution.Decision)
    requires ApprovedEntry(policy, ctx, c, d, decision)
    ensures Accounting.Exposure(d.ledger.positions) + Execution.PendingBuyUsd(d.engine) + decision.maxSizeUsd <= policy.maxTotalExposure
  {
    hide RiskEngine.EntrySize, Execution.PendingBuyUsd, Accounting.Exposure, RiskEngine.CashCap, OnTick;
    RiskEngine.SizeWithinCaps(policy, ctx.view, c);
  }

  lemma SubmitKeepsBound(policy: RiskEngine.Policy, setup: Setup, w: World, step: Step, slack: real)
    requires Holds(setup, w) && step.SubmitOrder? && Enabled(setup, w.sys, w.aux, step) && Sized(policy, w.sys, step, slack)
    requires Bounded(w.sys.desk, policy.maxTotalExposure + slack)
    ensures Bounded(NextWorld(setup, w, step).sys.desk, policy.maxTotalExposure + slack)
  {
    hide Core, Covered, Execution.InFlight, StreamOf, PolledOk, QueueOk, CostAbove, Debt, NearlyNonNegative, Accounting.Exposure,
      PreparedBy, Execution.PendingBuyFrom, ApprovedEntry, AfterSubmit, Bounded;
    var s, a := w.sys, w.aux;
    if PreparedBy(setup, s, step).Built? {
      var s' := AfterSubmit(setup, s, step);
      StepSubmits(setup, s, a, step);
      SubmittedQuantity(setup, s, a, step);
      if step.decision.side.Buy? {
        var ctx: RiskEngine.Context, c: RiskEngine.Candidate :| ApprovedEntry(policy, ctx, c, s.desk, step.decision);
        EntryLeavesRoom(policy, ctx, c, s.desk, step.decision);
      }
      SubmittedKeepsBound(setup, s, a, s'.desk.engine.orders[step.id], Reached(setup, s, step), s', AuxAfterSubmit(setup, s, a, step),
                          policy.maxTotalExposure, slack);
    } else {
      RefusedStays(setup, s, step);
    }
  }

  lemma RefusedStays(setup: Setup, s: Sys, step: Step)
    requires step.SubmitOrder? && step.condition in setup.markets && setup.markets[step.condition].Valid()
    requires PreparedBy(setup, s, step).Refused?
    ensures AfterSubmit(setup, s, step) == s
  {
  }

  lemma SubmittedQuantity(setup: Setup, s: Sys, a: Aux, step: Step)
    requires setup.Valid() && Core(setup, s, a) && step.SubmitOrder? && Enabled(setup, s, a, step) && PreparedBy(setup, s, step).Built?
    ensures var s' := AfterSubmit(setup, s, step);
      && step.id in s'.desk.engine.orders
      && var intent := s'.desk.engine.orders[step.id].intent;
         intent.side == step.decision.side && (intent.side.Buy? ==> intent.quantity == step.decision.maxSizeUsd)
  {
    hide Core, Covered, FloorTo, CeilTo, Submit, KnownIntent, Execution.InFlight, Execution.Prepare, PreparedBy, Execution.MarkSubmitting,
      Execution.InsertIntent, Execution.Conclude;
    PreparedIntent(setup, s, step);
    var intent := PreparedBy(setup, s, step).intent;
    var (v, ack) := Submit(setup.cfg, s.venue, intent, setup.markets[step.condition], s.clock, step.jitter, step.chaos);
    EngineAfterSubmit(s.desk.engine, intent, if step.link.Delivered? then Execution.Acked(ack) else Execution.Lost(s.clock));
    PreparedQuantity(setup, s, step);
  }

  lemma PreparedQuantity(setup: Setup, s: Sys, step: Step)
    requires step.SubmitOrder? && step.condition in setup.markets && setup.markets[step.condition].Valid()
    requires PreparedBy(setup, s, step).Built?
    ensures var intent := PreparedBy(setup, s, step).intent;
      intent.side == step.decision.side && (intent.side.Buy? ==> intent.quantity == step.decision.maxSizeUsd)
  {
    hide FloorTo, CeilTo, Execution.OpenIds, Execution.UnknownIds;
  }

  lemma SubmittedKeepsBound(
      setup: Setup, s: Sys, a: Aux, rec: OrderRecord, reached: Option<Pending>, s': Sys, a': Aux, limit: real, slack: real)
    requires Submits(setup, s, a, rec, reached, s', a') && Bounded(s.desk, limit + slack)
    requires rec.intent.side.Buy? ==>
      && Accounting.Exposure(s.desk.ledger.positions) + Execution.PendingBuyUsd(s.desk.engine) + rec.intent.quantity <= limit
      && Debt(s.desk.ledger.positions) <= slack
    ensures Bounded(s'.desk, limit + slack)
  {
    hide Core, Covered, Execution.InFlight, CostAbove, Debt, NearlyNonNegative, Accounting.Exposure, Execution.PendingBuyFrom, NewPending,
      KnownIntent;
    var id, e := rec.intent.intentId, s.desk.engine;
    NewIsUnheardOf(setup, s, a, id);
    ExposureParts(s.desk.ledger.positions);
    PendingAppend(e.orders[id := rec], e.intents, id);
    PendingSame(e.orders, e.intents, id, rec);
    PositiveQuantity(setup, s, a, rec, reached, s', a');
  }

  lemma PositiveQuantity(setup: Setup, s: Sys, a: Aux, rec: OrderRecord, reached: Option<Pending>, s': Sys, a': Aux)
    requires Submits(setup, s, a, rec, reached, s', a')
    ensures rec.intent.quantity > 0.0
  {
    hide Core, Covered, Execution.InFlight;
  }

  lemma CloseKeepsBound(setup: Setup, w: World, id: IntentId, bound: real)
    requires Holds(setup, w) && Enabled(setup, w.sys, w.aux, OperatorNoFill(id)) && Bounded(w.sys.desk, bound)
    ensures Bounded(NextWorld(setup, w, OperatorNoFill(id)).sys.desk, bound)
  {
    hide Core, NeverReached, StreamOf, PolledOk, QueueOk, Bounded, NoRepeats;
    SettleStep.CloseFrame(setup, w.sys, w.aux, id);
    CloseDesk(setup, w.sys, w.aux, id, Next(setup, w.sys, OperatorNoFill(id)), bound);
  }

  lemma CloseDesk(setup: Setup, s: Sys, a: Aux, id: IntentId, s': Sys, bound: real)
    requires Core(setup, s, a) && id in s.desk.engine.orders && id in a.base && Bounded(s.desk, bound)
    requires s'.desk.ledger == s.desk.ledger && s'.desk.engine.intents == s.desk.engine.intents
    requires s'.desk.engine.orders == s.desk.engine.orders[id := SettleStep.Closed(s, id)]
    ensures Bounded(s'.desk, bound)
  {
    hide Core, Bounded, NoRepeats, Execution.PendingBuyOf, CostAbove, NearlyNonNegative;
    BoundedParts(s.desk, bound);
    IdsOfCore(setup, s, a, id);
    ClosedAsksNothing(s.desk.engine.orders, id, SettleStep.Closed(s, id));
    OrderMoves(s.desk, s'.desk, id, SettleStep.Closed(s, id), bound);
  }

  lemma PollKeepsBound(setup: Setup, w: World, bound: real)
    requires Holds(setup, w) && Bounded(w.sys.desk, bound)
    ensures Bounded(NextWorld(setup, w, PollAndApply).sys.desk, bound)
  {
    hide Core, Extends, Advance, DeliverAll, Drained, StreamOf, Bounded;
    var s := w.sys;
    var v := Advance(setup.cfg, s.venue, s.books, s.clock);
    AdvanceKeeps(setup, s, w.aux);
    ExtendsKeepsQueue(s, w.aux, v, w.polled);
    DrainKeepsBound(setup, s.(venue := v), w.aux, w.polled, bound);
  }

  lemma ResolveKeepsBound(setup: Setup, w: World, id: IntentId, bound: real)
    requires Holds(setup, w) && Enabled(setup, w.sys, w.aux, ResolveUnknown(id)) && Bounded(w.sys.desk, bound)
    ensures Bounded(NextWorld(setup, w, ResolveUnknown(id)).sys.desk, bound)
  {
    hide Core, StreamOf, Found, DeliverAll, HistoryOk, IntentsOk, StreamsOk, Coupled, Bounded, PolledOk, QueueOk;
    CoreHistory(setup, w.sys, w.aux);
    KnownOrder(setup, w.sys, w.aux, id);
    FoundIsStream(setup, w.sys, w.aux, id);
    ReplayKeepsBound(setup, w.sys, w.aux, id, 0, bound);
    assert StreamOf(w.sys.venue.history, id)[0..] == StreamOf(w.sys.venue.history, id);
  }

  lemma SettleKeepsBound(setup: Setup, w: World, step: Step, bound: real)
    requires step.SettleMarket? && Bounded(w.sys.desk, bound)
    ensures Bounded(NextWorld(setup, w, step).sys.desk, bound)
  {
    hide CostAbove, NearlyNonNegative, Execution.PendingBuyFrom;
    SettleCost(w.sys.desk.ledger, 0, step.condition, step.winner.outcome, w.sys.clock);
  }

  lemma StepKeepsBound(policy: RiskEngine.Policy, setup: Setup, w: World, step: Step, slack: real)
    requires Holds(setup, w) && Enabled(setup, w.sys, w.aux, step) && Sized(policy, w.sys, step, slack)
    requires Bounded(w.sys.desk, policy.maxTotalExposure + slack)
    ensures Bounded(NextWorld(setup, w, step).sys.desk, policy.maxTotalExposure + slack)
  {
    hide Holds, Enabled, Sized, Bounded, NextWorld;
    match step
    case SubmitOrder(_, _, _, _, _, _, _) => SubmitKeepsBound(policy, setup, w, step, slack);
    case PollAndApply => PollKeepsBound(setup, w, policy.maxTotalExposure + slack);
    case ResolveUnknown(id) => ResolveKeepsBound(setup, w, id, policy.maxTotalExposure + slack);
    case OperatorNoFill(id) => CloseKeepsBound(setup, w, id, policy.maxTotalExposure + slack);
    case SettleMarket(_, _, _) => SettleKeepsBound(setup, w, step, policy.maxTotalExposure + slack);
    case _ => SameDesk(setup, w, step);
  }

  lemma SameDesk(setup: Setup, w: World, step: Step)
    requires step.Tick? || step.ChangeBooks? || step.AdvanceVenue? || step.CancelOrder? || step.CancelAllOrders?
    ensures NextWorld(setup, w, step).sys.desk == w.sys.desk
  {
    hide Advance, Cancel, CancelEach;
  }

  lemma {:induction false} RunKeepsBound(policy: RiskEngine.Policy, setup: Setup, w: World, steps: seq<Step>, slack: real)
    requires Holds(setup, w) && EnabledRun(setup, w, steps) && SizedRun(policy, setup, w, steps, slack)
    requires Bounded(w.sys.desk, policy.maxTotalExposure + slack)
    ensures Bounded(Run(setup, w, steps).sys.desk, policy.maxTotalExposure + slack)
    decreases |steps|
  {
    hide Holds, Enabled, NextWorld, Sized, Bounded;
    if steps != [] {
      StepKeepsInv(setup, w, steps[0]);
      StepKeepsBound(policy, setup, w, steps[0], slack);
      RunKeepsBound(policy, setup, NextWorld(setup, w, steps[0]), steps[1..], slack);
    }
  }

  /** The exposure limit in every reachable state, up to the rounding dust there was when entries
      were sized: none while costs stay on the accounting grid. */
  lemma ExposureBoundWithSlack(policy: RiskEngine.Policy, setup: Setup, cash: real, clock: int, steps: seq<Step>, slack: real)
    requires policy.Valid() && setup.Valid() && cash >= 0.0 && slack >= 0.0
    requires EnabledRun(setup, Begin(cash, clock), steps) && SizedRun(policy, setup, Begin(cash, clock), steps, slack)
    ensures var d := Run(setup, Begin(cash, clock), steps).sys.desk;
      Accounting.Exposure(d.ledger.positions) + Execution.PendingBuyUsd(d.engine) <= policy.maxTotalExposure + slack + d.ledger.feesPaid
  {
    hide Run, EnabledRun, SizedRun, Holds;
    BeginHolds(setup, cash, clock);
    NothingAtFirst(cash, clock, policy.maxTotalExposure + slack);
    RunKeepsBound(policy, setup, Begin(cash, clock), steps, slack);
    ExposureParts(Run(setup, Begin(cash, clock), steps).sys.desk.ledger.positions);
  }

  /** Every entry was approved by the risk engine, with at most `n` positions open. */
  ghost predicate Counted(policy: RiskEngine.Policy, s: Sys, step: Step, n: nat) {
    Approved(policy, s, step) && (IsEntry(step) ==> |s.desk.ledger.positions| <= n)
  }

  ghost predicate CountedRun(policy: RiskEngine.Policy, setup: Setup, w: World, steps: seq<Step>, n: nat)
    decreases |steps|
  {
    steps == []
    || (Counted(policy, w.sys, steps[0], n) && CountedRun(policy, setup, NextWorld(setup, w, steps[0]), steps[1..], n))
  }

  function Dust(n: nat): real {
    n as real * HALF_STEP
  }

  lemma CountedIsSized(policy: RiskEngine.Policy, s: Sys, step: Step, n: nat, bound: real)
    requires Counted(policy, s, step, n) && Bounded(s.desk, bound)
    ensures Sized(policy, s, step, Dust(n))
  {
    hide Approved, Debt;
    if IsEntry(step) {
      DebtIsDust(s.desk.ledger.positions);
      MulLe(|s.desk.ledger.positions| as real, n as real, HALF_STEP);
    }
  }

  lemma {:induction false} CountedRunIsSized(policy: RiskEngine.Policy, setup: Setup, w: World, steps: seq<Step>, n: nat)
    requires Holds(setup, w) && EnabledRun(setup, w, steps) && CountedRun(policy, setup, w, steps, n)
    requires Bounded(w.sys.desk, policy.maxTotalExposure + Dust(n))
    ensures SizedRun(policy, setup, w, steps, Dust(n))
    decreases |steps|
  {
    hide Holds, Enabled, NextWorld, Sized, Counted, Bounded, Dust;
    if steps != [] {
      CountedIsSized(policy, w.sys, steps[0], n, policy.maxTotalExposure + Dust(n));
      StepKeepsInv(setup, w, steps[0]);
      StepKeepsBound(policy, setup, w, steps[0], Dust(n));
      CountedRunIsSized(policy, setup, NextWorld(setup, w, steps[0]), steps[1..], n);
    }
  }

  /** Main theorem: over any run in which every entry is approved by the risk engine, with at most
      `n` positions open at the time, open cost basis plus pending buys stays within the policy's
      limit plus the fees paid, up to half an accounting step for each of those positions. */
  lemma ExposureBound(policy: RiskEngine.Policy, setup: Setup, cash: real, clock: int, steps: seq<Step>, n: nat)
    requires policy.Valid() && setup.Valid() && cash >= 0.0
    requires EnabledRun(setup, Begin(cash, clock), steps) && CountedRun(policy, setup, Begin(cash, clock), steps, n)
    ensures var d := Run(setup, Begin(cash, clock), steps).sys.desk;
      Accounting.Exposure(d.ledger.positions) + Execution.PendingBuyUsd(d.engine)
        <= policy.maxTotalExposure + d.ledger.feesPaid + n as real * HALF_STEP
  {
    hide Run, EnabledRun, SizedRun, CountedRun, Holds;
    BeginHolds(setup, cash, clock);
    NothingAtFirst(cash, clock, policy.maxTotalExposure + Dust(n));
    CountedRunIsSized(policy, setup, Begin(cash, clock), steps, n);
    ExposureBoundWithSlack(policy, setup, cash, clock, steps, Dust(n));
  }

  lemma NothingAtFirst(cash: real, clock: int, bound: real)
    requires bound >= 0.0
    ensures Bounded(Begin(cash, clock).sys.desk, bound)
  {
    assert CostAbove([]) == 0.0;
  }
}
