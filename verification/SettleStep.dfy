/** Settling a market, and the operator closing an order that never reached the venue, keep the
    order path's invariant. */
module SettleStep {
  import opened Domain
  import opened PaperVenue
  import opened MatchBlocks
  import opened Histories
  import opened Sums
  import opened OrderPath
  import opened DeliverStep
  import Accounting
  import Delivery
  import LedgerFacts
  import VenueStep
  import SubmitStep

  ghost predicate Settles(setup: Setup, s: Sys, a: Aux, step: Step) {
    setup.Valid() && Core(setup, s, a) && step.SettleMarket? && Enabled(setup, s, a, step)
  }

  /** With everything delivered on a token, the ledgers agree on it. */
  lemma AgreeOn(setup: Setup, s: Sys, a: Aux, token: TokenId)
    requires Core(setup, s, a) && AllDeliveredOn(s, token)
    ensures s.venue.Held(token) == Accounting.SharesOf(s.desk.ledger.positions, token)
  {
    hide StreamOf, Undelivered, CashCovers, SharesCover, AllPendingOk, StreamsOk, HistoryOk;
    NothingUndelivered(s.venue.history, s.desk.engine.fillIds, SharesIn(token));
  }

  /** A position is of the condition just when its token is one of the market's. */
  lemma PositionsOfMarket(setup: Setup, s: Sys, a: Aux, step: Step, i: nat)
    requires Settles(setup, s, a, step) && i < |s.desk.ledger.positions|
    ensures var p := s.desk.ledger.positions[i];
      && (p.conditionId == step.condition <==> p.tokenId == step.winner.tokenId || p.tokenId == step.loser.tokenId)
      && (p.conditionId == step.condition && p.outcome == step.winner.outcome <==> p.tokenId == step.winner.tokenId)
  {
    hide StreamOf, Undelivered, CashCovers, SharesCover, AllPendingOk, StreamsOk, HistoryOk, Coupled, NoPendingSellOn, AllDeliveredOn;
    var p := s.desk.ledger.positions[i];
    assert PositionOk(setup, p);
    var m := setup.markets[step.condition];
    assert m.HasToken(step.winner.tokenId) && m.HasToken(step.loser.tokenId);
  }

  lemma SettledShares(setup: Setup, s: Sys, a: Aux, step: Step, t: TokenId)
    requires Settles(setup, s, a, step)
    ensures var l' := Accounting.Settle(s.desk.ledger, step.condition, step.winner.outcome, s.clock);
      && Accounting.WellKept(l')
      && Accounting.SharesOf(l'.positions, t)
           == if t == step.winner.tokenId || t == step.loser.tokenId then 0.0 else Accounting.SharesOf(s.desk.ledger.positions, t)
  {
    hide StreamOf, Undelivered, CashCovers, SharesCover, AllPendingOk, StreamsOk, HistoryOk, Coupled, NoPendingSellOn, AllDeliveredOn;
    LedgerFacts.SettleShares(s.desk.ledger, step.condition, step.winner.outcome, s.clock, t);
    var i := Accounting.IndexOf(s.desk.ledger.positions, t);
    if i < |s.desk.ledger.positions| {
      PositionsOfMarket(setup, s, a, step, i);
    }
  }

  lemma SettledCash(setup: Setup, s: Sys, a: Aux, step: Step)
    requires Settles(setup, s, a, step)
    ensures var l' := Accounting.Settle(s.desk.ledger, step.condition, step.winner.outcome, s.clock);
      l'.cash == s.desk.ledger.cash + Accounting.SharesOf(s.desk.ledger.positions, step.winner.tokenId)
  {
    hide StreamOf, Undelivered, CashCovers, SharesCover, AllPendingOk, StreamsOk, HistoryOk, Coupled, NoPendingSellOn, AllDeliveredOn,
      Accounting.SharesOf;
    LedgerFacts.SettleMoves(s.desk.ledger, 0, step.condition, step.winner.outcome, s.clock);
    assert s.desk.ledger.positions[0..] == s.desk.ledger.positions;
    forall i | 0 <= i < |s.desk.ledger.positions|
      ensures (s.desk.ledger.positions[i].conditionId == step.condition && s.desk.ledger.positions[i].outcome == step.winner.outcome)
        <==> s.desk.ledger.positions[i].tokenId == step.winner.tokenId
    {
      PositionsOfMarket(setup, s, a, step, i);
    }
    LedgerFacts.PayoutIsWinnerShares(s.desk.ledger.positions, step.condition, step.winner.outcome, step.winner.tokenId);
  }

  lemma CoupledAfterSettle(setup: Setup, s: Sys, a: Aux, step: Step)
    requires Settles(setup, s, a, step)
    ensures Coupled(Next(setup, s, step))
  {
    hide StreamOf, Undelivered, CashCovers, SharesCover, AllPendingOk, StreamsOk, HistoryOk, Accounting.SharesOf, Accounting.Settle;
    SettledCash(setup, s, a, step);
    AgreeOn(setup, s, a, step.winner.tokenId);
    AgreeOn(setup, s, a, step.loser.tokenId);
    var s' := Next(setup, s, step);
    forall t: TokenId
      ensures s'.venue.Held(t)
        == Accounting.SharesOf(s'.desk.ledger.positions, t) + Undelivered(s'.venue.history, s'.desk.engine.fillIds, SharesIn(t))
    {
      SettledShares(setup, s, a, step, t);
      assert s.venue.Held(t) == Accounting.SharesOf(s.desk.ledger.positions, t) + Undelivered(s.venue.history, s.desk.engine.fillIds, SharesIn(t));
    }
  }

  lemma PendingSharesAfterSettle(setup: Setup, s: Sys, a: Aux, step: Step, p: Pending)
    requires Settles(setup, s, a, step) && p in s.venue.pending && p.intent.side.Sell?
    ensures p.intent.quantity <= Accounting.SharesOf(Next(setup, s, step).desk.ledger.positions, p.intent.tokenId)
  {
    hide StreamOf, Undelivered, CashCovers, Coupled, Accounting.SharesOf, Accounting.Settle, Sum, AllPendingOk, HistoryOk, StreamsOk,
      IntentsOk, LedgerOk;
    SettledShares(setup, s, a, step, p.intent.tokenId);
  }

  lemma StreamSharesAfterSettle(setup: Setup, s: Sys, a: Aux, step: Step, id: IntentId)
    requires Settles(setup, s, a, step) && id in a.base && id in a.marks && a.marks[id] <= |StreamOf(s.venue.history, id)|
    ensures Sum(SoldIn, StreamOf(s.venue.history, id)[a.marks[id]..])
      <= Accounting.SharesOf(Next(setup, s, step).desk.ledger.positions, a.base[id].intent.tokenId)
  {
    hide StreamOf, Undelivered, CashCovers, Coupled, Accounting.SharesOf, Accounting.Settle, Sum, AllPendingOk, HistoryOk, StreamsOk,
      IntentsOk, LedgerOk, AllDeliveredOn, NoPendingSellOn;
    var token := a.base[id].intent.tokenId;
    SettledShares(setup, s, a, step, token);
    if token == step.winner.tokenId || token == step.loser.tokenId {
      NothingSoldLeft(setup, s, a, id);
    }
  }

  lemma SharesAfterSettle(setup: Setup, s: Sys, a: Aux, step: Step)
    requires Settles(setup, s, a, step)
    ensures SharesCover(Next(setup, s, step), a)
  {
    hide StreamOf, Settles, Accounting.SharesOf, Accounting.Settle, Sum;
    var s' := Next(setup, s, step);
    SettleFrame(setup, s, a, step);
    forall p | p in s'.venue.pending && p.intent.side.Sell?
      ensures p.intent.quantity <= Accounting.SharesOf(s'.desk.ledger.positions, p.intent.tokenId)
    {
      PendingSharesAfterSettle(setup, s, a, step, p);
    }
    forall id | id in a.base && id in a.marks && a.marks[id] <= |StreamOf(s.venue.history, id)|
      ensures Sum(SoldIn, StreamOf(s.venue.history, id)[a.marks[id]..])
        <= Accounting.SharesOf(s'.desk.ledger.positions, a.base[id].intent.tokenId)
    {
      StreamSharesAfterSettle(setup, s, a, step, id);
    }
  }

  lemma SettleFrame(setup: Setup, s: Sys, a: Aux, step: Step)
    requires Settles(setup, s, a, step)
    ensures var s' := Next(setup, s, step);
      && s'.venue.pending == s.venue.pending && s'.venue.history == s.venue.history && s'.desk.engine == s.desk.engine
  {
    hide Core, Enabled, Accounting.Settle;
  }

  /** Once all fills on its token are delivered, every fill of an order is. */
  lemma StreamFillSeen(s: Sys, a: Aux, id: IntentId, j: nat)
    requires HistoryOk(s, a) && id in a.base && AllDeliveredOn(s, a.base[id].intent.tokenId)
    requires j < |StreamOf(s.venue.history, id)| && StreamOf(s.venue.history, id)[j].FillEvent?
    ensures StreamOf(s.venue.history, id)[j].fill.fillId in s.desk.engine.fillIds
  {
    hide StreamOf;
    StreamFromHistory(s.venue.history, id, j);
    var q :| 0 <= q < |s.venue.history| && s.venue.history[q].event == StreamOf(s.venue.history, id)[j]
      && s.venue.history[q].event.IntentId() == Some(id);
    assert EntryOk(a, s.venue.history[q]);
  }

  /** Then an order has no fills left to come. */
  lemma NothingSoldLeft(setup: Setup, s: Sys, a: Aux, id: IntentId)
    requires StreamsOk(setup, s, a) && HistoryOk(s, a) && id in a.base && AllDeliveredOn(s, a.base[id].intent.tokenId)
    ensures id in a.marks && a.marks[id] <= |StreamOf(s.venue.history, id)|
    ensures Sum(SoldIn, StreamOf(s.venue.history, id)[a.marks[id]..]) == 0.0
  {
    hide StreamOf, Delivery.Sound, Delivery.AfterAll, StreamsOk, HistoryOk, AllDeliveredOn, StreamOk, Sum;
    KnownOrder(setup, s, a, id);
    var stream := StreamOf(s.venue.history, id);
    var left := stream[a.marks[id]..];
    forall i | 0 <= i < |left|
      ensures left[i].UpdateEvent?
    {
      if stream[a.marks[id] + i].FillEvent? {
        StreamFillSeen(s, a, id, a.marks[id] + i);
      }
    }
    NoFillsNothingSold(left);
  }

  lemma {:induction false} NoFillsNothingSold(events: seq<Event>)
    requires forall i :: 0 <= i < |events| ==> events[i].UpdateEvent?
    ensures Sum(SoldIn, events) == 0.0
  {
    if events != [] {
      NoFillsNothingSold(events[1..]);
    }
  }

  lemma LedgerAfterSettle(setup: Setup, s: Sys, a: Aux, step: Step)
    requires Settles(setup, s, a, step)
    ensures LedgerOk(setup, Next(setup, s, step))
  {
    hide StreamOf, Undelivered, CashCovers, SharesCover, AllPendingOk, StreamsOk, HistoryOk, Coupled, NoPendingSellOn, AllDeliveredOn,
      Accounting.SharesOf;
    SettledShares(setup, s, a, step, step.winner.tokenId);
    LedgerFacts.SettleMoves(s.desk.ledger, 0, step.condition, step.winner.outcome, s.clock);
    var after := Accounting.Settle(s.desk.ledger, step.condition, step.winner.outcome, s.clock).positions;
    forall i | 0 <= i < |after|
      ensures PositionOk(setup, after[i])
    {
      assert after[i] in s.desk.ledger.positions;
    }
  }

  lemma CashAfterSettle(setup: Setup, s: Sys, a: Aux, step: Step)
    requires Settles(setup, s, a, step)
    ensures CashCovers(setup, Next(setup, s, step), a)
  {
    hide StreamOf, Undelivered, SharesCover, AllPendingOk, StreamsOk, HistoryOk, Coupled, NoPendingSellOn, AllDeliveredOn, Accounting.SharesOf,
      Accounting.Settle, Pledge, PledgeTotal;
    SettledCash(setup, s, a, step);
    LedgerFacts.SharesNonNegative(s.desk.ledger, step.winner.tokenId);
    assert Pledges(setup, Next(setup, s, step), a) == Pledges(setup, s, a);
  }

  /** A settlement keeps the invariant. */
  lemma SettleKeepsCore(setup: Setup, s: Sys, a: Aux, step: Step)
    requires Settles(setup, s, a, step)
    ensures Core(setup, Next(setup, s, step), a)
  {
    var s' := Next(setup, s, step);
    hide Enabled, IntentsOk, AllPendingOk, HistoryOk, Coupled, CashCovers, SharesCover, LedgerOk, StreamOf, Delivery.Tracks, StreamOk,
      Accounting.Settle;
    IntentsSame(setup, s, a, s', a);
    PendingSame(setup, s, a, s', a);
    HistorySame(setup, s, a, s');
    CoupledAfterSettle(setup, s, a, step);
    CashAfterSettle(setup, s, a, step);
    SharesAfterSettle(setup, s, a, step);
    LedgerAfterSettle(setup, s, a, step);
  }

  lemma HistorySame(setup: Setup, s: Sys, a: Aux, s': Sys)
    requires HistoryOk(s, a) && s'.venue.history == s.venue.history && s'.desk.engine == s.desk.engine
    ensures HistoryOk(s', a)
  {
    hide StreamOf, EntryOk, DistinctFills;
  }

  // ---------------------------------------------------------------- an order that never reached the venue

  ghost predicate Closes(setup: Setup, s: Sys, a: Aux, id: IntentId) {
    setup.Valid() && Core(setup, s, a) && id in s.desk.engine.orders && NeverReached(s, id)
  }

  function Closed(s: Sys, id: IntentId): OrderRecord
    requires id in s.desk.engine.orders
  {
    s.desk.engine.orders[id].(status := Cancelled, updatedMs := s.clock)
  }

  lemma ClosedFacts(setup: Setup, s: Sys, a: Aux, id: IntentId)
    requires Closes(setup, s, a, id)
    ensures id in a.base && id in a.marks && a.marks[id] == 0 && StreamOf(s.venue.history, id) == []
    ensures s.desk.engine.orders[id] == a.base[id] && a.base[id].intent.intentId == id
    ensures a.base[id].filledShares == 0.0 && a.base[id].filledNotional == 0.0
  {
    hide StreamOf, Coupled, CashCovers, SharesCover, AllPendingOk, HistoryOk, IntentsOk;
    KnownOrder(setup, s, a, id);
    StreamIsEmpty(s.venue.history, id);
  }

  lemma IntentsAfterClose(setup: Setup, s: Sys, a: Aux, id: IntentId)
    requires Closes(setup, s, a, id)
    ensures var s' := Next(setup, s, OperatorNoFill(id)); IntentsOk(setup, s', a.(base := a.base[id := Closed(s, id)]))
  {
    hide StreamOf, Closes, Core, Next, AllPendingOk, HistoryOk, KnownIntent;
    CloseFrame(setup, s, a, id);
    CoreParts(setup, s, a);
  }

  lemma PendingAfterClose(setup: Setup, s: Sys, a: Aux, id: IntentId)
    requires Closes(setup, s, a, id)
    ensures var s' := Next(setup, s, OperatorNoFill(id)); AllPendingOk(setup, s', a.(base := a.base[id := Closed(s, id)]))
  {
    hide StreamOf, Closes, Core, Next, HistoryOk, IntentsOk, GoodPending;
    CloseFrame(setup, s, a, id);
    CoreParts(setup, s, a);
    NotPending(setup, s, a, id);
    var s', a' := Next(setup, s, OperatorNoFill(id)), a.(base := a.base[id := Closed(s, id)]);
    forall p | p in s.venue.pending
      ensures PendingOk(setup, s', a', p)
    {
      assert PendingOk(setup, s, a, p);
    }
  }

  lemma NotPending(setup: Setup, s: Sys, a: Aux, id: IntentId)
    requires Closes(setup, s, a, id)
    ensures forall p :: p in s.venue.pending ==> p.intent.intentId != id
  {
    hide Core;
  }

  lemma HistoryAfterClose(setup: Setup, s: Sys, a: Aux, id: IntentId)
    requires Closes(setup, s, a, id)
    ensures var s' := Next(setup, s, OperatorNoFill(id)); HistoryOk(s', a.(base := a.base[id := Closed(s, id)]))
  {
    hide StreamOf, Closes, Core, Next, AllPendingOk, IntentsOk, DistinctFills;
    CloseFrame(setup, s, a, id);
    CoreParts(setup, s, a);
    var a' := a.(base := a.base[id := Closed(s, id)]);
    forall q | 0 <= q < |s.venue.history|
      ensures EntryOk(a', s.venue.history[q])
    {
      assert EntryOk(a, s.venue.history[q]);
    }
  }

  lemma CloseFrame(setup: Setup, s: Sys, a: Aux, id: IntentId)
    requires Closes(setup, s, a, id)
    ensures var s' := Next(setup, s, OperatorNoFill(id));
      && s'.venue == s.venue && s'.clock == s.clock && s'.desk.ledger == s.desk.ledger
      && s'.desk.engine.intents == s.desk.engine.intents && s'.desk.engine.fillIds == s.desk.engine.fillIds
      && s'.desk.engine.violations == s.desk.engine.violations
      && s'.desk.engine.orders == s.desk.engine.orders[id := Closed(s, id)]
    ensures id in a.base && id in s.desk.engine.orders && a.base[id].intent.intentId == id && s.desk.engine.orders[id] == a.base[id]
    ensures Core(setup, s, a)
  {
    hide Core, NeverReached;
    ClosedFacts(setup, s, a, id);
  }

  lemma OneStreamAfterClose(setup: Setup, s: Sys, a: Aux, id: IntentId, k: IntentId)
    requires Closes(setup, s, a, id) && k in a.base
    ensures var s', a' := Next(setup, s, OperatorNoFill(id)), a.(base := a.base[id := Closed(s, id)]);
      k in a'.base && k in a'.marks && k in s'.desk.engine.orders
      && VenueStep.StreamOneOk(setup, s', a', k, StreamOf(s'.venue.history, k))
  {
    hide StreamOf, Closes, StreamsOk, Core, Delivery.AfterAll, Delivery.Seen, Delivery.Sound, StreamOk;
    CloseFrame(setup, s, a, id);
    ClosedFacts(setup, s, a, id);
    CoreStreams(setup, s, a);
    KnownOrder(setup, s, a, k);
    NothingYet(setup, Closed(s, id), s.desk.engine.fillIds);
  }

  lemma NothingYet(setup: Setup, rec: OrderRecord, fillIds: set<FillId>)
    requires rec.filledShares == 0.0 && rec.filledNotional == 0.0
    ensures Delivery.Sound(rec, []) && StreamOk(setup, rec, []) && Delivery.AfterAll(rec, [], 0) == rec && Delivery.Seen(fillIds, [], 0)
  {
  }

  lemma StreamsAfterClose(setup: Setup, s: Sys, a: Aux, id: IntentId, s': Sys, a': Aux)
    requires Closes(setup, s, a, id) && s' == Next(setup, s, OperatorNoFill(id)) && a' == a.(base := a.base[id := Closed(s, id)])
    requires HistoryOk(s', a')
    ensures StreamsOk(setup, s', a')
  {
    hide StreamOf, Closes, Core, HistoryOk, Delivery.DisjointStreams, VenueStep.StreamOneOk, Closed, Next;
    CloseFrame(setup, s, a, id);
    VenueStep.StreamsDisjoint(s', a');
    SubmitStep.KeysAgree(setup, s, a);
    assert s'.desk.engine.orders.Keys == s.desk.engine.orders.Keys;
    assert a'.base.Keys == a.base.Keys && a'.marks == a.marks;
    forall k | k in a'.base
      ensures k in a'.marks && k in s'.desk.engine.orders && VenueStep.StreamOneOk(setup, s', a', k, StreamOf(s'.venue.history, k))
    {
      OneStreamAfterClose(setup, s, a, id, k);
    }
    VenueStep.AssembleStreams(setup, s', a');
  }

  lemma CashAfterClose(setup: Setup, s: Sys, a: Aux, id: IntentId)
    requires Closes(setup, s, a, id)
    requires var s', a' := Next(setup, s, OperatorNoFill(id)), a.(base := a.base[id := Closed(s, id)]);
      StreamsOk(setup, s', a') && IntentsOk(setup, s', a')
    ensures var s' := Next(setup, s, OperatorNoFill(id)); CashCovers(setup, s', a.(base := a.base[id := Closed(s, id)]))
  {
    var s', a' := Next(setup, s, OperatorNoFill(id)), a.(base := a.base[id := Closed(s, id)]);
    CloseFrame(setup, s, a, id);
    CloseCash(setup, s, a, id, s', a');
  }

  lemma CloseCash(setup: Setup, s: Sys, a: Aux, id: IntentId, s': Sys, a': Aux)
    requires setup.Valid() && Core(setup, s, a) && StreamsOk(setup, s', a') && IntentsOk(setup, s', a') && id in a.base
    requires id in s.desk.engine.orders && a' == a.(base := a.base[id := Closed(s, id)])
    requires s'.venue == s.venue && s'.desk.ledger == s.desk.ledger && s'.desk.engine.intents == s.desk.engine.intents
    requires s'.desk.engine.orders == s.desk.engine.orders[id := Closed(s, id)]
    ensures CashCovers(setup, s', a')
  {
    hide StreamOf, PledgeTotal, Undelivered, Pledges, StreamsOk, Outlay, HistoryOk, AllPendingOk, Coupled, SharesCover, ReserveOf, LedgerOk,
      KnownIntent, OneOpenPerToken;
    PledgesOk(setup, s, a);
    PledgesOk(setup, s', a');
    PledgeIs(setup, s', a', id);
    forall k | k in s.desk.engine.intents && k != id
      ensures k in Pledges(setup, s, a) && k in Pledges(setup, s', a') && Pledges(setup, s, a)[k] == Pledges(setup, s', a')[k]
    {
      PledgeIs(setup, s, a, k);
      PledgeIs(setup, s', a', k);
    }
    TotalChange(s.desk.engine.intents, Pledges(setup, s, a), Pledges(setup, s', a'), id);
  }

  lemma OpensAfterClose(setup: Setup, s: Sys, a: Aux, id: IntentId)
    requires Closes(setup, s, a, id)
    ensures var s' := Next(setup, s, OperatorNoFill(id)); OneOpenPerToken(s') && SharesCover(s', a.(base := a.base[id := Closed(s, id)]))
  {
    hide StreamOf, Closes, Core, Next, HistoryOk, AllPendingOk, IntentsOk, Sum, Accounting.SharesOf;
    CloseFrame(setup, s, a, id);
    CoreParts(setup, s, a);
    CoreShares(setup, s, a);
  }

  lemma CoreShares(setup: Setup, s: Sys, a: Aux)
    requires Core(setup, s, a)
    ensures SharesCover(s, a)
  {
    hide SharesCover;
  }

  /** The operator's verdict keeps the invariant. */
  lemma CloseKeepsCore(setup: Setup, s: Sys, a: Aux, id: IntentId)
    requires Closes(setup, s, a, id)
    ensures Core(setup, Next(setup, s, OperatorNoFill(id)), a.(base := a.base[id := Closed(s, id)]))
  {
    var s' := Next(setup, s, OperatorNoFill(id));
    hide IntentsOk, AllPendingOk, HistoryOk, StreamsOk, Coupled, CashCovers, SharesCover, OneOpenPerToken, LedgerOk;
    IntentsAfterClose(setup, s, a, id);
    PendingAfterClose(setup, s, a, id);
    HistoryAfterClose(setup, s, a, id);
    StreamsAfterClose(setup, s, a, id, s', a.(base := a.base[id := Closed(s, id)]));
    CashAfterClose(setup, s, a, id);
    OpensAfterClose(setup, s, a, id);
    LedgerSame(setup, s, s');
  }
}
