/** A submission, however its reply fares, keeps the order path's invariant. */
module SubmitStep {
  import opened Decimals
  import opened Domain
  import opened PaperVenue
  import opened MatchBlocks
  import opened Histories
  import opened Sums
  import opened OrderPath
  import opened DeliverStep
  import Execution
  import Accounting
  import Delivery
  import LedgerFacts
  import VenueStep

  /** What a submission that gets past the engine's refusals does. `reached` says whether the
      venue has a new pending order for it. */
  ghost predicate Submits(setup: Setup, s: Sys, a: Aux, rec: OrderRecord, reached: Option<Pending>, s': Sys, a': Aux) {
    var id := rec.intent.intentId;
    && setup.Valid() && Core(setup, s, a)
    && id !in s.desk.engine.orders && KnownIntent(setup, rec.intent) && rec.intent.createdMs == s.clock
    && !Execution.InFlight(s.desk.engine, rec.intent.tokenId) && Covered(setup, s, a, rec.intent)
    && rec.filledShares == 0.0 && rec.filledNotional == 0.0
    && (rec.status.IsTerminal() ==> reached.None?)
    && (rec.exchangeOrderId.Some? ==> reached.Some? && reached.value.orderId == rec.exchangeOrderId.value)
    && (reached.Some? ==> NewPending(setup, s, rec, reached.value))
    && s' == s.(venue := s'.venue, desk := s.desk.(engine := s'.desk.engine))
    && s'.venue == s.venue.(submitted := s'.venue.submitted, pending := s.venue.pending + (if reached.Some? then [reached.value] else []))
    && s.venue.submitted <= s'.venue.submitted
    && (reached.Some? ==> reached.value.orderId == s'.venue.submitted)
    && s'.desk.engine.orders == s.desk.engine.orders[id := rec]
    && s'.desk.engine.intents == s.desk.engine.intents + [id]
    && s'.desk.engine.violations == s.desk.engine.violations && s'.desk.engine.fillIds == s.desk.engine.fillIds
    && a' == Aux(a.base[id := rec], a.marks[id := 0],
                 if reached.Some? then a.owner[reached.value.orderId := id] else a.owner)
  }

  ghost predicate NewPending(setup: Setup, s: Sys, rec: OrderRecord, p: Pending) {
    && GoodPending(setup.cfg, p) && p.intent == rec.intent && s.venue.submitted < p.orderId
    && p.intent.createdMs <= p.dueMs && p.intent.conditionId in setup.markets && p.feeRate == setup.markets[p.intent.conditionId].feeRate
    && (p.intent.side.Sell? ==> p.intent.quantity <= s.venue.Held(p.intent.tokenId))
  }

  lemma NewIsUnheardOf(setup: Setup, s: Sys, a: Aux, id: IntentId)
    requires Core(setup, s, a) && id !in s.desk.engine.orders
    ensures id !in a.base && id !in a.marks && StreamOf(s.venue.history, id) == []
    ensures forall q :: 0 <= q < |s.venue.history| ==> s.venue.history[q].event.IntentId() != Some(id)
    ensures forall p :: p in s.venue.pending ==> p.intent.intentId != id
    ensures id !in s.desk.engine.intents
  {
    hide StreamOf, Coupled, CashCovers, SharesCover, Delivery.SoundStreams;
    forall q | 0 <= q < |s.venue.history|
      ensures s.venue.history[q].event.IntentId() != Some(id)
    {
      assert EntryOk(a, s.venue.history[q]);
    }
    StreamIsEmpty(s.venue.history, id);
    forall p | p in s.venue.pending
      ensures p.intent.intentId != id
    {
      assert PendingOk(setup, s, a, p);
    }
  }

  lemma NewOrderIdUnknown(setup: Setup, s: Sys, a: Aux, x: OrderId)
    requires Core(setup, s, a) && s.venue.submitted < x
    ensures x !in a.owner
    ensures forall p :: p in s.venue.pending ==> p.orderId != x
  {
    hide StreamOf, Coupled, CashCovers, SharesCover, StreamsOk;
    forall p | p in s.venue.pending
      ensures p.orderId != x
    {
      assert PendingOk(setup, s, a, p);
    }
  }

  lemma IntentsAfterSubmit(setup: Setup, s: Sys, a: Aux, rec: OrderRecord, reached: Option<Pending>, s': Sys, a': Aux)
    requires Submits(setup, s, a, rec, reached, s', a')
    ensures IntentsOk(setup, s', a')
  {
    hide StreamOf, Coupled, CashCovers, SharesCover, StreamsOk, AllPendingOk, HistoryOk, Covered;
    NewIsUnheardOf(setup, s, a, rec.intent.intentId);
  }

  lemma PendingAfterSubmit(setup: Setup, s: Sys, a: Aux, rec: OrderRecord, reached: Option<Pending>, s': Sys, a': Aux)
    requires Submits(setup, s, a, rec, reached, s', a')
    ensures AllPendingOk(setup, s', a')
  {
    hide StreamOf, Coupled, CashCovers, SharesCover, StreamsOk, HistoryOk, Covered, IntentsOk;
    NewIsUnheardOf(setup, s, a, rec.intent.intentId);
    if reached.Some? {
      NewOrderIdUnknown(setup, s, a, reached.value.orderId);
    }
    forall p | p in s'.venue.pending
      ensures PendingOk(setup, s', a', p)
    {
      if p in s.venue.pending {
        assert PendingOk(setup, s, a, p);
      }
    }
    forall i | 0 <= i < |s.venue.pending|
      ensures s.venue.pending[i] in s.venue.pending
    {
    }
  }

  lemma HistoryAfterSubmit(setup: Setup, s: Sys, a: Aux, rec: OrderRecord, reached: Option<Pending>, s': Sys, a': Aux)
    requires Submits(setup, s, a, rec, reached, s', a')
    ensures HistoryOk(s', a')
  {
    hide StreamOf, Coupled, CashCovers, SharesCover, StreamsOk, AllPendingOk, Covered, IntentsOk;
    NewIsUnheardOf(setup, s, a, rec.intent.intentId);
    if reached.Some? {
      NewOrderIdUnknown(setup, s, a, reached.value.orderId);
    }
    forall q | 0 <= q < |s.venue.history|
      ensures EntryOk(a', s.venue.history[q])
    {
      assert EntryOk(a, s.venue.history[q]);
    }
  }

  lemma SubmitFrame(setup: Setup, s: Sys, a: Aux, rec: OrderRecord, reached: Option<Pending>, s': Sys, a': Aux)
    requires Submits(setup, s, a, rec, reached, s', a')
    ensures s'.venue.history == s.venue.history && s'.clock == s.clock && s'.books == s.books && s'.desk.ledger == s.desk.ledger
    ensures a'.base == a.base[rec.intent.intentId := rec] && a'.marks == a.marks[rec.intent.intentId := 0]
    ensures s'.desk.engine.orders == s.desk.engine.orders[rec.intent.intentId := rec]
    ensures s'.desk.engine.fillIds == s.desk.engine.fillIds && s'.desk.engine.violations == s.desk.engine.violations
    ensures Core(setup, s, a) && rec.intent.intentId !in s.desk.engine.orders
    ensures rec.filledShares == 0.0 && rec.filledNotional == 0.0
  {
    hide Core, NewPending, Covered, KnownIntent;
  }

  lemma OneStreamAfterSubmit(setup: Setup, s: Sys, a: Aux, rec: OrderRecord, reached: Option<Pending>, s': Sys, a': Aux, k: IntentId)
    requires Submits(setup, s, a, rec, reached, s', a') && k in a'.base
    ensures k in a'.marks && k in s'.desk.engine.orders
    ensures VenueStep.StreamOneOk(setup, s', a', k, StreamOf(s'.venue.history, k))
  {
    hide StreamOf, Submits, Coupled, CashCovers, SharesCover, AllPendingOk, HistoryOk, IntentsOk, ReserveOf, StreamsOk;
    SubmitFrame(setup, s, a, rec, reached, s', a');
    NewIsUnheardOf(setup, s, a, rec.intent.intentId);
    if k != rec.intent.intentId {
      KnownOrder(setup, s, a, k);
    }
  }

  lemma StreamsAfterSubmit(setup: Setup, s: Sys, a: Aux, rec: OrderRecord, reached: Option<Pending>, s': Sys, a': Aux)
    requires Submits(setup, s, a, rec, reached, s', a') && HistoryOk(s', a')
    ensures StreamsOk(setup, s', a')
  {
    hide StreamOf, Submits, Core, HistoryOk, Delivery.DisjointStreams, VenueStep.StreamOneOk;
    SubmitFrame(setup, s, a, rec, reached, s', a');
    VenueStep.StreamsDisjoint(s', a');
    KeysAgree(setup, s, a);
    forall k | k in a'.base
      ensures k in a'.marks && k in s'.desk.engine.orders && VenueStep.StreamOneOk(setup, s', a', k, StreamOf(s'.venue.history, k))
    {
      OneStreamAfterSubmit(setup, s, a, rec, reached, s', a', k);
    }
    VenueStep.AssembleStreams(setup, s', a');
  }

  lemma KeysAgree(setup: Setup, s: Sys, a: Aux)
    requires Core(setup, s, a)
    ensures s.desk.engine.orders.Keys == a.base.Keys == a.marks.Keys && s.desk.engine.violations == []
  {
    hide StreamOf, Coupled, CashCovers, SharesCover, AllPendingOk, Delivery.SoundStreams;
  }

  /** Nothing is on its way on a token with no open order. */
  lemma NothingOnTheWay(setup: Setup, s: Sys, a: Aux, token: TokenId)
    requires Core(setup, s, a) && !Execution.InFlight(s.desk.engine, token)
    ensures s.venue.Held(token) == Accounting.SharesOf(s.desk.ledger.positions, token)
  {
    hide StreamOf, Undelivered, CashCovers, SharesCover, AllPendingOk;
    forall q | 0 <= q < |s.venue.history| && s.venue.history[q].event.FillEvent?
               && s.venue.history[q].event.fill.fillId !in s.desk.engine.fillIds
      ensures SharesIn(token)(s.venue.history[q].event.fill) == 0.0
    {
      DeliveredIfDone(setup, s, a, q);
      var id := s.venue.history[q].event.IntentId().value;
      KnownOrder(setup, s, a, id);
      OpenOrTerminal(s.desk.engine.orders[id].status);
    }
    NothingUndelivered(s.venue.history, s.desk.engine.fillIds, SharesIn(token));
  }

  /** A fill not yet delivered belongs to an order that is still open. */
  lemma DeliveredIfDone(setup: Setup, s: Sys, a: Aux, q: nat)
    requires StreamsOk(setup, s, a) && HistoryOk(s, a) && q < |s.venue.history| && s.venue.history[q].event.FillEvent?
    requires s.venue.history[q].event.fill.fillId !in s.desk.engine.fillIds
    ensures EntryOk(a, s.venue.history[q])
    ensures var id := s.venue.history[q].event.IntentId().value;
      id in s.desk.engine.orders && !s.desk.engine.orders[id].status.IsTerminal()
  {
    hide StreamOf;
    assert EntryOk(a, s.venue.history[q]);
    var id := s.venue.history[q].event.IntentId().value;
    KnownOrder(setup, s, a, id);
    DoneOrder(setup, s, a, id);
    EntryInStream(s.venue.history, q, id);
  }

  lemma CashAfterSubmit(setup: Setup, s: Sys, a: Aux, rec: OrderRecord, reached: Option<Pending>, s': Sys, a': Aux)
    requires Submits(setup, s, a, rec, reached, s', a') && StreamsOk(setup, s', a') && IntentsOk(setup, s', a')
    ensures CashCovers(setup, s', a')
  {
    hide StreamOf, PledgeTotal, Undelivered, Pledges, StreamsOk, Outlay, HistoryOk, AllPendingOk, Coupled, SharesCover, ReserveOf, NewPending;
    var id := rec.intent.intentId;
    NewIsUnheardOf(setup, s, a, id);
    PledgesOk(setup, s, a);
    PledgesOk(setup, s', a');
    PledgeIs(setup, s', a', id);
    assert StreamOf(s.venue.history, id)[..0] == [];
    assert Sum(Outlay, []) == 0.0;
    ReserveNonNegative(setup, rec.intent);
    forall k | k in s.desk.engine.intents
      ensures k in Pledges(setup, s, a) && k in Pledges(setup, s', a') && Pledges(setup, s, a)[k] == Pledges(setup, s', a')[k]
    {
      PledgeIs(setup, s, a, k);
      PledgeIs(setup, s', a', k);
    }
    TotalAgree(s.desk.engine.intents, Pledges(setup, s, a), Pledges(setup, s', a'));
    TotalAppend(s.desk.engine.intents, Pledges(setup, s', a'), id);
  }

  lemma SharesAfterSubmit(setup: Setup, s: Sys, a: Aux, rec: OrderRecord, reached: Option<Pending>, s': Sys, a': Aux)
    requires Submits(setup, s, a, rec, reached, s', a')
    ensures SharesCover(s', a')
  {
    hide StreamOf, PledgeTotal, Undelivered, Pledges, Outlay, AllPendingOk, Coupled, ReserveOf, Sum, Accounting.SharesOf, HistoryOk, StreamsOk,
      CashCovers, Covered;
    NewIsUnheardOf(setup, s, a, rec.intent.intentId);
    NothingOnTheWay(setup, s, a, rec.intent.tokenId);
    LedgerFacts.SharesNonNegative(s.desk.ledger, rec.intent.tokenId);
    assert Sum(SoldIn, []) == 0.0 by { NoEvents(); }
    assert StreamOf(s.venue.history, rec.intent.intentId)[0..] == [];
  }

  lemma NoEvents()
    ensures Sum(SoldIn, []) == 0.0
  {
  }

  lemma OpensAfterSubmit(setup: Setup, s: Sys, a: Aux, rec: OrderRecord, reached: Option<Pending>, s': Sys, a': Aux)
    requires Submits(setup, s, a, rec, reached, s', a')
    ensures OneOpenPerToken(s')
  {
    hide StreamOf, PledgeTotal, Undelivered, Pledges, AllPendingOk, Coupled, Accounting.SharesOf, HistoryOk, StreamsOk, CashCovers, Covered, SharesCover;
  }

  lemma CoupledAfterSubmit(setup: Setup, s: Sys, a: Aux, rec: OrderRecord, reached: Option<Pending>, s': Sys, a': Aux)
    requires Submits(setup, s, a, rec, reached, s', a')
    ensures Coupled(s') && LedgerOk(setup, s') && BooksWithin(s'.books, setup.maxLevels)
  {
    hide StreamOf, PledgeTotal, Undelivered, Pledges, AllPendingOk, Accounting.SharesOf, HistoryOk, StreamsOk, CashCovers, Covered, SharesCover;
    forall t: TokenId
      ensures s'.venue.Held(t) == s.venue.Held(t)
    {
    }
  }

  /** A submission keeps the invariant. */
  lemma SubmitKeepsCore(setup: Setup, s: Sys, a: Aux, rec: OrderRecord, reached: Option<Pending>, s': Sys, a': Aux)
    requires Submits(setup, s, a, rec, reached, s', a')
    ensures Core(setup, s', a')
  {
    hide Submits, IntentsOk, AllPendingOk, HistoryOk, StreamsOk, Coupled, CashCovers, SharesCover, OneOpenPerToken, LedgerOk, BooksWithin;
    IntentsAfterSubmit(setup, s, a, rec, reached, s', a');
    PendingAfterSubmit(setup, s, a, rec, reached, s', a');
    HistoryAfterSubmit(setup, s, a, rec, reached, s', a');
    StreamsAfterSubmit(setup, s, a, rec, reached, s', a');
    CoupledAfterSubmit(setup, s, a, rec, reached, s', a');
    CashAfterSubmit(setup, s, a, rec, reached, s', a');
    SharesAfterSubmit(setup, s, a, rec, reached, s', a');
    OpensAfterSubmit(setup, s, a, rec, reached, s', a');
  }

  // ---------------------------------------------------------------- the step itself

  /** The pending order a submission leaves at the venue, if any. */
  function Reached(setup: Setup, s: Sys, step: Step): Option<Pending>
    requires step.SubmitOrder? && step.condition in setup.markets && setup.markets[step.condition].Valid()
    requires PreparedBy(setup, s, step).Built?
  {
    var intent := PreparedBy(setup, s, step).intent;
    var (v, ack) := Submit(setup.cfg, s.venue, intent, setup.markets[step.condition], s.clock, step.jitter, step.chaos);
    if step.link.LostBefore? || !ack.accepted then None else Some(v.pending[|v.pending| - 1])
  }

  function AuxAfterSubmit(setup: Setup, s: Sys, a: Aux, step: Step): Aux
    requires step.SubmitOrder? && step.condition in setup.markets && setup.markets[step.condition].Valid()
  {
    if PreparedBy(setup, s, step).Refused? then a
    else
      var reached := Reached(setup, s, step);
      var s' := AfterSubmit(setup, s, step);
      if step.id !in s'.desk.engine.orders then a
      else
        Aux(a.base[step.id := s'.desk.engine.orders[step.id]], a.marks[step.id := 0],
            if reached.Some? then a.owner[reached.value.orderId := step.id] else a.owner)
  }

  lemma PreparedIntent(setup: Setup, s: Sys, step: Step)
    requires setup.Valid() && step.SubmitOrder? && step.condition in setup.markets && PreparedBy(setup, s, step).Built?
    ensures var i := PreparedBy(setup, s, step).intent;
      i.Valid() && i.intentId == step.id && KnownIntent(setup, i) && i.createdMs == s.clock && i.tokenId == step.decision.tokenId
      && i.conditionId == step.condition
  {
    hide FloorTo, CeilTo;
  }

  lemma VenueAfterSubmit(setup: Setup, s: Sys, intent: OrderIntent, rec: OrderRecord, jitter: nat, chaos: bool)
    requires setup.Valid() && KnownIntent(setup, intent) && intent.createdMs == s.clock && rec.intent == intent
    ensures var (v, ack) := Submit(setup.cfg, s.venue, intent, setup.markets[intent.conditionId], s.clock, jitter, chaos);
      && v.submitted == s.venue.submitted + 1
      && (ack.accepted ==> |v.pending| == |s.venue.pending| + 1 && v.pending == s.venue.pending + [v.pending[|v.pending| - 1]]
                           && v.pending[|v.pending| - 1].orderId == v.submitted && ack.exchangeOrderId == Some(v.submitted)
                           && ack.status == Live && NewPending(setup, s, rec, v.pending[|v.pending| - 1]))
      && (!ack.accepted ==> v.pending == s.venue.pending)
      && v == s.venue.(submitted := v.submitted, pending := v.pending)
  {
    hide LimitFee, OnTick;
  }

  lemma EngineAfterSubmit(e: Execution.Engine, intent: OrderIntent, reply: Execution.Reply)
    ensures var e' := Execution.Conclude(Execution.MarkSubmitting(Execution.InsertIntent(e, intent), intent), intent, reply);
      && e'.orders == e.orders[intent.intentId := Execution.Answered(intent, reply)]
      && e'.intents == e.intents + [intent.intentId] && e'.violations == e.violations && e'.fillIds == e.fillIds
  {
  }

  lemma StepSubmits(setup: Setup, s: Sys, a: Aux, step: Step)
    requires setup.Valid() && Core(setup, s, a) && step.SubmitOrder? && Enabled(setup, s, a, step) && PreparedBy(setup, s, step).Built?
    ensures var s' := AfterSubmit(setup, s, step);
      && step.id in s'.desk.engine.orders
      && Submits(setup, s, a, s'.desk.engine.orders[step.id], Reached(setup, s, step), s', AuxAfterSubmit(setup, s, a, step))
  {
    hide Core, Submit, Covered, KnownIntent, NewPending, Execution.InFlight, Execution.Prepare, PreparedBy, Execution.MarkSubmitting,
      Execution.InsertIntent, Execution.Conclude;
    var i := PreparedBy(setup, s, step).intent;
    var s' := AfterSubmit(setup, s, step);
    PreparedIntent(setup, s, step);
    var (v, ack) := Submit(setup.cfg, s.venue, i, setup.markets[step.condition], s.clock, step.jitter, step.chaos);
    var reply := if step.link.Delivered? then Execution.Acked(ack) else Execution.Lost(s.clock);
    var rec := Execution.Answered(i, reply);
    EngineAfterSubmit(s.desk.engine, i, reply);
    VenueAfterSubmit(setup, s, i, rec, step.jitter, step.chaos);
    assert s'.desk.engine.orders[step.id] == rec;
    assert s.venue.pending + [] == s.venue.pending;
  }

  lemma SubmitStepKeepsCore(setup: Setup, s: Sys, a: Aux, step: Step)
    requires setup.Valid() && Core(setup, s, a) && step.SubmitOrder? && Enabled(setup, s, a, step)
    ensures Core(setup, Next(setup, s, step), AuxAfterSubmit(setup, s, a, step))
  {
    hide Core, Covered, KnownIntent, Execution.InFlight, Execution.Prepare, Submits, Submit;
    if PreparedBy(setup, s, step).Built? {
      StepSubmits(setup, s, a, step);
      var s' := AfterSubmit(setup, s, step);
      SubmitKeepsCore(setup, s, a, s'.desk.engine.orders[step.id], Reached(setup, s, step), s', AuxAfterSubmit(setup, s, a, step));
    }
  }
}
