/** The venue finishing one order, by a match or a cancel, keeps the order path's invariant. */
module VenueStep {
  import opened Domain
  import opened Matching
  import opened PaperVenue
  import opened MatchBlocks
  import opened Histories
  import opened Sums
  import opened OrderPath
  import opened DeliverStep
  import Accounting
  import Delivery
  import LazyMatching
  import LedgerFacts

  /** What an order's final block of events looks like. */
  ghost predicate GoodBlock(setup: Setup, p: Pending, rec: OrderRecord, block: seq<Event>) {
    && block != [] && block[|block| - 1].UpdateEvent?
    && Delivery.Sound(rec, block)
    && Sum(Outlay, block) <= ReserveOf(setup, p.intent)
    && Sum(SoldIn, block) <= (if p.intent.side.Sell? then p.intent.quantity else 0.0)
    && (p.intent.side.Buy? ==> Sum(SpentIn, block) <= p.intent.quantity)
    && forall i :: 0 <= i < |block| ==> GoodEvent(p, block[i])
  }

  ghost predicate GoodEvent(p: Pending, ev: Event) {
    && ev.IntentId() == Some(p.intent.intentId) && ev.ExchangeOrderId() == Some(p.orderId)
    && p.intent.createdMs <= ev.TsMs()
    && (ev.FillEvent? ==>
          && ev.fill.Valid() && ev.fill.tokenId == p.intent.tokenId && ev.fill.side == p.intent.side
          && ev.fill.conditionId == p.intent.conditionId && ev.fill.outcome == p.intent.outcome
          && ev.fill.fillId.orderId == p.orderId)
  }

  /** The venue has finished order `p` with `block`. */
  ghost predicate Finishes(setup: Setup, s: Sys, a: Aux, p: Pending, block: seq<Event>, w: Venue) {
    && setup.Valid() && Core(setup, s, a) && p in s.venue.pending
    && p.intent.intentId in a.base
    && GoodBlock(setup, p, a.base[p.intent.intentId], block)
    && Booked(s.venue.(pending := Without(s.venue.pending, p.orderId)), w, p.intent.tokenId, block)
  }

  lemma FinishFacts(setup: Setup, s: Sys, a: Aux, p: Pending, block: seq<Event>, w: Venue)
    requires Finishes(setup, s, a, p, block, w)
    ensures w.history == s.venue.history + LogAll(p.intent.tokenId, block)
    ensures w.pending == Without(s.venue.pending, p.orderId) && w.submitted == s.venue.submitted
    ensures PendingOk(setup, s, a, p) && StreamOf(s.venue.history, p.intent.intentId) == []
    ensures forall i :: 0 <= i < |block| ==> GoodEvent(p, block[i]) && block[i].IntentId() == Some(p.intent.intentId)
    ensures IntentsOk(setup, s, a) && AllPendingOk(setup, s, a) && HistoryOk(s, a) && StreamsOk(setup, s, a)
  {
    hide StreamOf, Delivery.Sound, HistoryOk, StreamsOk, Coupled, CashCovers, SharesCover, ReserveOf, LogAll;
    assert PendingOk(setup, s, a, p);
  }

  lemma FinishedStream(setup: Setup, s: Sys, a: Aux, p: Pending, block: seq<Event>, w: Venue, id: IntentId)
    requires Finishes(setup, s, a, p, block, w)
    ensures StreamOf(s.venue.history, p.intent.intentId) == []
    ensures StreamOf(w.history, id) == if id == p.intent.intentId then block else StreamOf(s.venue.history, id)
  {
    hide *;
    FinishFacts(setup, s, a, p, block, w);
    StreamAppend(s.venue.history, LogAll(p.intent.tokenId, block), id);
    StreamOfBlock(p.intent.tokenId, block, p.intent.intentId, id);
  }

  lemma BlockOwner(setup: Setup, p: Pending, rec: OrderRecord, block: seq<Event>)
    requires GoodBlock(setup, p, rec, block)
    ensures forall i :: 0 <= i < |block| ==> GoodEvent(p, block[i]) && block[i].IntentId() == Some(p.intent.intentId)
  {
  }

  ghost predicate Apart(pending: seq<Pending>) {
    DistinctIds(pending) && DistinctIntents(pending)
  }

  ghost predicate DistinctIntents(pending: seq<Pending>) {
    forall i, j :: 0 <= i < j < |pending| ==> pending[i].intent.intentId != pending[j].intent.intentId
  }

  lemma WithoutApart(pending: seq<Pending>, id: OrderId)
    requires Apart(pending)
    ensures Apart(Without(pending, id))
  {
    hide Without, DistinctIds, DistinctIntents;
    LazyMatching.WithoutKeepsDistinct(pending, id);
    WithoutKeepsIntents(pending, id);
  }

  lemma {:induction false} WithoutKeepsIntents(pending: seq<Pending>, id: OrderId)
    requires DistinctIntents(pending)
    ensures DistinctIntents(Without(pending, id))
  {
    if pending != [] {
      WithoutKeepsIntents(pending[1..], id);
      if pending[0].orderId != id {
        var rest := Without(pending[1..], id);
        forall j | 0 <= j < |rest|
          ensures pending[0].intent.intentId != rest[j].intent.intentId
        {
          assert rest[j] in pending[1..];
        }
      }
    }
  }

  lemma OtherPending(setup: Setup, s: Sys, a: Aux, p: Pending, q: Pending)
    requires AllPendingOk(setup, s, a) && p in s.venue.pending && q in s.venue.pending && q.orderId != p.orderId
    ensures q.intent.intentId != p.intent.intentId
  {
    hide StreamOf;
  }

  lemma OnePendingAfter(setup: Setup, s: Sys, a: Aux, p: Pending, block: seq<Event>, w: Venue, q: Pending)
    requires Finishes(setup, s, a, p, block, w) && q in s.venue.pending && q.orderId != p.orderId
    ensures PendingOk(setup, s.(venue := w), a, q)
  {
    hide StreamOf, Finishes, HistoryOk, StreamsOk, IntentsOk, GoodEvent, LogAll;
    FinishFacts(setup, s, a, p, block, w);
    IsPending(setup, s, a, p, block, w);
    assert PendingOk(setup, s, a, q);
    OtherPending(setup, s, a, p, q);
    FinishedStream(setup, s, a, p, block, w, q.intent.intentId);
  }

  lemma PendingAfter(setup: Setup, s: Sys, a: Aux, p: Pending, block: seq<Event>, w: Venue)
    requires Finishes(setup, s, a, p, block, w)
    ensures AllPendingOk(setup, s.(venue := w), a)
  {
    hide StreamOf, Finishes, HistoryOk, StreamsOk, IntentsOk, GoodEvent, LogAll, PendingOk;
    FinishFacts(setup, s, a, p, block, w);
    WithoutApart(s.venue.pending, p.orderId);
    forall q | q in w.pending
      ensures PendingOk(setup, s.(venue := w), a, q)
    {
      OnePendingAfter(setup, s, a, p, block, w, q);
    }
  }

  lemma IsPending(setup: Setup, s: Sys, a: Aux, p: Pending, block: seq<Event>, w: Venue)
    requires Finishes(setup, s, a, p, block, w)
    ensures p in s.venue.pending
  {
  }

  lemma OldFillsElsewhere(setup: Setup, s: Sys, a: Aux, p: Pending, i: nat)
    requires AllPendingOk(setup, s, a) && HistoryOk(s, a) && p in s.venue.pending
    requires i < |s.venue.history| && s.venue.history[i].event.FillEvent?
    ensures s.venue.history[i].event.fill.fillId.orderId != p.orderId
  {
    hide StreamOf;
    assert EntryOk(a, s.venue.history[i]) && PendingOk(setup, s, a, p);
    if s.venue.history[i].event.fill.fillId.orderId == p.orderId {
      EntryInStream(s.venue.history, i, p.intent.intentId);
      assert false;
    }
  }

  lemma BlockFillsDistinct(rec: OrderRecord, block: seq<Event>)
    requires Delivery.Sound(rec, block)
    ensures forall i, j :: 0 <= i < j < |block| && block[i].FillEvent? && block[j].FillEvent? ==>
      block[i].fill.fillId != block[j].fill.fillId
  {
  }

  lemma DistinctAfter(setup: Setup, s: Sys, a: Aux, p: Pending, block: seq<Event>, w: Venue)
    requires Finishes(setup, s, a, p, block, w)
    ensures DistinctFills(w.history)
  {
    hide StreamOf, Delivery.Sound, AllPendingOk, StreamsOk, Coupled, CashCovers, SharesCover;
    forall i, j | 0 <= i < j < |w.history| && w.history[i].event.FillEvent? && w.history[j].event.FillEvent?
      ensures w.history[i].event.fill.fillId != w.history[j].event.fill.fillId
    {
      PairDistinct(setup, s, a, p, block, w, i, j);
    }
  }

  lemma PairDistinct(setup: Setup, s: Sys, a: Aux, p: Pending, block: seq<Event>, w: Venue, i: nat, j: nat)
    requires Finishes(setup, s, a, p, block, w)
    requires i < j < |w.history| && w.history[i].event.FillEvent? && w.history[j].event.FillEvent?
    ensures w.history[i].event.fill.fillId != w.history[j].event.fill.fillId
  {
    hide StreamOf, Delivery.Sound, AllPendingOk, StreamsOk, Coupled, CashCovers, SharesCover;
    BlockOwner(setup, p, a.base[p.intent.intentId], block);
    BlockFillsDistinct(a.base[p.intent.intentId], block);
    var n := |s.venue.history|;
    if i < n <= j {
      assert w.history[i] == s.venue.history[i] && w.history[j].event == block[j - n];
      OldFillsElsewhere(setup, s, a, p, i);
    } else if i >= n {
      assert w.history[i].event == block[i - n] && w.history[j].event == block[j - n];
    } else {
      assert w.history[i] == s.venue.history[i] && w.history[j] == s.venue.history[j];
    }
  }

  lemma EntryAfter(setup: Setup, s: Sys, a: Aux, p: Pending, block: seq<Event>, w: Venue, q: nat)
    requires Finishes(setup, s, a, p, block, w) && q < |w.history|
    ensures EntryOk(a, w.history[q])
  {
    hide StreamOf, Finishes, IntentsOk, AllPendingOk, StreamsOk, DistinctFills;
    FinishFacts(setup, s, a, p, block, w);
    var n := |s.venue.history|;
    if q < n {
      assert w.history[q] == s.venue.history[q];
    } else {
      assert w.history[q] == Logged(p.intent.tokenId, block[q - n]);
      assert GoodEvent(p, block[q - n]);
    }
  }

  lemma HistoryAfter(setup: Setup, s: Sys, a: Aux, p: Pending, block: seq<Event>, w: Venue)
    requires Finishes(setup, s, a, p, block, w)
    ensures HistoryOk(s.(venue := w), a)
  {
    hide StreamOf, Finishes, DistinctFills, EntryOk, IntentsOk, AllPendingOk, StreamsOk, PendingOk, LogAll, GoodEvent, Without;
    DistinctAfter(setup, s, a, p, block, w);
    FinishFacts(setup, s, a, p, block, w);
    forall q | 0 <= q < |w.history|
      ensures EntryOk(a, w.history[q])
    {
      EntryAfter(setup, s, a, p, block, w, q);
    }
    forall f | f in s.desk.engine.fillIds
      ensures f.orderId in a.owner && StreamOf(w.history, a.owner[f.orderId]) != []
    {
      FinishedStream(setup, s, a, p, block, w, a.owner[f.orderId]);
    }
  }

  lemma FillsNotYetSeen(setup: Setup, s: Sys, a: Aux, p: Pending, block: seq<Event>, w: Venue)
    requires Finishes(setup, s, a, p, block, w)
    ensures forall i :: 0 <= i < |block| && block[i].FillEvent? ==> block[i].fill.fillId !in s.desk.engine.fillIds
  {
    hide StreamOf, Delivery.Sound, StreamsOk, Coupled, CashCovers, SharesCover, DistinctFills;
    BlockOwner(setup, p, a.base[p.intent.intentId], block);
    assert PendingOk(setup, s, a, p);
  }

  /** Fill ids carry their order's id, and each order has one owner. */
  lemma StreamsDisjoint(s: Sys, a: Aux)
    requires HistoryOk(s, a)
    ensures Delivery.DisjointStreams(Streams(s.venue.history, a.base))
  {
    hide StreamOf;
    var streams: Delivery.Streams := Streams(s.venue.history, a.base);
    forall x: IntentId, y: IntentId, i: int, j: int |
      (x in streams && y in streams && x != y && 0 <= i < |streams[x]| && 0 <= j < |streams[y]|
       && streams[x][i].FillEvent? && streams[y][j].FillEvent?)
      ensures streams[x][i].fill.fillId != streams[y][j].fill.fillId
    {
      StreamFromHistory(s.venue.history, x, i);
      StreamFromHistory(s.venue.history, y, j);
      var q :| 0 <= q < |s.venue.history| && s.venue.history[q].event == StreamOf(s.venue.history, x)[i] && s.venue.history[q].event.IntentId() == Some(x);
      var r :| 0 <= r < |s.venue.history| && s.venue.history[r].event == StreamOf(s.venue.history, y)[j] && s.venue.history[r].event.IntentId() == Some(y);
      assert EntryOk(a, s.venue.history[q]) && EntryOk(a, s.venue.history[r]);
    }
  }

  lemma StreamsAfter(setup: Setup, s: Sys, a: Aux, p: Pending, block: seq<Event>, w: Venue)
    requires Finishes(setup, s, a, p, block, w) && HistoryOk(s.(venue := w), a)
    ensures StreamsOk(setup, s.(venue := w), a)
  {
    hide StreamOf, Finishes, HistoryOk, IntentsOk, AllPendingOk, StreamOneOk, Delivery.DisjointStreams, Delivery.SoundStreams;
    FinishFacts(setup, s, a, p, block, w);
    StreamsDisjoint(s.(venue := w), a);
    forall id | id in a.base
      ensures id in a.marks && id in s.desk.engine.orders
      ensures StreamOneOk(setup, s.(venue := w), a, id, StreamOf(w.history, id))
    {
      OneStreamAfter(setup, s, a, p, block, w, id);
      SameOrder(setup, s, s.(venue := w), a, id, StreamOf(w.history, id));
    }
    AssembleStreams(setup, s.(venue := w), a);
  }

  lemma SameOrder(setup: Setup, s: Sys, s': Sys, a: Aux, id: IntentId, stream: seq<Event>)
    requires id in a.base && id in a.marks && id in s.desk.engine.orders && s'.desk == s.desk
    ensures StreamOneOk(setup, s, a, id, stream) ==> StreamOneOk(setup, s', a, id, stream)
  {
    hide Delivery.Sound, StreamOk, Delivery.AfterAll, Delivery.Seen;
  }

  /** The streams are in order when each one is and they share no fill. */
  lemma AssembleStreams(setup: Setup, s: Sys, a: Aux)
    requires s.desk.engine.orders.Keys == a.base.Keys == a.marks.Keys && s.desk.engine.violations == []
    requires Delivery.DisjointStreams(Streams(s.venue.history, a.base))
    requires forall id :: id in a.base ==> StreamOneOk(setup, s, a, id, StreamOf(s.venue.history, id))
    ensures StreamsOk(setup, s, a)
  {
    hide StreamOf, Delivery.DisjointStreams, Delivery.Sound, StreamOk, Delivery.AfterAll, Delivery.Seen;
    var streams: Delivery.Streams := Streams(s.venue.history, a.base);
    forall id | id in a.base
      ensures id in streams && streams[id] == StreamOf(s.venue.history, id) && StreamOneOk(setup, s, a, id, streams[id])
    {
    }
  }

  ghost predicate StreamOneOk(setup: Setup, s: Sys, a: Aux, id: IntentId, stream: seq<Event>)
    requires id in a.base && id in a.marks && id in s.desk.engine.orders
  {
    && a.base[id].intent.intentId == id && Delivery.Sound(a.base[id], stream) && StreamOk(setup, a.base[id], stream)
    && a.marks[id] <= |stream|
    && s.desk.engine.orders[id] == Delivery.AfterAll(a.base[id], stream, a.marks[id])
    && Delivery.Seen(s.desk.engine.fillIds, stream, a.marks[id])
  }

  lemma OneStreamAfter(setup: Setup, s: Sys, a: Aux, p: Pending, block: seq<Event>, w: Venue, id: IntentId)
    requires Finishes(setup, s, a, p, block, w) && id in a.base
    ensures id in a.marks && id in s.desk.engine.orders && StreamOneOk(setup, s, a, id, StreamOf(w.history, id))
  {
    hide StreamOf, Delivery.Sound, Finishes, HistoryOk, IntentsOk, AllPendingOk, StreamsOk;
    FinishFacts(setup, s, a, p, block, w);
    KnownOrder(setup, s, a, id);
    FinishedStream(setup, s, a, p, block, w, id);
    if id == p.intent.intentId {
      FillsNotYetSeen(setup, s, a, p, block, w);
      BlockStreamOk(setup, s, a, p, block, w);
    }
  }

  lemma BlockStreamOk(setup: Setup, s: Sys, a: Aux, p: Pending, block: seq<Event>, w: Venue)
    requires Finishes(setup, s, a, p, block, w)
    ensures Delivery.Sound(a.base[p.intent.intentId], block)
    ensures StreamOk(setup, a.base[p.intent.intentId], block)
  {
    hide StreamOf, Delivery.Sound, HistoryOk, StreamsOk, Coupled, CashCovers, SharesCover, ReserveOf, LogAll, Booked, GoodEvent;
    assert PendingOk(setup, s, a, p);
  }

  lemma CoupledAfter(setup: Setup, s: Sys, a: Aux, p: Pending, block: seq<Event>, w: Venue)
    requires Finishes(setup, s, a, p, block, w)
    ensures Coupled(s.(venue := w))
  {
    hide StreamOf, Delivery.Sound, StreamsOk, CashCovers, SharesCover, HistoryOk, AllPendingOk, Undelivered, CashDelta, ShareDelta;
    FillsNotYetSeen(setup, s, a, p, block, w);
    BlockOwner(setup, p, a.base[p.intent.intentId], block);
    var token, history, seen := p.intent.tokenId, s.venue.history, s.desk.engine.fillIds;
    UndeliveredAppend(history, token, block, seen, CashDelta);
    BlockWorth(block, token, token);
    forall t: TokenId
      ensures w.Held(t) == Accounting.SharesOf(s.desk.ledger.positions, t) + Undelivered(w.history, seen, SharesIn(t))
    {
      UndeliveredAppend(history, token, block, seen, SharesIn(t));
      BlockWorth(block, token, t);
      assert s.venue.(pending := Without(s.venue.pending, p.orderId)).Held(t) == s.venue.Held(t);
    }
  }

  lemma PledgesAfter(setup: Setup, s: Sys, a: Aux, p: Pending, block: seq<Event>, w: Venue)
    requires Finishes(setup, s, a, p, block, w) && StreamsOk(setup, s.(venue := w), a)
    ensures CashCovers(setup, s.(venue := w), a)
  {
    hide StreamOf, PledgeTotal, Undelivered, Pledges, StreamsOk, Outlay, GoodBlock, HistoryOk, AllPendingOk, Coupled, SharesCover, ReserveOf;
    var s' := s.(venue := w);
    IntentsSame(setup, s, a, s', a);
    PledgesOk(setup, s, a);
    PledgesOk(setup, s', a);
    forall k | k in s.desk.engine.intents
      ensures k in Pledges(setup, s, a) && k in Pledges(setup, s', a) && Pledges(setup, s, a)[k] == Pledges(setup, s', a)[k]
    {
      PledgeIs(setup, s, a, k);
      PledgeIs(setup, s', a, k);
      FinishedStream(setup, s, a, p, block, w, k);
      assert StreamOf(w.history, k)[..a.marks[k]] == StreamOf(s.venue.history, k)[..a.marks[k]];
    }
    TotalAgree(s.desk.engine.intents, Pledges(setup, s, a), Pledges(setup, s', a));
  }

  lemma SharesAfter(setup: Setup, s: Sys, a: Aux, p: Pending, block: seq<Event>, w: Venue)
    requires Finishes(setup, s, a, p, block, w)
    ensures SharesCover(s.(venue := w), a)
  {
    hide StreamOf, PledgeTotal, Undelivered, Pledges, StreamsOk, Outlay, HistoryOk, Coupled, CashCovers, Accounting.SharesOf, ReserveOf, Sum;
    assert PendingOk(setup, s, a, p);
    LedgerFacts.SharesNonNegative(s.desk.ledger, p.intent.tokenId);
    forall k | k in a.base && k in a.marks && a.marks[k] <= |StreamOf(w.history, k)|
      ensures Sum(SoldIn, StreamOf(w.history, k)[a.marks[k]..]) <= Accounting.SharesOf(s.desk.ledger.positions, a.base[k].intent.tokenId)
    {
      FinishedStream(setup, s, a, p, block, w, k);
      KnownOrder(setup, s, a, k);
      if k == p.intent.intentId {
        assert block[0..] == block;
      }
    }
  }

  /** Finishing an order keeps the invariant. */
  lemma FinishKeepsCore(setup: Setup, s: Sys, a: Aux, p: Pending, block: seq<Event>, w: Venue)
    requires Finishes(setup, s, a, p, block, w)
    ensures Core(setup, s.(venue := w), a)
  {
    var s' := s.(venue := w);
    hide IntentsOk, AllPendingOk, HistoryOk, StreamsOk, Coupled, CashCovers, SharesCover, StreamOf, GoodBlock, Booked;
    IntentsSame(setup, s, a, s', a);
    PendingAfter(setup, s, a, p, block, w);
    HistoryAfter(setup, s, a, p, block, w);
    StreamsAfter(setup, s, a, p, block, w);
    CoupledAfter(setup, s, a, p, block, w);
    PledgesAfter(setup, s, a, p, block, w);
    SharesAfter(setup, s, a, p, block, w);
    LedgerSame(setup, s, s');
  }

  // ---------------------------------------------------------------- matches and cancels

  lemma {:induction false} SoldInFills(cfg: Config, p: Pending, lots: seq<Lot>, n: nat, now: int)
    requires n <= |lots|
    ensures Sum(SoldIn, FillEvents(cfg, p, lots, n, now)) == if p.intent.side.Sell? then Shares(lots[..n]) else 0.0
    decreases n
  {
    if n > 0 {
      SoldInFills(cfg, p, lots, n - 1, now);
      FillEventsStep(cfg, p, lots, n, now);
      SumLast(SoldIn, FillEvents(cfg, p, lots, n - 1, now), FillEvent(FillOf(cfg, p, lots[n - 1], n - 1, now)));
      SharesPrefix(lots, n - 1);
    }
  }

  lemma {:induction false} SpentInFills(cfg: Config, p: Pending, lots: seq<Lot>, n: nat, now: int)
    requires n <= |lots|
    ensures Sum(SpentIn, FillEvents(cfg, p, lots, n, now)) == Spent(lots[..n])
    decreases n
  {
    if n > 0 {
      SpentInFills(cfg, p, lots, n - 1, now);
      FillEventsStep(cfg, p, lots, n, now);
      SumLast(SpentIn, FillEvents(cfg, p, lots, n - 1, now), FillEvent(FillOf(cfg, p, lots[n - 1], n - 1, now)));
      SharesPrefix(lots, n - 1);
    }
  }

  lemma BlockSpent(cfg: Config, p: Pending, plan: Plan, now: int)
    requires GoodPending(cfg, p) && GoodPlan(p, plan)
    ensures p.intent.side.Buy? ==> Sum(SpentIn, BlockOf(cfg, p, plan, now)) <= p.intent.quantity
  {
    hide FillEvents;
    SpentInFills(cfg, p, plan.lots, |plan.lots|, now);
    SumLast(SpentIn, FillEvents(cfg, p, plan.lots, |plan.lots|, now), FinalUpdate(p, plan, now));
    assert plan.lots[..|plan.lots|] == plan.lots;
  }

  /** Everything an order's match emits is what the invariant asks of a final block. */
  lemma MatchBlockGood(setup: Setup, s: Sys, a: Aux, p: Pending)
    requires setup.Valid() && PendingOk(setup, s, a, p) && BooksWithin(s.books, setup.maxLevels)
    requires a.base[p.intent.intentId].filledShares == 0.0 && a.base[p.intent.intentId].filledNotional == 0.0
    ensures GoodBlock(setup, p, a.base[p.intent.intentId], Block(setup.cfg, s.venue, s.books, p, p.dueMs))
  {
    var rec := a.base[p.intent.intentId];
    var plan := PlanAt(setup.cfg, s.venue, s.books, p, p.dueMs);
    hide PlanAt, Delivery.Sound, Reserve, ReserveOf, GoodEvent, StreamOf, GoodPlan, BlockOf, Sum, Block, SpentIn, SoldIn, Outlay;
    PlanIsGood(setup.cfg, s.venue, s.books, p, p.dueMs);
    BlockIsSound(setup.cfg, p, plan, p.dueMs, rec);
    MatchWithinReserve(setup, s, a, p);
    BlockEventsGood(setup.cfg, p, plan, p.dueMs);
    BlockSold(setup.cfg, p, plan, p.dueMs);
    BlockSpent(setup.cfg, p, plan, p.dueMs);
    BlockIs(setup.cfg, s.venue, s.books, p, p.dueMs);
  }

  lemma BlockIs(cfg: Config, v: Venue, books: Books, p: Pending, now: int)
    ensures Block(cfg, v, books, p, now) == BlockOf(cfg, p, PlanAt(cfg, v, books, p, now), now)
  {
  }

  lemma MatchWithinReserve(setup: Setup, s: Sys, a: Aux, p: Pending)
    requires PendingOk(setup, s, a, p) && BooksWithin(s.books, setup.maxLevels)
    ensures Sum(Outlay, Block(setup.cfg, s.venue, s.books, p, p.dueMs)) <= ReserveOf(setup, p.intent)
  {
    hide Reserve, StreamOf, Block;
    BlockWithinReserve(setup.cfg, s.venue, s.books, p, p.dueMs, setup.maxLevels);
  }

  lemma BlockSold(cfg: Config, p: Pending, plan: Plan, now: int)
    requires GoodPending(cfg, p) && GoodPlan(p, plan)
    ensures Sum(SoldIn, BlockOf(cfg, p, plan, now)) <= (if p.intent.side.Sell? then p.intent.quantity else 0.0)
  {
    hide FillEvents;
    SoldInFills(cfg, p, plan.lots, |plan.lots|, now);
    SumLast(SoldIn, FillEvents(cfg, p, plan.lots, |plan.lots|, now), FinalUpdate(p, plan, now));
    assert plan.lots[..|plan.lots|] == plan.lots;
  }

  lemma BlockEventsGood(cfg: Config, p: Pending, plan: Plan, now: int)
    requires GoodPending(cfg, p) && GoodPlan(p, plan) && p.intent.createdMs <= now
    ensures var block := BlockOf(cfg, p, plan, now);
      && block != [] && block[|block| - 1].UpdateEvent?
      && forall i :: 0 <= i < |block| ==> GoodEvent(p, block[i])
  {
    var block := BlockOf(cfg, p, plan, now);
    forall i | 0 <= i < |block|
      ensures GoodEvent(p, block[i])
    {
      if i < |plan.lots| {
        FillIsValid(cfg, p, plan.lots[i], i, now);
        FillFields(cfg, p, plan.lots[i], i, now);
      }
    }
  }

  lemma CancelBlockGood(setup: Setup, s: Sys, a: Aux, p: Pending, now: int)
    requires setup.Valid() && PendingOk(setup, s, a, p) && KnownIntent(setup, p.intent) && p.intent.createdMs <= now
    requires a.base[p.intent.intentId].filledShares == 0.0 && a.base[p.intent.intentId].filledNotional == 0.0
    ensures GoodBlock(setup, p, a.base[p.intent.intentId], [CancelUpdate(p, now)])
  {
    hide StreamOf, ReserveOf;
    var block := [CancelUpdate(p, now)];
    ReserveNonNegative(setup, p.intent);
    assert [] + [block[0]] == block;
    SumLast(Outlay, [], block[0]);
    SumLast(SoldIn, [], block[0]);
    SumLast(SpentIn, [], block[0]);
    assert Delivery.SoundUpdate(a.base[p.intent.intentId], block, 0);
  }

  lemma PendingFacts(setup: Setup, s: Sys, a: Aux, p: Pending)
    requires Core(setup, s, a) && p in s.venue.pending
    ensures PendingOk(setup, s, a, p) && KnownIntent(setup, p.intent) && p.intent.createdMs <= s.clock
    ensures a.base[p.intent.intentId].filledShares == 0.0 && a.base[p.intent.intentId].filledNotional == 0.0
  {
    hide StreamOf, Coupled, CashCovers, SharesCover, HistoryOk, StreamOk;
    assert PendingOk(setup, s, a, p);
    KnownOrder(setup, s, a, p.intent.intentId);
  }

  /** One match keeps the invariant. */
  lemma MatchKeepsCore(setup: Setup, s: Sys, a: Aux, p: Pending)
    requires setup.Valid() && Core(setup, s, a) && p in s.venue.pending
    ensures Core(setup, s.(venue := Match(setup.cfg, s.venue.(pending := Without(s.venue.pending, p.orderId)), s.books, p, p.dueMs)), a)
  {
    var taken := s.venue.(pending := Without(s.venue.pending, p.orderId));
    hide StreamOf, Match, GoodBlock, Booked, IntentsOk, AllPendingOk, HistoryOk, StreamsOk, Coupled, CashCovers, SharesCover, LedgerOk;
    PendingFacts(setup, s, a, p);
    MatchBlockGood(setup, s, a, p);
    MatchIsBlock(setup.cfg, taken, s.books, p, p.dueMs);
    SamePlan(setup.cfg, s.venue, taken, s.books, p);
    FinishKeepsCore(setup, s, a, p, Block(setup.cfg, s.venue, s.books, p, p.dueMs), Match(setup.cfg, taken, s.books, p, p.dueMs));
  }

  lemma SamePlan(cfg: Config, v: Venue, taken: Venue, books: Books, p: Pending)
    requires taken == v.(pending := taken.pending)
    ensures Block(cfg, taken, books, p, p.dueMs) == Block(cfg, v, books, p, p.dueMs)
  {
    hide PlanOf, Available;
  }

  /** A cancel keeps the invariant. */
  lemma CancelKeepsCore(setup: Setup, s: Sys, a: Aux, id: OrderId)
    requires setup.Valid() && Core(setup, s, a)
    ensures Core(setup, s.(venue := Cancel(s.venue, id, s.clock)), a)
  {
    var found := Find(s.venue.pending, id);
    hide StreamOf, GoodBlock, Booked, IntentsOk, AllPendingOk, HistoryOk, StreamsOk, Coupled, CashCovers, SharesCover, LedgerOk, Find, Cancel;
    if found.None? {
      NoCancel(s.venue, id, s.clock);
      assert s.(venue := s.venue) == s;
    } else {
      var p := found.value;
      FoundIsPending(s.venue.pending, id);
      PendingFacts(setup, s, a, p);
      CancelBlockGood(setup, s, a, p, s.clock);
      CancelIsBlock(s.venue, id, s.clock);
      FinishKeepsCore(setup, s, a, p, [CancelUpdate(p, s.clock)], Cancel(s.venue, id, s.clock));
    }
  }

  lemma NoCancel(v: Venue, id: OrderId, now: int)
    requires Find(v.pending, id).None?
    ensures Cancel(v, id, now) == v
  {
  }

  lemma FoundIsPending(pending: seq<Pending>, id: OrderId)
    requires Find(pending, id).Some?
    ensures Find(pending, id).value in pending && Find(pending, id).value.orderId == id
  {
  }
}
