/** The orders of one decision step. The step advances the venue once and then submits, so with no
    delay an order of the step is due while the next is validated, against cash and shares from
    before its match. On the book as it stands the step ends as under a venue that matches between
    the orders exactly when each order gets the verdict that venue would give. */
module DecisionStep {
  import opened Decimals
  import opened Domain
  import opened Matching
  import opened PaperVenue
  import opened VenueRuns
  import opened LazyMatching

  datatype Order = Order(intent: OrderIntent, market: Market, jitter: nat, chaos: bool)
  {
    predicate Legal() {
      intent.Valid() && market.Valid()
    }
  }

  ghost predicate AllLegal(orders: seq<Order>) {
    forall i :: 0 <= i < |orders| ==> orders[i].Legal()
  }

  function Take(cfg: Config, v: Venue, o: Order, now: int): (Venue, OrderAck)
    requires o.Legal()
  {
    Submit(cfg, v, o.intent, o.market, now, o.jitter, o.chaos)
  }

  /** As the code submits them. */
  function TakeEach(cfg: Config, v: Venue, orders: seq<Order>, now: int): Venue
    requires AllLegal(orders)
    decreases |orders|
  {
    if orders == [] then v else TakeEach(cfg, Take(cfg, v, orders[0], now).0, orders[1..], now)
  }

  /** With everything due matched before each of them. */
  function TakeEachEagerly(cfg: Config, v: Venue, books: Books, orders: seq<Order>, now: int): Venue
    requires AllLegal(orders)
    decreases |orders|
  {
    if orders == [] then v
    else TakeEachEagerly(cfg, Take(cfg, Advance(cfg, v, books, now), orders[0], now).0, books, orders[1..], now)
  }

  ghost predicate SameVerdict(cfg: Config, v: Venue, books: Books, o: Order, now: int)
    requires o.Legal()
  {
    Take(cfg, v, o, now).1.accepted == Take(cfg, Advance(cfg, v, books, now), o, now).1.accepted
  }

  /** Each order, as it finds the venue, gets the verdict it would get once what is due is matched. */
  ghost predicate SameVerdicts(cfg: Config, v: Venue, books: Books, orders: seq<Order>, now: int)
    requires AllLegal(orders)
    decreases |orders|
  {
    orders == []
    || (SameVerdict(cfg, v, books, orders[0], now) && SameVerdicts(cfg, Take(cfg, v, orders[0], now).0, books, orders[1..], now))
  }

  // ---------------------------------------------------------------- an order behind the others

  /** The venue with `last` at the end of its queue and its submissions counted to `n`. */
  function Behind(v: Venue, last: seq<Pending>, n: nat): Venue {
    v.(pending := v.pending + last, submitted := n)
  }

  lemma TakeIs(cfg: Config, v: Venue, o: Order, now: int) returns (p: Pending)
    requires o.Legal()
    ensures p.orderId == v.submitted + 1 && p.dueMs >= now
    ensures p == Pending(o.intent, v.submitted + 1, p.dueMs, o.market.feeRate) && p.dueMs == now + cfg.latencyMs + o.jitter + cfg.takerDelayMs
    ensures Take(cfg, v, o, now).0 == Behind(v, if Take(cfg, v, o, now).1.accepted then [p] else [], v.submitted + 1)
  {
    hide Validate;
    p := Pending(o.intent, v.submitted + 1, now + cfg.latencyMs + o.jitter + cfg.takerDelayMs, o.market.feeRate);
    assert v.pending + [] == v.pending;
  }

  /** The stable order with a newcomer: what was due by `t1`, then the rest with the newcomer. */
  lemma {:induction false} SplitsWithLast(pending: seq<Pending>, last: Pending, t1: int, t2: int)
    requires t1 <= t2 && t1 <= last.dueMs
    ensures SortByDue(Due(pending + [last], t2))
      == SortByDue(Due(pending, t1)) + SortByDue(Due(NotDue(pending, t1) + [last], t2))
  {
    hide InsertByDue, SortByDue, Due, NotDue;
    if pending == [] {
      NothingYet(last, t1, t2);
    } else {
      var p, rest := pending[0], pending[1..];
      var late := NotDue(rest, t1) + [last];
      var a, b := SortByDue(Due(rest, t1)), SortByDue(Due(late, t2));
      SplitsWithLast(rest, last, t1, t2);
      EarlyAndLate(rest, last, t1, t2);
      assert pending == [p] + rest && pending + [last] == [p] + (rest + [last]);
      FirstDue(p, rest, t1);
      FirstDue(p, rest + [last], t2);
      FirstNotDue(p, rest, t1);
      SortFirst(p, Due(rest + [last], t2));
      if p.dueMs <= t1 {
        InsertEarly(p, a, b);
        SortFirst(p, Due(rest, t1));
      } else {
        assert [p] + NotDue(rest, t1) + [last] == [p] + late;
        FirstDue(p, late, t2);
        InsertLate(p, a, b);
        SortFirst(p, Due(late, t2));
      }
    }
  }

  lemma NothingYet(last: Pending, t1: int, t2: int)
    ensures SortByDue(Due([] + [last], t2)) == SortByDue(Due([], t1)) + SortByDue(Due(NotDue([], t1) + [last], t2))
  {
    assert [] + [last] == [last] && NotDue([], t1) + [last] == [last];
    assert SortByDue(Due([], t1)) == [];
  }

  lemma EarlyAndLate(rest: seq<Pending>, last: Pending, t1: int, t2: int)
    requires t1 <= last.dueMs
    ensures forall q :: q in SortByDue(Due(rest, t1)) ==> q.dueMs <= t1
    ensures forall q :: q in SortByDue(Due(NotDue(rest, t1) + [last], t2)) ==> t1 <= q.dueMs
  {
    hide SortByDue, Due, NotDue;
    SortByDueSorts(Due(rest, t1));
    SortByDueSorts(Due(NotDue(rest, t1) + [last], t2));
    NotDueElements(rest, t1);
  }

  lemma FirstNotDue(p: Pending, rest: seq<Pending>, now: int)
    ensures NotDue([p] + rest, now) == if p.dueMs <= now then NotDue(rest, now) else [p] + NotDue(rest, now)
  {
    assert ([p] + rest)[1..] == rest;
  }

  lemma SortFirst(p: Pending, rest: seq<Pending>)
    ensures SortByDue([p] + rest) == InsertByDue(p, SortByDue(rest))
  {
    hide InsertByDue;
    assert ([p] + rest)[1..] == rest;
  }

  lemma FirstDue(p: Pending, rest: seq<Pending>, now: int)
    ensures Due([p] + rest, now) == if p.dueMs <= now then [p] + Due(rest, now) else Due(rest, now)
  {
    assert ([p] + rest)[1..] == rest;
  }

  lemma {:induction false} WithoutBehind(pending: seq<Pending>, last: seq<Pending>, id: OrderId)
    requires forall p :: p in last ==> p.orderId != id
    ensures Without(pending + last, id) == Without(pending, id) + last
  {
    hide Without;
    if pending == [] {
      assert pending + last == last && [] + last == last;
      NobodyGone(last, id);
      NobodyGone([], id);
    } else {
      var p, rest := pending[0], pending[1..];
      WithoutBehind(rest, last, id);
      assert pending == [p] + rest && pending + last == [p] + (rest + last);
      WithoutFirst(p, rest, id);
      WithoutFirst(p, rest + last, id);
      assert [p] + (Without(rest, id) + last) == [p] + Without(rest, id) + last;
    }
  }

  lemma WithoutFirst(p: Pending, rest: seq<Pending>, id: OrderId)
    ensures Without([p] + rest, id) == if p.orderId == id then Without(rest, id) else [p] + Without(rest, id)
  {
    assert ([p] + rest)[1..] == rest;
  }

  lemma {:induction false} NobodyGone(pending: seq<Pending>, id: OrderId)
    requires forall p :: p in pending ==> p.orderId != id
    ensures Without(pending, id) == pending
  {
    if pending != [] {
      NobodyGone(pending[1..], id);
    }
  }

  lemma {:induction false} FillLotsBeside(cfg: Config, v: Venue, queue: seq<Pending>, k: nat, p: Pending, lots: seq<Lot>, n: nat, now: int)
    requires n <= |lots|
    ensures FillLots(cfg, v.(pending := queue, submitted := k), p, lots, n, now)
      == FillLots(cfg, v, p, lots, n, now).(pending := queue, submitted := k)
    decreases n
  {
    hide FillLot, FillLots;
    if n == 0 {
      NoLots(cfg, v, p, lots, now);
      NoLots(cfg, v.(pending := queue, submitted := k), p, lots, now);
    } else {
      FillLotsBeside(cfg, v, queue, k, p, lots, n - 1, now);
      LastLot(cfg, v, p, lots, n, now);
      LastLot(cfg, v.(pending := queue, submitted := k), p, lots, n, now);
      FillLotBeside(cfg, FillLots(cfg, v, p, lots, n - 1, now), queue, k, p, lots[n - 1], n - 1, now);
    }
  }

  lemma NoLots(cfg: Config, v: Venue, p: Pending, lots: seq<Lot>, now: int)
    ensures FillLots(cfg, v, p, lots, 0, now) == v
  {
  }

  lemma LastLot(cfg: Config, v: Venue, p: Pending, lots: seq<Lot>, n: nat, now: int)
    requires 0 < n <= |lots|
    ensures FillLots(cfg, v, p, lots, n, now) == FillLot(cfg, FillLots(cfg, v, p, lots, n - 1, now), p, lots[n - 1], n - 1, now)
  {
    hide FillLot;
  }

  lemma FillLotBeside(cfg: Config, v: Venue, queue: seq<Pending>, k: nat, p: Pending, lot: Lot, index: nat, now: int)
    ensures FillLot(cfg, v.(pending := queue, submitted := k), p, lot, index, now)
      == FillLot(cfg, v, p, lot, index, now).(pending := queue, submitted := k)
  {
    hide FillOf, Consume, CashDelta, ShareDelta;
  }

  lemma MatchBeside(cfg: Config, v: Venue, queue: seq<Pending>, k: nat, books: Books, p: Pending, now: int)
    ensures Match(cfg, v.(pending := queue, submitted := k), books, p, now) == Match(cfg, v, books, p, now).(pending := queue, submitted := k)
  {
    hide PlanOf, FillLots, Pruned, Recent, Used;
    if p.intent.tokenId in books {
      var levels := SideLevels(books[p.intent.tokenId], p.intent.side);
      var horizon := now - cfg.replenishMs;
      var plan := PlanOf(p.intent, Available(v.consumed, p.intent.tokenId, p.intent.side, levels, horizon));
      var looked := v.(consumed := Pruned(v.consumed, p.intent.tokenId, p.intent.side, levels, horizon));
      FillLotsBeside(cfg, looked, queue, k, p, plan.lots, |plan.lots|, now);
    }
  }

  /** Matching others does not see an order that waits behind them. */
  lemma {:induction false} MatchAllBehind(cfg: Config, v: Venue, books: Books, orders: seq<Pending>, last: seq<Pending>, n: nat)
    requires forall o, p :: o in orders && p in last ==> p.orderId != o.orderId
    ensures MatchAll(cfg, Behind(v, last, n), books, orders) == Behind(MatchAll(cfg, v, books, orders), last, n)
    decreases |orders|
  {
    hide MatchAll, Match;
    MatchAllStep(cfg, v, books, orders);
    MatchAllStep(cfg, Behind(v, last, n), books, orders);
    if orders != [] {
      FirstBehind(cfg, v, books, orders[0], last, n);
      MatchAllBehind(cfg, MatchFirst(cfg, v, books, orders[0]), books, orders[1..], last, n);
    }
  }

  lemma FirstBehind(cfg: Config, v: Venue, books: Books, o: Pending, last: seq<Pending>, n: nat)
    requires forall p :: p in last ==> p.orderId != o.orderId
    ensures MatchFirst(cfg, Behind(v, last, n), books, o) == Behind(MatchFirst(cfg, v, books, o), last, n)
  {
    hide Match;
    WithoutBehind(v.pending, last, o.orderId);
    var taken := v.(pending := Without(v.pending, o.orderId));
    MatchLog(cfg, taken, books, o, o.dueMs);
    MatchBeside(cfg, taken, taken.pending + last, n, books, o, o.dueMs);
  }

  /** Matching what is due before an order joins changes nothing once everything due is matched. */
  lemma JoinsLate(cfg: Config, v: Venue, books: Books, last: seq<Pending>, n: nat, now: int, later: int)
    requires IdsKnown(v) && now <= later && |last| <= 1
    requires forall p :: p in last ==> p.orderId == v.submitted + 1 && p.dueMs >= now
    ensures Advance(cfg, Behind(Advance(cfg, v, books, now), last, n), books, later) == Advance(cfg, Behind(v, last, n), books, later)
  {
    hide MatchAll, SortByDue;
    var early := SortByDue(Due(v.pending, now));
    SortByDueSorts(Due(v.pending, now));
    MatchAllBehind(cfg, v, books, early, last, n);
    AdvanceLeavesNotDue(cfg, v, books, now);
    if last == [] {
      assert v.pending + last == v.pending && NotDue(v.pending, now) + last == NotDue(v.pending, now);
      SortSplits(v.pending, now, later);
    } else {
      assert last == [last[0]] && last[0] in last;
      SplitsWithLast(v.pending, last[0], now, later);
    }
    MatchAllAppend(cfg, Behind(v, last, n), books, early, SortByDue(Due(NotDue(v.pending, now) + last, later)));
  }

  lemma SubmittedKept(cfg: Config, v: Venue, books: Books, now: int)
    ensures Advance(cfg, v, books, now).submitted == v.submitted
  {
    hide MatchAll;
    MatchAllSubmitted(cfg, v, books, SortByDue(Due(v.pending, now)));
  }

  lemma SameVerdictSameVenue(cfg: Config, v: Venue, books: Books, o: Order, now: int, later: int)
    requires IdsKnown(v) && o.Legal() && now <= later && SameVerdict(cfg, v, books, o, now)
    ensures Advance(cfg, Take(cfg, Advance(cfg, v, books, now), o, now).0, books, later)
      == Advance(cfg, Take(cfg, v, o, now).0, books, later)
  {
    hide Take, Advance, Behind;
    var w := Advance(cfg, v, books, now);
    SubmittedKept(cfg, v, books, now);
    var p := TakeIs(cfg, v, o, now);
    var q := TakeIs(cfg, w, o, now);
    JoinsLate(cfg, v, books, if Take(cfg, v, o, now).1.accepted then [p] else [], v.submitted + 1, now, later);
  }

  // ---------------------------------------------------------------- what tells two venues apart

  function Queued(pending: seq<Pending>, id: OrderId): nat {
    if pending == [] then 0 else (if pending[0].orderId == id then 1 else 0) + Queued(pending[1..], id)
  }

  function Closed(history: seq<Logged>, id: OrderId): nat {
    if history == [] then 0
    else
      var last := history[|history| - 1].event;
      Closed(history[..|history| - 1], id) + if last.UpdateEvent? && last.update.exchangeOrderId == id then 1 else 0
  }

  /** How often an order was taken: each is pending or has its one terminal update. */
  function Taken(v: Venue, id: OrderId): nat {
    Queued(v.pending, id) + Closed(v.history, id)
  }

  lemma ClosedOne(history: seq<Logged>, entry: Logged, id: OrderId)
    ensures Closed(history + [entry], id)
      == Closed(history, id) + if entry.event.UpdateEvent? && entry.event.update.exchangeOrderId == id then 1 else 0
  {
    assert (history + [entry])[..|history|] == history;
  }

  lemma {:induction false} FillsCloseNothing(cfg: Config, v: Venue, p: Pending, lots: seq<Lot>, n: nat, now: int, id: OrderId)
    requires n <= |lots|
    ensures Closed(FillLots(cfg, v, p, lots, n, now).history, id) == Closed(v.history, id)
    decreases n
  {
    hide FillOf, Closed, FillLots;
    if n == 0 {
      NoLots(cfg, v, p, lots, now);
    } else {
      FillsCloseNothing(cfg, v, p, lots, n - 1, now, id);
      var w := FillLots(cfg, v, p, lots, n - 1, now);
      LastLot(cfg, v, p, lots, n, now);
      ClosedOne(w.history, Logged(p.intent.tokenId, FillEvent(FillOf(cfg, p, lots[n - 1], n - 1, now))), id);
    }
  }

  lemma MatchCloses(cfg: Config, v: Venue, books: Books, p: Pending, now: int, id: OrderId)
    ensures Closed(Match(cfg, v, books, p, now).history, id) == Closed(v.history, id) + if p.orderId == id then 1 else 0
  {
    hide PlanOf, FillLots, Pruned, Recent, Used, Closed;
    if p.intent.tokenId in books {
      var levels := SideLevels(books[p.intent.tokenId], p.intent.side);
      var horizon := now - cfg.replenishMs;
      var plan := PlanOf(p.intent, Available(v.consumed, p.intent.tokenId, p.intent.side, levels, horizon));
      var looked := v.(consumed := Pruned(v.consumed, p.intent.tokenId, p.intent.side, levels, horizon));
      FillsCloseNothing(cfg, looked, p, plan.lots, |plan.lots|, now, id);
      ClosedOne(FillLots(cfg, looked, p, plan.lots, |plan.lots|, now).history, Logged(p.intent.tokenId, FinalUpdate(p, plan, now)), id);
    } else {
      ClosedOne(v.history, Logged(p.intent.tokenId, CancelUpdate(p, now)), id);
    }
  }

  lemma {:induction false} MatchesClose(cfg: Config, v: Venue, books: Books, orders: seq<Pending>, id: OrderId)
    ensures Closed(MatchAll(cfg, v, books, orders).history, id) == Closed(v.history, id) + Queued(orders, id)
    decreases |orders|
  {
    hide MatchAll, Match, Closed;
    MatchAllStep(cfg, v, books, orders);
    if orders != [] {
      MatchCloses(cfg, v.(pending := Without(v.pending, orders[0].orderId)), books, orders[0], orders[0].dueMs, id);
      MatchesClose(cfg, MatchFirst(cfg, v, books, orders[0]), books, orders[1..], id);
    }
  }

  lemma {:induction false} SortingKeepsQueued(pending: seq<Pending>, id: OrderId)
    ensures Queued(SortByDue(pending), id) == Queued(pending, id)
  {
    if pending != [] {
      SortingKeepsQueued(pending[1..], id);
      InsertingQueues(pending[0], SortByDue(pending[1..]), id);
    }
  }

  lemma {:induction false} InsertingQueues(p: Pending, sorted: seq<Pending>, id: OrderId)
    ensures Queued(InsertByDue(p, sorted), id) == Queued(sorted, id) + if p.orderId == id then 1 else 0
  {
    if sorted == [] || p.dueMs <= sorted[0].dueMs {
      assert ([p] + sorted)[1..] == sorted;
    } else {
      InsertingQueues(p, sorted[1..], id);
    }
  }

  lemma {:induction false} QueuedSplits(pending: seq<Pending>, now: int, id: OrderId)
    ensures Queued(Due(pending, now), id) + Queued(NotDue(pending, now), id) == Queued(pending, id)
  {
    if pending != [] {
      QueuedSplits(pending[1..], now, id);
    }
  }

  lemma {:induction false} QueuedLast(pending: seq<Pending>, p: Pending, id: OrderId)
    ensures Queued(pending + [p], id) == Queued(pending, id) + if p.orderId == id then 1 else 0
  {
    if pending == [] {
      assert pending + [p] == [p] && [p][1..] == [];
    } else {
      QueuedLast(pending[1..], p, id);
      assert (pending + [p])[1..] == pending[1..] + [p];
    }
  }

  lemma AdvanceKeepsTaken(cfg: Config, v: Venue, books: Books, now: int, id: OrderId)
    requires IdsKnown(v)
    ensures Taken(Advance(cfg, v, books, now), id) == Taken(v, id)
  {
    hide MatchAll, Closed, Queued;
    AdvanceLeavesNotDue(cfg, v, books, now);
    MatchesClose(cfg, v, books, SortByDue(Due(v.pending, now)), id);
    SortingKeepsQueued(Due(v.pending, now), id);
    QueuedSplits(v.pending, now, id);
  }

  lemma TakeTaken(cfg: Config, v: Venue, o: Order, now: int, id: OrderId)
    requires o.Legal()
    ensures var r := Take(cfg, v, o, now); Taken(r.0, id) == Taken(v, id) + if r.1.accepted && id == v.submitted + 1 then 1 else 0
  {
    hide Take, Closed, Queued;
    var p := TakeIs(cfg, v, o, now);
    QueuedLast(v.pending, p, id);
    assert v.pending + [] == v.pending;
  }

  lemma TakeIds(cfg: Config, v: Venue, o: Order, now: int)
    requires IdsKnown(v) && o.Legal()
    ensures IdsKnown(Take(cfg, v, o, now).0) && Take(cfg, v, o, now).0.submitted == v.submitted + 1
  {
    hide Validate;
    IdsAfterSubmit(cfg, v, o.intent, o.market, now, o.jitter, o.chaos);
  }

  lemma {:induction false} LazyKeepsTaken(cfg: Config, v: Venue, books: Books, orders: seq<Order>, now: int, later: int, id: OrderId)
    requires IdsKnown(v) && AllLegal(orders) && id <= v.submitted
    ensures Taken(Advance(cfg, TakeEach(cfg, v, orders, now), books, later), id) == Taken(v, id)
    decreases |orders|
  {
    hide Advance, Take, Taken, IdsKnown;
    if orders == [] {
      AdvanceKeepsTaken(cfg, v, books, later, id);
    } else {
      TakeIds(cfg, v, orders[0], now);
      TakeTaken(cfg, v, orders[0], now, id);
      LazyKeepsTaken(cfg, Take(cfg, v, orders[0], now).0, books, orders[1..], now, later, id);
    }
  }

  lemma {:induction false} EagerKeepsTaken(cfg: Config, v: Venue, books: Books, orders: seq<Order>, now: int, later: int, id: OrderId)
    requires IdsKnown(v) && AllLegal(orders) && id <= v.submitted
    ensures Taken(Advance(cfg, TakeEachEagerly(cfg, v, books, orders, now), books, later), id) == Taken(v, id)
    decreases |orders|
  {
    hide Advance, Take, Taken, IdsKnown;
    if orders == [] {
      AdvanceKeepsTaken(cfg, v, books, later, id);
    } else {
      var w := Advance(cfg, v, books, now);
      IdsAfterAdvance(cfg, v, books, now);
      SubmittedKept(cfg, v, books, now);
      AdvanceKeepsTaken(cfg, v, books, now, id);
      TakeIds(cfg, w, orders[0], now);
      TakeTaken(cfg, w, orders[0], now, id);
      EagerKeepsTaken(cfg, Take(cfg, w, orders[0], now).0, books, orders[1..], now, later, id);
    }
  }

  // ---------------------------------------------------------------- the whole step

  /** `eager` is what eager matching has made of `lazy` so far. */
  ghost predicate Alongside(cfg: Config, lazy: Venue, eager: Venue, books: Books, now: int) {
    IdsKnown(lazy) && IdsKnown(eager) && Advance(cfg, eager, books, now) == Advance(cfg, lazy, books, now)
  }

  lemma NextAlongside(cfg: Config, lazy: Venue, eager: Venue, books: Books, o: Order, now: int)
    requires Alongside(cfg, lazy, eager, books, now) && o.Legal() && SameVerdict(cfg, lazy, books, o, now)
    ensures Alongside(cfg, Take(cfg, lazy, o, now).0, Take(cfg, Advance(cfg, eager, books, now), o, now).0, books, now)
  {
    hide Advance, Take, IdsKnown;
    var w := Advance(cfg, lazy, books, now);
    IdsAfterAdvance(cfg, lazy, books, now);
    TakeIds(cfg, lazy, o, now);
    TakeIds(cfg, w, o, now);
    SameVerdictSameVenue(cfg, lazy, books, o, now, now);
  }

  lemma {:induction false} SameVerdictsAgree(cfg: Config, lazy: Venue, eager: Venue, books: Books, orders: seq<Order>, now: int, later: int)
    requires Alongside(cfg, lazy, eager, books, now) && AllLegal(orders) && now <= later && SameVerdicts(cfg, lazy, books, orders, now)
    ensures Advance(cfg, TakeEachEagerly(cfg, eager, books, orders, now), books, later)
      == Advance(cfg, TakeEach(cfg, lazy, orders, now), books, later)
    decreases |orders|
  {
    hide Advance, Take, IdsKnown, SameVerdict;
    if orders == [] {
      hide DistinctIds;
      EarlierAdvanceIsAbsorbed(cfg, lazy, books, now, later) by { KnownDistinct(lazy); }
      EarlierAdvanceIsAbsorbed(cfg, eager, books, now, later) by { KnownDistinct(eager); }
    } else {
      hide Alongside;
      NextAlongside(cfg, lazy, eager, books, orders[0], now);
      SameEagerStep(cfg, lazy, eager, books, now);
      SameVerdictsAgree(cfg, Take(cfg, lazy, orders[0], now).0, Take(cfg, Advance(cfg, eager, books, now), orders[0], now).0, books, orders[1..], now, later);
    }
  }

  lemma KnownDistinct(v: Venue)
    requires IdsKnown(v)
    ensures DistinctIds(v.pending)
  {
  }

  lemma SameEagerStep(cfg: Config, lazy: Venue, eager: Venue, books: Books, now: int)
    requires Alongside(cfg, lazy, eager, books, now)
    ensures Advance(cfg, eager, books, now) == Advance(cfg, lazy, books, now) && IdsKnown(lazy) && IdsKnown(eager)
  {
    hide Advance, IdsKnown;
  }

  /** From the first verdict that differs on, the order is in one venue only. */
  lemma {:induction false} OtherVerdictShows(cfg: Config, lazy: Venue, eager: Venue, books: Books, orders: seq<Order>, now: int, later: int)
    requires Alongside(cfg, lazy, eager, books, now) && AllLegal(orders) && now <= later && !SameVerdicts(cfg, lazy, books, orders, now)
    ensures Advance(cfg, TakeEachEagerly(cfg, eager, books, orders, now), books, later)
      != Advance(cfg, TakeEach(cfg, lazy, orders, now), books, later)
    decreases |orders|
  {
    hide Advance, Take, IdsKnown, Taken, Alongside;
    var o, rest := orders[0], orders[1..];
    SameEagerStep(cfg, lazy, eager, books, now);
    var w := Advance(cfg, lazy, books, now);
    if SameVerdict(cfg, lazy, books, o, now) {
      NextAlongside(cfg, lazy, eager, books, o, now);
      OtherVerdictShows(cfg, Take(cfg, lazy, o, now).0, Take(cfg, w, o, now).0, books, rest, now, later);
    } else {
      var id := lazy.submitted + 1;
      SubmittedKept(cfg, lazy, books, now);
      IdsAfterAdvance(cfg, lazy, books, now);
      AdvanceKeepsTaken(cfg, lazy, books, now, id);
      TakeTaken(cfg, lazy, o, now, id);
      TakeTaken(cfg, w, o, now, id);
      TakeIds(cfg, lazy, o, now);
      TakeIds(cfg, w, o, now);
      LazyKeepsTaken(cfg, Take(cfg, lazy, o, now).0, books, rest, now, later, id);
      EagerKeepsTaken(cfg, Take(cfg, w, o, now).0, books, rest, now, later, id);
    }
  }

  /** Exactly: the orders of a decision step, submitted with no advance in between, leave what eager
      matching leaves, once everything due is matched, if and only if each order gets the verdict
      that eager matching gives it. */
  lemma StepIsEagerExactly(cfg: Config, v: Venue, books: Books, orders: seq<Order>, now: int, later: int)
    requires IdsKnown(v) && AllLegal(orders) && now <= later
    ensures SameVerdicts(cfg, v, books, orders, now)
      <==> Advance(cfg, TakeEachEagerly(cfg, v, books, orders, now), books, later) == Advance(cfg, TakeEach(cfg, v, orders, now), books, later)
  {
    hide Advance, TakeEach, TakeEachEagerly, SameVerdicts, IdsKnown;
    if SameVerdicts(cfg, v, books, orders, now) {
      SameVerdictsAgree(cfg, v, v, books, orders, now, later);
    } else {
      OtherVerdictShows(cfg, v, v, books, orders, now, later);
    }
  }

  // ---------------------------------------------------------------- two steps that do not meet it

  const PROMPT: Config := Config(0, 0, 0, 1000, 1.0)
  const TAXED: Market := Market("c", Token("t", "Up"), Token("u", "Down"), 0.01, 0.1, 5.0)
  const OTHER: Market := Market("d", Token("x", "Up"), Token("y", "Down"), 0.01, 0.1, 5.0)
  const FREE: Market := TAXED.(feeRate := 0.0)
  const ASKED: Snapshot := Snapshot([], [Level(0.5, 100.0)])
  const BID: Snapshot := Snapshot([Level(0.5, 100.0)], [])

  const BUY_T: OrderIntent := OrderIntent(1, "d1", "c", "t", "Up", Buy, FAK, 0.5, 10.0, 0)
  const BUY_X: OrderIntent := OrderIntent(2, "d2", "d", "x", "Up", Buy, FAK, 0.5, 10.0, 0)
  const SELL_T: OrderIntent := OrderIntent(1, "d1", "c", "t", "Up", Sell, FAK, 0.5, 20.0, 0)

  const TWO_BUYS: seq<Order> := [Order(BUY_T, TAXED, 0, false), Order(BUY_X, OTHER, 0, false)]
  const SALE_AND_BUY: seq<Order> := [Order(SELL_T, FREE, 0, false), Order(BUY_X, OTHER.(feeRate := 0.0), 0, false)]
  const TWO_ASKS: Books := map["t" := ASKED, "x" := ASKED]
  const ONE_BID: Books := map["t" := BID]

  const SELLER: Venue := Initial(0.0).(positions := map["t" := 20.0])

  lemma HalfIsOnTick()
    ensures OnTick(0.5, 0.01)
  {
    assert 0.5 / 0.01 == 50.0;
  }

  lemma HalfFees()
    ensures FeeRateAt(0.1, 0.5) == 0.025 && FeeRateAt(0.0, 0.5) == 0.0
    ensures LimitFee(PROMPT, 0.1, 0.5) == 0.05 && LimitFee(PROMPT, 0.0, 0.5) == 0.0
  {
    assert 0.025 / 0.5 == 0.05;
  }

  /** What the first order of such a step leaves, and what its match then makes of it. */
  lemma FirstTaken(v: Venue, o: Order, lot: Lot, books: Books)
    requires o.Legal() && v.pending == [] && v.events == [] && v.consumed == map[] && o.jitter == 0 && !o.chaos
    requires Validate(PROMPT, v, o.intent, o.market) == None && o.intent.tokenId in books
    requires PricedInRange(SideLevels(books[o.intent.tokenId], o.intent.side))
    requires PlanOf(o.intent, SideLevels(books[o.intent.tokenId], o.intent.side)).lots == [lot]
    ensures var r := Take(PROMPT, v, o, 0);
      && r.1.accepted && r.0.cash == v.cash && r.0.submitted == v.submitted + 1
      && Advance(PROMPT, r.0, books, 0).cash
         == v.cash + CashDelta(FillOf(PROMPT, Pending(o.intent, v.submitted + 1, 0, o.market.feeRate), lot, 0, 0))
  {
    hide PlanOf, Validate, Advance, Match, CashDelta, FillOf;
    var p := Pending(o.intent, v.submitted + 1, 0, o.market.feeRate);
    var w := Take(PROMPT, v, o, 0).0;
    assert w.pending == [p];
    OneOrder(PROMPT, w, books, p, 0);
    BookMatched(PROMPT, w.(pending := []), books, p, lot, 0);
  }

  lemma TwentyBought(intent: OrderIntent)
    requires intent == BUY_T
    ensures PlanOf(intent, ASKED.asks).lots == [Lot(0.5, 20.0)]
  {
    var levels := [Level(0.5, 100.0)];
    assert FloorTo(20.0, SHARE_LOT) == 20.0 by { assert (20.0 / SHARE_LOT).Floor == 2000; }
    assert BuyTake(levels[0], 10.0) == 20.0;
    assert levels[1..] == [];
    assert BuyWalk([], 0.5, 0.0) == Walk([], 0.0);
    assert BuyWalk(levels, 0.5, 10.0) == Walk([Lot(0.5, 20.0)] + [], 0.0);
  }

  lemma TwentySold(intent: OrderIntent)
    requires intent == SELL_T
    ensures PlanOf(intent, BID.bids).lots == [Lot(0.5, 20.0)]
  {
    var levels := [Level(0.5, 100.0)];
    assert levels[1..] == [];
    assert SellWalk([], 0.5, 0.0) == Walk([], 0.0);
    assert SellWalk(levels, 0.5, 20.0) == Walk([Lot(0.5, 20.0)] + [], 0.0);
  }

  lemma TwentyShareFees()
    ensures TakerFee(0.1, 20.0, 0.5) == 0.5 && TakerFee(0.0, 20.0, 0.5) == 0.0
  {
    hide FeeRateAt;
    HalfFees();
    assert (0.5 / FEE_QUANTUM).Floor == 50000;
  }

  lemma Verdict(cfg: Config, v: Venue, o: Order, now: int)
    requires o.Legal() && !o.chaos
    ensures Take(cfg, v, o, now).1.accepted <==> Validate(cfg, v, o.intent, o.market) == None
  {
    hide Validate;
  }

  /** The second order of a step, judged with and without the first one's match. */
  lemma SecondVerdict(v: Venue, first: Order, second: Order, books: Books)
    requires first.Legal() && second.Legal() && !second.chaos && second.intent == BUY_X
    requires second.market == OTHER || second.market == OTHER.(feeRate := 0.0)
    ensures var r := Take(PROMPT, v, first, 0).0;
      Take(PROMPT, r, second, 0).1.accepted <==> 10.0 * (1.0 + LimitFee(PROMPT, second.market.feeRate, 0.5)) <= r.cash
    ensures var w := Advance(PROMPT, Take(PROMPT, v, first, 0).0, books, 0);
      Take(PROMPT, w, second, 0).1.accepted <==> 10.0 * (1.0 + LimitFee(PROMPT, second.market.feeRate, 0.5)) <= w.cash
  {
    hide Advance, LimitFee, OnTick, Take;
    HalfIsOnTick();
    Verdict(PROMPT, Take(PROMPT, v, first, 0).0, second, 0);
    Verdict(PROMPT, Advance(PROMPT, Take(PROMPT, v, first, 0).0, books, 0), second, 0);
  }

  lemma SecondDiffers(cfg: Config, v: Venue, books: Books, first: Order, second: Order, now: int)
    requires first.Legal() && second.Legal() && !SameVerdict(cfg, Take(cfg, v, first, now).0, books, second, now)
    ensures AllLegal([first, second]) && !SameVerdicts(cfg, v, books, [first, second], now)
  {
    hide SameVerdict, Take;
    assert [first, second][1..] == [second];
  }

  /** A failing input: with no delay, two buys of one step are both accepted, each for cash that is
      there; after the first one's match the fee is gone too and the second is refused. */
  lemma SecondBuyIsRefusedEagerly()
    ensures AllLegal(TWO_BUYS) && !SameVerdicts(PROMPT, Initial(20.5), TWO_ASKS, TWO_BUYS, 0)
    ensures var v := Take(PROMPT, Initial(20.5), TWO_BUYS[0], 0).0;
      && Take(PROMPT, v, TWO_BUYS[1], 0).1.accepted
      && !Take(PROMPT, Advance(PROMPT, v, TWO_ASKS, 0), TWO_BUYS[1], 0).1.accepted
  {
    hide Take, Advance, LimitFee, TakerFee, FeeRateAt, PlanOf, OnTick;
    HalfIsOnTick();
    HalfFees();
    TwentyBought(BUY_T);
    TwentyShareFees();
    FirstTaken(Initial(20.5), TWO_BUYS[0], Lot(0.5, 20.0), TWO_ASKS);
    SecondVerdict(Initial(20.5), TWO_BUYS[0], TWO_BUYS[1], TWO_ASKS);
    SecondDiffers(PROMPT, Initial(20.5), TWO_ASKS, TWO_BUYS[0], TWO_BUYS[1], 0);
  }

  /** The other way round: a buy behind a sale is refused, though the sale would have paid for it. */
  lemma SaleDoesNotPayInItsStep()
    ensures AllLegal(SALE_AND_BUY) && !SameVerdicts(PROMPT, SELLER, ONE_BID, SALE_AND_BUY, 0)
    ensures var v := Take(PROMPT, SELLER, SALE_AND_BUY[0], 0).0;
      && !Take(PROMPT, v, SALE_AND_BUY[1], 0).1.accepted
      && Take(PROMPT, Advance(PROMPT, v, ONE_BID, 0), SALE_AND_BUY[1], 0).1.accepted
  {
    hide Take, Advance, LimitFee, TakerFee, FeeRateAt, PlanOf, OnTick;
    HalfIsOnTick();
    HalfFees();
    TwentySold(SELL_T);
    TwentyShareFees();
    FirstTaken(SELLER, SALE_AND_BUY[0], Lot(0.5, 20.0), ONE_BID);
    SecondVerdict(SELLER, SALE_AND_BUY[0], SALE_AND_BUY[1], ONE_BID);
    SecondDiffers(PROMPT, SELLER, ONE_BID, SALE_AND_BUY[0], SALE_AND_BUY[1], 0);
  }
}
