/** Matching late is matching on time: as long as the book does not change in between, advancing
    the venue once gives what advancing it at any number of earlier moments gives, so an order
    is matched as if at its due time, with the same fills, stamps, ledger and consumption. */
module LazyMatching {
  import opened Domain
  import opened Matching
  import opened PaperVenue
  import opened VenueRuns

  /** Orders that are not yet due. */
  function NotDue(pending: seq<Pending>, now: int): seq<Pending> {
    if pending == [] then []
    else if pending[0].dueMs <= now then NotDue(pending[1..], now)
    else [pending[0]] + NotDue(pending[1..], now)
  }

  function WithoutAll(pending: seq<Pending>, orders: seq<Pending>): seq<Pending>
    decreases |orders|
  {
    if orders == [] then pending else WithoutAll(Without(pending, orders[0].orderId), orders[1..])
  }

  // ---------------------------------------------------------------- sorting splits at a time

  lemma {:induction false} InsertEarly(p: Pending, early: seq<Pending>, late: seq<Pending>)
    requires forall q :: q in late ==> p.dueMs <= q.dueMs
    ensures InsertByDue(p, early + late) == InsertByDue(p, early) + late
  {
    if early == [] {
      assert early + late == late;
      if late != [] {
        assert late[0] in late;
      }
    } else if p.dueMs <= early[0].dueMs {
    } else {
      InsertEarly(p, early[1..], late);
      assert (early + late)[1..] == early[1..] + late;
    }
  }

  lemma {:induction false} InsertLate(p: Pending, early: seq<Pending>, late: seq<Pending>)
    requires forall q :: q in early ==> q.dueMs < p.dueMs
    ensures InsertByDue(p, early + late) == early + InsertByDue(p, late)
  {
    if early == [] {
      assert early + late == late;
    } else {
      assert early[0] in early;
      InsertLate(p, early[1..], late);
      assert (early + late)[1..] == early[1..] + late;
    }
  }

  /** The stable order of everything due by `t2` is that of everything due by `t1`, then the rest. */
  lemma {:induction false} SortSplits(pending: seq<Pending>, t1: int, t2: int)
    requires t1 <= t2
    ensures SortByDue(Due(pending, t2)) == SortByDue(Due(pending, t1)) + SortByDue(Due(NotDue(pending, t1), t2))
  {
    if pending != [] {
      var p, rest := pending[0], pending[1..];
      SortSplits(rest, t1, t2);
      var early, late := SortByDue(Due(rest, t1)), SortByDue(Due(NotDue(rest, t1), t2));
      SortByDueSorts(Due(rest, t1));
      SortByDueSorts(Due(NotDue(rest, t1), t2));
      NotDueElements(rest, t1);
      if p.dueMs <= t1 {
        InsertEarly(p, early, late);
      } else if p.dueMs <= t2 {
        InsertLate(p, early, late);
      }
    }
  }

  lemma {:induction false} NotDueElements(pending: seq<Pending>, now: int)
    ensures forall p :: p in NotDue(pending, now) <==> p in pending && p.dueMs > now
  {
    if pending != [] {
      NotDueElements(pending[1..], now);
    }
  }

  // ---------------------------------------------------------------- what is left pending

  lemma {:induction false} MatchAllPending(cfg: Config, v: Venue, books: Books, orders: seq<Pending>)
    ensures MatchAll(cfg, v, books, orders).pending == WithoutAll(v.pending, orders)
    decreases |orders|
  {
    if orders != [] {
      var taken := v.(pending := Without(v.pending, orders[0].orderId));
      MatchLog(cfg, taken, books, orders[0], orders[0].dueMs);
      MatchAllPending(cfg, Match(cfg, taken, books, orders[0], orders[0].dueMs), books, orders[1..]);
    }
  }

  function Keep(pending: seq<Pending>, gone: set<OrderId>): seq<Pending> {
    if pending == [] then []
    else if pending[0].orderId in gone then Keep(pending[1..], gone)
    else [pending[0]] + Keep(pending[1..], gone)
  }

  function IdSet(orders: seq<Pending>): set<OrderId> {
    set p | p in orders :: p.orderId
  }

  lemma {:induction false} KeepAfterWithout(pending: seq<Pending>, id: OrderId, gone: set<OrderId>)
    ensures Keep(Without(pending, id), gone) == Keep(pending, gone + {id})
  {
    if pending != [] {
      KeepAfterWithout(pending[1..], id, gone);
    }
  }

  lemma {:induction false} KeepAll(pending: seq<Pending>)
    ensures Keep(pending, {}) == pending
  {
    if pending != [] {
      KeepAll(pending[1..]);
    }
  }

  lemma {:induction false} WithoutAllKeeps(pending: seq<Pending>, orders: seq<Pending>)
    ensures WithoutAll(pending, orders) == Keep(pending, IdSet(orders))
    decreases |orders|
  {
    if orders == [] {
      KeepAll(pending);
      assert IdSet(orders) == {};
    } else {
      WithoutAllKeeps(Without(pending, orders[0].orderId), orders[1..]);
      KeepAfterWithout(pending, orders[0].orderId, IdSet(orders[1..]));
      assert orders == [orders[0]] + orders[1..];
      assert IdSet(orders) == IdSet(orders[1..]) + {orders[0].orderId};
    }
  }

  lemma {:induction false} KeepNotDue(pending: seq<Pending>, now: int, gone: set<OrderId>)
    requires forall p :: p in pending ==> (p.orderId in gone <==> p.dueMs <= now)
    ensures Keep(pending, gone) == NotDue(pending, now)
  {
    if pending != [] {
      assert pending[0] in pending;
      KeepNotDue(pending[1..], now, gone);
    }
  }

  /** An advance leaves exactly the orders that are not yet due, in their order. */
  lemma AdvanceLeavesNotDue(cfg: Config, v: Venue, books: Books, now: int)
    requires DistinctIds(v.pending)
    ensures Advance(cfg, v, books, now).pending == NotDue(v.pending, now)
  {
    var orders := SortByDue(Due(v.pending, now));
    SortByDueSorts(Due(v.pending, now));
    MatchAllPending(cfg, v, books, orders);
    WithoutAllKeeps(v.pending, orders);
    forall p | p in v.pending
      ensures p.orderId in IdSet(orders) <==> p.dueMs <= now
    {
      if p.orderId in IdSet(orders) {
        var q :| q in orders && q.orderId == p.orderId;
        assert q in v.pending;
        assert p == q;
      }
      if p.dueMs <= now {
        assert p in orders;
      }
    }
    KeepNotDue(v.pending, now, IdSet(orders));
  }

  function MatchFirst(cfg: Config, v: Venue, books: Books, p: Pending): Venue {
    Match(cfg, v.(pending := Without(v.pending, p.orderId)), books, p, p.dueMs)
  }

  lemma MatchAllStep(cfg: Config, v: Venue, books: Books, orders: seq<Pending>)
    ensures MatchAll(cfg, v, books, orders)
      == if orders == [] then v else MatchAll(cfg, MatchFirst(cfg, v, books, orders[0]), books, orders[1..])
  {
    hide Match;
  }

  lemma {:induction false} MatchAllAppend(cfg: Config, v: Venue, books: Books, a: seq<Pending>, b: seq<Pending>)
    ensures MatchAll(cfg, v, books, a + b) == MatchAll(cfg, MatchAll(cfg, v, books, a), books, b)
    decreases |a|
  {
    hide MatchAll, MatchFirst;
    MatchAllStep(cfg, v, books, a);
    if a == [] {
      assert a + b == b;
    } else {
      MatchAllStep(cfg, v, books, a + b);
      assert (a + b)[0] == a[0] && (a + b)[1..] == a[1..] + b;
      MatchAllAppend(cfg, MatchFirst(cfg, v, books, a[0]), books, a[1..], b);
    }
  }

  // ---------------------------------------------------------------- one order alone

  lemma OneOrder(cfg: Config, v: Venue, books: Books, p: Pending, now: int)
    requires v.pending == [p] && p.dueMs <= now
    ensures Advance(cfg, v, books, now) == Match(cfg, v.(pending := []), books, p, p.dueMs)
  {
    hide Match, Due;
    assert [p][1..] == [];
    assert Due([p], now) == [p] by { OneDue(p, now); }
    assert SortByDue([p]) == [p];
    assert Without([p], p.orderId) == [];
    MatchAllStep(cfg, v, books, [p]);
    MatchAllStep(cfg, MatchFirst(cfg, v, books, p), books, []);
  }

  lemma OneDue(p: Pending, now: int)
    requires p.dueMs <= now
    ensures Due([p], now) == [p]
  {
    assert [p][1..] == [];
  }

  /** A match that takes one lot. */
  lemma OneLot(cfg: Config, v: Venue, p: Pending, lot: Lot, now: int)
    ensures var w, f := FillLots(cfg, v, p, [lot], 1, now), FillOf(cfg, p, lot, 0, now);
      && w.cash == v.cash + CashDelta(f) && w.pending == v.pending && w.submitted == v.submitted
      && w.events == v.events + [FillEvent(f)] && w.history == v.history + [Logged(p.intent.tokenId, FillEvent(f))]
      && w.positions == v.positions[p.intent.tokenId := v.Held(p.intent.tokenId) + ShareDelta(f)]
      && (forall key :: key in w.consumed ==> key in v.consumed || (key.token == p.intent.tokenId && key.side == p.intent.side))
  {
    hide CashDelta, ShareDelta;
    assert FillLots(cfg, v, p, [lot], 0, now) == v;
  }

  /** Nothing of the token's side was used before. */
  ghost predicate Untouched(v: Venue, token: TokenId, side: Side) {
    forall key :: key in v.consumed ==> key.token != token || key.side != side
  }

  /** An unused level shows its whole size. */
  lemma NothingUsed(v: Venue, token: TokenId, side: Side, levels: seq<Level>, horizon: int)
    requires Untouched(v, token, side)
    ensures Available(v.consumed, token, side, levels, horizon) == levels
  {
  }

  /** What a match of an order alone that takes one lot leaves behind. */
  lemma BookMatched(cfg: Config, v: Venue, books: Books, p: Pending, lot: Lot, now: int)
    requires v.pending == [] && v.events == [] && p.intent.tokenId in books
    requires Untouched(v, p.intent.tokenId, p.intent.side)
    requires PricedInRange(SideLevels(books[p.intent.tokenId], p.intent.side))
    requires PlanOf(p.intent, SideLevels(books[p.intent.tokenId], p.intent.side)).lots == [lot]
    ensures var w, f := Match(cfg, v, books, p, now), FillOf(cfg, p, lot, 0, now);
      var plan := PlanOf(p.intent, SideLevels(books[p.intent.tokenId], p.intent.side));
      && w.pending == [] && w.submitted == v.submitted && w.cash == v.cash + CashDelta(f)
      && w.Held(p.intent.tokenId) == v.Held(p.intent.tokenId) + ShareDelta(f)
      && (forall t :: t != p.intent.tokenId ==> w.Held(t) == v.Held(t))
      && w.events == [FillEvent(f), FinalUpdate(p, plan, now)]
      && w.history == v.history + [Logged(p.intent.tokenId, FillEvent(f)), Logged(p.intent.tokenId, FinalUpdate(p, plan, now))]
      && (forall key :: key in w.consumed ==> key in v.consumed || (key.token == p.intent.tokenId && key.side == p.intent.side))
  {
    hide PlanOf, FillOf, CashDelta, ShareDelta, FinalUpdate, Available, FillLots, Recent;
    var levels, horizon := SideLevels(books[p.intent.tokenId], p.intent.side), now - cfg.replenishMs;
    NothingUsed(v, p.intent.tokenId, p.intent.side, levels, horizon);
    var looked := v.(consumed := Pruned(v.consumed, p.intent.tokenId, p.intent.side, levels, horizon));
    OneLot(cfg, looked, p, lot, now);
  }

  // ---------------------------------------------------------------- lazy equals eager

  /** Advancing at `t1` first changes nothing of what advancing at `t2` gives. */
  lemma EarlierAdvanceIsAbsorbed(cfg: Config, v: Venue, books: Books, t1: int, t2: int)
    requires DistinctIds(v.pending) && t1 <= t2
    ensures Advance(cfg, Advance(cfg, v, books, t1), books, t2) == Advance(cfg, v, books, t2)
  {
    SortSplits(v.pending, t1, t2);
    AdvanceLeavesNotDue(cfg, v, books, t1);
    MatchAllAppend(cfg, v, books, SortByDue(Due(v.pending, t1)), SortByDue(Due(NotDue(v.pending, t1), t2)));
  }

  ghost predicate NonDecreasing(times: seq<int>) {
    forall i, j :: 0 <= i < j < |times| ==> times[i] <= times[j]
  }

  function AdvanceEach(cfg: Config, v: Venue, books: Books, times: seq<int>): Venue
    decreases |times|
  {
    if times == [] then v else AdvanceEach(cfg, Advance(cfg, v, books, times[0]), books, times[1..])
  }

  lemma {:induction false} NotDueKeepsDistinct(pending: seq<Pending>, now: int)
    requires DistinctIds(pending)
    ensures DistinctIds(NotDue(pending, now))
  {
    if pending != [] {
      NotDueKeepsDistinct(pending[1..], now);
      NotDueElements(pending[1..], now);
      if pending[0].dueMs > now {
        var rest := NotDue(pending[1..], now);
        forall j | 0 <= j < |rest|
          ensures pending[0].orderId != rest[j].orderId
        {
          assert rest[j] in pending[1..];
        }
      }
    }
  }

  /** Advancing once at the end is advancing at every moment of any schedule up to it, in
      particular at each order's own due time. */
  lemma {:induction false} LazyIsEager(cfg: Config, v: Venue, books: Books, times: seq<int>, now: int)
    requires DistinctIds(v.pending) && NonDecreasing(times) && (forall t :: t in times ==> t <= now)
    ensures Advance(cfg, AdvanceEach(cfg, v, books, times), books, now) == Advance(cfg, v, books, now)
    decreases |times|
  {
    if times != [] {
      assert times[0] in times;
      forall t | t in times[1..]
        ensures t <= now
      {
        assert t in times;
      }
      AdvanceLeavesNotDue(cfg, v, books, times[0]);
      NotDueKeepsDistinct(v.pending, times[0]);
      LazyIsEager(cfg, Advance(cfg, v, books, times[0]), books, times[1..], now);
      EarlierAdvanceIsAbsorbed(cfg, v, books, times[0], now);
    }
  }

  // ---------------------------------------------------------------- ids over a run

  /** Order ids are distinct and none is newer than the submission count. */
  ghost predicate IdsKnown(v: Venue) {
    DistinctIds(v.pending) && forall p :: p in v.pending ==> p.orderId <= v.submitted
  }

  lemma {:induction false} WithoutKeepsDistinct(pending: seq<Pending>, id: OrderId)
    requires DistinctIds(pending)
    ensures DistinctIds(Without(pending, id))
  {
    if pending != [] {
      WithoutKeepsDistinct(pending[1..], id);
      if pending[0].orderId != id {
        var rest := Without(pending[1..], id);
        forall j | 0 <= j < |rest|
          ensures pending[0].orderId != rest[j].orderId
        {
          assert rest[j] in pending[1..];
        }
      }
    }
  }

  lemma IdsAfterCancel(v: Venue, id: OrderId, now: int)
    requires IdsKnown(v)
    ensures IdsKnown(Cancel(v, id, now))
  {
    WithoutKeepsDistinct(v.pending, id);
  }

  lemma {:induction false} IdsAfterCancelEach(v: Venue, ids: seq<OrderId>, now: int)
    requires IdsKnown(v)
    ensures IdsKnown(CancelEach(v, ids, now))
    decreases |ids|
  {
    if ids != [] {
      IdsAfterCancel(v, ids[0], now);
      IdsAfterCancelEach(Cancel(v, ids[0], now), ids[1..], now);
    }
  }

  lemma {:induction false} MatchAllSubmitted(cfg: Config, v: Venue, books: Books, orders: seq<Pending>)
    ensures MatchAll(cfg, v, books, orders).submitted == v.submitted
    decreases |orders|
  {
    if orders != [] {
      var taken := v.(pending := Without(v.pending, orders[0].orderId));
      MatchSubmitted(cfg, taken, books, orders[0], orders[0].dueMs);
      MatchAllSubmitted(cfg, Match(cfg, taken, books, orders[0], orders[0].dueMs), books, orders[1..]);
    }
  }

  lemma MatchSubmitted(cfg: Config, v: Venue, books: Books, p: Pending, now: int)
    ensures Match(cfg, v, books, p, now).submitted == v.submitted
  {
    if p.intent.tokenId in books {
      hide PlanOf, FillLots;
      var levels := SideLevels(books[p.intent.tokenId], p.intent.side);
      var horizon := now - cfg.replenishMs;
      var plan := PlanOf(p.intent, Available(v.consumed, p.intent.tokenId, p.intent.side, levels, horizon));
      var looked := v.(consumed := Pruned(v.consumed, p.intent.tokenId, p.intent.side, levels, horizon));
      FillLotsLog(cfg, looked, p, plan.lots, |plan.lots|, now);
    }
  }

  lemma IdsAfterAdvance(cfg: Config, v: Venue, books: Books, now: int)
    requires IdsKnown(v)
    ensures IdsKnown(Advance(cfg, v, books, now))
  {
    AdvanceLeavesNotDue(cfg, v, books, now);
    NotDueKeepsDistinct(v.pending, now);
    NotDueElements(v.pending, now);
    MatchAllSubmitted(cfg, v, books, SortByDue(Due(v.pending, now)));
  }

  lemma IdsAfterStep(cfg: Config, v: Venue, frontier: int, step: Step)
    requires IdsKnown(v) && Legal(frontier, step)
    ensures IdsKnown(Apply(cfg, v, frontier, step))
  {
    match step
    case SubmitStep(intent, market, now, jitter, chaos) => IdsAfterSubmit(cfg, v, intent, market, now, jitter, chaos);
    case CancelStep(id, now) => IdsAfterCancel(v, id, now);
    case CancelAllStep(now) => IdsAfterCancelEach(v, Ids(v.pending), now);
    case AdvanceStep(books, now) => IdsAfterAdvance(cfg, v, books, now);
    case PollStep(books, now) => IdsAfterAdvance(cfg, v, books, now);
    case SettleStep(winner, loser) =>
  }

  lemma IdsAfterSubmit(cfg: Config, v: Venue, intent: OrderIntent, market: Market, now: int, jitter: nat, chaos: bool)
    requires IdsKnown(v) && intent.Valid() && market.Valid()
    ensures IdsKnown(Submit(cfg, v, intent, market, now, jitter, chaos).0)
  {
    hide Validate;
    forall i | 0 <= i < |v.pending|
      ensures v.pending[i].orderId <= v.submitted
    {
      assert v.pending[i] in v.pending;
    }
  }
}
