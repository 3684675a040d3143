/** One gap-free delivery keeps the order path's invariant. */
module DeliverStep {
  import opened Decimals
  import opened Domain
  import opened Matching
  import opened PaperVenue
  import opened MatchBlocks
  import opened Histories
  import opened Sums
  import opened TradingDesk
  import opened OrderPath
  import Execution
  import Accounting
  import Delivery
  import LedgerFacts

  // ---------------------------------------------------------------- when an order is done

  /** Only its terminal update, the last event, closes an order that was accepted. */
  lemma {:induction false} TerminalOnlyAtEnd(rec: OrderRecord, stream: seq<Event>, n: nat)
    requires Delivery.Sound(rec, stream) && !rec.status.IsTerminal() && n <= |stream|
    requires Delivery.AfterAll(rec, stream, n).status.IsTerminal()
    ensures n == |stream| && stream != []
    decreases n
  {
    if n > 0 && stream[n - 1].FillEvent? {
      hide Notional;
      assert Delivery.AfterAll(rec, stream, n - 1).status.IsTerminal();
      TerminalOnlyAtEnd(rec, stream, n - 1);
    }
  }

  /** What the invariant says about one known order. */
  lemma KnownOrder(setup: Setup, s: Sys, a: Aux, id: IntentId)
    requires StreamsOk(setup, s, a) && (id in a.base || id in a.marks || id in s.desk.engine.orders)
    ensures id in a.base && id in a.marks && id in s.desk.engine.orders
    ensures var stream := StreamOf(s.venue.history, id);
      && a.marks[id] <= |stream| && Delivery.Sound(a.base[id], stream) && StreamOk(setup, a.base[id], stream)
      && s.desk.engine.orders[id] == Delivery.AfterAll(a.base[id], stream, a.marks[id])
      && s.desk.engine.orders[id].intent == a.base[id].intent
      && Delivery.Seen(s.desk.engine.fillIds, stream, a.marks[id])
      && a.base[id].intent.intentId == id
  {
    hide StreamOf, StreamOk;
    var streams := Streams(s.venue.history, a.base);
    assert streams[id] == StreamOf(s.venue.history, id);
    Delivery.AfterAllIntent(a.base[id], streams[id], a.marks[id]);
  }

  /** An order is terminal just when all its events are in and it has some, or was refused. */
  lemma DoneOrder(setup: Setup, s: Sys, a: Aux, id: IntentId)
    requires StreamsOk(setup, s, a) && id in a.base
    ensures id in s.desk.engine.orders && id in a.marks
    ensures s.desk.engine.orders[id].status.IsTerminal() ==> a.marks[id] == |StreamOf(s.venue.history, id)|
    ensures s.desk.engine.orders[id].status.IsTerminal() && !a.base[id].status.IsTerminal() ==> StreamOf(s.venue.history, id) != []
    ensures a.base[id].status.IsTerminal() ==> StreamOf(s.venue.history, id) == [] && s.desk.engine.orders[id].status.IsTerminal()
  {
    KnownOrder(setup, s, a, id);
    var stream := StreamOf(s.venue.history, id);
    if a.base[id].status.IsTerminal() {
    } else if s.desk.engine.orders[id].status.IsTerminal() {
      TerminalOnlyAtEnd(a.base[id], stream, a.marks[id]);
    }
  }

  lemma {:induction false} OutlayPrefix(stream: seq<Event>, n: nat)
    requires n <= |stream|
    ensures Sum(Outlay, stream[..n]) <= Sum(Outlay, stream)
    ensures n < |stream| ==> Sum(Outlay, stream[..n]) + Outlay(stream[n]) == Sum(Outlay, stream[..n + 1]) <= Sum(Outlay, stream)
  {
    assert stream == stream[..n] + stream[n..];
    SumAppend(Outlay, stream[..n], stream[n..]);
    SumNonNegative(Outlay, stream[n..]);
    if n < |stream| {
      assert stream[..n + 1] == stream[..n] + [stream[n]];
      SumLast(Outlay, stream[..n], stream[n]);
      assert stream == stream[..n + 1] + stream[n + 1..];
      SumAppend(Outlay, stream[..n + 1], stream[n + 1..]);
      SumNonNegative(Outlay, stream[n + 1..]);
    }
  }

  // ---------------------------------------------------------------- totals over the orders

  lemma {:induction false} TotalAgree(ids: seq<IntentId>, m: map<IntentId, real>, n: map<IntentId, real>)
    requires forall id :: id in ids ==> (id in m <==> id in n) && (id in m ==> m[id] == n[id])
    ensures PledgeTotal(ids, m) == PledgeTotal(ids, n)
  {
    if ids != [] {
      TotalAgree(ids[1..], m, n);
    }
  }

  lemma {:induction false} TotalChange(ids: seq<IntentId>, m: map<IntentId, real>, n: map<IntentId, real>, x: IntentId)
    requires NoRepeats(ids)
    requires x in ids && x in m && x in n
    requires forall id :: id in ids && id != x ==> (id in m <==> id in n) && (id in m ==> m[id] == n[id])
    ensures PledgeTotal(ids, n) == PledgeTotal(ids, m) - m[x] + n[x]
  {
    if ids[0] == x {
      forall id | id in ids[1..]
        ensures (id in m <==> id in n) && (id in m ==> m[id] == n[id])
      {
        var j :| 0 <= j < |ids[1..]| && ids[1..][j] == id;
        assert ids[j + 1] == id && ids[0] != ids[j + 1];
      }
      TotalAgree(ids[1..], m, n);
    } else {
      TotalChange(ids[1..], m, n, x);
    }
  }

  lemma {:induction false} TotalAtLeast(ids: seq<IntentId>, m: map<IntentId, real>, x: IntentId)
    requires forall id :: id in m ==> m[id] >= 0.0
    requires x in ids && x in m
    ensures PledgeTotal(ids, m) >= m[x]
  {
    if ids[0] == x {
      TotalNonNegative(ids[1..], m);
    } else {
      TotalAtLeast(ids[1..], m, x);
    }
  }

  lemma {:induction false} TotalNonNegative(ids: seq<IntentId>, m: map<IntentId, real>)
    requires forall id :: id in m ==> m[id] >= 0.0
    ensures PledgeTotal(ids, m) >= 0.0
  {
    if ids != [] {
      TotalNonNegative(ids[1..], m);
    }
  }

  lemma {:induction false} TotalAppend(ids: seq<IntentId>, m: map<IntentId, real>, x: IntentId)
    ensures PledgeTotal(ids + [x], m) == PledgeTotal(ids, m) + if x in m then m[x] else 0.0
  {
    if ids == [] {
      assert ids + [x] == [x];
      assert [x][1..] == [];
    } else {
      TotalAppend(ids[1..], m, x);
      assert (ids + [x])[1..] == ids[1..] + [x];
    }
  }

  lemma ReserveNonNegative(setup: Setup, intent: OrderIntent)
    requires setup.Valid() && KnownIntent(setup, intent)
    ensures ReserveOf(setup, intent) >= 0.0
  {
    hide Reserve;
    ReservePositive(intent, setup.maxLevels, RateOf(setup, intent), setup.cfg.feeMult);
  }

  lemma ReservePositive(intent: OrderIntent, n: nat, rate: real, mult: real)
    requires intent.quantity > 0.0 && rate >= 0.0 && mult >= 0.0
    ensures Reserve(intent, n, rate, mult) >= 0.0
  {
    MulLe(0.0, rate, mult);
    MoreLevels(0, n, FEE_QUANTUM * mult);
    MulLe(0.0, 1.0 + Stressed(rate, mult), intent.quantity);
    MulLe(0.0, Stress(rate, mult), intent.quantity);
  }

  /** Pledges exist for every order and are never negative. */
  lemma PledgesOk(setup: Setup, s: Sys, a: Aux)
    requires setup.Valid() && IntentsOk(setup, s, a) && StreamsOk(setup, s, a)
    ensures Pledges(setup, s, a).Keys == a.base.Keys
    ensures forall id :: id in a.base ==> Pledges(setup, s, a)[id] >= 0.0
  {
    hide StreamOf, Pledge, StreamsOk;
    forall id | id in a.base
      ensures id in Pledges(setup, s, a) && Pledges(setup, s, a)[id] >= 0.0
    {
      PledgePositive(setup, s, a, id);
    }
  }

  lemma PledgePositive(setup: Setup, s: Sys, a: Aux, id: IntentId)
    requires setup.Valid() && IntentsOk(setup, s, a) && StreamsOk(setup, s, a) && id in a.base
    ensures id in a.marks && id in s.desk.engine.orders && a.marks[id] <= |StreamOf(s.venue.history, id)|
    ensures Pledge(setup, s.desk.engine.orders[id], StreamOf(s.venue.history, id), a.marks[id]) >= 0.0
  {
    hide ReserveOf, Outlay, StreamOf, Delivery.Sound, Delivery.AfterAll, Delivery.Seen;
    KnownOrder(setup, s, a, id);
    ReserveNonNegative(setup, a.base[id].intent);
    OutlayPrefix(StreamOf(s.venue.history, id), a.marks[id]);
    assert Sum(Outlay, []) == 0.0;
  }

  // ---------------------------------------------------------------- a fill arrives

  /** Fill `f`, the next event of order `id`, reaches the desk. */
  ghost predicate FillArrives(setup: Setup, s: Sys, a: Aux, id: IntentId, f: Fill) {
    && setup.Valid() && Core(setup, s, a)
    && id in a.marks && a.marks[id] < |StreamOf(s.venue.history, id)|
    && StreamOf(s.venue.history, id)[a.marks[id]] == FillEvent(f)
  }

  /** Where the fill sits in the history, and whose it is. */
  lemma FillFacts(setup: Setup, s: Sys, a: Aux, id: IntentId, f: Fill) returns (q: nat)
    requires FillArrives(setup, s, a, id, f)
    ensures q < |s.venue.history| && s.venue.history[q].event == FillEvent(f) && EntryOk(a, s.venue.history[q])
    ensures id in a.base && f.intentId == Some(id) && f.fillId !in s.desk.engine.fillIds
    ensures f.Valid() && f.tokenId == a.base[id].intent.tokenId && f.side == a.base[id].intent.side
    ensures !s.desk.engine.orders[id].status.IsTerminal() && KnownIntent(setup, a.base[id].intent)
  {
    hide StreamOf, Pledges, PledgeTotal, Undelivered;
    KnownOrder(setup, s, a, id);
    DoneOrder(setup, s, a, id);
    StreamFromHistory(s.venue.history, id, a.marks[id]);
    q :| 0 <= q < |s.venue.history| && s.venue.history[q].event == FillEvent(f) && s.venue.history[q].event.IntentId() == Some(id);
    assert EntryOk(a, s.venue.history[q]);
  }

  lemma CashSuffices(setup: Setup, s: Sys, a: Aux, id: IntentId, f: Fill)
    requires FillArrives(setup, s, a, id, f)
    ensures Outlay(FillEvent(f)) <= s.desk.ledger.cash
  {
    hide StreamOf, Outlay, Undelivered, ReserveOf;
    var q := FillFacts(setup, s, a, id, f);
    KnownOrder(setup, s, a, id);
    PledgesOk(setup, s, a);
    OutlayPrefix(StreamOf(s.venue.history, id), a.marks[id]);
    TotalAtLeast(s.desk.engine.intents, Pledges(setup, s, a), id);
  }

  lemma SharesSuffice(setup: Setup, s: Sys, a: Aux, id: IntentId, f: Fill)
    requires FillArrives(setup, s, a, id, f) && f.side.Sell?
    ensures f.shares <= Accounting.SharesOf(s.desk.ledger.positions, f.tokenId)
  {
    hide StreamOf, Core, Accounting.SharesOf, Delivery.Sound, StreamOk, Delivery.AfterAll, Delivery.Seen;
    var q := FillFacts(setup, s, a, id, f);
    CoreStreams(setup, s, a);
    KnownOrder(setup, s, a, id);
    FirstSale(a.base[id], StreamOf(s.venue.history, id), a.marks[id], f);
    SharesOnTheWay(setup, s, a, id);
  }

  /** What is still to come covers the next sale. */
  lemma FirstSale(rec: OrderRecord, stream: seq<Event>, n: nat, f: Fill)
    requires Delivery.Sound(rec, stream) && n < |stream| && stream[n] == FillEvent(f) && f.side.Sell?
    ensures f.shares <= Sum(SoldIn, stream[n..])
  {
    hide Delivery.SoundFill, Delivery.SoundUpdate;
    var left := stream[n..];
    assert left[0] == stream[n] && left[1..] == stream[n + 1..];
    forall i | 0 <= i < |left[1..]| && left[1..][i].FillEvent?
      ensures left[1..][i].fill.Valid()
    {
      SoundIsValid(rec, stream, n + 1 + i);
    }
    SoldNonNegative(left[1..]);
    assert Sum(SoldIn, left) == SoldIn(left[0]) + Sum(SoldIn, left[1..]);
  }

  lemma SoundIsValid(rec: OrderRecord, stream: seq<Event>, i: nat)
    requires Delivery.Sound(rec, stream) && i < |stream| && stream[i].FillEvent?
    ensures stream[i].fill.Valid()
  {
    hide Delivery.AfterAll;
    assert Delivery.SoundFill(rec, stream, i);
  }

  lemma SharesOnTheWay(setup: Setup, s: Sys, a: Aux, id: IntentId)
    requires Core(setup, s, a) && id in a.base && id in a.marks && a.marks[id] <= |StreamOf(s.venue.history, id)|
    ensures Sum(SoldIn, StreamOf(s.venue.history, id)[a.marks[id]..])
      <= Accounting.SharesOf(s.desk.ledger.positions, a.base[id].intent.tokenId)
  {
    hide StreamOf, IntentsOk, AllPendingOk, HistoryOk, StreamsOk, Coupled, CashCovers, OneOpenPerToken, LedgerOk, Accounting.SharesOf;
  }

  lemma SoldNonNegative(events: seq<Event>)
    requires forall i :: 0 <= i < |events| && events[i].FillEvent? ==> events[i].fill.Valid()
    ensures Sum(SoldIn, events) >= 0.0
  {
    SumNonNegative(SoldIn, events);
  }

  ghost predicate IsAfterFill(s: Sys, a: Aux, id: IntentId, f: Fill, s': Sys, a': Aux) {
    && id in s.desk.engine.orders && id in a.marks && f.Valid()
    && Delivery.Moved(s.desk.engine, s'.desk.engine, id, Execution.FillRecord(s.desk.engine.orders[id], f))
    && s'.desk.engine.fillIds == s.desk.engine.fillIds + {f.fillId}
    && Accounting.ApplyFill(s.desk.ledger, f).Ok?
    && s'.desk.ledger == Accounting.ApplyFill(s.desk.ledger, f).value && !s'.desk.raised
    && s' == s.(desk := s'.desk)
    && a' == a.(marks := a.marks[id := a.marks[id] + 1])
  }

  /** The portfolio accepts the fill. */
  lemma FillIsAffordable(setup: Setup, s: Sys, a: Aux, id: IntentId, f: Fill)
    requires FillArrives(setup, s, a, id, f)
    ensures f.Valid() && Accounting.ApplyFill(s.desk.ledger, f).Ok?
  {
    hide StreamOf, Pledges, PledgeTotal, Undelivered, StreamsOk, Accounting.ApplyFill, Outlay, Accounting.SharesOf, Accounting.BuyCost;
    var q := FillFacts(setup, s, a, id, f);
    if f.side.Buy? {
      CashSuffices(setup, s, a, id, f);
      BuyCostIsOutlay(f);
    } else {
      SharesSuffice(setup, s, a, id, f);
    }
    LedgerFacts.FillAccepted(s.desk.ledger, f);
  }

  /** Where the engine stands when the next event of order `id` reaches it. */
  lemma NextArrives(setup: Setup, s: Sys, a: Aux, id: IntentId)
    requires Core(setup, s, a) && id in a.marks && a.marks[id] < |StreamOf(s.venue.history, id)|
    ensures id in s.desk.engine.orders && id in a.base
    ensures var streams := Streams(s.venue.history, a.base);
      && Delivery.Tracks(s.desk.engine, a.base, streams, a.marks)
      && Delivery.GapFree(streams, a.marks, id, a.marks[id])
      && streams[id] == StreamOf(s.venue.history, id)
      && s.desk.engine.orders[id] == Delivery.AfterAll(a.base[id], streams[id], a.marks[id])
  {
    hide *;
    CoreStreams(setup, s, a);
    KnownOrder(setup, s, a, id);
    OwnStream(s.venue.history, a.base, id);
    StreamsTracked(setup, s, a);
    IsGapFree(Streams(s.venue.history, a.base), a.marks, id, a.marks[id]);
  }

  lemma CoreStreams(setup: Setup, s: Sys, a: Aux)
    requires Core(setup, s, a)
    ensures StreamsOk(setup, s, a)
  {
    hide StreamsOk;
  }

  lemma StreamsTracked(setup: Setup, s: Sys, a: Aux)
    requires StreamsOk(setup, s, a)
    ensures Delivery.Tracks(s.desk.engine, a.base, Streams(s.venue.history, a.base), a.marks)
  {
    hide Delivery.Tracks, StreamOk;
  }

  lemma OwnStream(history: seq<Logged>, base: map<IntentId, OrderRecord>, id: IntentId)
    requires id in base
    ensures id in Streams(history, base) && Streams(history, base)[id] == StreamOf(history, id)
  {
    hide StreamOf;
  }

  lemma IsGapFree(streams: Delivery.Streams, marks: Delivery.Marks, id: IntentId, j: nat)
    requires id in streams && id in marks && j < |streams[id]| && j <= marks[id]
    ensures Delivery.GapFree(streams, marks, id, j)
  {
  }

  /** The engine moves the order by the fill and hands the fill on. */
  lemma FillIsBooked(setup: Setup, s: Sys, a: Aux, id: IntentId, f: Fill)
    requires FillArrives(setup, s, a, id, f)
    ensures id in s.desk.engine.orders && id in a.base
    ensures var (e', booked) := Execution.Deliver(s.desk.engine, FillEvent(f));
      && booked == Some(f)
      && Delivery.Moved(s.desk.engine, e', id, Execution.FillRecord(s.desk.engine.orders[id], f))
      && e'.fillIds == s.desk.engine.fillIds + {f.fillId}
  {
    hide StreamOf, Core, Delivery.Tracks, Delivery.AfterAll, Execution.Deliver, Execution.FillRecord, Delivery.Moved;
    NextArrives(setup, s, a, id);
    var streams := Streams(s.venue.history, a.base);
    Delivery.NextIsApplied(s.desk.engine, a.base, streams, a.marks, id);
    OneMore(a.base[id], streams[id], a.marks[id]);
  }

  /** The engine stays on track, one event further. */
  lemma NextIsTracked(setup: Setup, s: Sys, a: Aux, id: IntentId)
    requires Core(setup, s, a) && id in a.marks && a.marks[id] < |StreamOf(s.venue.history, id)|
    ensures Delivery.Tracks(Execution.Deliver(s.desk.engine, StreamOf(s.venue.history, id)[a.marks[id]]).0, a.base,
                            Streams(s.venue.history, a.base), a.marks[id := a.marks[id] + 1])
  {
    hide *;
    NextArrives(setup, s, a, id);
    Delivery.NextKeepsTrack(s.desk.engine, a.base, Streams(s.venue.history, a.base), a.marks, id);
  }

  /** The engine books the fill and the portfolio accepts it. */
  lemma FillIsAccepted(setup: Setup, s: Sys, a: Aux, id: IntentId, f: Fill)
    requires f.Valid() && FillArrives(setup, s, a, id, f)
    ensures IsAfterFill(s, a, id, f, s.(desk := DeliverOne(s.desk, FillEvent(f))), a.(marks := a.marks[id := a.marks[id] + 1]))
    ensures Delivery.Tracks(DeliverOne(s.desk, FillEvent(f)).engine, a.base, Streams(s.venue.history, a.base), a.marks[id := a.marks[id] + 1])
  {
    hide StreamOf, Core, Delivery.Tracks, Accounting.ApplyFill, Execution.Deliver, Delivery.Moved, Execution.FillRecord;
    FillIsBooked(setup, s, a, id, f);
    NextIsTracked(setup, s, a, id);
    FillIsAffordable(setup, s, a, id, f);
    assert !s.desk.raised by { NotRaised(setup, s, a); }
  }

  lemma NotRaised(setup: Setup, s: Sys, a: Aux)
    requires Core(setup, s, a)
    ensures !s.desk.raised
  {
  }

  lemma OneMore(rec: OrderRecord, stream: seq<Event>, n: nat)
    requires n < |stream|
    ensures Delivery.AfterAll(rec, stream, n + 1) == Delivery.After(Delivery.AfterAll(rec, stream, n), stream[n])
  {
  }

  lemma BuyCostIsOutlay(f: Fill)
    requires f.Valid() && f.side.Buy?
    ensures Accounting.BuyCost(f) == Outlay(FillEvent(f))
  {
    NotionalPositive(f.price, f.shares);
  }

  lemma CoreParts(setup: Setup, s: Sys, a: Aux)
    requires Core(setup, s, a)
    ensures IntentsOk(setup, s, a) && AllPendingOk(setup, s, a) && HistoryOk(s, a) && OneOpenPerToken(s)
  {
    hide IntentsOk, AllPendingOk, HistoryOk, OneOpenPerToken;
  }

  lemma OwnedFill(a: Aux, entry: Logged, id: IntentId, f: Fill)
    requires EntryOk(a, entry) && entry.event == FillEvent(f) && f.intentId == Some(id)
    ensures f.fillId.orderId in a.owner && a.owner[f.fillId.orderId] == id
  {
  }

  lemma HistoryAfterFill(setup: Setup, s: Sys, a: Aux, id: IntentId, f: Fill, s': Sys, a': Aux)
    requires FillArrives(setup, s, a, id, f) && IsAfterFill(s, a, id, f, s', a')
    ensures HistoryOk(s', a')
  {
    hide StreamOf, Core, Accounting.ApplyFill, DistinctFills, Fill.Valid, IntentsOk, AllPendingOk;
    CoreParts(setup, s, a);
    var q := FillFacts(setup, s, a, id, f);
    OwnedFill(a, s.venue.history[q], id, f);
    assert StreamOf(s.venue.history, id) != [];
  }

  lemma CoupledAfterFill(setup: Setup, s: Sys, a: Aux, id: IntentId, f: Fill, s': Sys, a': Aux)
    requires FillArrives(setup, s, a, id, f) && IsAfterFill(s, a, id, f, s', a')
    ensures Coupled(s')
  {
    hide StreamOf, Pledges, PledgeTotal, Undelivered, StreamsOk, Accounting.ApplyFill, CashDelta, ShareDelta, Accounting.SharesOf;
    var q := FillFacts(setup, s, a, id, f);
    var history, seen := s.venue.history, s.desk.engine.fillIds;
    DeliverOneFill(history, q, seen, CashDelta);
    LedgerFacts.FillMoves(s.desk.ledger, f, f.tokenId);
    forall t: TokenId
      ensures s'.venue.Held(t)
        == Accounting.SharesOf(s'.desk.ledger.positions, t) + Undelivered(history, s'.desk.engine.fillIds, SharesIn(t))
    {
      DeliverOneFill(history, q, seen, SharesIn(t));
      LedgerFacts.FillMoves(s.desk.ledger, f, t);
    }
  }

  lemma PledgeIs(setup: Setup, s: Sys, a: Aux, id: IntentId)
    requires StreamsOk(setup, s, a) && id in a.base
    ensures id in a.marks && id in s.desk.engine.orders && a.marks[id] <= |StreamOf(s.venue.history, id)|
    ensures id in Pledges(setup, s, a)
    ensures Pledges(setup, s, a)[id] == Pledge(setup, s.desk.engine.orders[id], StreamOf(s.venue.history, id), a.marks[id])
  {
    hide StreamOf, Pledge;
    KnownOrder(setup, s, a, id);
  }

  lemma CashAfterFill(setup: Setup, s: Sys, a: Aux, id: IntentId, f: Fill, s': Sys, a': Aux)
    requires FillArrives(setup, s, a, id, f) && IsAfterFill(s, a, id, f, s', a') && StreamsOk(setup, s', a')
    requires IntentsOk(setup, s', a')
    ensures CashCovers(setup, s', a')
  {
    hide StreamOf, PledgeTotal, Undelivered, Accounting.ApplyFill, Pledge, Pledges, CashDelta, StreamsOk, Outlay;
    var q := FillFacts(setup, s, a, id, f);
    PledgesOk(setup, s, a);
    PledgesOk(setup, s', a');
    PledgeIs(setup, s, a, id);
    PledgeIs(setup, s', a', id);
    PledgeAfterFill(setup, s, a, id, f, s', a');
    forall k | k in s.desk.engine.intents && k != id
      ensures k in Pledges(setup, s, a) && k in Pledges(setup, s', a') && Pledges(setup, s, a)[k] == Pledges(setup, s', a')[k]
    {
      PledgeIs(setup, s, a, k);
      PledgeIs(setup, s', a', k);
    }
    TotalChange(s.desk.engine.intents, Pledges(setup, s, a), Pledges(setup, s', a'), id);
    LedgerFacts.FillMoves(s.desk.ledger, f, f.tokenId);
    CashDeltaAtLeast(f);
  }

  lemma CashDeltaAtLeast(f: Fill)
    ensures CashDelta(f) >= -Outlay(FillEvent(f))
  {
    hide CashDelta;
  }

  lemma PledgeAfterFill(setup: Setup, s: Sys, a: Aux, id: IntentId, f: Fill, s': Sys, a': Aux)
    requires FillArrives(setup, s, a, id, f) && IsAfterFill(s, a, id, f, s', a')
    ensures id in a'.marks && a'.marks[id] <= |StreamOf(s.venue.history, id)| && id in s'.desk.engine.orders
    ensures Pledge(setup, s'.desk.engine.orders[id], StreamOf(s.venue.history, id), a'.marks[id])
      == Pledge(setup, s.desk.engine.orders[id], StreamOf(s.venue.history, id), a.marks[id]) - Outlay(FillEvent(f))
  {
    hide StreamOf, Accounting.ApplyFill, ReserveOf, Outlay, Core, StreamOk, Sum, Notional;
    var q := FillFacts(setup, s, a, id, f);
    OutlayPrefix(StreamOf(s.venue.history, id), a.marks[id]);
  }

  lemma IntentsSame(setup: Setup, s: Sys, a: Aux, s': Sys, a': Aux)
    requires IntentsOk(setup, s, a) && s'.desk.engine.intents == s.desk.engine.intents
    requires a'.base == a.base && s.clock <= s'.clock
    ensures IntentsOk(setup, s', a')
  {
  }

  lemma PendingSame(setup: Setup, s: Sys, a: Aux, s': Sys, a': Aux)
    requires AllPendingOk(setup, s, a) && s'.venue.pending == s.venue.pending && s'.venue.history == s.venue.history
    requires s'.venue.submitted == s.venue.submitted && a'.base == a.base && a'.owner == a.owner
    ensures AllPendingOk(setup, s', a')
  {
    hide StreamOf;
    forall p | p in s'.venue.pending
      ensures PendingOk(setup, s', a', p)
    {
      assert PendingOk(setup, s, a, p);
    }
  }

  /** Any other unfinished order is on another token. */
  lemma OthersElsewhere(setup: Setup, s: Sys, a: Aux, id: IntentId, k: IntentId)
    requires StreamsOk(setup, s, a) && OneOpenPerToken(s) && id in a.base && k in a.base && k != id
    requires id in s.desk.engine.orders && !s.desk.engine.orders[id].status.IsTerminal()
    requires a.base[k].intent.tokenId == a.base[id].intent.tokenId
    ensures k in a.marks && k in s.desk.engine.orders && s.desk.engine.orders[k].status.IsTerminal()
    ensures a.marks[k] == |StreamOf(s.venue.history, k)|
  {
    hide StreamOf;
    KnownOrder(setup, s, a, id);
    KnownOrder(setup, s, a, k);
    DoneOrder(setup, s, a, k);
    OpenOrTerminal(s.desk.engine.orders[id].status);
    OpenOrTerminal(s.desk.engine.orders[k].status);
  }

  lemma OpenOrTerminal(status: OrderStatus)
    ensures status.IsOpen() <==> !status.IsTerminal()
  {
  }

  lemma SharesAfterFill(setup: Setup, s: Sys, a: Aux, id: IntentId, f: Fill, s': Sys, a': Aux)
    requires FillArrives(setup, s, a, id, f) && IsAfterFill(s, a, id, f, s', a')
    ensures SharesCover(s', a')
  {
    hide StreamOf, FillArrives, IsAfterFill, Sum, Accounting.SharesOf;
    AfterFillFrame(setup, s, a, id, f, s', a');
    forall p | p in s'.venue.pending && p.intent.side.Sell?
      ensures p.intent.quantity <= Accounting.SharesOf(s'.desk.ledger.positions, p.intent.tokenId)
    {
      PendingSharesAfterFill(setup, s, a, id, f, s', a', p);
    }
    forall k | k in a'.base && k in a'.marks && a'.marks[k] <= |StreamOf(s'.venue.history, k)|
      ensures Sum(SoldIn, StreamOf(s'.venue.history, k)[a'.marks[k]..])
        <= Accounting.SharesOf(s'.desk.ledger.positions, a'.base[k].intent.tokenId)
    {
      StreamSharesAfterFill(setup, s, a, id, f, s', a', k);
    }
  }

  lemma AfterFillFrame(setup: Setup, s: Sys, a: Aux, id: IntentId, f: Fill, s': Sys, a': Aux)
    requires FillArrives(setup, s, a, id, f) && IsAfterFill(s, a, id, f, s', a')
    ensures s'.venue == s.venue && s'.clock == s.clock && s'.books == s.books && a'.base == a.base && a'.owner == a.owner
    ensures s'.desk.engine.intents == s.desk.engine.intents
  {
    hide Core, StreamOf, Accounting.ApplyFill, Execution.FillRecord;
  }

  lemma PendingSharesAfterFill(setup: Setup, s: Sys, a: Aux, id: IntentId, f: Fill, s': Sys, a': Aux, p: Pending)
    requires FillArrives(setup, s, a, id, f) && IsAfterFill(s, a, id, f, s', a')
    requires p in s.venue.pending && p.intent.side.Sell?
    ensures p.intent.quantity <= Accounting.SharesOf(s'.desk.ledger.positions, p.intent.tokenId)
  {
    hide StreamOf, Pledges, PledgeTotal, Undelivered, Accounting.ApplyFill, Accounting.SharesOf, StreamsOk, Execution.FillRecord, HistoryOk;
    var q := FillFacts(setup, s, a, id, f);
    assert PendingOk(setup, s, a, p);
    LedgerFacts.FillMoves(s.desk.ledger, f, p.intent.tokenId);
    PendingElsewhere(setup, s, a, id, p);
  }

  lemma StreamSharesAfterFill(setup: Setup, s: Sys, a: Aux, id: IntentId, f: Fill, s': Sys, a': Aux, k: IntentId)
    requires FillArrives(setup, s, a, id, f) && IsAfterFill(s, a, id, f, s', a')
    requires k in a.base && k in a'.marks && a'.marks[k] <= |StreamOf(s.venue.history, k)|
    ensures Sum(SoldIn, StreamOf(s.venue.history, k)[a'.marks[k]..])
      <= Accounting.SharesOf(s'.desk.ledger.positions, a.base[k].intent.tokenId)
  {
    hide StreamOf, Pledges, PledgeTotal, Undelivered, Accounting.ApplyFill, Accounting.SharesOf, StreamsOk, Execution.FillRecord,
      HistoryOk, AllPendingOk;
    var q := FillFacts(setup, s, a, id, f);
    LedgerFacts.FillMoves(s.desk.ledger, f, a.base[k].intent.tokenId);
    LedgerFacts.FillKeepsWell(s.desk.ledger, f);
    LedgerFacts.SharesNonNegative(s'.desk.ledger, a.base[k].intent.tokenId);
    if k == id {
      var left := StreamOf(s.venue.history, id)[a.marks[id]..];
      assert left[1..] == StreamOf(s.venue.history, id)[a.marks[id] + 1..];
      assert Sum(SoldIn, left) == SoldIn(left[0]) + Sum(SoldIn, left[1..]);
    } else if a.base[k].intent.tokenId == f.tokenId {
      OthersElsewhere(setup, s, a, id, k);
      assert StreamOf(s.venue.history, k)[a.marks[k]..] == [];
    }
  }

  /** While an order has events under way, no other order is pending on its token. */
  lemma PendingElsewhere(setup: Setup, s: Sys, a: Aux, id: IntentId, p: Pending)
    requires IntentsOk(setup, s, a) && StreamsOk(setup, s, a) && OneOpenPerToken(s) && PendingOk(setup, s, a, p)
    requires id in a.base && id in s.desk.engine.orders && !s.desk.engine.orders[id].status.IsTerminal()
    requires StreamOf(s.venue.history, id) != []
    ensures p.intent.tokenId != a.base[id].intent.tokenId
  {
    hide StreamOf;
    var k := p.intent.intentId;
    if p.intent.tokenId == a.base[id].intent.tokenId {
      OthersElsewhere(setup, s, a, id, k);
      DoneOrder(setup, s, a, k);
    }
  }

  lemma OpensAfterFill(setup: Setup, s: Sys, a: Aux, id: IntentId, f: Fill, s': Sys, a': Aux)
    requires FillArrives(setup, s, a, id, f) && IsAfterFill(s, a, id, f, s', a')
    ensures OneOpenPerToken(s')
  {
    hide StreamOf, Pledges, PledgeTotal, Undelivered, Accounting.ApplyFill, StreamsOk, Notional;
    assert s'.desk.engine.orders[id].status.IsOpen() == s.desk.engine.orders[id].status.IsOpen();
  }

  lemma LedgerAfterFill(setup: Setup, s: Sys, a: Aux, id: IntentId, f: Fill, s': Sys, a': Aux)
    requires FillArrives(setup, s, a, id, f) && IsAfterFill(s, a, id, f, s', a')
    ensures LedgerOk(setup, s')
  {
    hide StreamOf, Pledges, PledgeTotal, Undelivered, Accounting.ApplyFill, StreamsOk;
    var q := FillFacts(setup, s, a, id, f);
    LedgerFacts.FillKeepsWell(s.desk.ledger, f);
    var after := s'.desk.ledger.positions;
    forall i | 0 <= i < |after|
      ensures PositionOk(setup, after[i])
    {
      assert after[i] in after;
      if !(after[i].tokenId == f.tokenId && after[i].conditionId == f.conditionId && after[i].outcome == f.outcome) {
        var p :| p in s.desk.ledger.positions && after[i].tokenId == p.tokenId && after[i].conditionId == p.conditionId
          && after[i].outcome == p.outcome;
        assert PositionOk(setup, p);
      }
    }
  }

  /** The next fill of an order keeps the invariant. */
  lemma DeliverFill(setup: Setup, s: Sys, a: Aux, id: IntentId, f: Fill)
    requires f.Valid() && FillArrives(setup, s, a, id, f)
    ensures Core(setup, s.(desk := DeliverOne(s.desk, FillEvent(f))), a.(marks := a.marks[id := a.marks[id] + 1]))
  {
    var s', a' := s.(desk := DeliverOne(s.desk, FillEvent(f))), a.(marks := a.marks[id := a.marks[id] + 1]);
    hide DeliverOne, IntentsOk, AllPendingOk, HistoryOk, Coupled, CashCovers, SharesCover, OneOpenPerToken, LedgerOk, IsAfterFill;
    FillIsAccepted(setup, s, a, id, f);
    StreamsAfterFill(setup, s, a, id, f, s', a');
    AfterFillFrame(setup, s, a, id, f, s', a');
    IntentsSame(setup, s, a, s', a');
    PendingSame(setup, s, a, s', a');
    HistoryAfterFill(setup, s, a, id, f, s', a');
    CoupledAfterFill(setup, s, a, id, f, s', a');
    CashAfterFill(setup, s, a, id, f, s', a');
    SharesAfterFill(setup, s, a, id, f, s', a');
    OpensAfterFill(setup, s, a, id, f, s', a');
    LedgerAfterFill(setup, s, a, id, f, s', a');
  }

  lemma StreamsAfterFill(setup: Setup, s: Sys, a: Aux, id: IntentId, f: Fill, s': Sys, a': Aux)
    requires FillArrives(setup, s, a, id, f) && IsAfterFill(s, a, id, f, s', a')
    requires Delivery.Tracks(s'.desk.engine, a.base, Streams(s.venue.history, a.base), a'.marks)
    ensures StreamsOk(setup, s', a')
  {
    hide StreamOf, Delivery.Tracks;
  }

  // ---------------------------------------------------------------- the terminal update arrives

  ghost predicate UpdateArrives(setup: Setup, s: Sys, a: Aux, id: IntentId, u: OrderUpdate) {
    && setup.Valid() && Core(setup, s, a)
    && id in a.marks && a.marks[id] < |StreamOf(s.venue.history, id)|
    && StreamOf(s.venue.history, id)[a.marks[id]] == UpdateEvent(u)
  }

  ghost predicate IsAfterUpdate(s: Sys, a: Aux, id: IntentId, u: OrderUpdate, s': Sys, a': Aux) {
    && id in s.desk.engine.orders && id in a.marks
    && Delivery.Moved(s.desk.engine, s'.desk.engine, id, Execution.UpdateRecord(s.desk.engine.orders[id], u))
    && s'.desk.engine.fillIds == s.desk.engine.fillIds
    && s' == s.(desk := s.desk.(engine := s'.desk.engine))
    && a' == a.(marks := a.marks[id := a.marks[id] + 1])
  }

  lemma UpdateFacts(setup: Setup, s: Sys, a: Aux, id: IntentId, u: OrderUpdate) returns (q: nat)
    requires UpdateArrives(setup, s, a, id, u)
    ensures q < |s.venue.history| && s.venue.history[q].event == UpdateEvent(u) && EntryOk(a, s.venue.history[q])
    ensures id in a.base && u.intentId == Some(id) && u.status.IsTerminal()
    ensures a.marks[id] == |StreamOf(s.venue.history, id)| - 1
    ensures id in s.desk.engine.orders && !s.desk.engine.orders[id].status.IsTerminal()
  {
    hide StreamOf, Pledges, PledgeTotal, Undelivered;
    KnownOrder(setup, s, a, id);
    DoneOrder(setup, s, a, id);
    UpdateIsLast(a.base[id], StreamOf(s.venue.history, id), a.marks[id]);
    StreamFromHistory(s.venue.history, id, a.marks[id]);
    q :| 0 <= q < |s.venue.history| && s.venue.history[q].event == UpdateEvent(u) && s.venue.history[q].event.IntentId() == Some(id);
    assert EntryOk(a, s.venue.history[q]);
  }

  lemma UpdateIsLast(rec: OrderRecord, stream: seq<Event>, i: nat)
    requires Delivery.Sound(rec, stream) && i < |stream| && stream[i].UpdateEvent?
    ensures i == |stream| - 1 && stream[i].update.status.IsTerminal()
  {
    assert Delivery.SoundUpdate(rec, stream, i);
  }

  /** The engine moves the order by the update and books nothing. */
  lemma UpdateIsBooked(setup: Setup, s: Sys, a: Aux, id: IntentId, u: OrderUpdate)
    requires UpdateArrives(setup, s, a, id, u)
    ensures id in s.desk.engine.orders && id in a.base
    ensures var (e', booked) := Execution.Deliver(s.desk.engine, UpdateEvent(u));
      && booked == None
      && Delivery.Moved(s.desk.engine, e', id, Execution.UpdateRecord(s.desk.engine.orders[id], u))
      && e'.fillIds == s.desk.engine.fillIds
  {
    hide StreamOf, Core, Delivery.Tracks, Delivery.AfterAll, Execution.Deliver, Execution.UpdateRecord, Delivery.Moved;
    NextArrives(setup, s, a, id);
    var streams := Streams(s.venue.history, a.base);
    Delivery.NextIsApplied(s.desk.engine, a.base, streams, a.marks, id);
    OneMore(a.base[id], streams[id], a.marks[id]);
  }

  lemma UpdateIsApplied(setup: Setup, s: Sys, a: Aux, id: IntentId, u: OrderUpdate)
    requires UpdateArrives(setup, s, a, id, u)
    ensures IsAfterUpdate(s, a, id, u, s.(desk := DeliverOne(s.desk, UpdateEvent(u))), a.(marks := a.marks[id := a.marks[id] + 1]))
    ensures Delivery.Tracks(DeliverOne(s.desk, UpdateEvent(u)).engine, a.base, Streams(s.venue.history, a.base), a.marks[id := a.marks[id] + 1])
  {
    hide StreamOf, Core, Delivery.Tracks, Execution.Deliver, Delivery.Moved, Execution.UpdateRecord;
    UpdateIsBooked(setup, s, a, id, u);
    NextIsTracked(setup, s, a, id);
    assert !s.desk.raised by { NotRaised(setup, s, a); }
  }

  lemma HistoryAfterUpdate(setup: Setup, s: Sys, a: Aux, id: IntentId, u: OrderUpdate, s': Sys, a': Aux)
    requires UpdateArrives(setup, s, a, id, u) && IsAfterUpdate(s, a, id, u, s', a')
    ensures HistoryOk(s', a')
  {
    hide StreamOf, Pledges, PledgeTotal, Undelivered, StreamsOk;
    var q := UpdateFacts(setup, s, a, id, u);
  }

  lemma CashAfterUpdate(setup: Setup, s: Sys, a: Aux, id: IntentId, u: OrderUpdate, s': Sys, a': Aux)
    requires UpdateArrives(setup, s, a, id, u) && IsAfterUpdate(s, a, id, u, s', a') && StreamsOk(setup, s', a')
    requires IntentsOk(setup, s', a')
    ensures CashCovers(setup, s', a')
  {
    hide StreamOf, PledgeTotal, Undelivered, Pledges, CashDelta, StreamsOk, Outlay;
    var q := UpdateFacts(setup, s, a, id, u);
    PledgesOk(setup, s, a);
    PledgesOk(setup, s', a');
    PledgeIs(setup, s', a', id);
    forall k | k in s.desk.engine.intents && k != id
      ensures k in Pledges(setup, s, a) && k in Pledges(setup, s', a') && Pledges(setup, s, a)[k] == Pledges(setup, s', a')[k]
    {
      PledgeIs(setup, s, a, k);
      PledgeIs(setup, s', a', k);
    }
    TotalChange(s.desk.engine.intents, Pledges(setup, s, a), Pledges(setup, s', a'), id);
  }

  lemma SharesAfterUpdate(setup: Setup, s: Sys, a: Aux, id: IntentId, u: OrderUpdate, s': Sys, a': Aux)
    requires UpdateArrives(setup, s, a, id, u) && IsAfterUpdate(s, a, id, u, s', a')
    ensures SharesCover(s', a')
  {
    hide StreamOf, PledgeTotal, Undelivered, Pledges, StreamsOk, Accounting.SharesOf;
    var q := UpdateFacts(setup, s, a, id, u);
    LedgerFacts.SharesNonNegative(s.desk.ledger, a.base[id].intent.tokenId);
    assert StreamOf(s.venue.history, id)[a.marks[id] + 1..] == [];
  }

  lemma OpensAfterUpdate(setup: Setup, s: Sys, a: Aux, id: IntentId, u: OrderUpdate, s': Sys, a': Aux)
    requires UpdateArrives(setup, s, a, id, u) && IsAfterUpdate(s, a, id, u, s', a')
    ensures OneOpenPerToken(s')
  {
    hide StreamOf, Pledges, PledgeTotal, Undelivered, StreamsOk;
    var q := UpdateFacts(setup, s, a, id, u);
    OpenOrTerminal(s'.desk.engine.orders[id].status);
    assert s'.desk.engine.orders[id].status.IsTerminal();
  }

  lemma StreamsAfterUpdate(setup: Setup, s: Sys, a: Aux, id: IntentId, u: OrderUpdate, s': Sys, a': Aux)
    requires UpdateArrives(setup, s, a, id, u) && IsAfterUpdate(s, a, id, u, s', a')
    requires Delivery.Tracks(s'.desk.engine, a.base, Streams(s.venue.history, a.base), a'.marks)
    ensures StreamsOk(setup, s', a')
  {
    hide StreamOf, Delivery.Tracks;
  }

  lemma LedgerSame(setup: Setup, s: Sys, s': Sys)
    requires s'.desk.ledger == s.desk.ledger && s'.desk.raised == s.desk.raised
    ensures LedgerOk(setup, s) ==> LedgerOk(setup, s')
    ensures Coupled(s) && s'.venue == s.venue && s'.desk.engine.fillIds == s.desk.engine.fillIds ==> Coupled(s')
  {
    hide Undelivered;
  }

  lemma AfterUpdateFrame(setup: Setup, s: Sys, a: Aux, id: IntentId, u: OrderUpdate, s': Sys, a': Aux)
    requires UpdateArrives(setup, s, a, id, u) && IsAfterUpdate(s, a, id, u, s', a')
    ensures s'.venue == s.venue && s'.clock == s.clock && s'.books == s.books && a'.base == a.base && a'.owner == a.owner
    ensures s'.desk.engine.intents == s.desk.engine.intents && s'.desk.engine.fillIds == s.desk.engine.fillIds
    ensures s'.desk.ledger == s.desk.ledger && s'.desk.raised == s.desk.raised
  {
    hide Core, StreamOf, Execution.UpdateRecord;
  }

  /** The terminal update of an order keeps the invariant. */
  lemma DeliverUpdate(setup: Setup, s: Sys, a: Aux, id: IntentId, u: OrderUpdate)
    requires UpdateArrives(setup, s, a, id, u)
    ensures Core(setup, s.(desk := DeliverOne(s.desk, UpdateEvent(u))), a.(marks := a.marks[id := a.marks[id] + 1]))
  {
    var s', a' := s.(desk := DeliverOne(s.desk, UpdateEvent(u))), a.(marks := a.marks[id := a.marks[id] + 1]);
    hide DeliverOne, IntentsOk, AllPendingOk, HistoryOk, StreamsOk, Coupled, CashCovers, SharesCover, OneOpenPerToken, LedgerOk,
      Delivery.Tracks, StreamOf, IsAfterUpdate;
    UpdateIsApplied(setup, s, a, id, u);
    AfterUpdateFrame(setup, s, a, id, u, s', a');
    StreamsAfterUpdate(setup, s, a, id, u, s', a');
    IntentsSame(setup, s, a, s', a');
    PendingSame(setup, s, a, s', a');
    HistoryAfterUpdate(setup, s, a, id, u, s', a');
    LedgerSame(setup, s, s');
    CashAfterUpdate(setup, s, a, id, u, s', a');
    SharesAfterUpdate(setup, s, a, id, u, s', a');
    OpensAfterUpdate(setup, s, a, id, u, s', a');
  }

  lemma RepeatChangesNothing(setup: Setup, s: Sys, a: Aux, id: IntentId, j: nat)
    requires Core(setup, s, a) && id in a.marks && j < a.marks[id] && j < |StreamOf(s.venue.history, id)|
    requires ValidEvent(StreamOf(s.venue.history, id)[j])
    ensures DeliverOne(s.desk, StreamOf(s.venue.history, id)[j]) == s.desk
  {
    hide StreamOf, Pledges, PledgeTotal, Undelivered, Execution.Deliver, Delivery.Tracks, IntentsOk, AllPendingOk, HistoryOk, Coupled,
      CashCovers, SharesCover, OneOpenPerToken;
    KnownOrder(setup, s, a, id);
    var streams := Streams(s.venue.history, a.base);
    assert streams[id] == StreamOf(s.venue.history, id);
    Delivery.RepeatIsIgnored(s.desk.engine, a.base, streams, a.marks, id, j);
  }

  /** Events of a known order are valid values. */
  lemma StreamEventsValid(setup: Setup, s: Sys, a: Aux, id: IntentId, j: nat)
    requires Core(setup, s, a) && id in a.marks && j < |StreamOf(s.venue.history, id)|
    ensures id in a.base && ValidEvent(StreamOf(s.venue.history, id)[j])
  {
    hide StreamOf, Pledges, PledgeTotal, Undelivered, IntentsOk, AllPendingOk, HistoryOk, Coupled, CashCovers, SharesCover, OneOpenPerToken;
    KnownOrder(setup, s, a, id);
    var ev := StreamOf(s.venue.history, id)[j];
    assert ev.FillEvent? ==> Delivery.SoundFill(a.base[id], StreamOf(s.venue.history, id), j);
  }

  /** Any gap-free arrival, new or repeated, keeps the invariant. */
  lemma DeliverKeepsCore(setup: Setup, s: Sys, a: Aux, id: IntentId, j: nat)
    requires setup.Valid() && Core(setup, s, a) && id in a.marks && j <= a.marks[id] && j < |StreamOf(s.venue.history, id)|
    ensures id in a.base && ValidEvent(StreamOf(s.venue.history, id)[j])
    ensures var s', a' := s.(desk := DeliverOne(s.desk, StreamOf(s.venue.history, id)[j])), a.(marks := Delivery.Raise(a.marks, id, j));
      Core(setup, s', a')
  {
    hide StreamOf, Core, DeliverOne;
    StreamEventsValid(setup, s, a, id, j);
    var ev := StreamOf(s.venue.history, id)[j];
    if j < a.marks[id] {
      RepeatChangesNothing(setup, s, a, id, j);
      assert s.(desk := s.desk) == s && a.(marks := a.marks) == a;
    } else if ev.FillEvent? {
      DeliverFill(setup, s, a, id, ev.fill);
    } else {
      DeliverUpdate(setup, s, a, id, ev.update);
    }
  }
}
