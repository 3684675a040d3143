/** The order path's invariant holds in every reachable state, and what follows from it. */
module OrderPathProof {
  import opened Domain
  import opened PaperVenue
  import opened MatchBlocks
  import opened Histories
  import opened Sums
  import opened TradingDesk
  import opened OrderPath
  import opened DeliverStep
  import opened VenueStep
  import opened SubmitStep
  import opened SettleStep
  import Execution
  import Accounting
  import Delivery

  // ---------------------------------------------------------------- clock and books

  /** Core does not depend on the event queue, and survives a later clock and any bounded books. */
  lemma FrameKeepsCore(setup: Setup, s: Sys, a: Aux, s': Sys)
    requires Core(setup, s, a) && s'.desk == s.desk && s.clock <= s'.clock && BooksWithin(s'.books, setup.maxLevels)
    requires s'.venue == s.venue.(events := s'.venue.events)
    ensures Core(setup, s', a)
  {
    hide IntentsOk, AllPendingOk, HistoryOk, StreamsOk, CashCovers, SharesCover, LedgerOk, BooksWithin, StreamOf, Undelivered;
    IntentsSame(setup, s, a, s', a);
    PendingSame(setup, s, a, s', a);
    HistorySame(setup, s, a, s');
    LedgerSame(setup, s, s');
    SameStreams(setup, s, a, s');
    forall t: TokenId
      ensures s'.venue.Held(t) == s.venue.Held(t)
    {
    }
  }

  lemma SameStreams(setup: Setup, s: Sys, a: Aux, s': Sys)
    requires s'.desk == s.desk && s'.venue == s.venue.(events := s'.venue.events)
    ensures StreamsOk(setup, s, a) ==> StreamsOk(setup, s', a)
    ensures CashCovers(setup, s, a) ==> CashCovers(setup, s', a)
    ensures SharesCover(s, a) ==> SharesCover(s', a)
  {
    hide StreamOf, Delivery.Tracks, StreamOk, Accounting.SharesOf, Pledge, PledgeTotal;
    assert Pledges(setup, s', a) == Pledges(setup, s, a);
  }

  // ---------------------------------------------------------------- the queue

  /** `w` comes after `v`: what was logged since is what was queued since. */
  ghost predicate Extends(v: Venue, w: Venue) {
    && |v.history| <= |w.history| && w.history[..|v.history|] == v.history
    && w.events == v.events + EventsOf(w.history[|v.history|..])
  }

  lemma ExtendsAll(u: Venue, v: Venue, w: Venue)
    requires Extends(u, v) && Extends(v, w)
    ensures Extends(u, w)
  {
    assert w.history[|u.history|..] == v.history[|u.history|..] + w.history[|v.history|..];
    EventsOfAppend(v.history[|u.history|..], w.history[|v.history|..]);
    assert w.history[..|u.history|] == w.history[..|v.history|][..|u.history|];
  }

  lemma EventsOfAppend(x: seq<Logged>, y: seq<Logged>)
    ensures EventsOf(x + y) == EventsOf(x) + EventsOf(y)
  {
  }

  lemma BookedExtends(v: Venue, w: Venue, token: TokenId, block: seq<Event>)
    requires Booked(v, w, token, block)
    ensures Extends(v, w)
  {
    assert w.history[|v.history|..] == LogAll(token, block);
    assert EventsOf(LogAll(token, block)) == block;
  }

  /** An extension leaves the queue and the polled point in order. */
  lemma ExtendsKeepsQueue(s: Sys, a: Aux, w: Venue, polled: nat)
    requires PolledOk(s, a, polled) && QueueOk(s, polled) && Extends(s.venue, w)
    ensures PolledOk(s.(venue := w), a, polled) && QueueOk(s.(venue := w), polled)
  {
    hide StreamOf;
    assert w.history[..polled] == w.history[..|s.venue.history|][..polled] == s.venue.history[..polled];
    assert w.history[polled..] == s.venue.history[polled..] + w.history[|s.venue.history|..];
    EventsOfAppend(s.venue.history[polled..], w.history[|s.venue.history|..]);
  }

  // ---------------------------------------------------------------- advance and cancel

  lemma {:induction false} MatchAllKeeps(setup: Setup, s: Sys, a: Aux, orders: seq<Pending>)
    requires setup.Valid() && Core(setup, s, a) && Apart(orders)
    requires forall p :: p in orders ==> p in s.venue.pending
    ensures var w := MatchAll(setup.cfg, s.venue, s.books, orders); Core(setup, s.(venue := w), a) && Extends(s.venue, w)
    decreases |orders|
  {
    hide Core, Extends, Match, Booked, Block;
    if orders == [] {
      assert s.(venue := s.venue) == s;
      ExtendsSelf(s.venue);
    } else {
      var p := orders[0];
      var taken := s.venue.(pending := Without(s.venue.pending, p.orderId));
      var v := Match(setup.cfg, taken, s.books, p, p.dueMs);
      MatchKeepsCore(setup, s, a, p);
      MatchIsBlock(setup.cfg, taken, s.books, p, p.dueMs);
      BookedExtends(taken, v, p.intent.tokenId, Block(setup.cfg, taken, s.books, p, p.dueMs));
      SameLog(s.venue, taken, v);
      BookedPending(taken, v, p.intent.tokenId, Block(setup.cfg, taken, s.books, p, p.dueMs));
      ApartRest(orders);
      MatchAllKeeps(setup, s.(venue := v), a, orders[1..]);
      ExtendsAll(s.venue, v, MatchAll(setup.cfg, v, s.books, orders[1..]));
    }
  }

  lemma ExtendsSelf(v: Venue)
    ensures Extends(v, v)
  {
    assert v.events + [] == v.events;
  }

  lemma SameLog(v: Venue, taken: Venue, w: Venue)
    requires taken.history == v.history && taken.events == v.events && Extends(taken, w)
    ensures Extends(v, w)
  {
  }

  lemma BookedPending(v: Venue, w: Venue, token: TokenId, block: seq<Event>)
    requires Booked(v, w, token, block)
    ensures w.pending == v.pending && w.submitted == v.submitted
  {
  }

  lemma ApartRest(orders: seq<Pending>)
    requires Apart(orders) && orders != []
    ensures Apart(orders[1..])
    ensures forall p :: p in orders[1..] ==> p.orderId != orders[0].orderId
  {
    forall j | 0 <= j < |orders[1..]|
      ensures orders[1..][j].orderId != orders[0].orderId
    {
      assert orders[1..][j] == orders[j + 1];
    }
  }

  lemma {:induction false} DueApart(pending: seq<Pending>, now: int)
    requires Apart(pending)
    ensures Apart(Due(pending, now))
  {
    if pending != [] {
      ApartRest(pending);
      DueApart(pending[1..], now);
      var rest := Due(pending[1..], now);
      forall j | 0 <= j < |rest|
        ensures pending[0].orderId != rest[j].orderId && pending[0].intent.intentId != rest[j].intent.intentId
      {
        assert rest[j] in pending[1..];
      }
    }
  }

  lemma {:induction false} InsertApart(p: Pending, sorted: seq<Pending>)
    requires Apart([p] + sorted)
    ensures Apart(InsertByDue(p, sorted))
    ensures forall q :: q in InsertByDue(p, sorted) <==> q == p || q in sorted
  {
    if sorted == [] || p.dueMs <= sorted[0].dueMs {
    } else {
      var all := [p] + sorted;
      assert all[0] == p && all[1] == sorted[0];
      forall i, j | 0 <= i < j < |[p] + sorted[1..]|
        ensures ([p] + sorted[1..])[i].orderId != ([p] + sorted[1..])[j].orderId
          && ([p] + sorted[1..])[i].intent.intentId != ([p] + sorted[1..])[j].intent.intentId
      {
        assert ([p] + sorted[1..])[j] == all[j + 1];
        assert i > 0 ==> ([p] + sorted[1..])[i] == all[i + 1];
      }
      InsertApart(p, sorted[1..]);
      var rest := InsertByDue(p, sorted[1..]);
      forall j | 0 <= j < |rest|
        ensures sorted[0].orderId != rest[j].orderId && sorted[0].intent.intentId != rest[j].intent.intentId
      {
        assert rest[j] in rest;
        if rest[j] in sorted[1..] {
          var k :| 0 <= k < |sorted[1..]| && sorted[1..][k] == rest[j];
          assert all[1] == sorted[0] && all[k + 2] == rest[j];
        }
      }
    }
  }

  lemma {:induction false} SortApart(pending: seq<Pending>)
    requires Apart(pending)
    ensures Apart(SortByDue(pending))
    ensures forall q :: q in SortByDue(pending) <==> q in pending
  {
    if pending != [] {
      ApartRest(pending);
      SortApart(pending[1..]);
      var sorted := SortByDue(pending[1..]);
      forall j | 0 <= j < |sorted|
        ensures pending[0].orderId != sorted[j].orderId && pending[0].intent.intentId != sorted[j].intent.intentId
      {
        assert sorted[j] in pending[1..];
      }
      InsertApart(pending[0], sorted);
    }
  }

  lemma AdvanceKeeps(setup: Setup, s: Sys, a: Aux)
    requires setup.Valid() && Core(setup, s, a)
    ensures var w := Advance(setup.cfg, s.venue, s.books, s.clock); Core(setup, s.(venue := w), a) && Extends(s.venue, w)
  {
    hide Extends, MatchAll, IntentsOk, HistoryOk, StreamsOk, Coupled, CashCovers, SharesCover, OneOpenPerToken, LedgerOk, BooksWithin, PendingOk;
    DueApart(s.venue.pending, s.clock);
    SortApart(Due(s.venue.pending, s.clock));
    MatchAllKeeps(setup, s, a, SortByDue(Due(s.venue.pending, s.clock)));
  }

  lemma CancelExtends(v: Venue, id: OrderId, now: int)
    ensures Extends(v, Cancel(v, id, now))
  {
    var found := Find(v.pending, id);
    if found.Some? {
      CancelIsBlock(v, id, now);
      var taken := v.(pending := Without(v.pending, id));
      BookedExtends(taken, Cancel(v, id, now), found.value.intent.tokenId, [CancelUpdate(found.value, now)]);
      SameLog(v, taken, Cancel(v, id, now));
    } else {
      ExtendsSelf(v);
    }
  }

  lemma {:induction false} CancelEachKeeps(setup: Setup, s: Sys, a: Aux, ids: seq<OrderId>)
    requires setup.Valid() && Core(setup, s, a)
    ensures var w := CancelEach(s.venue, ids, s.clock); Core(setup, s.(venue := w), a) && Extends(s.venue, w)
    decreases |ids|
  {
    hide Core, Extends, Cancel;
    if ids == [] {
      assert s.(venue := s.venue) == s;
      ExtendsSelf(s.venue);
    } else {
      var v := Cancel(s.venue, ids[0], s.clock);
      CancelKeepsCore(setup, s, a, ids[0]);
      CancelExtends(s.venue, ids[0], s.clock);
      CancelEachKeeps(setup, s.(venue := v), a, ids[1..]);
      ExtendsAll(s.venue, v, CancelEach(v, ids[1..], s.clock));
    }
  }

  // ---------------------------------------------------------------- poll and apply

  /** How far each order's events are delivered once history entries from `q` on were applied. */
  ghost function Drained(history: seq<Logged>, marks: Delivery.Marks, q: nat): Delivery.Marks
    requires q <= |history|
    decreases |history| - q
  {
    if q == |history| then marks
    else
      var id := history[q].event.IntentId();
      Drained(history,
              if id.Some? && id.value in marks then Delivery.Raise(marks, id.value, |StreamOf(history[..q], id.value)|) else marks,
              q + 1)
  }

  /** The queued event at history position `q` is a gap-free arrival of its order. */
  lemma QueuedIsGapFree(setup: Setup, s: Sys, a: Aux, q: nat)
    requires HistoryOk(s, a) && PolledOk(s, a, q) && q < |s.venue.history|
    ensures var ev := s.venue.history[q].event;
      && ev.IntentId().Some?
      && var id := ev.IntentId().value;
         && id in a.base && id in a.marks
         && var j := |StreamOf(s.venue.history[..q], id)|;
            j <= a.marks[id] && j < |StreamOf(s.venue.history, id)| && StreamOf(s.venue.history, id)[j] == ev
  {
    hide StreamOf;
    assert EntryOk(a, s.venue.history[q]);
    EntryInStream(s.venue.history, q, s.venue.history[q].event.IntentId().value);
  }

  lemma PolledOneMore(s: Sys, a: Aux, q: nat, id: IntentId, j: nat)
    requires PolledOk(s, a, q) && q < |s.venue.history| && s.venue.history[q].event.IntentId() == Some(id)
    requires id in a.marks && j == |StreamOf(s.venue.history[..q], id)| <= a.marks[id]
    ensures PolledOk(s, a.(marks := Delivery.Raise(a.marks, id, j)), q + 1)
  {
    hide StreamOf;
    var a' := a.(marks := Delivery.Raise(a.marks, id, j));
    forall k | k in a.base
      ensures k in a'.marks && |StreamOf(s.venue.history[..q + 1], k)| <= a'.marks[k]
    {
      if k == id {
        EntryInStream(s.venue.history, q, id);
      } else {
        StreamSkips(s.venue.history, q, k);
      }
    }
  }

  /** Applying everything queued keeps the invariant and leaves nothing queued. */
  lemma {:induction false} DrainKeeps(setup: Setup, s: Sys, a: Aux, q: nat)
    requires setup.Valid() && Core(setup, s, a) && PolledOk(s, a, q)
    ensures var events := EventsOf(s.venue.history[q..]);
      && ValidEvents(events)
      && var s', a' := s.(desk := DeliverAll(s.desk, events)), a.(marks := Drained(s.venue.history, a.marks, q));
         Core(setup, s', a') && PolledOk(s', a', |s.venue.history|)
    decreases |s.venue.history| - q
  {
    hide StreamOf, Core, DeliverOne, PolledOk, DeliverAll, Drained, EventsOf, HistoryOk, StreamsOk, IntentsOk, Coupled, ValidEvent, ValidEvents;
    QueueBound(s, a, q);
    var events := EventsOf(s.venue.history[q..]);
    if q == |s.venue.history| {
      NothingToDrain(s, a, q);
    } else {
      CoreHistory(setup, s, a);
      QueuedIsGapFree(setup, s, a, q);
      var ev := s.venue.history[q].event;
      var id := ev.IntentId().value;
      var j := |StreamOf(s.venue.history[..q], id)|;
      DeliverKeepsCore(setup, s, a, id, j);
      PolledOneMore(s, a, q, id, j);
      var s1, a1 := s.(desk := DeliverOne(s.desk, ev)), a.(marks := Delivery.Raise(a.marks, id, j));
      SamePolled(s, s1, a1, q + 1);
      DrainKeeps(setup, s1, a1, q + 1);
      DrainFirst(s, a, q, id);
    }
  }

  lemma NothingToDrain(s: Sys, a: Aux, q: nat)
    requires q == |s.venue.history|
    ensures var events := EventsOf(s.venue.history[q..]);
      ValidEvents(events) && s.(desk := DeliverAll(s.desk, events)) == s && a.(marks := Drained(s.venue.history, a.marks, q)) == a
  {
  }

  lemma DrainFirst(s: Sys, a: Aux, q: nat, id: IntentId)
    requires q < |s.venue.history| && s.venue.history[q].event.IntentId() == Some(id) && id in a.marks
    requires ValidEvent(s.venue.history[q].event) && ValidEvents(EventsOf(s.venue.history[q + 1..]))
    ensures ValidEvents(EventsOf(s.venue.history[q..]))
    ensures DeliverAll(s.desk, EventsOf(s.venue.history[q..]))
      == DeliverAll(DeliverOne(s.desk, s.venue.history[q].event), EventsOf(s.venue.history[q + 1..]))
    ensures Drained(s.venue.history, a.marks, q)
      == Drained(s.venue.history, Delivery.Raise(a.marks, id, |StreamOf(s.venue.history[..q], id)|), q + 1)
  {
    hide StreamOf, DeliverOne, ValidEvent;
    var ev, rest := s.venue.history[q].event, EventsOf(s.venue.history[q + 1..]);
    FirstValid(ev, rest);
    assert EventsOf(s.venue.history[q..]) == [ev] + rest;
    assert ([ev] + rest)[1..] == rest;
  }

  lemma QueueBound(s: Sys, a: Aux, q: nat)
    requires PolledOk(s, a, q)
    ensures q <= |s.venue.history|
  {
  }

  lemma SamePolled(s: Sys, s': Sys, a: Aux, q: nat)
    requires PolledOk(s, a, q) && s'.venue.history == s.venue.history
    ensures PolledOk(s', a, q)
  {
    hide StreamOf;
  }

  lemma CoreHistory(setup: Setup, s: Sys, a: Aux)
    requires Core(setup, s, a)
    ensures HistoryOk(s, a) && IntentsOk(setup, s, a) && StreamsOk(setup, s, a) && Coupled(s)
  {
  }

  lemma FirstValid(ev: Event, rest: seq<Event>)
    requires ValidEvent(ev) && ValidEvents(rest)
    ensures ValidEvents([ev] + rest)
  {
  }

  lemma PollKeeps(setup: Setup, s: Sys, a: Aux, polled: nat)
    requires Inv(setup, s, a, polled)
    ensures var v := Advance(setup.cfg, s.venue, s.books, s.clock);
      && ValidEvents(v.events)
      && polled <= |v.history|
      && var s', a' := s.(venue := v.(events := []), desk := DeliverAll(s.desk, v.events)), a.(marks := Drained(v.history, a.marks, polled));
         Inv(setup, s', a', |v.history|)
  {
    hide Core, Extends, Advance, DeliverAll, Drained, StreamOf;
    var v := Advance(setup.cfg, s.venue, s.books, s.clock);
    var s1 := s.(venue := v);
    AdvanceKeeps(setup, s, a);
    ExtendsKeepsQueue(s, a, v, polled);
    DrainKeeps(setup, s1, a, polled);
    var s2, a2 := s1.(desk := DeliverAll(s.desk, v.events)), a.(marks := Drained(v.history, a.marks, polled));
    var s' := s.(venue := v.(events := []), desk := DeliverAll(s.desk, v.events));
    CoreBooks(setup, s2, a2);
    FrameKeepsCore(setup, s2, a2, s');
    SamePolled(s2, s', a2, |v.history|);
    assert EventsOf(v.history[|v.history|..]) == [];
  }

  lemma CoreBooks(setup: Setup, s: Sys, a: Aux)
    requires Core(setup, s, a)
    ensures BooksWithin(s.books, setup.maxLevels)
  {
  }

  // ---------------------------------------------------------------- the history query

  /** Entries are the order's own by either id, or by neither. */
  ghost predicate Own(entry: Logged, rec: OrderRecord) {
    var own := entry.event.IntentId() == Some(rec.intent.intentId);
    && (own ==> entry.token == rec.intent.tokenId && rec.intent.createdMs <= entry.event.TsMs())
    && (!own ==> rec.exchangeOrderId.None? || entry.event.ExchangeOrderId() != rec.exchangeOrderId)
  }

  lemma {:induction false} MineIsStream(history: seq<Logged>, rec: OrderRecord)
    requires forall q :: 0 <= q < |history| ==> Own(history[q], rec)
    ensures Execution.Mine(OrdersSince(history, rec.intent.tokenId, rec.intent.createdMs), rec) == StreamOf(history, rec.intent.intentId)
  {
    if history != [] {
      var rest := history[1..];
      MineIsStream(rest, rec);
      assert history == [history[0]] + rest;
      StreamAppend([history[0]], rest, rec.intent.intentId);
      OneEntry(history[0], rec.intent.intentId);
      var found := OrdersSince(rest, rec.intent.tokenId, rec.intent.createdMs);
      assert ([history[0].event] + found)[1..] == found;
      assert Own(history[0], rec);
    }
  }

  lemma OneEntry(entry: Logged, id: IntentId)
    ensures StreamOf([entry], id) == if entry.event.IntentId() == Some(id) then [entry.event] else []
  {
    assert [entry][..0] == [];
  }

  /** What the history query finds for an order is exactly the order's own events. */
  lemma FoundIsStream(setup: Setup, s: Sys, a: Aux, id: IntentId)
    requires HistoryOk(s, a) && IntentsOk(setup, s, a) && StreamsOk(setup, s, a) && id in s.desk.engine.orders
    ensures Found(s, s.desk.engine.orders[id]) == StreamOf(s.venue.history, id)
  {
    hide StreamOf, Execution.Mine, OrdersSince, StreamsOk, KnownIntent;
    KnownOrder(setup, s, a, id);
    var rec := s.desk.engine.orders[id];
    forall q | 0 <= q < |s.venue.history|
      ensures Own(s.venue.history[q], rec)
    {
      assert EntryOk(a, s.venue.history[q]);
    }
    MineIsStream(s.venue.history, rec);
  }

  /** Replaying an order's events from any point already reached delivers them all. */
  lemma {:induction false} ReplayKeeps(setup: Setup, s: Sys, a: Aux, id: IntentId, j: nat)
    requires setup.Valid() && Core(setup, s, a) && id in a.marks && j <= a.marks[id] <= |StreamOf(s.venue.history, id)|
    ensures var events := StreamOf(s.venue.history, id)[j..];
      && ValidEvents(events)
      && Core(setup, s.(desk := DeliverAll(s.desk, events)), a.(marks := a.marks[id := |StreamOf(s.venue.history, id)|]))
    decreases |StreamOf(s.venue.history, id)| - j
  {
    hide StreamOf, Core, DeliverOne;
    var stream := StreamOf(s.venue.history, id);
    if j == |stream| {
      assert s.(desk := s.desk) == s && a.(marks := a.marks[id := |stream|]) == a;
    } else {
      DeliverKeepsCore(setup, s, a, id, j);
      var s1, a1 := s.(desk := DeliverOne(s.desk, stream[j])), a.(marks := Delivery.Raise(a.marks, id, j));
      ReplayKeeps(setup, s1, a1, id, j + 1);
      assert a1.marks[id := |stream|] == a.marks[id := |stream|];
      assert stream[j..][1..] == stream[j + 1..];
      FirstValid(stream[j], stream[j + 1..]);
      assert [stream[j]] + stream[j + 1..] == stream[j..];
    }
  }

  lemma ResolveKeeps(setup: Setup, s: Sys, a: Aux, polled: nat, id: IntentId)
    requires Inv(setup, s, a, polled) && id in s.desk.engine.orders
    ensures var mine := Found(s, s.desk.engine.orders[id]);
      && mine == StreamOf(s.venue.history, id) && ValidEvents(mine) && id in a.marks
      && Inv(setup, s.(desk := DeliverAll(s.desk, mine)), a.(marks := a.marks[id := |mine|]), polled)
  {
    hide Core, StreamOf, Found, DeliverAll, HistoryOk, IntentsOk, StreamsOk, Coupled;
    CoreHistory(setup, s, a);
    KnownOrder(setup, s, a, id);
    FoundIsStream(setup, s, a, id);
    ReplayKeeps(setup, s, a, id, 0);
    assert StreamOf(s.venue.history, id)[0..] == StreamOf(s.venue.history, id);
  }

  // ---------------------------------------------------------------- runs

  datatype World = World(sys: Sys, aux: Aux, polled: nat)

  ghost function NextWorld(setup: Setup, w: World, step: Step): World {
    var s := w.sys;
    var s' := Next(setup, s, step);
    match step
    case SubmitOrder(_, condition, _, _, _, _, _) =>
      World(s', if condition in setup.markets && setup.markets[condition].Valid() then AuxAfterSubmit(setup, s, w.aux, step) else w.aux, w.polled)
    case PollAndApply =>
      World(s', if w.polled <= |s'.venue.history| then w.aux.(marks := Drained(s'.venue.history, w.aux.marks, w.polled)) else w.aux,
            |s'.venue.history|)
    case ResolveUnknown(id) =>
      World(s', w.aux.(marks := w.aux.marks[id := |StreamOf(s.venue.history, id)|]), w.polled)
    case OperatorNoFill(id) =>
      World(s', if id in s.desk.engine.orders then w.aux.(base := w.aux.base[id := Closed(s, id)]) else w.aux, w.polled)
    case _ => World(s', w.aux, w.polled)
  }

  ghost predicate EnabledRun(setup: Setup, w: World, steps: seq<Step>)
    decreases |steps|
  {
    steps == [] || (Enabled(setup, w.sys, w.aux, steps[0]) && EnabledRun(setup, NextWorld(setup, w, steps[0]), steps[1..]))
  }

  ghost function Run(setup: Setup, w: World, steps: seq<Step>): World
    decreases |steps|
  {
    if steps == [] then w else Run(setup, NextWorld(setup, w, steps[0]), steps[1..])
  }

  ghost predicate Holds(setup: Setup, w: World) {
    Inv(setup, w.sys, w.aux, w.polled)
  }

  function Begin(cash: real, clock: int): World {
    World(Start(cash, clock), NO_ORDERS, 0)
  }

  lemma SubmitKeepsInv(setup: Setup, w: World, step: Step)
    requires Holds(setup, w) && step.SubmitOrder? && Enabled(setup, w.sys, w.aux, step)
    ensures Holds(setup, NextWorld(setup, w, step))
  {
    var s, a := w.sys, w.aux;
    SubmitStepKeepsCore(setup, s, a, step);
    hide Core, StreamOf, Covered, Execution.InFlight, PreparedBy;
    if PreparedBy(setup, s, step).Built? {
      SubmitLeavesQueue(setup, s, a, step, w.polled);
    }
  }

  lemma SubmitLeavesQueue(setup: Setup, s: Sys, a: Aux, step: Step, polled: nat)
    requires Inv(setup, s, a, polled) && step.SubmitOrder? && Enabled(setup, s, a, step) && PreparedBy(setup, s, step).Built?
    ensures PolledOk(AfterSubmit(setup, s, step), AuxAfterSubmit(setup, s, a, step), polled)
    ensures QueueOk(AfterSubmit(setup, s, step), polled)
  {
    var s', a' := AfterSubmit(setup, s, step), AuxAfterSubmit(setup, s, a, step);
    StepSubmits(setup, s, a, step);
    SubmitsLeaveQueue(setup, s, a, s'.desk.engine.orders[step.id], Reached(setup, s, step), s', a', polled);
  }

  lemma SubmitsLeaveQueue(setup: Setup, s: Sys, a: Aux, rec: OrderRecord, reached: Option<Pending>, s': Sys, a': Aux, polled: nat)
    requires Submits(setup, s, a, rec, reached, s', a') && PolledOk(s, a, polled) && QueueOk(s, polled)
    ensures PolledOk(s', a', polled) && QueueOk(s', polled)
  {
    hide Core, StreamOf, Covered, KnownIntent, NewPending;
    NewUnpolled(setup, s, a, rec.intent.intentId, polled);
  }

  lemma NewUnpolled(setup: Setup, s: Sys, a: Aux, id: IntentId, polled: nat)
    requires Core(setup, s, a) && id !in s.desk.engine.orders && polled <= |s.venue.history|
    ensures StreamOf(s.venue.history[..polled], id) == []
  {
    hide Core;
    NewIsUnheardOf(setup, s, a, id);
    StreamIsEmpty(s.venue.history[..polled], id);
  }

  lemma AdvanceKeepsInv(setup: Setup, w: World)
    requires Holds(setup, w)
    ensures Holds(setup, NextWorld(setup, w, AdvanceVenue))
  {
    hide Core, Extends, Advance, PolledOk, QueueOk;
    AdvanceKeeps(setup, w.sys, w.aux);
    ExtendsKeepsQueue(w.sys, w.aux, Advance(setup.cfg, w.sys.venue, w.sys.books, w.sys.clock), w.polled);
  }

  lemma CancelKeepsInv(setup: Setup, w: World, ids: seq<OrderId>)
    requires Holds(setup, w)
    ensures Inv(setup, w.sys.(venue := CancelEach(w.sys.venue, ids, w.sys.clock)), w.aux, w.polled)
  {
    hide Core, Extends, PolledOk, QueueOk, CancelEach;
    CancelEachKeeps(setup, w.sys, w.aux, ids);
    ExtendsKeepsQueue(w.sys, w.aux, CancelEach(w.sys.venue, ids, w.sys.clock), w.polled);
  }

  lemma OneCancel(v: Venue, id: OrderId, now: int)
    ensures CancelEach(v, [id], now) == Cancel(v, id, now)
  {
    assert [id][1..] == [];
  }

  lemma QuietKeepsInv(setup: Setup, w: World, step: Step)
    requires Holds(setup, w) && Enabled(setup, w.sys, w.aux, step) && (step.Tick? || step.ChangeBooks?)
    ensures Holds(setup, NextWorld(setup, w, step))
  {
    hide Core, BooksWithin, StreamOf;
    CoreBooks(setup, w.sys, w.aux);
    FrameKeepsCore(setup, w.sys, w.aux, Next(setup, w.sys, step));
  }

  lemma SettleKeepsInv(setup: Setup, w: World, step: Step)
    requires Holds(setup, w) && Enabled(setup, w.sys, w.aux, step) && step.SettleMarket?
    ensures Holds(setup, NextWorld(setup, w, step))
  {
    hide Core, StreamOf, Enabled;
    SettleKeepsCore(setup, w.sys, w.aux, step);
    SettleFrame(setup, w.sys, w.aux, step);
  }

  lemma CloseKeepsInv(setup: Setup, w: World, id: IntentId)
    requires Holds(setup, w) && Enabled(setup, w.sys, w.aux, OperatorNoFill(id))
    ensures Holds(setup, NextWorld(setup, w, OperatorNoFill(id)))
  {
    hide Core, StreamOf, NeverReached;
    CloseKeepsCore(setup, w.sys, w.aux, id);
    CloseFrame(setup, w.sys, w.aux, id);
  }

  /** Every enabled step keeps the invariant. */
  lemma StepKeepsInv(setup: Setup, w: World, step: Step)
    requires Holds(setup, w) && Enabled(setup, w.sys, w.aux, step)
    ensures Holds(setup, NextWorld(setup, w, step))
  {
    hide Inv, Enabled, NextWorld, Holds;
    match step
    case Tick(_) => QuietKeepsInv(setup, w, step);
    case ChangeBooks(_) => QuietKeepsInv(setup, w, step);
    case SubmitOrder(_, _, _, _, _, _, _) => SubmitKeepsInv(setup, w, step);
    case AdvanceVenue => AdvanceKeepsInv(setup, w);
    case CancelOrder(id) => OneCancelKeepsInv(setup, w, id);
    case CancelAllOrders => AllCancelKeepsInv(setup, w);
    case PollAndApply => PollKeepsInv(setup, w);
    case ResolveUnknown(id) => ResolveKeepsInv(setup, w, id);
    case OperatorNoFill(id) => CloseKeepsInv(setup, w, id);
    case SettleMarket(_, _, _) => SettleKeepsInv(setup, w, step);
  }

  lemma OneCancelKeepsInv(setup: Setup, w: World, id: OrderId)
    requires Holds(setup, w)
    ensures Holds(setup, NextWorld(setup, w, CancelOrder(id)))
  {
    hide Inv, CancelEach, Cancel;
    CancelKeepsInv(setup, w, [id]);
    OneCancel(w.sys.venue, id, w.sys.clock);
  }

  lemma AllCancelKeepsInv(setup: Setup, w: World)
    requires Holds(setup, w)
    ensures Holds(setup, NextWorld(setup, w, CancelAllOrders))
  {
    hide Inv, CancelEach;
    CancelKeepsInv(setup, w, Ids(w.sys.venue.pending));
  }

  lemma PollKeepsInv(setup: Setup, w: World)
    requires Holds(setup, w)
    ensures Holds(setup, NextWorld(setup, w, PollAndApply))
  {
    hide Inv, Advance, DeliverAll, Drained;
    PollKeeps(setup, w.sys, w.aux, w.polled);
  }

  lemma ResolveKeepsInv(setup: Setup, w: World, id: IntentId)
    requires Holds(setup, w) && Enabled(setup, w.sys, w.aux, ResolveUnknown(id))
    ensures Holds(setup, NextWorld(setup, w, ResolveUnknown(id)))
  {
    hide Inv, Found, DeliverAll, StreamOf;
    ResolveKeeps(setup, w.sys, w.aux, w.polled, id);
  }

  lemma BeginHolds(setup: Setup, cash: real, clock: int)
    requires setup.Valid() && cash >= 0.0
    ensures Holds(setup, Begin(cash, clock))
  {
  }

  /** Main theorem: in every state any run of enabled steps can reach, the invariant holds. */
  lemma InvariantOverRuns(setup: Setup, cash: real, clock: int, steps: seq<Step>)
    requires setup.Valid() && cash >= 0.0 && EnabledRun(setup, Begin(cash, clock), steps)
    ensures Holds(setup, Run(setup, Begin(cash, clock), steps))
  {
    BeginHolds(setup, cash, clock);
    RunKeepsInv(setup, Begin(cash, clock), steps);
  }

  lemma {:induction false} RunKeepsInv(setup: Setup, w: World, steps: seq<Step>)
    requires Holds(setup, w) && EnabledRun(setup, w, steps)
    ensures Holds(setup, Run(setup, w, steps))
    decreases |steps|
  {
    hide Holds, Enabled, NextWorld;
    if steps != [] {
      StepKeepsInv(setup, w, steps[0]);
      RunKeepsInv(setup, NextWorld(setup, w, steps[0]), steps[1..]);
    }
  }

  // ---------------------------------------------------------------- what follows

  /** In every reachable state the venue's ledger is the portfolio's plus the fills on their way,
      no invariant violation was recorded, and the portfolio refused no fill. */
  lemma LedgersCoupled(setup: Setup, cash: real, clock: int, steps: seq<Step>)
    requires setup.Valid() && cash >= 0.0 && EnabledRun(setup, Begin(cash, clock), steps)
    ensures var s := Run(setup, Begin(cash, clock), steps).sys;
      && s.venue.cash == s.desk.ledger.cash + Undelivered(s.venue.history, s.desk.engine.fillIds, CashDelta)
      && (forall t: TokenId :: s.venue.Held(t)
            == Accounting.SharesOf(s.desk.ledger.positions, t) + Undelivered(s.venue.history, s.desk.engine.fillIds, SharesIn(t)))
      && s.desk.engine.violations == [] && !s.desk.raised
      && s.desk.ledger.cash >= 0.0
  {
    InvariantOverRuns(setup, cash, clock, steps);
    var w := Run(setup, Begin(cash, clock), steps);
    hide EnabledRun, Run, Undelivered, Accounting.SharesOf, StreamOf, Delivery.SoundStreams, PledgeTotal, Pledge;
    PledgesOk(setup, w.sys, w.aux);
    TotalNonNegative(w.sys.desk.engine.intents, Pledges(setup, w.sys, w.aux));
  }

  /** With no open order the two ledgers are equal, token by token and in cash: the state in which
      the bot reconciles them. */
  lemma IdleLedgersAgree(setup: Setup, w: World)
    requires Holds(setup, w) && (forall id :: id in w.sys.desk.engine.orders ==> !w.sys.desk.engine.orders[id].status.IsOpen())
    ensures w.sys.venue.cash == w.sys.desk.ledger.cash
    ensures forall t: TokenId :: w.sys.venue.Held(t) == Accounting.SharesOf(w.sys.desk.ledger.positions, t)
    ensures w.sys.venue.pending == []
  {
    hide StreamOf, Undelivered, Accounting.SharesOf, IntentsOk, HistoryOk, StreamsOk, CashCovers, SharesCover, LedgerOk, SharesIn, CashDelta;
    var s, a := w.sys, w.aux;
    forall q | 0 <= q < |s.venue.history| && s.venue.history[q].event.FillEvent?
      ensures s.venue.history[q].event.fill.fillId in s.desk.engine.fillIds
    {
      if s.venue.history[q].event.fill.fillId !in s.desk.engine.fillIds {
        DeliveredIfDone(setup, s, a, q);
        OpenOrTerminal(s.desk.engine.orders[s.venue.history[q].event.IntentId().value].status);
      }
    }
    NothingUndelivered(s.venue.history, s.desk.engine.fillIds, CashDelta);
    forall t: TokenId
      ensures s.venue.Held(t) == Accounting.SharesOf(s.desk.ledger.positions, t)
    {
      NothingUndelivered(s.venue.history, s.desk.engine.fillIds, SharesIn(t));
    }
    if s.venue.pending != [] {
      PendingIsOpen(setup, s, a, s.venue.pending[0]);
    }
  }

  lemma PendingIsOpen(setup: Setup, s: Sys, a: Aux, p: Pending)
    requires AllPendingOk(setup, s, a) && StreamsOk(setup, s, a) && p in s.venue.pending
    ensures p.intent.intentId in s.desk.engine.orders && s.desk.engine.orders[p.intent.intentId].status.IsOpen()
  {
    hide StreamOf, StreamsOk;
    assert PendingOk(setup, s, a, p);
    KnownOrder(setup, s, a, p.intent.intentId);
    DoneOrder(setup, s, a, p.intent.intentId);
    OpenOrTerminal(s.desk.engine.orders[p.intent.intentId].status);
  }

  function FilledBy(ev: Event): real {
    if ev.FillEvent? then ev.fill.shares else 0.0
  }

  lemma {:induction false} AfterAllFilled(rec: OrderRecord, stream: seq<Event>, n: nat)
    requires n <= |stream|
    ensures Delivery.AfterAll(rec, stream, n).filledShares == rec.filledShares + Sum(FilledBy, stream[..n])
    decreases n
  {
    if n > 0 {
      AfterAllFilled(rec, stream, n - 1);
      assert stream[..n] == stream[..n - 1] + [stream[n - 1]];
      SumLast(FilledBy, stream[..n - 1], stream[n - 1]);
    }
  }

  /** A closed order holds exactly what the venue filled for it in all. */
  lemma ClosedOrderHoldsVenueTotal(setup: Setup, w: World, id: IntentId)
    requires Holds(setup, w) && id in w.sys.desk.engine.orders && w.sys.desk.engine.orders[id].status.IsTerminal()
    ensures w.sys.desk.engine.orders[id].filledShares == Sum(FilledBy, StreamOf(w.sys.venue.history, id))
  {
    hide StreamOf, IntentsOk, HistoryOk, StreamsOk, CashCovers, SharesCover, LedgerOk, AllPendingOk, Coupled;
    var s, a := w.sys, w.aux;
    KnownOrder(setup, s, a, id);
    DoneOrder(setup, s, a, id);
    var stream := StreamOf(s.venue.history, id);
    AfterAllFilled(a.base[id], stream, |stream|);
    assert stream[..|stream|] == stream;
  }
}
