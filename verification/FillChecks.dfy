/** What an empty list of violations means: every fill and every update the engine was given was
    within its order, and every booked fill is in the order's totals. */
module FillChecks {
  import opened Domain
  import opened Execution
  import opened Sums

  /** The order an event is about: by the intent it names if that is known, else by the exchange's id. */
  ghost predicate IsOrderOf(e: Engine, intentId: Option<IntentId>, exchangeId: Option<OrderId>, id: IntentId) {
    && id in e.orders
    && (intentId == Some(id)
        || ((intentId.None? || intentId.value !in e.orders)
            && exchangeId.Some? && exchangeId.value in e.byExchange && e.byExchange[exchangeId.value] == id))
  }

  /** A fill of a known order, applied before or else on its side and token, no worse than its limit,
      and within what it may still spend or sell. */
  ghost predicate CleanFill(e: Engine, f: Fill) {
    exists id :: IsOrderOf(e, f.intentId, f.exchangeOrderId, id) && (f.fillId in e.fillIds || Fits(e.orders[id], f))
  }

  ghost predicate Fits(rec: OrderRecord, f: Fill) {
    && f.side == rec.intent.side && f.tokenId == rec.intent.tokenId
    && (f.side.Buy? ==> f.price <= rec.intent.limitPrice && rec.filledNotional + f.price * f.shares <= rec.intent.quantity + 0.01)
    && (f.side.Sell? ==> f.price >= rec.intent.limitPrice && rec.filledShares + f.shares <= rec.intent.quantity)
  }

  ghost predicate Closing(status: OrderStatus) {
    status == Filled || status == Cancelled || status == Rejected || status == Expired
  }

  /** An update of a known order that is closed already, or does not close it, or closes it with the
      total that was applied. */
  ghost predicate CleanUpdate(e: Engine, u: OrderUpdate) {
    exists id :: IsOrderOf(e, u.intentId, Some(u.exchangeOrderId), id)
      && (Closing(e.orders[id].status) || !Closing(u.status) || u.cumulativeFilled == e.orders[id].filledShares)
  }

  ghost predicate Clean(e: Engine, ev: Event) {
    match ev
    case FillEvent(f) => CleanFill(e, f)
    case UpdateEvent(u) => CleanUpdate(e, u)
  }

  function AfterEach(e: Engine, events: seq<Event>): Engine
    decreases |events|
  {
    if events == [] then e else AfterEach(Deliver(e, events[0]).0, events[1..])
  }

  /** Every event is clean when its turn comes. */
  ghost predicate AllClean(e: Engine, events: seq<Event>)
    decreases |events|
  {
    events == [] || (Clean(e, events[0]) && AllClean(Deliver(e, events[0]).0, events[1..]))
  }

  /** Each order is kept under its own intent id. */
  ghost predicate Keyed(e: Engine) {
    forall id :: id in e.orders ==> e.orders[id].intent.intentId == id
  }

  lemma FillReported(e: Engine, f: Fill)
    ensures var after := ApplyFill(e, f).0;
      && e.violations <= after.violations
      && (after.violations == e.violations <==> CleanFill(e, f))
  {
    var found := Lookup(e, f.intentId, f.exchangeOrderId);
    if found.Some? {
      var id := if f.intentId.Some? && f.intentId.value in e.orders then f.intentId.value else e.byExchange[f.exchangeOrderId.value];
      assert IsOrderOf(e, f.intentId, f.exchangeOrderId, id);
    }
  }

  lemma UpdateReported(e: Engine, u: OrderUpdate)
    ensures var after := ApplyUpdate(e, u);
      && e.violations <= after.violations
      && (after.violations == e.violations <==> CleanUpdate(e, u))
  {
    hide UpdateRecord;
    var found := Lookup(e, u.intentId, Some(u.exchangeOrderId));
    if found.Some? {
      var id := if u.intentId.Some? && u.intentId.value in e.orders then u.intentId.value else e.byExchange[u.exchangeOrderId];
      assert IsOrderOf(e, u.intentId, Some(u.exchangeOrderId), id);
    }
  }

  lemma EventReported(e: Engine, ev: Event)
    ensures var after := Deliver(e, ev).0;
      && e.violations <= after.violations
      && (after.violations == e.violations <==> Clean(e, ev))
  {
    hide ApplyFill, ApplyUpdate, CleanFill, CleanUpdate;
    match ev
    case FillEvent(f) => FillReported(e, f);
    case UpdateEvent(u) => UpdateReported(e, u);
  }

  lemma {:induction false} ViolationsStay(e: Engine, events: seq<Event>)
    ensures e.violations <= AfterEach(e, events).violations
    decreases |events|
  {
    if events != [] {
      hide Deliver, Clean;
      EventReported(e, events[0]);
      ViolationsStay(Deliver(e, events[0]).0, events[1..]);
    }
  }

  /** Over any events at all, new violations are recorded exactly when some event was not clean at its
      turn; in particular an empty list says that every fill was within its order's limit, side,
      token and size. */
  lemma {:induction false} NoViolationExactly(e: Engine, events: seq<Event>)
    ensures AfterEach(e, events).violations == e.violations <==> AllClean(e, events)
    decreases |events|
  {
    if events != [] {
      hide Deliver, Clean;
      EventReported(e, events[0]);
      ViolationsStay(Deliver(e, events[0]).0, events[1..]);
      NoViolationExactly(Deliver(e, events[0]).0, events[1..]);
    }
  }

  // ---------------------------------------------------------------- what the totals are

  /** The fill an event books on order `id`, if any: a first one of it, on its side and token. */
  ghost predicate Books(e: Engine, ev: Event, id: IntentId) {
    && ev.FillEvent? && IsOrderOf(e, ev.fill.intentId, ev.fill.exchangeOrderId, id) && ev.fill.fillId !in e.fillIds
    && ev.fill.side == e.orders[id].intent.side && ev.fill.tokenId == e.orders[id].intent.tokenId
  }

  /** The fills booked on order `id`, in order. */
  ghost function Booked(e: Engine, events: seq<Event>, id: IntentId): seq<Fill>
    decreases |events|
  {
    if events == [] then []
    else (if Books(e, events[0], id) then [events[0].fill] else []) + Booked(Deliver(e, events[0]).0, events[1..], id)
  }

  function SharesOf(f: Fill): real { f.shares }

  function PaidOf(f: Fill): real { f.price * f.shares }

  function FeeOf(f: Fill): real { f.fee }

  /** A booked fill's order is the only one that moves; any other fill moves none. */
  lemma FillMoves(e: Engine, f: Fill)
    requires Keyed(e)
    ensures var ev := FillEvent(f);
      && (forall k :: Books(e, ev, k) ==> Deliver(e, ev).0.orders == e.orders[k := FillRecord(e.orders[k], f)] && Deliver(e, ev).1 == Some(f))
      && ((forall k :: !Books(e, ev, k)) ==> Deliver(e, ev).0.orders == e.orders && Deliver(e, ev).1 == None)
  {
    hide FillRecord, PastLimit, Overfilled;
    var found := Lookup(e, f.intentId, f.exchangeOrderId);
    if found.Some? {
      var k := if f.intentId.Some? && f.intentId.value in e.orders then f.intentId.value else e.byExchange[f.exchangeOrderId.value];
      OneOrder(e, f.intentId, f.exchangeOrderId);
      assert IsOrderOf(e, f.intentId, f.exchangeOrderId, k);
      if f.fillId !in e.fillIds && f.side == e.orders[k].intent.side && f.tokenId == e.orders[k].intent.tokenId {
        assert Books(e, FillEvent(f), k);
        RecordKeepsIntent(e.orders[k], f);
      }
    }
  }

  lemma RecordKeepsIntent(rec: OrderRecord, f: Fill)
    ensures FillRecord(rec, f).intent == rec.intent
    ensures FillRecord(rec, f).filledShares == rec.filledShares + SharesOf(f)
    ensures FillRecord(rec, f).filledNotional == rec.filledNotional + PaidOf(f)
    ensures FillRecord(rec, f).fees == rec.fees + FeeOf(f)
  {
  }

  /** An update moves no totals. */
  lemma UpdateMoves(e: Engine, u: OrderUpdate, id: IntentId)
    requires Keyed(e) && id in e.orders
    ensures var after := Deliver(e, UpdateEvent(u)).0;
      && Keyed(after) && id in after.orders && after.orders[id].intent == e.orders[id].intent
      && after.orders[id].filledShares == e.orders[id].filledShares
      && after.orders[id].filledNotional == e.orders[id].filledNotional && after.orders[id].fees == e.orders[id].fees
  {
    hide FullyFilled;
  }

  /** An order's record after one event: a booked fill adds its shares, money and fee, an event of
      another order changes nothing, and no event changes the order itself. */
  lemma OneEvent(e: Engine, ev: Event, id: IntentId)
    requires Keyed(e) && id in e.orders
    ensures var after := Deliver(e, ev).0;
      && Keyed(after) && id in after.orders && after.orders[id].intent == e.orders[id].intent
      && (if Books(e, ev, id) then
            && after.orders[id].filledShares == e.orders[id].filledShares + SharesOf(ev.fill)
            && after.orders[id].filledNotional == e.orders[id].filledNotional + PaidOf(ev.fill)
            && after.orders[id].fees == e.orders[id].fees + FeeOf(ev.fill)
          else
            && after.orders[id].filledShares == e.orders[id].filledShares
            && after.orders[id].filledNotional == e.orders[id].filledNotional
            && after.orders[id].fees == e.orders[id].fees)
  {
    hide Deliver, FillRecord, SharesOf, PaidOf, FeeOf, IsOrderOf;
    match ev
    case FillEvent(f) =>
      FillMoves(e, f);
      if k :| Books(e, ev, k) {
        OneOrder(e, f.intentId, f.exchangeOrderId);
        RecordKeepsIntent(e.orders[k], f);
      }
    case UpdateEvent(u) => UpdateMoves(e, u, id);
  }

  /** A booked fill takes its order out of waiting, and is booked once. */
  lemma FillSettlesStatus(e: Engine, f: Fill, id: IntentId)
    requires Keyed(e) && Books(e, FillEvent(f), id)
    ensures var (after, booked) := Deliver(e, FillEvent(f));
      && booked == Some(f) && after.fillIds == e.fillIds + {f.fillId} && after.orders.Keys == e.orders.Keys
      && after.orders[id].updatedMs == f.tsMs && after.orders[id].exchangeOrderId == e.orders[id].exchangeOrderId
      && after.orders[id].status
           == (if e.orders[id].status in {Unknown, Live, Submitting} then PartiallyFilled else e.orders[id].status)
      && forall k :: k in e.orders && k != id ==> after.orders[k] == e.orders[k]
  {
    FillMoves(e, f);
  }

  /** An update reaches its own order alone, and that only while it is not closed. A cancellation of
      an order whose size is used up, but for what its limit could still buy a lot with, counts as
      filled. */
  lemma UpdateSettlesStatus(e: Engine, u: OrderUpdate, id: IntentId)
    requires Keyed(e) && IsOrderOf(e, u.intentId, Some(u.exchangeOrderId), id)
    ensures var (after, booked) := Deliver(e, UpdateEvent(u));
      var rec := e.orders[id];
      var used := if rec.intent.side.Sell? then rec.intent.quantity <= rec.filledShares
                  else rec.intent.quantity - rec.filledNotional < rec.intent.limitPrice * 0.01;
      && booked == None && after.fillIds == e.fillIds && after.orders.Keys == e.orders.Keys
      && (if Closing(rec.status) then after.orders[id] == rec
          else
            && after.orders[id].updatedMs == u.tsMs
            && after.orders[id].exchangeOrderId == (if rec.exchangeOrderId.Some? then rec.exchangeOrderId else Some(u.exchangeOrderId))
            && after.orders[id].status == if u.status == Cancelled && rec.filledShares > 0.0 && used then Filled else u.status)
      && forall k :: k in e.orders && k != id ==> after.orders[k] == e.orders[k]
  {
    OneOrder(e, u.intentId, Some(u.exchangeOrderId));
  }

  /** After any events, an order's totals are those it had and the fills booked on it. */
  lemma {:induction false} TotalsAreBooked(e: Engine, events: seq<Event>, id: IntentId)
    requires Keyed(e) && id in e.orders
    ensures var after, booked := AfterEach(e, events), Booked(e, events, id);
      && id in after.orders && after.orders[id].intent == e.orders[id].intent
      && after.orders[id].filledShares == e.orders[id].filledShares + Sum(SharesOf, booked)
      && after.orders[id].filledNotional == e.orders[id].filledNotional + Sum(PaidOf, booked)
      && after.orders[id].fees == e.orders[id].fees + Sum(FeeOf, booked)
    decreases |events|
  {
    if events != [] {
      hide Deliver, Books, SharesOf, PaidOf, FeeOf;
      OneEvent(e, events[0], id);
      TotalsAreBooked(Deliver(e, events[0]).0, events[1..], id);
      var rest := Booked(Deliver(e, events[0]).0, events[1..], id);
      if Books(e, events[0], id) {
        SumFirst(SharesOf, events[0].fill, rest);
        SumFirst(PaidOf, events[0].fill, rest);
        SumFirst(FeeOf, events[0].fill, rest);
      } else {
        assert [] + rest == rest;
      }
    }
  }

  lemma SumFirst(g: Fill -> real, f: Fill, rest: seq<Fill>)
    ensures Sum(g, [f] + rest) == g(f) + Sum(g, rest)
  {
    assert ([f] + rest)[1..] == rest;
  }

  ghost predicate WithinOrder(rec: OrderRecord) {
    && (rec.intent.side.Buy? ==> rec.filledNotional <= rec.intent.quantity + 0.01)
    && (rec.intent.side.Sell? ==> rec.filledShares <= rec.intent.quantity)
  }

  /** While no violation is added, every order stays within its size, and no fill booked on it is
      worse than its limit. */
  lemma {:induction false} CleanKeepsWithin(e: Engine, events: seq<Event>, id: IntentId)
    requires Keyed(e) && id in e.orders && WithinOrder(e.orders[id]) && AfterEach(e, events).violations == e.violations
    ensures id in AfterEach(e, events).orders && WithinOrder(AfterEach(e, events).orders[id])
    ensures forall f :: f in Booked(e, events, id) ==>
      && f.side == e.orders[id].intent.side && f.tokenId == e.orders[id].intent.tokenId
      && if f.side.Buy? then f.price <= e.orders[id].intent.limitPrice else f.price >= e.orders[id].intent.limitPrice
    decreases |events|
  {
    if events != [] {
      hide Deliver, IsOrderOf;
      NoViolationExactly(e, events);
      EventReported(e, events[0]);
      OneEvent(e, events[0], id);
      var next := Deliver(e, events[0]).0;
      NoViolationExactly(next, events[1..]);
      if Books(e, events[0], id) {
        OneOrder(e, events[0].fill.intentId, events[0].fill.exchangeOrderId);
      }
      CleanKeepsWithin(next, events[1..], id);
    }
  }

  lemma OneOrder(e: Engine, intentId: Option<IntentId>, exchangeId: Option<OrderId>)
    ensures forall a, b :: IsOrderOf(e, intentId, exchangeId, a) && IsOrderOf(e, intentId, exchangeId, b) ==> a == b
    ensures forall a :: IsOrderOf(e, intentId, exchangeId, a) ==> a in e.orders
  {
  }
}
