/** The execution engine's state as a value and each of its operations as a function of it: the
    specification that the class `ExecutionEngine.ExecutionEngine` is proved against. */
module Execution {
  import opened Decimals
  import opened Domain
  import opened Matching
  import opened Sums

  const NOTIONAL_TOLERANCE: real := 0.01
  const MAX_DECISION_AGE_MS: int := 3_000

  datatype Violation =
    | FillForUnknownOrder(fillId: FillId)
    | SideOrTokenMismatch(fillId: FillId)
    | BeyondLimit(fillId: FillId)
    | Oversold(intentId: IntentId)
    | Overspent(intentId: IntentId)
    | UpdateForUnknownOrder(orderId: OrderId)
    | TerminalMismatch(orderId: OrderId)

  /** `orders` with `intents` is the insertion-ordered dictionary of known orders; `stored` with
      `rows` is the persisted orders table and `fillIds` the persisted fills table. */
  datatype Engine = Engine(
    orders: map<IntentId, OrderRecord>,
    intents: seq<IntentId>,
    byExchange: map<OrderId, IntentId>,
    usedDecisions: set<DecisionId>,
    violations: seq<Violation>,
    stored: map<IntentId, OrderRecord>,
    rows: seq<IntentId>,
    fillIds: set<FillId>)

  const EMPTY: Engine := Engine(map[], [], map[], {}, [], map[], [], {})

  // ---------------------------------------------------------------- views

  predicate IsOpenOrder(e: Engine, id: IntentId) {
    id in e.orders && e.orders[id].status.IsOpen()
  }

  predicate IsUnknownOrder(e: Engine, id: IntentId) {
    id in e.orders && e.orders[id].status.Unknown?
  }

  function OpenIds(e: Engine, ids: seq<IntentId>): seq<IntentId> {
    if ids == [] then []
    else if IsOpenOrder(e, ids[0]) then [ids[0]] + OpenIds(e, ids[1..])
    else OpenIds(e, ids[1..])
  }

  function UnknownIds(e: Engine, ids: seq<IntentId>): seq<IntentId> {
    if ids == [] then []
    else if IsUnknownOrder(e, ids[0]) then [ids[0]] + UnknownIds(e, ids[1..])
    else UnknownIds(e, ids[1..])
  }

  predicate InFlight(e: Engine, token: TokenId) {
    exists id :: id in e.orders && e.orders[id].status.IsOpen() && e.orders[id].intent.tokenId == token
  }

  function PendingBuyOf(orders: map<IntentId, OrderRecord>, id: IntentId): real {
    if id in orders && orders[id].status.IsOpen() && orders[id].intent.side.Buy?
    then Max(0.0, orders[id].intent.quantity - orders[id].filledNotional) else 0.0
  }

  function PendingBuyFrom(orders: map<IntentId, OrderRecord>, ids: seq<IntentId>): real {
    Sum(id => PendingBuyOf(orders, id), ids)
  }

  function PendingSellOf(orders: map<IntentId, OrderRecord>, id: IntentId, token: TokenId): real {
    if id in orders && orders[id].status.IsOpen() && orders[id].intent.side.Sell? && orders[id].intent.tokenId == token
    then Max(0.0, orders[id].intent.quantity - orders[id].filledShares) else 0.0
  }

  /** Shares of a token that open sells have yet to sell. */
  function PendingSellOn(orders: map<IntentId, OrderRecord>, ids: seq<IntentId>, token: TokenId): (shares: real)
    ensures shares >= 0.0
  {
    if ids == [] then 0.0 else PendingSellOf(orders, ids[0], token) + PendingSellOn(orders, ids[1..], token)
  }

  function PendingBuyUsd(e: Engine): real {
    PendingBuyFrom(e.orders, e.intents)
  }

  // ---------------------------------------------------------------- events

  function Save(e: Engine, rec: OrderRecord): Engine {
    e.(orders := e.orders[rec.intent.intentId := rec], stored := e.stored[rec.intent.intentId := rec])
  }

  function Violate(e: Engine, v: Violation): Engine {
    e.(violations := e.violations + [v])
  }

  function Lookup(e: Engine, intentId: Option<IntentId>, exchangeId: Option<OrderId>): Option<OrderRecord> {
    if intentId.Some? && intentId.value in e.orders then Some(e.orders[intentId.value])
    else if exchangeId.Some? && exchangeId.value in e.byExchange && e.byExchange[exchangeId.value] in e.orders then
      Some(e.orders[e.byExchange[exchangeId.value]])
    else None
  }

  predicate PastLimit(intent: OrderIntent, price: real) {
    if intent.side.Buy? then price > intent.limitPrice else price < intent.limitPrice
  }

  function FillRecord(rec: OrderRecord, f: Fill): OrderRecord {
    rec.(filledShares := rec.filledShares + f.shares,
         filledNotional := rec.filledNotional + Notional(f.price, f.shares),
         fees := rec.fees + f.fee,
         updatedMs := f.tsMs,
         status := if rec.status.Unknown? || rec.status.Live? || rec.status.Submitting? then PartiallyFilled else rec.status)
  }

  predicate Overfilled(rec: OrderRecord) {
    if rec.intent.side.Sell? then rec.filledShares > rec.intent.quantity
    else rec.filledNotional > rec.intent.quantity + NOTIONAL_TOLERANCE
  }

  function OverfillViolation(rec: OrderRecord): Violation {
    if rec.intent.side.Sell? then Oversold(rec.intent.intentId) else Overspent(rec.intent.intentId)
  }

  /** The checks a fill is put through; they report, they do not stop the fill. */
  function CheckFill(e: Engine, rec: OrderRecord, f: Fill): Engine {
    var limited := if PastLimit(rec.intent, f.price) then Violate(e, BeyondLimit(f.fillId)) else e;
    var filled := FillRecord(rec, f);
    if Overfilled(filled) then Violate(limited, OverfillViolation(filled)) else limited
  }

  /** The new engine, and whether the fill is passed on to the portfolio. */
  function ApplyFill(e: Engine, f: Fill): (r: (Engine, bool)) {
    var found := Lookup(e, f.intentId, f.exchangeOrderId);
    if found.None? then (Violate(e, FillForUnknownOrder(f.fillId)), false)
    else if f.fillId in e.fillIds then (e, false)
    else
      var rec := found.value;
      var noted := e.(fillIds := e.fillIds + {f.fillId});
      if f.side != rec.intent.side || f.tokenId != rec.intent.tokenId then
        (Violate(noted, SideOrTokenMismatch(f.fillId)), false)
      else (Save(CheckFill(noted, rec, f), FillRecord(rec, f)), true)
  }

  predicate FullyFilled(rec: OrderRecord) {
    if rec.intent.side.Sell? then rec.filledShares >= rec.intent.quantity
    else rec.intent.quantity - rec.filledNotional < rec.intent.limitPrice * 0.01
  }

  function UpdateRecord(rec: OrderRecord, u: OrderUpdate): OrderRecord {
    if rec.status.IsTerminal() then rec
    else
      rec.(status := if u.status.Cancelled? && rec.filledShares > 0.0 && FullyFilled(rec) then Filled else u.status,
           updatedMs := u.tsMs,
           exchangeOrderId := if rec.exchangeOrderId.Some? then rec.exchangeOrderId else Some(u.exchangeOrderId))
  }

  function ApplyUpdate(e: Engine, u: OrderUpdate): Engine {
    var found := Lookup(e, u.intentId, Some(u.exchangeOrderId));
    if found.None? then Violate(e, UpdateForUnknownOrder(u.exchangeOrderId))
    else if found.value.status.IsTerminal() then e
    else
      var rec := found.value;
      var checked := if u.status.IsTerminal() && u.cumulativeFilled != rec.filledShares
                     then Violate(e, TerminalMismatch(u.exchangeOrderId)) else e;
      Save(checked, UpdateRecord(rec, u))
  }

  /** The new engine, and the fill to book in the portfolio if there is one. */
  function Deliver(e: Engine, ev: Event): (Engine, Option<Fill>) {
    match ev
    case FillEvent(f) =>
      var (e', booked) := ApplyFill(e, f);
      (e', if booked then Some(f) else None)
    case UpdateEvent(u) => (ApplyUpdate(e, u), None)
  }

  /** The order's own events among what the venue found. */
  function Mine(events: seq<Event>, rec: OrderRecord): seq<Event> {
    if events == [] then []
    else if events[0].IntentId() == Some(rec.intent.intentId)
            || (rec.exchangeOrderId.Some? && events[0].ExchangeOrderId() == rec.exchangeOrderId) then
      [events[0]] + Mine(events[1..], rec)
    else Mine(events[1..], rec)
  }

  // ---------------------------------------------------------------- submission

  datatype Decision = Decision(
    decisionId: DecisionId,
    allowed: bool,
    side: Side,
    tokenId: TokenId,
    limitPrice: real,
    maxSizeUsd: real,
    maxShares: real,
    timestampMs: int)

  datatype Refusal =
    | MaxInFlight | UnknownOrderPending | NotAllowed | DecisionExpired | AlreadyExecuted | WrongToken | InvalidIntent | DuplicateRow

  datatype Built = Built(intent: OrderIntent) | Refused(why: Refusal)

  /** A buy limit is rounded down and a sell limit up, never past what was approved. */
  function BuildIntent(e: Engine, d: Decision, market: Market, outcome: Outcome, id: IntentId, now: int): (b: Built)
    requires market.Valid()
  {
    if !d.allowed then Refused(NotAllowed)
    else if now - d.timestampMs > MAX_DECISION_AGE_MS then Refused(DecisionExpired)
    else if d.decisionId in e.usedDecisions then Refused(AlreadyExecuted)
    else if !market.HasToken(d.tokenId) || market.OutcomeOf(d.tokenId) != outcome then Refused(WrongToken)
    else
      var limit := if d.side.Buy? then FloorTo(d.limitPrice, market.tickSize) else CeilTo(d.limitPrice, market.tickSize);
      var quantity := if d.side.Buy? then d.maxSizeUsd else d.maxShares;
      var intent := OrderIntent(id, d.decisionId, market.conditionId, d.tokenId, outcome, d.side, FAK, limit, quantity, now);
      if intent.Valid() then Built(intent) else Refused(InvalidIntent)
  }

  /** Everything before the provider is called: the refusals, then the write-ahead row. */
  function Prepare(e: Engine, maxInFlight: nat, d: Decision, market: Market, outcome: Outcome, id: IntentId, now: int): Built
    requires market.Valid()
  {
    if |OpenIds(e, e.intents)| >= maxInFlight then Refused(MaxInFlight)
    else if |UnknownIds(e, e.intents)| > 0 then Refused(UnknownOrderPending)
    else
      var b := BuildIntent(e, d, market, outcome, id, now);
      if b.Built? && (id in e.stored || exists k :: k in e.stored && e.stored[k].intent.decisionId == d.decisionId)
      then Refused(DuplicateRow) else b
  }

  function Fresh(intent: OrderIntent, status: OrderStatus): OrderRecord {
    OrderRecord(intent, status, None, 0.0, 0.0, 0.0, intent.createdMs)
  }

  /** The write-ahead row, as `insert_order_intent` leaves it. */
  function InsertIntent(e: Engine, intent: OrderIntent): Engine {
    e.(stored := e.stored[intent.intentId := Fresh(intent, Intent)], rows := e.rows + [intent.intentId])
  }

  /** The record enters memory as SUBMITTING, just before the provider is called. */
  function MarkSubmitting(e: Engine, intent: OrderIntent): Engine {
    Save(e.(usedDecisions := e.usedDecisions + {intent.decisionId}, intents := e.intents + [intent.intentId]),
         Fresh(intent, Submitting))
  }

  /** What comes back from the provider: an ack, an ack that does not say whether the order was
      accepted, or nothing (a timeout or any error). */
  datatype Reply = Acked(ack: OrderAck) | Ambiguous(ack: OrderAck) | Lost(now: int)

  function Answered(intent: OrderIntent, reply: Reply): OrderRecord {
    var rec := Fresh(intent, Submitting);
    match reply
    case Lost(now) => rec.(status := Unknown, updatedMs := now)
    case Ambiguous(ack) => rec.(status := Unknown, exchangeOrderId := ack.exchangeOrderId, updatedMs := ack.receivedMs)
    case Acked(ack) =>
      if ack.accepted then rec.(status := ack.status, exchangeOrderId := ack.exchangeOrderId, updatedMs := ack.receivedMs)
      else rec.(status := Rejected, updatedMs := ack.receivedMs)
  }

  function Conclude(e: Engine, intent: OrderIntent, reply: Reply): Engine {
    var rec := Answered(intent, reply);
    Save(if rec.exchangeOrderId.Some? then e.(byExchange := e.byExchange[rec.exchangeOrderId.value := intent.intentId]) else e, rec)
  }

  function MarkResolvedNoFill(e: Engine, id: IntentId, now: int): Engine
    requires id in e.orders
  {
    Save(e, e.orders[id].(status := Cancelled, updatedMs := now))
  }

  // ---------------------------------------------------------------- restart

  function Reopened(rec: OrderRecord, now: int): OrderRecord {
    rec.(status := Unknown, updatedMs := now)
  }

  /** First loop of a restart over the first `n` rows: every open order becomes UNKNOWN. */
  function LoadOpen(e: Engine, stored: map<IntentId, OrderRecord>, rows: seq<IntentId>, n: nat, now: int): Engine
    requires n <= |rows|
  {
    if n == 0 then e
    else
      var prior := LoadOpen(e, stored, rows, n - 1, now);
      var id := rows[n - 1];
      if id in stored && stored[id].status.IsOpen() then
        var rec := Reopened(stored[id], now);
        prior.(orders := prior.orders[id := rec], intents := prior.intents + [id], stored := prior.stored[id := rec],
               byExchange := if rec.exchangeOrderId.Some? then prior.byExchange[rec.exchangeOrderId.value := id] else prior.byExchange)
      else prior
  }

  /** Second loop: every decision ever stored is used, every exchange id known. */
  function LoadUsed(e: Engine, stored: map<IntentId, OrderRecord>, rows: seq<IntentId>, n: nat): Engine
    requires n <= |rows|
  {
    if n == 0 then e
    else
      var prior := LoadUsed(e, stored, rows, n - 1);
      var id := rows[n - 1];
      if id in stored then
        var x := stored[id].exchangeOrderId;
        prior.(usedDecisions := prior.usedDecisions + {stored[id].intent.decisionId},
               byExchange := if x.Some? && x.value !in prior.byExchange then prior.byExchange[x.value := id] else prior.byExchange)
      else prior
  }

  /** A new process over the same store. */
  function Restart(e: Engine, now: int): Engine {
    var blank := EMPTY.(stored := e.stored, rows := e.rows, fillIds := e.fillIds);
    var reopened := LoadOpen(blank, e.stored, e.rows, |e.rows|, now);
    LoadUsed(reopened, reopened.stored, e.rows, |e.rows|)
  }
}
