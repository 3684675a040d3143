/** The paper venue's state as a value and each of its operations as a function of it: the
    specification that the class `PaperExchange.PaperExchange` is proved against. */
module PaperVenue {
  import opened Domain
  import opened Matching

  datatype Config = Config(
    latencyMs: nat,
    latencyJitterMs: nat,
    takerDelayMs: nat,
    replenishMs: nat,
    feeMult: real)
  {
    predicate Valid() {
      1.0 <= feeMult <= 5.0
    }
  }

  /** A snapshot as the order book emits it. */
  type Book = b: Snapshot | WellFormedBook(b) witness Snapshot([], [])

  type Books = map<TokenId, Book>

  datatype Pending = Pending(intent: OrderIntent, orderId: OrderId, dueMs: int, feeRate: real)

  datatype LevelKey = LevelKey(token: TokenId, side: Side, price: real)

  datatype Use = Use(tsMs: int, size: real)

  datatype Logged = Logged(token: TokenId, event: Event)

  datatype Venue = Venue(
    cash: real,
    positions: map<TokenId, real>,
    pending: seq<Pending>,
    events: seq<Event>,
    history: seq<Logged>,
    consumed: map<LevelKey, seq<Use>>,
    submitted: nat)
  {
    function Held(token: TokenId): real {
      if token in positions then positions[token] else 0.0
    }
  }

  function Initial(cash: real): Venue {
    Venue(cash, map[], [], [], [], map[], 0)
  }

  function Emit(v: Venue, token: TokenId, event: Event): Venue {
    v.(events := v.events + [event], history := v.history + [Logged(token, event)])
  }

  // ---------------------------------------------------------------- submission

  predicate OnTick(price: real, tick: real)
    requires tick > 0.0
  {
    price / tick == (price / tick).Floor as real
  }

  datatype Refusal = OrderTypeRefused | TokenNotInMarket | OffTick | NotEnoughBalance | NotEnoughShares | ChaosRejection

  /** The fee per dollar at the limit price, which the venue reserves on top of a buy. */
  function LimitFee(cfg: Config, rate: real, limit: real): real
    requires limit > 0.0
  {
    FeeRateAt(rate, limit) * cfg.feeMult / limit
  }

  function Validate(cfg: Config, v: Venue, intent: OrderIntent, market: Market): Option<Refusal>
    requires market.Valid() && intent.Valid()
  {
    if !intent.orderType.FAK? && !intent.orderType.FOK? then Some(OrderTypeRefused)
    else if !market.HasToken(intent.tokenId) then Some(TokenNotInMarket)
    else if !OnTick(intent.limitPrice, market.tickSize) then Some(OffTick)
    else if intent.side.Buy? then
      if intent.quantity * (1.0 + LimitFee(cfg, market.feeRate, intent.limitPrice)) > v.cash
      then Some(NotEnoughBalance) else None
    else if intent.quantity > v.Held(intent.tokenId) then Some(NotEnoughShares)
    else None
  }

  /** `jitter` and `chaos` are the venue's random draws. */
  function Submit(cfg: Config, v: Venue, intent: OrderIntent, market: Market, now: int, jitter: nat, chaos: bool)
    : (r: (Venue, OrderAck))
    requires market.Valid() && intent.Valid()
  {
    var counted := v.(submitted := v.submitted + 1);
    var refusal := Validate(cfg, v, intent, market);
    if refusal.Some? || chaos then
      (counted, OrderAck(false, Rejected, None, now))
    else
      var id := counted.submitted;
      var due := now + cfg.latencyMs + jitter + cfg.takerDelayMs;
      (counted.(pending := v.pending + [Pending(intent, id, due, market.feeRate)]),
       OrderAck(true, Live, Some(id), now))
  }

  // ---------------------------------------------------------------- cancellation

  /** Order ids are unique, so this removes at most one order. */
  function Without(pending: seq<Pending>, id: OrderId): (rest: seq<Pending>)
    ensures forall p :: p in rest <==> p in pending && p.orderId != id
  {
    if pending == [] then []
    else if pending[0].orderId == id then Without(pending[1..], id)
    else [pending[0]] + Without(pending[1..], id)
  }

  function Find(pending: seq<Pending>, id: OrderId): (p: Option<Pending>)
    ensures p.Some? ==> p.value in pending && p.value.orderId == id
    ensures p.None? ==> forall q :: q in pending ==> q.orderId != id
  {
    if pending == [] then None
    else if pending[0].orderId == id then Some(pending[0])
    else Find(pending[1..], id)
  }

  ghost predicate DistinctIds(pending: seq<Pending>) {
    forall i, j :: 0 <= i < j < |pending| ==> pending[i].orderId != pending[j].orderId
  }

  function CancelUpdate(p: Pending, now: int): Event {
    UpdateEvent(OrderUpdate(p.orderId, Some(p.intent.intentId), Cancelled, 0.0, now))
  }

  function Cancel(v: Venue, id: OrderId, now: int): Venue {
    var found := Find(v.pending, id);
    if found.None? then v
    else Emit(v.(pending := Without(v.pending, id)), found.value.intent.tokenId, CancelUpdate(found.value, now))
  }

  function CancelEach(v: Venue, ids: seq<OrderId>, now: int): Venue
    decreases |ids|
  {
    if ids == [] then v else CancelEach(Cancel(v, ids[0], now), ids[1..], now)
  }

  function Ids(pending: seq<Pending>): seq<OrderId> {
    seq(|pending|, i requires 0 <= i < |pending| => pending[i].orderId)
  }

  // ---------------------------------------------------------------- own use of displayed size

  function Recent(uses: seq<Use>, horizon: int): seq<Use> {
    if uses == [] then []
    else if uses[0].tsMs > horizon then [uses[0]] + Recent(uses[1..], horizon)
    else Recent(uses[1..], horizon)
  }

  function Used(uses: seq<Use>): real {
    if uses == [] then 0.0 else uses[0].size + Used(uses[1..])
  }

  function UsesOf(consumed: map<LevelKey, seq<Use>>, key: LevelKey): seq<Use> {
    if key in consumed then consumed[key] else []
  }

  /** Displayed size minus our own recent use, level by level. */
  function Available(consumed: map<LevelKey, seq<Use>>, token: TokenId, side: Side, levels: seq<Level>, horizon: int)
    : (out: seq<Level>)
  {
    seq(|levels|, i requires 0 <= i < |levels| =>
      Level(levels[i].price,
            levels[i].size - Used(Recent(UsesOf(consumed, LevelKey(token, side, levels[i].price)), horizon))))
  }

  predicate Touched(key: LevelKey, token: TokenId, side: Side, levels: seq<Level>) {
    key.token == token && key.side == side && exists i :: 0 <= i < |levels| && levels[i].price == key.price
  }

  /** Looking at a level forgets its uses from the horizon or before. */
  function Pruned(consumed: map<LevelKey, seq<Use>>, token: TokenId, side: Side, levels: seq<Level>, horizon: int)
    : map<LevelKey, seq<Use>>
  {
    map key | key in consumed && (Touched(key, token, side, levels) ==> Recent(consumed[key], horizon) != []) ::
      if Touched(key, token, side, levels) then Recent(consumed[key], horizon) else consumed[key]
  }

  function Consume(consumed: map<LevelKey, seq<Use>>, key: LevelKey, use: Use): map<LevelKey, seq<Use>> {
    consumed[key := UsesOf(consumed, key) + [use]]
  }

  // ---------------------------------------------------------------- matching

  datatype Plan = Plan(lots: seq<Lot>, complete: bool)

  function SideLevels(book: Book, side: Side): seq<Level> {
    if side.Buy? then book.asks else book.bids
  }

  function WalkOf(intent: OrderIntent, levels: seq<Level>): Walk
    requires PricedInRange(levels)
  {
    if intent.side.Buy? then BuyWalk(levels, intent.limitPrice, intent.quantity)
    else SellWalk(levels, intent.limitPrice, intent.quantity)
  }

  /** A fill-or-kill order that would not complete takes nothing. */
  function PlanOf(intent: OrderIntent, levels: seq<Level>): Plan
    requires PricedInRange(levels)
  {
    var w := WalkOf(intent, levels);
    var complete := if intent.side.Buy? then BuyComplete(w) else SellComplete(w);
    Plan(if intent.orderType.FOK? && !complete then [] else w.lots, complete)
  }

  function FillOf(cfg: Config, p: Pending, lot: Lot, index: nat, now: int): Fill {
    Fill(FillId(p.orderId, index), Some(p.intent.intentId), Some(p.orderId), p.intent.conditionId,
         p.intent.tokenId, p.intent.outcome, p.intent.side, lot.price, lot.shares,
         LotFee(p.feeRate, cfg.feeMult, lot), now)
  }

  /** What a fill does to the cash of whoever placed the order. */
  function CashDelta(f: Fill): real {
    if f.side.Buy? then -(Notional(f.price, f.shares) + f.fee) else Notional(f.price, f.shares) - f.fee
  }

  function ShareDelta(f: Fill): real {
    if f.side.Buy? then f.shares else -f.shares
  }

  function FillLot(cfg: Config, v: Venue, p: Pending, lot: Lot, index: nat, now: int): Venue {
    var token := p.intent.tokenId;
    var fill := FillOf(cfg, p, lot, index, now);
    Emit(v.(consumed := Consume(v.consumed, LevelKey(token, p.intent.side, lot.price), Use(now, lot.shares)),
            cash := v.cash + CashDelta(fill),
            positions := v.positions[token := v.Held(token) + ShareDelta(fill)]),
         token, FillEvent(fill))
  }

  /** The first `n` lots, in order. */
  function FillLots(cfg: Config, v: Venue, p: Pending, lots: seq<Lot>, n: nat, now: int): Venue
    requires n <= |lots|
  {
    if n == 0 then v
    else FillLot(cfg, FillLots(cfg, v, p, lots, n - 1, now), p, lots[n - 1], n - 1, now)
  }

  function FinalUpdate(p: Pending, plan: Plan, now: int): Event {
    UpdateEvent(OrderUpdate(p.orderId, Some(p.intent.intentId),
                            if plan.lots != [] && plan.complete then Filled else Cancelled,
                            Shares(plan.lots), now))
  }

  function MatchBook(cfg: Config, v: Venue, book: Book, p: Pending, now: int): Venue {
    var levels := SideLevels(book, p.intent.side);
    var horizon := now - cfg.replenishMs;
    var plan := PlanOf(p.intent, Available(v.consumed, p.intent.tokenId, p.intent.side, levels, horizon));
    var looked := v.(consumed := Pruned(v.consumed, p.intent.tokenId, p.intent.side, levels, horizon));
    Emit(FillLots(cfg, looked, p, plan.lots, |plan.lots|, now), p.intent.tokenId, FinalUpdate(p, plan, now))
  }

  function Match(cfg: Config, v: Venue, books: Books, p: Pending, now: int): Venue {
    if p.intent.tokenId !in books then Emit(v, p.intent.tokenId, CancelUpdate(p, now))
    else MatchBook(cfg, v, books[p.intent.tokenId], p, now)
  }

  // ---------------------------------------------------------------- time

  function Due(pending: seq<Pending>, now: int): (due: seq<Pending>)
    ensures forall p :: p in due <==> p in pending && p.dueMs <= now
  {
    if pending == [] then []
    else if pending[0].dueMs <= now then [pending[0]] + Due(pending[1..], now)
    else Due(pending[1..], now)
  }

  /** Insertion that keeps earlier arrivals first among equal due times (a stable sort). */
  function InsertByDue(p: Pending, sorted: seq<Pending>): seq<Pending> {
    if sorted == [] || p.dueMs <= sorted[0].dueMs then [p] + sorted
    else [sorted[0]] + InsertByDue(p, sorted[1..])
  }

  function SortByDue(pending: seq<Pending>): seq<Pending> {
    if pending == [] then [] else InsertByDue(pending[0], SortByDue(pending[1..]))
  }

  function MatchAll(cfg: Config, v: Venue, books: Books, orders: seq<Pending>): Venue
    decreases |orders|
  {
    if orders == [] then v
    else
      var p := orders[0];
      MatchAll(cfg, Match(cfg, v.(pending := Without(v.pending, p.orderId)), books, p, p.dueMs), books, orders[1..])
  }

  /** Match every pending order whose arrival time has passed, oldest arrival first. */
  function Advance(cfg: Config, v: Venue, books: Books, now: int): Venue {
    MatchAll(cfg, v, books, SortByDue(Due(v.pending, now)))
  }

  /** History entries of `token` from `since` on. */
  function OrdersSince(history: seq<Logged>, token: TokenId, since: int): seq<Event> {
    if history == [] then []
    else if history[0].token == token && history[0].event.TsMs() >= since then
      [history[0].event] + OrdersSince(history[1..], token, since)
    else OrdersSince(history[1..], token, since)
  }

  function Settle(v: Venue, winner: TokenId, loser: TokenId): Venue {
    v.(positions := v.positions - {winner} - {loser}, cash := v.cash + v.Held(winner))
  }
}
