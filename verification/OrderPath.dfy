/** The order path as a protocol of steps: clock, books, the paper venue, the execution engine and
    the portfolio, with every interleaving of submissions, lost replies, arrivals, cancels, polls,
    history queries and settlements. The invariant that couples the two ledgers is stated here
    and proved in `OrderPathProof`. */
module OrderPath {
  import opened Domain
  import opened Matching
  import opened PaperVenue
  import opened MatchBlocks
  import opened Histories
  import opened Sums
  import Execution
  import Accounting
  import Delivery
  import opened TradingDesk
  import opened ExecutionEngine

  datatype Setup = Setup(cfg: Config, maxInFlight: nat, markets: map<ConditionId, Market>, maxLevels: nat)
  {
    /** Markets as the discovery registers them: each token belongs to one market. */
    ghost predicate Valid() {
      && cfg.Valid()
      && (forall c :: c in markets ==> markets[c].Valid() && markets[c].conditionId == c
                                       && markets[c].first.outcome != markets[c].second.outcome)
      && forall c, d, t :: c in markets && d in markets && markets[c].HasToken(t) && markets[d].HasToken(t) ==> c == d
    }
  }

  datatype Sys = Sys(clock: int, books: Books, venue: Venue, desk: Desk)

  function Start(cash: real, clock: int): Sys {
    Sys(clock, map[], Initial(cash), Desk(Execution.EMPTY, Accounting.WithCash(cash, clock), false))
  }

  /** History variables: each order's record when its submission concluded, how many of its
      events were delivered, and whose each venue order is. */
  datatype Aux = Aux(
    base: map<IntentId, OrderRecord>,
    marks: Delivery.Marks,
    owner: map<OrderId, IntentId>)

  const NO_ORDERS: Aux := Aux(map[], map[], map[])

  // ---------------------------------------------------------------- steps

  datatype Step =
    | Tick(now: int)
    | ChangeBooks(books: Books)
    | SubmitOrder(decision: Execution.Decision, condition: ConditionId, outcome: Outcome, id: IntentId,
                  link: Link, jitter: nat, chaos: bool)
    | AdvanceVenue
    | CancelOrder(orderId: OrderId)
    | CancelAllOrders
    | PollAndApply
    | ResolveUnknown(id: IntentId)
    | OperatorNoFill(id: IntentId)
    | SettleMarket(condition: ConditionId, winner: Token, loser: Token)

  ghost predicate BooksWithin(books: Books, n: nat) {
    forall t :: t in books ==> |books[t].asks| <= n && |books[t].bids| <= n
  }

  function PreparedBy(setup: Setup, s: Sys, step: Step): Execution.Built
    requires step.SubmitOrder? && step.condition in setup.markets && setup.markets[step.condition].Valid()
  {
    Execution.Prepare(s.desk.engine, setup.maxInFlight, step.decision, setup.markets[step.condition],
                      step.outcome, step.id, s.clock)
  }

  function RateOf(setup: Setup, intent: OrderIntent): real {
    if intent.conditionId in setup.markets then setup.markets[intent.conditionId].feeRate else 0.0
  }

  function ReserveOf(setup: Setup, intent: OrderIntent): real {
    Reserve(intent, setup.maxLevels, RateOf(setup, intent), setup.cfg.feeMult)
  }

  /** Cash still owed to an order: its reserve less what its delivered fills took out. */
  ghost function Pledge(setup: Setup, rec: OrderRecord, stream: seq<Event>, mark: nat): real
    requires mark <= |stream|
  {
    if rec.status.IsTerminal() then 0.0 else ReserveOf(setup, rec.intent) - Sum(Outlay, stream[..mark])
  }

  ghost function Pledges(setup: Setup, s: Sys, a: Aux): map<IntentId, real> {
    map id | id in a.base && id in a.marks && id in s.desk.engine.orders && a.marks[id] <= |StreamOf(s.venue.history, id)| ::
      Pledge(setup, s.desk.engine.orders[id], StreamOf(s.venue.history, id), a.marks[id])
  }

  ghost function PledgeTotal(ids: seq<IntentId>, m: map<IntentId, real>): real {
    if ids == [] then 0.0 else (if ids[0] in m then m[ids[0]] else 0.0) + PledgeTotal(ids[1..], m)
  }

  /** The cash the portfolio holds beyond everything pledged covers one more order. */
  ghost predicate Covered(setup: Setup, s: Sys, a: Aux, intent: OrderIntent) {
    PledgeTotal(s.desk.engine.intents, Pledges(setup, s, a)) + ReserveOf(setup, intent) <= s.desk.ledger.cash
  }

  ghost predicate NoPendingSellOn(s: Sys, token: TokenId) {
    forall p :: p in s.venue.pending && p.intent.side.Sell? ==> p.intent.tokenId != token
  }

  ghost predicate AllDeliveredOn(s: Sys, token: TokenId) {
    forall q :: 0 <= q < |s.venue.history| && s.venue.history[q].event.FillEvent?
                && s.venue.history[q].event.fill.tokenId == token ==>
      s.venue.history[q].event.fill.fillId in s.desk.engine.fillIds
  }

  ghost predicate NeverReached(s: Sys, id: IntentId) {
    && (forall p :: p in s.venue.pending ==> p.intent.intentId != id)
    && (forall q :: 0 <= q < |s.venue.history| ==> s.venue.history[q].event.IntentId() != Some(id))
  }

  predicate PairOf(m: Market, winner: Token, loser: Token) {
    (winner == m.first && loser == m.second) || (winner == m.second && loser == m.first)
  }

  /** When a step may be taken. Submissions ask what the risk engine checks (no open order on the
      token) and that the order is covered; a settlement that no sell on the market is pending and
      no fill on it undelivered; the operator's verdict that the order really never reached the
      venue. */
  ghost predicate Enabled(setup: Setup, s: Sys, a: Aux, step: Step) {
    match step
    case Tick(now) => s.clock <= now
    case ChangeBooks(books) => BooksWithin(books, setup.maxLevels)
    case SubmitOrder(d, condition, _, id, _, _, _) =>
      && condition in setup.markets && setup.markets[condition].Valid()
      && id !in s.desk.engine.orders && !Execution.InFlight(s.desk.engine, d.tokenId)
      && (PreparedBy(setup, s, step).Built? ==> Covered(setup, s, a, PreparedBy(setup, s, step).intent))
    case ResolveUnknown(id) => Execution.IsUnknownOrder(s.desk.engine, id)
    case OperatorNoFill(id) => id in s.desk.engine.orders && NeverReached(s, id)
    case SettleMarket(condition, winner, loser) =>
      && condition in setup.markets && PairOf(setup.markets[condition], winner, loser)
      && NoPendingSellOn(s, winner.tokenId) && NoPendingSellOn(s, loser.tokenId)
      && AllDeliveredOn(s, winner.tokenId) && AllDeliveredOn(s, loser.tokenId)
    case _ => true
  }

  function AfterSubmit(setup: Setup, s: Sys, step: Step): Sys
    requires step.SubmitOrder? && step.condition in setup.markets && setup.markets[step.condition].Valid()
  {
    var b := PreparedBy(setup, s, step);
    if b.Refused? then s
    else
      var begun := Execution.MarkSubmitting(Execution.InsertIntent(s.desk.engine, b.intent), b.intent);
      var (v, ack) := Submit(setup.cfg, s.venue, b.intent, setup.markets[step.condition], s.clock, step.jitter, step.chaos);
      var reply := if step.link.Delivered? then Execution.Acked(ack) else Execution.Lost(s.clock);
      s.(venue := if step.link.LostBefore? then s.venue else v,
         desk := s.desk.(engine := Execution.Conclude(begun, b.intent, reply)))
  }

  function Found(s: Sys, rec: OrderRecord): seq<Event> {
    Execution.Mine(OrdersSince(s.venue.history, rec.intent.tokenId, rec.intent.createdMs), rec)
  }

  /** The step of the code; events that are not valid values cannot be constructed there. */
  function Next(setup: Setup, s: Sys, step: Step): Sys {
    match step
    case Tick(now) => s.(clock := now)
    case ChangeBooks(books) => s.(books := books)
    case SubmitOrder(_, condition, _, _, _, _, _) =>
      if condition in setup.markets && setup.markets[condition].Valid() then AfterSubmit(setup, s, step) else s
    case AdvanceVenue => s.(venue := Advance(setup.cfg, s.venue, s.books, s.clock))
    case CancelOrder(orderId) => s.(venue := Cancel(s.venue, orderId, s.clock))
    case CancelAllOrders => s.(venue := CancelEach(s.venue, Ids(s.venue.pending), s.clock))
    case PollAndApply =>
      var v := Advance(setup.cfg, s.venue, s.books, s.clock);
      if ValidEvents(v.events) then s.(venue := v.(events := []), desk := DeliverAll(s.desk, v.events)) else s
    case ResolveUnknown(id) =>
      if id !in s.desk.engine.orders then s
      else
        var mine := Found(s, s.desk.engine.orders[id]);
        if ValidEvents(mine) then s.(desk := DeliverAll(s.desk, mine)) else s
    case OperatorNoFill(id) =>
      if id !in s.desk.engine.orders then s
      else s.(desk := s.desk.(engine := Execution.MarkResolvedNoFill(s.desk.engine, id, s.clock)))
    case SettleMarket(condition, winner, loser) =>
      s.(venue := Settle(s.venue, winner.tokenId, loser.tokenId),
         desk := s.desk.(ledger := Accounting.Settle(s.desk.ledger, condition, winner.outcome, s.clock)))
  }

  // ---------------------------------------------------------------- the invariant

  function Streams(history: seq<Logged>, base: map<IntentId, OrderRecord>): Delivery.Streams {
    map id | id in base :: StreamOf(history, id)
  }

  ghost predicate KnownIntent(setup: Setup, i: OrderIntent) {
    && i.Valid() && i.conditionId in setup.markets
    && setup.markets[i.conditionId].HasToken(i.tokenId)
    && setup.markets[i.conditionId].OutcomeOf(i.tokenId) == i.outcome
  }

  ghost predicate IntentsOk(setup: Setup, s: Sys, a: Aux) {
    && NoRepeats(s.desk.engine.intents)
    && (forall id :: id in s.desk.engine.intents <==> id in a.base)
    && (forall id :: id in a.base ==>
          a.base[id].intent.intentId == id && KnownIntent(setup, a.base[id].intent) && a.base[id].intent.createdMs <= s.clock)
  }

  ghost predicate PendingOk(setup: Setup, s: Sys, a: Aux, p: Pending) {
    var id := p.intent.intentId;
    && GoodPending(setup.cfg, p)
    && id in a.base && a.base[id].intent == p.intent && !a.base[id].status.IsTerminal()
    && StreamOf(s.venue.history, id) == []
    && p.intent.createdMs <= p.dueMs
    && p.intent.conditionId in setup.markets && p.feeRate == setup.markets[p.intent.conditionId].feeRate
    && p.orderId in a.owner && a.owner[p.orderId] == id
  }

  ghost predicate AllPendingOk(setup: Setup, s: Sys, a: Aux) {
    && (forall p :: p in s.venue.pending ==> PendingOk(setup, s, a, p))
    && DistinctIds(s.venue.pending)
    && (forall i, j :: 0 <= i < j < |s.venue.pending| ==> s.venue.pending[i].intent.intentId != s.venue.pending[j].intent.intentId)
    && (forall x :: x in a.owner ==> x <= s.venue.submitted)
  }

  ghost predicate EntryOk(a: Aux, entry: Logged) {
    var ev := entry.event;
    && ev.IntentId().Some? && ev.IntentId().value in a.base
    && var rec := a.base[ev.IntentId().value];
       && entry.token == rec.intent.tokenId && rec.intent.createdMs <= ev.TsMs()
       && ev.ExchangeOrderId().Some? && ev.ExchangeOrderId().value in a.owner
       && a.owner[ev.ExchangeOrderId().value] == ev.IntentId().value
       && (ev.FillEvent? ==>
             && ev.fill.Valid() && ev.fill.tokenId == rec.intent.tokenId && ev.fill.side == rec.intent.side
             && ev.fill.conditionId == rec.intent.conditionId && ev.fill.outcome == rec.intent.outcome
             && ev.fill.exchangeOrderId == Some(ev.fill.fillId.orderId))
  }

  ghost predicate HistoryOk(s: Sys, a: Aux) {
    && (forall q :: 0 <= q < |s.venue.history| ==> EntryOk(a, s.venue.history[q]))
    && DistinctFills(s.venue.history)
    && (forall f :: f in s.desk.engine.fillIds ==>
          f.orderId in a.owner && StreamOf(s.venue.history, a.owner[f.orderId]) != [])
    && (forall id :: id in s.desk.engine.orders && s.desk.engine.orders[id].exchangeOrderId.Some? ==>
          var x := s.desk.engine.orders[id].exchangeOrderId.value; x in a.owner && a.owner[x] == id)
  }

  /** Each accepted order's events end with its one terminal update, within its reserve; an order
      that was refused outright has none. */
  ghost predicate StreamOk(setup: Setup, rec: OrderRecord, stream: seq<Event>) {
    stream != [] ==>
      && stream[|stream| - 1].UpdateEvent? && !rec.status.IsTerminal()
      && Sum(Outlay, stream) <= ReserveOf(setup, rec.intent)
      && (rec.intent.side.Buy? ==> Sum(SpentIn, stream) <= rec.intent.quantity)
  }

  ghost predicate StreamsOk(setup: Setup, s: Sys, a: Aux) {
    && Delivery.Tracks(s.desk.engine, a.base, Streams(s.venue.history, a.base), a.marks)
    && forall id :: id in a.base ==> StreamOk(setup, a.base[id], StreamOf(s.venue.history, id))
  }

  /** The coupling: what the venue holds is what the portfolio holds plus the fills on the way. */
  ghost predicate Coupled(s: Sys) {
    && s.venue.cash == s.desk.ledger.cash + Undelivered(s.venue.history, s.desk.engine.fillIds, CashDelta)
    && forall t: TokenId :: s.venue.Held(t)
         == Accounting.SharesOf(s.desk.ledger.positions, t) + Undelivered(s.venue.history, s.desk.engine.fillIds, SharesIn(t))
  }

  ghost predicate CashCovers(setup: Setup, s: Sys, a: Aux) {
    PledgeTotal(s.desk.engine.intents, Pledges(setup, s, a)) <= s.desk.ledger.cash
  }

  function SpentIn(ev: Event): real {
    if ev.FillEvent? then Notional(ev.fill.price, ev.fill.shares) else 0.0
  }

  function SoldIn(ev: Event): real {
    if ev.FillEvent? && ev.fill.side.Sell? then ev.fill.shares else 0.0
  }

  /** Every sell on its way is of shares the portfolio still holds. */
  ghost predicate SharesCover(s: Sys, a: Aux) {
    && (forall p :: p in s.venue.pending && p.intent.side.Sell? ==>
          p.intent.quantity <= Accounting.SharesOf(s.desk.ledger.positions, p.intent.tokenId))
    && (forall id :: id in a.base && id in a.marks && a.marks[id] <= |StreamOf(s.venue.history, id)| ==>
          Sum(SoldIn, StreamOf(s.venue.history, id)[a.marks[id]..])
            <= Accounting.SharesOf(s.desk.ledger.positions, a.base[id].intent.tokenId))
  }

  ghost predicate OneOpenPerToken(s: Sys) {
    forall a, b ::
      (a in s.desk.engine.orders && b in s.desk.engine.orders && a != b
       && s.desk.engine.orders[a].status.IsOpen() && s.desk.engine.orders[b].status.IsOpen())
      ==> s.desk.engine.orders[a].intent.tokenId != s.desk.engine.orders[b].intent.tokenId
  }

  ghost predicate PositionOk(setup: Setup, p: Accounting.Position) {
    && p.conditionId in setup.markets && setup.markets[p.conditionId].HasToken(p.tokenId)
    && setup.markets[p.conditionId].OutcomeOf(p.tokenId) == p.outcome
  }

  ghost predicate LedgerOk(setup: Setup, s: Sys) {
    && Accounting.WellKept(s.desk.ledger) && !s.desk.raised
    && forall i :: 0 <= i < |s.desk.ledger.positions| ==> PositionOk(setup, s.desk.ledger.positions[i])
  }

  ghost predicate Core(setup: Setup, s: Sys, a: Aux) {
    && IntentsOk(setup, s, a)
    && AllPendingOk(setup, s, a)
    && HistoryOk(s, a)
    && StreamsOk(setup, s, a)
    && Coupled(s)
    && CashCovers(setup, s, a)
    && SharesCover(s, a)
    && OneOpenPerToken(s)
    && LedgerOk(setup, s)
    && BooksWithin(s.books, setup.maxLevels)
  }

  function EventsOf(history: seq<Logged>): seq<Event> {
    seq(|history|, i requires 0 <= i < |history| => history[i].event)
  }

  /** Everything before the polled point was delivered. */
  ghost predicate PolledOk(s: Sys, a: Aux, polled: nat) {
    && polled <= |s.venue.history|
    && forall id :: id in a.base ==> id in a.marks && |StreamOf(s.venue.history[..polled], id)| <= a.marks[id]
  }

  /** The queue is what the history gained since the last poll. */
  ghost predicate QueueOk(s: Sys, polled: nat) {
    polled <= |s.venue.history| && s.venue.events == EventsOf(s.venue.history[polled..])
  }

  ghost predicate Inv(setup: Setup, s: Sys, a: Aux, polled: nat) {
    setup.Valid() && Core(setup, s, a) && PolledOk(s, a, polled) && QueueOk(s, polled)
  }
}
