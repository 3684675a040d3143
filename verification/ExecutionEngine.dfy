/** The execution engine as the class it is, each method proved equal to its function in
    `Execution` (and, where a fill reaches the portfolio, in `TradingDesk`). */
module ExecutionEngine {
  import opened Decimals
  import opened Domain
  import opened Matching
  import opened Execution
  import TradingDesk
  import PaperExchange
  import PaperVenue
  import Portfolio

  /** What the transport does to a submission. */
  datatype Link = Delivered | LostBefore | LostAfter

  function Listed(m: map<TokenId, real>, token: TokenId): real {
    if token in m then m[token] else 0.0
  }

  class ExecutionEngine {
    const maxInFlight: nat
    const unknownTimeoutMs: int
    const portfolio: Portfolio.Portfolio
    var orders: map<IntentId, OrderRecord>
    var intents: seq<IntentId>
    var byExchange: map<OrderId, IntentId>
    var usedDecisions: set<DecisionId>
    var violations: seq<Violation>
    var stored: map<IntentId, OrderRecord>
    var rows: seq<IntentId>
    var fillIds: set<FillId>

    function State(): Engine
      reads this
    {
      Engine(orders, intents, byExchange, usedDecisions, violations, stored, rows, fillIds)
    }

    function Desk(): TradingDesk.Desk
      reads this, portfolio
    {
      TradingDesk.Desk(State(), portfolio.State(), false)
    }

    /** A new process over an existing store. */
    constructor (maxInFlight: nat, unknownTimeoutMs: int, portfolio: Portfolio.Portfolio,
                 stored: map<IntentId, OrderRecord>, rows: seq<IntentId>, fillIds: set<FillId>)
      ensures this.maxInFlight == maxInFlight && this.unknownTimeoutMs == unknownTimeoutMs && this.portfolio == portfolio
      ensures State() == EMPTY.(stored := stored, rows := rows, fillIds := fillIds)
    {
      this.maxInFlight, this.unknownTimeoutMs, this.portfolio := maxInFlight, unknownTimeoutMs, portfolio;
      orders, intents, byExchange, usedDecisions, violations := map[], [], map[], {}, [];
      this.stored, this.rows, this.fillIds := stored, rows, fillIds;
    }

    // -------------------------------------------------------------- startup

    method LoadOpenOrders(now: int) returns (count: nat)
      requires State() == EMPTY.(stored := stored, rows := rows, fillIds := fillIds)
      modifies this
      ensures State() == Restart(old(State()), now)
      ensures count == |intents|
    {
      ghost var blank := State();
      var table := stored;
      count := 0;
      var i := 0;
      while i < |rows|
        invariant i <= |rows| && rows == old(rows)
        invariant State() == LoadOpen(blank, table, rows, i, now)
        invariant count == |intents|
      {
        var id := rows[i];
        if id in table && table[id].status.IsOpen() {
          var rec := Reopened(table[id], now);
          stored := stored[id := rec];
          orders := orders[id := rec];
          intents := intents + [id];
          if rec.exchangeOrderId.Some? {
            byExchange := byExchange[rec.exchangeOrderId.value := id];
          }
          count := count + 1;
        }
        i := i + 1;
      }
      ghost var reopened := State();
      i := 0;
      while i < |rows|
        invariant i <= |rows| && rows == old(rows)
        invariant State() == LoadUsed(reopened, reopened.stored, rows, i)
        invariant stored == reopened.stored && count == |intents|
      {
        var id := rows[i];
        if id in stored {
          usedDecisions := usedDecisions + {stored[id].intent.decisionId};
          var x := stored[id].exchangeOrderId;
          if x.Some? && x.value !in byExchange {
            byExchange := byExchange[x.value := id];
          }
        }
        i := i + 1;
      }
    }

    // -------------------------------------------------------------- views

    method OpenOrders() returns (open: seq<IntentId>)
      ensures open == OpenIds(State(), intents)
    {
      open := [];
      var i := 0;
      while i < |intents|
        invariant i <= |intents|
        invariant open + OpenIds(State(), intents[i..]) == OpenIds(State(), intents)
      {
        assert intents[i..][0] == intents[i] && intents[i..][1..] == intents[i + 1..];
        if intents[i] in orders && orders[intents[i]].status.IsOpen() {
          open := open + [intents[i]];
        }
        i := i + 1;
      }
    }

    method UnknownOrders() returns (unknown: seq<IntentId>)
      ensures unknown == UnknownIds(State(), intents)
    {
      unknown := [];
      var i := 0;
      while i < |intents|
        invariant i <= |intents|
        invariant unknown + UnknownIds(State(), intents[i..]) == UnknownIds(State(), intents)
      {
        assert intents[i..][0] == intents[i] && intents[i..][1..] == intents[i + 1..];
        if intents[i] in orders && orders[intents[i]].status.Unknown? {
          unknown := unknown + [intents[i]];
        }
        i := i + 1;
      }
    }

    method PendingBuy() returns (total: real)
      ensures total == PendingBuyUsd(State())
    {
      total := 0.0;
      var i := 0;
      while i < |intents|
        invariant i <= |intents|
        invariant total + PendingBuyFrom(orders, intents[i..]) == PendingBuyFrom(orders, intents)
      {
        assert intents[i..][0] == intents[i] && intents[i..][1..] == intents[i + 1..];
        var id := intents[i];
        if id in orders && orders[id].status.IsOpen() && orders[id].intent.side.Buy? {
          total := total + Max(0.0, orders[id].intent.quantity - orders[id].filledNotional);
        }
        i := i + 1;
      }
    }

    /** By token; a token without an open sell is absent. */
    method PendingSells() returns (out: map<TokenId, real>)
      ensures forall t: TokenId :: Listed(out, t) == PendingSellOn(orders, intents, t)
    {
      out := map[];
      var i := 0;
      while i < |intents|
        invariant i <= |intents|
        invariant forall t: TokenId :: Listed(out, t) + PendingSellOn(orders, intents[i..], t) == PendingSellOn(orders, intents, t)
      {
        assert intents[i..][0] == intents[i] && intents[i..][1..] == intents[i + 1..];
        var id := intents[i];
        if id in orders && orders[id].status.IsOpen() && orders[id].intent.side.Sell? {
          var token := orders[id].intent.tokenId;
          out := out[token := Listed(out, token) + Max(0.0, orders[id].intent.quantity - orders[id].filledShares)];
        }
        i := i + 1;
      }
    }

    // -------------------------------------------------------------- submission

    /** Submits at most once; `link` is what the transport does to the call. */
    method Execute(d: Decision, market: Market, outcome: Outcome, id: IntentId, now: int,
                   venue: PaperExchange.PaperExchange, link: Link, jitter: nat, chaos: bool) returns (b: Built)
      requires market.Valid()
      modifies this, venue
      ensures b == Prepare(old(State()), maxInFlight, d, market, outcome, id, now)
      ensures b.Refused? ==> State() == old(State()) && venue.State() == old(venue.State())
      ensures b.Built? ==>
        var (v, ack) := PaperVenue.Submit(venue.cfg, old(venue.State()), b.intent, market, now, jitter, chaos);
        var begun := MarkSubmitting(InsertIntent(old(State()), b.intent), b.intent);
        && venue.State() == (if link.LostBefore? then old(venue.State()) else v)
        && State() == Conclude(begun, b.intent, if link.Delivered? then Acked(ack) else Lost(now))
    {
      hide FloorTo, CeilTo, OpenIds, UnknownIds, BuildIntent, PaperVenue.Submit, Answered;
      var open := OpenOrders();
      if |open| >= maxInFlight {
        return Refused(MaxInFlight);
      }
      var unknown := UnknownOrders();
      if |unknown| > 0 {
        return Refused(UnknownOrderPending);
      }
      b := BuildIntent(State(), d, market, outcome, id, now);
      if b.Refused? {
        return;
      }
      var intent := b.intent;
      BuiltIsValid(State(), d, market, outcome, id, now);
      if id in stored || exists k :: k in stored && stored[k].intent.decisionId == d.decisionId {
        return Refused(DuplicateRow);
      }
      assert b == Prepare(old(State()), maxInFlight, d, market, outcome, id, now);
      hide Prepare;
      stored := stored[id := Fresh(intent, Intent)];
      rows := rows + [id];
      usedDecisions := usedDecisions + {intent.decisionId};
      intents := intents + [id];
      SaveRecord(Fresh(intent, Submitting));
      assert State() == MarkSubmitting(InsertIntent(old(State()), intent), intent);
      hide MarkSubmitting, InsertIntent, Fresh;
      var reply := Lost(now);
      if !link.LostBefore? {
        var ack := venue.Submit(intent, market, now, jitter, chaos);
        if link.Delivered? {
          reply := Acked(ack);
        }
      }
      var rec := Answered(intent, reply);
      if rec.exchangeOrderId.Some? {
        byExchange := byExchange[rec.exchangeOrderId.value := id];
      }
      SaveRecord(rec);
    }

    method SaveRecord(rec: OrderRecord)
      modifies this`orders, this`stored
      ensures State() == Save(old(State()), rec)
    {
      orders := orders[rec.intent.intentId := rec];
      stored := stored[rec.intent.intentId := rec];
    }

    // -------------------------------------------------------------- events

    /** Stops at the first fill the portfolio refuses. */
    method ApplyEvents(events: seq<Event>) returns (raised: bool)
      requires TradingDesk.ValidEvents(events)
      modifies this, portfolio
      ensures Desk().(raised := raised) == TradingDesk.DeliverAll(old(Desk()), events)
    {
      raised := false;
      var i := 0;
      while i < |events|
        invariant i <= |events| && !raised
        invariant TradingDesk.DeliverAll(Desk(), events[i..]) == TradingDesk.DeliverAll(old(Desk()), events)
      {
        assert events[i..][0] == events[i] && events[i..][1..] == events[i + 1..];
        assert TradingDesk.ValidEvent(events[i]);
        ghost var before := Desk();
        if events[i].FillEvent? {
          raised := ApplyFill(events[i].fill);
          if raised {
            RaisedStaysPut(Desk().(raised := true), events[i + 1..]);
            return;
          }
        } else {
          ApplyUpdate(events[i].update);
        }
        i := i + 1;
      }
    }

    method Find(intentId: Option<IntentId>, exchangeId: Option<OrderId>) returns (rec: Option<OrderRecord>)
      ensures rec == Lookup(State(), intentId, exchangeId)
    {
      if intentId.Some? && intentId.value in orders {
        return Some(orders[intentId.value]);
      }
      if exchangeId.Some? && exchangeId.value in byExchange && byExchange[exchangeId.value] in orders {
        return Some(orders[byExchange[exchangeId.value]]);
      }
      return None;
    }

    /** The engine's own part of a fill; `booked` says the portfolio is to be told. */
    method RecordFill(fill: Fill) returns (booked: bool)
      modifies this
      ensures (State(), booked) == Execution.ApplyFill(old(State()), fill)
    {
      hide Notional;
      var found := Find(fill.intentId, fill.exchangeOrderId);
      if found.None? {
        violations := violations + [FillForUnknownOrder(fill.fillId)];
        return false;
      }
      if fill.fillId in fillIds {
        return false;
      }
      fillIds := fillIds + {fill.fillId};
      var rec := found.value;
      var intent := rec.intent;
      if fill.side != intent.side || fill.tokenId != intent.tokenId {
        violations := violations + [SideOrTokenMismatch(fill.fillId)];
        return false;
      }
      if (intent.side.Buy? && fill.price > intent.limitPrice) || (intent.side.Sell? && fill.price < intent.limitPrice) {
        violations := violations + [BeyondLimit(fill.fillId)];
      }
      var shares := rec.filledShares + fill.shares;
      var notional := rec.filledNotional + Notional(fill.price, fill.shares);
      if intent.side.Sell? && shares > intent.quantity {
        violations := violations + [Oversold(intent.intentId)];
      }
      if intent.side.Buy? && notional > intent.quantity + NOTIONAL_TOLERANCE {
        violations := violations + [Overspent(intent.intentId)];
      }
      var status := if rec.status.Unknown? then PartiallyFilled else rec.status;
      if status.Live? || status.Submitting? {
        status := PartiallyFilled;
      }
      SaveRecord(rec.(filledShares := shares, filledNotional := notional, fees := rec.fees + fill.fee,
                      updatedMs := fill.tsMs, status := status));
      booked := true;
    }

    method ApplyFill(fill: Fill) returns (raised: bool)
      requires fill.Valid()
      modifies this, portfolio
      ensures Desk().(raised := raised) == TradingDesk.DeliverOne(old(Desk()), FillEvent(fill))
    {
      var booked := RecordFill(fill);
      raised := false;
      if booked {
        var r := portfolio.ApplyFill(fill);
        raised := r.InvariantError?;
      }
    }

    method ApplyUpdate(update: OrderUpdate)
      modifies this
      ensures State() == Execution.ApplyUpdate(old(State()), update)
    {
      var found := Find(update.intentId, Some(update.exchangeOrderId));
      if found.None? {
        violations := violations + [UpdateForUnknownOrder(update.exchangeOrderId)];
        return;
      }
      var rec := found.value;
      if rec.status.IsTerminal() {
        return;
      }
      if update.status.IsTerminal() && update.cumulativeFilled != rec.filledShares {
        violations := violations + [TerminalMismatch(update.exchangeOrderId)];
      }
      var status := update.status;
      if status.Cancelled? && rec.filledShares > 0.0 {
        status := if FullyFilled(rec) then Filled else Cancelled;
      }
      SaveRecord(rec.(status := status, updatedMs := update.tsMs,
                      exchangeOrderId := if rec.exchangeOrderId.Some? then rec.exchangeOrderId else Some(update.exchangeOrderId)));
    }

    /** Asks the venue about one UNKNOWN order and applies what it knows. */
    method ResolveOne(id: IntentId, venue: PaperExchange.PaperExchange, now: int) returns (stuck: bool, raised: bool)
      requires id in orders
      requires forall i :: 0 <= i < |venue.history| ==> TradingDesk.ValidEvent(venue.history[i].event)
      modifies this, portfolio
      ensures var rec := old(orders[id]);
        var mine := Execution.Mine(PaperVenue.OrdersSince(venue.history, rec.intent.tokenId, rec.intent.createdMs), rec);
        && TradingDesk.ValidEvents(mine)
        && Desk().(raised := raised) == TradingDesk.DeliverAll(old(Desk()), mine)
        && stuck == (mine == [] && now - rec.updatedMs > unknownTimeoutMs)
    {
      var rec := orders[id];
      var events := venue.FindOrdersSince(rec.intent.tokenId, rec.intent.createdMs);
      FoundAreValid(venue.history, rec.intent.tokenId, rec.intent.createdMs);
      MineAreValid(events, rec);
      var mine := Execution.Mine(events, rec);
      if mine != [] {
        raised := ApplyEvents(mine);
        return false, raised;
      }
      return now - rec.updatedMs > unknownTimeoutMs, false;
    }

    method MarkResolved(id: IntentId, now: int)
      requires id in orders
      modifies this
      ensures State() == MarkResolvedNoFill(old(State()), id, now)
    {
      SaveRecord(orders[id].(status := Cancelled, updatedMs := now));
    }
  }

  lemma BuiltIsValid(e: Engine, d: Decision, market: Market, outcome: Outcome, id: IntentId, now: int)
    requires market.Valid() && BuildIntent(e, d, market, outcome, id, now).Built?
    ensures var i := BuildIntent(e, d, market, outcome, id, now).intent;
      i.Valid() && i.intentId == id && i.decisionId == d.decisionId && i.side == d.side
  {
    hide FloorTo, CeilTo;
  }

  lemma {:induction false} RaisedStaysPut(d: TradingDesk.Desk, events: seq<Event>)
    requires d.raised && TradingDesk.ValidEvents(events)
    ensures TradingDesk.DeliverAll(d, events) == d
    decreases |events|
  {
    if events != [] {
      RaisedStaysPut(d, events[1..]);
    }
  }

  lemma {:induction false} FoundAreValid(history: seq<PaperVenue.Logged>, token: TokenId, since: int)
    requires forall i :: 0 <= i < |history| ==> TradingDesk.ValidEvent(history[i].event)
    ensures TradingDesk.ValidEvents(PaperVenue.OrdersSince(history, token, since))
  {
    if history != [] {
      FoundAreValid(history[1..], token, since);
    }
  }

  lemma {:induction false} MineAreValid(events: seq<Event>, rec: OrderRecord)
    requires TradingDesk.ValidEvents(events)
    ensures TradingDesk.ValidEvents(Execution.Mine(events, rec))
  {
    if events != [] {
      MineAreValid(events[1..], rec);
    }
  }

  /** What one submission leaves, by what the transport did and what the venue then has: one new order
      with nothing filled, UNKNOWN without a venue id when the reply was lost, else LIVE under the
      id of the venue's new pending order, or REJECTED when the venue took none. */
  lemma SubmissionOutcome(cfg: PaperVenue.Config, e: Engine, v: PaperVenue.Venue, intent: OrderIntent, market: Market, now: int,
                          link: Link, jitter: nat, chaos: bool)
    requires market.Valid() && intent.Valid() && intent.createdMs == now
    ensures var (w, ack) := PaperVenue.Submit(cfg, v, intent, market, now, jitter, chaos);
      var after := Conclude(MarkSubmitting(InsertIntent(e, intent), intent), intent, if link.Delivered? then Acked(ack) else Lost(now));
      var id := intent.intentId;
      && after.intents == e.intents + [id] && after.rows == e.rows + [id] && after.usedDecisions == e.usedDecisions + {intent.decisionId}
      && id in after.orders && after.orders == e.orders[id := after.orders[id]] && after.stored == e.stored[id := after.orders[id]]
      && after.violations == e.violations && after.fillIds == e.fillIds
      && var rec := after.orders[id];
        && rec.intent == intent && rec.filledShares == 0.0 && rec.filledNotional == 0.0 && rec.fees == 0.0 && rec.updatedMs == now
        && (!link.Delivered? ==> rec.status == Unknown && rec.exchangeOrderId == None && after.byExchange == e.byExchange)
        && (link.Delivered? && w.pending == v.pending ==>
             rec.status == Rejected && rec.exchangeOrderId == None && after.byExchange == e.byExchange)
        && (link.Delivered? && w.pending != v.pending ==>
             && |w.pending| == |v.pending| + 1 && w.pending[|v.pending|].intent == intent
             && rec.status == Live && rec.exchangeOrderId == Some(w.pending[|v.pending|].orderId)
             && after.byExchange == e.byExchange[w.pending[|v.pending|].orderId := id])
  {
    hide PaperVenue.Validate;
  }
}
