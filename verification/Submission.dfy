/** At most one submission per decision, through crashes and restarts at any point. The engine's
    `execute` is cut into the steps between which a process can die: the write-ahead row, the
    SUBMITTING record, the call to the provider, and the reply. */
module Submission {
  import opened Decimals
  import opened Domain
  import opened Matching
  import opened Execution

  datatype Phase = Idle | RowWritten(intent: OrderIntent) | Marked(intent: OrderIntent) | Called(intent: OrderIntent)

  /** The engine, where `execute` stands, and every intent the provider was ever called with. */
  datatype Machine = Machine(e: Engine, phase: Phase, sent: seq<OrderIntent>)

  datatype Step =
    | WriteRow(decision: Decision, market: Market, outcome: Outcome, id: IntentId, now: int)
    | MarkIt
    | CallProvider
    | TakeReply(reply: Reply)
    | Apply(event: Event)
    | CloseByOperator(id: IntentId, now: int)
    | Crash(now: int)

  const START: Machine := Machine(EMPTY, Idle, [])

  /** Steps that do not fit the phase do nothing; a crash can come in any phase. */
  function Next(maxInFlight: nat, m: Machine, step: Step): Machine {
    match step
    case WriteRow(d, market, outcome, id, now) =>
      if m.phase.Idle? && market.Valid() then
        var b := Prepare(m.e, maxInFlight, d, market, outcome, id, now);
        if b.Built? then m.(e := InsertIntent(m.e, b.intent), phase := RowWritten(b.intent)) else m
      else m
    case MarkIt => if m.phase.RowWritten? then m.(e := MarkSubmitting(m.e, m.phase.intent), phase := Marked(m.phase.intent)) else m
    case CallProvider => if m.phase.Marked? then m.(sent := m.sent + [m.phase.intent], phase := Called(m.phase.intent)) else m
    case TakeReply(reply) => if m.phase.Called? then m.(e := Conclude(m.e, m.phase.intent, reply), phase := Idle) else m
    case Apply(event) => if m.phase.Idle? then m.(e := Deliver(m.e, event).0) else m
    case CloseByOperator(id, now) => if m.phase.Idle? && id in m.e.orders then m.(e := MarkResolvedNoFill(m.e, id, now)) else m
    case Crash(now) => m.(e := Restart(m.e, now), phase := Idle)
  }

  function Run(maxInFlight: nat, m: Machine, steps: seq<Step>): Machine
    decreases |steps|
  {
    if steps == [] then m else Run(maxInFlight, Next(maxInFlight, m, steps[0]), steps[1..])
  }

  // ---------------------------------------------------------------- the invariant

  function OpenSet(orders: map<IntentId, OrderRecord>): set<IntentId> {
    set id | id in orders && orders[id].status.IsOpen()
  }

  ghost predicate Rows(e: Engine) {
    && NoRepeats(e.rows) && (forall id :: id in e.rows <==> id in e.stored)
    && NoRepeats(e.intents) && (forall id :: id in e.intents <==> id in e.orders)
    && forall id :: id in e.stored ==> e.stored[id].intent.intentId == id
  }

  /** Memory agrees with the store; what is only in the store is closed, or the row just written. */
  ghost predicate Mirrored(m: Machine) {
    && (forall id :: id in m.e.orders ==> id in m.e.stored && m.e.stored[id] == m.e.orders[id])
    && forall id :: id in m.e.stored && id !in m.e.orders ==>
         m.e.stored[id].status.IsTerminal() || (m.phase.RowWritten? && m.phase.intent.intentId == id)
  }

  ghost predicate OneRowPerDecision(e: Engine) {
    forall a, b :: a in e.stored && b in e.stored && a != b ==> e.stored[a].intent.decisionId != e.stored[b].intent.decisionId
  }

  ghost predicate AllStored(m: Machine) {
    && (forall i :: 0 <= i < |m.sent| ==>
          m.sent[i].intentId in m.e.stored && m.e.stored[m.sent[i].intentId].intent == m.sent[i])
    && forall i, j :: 0 <= i < j < |m.sent| ==> m.sent[i].intentId != m.sent[j].intentId
  }

  ghost predicate PhaseOk(m: Machine) {
    && (!m.phase.Idle? ==>
          m.phase.intent.intentId in m.e.stored && m.e.stored[m.phase.intent.intentId].intent == m.phase.intent)
    && (m.phase.RowWritten? ==> m.phase.intent.intentId !in m.e.orders && m.e.stored[m.phase.intent.intentId] == Fresh(m.phase.intent, Intent))
    && (m.phase.Marked? || m.phase.Called? ==>
          m.phase.intent.intentId in m.e.orders && m.e.orders[m.phase.intent.intentId] == Fresh(m.phase.intent, Submitting))
    && (m.phase.RowWritten? || m.phase.Marked? ==>
          NoneUnknown(m.e) && forall i :: 0 <= i < |m.sent| ==> m.sent[i].intentId != m.phase.intent.intentId)
  }

  ghost predicate NoneUnknown(e: Engine) {
    forall id :: id in e.orders ==> !e.orders[id].status.Unknown?
  }

  ghost predicate Inv(maxInFlight: nat, m: Machine) {
    && Rows(m.e) && Mirrored(m) && OneRowPerDecision(m.e) && AllStored(m) && PhaseOk(m)
    && |OpenSet(m.e.stored)| <= maxInFlight
  }

  // ---------------------------------------------------------------- counting open orders

  lemma {:induction false} DistinctCount(ids: seq<IntentId>, all: set<IntentId>)
    requires NoRepeats(ids) && forall id :: id in ids <==> id in all
    ensures |ids| == |all|
  {
    if ids == [] {
      assert all == {};
    } else {
      var rest := ids[1..];
      forall i | 0 <= i < |rest|
        ensures rest[i] != ids[0]
      {
        assert rest[i] == ids[i + 1];
      }
      forall id
        ensures id in rest <==> id in all - {ids[0]}
      {
        assert id in ids <==> id == ids[0] || id in rest;
      }
      DistinctCount(rest, all - {ids[0]});
    }
  }

  lemma {:induction false} OpenIdsAre(e: Engine, ids: seq<IntentId>)
    requires NoRepeats(ids)
    ensures NoRepeats(OpenIds(e, ids))
    ensures forall id :: id in OpenIds(e, ids) <==> id in ids && IsOpenOrder(e, id)
  {
    if ids != [] {
      OpenIdsAre(e, ids[1..]);
      var rest := OpenIds(e, ids[1..]);
      forall i | 0 <= i < |rest|
        ensures rest[i] != ids[0]
      {
        assert rest[i] in ids[1..];
        var j :| 0 <= j < |ids[1..]| && ids[1..][j] == rest[i];
        assert ids[j + 1] == rest[i];
      }
      assert forall id :: id in ids <==> id == ids[0] || id in ids[1..];
    }
  }

  lemma {:induction false} UnknownIdsAre(e: Engine, ids: seq<IntentId>)
    ensures forall id :: id in UnknownIds(e, ids) <==> id in ids && IsUnknownOrder(e, id)
  {
    if ids != [] {
      UnknownIdsAre(e, ids[1..]);
      assert forall id :: id in ids <==> id == ids[0] || id in ids[1..];
    }
  }

  lemma OpenCountIs(e: Engine)
    requires Rows(e)
    ensures |OpenIds(e, e.intents)| == |OpenSet(e.orders)|
  {
    OpenIdsAre(e, e.intents);
    DistinctCount(OpenIds(e, e.intents), OpenSet(e.orders));
  }

  lemma FewerOpen(a: set<IntentId>, b: set<IntentId>)
    requires a <= b
    ensures |a| <= |b|
  {
    if a != b {
      assert b == a + (b - a);
    }
  }

  // ---------------------------------------------------------------- saving one record

  /** Saving a record for a known order that does not reopen it keeps everything in place. */
  lemma SaveKeeps(maxInFlight: nat, m: Machine, rec: OrderRecord, m': Machine)
    requires Inv(maxInFlight, m)
    requires rec.intent.intentId in m.e.orders && rec.intent == m.e.orders[rec.intent.intentId].intent
    requires m.e.orders[rec.intent.intentId].status.IsTerminal() ==> rec.status.IsTerminal()
    requires m'.sent == m.sent && m'.phase.Idle? && (m.phase.Idle? || m.phase.Called?)
    requires m'.e.orders == m.e.orders[rec.intent.intentId := rec] && m'.e.stored == m.e.stored[rec.intent.intentId := rec]
    requires m'.e.rows == m.e.rows && m'.e.intents == m.e.intents
    ensures Inv(maxInFlight, m') && ClosedStay(m.e, m'.e)
  {
    hide OpenSet, Rows, Mirrored, OneRowPerDecision, AllStored, PhaseOk;
    var id := rec.intent.intentId;
    SavedFacts(maxInFlight, m, id);
    OpenSetAfterSave(m.e.stored, id, rec);
    FewerOpen(OpenSet(m'.e.stored), OpenSet(m.e.stored));
    SavedRows(maxInFlight, m, rec, m');
    SavedMirror(maxInFlight, m, rec, m');
    SavedDecisions(m, rec, m');
    SavedSent(m, rec, m');
  }

  lemma SavedFacts(maxInFlight: nat, m: Machine, id: IntentId)
    requires Inv(maxInFlight, m) && id in m.e.orders
    ensures id in m.e.stored && m.e.stored[id] == m.e.orders[id] && m.e.orders[id].intent.intentId == id
  {
    hide OpenSet, OneRowPerDecision, AllStored, PhaseOk, NoRepeats;
  }

  lemma OpenSetAfterSave(stored: map<IntentId, OrderRecord>, id: IntentId, rec: OrderRecord)
    requires id in stored && (stored[id].status.IsTerminal() ==> rec.status.IsTerminal())
    ensures OpenSet(stored[id := rec]) <= OpenSet(stored)
  {
    OpenOrClosed();
  }

  lemma SavedRows(maxInFlight: nat, m: Machine, rec: OrderRecord, m': Machine)
    requires Rows(m.e) && rec.intent.intentId in m.e.orders && rec.intent.intentId in m.e.stored
    requires m'.e.orders == m.e.orders[rec.intent.intentId := rec] && m'.e.stored == m.e.stored[rec.intent.intentId := rec]
    requires m'.e.rows == m.e.rows && m'.e.intents == m.e.intents
    ensures Rows(m'.e)
  {
    hide NoRepeats;
  }

  lemma SavedMirror(maxInFlight: nat, m: Machine, rec: OrderRecord, m': Machine)
    requires Mirrored(m) && rec.intent.intentId in m.e.orders && (m.phase.Idle? || m.phase.Called?) && m'.phase.Idle?
    requires m'.e.orders == m.e.orders[rec.intent.intentId := rec] && m'.e.stored == m.e.stored[rec.intent.intentId := rec]
    ensures Mirrored(m') && PhaseOk(m')
  {
  }

  lemma SavedDecisions(m: Machine, rec: OrderRecord, m': Machine)
    requires OneRowPerDecision(m.e) && rec.intent.intentId in m.e.stored && rec.intent == m.e.stored[rec.intent.intentId].intent
    requires m'.e.stored == m.e.stored[rec.intent.intentId := rec]
    ensures OneRowPerDecision(m'.e)
  {
  }

  lemma SavedSent(m: Machine, rec: OrderRecord, m': Machine)
    requires AllStored(m) && rec.intent.intentId in m.e.stored && rec.intent == m.e.stored[rec.intent.intentId].intent
    requires m'.e.stored == m.e.stored[rec.intent.intentId := rec] && m'.sent == m.sent
    ensures AllStored(m')
  {
  }

  lemma OpenOrClosed()
    ensures forall s: OrderStatus :: s.IsOpen() <==> !s.IsTerminal()
  {
  }

  /** No closed order of the store is open again. */
  ghost predicate ClosedStay(e: Engine, e': Engine) {
    forall id :: id in e.stored && e.stored[id].status.IsTerminal() ==> id in e'.stored && e'.stored[id].status.IsTerminal()
  }

  lemma ApplyKeeps(maxInFlight: nat, m: Machine, event: Event)
    requires Inv(maxInFlight, m) && m.phase.Idle?
    ensures Inv(maxInFlight, Next(maxInFlight, m, Apply(event))) && ClosedStay(m.e, Next(maxInFlight, m, Apply(event)).e)
  {
    var m' := Next(maxInFlight, m, Apply(event));
    hide Inv, Lookup, ClosedStay, FillRecord, UpdateRecord;
    LookupIsKnown(maxInFlight, m, event.IntentId(), event.ExchangeOrderId());
    var found := Lookup(m.e, event.IntentId(), event.ExchangeOrderId());
    DeliverIs(m.e, event);
    if m'.e.orders == m.e.orders && m'.e.stored == m.e.stored {
      NothingSaved(maxInFlight, m, m');
    } else {
      var rec := if event.FillEvent? then FillRecord(found.value, event.fill) else UpdateRecord(found.value, event.update);
      RecordKeeps(found.value, event);
      SaveKeeps(maxInFlight, m, rec, m');
    }
  }

  lemma LookupIsKnown(maxInFlight: nat, m: Machine, intentId: Option<IntentId>, exchangeId: Option<OrderId>)
    requires Inv(maxInFlight, m)
    ensures var found := Lookup(m.e, intentId, exchangeId);
      found.Some? ==> found.value.intent.intentId in m.e.orders && m.e.orders[found.value.intent.intentId] == found.value
  {
  }

  /** A delivery saves at most the record it looked up, moved by the event. */
  lemma DeliverIs(e: Engine, event: Event)
    ensures var e' := Deliver(e, event).0;
      var found := Lookup(e, event.IntentId(), event.ExchangeOrderId());
      && e'.rows == e.rows && e'.intents == e.intents
      && ((e'.orders == e.orders && e'.stored == e.stored)
          || (found.Some?
              && var rec := if event.FillEvent? then FillRecord(found.value, event.fill) else UpdateRecord(found.value, event.update);
                 e'.orders == e.orders[rec.intent.intentId := rec] && e'.stored == e.stored[rec.intent.intentId := rec]))
  {
    hide Lookup, FillRecord, UpdateRecord, PastLimit, Overfilled;
  }

  lemma RecordKeeps(rec: OrderRecord, event: Event)
    ensures var after := if event.FillEvent? then FillRecord(rec, event.fill) else UpdateRecord(rec, event.update);
      after.intent == rec.intent && (rec.status.IsTerminal() ==> after.status.IsTerminal())
  {
    hide Notional;
  }

  lemma NothingSaved(maxInFlight: nat, m: Machine, m': Machine)
    requires Inv(maxInFlight, m) && m.phase.Idle? && m'.phase.Idle? && m'.sent == m.sent
    requires m'.e.orders == m.e.orders && m'.e.stored == m.e.stored && m'.e.rows == m.e.rows && m'.e.intents == m.e.intents
    ensures Inv(maxInFlight, m') && ClosedStay(m.e, m'.e)
  {
  }

  // ---------------------------------------------------------------- submitting

  lemma WriteRowKeeps(maxInFlight: nat, m: Machine, step: Step)
    requires Inv(maxInFlight, m) && step.WriteRow? && m.phase.Idle? && step.market.Valid()
    ensures Inv(maxInFlight, Next(maxInFlight, m, step)) && ClosedStay(m.e, Next(maxInFlight, m, step).e)
  {
    var b := Prepare(m.e, maxInFlight, step.decision, step.market, step.outcome, step.id, step.now);
    if b.Built? {
      PreparedRow(maxInFlight, m, step);
      RowWrittenKeeps(maxInFlight, m, b.intent);
    }
  }

  /** What got past the refusals: room, no UNKNOWN order, a new id and a new decision. */
  lemma PreparedRow(maxInFlight: nat, m: Machine, step: Step)
    requires Inv(maxInFlight, m) && step.WriteRow? && m.phase.Idle? && step.market.Valid()
    requires Prepare(m.e, maxInFlight, step.decision, step.market, step.outcome, step.id, step.now).Built?
    ensures var i := Prepare(m.e, maxInFlight, step.decision, step.market, step.outcome, step.id, step.now).intent;
      && i.intentId !in m.e.stored && (forall id :: id in m.e.stored ==> m.e.stored[id].intent.decisionId != i.decisionId)
      && NoneUnknown(m.e) && |OpenIds(m.e, m.e.intents)| < maxInFlight
  {
    hide FloorTo, CeilTo, OpenIds, UnknownIds;
    UnknownIdsAre(m.e, m.e.intents);
    forall id | id in m.e.orders
      ensures !m.e.orders[id].status.Unknown?
    {
      assert id in m.e.intents;
      assert UnknownIds(m.e, m.e.intents) == [];
      assert id !in UnknownIds(m.e, m.e.intents);
    }
  }

  lemma RowWrittenKeeps(maxInFlight: nat, m: Machine, i: OrderIntent)
    requires Inv(maxInFlight, m) && m.phase.Idle? && i.intentId !in m.e.stored && NoneUnknown(m.e)
    requires forall id :: id in m.e.stored ==> m.e.stored[id].intent.decisionId != i.decisionId
    requires |OpenIds(m.e, m.e.intents)| < maxInFlight
    ensures var m' := m.(e := InsertIntent(m.e, i), phase := RowWritten(i)); Inv(maxInFlight, m') && ClosedStay(m.e, m'.e)
  {
    var m' := m.(e := InsertIntent(m.e, i), phase := RowWritten(i));
    hide Rows, Mirrored, OneRowPerDecision, AllStored, PhaseOk, OpenSet, OpenIds;
    OpenCountIs(m.e);
    OpenSets(m);
    OpenSetGrows(m.e.stored, Fresh(i, Intent), i.intentId);
    WrittenRows(m, i, m');
    WrittenRest(m, i, m');
  }

  lemma OpenSets(m: Machine)
    requires Mirrored(m) && !m.phase.RowWritten?
    ensures OpenSet(m.e.stored) == OpenSet(m.e.orders)
  {
    OpenOrClosed();
  }

  lemma OpenSetGrows(stored: map<IntentId, OrderRecord>, rec: OrderRecord, id: IntentId)
    ensures OpenSet(stored[id := rec]) <= OpenSet(stored) + {id}
    ensures |OpenSet(stored[id := rec])| <= |OpenSet(stored)| + 1
  {
    FewerOpen(OpenSet(stored[id := rec]), OpenSet(stored) + {id});
  }

  lemma {:induction false} DistinctAppend(ids: seq<IntentId>, id: IntentId)
    requires NoRepeats(ids) && id !in ids
    ensures NoRepeats(ids + [id])
    ensures forall k :: k in ids + [id] <==> k in ids || k == id
  {
  }

  lemma WrittenRows(m: Machine, i: OrderIntent, m': Machine)
    requires Rows(m.e) && i.intentId !in m.e.stored && m'.e == InsertIntent(m.e, i)
    ensures Rows(m'.e)
  {
    hide NoRepeats;
    DistinctAppend(m.e.rows, i.intentId);
  }

  lemma WrittenRest(m: Machine, i: OrderIntent, m': Machine)
    requires Mirrored(m) && OneRowPerDecision(m.e) && AllStored(m) && m.phase.Idle? && i.intentId !in m.e.stored && NoneUnknown(m.e)
    requires forall id :: id in m.e.stored ==> m.e.stored[id].intent.decisionId != i.decisionId
    requires m' == m.(e := InsertIntent(m.e, i), phase := RowWritten(i))
    ensures Mirrored(m') && OneRowPerDecision(m'.e) && AllStored(m') && PhaseOk(m') && ClosedStay(m.e, m'.e)
  {
  }

  lemma MarkKeeps(maxInFlight: nat, m: Machine)
    requires Inv(maxInFlight, m) && m.phase.RowWritten?
    ensures Inv(maxInFlight, Next(maxInFlight, m, MarkIt)) && ClosedStay(m.e, Next(maxInFlight, m, MarkIt).e)
  {
    var i := m.phase.intent;
    var m' := m.(e := MarkSubmitting(m.e, i), phase := Marked(i));
    hide Rows, AllStored, OpenSet, Mirrored, OneRowPerDecision, ClosedStay, MarkSubmitting, NoneUnknown;
    MarkedRest(m, i, m');
    MarkedStored(m, i, m');
    MarkedRows(m, i, m');
    MarkedSent(m, i, m');
    OpenSetAfterSave(m.e.stored, i.intentId, Fresh(i, Submitting));
    FewerOpen(OpenSet(m'.e.stored), OpenSet(m.e.stored));
  }

  lemma MarkedRows(m: Machine, i: OrderIntent, m': Machine)
    requires Rows(m.e) && i.intentId in m.e.stored && i.intentId !in m.e.orders && m'.e == MarkSubmitting(m.e, i)
    ensures Rows(m'.e)
  {
    hide NoRepeats;
    DistinctAppend(m.e.intents, i.intentId);
  }

  lemma MarkedStored(m: Machine, i: OrderIntent, m': Machine)
    requires m'.e == MarkSubmitting(m.e, i)
    ensures m'.e.stored == m.e.stored[i.intentId := Fresh(i, Submitting)] && m'.e.orders == m.e.orders[i.intentId := Fresh(i, Submitting)]
  {
  }

  lemma MarkedRest(m: Machine, i: OrderIntent, m': Machine)
    requires Mirrored(m) && OneRowPerDecision(m.e) && PhaseOk(m) && m.phase == RowWritten(i)
    requires m' == m.(e := MarkSubmitting(m.e, i), phase := Marked(i))
    ensures Mirrored(m') && OneRowPerDecision(m'.e) && PhaseOk(m') && ClosedStay(m.e, m'.e)
  {
  }

  lemma MarkedSent(m: Machine, i: OrderIntent, m': Machine)
    requires AllStored(m) && m'.sent == m.sent && m'.e == MarkSubmitting(m.e, i) && i.intentId in m.e.stored && m.e.stored[i.intentId].intent == i
    ensures AllStored(m')
  {
  }

  lemma CallKeeps(maxInFlight: nat, m: Machine)
    requires Inv(maxInFlight, m) && m.phase.Marked?
    ensures Inv(maxInFlight, Next(maxInFlight, m, CallProvider)) && ClosedStay(m.e, Next(maxInFlight, m, CallProvider).e)
  {
  }

  lemma ReplyKeeps(maxInFlight: nat, m: Machine, reply: Reply)
    requires Inv(maxInFlight, m) && m.phase.Called?
    ensures Inv(maxInFlight, Next(maxInFlight, m, TakeReply(reply))) && ClosedStay(m.e, Next(maxInFlight, m, TakeReply(reply)).e)
  {
    var m' := Next(maxInFlight, m, TakeReply(reply));
    hide Inv, ClosedStay;
    CalledFacts(maxInFlight, m);
    SaveKeeps(maxInFlight, m, Answered(m.phase.intent, reply), m');
  }

  lemma CalledFacts(maxInFlight: nat, m: Machine)
    requires Inv(maxInFlight, m) && m.phase.Called?
    ensures m.phase.intent.intentId in m.e.orders && m.e.orders[m.phase.intent.intentId] == Fresh(m.phase.intent, Submitting)
  {
  }

  // ---------------------------------------------------------------- restarting

  /** What the first loop of a restart has done after `n` rows. */
  ghost predicate Reloaded(e: Engine, stored: map<IntentId, OrderRecord>, seen: seq<IntentId>, now: int) {
    && e.stored.Keys == stored.Keys
    && (forall id :: id in stored ==>
          e.stored[id] == if id in seen && stored[id].status.IsOpen() then Reopened(stored[id], now) else stored[id])
    && (forall id :: id in e.orders <==> id in seen && id in stored && stored[id].status.IsOpen())
    && (forall id :: id in e.orders ==> e.orders[id] == Reopened(stored[id], now))
    && NoRepeats(e.intents) && (forall id :: id in e.intents <==> id in e.orders)
  }

  lemma {:induction false} LoadOpenIs(blank: Engine, stored: map<IntentId, OrderRecord>, rows: seq<IntentId>, n: nat, now: int)
    requires n <= |rows| && NoRepeats(rows)
    requires blank.orders == map[] && blank.intents == [] && blank.stored == stored
    ensures Reloaded(LoadOpen(blank, stored, rows, n, now), stored, rows[..n], now)
    ensures LoadOpen(blank, stored, rows, n, now).rows == blank.rows
    decreases n
  {
    if n > 0 {
      hide Reloaded, LoadOpen;
      LoadOpenIs(blank, stored, rows, n - 1, now);
      LoadOpenStep(blank, stored, rows, n, now);
      var id := rows[n - 1];
      assert rows[..n] == rows[..n - 1] + [id];
      assert id !in rows[..n - 1];
      if id in stored && stored[id].status.IsOpen() {
        ReopenOne(LoadOpen(blank, stored, rows, n - 1, now), LoadOpen(blank, stored, rows, n, now), stored, rows[..n - 1], id, now);
      } else {
        PassOver(LoadOpen(blank, stored, rows, n, now), stored, rows[..n - 1], id, now);
      }
    }
  }

  lemma LoadOpenStep(blank: Engine, stored: map<IntentId, OrderRecord>, rows: seq<IntentId>, n: nat, now: int)
    requires 0 < n <= |rows|
    ensures var prior, e, id := LoadOpen(blank, stored, rows, n - 1, now), LoadOpen(blank, stored, rows, n, now), rows[n - 1];
      && e.rows == prior.rows
      && if id in stored && stored[id].status.IsOpen() then
           && e.orders == prior.orders[id := Reopened(stored[id], now)] && e.intents == prior.intents + [id]
           && e.stored == prior.stored[id := Reopened(stored[id], now)]
         else e == prior
  {
    hide Reopened;
  }

  lemma ReopenOne(prior: Engine, e: Engine, stored: map<IntentId, OrderRecord>, seen: seq<IntentId>, id: IntentId, now: int)
    requires Reloaded(prior, stored, seen, now) && id !in seen && id in stored && stored[id].status.IsOpen()
    requires e.orders == prior.orders[id := Reopened(stored[id], now)] && e.intents == prior.intents + [id]
    requires e.stored == prior.stored[id := Reopened(stored[id], now)]
    ensures Reloaded(e, stored, seen + [id], now)
  {
    hide Reopened;
    assert id !in prior.intents;
  }

  lemma PassOver(e: Engine, stored: map<IntentId, OrderRecord>, seen: seq<IntentId>, id: IntentId, now: int)
    requires Reloaded(e, stored, seen, now) && !(id in stored && stored[id].status.IsOpen())
    ensures Reloaded(e, stored, seen + [id], now)
  {
    hide Reopened;
  }

  lemma {:induction false} LoadUsedIs(e: Engine, stored: map<IntentId, OrderRecord>, rows: seq<IntentId>, n: nat)
    requires n <= |rows|
    ensures var r := LoadUsed(e, stored, rows, n);
      && r.orders == e.orders && r.intents == e.intents && r.stored == e.stored && r.rows == e.rows && r.fillIds == e.fillIds
      && forall i :: 0 <= i < n && rows[i] in stored ==> stored[rows[i]].intent.decisionId in r.usedDecisions
    decreases n
  {
    if n > 0 {
      LoadUsedIs(e, stored, rows, n - 1);
    }
  }

  lemma RestartIs(e: Engine, now: int)
    requires Rows(e)
    ensures Reloaded(Restart(e, now), e.stored, e.rows, now) && Restart(e, now).rows == e.rows
    ensures forall id :: id in e.stored ==> e.stored[id].intent.decisionId in Restart(e, now).usedDecisions
  {
    hide LoadOpen, LoadUsed, Reloaded;
    var blank := EMPTY.(stored := e.stored, rows := e.rows, fillIds := e.fillIds);
    LoadOpenIs(blank, e.stored, e.rows, |e.rows|, now);
    assert e.rows[..|e.rows|] == e.rows;
    var reopened := LoadOpen(blank, e.stored, e.rows, |e.rows|, now);
    LoadUsedIs(reopened, reopened.stored, e.rows, |e.rows|);
    SameReload(reopened, Restart(e, now), e.stored, e.rows, now);
    forall id | id in e.stored
      ensures e.stored[id].intent.decisionId in Restart(e, now).usedDecisions
    {
      var i :| 0 <= i < |e.rows| && e.rows[i] == id;
      ReloadedIntent(reopened, e.stored, e.rows, now, id);
    }
  }

  lemma SameReload(a: Engine, b: Engine, stored: map<IntentId, OrderRecord>, seen: seq<IntentId>, now: int)
    requires Reloaded(a, stored, seen, now) && b.orders == a.orders && b.intents == a.intents && b.stored == a.stored
    ensures Reloaded(b, stored, seen, now)
  {
  }

  lemma ReloadedIntent(e: Engine, stored: map<IntentId, OrderRecord>, seen: seq<IntentId>, now: int, id: IntentId)
    requires Reloaded(e, stored, seen, now) && id in stored
    ensures id in e.stored && e.stored[id].intent == stored[id].intent
    ensures e.stored[id].status.IsOpen() <==> stored[id].status.IsOpen()
  {
  }

  lemma CrashKeeps(maxInFlight: nat, m: Machine, now: int)
    requires Inv(maxInFlight, m)
    ensures Inv(maxInFlight, Next(maxInFlight, m, Crash(now))) && ClosedStay(m.e, Next(maxInFlight, m, Crash(now)).e)
  {
    hide Restart, Reloaded, Inv, Rows, ClosedStay;
    InvRows(maxInFlight, m);
    RestartIs(m.e, now);
    CrashedInv(maxInFlight, m, Next(maxInFlight, m, Crash(now)), now);
    ReloadKeepsClosed(m.e, Restart(m.e, now), now);
  }

  lemma InvRows(maxInFlight: nat, m: Machine)
    requires Inv(maxInFlight, m)
    ensures Rows(m.e)
  {
    hide Rows;
  }

  lemma ReloadKeepsClosed(e: Engine, e': Engine, now: int)
    requires Reloaded(e', e.stored, e.rows, now)
    ensures ClosedStay(e, e')
  {
    hide Reloaded;
    OpenOrClosed();
    forall id | id in e.stored
      ensures id in e'.stored && e'.stored[id].intent == e.stored[id].intent
      ensures e'.stored[id].status.IsOpen() <==> e.stored[id].status.IsOpen()
    {
      ReloadedIntent(e', e.stored, e.rows, now, id);
    }
  }

  lemma CrashedInv(maxInFlight: nat, m: Machine, m': Machine, now: int)
    requires Inv(maxInFlight, m) && m'.phase.Idle? && m'.sent == m.sent && m'.e.rows == m.e.rows
    requires Reloaded(m'.e, m.e.stored, m.e.rows, now)
    ensures Inv(maxInFlight, m')
  {
    hide Rows, AllStored, OpenSet, OneRowPerDecision, Mirrored, PhaseOk;
    ReloadedOpen(m'.e, m.e.stored, m.e.rows, now);
    CrashedRows(m, m', now);
    CrashedRest(m, m', now);
  }

  lemma ReloadedOpen(e: Engine, stored: map<IntentId, OrderRecord>, rows: seq<IntentId>, now: int)
    requires Reloaded(e, stored, rows, now)
    ensures OpenSet(e.stored) == OpenSet(stored)
  {
    forall id
      ensures id in OpenSet(e.stored) <==> id in OpenSet(stored)
    {
      if id in stored {
        ReloadedIntent(e, stored, rows, now, id);
      }
    }
  }

  lemma CrashedRows(m: Machine, m': Machine, now: int)
    requires Rows(m.e) && Reloaded(m'.e, m.e.stored, m.e.rows, now) && m'.e.rows == m.e.rows
    ensures Rows(m'.e)
  {
    hide NoRepeats;
    assert m'.e.stored.Keys == m.e.stored.Keys;
  }

  lemma CrashedRest(m: Machine, m': Machine, now: int)
    requires Rows(m.e) && OneRowPerDecision(m.e) && AllStored(m)
    requires Reloaded(m'.e, m.e.stored, m.e.rows, now) && m'.phase.Idle? && m'.sent == m.sent
    ensures Mirrored(m') && OneRowPerDecision(m'.e) && AllStored(m') && PhaseOk(m')
  {
    hide NoRepeats;
    OpenOrClosed();
    assert m'.e.stored.Keys == m.e.stored.Keys;
  }

  // ---------------------------------------------------------------- runs

  lemma StepKeeps(maxInFlight: nat, m: Machine, step: Step)
    requires Inv(maxInFlight, m)
    ensures Inv(maxInFlight, Next(maxInFlight, m, step)) && ClosedStay(m.e, Next(maxInFlight, m, step).e)
  {
    hide Inv, ClosedStay;
    Unmoved(m.e);
    match step
    case WriteRow(_, market, _, _, _) =>
      if m.phase.Idle? && market.Valid() {
        WriteRowKeeps(maxInFlight, m, step);
      }
    case MarkIt =>
      if m.phase.RowWritten? {
        MarkKeeps(maxInFlight, m);
      }
    case CallProvider =>
      if m.phase.Marked? {
        CallKeeps(maxInFlight, m);
      }
    case TakeReply(reply) =>
      if m.phase.Called? {
        ReplyKeeps(maxInFlight, m, reply);
      }
    case Apply(event) =>
      if m.phase.Idle? {
        ApplyKeeps(maxInFlight, m, event);
      }
    case CloseByOperator(id, now) =>
      if m.phase.Idle? && id in m.e.orders {
        KnownKeepsId(maxInFlight, m, id);
        SaveKeeps(maxInFlight, m, m.e.orders[id].(status := Cancelled, updatedMs := now), Next(maxInFlight, m, step));
      }
    case Crash(now) => CrashKeeps(maxInFlight, m, now);
  }

  lemma StartHolds(maxInFlight: nat)
    ensures Inv(maxInFlight, START)
  {
    assert OpenSet(map[]) == {};
  }

  lemma Unmoved(e: Engine)
    ensures ClosedStay(e, e)
  {
  }

  lemma KnownKeepsId(maxInFlight: nat, m: Machine, id: IntentId)
    requires Inv(maxInFlight, m) && id in m.e.orders
    ensures m.e.orders[id].intent.intentId == id
  {
  }

  lemma {:induction false} RunKeeps(maxInFlight: nat, m: Machine, steps: seq<Step>)
    requires Inv(maxInFlight, m)
    ensures Inv(maxInFlight, Run(maxInFlight, m, steps)) && ClosedStay(m.e, Run(maxInFlight, m, steps).e)
    decreases |steps|
  {
    hide Inv, ClosedStay, Next;
    if steps == [] {
      Unmoved(m.e);
    } else {
      var m1 := Next(maxInFlight, m, steps[0]);
      StepKeeps(maxInFlight, m, steps[0]);
      RunKeeps(maxInFlight, m1, steps[1..]);
      StayTwice(m.e, m1.e, Run(maxInFlight, m1, steps[1..]).e);
    }
  }

  lemma StayTwice(a: Engine, b: Engine, c: Engine)
    requires ClosedStay(a, b) && ClosedStay(b, c)
    ensures ClosedStay(a, c)
  {
  }

  /** Over any run with crashes anywhere, the provider is called at most once for a decision, and
      only for an intent that is stored by then and stays stored. */
  lemma AtMostOnce(maxInFlight: nat, steps: seq<Step>)
    ensures var m := Run(maxInFlight, START, steps);
      && (forall i, j :: 0 <= i < j < |m.sent| ==> m.sent[i].decisionId != m.sent[j].decisionId)
      && forall i :: 0 <= i < |m.sent| ==> m.sent[i].intentId in m.e.stored && m.e.stored[m.sent[i].intentId].intent == m.sent[i]
  {
    hide Run;
    RunKeeps(maxInFlight, START, steps);
  }

  /** Whenever the provider is called, the intent's row is stored as SUBMITTING and no order is
      in the UNKNOWN state. */
  lemma CalledOnlyWhenStored(maxInFlight: nat, steps: seq<Step>)
    ensures var m := Run(maxInFlight, START, steps);
      Next(maxInFlight, m, CallProvider).sent != m.sent ==>
        && m.phase.Marked?
        && m.phase.intent.intentId in m.e.stored && m.e.stored[m.phase.intent.intentId] == Fresh(m.phase.intent, Submitting)
        && NoneUnknown(m.e)
  {
    hide Run;
    RunKeeps(maxInFlight, START, steps);
  }

  /** Open orders, in memory and in the store, never exceed the limit. */
  lemma OpenWithinLimit(maxInFlight: nat, steps: seq<Step>)
    ensures var m := Run(maxInFlight, START, steps);
      |OpenIds(m.e, m.e.intents)| <= maxInFlight && |OpenSet(m.e.stored)| <= maxInFlight
  {
    hide Run;
    RunKeeps(maxInFlight, START, steps);
    var m := Run(maxInFlight, START, steps);
    OpenCountIs(m.e);
    FewerOpen(OpenSet(m.e.orders), OpenSet(m.e.stored));
  }

  /** A closed order never reopens, in any continuation of any run. */
  lemma ClosedForGood(maxInFlight: nat, before: seq<Step>, after: seq<Step>)
    ensures var m := Run(maxInFlight, START, before);
      ClosedStay(m.e, Run(maxInFlight, m, after).e)
  {
    hide Run;
    RunKeeps(maxInFlight, START, before);
    RunKeeps(maxInFlight, Run(maxInFlight, START, before), after);
  }

  /** After a crash nothing is submitted until every order left open is resolved: a restart leaves
      each of them UNKNOWN and each stored decision used. */
  lemma RestartFailsClosed(maxInFlight: nat, steps: seq<Step>, now: int)
    ensures var m := Run(maxInFlight, START, steps);
      var r := Next(maxInFlight, m, Crash(now));
      && (forall id :: id in m.e.stored && m.e.stored[id].status.IsOpen() ==> IsUnknownOrder(r.e, id))
      && (forall id :: id in m.e.stored ==> m.e.stored[id].intent.decisionId in r.e.usedDecisions)
  {
    hide Run, Restart, Mirrored, OneRowPerDecision, AllStored, PhaseOk, OpenSet, NoRepeats;
    StartHolds(maxInFlight);
    RunKeeps(maxInFlight, START, steps);
    RestartIs(Run(maxInFlight, START, steps).e, now);
  }
}
