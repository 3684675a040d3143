/** Exactly-once delivery. Fills and updates reach the engine over two channels, the polled queue
    and the history query, which may overlap and repeat. As long as each channel keeps the order
    of an order's own events, every event takes effect once and the engine ends in the state
    that a single in-order delivery gives. */
module Delivery {
  import opened Domain
  import opened Matching
  import opened Execution

  /** The events the venue emits for each order, in order. */
  type Streams = map<IntentId, seq<Event>>

  /** How many of an order's events have been delivered at least once. */
  type Marks = map<IntentId, nat>

  // ---------------------------------------------------------------- one order's record

  /** The record after one of its events. */
  function After(rec: OrderRecord, ev: Event): OrderRecord {
    if ev.FillEvent? then FillRecord(rec, ev.fill) else UpdateRecord(rec, ev.update)
  }

  function AfterAll(rec: OrderRecord, stream: seq<Event>, n: nat): OrderRecord
    requires n <= |stream|
  {
    if n == 0 then rec else After(AfterAll(rec, stream, n - 1), stream[n - 1])
  }

  /** What the venue guarantees about one order's events, given the record before them: fills
      with distinct ids inside the order's limits, then at most one terminal update whose
      cumulative count is the fills' total. */
  ghost predicate Sound(rec: OrderRecord, stream: seq<Event>) {
    && rec.filledShares == 0.0 && rec.filledNotional == 0.0
    && (forall i :: 0 <= i < |stream| ==> stream[i].IntentId() == Some(rec.intent.intentId))
    && (forall i :: 0 <= i < |stream| && stream[i].FillEvent? ==> SoundFill(rec, stream, i))
    && (forall i :: 0 <= i < |stream| && stream[i].UpdateEvent? ==> i == |stream| - 1 && SoundUpdate(rec, stream, i))
    && (forall i, j :: 0 <= i < j < |stream| && stream[i].FillEvent? && stream[j].FillEvent? ==>
          stream[i].fill.fillId != stream[j].fill.fillId)
  }

  ghost predicate SoundFill(rec: OrderRecord, stream: seq<Event>, i: nat)
    requires i < |stream| && stream[i].FillEvent?
  {
    var f := stream[i].fill;
    && f.Valid() && f.side == rec.intent.side && f.tokenId == rec.intent.tokenId && !PastLimit(rec.intent, f.price)
    && !Overfilled(AfterAll(rec, stream, i + 1))
  }

  ghost predicate SoundUpdate(rec: OrderRecord, stream: seq<Event>, i: nat)
    requires i < |stream| && stream[i].UpdateEvent?
  {
    var u := stream[i].update;
    u.status.IsTerminal() && u.cumulativeFilled == AfterAll(rec, stream, i).filledShares
  }

  lemma {:induction false} AfterAllIntent(rec: OrderRecord, stream: seq<Event>, n: nat)
    requires n <= |stream|
    ensures AfterAll(rec, stream, n).intent == rec.intent
  {
    if n > 0 {
      AfterAllIntent(rec, stream, n - 1);
    }
  }

  /** Once its terminal update is in, an order is terminal. */
  lemma TerminalAfterUpdate(rec: OrderRecord, stream: seq<Event>)
    requires Sound(rec, stream) && stream != [] && stream[|stream| - 1].UpdateEvent?
    ensures AfterAll(rec, stream, |stream|).status.IsTerminal()
  {
    assert SoundUpdate(rec, stream, |stream| - 1);
  }

  // ---------------------------------------------------------------- the whole engine

  ghost predicate Seen(fillIds: set<FillId>, stream: seq<Event>, mark: nat) {
    forall i :: 0 <= i < |stream| && stream[i].FillEvent? ==> (stream[i].fill.fillId in fillIds <==> i < mark)
  }

  ghost predicate DisjointStreams(streams: Streams) {
    forall a, b, i, j ::
      (a in streams && b in streams && a != b && 0 <= i < |streams[a]| && 0 <= j < |streams[b]|
       && streams[a][i].FillEvent? && streams[b][j].FillEvent?)
      ==> streams[a][i].fill.fillId != streams[b][j].fill.fillId
  }

  ghost predicate SoundStreams(base: map<IntentId, OrderRecord>, streams: Streams) {
    && streams.Keys == base.Keys && DisjointStreams(streams)
    && forall id :: id in streams ==> base[id].intent.intentId == id && Sound(base[id], streams[id])
  }

  /** The engine is where a single in-order delivery of the first `marks[id]` events of every
      order would leave it, and no violation was recorded. */
  ghost predicate Tracks(e: Engine, base: map<IntentId, OrderRecord>, streams: Streams, marks: Marks) {
    && SoundStreams(base, streams)
    && e.orders.Keys == base.Keys && marks.Keys == base.Keys
    && e.violations == []
    && forall id :: id in base ==>
         && marks[id] <= |streams[id]|
         && e.orders[id] == AfterAll(base[id], streams[id], marks[id])
         && Seen(e.fillIds, streams[id], marks[id])
  }

  /** A delivery that skips none of the order's earlier events. */
  ghost predicate GapFree(streams: Streams, marks: Marks, id: IntentId, j: nat) {
    id in streams && id in marks && j < |streams[id]| && j <= marks[id]
  }

  function Raise(marks: Marks, id: IntentId, j: nat): Marks
    requires id in marks
  {
    if j < marks[id] then marks else marks[id := j + 1]
  }

  /** `e` with order `id` moved to `rec`. */
  ghost predicate Moved(e: Engine, e': Engine, id: IntentId, rec: OrderRecord) {
    && e'.orders == e.orders[id := rec] && e'.violations == e.violations
    && e'.intents == e.intents && e'.usedDecisions == e.usedDecisions
    && e'.byExchange == e.byExchange && e'.rows == e.rows
  }

  lemma RepeatedFill(e: Engine, f: Fill, id: IntentId)
    requires f.intentId == Some(id) && id in e.orders && f.fillId in e.fillIds
    ensures ApplyFill(e, f) == (e, false)
  {
  }

  lemma NewFill(e: Engine, f: Fill, id: IntentId)
    requires f.intentId == Some(id) && id in e.orders && f.fillId !in e.fillIds
    requires var rec := e.orders[id];
      rec.intent.intentId == id && f.side == rec.intent.side && f.tokenId == rec.intent.tokenId
      && !PastLimit(rec.intent, f.price) && !Overfilled(FillRecord(rec, f))
    ensures var (e', booked) := ApplyFill(e, f);
      booked && Moved(e, e', id, FillRecord(e.orders[id], f)) && e'.fillIds == e.fillIds + {f.fillId}
  {
    hide Notional;
  }

  lemma AnyUpdate(e: Engine, u: OrderUpdate, id: IntentId)
    requires u.intentId == Some(id) && id in e.orders && e.orders[id].intent.intentId == id
    requires e.orders[id].status.IsTerminal() || u.cumulativeFilled == e.orders[id].filledShares
    ensures Moved(e, ApplyUpdate(e, u), id, UpdateRecord(e.orders[id], u)) && ApplyUpdate(e, u).fillIds == e.fillIds
    ensures e.orders[id].status.IsTerminal() ==> ApplyUpdate(e, u) == e
  {
    if e.orders[id].status.IsTerminal() {
      assert e.orders[id := e.orders[id]] == e.orders;
    }
  }

  /** A repeated event changes nothing and books nothing. */
  lemma RepeatIsIgnored(e: Engine, base: map<IntentId, OrderRecord>, streams: Streams, marks: Marks, id: IntentId, j: nat)
    requires Tracks(e, base, streams, marks) && GapFree(streams, marks, id, j) && j < marks[id]
    ensures Deliver(e, streams[id][j]) == (e, None)
  {
    hide AfterAll, SoundFill, SoundUpdate, ApplyFill, ApplyUpdate, DisjointStreams;
    var stream := streams[id];
    assert Sound(base[id], stream) && stream[j].IntentId() == Some(id);
    if stream[j].FillEvent? {
      assert Seen(e.fillIds, stream, marks[id]);
      RepeatedFill(e, stream[j].fill, id);
    } else {
      TerminalAfterUpdate(base[id], stream);
      AfterAllIntent(base[id], stream, marks[id]);
      AnyUpdate(e, stream[j].update, id);
    }
  }

  /** The next event of an order moves its record by exactly that event, books the fill if it is
      one, and records no violation. */
  lemma NextIsApplied(e: Engine, base: map<IntentId, OrderRecord>, streams: Streams, marks: Marks, id: IntentId)
    requires Tracks(e, base, streams, marks) && id in marks && GapFree(streams, marks, id, marks[id])
    ensures var ev := streams[id][marks[id]];
      var (e', booked) := Deliver(e, ev);
      && booked == (if ev.FillEvent? then Some(ev.fill) else None)
      && Moved(e, e', id, AfterAll(base[id], streams[id], marks[id] + 1))
      && e'.fillIds == (if ev.FillEvent? then e.fillIds + {ev.fill.fillId} else e.fillIds)
  {
    hide ApplyFill, ApplyUpdate, DisjointStreams, FillRecord, UpdateRecord;
    var stream, n := streams[id], marks[id];
    assert Sound(base[id], stream) && stream[n].IntentId() == Some(id);
    AfterAllIntent(base[id], stream, n);
    if stream[n].FillEvent? {
      assert SoundFill(base[id], stream, n);
      assert Seen(e.fillIds, stream, n);
      NewFill(e, stream[n].fill, id);
    } else {
      assert SoundUpdate(base[id], stream, n);
      AnyUpdate(e, stream[n].update, id);
    }
  }

  /** Any gap-free delivery keeps the engine on track. */
  lemma DeliveryKeepsTrack(e: Engine, base: map<IntentId, OrderRecord>, streams: Streams, marks: Marks, id: IntentId, j: nat)
    requires Tracks(e, base, streams, marks) && GapFree(streams, marks, id, j)
    ensures Tracks(Deliver(e, streams[id][j]).0, base, streams, Raise(marks, id, j))
  {
    hide Deliver, AfterAll, SoundStreams;
    assert SoundStreams(base, streams);
    StreamsOfBase(base, streams);
    if j < marks[id] {
      RepeatIsIgnored(e, base, streams, marks, id, j);
    } else {
      NextIsApplied(e, base, streams, marks, id);
      var e', marks' := Deliver(e, streams[id][j]).0, Raise(marks, id, j);
      forall k | k in base
        ensures marks'[k] <= |streams[k]| && e'.orders[k] == AfterAll(base[k], streams[k], marks'[k])
        ensures Seen(e'.fillIds, streams[k], marks'[k])
      {
        SeenAfter(e, e', base, streams, marks, id, k);
      }
    }
  }

  /** The next event of an order keeps the engine on track, one event further. */
  lemma NextKeepsTrack(e: Engine, base: map<IntentId, OrderRecord>, streams: Streams, marks: Marks, id: IntentId)
    requires Tracks(e, base, streams, marks) && id in marks && GapFree(streams, marks, id, marks[id])
    ensures Tracks(Deliver(e, streams[id][marks[id]]).0, base, streams, marks[id := marks[id] + 1])
  {
    hide Tracks, Deliver;
    DeliveryKeepsTrack(e, base, streams, marks, id, marks[id]);
  }

  lemma StreamsOfBase(base: map<IntentId, OrderRecord>, streams: Streams)
    requires SoundStreams(base, streams)
    ensures streams.Keys == base.Keys
  {
  }

  lemma SeenAfter(e: Engine, e': Engine, base: map<IntentId, OrderRecord>, streams: Streams, marks: Marks, id: IntentId, k: IntentId)
    requires Tracks(e, base, streams, marks) && id in marks && GapFree(streams, marks, id, marks[id]) && k in base
    requires var ev := streams[id][marks[id]];
      e'.fillIds == (if ev.FillEvent? then e.fillIds + {ev.fill.fillId} else e.fillIds)
    ensures k in marks && Seen(e'.fillIds, streams[k], Raise(marks, id, marks[id])[k])
  {
    hide AfterAll, SoundFill, SoundUpdate;
    assert Sound(base[id], streams[id]);
    assert Seen(e.fillIds, streams[k], marks[k]);
  }

  // ---------------------------------------------------------------- whole deliveries

  datatype Arrival = Arrival(id: IntentId, index: nat)

  /** Every arrival is gap-free when it comes: what two in-order channels produce together. */
  ghost predicate Interleaving(streams: Streams, marks: Marks, trace: seq<Arrival>)
    decreases |trace|
  {
    trace == []
    || (GapFree(streams, marks, trace[0].id, trace[0].index)
        && Interleaving(streams, Raise(marks, trace[0].id, trace[0].index), trace[1..]))
  }

  ghost function FinalMarks(streams: Streams, marks: Marks, trace: seq<Arrival>): Marks
    requires Interleaving(streams, marks, trace)
    decreases |trace|
  {
    if trace == [] then marks else FinalMarks(streams, Raise(marks, trace[0].id, trace[0].index), trace[1..])
  }

  ghost function DeliverTrace(e: Engine, streams: Streams, marks: Marks, trace: seq<Arrival>): Engine
    requires Interleaving(streams, marks, trace)
    decreases |trace|
  {
    if trace == [] then e
    else DeliverTrace(Deliver(e, streams[trace[0].id][trace[0].index]).0, streams,
                      Raise(marks, trace[0].id, trace[0].index), trace[1..])
  }

  /** The fills passed on to the portfolio, in order. */
  ghost function Booked(e: Engine, streams: Streams, marks: Marks, trace: seq<Arrival>): seq<Fill>
    requires Interleaving(streams, marks, trace)
    decreases |trace|
  {
    if trace == [] then []
    else
      var (e', fill) := Deliver(e, streams[trace[0].id][trace[0].index]);
      (if fill.Some? then [fill.value] else [])
        + Booked(e', streams, Raise(marks, trace[0].id, trace[0].index), trace[1..])
  }

  lemma {:induction false} TraceKeepsTrack(e: Engine, base: map<IntentId, OrderRecord>, streams: Streams, marks: Marks, trace: seq<Arrival>)
    requires Tracks(e, base, streams, marks) && Interleaving(streams, marks, trace)
    ensures Tracks(DeliverTrace(e, streams, marks, trace), base, streams, FinalMarks(streams, marks, trace))
    decreases |trace|
  {
    if trace != [] {
      hide Tracks;
      var a := trace[0];
      DeliveryKeepsTrack(e, base, streams, marks, a.id, a.index);
      TraceKeepsTrack(Deliver(e, streams[a.id][a.index]).0, base, streams, Raise(marks, a.id, a.index), trace[1..]);
    }
  }

  /** The fills of an order among those booked. */
  ghost function FillsOf(fills: seq<Fill>, id: IntentId): seq<Fill> {
    if fills == [] then []
    else (if fills[0].intentId == Some(id) then [fills[0]] else []) + FillsOf(fills[1..], id)
  }

  /** The fills among the events `from..to` of a stream. */
  ghost function FillsIn(stream: seq<Event>, from: nat, to: nat): seq<Fill>
    requires from <= to <= |stream|
    decreases |stream| - from
  {
    if from == to then []
    else (if stream[from].FillEvent? then [stream[from].fill] else []) + FillsIn(stream, from + 1, to)
  }

  lemma {:induction false} MarksOnlyRise(streams: Streams, marks: Marks, trace: seq<Arrival>, id: IntentId)
    requires Interleaving(streams, marks, trace) && id in marks && id in streams && marks[id] <= |streams[id]|
    ensures id in FinalMarks(streams, marks, trace) && marks[id] <= FinalMarks(streams, marks, trace)[id] <= |streams[id]|
    decreases |trace|
  {
    if trace != [] {
      MarksOnlyRise(streams, Raise(marks, trace[0].id, trace[0].index), trace[1..], id);
    }
  }

  /** Every fill is booked exactly once and in order: for each order, what a delivery books is
      exactly the fills between its old and its new mark, however often they arrived. */
  lemma {:induction false} EveryFillBookedOnce(
      e: Engine, base: map<IntentId, OrderRecord>, streams: Streams, marks: Marks, trace: seq<Arrival>, id: IntentId)
    requires Tracks(e, base, streams, marks) && Interleaving(streams, marks, trace) && id in base
    ensures id in FinalMarks(streams, marks, trace) && id in marks && id in streams
    ensures marks[id] <= FinalMarks(streams, marks, trace)[id] <= |streams[id]|
    ensures FillsOf(Booked(e, streams, marks, trace), id) == FillsIn(streams[id], marks[id], FinalMarks(streams, marks, trace)[id])
    decreases |trace|
  {
    hide Deliver, Tracks, FillsOf, FillsIn;
    KnownOrder(e, base, streams, marks, id);
    MarksOnlyRise(streams, marks, trace, id);
    if trace == [] {
      NothingBooked(streams[id], marks[id], id);
    } else {
      var a := trace[0];
      var e', marks' := Deliver(e, streams[a.id][a.index]).0, Raise(marks, a.id, a.index);
      DeliveryKeepsTrack(e, base, streams, marks, a.id, a.index);
      EveryFillBookedOnce(e', base, streams, marks', trace[1..], id);
      MarksOnlyRise(streams, marks', trace[1..], id);
      FirstBooked(e, base, streams, marks, a, id, Booked(e', streams, marks', trace[1..]), FinalMarks(streams, marks, trace)[id]);
    }
  }

  lemma NothingBooked(stream: seq<Event>, n: nat, id: IntentId)
    requires n <= |stream|
    ensures FillsOf([], id) == FillsIn(stream, n, n)
  {
  }

  /** What the first arrival books is what the order's mark gains by it. */
  lemma FirstBooked(e: Engine, base: map<IntentId, OrderRecord>, streams: Streams, marks: Marks, a: Arrival, id: IntentId,
                    rest: seq<Fill>, n: nat)
    requires Tracks(e, base, streams, marks) && GapFree(streams, marks, a.id, a.index)
    requires id in streams && id in marks && marks[id] <= n
    requires Raise(marks, a.id, a.index)[id] <= n <= |streams[id]|
    requires FillsOf(rest, id) == FillsIn(streams[id], Raise(marks, a.id, a.index)[id], n)
    ensures var booked := Deliver(e, streams[a.id][a.index]).1;
      FillsOf((if booked.Some? then [booked.value] else []) + rest, id) == FillsIn(streams[id], marks[id], n)
  {
    hide Deliver, Tracks, FillsOf;
    assert [] + rest == rest;
    if a.index < marks[a.id] {
      RepeatIsIgnored(e, base, streams, marks, a.id, a.index);
    } else {
      NextIsApplied(e, base, streams, marks, a.id);
      KnownOrder(e, base, streams, marks, a.id);
      if streams[a.id][a.index].FillEvent? {
        FirstFill(streams[a.id][a.index].fill, rest, id);
      }
    }
  }

  lemma FirstFill(f: Fill, rest: seq<Fill>, id: IntentId)
    ensures FillsOf([f] + rest, id) == (if f.intentId == Some(id) then [f] else []) + FillsOf(rest, id)
  {
    assert ([f] + rest)[1..] == rest;
  }

  lemma KnownOrder(e: Engine, base: map<IntentId, OrderRecord>, streams: Streams, marks: Marks, id: IntentId)
    requires Tracks(e, base, streams, marks) && (id in base || id in streams || id in marks)
    ensures id in base && id in streams && id in marks && marks[id] <= |streams[id]|
    ensures forall i :: 0 <= i < |streams[id]| ==> streams[id][i].IntentId() == Some(id)
  {
    assert Sound(base[id], streams[id]);
  }

  /** The end state depends only on how far each order got: two deliveries with the same final
      marks leave the same orders, fills and violations. In particular any overlapping or
      repeated delivery ends where the single in-order one does, and an order delivered to the
      end holds the venue's total. */
  lemma SameMarksSameEngine(
      e: Engine, base: map<IntentId, OrderRecord>, streams: Streams, marks: Marks, one: seq<Arrival>, two: seq<Arrival>)
    requires Tracks(e, base, streams, marks) && Interleaving(streams, marks, one) && Interleaving(streams, marks, two)
    requires FinalMarks(streams, marks, one) == FinalMarks(streams, marks, two)
    ensures var a, b := DeliverTrace(e, streams, marks, one), DeliverTrace(e, streams, marks, two);
      a.orders == b.orders && a.fillIds == b.fillIds && a.violations == b.violations == []
  {
    hide Interleaving, FinalMarks, DeliverTrace, AfterAll, Seen, SoundStreams, NewlySeen;
    TraceKeepsTrack(e, base, streams, marks, one);
    TraceKeepsTrack(e, base, streams, marks, two);
    var a, b := DeliverTrace(e, streams, marks, one), DeliverTrace(e, streams, marks, two);
    forall id: FillId
      ensures id in a.fillIds <==> id in b.fillIds
    {
      FillIdsOf(e, base, streams, marks, one, id);
      FillIdsOf(e, base, streams, marks, two, id);
    }
  }

  ghost predicate NewlySeen(streams: Streams, from: Marks, to: Marks, id: FillId) {
    exists k, i :: k in streams && k in from && k in to && from[k] <= i < to[k] && i < |streams[k]|
      && streams[k][i].FillEvent? && streams[k][i].fill.fillId == id
  }

  /** The fill ids gained are exactly those between the marks. */
  lemma {:induction false} FillIdsOf(
      e: Engine, base: map<IntentId, OrderRecord>, streams: Streams, marks: Marks, trace: seq<Arrival>, id: FillId)
    requires Tracks(e, base, streams, marks) && Interleaving(streams, marks, trace)
    ensures (id in DeliverTrace(e, streams, marks, trace).fillIds)
      <==> (id in e.fillIds || NewlySeen(streams, marks, FinalMarks(streams, marks, trace), id))
    decreases |trace|
  {
    hide Deliver, Tracks, NewlySeen;
    if trace == [] {
      NothingNew(streams, marks);
    } else {
      var a := trace[0];
      var e', marks' := Deliver(e, streams[a.id][a.index]).0, Raise(marks, a.id, a.index);
      DeliveryKeepsTrack(e, base, streams, marks, a.id, a.index);
      FillIdsOf(e', base, streams, marks', trace[1..], id);
      OneArrivalIds(e, base, streams, marks, a, FinalMarks(streams, marks', trace[1..]), trace[1..], id);
    }
  }

  lemma OneArrivalIds(
      e: Engine, base: map<IntentId, OrderRecord>, streams: Streams, marks: Marks, a: Arrival, final: Marks, rest: seq<Arrival>, id: FillId)
    requires Tracks(e, base, streams, marks) && GapFree(streams, marks, a.id, a.index)
    requires Interleaving(streams, Raise(marks, a.id, a.index), rest)
    requires final == FinalMarks(streams, Raise(marks, a.id, a.index), rest)
    ensures (id in Deliver(e, streams[a.id][a.index]).0.fillIds || NewlySeen(streams, Raise(marks, a.id, a.index), final, id))
      <==> (id in e.fillIds || NewlySeen(streams, marks, final, id))
  {
    hide Deliver, NewlySeen, Tracks, Interleaving, FinalMarks;
    KnownOrder(e, base, streams, marks, a.id);
    if a.index < marks[a.id] {
      RepeatIsIgnored(e, base, streams, marks, a.id, a.index);
    } else {
      NextIsApplied(e, base, streams, marks, a.id);
      MarksOnlyRise(streams, Raise(marks, a.id, a.index), rest, a.id);
      OneMoreSeen(streams, marks, final, a.id);
    }
  }

  lemma NothingNew(streams: Streams, marks: Marks)
    ensures forall id :: !NewlySeen(streams, marks, marks, id)
  {
  }

  lemma OneMoreSeen(streams: Streams, marks: Marks, final: Marks, k: IntentId)
    requires k in streams && k in marks && k in final && marks[k] < final[k] && marks[k] < |streams[k]|
    ensures forall id ::
      NewlySeen(streams, marks, final, id)
      <==> (NewlySeen(streams, marks[k := marks[k] + 1], final, id)
            || (streams[k][marks[k]].FillEvent? && streams[k][marks[k]].fill.fillId == id))
  {
    var next := marks[k := marks[k] + 1];
    forall id | NewlySeen(streams, marks, final, id)
      ensures NewlySeen(streams, next, final, id) || (streams[k][marks[k]].FillEvent? && streams[k][marks[k]].fill.fillId == id)
    {
      var q, i :| q in streams && q in marks && q in final && marks[q] <= i < final[q] && i < |streams[q]|
        && streams[q][i].FillEvent? && streams[q][i].fill.fillId == id;
      if !(q == k && i == marks[k]) {
        assert q in next && next[q] <= i;
      }
    }
    forall id | NewlySeen(streams, next, final, id)
      ensures NewlySeen(streams, marks, final, id)
    {
      var q, i :| q in streams && q in next && q in final && next[q] <= i < final[q] && i < |streams[q]|
        && streams[q][i].FillEvent? && streams[q][i].fill.fillId == id;
      assert q in marks && marks[q] <= i;
    }
  }
}
