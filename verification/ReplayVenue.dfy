/** The paper venue under the replay loop: whatever the bot does at its ticks, an order is matched on
    the books made of exactly the messages from before its due time. */
module ReplayVenue {
  import opened Domain
  import opened PaperVenue
  import opened VenueRuns
  import opened LazyMatching
  import LazyDriver
  import opened Replay
  import opened ReplayRun

  /** What a tick does to the venue: the watchdog's calls, then, once the step has polled, the step's
      own. */
  datatype Tick = Tick(watch: seq<Step>, decide: seq<Step>)

  predicate BareStep(step: Step, now: int) {
    match step
    case SubmitStep(intent, market, at, _, _) => at == now && intent.Valid() && market.Valid()
    case CancelStep(_, at) => at == now
    case CancelAllStep(at) => at == now
    case SettleStep(_, _) => true
    case _ => false
  }

  ghost predicate AllBare(steps: seq<Step>, now: int) {
    forall i :: 0 <= i < |steps| ==> BareStep(steps[i], now)
  }

  function Take(cfg: Config, v: Venue, steps: seq<Step>, now: int): Venue
    requires AllBare(steps, now)
    decreases |steps|
  {
    if steps == [] then v else Take(cfg, Apply(cfg, v, now, steps[0]), steps[1..], now)
  }

  /** A replayed venue: how delivered messages make books, and what the ticks do, both arbitrary. */
  datatype Desk = Desk(cfg: Config, start: Venue, bookOf: seq<Message> -> Books, ticks: seq<Tick>)

  ghost predicate Fits(d: Desk, trace: seq<Action>) {
    && |d.ticks| == |trace|
    && forall i :: 0 <= i < |trace| ==> AllBare(d.ticks[i].watch, trace[i].t) && AllBare(d.ticks[i].decide, trace[i].t)
  }

  /** The messages delivered before action `i`. */
  function Seen(trace: seq<Action>, i: nat): seq<Message>
    requires i <= |trace|
  {
    Delivered(trace[..i])
  }

  predicate Matches(a: Action) {
    a.MatchDue? || a.DecisionTick?
  }

  /** The venue as the match of action `i` finds it. */
  function Found(d: Desk, trace: seq<Action>, i: nat): Venue
    requires Fits(d, trace) && i < |trace|
    decreases i, 1
  {
    if trace[i].DecisionTick? then Take(d.cfg, VenueAt(d, trace, i), d.ticks[i].watch, trace[i].t) else VenueAt(d, trace, i)
  }

  /** The venue before action `i`. */
  function VenueAt(d: Desk, trace: seq<Action>, i: nat): Venue
    requires Fits(d, trace) && i <= |trace|
    decreases i, 0
  {
    if i == 0 then d.start
    else
      var a, found := trace[i - 1], Found(d, trace, i - 1);
      var books := d.bookOf(Seen(trace, i - 1));
      match a
      case MatchDue(t) => Advance(d.cfg, found, books, t)
      case DecisionTick(t) => Take(d.cfg, Advance(d.cfg, found, books, t).(events := []), d.ticks[i - 1].decide, t)
      case _ => found
  }

  // ---------------------------------------------------------------- orders come and go

  /** From `v` to `w` only orders with new ids came in. */
  ghost predicate OnlyNew(v: Venue, w: Venue) {
    v.submitted <= w.submitted && forall p :: p in w.pending ==> p in v.pending || p.orderId > v.submitted
  }

  lemma OnlyNewOn(u: Venue, v: Venue, w: Venue)
    requires OnlyNew(u, v) && OnlyNew(v, w)
    ensures OnlyNew(u, w)
  {
  }

  lemma {:induction false} CancelsAddNone(v: Venue, ids: seq<OrderId>, now: int)
    ensures OnlyNew(v, CancelEach(v, ids, now))
    decreases |ids|
  {
    if ids != [] {
      CancelsAddNone(Cancel(v, ids[0], now), ids[1..], now);
    }
  }

  lemma BareStepKeeps(cfg: Config, v: Venue, step: Step, now: int)
    requires IdsKnown(v) && BareStep(step, now)
    ensures var w := Apply(cfg, v, now, step);
      IdsKnown(w) && OnlyNew(v, w) && LazyDriver.Grows(v, w)
  {
    hide CancelEach, Validate, IdsKnown;
    IdsAfterStep(cfg, v, now, step);
    LazyDriver.StepGrows(cfg, v, now, step);
    if step.CancelAllStep? {
      CancelsAddNone(v, Ids(v.pending), now);
    }
  }

  lemma {:induction false} TakeKeeps(cfg: Config, v: Venue, steps: seq<Step>, now: int)
    requires IdsKnown(v) && AllBare(steps, now)
    ensures var w := Take(cfg, v, steps, now);
      IdsKnown(w) && OnlyNew(v, w) && LazyDriver.Grows(v, w)
    decreases |steps|
  {
    if steps != [] {
      hide IdsKnown, OnlyNew, LazyDriver.Grows, Apply;
      var next := Apply(cfg, v, now, steps[0]);
      BareStepKeeps(cfg, v, steps[0], now);
      TakeKeeps(cfg, next, steps[1..], now);
      OnlyNewOn(v, next, Take(cfg, v, steps, now));
      LazyDriver.GrowsOn(v, next, Take(cfg, v, steps, now));
    } else {
      Unmoved(v);
    }
  }

  lemma Unmoved(v: Venue)
    ensures OnlyNew(v, v) && LazyDriver.Grows(v, v)
  {
  }

  lemma AdvanceTakesDue(cfg: Config, v: Venue, books: Books, now: int)
    requires IdsKnown(v)
    ensures var w := Advance(cfg, v, books, now);
      && IdsKnown(w) && OnlyNew(v, w) && LazyDriver.Grows(v, w)
      && forall p :: p in w.pending <==> p in v.pending && p.dueMs > now
  {
    hide MatchAll;
    IdsAfterAdvance(cfg, v, books, now);
    AdvanceLeavesNotDue(cfg, v, books, now);
    NotDueElements(v.pending, now);
    MatchAllSubmitted(cfg, v, books, SortByDue(Due(v.pending, now)));
    LazyDriver.MatchesGrow(cfg, v, books, SortByDue(Due(v.pending, now)));
  }

  /** One action: only new orders come in, and a match leaves none that was there and due. */
  lemma ActionKeeps(d: Desk, trace: seq<Action>, i: nat)
    requires Fits(d, trace) && i < |trace| && IdsKnown(VenueAt(d, trace, i))
    ensures IdsKnown(VenueAt(d, trace, i + 1)) && OnlyNew(VenueAt(d, trace, i), VenueAt(d, trace, i + 1))
    ensures Matches(trace[i]) ==> forall p :: p in VenueAt(d, trace, i + 1).pending && p in VenueAt(d, trace, i).pending ==> p.dueMs > trace[i].t
    ensures IdsKnown(Found(d, trace, i)) && OnlyNew(VenueAt(d, trace, i), Found(d, trace, i))
  {
    hide Advance, IdsKnown, LazyDriver.Grows, Take;
    var v, found, books := VenueAt(d, trace, i), Found(d, trace, i), d.bookOf(Seen(trace, i));
    Unmoved(v);
    if trace[i].DecisionTick? {
      TakeKeeps(d.cfg, v, d.ticks[i].watch, trace[i].t);
    }
    if Matches(trace[i]) {
      AdvanceTakesDue(d.cfg, found, books, trace[i].t);
    }
    if trace[i].DecisionTick? {
      var polled := Advance(d.cfg, found, books, trace[i].t).(events := []);
      EventsTaken(Advance(d.cfg, found, books, trace[i].t));
      TakeKeeps(d.cfg, polled, d.ticks[i].decide, trace[i].t);
      KnownIds(v);
    }
  }

  lemma EventsTaken(v: Venue)
    requires IdsKnown(v)
    ensures IdsKnown(v.(events := []))
  {
  }

  lemma KnownIds(v: Venue)
    requires IdsKnown(v)
    ensures forall p :: p in v.pending ==> p.orderId <= v.submitted
  {
  }

  lemma {:induction false} VenueKnown(d: Desk, trace: seq<Action>, i: nat)
    requires Fits(d, trace) && i <= |trace| && IdsKnown(d.start)
    ensures IdsKnown(VenueAt(d, trace, i))
    decreases i
  {
    if i > 0 {
      hide IdsKnown, VenueAt;
      VenueKnown(d, trace, i - 1);
      ActionKeeps(d, trace, i - 1);
    } else {
      StartsThere(d, trace);
    }
  }

  lemma StartsThere(d: Desk, trace: seq<Action>)
    requires Fits(d, trace)
    ensures VenueAt(d, trace, 0) == d.start
  {
  }

  /** An order that was there before and still is was pending all along, and no match in between came
      at or after its due time. */
  lemma {:induction false} PendingBetween(d: Desk, trace: seq<Action>, i: nat, m: nat, p: Pending)
    requires Fits(d, trace) && i <= m <= |trace| && IdsKnown(d.start)
    requires p in VenueAt(d, trace, m).pending && p.orderId <= VenueAt(d, trace, i).submitted
    ensures p in VenueAt(d, trace, i).pending
    ensures i < m && Matches(trace[i]) ==> p.dueMs > trace[i].t
    decreases m - i
  {
    if i < m {
      hide *;
      StepBack(d, trace, i, p);
      PendingBetween(d, trace, i + 1, m, p);
    }
  }

  lemma StepBack(d: Desk, trace: seq<Action>, i: nat, p: Pending)
    requires Fits(d, trace) && i < |trace| && IdsKnown(d.start) && p.orderId <= VenueAt(d, trace, i).submitted
    ensures p.orderId <= VenueAt(d, trace, i + 1).submitted
    ensures p in VenueAt(d, trace, i + 1).pending ==> p in VenueAt(d, trace, i).pending && (Matches(trace[i]) ==> p.dueMs > trace[i].t)
  {
    hide IdsKnown, VenueAt, Found;
    VenueKnown(d, trace, i);
    ActionKeeps(d, trace, i);
  }

  // ---------------------------------------------------------------- what has been seen

  lemma SeenGrows(trace: seq<Action>, i: nat, j: nat)
    requires i <= j <= |trace|
    ensures Seen(trace, i) <= Seen(trace, j)
  {
    DeliveredJoin(trace[..i], trace[i..j]);
    assert trace[..j] == trace[..i] + trace[i..j];
  }

  /** Where the `k`-th message is delivered. */
  lemma {:induction false} DeliveredAt(trace: seq<Action>, k: nat) returns (q: nat)
    requires k < |Delivered(trace)|
    ensures q < |trace| && trace[q].Deliver? && trace[q].message == Delivered(trace)[k] && |Seen(trace, q)| == k
    ensures |Seen(trace, q + 1)| == k + 1
  {
    var before := trace[..|trace| - 1];
    if k < |Delivered(before)| {
      q := DeliveredAt(before, k);
      assert trace[..q] == before[..q] && trace[..q + 1] == before[..q + 1];
    } else {
      q := |trace| - 1;
      assert trace[..q + 1] == trace;
    }
  }

  lemma SeenBefore(trace: seq<Action>, k: nat, q: nat, i: nat)
    requires q < |trace| && i <= |trace| && |Seen(trace, q)| == k && |Seen(trace, q + 1)| == k + 1
    ensures k < |Seen(trace, i)| <==> q < i
  {
    if q < i {
      SeenGrows(trace, q + 1, i);
    } else {
      SeenGrows(trace, i, q);
    }
  }

  /** At a tick exactly the messages up to its time have been seen. */
  lemma SeenAtTick(trace: seq<Action>, k: nat, q: nat, j: nat)
    requires Sequenced(trace) && q < |trace| && j < |trace| && trace[q].Deliver? && trace[j].DecisionTick?
    ensures q < j <==> trace[q].t <= trace[j].t
  {
  }

  // ---------------------------------------------------------------- the order's own match

  /** Somewhere between the two states the order was matched at its due time on these books. */
  ghost predicate MatchedOn(cfg: Config, before: Venue, after: Venue, books: Books, p: Pending) {
    exists u :: LazyDriver.Grows(before, u) && LazyDriver.Grows(Match(cfg, u, books, p, p.dueMs), after)
  }

  lemma {:induction false} MatchesEach(cfg: Config, v: Venue, books: Books, orders: seq<Pending>, p: Pending) returns (u: Venue)
    requires p in orders
    ensures LazyDriver.Grows(v, u) && LazyDriver.Grows(Match(cfg, u, books, p, p.dueMs), MatchAll(cfg, v, books, orders))
    decreases |orders|
  {
    hide Match;
    var next := MatchFirst(cfg, v, books, orders[0]);
    MatchAllStep(cfg, v, books, orders);
    if orders[0] == p {
      u := v.(pending := Without(v.pending, p.orderId));
      LazyDriver.MatchesGrow(cfg, next, books, orders[1..]);
    } else {
      u := MatchesEach(cfg, next, books, orders[1..], p);
      LazyDriver.FirstGrows(cfg, v, books, orders[0]);
      LazyDriver.GrowsOn(v, next, u);
    }
  }

  lemma DueIsMatched(d: Desk, trace: seq<Action>, m: nat, p: Pending)
    requires Fits(d, trace) && m < |trace| && Matches(trace[m]) && IdsKnown(d.start)
    requires p in Found(d, trace, m).pending && p.dueMs <= trace[m].t
    ensures MatchedOn(d.cfg, Found(d, trace, m), VenueAt(d, trace, m + 1), d.bookOf(Seen(trace, m)), p)
    ensures p !in VenueAt(d, trace, m + 1).pending
  {
    hide Match, MatchAll, IdsKnown, Found, Take, LazyDriver.Grows;
    VenueKnown(d, trace, m);
    ActionKeeps(d, trace, m);
    var found, books, now := Found(d, trace, m), d.bookOf(Seen(trace, m)), trace[m].t;
    SortByDueSorts(Due(found.pending, now));
    var u := MatchesEach(d.cfg, found, books, SortByDue(Due(found.pending, now)), p);
    AdvanceTakesDue(d.cfg, found, books, now);
    var advanced := Advance(d.cfg, found, books, now);
    Unmoved(advanced);
    if trace[m].DecisionTick? {
      EventsTaken(advanced);
      TakeKeeps(d.cfg, advanced.(events := []), d.ticks[m].decide, now);
      KnownIds(found);
      GrowsPolled(advanced, VenueAt(d, trace, m + 1));
    }
    LazyDriver.GrowsOn(Match(d.cfg, u, books, p, p.dueMs), advanced, VenueAt(d, trace, m + 1));
  }

  lemma GrowsPolled(v: Venue, w: Venue)
    requires LazyDriver.Grows(v.(events := []), w)
    ensures LazyDriver.Grows(v, w)
  {
  }

  /** An order placed at tick `j` and still there when an action at or after its due time matches is
      matched then, at its due time, on the books made of exactly the messages from before its due
      time, and of those up to the tick when it took no time to arrive: nothing that came at or after
      its due time, and nothing less than what was there before. */
  lemma MatchedOnTheBookBefore(d: Desk, trace: seq<Action>, messages: seq<Message>, interval: int, tail: int, broken: bool,
                               j: nat, m: nat, p: Pending)
    requires messages != [] && Placed(trace, messages, interval, tail, broken) && Fits(d, trace) && IdsKnown(d.start)
    requires j < m < |trace| && trace[j].DecisionTick? && Matches(trace[m])
    requires p in VenueAt(d, trace, j + 1).pending && p in Found(d, trace, m).pending && p.dueMs <= trace[m].t
    ensures var n := |Seen(trace, m)|;
      && n <= |messages| && Seen(trace, m) == messages[..n]
      && forall k :: 0 <= k < |messages| ==> (k < n <==> messages[k].t < p.dueMs || messages[k].t <= trace[j].t)
    ensures MatchedOn(d.cfg, Found(d, trace, m), VenueAt(d, trace, m + 1), d.bookOf(Seen(trace, m)), p)
    ensures p !in VenueAt(d, trace, m + 1).pending
  {
    hide Found, VenueAt, IdsKnown, MatchedOn, Delivered;
    DueIsMatched(d, trace, m, p);
    SeenGrows(trace, m, |trace|);
    assert trace[..|trace|] == trace;
    var n := |Seen(trace, m)|;
    StillPending(d, trace, j, m, p);
    forall k | 0 <= k < |messages|
      ensures k < n <==> messages[k].t < p.dueMs || messages[k].t <= trace[j].t
    {
      var q := DeliveredAt(trace, k);
      SeenBefore(trace, k, q, m);
      SeenAtTick(trace, k, q, j);
      assert InBlock(trace, q);
      BeforeOrBehind(trace, q, m);
    }
  }

  lemma StillPending(d: Desk, trace: seq<Action>, j: nat, m: nat, p: Pending)
    requires Fits(d, trace) && IdsKnown(d.start) && j < m < |trace|
    requires p in VenueAt(d, trace, j + 1).pending && p in Found(d, trace, m).pending
    ensures forall i :: j < i < m && Matches(trace[i]) ==> p.dueMs > trace[i].t
  {
    hide Found, VenueAt, IdsKnown;
    VenueKnown(d, trace, j + 1);
    KnownIds(VenueAt(d, trace, j + 1));
    VenueKnown(d, trace, m);
    SubmittedGrows(d, trace, j + 1, m);
    ActionKeeps(d, trace, m);
    forall i | j < i < m && Matches(trace[i])
      ensures p.dueMs > trace[i].t
    {
      SubmittedGrows(d, trace, j + 1, i);
      PendingBetween(d, trace, i, m, p);
    }
  }

  lemma {:induction false} SubmittedGrows(d: Desk, trace: seq<Action>, from: nat, m: nat)
    requires Fits(d, trace) && from <= m <= |trace| && IdsKnown(d.start)
    ensures VenueAt(d, trace, from).submitted <= VenueAt(d, trace, m).submitted
    decreases m - from
  {
    if from < m {
      hide IdsKnown, VenueAt;
      VenueKnown(d, trace, from);
      ActionKeeps(d, trace, from);
      SubmittedGrows(d, trace, from + 1, m);
    }
  }

  /** A delivery behind a match is no earlier than it; one before it has its own match before it. */
  lemma BeforeOrBehind(trace: seq<Action>, q: nat, m: nat)
    requires Sequenced(trace) && q < |trace| && m < |trace| && trace[q].Deliver? && InBlock(trace, q) && Matches(trace[m])
    ensures trace[q].t == trace[q].message.t && q >= 1 && trace[q - 1] == MatchDue(trace[q].t)
    ensures q > m ==> trace[q].t >= trace[m].t
    ensures q < m ==> trace[q].t <= trace[m].t
  {
  }

  /** Until its time an order waits, unless it is cancelled. */
  lemma WaitsUntilDue(d: Desk, trace: seq<Action>, i: nat, p: Pending)
    requires Fits(d, trace) && i < |trace| && IdsKnown(d.start)
    requires p in VenueAt(d, trace, i).pending && trace[i].t < p.dueMs
    requires trace[i].DecisionTick? ==> NotCancelled(d.ticks[i].watch, p.orderId) && NotCancelled(d.ticks[i].decide, p.orderId)
    ensures p in VenueAt(d, trace, i + 1).pending
  {
    hide Advance, IdsKnown, Take, LazyDriver.Grows;
    VenueKnown(d, trace, i);
    ActionKeeps(d, trace, i);
    if trace[i].DecisionTick? {
      TakeLeaves(d.cfg, VenueAt(d, trace, i), d.ticks[i].watch, trace[i].t, p);
    }
    if Matches(trace[i]) {
      AdvanceTakesDue(d.cfg, Found(d, trace, i), d.bookOf(Seen(trace, i)), trace[i].t);
    }
    if trace[i].DecisionTick? {
      var advanced := Advance(d.cfg, Found(d, trace, i), d.bookOf(Seen(trace, i)), trace[i].t);
      TakeLeaves(d.cfg, advanced.(events := []), d.ticks[i].decide, trace[i].t, p);
    }
  }

  ghost predicate NotCancelled(steps: seq<Step>, id: OrderId) {
    forall i :: 0 <= i < |steps| ==> !steps[i].CancelAllStep? && (steps[i].CancelStep? ==> steps[i].id != id)
  }

  lemma {:induction false} TakeLeaves(cfg: Config, v: Venue, steps: seq<Step>, now: int, p: Pending)
    requires AllBare(steps, now) && NotCancelled(steps, p.orderId) && p in v.pending
    ensures p in Take(cfg, v, steps, now).pending
    decreases |steps|
  {
    if steps != [] {
      hide Validate;
      TakeLeaves(cfg, Apply(cfg, v, now, steps[0]), steps[1..], now, p);
    }
  }
}
