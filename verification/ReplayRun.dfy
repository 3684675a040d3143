/** The replay loop, and what it promises about the order of its actions, said of the trace alone. */
module ReplayRun {
  import opened Domain
  import opened Replay

  /** What stands around an action: a message is applied directly after the venue has matched what is
      due at its time, and that directly after the clock was moved there; a decision tick comes
      directly after the clock was moved to it; and nothing else happens. */
  ghost predicate InBlock(trace: seq<Action>, i: nat)
    requires i < |trace|
  {
    match trace[i]
    case ClockTo(t) => i + 1 < |trace| && (trace[i + 1] == MatchDue(t) || trace[i + 1] == DecisionTick(t))
    case MatchDue(t) => i >= 1 && trace[i - 1] == ClockTo(t) && i + 1 < |trace| && trace[i + 1].Deliver? && trace[i + 1].t == t
    case Deliver(t, m) => i >= 2 && trace[i - 1] == MatchDue(t) && trace[i - 2] == ClockTo(t) && t == m.t
    case DecisionTick(t) => i >= 1 && trace[i - 1] == ClockTo(t)
  }

  ghost predicate Blocks(trace: seq<Action>) {
    forall i :: 0 <= i < |trace| ==> InBlock(trace, i)
  }

  /** Time never falls, and a decision tick comes strictly before every later tick and message. */
  ghost predicate Sequenced(trace: seq<Action>) {
    forall i, j :: 0 <= i < j < |trace| ==>
      && trace[i].t <= trace[j].t
      && (trace[i].DecisionTick? && (trace[j].DecisionTick? || trace[j].Deliver?) ==> trace[i].t < trace[j].t)
  }

  function Beat(start: int, k: nat, interval: int): int {
    start + k * interval
  }

  /** The whole of a session's schedule: every message once and in order, each with its clock move and
      its match; a tick at every beat after the first message's time, as long as a message is still to
      come or, in a session that did not break off, the tail lasts, and at no other time. */
  ghost predicate Placed(trace: seq<Action>, messages: seq<Message>, interval: int, tail: int, broken: bool)
    requires messages != []
  {
    && Blocks(trace) && Sequenced(trace) && Delivered(trace) == messages
    && forall t :: DecisionTick(t) in trace <==>
         && (exists k: nat :: k >= 1 && t == Beat(messages[0].t, k, interval))
         && (t < messages[|messages| - 1].t || (!broken && t <= messages[|messages| - 1].t + tail))
  }

  // ---------------------------------------------------------------- blocks and their order

  lemma BlockBefore(a: seq<Action>, b: seq<Action>, i: nat)
    requires i < |a| && InBlock(a, i)
    ensures InBlock(a + b, i)
  {
  }

  lemma BlockBehind(a: seq<Action>, b: seq<Action>, i: nat)
    requires i < |b| && InBlock(b, i)
    ensures InBlock(a + b, |a| + i)
  {
    var c := a + b;
    assert c[|a| + i] == b[i];
    assert i + 1 < |b| ==> c[|a| + i + 1] == b[i + 1];
    assert i >= 1 ==> c[|a| + i - 1] == b[i - 1];
    assert i >= 2 ==> c[|a| + i - 2] == b[i - 2];
  }

  lemma BlocksJoin(a: seq<Action>, b: seq<Action>)
    requires Blocks(a) && Blocks(b)
    ensures Blocks(a + b)
  {
    hide InBlock;
    forall i | 0 <= i < |a + b|
      ensures InBlock(a + b, i)
    {
      if i < |a| {
        BlockBefore(a, b, i);
      } else {
        BlockBehind(a, b, i - |a|);
      }
    }
  }

  /** All of `a` by `mid`, its ticks before it, and all of `b` from `mid` on. */
  lemma SequencedJoin(a: seq<Action>, b: seq<Action>, mid: int)
    requires Sequenced(a) && Sequenced(b)
    requires forall i :: 0 <= i < |a| ==> a[i].t <= mid && (a[i].DecisionTick? ==> a[i].t < mid)
    requires forall j :: 0 <= j < |b| ==> mid <= b[j].t
    ensures Sequenced(a + b)
  {
    var c := a + b;
    forall i, j | 0 <= i < j < |c|
      ensures c[i].t <= c[j].t
      ensures c[i].DecisionTick? && (c[j].DecisionTick? || c[j].Deliver?) ==> c[i].t < c[j].t
    {
      assert c[i] == if i < |a| then a[i] else b[i - |a|];
      assert c[j] == if j < |a| then a[j] else b[j - |a|];
    }
  }

  lemma MessageBlock(m: Message)
    ensures Blocks(Applied(m)) && Sequenced(Applied(m))
  {
    var trace := Applied(m);
    assert trace[0] == ClockTo(m.t) && trace[1] == MatchDue(m.t) && trace[2] == Deliver(m.t, m);
    assert InBlock(trace, 0) && InBlock(trace, 1) && InBlock(trace, 2);
  }

  lemma TickBlock(now: int)
    ensures Blocks(Ticked(now)) && Sequenced(Ticked(now))
  {
    var trace := Ticked(now);
    assert trace[0] == ClockTo(now) && trace[1] == DecisionTick(now);
    assert InBlock(trace, 0) && InBlock(trace, 1);
  }

  lemma {:induction false} TicksPlaced(next: int, bound: int, interval: int)
    requires interval > 0
    ensures Blocks(Ticks(next, bound, interval)) && Sequenced(Ticks(next, bound, interval))
    ensures forall a :: a in Ticks(next, bound, interval) ==> next <= a.t < bound
    decreases bound - next
  {
    if next < bound {
      hide Blocks, Sequenced, Ticked;
      var later := Ticks(next + interval, bound, interval);
      TicksPlaced(next + interval, bound, interval);
      TicksBy(later, next + interval, bound);
      TickBlock(next);
      TickedAt(next);
      BlocksJoin(Ticked(next), later);
      SequencedJoin(Ticked(next), later, next + interval);
    } else {
      EmptyPlaced();
    }
  }

  lemma TickedAt(now: int)
    ensures forall a :: a in Ticked(now) ==> a.t == now
    ensures forall i :: 0 <= i < |Ticked(now)| ==> Ticked(now)[i].t == now
  {
  }

  lemma EmptyPlaced()
    ensures Blocks([]) && Sequenced([])
  {
  }

  lemma MessagePlaced(m: Message, rest: seq<Action>)
    requires Blocks(rest) && Sequenced(rest) && Forward(rest, m.t)
    ensures Blocks(Applied(m) + rest) && Sequenced(Applied(m) + rest) && Forward(Applied(m) + rest, m.t)
  {
    hide Blocks, Sequenced;
    MessageBlock(m);
    BlocksJoin(Applied(m), rest);
    SequencedJoin(Applied(m), rest, m.t);
    AppliedForward(m);
    ForwardJoin(Applied(m), rest, m.t, m.t);
  }

  /** The part of a schedule up to and with one message, put before the rest. */
  lemma StretchPlaced(next: int, m: Message, interval: int, rest: seq<Action>)
    requires interval > 0 && Blocks(rest) && Sequenced(rest) && Forward(rest, m.t)
    ensures Blocks(Ticks(next, m.t, interval) + Applied(m) + rest) && Sequenced(Ticks(next, m.t, interval) + Applied(m) + rest)
  {
    hide Ticks, Applied, Blocks, Sequenced;
    var ticks := Ticks(next, m.t, interval);
    MessagePlaced(m, rest);
    TicksPlaced(next, m.t, interval);
    TicksBy(ticks, next, m.t);
    BlocksJoin(ticks, Applied(m) + rest);
    SequencedJoin(ticks, Applied(m) + rest, m.t);
    assert ticks + Applied(m) + rest == ticks + (Applied(m) + rest);
  }

  lemma TicksBy(ticks: seq<Action>, next: int, bound: int)
    requires forall a :: a in ticks ==> next <= a.t < bound
    ensures forall i :: 0 <= i < |ticks| ==> next <= ticks[i].t < bound
  {
  }

  lemma {:induction false} DrivePlaced(messages: seq<Message>, next: int, last: int, interval: int, tail: int, broken: bool)
    requires interval > 0 && InOrder(messages, last) && last <= next
    ensures Blocks(Drive(messages, next, last, interval, tail, broken)) && Sequenced(Drive(messages, next, last, interval, tail, broken))
    decreases |messages|
  {
    hide *;
    if messages == [] {
      EmptyPlaced();
      TicksPlaced(next, last + tail + 1, interval);
      DriveEnds(next, last, interval, tail, broken);
    } else {
      var m := messages[0];
      RestInOrder(messages);
      DrivePlaced(messages[1..], NextTick(next, m.t, interval), m.t, interval, tail, broken);
      DriveForward(messages[1..], NextTick(next, m.t, interval), m.t, interval, tail, broken);
      StretchPlaced(next, m, interval, Drive(messages[1..], NextTick(next, m.t, interval), m.t, interval, tail, broken));
      DriveFirst(messages, next, last, interval, tail, broken);
    }
  }

  lemma DriveEnds(next: int, last: int, interval: int, tail: int, broken: bool)
    requires interval > 0
    ensures Drive([], next, last, interval, tail, broken) == if broken then [] else Ticks(next, last + tail + 1, interval)
  {
  }

  // ---------------------------------------------------------------- the beats

  ghost predicate OnBeat(t: int, start: int, interval: int) {
    exists k: nat :: t == Beat(start, k, interval)
  }

  lemma BeatUp(start: int, k: nat, interval: int)
    requires interval > 0
    ensures Beat(start, k, interval) >= start
    ensures k > 0 ==> Beat(start, k, interval) == Beat(start + interval, k - 1, interval)
  {
  }

  lemma BeatStep(t: int, start: int, interval: int)
    requires interval > 0
    ensures OnBeat(t, start, interval) <==> t == start || OnBeat(t, start + interval, interval)
    ensures OnBeat(t, start, interval) ==> t >= start
    ensures OnBeat(t, start + interval, interval) <==> exists k: nat :: k >= 1 && t == Beat(start, k, interval)
  {
    if k: nat :| t == Beat(start, k, interval) {
      BeatUp(start, k, interval);
    }
    if t == start {
      assert t == Beat(start, 0, interval);
    }
    var later := start + interval;
    if k: nat :| t == Beat(later, k, interval) {
      BeatUp(start, k + 1, interval);
      assert t == Beat(start, k + 1, interval);
    }
    if k: nat :| k >= 1 && t == Beat(start, k, interval) {
      BeatUp(start, k, interval);
      assert t == Beat(start + interval, k - 1, interval);
    }
  }

  lemma {:induction false} TickIn(next: int, bound: int, interval: int, t: int)
    requires interval > 0
    ensures DecisionTick(t) in Ticks(next, bound, interval) <==> OnBeat(t, next, interval) && t < bound
    ensures OnBeat(t, NextTick(next, bound, interval), interval) <==> OnBeat(t, next, interval) && t >= bound
    decreases bound - next
  {
    hide OnBeat;
    BeatStep(t, next, interval);
    if next < bound {
      TickIn(next + interval, bound, interval, t);
      BeatStep(t, next + interval, interval);
    }
  }

  lemma {:induction false} TickInDrive(messages: seq<Message>, next: int, last: int, interval: int, tail: int, broken: bool, t: int)
    requires interval > 0 && InOrder(messages, last) && last <= next
    ensures var end := if messages == [] then last else messages[|messages| - 1].t;
      DecisionTick(t) in Drive(messages, next, last, interval, tail, broken) <==>
        OnBeat(t, next, interval) && (t < end || (!broken && t <= end + tail))
    decreases |messages|
  {
    hide OnBeat, Ticks, NextTick;
    BeatStep(t, next, interval);
    if messages == [] {
      TickIn(next, last + tail + 1, interval, t);
    } else {
      var m := messages[0];
      RestInOrder(messages);
      TickIn(next, m.t, interval, t);
      TickInDrive(messages[1..], NextTick(next, m.t, interval), m.t, interval, tail, broken, t);
      BeatStep(t, NextTick(next, m.t, interval), interval);
      ChainUp(messages, |messages| - 1);
    }
  }

  // ---------------------------------------------------------------- the session

  lemma SessionPlaced(messages: seq<Message>, interval: int, tail: int, broken: bool)
    requires interval > 0 && messages != [] && InOrder(messages, messages[0].t)
    ensures Placed(Session(messages, interval, tail, broken), messages, interval, tail, broken)
  {
    hide Blocks, Sequenced, Drive, Delivered, OnBeat, Beat, Applied, Forward, InOrder;
    var m := messages[0];
    var rest := Drive(messages[1..], m.t + interval, m.t, interval, tail, broken);
    RestInOrder(messages);
    DrivePlaced(messages[1..], m.t + interval, m.t, interval, tail, broken);
    DriveForward(messages[1..], m.t + interval, m.t, interval, tail, broken);
    MessagePlaced(m, rest);
    EveryMessageDelivered(messages[1..], m.t + interval, m.t, interval, tail, broken);
    AppliedDelivers(m);
    DeliveredJoin(Applied(m), rest);
    assert [m] + messages[1..] == messages;
    forall t
      ensures DecisionTick(t) in Session(messages, interval, tail, broken) <==>
        && (exists k: nat :: k >= 1 && t == Beat(m.t, k, interval))
        && (t < messages[|messages| - 1].t || (!broken && t <= messages[|messages| - 1].t + tail))
    {
      TickInDrive(messages[1..], m.t + interval, m.t, interval, tail, broken, t);
      BeatStep(t, m.t, interval);
      NoTick(m, t);
      assert messages[1..] != [] ==> messages[1..][|messages[1..]| - 1] == messages[|messages| - 1];
    }
  }

  lemma NoTick(m: Message, t: int)
    ensures DecisionTick(t) !in Applied(m)
  {
  }

  /** What the reader yields starts a session in order. */
  lemma FromTheFirst(messages: seq<Message>, from: int)
    requires InOrder(messages, from) && messages != []
    ensures InOrder(messages, messages[0].t)
  {
    forall i | 0 <= i < |messages|
      ensures messages[0].t <= messages[i].t
    {
      ChainUp(messages, i);
    }
  }

  // ---------------------------------------------------------------- the loop

  method RunTicks(next: int, bound: int, interval: int) returns (after: int, trace: seq<Action>)
    requires interval > 0
    ensures trace == Ticks(next, bound, interval) && after == NextTick(next, bound, interval)
  {
    after, trace := next, [];
    while after < bound
      invariant trace + Ticks(after, bound, interval) == Ticks(next, bound, interval)
      invariant NextTick(after, bound, interval) == NextTick(next, bound, interval)
      decreases bound - after
    {
      trace := trace + Ticked(after);
      after := after + interval;
    }
  }

  /** The replay loop over a session as the reader delivers it. */
  method RunReplay(lines: seq<Line>, interval: int, tail: int) returns (trace: seq<Action>, error: Option<ReadError>)
    requires interval > 0
    ensures var read := Read(lines, -1, 0);
      && error == read.error && trace == Session(read.messages, interval, tail, read.error.Some?)
      && if read.messages == [] then trace == [] else Placed(trace, read.messages, interval, tail, read.error.Some?)
  {
    hide Ticks, NextTick, Applied, Placed, Drive, InOrder;
    var messages;
    messages, error := IterMessages(lines);
    ReadInOrder(lines, -1, 0);
    if messages == [] {
      return [], error;
    }
    FromTheFirst(messages, -1);
    SessionPlaced(messages, interval, tail, error.Some?);
    var first := messages[0];
    trace := Applied(first);
    var next, last := first.t + interval, first.t;
    var i := 1;
    ghost var whole := Session(messages, interval, tail, error.Some?);
    while i < |messages|
      invariant 1 <= i <= |messages|
      invariant whole == trace + Drive(messages[i..], next, last, interval, tail, error.Some?)
    {
      var m := messages[i];
      assert messages[i..][0] == m && messages[i..][1..] == messages[i + 1..];
      DriveFirst(messages[i..], next, last, interval, tail, error.Some?);
      var after, ticks := RunTicks(next, m.t, interval);
      trace := trace + ticks + Applied(m);
      next, last := after, m.t;
      i := i + 1;
    }
    assert messages[i..] == [];
    DriveEnds(next, last, interval, tail, error.Some?);
    if error.None? {
      var _, ticks := RunTicks(next, last + tail + 1, interval);
      trace := trace + ticks;
    }
  }
}
