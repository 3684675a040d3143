/** Replaying a recorded session: the reader's ordering guarantee, the simulated clock, and the
    interleaving of decision ticks with messages, with no look into the future. */
module Replay {
  import opened Domain

  datatype Source = MarketData | BotRecord | UnknownSource

  datatype Line = Blank | Corrupt | Envelope(src: Source, kind: string, t: int, sequence: int, data: string)

  datatype Message = Message(kind: string, t: int, data: string)

  datatype ReadError = CorruptEnvelope | SequenceNotIncreasing | SourceUnknown | TimeBackwards

  datatype Reading = Reading(messages: seq<Message>, error: Option<ReadError>)

  /** What one line does to the reader: an error, nothing, or a message. */
  datatype LineOutcome = Fails(error: ReadError) | Skips(lastSeq: int) | Yields(message: Message, lastSeq: int)

  function ReadLine(line: Line, lastT: int, lastSeq: int): LineOutcome {
    match line
    case Blank => Skips(lastSeq)
    case Corrupt => Fails(CorruptEnvelope)
    case Envelope(src, kind, t, sequence, data) =>
      if sequence <= lastSeq then Fails(SequenceNotIncreasing)
      else if src.BotRecord? then Skips(sequence)
      else if src.UnknownSource? then Fails(SourceUnknown)
      else if t < lastT then Fails(TimeBackwards)
      else Yields(Message(kind, t, data), sequence)
  }

  /** The messages up to the end or the first error. */
  function Read(lines: seq<Line>, lastT: int, lastSeq: int): Reading {
    if lines == [] then Reading([], None)
    else
      match ReadLine(lines[0], lastT, lastSeq)
      case Fails(error) => Reading([], Some(error))
      case Skips(s) => Read(lines[1..], lastT, s)
      case Yields(m, s) =>
        var rest := Read(lines[1..], m.t, s);
        Reading([m] + rest.messages, rest.error)
  }

  ghost predicate InOrder(messages: seq<Message>, from: int) {
    forall i :: 0 <= i < |messages| ==> from <= messages[i].t && (i + 1 < |messages| ==> messages[i].t <= messages[i + 1].t)
  }

  /** Whatever is on disk, what the reader yields never goes back in time. */
  lemma {:induction false} ReadInOrder(lines: seq<Line>, lastT: int, lastSeq: int)
    ensures InOrder(Read(lines, lastT, lastSeq).messages, lastT)
  {
    if lines != [] {
      match ReadLine(lines[0], lastT, lastSeq)
      case Fails(_) =>
      case Skips(s) => ReadInOrder(lines[1..], lastT, s);
      case Yields(m, s) =>
        ReadInOrder(lines[1..], m.t, s);
        var rest := Read(lines[1..], m.t, s).messages;
        forall i | 0 <= i < |[m] + rest|
          ensures lastT <= ([m] + rest)[i].t && (i + 1 < |[m] + rest| ==> ([m] + rest)[i].t <= ([m] + rest)[i + 1].t)
        {
          assert i > 0 ==> ([m] + rest)[i] == rest[i - 1];
          assert i + 1 < |[m] + rest| ==> ([m] + rest)[i + 1] == rest[i];
        }
    }
  }

  /** The envelope's sequence number is above all before it. */
  ghost predicate Increases(lines: seq<Line>, i: nat, lastSeq: int)
    requires i < |lines|
  {
    lines[i].Envelope? && lines[i].sequence > lastSeq
    && forall j :: 0 <= j < i && lines[j].Envelope? ==> lines[j].sequence < lines[i].sequence
  }

  predicate FromMarket(line: Line) {
    line.Envelope? && line.src.MarketData?
  }

  /** A line the reader passes: blank, or a numbered record of a known source, market data no earlier
      than the market data before it. */
  ghost predicate Passes(lines: seq<Line>, i: nat, lastT: int, lastSeq: int)
    requires i < |lines|
  {
    || lines[i].Blank?
    || (&& Increases(lines, i, lastSeq) && !lines[i].src.UnknownSource?
        && (FromMarket(lines[i]) ==> lines[i].t >= lastT && forall j :: 0 <= j < i && FromMarket(lines[j]) ==> lines[j].t <= lines[i].t))
  }

  function MarketMessages(lines: seq<Line>): seq<Message> {
    if lines == [] then []
    else (if FromMarket(lines[0]) then [Message(lines[0].kind, lines[0].t, lines[0].data)] else []) + MarketMessages(lines[1..])
  }

  lemma PassesOn(lines: seq<Line>, i: nat, lastT: int, lastSeq: int)
    requires 0 < i < |lines| && Passes(lines, 0, lastT, lastSeq)
    ensures var t, s := if FromMarket(lines[0]) then lines[0].t else lastT, if lines[0].Envelope? then lines[0].sequence else lastSeq;
      && (Passes(lines, i, lastT, lastSeq) <==> Passes(lines[1..], i - 1, t, s))
      && (Increases(lines, i, lastSeq) <==> Increases(lines[1..], i - 1, s))
  {
    var rest := lines[1..];
    assert rest[i - 1] == lines[i];
    assert forall j :: 0 <= j < i - 1 ==> rest[j] == lines[j + 1];
    assert forall j :: 0 < j < i ==> lines[j] == rest[j - 1];
  }

  /** The reader goes up to the first line it cannot pass, says what is wrong with that line, and
      yields the market data before it, all of it and in order. */
  lemma {:induction false} ReadExactly(lines: seq<Line>, lastT: int, lastSeq: int) returns (n: nat)
    ensures n <= |lines| && forall i :: 0 <= i < n ==> Passes(lines, i, lastT, lastSeq)
    ensures Read(lines, lastT, lastSeq).messages == MarketMessages(lines[..n])
    ensures Read(lines, lastT, lastSeq).error.None? <==> n == |lines|
    ensures n < |lines| ==>
      && !Passes(lines, n, lastT, lastSeq)
      && Read(lines, lastT, lastSeq).error
           == Some(if lines[n].Corrupt? then CorruptEnvelope
                   else if !Increases(lines, n, lastSeq) then SequenceNotIncreasing
                   else if lines[n].src.UnknownSource? then SourceUnknown
                   else TimeBackwards)
  {
    if lines == [] || !Passes(lines, 0, lastT, lastSeq) {
      n := 0;
      assert lines[..0] == [];
    } else {
      hide Increases;
      FirstPasses(lines, lastT, lastSeq);
      var t, s := if FromMarket(lines[0]) then lines[0].t else lastT, if lines[0].Envelope? then lines[0].sequence else lastSeq;
      var k := ReadExactly(lines[1..], t, s);
      n := k + 1;
      assert lines[..n][1..] == lines[1..][..k];
      forall i | 0 < i <= n && i < |lines|
        ensures Passes(lines, i, lastT, lastSeq) <==> Passes(lines[1..], i - 1, t, s)
        ensures Increases(lines, i, lastSeq) <==> Increases(lines[1..], i - 1, s)
      {
        PassesOn(lines, i, lastT, lastSeq);
      }
    }
  }

  lemma FirstPasses(lines: seq<Line>, lastT: int, lastSeq: int)
    requires lines != [] && Passes(lines, 0, lastT, lastSeq)
    ensures var t, s := if FromMarket(lines[0]) then lines[0].t else lastT, if lines[0].Envelope? then lines[0].sequence else lastSeq;
      var rest := Read(lines[1..], t, s);
      Read(lines, lastT, lastSeq)
        == Reading((if FromMarket(lines[0]) then [Message(lines[0].kind, lines[0].t, lines[0].data)] else []) + rest.messages, rest.error)
  {
    assert [] + Read(lines[1..], lastT, lastSeq).messages == Read(lines[1..], lastT, lastSeq).messages;
  }

  method IterMessages(lines: seq<Line>) returns (messages: seq<Message>, error: Option<ReadError>)
    ensures Reading(messages, error) == Read(lines, -1, 0)
  {
    messages := [];
    var lastT, lastSeq := -1, 0;
    ghost var whole := Read(lines, -1, 0);
    for i := 0 to |lines|
      invariant whole.messages == messages + Read(lines[i..], lastT, lastSeq).messages
      invariant whole.error == Read(lines[i..], lastT, lastSeq).error
    {
      assert lines[i..][0] == lines[i] && lines[i..][1..] == lines[i + 1..];
      match ReadLine(lines[i], lastT, lastSeq) {
        case Fails(e) =>
          return messages, Some(e);
        case Skips(s) =>
          lastSeq := s;
        case Yields(m, s) =>
          messages := messages + [m];
          lastT, lastSeq := m.t, s;
      }
    }
    error := None;
  }

  // ---------------------------------------------------------------- the clock

  class SimulatedClock {
    var nowMs: int
    var monotonicNs: int

    constructor (start: int)
      ensures nowMs == start && monotonicNs == 0
    {
      nowMs, monotonicNs := start, 0;
    }

    /** Refuses to go back; both readings move together. */
    method AdvanceTo(t: int) returns (refused: bool)
      modifies this
      ensures refused <==> t < old(nowMs)
      ensures nowMs == if refused then old(nowMs) else t
      ensures monotonicNs == old(monotonicNs) + (nowMs - old(nowMs)) * 1_000_000
      ensures monotonicNs >= old(monotonicNs)
    {
      refused := t < nowMs;
      if !refused {
        monotonicNs := monotonicNs + (t - nowMs) * 1_000_000;
        nowMs := t;
      }
    }
  }

  // ---------------------------------------------------------------- the schedule

  /** What the driver does: moves the clock, lets the venue match, hands a message to the core,
      or runs one decision tick. */
  datatype Action = ClockTo(t: int) | MatchDue(t: int) | Deliver(t: int, message: Message) | DecisionTick(t: int)

  function Ticked(t: int): seq<Action> {
    [ClockTo(t), DecisionTick(t)]
  }

  function Applied(m: Message): seq<Action> {
    [ClockTo(m.t), MatchDue(m.t), Deliver(m.t, m)]
  }

  /** The ticks before `bound`, and the first one not before it. */
  function Ticks(next: int, bound: int, interval: int): seq<Action>
    requires interval > 0
    decreases bound - next
  {
    if next < bound then Ticked(next) + Ticks(next + interval, bound, interval) else []
  }

  function NextTick(next: int, bound: int, interval: int): (t: int)
    requires interval > 0
    ensures t >= bound && t >= next
    decreases bound - next
  {
    if next < bound then NextTick(next + interval, bound, interval) else next
  }

  /** The rest of a session; one that broke off has no tail. */
  function Drive(messages: seq<Message>, next: int, last: int, interval: int, tail: int, broken: bool): seq<Action>
    requires interval > 0
    decreases |messages|
  {
    if messages == [] then (if broken then [] else Ticks(next, last + tail + 1, interval))
    else
      var m := messages[0];
      Ticks(next, m.t, interval) + Applied(m) + Drive(messages[1..], NextTick(next, m.t, interval), m.t, interval, tail, broken)
  }

  function Session(messages: seq<Message>, interval: int, tail: int, broken: bool): seq<Action>
    requires interval > 0
  {
    if messages == [] then []
    else Applied(messages[0]) + Drive(messages[1..], messages[0].t + interval, messages[0].t, interval, tail, broken)
  }

  // ---------------------------------------------------------------- time only moves forward

  ghost predicate Forward(trace: seq<Action>, from: int) {
    forall i :: 0 <= i < |trace| ==> from <= trace[i].t && (i + 1 < |trace| ==> trace[i].t <= trace[i + 1].t)
  }

  ghost predicate Until(trace: seq<Action>, bound: int) {
    forall i :: 0 <= i < |trace| ==> trace[i].t <= bound
  }

  lemma ForwardJoin(a: seq<Action>, b: seq<Action>, from: int, mid: int)
    requires Forward(a, from) && Until(a, mid) && Forward(b, mid) && from <= mid
    ensures Forward(a + b, from)
  {
    var c := a + b;
    forall i | 0 <= i < |c|
      ensures from <= c[i].t && (i + 1 < |c| ==> c[i].t <= c[i + 1].t)
    {
      assert i < |a| ==> c[i] == a[i];
      assert i >= |a| ==> c[i] == b[i - |a|];
      assert i + 1 < |a| ==> c[i + 1] == a[i + 1];
      assert i + 1 >= |a| && i + 1 < |c| ==> c[i + 1] == b[i + 1 - |a|];
    }
  }

  lemma {:induction false} TicksForward(next: int, bound: int, interval: int)
    requires interval > 0
    ensures Forward(Ticks(next, bound, interval), next)
    ensures Until(Ticks(next, bound, interval), bound)
    decreases bound - next
  {
    if next < bound {
      hide Forward, Until, Ticked;
      TicksForward(next + interval, bound, interval);
      TickedForward(next, bound);
      ForwardEarlier(Ticks(next + interval, bound, interval), next + interval, next);
      ForwardJoin(Ticked(next), Ticks(next + interval, bound, interval), next, next);
      UntilJoin(Ticked(next), Ticks(next + interval, bound, interval), bound);
    }
  }

  lemma TickedForward(now: int, bound: int)
    requires now <= bound
    ensures Forward(Ticked(now), now) && Until(Ticked(now), now) && Until(Ticked(now), bound)
  {
  }

  lemma UntilJoin(a: seq<Action>, b: seq<Action>, bound: int)
    requires Until(a, bound) && Until(b, bound)
    ensures Until(a + b, bound)
  {
  }

  lemma ForwardEarlier(a: seq<Action>, later: int, from: int)
    requires Forward(a, later) && from <= later
    ensures Forward(a, from)
  {
  }

  lemma AppliedForward(m: Message)
    ensures Forward(Applied(m), m.t) && Until(Applied(m), m.t)
  {
  }

  lemma {:induction false} DriveForward(messages: seq<Message>, next: int, last: int, interval: int, tail: int, broken: bool)
    requires interval > 0 && InOrder(messages, last) && last <= next
    ensures Forward(Drive(messages, next, last, interval, tail, broken), last)
    decreases |messages|
  {
    if messages == [] {
      TicksForward(next, last + tail + 1, interval);
    } else {
      hide Ticks, NextTick, Applied, Forward, Until;
      var m := messages[0];
      var ticks := Ticks(next, m.t, interval);
      var rest := Drive(messages[1..], NextTick(next, m.t, interval), m.t, interval, tail, broken);
      RestInOrder(messages);
      DriveForward(messages[1..], NextTick(next, m.t, interval), m.t, interval, tail, broken);
      AppliedForward(m);
      ForwardJoin(Applied(m), rest, m.t, m.t);
      TicksBetween(next, m.t, interval, last);
      ForwardJoin(ticks, Applied(m) + rest, last, m.t);
      assert ticks + Applied(m) + rest == ticks + (Applied(m) + rest);
    }
  }

  lemma TicksBetween(next: int, bound: int, interval: int, last: int)
    requires interval > 0 && last <= next
    ensures Forward(Ticks(next, bound, interval), last) && Until(Ticks(next, bound, interval), bound)
  {
    TicksForward(next, bound, interval);
  }

  lemma RestInOrder(messages: seq<Message>)
    requires messages != [] && exists from :: InOrder(messages, from)
    ensures InOrder(messages[1..], messages[0].t)
  {
    var rest := messages[1..];
    forall i | 0 <= i < |rest|
      ensures messages[0].t <= rest[i].t && (i + 1 < |rest| ==> rest[i].t <= rest[i + 1].t)
    {
      ChainUp(messages, i + 1);
      assert rest[i] == messages[i + 1];
      assert i + 1 < |rest| ==> rest[i + 1] == messages[i + 2];
    }
  }

  lemma {:induction false} ChainUp(messages: seq<Message>, i: nat)
    requires i < |messages| && exists from :: InOrder(messages, from)
    ensures messages[0].t <= messages[i].t
    decreases i
  {
    if i > 0 {
      ChainUp(messages, i - 1);
    }
  }

  /** The simulated clock is never asked to go backwards, whatever was recorded. */
  lemma ClockNeverRefuses(lines: seq<Line>, interval: int, tail: int)
    requires interval > 0
    ensures var read := Read(lines, -1, 0);
      var trace := Session(read.messages, interval, tail, read.error.Some?);
      forall i :: 0 <= i && i + 1 < |trace| ==> trace[i].t <= trace[i + 1].t
  {
    hide Read, InOrder, Drive, Applied;
    var read := Read(lines, -1, 0);
    ReadInOrder(lines, -1, 0);
    if read.messages != [] {
      SessionForward(read.messages, interval, tail, read.error.Some?);
    }
  }

  lemma SessionForward(messages: seq<Message>, interval: int, tail: int, broken: bool)
    requires interval > 0 && messages != [] && InOrder(messages, -1)
    ensures Forward(Session(messages, interval, tail, broken), messages[0].t)
  {
    hide Drive, Applied, Forward, Until;
    var m := messages[0];
    RestInOrder(messages);
    DriveForward(messages[1..], m.t + interval, m.t, interval, tail, broken);
    AppliedForward(m);
    ForwardJoin(Applied(m), Drive(messages[1..], m.t + interval, m.t, interval, tail, broken), m.t, m.t);
  }

  // ---------------------------------------------------------------- no lookahead

  /** The schedule of the first messages followed by every tick before `bound`. */
  function Known(messages: seq<Message>, interval: int, bound: int): seq<Action>
    requires interval > 0 && messages != []
  {
    Applied(messages[0]) + KnownFrom(messages[1..], messages[0].t + interval, interval, bound)
  }

  function KnownFrom(messages: seq<Message>, next: int, interval: int, bound: int): seq<Action>
    requires interval > 0
    decreases |messages|
  {
    if messages == [] then Ticks(next, bound, interval)
    else
      Ticks(next, messages[0].t, interval) + Applied(messages[0])
        + KnownFrom(messages[1..], NextTick(next, messages[0].t, interval), interval, bound)
  }

  lemma {:induction false} TicksSplit(next: int, bound: int, later: int, interval: int)
    requires interval > 0 && bound <= later
    ensures Ticks(next, later, interval) == Ticks(next, bound, interval) + Ticks(NextTick(next, bound, interval), later, interval)
    decreases bound - next
  {
    if next < bound {
      TicksSplit(next + interval, bound, later, interval);
    }
  }

  /** Nothing new is known before `bound`: the next message comes no earlier, or the session ends
      with a tail that reaches it. */
  ghost predicate Quiet(messages: seq<Message>, last: int, tail: int, bound: int) {
    if messages == [] then bound <= last + tail + 1 else bound <= messages[0].t
  }

  lemma {:induction false} DriveKnown(messages: seq<Message>, k: nat, next: int, last: int, interval: int, tail: int, bound: int)
    returns (rest: seq<Action>)
    requires interval > 0 && k <= |messages| && InOrder(messages, last) && last <= next
    requires Quiet(messages[k..], if k == 0 then last else messages[k - 1].t, tail, bound)
    ensures Drive(messages, next, last, interval, tail, false) == KnownFrom(messages[..k], next, interval, bound) + rest
    ensures Forward(rest, bound)
    decreases k
  {
    if k == 0 {
      assert messages[0..] == messages && messages[..0] == [];
      rest := QuietRest(messages, next, last, interval, tail, bound);
    } else {
      hide Ticks, NextTick, Applied, Forward;
      var m := messages[0];
      RestInOrder(messages);
      assert messages[1..][k - 1..] == messages[k..];
      assert k > 1 ==> messages[1..][k - 2] == messages[k - 1];
      rest := DriveKnown(messages[1..], k - 1, NextTick(next, m.t, interval), m.t, interval, tail, bound);
      assert messages[..k][1..] == messages[1..][..k - 1] && messages[..k][0] == m;
      var ticks, known := Ticks(next, m.t, interval), KnownFrom(messages[1..][..k - 1], NextTick(next, m.t, interval), interval, bound);
      assert ticks + Applied(m) + (known + rest) == (ticks + Applied(m) + known) + rest;
    }
  }

  /** While nothing is known to come, what follows the ticks before `bound` is at or after it. */
  lemma QuietRest(messages: seq<Message>, next: int, last: int, interval: int, tail: int, bound: int) returns (rest: seq<Action>)
    requires interval > 0 && InOrder(messages, last) && last <= next && Quiet(messages, last, tail, bound)
    ensures Drive(messages, next, last, interval, tail, false) == Ticks(next, bound, interval) + rest && Forward(rest, bound)
  {
    if messages == [] {
      rest := TailRest(next, last, interval, tail, bound);
    } else {
      rest := MessageRest(messages, next, last, interval, tail, bound);
    }
  }

  lemma TailRest(next: int, last: int, interval: int, tail: int, bound: int) returns (rest: seq<Action>)
    requires interval > 0 && bound <= last + tail + 1
    ensures Drive([], next, last, interval, tail, false) == Ticks(next, bound, interval) + rest && Forward(rest, bound)
  {
    hide Ticks, NextTick, Forward, Until, Drive;
    var later := NextTick(next, bound, interval);
    TailIs(next, last, interval, tail);
    TicksSplit(next, bound, last + tail + 1, interval);
    rest := Ticks(later, last + tail + 1, interval);
    TicksBetween(later, last + tail + 1, interval, bound);
  }

  lemma TailIs(next: int, last: int, interval: int, tail: int)
    requires interval > 0
    ensures Drive([], next, last, interval, tail, false) == Ticks(next, last + tail + 1, interval)
  {
  }

  lemma DriveFirst(messages: seq<Message>, next: int, last: int, interval: int, tail: int, broken: bool)
    requires interval > 0 && messages != []
    ensures Drive(messages, next, last, interval, tail, broken)
      == Ticks(next, messages[0].t, interval) + Applied(messages[0])
         + Drive(messages[1..], NextTick(next, messages[0].t, interval), messages[0].t, interval, tail, broken)
  {
  }

  lemma MessageRest(messages: seq<Message>, next: int, last: int, interval: int, tail: int, bound: int) returns (rest: seq<Action>)
    requires interval > 0 && messages != [] && InOrder(messages, last) && last <= next && bound <= messages[0].t
    ensures Drive(messages, next, last, interval, tail, false) == Ticks(next, bound, interval) + rest && Forward(rest, bound)
  {
    hide Ticks, NextTick, Applied, Forward, Until, Drive;
    var m := messages[0];
    var later := NextTick(next, bound, interval);
    DriveFirst(messages, next, last, interval, tail, false);
    TicksSplit(next, bound, m.t, interval);
    var ticks := Ticks(later, m.t, interval);
    var after := Drive(messages[1..], NextTick(next, m.t, interval), m.t, interval, tail, false);
    RestInOrder(messages);
    DriveForward(messages[1..], NextTick(next, m.t, interval), m.t, interval, tail, false);
    AppliedForward(m);
    ForwardJoin(Applied(m), after, m.t, m.t);
    TicksBetween(later, m.t, interval, bound);
    ForwardJoin(ticks, Applied(m) + after, bound, m.t);
    rest := ticks + (Applied(m) + after);
    Regroup(Ticks(next, bound, interval), ticks, Applied(m), after);
  }

  lemma Regroup(a: seq<Action>, b: seq<Action>, c: seq<Action>, d: seq<Action>)
    ensures a + b + c + d == a + (b + (c + d))
  {
  }

  /** No lookahead: sessions that agree on their first `k` messages and have nothing more to say
      before `bound` do exactly the same until `bound`, clock moves, matches, messages and ticks;
      everything they do differently comes at `bound` or later. */
  lemma NoLookahead(a: seq<Message>, b: seq<Message>, k: nat, interval: int, tail: int, bound: int)
    returns (common: seq<Action>, restA: seq<Action>, restB: seq<Action>)
    requires interval > 0 && 0 < k <= |a| && k <= |b| && a[..k] == b[..k]
    requires InOrder(a, a[0].t) && InOrder(b, b[0].t)
    requires Quiet(a[k..], a[k - 1].t, tail, bound) && Quiet(b[k..], b[k - 1].t, tail, bound)
    ensures Session(a, interval, tail, false) == common + restA
    ensures Session(b, interval, tail, false) == common + restB
    ensures common == Known(a[..k], interval, bound) && Forward(restA, bound) && Forward(restB, bound)
  {
    common := Known(a[..k], interval, bound);
    restA := SessionKnown(a, k, interval, tail, bound);
    restB := SessionKnown(b, k, interval, tail, bound);
  }

  lemma SessionKnown(a: seq<Message>, k: nat, interval: int, tail: int, bound: int) returns (rest: seq<Action>)
    requires interval > 0 && 0 < k <= |a| && InOrder(a, a[0].t) && Quiet(a[k..], a[k - 1].t, tail, bound)
    ensures Session(a, interval, tail, false) == Known(a[..k], interval, bound) + rest && Forward(rest, bound)
  {
    hide Forward, Applied;
    RestInOrder(a);
    assert a[1..][k - 1..] == a[k..];
    assert k > 1 ==> a[1..][k - 2] == a[k - 1];
    rest := DriveKnown(a[1..], k - 1, a[0].t + interval, a[0].t, interval, tail, bound);
    assert a[..k][1..] == a[1..][..k - 1] && a[..k][0] == a[0];
    var known := KnownFrom(a[1..][..k - 1], a[0].t + interval, interval, bound);
    assert Applied(a[0]) + (known + rest) == (Applied(a[0]) + known) + rest;
  }

  // ---------------------------------------------------------------- what a tick has seen

  /** The messages delivered in a trace. */
  function Delivered(trace: seq<Action>): seq<Message> {
    if trace == [] then []
    else Delivered(trace[..|trace| - 1]) + if trace[|trace| - 1].Deliver? then [trace[|trace| - 1].message] else []
  }

  lemma {:induction false} DeliveredJoin(a: seq<Action>, b: seq<Action>)
    ensures Delivered(a + b) == Delivered(a) + Delivered(b)
    decreases |b|
  {
    if b == [] {
      assert a + b == a;
    } else {
      DeliveredJoin(a, b[..|b| - 1]);
      assert (a + b)[..|a + b| - 1] == a + b[..|b| - 1];
    }
  }

  lemma DeliveredOne(a: Action)
    ensures Delivered([a]) == if a.Deliver? then [a.message] else []
  {
    assert [a][..0] == [];
  }

  lemma {:induction false} TicksDeliverNothing(next: int, bound: int, interval: int)
    requires interval > 0
    ensures Delivered(Ticks(next, bound, interval)) == []
    decreases bound - next
  {
    hide Delivered, Ticked;
    if next < bound {
      TicksDeliverNothing(next + interval, bound, interval);
      DeliveredJoin(Ticked(next), Ticks(next + interval, bound, interval));
      TickDeliversNothing(next);
    } else {
      NothingDelivered();
    }
  }

  lemma TickDeliversNothing(now: int)
    ensures Delivered(Ticked(now)) == []
  {
    DeliveredOne(ClockTo(now));
    DeliveredOne(DecisionTick(now));
    DeliveredJoin([ClockTo(now)], [DecisionTick(now)]);
    assert Ticked(now) == [ClockTo(now)] + [DecisionTick(now)];
  }

  lemma NothingDelivered()
    ensures Delivered([]) == []
  {
  }

  lemma AppliedDelivers(m: Message)
    ensures Delivered(Applied(m)) == [m]
  {
    DeliveredOne(ClockTo(m.t));
    DeliveredOne(MatchDue(m.t));
    DeliveredOne(Deliver(m.t, m));
    DeliveredJoin([ClockTo(m.t)], [MatchDue(m.t)]);
    DeliveredJoin([ClockTo(m.t)] + [MatchDue(m.t)], [Deliver(m.t, m)]);
    assert Applied(m) == [ClockTo(m.t)] + [MatchDue(m.t)] + [Deliver(m.t, m)];
  }

  lemma TailDeliversNothing(next: int, last: int, interval: int, tail: int, broken: bool)
    requires interval > 0
    ensures Delivered(Drive([], next, last, interval, tail, broken)) == []
  {
    TicksDeliverNothing(next, last + tail + 1, interval);
  }

  lemma OneDelivered(ticks: seq<Action>, m: Message, rest: seq<Action>, messages: seq<Message>)
    requires Delivered(ticks) == [] && Delivered(Applied(m)) == [m] && messages != [] && m == messages[0] && Delivered(rest) == messages[1..]
    ensures Delivered(ticks + Applied(m) + rest) == messages
  {
    hide Applied, Delivered;
    DeliveredJoin(ticks + Applied(m), rest);
    DeliveredJoin(ticks, Applied(m));
    assert [] + [m] + messages[1..] == messages;
  }

  /** Every message is delivered exactly once, in order. */
  lemma {:induction false} EveryMessageDelivered(messages: seq<Message>, next: int, last: int, interval: int, tail: int, broken: bool)
    requires interval > 0
    ensures Delivered(Drive(messages, next, last, interval, tail, broken)) == messages
    decreases |messages|
  {
    if messages == [] {
      TailDeliversNothing(next, last, interval, tail, broken);
    } else {
      hide *;
      var m := messages[0];
      var ticks := Ticks(next, m.t, interval);
      DriveFirst(messages, next, last, interval, tail, broken);
      var rest := Drive(messages[1..], NextTick(next, m.t, interval), m.t, interval, tail, broken);
      EveryMessageDelivered(messages[1..], NextTick(next, m.t, interval), m.t, interval, tail, broken);
      TicksDeliverNothing(next, m.t, interval);
      AppliedDelivers(m);
      OneDelivered(ticks, m, rest, messages);
    }
  }
}
