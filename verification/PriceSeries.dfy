/** A bounded series of reference prices and its time-weighted average: the segment-wise loop
    against a sum over every millisecond. */
module PriceSeries {
  import opened Decimals
  import opened Domain

  datatype Tick = Tick(observedMs: int, value: real)

  ghost predicate Increasing(ticks: seq<Tick>) {
    forall i, j :: 0 <= i < j < |ticks| ==> ticks[i].observedMs < ticks[j].observedMs
  }

  /** How many ticks come at or before `ms`. */
  function UpTo(ticks: seq<Tick>, ms: int): (n: nat)
    ensures n <= |ticks|
    ensures n > 0 ==> ticks[n - 1].observedMs <= ms
  {
    if ticks == [] then 0
    else if ticks[|ticks| - 1].observedMs <= ms then |ticks|
    else UpTo(ticks[..|ticks| - 1], ms)
  }

  lemma {:induction false} UpToSplits(ticks: seq<Tick>, ms: int)
    requires Increasing(ticks)
    ensures forall i :: 0 <= i < |ticks| ==> (i < UpTo(ticks, ms) <==> ticks[i].observedMs <= ms)
  {
    if ticks != [] && ticks[|ticks| - 1].observedMs > ms {
      UpToSplits(ticks[..|ticks| - 1], ms);
    }
  }

  /** The latest tick at or before `ms`. */
  function AtOrBefore(ticks: seq<Tick>, ms: int): Option<Tick> {
    if UpTo(ticks, ms) == 0 then None else Some(ticks[UpTo(ticks, ms) - 1])
  }

  /** The ticks observed within the bounds, both included. */
  function Window(ticks: seq<Tick>, from: int, until: int): seq<Tick> {
    if ticks == [] then []
    else
      var last := ticks[|ticks| - 1];
      Window(ticks[..|ticks| - 1], from, until) + if from <= last.observedMs <= until then [last] else []
  }

  /** The retained ticks: the newest, and none dropped that is within the age limit of it. */
  ghost predicate Kept(history: seq<Tick>, ticks: seq<Tick>, maxAge: nat) {
    && Increasing(history) && |ticks| <= |history| && history[|history| - |ticks|..] == ticks
    && (history != [] ==> ticks != [])
    && forall i :: 0 <= i < |history| - |ticks| ==> history[|history| - 1].observedMs - history[i].observedMs > maxAge
  }

  lemma Append(history: seq<Tick>, ticks: seq<Tick>, tick: Tick, maxAge: nat)
    requires Kept(history, ticks, maxAge) && (history != [] ==> history[|history| - 1].observedMs < tick.observedMs)
    ensures Kept(history + [tick], ticks + [tick], maxAge)
  {
    var after := history + [tick];
    IncreasingAppend(history, tick);
    SliceAppend(history, ticks, tick);
    hide Increasing;
    forall i | 0 <= i < |history| - |ticks|
      ensures after[|after| - 1].observedMs - after[i].observedMs > maxAge
    {
      OneDropped(history, ticks, maxAge, i);
    }
  }

  lemma OneDropped(history: seq<Tick>, ticks: seq<Tick>, maxAge: nat, i: nat)
    requires Kept(history, ticks, maxAge) && i < |history| - |ticks|
    ensures history[|history| - 1].observedMs - history[i].observedMs > maxAge
  {
    hide Increasing;
  }

  lemma SliceAppend(history: seq<Tick>, ticks: seq<Tick>, tick: Tick)
    requires |ticks| <= |history| && history[|history| - |ticks|..] == ticks
    ensures (history + [tick])[|history| - |ticks|..] == ticks + [tick]
  {
  }

  lemma IncreasingAppend(history: seq<Tick>, tick: Tick)
    requires Increasing(history) && (history != [] ==> history[|history| - 1].observedMs < tick.observedMs)
    ensures Increasing(history + [tick])
  {
    var after := history + [tick];
    forall i, j | 0 <= i < j < |after|
      ensures after[i].observedMs < after[j].observedMs
    {
      assert after[i] == history[i];
      assert j < |history| ==> after[j] == history[j];
    }
  }

  /** Drops from the front what is older than the age limit. */
  method DropOld(ghost history: seq<Tick>, ticks: seq<Tick>, maxAge: nat) returns (rest: seq<Tick>)
    requires Kept(history, ticks, maxAge) && ticks != []
    ensures Kept(history, rest, maxAge) && rest != [] && rest[|rest| - 1] == history[|history| - 1]
    ensures forall i :: 0 <= i < |rest| ==> history[|history| - 1].observedMs - rest[i].observedMs <= maxAge
  {
    var newest := ticks[|ticks| - 1].observedMs;
    NewestKept(history, ticks, maxAge);
    rest := ticks;
    while rest != [] && newest - rest[0].observedMs > maxAge
      invariant Kept(history, rest, maxAge)
    {
      OneLess(history, rest, maxAge);
      rest := rest[1..];
    }
    NewestKept(history, rest, maxAge);
    OldestIsRecent(history, rest, maxAge);
  }

  lemma SameEnds(history: seq<Tick>, ticks: seq<Tick>, maxAge: nat)
    requires Kept(history, ticks, maxAge)
    ensures ticks == [] <==> history == []
    ensures ticks != [] ==> ticks[|ticks| - 1] == history[|history| - 1]
  {
    if history != [] {
      NewestKept(history, ticks, maxAge);
    }
  }

  lemma NewestKept(history: seq<Tick>, ticks: seq<Tick>, maxAge: nat)
    requires Kept(history, ticks, maxAge) && history != []
    ensures ticks != [] && ticks[|ticks| - 1] == history[|history| - 1]
  {
    assert ticks[|ticks| - 1] == history[|history| - |ticks|..][|ticks| - 1];
  }

  lemma OneLess(history: seq<Tick>, ticks: seq<Tick>, maxAge: nat)
    requires Kept(history, ticks, maxAge) && ticks != [] && history[|history| - 1].observedMs - ticks[0].observedMs > maxAge
    ensures Kept(history, ticks[1..], maxAge)
  {
    var k := |history| - |ticks|;
    assert history[k] == ticks[0];
    NewestKept(history, ticks, maxAge);
    assert history[k + 1..] == history[k..][1..];
  }

  lemma OldestIsRecent(history: seq<Tick>, ticks: seq<Tick>, maxAge: nat)
    requires Kept(history, ticks, maxAge) && ticks != [] && history[|history| - 1].observedMs - ticks[0].observedMs <= maxAge
    ensures forall i :: 0 <= i < |ticks| ==> history[|history| - 1].observedMs - ticks[i].observedMs <= maxAge
  {
    var k := |history| - |ticks|;
    forall i | 0 <= i < |ticks|
      ensures ticks[0].observedMs <= ticks[i].observedMs
    {
      assert ticks[i] == history[k + i] && ticks[0] == history[k];
    }
  }

  // ---------------------------------------------------------------- the class

  class PriceSeries {
    const maxAge: nat
    var ticks: seq<Tick>
    /** Every tick ever accepted. */
    ghost var history: seq<Tick>

    ghost predicate Valid()
      reads this
    {
      Kept(history, ticks, maxAge)
    }

    constructor (maxAge: nat)
      ensures Valid() && this.maxAge == maxAge && ticks == [] && history == []
    {
      this.maxAge := maxAge;
      ticks, history := [], [];
    }

    /** A tick no later than the newest is refused; an accepted one may evict old ticks. */
    method Add(tick: Tick) returns (accepted: bool)
      requires Valid()
      modifies this
      ensures Valid()
      ensures accepted <==> old(history) == [] || old(history)[|old(history)| - 1].observedMs < tick.observedMs
      ensures history == if accepted then old(history) + [tick] else old(history)
      ensures accepted ==>
        |ticks| > 0 && ticks[|ticks| - 1] == tick && forall i :: 0 <= i < |ticks| ==> tick.observedMs - ticks[i].observedMs <= maxAge
      ensures !accepted ==> ticks == old(ticks)
    {
      hide Kept, Increasing;
      SameEnds(history, ticks, maxAge);
      if ticks != [] && tick.observedMs <= ticks[|ticks| - 1].observedMs {
        return false;
      }
      Append(history, ticks, tick, maxAge);
      ticks := ticks + [tick];
      history := history + [tick];
      assert history[|history| - 1] == tick;
      ticks := DropOld(history, ticks, maxAge);
      accepted := true;
    }

    method Latest() returns (tick: Option<Tick>)
      requires Valid()
      ensures tick == if history == [] then None else Some(history[|history| - 1])
    {
      tick := if ticks == [] then None else Some(ticks[|ticks| - 1]);
    }

    /** Searched from the newest back. */
    method FindAtOrBefore(ms: int) returns (best: Option<Tick>)
      ensures best == AtOrBefore(ticks, ms)
    {
      var i := |ticks|;
      assert ticks[..i] == ticks;
      while i > 0
        invariant 0 <= i <= |ticks|
        invariant UpTo(ticks, ms) == UpTo(ticks[..i], ms)
      {
        if ticks[i - 1].observedMs <= ms {
          return Some(ticks[i - 1]);
        }
        assert ticks[..i][..i - 1] == ticks[..i - 1];
        i := i - 1;
      }
      best := None;
    }

    method Within(from: int, until: int) returns (found: seq<Tick>)
      ensures found == Window(ticks, from, until)
    {
      found := [];
      for i := 0 to |ticks|
        invariant found == Window(ticks[..i], from, until)
      {
        assert ticks[..i + 1][..i] == ticks[..i];
        if from <= ticks[i].observedMs <= until {
          found := found + [ticks[i]];
        }
      }
      assert ticks[..|ticks|] == ticks;
    }

    /** Average over the covered part, and the covered share of the interval. */
    method TrailingAverage(start: int, end: int) returns (average: Option<real>, coverage: real)
      requires Valid()
      ensures end <= start || CoveredMs(ticks, start, end) == 0 ==> average == None && coverage == 0.0
      ensures start < end && CoveredMs(ticks, start, end) > 0 ==>
        && average == Some(SumMs(ticks, start, end) / CoveredMs(ticks, start, end) as real)
        && coverage == CoveredMs(ticks, start, end) as real / (end - start) as real
    {
      if end <= start {
        return None, 0.0;
      }
      var anchor := FindAtOrBefore(start);
      var later := Within(start + 1, end);
      var points := (if anchor.Some? then [anchor.value] else []) + later;
      SuffixIncreasing();
      PointsAreSlice(ticks, start, end);
      if points == [] {
        NothingCovered(ticks, start, end, end);
        return None, 0.0;
      }
      var total, covered := Accumulate(points, start, end, ticks);
      if covered == 0 {
        return None, 0.0;
      }
      average, coverage := Some(total / covered as real), covered as real / (end - start) as real;
    }

    lemma SuffixIncreasing()
      requires Valid()
      ensures Increasing(ticks)
    {
      forall i, j | 0 <= i < j < |ticks|
        ensures ticks[i].observedMs < ticks[j].observedMs
      {
        assert ticks[i] == history[|history| - |ticks| + i] && ticks[j] == history[|history| - |ticks| + j];
      }
    }
  }

  /** The loop over segments, each running to the next point or the end. */
  method Accumulate(points: seq<Tick>, start: int, end: int, ghost ticks: seq<Tick>) returns (total: real, covered: int)
    requires Increasing(ticks) && start < end && points == Points(ticks, start, end) && points != []
    ensures total == SumMs(ticks, start, end) && covered == CoveredMs(ticks, start, end)
  {
    hide SumMs, CoveredMs, Points, Times;
    total, covered := 0.0, 0;
    var i := 0;
    NothingCovered(ticks, start, end, Segment(start, points[0]));
    while i < |points|
      invariant 0 <= i <= |points|
      invariant total == SumMs(ticks, start, Reached(points, start, end, i))
      invariant covered == CoveredMs(ticks, start, Reached(points, start, end, i))
    {
      var tick := points[i];
      var segStart := if tick.observedMs > start then tick.observedMs else start;
      var segEnd := if i + 1 < |points| then points[i + 1].observedMs else end;
      segEnd := if segEnd < end then segEnd else end;
      NextPoint(ticks, start, end, i);
      SegmentIsConstant(ticks, start, end, i, segStart, segEnd);
      SumSplits(ticks, start, segStart, segEnd);
      if segEnd > segStart {
        total := total + Times(tick.value, segEnd - segStart);
        covered := covered + (segEnd - segStart);
      } else {
        Nothing(ticks, segStart);
      }
      i := i + 1;
    }
  }

  /** Where the loop stands before segment `i`. */
  function Reached(points: seq<Tick>, start: int, end: int, i: nat): int {
    if i < |points| then Segment(start, points[i]) else end
  }

  lemma NextPoint(ticks: seq<Tick>, start: int, end: int, i: nat)
    requires Increasing(ticks) && start <= end && i < |Points(ticks, start, end)|
    ensures i + 1 < |Points(ticks, start, end)| ==> start < Points(ticks, start, end)[i + 1].observedMs <= end
  {
    if i + 1 < |Points(ticks, start, end)| {
      PointAt(ticks, start, end, i + 1);
    }
  }

  lemma Nothing(ticks: seq<Tick>, at: int)
    ensures SumMs(ticks, at, at) == 0.0 && CoveredMs(ticks, at, at) == 0
  {
  }

  // ---------------------------------------------------------------- millisecond by millisecond

  function ValueAt(ticks: seq<Tick>, ms: int): Option<real> {
    if AtOrBefore(ticks, ms).None? then None else Some(AtOrBefore(ticks, ms).value.value)
  }

  /** Sum of the value at each instant from `from` until just before `to`. */
  function SumMs(ticks: seq<Tick>, from: int, until: int): real
    decreases until - from
  {
    if until <= from then 0.0
    else SumMs(ticks, from, until - 1) + if ValueAt(ticks, until - 1).Some? then ValueAt(ticks, until - 1).value else 0.0
  }

  /** How many of those instants have a value. */
  function CoveredMs(ticks: seq<Tick>, from: int, until: int): nat
    decreases until - from
  {
    if until <= from then 0 else CoveredMs(ticks, from, until - 1) + if ValueAt(ticks, until - 1).Some? then 1 else 0
  }

  function Times(value: real, n: int): real {
    value * n as real
  }

  lemma TimesNext(value: real, n: int)
    ensures Times(value, n) + value == Times(value, n + 1)
  {
    assert (n + 1) as real == n as real + 1.0;
  }

  lemma {:induction false} SumSplits(ticks: seq<Tick>, from: int, mid: int, until: int)
    requires from <= mid
    ensures mid <= until ==> SumMs(ticks, from, until) == SumMs(ticks, from, mid) + SumMs(ticks, mid, until)
    ensures mid <= until ==> CoveredMs(ticks, from, until) == CoveredMs(ticks, from, mid) + CoveredMs(ticks, mid, until)
    decreases until - mid
  {
    hide ValueAt;
    if mid < until {
      SumSplits(ticks, from, mid, until - 1);
    }
  }

  lemma {:induction false} Constant(ticks: seq<Tick>, from: int, until: int, value: real)
    requires from <= until && forall ms :: from <= ms < until ==> ValueAt(ticks, ms) == Some(value)
    ensures SumMs(ticks, from, until) == Times(value, until - from) && CoveredMs(ticks, from, until) == until - from
    decreases until - from
  {
    if from < until {
      Constant(ticks, from, until - 1, value);
      TimesNext(value, until - 1 - from);
    }
  }

  lemma {:induction false} Uncovered(ticks: seq<Tick>, from: int, until: int)
    requires forall ms :: from <= ms < until ==> ValueAt(ticks, ms).None?
    ensures SumMs(ticks, from, until) == 0.0 && CoveredMs(ticks, from, until) == 0
    decreases until - from
  {
    if from < until {
      Uncovered(ticks, from, until - 1);
    }
  }

  // ---------------------------------------------------------------- the segments

  /** Index of the first point: the anchor, or the first tick after the start. */
  function FirstPoint(ticks: seq<Tick>, start: int): nat {
    if UpTo(ticks, start) > 0 then UpTo(ticks, start) - 1 else 0
  }

  function Points(ticks: seq<Tick>, start: int, end: int): seq<Tick> {
    (if AtOrBefore(ticks, start).Some? then [AtOrBefore(ticks, start).value] else []) + Window(ticks, start + 1, end)
  }

  function Segment(start: int, tick: Tick): int {
    if tick.observedMs > start then tick.observedMs else start
  }

  lemma {:induction false} WindowIsSlice(ticks: seq<Tick>, start: int, end: int)
    requires Increasing(ticks) && start <= end
    ensures UpTo(ticks, start) <= UpTo(ticks, end)
    ensures Window(ticks, start + 1, end) == ticks[UpTo(ticks, start)..UpTo(ticks, end)]
  {
    hide UpTo, Increasing, Window;
    if ticks == [] {
      NoTicks(start, end);
    } else {
      var n := |ticks| - 1;
      IncreasingRest(ticks);
      WindowIsSlice(ticks[..n], start, end);
      UpToLast(ticks, start);
      UpToLast(ticks, end);
      WindowLast(ticks, start + 1, end);
      var a, b := UpTo(ticks[..n], start), UpTo(ticks[..n], end);
      if ticks[n].observedMs > end {
        assert ticks[..n][a..b] == ticks[a..b];
      } else if ticks[n].observedMs > start {
        UpToAll(ticks, n, end);
        SliceGrows(ticks, a, n);
      } else {
        UpToAll(ticks, n, start);
        UpToAll(ticks, n, end);
      }
    }
  }

  lemma NoTicks(start: int, end: int)
    ensures UpTo([], start) == 0 && UpTo([], end) == 0 && Window([], start + 1, end) == []
  {
  }

  lemma SliceGrows(ticks: seq<Tick>, a: nat, n: nat)
    requires a <= n < |ticks|
    ensures ticks[..n][a..n] + [ticks[n]] == ticks[a..n + 1]
  {
  }

  lemma WindowLast(ticks: seq<Tick>, from: int, until: int)
    requires ticks != []
    ensures var last := ticks[|ticks| - 1];
      Window(ticks, from, until) == Window(ticks[..|ticks| - 1], from, until) + if from <= last.observedMs <= until then [last] else []
  {
  }

  lemma IncreasingRest(ticks: seq<Tick>)
    requires Increasing(ticks) && ticks != []
    ensures Increasing(ticks[..|ticks| - 1])
  {
  }

  lemma UpToLast(ticks: seq<Tick>, ms: int)
    requires ticks != []
    ensures UpTo(ticks, ms) == if ticks[|ticks| - 1].observedMs <= ms then |ticks| else UpTo(ticks[..|ticks| - 1], ms)
  {
  }

  lemma UpToAll(ticks: seq<Tick>, n: nat, ms: int)
    requires Increasing(ticks) && n == |ticks| - 1 && ticks[n].observedMs <= ms
    ensures UpTo(ticks, ms) == n + 1 && UpTo(ticks[..n], ms) == n
  {
    AllUpTo(ticks, n, ms);
  }

  lemma AllUpTo(ticks: seq<Tick>, n: nat, ms: int)
    requires Increasing(ticks) && n < |ticks| && ticks[n].observedMs <= ms
    ensures UpTo(ticks[..n], ms) == n
  {
  }

  lemma PointsAreSlice(ticks: seq<Tick>, start: int, end: int)
    requires Increasing(ticks) && start <= end
    ensures FirstPoint(ticks, start) <= UpTo(ticks, end)
    ensures Points(ticks, start, end) == ticks[FirstPoint(ticks, start)..UpTo(ticks, end)]
  {
    WindowIsSlice(ticks, start, end);
  }

  lemma PointAt(ticks: seq<Tick>, start: int, end: int, i: nat)
    requires Increasing(ticks) && start <= end && i < |Points(ticks, start, end)|
    ensures FirstPoint(ticks, start) + i < |ticks| && Points(ticks, start, end)[i] == ticks[FirstPoint(ticks, start) + i]
    ensures ticks[FirstPoint(ticks, start) + i].observedMs <= end
    ensures i > 0 ==> ticks[FirstPoint(ticks, start) + i].observedMs > start
    ensures i == |Points(ticks, start, end)| - 1 ==> FirstPoint(ticks, start) + i + 1 == UpTo(ticks, end)
  {
    hide Points, UpTo, Increasing;
    PointsAreSlice(ticks, start, end);
    var a := FirstPoint(ticks, start);
    UpToAt(ticks, end, a + i);
    UpToAt(ticks, start, a + i);
  }

  lemma UpToAt(ticks: seq<Tick>, ms: int, i: nat)
    requires Increasing(ticks) && i < |ticks|
    ensures i < UpTo(ticks, ms) <==> ticks[i].observedMs <= ms
  {
    UpToSplits(ticks, ms);
  }

  lemma NothingBefore(ticks: seq<Tick>, ms: int)
    requires Increasing(ticks) && ticks != [] && ms < ticks[0].observedMs
    ensures UpTo(ticks, ms) == 0
  {
    UpToAt(ticks, ms, 0);
  }

  /** Before the first point there is nothing. */
  lemma NothingCovered(ticks: seq<Tick>, start: int, end: int, until: int)
    requires Increasing(ticks) && start <= end
    requires if Points(ticks, start, end) == [] then until == end else until == Segment(start, Points(ticks, start, end)[0])
    ensures SumMs(ticks, start, until) == 0.0 && CoveredMs(ticks, start, until) == 0
  {
    PointsAreSlice(ticks, start, end);
    forall ms | start <= ms < until
      ensures ValueAt(ticks, ms).None?
    {
      if Points(ticks, start, end) == [] {
        WindowIsSlice(ticks, ms, end);
      } else {
        PointAt(ticks, start, end, 0);
        NothingBefore(ticks, ms);
      }
    }
    Uncovered(ticks, start, until);
  }

  /** Within its segment, each instant has the point's value. */
  lemma SegmentIsConstant(ticks: seq<Tick>, start: int, end: int, i: nat, segStart: int, segEnd: int)
    requires Increasing(ticks) && start < end && i < |Points(ticks, start, end)|
    requires segStart == Segment(start, Points(ticks, start, end)[i])
    requires segEnd == if i + 1 < |Points(ticks, start, end)| then Points(ticks, start, end)[i + 1].observedMs else end
    ensures segStart <= segEnd
    ensures SumMs(ticks, segStart, segEnd) == Times(Points(ticks, start, end)[i].value, segEnd - segStart)
    ensures CoveredMs(ticks, segStart, segEnd) == segEnd - segStart
  {
    PointAt(ticks, start, end, i);
    var k := FirstPoint(ticks, start) + i;
    if i + 1 < |Points(ticks, start, end)| {
      PointAt(ticks, start, end, i + 1);
    }
    UpToSplits(ticks, start);
    UpToSplits(ticks, end);
    forall ms | segStart <= ms < segEnd
      ensures ValueAt(ticks, ms) == Some(Points(ticks, start, end)[i].value)
    {
      LatestIs(ticks, k, ms);
    }
    Constant(ticks, segStart, segEnd, Points(ticks, start, end)[i].value);
  }

  lemma LatestIs(ticks: seq<Tick>, k: nat, ms: int)
    requires Increasing(ticks) && k < |ticks| && ticks[k].observedMs <= ms
    requires k + 1 < |ticks| ==> ms < ticks[k + 1].observedMs
    ensures AtOrBefore(ticks, ms) == Some(ticks[k])
  {
    UpToAt(ticks, ms, k);
    if k + 1 < |ticks| {
      UpToAt(ticks, ms, k + 1);
    }
  }

  // ---------------------------------------------------------------- what the average promises

  /** Coverage is a share of the interval. */
  lemma {:induction false} CoverageIsShare(ticks: seq<Tick>, from: int, until: int)
    requires from <= until
    ensures CoveredMs(ticks, from, until) <= until - from
    decreases until - from
  {
    hide ValueAt;
    if from < until {
      CoverageIsShare(ticks, from, until - 1);
    }
  }

  /** The average lies between the least and the greatest value that contributes. */
  lemma AverageWithin(ticks: seq<Tick>, from: int, until: int, low: real, high: real)
    requires CoveredMs(ticks, from, until) > 0
    requires forall ms :: from <= ms < until && ValueAt(ticks, ms).Some? ==> low <= ValueAt(ticks, ms).value <= high
    ensures low <= SumMs(ticks, from, until) / CoveredMs(ticks, from, until) as real <= high
  {
    hide ValueAt;
    SumWithin(ticks, from, until, low, high);
    Quotient(SumMs(ticks, from, until), CoveredMs(ticks, from, until), low, high);
  }

  lemma {:induction false} SumWithin(ticks: seq<Tick>, from: int, until: int, low: real, high: real)
    requires forall ms :: from <= ms < until && ValueAt(ticks, ms).Some? ==> low <= ValueAt(ticks, ms).value <= high
    ensures Times(low, CoveredMs(ticks, from, until)) <= SumMs(ticks, from, until) <= Times(high, CoveredMs(ticks, from, until))
    decreases until - from
  {
    hide ValueAt, Times;
    if from < until {
      SumWithin(ticks, from, until - 1, low, high);
      TimesNext(low, CoveredMs(ticks, from, until - 1));
      TimesNext(high, CoveredMs(ticks, from, until - 1));
    } else {
      assert Times(low, 0) == 0.0 == Times(high, 0) by { TimesZero(low); TimesZero(high); }
    }
  }

  lemma TimesZero(value: real)
    ensures Times(value, 0) == 0.0
  {
  }

  lemma Quotient(sum: real, n: nat, low: real, high: real)
    requires n > 0 && Times(low, n) <= sum <= Times(high, n)
    ensures low <= sum / n as real <= high
  {
    var d := n as real;
    var x := sum / d;
    DivMul(sum, d);
    if x < low {
      MulLt(x, low, d);
    }
    if x > high {
      MulLt(high, x, d);
    }
  }

  /** Eviction changes no answer from the oldest retained tick onwards. */
  lemma EvictionChangesNothing(history: seq<Tick>, kept: nat, ms: int)
    requires Increasing(history) && kept < |history| && ms >= history[kept].observedMs
    ensures AtOrBefore(history[kept..], ms) == AtOrBefore(history, ms)
  {
    var ticks := history[kept..];
    assert Increasing(ticks);
    UpToSplits(history, ms);
    UpToSplits(ticks, ms);
    var n := UpTo(ticks, ms);
    assert ticks[0] == history[kept];
    assert n > 0 && ticks[n - 1] == history[kept + n - 1];
    if n < |ticks| {
      assert ticks[n] == history[kept + n];
    }
    LatestIs(history, kept + n - 1, ms);
  }

  /** So neither the average nor the coverage of an interval that starts there changes. */
  lemma {:induction false} EvictionKeepsAverage(history: seq<Tick>, kept: nat, from: int, until: int)
    requires Increasing(history) && kept < |history| && from >= history[kept].observedMs
    ensures SumMs(history[kept..], from, until) == SumMs(history, from, until)
    ensures CoveredMs(history[kept..], from, until) == CoveredMs(history, from, until)
    decreases until - from
  {
    if from < until {
      EvictionKeepsAverage(history, kept, from, until - 1);
      EvictionChangesNothing(history, kept, until - 1);
    }
  }
}
