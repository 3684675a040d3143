/** Submission-rate bookkeeping and the automatic-recovery limiter: deques pruned from the front
    that count as the full history would, and what the counts guarantee over every window. */
module Rates {
  import opened Domain

  const MINUTE: int := 60_000
  const HOUR: int := 3_600_000
  const DAY: int := 86_400_000

  datatype Purpose = Entry | Exit

  datatype RateView = RateView(
    submissionsLastMinute: nat,
    submissionsLastHour: nat,
    submissionsLastDay: nat,
    exitsLastMinute: nat,
    lastSubmitByMarket: map<ConditionId, int>)

  /** How many of `times` are at most `window` before `now`. */
  function CountWithin(times: seq<int>, now: int, window: int): nat {
    if times == [] then 0 else (if now - times[0] <= window then 1 else 0) + CountWithin(times[1..], now, window)
  }

  ghost predicate NonDecreasing(times: seq<int>) {
    forall i, j :: 0 <= i <= j < |times| ==> times[i] <= times[j]
  }

  ghost predicate AllBefore(times: seq<int>, limit: int) {
    forall i :: 0 <= i < |times| ==> times[i] < limit
  }

  lemma {:induction false} CountAppend(a: seq<int>, b: seq<int>, now: int, window: int)
    ensures CountWithin(a + b, now, window) == CountWithin(a, now, window) + CountWithin(b, now, window)
  {
    if a == [] {
      assert a + b == b;
    } else {
      CountAppend(a[1..], b, now, window);
      assert (a + b)[1..] == a[1..] + b;
    }
  }

  lemma {:induction false} CountNone(times: seq<int>, now: int, window: int)
    requires AllBefore(times, now - window)
    ensures CountWithin(times, now, window) == 0
  {
    if times != [] {
      CountNone(times[1..], now, window);
    }
  }

  lemma {:induction false} CountAll(times: seq<int>, now: int, window: int)
    requires forall i :: 0 <= i < |times| ==> now - times[i] <= window
    ensures CountWithin(times, now, window) == |times|
  {
    if times != [] {
      CountAll(times[1..], now, window);
    }
  }

  lemma {:induction false} CountAtMost(times: seq<int>, now: int, window: int)
    ensures CountWithin(times, now, window) <= |times|
  {
    if times != [] {
      CountAtMost(times[1..], now, window);
    }
  }

  /** A deque pruned to `window` counts, for any window no longer, like the full history. */
  ghost predicate Pruned(all: seq<int>, kept: seq<int>, clock: int, window: int) {
    && |kept| <= |all| && all[|all| - |kept|..] == kept
    && AllBefore(all[..|all| - |kept|], clock - window)
    && NonDecreasing(all) && forall i :: 0 <= i < |all| ==> all[i] <= clock
  }

  lemma PrunedCountsTheSame(all: seq<int>, kept: seq<int>, clock: int, longest: int, now: int, window: int)
    requires Pruned(all, kept, clock, longest) && clock <= now && window <= longest
    ensures CountWithin(all, now, window) == CountWithin(kept, now, window)
  {
    var gone := all[..|all| - |kept|];
    assert all == gone + kept;
    CountAppend(gone, kept, now, window);
    CountNone(gone, now, window);
  }

  /** Drops from the front whatever is more than `window` before `now`. */
  method Prune(kept: seq<int>, now: int, window: int, ghost all: seq<int>, ghost clock: int) returns (rest: seq<int>)
    requires Pruned(all, kept, clock, window) && clock <= now
    ensures Pruned(all, rest, now, window)
    ensures |rest| == CountWithin(all, now, window)
  {
    rest := kept;
    while rest != [] && now - rest[0] > window
      invariant Pruned(all, rest, now, window)
    {
      rest := rest[1..];
    }
    forall i | 0 <= i < |rest|
      ensures now - rest[i] <= window
    {
      assert rest[i] == all[|all| - |rest| + i] && rest[0] == all[|all| - |rest|];
    }
    CountAll(rest, now, window);
    PrunedCountsTheSame(all, rest, now, window, now, window);
  }

  ghost function ViewOf(entries: seq<int>, exits: seq<int>, last: map<ConditionId, int>, now: int): RateView {
    RateView(CountWithin(entries, now, MINUTE), CountWithin(entries, now, HOUR), CountWithin(entries, now, DAY),
             CountWithin(exits, now, MINUTE), last)
  }

  class RateTracker {
    var entries: seq<int>
    var exits: seq<int>
    var lastByMarket: map<ConditionId, int>
    ghost var allEntries: seq<int>
    ghost var allExits: seq<int>
    ghost var clock: int

    ghost predicate Valid()
      reads this
    {
      Pruned(allEntries, entries, clock, DAY) && Pruned(allExits, exits, clock, MINUTE)
    }

    constructor (ghost start: int)
      ensures Valid() && clock == start && allEntries == [] && allExits == [] && lastByMarket == map[]
    {
      entries, exits, lastByMarket := [], [], map[];
      allEntries, allExits, clock := [], [], start;
    }

    method Record(ts: int, condition: ConditionId, purpose: Purpose)
      requires Valid() && clock <= ts
      modifies this
      ensures Valid() && clock == ts
      ensures allEntries == old(allEntries) + (if purpose.Entry? then [ts] else [])
      ensures allExits == old(allExits) + (if purpose.Exit? then [ts] else [])
      ensures lastByMarket == old(lastByMarket)[condition := ts]
    {
      if purpose.Entry? {
        assert (allEntries + [ts])[..|allEntries| - |entries|] == allEntries[..|allEntries| - |entries|];
        entries, allEntries := entries + [ts], allEntries + [ts];
      } else {
        assert (allExits + [ts])[..|allExits| - |exits|] == allExits[..|allExits| - |exits|];
        exits, allExits := exits + [ts], allExits + [ts];
      }
      lastByMarket := lastByMarket[condition := ts];
      clock := ts;
    }

    /** Counts exactly as the full history would. */
    method View(now: int) returns (view: RateView)
      requires Valid() && clock <= now
      modifies this`entries, this`exits, this`clock
      ensures Valid() && clock == now
      ensures view == ViewOf(allEntries, allExits, lastByMarket, now)
      ensures view.submissionsLastMinute == CountWithin(allEntries, now, 60_000) && view.exitsLastMinute == CountWithin(allExits, now, 60_000)
      ensures view.submissionsLastHour == CountWithin(allEntries, now, 3_600_000)
      ensures view.submissionsLastDay == CountWithin(allEntries, now, 86_400_000)
    {
      entries := Prune(entries, now, DAY, allEntries, clock);
      exits := Prune(exits, now, MINUTE, allExits, clock);
      clock := now;
      var minute := Count(entries, now, MINUTE);
      var hour := Count(entries, now, HOUR);
      PrunedCountsTheSame(allEntries, entries, now, DAY, now, MINUTE);
      PrunedCountsTheSame(allEntries, entries, now, DAY, now, HOUR);
      view := RateView(minute, hour, |entries|, |exits|, lastByMarket);
    }
  }

  method Count(times: seq<int>, now: int, window: int) returns (n: nat)
    ensures n == CountWithin(times, now, window)
  {
    n := 0;
    var i := 0;
    while i < |times|
      invariant i <= |times|
      invariant n + CountWithin(times[i..], now, window) == CountWithin(times, now, window)
    {
      assert times[i..][0] == times[i] && times[i..][1..] == times[i + 1..];
      if now - times[i] <= window {
        n := n + 1;
      }
      i := i + 1;
    }
  }

  // ---------------------------------------------------------------- every window

  /** Event `i` was let through by a look at `looks[i]`, between the event before it and its own
      time, that counted fewer than `limit` within the window. */
  ghost predicate Gated(times: seq<int>, looks: seq<int>, window: int, limit: nat) {
    && |looks| == |times|
    && forall i :: 0 <= i < |times| ==> CountWithin(times[..i], looks[i], window) < limit
  }

  ghost predicate Looked(times: seq<int>, looks: seq<int>) {
    && |looks| == |times| && NonDecreasing(times)
    && (forall i :: 0 <= i < |times| ==> looks[i] <= times[i])
    && forall i, j :: 0 <= i < j < |times| ==> times[i] <= looks[j]
  }

  ghost predicate Spaced(times: seq<int>, looks: seq<int>, window: int, limit: nat)
    requires |looks| == |times|
  {
    forall i :: 0 <= i && i + limit < |times| ==> looks[i + limit] - times[i] > window
  }

  /** The gate is exactly the sliding-window limit: it lets every event through just when any
      `limit + 1` consecutive events span more than the window. */
  lemma GateIsSlidingWindow(times: seq<int>, looks: seq<int>, window: int, limit: nat)
    requires Looked(times, looks) && limit > 0
    ensures Gated(times, looks, window, limit) <==> Spaced(times, looks, window, limit)
    ensures Gated(times, looks, window, limit) ==> forall i :: 0 <= i && i + limit < |times| ==> times[i + limit] - times[i] > window
  {
    forall j | 0 <= j < |times|
      ensures CountWithin(times[..j], looks[j], window) < limit <==> (j >= limit ==> looks[j] - times[j - limit] > window)
    {
      GateAt(times, looks, window, limit, j);
    }
    if Gated(times, looks, window, limit) {
      forall i | 0 <= i && i + limit < |times|
        ensures looks[i + limit] - times[i] > window
      {
        assert CountWithin(times[..i + limit], looks[i + limit], window) < limit;
      }
    }
    if Spaced(times, looks, window, limit) {
      forall j | 0 <= j < |times|
        ensures CountWithin(times[..j], looks[j], window) < limit
      {
        if j >= limit {
          assert looks[(j - limit) + limit] - times[j - limit] > window;
        }
      }
    }
  }

  lemma GateAt(times: seq<int>, looks: seq<int>, window: int, limit: nat, j: nat)
    requires Looked(times, looks) && j < |times| && limit > 0
    ensures CountWithin(times[..j], looks[j], window) < limit <==> (j >= limit ==> looks[j] - times[j - limit] > window)
  {
    var prior := times[..j];
    if j < limit {
      CountAtMost(prior, looks[j], window);
    } else {
      var k := j - limit;
      if looks[j] - times[k] > window {
        assert prior == prior[..k + 1] + prior[k + 1..];
        CountAppend(prior[..k + 1], prior[k + 1..], looks[j], window);
        CountNone(prior[..k + 1], looks[j], window);
        CountAtMost(prior[k + 1..], looks[j], window);
      } else {
        assert prior == prior[..k] + prior[k..];
        CountAppend(prior[..k], prior[k..], looks[j], window);
        CountAll(prior[k..], looks[j], window);
      }
    }
  }

  // ---------------------------------------------------------------- automatic recoveries

  datatype Recovery = TooMany | Blocked | Recovered

  /** The core's limiter of automatic recoveries from HALTED. */
  class RecoveryLimiter {
    const limit: nat
    var recoveries: seq<int>
    ghost var all: seq<int>
    ghost var clock: int

    ghost predicate Valid()
      reads this
    {
      Pruned(all, recoveries, clock, HOUR)
    }

    constructor (limit: nat, ghost start: int)
      ensures Valid() && this.limit == limit && all == [] && clock == start
    {
      this.limit := limit;
      recoveries, all, clock := [], [], start;
    }

    /** One step in HALTED without the manual-only flag; `blockers` says whether any remain. */
    method TryRecover(now: int, blockers: bool) returns (r: Recovery)
      requires Valid() && clock <= now
      modifies this
      ensures Valid() && clock == now
      ensures r == (if CountWithin(old(all), now, 3_600_000) >= limit then TooMany else if blockers then Blocked else Recovered)
      ensures all == old(all) + (if r.Recovered? then [now] else [])
    {
      recoveries := Prune(recoveries, now, HOUR, all, clock);
      clock := now;
      if |recoveries| >= limit {
        return TooMany;
      }
      if blockers {
        return Blocked;
      }
      assert (all + [now])[..|all| - |recoveries|] == all[..|all| - |recoveries|];
      recoveries, all := recoveries + [now], all + [now];
      r := Recovered;
    }
  }

  datatype Attempt = Attempt(now: int, blockers: bool)

  /** The recoveries that a sequence of attempts leaves, as the limiter's contract decides each. */
  ghost function Recoveries(limit: nat, attempts: seq<Attempt>): seq<int> {
    if attempts == [] then []
    else
      var n := |attempts| - 1;
      var before := Recoveries(limit, attempts[..n]);
      if CountWithin(before, attempts[n].now, HOUR) < limit && !attempts[n].blockers then before + [attempts[n].now] else before
  }

  ghost predicate Forward(attempts: seq<Attempt>) {
    forall i, j :: 0 <= i <= j < |attempts| ==> attempts[i].now <= attempts[j].now
  }

  lemma OneMoreGated(times: seq<int>, now: int, window: int, limit: nat)
    requires NonDecreasing(times) && Gated(times, times, window, limit) && CountWithin(times, now, window) < limit
    requires forall t :: t in times ==> t <= now
    ensures NonDecreasing(times + [now]) && Gated(times + [now], times + [now], window, limit)
  {
    hide CountWithin;
    var after := times + [now];
    forall i | 0 <= i < |times|
      ensures times[i] in times
    {
    }
    forall i | 0 <= i < |after|
      ensures CountWithin(after[..i], after[i], window) < limit
    {
      assert after[..i] == times[..i];
      assert i == |times| ==> times[..i] == times;
    }
  }

  lemma {:induction false} RecoveriesBefore(limit: nat, attempts: seq<Attempt>, now: int)
    requires forall i :: 0 <= i < |attempts| ==> attempts[i].now <= now
    ensures forall t :: t in Recoveries(limit, attempts) ==> t <= now
  {
    if attempts != [] {
      RecoveriesBefore(limit, attempts[..|attempts| - 1], now);
    }
  }

  lemma {:induction false} RecoveriesAreGated(limit: nat, attempts: seq<Attempt>)
    requires Forward(attempts)
    ensures var times := Recoveries(limit, attempts); NonDecreasing(times) && Gated(times, times, HOUR, limit)
  {
    hide CountWithin, Gated, NonDecreasing;
    if attempts == [] {
      assert Gated([], [], HOUR, limit) && NonDecreasing([]) by { NoneGated(limit); }
    } else {
      var n := |attempts| - 1;
      RecoveriesAreGated(limit, attempts[..n]);
      var before := Recoveries(limit, attempts[..n]);
      RecoveriesBefore(limit, attempts[..n], attempts[n].now);
      if CountWithin(before, attempts[n].now, HOUR) < limit {
        OneMoreGated(before, attempts[n].now, HOUR, limit);
      }
    }
  }

  lemma NoneGated(limit: nat)
    ensures Gated([], [], HOUR, limit) && NonDecreasing([])
  {
  }

  /** Any `limit + 1` automatic recoveries span more than an hour. */
  lemma RecoveriesSpanAnHour(limit: nat, attempts: seq<Attempt>)
    requires Forward(attempts) && limit > 0
    ensures var times := Recoveries(limit, attempts);
      forall i :: 0 <= i && i + limit < |times| ==> times[i + limit] - times[i] > 3_600_000
  {
    RecoveriesAreGated(limit, attempts);
    var times := Recoveries(limit, attempts);
    GateIsSlidingWindow(times, times, HOUR, limit);
  }
}
