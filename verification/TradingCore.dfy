/** The part of the core's decision step that moves money: poll and apply, settle resolved markets,
    resolve unknown orders, reconcile. The objects together take exactly the protocol's steps. */
module TradingCore {
  import opened Domain
  import opened PaperVenue
  import opened TradingDesk
  import opened OrderPath
  import opened OrderPathProof
  import opened PolledState
  import opened ReconciledState
  import Histories
  import Accounting
  import DeliverStep
  import Execution
  import ExecutionEngine
  import PaperExchange
  import R = Reconciler

  /** One lookup for each order that is UNKNOWN, and no other step. */
  ghost predicate EachUnknownOnce(e: Execution.Engine, steps: seq<Step>) {
    && NoRepeats(steps)
    && forall step :: step in steps <==> step.ResolveUnknown? && step.id in e.orders && e.orders[step.id].status.Unknown?
  }

  /** The UNKNOWN orders the venue has no event of, whose record is older than the timeout. */
  ghost predicate StuckAre(stuck: seq<IntentId>, e: Execution.Engine, v: Venue, now: int, timeoutMs: int) {
    && NoRepeats(stuck)
    && forall id :: id in stuck <==>
         id in e.orders && e.orders[id].status.Unknown? && NoEventOf(v, id) && now - e.orders[id].updatedMs > timeoutMs
  }

  class TradingCore {
    const setup: Setup
    const venue: PaperExchange.PaperExchange
    const engine: ExecutionEngine.ExecutionEngine
    const reconciler: R.Reconciler
    const reconcileEveryMs: int
    var clock: int
    var books: Books
    var lastReconMs: Option<int>
    var reconFailures: int

    function State(): Sys
      reads this, venue, engine, engine.portfolio
    {
      Sys(clock, books, venue.State(), engine.Desk())
    }

    ghost predicate Wired() {
      venue.cfg == setup.cfg && engine.maxInFlight == setup.maxInFlight
      && reconciler.tolerance.shares >= 0.0 && reconciler.tolerance.balance >= 0.0
    }

    constructor (setup: Setup, venue: PaperExchange.PaperExchange, engine: ExecutionEngine.ExecutionEngine, reconciler: R.Reconciler,
                 reconcileEveryMs: int, clock: int)
      requires venue.cfg == setup.cfg && engine.maxInFlight == setup.maxInFlight
      requires reconciler.tolerance.shares >= 0.0 && reconciler.tolerance.balance >= 0.0
      ensures Wired() && this.setup == setup && this.venue == venue && this.engine == engine && this.reconciler == reconciler
      ensures State() == Sys(clock, map[], venue.State(), engine.Desk()) && lastReconMs == None && reconFailures == 0
    {
      this.setup, this.venue, this.engine, this.reconciler := setup, venue, engine, reconciler;
      this.reconcileEveryMs, this.clock := reconcileEveryMs, clock;
      books, lastReconMs, reconFailures := map[], None, 0;
    }

    /** Everything the venue queued is applied, and the portfolio refuses none of it. */
    method PollExecution(ghost w: World)
      requires Wired() && Holds(setup, w) && w.sys == State()
      modifies venue, engine, engine.portfolio
      ensures Holds(setup, NextWorld(setup, w, PollAndApply)) && State() == NextWorld(setup, w, PollAndApply).sys
      ensures JustPolled(NextWorld(setup, w, PollAndApply))
    {
      hide Holds, DeliverAll, Advance, Drained;
      PollParts(setup, w);
      var events := venue.PollEvents(books, clock);
      var raised := engine.ApplyEvents(events);
    }

    /** Both ledgers are settled; right after a poll that is a legal step of the protocol. */
    method SettleOne(r: Resolved, ghost w: World)
      requires Wired() && Holds(setup, w) && w.sys == State() && JustPolled(w) && Settleable(setup, w.sys, r)
      modifies venue, engine.portfolio
      ensures Enabled(setup, w.sys, w.aux, SettleMarket(r.condition, r.winner, r.loser))
      ensures var after := NextWorld(setup, w, SettleMarket(r.condition, r.winner, r.loser));
        Holds(setup, after) && State() == after.sys && JustPolled(after)
      ensures engine.State() == old(engine.State()) && clock == old(clock)
      ensures engine.portfolio.cash
        == old(engine.portfolio.cash) + Accounting.SharesOf(old(engine.portfolio.positions), r.winner.tokenId)
      ensures forall p :: p in engine.portfolio.positions <==> p in old(engine.portfolio.positions) && p.conditionId != r.condition
    {
      hide Holds, Accounting.Settle, AllDeliveredOn, NoPendingSellOn, Accounting.SharesOf;
      SettleIsExact(setup, w, r);
      var _ := engine.portfolio.Settle(r.condition, r.winner.outcome, clock);
      var _ := venue.Settle(r.winner.tokenId, r.loser.tokenId);
    }

    /** One order's lookup right after a poll: nothing changes. */
    method LookUp(id: IntentId, ghost w: World) returns (late: bool)
      requires Wired() && Holds(setup, w) && w.sys == State() && JustPolled(w) && id in engine.orders
      modifies engine, engine.portfolio
      ensures State() == old(State())
      ensures late <==> NoEventOf(w.sys.venue, id) && clock - w.sys.desk.engine.orders[id].updatedMs > engine.unknownTimeoutMs
    {
      hide Holds, NextWorld, JustPolled, NoEventOf, DeliverAll, ValidEvent;
      HistoryValid(setup, w);
      LookupChangesNothing(setup, w, id);
      var raised;
      late, raised := engine.ResolveOne(id, venue, clock);
    }

    /** Every order that is UNKNOWN is looked up, once; right after a poll that changes nothing. Stuck
        are exactly those the venue knows nothing of for longer than the timeout. */
    method ResolveUnknowns(ghost w: World) returns (stuck: seq<IntentId>, ghost steps: seq<Step>)
      requires Wired() && Holds(setup, w) && w.sys == State() && JustPolled(w)
      modifies engine, engine.portfolio
      ensures State() == old(State()) && EnabledRun(setup, w, steps) && Run(setup, w, steps) == w
      ensures EachUnknownOnce(engine.State(), steps)
      ensures StuckAre(stuck, engine.State(), venue.State(), clock, engine.unknownTimeoutMs)
    {
      hide Holds, NextWorld, Enabled, Run, EnabledRun, JustPolled, NoEventOf;
      var ids := engine.UnknownOrders();
      NothingRun(setup, w);
      UnknownListed(setup, w);
      stuck, steps := [], [];
      for i := 0 to |ids|
        invariant State() == old(State()) && EnabledRun(setup, w, steps) && Run(setup, w, steps) == w
        invariant |steps| == i && forall k :: 0 <= k < i ==> steps[k] == ResolveUnknown(ids[k])
        invariant NoRepeats(stuck)
        invariant forall id :: id in stuck <==>
          id in ids[..i] && NoEventOf(w.sys.venue, id) && clock - w.sys.desk.engine.orders[id].updatedMs > engine.unknownTimeoutMs
      {
        assert ids[i] in ids;
        var id := ids[i];
        UnknownIsEnabled(setup, w, id);
        LookupStays(setup, w, id);
        var late := LookUp(id, w);
        OneMoreStep(setup, w, steps, ResolveUnknown(id));
        steps := steps + [ResolveUnknown(id)];
        assert ids[..i + 1] == ids[..i] + [id];
        if late {
          stuck := stuck + [id];
        }
      }
      assert ids[..|ids|] == ids;
      LookupsListed(w.sys.desk.engine, ids, steps);
    }

    /** Only when due and no order is open; then it always passes and finds nothing. */
    method MaybeReconcile(ghost w: World) returns (report: Option<R.Report>)
      requires Wired() && Holds(setup, w) && w.sys == State()
      modifies this`lastReconMs, this`reconFailures
      ensures report.Some? <==>
        && (old(lastReconMs).None? || clock - old(lastReconMs).value >= reconcileEveryMs)
        && forall id :: id in engine.orders ==> !engine.orders[id].status.IsOpen()
      ensures report.Some? ==> report.value.ok && (forall m :: m !in report.value.mismatches) && reconFailures == 0 && lastReconMs == Some(clock)
      ensures report.None? ==> reconFailures == old(reconFailures) && lastReconMs == old(lastReconMs)
    {
      hide Holds, LocalOf, AccountOf;
      OrdersListed(setup, w);
      var due := lastReconMs.None? || clock - lastReconMs.value >= reconcileEveryMs;
      var idle := NoneOpen();
      if !due || !idle {
        return None;
      }
      lastReconMs := Some(clock);
      ReconciliationPasses(setup, w, reconciler.tolerance);
      var r := reconciler.Compare(LocalOf(State()), AccountOf(venue.State()));
      reconFailures := if r.ok then 0 else reconFailures + 1;
      report := Some(r);
    }

    method NoneOpen() returns (none: bool)
      ensures none <==> forall id :: id in engine.intents ==> !(id in engine.orders && engine.orders[id].status.IsOpen())
    {
      for i := 0 to |engine.intents|
        invariant forall j :: 0 <= j < i ==> !(engine.intents[j] in engine.orders && engine.orders[engine.intents[j]].status.IsOpen())
      {
        if engine.intents[i] in engine.orders && engine.orders[engine.intents[i]].status.IsOpen() {
          return false;
        }
      }
      none := true;
    }

    /** One decision step's money moves are a run of legal protocol steps: one poll, one settlement for
        each resolved market, one lookup for each order then UNKNOWN. The settlements close every
        position of the resolved markets and pay the winning shares held after the poll, on both
        sides, and touch nothing else; the two ledgers are equal at the end; only orders unknown for
        too long are stuck; and reconciliation runs, and passes, exactly when it is due and no order
        is open. */
    method Step(resolved: seq<Resolved>, ghost w: World) returns (stuck: seq<IntentId>, ghost steps: seq<Step>)
      requires Wired() && Holds(setup, w) && w.sys == State() && reconFailures == 0
      requires OnceEach(resolved)
      requires forall i :: 0 <= i < |resolved| ==> Settleable(setup, NextWorld(setup, w, PollAndApply).sys, resolved[i])
      modifies this, venue, engine, engine.portfolio
      ensures EnabledRun(setup, w, steps) && Holds(setup, Run(setup, w, steps)) && State() == Run(setup, w, steps).sys
      ensures JustPolled(Run(setup, w, steps)) && reconFailures == 0
      ensures |steps| > |resolved| && steps[0] == PollAndApply && EachUnknownOnce(engine.State(), steps[1 + |resolved|..])
      ensures forall i :: 0 <= i < |resolved| ==>
        steps[1 + i] == SettleMarket(resolved[i].condition, resolved[i].winner, resolved[i].loser)
      ensures SettledSoFar(NextWorld(setup, w, PollAndApply).sys, State(), resolved, |resolved|)
      ensures forall i :: 0 <= i < |resolved| ==>
        && (forall p :: p in engine.portfolio.positions ==> p.conditionId != resolved[i].condition)
        && venue.State().Held(resolved[i].winner.tokenId) == 0.0 && venue.State().Held(resolved[i].loser.tokenId) == 0.0
      ensures var polled := NextWorld(setup, w, PollAndApply).sys;
        && engine.portfolio.cash == polled.desk.ledger.cash + Winnings(polled.desk.ledger.positions, resolved, |resolved|)
        && venue.cash == polled.venue.cash + Winnings(polled.desk.ledger.positions, resolved, |resolved|)
      ensures venue.cash == engine.portfolio.cash
      ensures forall t: TokenId :: venue.State().Held(t) == Accounting.SharesOf(engine.portfolio.positions, t)
      ensures StuckAre(stuck, engine.State(), venue.State(), clock, engine.unknownTimeoutMs)
      ensures clock == old(clock) && books == old(books)
      ensures lastReconMs
        == if (old(lastReconMs).None? || clock - old(lastReconMs).value >= reconcileEveryMs)
              && forall id :: id in engine.orders ==> !engine.orders[id].status.IsOpen()
           then Some(clock) else old(lastReconMs)
    {
      hide Holds, NextWorld, NoPendingSellOn, Enabled, JustPolled, Run, EnabledRun, PairOf, Winnings, Accounting.SharesOf, NoEventOf;
      PollExecution(w);
      PollEnabled(setup, w);
      steps := [PollAndApply];
      ghost var at := NextWorld(setup, w, PollAndApply);
      ghost var polled := at.sys;
      NothingSettled(polled, resolved);
      for i := 0 to |resolved|
        invariant at == Run(setup, w, steps) && EnabledRun(setup, w, steps)
        invariant Holds(setup, at) && State() == at.sys && JustPolled(at)
        invariant SettledSoFar(polled, at.sys, resolved, i) && reconFailures == 0 && lastReconMs == old(lastReconMs)
        invariant |steps| == 1 + i && steps[0] == PollAndApply
        invariant forall j :: 0 <= j < i ==> steps[1 + j] == SettleMarket(resolved[j].condition, resolved[j].winner, resolved[j].loser)
      {
        var r := resolved[i];
        SamePending(setup, polled, at.sys, r);
        OneMoreSettled(setup, polled, w, at, resolved, i);
        SettleOne(r, at);
        OneMoreStep(setup, w, steps, SettleMarket(r.condition, r.winner, r.loser));
        steps := steps + [SettleMarket(r.condition, r.winner, r.loser)];
        at := NextWorld(setup, at, SettleMarket(r.condition, r.winner, r.loser));
      }
      AllSettled(setup, polled, at, resolved);
      PolledLedgersAgree(setup, NextWorld(setup, w, PollAndApply));
      ghost var more;
      stuck, more := ResolveUnknowns(at);
      RunsJoin(setup, w, steps, more);
      assert (steps + more)[1 + |resolved|..] == more;
      steps := steps + more;
      var report := MaybeReconcile(at);
    }
  }

  lemma NothingRun(setup: Setup, w: World)
    ensures EnabledRun(setup, w, []) && Run(setup, w, []) == w
  {
  }

  lemma PollEnabled(setup: Setup, w: World)
    ensures EnabledRun(setup, w, [PollAndApply]) && Run(setup, w, [PollAndApply]) == NextWorld(setup, w, PollAndApply)
  {
    hide NextWorld;
    assert [PollAndApply][1..] == [];
    assert Run(setup, NextWorld(setup, w, PollAndApply), []) == NextWorld(setup, w, PollAndApply);
  }

  lemma {:induction false} RunsJoin(setup: Setup, w: World, a: seq<Step>, b: seq<Step>)
    requires EnabledRun(setup, w, a) && EnabledRun(setup, Run(setup, w, a), b)
    ensures EnabledRun(setup, w, a + b) && Run(setup, w, a + b) == Run(setup, Run(setup, w, a), b)
    decreases |a|
  {
    hide NextWorld, Enabled;
    if a == [] {
      assert a + b == b;
    } else {
      RunsJoin(setup, NextWorld(setup, w, a[0]), a[1..], b);
      assert (a + b)[0] == a[0] && (a + b)[1..] == a[1..] + b;
    }
  }

  lemma OneMoreStep(setup: Setup, w: World, steps: seq<Step>, step: Step)
    requires EnabledRun(setup, w, steps)
    requires var at := Run(setup, w, steps); Enabled(setup, at.sys, at.aux, step)
    ensures EnabledRun(setup, w, steps + [step]) && Run(setup, w, steps + [step]) == NextWorld(setup, Run(setup, w, steps), step)
  {
    hide NextWorld, Enabled;
    var at := Run(setup, w, steps);
    assert [step][1..] == [];
    assert EnabledRun(setup, NextWorld(setup, at, step), []) && Run(setup, NextWorld(setup, at, step), []) == NextWorld(setup, at, step);
    RunsJoin(setup, w, steps, [step]);
  }

  // ---------------------------------------------------------------- the settlements of one step

  lemma NothingSettled(polled: Sys, resolved: seq<Resolved>)
    ensures SettledSoFar(polled, polled, resolved, 0)
  {
  }

  /** The next market's settlement is exact, and pays what the market held right after the poll. */
  lemma OneMoreSettled(setup: Setup, polled: Sys, w: World, at: World, resolved: seq<Resolved>, i: nat)
    requires Holds(setup, w) && polled == NextWorld(setup, w, PollAndApply).sys
    requires Holds(setup, at) && JustPolled(at) && i < |resolved| && OnceEach(resolved)
    requires SettledSoFar(polled, at.sys, resolved, i) && Settleable(setup, at.sys, resolved[i])
    ensures SettledSoFar(polled, NextWorld(setup, at, SettleMarket(resolved[i].condition, resolved[i].winner, resolved[i].loser)).sys,
                         resolved, i + 1)
  {
    hide Holds, JustPolled, Enabled, NextWorld, LedgerOk, Setup.Valid, Accounting.Settle, Accounting.SharesOf, Core, NoPendingSellOn, PairOf;
    PollParts(setup, w);
    ParamsOf(setup, NextWorld(setup, w, PollAndApply));
    ParamsOf(setup, at);
    SettleIsExact(setup, at, resolved[i]);
    NotYetSettled(setup, polled, at.sys, resolved, i);
  }

  lemma AllSettled(setup: Setup, polled: Sys, at: World, resolved: seq<Resolved>)
    requires Holds(setup, at) && JustPolled(at) && SettledSoFar(polled, at.sys, resolved, |resolved|)
    requires forall i :: 0 <= i < |resolved| ==> Settleable(setup, polled, resolved[i])
    ensures forall i :: 0 <= i < |resolved| ==>
      && (forall p :: p in at.sys.desk.ledger.positions ==> p.conditionId != resolved[i].condition)
      && at.sys.venue.Held(resolved[i].winner.tokenId) == 0.0 && at.sys.venue.Held(resolved[i].loser.tokenId) == 0.0
    ensures at.sys.venue.cash == at.sys.desk.ledger.cash
    ensures forall t: TokenId :: at.sys.venue.Held(t) == Accounting.SharesOf(at.sys.desk.ledger.positions, t)
  {
    hide Holds, JustPolled, Winnings, NoPendingSellOn, PairOf;
    NothingLeft(setup, polled, at, resolved);
    PolledLedgersAgree(setup, at);
  }

  // ---------------------------------------------------------------- the orders of one step

  lemma HistoryValid(setup: Setup, w: World)
    requires Holds(setup, w)
    ensures forall q :: 0 <= q < |w.sys.venue.history| ==> ValidEvent(w.sys.venue.history[q].event)
  {
    hide IntentsOk, AllPendingOk, StreamsOk, Coupled, CashCovers, SharesCover, LedgerOk, Histories.StreamOf, PolledOk, QueueOk;
    forall q | 0 <= q < |w.sys.venue.history|
      ensures ValidEvent(w.sys.venue.history[q].event)
    {
      assert EntryOk(w.aux, w.sys.venue.history[q]);
    }
  }

  lemma {:induction false} UnknownDistinct(e: Execution.Engine, ids: seq<IntentId>)
    requires NoRepeats(ids)
    ensures var u := Execution.UnknownIds(e, ids);
      && NoRepeats(u)
      && forall id :: id in u <==> id in ids && Execution.IsUnknownOrder(e, id)
  {
    if ids != [] {
      forall i, j | 0 <= i < j < |ids[1..]|
        ensures ids[1..][i] != ids[1..][j]
      {
        assert ids[1..][i] == ids[i + 1] && ids[1..][j] == ids[j + 1];
      }
      UnknownDistinct(e, ids[1..]);
      var u := Execution.UnknownIds(e, ids[1..]);
      forall i | 0 <= i < |u|
        ensures u[i] != ids[0]
      {
        assert u[i] in ids[1..];
        var k :| 0 <= k < |ids[1..]| && ids[1..][k] == u[i];
        assert ids[k + 1] == u[i];
      }
    }
  }

  /** The engine's list of UNKNOWN orders is complete and without repeats. */
  lemma UnknownListed(setup: Setup, w: World)
    requires Holds(setup, w)
    ensures var e := w.sys.desk.engine;
      var u := Execution.UnknownIds(e, e.intents);
      && NoRepeats(u)
      && forall id :: id in u <==> id in e.orders && e.orders[id].status.Unknown?
  {
    hide Holds, Execution.UnknownIds;
    IntentsApart(setup, w);
    OrdersListed(setup, w);
    UnknownDistinct(w.sys.desk.engine, w.sys.desk.engine.intents);
  }

  lemma LookupStays(setup: Setup, w: World, id: IntentId)
    requires Holds(setup, w) && JustPolled(w) && id in w.sys.desk.engine.orders
    ensures NextWorld(setup, w, ResolveUnknown(id)) == w
  {
    hide *;
    LookupChangesNothing(setup, w, id);
  }

  lemma UnknownIsEnabled(setup: Setup, w: World, id: IntentId)
    requires id in w.sys.desk.engine.orders && w.sys.desk.engine.orders[id].status.Unknown?
    ensures Enabled(setup, w.sys, w.aux, ResolveUnknown(id))
  {
  }

  lemma LookupsListed(e: Execution.Engine, ids: seq<IntentId>, steps: seq<Step>)
    requires NoRepeats(ids) && forall id :: id in ids <==> id in e.orders && e.orders[id].status.Unknown?
    requires |steps| == |ids| && forall k :: 0 <= k < |ids| ==> steps[k] == ResolveUnknown(ids[k])
    ensures EachUnknownOnce(e, steps)
  {
    forall step
      ensures step in steps <==> step.ResolveUnknown? && step.id in e.orders && e.orders[step.id].status.Unknown?
    {
      if step.ResolveUnknown? && step.id in e.orders && e.orders[step.id].status.Unknown? {
        assert step.id in ids;
        var k :| 0 <= k < |ids| && ids[k] == step.id;
        assert steps[k] == step;
      }
      if step in steps {
        var k :| 0 <= k < |steps| && steps[k] == step;
        assert ids[k] in ids;
      }
    }
  }

  lemma IntentsApart(setup: Setup, w: World)
    requires Holds(setup, w)
    ensures NoRepeats(w.sys.desk.engine.intents)
  {
    hide AllPendingOk, HistoryOk, StreamsOk, Coupled, CashCovers, SharesCover, LedgerOk, PolledOk, QueueOk, KnownIntent;
  }

  lemma SamePending(setup: Setup, s: Sys, s': Sys, r: Resolved)
    requires Settleable(setup, s, r) && s'.venue.pending == s.venue.pending
    ensures Settleable(setup, s', r)
  {
  }

  lemma PollParts(setup: Setup, w: World)
    requires Holds(setup, w)
    ensures ValidEvents(Advance(setup.cfg, w.sys.venue, w.sys.books, w.sys.clock).events)
    ensures Holds(setup, NextWorld(setup, w, PollAndApply)) && JustPolled(NextWorld(setup, w, PollAndApply))
    ensures !NextWorld(setup, w, PollAndApply).sys.desk.raised
  {
    hide Inv, Advance, DeliverAll, Drained;
    PollKeeps(setup, w.sys, w.aux, w.polled);
    PollKeepsInv(setup, w);
    NotRaised(setup, NextWorld(setup, w, PollAndApply));
  }

  lemma OrdersListed(setup: Setup, w: World)
    requires Holds(setup, w)
    ensures forall id :: id in w.sys.desk.engine.orders ==> id in w.sys.desk.engine.intents
  {
    hide AllPendingOk, HistoryOk, Coupled, CashCovers, SharesCover, Histories.StreamOf;
    forall id | id in w.sys.desk.engine.orders
      ensures id in w.sys.desk.engine.intents
    {
      DeliverStep.KnownOrder(setup, w.sys, w.aux, id);
    }
  }
}
