/** What a poll leaves to do: right after it nothing is on its way, so the two ledgers are equal even
    with orders still open, a settlement pays exactly the winning shares both sides hold, and looking
    up an order brings nothing new. */
module PolledState {
  import opened Domain
  import opened PaperVenue
  import opened TradingDesk
  import opened OrderPath
  import opened OrderPathProof
  import Histories
  import Accounting
  import DeliverStep
  import LedgerFacts
  import SettleStep

  /** Right after a poll every fill the venue ever made has been delivered. */
  ghost predicate JustPolled(w: World) {
    w.polled == |w.sys.venue.history|
  }

  /** So a settlement in the same step finds nothing on its way, on any token. */
  lemma NothingOnItsWayAfterPoll(setup: Setup, w: World, token: TokenId)
    requires Holds(setup, w) && JustPolled(w)
    ensures AllDeliveredOn(w.sys, token)
  {
    hide Histories.StreamOf, IntentsOk, AllPendingOk, Coupled, CashCovers, SharesCover, LedgerOk, StreamsOk;
    var s, a := w.sys, w.aux;
    assert s.venue.history[..w.polled] == s.venue.history;
    forall q | 0 <= q < |s.venue.history| && s.venue.history[q].event.FillEvent?
               && s.venue.history[q].event.fill.tokenId == token
      ensures s.venue.history[q].event.fill.fillId in s.desk.engine.fillIds
    {
      assert EntryOk(a, s.venue.history[q]);
      var id := s.venue.history[q].event.IntentId().value;
      Histories.EntryInStream(s.venue.history, q, id);
      DeliverStep.KnownOrder(setup, s, a, id);
    }
  }

  /** The two ledgers are equal right after a poll, whatever orders are open. */
  lemma PolledLedgersAgree(setup: Setup, w: World)
    requires Holds(setup, w) && JustPolled(w)
    ensures w.sys.venue.cash == w.sys.desk.ledger.cash
    ensures forall t: TokenId :: w.sys.venue.Held(t) == Accounting.SharesOf(w.sys.desk.ledger.positions, t)
  {
    hide Histories.StreamOf, Histories.Undelivered, Accounting.SharesOf, IntentsOk, HistoryOk, StreamsOk, CashCovers, SharesCover, LedgerOk,
      AllPendingOk, JustPolled;
    var s := w.sys;
    forall q | 0 <= q < |s.venue.history| && s.venue.history[q].event.FillEvent?
      ensures s.venue.history[q].event.fill.fillId in s.desk.engine.fillIds
    {
      NothingOnItsWayAfterPoll(setup, w, s.venue.history[q].event.fill.tokenId);
    }
    Histories.NothingUndelivered(s.venue.history, s.desk.engine.fillIds, CashDelta);
    forall t: TokenId
      ensures s.venue.Held(t) == Accounting.SharesOf(s.desk.ledger.positions, t)
    {
      Histories.NothingUndelivered(s.venue.history, s.desk.engine.fillIds, Histories.SharesIn(t));
    }
  }

  // ---------------------------------------------------------------- looking an order up

  lemma {:induction false} RepeatsChangeNothing(setup: Setup, s: Sys, a: Aux, id: IntentId, j: nat)
    requires Core(setup, s, a) && id in a.marks && j <= |Histories.StreamOf(s.venue.history, id)| == a.marks[id]
    ensures ValidEvents(Histories.StreamOf(s.venue.history, id)[j..])
    ensures DeliverAll(s.desk, Histories.StreamOf(s.venue.history, id)[j..]) == s.desk
    decreases |Histories.StreamOf(s.venue.history, id)| - j
  {
    hide Histories.StreamOf, Core, DeliverOne, ValidEvent;
    var stream := Histories.StreamOf(s.venue.history, id);
    if j < |stream| {
      DeliverStep.StreamEventsValid(setup, s, a, id, j);
      DeliverStep.RepeatChangesNothing(setup, s, a, id, j);
      RepeatsChangeNothing(setup, s, a, id, j + 1);
      assert stream[j..][1..] == stream[j + 1..];
      FirstValid(stream[j], stream[j + 1..]);
      assert [stream[j]] + stream[j + 1..] == stream[j..];
    }
  }

  lemma AllDelivered(setup: Setup, w: World, id: IntentId)
    requires Holds(setup, w) && JustPolled(w) && id in w.sys.desk.engine.orders
    ensures id in w.aux.marks && w.aux.marks[id] == |Histories.StreamOf(w.sys.venue.history, id)|
  {
    hide Histories.StreamOf, Core, PolledOk, QueueOk;
    MarkKnown(setup, w, id);
    PolledMark(setup, w, id);
    assert w.sys.venue.history[..w.polled] == w.sys.venue.history;
  }

  lemma MarkKnown(setup: Setup, w: World, id: IntentId)
    requires Holds(setup, w) && id in w.sys.desk.engine.orders
    ensures id in w.aux.base && id in w.aux.marks && w.aux.marks[id] <= |Histories.StreamOf(w.sys.venue.history, id)|
  {
    hide Core, Histories.StreamOf, PolledOk, QueueOk, StreamsOk;
    CoreHistory(setup, w.sys, w.aux);
    DeliverStep.KnownOrder(setup, w.sys, w.aux, id);
  }

  lemma PolledMark(setup: Setup, w: World, id: IntentId)
    requires Holds(setup, w) && id in w.aux.base
    ensures w.polled <= |w.sys.venue.history| && id in w.aux.marks
    ensures |Histories.StreamOf(w.sys.venue.history[..w.polled], id)| <= w.aux.marks[id]
  {
    hide Core, QueueOk, Histories.StreamOf;
  }

  /** Looking an order up right after a poll finds its events, all of them delivered before, and so
      changes nothing at all. */
  lemma LookupChangesNothing(setup: Setup, w: World, id: IntentId)
    requires Holds(setup, w) && JustPolled(w) && id in w.sys.desk.engine.orders
    ensures var mine := Found(w.sys, w.sys.desk.engine.orders[id]);
      && ValidEvents(mine) && DeliverAll(w.sys.desk, mine) == w.sys.desk
      && (mine == [] <==> NoEventOf(w.sys.venue, id))
    ensures NextWorld(setup, w, ResolveUnknown(id)) == w && !w.sys.desk.raised
  {
    hide Core, Found, DeliverAll, Histories.StreamOf, PolledOk, QueueOk, NoEventOf, ValidEvents, JustPolled;
    ResolveKeeps(setup, w.sys, w.aux, w.polled, id);
    AllDelivered(setup, w, id);
    var stream := Histories.StreamOf(w.sys.venue.history, id);
    RepeatsChangeNothing(setup, w.sys, w.aux, id, 0);
    assert stream[0..] == stream;
    assert w.aux.marks[id := |stream|] == w.aux.marks;
    NoEventIsEmpty(w.sys.venue, id);
    NotRaised(setup, w);
  }

  /** The venue knows nothing of the order. */
  ghost predicate NoEventOf(v: Venue, id: IntentId) {
    forall q :: 0 <= q < |v.history| ==> v.history[q].event.IntentId() != Some(id)
  }

  lemma NoEventIsEmpty(v: Venue, id: IntentId)
    ensures Histories.StreamOf(v.history, id) == [] <==> NoEventOf(v, id)
  {
    if NoEventOf(v, id) {
      Histories.StreamIsEmpty(v.history, id);
    } else {
      var q :| 0 <= q < |v.history| && v.history[q].event.IntentId() == Some(id);
      Histories.EntryInStream(v.history, q, id);
    }
  }

  lemma NotRaised(setup: Setup, w: World)
    requires Holds(setup, w)
    ensures !w.sys.desk.raised
  {
    hide IntentsOk, AllPendingOk, HistoryOk, StreamsOk, Coupled, CashCovers, SharesCover;
  }

  // ---------------------------------------------------------------- settling the resolved markets

  /** A market the oracle resolved. */
  datatype Resolved = Resolved(condition: ConditionId, winner: Token, loser: Token)

  ghost predicate Settleable(setup: Setup, s: Sys, r: Resolved) {
    && r.condition in setup.markets && PairOf(setup.markets[r.condition], r.winner, r.loser)
    && NoPendingSellOn(s, r.winner.tokenId) && NoPendingSellOn(s, r.loser.tokenId)
  }

  /** The conditions are looked at once each. */
  ghost predicate OnceEach(resolved: seq<Resolved>) {
    forall i, j :: 0 <= i < j < |resolved| ==> resolved[i].condition != resolved[j].condition
  }

  /** What the first `n` resolved markets pay on these positions: the winning shares. */
  ghost function Winnings(positions: seq<Accounting.Position>, resolved: seq<Resolved>, n: nat): real
    requires n <= |resolved|
  {
    if n == 0 then 0.0
    else Winnings(positions, resolved, n - 1) + Accounting.SharesOf(positions, resolved[n - 1].winner.tokenId)
  }

  /** The first `n` markets are settled, and nothing else has changed. */
  ghost predicate SettledSoFar(was: Sys, s: Sys, resolved: seq<Resolved>, n: nat)
    requires n <= |resolved|
  {
    && s.clock == was.clock && s.books == was.books && s.desk.engine == was.desk.engine
    && s.venue.pending == was.venue.pending && s.venue.history == was.venue.history && s.venue.events == was.venue.events
    && s.desk.ledger.cash == was.desk.ledger.cash + Winnings(was.desk.ledger.positions, resolved, n)
    && forall p :: p in s.desk.ledger.positions <==>
         p in was.desk.ledger.positions && forall j :: 0 <= j < n ==> resolved[j].condition != p.conditionId
  }

  lemma OfMarket(setup: Setup, s: Sys, r: Resolved, i: nat)
    requires setup.Valid() && LedgerOk(setup, s) && r.condition in setup.markets && PairOf(setup.markets[r.condition], r.winner, r.loser)
    requires i < |s.desk.ledger.positions|
    ensures var p := s.desk.ledger.positions[i];
      p.tokenId == r.winner.tokenId || p.tokenId == r.loser.tokenId <==> p.conditionId == r.condition
  {
    assert PositionOk(setup, s.desk.ledger.positions[i]);
  }

  lemma SharesByMember(l: Accounting.Ledger, p: Accounting.Position)
    requires Accounting.WellKept(l) && p in l.positions
    ensures Accounting.SharesOf(l.positions, p.tokenId) == p.shares
  {
    var i :| 0 <= i < |l.positions| && l.positions[i] == p;
    LedgerFacts.SharesAt(l.positions, p.tokenId, i);
  }

  /** A market not settled yet still holds what it did. */
  lemma NotYetSettled(setup: Setup, was: Sys, s: Sys, resolved: seq<Resolved>, n: nat)
    requires setup.Valid() && LedgerOk(setup, was) && LedgerOk(setup, s) && n < |resolved| && OnceEach(resolved)
    requires SettledSoFar(was, s, resolved, n)
    requires resolved[n].condition in setup.markets && PairOf(setup.markets[resolved[n].condition], resolved[n].winner, resolved[n].loser)
    ensures Accounting.SharesOf(s.desk.ledger.positions, resolved[n].winner.tokenId)
      == Accounting.SharesOf(was.desk.ledger.positions, resolved[n].winner.tokenId)
  {
    hide PositionOk, Setup.Valid, PairOf, Winnings;
    var token := resolved[n].winner.tokenId;
    var now, before := s.desk.ledger.positions, was.desk.ledger.positions;
    var j := Accounting.IndexOf(before, token);
    if j < |before| {
      OfMarket(setup, was, resolved[n], j);
      assert before[j] in before;
      SharesByMember(was.desk.ledger, before[j]);
      SharesByMember(s.desk.ledger, before[j]);
    } else {
      forall k | 0 <= k < |now|
        ensures now[k].tokenId != token
      {
        assert now[k] in now;
      }
      LedgerFacts.SharesAbsent(now, token);
    }
  }

  lemma ParamsOf(setup: Setup, w: World)
    requires Holds(setup, w)
    ensures setup.Valid() && Core(setup, w.sys, w.aux) && LedgerOk(setup, w.sys)
  {
    hide IntentsOk, AllPendingOk, HistoryOk, StreamsOk, Coupled, CashCovers, SharesCover, LedgerOk, PolledOk, QueueOk;
  }

  /** One settlement, right after a poll. */
  lemma SettleIsExact(setup: Setup, w: World, r: Resolved)
    requires Holds(setup, w) && JustPolled(w) && Settleable(setup, w.sys, r)
    ensures var step := SettleMarket(r.condition, r.winner, r.loser);
      && Enabled(setup, w.sys, w.aux, step)
      && var after := NextWorld(setup, w, step);
        && Holds(setup, after) && JustPolled(after)
        && after.sys == w.sys.(venue := Settle(w.sys.venue, r.winner.tokenId, r.loser.tokenId),
                               desk := w.sys.desk.(ledger := after.sys.desk.ledger))
        && after.sys.desk.ledger == Accounting.Settle(w.sys.desk.ledger, r.condition, r.winner.outcome, w.sys.clock)
        && after.sys.desk.ledger.cash
             == w.sys.desk.ledger.cash + Accounting.SharesOf(w.sys.desk.ledger.positions, r.winner.tokenId)
        && forall p :: p in after.sys.desk.ledger.positions <==> p in w.sys.desk.ledger.positions && p.conditionId != r.condition
  {
    hide Core, Accounting.Settle, AllDeliveredOn, NoPendingSellOn, Accounting.SharesOf, PolledOk, QueueOk;
    NothingOnItsWayAfterPoll(setup, w, r.winner.tokenId);
    NothingOnItsWayAfterPoll(setup, w, r.loser.tokenId);
    var step := SettleMarket(r.condition, r.winner, r.loser);
    StepKeepsInv(setup, w, step);
    SettleStep.SettledCash(setup, w.sys, w.aux, step);
    ParamsOf(setup, w);
    LedgerFacts.SettleMoves(w.sys.desk.ledger, 0, r.condition, r.winner.outcome, w.sys.clock);
    AccountingSettle(w.sys.desk.ledger, r.condition, r.winner.outcome, w.sys.clock);
  }

  lemma AccountingSettle(l: Accounting.Ledger, condition: ConditionId, winner: Outcome, ts: int)
    ensures Accounting.Settle(l, condition, winner, ts) == Accounting.SettleFrom(l, 0, condition, winner, ts)
  {
  }

  /** After the last settlement nothing of the resolved markets is left on either side. */
  lemma NothingLeft(setup: Setup, was: Sys, w: World, resolved: seq<Resolved>)
    requires Holds(setup, w) && JustPolled(w) && SettledSoFar(was, w.sys, resolved, |resolved|)
    requires forall i :: 0 <= i < |resolved| ==>
      resolved[i].condition in setup.markets && PairOf(setup.markets[resolved[i].condition], resolved[i].winner, resolved[i].loser)
    ensures forall i :: 0 <= i < |resolved| ==>
      && (forall p :: p in w.sys.desk.ledger.positions ==> p.conditionId != resolved[i].condition)
      && w.sys.venue.Held(resolved[i].winner.tokenId) == 0.0 && w.sys.venue.Held(resolved[i].loser.tokenId) == 0.0
  {
    hide Core, LedgerOk, PairOf, Winnings, JustPolled;
    PolledLedgersAgree(setup, w);
    ParamsOf(setup, w);
    forall i | 0 <= i < |resolved|
      ensures w.sys.venue.Held(resolved[i].winner.tokenId) == 0.0 && w.sys.venue.Held(resolved[i].loser.tokenId) == 0.0
    {
      var ps := w.sys.desk.ledger.positions;
      forall k | 0 <= k < |ps|
        ensures ps[k].tokenId != resolved[i].winner.tokenId && ps[k].tokenId != resolved[i].loser.tokenId
      {
        OfMarket(setup, w.sys, resolved[i], k);
        assert ps[k] in ps;
      }
      LedgerFacts.SharesAbsent(ps, resolved[i].winner.tokenId);
      LedgerFacts.SharesAbsent(ps, resolved[i].loser.tokenId);
    }
  }
}
