/** When the risk engine's checks cover an order's worst cost. The venue matches without
    looking at cash again, so every order's whole-rate fee and a rounding quantum a level have to be
    in hand when it is placed. A balance reserve of that size makes every approved entry covered, in
    every reachable state; `OverdrawRun` shows what a smaller one allows. */
module EntryCover {
  import opened Decimals
  import opened Domain
  import opened Matching
  import opened PaperVenue
  import opened MatchBlocks
  import opened Histories
  import opened Sums
  import opened TradingDesk
  import opened OrderPath
  import opened DeliverStep
  import opened OrderPathProof
  import opened Exposure
  import Execution
  import Delivery
  import RiskEngine
  import SubmitStep
  import Intents
  import opened Decisions

  /** What an order may cost beyond the collateral it is to spend: for a buy, the whole stressed rate
      on its budget and a fee quantum for each level of the book. */
  function FeeSlack(setup: Setup, intent: OrderIntent): real {
    ReserveOf(setup, intent) - if intent.side.Buy? then intent.quantity else 0.0
  }

  function SlackOf(setup: Setup, orders: map<IntentId, OrderRecord>, id: IntentId): real {
    if id in orders && orders[id].status.IsOpen() then FeeSlack(setup, orders[id].intent) else 0.0
  }

  /** The same over all open orders. */
  function OpenSlack(setup: Setup, orders: map<IntentId, OrderRecord>, ids: seq<IntentId>): real {
    if ids == [] then 0.0 else SlackOf(setup, orders, ids[0]) + OpenSlack(setup, orders, ids[1..])
  }

  // ---------------------------------------------------------------- what is pledged

  lemma {:induction false} SpentWithinOutlay(stream: seq<Event>)
    requires forall i :: 0 <= i < |stream| && stream[i].FillEvent? ==> stream[i].fill.Valid() && stream[i].fill.side.Buy?
    ensures Sum(SpentIn, stream) <= Sum(Outlay, stream)
  {
    if stream != [] {
      SpentWithinOutlay(stream[1..]);
      OneSpent(stream[0]);
    }
  }

  lemma OneSpent(ev: Event)
    requires ev.FillEvent? ==> ev.fill.Valid() && ev.fill.side.Buy?
    ensures SpentIn(ev) <= Outlay(ev)
  {
    hide Notional;
  }

  lemma SoundBuys(rec: OrderRecord, stream: seq<Event>, n: nat)
    requires Delivery.Sound(rec, stream) && rec.intent.side.Buy? && n <= |stream|
    ensures forall i :: 0 <= i < n && stream[..n][i].FillEvent? ==> stream[..n][i].fill.Valid() && stream[..n][i].fill.side.Buy?
  {
    hide Delivery.AfterAll;
    forall i | 0 <= i < n && stream[..n][i].FillEvent?
      ensures stream[..n][i].fill.Valid() && stream[..n][i].fill.side.Buy?
    {
      assert Delivery.SoundFill(rec, stream, i);
    }
  }

  /** What is still pledged to an order is at most what it has yet to spend, and its slack. */
  lemma PledgeWithin(setup: Setup, s: Sys, a: Aux, id: IntentId)
    requires setup.Valid() && StreamsOk(setup, s, a) && id in a.base
    ensures id in a.marks && id in s.desk.engine.orders && a.marks[id] <= |StreamOf(s.venue.history, id)|
    ensures Pledge(setup, s.desk.engine.orders[id], StreamOf(s.venue.history, id), a.marks[id])
      <= Execution.PendingBuyOf(s.desk.engine.orders, id) + SlackOf(setup, s.desk.engine.orders, id)
  {
    hide StreamOf, StreamsOk, ReserveOf, Outlay, SpentIn, Delivery.Sound, StreamOk, Delivery.Seen, Delivery.AfterAll;
    KnownOrder(setup, s, a, id);
    var rec, stream, n := s.desk.engine.orders[id], StreamOf(s.venue.history, id), a.marks[id];
    OpenOrTerminal(rec.status);
    SumNonNegative(Outlay, stream[..n]) by { NoNegativeOutlay(); }
    if rec.intent.side.Buy? {
      SoundBuys(a.base[id], stream, n);
      SpentWithinOutlay(stream[..n]);
      AfterAllSpent(a.base[id], stream, n);
      StartsEmpty(a.base[id], stream);
    }
  }

  lemma NoNegativeOutlay()
    ensures forall ev :: Outlay(ev) >= 0.0
  {
  }

  lemma StartsEmpty(rec: OrderRecord, stream: seq<Event>)
    requires Delivery.Sound(rec, stream)
    ensures rec.filledNotional == 0.0
  {
  }

  lemma {:induction false} PledgesWithin(setup: Setup, s: Sys, a: Aux, ids: seq<IntentId>)
    requires setup.Valid() && StreamsOk(setup, s, a) && forall id :: id in ids ==> id in a.base
    ensures PledgeTotal(ids, Pledges(setup, s, a))
      <= Execution.PendingBuyFrom(s.desk.engine.orders, ids) + OpenSlack(setup, s.desk.engine.orders, ids)
  {
    hide StreamsOk, StreamOf, Pledge, SlackOf, Execution.PendingBuyOf;
    if ids != [] {
      PledgesWithin(setup, s, a, ids[1..]);
      PledgeWithin(setup, s, a, ids[0]);
    }
  }

  // ---------------------------------------------------------------- approved entries are covered

  /** What the policy's balance reserve has to hold: the slack of every open order and of the new
      one. */
  predicate ReserveSuffices(policy: RiskEngine.Policy, setup: Setup, s: Sys, intent: OrderIntent) {
    OpenSlack(setup, s.desk.engine.orders, s.desk.engine.intents) + FeeSlack(setup, intent) <= policy.minBalanceReserve
  }

  lemma CashLeft(policy: RiskEngine.Policy, ctx: RiskEngine.Context, c: RiskEngine.Candidate, d: Desk, decision: Execution.Decision)
    requires ApprovedEntry(policy, ctx, c, d, decision)
    ensures decision.maxSizeUsd + Execution.PendingBuyUsd(d.engine) + policy.minBalanceReserve <= d.ledger.cash
  {
    hide RiskEngine.EntrySize, RiskEngine.FeeFactor, RiskEngine.StateOk, RiskEngine.MarketOk, RiskEngine.FreshOk, RiskEngine.PriceOk,
      RiskEngine.RateOk, RiskEngine.View.ExposureUsd, RiskEngine.View.Existing, Execution.PendingBuyUsd;
    RiskEngine.SizeWithinCaps(policy, ctx.view, c);
    MulLe(1.0, RiskEngine.FeeFactor(c), decision.maxSizeUsd);
  }

  /** An entry the risk engine approved is covered, once the balance reserve holds the slack. */
  lemma ApprovedIsCovered(policy: RiskEngine.Policy, setup: Setup, w: World, step: Step)
    requires Holds(setup, w) && IsEntry(step) && Approved(policy, w.sys, step)
    requires step.condition in setup.markets && setup.markets[step.condition].Valid() && PreparedBy(setup, w.sys, step).Built?
    requires ReserveSuffices(policy, setup, w.sys, PreparedBy(setup, w.sys, step).intent)
    ensures Covered(setup, w.sys, w.aux, PreparedBy(setup, w.sys, step).intent)
  {
    hide Core, PolledOk, QueueOk, StreamsOk, StreamOf, PreparedBy, ReserveOf, ApprovedEntry, OpenSlack, Pledges, PledgeTotal,
      Execution.PendingBuyFrom, KnownIntent;
    var s, a := w.sys, w.aux;
    CoreHistory(setup, s, a);
    var ctx: RiskEngine.Context, c: RiskEngine.Candidate :| ApprovedEntry(policy, ctx, c, s.desk, step.decision);
    CashLeft(policy, ctx, c, s.desk, step.decision);
    PreparedQuantity(setup, s, step);
    PledgesWithin(setup, s, a, s.desk.engine.intents);
  }

  // ---------------------------------------------------------------- approved exits sell what is there

  /** An exit the risk engine approved sells no more than the venue holds for it, though the check looks
      at the portfolio: with no open order on the token nothing of it is on its way. */
  lemma ApprovedExitIsHeld(policy: RiskEngine.Policy, setup: Setup, w: World, ctx: RiskEngine.Context, market: Market, inKillSwitch: bool,
                           decision: Execution.Decision)
    requires Holds(setup, w) && ApprovedExit(policy, ctx, market, inKillSwitch, w.sys.desk, decision)
    ensures !Execution.InFlight(w.sys.desk.engine, decision.tokenId)
    ensures 0.0 < decision.maxShares <= w.sys.venue.Held(decision.tokenId)
  {
    hide Core, PolledOk, QueueOk, Execution.InFlight, Execution.PendingSellOf, RiskEngine.ExitStateOk, RiskEngine.ExitMarketOk, OnTick;
    var e := w.sys.desk.engine;
    assert decision.tokenId in ctx.health.inFlightTokens <==> Execution.InFlight(e, decision.tokenId);
    assert RiskEngine.PendingSell(ctx.view, decision.tokenId) == Execution.PendingSellOn(e.orders, e.intents, decision.tokenId);
    SubmitStep.NothingOnTheWay(setup, w.sys, w.aux, decision.tokenId);
  }

  lemma SetupOf(setup: Setup, w: World)
    requires Holds(setup, w)
    ensures setup.Valid()
  {
    hide Core, PolledOk, QueueOk, Setup.Valid;
  }

  /** So the venue has no reason to refuse the order for its shares. */
  lemma ApprovedExitIsAccepted(policy: RiskEngine.Policy, setup: Setup, w: World, step: Step)
    requires Holds(setup, w) && IsExit(step) && ExitApproved(policy, w.sys, step)
    requires step.condition in setup.markets && setup.markets[step.condition].Valid() && PreparedBy(setup, w.sys, step).Built?
    ensures PreparedBy(setup, w.sys, step).intent.Valid()
    ensures Validate(setup.cfg, w.sys.venue, PreparedBy(setup, w.sys, step).intent, setup.markets[step.condition]) == None
  {
    hide Holds, ApprovedExit, FloorTo, CeilTo, OnTick, Execution.OpenIds, Execution.UnknownIds;
    var ctx: RiskEngine.Context, market: Market, inKillSwitch: bool :|
      ApprovedExit(policy, ctx, market, inKillSwitch, w.sys.desk, step.decision);
    ApprovedExitIsHeld(policy, setup, w, ctx, market, inKillSwitch, step.decision);
    SetupOf(setup, w);
    SubmitStep.PreparedIntent(setup, w.sys, step);
    var m := setup.markets[step.condition];
    assert OnTick(CeilTo(step.decision.limitPrice, m.tickSize), m.tickSize) by {
      CeilIsLeast(step.decision.limitPrice, m.tickSize, 0.0);
      Intents.TickIsGrid(CeilTo(step.decision.limitPrice, m.tickSize), m.tickSize);
    }
  }

  /** Cash for what the fees of dust sales may take beyond their proceeds, next to all that is pending:
      the one thing an exit needs that the risk engine does not ask. */
  predicate FeesInHand(setup: Setup, s: Sys, intent: OrderIntent) {
    Execution.PendingBuyUsd(s.desk.engine) + OpenSlack(setup, s.desk.engine.orders, s.desk.engine.intents) + FeeSlack(setup, intent)
      <= s.desk.ledger.cash
  }

  lemma ExitIsCovered(setup: Setup, w: World, intent: OrderIntent)
    requires Holds(setup, w) && intent.side.Sell? && FeesInHand(setup, w.sys, intent)
    ensures Covered(setup, w.sys, w.aux, intent)
  {
    hide Core, PolledOk, QueueOk, StreamsOk, StreamOf, ReserveOf, OpenSlack, Pledges, PledgeTotal, Execution.PendingBuyFrom, KnownIntent;
    CoreHistory(setup, w.sys, w.aux);
    PledgesWithin(setup, w.sys, w.aux, w.sys.desk.engine.intents);
  }

  // ---------------------------------------------------------------- runs of approved orders

  /** The cash an order needs beyond what the risk engine checks. */
  predicate CashFor(policy: RiskEngine.Policy, setup: Setup, s: Sys, intent: OrderIntent) {
    if intent.side.Buy? then ReserveSuffices(policy, setup, s, intent) else FeesInHand(setup, s, intent)
  }

  /** A step as the bot takes it: a submission is an order the risk engine approved, under an id not
      used before, with cash for its fees; every other step is as the protocol asks. */
  ghost predicate Guarded(policy: RiskEngine.Policy, setup: Setup, w: World, step: Step) {
    if step.SubmitOrder? then
      && step.condition in setup.markets && setup.markets[step.condition].Valid() && step.id !in w.sys.desk.engine.orders
      && Approved(policy, w.sys, step) && ExitApproved(policy, w.sys, step)
      && (PreparedBy(setup, w.sys, step).Built? ==> CashFor(policy, setup, w.sys, PreparedBy(setup, w.sys, step).intent))
    else Enabled(setup, w.sys, w.aux, step)
  }

  ghost predicate GuardedRun(policy: RiskEngine.Policy, setup: Setup, w: World, steps: seq<Step>)
    decreases |steps|
  {
    steps == [] || (Guarded(policy, setup, w, steps[0]) && GuardedRun(policy, setup, NextWorld(setup, w, steps[0]), steps[1..]))
  }

  lemma NotInFlight(policy: RiskEngine.Policy, setup: Setup, w: World, step: Step)
    requires Holds(setup, w) && step.SubmitOrder? && Approved(policy, w.sys, step) && ExitApproved(policy, w.sys, step)
    ensures !Execution.InFlight(w.sys.desk.engine, step.decision.tokenId)
  {
    hide Holds, RiskEngine.EntrySize, RiskEngine.StateOk, RiskEngine.MarketOk, RiskEngine.FreshOk, RiskEngine.PriceOk, RiskEngine.SizeOk,
      ApprovedExit, Execution.InFlight;
    if IsEntry(step) {
      var ctx: RiskEngine.Context, c: RiskEngine.Candidate :| ApprovedEntry(policy, ctx, c, w.sys.desk, step.decision);
      assert c.tokenId in ctx.health.inFlightTokens <==> Execution.InFlight(w.sys.desk.engine, c.tokenId);
    } else {
      var ctx: RiskEngine.Context, market: Market, inKillSwitch: bool :|
        ApprovedExit(policy, ctx, market, inKillSwitch, w.sys.desk, step.decision);
      ApprovedExitIsHeld(policy, setup, w, ctx, market, inKillSwitch, step.decision);
    }
  }

  lemma SameSide(setup: Setup, s: Sys, step: Step)
    requires step.SubmitOrder? && step.condition in setup.markets && setup.markets[step.condition].Valid() && PreparedBy(setup, s, step).Built?
    ensures PreparedBy(setup, s, step).intent.side == step.decision.side
  {
    hide FloorTo, CeilTo, Execution.OpenIds, Execution.UnknownIds;
  }

  lemma GuardedIsEnabled(policy: RiskEngine.Policy, setup: Setup, w: World, step: Step)
    requires Holds(setup, w) && Guarded(policy, setup, w, step)
    ensures Enabled(setup, w.sys, w.aux, step) && Approved(policy, w.sys, step)
  {
    hide Holds, Approved, ExitApproved, Covered, PreparedBy, ReserveSuffices, FeesInHand, Execution.InFlight;
    if step.SubmitOrder? {
      NotInFlight(policy, setup, w, step);
      if PreparedBy(setup, w.sys, step).Built? {
        SameSide(setup, w.sys, step);
        if IsEntry(step) {
          ApprovedIsCovered(policy, setup, w, step);
        } else {
          ExitIsCovered(setup, w, PreparedBy(setup, w.sys, step).intent);
        }
      }
    } else {
      NoEntry(policy, w.sys, step);
    }
  }

  lemma NoEntry(policy: RiskEngine.Policy, s: Sys, step: Step)
    requires !IsEntry(step)
    ensures Approved(policy, s, step)
  {
  }

  /** Main theorem: a run whose orders pass the risk engine, with such a reserve and cash for the exits'
      fees, never needs the cover or the absence of open orders assumed: it is a run of the protocol,
      so its ledgers stay coupled and its cash never goes negative. */
  lemma {:induction false} GuardedRunIsEnabled(policy: RiskEngine.Policy, setup: Setup, w: World, steps: seq<Step>)
    requires Holds(setup, w) && GuardedRun(policy, setup, w, steps)
    ensures EnabledRun(setup, w, steps) && ApprovedRun(policy, setup, w, steps) && Holds(setup, Run(setup, w, steps))
    decreases |steps|
  {
    hide Holds, Guarded, Enabled, Approved, NextWorld;
    if steps != [] {
      GuardedIsEnabled(policy, setup, w, steps[0]);
      StepKeepsInv(setup, w, steps[0]);
      GuardedRunIsEnabled(policy, setup, NextWorld(setup, w, steps[0]), steps[1..]);
    }
  }
}
