/** A submission as the bot decides it: an entry on the candidate that its book gives, an exit of what
    is held, both allowed by the risk engine looking at the desk as it stands; and one such entry,
    on a deep book, from which concrete runs are built. */
module Decisions {
  import opened Decimals
  import opened Domain
  import opened Matching
  import opened PaperVenue
  import opened TradingDesk
  import opened OrderPath
  import opened OrderPathProof
  import opened Exposure
  import opened EdgeWalk
  import Accounting
  import EdgeEngine
  import Execution
  import Lifecycle
  import Rates
  import RiskEngine
  import Trades

  predicate IsExit(step: Step) {
    step.SubmitOrder? && step.decision.side.Sell?
  }

  ghost predicate ApprovedExit(policy: RiskEngine.Policy, ctx: RiskEngine.Context, market: Market, inKillSwitch: bool, d: Desk,
                               decision: Execution.Decision)
  {
    && market.Valid() && Sees(ctx, d)
    && RiskEngine.ExitAllowed(policy, ctx, decision.tokenId, decision.maxShares, Some(decision.limitPrice), Some(market), inKillSwitch)
  }

  /** Every exit that gets through was approved by the risk engine on the state it meets. */
  ghost predicate ExitApproved(policy: RiskEngine.Policy, s: Sys, step: Step) {
    IsExit(step) ==>
      exists ctx: RiskEngine.Context, market: Market, inKillSwitch: bool ::
        ApprovedExit(policy, ctx, market, inKillSwitch, s.desk, step.decision)
  }

  /** The quote and the candidate are those of the book at the time. */
  ghost predicate Quoted(edge: EdgeEngine.Settings, policy: RiskEngine.Policy, s: Sys, token: TokenId, market: Market,
                         ctx: RiskEngine.Context, est: EdgeEngine.Estimate, c: RiskEngine.Candidate)
  {
    && token in s.books && ctx.now == s.clock && ctx.snapshot.quote.spread == EdgeEngine.SpreadOf(s.books[token])
    && c == EdgeEngine.CandidateOn(edge, policy, market, token, s.books[token], ctx.snapshot, ctx.resolutionValid, est)
  }

  /** An entry on the book it is decided on, an exit as approved. */
  ghost predicate Decided(edge: EdgeEngine.Settings, policy: RiskEngine.Policy, setup: Setup, s: Sys, step: Step) {
    && ExitApproved(policy, s, step)
    && (IsEntry(step) ==>
          && step.condition in setup.markets
          && exists ctx: RiskEngine.Context, est: EdgeEngine.Estimate, c: RiskEngine.Candidate ::
               Quoted(edge, policy, s, step.decision.tokenId, setup.markets[step.condition], ctx, est, c)
               && ApprovedEntry(policy, ctx, c, s.desk, step.decision))
  }

  ghost predicate DecidedRun(edge: EdgeEngine.Settings, policy: RiskEngine.Policy, setup: Setup, w: World, steps: seq<Step>)
    decreases |steps|
  {
    steps == []
    || (Decided(edge, policy, setup, w.sys, steps[0]) && DecidedRun(edge, policy, setup, NextWorld(setup, w, steps[0]), steps[1..]))
  }

  lemma DecidedIsApproved(edge: EdgeEngine.Settings, policy: RiskEngine.Policy, setup: Setup, s: Sys, step: Step)
    requires Decided(edge, policy, setup, s, step)
    ensures Approved(policy, s, step)
  {
    hide ApprovedEntry, Quoted, ExitApproved;
  }

  lemma {:induction false} DecidedRunIsApproved(edge: EdgeEngine.Settings, policy: RiskEngine.Policy, setup: Setup, w: World, steps: seq<Step>)
    requires DecidedRun(edge, policy, setup, w, steps)
    ensures ApprovedRun(policy, setup, w, steps)
    decreases |steps|
  {
    hide Decided, Approved, NextWorld;
    if steps != [] {
      DecidedIsApproved(edge, policy, setup, w.sys, steps[0]);
      DecidedRunIsApproved(edge, policy, setup, NextWorld(setup, w, steps[0]), steps[1..]);
    }
  }

  // ---------------------------------------------------------------- a decision on a deep book

  /** The settings and the policy as they come. */
  const EDGE: EdgeEngine.Settings := EdgeEngine.Settings(10.0, 0.005, 0.5, 0.0)

  const DEFAULTS: RiskEngine.Policy := RiskEngine.Policy(
    20.0, 20.0, 60.0, 0.0, 2, 1, 30.0, 0.1, 0.2, 6, 0.04, 0.02, 25.0, 0.05, 0.95, 0.03, 0.25,
    2000, 5000, 1000, 45000, 5000, 120000, 2, 20, 120, 30000, 60000, true, true)

  const DEEP: Snapshot := Snapshot([Level(0.49, 100.0)], [Level(0.5, 100.0)])
  const BELIEF: EdgeEngine.Estimate := EdgeEngine.Estimate(true, false, 0.7, 0.6, 0.8)

  ghost predicate AtDefaults(policy: RiskEngine.Policy) {
    policy == DEFAULTS.(maxTotalExposure := policy.maxTotalExposure, maxOpenPositions := policy.maxOpenPositions,
                        maxTradesPerMinute := policy.maxTradesPerMinute)
  }

  ghost predicate Plain(market: Market) {
    market.Valid() && market.tickSize == 0.01 && market.minOrderSize == 5.0
  }

  /** What the market charges a share at the best prices, and for twenty shares. */
  ghost predicate Charges(rate: real, atAsk: real, atBid: real) {
    && FeeRateAt(rate, 0.5) == atAsk && FeeRateAt(rate, 0.49) == atBid && TakerFee(rate, 20.0, 0.5) == 20.0 * atAsk
    && 0.0 <= atAsk <= 0.025 && 0.0 <= atBid <= 0.025 && 0.0 <= rate <= 0.1
  }

  function SeenAt(condition: ConditionId): RiskEngine.MarketSnapshot {
    RiskEngine.MarketSnapshot(condition, "rule", true, true, RiskEngine.Quote(true, Some(0), EdgeEngine.SpreadOf(DEEP)),
                              Some(0), Some(0), true, 60000, 60000)
  }

  /** The portfolio as it is seen after it was marked at the best bids. */
  function ViewOf(d: Desk, now: int): RiskEngine.View {
    var l := Accounting.Mark(d.ledger, BidsOf(d.ledger.positions), now);
    RiskEngine.View(l.cash, l.riskEquity, l.startOfDayEquity, l.peakEquity, l.positions, Execution.PendingBuyUsd(d.engine), map[],
                    l.consecutiveLosses, l.lastLossMs)
  }

  function BidsOf(positions: seq<Accounting.Position>): map<TokenId, Option<real>> {
    map i | 0 <= i < |positions| :: positions[i].tokenId := Some(0.49)
  }

  function ContextOf(d: Desk, condition: ConditionId, rates: Rates.RateView, now: int): RiskEngine.Context {
    RiskEngine.Context(
      RiskEngine.PaperMode, Lifecycle.BotState.Paper, false, true, ViewOf(d, now),
      RiskEngine.Health(true, true, Some(0), Some(now), true, true, 0, 0, {}), rates, SeenAt(condition), 1, now)
  }

  function DeepCandidate(policy: RiskEngine.Policy, market: Market, token: TokenId): RiskEngine.Candidate {
    EdgeEngine.CandidateOn(EDGE, policy, market, token, DEEP, SeenAt(market.conditionId), true, BELIEF)
  }

  lemma LowerBoundIsExact()
    ensures RoundHalfEven(0.6, EdgeEngine.MICRO) == 0.6
  {
    hide RoundHalfEven;
    GridStays(600000, EdgeEngine.MICRO);
    assert Multiple(600000, EdgeEngine.MICRO) == 0.6;
  }

  /** Twenty shares at a half. */
  lemma TwentyOnDeep(policy: RiskEngine.Policy, market: Market, atAsk: real, atBid: real)
    requires AtDefaults(policy) && Charges(market.feeRate, atAsk, atBid)
    ensures EdgeEngine.LotsOf(EDGE, policy, market, DEEP, BELIEF) == [Lot(0.5, 20.0)]
    ensures Reach(EdgeEngine.TermsOf(EDGE, policy, market, DEEP, BELIEF), DEEP.asks) == 1
    ensures EdgeEngine.ExitCost(EDGE, market, DEEP) == 0.5 * (0.005 + atBid)
  {
    hide RoundHalfEven, FeeRateAt, TakerFee, BuyWalk;
    LowerBoundIsExact();
    var t := EdgeEngine.TermsOf(EDGE, policy, market, DEEP, BELIEF);
    assert EdgeWalk.Affordable(t, DEEP.asks[0]);
    assert DEEP.asks[1..] == [];
    assert DEEP.asks[..1] == DEEP.asks;
    TwentyForTen();
  }

  lemma TwentyForTen()
    ensures BuyWalk([Level(0.5, 100.0)], 1.0, 10.0).lots == [Lot(0.5, 20.0)]
  {
    hide FloorTo;
    var levels := [Level(0.5, 100.0)];
    assert Multiple(2000, SHARE_LOT) == 20.0;
    GridStays(2000, SHARE_LOT);
    assert BuyTake(levels[0], 10.0) == 20.0;
    assert levels[1..] == [];
    assert BuyWalk([], 1.0, 0.0) == Walk([], 0.0);
    assert BuyWalk(levels, 1.0, 10.0) == Walk([Lot(0.5, 20.0)] + [], 0.0);
  }

  /** What the book gives: ten dollars at a half, fifty dollars deep, with edge to spare. */
  lemma OnDeepBook(policy: RiskEngine.Policy, market: Market, token: TokenId, atAsk: real, atBid: real)
    requires AtDefaults(policy) && Plain(market) && Charges(market.feeRate, atAsk, atBid)
    ensures var c := DeepCandidate(policy, market, token);
      && c.tokenId == token && c.conditionId == market.conditionId && c.market == market && c.side.Buy? && c.passesFilters
      && c.notional == 10.0 && c.worstPrice == 0.5 && c.slippage == 0.0 && c.liquidity == 50.0 && c.sizeMultiplier == 1.0
      && c.conservativeEdge >= 0.03 && c.worstCaseEdge >= 0.03 && c.uncertainty <= 0.25
      && c.lowerProbability == 0.6 && c.fairProbability == 0.7 && c.upperProbability == 0.8
    ensures EdgeEngine.SpreadOf(DEEP) == Some(0.5 - 0.49)
  {
    hide EdgeEngine.LotsOf, EdgeEngine.TermsOf, EdgeEngine.ExitCost, Reach, TakerFee, FeeRateAt, EdgeEngine.Confidence;
    TwentyOnDeep(policy, market, atAsk, atBid);
    PriceOfTwenty(market, atAsk, atBid);
    assert DEEP.asks[..1] == DEEP.asks;
    DepthOfOne();
    SomeConfidence(EdgeEngine.Conservative(EDGE, BELIEF, EdgeEngine.Price(0.5, 0.5, atAsk), 0.5 * (0.005 + atBid)), 0.8 - 0.6);
  }

  lemma SomeConfidence(edge: real, width: real)
    ensures EdgeEngine.Confidence(edge, width) >= 0.0
  {
    hide Min;
  }

  lemma DepthOfOne()
    ensures Depth(DEEP.asks) == 50.0
  {
    assert DEEP.asks[..0] == [];
  }

  lemma PriceOfTwenty(market: Market, atAsk: real, atBid: real)
    requires Charges(market.feeRate, atAsk, atBid)
    ensures EdgeEngine.PriceOf(market, DEEP, [Lot(0.5, 20.0)]) == EdgeEngine.Price(0.5, 0.5, atAsk)
    ensures Spent([Lot(0.5, 20.0)]) == 10.0 && Shares([Lot(0.5, 20.0)]) == 20.0
  {
    hide TakerFee, FeeRateAt;
    var lots := [Lot(0.5, 20.0)];
    assert lots[1..] == [];
    assert Fees(market.feeRate, 1.0, lots) == 20.0 * atAsk;
    assert Spent(lots) == 10.0 && Shares(lots) == 20.0;
    assert 10.0 / 20.0 == 0.5;
    EdgeEngine.Quotient(atAsk, 20.0, 20.0 * atAsk);
  }

  // ---------------------------------------------------------------- and the risk engine allows it

  lemma {:induction false} NothingPending(orders: map<IntentId, OrderRecord>, ids: seq<IntentId>, token: TokenId)
    requires forall id :: id in orders ==> orders[id].status.IsTerminal()
    ensures Execution.PendingBuyFrom(orders, ids) == 0.0 && Execution.PendingSellOn(orders, ids, token) == 0.0
  {
    if ids != [] {
      NothingPending(orders, ids[1..], token);
    }
  }

  lemma ClearIsSeen(s: Sys, ids: set<IntentId>, decisions: set<DecisionId>, condition: ConditionId, rates: Rates.RateView)
    requires Trades.Clear(s, ids, decisions)
    ensures Sees(ContextOf(s.desk, condition, rates, s.clock), s.desk) && Execution.PendingBuyUsd(s.desk.engine) == 0.0
  {
    hide Execution.PendingBuyFrom, Execution.PendingSellOn, Execution.OpenIds, Execution.UnknownIds, Accounting.Marked, Accounting.ConservativeValue;
    var e := s.desk.engine;
    Trades.NoneOpen(e, e.intents);
    NothingPending(e.orders, e.intents, "");
    forall token: TokenId
      ensures !Execution.InFlight(e, token) && Execution.PendingSellOn(e.orders, e.intents, token) == 0.0
    {
      Trades.NothingInFlight(s, ids, decisions, token);
      NothingPending(e.orders, e.intents, token);
    }
  }

  /** The size the entry gets: ten dollars, or the room under the exposure limit. */
  lemma SizeIs(policy: RiskEngine.Policy, view: RiskEngine.View, c: RiskEngine.Candidate, atAsk: real, size: real, k: int)
    requires AtDefaults(policy) && c.market.Valid() && FeeRateAt(c.market.feeRate, 0.5) == atAsk && atAsk >= 0.0
    requires c.notional == 10.0 && c.worstPrice == 0.5 && c.sizeMultiplier == 1.0
    requires size == Multiple(k, RiskEngine.CENT) && 2.5 <= size == Min(10.0, policy.maxTotalExposure - view.ExposureUsd())
    requires size * (1.0 + 2.0 * atAsk) <= view.cash && view.pendingBuy == 0.0 && view.Existing(c.tokenId) == 0.0
    ensures RiskEngine.CashCap(policy, view, c) > 0.0
    ensures RiskEngine.EntrySize(policy, view, c) == size
  {
    hide FloorTo, FeeRateAt, Multiple, RiskEngine.View.ExposureUsd, RiskEngine.View.Existing;
    EdgeEngine.Quotient(2.0 * atAsk, 0.5, atAsk);
    var factor := 1.0 + 2.0 * atAsk;
    assert RiskEngine.FeeFactor(c) == factor;
    MulLe(1.0, factor, size);
    Affordable(size, factor, view.cash);
    GridStays(k, RiskEngine.CENT);
  }

  lemma Affordable(size: real, factor: real, cash: real)
    requires factor > 0.0 && size * factor <= cash
    ensures size <= cash / factor
  {
    DivMul(cash, factor);
    if cash / factor < size {
      MulLt(cash / factor, size, factor);
    }
  }

  /** What is left to know about the state: little enough held, equity near its start, few orders of
      late, none of them on this market. */
  ghost predicate Quiet(policy: RiskEngine.Policy, s: Sys, market: Market, token: TokenId, rates: Rates.RateView) {
    var view := ViewOf(s.desk, s.clock);
    && !RiskEngine.LossLimitBreached(policy, view) && view.consecutiveLosses == 0 && view.lastLossMs == None
    && |s.desk.ledger.positions| < policy.maxOpenPositions && !Accounting.Has(s.desk.ledger.positions, token)
    && (forall i :: 0 <= i < |s.desk.ledger.positions| ==> s.desk.ledger.positions[i].conditionId != market.conditionId)
    && market.conditionId !in rates.lastSubmitByMarket && rates.submissionsLastMinute < policy.maxTradesPerMinute
    && rates.submissionsLastHour < 20 && rates.submissionsLastDay < 120
  }

  lemma {:induction false} CountWithin(positions: seq<Accounting.Position>)
    ensures RiskEngine.OpenCount(positions) <= |positions|
  {
    if positions != [] {
      CountWithin(positions[1..]);
    }
  }

  lemma OnlyToken(view: RiskEngine.View, c: RiskEngine.Candidate)
    requires forall i :: 0 <= i < |view.positions| ==> view.positions[i].conditionId != c.conditionId
    ensures |RiskEngine.TokensInMarket(view, c)| == 1
  {
    assert RiskEngine.TokensInMarket(view, c) == {c.tokenId};
  }

  lemma HalfOnTick()
    ensures OnTick(0.5, 0.01) && FloorTo(0.5, 0.01) == 0.5
  {
    assert 0.5 / 0.01 == 50.0;
  }

  lemma OtherChecksPass(policy: RiskEngine.Policy, s: Sys, market: Market, token: TokenId, rates: Rates.RateView, atAsk: real, atBid: real)
    requires AtDefaults(policy) && Plain(market) && Charges(market.feeRate, atAsk, atBid) && Quiet(policy, s, market, token, rates)
    ensures var ctx, c := ContextOf(s.desk, market.conditionId, rates, s.clock), DeepCandidate(policy, market, token);
      && RiskEngine.StateOk(policy, ctx) && RiskEngine.MarketOk(ctx, c) && RiskEngine.FreshOk(policy, ctx)
      && RiskEngine.PriceOk(policy, ctx, c) && RiskEngine.RateOk(policy, ctx, c)
  {
    hide ViewOf, DeepCandidate, OnTick, FeeRateAt, TakerFee, RiskEngine.LossLimitBreached, Accounting.IndexOf;
    OnDeepBook(policy, market, token, atAsk, atBid);
    HalfOnTick();
  }

  /** An entry decided on the deep book. */
  lemma EntryIsDecided(policy: RiskEngine.Policy, setup: Setup, s: Sys, step: Step, rates: Rates.RateView, atAsk: real, atBid: real,
                       size: real, k: int, ids: set<IntentId>, decisions: set<DecisionId>)
    requires step.SubmitOrder? && step.condition in setup.markets && Trades.Clear(s, ids, decisions)
    requires step.decision == Execution.Decision(step.decision.decisionId, true, Buy, step.decision.tokenId, 0.5, size, step.decision.maxShares, s.clock)
    requires step.decision.tokenId in s.books && s.books[step.decision.tokenId] == DEEP
    requires AtDefaults(policy) && Plain(setup.markets[step.condition]) && Charges(setup.markets[step.condition].feeRate, atAsk, atBid)
    requires Quiet(policy, s, setup.markets[step.condition], step.decision.tokenId, rates)
    requires size == Multiple(k, RiskEngine.CENT) && 2.5 <= size == Min(10.0, policy.maxTotalExposure - Accounting.Exposure(s.desk.ledger.positions))
    requires size * (1.0 + 2.0 * atAsk) <= s.desk.ledger.cash
    ensures Decided(EDGE, policy, setup, s, step)
  {
    hide DeepCandidate, RiskEngine.EntrySize, RiskEngine.CashCap, RiskEngine.TokensInMarket, RiskEngine.OpenCount, Multiple, RiskEngine.StateOk,
      RiskEngine.MarketOk, RiskEngine.FreshOk, RiskEngine.PriceOk, RiskEngine.RateOk, Charges, Sees, Trades.Clear, RiskEngine.LossLimitBreached,
      Accounting.Exposure, Accounting.ConservativeValue, Accounting.Marked;
    var market, token := setup.markets[step.condition], step.decision.tokenId;
    var ctx, c := ContextOf(s.desk, market.conditionId, rates, s.clock), DeepCandidate(policy, market, token);
    ClearIsSeen(s, ids, decisions, market.conditionId, rates);
    OnDeepBook(policy, market, token, atAsk, atBid);
    OtherChecksPass(policy, s, market, token, rates, atAsk, atBid);
    ChargesAsk(market.feeRate, atAsk, atBid);
    SizeIs(policy, ctx.view, c, atAsk, size, k);
    CountWithin(s.desk.ledger.positions);
    OnlyToken(ctx.view, c);
    assert RiskEngine.SharesAtLimit(size, 0.5) >= 5.0 by { EnoughShares(size); }
    assert RiskEngine.SizeOk(policy, ctx.view, c);
    assert ApprovedEntry(policy, ctx, c, s.desk, step.decision);
    IsQuoted(policy, s, token, market, rates);
  }

  lemma IsQuoted(policy: RiskEngine.Policy, s: Sys, token: TokenId, market: Market, rates: Rates.RateView)
    requires token in s.books && s.books[token] == DEEP
    ensures Quoted(EDGE, policy, s, token, market, ContextOf(s.desk, market.conditionId, rates, s.clock), BELIEF, DeepCandidate(policy, market, token))
  {
    hide ViewOf, EdgeEngine.CandidateOn;
  }

  lemma ChargesAsk(rate: real, atAsk: real, atBid: real)
    requires Charges(rate, atAsk, atBid)
    ensures FeeRateAt(rate, 0.5) == atAsk && atAsk >= 0.0
  {
  }

  lemma EnoughShares(size: real)
    requires size >= 2.5
    ensures RiskEngine.SharesAtLimit(size, 0.5) >= 5.0
  {
    assert size / 0.5 == 2.0 * size;
  }
}
