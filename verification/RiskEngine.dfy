/** Every check an entry or an exit has to pass, and the size an entry gets. */
module RiskEngine {
  import opened Decimals
  import opened Domain
  import opened Rates
  import opened PaperVenue
  import opened Accounting
  import Lifecycle
  import FeeReserve
  import Intents

  const CENT: real := 0.01
  const MIN_ORDER_NOTIONAL: real := 1.0
  const MAX_FEE_RATE: real := 0.2

  /** Times in milliseconds. */
  datatype Policy = Policy(
    maxOrderSize: real,
    maxPosition: real,
    maxTotalExposure: real,
    minBalanceReserve: real,
    maxOpenPositions: nat,
    maxPositionsPerMarket: nat,
    maxDailyLoss: real,
    maxDailyLossPct: real,
    maxDrawdownPct: real,
    maxConsecutiveLosses: nat,
    maxSpread: real,
    maxSlippage: real,
    minLiquidity: real,
    minEntryPrice: real,
    maxEntryPrice: real,
    minConservativeEdge: real,
    maxUncertainty: real,
    maxDataAgeMs: int,
    maxReferenceAgeMs: int,
    maxClockDriftMs: int,
    minTimeToExpiryMs: int,
    minTimeSinceStartMs: int,
    requireReconciledWithinMs: int,
    maxTradesPerMinute: nat,
    maxTradesPerHour: nat,
    maxTradesPerDay: nat,
    cooldownSameMarketMs: int,
    cooldownAfterLossMs: int,
    allowExitsWhenHalted: bool,
    exitsRequireFreshBook: bool)
  {
    predicate Valid() {
      && maxOrderSize > 0.0 && maxPosition > 0.0 && maxTotalExposure > 0.0 && minBalanceReserve >= 0.0
      && maxDailyLoss > 0.0 && 0.0 < maxDailyLossPct <= 1.0 && 0.0 < maxDrawdownPct <= 1.0
      && 0.0 < minEntryPrice < 1.0 && 0.0 < maxEntryPrice < 1.0
    }
  }

  /** What the risk engine sees of the portfolio and the open orders; `equity` counts unrealised
      losses and no unrealised gains. */
  datatype View = View(
    cash: real,
    equity: real,
    startOfDayEquity: real,
    peakEquity: real,
    positions: seq<Position>,
    pendingBuy: real,
    pendingSell: map<TokenId, real>,
    consecutiveLosses: nat,
    lastLossMs: Option<int>)
  {
    function ExposureUsd(): real {
      Exposure(positions) + pendingBuy
    }

    function Existing(token: TokenId): real {
      if Has(positions, token) then positions[IndexOf(positions, token)].cost else 0.0
    }

    function DailyPnl(): real {
      equity - startOfDayEquity
    }
  }

  datatype Health = Health(
    marketStreamOk: bool,
    referenceStreamOk: bool,
    clockDriftMs: Option<int>,
    lastReconciliationMs: Option<int>,
    lastReconciliationOk: bool,
    watchdogOk: bool,
    unknown: nat,
    inFlight: nat,
    inFlightTokens: set<TokenId>)

  datatype Quote = Quote(bookValid: bool, bookAgeMs: Option<int>, spread: Option<real>)

  /** The market snapshot, with the quote of the token in question. */
  datatype MarketSnapshot = MarketSnapshot(
    conditionId: ConditionId,
    ruleId: string,
    acceptingOrders: bool,
    isFresh: bool,
    quote: Quote,
    spotAgeMs: Option<int>,
    twapAgeMs: Option<int>,
    priceToBeatVerified: bool,
    timeToExpiryMs: int,
    timeSinceStartMs: int)

  /** An entry candidate together with its market's terms and the size multiplier it was given. */
  datatype Candidate = Candidate(
    tokenId: TokenId,
    conditionId: ConditionId,
    side: Side,
    passesFilters: bool,
    notional: real,
    worstPrice: real,
    slippage: real,
    liquidity: real,
    conservativeEdge: real,
    worstCaseEdge: real,
    uncertainty: real,
    lowerProbability: real,
    fairProbability: real,
    upperProbability: real,
    market: Market,
    sizeMultiplier: real)

  datatype Mode = PaperMode | ReplayMode | LiveMode | OtherMode
  {
    predicate Trades() {
      !OtherMode?
    }
  }

  datatype CheckName =
    | TradingMode | KillSwitch | ClockDrift | UnknownOrders | Watchdog | State | LossLimits | ConsecutiveLosses | CooldownAfterLoss
    | MarketStream | ReferenceStream | Reconciliation
    | ResolutionValid | RuleIdConsistent | AcceptingOrders | CandidateMarket | CandidateFilters | EntrySideBuy
    | SnapshotFresh | BookAge | ReferenceAge | PriceToBeat | TimeToExpiry | TimeSinceStart
    | Spread | Slippage | Liquidity | EntryPriceBand | TickSize | FeeKnown | ConservativeEdge | WorstCaseEdge | Uncertainty
    | ProbabilityBounds
    | MultiplierRange | PositionsPerMarket | OpenPositions | PositionLimit | ExposureLimit | Balance | MinNotional | MinOrderSize
    | InFlight | CooldownSameMarket | RateMinute | RateHour | RateDay
    | ReduceOnly | MinPriceSet | SnapshotAvailable

  datatype Check = Check(name: CheckName, passed: bool)

  // ---------------------------------------------------------------- sizing

  function Available(policy: Policy, view: View): real {
    view.cash - view.pendingBuy - policy.minBalanceReserve
  }

  function FeeFactor(c: Candidate): (factor: real)
    requires c.market.Valid()
    ensures factor >= 1.0
  {
    if c.worstPrice > 0.0 then
      FeePerDollarPositive(c.market.feeRate, c.worstPrice);
      1.0 + FeeRateAt(c.market.feeRate, c.worstPrice) / c.worstPrice
    else 1.0
  }

  lemma FeePerDollarPositive(rate: real, price: real)
    requires rate >= 0.0 && price > 0.0
    ensures FeeRateAt(rate, price) / price >= 0.0
  {
    if price < 1.0 {
      FeePerShare(rate, price);
    }
    NotNegative(FeeRateAt(rate, price), price);
  }

  lemma NotNegative(a: real, b: real)
    requires a >= 0.0 && b > 0.0
    ensures a / b >= 0.0
  {
  }

  function CashCap(policy: Policy, view: View, c: Candidate): real
    requires c.market.Valid()
  {
    if Available(policy, view) > 0.0 then Available(policy, view) / FeeFactor(c) else 0.0
  }

  function Cap(policy: Policy, view: View, c: Candidate): real
    requires c.market.Valid()
  {
    Min(c.notional,
        Min(policy.maxOrderSize,
            Min(policy.maxPosition - view.Existing(c.tokenId),
                Min(policy.maxTotalExposure - view.ExposureUsd(), CashCap(policy, view, c)))))
  }

  predicate MultiplierInRange(c: Candidate) {
    0.0 <= c.sizeMultiplier <= 1.0
  }

  function ScaledBy(cap: real, mult: real): real {
    cap * mult
  }

  function EntrySize(policy: Policy, view: View, c: Candidate): real
    requires c.market.Valid()
  {
    var raw := ScaledBy(Cap(policy, view, c), if MultiplierInRange(c) then c.sizeMultiplier else 0.0);
    if raw > 0.0 then FloorTo(raw, CENT) else 0.0
  }

  /** A positive size stays within every cap and leaves cash for the fee at the limit price. */
  lemma SizeWithinCaps(policy: Policy, view: View, c: Candidate)
    requires c.market.Valid() && EntrySize(policy, view, c) > 0.0
    ensures var size := EntrySize(policy, view, c);
      && size <= c.notional && size <= policy.maxOrderSize
      && view.Existing(c.tokenId) + size <= policy.maxPosition
      && view.ExposureUsd() + size <= policy.maxTotalExposure
      && size * FeeFactor(c) + view.pendingBuy + policy.minBalanceReserve <= view.cash
  {
    hide FloorTo, FeeFactor, ScaledBy, CashCap, View.ExposureUsd, View.Existing, Available;
    Scaled(Cap(policy, view, c), if MultiplierInRange(c) then c.sizeMultiplier else 0.0);
    CashCovers(policy, view, c, EntrySize(policy, view, c));
  }

  lemma CashCovers(policy: Policy, view: View, c: Candidate, size: real)
    requires c.market.Valid() && 0.0 < size <= CashCap(policy, view, c)
    ensures size * FeeFactor(c) + view.pendingBuy + policy.minBalanceReserve <= view.cash
  {
    hide FeeFactor;
    DivMul(Available(policy, view), FeeFactor(c));
    MulLe(size, CashCap(policy, view, c), FeeFactor(c));
  }

  lemma Scaled(cap: real, mult: real)
    requires 0.0 <= mult <= 1.0
    ensures ScaledBy(cap, mult) > 0.0 ==> ScaledBy(cap, mult) <= cap
  {
    if cap >= 0.0 {
      MulLe(mult, 1.0, cap);
    } else {
      MulLe(0.0, mult, -cap);
    }
  }

  /** And it is the largest whole number of cents within the scaled cap. */
  lemma SizeIsLargest(policy: Policy, view: View, c: Candidate, other: real)
    requires c.market.Valid() && MultiplierInRange(c) && OnGrid(other, CENT)
    requires 0.0 < other <= ScaledBy(Cap(policy, view, c), c.sizeMultiplier)
    ensures other <= EntrySize(policy, view, c)
  {
    hide Cap;
    var raw := ScaledBy(Cap(policy, view, c), c.sizeMultiplier);
    RoundedOnGrid(raw, CENT);
    if EntrySize(policy, view, c) < other {
      GridStep(EntrySize(policy, view, c), other, CENT);
    }
  }

  // ---------------------------------------------------------------- entries

  /** Tokens of the candidate's market that would be held, the candidate's own included. */
  function TokensInMarket(view: View, c: Candidate): set<TokenId> {
    (set i | 0 <= i < |view.positions| && view.positions[i].conditionId == c.conditionId && view.positions[i].shares > 0.0
       :: view.positions[i].tokenId) + {c.tokenId}
  }

  function OpenCount(positions: seq<Position>): nat {
    if positions == [] then 0 else (if positions[0].shares > 0.0 then 1 else 0) + OpenCount(positions[1..])
  }

  /** What an evaluation is given besides the candidate. */
  datatype Context = Context(
    mode: Mode,
    state: Lifecycle.BotState,
    killSwitch: bool,
    resolutionValid: bool,
    view: View,
    health: Health,
    rates: RateView,
    snapshot: MarketSnapshot,
    maxInFlight: nat,
    now: int)

  predicate AtMost(age: Option<int>, limit: int) {
    age.Some? && age.value <= limit
  }

  /** Breaches that also engage the kill switch. */
  predicate LossLimitBreached(policy: Policy, view: View) {
    || view.DailyPnl() <= -policy.maxDailyLoss
    || (view.startOfDayEquity > 0.0 && -view.DailyPnl() / view.startOfDayEquity >= policy.maxDailyLossPct)
    || (view.peakEquity > 0.0 && (view.peakEquity - view.equity) / view.peakEquity >= policy.maxDrawdownPct)
  }

  predicate ExpectedState(ctx: Context) {
    if ctx.mode.LiveMode? then ctx.state == Lifecycle.BotState.Live else ctx.state == Lifecycle.BotState.Paper
  }

  predicate CommonOk(policy: Policy, ctx: Context) {
    && ctx.mode.Trades() && !ctx.killSwitch
    && ctx.health.clockDriftMs.Some? && -policy.maxClockDriftMs <= ctx.health.clockDriftMs.value <= policy.maxClockDriftMs
    && ctx.health.unknown == 0 && ctx.health.watchdogOk
  }

  predicate Reconciled(policy: Policy, ctx: Context) {
    && ctx.health.lastReconciliationOk && ctx.health.lastReconciliationMs.Some?
    && ctx.now - ctx.health.lastReconciliationMs.value <= policy.requireReconciledWithinMs
  }

  predicate StateOk(policy: Policy, ctx: Context) {
    && CommonOk(policy, ctx) && ExpectedState(ctx)
    && !LossLimitBreached(policy, ctx.view) && ctx.view.consecutiveLosses < policy.maxConsecutiveLosses
    && (ctx.view.lastLossMs.Some? ==> ctx.now - ctx.view.lastLossMs.value >= policy.cooldownAfterLossMs)
    && ctx.health.marketStreamOk && ctx.health.referenceStreamOk && Reconciled(policy, ctx)
  }

  predicate MarketOk(ctx: Context, c: Candidate) {
    && ctx.resolutionValid && ctx.snapshot.ruleId != "" && ctx.snapshot.acceptingOrders
    && c.conditionId == ctx.snapshot.conditionId && c.passesFilters && c.side.Buy?
  }

  predicate FreshOk(policy: Policy, ctx: Context) {
    var seen := ctx.snapshot;
    && seen.isFresh && seen.quote.bookValid && AtMost(seen.quote.bookAgeMs, policy.maxDataAgeMs)
    && AtMost(seen.spotAgeMs, policy.maxReferenceAgeMs) && AtMost(seen.twapAgeMs, policy.maxReferenceAgeMs)
    && seen.priceToBeatVerified
    && seen.timeToExpiryMs >= policy.minTimeToExpiryMs && seen.timeSinceStartMs >= policy.minTimeSinceStartMs
  }

  predicate PriceOk(policy: Policy, ctx: Context, c: Candidate)
    requires c.market.Valid()
  {
    && ctx.snapshot.quote.spread.Some? && ctx.snapshot.quote.spread.value <= policy.maxSpread
    && c.slippage <= policy.maxSlippage && c.liquidity >= policy.minLiquidity
    && policy.minEntryPrice <= c.worstPrice <= policy.maxEntryPrice && OnTick(c.worstPrice, c.market.tickSize)
    && FeeRateAt(c.market.feeRate, c.worstPrice) >= 0.0 && c.market.feeRate <= MAX_FEE_RATE
    && c.conservativeEdge >= policy.minConservativeEdge && c.worstCaseEdge >= policy.minConservativeEdge
    && c.uncertainty <= policy.maxUncertainty
    && 0.0 <= c.lowerProbability <= c.fairProbability <= c.upperProbability <= 1.0
  }

  predicate SizeOk(policy: Policy, view: View, c: Candidate)
    requires c.market.Valid()
  {
    var size := EntrySize(policy, view, c);
    && MultiplierInRange(c)
    && |TokensInMarket(view, c)| <= policy.maxPositionsPerMarket
    && (Has(view.positions, c.tokenId) || OpenCount(view.positions) < policy.maxOpenPositions)
    && policy.maxPosition - view.Existing(c.tokenId) > 0.0
    && policy.maxTotalExposure - view.ExposureUsd() > 0.0
    && CashCap(policy, view, c) > 0.0
    && size >= MIN_ORDER_NOTIONAL && SharesAtLimit(size, c.worstPrice) >= c.market.minOrderSize
  }

  function SharesAtLimit(size: real, limit: real): real {
    if limit > 0.0 then size / limit else 0.0
  }

  predicate CooledDown(policy: Policy, ctx: Context, condition: ConditionId) {
    condition !in ctx.rates.lastSubmitByMarket
    || ctx.now - ctx.rates.lastSubmitByMarket[condition] >= policy.cooldownSameMarketMs
  }

  predicate RateOk(policy: Policy, ctx: Context, c: Candidate) {
    && ctx.health.inFlight < ctx.maxInFlight && c.tokenId !in ctx.health.inFlightTokens
    && CooledDown(policy, ctx, c.conditionId)
    && ctx.rates.submissionsLastMinute < policy.maxTradesPerMinute
    && ctx.rates.submissionsLastHour < policy.maxTradesPerHour
    && ctx.rates.submissionsLastDay < policy.maxTradesPerDay
  }

  /** Everything an entry has to pass. */
  predicate EntryAllowed(policy: Policy, ctx: Context, c: Candidate)
    requires c.market.Valid()
  {
    && StateOk(policy, ctx) && MarketOk(ctx, c) && FreshOk(policy, ctx) && PriceOk(policy, ctx, c) && SizeOk(policy, ctx.view, c)
    && RateOk(policy, ctx, c)
  }

  ghost predicate AllOk(checks: seq<Check>) {
    forall i :: 0 <= i < |checks| ==> checks[i].passed
  }

  lemma NoChecks()
    ensures AllOk([])
  {
  }

  method Add(checks: seq<Check>, name: CheckName, passed: bool) returns (out: seq<Check>)
    ensures out == checks + [Check(name, passed)]
    ensures AllOk(out) <==> AllOk(checks) && passed
  {
    out := checks + [Check(name, passed)];
    assert out[|checks|].passed == passed && forall i :: 0 <= i < |checks| ==> out[i] == checks[i];
  }

  method CommonChecks(checks: seq<Check>, policy: Policy, ctx: Context) returns (out: seq<Check>)
    ensures AllOk(out) <==> AllOk(checks) && CommonOk(policy, ctx)
  {
    hide AllOk;
    var drift := ctx.health.clockDriftMs;
    out := Add(checks, TradingMode, ctx.mode.Trades());
    out := Add(out, KillSwitch, !ctx.killSwitch);
    out := Add(out, ClockDrift, drift.Some? && (if drift.value < 0 then -drift.value else drift.value) <= policy.maxClockDriftMs);
    out := Add(out, UnknownOrders, ctx.health.unknown == 0);
    out := Add(out, Watchdog, ctx.health.watchdogOk);
  }

  method StateChecks(checks: seq<Check>, policy: Policy, ctx: Context) returns (out: seq<Check>)
    ensures AllOk(out) <==> AllOk(checks) && StateOk(policy, ctx)
  {
    hide AllOk, CommonOk, LossLimitBreached, ExpectedState;
    var view := ctx.view;
    out := CommonChecks(checks, policy, ctx);
    out := Add(out, State, ExpectedState(ctx));
    out := Add(out, LossLimits, !LossLimitBreached(policy, view));
    out := Add(out, ConsecutiveLosses, view.consecutiveLosses < policy.maxConsecutiveLosses);
    out := Add(out, CooldownAfterLoss, view.lastLossMs.None? || ctx.now - view.lastLossMs.value >= policy.cooldownAfterLossMs);
    out := Add(out, MarketStream, ctx.health.marketStreamOk);
    out := Add(out, ReferenceStream, ctx.health.referenceStreamOk);
    out := Add(out, Reconciliation, Reconciled(policy, ctx));
  }

  method MarketChecks(checks: seq<Check>, ctx: Context, c: Candidate) returns (out: seq<Check>)
    ensures AllOk(out) <==> AllOk(checks) && MarketOk(ctx, c)
  {
    hide AllOk;
    out := Add(checks, ResolutionValid, ctx.resolutionValid);
    out := Add(out, RuleIdConsistent, ctx.snapshot.ruleId != "");
    out := Add(out, AcceptingOrders, ctx.snapshot.acceptingOrders);
    out := Add(out, CandidateMarket, c.conditionId == ctx.snapshot.conditionId);
    out := Add(out, CandidateFilters, c.passesFilters);
    out := Add(out, EntrySideBuy, c.side.Buy?);
  }

  /** The reference prices are fresh when both ages are known and the older is within the limit. */
  method FreshnessChecks(checks: seq<Check>, policy: Policy, ctx: Context) returns (out: seq<Check>)
    ensures AllOk(out) <==> AllOk(checks) && FreshOk(policy, ctx)
  {
    hide AllOk;
    var seen := ctx.snapshot;
    out := Add(checks, SnapshotFresh, seen.isFresh);
    out := Add(out, BookAge, seen.quote.bookValid && AtMost(seen.quote.bookAgeMs, policy.maxDataAgeMs));
    var known := seen.spotAgeMs.Some? && seen.twapAgeMs.Some?;
    out := Add(out, ReferenceAge,
               known && (if seen.spotAgeMs.value >= seen.twapAgeMs.value then seen.spotAgeMs.value else seen.twapAgeMs.value)
                          <= policy.maxReferenceAgeMs);
    out := Add(out, PriceToBeat, seen.priceToBeatVerified);
    out := Add(out, TimeToExpiry, seen.timeToExpiryMs >= policy.minTimeToExpiryMs);
    out := Add(out, TimeSinceStart, seen.timeSinceStartMs >= policy.minTimeSinceStartMs);
  }

  method PriceChecks(checks: seq<Check>, policy: Policy, ctx: Context, c: Candidate) returns (out: seq<Check>)
    requires c.market.Valid()
    ensures AllOk(out) <==> AllOk(checks) && PriceOk(policy, ctx, c)
  {
    hide AllOk, OnTick, FeeRateAt;
    var spread, limit := ctx.snapshot.quote.spread, c.worstPrice;
    out := Add(checks, Spread, spread.Some? && spread.value <= policy.maxSpread);
    out := Add(out, Slippage, c.slippage <= policy.maxSlippage);
    out := Add(out, Liquidity, c.liquidity >= policy.minLiquidity);
    out := Add(out, EntryPriceBand, policy.minEntryPrice <= limit <= policy.maxEntryPrice);
    out := Add(out, TickSize, OnTick(limit, c.market.tickSize));
    out := Add(out, FeeKnown, FeeRateAt(c.market.feeRate, limit) >= 0.0 && c.market.feeRate <= MAX_FEE_RATE);
    out := Add(out, ConservativeEdge, c.conservativeEdge >= policy.minConservativeEdge);
    out := Add(out, WorstCaseEdge, c.worstCaseEdge >= policy.minConservativeEdge);
    out := Add(out, Uncertainty, c.uncertainty <= policy.maxUncertainty);
    out := Add(out, ProbabilityBounds, 0.0 <= c.lowerProbability <= c.fairProbability <= c.upperProbability <= 1.0);
  }

  method SizeChecks(checks: seq<Check>, policy: Policy, view: View, c: Candidate) returns (out: seq<Check>, size: real)
    requires c.market.Valid()
    ensures size == EntrySize(policy, view, c)
    ensures AllOk(out) <==> AllOk(checks) && SizeOk(policy, view, c)
  {
    hide AllOk, CashCap, TokensInMarket, OpenCount, IndexOf, EntrySize, Exposure, MultiplierInRange, View.Existing, View.ExposureUsd;
    out := Add(checks, MultiplierRange, MultiplierInRange(c));
    out := Add(out, PositionsPerMarket, |TokensInMarket(view, c)| <= policy.maxPositionsPerMarket);
    out := Add(out, OpenPositions, Has(view.positions, c.tokenId) || OpenCount(view.positions) < policy.maxOpenPositions);
    size := EntrySize(policy, view, c);
    out := Add(out, PositionLimit, policy.maxPosition - view.Existing(c.tokenId) > 0.0);
    out := Add(out, ExposureLimit, policy.maxTotalExposure - view.ExposureUsd() > 0.0);
    out := Add(out, Balance, CashCap(policy, view, c) > 0.0);
    out := Add(out, MinNotional, size >= MIN_ORDER_NOTIONAL);
    out := Add(out, MinOrderSize, SharesAtLimit(size, c.worstPrice) >= c.market.minOrderSize);
  }

  method RateChecks(checks: seq<Check>, policy: Policy, ctx: Context, c: Candidate) returns (out: seq<Check>)
    ensures AllOk(out) <==> AllOk(checks) && RateOk(policy, ctx, c)
  {
    hide AllOk;
    out := Add(checks, InFlight, ctx.health.inFlight < ctx.maxInFlight && c.tokenId !in ctx.health.inFlightTokens);
    out := Add(out, CooldownSameMarket, CooledDown(policy, ctx, c.conditionId));
    out := Add(out, RateMinute, ctx.rates.submissionsLastMinute < policy.maxTradesPerMinute);
    out := Add(out, RateHour, ctx.rates.submissionsLastHour < policy.maxTradesPerHour);
    out := Add(out, RateDay, ctx.rates.submissionsLastDay < policy.maxTradesPerDay);
  }

  method EvaluateEntry(policy: Policy, ctx: Context, c: Candidate) returns (allowed: bool, size: real, checks: seq<Check>)
    requires policy.Valid() && c.market.Valid()
    ensures allowed <==> EntryAllowed(policy, ctx, c)
    ensures size == if allowed then EntrySize(policy, ctx.view, c) else 0.0
    ensures allowed <==> AllOk(checks)
    ensures allowed ==>
      && ctx.view.ExposureUsd() + size <= policy.maxTotalExposure
      && ctx.view.Existing(c.tokenId) + size <= policy.maxPosition
      && size * FeeFactor(c) + ctx.view.pendingBuy + policy.minBalanceReserve <= ctx.view.cash
  {
    hide AllOk, EntrySize, StateOk, MarketOk, FreshOk, PriceOk, RateOk, FeeFactor, View.ExposureUsd, View.Existing;
    NoChecks();
    checks := StateChecks([], policy, ctx);
    checks := MarketChecks(checks, ctx, c);
    checks := FreshnessChecks(checks, policy, ctx);
    checks := PriceChecks(checks, policy, ctx, c);
    checks, size := SizeChecks(checks, policy, ctx.view, c);
    checks := RateChecks(checks, policy, ctx, c);
    allowed := AllPassed(checks);
    if allowed {
      SizeWithinCaps(policy, ctx.view, c);
    } else {
      size := 0.0;
    }
  }

  method AllPassed(checks: seq<Check>) returns (ok: bool)
    ensures ok <==> AllOk(checks)
  {
    for i := 0 to |checks|
      invariant forall j :: 0 <= j < i ==> checks[j].passed
    {
      if !checks[i].passed {
        return false;
      }
    }
    ok := true;
  }

  // ---------------------------------------------------------------- the checks in plain terms

  lemma {:induction false} OpenCountIs(positions: seq<Position>)
    requires forall i :: 0 <= i < |positions| ==> positions[i].shares > 0.0
    ensures OpenCount(positions) == |positions|
  {
    if positions != [] {
      OpenCountIs(positions[1..]);
    }
  }

  /** The fee factor is one and the fee a dollar costs at the limit price. */
  lemma FeeFactorIs(c: Candidate)
    requires c.market.Valid() && 0.0 < c.worstPrice < 1.0
    ensures FeeFactor(c) == 1.0 + c.market.feeRate * (1.0 - c.worstPrice)
  {
    hide FeeRateAt;
    FeeReserve.FeePerDollarAt(c.market.feeRate, c.worstPrice);
  }

  /** An allowed entry: the bot is in the state for its mode with nothing unknown, nothing stopped and
      both streams and the books checked; the market, the prices and the estimate are fresh and sane;
      the price is a tick in the band, close enough to the best and with the edge in it. */
  lemma EntryIsTimely(policy: Policy, ctx: Context, c: Candidate)
    requires policy.Valid() && c.market.Valid() && EntryAllowed(policy, ctx, c)
    ensures ctx.mode == LiveMode ==> ctx.state == Lifecycle.BotState.Live
    ensures ctx.mode != LiveMode ==> (ctx.mode == PaperMode || ctx.mode == ReplayMode) && ctx.state == Lifecycle.Paper
    ensures !ctx.killSwitch && ctx.health.unknown == 0 && ctx.health.watchdogOk && ctx.health.marketStreamOk && ctx.health.referenceStreamOk
    ensures ctx.health.clockDriftMs.Some? && -policy.maxClockDriftMs <= ctx.health.clockDriftMs.value <= policy.maxClockDriftMs
    ensures ctx.health.lastReconciliationOk && ctx.health.lastReconciliationMs.Some?
      && ctx.now <= ctx.health.lastReconciliationMs.value + policy.requireReconciledWithinMs
    ensures ctx.view.lastLossMs.Some? ==> ctx.now >= ctx.view.lastLossMs.value + policy.cooldownAfterLossMs
    ensures ctx.resolutionValid && ctx.snapshot.acceptingOrders && ctx.snapshot.ruleId != "" && c.conditionId == ctx.snapshot.conditionId
      && c.passesFilters && c.side == Buy
    ensures ctx.snapshot.isFresh && ctx.snapshot.quote.bookValid && ctx.snapshot.priceToBeatVerified
    ensures ctx.snapshot.quote.bookAgeMs.Some? && ctx.snapshot.quote.bookAgeMs.value <= policy.maxDataAgeMs
    ensures ctx.snapshot.spotAgeMs.Some? && ctx.snapshot.spotAgeMs.value <= policy.maxReferenceAgeMs
    ensures ctx.snapshot.twapAgeMs.Some? && ctx.snapshot.twapAgeMs.value <= policy.maxReferenceAgeMs
    ensures ctx.snapshot.timeToExpiryMs >= policy.minTimeToExpiryMs && ctx.snapshot.timeSinceStartMs >= policy.minTimeSinceStartMs
    ensures ctx.health.inFlight < ctx.maxInFlight && c.tokenId !in ctx.health.inFlightTokens
    ensures c.conditionId in ctx.rates.lastSubmitByMarket ==>
      ctx.now >= ctx.rates.lastSubmitByMarket[c.conditionId] + policy.cooldownSameMarketMs
  {
    hide PriceOk, SizeOk, LossLimitBreached;
  }

  lemma EntryIsPriced(policy: Policy, ctx: Context, c: Candidate)
    requires policy.Valid() && c.market.Valid() && EntryAllowed(policy, ctx, c)
    ensures ctx.snapshot.quote.spread.Some? && ctx.snapshot.quote.spread.value <= policy.maxSpread
    ensures c.slippage <= policy.maxSlippage && c.liquidity >= policy.minLiquidity && c.market.feeRate <= 0.2
    ensures 0.0 < policy.minEntryPrice <= c.worstPrice <= policy.maxEntryPrice < 1.0 && OnGrid(c.worstPrice, c.market.tickSize)
    ensures c.conservativeEdge >= policy.minConservativeEdge && c.worstCaseEdge >= policy.minConservativeEdge
    ensures c.uncertainty <= policy.maxUncertainty && 0.0 <= c.lowerProbability <= c.fairProbability <= c.upperProbability <= 1.0
  {
    hide StateOk, MarketOk, FreshOk, SizeOk, RateOk, OnTick, OnGrid;
    Intents.TickIsGrid(c.worstPrice, c.market.tickSize);
  }

  /** Its size is whole cents, at least a dollar and the market's least number of shares, within every
      cap with what is held and on order, and paid with its fee from the cash above the reserve. */
  lemma EntryIsSized(policy: Policy, ctx: Context, c: Candidate)
    requires policy.Valid() && c.market.Valid() && EntryAllowed(policy, ctx, c)
    ensures var size := EntrySize(policy, ctx.view, c);
      && OnGrid(size, 0.01) && size >= 1.0 && size / c.worstPrice >= c.market.minOrderSize
      && size <= c.notional && size <= policy.maxOrderSize
      && ctx.view.Existing(c.tokenId) + size <= policy.maxPosition
      && Exposure(ctx.view.positions) + ctx.view.pendingBuy + size <= policy.maxTotalExposure
      && size * (1.0 + c.market.feeRate * (1.0 - c.worstPrice)) <= ctx.view.cash - ctx.view.pendingBuy - policy.minBalanceReserve
    ensures |TokensInMarket(ctx.view, c)| <= policy.maxPositionsPerMarket
    ensures (forall i :: 0 <= i < |ctx.view.positions| ==> ctx.view.positions[i].shares > 0.0 && ctx.view.positions[i].tokenId != c.tokenId)
      ==> |ctx.view.positions| < policy.maxOpenPositions
  {
    hide StateOk, MarketOk, FreshOk, RateOk, FloorTo, FeeFactor, OnGrid, View.Existing, TokensInMarket, Cap;
    var size := EntrySize(policy, ctx.view, c);
    EntryIsPriced(policy, ctx, c);
    SizeWithinCaps(policy, ctx.view, c);
    FeeFactorIs(c);
    RoundedOnGrid(ScaledBy(Cap(policy, ctx.view, c), c.sizeMultiplier), 0.01);
    if forall i :: 0 <= i < |ctx.view.positions| ==> ctx.view.positions[i].shares > 0.0 && ctx.view.positions[i].tokenId != c.tokenId {
      OpenCountIs(ctx.view.positions);
    }
  }

  // ---------------------------------------------------------------- losses stop entries

  /** An allowed entry means equity above every loss limit, as amounts of money. */
  lemma EntriesOnlyWithinLosses(policy: Policy, ctx: Context, c: Candidate)
    requires c.market.Valid() && EntryAllowed(policy, ctx, c)
    ensures ctx.view.equity > ctx.view.startOfDayEquity - policy.maxDailyLoss
    ensures ctx.view.startOfDayEquity > 0.0 ==> ctx.view.equity > ctx.view.startOfDayEquity - policy.maxDailyLossPct * ctx.view.startOfDayEquity
    ensures ctx.view.peakEquity > 0.0 ==> ctx.view.equity > ctx.view.peakEquity - policy.maxDrawdownPct * ctx.view.peakEquity
  {
    hide MarketOk, FreshOk, PriceOk, SizeOk, RateOk;
    var v := ctx.view;
    if v.startOfDayEquity > 0.0 {
      BelowShare(-v.DailyPnl(), v.startOfDayEquity, policy.maxDailyLossPct);
    }
    if v.peakEquity > 0.0 {
      BelowShare(v.peakEquity - v.equity, v.peakEquity, policy.maxDrawdownPct);
    }
  }

  lemma BelowShare(loss: real, base: real, share: real)
    requires base > 0.0 && loss / base < share
    ensures loss < share * base
  {
    DivMul(loss, base);
    MulLt(loss / base, share, base);
  }

  /** Over any run of the ledger, once as many trades in a row as the policy allows have closed at a
      loss, no entry is allowed. */
  lemma LosingStreakStopsEntries(initial: real, start: int, ops: seq<Op>, policy: Policy, ctx: Context, c: Candidate)
    requires LegalOps(ops) && c.market.Valid()
    requires ctx.view.consecutiveLosses == Accounting.Run(WithCash(initial, start), ops).consecutiveLosses
    requires TrailingLosses(Accounting.Run(WithCash(initial, start), ops).closed) >= policy.maxConsecutiveLosses
    ensures !EntryAllowed(policy, ctx, c)
  {
    hide Accounting.Run, TrailingLosses, MarketOk, FreshOk, PriceOk, SizeOk, RateOk;
    LossStreak(initial, start, ops);
  }

  // ---------------------------------------------------------------- entries over a whole run

  /** One recorded entry: the context it was approved in and when it was recorded. */
  datatype Recorded = Recorded(ctx: Context, candidate: Candidate, time: int)

  function Times(entries: seq<Recorded>): seq<int> {
    seq(|entries|, i requires 0 <= i < |entries| => entries[i].time)
  }

  function Looks(entries: seq<Recorded>): seq<int> {
    seq(|entries|, i requires 0 <= i < |entries| => entries[i].ctx.now)
  }

  /** Each entry was approved on the tracker's counts of all entries before it. */
  ghost predicate Approved(policy: Policy, entries: seq<Recorded>) {
    forall i :: 0 <= i < |entries| ==> ApprovedAt(policy, entries, i)
  }

  ghost predicate ApprovedAt(policy: Policy, entries: seq<Recorded>, i: nat)
    requires i < |entries|
  {
    var e := entries[i];
    && e.candidate.market.Valid() && EntryAllowed(policy, e.ctx, e.candidate)
    && e.ctx.rates == ViewOf(Times(entries)[..i], [], e.ctx.rates.lastSubmitByMarket, e.ctx.now).(
                        exitsLastMinute := e.ctx.rates.exitsLastMinute)
  }

  /** Over any run, one entry more than the policy's limit always spans more than the window. */
  lemma EntriesKeepEveryLimit(policy: Policy, entries: seq<Recorded>, i: nat)
    requires Looked(Times(entries), Looks(entries)) && Approved(policy, entries)
    ensures i + policy.maxTradesPerMinute < |entries| ==> entries[i + policy.maxTradesPerMinute].time - entries[i].time > 60_000
    ensures i + policy.maxTradesPerHour < |entries| ==> entries[i + policy.maxTradesPerHour].time - entries[i].time > 3_600_000
    ensures i + policy.maxTradesPerDay < |entries| ==> entries[i + policy.maxTradesPerDay].time - entries[i].time > 86_400_000
  {
    hide CountWithin, EntryAllowed, Looked, Spaced;
    LimitsPositive(policy, entries);
    WindowKept(policy, entries, MINUTE, policy.maxTradesPerMinute, i);
    WindowKept(policy, entries, HOUR, policy.maxTradesPerHour, i);
    WindowKept(policy, entries, DAY, policy.maxTradesPerDay, i);
  }

  lemma LimitsPositive(policy: Policy, entries: seq<Recorded>)
    requires Approved(policy, entries)
    ensures forall j :: 0 <= j < |entries| ==>
      && CountWithin(Times(entries)[..j], Looks(entries)[j], MINUTE) < policy.maxTradesPerMinute
      && CountWithin(Times(entries)[..j], Looks(entries)[j], HOUR) < policy.maxTradesPerHour
      && CountWithin(Times(entries)[..j], Looks(entries)[j], DAY) < policy.maxTradesPerDay
  {
    hide CountWithin, StateOk, MarketOk, FreshOk, PriceOk, SizeOk;
    forall j | 0 <= j < |entries|
      ensures CountWithin(Times(entries)[..j], Looks(entries)[j], MINUTE) < policy.maxTradesPerMinute
        && CountWithin(Times(entries)[..j], Looks(entries)[j], HOUR) < policy.maxTradesPerHour
        && CountWithin(Times(entries)[..j], Looks(entries)[j], DAY) < policy.maxTradesPerDay
    {
      assert ApprovedAt(policy, entries, j);
    }
  }

  lemma WindowKept(policy: Policy, entries: seq<Recorded>, window: int, limit: nat, i: nat)
    requires Looked(Times(entries), Looks(entries))
    requires forall j :: 0 <= j < |entries| ==> CountWithin(Times(entries)[..j], Looks(entries)[j], window) < limit
    ensures i + limit < |entries| ==> entries[i + limit].time - entries[i].time > window
  {
    hide CountWithin, Looked, EntryAllowed, Times, Looks;
    if i + limit < |entries| {
      SameLength(entries);
      assert CountWithin(Times(entries)[..i], Looks(entries)[i], window) < limit;
      GateIsSlidingWindow(Times(entries), Looks(entries), window, limit);
      assert Times(entries)[i + limit] - Times(entries)[i] > window;
      TimeAt(entries, i);
      TimeAt(entries, i + limit);
    }
  }

  lemma SameLength(entries: seq<Recorded>)
    ensures |Times(entries)| == |Looks(entries)| == |entries|
  {
  }

  lemma TimeAt(entries: seq<Recorded>, i: nat)
    requires i < |entries|
    ensures |Times(entries)| == |entries| && Times(entries)[i] == entries[i].time
  {
  }

  // ---------------------------------------------------------------- exits

  function HeldShares(view: View, token: TokenId): real {
    SharesOf(view.positions, token)
  }

  function PendingSell(view: View, token: TokenId): real {
    if token in view.pendingSell then view.pendingSell[token] else 0.0
  }

  predicate ExitStateOk(policy: Policy, ctx: Context, exitInKillSwitch: bool) {
    || ctx.state.Trading()
    || (ctx.state.Halted? && policy.allowExitsWhenHalted)
    || (ctx.state.KillSwitch? && exitInKillSwitch)
  }

  /** What the market's snapshot, if there is one, has to say about an exit. */
  predicate ExitMarketOk(policy: Policy, market: Market, quote: Quote, shares: real, minPrice: real)
    requires market.Valid()
  {
    && shares >= market.minOrderSize && OnTick(minPrice, market.tickSize)
    && (policy.exitsRequireFreshBook ==> quote.bookValid && AtMost(quote.bookAgeMs, policy.maxDataAgeMs))
  }

  /** Everything an exit has to pass. */
  predicate ExitAllowed(policy: Policy, ctx: Context, token: TokenId, shares: real, minPrice: Option<real>, market: Option<Market>,
                        exitInKillSwitch: bool)
    requires market.Some? ==> market.value.Valid()
  {
    && ctx.mode.Trades() && ExitStateOk(policy, ctx, exitInKillSwitch)
    && (!ctx.killSwitch || exitInKillSwitch) && ctx.health.unknown == 0
    && 0.0 < shares <= HeldShares(ctx.view, token) - PendingSell(ctx.view, token)
    && minPrice.Some? && token !in ctx.health.inFlightTokens
    && ctx.rates.exitsLastMinute < policy.maxTradesPerMinute * 2
    && market.Some? && ExitMarketOk(policy, market.value, ctx.snapshot.quote, shares, minPrice.value)
  }

  /** An allowed exit sells some but never more than what is held and not already being sold. */
  method EvaluateExit(policy: Policy, ctx: Context, token: TokenId, shares: real, minPrice: Option<real>, market: Option<Market>,
                      exitInKillSwitch: bool)
    returns (allowed: bool, sell: real)
    requires market.Some? ==> market.value.Valid()
    ensures allowed <==> ExitAllowed(policy, ctx, token, shares, minPrice, market, exitInKillSwitch)
    ensures allowed ==> 0.0 < sell <= HeldShares(ctx.view, token) - PendingSell(ctx.view, token)
    ensures sell == if allowed then shares else 0.0
  {
    hide AllOk, OnTick, HeldShares, PendingSell, ExitStateOk;
    NoChecks();
    var sellable := HeldShares(ctx.view, token) - PendingSell(ctx.view, token);
    var checks := Add([], TradingMode, ctx.mode.Trades());
    checks := Add(checks, State, ExitStateOk(policy, ctx, exitInKillSwitch));
    checks := Add(checks, KillSwitch, !ctx.killSwitch || exitInKillSwitch);
    checks := Add(checks, UnknownOrders, ctx.health.unknown == 0);
    checks := Add(checks, ReduceOnly, 0.0 < shares <= sellable);
    checks := Add(checks, MinPriceSet, minPrice.Some?);
    checks := Add(checks, InFlight, token !in ctx.health.inFlightTokens);
    checks := Add(checks, RateMinute, ctx.rates.exitsLastMinute < policy.maxTradesPerMinute * 2);
    if market.Some? {
      checks := Add(checks, MinOrderSize, shares >= market.value.minOrderSize);
      if minPrice.Some? {
        checks := Add(checks, TickSize, OnTick(minPrice.value, market.value.tickSize));
      }
      if policy.exitsRequireFreshBook {
        var quote := ctx.snapshot.quote;
        checks := Add(checks, BookAge, quote.bookValid && AtMost(quote.bookAgeMs, policy.maxDataAgeMs));
      }
    } else {
      checks := Add(checks, SnapshotAvailable, false);
    }
    allowed := AllPassed(checks);
    sell := if allowed then shares else 0.0;
  }

  /** An allowed exit: while trading, or halted or under the kill switch where the policy lets exits
      through; priced on a tick, of the market's least size, on a book the policy finds fresh enough,
      with nothing unknown, no other order on the token and less than twice the entries' rate. */
  lemma ExitIsTimely(policy: Policy, ctx: Context, token: TokenId, shares: real, minPrice: Option<real>, market: Option<Market>,
                     exitInKillSwitch: bool)
    requires market.Some? ==> market.value.Valid()
    requires ExitAllowed(policy, ctx, token, shares, minPrice, market, exitInKillSwitch)
    ensures ctx.mode == PaperMode || ctx.mode == ReplayMode || ctx.mode == LiveMode
    ensures ctx.state == Lifecycle.Paper || ctx.state == Lifecycle.BotState.Live
      || (ctx.state == Lifecycle.Halted && policy.allowExitsWhenHalted)
      || (ctx.state == Lifecycle.BotState.KillSwitch && exitInKillSwitch)
    ensures ctx.killSwitch ==> exitInKillSwitch
    ensures ctx.health.unknown == 0 && token !in ctx.health.inFlightTokens && ctx.rates.exitsLastMinute < 2 * policy.maxTradesPerMinute
    ensures minPrice.Some? && market.Some? && OnGrid(minPrice.value, market.value.tickSize) && shares >= market.value.minOrderSize
    ensures policy.exitsRequireFreshBook ==>
      ctx.snapshot.quote.bookValid && ctx.snapshot.quote.bookAgeMs.Some? && ctx.snapshot.quote.bookAgeMs.value <= policy.maxDataAgeMs
  {
    hide OnTick, OnGrid;
    Intents.TickIsGrid(minPrice.value, market.value.tickSize);
  }
}
