/** The entry candidate a book and an estimate give: what the walk up the asks buys, what it costs in
    all, the edges that leaves, and the filters. Whatever is bought clears the minimum edge by the
    way it is bought; only rounding can put a candidate below it. */
module EdgeEngine {
  import opened Decimals
  import opened Domain
  import opened Matching
  import opened PaperVenue
  import opened EdgeWalk
  import RiskEngine

  const MICRO: real := 0.000001
  const NO_SPREAD: real := 0.05
  const NO_BID_FEE: real := 0.02
  const NO_ASK_PRICE: real := 0.99
  const LEAST_WIDTH: real := 0.000000001

  datatype Settings = Settings(targetOrder: real, buffer: real, exitProbability: real, minConfidence: real)
  {
    predicate Valid() {
      targetOrder > 0.0 && buffer >= 0.0 && 0.0 <= exitProbability <= 1.0 && 0.0 <= minConfidence <= 1.0
    }
  }

  /** The fair value of an outcome with its bounds. */
  datatype Estimate = Estimate(ok: bool, conflict: bool, fair: real, lower: real, upper: real)

  function BestBid(book: Snapshot): Option<real> {
    if book.bids == [] then None else Some(book.bids[0].price)
  }

  function SpreadOf(book: Snapshot): Option<real> {
    if book.asks == [] || book.bids == [] then None else Some(book.asks[0].price - book.bids[0].price)
  }

  /** Half the spread and the fee at the bid, times the chance of leaving early. */
  function ExitCost(cfg: Settings, market: Market, book: Snapshot): real {
    var spread, bid := SpreadOf(book), BestBid(book);
    cfg.exitProbability
      * ((if spread.Some? then spread.value / 2.0 else NO_SPREAD)
         + (if bid.Some? then FeeRateAt(market.feeRate, bid.value) else NO_BID_FEE))
  }

  function TermsOf(cfg: Settings, policy: RiskEngine.Policy, market: Market, book: Snapshot, est: Estimate): Terms {
    Terms(market.feeRate, cfg.buffer,
          RoundHalfEven(est.lower, MICRO) - policy.minConservativeEdge - ExitCost(cfg, market, book))
  }

  function Budget(cfg: Settings, policy: RiskEngine.Policy): real {
    Min(cfg.targetOrder, policy.maxOrderSize)
  }

  function LotsOf(cfg: Settings, policy: RiskEngine.Policy, market: Market, book: Book, est: Estimate): seq<Lot> {
    Bought(TermsOf(cfg, policy, market, book, est), book.asks, Budget(cfg, policy)).lots
  }

  /** What the walk comes to, a share. */
  datatype Price = Price(vwap: real, worst: real, fee: real)

  function PriceOf(market: Market, book: Book, lots: seq<Lot>): Price {
    var shares := Shares(lots);
    var none := if book.asks == [] then NO_ASK_PRICE else book.asks[0].price;
    if lots == [] || shares <= 0.0 then Price(none, none, FeeRateAt(market.feeRate, none))
    else Price(Spent(lots) / shares, lots[|lots| - 1].price, Fees(market.feeRate, 1.0, lots) / shares)
  }

  function Conservative(cfg: Settings, est: Estimate, p: Price, exitCost: real): real {
    est.lower - (p.vwap + p.fee + cfg.buffer) - exitCost
  }

  function WorstCase(cfg: Settings, market: Market, est: Estimate, p: Price, exitCost: real): real {
    Min(est.lower - Marginal(Terms(market.feeRate, cfg.buffer, 0.0), p.worst) - exitCost, Conservative(cfg, est, p, exitCost))
  }

  function Confidence(edge: real, width: real): real {
    Max(0.0, Min(1.0, edge / Max(width, LEAST_WIDTH)))
  }

  predicate Passes(cfg: Settings, policy: RiskEngine.Policy, seen: RiskEngine.MarketSnapshot, resolutionValid: bool, est: Estimate,
                   lots: seq<Lot>, spread: Option<real>, c: RiskEngine.Candidate)
  {
    && est.ok && !est.conflict && resolutionValid && seen.isFresh && lots != []
    && spread.Some? && spread.value <= policy.maxSpread
    && c.liquidity >= policy.minLiquidity && c.slippage <= policy.maxSlippage
    && c.conservativeEdge >= policy.minConservativeEdge && c.worstCaseEdge >= policy.minConservativeEdge
    && c.uncertainty <= policy.maxUncertainty && seen.timeToExpiryMs >= policy.minTimeToExpiryMs
    && policy.minEntryPrice <= c.worstPrice <= policy.maxEntryPrice && Shares(lots) >= c.market.minOrderSize
    && Confidence(c.conservativeEdge, c.uncertainty) >= cfg.minConfidence
  }

  /** The candidate of one outcome. */
  function CandidateOn(cfg: Settings, policy: RiskEngine.Policy, market: Market, token: TokenId, book: Book,
                       seen: RiskEngine.MarketSnapshot, resolutionValid: bool, est: Estimate): RiskEngine.Candidate
  {
    var terms, lots := TermsOf(cfg, policy, market, book, est), LotsOf(cfg, policy, market, book, est);
    var p, cost := PriceOf(market, book, lots), ExitCost(cfg, market, book);
    var c := RiskEngine.Candidate(
               token, market.conditionId, Buy, true, Spent(lots), p.worst,
               if book.asks == [] then 1.0 else p.vwap - book.asks[0].price,
               Depth(book.asks[..Reach(terms, book.asks)]),
               Conservative(cfg, est, p, cost), WorstCase(cfg, market, est, p, cost), est.upper - est.lower,
               est.lower, est.fair, est.upper, market, 1.0);
    c.(passesFilters := Passes(cfg, policy, seen, resolutionValid, est, lots, SpreadOf(book), c))
  }

  // ---------------------------------------------------------------- every share clears the edge

  lemma PerShare(total: real, shares: real, limit: real, dust: real)
    requires shares > 0.0 && total <= limit * shares + dust
    ensures total / shares <= limit + dust / shares
  {
    DivMul(total, shares);
    DivMul(dust, shares);
    if total / shares > limit + dust / shares {
      MulLt(limit + dust / shares, total / shares, shares);
    }
  }

  lemma SumPerShare(spent: real, fees: real, buffer: real, shares: real)
    requires shares > 0.0
    ensures (spent + fees + Times(buffer, shares)) / shares == spent / shares + fees / shares + buffer
  {
    DivMul(spent, shares);
    DivMul(fees, shares);
    assert (spent / shares + fees / shares + buffer) * shares == spent + fees + Times(buffer, shares);
    Quotient(spent / shares + fees / shares + buffer, shares, spent + fees + Times(buffer, shares));
  }

  lemma Quotient(x: real, y: real, z: real)
    requires y > 0.0 && x * y == z
    ensures z / y == x
  {
  }

  lemma {:induction false} SomeShares(lots: seq<Lot>)
    requires lots != [] && forall i :: 0 <= i < |lots| ==> lots[i].shares > 0.0
    ensures Shares(lots) > 0.0
  {
    if |lots| > 1 {
      SomeShares(lots[1..]);
    }
  }

  /** Once anything is bought, the conservative edge is at least the minimum less one fee quantum a
      level, spread over the shares, and the rounding of the lower bound; the edge at the worst
      price lacks that rounding at most. */
  lemma EveryShareClears(cfg: Settings, policy: RiskEngine.Policy, market: Market, book: Book, est: Estimate)
    requires cfg.Valid() && policy.Valid() && market.Valid() && PositiveSizes(book.asks)
    requires LotsOf(cfg, policy, market, book, est) != []
    ensures Shares(LotsOf(cfg, policy, market, book, est)) > 0.0
    ensures var lots := LotsOf(cfg, policy, market, book, est);
      var p, cost := PriceOf(market, book, lots), ExitCost(cfg, market, book);
      var short := |lots| as real * FEE_QUANTUM / Shares(lots);
      && Conservative(cfg, est, p, cost) >= policy.minConservativeEdge - short - MICRO / 2.0
      && WorstCase(cfg, market, est, p, cost) >= policy.minConservativeEdge - short - MICRO / 2.0
      && est.lower - Marginal(Terms(market.feeRate, cfg.buffer, 0.0), p.worst) - cost >= policy.minConservativeEdge - MICRO / 2.0
  {
    hide Bought, Fees, Spent, Shares, RoundHalfEven, ExitCost, Marginal, FloorTo, Times;
    var t, lots := TermsOf(cfg, policy, market, book, est), LotsOf(cfg, policy, market, book, est);
    var cost := ExitCost(cfg, market, book);
    Affords(t, book.asks, Budget(cfg, policy));
    AllInCostBounded(t, book.asks, Budget(cfg, policy));
    SomeShares(lots);
    var dust := |lots| as real * FEE_QUANTUM;
    PerShareOf(t, lots, dust);
    SameMarginal(t, Terms(market.feeRate, cfg.buffer, 0.0), lots[|lots| - 1].price);
    Pays(dust, Shares(lots));
  }

  lemma Pays(dust: real, shares: real)
    requires dust >= 0.0 && shares > 0.0
    ensures dust / shares >= 0.0
  {
  }

  lemma PerShareOf(t: Terms, lots: seq<Lot>, dust: real)
    requires Shares(lots) > 0.0
    requires Spent(lots) + Fees(t.feeRate, 1.0, lots) + Times(t.buffer, Shares(lots)) <= Times(t.maxMarginal, Shares(lots)) + dust
    ensures Spent(lots) / Shares(lots) + Fees(t.feeRate, 1.0, lots) / Shares(lots) + t.buffer <= t.maxMarginal + dust / Shares(lots)
  {
    hide Spent, Fees, Shares;
    var total := Spent(lots) + Fees(t.feeRate, 1.0, lots) + Times(t.buffer, Shares(lots));
    PerShare(total, Shares(lots), t.maxMarginal, dust);
    SumPerShare(Spent(lots), Fees(t.feeRate, 1.0, lots), t.buffer, Shares(lots));
  }

  lemma SameMarginal(t: Terms, u: Terms, price: real)
    requires t.feeRate == u.feeRate && t.buffer == u.buffer
    ensures Marginal(t, price) == Marginal(u, price)
  {
  }

  lemma Affords(t: Terms, asks: seq<Level>, budget: real)
    requires t.Valid() && PricedInRange(asks) && PositiveSizes(asks) && budget >= 0.0
    ensures GoodLots(t, Bought(t, asks, budget).lots)
  {
    hide BuyWalk, EdgeWalk.Affordable;
    var cut := asks[..Reach(t, asks)];
    BuyWalkKeeps(cut, 1.0, budget);
    LotsAffordable(t, cut, Bought(t, asks, budget).lots);
  }

  // ---------------------------------------------------------------- what the filters let through

  /** A candidate that passes was made on a book with both sides, inside the spread, from an estimate
      that stands, and clears every limit of the policy with something to buy. */
  lemma PassingIsTradeable(cfg: Settings, policy: RiskEngine.Policy, market: Market, token: TokenId, book: Book,
                           seen: RiskEngine.MarketSnapshot, resolutionValid: bool, est: Estimate)
    requires cfg.Valid() && policy.Valid() && market.Valid()
    requires CandidateOn(cfg, policy, market, token, book, seen, resolutionValid, est).passesFilters
    ensures est.ok && !est.conflict && resolutionValid && seen.isFresh && seen.timeToExpiryMs >= policy.minTimeToExpiryMs
    ensures book.asks != [] && book.bids != [] && book.asks[0].price - book.bids[0].price <= policy.maxSpread
    ensures var c, lots := CandidateOn(cfg, policy, market, token, book, seen, resolutionValid, est), LotsOf(cfg, policy, market, book, est);
      && lots != [] && c.notional == Spent(lots) && c.worstPrice == lots[|lots| - 1].price && Shares(lots) >= market.minOrderSize
      && c.tokenId == token && c.conditionId == market.conditionId && c.side == Buy
      && c.liquidity >= policy.minLiquidity && c.slippage <= policy.maxSlippage && est.upper - est.lower <= policy.maxUncertainty
      && c.conservativeEdge >= policy.minConservativeEdge && c.worstCaseEdge >= policy.minConservativeEdge
      && policy.minEntryPrice <= c.worstPrice <= policy.maxEntryPrice
      && (cfg.minConfidence > 0.0 ==> c.conservativeEdge >= cfg.minConfidence * Max(est.upper - est.lower, 0.000000001))
  {
    hide Bought, TermsOf, Conservative, WorstCase, Confidence;
    var c := CandidateOn(cfg, policy, market, token, book, seen, resolutionValid, est);
    ConfidenceMeans(c.conservativeEdge, est.upper - est.lower, cfg.minConfidence);
  }

  lemma ConfidenceMeans(edge: real, width: real, least: real)
    requires Confidence(edge, width) >= least
    ensures least > 0.0 ==> edge >= least * Max(width, 0.000000001)
  {
    var over := Max(width, 0.000000001);
    if least > 0.0 {
      DivMul(edge, over);
      MulLe(least, edge / over, over);
    }
  }

  /** The edge is what the estimate's lower bound leaves over the average price, the fees and the
      buffer a share, and over half the spread and the fee at the bid, for the chance of an early exit. */
  lemma EdgeIs(cfg: Settings, policy: RiskEngine.Policy, market: Market, token: TokenId, book: Book,
               seen: RiskEngine.MarketSnapshot, resolutionValid: bool, est: Estimate)
    requires market.Valid() && book.bids != [] && book.asks != [] && Shares(LotsOf(cfg, policy, market, book, est)) > 0.0
    ensures var c, lots := CandidateOn(cfg, policy, market, token, book, seen, resolutionValid, est), LotsOf(cfg, policy, market, book, est);
      var bid, ask := book.bids[0].price, book.asks[0].price;
      && c.conservativeEdge
           == est.lower - Spent(lots) / Shares(lots) - Fees(market.feeRate, 1.0, lots) / Shares(lots) - cfg.buffer
              - cfg.exitProbability * ((ask - bid) / 2.0 + market.feeRate * (bid * (1.0 - bid)))
      && c.slippage == Spent(lots) / Shares(lots) - ask
      && c.worstCaseEdge <= c.conservativeEdge
  {
    hide Bought, TermsOf, Fees, Spent, Shares, Marginal;
    assert Shares([]) == 0.0 by { NoShares(); }
  }

  lemma NoShares()
    ensures Shares([]) == 0.0
  {
  }
}
