/** Between the approved decision and the venue's door: what the engine builds, and what the venue
    accepts. */
module Intents {
  import opened Decimals
  import opened Domain
  import opened PaperVenue
  import Execution
  import FeeReserve

  /** A price is on tick when it is a whole number of ticks. */
  lemma TickIsGrid(price: real, tick: real)
    requires tick > 0.0
    ensures OnTick(price, tick) <==> OnGrid(price, tick)
  {
    if OnTick(price, tick) {
      DivMul(price, tick);
      assert price == Multiple((price / tick).Floor, tick);
    }
    if OnGrid(price, tick) {
      var k: int :| price == Multiple(k, tick);
      WholeTicks(k, tick);
    }
  }

  lemma WholeTicks(k: int, tick: real)
    requires tick > 0.0
    ensures Multiple(k, tick) / tick == k as real
  {
    Unscale(k as real, tick);
  }

  lemma Unscale(x: real, q: real)
    requires q > 0.0
    ensures x * q / q == x
  {
  }

  /** The price rounded to the market's ticks in the decision's favour: the greatest tick at or below
      it for a buy, the least at or above it for a sell. */
  ghost predicate RoundedLimit(side: Side, price: real, tick: real, limit: real) {
    OnGrid(limit, tick) && if side.Buy? then limit <= price < limit + tick else limit - tick < price <= limit
  }

  lemma OneRoundedLimit(side: Side, price: real, tick: real, x: real, y: real)
    requires tick > 0.0 && RoundedLimit(side, price, tick, x) && RoundedLimit(side, price, tick, y)
    ensures x == y
  {
    if x < y {
      GridStep(x, y, tick);
    } else if y < x {
      GridStep(y, x, tick);
    }
  }

  /** The engine builds an order exactly from an allowed decision of at most three seconds' age, not
      used before, on a token of this market with this outcome, whose rounded limit is a price and
      whose size is positive; and that order is the decision's, at the rounded limit. */
  lemma BuiltExactly(e: Execution.Engine, d: Execution.Decision, market: Market, outcome: Outcome, id: IntentId, now: int)
    requires market.Valid()
    ensures var b := Execution.BuildIntent(e, d, market, outcome, id, now);
      && (b.Built? <==>
           && d.allowed && now <= d.timestampMs + 3_000 && d.decisionId !in e.usedDecisions
           && ((d.tokenId == market.first.tokenId && outcome == market.first.outcome)
               || (d.tokenId == market.second.tokenId && outcome == market.second.outcome))
           && (if d.side.Buy? then d.maxSizeUsd > 0.0 else d.maxShares > 0.0)
           && exists limit :: RoundedLimit(d.side, d.limitPrice, market.tickSize, limit) && 0.0 < limit < 1.0)
      && (b.Built? ==>
           && b.intent.intentId == id && b.intent.decisionId == d.decisionId && b.intent.createdMs == now
           && b.intent.conditionId == market.conditionId && b.intent.tokenId == d.tokenId && b.intent.outcome == outcome
           && b.intent.side == d.side && b.intent.quantity == (if d.side.Buy? then d.maxSizeUsd else d.maxShares)
           && RoundedLimit(d.side, d.limitPrice, market.tickSize, b.intent.limitPrice))
  {
    hide FloorTo, CeilTo, OnGrid;
    var limit := if d.side.Buy? then FloorTo(d.limitPrice, market.tickSize) else CeilTo(d.limitPrice, market.tickSize);
    RoundedOnGrid(d.limitPrice, market.tickSize);
    assert RoundedLimit(d.side, d.limitPrice, market.tickSize, limit);
    if other :| RoundedLimit(d.side, d.limitPrice, market.tickSize, other) && 0.0 < other < 1.0 {
      OneRoundedLimit(d.side, d.limitPrice, market.tickSize, limit, other);
    }
  }

  /** The venue takes an order exactly when it can be matched at once, is of the market, is priced
      on its ticks and is covered, with the fee at the limit price reserved; then it is queued last,
      to arrive after the latency, its jitter and the taker delay. A refusal leaves nothing but the
      count. */
  lemma AcceptedExactly(cfg: Config, v: Venue, intent: OrderIntent, market: Market, now: int, jitter: nat, chaos: bool)
    requires market.Valid() && intent.Valid()
    ensures var (w, ack) := Submit(cfg, v, intent, market, now, jitter, chaos);
      && (ack.accepted <==>
            && !chaos && (intent.orderType.FAK? || intent.orderType.FOK?)
            && (intent.tokenId == market.first.tokenId || intent.tokenId == market.second.tokenId)
            && OnGrid(intent.limitPrice, market.tickSize)
            && (if intent.side.Buy?
                then intent.quantity * (1.0 + market.feeRate * (1.0 - intent.limitPrice) * cfg.feeMult) <= v.cash
                else intent.quantity <= v.Held(intent.tokenId)))
      && (!ack.accepted ==> w == v.(submitted := v.submitted + 1) && ack.status.Rejected? && ack.exchangeOrderId.None?)
      && (ack.accepted ==>
           && ack.status.Live? && ack.exchangeOrderId == Some(v.submitted + 1)
           && w == v.(submitted := v.submitted + 1,
                      pending := v.pending + [Pending(intent, v.submitted + 1, now + cfg.latencyMs + jitter + cfg.takerDelayMs,
                                                      market.feeRate)]))
  {
    hide OnTick, OnGrid, LimitFee;
    TickIsGrid(intent.limitPrice, market.tickSize);
    FeeReserve.LimitFeeIs(cfg, market.feeRate, intent.limitPrice);
  }

  /** A built order never goes past what was approved, by less than a tick, and the venue can only
      refuse it for want of money or shares. */
  lemma BuiltFitsTheVenue(e: Execution.Engine, d: Execution.Decision, market: Market, outcome: Outcome, id: IntentId, now: int,
                          cfg: Config, v: Venue)
    requires market.Valid() && Execution.BuildIntent(e, d, market, outcome, id, now).Built?
    ensures var i := Execution.BuildIntent(e, d, market, outcome, id, now).intent;
      && (if d.side.Buy? then i.limitPrice <= d.limitPrice < i.limitPrice + market.tickSize
          else i.limitPrice - market.tickSize < d.limitPrice <= i.limitPrice)
      && (i.side.Buy? ==> i.quantity == d.maxSizeUsd) && (i.side.Sell? ==> i.quantity == d.maxShares)
      && Validate(cfg, v, i, market) in {None, Some(NotEnoughBalance), Some(NotEnoughShares)}
  {
    hide OnTick, OnGrid, LimitFee, FloorTo, CeilTo;
    var i := Execution.BuildIntent(e, d, market, outcome, id, now).intent;
    FloorIsLargest(d.limitPrice, market.tickSize, 0.0);
    CeilIsLeast(d.limitPrice, market.tickSize, 0.0);
    TickIsGrid(i.limitPrice, market.tickSize);
  }
}
