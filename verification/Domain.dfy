/** Orders, fills, markets and fees: the values the order path exchanges. */
module Domain {
  import opened Decimals

  type TokenId = string
  type ConditionId = string
  type Outcome = string
  type DecisionId = string
  type IntentId = nat
  type OrderId = nat

  datatype Option<+T> = None | Some(value: T)

  ghost predicate NoRepeats<T>(s: seq<T>) {
    forall i, j :: 0 <= i < j < |s| ==> s[i] != s[j]
  }

  datatype Side = Buy | Sell

  datatype OrderType = GTC | GTD | FOK | FAK

  datatype OrderStatus =
    | Intent | Submitting | Live | PartiallyFilled | Filled | Cancelled | Rejected | Expired | Unknown
  {
    predicate IsTerminal() {
      Filled? || Cancelled? || Rejected? || Expired?
    }

    predicate IsOpen() {
      Intent? || Submitting? || Live? || PartiallyFilled? || Unknown?
    }
  }

  /** `quantity` is the collateral to spend for a buy and the shares to sell for a sell. */
  datatype OrderIntent = OrderIntent(
    intentId: IntentId,
    decisionId: DecisionId,
    conditionId: ConditionId,
    tokenId: TokenId,
    outcome: Outcome,
    side: Side,
    orderType: OrderType,
    limitPrice: real,
    quantity: real,
    createdMs: int)
  {
    predicate Valid() {
      0.0 < limitPrice < 1.0 && quantity > 0.0
    }
  }

  datatype FillId = FillId(orderId: OrderId, index: nat)

  datatype Fill = Fill(
    fillId: FillId,
    intentId: Option<IntentId>,
    exchangeOrderId: Option<OrderId>,
    conditionId: ConditionId,
    tokenId: TokenId,
    outcome: Outcome,
    side: Side,
    price: real,
    shares: real,
    fee: real,
    tsMs: int)
  {
    predicate Valid() {
      shares > 0.0 && 0.0 < price < 1.0 && fee >= 0.0
    }
  }

  datatype OrderUpdate = OrderUpdate(
    exchangeOrderId: OrderId,
    intentId: Option<IntentId>,
    status: OrderStatus,
    cumulativeFilled: real,
    tsMs: int)

  datatype Event = FillEvent(fill: Fill) | UpdateEvent(update: OrderUpdate)
  {
    function IntentId(): Option<IntentId> {
      if FillEvent? then fill.intentId else update.intentId
    }

    function ExchangeOrderId(): Option<OrderId> {
      if FillEvent? then fill.exchangeOrderId else Some(update.exchangeOrderId)
    }

    function TsMs(): int {
      if FillEvent? then fill.tsMs else update.tsMs
    }
  }

  datatype OrderRecord = OrderRecord(
    intent: OrderIntent,
    status: OrderStatus,
    exchangeOrderId: Option<OrderId>,
    filledShares: real,
    filledNotional: real,
    fees: real,
    updatedMs: int)

  datatype OrderAck = OrderAck(
    accepted: bool,
    status: OrderStatus,
    exchangeOrderId: Option<OrderId>,
    receivedMs: int)

  datatype Token = Token(tokenId: TokenId, outcome: Outcome)

  /** A binary market; `feeRate` is the taker fee rate of its schedule with exponent 1. */
  datatype Market = Market(
    conditionId: ConditionId,
    first: Token,
    second: Token,
    tickSize: real,
    feeRate: real,
    minOrderSize: real)
  {
    predicate Valid() {
      && first.tokenId != second.tokenId
      && tickSize > 0.0
      && 0.0 <= feeRate <= 1.0
      && minOrderSize > 0.0
    }

    predicate HasToken(token: TokenId) {
      token == first.tokenId || token == second.tokenId
    }

    function OutcomeOf(token: TokenId): Outcome
      requires HasToken(token)
    {
      if token == first.tokenId then first.outcome else second.outcome
    }
  }

  datatype Level = Level(price: real, size: real)

  datatype Snapshot = Snapshot(bids: seq<Level>, asks: seq<Level>)

  predicate PricedInRange(levels: seq<Level>) {
    forall i :: 0 <= i < |levels| ==> 0.0 < levels[i].price < 1.0
  }

  predicate Ascending(levels: seq<Level>) {
    forall i, j :: 0 <= i < j < |levels| ==> levels[i].price < levels[j].price
  }

  predicate Descending(levels: seq<Level>) {
    forall i, j :: 0 <= i < j < |levels| ==> levels[j].price < levels[i].price
  }

  predicate PositiveSizes(levels: seq<Level>) {
    forall i :: 0 <= i < |levels| ==> levels[i].size > 0.0
  }

  /** What a usable book snapshot promises its readers. */
  predicate WellFormedBook(book: Snapshot) {
    && Ascending(book.asks) && PricedInRange(book.asks) && PositiveSizes(book.asks)
    && Descending(book.bids) && PricedInRange(book.bids) && PositiveSizes(book.bids)
  }

  /** Effective taker fee per share at `price`. */
  function FeeRateAt(rate: real, price: real): real {
    if price <= 0.0 || price >= 1.0 then 0.0 else rate * (price * (1.0 - price))
  }

  /** Fee of a taker fill, rounded up to the fee quantum. */
  function TakerFee(rate: real, shares: real, price: real): real {
    CeilTo(shares * FeeRateAt(rate, price), FEE_QUANTUM)
  }

  /** A fee is never negative and never more than the rate on the notional plus one quantum. */
  lemma TakerFeeBounds(rate: real, shares: real, price: real)
    requires 0.0 <= rate && 0.0 <= shares && 0.0 < price < 1.0
    ensures 0.0 <= TakerFee(rate, shares, price)
    ensures TakerFee(rate, shares, price) <= rate * (price * shares) + FEE_QUANTUM
  {
    FeePerShare(rate, price);
    var f := FeeRateAt(rate, price);
    RawFee(rate, shares, price, f);
    RoundedUp(shares * f, rate * (price * shares));
  }

  lemma RoundedUp(raw: real, bound: real)
    requires 0.0 <= raw <= bound
    ensures 0.0 <= CeilTo(raw, FEE_QUANTUM) <= bound + FEE_QUANTUM
  {
  }

  lemma FeePerShare(rate: real, price: real)
    requires 0.0 <= rate && 0.0 < price < 1.0
    ensures 0.0 <= FeeRateAt(rate, price) <= rate * price
  {
    var x := price * (1.0 - price);
    assert 0.0 <= x <= price;
    MulLe(0.0, x, rate);
    MulLe(x, price, rate);
    assert FeeRateAt(rate, price) == rate * x;
  }

  lemma RawFee(rate: real, shares: real, price: real, f: real)
    requires 0.0 <= shares && 0.0 <= f <= rate * price
    ensures 0.0 <= shares * f <= rate * (price * shares)
  {
    MulLe(0.0, f, shares);
    MulLe(f, rate * price, shares);
  }
}
