/** What the venue reserves for a buy's fees, and when that is enough. The fee per dollar is the
    rate times one minus the price, so it grows as the fill price falls below the limit. */
module FeeReserve {
  import opened Decimals
  import opened Domain
  import opened Matching
  import opened PaperVenue
  import OrderBook

  /** Cash the venue wants to see before it takes the order. */
  function Reserved(cfg: Config, rate: real, limit: real, quantity: real): real
    requires limit > 0.0
  {
    quantity * (1.0 + LimitFee(cfg, rate, limit))
  }

  /** Cash a match on these levels takes. */
  function Taken(cfg: Config, rate: real, limit: real, quantity: real, levels: seq<Level>): real
    requires PricedInRange(levels)
  {
    var lots := BuyWalk(levels, limit, quantity).lots;
    Spent(lots) + Fees(rate, cfg.feeMult, lots)
  }

  // ---------------------------------------------------------------- decimals

  function Tens(m: nat): (n: nat)
    ensures n > m
  {
    if m == 0 then 1 else 10 * Tens(m - 1)
  }

  /** Ten to the power of minus `m`. */
  function Tenth(m: nat): (x: real)
    ensures 0.0 < x <= 1.0
  {
    if m == 0 then 1.0 else Tenth(m - 1) / 10.0
  }

  lemma {:induction false} TensAndTenth(m: nat)
    ensures Tens(m) as real * Tenth(m) == 1.0
  {
    if m > 0 {
      TensAndTenth(m - 1);
      assert Tens(m) as real == 10.0 * Tens(m - 1) as real;
    }
  }

  /** A number the code's decimals can hold. */
  ghost predicate IsDecimal(x: real) {
    exists m: nat :: OnGrid(x, Tenth(m))
  }

  ghost predicate DecimalBook(levels: seq<Level>) {
    PricedInRange(levels) && forall i :: 0 <= i < |levels| ==> IsDecimal(levels[i].price) && IsDecimal(levels[i].size)
  }

  /** A book of the market: sorted, prices on its ticks, sizes in whole share lots. */
  ghost predicate TickBook(levels: seq<Level>, tick: real) {
    PricedInRange(levels) && Ascending(levels) && forall i :: 0 <= i < |levels| ==> OnGrid(levels[i].price, tick) && OnGrid(levels[i].size, SHARE_LOT)
  }

  ghost predicate CoversDecimalBooks(cfg: Config, rate: real, limit: real, quantity: real)
    requires limit > 0.0
  {
    forall levels: seq<Level> :: DecimalBook(levels) ==> Taken(cfg, rate, limit, quantity, levels) <= Reserved(cfg, rate, limit, quantity)
  }

  ghost predicate CoversTickBooks(cfg: Config, rate: real, limit: real, quantity: real, tick: real)
    requires limit > 0.0
  {
    forall levels: seq<Level> :: TickBook(levels, tick) ==> Taken(cfg, rate, limit, quantity, levels) <= Reserved(cfg, rate, limit, quantity)
  }

  /** One divided by `n`. */
  ghost predicate Inverse(price: real, n: nat) {
    n as real * price == 1.0
  }

  /** A single level at one `n`-th whose whole size costs exactly the budget. */
  function CheapBook(quantity: real, price: real, n: nat): seq<Level> {
    [Level(price, quantity * n as real)]
  }

  /** Some such level is below any limit. */
  lemma PriceBelow(limit: real) returns (m: nat)
    requires 0.0 < limit
    ensures Tenth(m) < limit
  {
    hide Tens, Tenth;
    var need := 1.0 / limit;
    DivMul(1.0, limit);
    assert need > 0.0 by { PositiveQuotient(1.0, limit); }
    m := need.Floor + 1;
    TensAndTenth(m);
    LargerInverse(Tens(m) as real, Tenth(m), need, limit);
  }

  lemma LargerInverse(a: real, x: real, b: real, y: real)
    requires a > b > 0.0 && a * x == 1.0 && b * y == 1.0 && x > 0.0
    ensures x < y
  {
    if y <= x {
      MulLe(y, x, b);
      MulLt(b, a, x);
    }
  }

  lemma PositiveQuotient(a: real, b: real)
    requires a > 0.0 && b > 0.0
    ensures a / b > 0.0
  {
  }

  lemma CheapIsWhole(quantity: real, price: real, n: nat)
    requires quantity > 0.0 && OnGrid(quantity, SHARE_LOT) && Inverse(price, n)
    ensures var level := CheapBook(quantity, price, n)[0];
      level.size > 0.0 && OnGrid(level.size, SHARE_LOT) && Notional(level.price, level.size) == quantity
  {
    var k: int :| quantity == Multiple(k, SHARE_LOT);
    ScaledUp(k, n, quantity);
    if n == 0 {
      assert 0.0 * price == 0.0;
    }
    MulLt(0.0, quantity, n as real);
    SpendAll(quantity, n as real, price);
  }

  lemma TenthIsInverse(m: nat)
    ensures Inverse(Tenth(m), Tens(m))
  {
    hide Tens, Tenth;
    TensAndTenth(m);
  }

  lemma CheapIsDecimal(quantity: real, m: nat)
    requires quantity > 0.0 && OnGrid(quantity, SHARE_LOT)
    ensures Inverse(Tenth(m), Tens(m))
    ensures var level := CheapBook(quantity, Tenth(m), Tens(m))[0]; IsDecimal(level.price) && IsDecimal(level.size)
  {
    hide Tens, Tenth, OnGrid, Inverse, IsDecimal, Notional;
    TenthIsInverse(m);
    CheapIsWhole(quantity, Tenth(m), Tens(m));
    OneStep(Tenth(m));
    TwoPlaces();
    SomePlaces(Tenth(m), m);
    SomePlaces(CheapBook(quantity, Tenth(m), Tens(m))[0].size, 2);
  }

  lemma SomePlaces(x: real, m: nat)
    requires OnGrid(x, Tenth(m))
    ensures IsDecimal(x)
  {
    hide OnGrid, Tenth;
  }

  lemma ScaledUp(k: int, n: nat, quantity: real)
    requires quantity == Multiple(k, SHARE_LOT)
    ensures OnGrid(quantity * n as real, SHARE_LOT)
  {
    assert (k * n) as real == k as real * n as real;
    assert quantity * n as real == Multiple(k * n, SHARE_LOT);
  }

  lemma SpendAll(quantity: real, n: real, x: real)
    requires n * x == 1.0
    ensures Notional(x, quantity * n) == quantity
  {
    assert x * (quantity * n) == quantity * (n * x);
  }

  lemma TwoPlaces()
    ensures Tenth(2) == SHARE_LOT
  {
    assert Tenth(0) == 1.0 && Tenth(1) == 0.1;
  }

  /** The whole level is bought and the budget spent to the last cent. */
  lemma CheapWalk(quantity: real, limit: real, price: real, n: nat)
    requires quantity > 0.0 && OnGrid(quantity, SHARE_LOT) && Inverse(price, n) && 0.0 < price <= limit && price < 1.0
    ensures PricedInRange(CheapBook(quantity, price, n)) && Ascending(CheapBook(quantity, price, n)) && PositiveSizes(CheapBook(quantity, price, n))
    ensures var level := CheapBook(quantity, price, n)[0];
      && BuyWalk(CheapBook(quantity, price, n), limit, quantity).lots == [Lot(level.price, level.size)]
      && Notional(level.price, level.size) == quantity
  {
    hide FloorTo, Multiple, Inverse;
    var level := CheapBook(quantity, price, n)[0];
    CheapIsWhole(quantity, price, n);
    OtherFactor(quantity, level.price, level.size);
    var k: int :| level.size == Multiple(k, SHARE_LOT);
    GridStays(k, SHARE_LOT);
    assert BuyTake(level, quantity) == level.size;
    assert CheapBook(quantity, price, n)[1..] == [];
    assert BuyWalk([], limit, quantity - Notional(level.price, level.size)).lots == [];
  }

  lemma OtherFactor(product: real, a: real, b: real)
    requires a * b == product && a > 0.0
    ensures product / a == b
  {
  }

  /** The fee a dollar pays at a price. */
  function FeePerDollar(rate: real, price: real, mult: real): real {
    rate * (1.0 - price) * mult
  }

  function FeeOn(quantity: real, perDollar: real): real {
    quantity * perDollar
  }

  lemma FeePerDollarAt(rate: real, price: real)
    requires 0.0 < price < 1.0
    ensures FeeRateAt(rate, price) / price == rate * (1.0 - price)
  {
    FactorsCancel(rate, price, 1.0 - price);
  }

  lemma FactorsCancel(rate: real, price: real, left: real)
    requires price > 0.0
    ensures rate * (price * left) / price == rate * left
  {
    assert rate * (price * left) == (rate * left) * price;
    OtherFactor(rate * (price * left), price, rate * left);
  }

  lemma LimitFeeIs(cfg: Config, rate: real, limit: real)
    requires 0.0 < limit < 1.0
    ensures LimitFee(cfg, rate, limit) == FeePerDollar(rate, limit, cfg.feeMult)
  {
    FeePerDollarAt(rate, limit);
    Swap(FeeRateAt(rate, limit), cfg.feeMult, limit);
  }

  lemma Swap(a: real, b: real, c: real)
    requires c > 0.0
    ensures a * b / c == a / c * b
  {
  }

  /** The fee of the cheap fill is at least the rate at its own price on the whole budget. */
  lemma CheapFee(cfg: Config, rate: real, quantity: real, price: real, size: real)
    requires cfg.Valid() && rate > 0.0 && 0.0 < price < 1.0 && size > 0.0 && Notional(price, size) == quantity
    ensures LotFee(rate, cfg.feeMult, Lot(price, size)) >= FeeOn(quantity, FeePerDollar(rate, price, cfg.feeMult))
  {
    var raw := size * FeeRateAt(rate, price);
    assert raw == quantity * (rate * (1.0 - price)) by { RawIs(size, rate, price, 1.0 - price); }
    MulLe(raw, TakerFee(rate, size, price), cfg.feeMult);
    Regroup(quantity, rate * (1.0 - price), cfg.feeMult);
  }

  lemma RawIs(size: real, rate: real, price: real, left: real)
    ensures size * (rate * (price * left)) == (price * size) * (rate * left)
  {
    assert rate * (price * left) == (rate * left) * price;
    assert size * ((rate * left) * price) == (price * size) * (rate * left);
  }

  lemma Regroup(a: real, b: real, c: real)
    ensures a * b * c == a * (b * c)
  {
  }

  /** What the cheap book takes: the budget, and a fee of at least the rate at its own price. */
  lemma CheapTakes(cfg: Config, rate: real, limit: real, quantity: real, price: real, n: nat)
    requires cfg.Valid() && rate > 0.0 && quantity > 0.0 && OnGrid(quantity, SHARE_LOT) && Inverse(price, n) && 0.0 < price <= limit < 1.0
    ensures var levels := CheapBook(quantity, price, n);
      && PricedInRange(levels) && Ascending(levels) && PositiveSizes(levels) && TickBook(levels, price)
      && Taken(cfg, rate, limit, quantity, levels) == quantity + LotFee(rate, cfg.feeMult, Lot(price, quantity * n as real))
      && LotFee(rate, cfg.feeMult, Lot(price, quantity * n as real)) >= FeeOn(quantity, FeePerDollar(rate, price, cfg.feeMult))
  {
    hide FloorTo, LotFee, Multiple, BuyTake, FeePerDollar, FeeOn, OnGrid, Inverse;
    var size := CheapBook(quantity, price, n)[0].size;
    CheapIsWhole(quantity, price, n);
    CheapWalk(quantity, limit, price, n);
    CheapFee(cfg, rate, quantity, price, size);
    OneLot(rate, cfg.feeMult, Lot(price, size));
    OneStep(price);
  }

  lemma ReservedIs(cfg: Config, rate: real, limit: real, quantity: real)
    requires 0.0 < limit < 1.0
    ensures Reserved(cfg, rate, limit, quantity) == quantity + FeeOn(quantity, FeePerDollar(rate, limit, cfg.feeMult))
  {
    hide LimitFee, FeePerDollar;
    LimitFeeIs(cfg, rate, limit);
    AddOne(quantity, LimitFee(cfg, rate, limit));
  }

  /** With any positive fee rate the reserve falls short of a book one level deep below the limit, at any
      price that is one divided by a whole number: bought there, the same dollars pay a higher fee. */
  lemma ReserveFallsShort(cfg: Config, rate: real, limit: real, quantity: real, price: real, n: nat)
    requires cfg.Valid() && rate > 0.0 && limit < 1.0 && quantity > 0.0 && OnGrid(quantity, SHARE_LOT) && Inverse(price, n) && 0.0 < price < limit
    ensures var levels := CheapBook(quantity, price, n);
      && PricedInRange(levels) && Ascending(levels) && PositiveSizes(levels) && TickBook(levels, price)
      && Taken(cfg, rate, limit, quantity, levels) > Reserved(cfg, rate, limit, quantity)
  {
    hide LotFee, FeePerDollar, FeeOn, OnGrid, Inverse, Taken, Reserved;
    CheapTakes(cfg, rate, limit, quantity, price, n);
    ReservedIs(cfg, rate, limit, quantity);
    HigherFee(rate, cfg.feeMult, quantity, price, limit);
  }

  lemma OneStep(q: real)
    ensures OnGrid(q, q)
  {
    assert q == Multiple(1, q);
  }

  lemma HigherFee(rate: real, mult: real, quantity: real, price: real, limit: real)
    requires rate > 0.0 && mult > 0.0 && quantity > 0.0 && price < limit
    ensures FeeOn(quantity, FeePerDollar(rate, price, mult)) > FeeOn(quantity, FeePerDollar(rate, limit, mult))
  {
    MulLt(1.0 - limit, 1.0 - price, rate);
    MulLt(rate * (1.0 - limit), rate * (1.0 - price), mult);
    MulLt(rate * (1.0 - limit) * mult, rate * (1.0 - price) * mult, quantity);
  }

  lemma OneLot(rate: real, mult: real, lot: Lot)
    ensures Spent([lot]) == Notional(lot.price, lot.shares) && Fees(rate, mult, [lot]) == LotFee(rate, mult, lot)
  {
    hide LotFee, Notional;
    assert [lot][1..] == [];
  }

  lemma AddOne(q: real, f: real)
    ensures q * (1.0 + f) == q + FeeOn(q, f)
  {
  }

  lemma {:induction false} NoFeesWithoutRate(mult: real, lots: seq<Lot>)
    ensures Fees(0.0, mult, lots) == 0.0
  {
    if lots != [] {
      NoFeesWithoutRate(mult, lots[1..]);
      assert TakerFee(0.0, lots[0].shares, lots[0].price) == 0.0;
    }
  }

  lemma CoversWithoutFees(cfg: Config, limit: real, quantity: real, levels: seq<Level>)
    requires cfg.Valid() && 0.0 < limit < 1.0 && quantity > 0.0 && PricedInRange(levels)
    ensures Taken(cfg, 0.0, limit, quantity, levels) <= Reserved(cfg, 0.0, limit, quantity)
  {
    hide BuyWalk, LimitFee, Fees, Spent, Reserved;
    BuyWalkKeeps(levels, limit, quantity);
    NoFeesWithoutRate(cfg.feeMult, BuyWalk(levels, limit, quantity).lots);
    NoReserveWithoutRate(cfg, limit, quantity);
  }

  /** The exact condition, for an order of whole cents: the reserve covers every decimal book just
      when the market charges no fee. */
  lemma ReserveHoldsExactlyWithoutFees(cfg: Config, rate: real, limit: real, quantity: real)
    requires cfg.Valid() && rate >= 0.0 && 0.0 < limit < 1.0 && quantity > 0.0 && OnGrid(quantity, SHARE_LOT)
    ensures CoversDecimalBooks(cfg, rate, limit, quantity) <==> rate == 0.0
  {
    hide BuyWalk, Taken, Reserved, IsDecimal, OnGrid, Inverse, Tens, Tenth;
    if rate > 0.0 {
      var m := PriceBelow(limit);
      CheapIsDecimal(quantity, m);
      ReserveFallsShort(cfg, rate, limit, quantity, Tenth(m), Tens(m));
    } else {
      forall levels: seq<Level> | DecimalBook(levels)
        ensures Taken(cfg, rate, limit, quantity, levels) <= Reserved(cfg, rate, limit, quantity)
      {
        CoversWithoutFees(cfg, limit, quantity, levels);
      }
    }
  }

  // ---------------------------------------------------------------- on the market's own ticks

  lemma TickIsInverse(tick: real) returns (n: nat)
    requires OrderBook.AllowedTick(tick)
    ensures Inverse(tick, n) && 0.0 < tick < 1.0
  {
    n := if tick == 0.1 then 10 else if tick == 0.01 then 100 else if tick == 0.005 then 200 else if tick == 0.0025 then 400
         else if tick == 0.001 then 1000 else 10000;
  }

  /** On the lowest tick there is nothing below to be bought at: all that is taken is one lot there. */
  lemma OneLotAtTheLowest(levels: seq<Level>, tick: real, quantity: real)
    requires TickBook(levels, tick) && 0.0 < tick < 1.0
    ensures var lots := BuyWalk(levels, tick, quantity).lots;
      lots == [] || (|lots| == 1 && lots[0].price == tick)
  {
    hide BuyTake;
    if levels != [] {
      AtLeastOneTick(levels[0].price, tick);
      forall i | 0 <= i < |levels[1..]|
        ensures levels[1..][i].price > tick
      {
        assert levels[1..][i] == levels[i + 1] && levels[0].price < levels[i + 1].price;
      }
      NothingAbove(levels[1..], tick, quantity);
      if BuyTake(levels[0], quantity) > 0.0 {
        NothingAbove(levels[1..], tick, quantity - Notional(levels[0].price, BuyTake(levels[0], quantity)));
      }
    }
  }

  lemma NothingAbove(levels: seq<Level>, limit: real, budget: real)
    requires PricedInRange(levels) && forall i :: 0 <= i < |levels| ==> levels[i].price > limit
    ensures BuyWalk(levels, limit, budget).lots == []
  {
  }

  lemma AtLeastOneTick(price: real, tick: real)
    requires OnGrid(price, tick) && price > 0.0 && tick > 0.0
    ensures tick <= price
  {
    OneStep(tick);
    if price < tick {
      assert OnGrid(0.0, tick) by { assert 0.0 == Multiple(0, tick); }
      GridStep(0.0, price, tick);
    }
  }

  /** The fee of a lot at the price, when the budget's whole fee there is a whole number of quanta. */
  lemma FeeWithinWhole(rate: real, lot: Lot, quantity: real, whole: real)
    requires 0.0 <= rate && 0.0 < lot.price < 1.0 && lot.shares > 0.0 && Notional(lot.price, lot.shares) <= quantity
    requires whole == FeeOn(quantity, FeePerDollar(rate, lot.price, 1.0)) && OnGrid(whole, FEE_QUANTUM)
    ensures TakerFee(rate, lot.shares, lot.price) <= whole
  {
    hide CeilTo, OnGrid;
    var r := rate * (1.0 - lot.price);
    RawIs(lot.shares, rate, lot.price, 1.0 - lot.price);
    MulLe(0.0, 1.0 - lot.price, rate);
    MulLe(Notional(lot.price, lot.shares), quantity, r);
    CeilIsLeast(lot.shares * FeeRateAt(rate, lot.price), FEE_QUANTUM, whole);
  }

  lemma CoversAtTheLowest(cfg: Config, rate: real, tick: real, quantity: real, levels: seq<Level>)
    requires cfg.Valid() && rate >= 0.0 && 0.0 < tick < 1.0 && quantity > 0.0 && TickBook(levels, tick)
    requires OnGrid(FeeOn(quantity, FeePerDollar(rate, tick, 1.0)), FEE_QUANTUM)
    ensures Taken(cfg, rate, tick, quantity, levels) <= Reserved(cfg, rate, tick, quantity)
  {
    hide BuyWalk, FeeOn, FeePerDollar, OnGrid, Reserved, TakerFee, Notional;
    OneLotAtTheLowest(levels, tick, quantity);
    BuyWalkKeeps(levels, tick, quantity);
    ReservedIs(cfg, rate, tick, quantity);
    StressedFee(quantity, rate, tick, cfg.feeMult);
    var lots, whole := BuyWalk(levels, tick, quantity).lots, FeeOn(quantity, FeePerDollar(rate, tick, 1.0));
    if lots == [] {
      NoFeeBelowZero(quantity, rate, tick);
      MulLe(0.0, whole, cfg.feeMult);
    } else {
      var lot := lots[0];
      assert lots == [lot];
      OneLot(rate, cfg.feeMult, lot);
      FeeWithinWhole(rate, lot, quantity, whole);
      var fee := TakerFee(rate, lot.shares, tick);
      MulLe(fee, whole, cfg.feeMult);
      assert LotFee(rate, cfg.feeMult, lot) == fee * cfg.feeMult;
    }
  }

  lemma StressedFee(quantity: real, rate: real, price: real, mult: real)
    ensures FeeOn(quantity, FeePerDollar(rate, price, mult)) == FeeOn(quantity, FeePerDollar(rate, price, 1.0)) * mult
  {
    Regroup(quantity, rate * (1.0 - price), mult);
  }

  lemma NoFeeBelowZero(quantity: real, rate: real, price: real)
    requires quantity > 0.0 && rate >= 0.0 && 0.0 < price < 1.0
    ensures FeeOn(quantity, FeePerDollar(rate, price, 1.0)) >= 0.0
  {
    MulLe(0.0, 1.0 - price, rate);
    MulLe(0.0, rate * (1.0 - price), quantity);
  }

  /** A fee that is no whole number of quanta is rounded up past the reserve. */
  lemma RoundedPastReserve(cfg: Config, rate: real, tick: real, quantity: real, n: nat)
    requires cfg.Valid() && rate > 0.0 && 0.0 < tick < 1.0 && quantity > 0.0 && OnGrid(quantity, SHARE_LOT) && Inverse(tick, n)
    requires !OnGrid(FeeOn(quantity, FeePerDollar(rate, tick, 1.0)), FEE_QUANTUM)
    ensures TickBook(CheapBook(quantity, tick, n), tick)
    ensures Taken(cfg, rate, tick, quantity, CheapBook(quantity, tick, n)) > Reserved(cfg, rate, tick, quantity)
  {
    hide FeeOn, FeePerDollar, OnGrid, Reserved, Taken, Inverse, TakerFee, Notional;
    CheapTakes(cfg, rate, tick, quantity, tick, n);
    ReservedIs(cfg, rate, tick, quantity);
    StressedFee(quantity, rate, tick, cfg.feeMult);
    CheapIsWhole(quantity, tick, n);
    var size := CheapBook(quantity, tick, n)[0].size;
    FeeRoundedUp(rate, quantity, tick, size);
    var whole, fee := FeeOn(quantity, FeePerDollar(rate, tick, 1.0)), TakerFee(rate, size, tick);
    MulLt(whole, fee, cfg.feeMult);
    assert LotFee(rate, cfg.feeMult, Lot(tick, size)) == fee * cfg.feeMult;
  }

  lemma FeeRoundedUp(rate: real, quantity: real, price: real, size: real)
    requires 0.0 < price < 1.0 && rate >= 0.0 && size > 0.0 && Notional(price, size) == quantity
    requires !OnGrid(FeeOn(quantity, FeePerDollar(rate, price, 1.0)), FEE_QUANTUM)
    ensures TakerFee(rate, size, price) > FeeOn(quantity, FeePerDollar(rate, price, 1.0))
  {
    hide FeeOn, FeePerDollar, OnGrid, CeilTo;
    RawFee(rate, quantity, price, size);
    CeilIsLeast(size * FeeRateAt(rate, price), FEE_QUANTUM, 0.0);
  }

  lemma RawFee(rate: real, quantity: real, price: real, size: real)
    requires 0.0 < price < 1.0 && Notional(price, size) == quantity
    ensures size * FeeRateAt(rate, price) == FeeOn(quantity, FeePerDollar(rate, price, 1.0))
  {
    RawIs(size, rate, price, 1.0 - price);
  }

  /** The same on the market's own ticks, whichever it has: above the lowest tick the reserve covers
      every book just when there is no fee; on the lowest tick, just when the fee of the whole budget
      is a whole number of quanta. */
  lemma ReserveOnTicksExactly(cfg: Config, rate: real, limit: real, quantity: real, tick: real)
    requires cfg.Valid() && rate >= 0.0 && OrderBook.AllowedTick(tick) && OnGrid(limit, tick) && 0.0 < limit < 1.0
    requires quantity > 0.0 && OnGrid(quantity, SHARE_LOT)
    ensures CoversTickBooks(cfg, rate, limit, quantity, tick)
      <==> rate == 0.0 || (limit == tick && OnGrid(FeeOn(quantity, FeePerDollar(rate, tick, 1.0)), FEE_QUANTUM))
  {
    hide BuyWalk, Taken, Reserved, OnGrid, FeeOn, FeePerDollar, Inverse, OrderBook.AllowedTick;
    var n := TickIsInverse(tick);
    AtLeastOneTick(limit, tick);
    if rate == 0.0 {
      forall levels: seq<Level> | TickBook(levels, tick)
        ensures Taken(cfg, rate, limit, quantity, levels) <= Reserved(cfg, rate, limit, quantity)
      {
        CoversWithoutFees(cfg, limit, quantity, levels);
      }
      assert CoversTickBooks(cfg, rate, limit, quantity, tick);
    } else if tick < limit {
      ReserveFallsShort(cfg, rate, limit, quantity, tick, n);
      assert !CoversTickBooks(cfg, rate, limit, quantity, tick);
    } else if OnGrid(FeeOn(quantity, FeePerDollar(rate, tick, 1.0)), FEE_QUANTUM) {
      forall levels: seq<Level> | TickBook(levels, tick)
        ensures Taken(cfg, rate, limit, quantity, levels) <= Reserved(cfg, rate, limit, quantity)
      {
        CoversAtTheLowest(cfg, rate, tick, quantity, levels);
      }
      assert CoversTickBooks(cfg, rate, limit, quantity, tick);
    } else {
      RoundedPastReserve(cfg, rate, tick, quantity, n);
      assert !CoversTickBooks(cfg, rate, limit, quantity, tick);
    }
  }

  lemma NoReserveWithoutRate(cfg: Config, limit: real, quantity: real)
    requires 0.0 < limit < 1.0
    ensures Reserved(cfg, 0.0, limit, quantity) == quantity
  {
    LimitFeeIs(cfg, 0.0, limit);
    assert 0.0 * (1.0 - limit) == 0.0;
  }
}
