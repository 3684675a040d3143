/** The incremental order book of one token: its state as a value with each operation as a
    function, the class that updates its dictionaries in place, and what a valid book promises. */
module OrderBook {
  import opened Domain

  datatype BookSide = BuySide | SellSide | OtherSide

  /** Prices map to sizes. */
  type Ladder = map<real, real>

  datatype Book = Book(
    bids: Ladder,
    asks: Ladder,
    valid: bool,
    receivedMs: Option<int>,
    exchangeMs: Option<int>,
    tick: Option<real>,
    sequence: nat)

  const NO_BOOK: Book := Book(map[], map[], false, None, None, None, 0)

  predicate AllowedTick(tick: real) {
    tick == 0.1 || tick == 0.01 || tick == 0.005 || tick == 0.0025 || tick == 0.001 || tick == 0.0001
  }

  predicate GoodLevel(level: Level) {
    0.0 < level.price < 1.0 && level.size >= 0.0
  }

  predicate GoodLevels(levels: seq<Level>) {
    forall i :: 0 <= i < |levels| ==> GoodLevel(levels[i])
  }

  /** A snapshot's dictionary: later entries win, empty levels are skipped. */
  function Assign(levels: seq<Level>): Ladder {
    if levels == [] then map[]
    else
      var last := levels[|levels| - 1];
      var rest := Assign(levels[..|levels| - 1]);
      if last.size > 0.0 then rest[last.price := last.size] else rest
  }

  predicate Crossed(b: Book) {
    exists x, y :: x in b.bids && y in b.asks && x >= y
  }

  predicate IsHighest(ladder: Ladder, price: real) {
    price in ladder && forall x :: x in ladder ==> x <= price
  }

  predicate IsLowest(ladder: Ladder, price: real) {
    price in ladder && forall x :: x in ladder ==> price <= x
  }

  function Invalidate(b: Book): Book {
    b.(valid := false)
  }

  function CheckCrossed(b: Book): Book {
    if b.valid && Crossed(b) then Invalidate(b) else b
  }

  function SetTickSize(b: Book, tick: real): Book {
    if AllowedTick(tick) then b.(tick := Some(tick)) else Invalidate(b)
  }

  /** An older snapshot than what a valid book already has is ignored. */
  predicate Stale(b: Book, maxOutOfOrder: int, exchange: Option<int>) {
    exchange.Some? && b.exchangeMs.Some? && exchange.value + maxOutOfOrder < b.exchangeMs.value
  }

  function ApplySnapshot(b: Book, maxOutOfOrder: int, bids: seq<Level>, asks: seq<Level>, received: int, exchange: Option<int>,
                         tick: Option<real>): Book {
    if b.valid && Stale(b, maxOutOfOrder, exchange) then b
    else if !GoodLevels(bids) || !GoodLevels(asks) then Invalidate(b)
    else
      CheckCrossed(Book(Assign(bids), Assign(asks), true, Some(received), exchange,
                        if tick.Some? && AllowedTick(tick.value) then tick else b.tick, b.sequence + 1))
  }

  function Written(ladder: Ladder, level: Level): Ladder {
    if level.size == 0.0 then ladder - {level.price} else ladder[level.price := level.size]
  }

  /** The later of the two stamps; a recorded stamp of zero counts as none. */
  function LaterStamp(b: Book, exchange: Option<int>): Option<int> {
    if exchange.None? then b.exchangeMs
    else if b.exchangeMs.Some? && b.exchangeMs.value != 0 && b.exchangeMs.value > exchange.value then b.exchangeMs
    else exchange
  }

  /** One level of a delta, without the crossing check. */
  function ApplyLevel(b: Book, maxOutOfOrder: int, side: BookSide, level: Level, received: int, exchange: Option<int>): Book {
    if !b.valid then b
    else if Stale(b, maxOutOfOrder, exchange) || !GoodLevel(level) || side.OtherSide? then Invalidate(b)
    else
      b.(bids := if side.BuySide? then Written(b.bids, level) else b.bids,
         asks := if side.SellSide? then Written(b.asks, level) else b.asks,
         receivedMs := Some(received),
         exchangeMs := LaterStamp(b, exchange),
         sequence := b.sequence + 1)
  }

  /** The exchange's echo of its own top of book must be ours. */
  function VerifyTop(b: Book, bestBid: Option<real>, bestAsk: Option<real>): Book {
    if !b.valid then b
    else if bestBid.Some? && bestBid.value > 0.0 && !IsHighest(b.bids, bestBid.value) then Invalidate(b)
    else if bestAsk.Some? && bestAsk.value < 1.0 && !IsLowest(b.asks, bestAsk.value) then Invalidate(b)
    else b
  }

  // ---------------------------------------------------------------- what a book keeps

  ghost predicate SaneLadder(ladder: Ladder) {
    forall p :: p in ladder ==> 0.0 < p < 1.0 && ladder[p] > 0.0
  }

  /** Prices strictly between 0 and 1 and positive sizes, always. */
  ghost predicate Sane(b: Book) {
    SaneLadder(b.bids) && SaneLadder(b.asks) && (b.valid ==> b.receivedMs.Some?)
  }

  /** What holds between events: sane, and uncrossed while valid. */
  ghost predicate Sound(b: Book) {
    Sane(b) && (b.valid ==> !Crossed(b))
  }

  lemma {:induction false} AssignSane(levels: seq<Level>)
    requires GoodLevels(levels)
    ensures SaneLadder(Assign(levels))
  {
    if levels != [] {
      AssignSane(levels[..|levels| - 1]);
      assert GoodLevel(levels[|levels| - 1]);
    }
  }

  lemma SnapshotSound(b: Book, maxOutOfOrder: int, bids: seq<Level>, asks: seq<Level>, received: int, exchange: Option<int>,
                      tick: Option<real>)
    requires Sound(b)
    ensures Sound(ApplySnapshot(b, maxOutOfOrder, bids, asks, received, exchange, tick))
  {
    if GoodLevels(bids) && GoodLevels(asks) {
      AssignSane(bids);
      AssignSane(asks);
    }
  }

  lemma LevelSane(b: Book, maxOutOfOrder: int, side: BookSide, level: Level, received: int, exchange: Option<int>)
    requires Sane(b)
    ensures Sane(ApplyLevel(b, maxOutOfOrder, side, level, received, exchange))
  {
  }

  /** An accepted snapshot decides alone: the book is valid exactly when what it holds is not
      crossed. An unsupported tick size in the same message does not change that, although the
      same tick size on its own would have invalidated the book. */
  lemma AcceptedSnapshotDecides(b: Book, maxOutOfOrder: int, bids: seq<Level>, asks: seq<Level>, received: int, exchange: Option<int>,
                                tick: Option<real>)
    requires !(b.valid && Stale(b, maxOutOfOrder, exchange)) && GoodLevels(bids) && GoodLevels(asks)
    ensures var after := ApplySnapshot(b, maxOutOfOrder, bids, asks, received, exchange, tick);
      && (after.valid <==> !Crossed(after))
      && after.bids == Assign(bids) && after.asks == Assign(asks)
      && (tick.Some? && !AllowedTick(tick.value) ==> after.tick == b.tick && !SetTickSize(after, tick.value).valid)
  {
    var taken := Book(Assign(bids), Assign(asks), true, Some(received), exchange,
                      if tick.Some? && AllowedTick(tick.value) then tick else b.tick, b.sequence + 1);
    SameLevels(taken, Invalidate(taken));
  }

  lemma SameLevels(a: Book, b: Book)
    requires a.bids == b.bids && a.asks == b.asks
    ensures Crossed(a) <==> Crossed(b)
  {
    if Crossed(a) {
      var x, y :| x in a.bids && y in a.asks && x >= y;
      assert x in b.bids && y in b.asks;
    }
    if Crossed(b) {
      var x, y :| x in b.bids && y in b.asks && x >= y;
      assert x in a.bids && y in a.asks;
    }
  }

  // ---------------------------------------------------------------- last write wins

  /** One accepted change of a book. */
  datatype Write = Reset(bids: seq<Level>, asks: seq<Level>) | SetLevel(side: BookSide, level: Level)

  function LastPositive(levels: seq<Level>, price: real): Option<real> {
    if levels == [] then None
    else
      var last := levels[|levels| - 1];
      if last.price == price && last.size > 0.0 then Some(last.size) else LastPositive(levels[..|levels| - 1], price)
  }

  /** The size at a price, read off the log: its last write since the last full snapshot. */
  function SizeAt(log: seq<Write>, side: BookSide, price: real): Option<real> {
    if log == [] then None
    else
      var last := log[|log| - 1];
      match last
      case Reset(bids, asks) => LastPositive(if side.BuySide? then bids else asks, price)
      case SetLevel(s, level) =>
        if s == side && level.price == price then (if level.size == 0.0 then None else Some(level.size))
        else SizeAt(log[..|log| - 1], side, price)
  }

  function Look(ladder: Ladder, price: real): Option<real> {
    if price in ladder then Some(ladder[price]) else None
  }

  /** The book is its log, price by price on both sides. */
  ghost predicate Refines(b: Book, log: seq<Write>) {
    forall price: real :: Look(b.bids, price) == SizeAt(log, BuySide, price) && Look(b.asks, price) == SizeAt(log, SellSide, price)
  }

  lemma {:induction false} AssignIs(levels: seq<Level>, price: real)
    ensures Look(Assign(levels), price) == LastPositive(levels, price)
  {
    if levels != [] {
      AssignIs(levels[..|levels| - 1], price);
    }
  }

  /** What a snapshot adds to the log, and whether it does. */
  function LogSnapshot(b: Book, maxOutOfOrder: int, bids: seq<Level>, asks: seq<Level>, exchange: Option<int>, log: seq<Write>): seq<Write> {
    if (b.valid && Stale(b, maxOutOfOrder, exchange)) || !GoodLevels(bids) || !GoodLevels(asks) then log else log + [Reset(bids, asks)]
  }

  function LogLevel(b: Book, maxOutOfOrder: int, side: BookSide, level: Level, exchange: Option<int>, log: seq<Write>): seq<Write> {
    if !b.valid || Stale(b, maxOutOfOrder, exchange) || !GoodLevel(level) || side.OtherSide? then log else log + [SetLevel(side, level)]
  }

  lemma SnapshotRefines(b: Book, maxOutOfOrder: int, bids: seq<Level>, asks: seq<Level>, received: int, exchange: Option<int>,
                        tick: Option<real>, log: seq<Write>)
    requires Refines(b, log)
    ensures Refines(ApplySnapshot(b, maxOutOfOrder, bids, asks, received, exchange, tick),
                    LogSnapshot(b, maxOutOfOrder, bids, asks, exchange, log))
  {
    hide Crossed, GoodLevels, Stale;
    forall price: real
      ensures Look(Assign(bids), price) == LastPositive(bids, price) && Look(Assign(asks), price) == LastPositive(asks, price)
    {
      AssignIs(bids, price);
      AssignIs(asks, price);
    }
  }

  lemma LevelRefines(b: Book, maxOutOfOrder: int, side: BookSide, level: Level, received: int, exchange: Option<int>, log: seq<Write>)
    requires Refines(b, log)
    ensures Refines(ApplyLevel(b, maxOutOfOrder, side, level, received, exchange),
                    LogLevel(b, maxOutOfOrder, side, level, exchange, log))
  {
    hide Stale, Refines, Crossed, SizeAt;
    if b.valid && !Stale(b, maxOutOfOrder, exchange) && GoodLevel(level) && !side.OtherSide? {
      WriteRefines(b, ApplyLevel(b, maxOutOfOrder, side, level, received, exchange), side, level, log);
    } else {
      CheckRefines(b, None, None, log);
    }
  }

  lemma WriteRefines(b: Book, after: Book, side: BookSide, level: Level, log: seq<Write>)
    requires Refines(b, log) && !side.OtherSide?
    requires after.bids == (if side.BuySide? then Written(b.bids, level) else b.bids)
    requires after.asks == (if side.SellSide? then Written(b.asks, level) else b.asks)
    ensures Refines(after, log + [SetLevel(side, level)])
  {
    assert (log + [SetLevel(side, level)])[..|log|] == log;
  }

  lemma CheckRefines(b: Book, bestBid: Option<real>, bestAsk: Option<real>, log: seq<Write>)
    requires Refines(b, log)
    ensures Refines(CheckCrossed(b), log) && Refines(VerifyTop(b, bestBid, bestAsk), log) && Refines(Invalidate(b), log)
  {
    hide Crossed, IsHighest, IsLowest, SizeAt;
  }

  // ---------------------------------------------------------------- the class

  ghost predicate Lists(levels: seq<Level>, ladder: Ladder) {
    forall level :: level in levels <==> level.price in ladder && level.size == ladder[level.price]
  }

  class OrderBookState {
    const maxOutOfOrder: int
    var bids: Ladder
    var asks: Ladder
    var valid: bool
    var receivedMs: Option<int>
    var exchangeMs: Option<int>
    var tick: Option<real>
    var sequence: nat

    function State(): Book
      reads this
    {
      Book(bids, asks, valid, receivedMs, exchangeMs, tick, sequence)
    }

    constructor (maxOutOfOrder: int)
      ensures this.maxOutOfOrder == maxOutOfOrder && State() == NO_BOOK
    {
      this.maxOutOfOrder := maxOutOfOrder;
      bids, asks, valid, receivedMs, exchangeMs, tick, sequence := map[], map[], false, None, None, None, 0;
    }

    method ApplyFullSnapshot(newBids: seq<Level>, newAsks: seq<Level>, received: int, exchange: Option<int>, newTick: Option<real>)
      modifies this
      ensures State() == ApplySnapshot(old(State()), maxOutOfOrder, newBids, newAsks, received, exchange, newTick)
      ensures var late := old(valid) && exchange.Some? && old(exchangeMs).Some? && exchange.value < old(exchangeMs).value - maxOutOfOrder;
        && (late ==> State() == old(State()))
        && (!late && GoodLevels(newBids) && GoodLevels(newAsks) ==>
             && bids == Assign(newBids) && asks == Assign(newAsks) && exchangeMs == exchange && receivedMs == Some(received)
             && (valid <==> forall x, y :: x in bids && y in asks ==> x < y))
    {
      hide Crossed, Assign, AllowedTick, GoodLevels, CheckCrossed;
      if exchange.Some? && exchangeMs.Some? && valid && exchange.value + maxOutOfOrder < exchangeMs.value {
        return;
      }
      var good := AllGood(newBids + newAsks);
      GoodParts(newBids, newAsks);
      if !good {
        valid := false;
        return;
      }
      Replace(newBids, newAsks, received, exchange, newTick);
    }

    /** Both sides, the stamps and, if it is an allowed one, the tick are the new ones. */
    method Replace(newBids: seq<Level>, newAsks: seq<Level>, received: int, exchange: Option<int>, newTick: Option<real>)
      modifies this
      ensures State() == CheckCrossed(Book(Assign(newBids), Assign(newAsks), true, Some(received), exchange,
                                           if newTick.Some? && AllowedTick(newTick.value) then newTick else old(tick), old(sequence) + 1))
      ensures State() == Book(Assign(newBids), Assign(newAsks), valid, Some(received), exchange, tick, sequence)
      ensures valid <==> forall x, y :: x in bids && y in asks ==> x < y
    {
      hide Crossed, Assign, AllowedTick, CheckCrossed;
      bids := ToLadder(newBids);
      asks := ToLadder(newAsks);
      receivedMs, exchangeMs := Some(received), exchange;
      if newTick.Some? {
        SetTick(newTick.value);
      }
      sequence := sequence + 1;
      valid := true;
      CheckBookCrossed();
    }

    method ApplyDelta(side: BookSide, level: Level, received: int, exchange: Option<int>, checkCrossed: bool)
      modifies this
      ensures var after := ApplyLevel(old(State()), maxOutOfOrder, side, level, received, exchange);
        State() == if checkCrossed then CheckCrossed(after) else after
      ensures old(valid) && exchange.Some? && old(exchangeMs).Some? && exchange.value < old(exchangeMs).value - maxOutOfOrder ==>
        State() == old(State()).(valid := false)
      ensures old(valid) && (exchange.None? || old(exchangeMs).None? || exchange.value >= old(exchangeMs).value - maxOutOfOrder) ==>
        sequence == old(sequence) + if GoodLevel(level) && !side.OtherSide? then 1 else 0
    {
      hide Crossed;
      if !valid {
        return;
      }
      if exchange.Some? && exchangeMs.Some? && exchange.value + maxOutOfOrder < exchangeMs.value {
        valid := false;
        return;
      }
      if !GoodLevel(level) || side.OtherSide? {
        valid := false;
        return;
      }
      if side.BuySide? {
        bids := Written(bids, level);
      } else {
        asks := Written(asks, level);
      }
      receivedMs := Some(received);
      if exchange.Some? {
        var prior := if exchangeMs.Some? && exchangeMs.value != 0 then exchangeMs.value else exchange.value;
        exchangeMs := Some(if prior > exchange.value then prior else exchange.value);
      }
      sequence := sequence + 1;
      if checkCrossed {
        CheckBookCrossed();
      }
    }

    method CheckTop(bestBid: Option<real>, bestAsk: Option<real>)
      modifies this
      ensures State() == VerifyTop(old(State()), bestBid, bestAsk)
      ensures State() == old(State()).(valid := valid)
      ensures valid <==>
        && old(valid)
        && (bestBid.Some? && bestBid.value > 0.0 ==> bestBid.value in bids && forall x :: x in bids ==> x <= bestBid.value)
        && (bestAsk.Some? && bestAsk.value < 1.0 ==> bestAsk.value in asks && forall y :: y in asks ==> bestAsk.value <= y)
    {
      if !valid {
        return;
      }
      var ourBid := Highest(bids);
      var ourAsk := Lowest(asks);
      if bestBid.Some? && bestBid.value > 0.0 && ourBid != bestBid {
        valid := false;
      } else if bestAsk.Some? && bestAsk.value < 1.0 && ourAsk != bestAsk {
        valid := false;
      }
    }

    method SetTick(newTick: real)
      modifies this
      ensures State() == SetTickSize(old(State()), newTick)
    {
      if !AllowedTick(newTick) {
        valid := false;
        return;
      }
      tick := Some(newTick);
    }

    method CheckBookCrossed()
      modifies this
      ensures State() == CheckCrossed(old(State())) == old(State()).(valid := valid)
      ensures valid <==> old(valid) && forall x, y :: x in bids && y in asks ==> x < y
    {
      if !valid {
        return;
      }
      var bid := Highest(bids);
      var ask := Lowest(asks);
      TopsDecide(State(), bid, ask);
      if bid.Some? && ask.Some? && bid.value >= ask.value {
        valid := false;
      }
    }

    /** What readers get: both sides complete, best price first, or nothing at all. */
    method Snapshot() returns (book: Option<Domain.Snapshot>)
      requires Sound(State())
      ensures book.Some? <==> valid
      ensures book.Some? ==>
        && WellFormedBook(book.value) && Lists(book.value.bids, bids) && Lists(book.value.asks, asks)
        && (book.value.bids != [] && book.value.asks != [] ==> book.value.bids[0].price < book.value.asks[0].price)
    {
      hide Lists, Ascending, Descending;
      if !valid || receivedMs.None? {
        return None;
      }
      var bestBids := SortedLevels(bids, true);
      var bestAsks := SortedLevels(asks, false);
      ListedInRange(bestBids, bids);
      ListedInRange(bestAsks, asks);
      if bestBids != [] && bestAsks != [] {
        ListedFirst(bestBids, bids);
        ListedFirst(bestAsks, asks);
        assert !Crossed(State());
      }
      book := Some(Domain.Snapshot(bestBids, bestAsks));
    }
  }

  lemma ListedFirst(levels: seq<Level>, ladder: Ladder)
    requires Lists(levels, ladder) && levels != []
    ensures levels[0].price in ladder
  {
    assert levels[0] in levels;
  }

  lemma ListedInRange(levels: seq<Level>, ladder: Ladder)
    requires Lists(levels, ladder) && SaneLadder(ladder)
    ensures PricedInRange(levels) && PositiveSizes(levels)
  {
    forall i | 0 <= i < |levels|
      ensures 0.0 < levels[i].price < 1.0 && levels[i].size > 0.0
    {
      assert levels[i] in levels;
    }
  }

  lemma GoodParts(a: seq<Level>, b: seq<Level>)
    ensures GoodLevels(a + b) <==> GoodLevels(a) && GoodLevels(b)
  {
    if GoodLevels(a + b) {
      forall i | 0 <= i < |a|
        ensures GoodLevel(a[i])
      {
        assert GoodLevel((a + b)[i]);
      }
      forall i | 0 <= i < |b|
        ensures GoodLevel(b[i])
      {
        assert GoodLevel((a + b)[|a| + i]);
      }
    }
  }

  method AllGood(levels: seq<Level>) returns (good: bool)
    ensures good <==> GoodLevels(levels)
  {
    for i := 0 to |levels|
      invariant forall j :: 0 <= j < i ==> GoodLevel(levels[j])
    {
      if !GoodLevel(levels[i]) {
        return false;
      }
    }
    good := true;
  }

  method ToLadder(levels: seq<Level>) returns (ladder: Ladder)
    ensures ladder == Assign(levels)
  {
    ladder := map[];
    for i := 0 to |levels|
      invariant ladder == Assign(levels[..i])
    {
      assert levels[..i + 1][..i] == levels[..i];
      if levels[i].size > 0.0 {
        ladder := ladder[levels[i].price := levels[i].size];
      }
    }
    assert levels[..|levels|] == levels;
  }

  lemma Inhabited(prices: set<real>)
    requires prices != {}
    ensures exists p :: p in prices
  {
    if forall p :: p !in prices {
      Empty(prices);
    }
  }

  lemma Empty(prices: set<real>)
    requires forall p :: p !in prices
    ensures prices == {}
  {
    assert forall x :: x in prices <==> x in {};
  }

  method Highest(ladder: Ladder) returns (best: Option<real>)
    ensures best.None? <==> ladder == map[]
    ensures best.Some? ==> IsHighest(ladder, best.value)
  {
    best := None;
    var todo: set<real> := ladder.Keys;
    while todo != {}
      invariant todo <= ladder.Keys
      invariant best.None? <==> todo == ladder.Keys
      invariant best.Some? ==> best.value in ladder && forall x :: x in ladder && x !in todo ==> x <= best.value
      decreases |todo|
    {
      Inhabited(todo);
      var p :| p in todo;
      todo := todo - {p};
      if best.None? || p > best.value {
        best := Some(p);
      }
    }
  }

  method Lowest(ladder: Ladder) returns (best: Option<real>)
    ensures best.None? <==> ladder == map[]
    ensures best.Some? ==> IsLowest(ladder, best.value)
  {
    best := None;
    var todo: set<real> := ladder.Keys;
    while todo != {}
      invariant todo <= ladder.Keys
      invariant best.None? <==> todo == ladder.Keys
      invariant best.Some? ==> best.value in ladder && forall x :: x in ladder && x !in todo ==> best.value <= x
      decreases |todo|
    {
      Inhabited(todo);
      var p :| p in todo;
      todo := todo - {p};
      if best.None? || p < best.value {
        best := Some(p);
      }
    }
  }

  lemma TopsDecide(b: Book, bid: Option<real>, ask: Option<real>)
    requires (bid.None? <==> b.bids == map[]) && (bid.Some? ==> IsHighest(b.bids, bid.value))
    requires (ask.None? <==> b.asks == map[]) && (ask.Some? ==> IsLowest(b.asks, ask.value))
    ensures Crossed(b) <==> bid.Some? && ask.Some? && bid.value >= ask.value
  {
    if Crossed(b) {
      var x, y :| x in b.bids && y in b.asks && x >= y;
      assert b.bids != map[] && b.asks != map[];
    }
  }

  /** Selection of the best remaining price, again and again. */
  method SortedLevels(ladder: Ladder, highestFirst: bool) returns (levels: seq<Level>)
    ensures if highestFirst then Descending(levels) else Ascending(levels)
    ensures Lists(levels, ladder)
  {
    levels := [];
    var rest := ladder;
    while rest != map[]
      invariant forall p :: p in rest ==> p in ladder && rest[p] == ladder[p]
      invariant forall level :: level in levels <==>
        level.price in ladder && level.size == ladder[level.price] && level.price !in rest
      invariant forall i, p :: 0 <= i < |levels| && p in rest ==> if highestFirst then p < levels[i].price else levels[i].price < p
      invariant if highestFirst then Descending(levels) else Ascending(levels)
      decreases |rest|
    {
      var best;
      if highestFirst {
        best := Highest(rest);
      } else {
        best := Lowest(rest);
      }
      var price := best.value;
      assert rest.Keys == (rest - {price}).Keys + {price};
      levels := levels + [Level(price, rest[price])];
      rest := rest - {price};
    }
  }
}
