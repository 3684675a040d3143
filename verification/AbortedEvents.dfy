/** A price-change entry that is not an object aborts its event after earlier levels went in, and
    before any book is checked. Exactly which such events can leave a valid book crossed. */
module AbortedEvents {
  import opened Domain
  import opened OrderBook
  import opened ClobMessages

  predicate GoodEntry(e: Entry) {
    e.Change? && e.price.Some? && e.size.Some? && GoodLevel(Level(e.price.value, e.size.value)) && !e.side.OtherSide?
  }

  predicate Own(e: Entry, token: TokenId) {
    e.Change? && e.token == token
  }

  /** None of the token's own entries would be refused. */
  predicate OwnGood(token: TokenId, entries: seq<Entry>, n: nat)
    requires n <= |entries|
  {
    forall i :: 0 <= i < n && Own(entries[i], token) ==> GoodEntry(entries[i])
  }

  function WriteOf(e: Entry): Write
    requires GoodEntry(e)
  {
    SetLevel(e.side, Level(e.price.value, e.size.value))
  }

  function OwnWrites(token: TokenId, entries: seq<Entry>, n: nat): seq<Write>
    requires n <= |entries| && OwnGood(token, entries, n)
  {
    if n == 0 then []
    else
      var prior := OwnWrites(token, entries, n - 1);
      if Own(entries[n - 1], token) then prior + [WriteOf(entries[n - 1])] else prior
  }

  /** Some price of the token is left with a positive size by the entries. */
  ghost predicate NetPositive(token: TokenId, entries: seq<Entry>, n: nat)
    requires n <= |entries| && OwnGood(token, entries, n)
  {
    exists side: BookSide, price: real :: !side.OtherSide? && SizeAt(OwnWrites(token, entries, n), side, price).Some?
  }

  ghost predicate HarmfulTo(token: TokenId, entries: seq<Entry>, n: nat)
    requires n <= |entries|
  {
    OwnGood(token, entries, n) && NetPositive(token, entries, n)
  }

  /** What a sender can check: before the bad entry, the entries of some token other than the
      event's own asset are all well formed and add liquidity on balance. */
  ghost predicate Harmful(asset: TokenId, entries: seq<Entry>) {
    exists token: TokenId :: token != asset && HarmfulTo(token, entries, Readable(entries))
  }

  // ---------------------------------------------------------------- a batch laid over a book

  function SideOf(b: Book, side: BookSide): Ladder {
    if side.BuySide? then b.bids else b.asks
  }

  function Overlay(b: Book, writes: seq<Write>, side: BookSide, price: real): Option<real> {
    if writes == [] then Look(SideOf(b, side), price)
    else
      var last := writes[|writes| - 1];
      if last.SetLevel? && last.side == side && last.level.price == price
      then (if last.level.size == 0.0 then None else Some(last.level.size))
      else Overlay(b, writes[..|writes| - 1], side, price)
  }

  ghost predicate OnlyLevels(writes: seq<Write>) {
    forall i :: 0 <= i < |writes| ==> writes[i].SetLevel?
  }

  lemma {:induction false} OverlayIs(b: Book, writes: seq<Write>, side: BookSide, price: real)
    requires OnlyLevels(writes)
    ensures Overlay(b, writes, side, price) ==
      if SizeAt(writes, side, price).Some? then SizeAt(writes, side, price)
      else if Overlay(b, writes, side, price).None? then None else Look(SideOf(b, side), price)
  {
    if writes != [] {
      OverlayIs(b, writes[..|writes| - 1], side, price);
    }
  }

  lemma {:induction false} Untouched(b: Book, writes: seq<Write>, side: BookSide, price: real)
    requires OnlyLevels(writes) && forall i :: 0 <= i < |writes| ==> writes[i].level.price != price
    ensures Overlay(b, writes, side, price) == Look(SideOf(b, side), price)
  {
    if writes != [] {
      Untouched(b, writes[..|writes| - 1], side, price);
    }
  }

  lemma {:induction false} PositiveIsWritten(writes: seq<Write>, side: BookSide, price: real)
    requires OnlyLevels(writes) && SizeAt(writes, side, price).Some?
    ensures exists i :: 0 <= i < |writes| && writes[i].level.price == price
  {
    if writes != [] {
      var last := writes[|writes| - 1];
      if !(last.side == side && last.level.price == price) {
        PositiveIsWritten(writes[..|writes| - 1], side, price);
      }
    }
  }

  lemma {:induction false} OwnWritesAreLevels(token: TokenId, entries: seq<Entry>, n: nat)
    requires n <= |entries| && OwnGood(token, entries, n)
    ensures OnlyLevels(OwnWrites(token, entries, n))
    decreases n
  {
    if n > 0 {
      OwnWritesAreLevels(token, entries, n - 1);
    }
  }

  ghost predicate LaidOver(after: Book, b: Book, writes: seq<Write>) {
    forall side: BookSide, price: real :: !side.OtherSide? ==> Look(SideOf(after, side), price) == Overlay(b, writes, side, price)
  }

  /** A book that is still valid took every entry, and is the batch laid over what it was. */
  lemma {:induction false} ValidTookAll(token: TokenId, b: Book, maxOutOfOrder: int, entries: seq<Entry>, n: nat, received: int,
                                        exchange: Option<int>)
    requires n <= |entries|
    requires OneBook(token, b, maxOutOfOrder, entries, n, received, exchange).book.valid
    ensures b.valid && OwnGood(token, entries, n)
    ensures LaidOver(OneBook(token, b, maxOutOfOrder, entries, n, received, exchange).book, b, OwnWrites(token, entries, n))
    decreases n
  {
    if n > 0 {
      hide LaidOver, Stale;
      ValidTookAll(token, b, maxOutOfOrder, entries, n - 1, received, exchange);
      var prior := OneBook(token, b, maxOutOfOrder, entries, n - 1, received, exchange).book;
      if Own(entries[n - 1], token) {
        LayOne(b, prior, maxOutOfOrder, entries[n - 1], received, exchange, OwnWrites(token, entries, n - 1));
      }
    } else {
      NothingLaid(b);
    }
  }

  lemma NothingLaid(b: Book)
    ensures LaidOver(b, b, [])
  {
  }

  lemma LayOne(b: Book, prior: Book, maxOutOfOrder: int, e: Entry, received: int, exchange: Option<int>, writes: seq<Write>)
    requires LaidOver(prior, b, writes) && GoodEntry(e) && prior.valid && !Stale(prior, maxOutOfOrder, exchange)
    ensures LaidOver(ApplyLevel(prior, maxOutOfOrder, e.side, Level(e.price.value, e.size.value), received, exchange), b, writes + [WriteOf(e)])
  {
    assert (writes + [WriteOf(e)])[..|writes|] == writes;
  }

  // ---------------------------------------------------------------- harmless

  /** Entries that add nothing on balance cannot cross a book. */
  lemma HarmlessSound(token: TokenId, b: Book, maxOutOfOrder: int, entries: seq<Entry>, n: nat, received: int, exchange: Option<int>)
    requires n <= |entries| && Sound(b) && !HarmfulTo(token, entries, n)
    ensures Sound(OneBook(token, b, maxOutOfOrder, entries, n, received, exchange).book)
  {
    hide LaidOver, NetPositive, Sane;
    BatchSane(token, b, maxOutOfOrder, entries, n, received, exchange);
    var after := OneBook(token, b, maxOutOfOrder, entries, n, received, exchange).book;
    if after.valid {
      ValidTookAll(token, b, maxOutOfOrder, entries, n, received, exchange);
      if Crossed(after) {
        var x, y :| x in after.bids && y in after.asks && x >= y;
        OnlyOldLevels(token, b, after, entries, n, BuySide, x);
        OnlyOldLevels(token, b, after, entries, n, SellSide, y);
        CrossedBy(b, BuySide, x, SellSide, y);
      }
    }
  }

  lemma OnlyOldLevels(token: TokenId, b: Book, after: Book, entries: seq<Entry>, n: nat, side: BookSide, price: real)
    requires n <= |entries| && OwnGood(token, entries, n) && !NetPositive(token, entries, n) && !side.OtherSide?
    requires LaidOver(after, b, OwnWrites(token, entries, n)) && price in SideOf(after, side)
    ensures price in SideOf(b, side)
  {
    OwnWritesAreLevels(token, entries, n);
    OverlayIs(b, OwnWrites(token, entries, n), side, price);
    assert SizeAt(OwnWrites(token, entries, n), side, price).None?;
    assert Look(SideOf(after, side), price) == Overlay(b, OwnWrites(token, entries, n), side, price);
  }

  // ---------------------------------------------------------------- harmful

  lemma {:induction false} GoodStaysValid(token: TokenId, b: Book, maxOutOfOrder: int, entries: seq<Entry>, n: nat, received: int,
                                          exchange: Option<int>)
    requires n <= |entries| && OwnGood(token, entries, n) && b.valid && b.exchangeMs.None? && maxOutOfOrder >= 0
    ensures var after := OneBook(token, b, maxOutOfOrder, entries, n, received, exchange).book;
      after.valid && (after.exchangeMs.None? || after.exchangeMs == exchange)
    decreases n
  {
    if n > 0 {
      hide GoodLevel, Written;
      GoodStaysValid(token, b, maxOutOfOrder, entries, n - 1, received, exchange);
    }
  }

  /** A price below every own price, and one above. */
  lemma {:induction false} Bounds(token: TokenId, entries: seq<Entry>, n: nat) returns (low: real, high: real)
    requires n <= |entries| && OwnGood(token, entries, n)
    ensures 0.0 < low < 1.0 && 0.0 < high < 1.0
    ensures forall i :: 0 <= i < |OwnWrites(token, entries, n)| ==>
      OwnWrites(token, entries, n)[i].SetLevel? && low < OwnWrites(token, entries, n)[i].level.price < high
    decreases n
  {
    if n == 0 {
      low, high := 0.5, 0.5;
    } else {
      low, high := Bounds(token, entries, n - 1);
      if Own(entries[n - 1], token) {
        var price := entries[n - 1].price.value;
        low := if price / 2.0 < low then price / 2.0 else low;
        high := if (price + 1.0) / 2.0 > high then (price + 1.0) / 2.0 else high;
      }
    }
  }

  function OneLevelBook(side: BookSide, price: real): Book {
    Book(if side.BuySide? then map[price := 1.0] else map[], if side.SellSide? then map[price := 1.0] else map[],
         true, Some(0), None, None, 1)
  }

  /** Against a single resting level just beyond them, such entries cross a sound book. */
  lemma HarmfulCrosses(token: TokenId, maxOutOfOrder: int, entries: seq<Entry>, n: nat, received: int, exchange: Option<int>) returns (b: Book)
    requires n <= |entries| && HarmfulTo(token, entries, n) && maxOutOfOrder >= 0
    ensures Sound(b) && !Sound(OneBook(token, b, maxOutOfOrder, entries, n, received, exchange).book)
  {
    var writes := OwnWrites(token, entries, n);
    var side: BookSide, price: real :| !side.OtherSide? && SizeAt(writes, side, price).Some?;
    OwnWritesAreLevels(token, entries, n);
    PositiveIsWritten(writes, side, price);
    var low, high := Bounds(token, entries, n);
    var resting := if side.BuySide? then low else high;
    var other := if side.BuySide? then SellSide else BuySide;
    b := OneLevelBook(other, resting);
    assert Sound(b);
    GoodStaysValid(token, b, maxOutOfOrder, entries, n, received, exchange);
    ValidTookAll(token, b, maxOutOfOrder, entries, n, received, exchange);
    var after := OneBook(token, b, maxOutOfOrder, entries, n, received, exchange).book;
    Untouched(b, writes, other, resting);
    OverlayIs(b, writes, side, price);
    assert Look(SideOf(after, other), resting) == Some(1.0);
    assert Look(SideOf(after, side), price).Some?;
    CrossedBy(after, side, price, other, resting);
  }

  lemma CrossedBy(b: Book, side: BookSide, price: real, other: BookSide, resting: real)
    requires !side.OtherSide? && other == (if side.BuySide? then SellSide else BuySide)
    requires price in SideOf(b, side) && resting in SideOf(b, other) && (if side.BuySide? then resting <= price else price <= resting)
    ensures Crossed(b)
  {
    var x, y := if side.BuySide? then price else resting, if side.BuySide? then resting else price;
    assert x in b.bids && y in b.asks && x >= y;
  }

  ghost predicate KeepsSound(maxOutOfOrder: int, asset: TokenId, entries: seq<Entry>, received: int, exchange: Option<int>) {
    forall token: TokenId, b: Book :: Sound(b) ==> Sound(AfterChanges(token, b, maxOutOfOrder, asset, entries, received, exchange))
  }

  /** The exact condition: an aborted event keeps every sound book sound just when no token's
      readable entries are all well formed and add liquidity on balance. */
  lemma AbortIsSafeExactly(maxOutOfOrder: int, asset: TokenId, entries: seq<Entry>, received: int, exchange: Option<int>)
    requires Readable(entries) < |entries| && maxOutOfOrder >= 0
    ensures KeepsSound(maxOutOfOrder, asset, entries, received, exchange) <==> !Harmful(asset, entries)
  {
    hide HarmfulTo, Sound, OneBook;
    var n := Readable(entries);
    if Harmful(asset, entries) {
      var token: TokenId :| token != asset && HarmfulTo(token, entries, n);
      var b := HarmfulCrosses(token, maxOutOfOrder, entries, n, received, exchange);
      assert AfterChanges(token, b, maxOutOfOrder, asset, entries, received, exchange)
        == OneBook(token, b, maxOutOfOrder, entries, n, received, exchange).book;
    } else {
      forall token: TokenId, b: Book | Sound(b)
        ensures Sound(AfterChanges(token, b, maxOutOfOrder, asset, entries, received, exchange))
      {
        if token == asset {
          AssetInvalid(token, b, maxOutOfOrder, entries, n, received, exchange);
        } else {
          HarmlessSound(token, b, maxOutOfOrder, entries, n, received, exchange);
        }
      }
    }
  }

  lemma AssetInvalid(token: TokenId, b: Book, maxOutOfOrder: int, entries: seq<Entry>, n: nat, received: int, exchange: Option<int>)
    requires n <= |entries| && Sound(b)
    ensures Sound(Invalidate(OneBook(token, b, maxOutOfOrder, entries, n, received, exchange).book))
  {
    hide Crossed;
    BatchSane(token, b, maxOutOfOrder, entries, n, received, exchange);
    InvalidSound(OneBook(token, b, maxOutOfOrder, entries, n, received, exchange).book);
  }
}
