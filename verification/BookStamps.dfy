/** Which messages a book takes, from their stamps and their levels alone: the newest stamp taken so
    far decides whether a message is too late, and the levels decide the rest. */
module BookStamps {
  import opened Domain
  import opened OrderBook
  import opened ClobMessages

  /** A write a book has taken, with the stamp of the message it came in. */
  datatype Stamped = Stamped(write: Write, stamp: Option<int>)

  function StampAll(writes: seq<Write>, stamp: Option<int>): seq<Stamped> {
    seq(|writes|, i requires 0 <= i < |writes| => Stamped(writes[i], stamp))
  }

  /** The newest stamp among the writes since the last snapshot, that snapshot included. A stamp of
      zero counts as none once a later one has come. */
  function Newest(taken: seq<Stamped>): Option<int> {
    if taken == [] then None
    else
      var last := taken[|taken| - 1];
      var before := Newest(taken[..|taken| - 1]);
      if last.write.Reset? then last.stamp
      else if last.stamp.None? then before
      else if before.Some? && before.value != 0 && before.value > last.stamp.value then before
      else last.stamp
  }

  /** What one event adds, stamped. */
  function TakenBy(token: TokenId, b: Book, maxOutOfOrder: int, ev: MarketEvent, received: int): seq<Stamped> {
    StampAll(LogEvent(token, b, maxOutOfOrder, ev, received, []), ev.stamp.Ms())
  }

  /** Everything taken by the end of a run. */
  function TakenOver(token: TokenId, b: Book, maxOutOfOrder: int, events: seq<Received>, taken: seq<Stamped>): seq<Stamped>
    decreases |events|
  {
    if events == [] then taken
    else
      TakenOver(token, AfterEvent(token, b, maxOutOfOrder, events[0].ev, events[0].at), maxOutOfOrder, events[1..],
                taken + TakenBy(token, b, maxOutOfOrder, events[0].ev, events[0].at))
  }

  /** A book's stamp is the newest of what it has taken. */
  ghost predicate NewestOf(stamp: Option<int>, taken: seq<Stamped>, writes: seq<Write>, exchange: Option<int>) {
    stamp == Newest(taken + StampAll(writes, exchange))
  }

  // ---------------------------------------------------------------- the newest stamp

  lemma NewestOfNext(taken: seq<Stamped>, next: Stamped)
    ensures Newest(taken + [next])
      == if next.write.Reset? then next.stamp
         else if next.stamp.None? then Newest(taken)
         else if Newest(taken).Some? && Newest(taken).value != 0 && Newest(taken).value > next.stamp.value then Newest(taken)
         else next.stamp
  {
    assert (taken + [next])[..|taken|] == taken;
  }

  lemma StampOneMore(writes: seq<Write>, write: Write, stamp: Option<int>)
    ensures StampAll(writes + [write], stamp) == StampAll(writes, stamp) + [Stamped(write, stamp)]
  {
  }

  /** With stamps that are not negative, no write since the last snapshot is newer. */
  lemma {:induction false} NothingNewer(taken: seq<Stamped>, i: nat)
    requires i < |taken| && taken[i].stamp.Some?
    requires forall j :: 0 <= j < |taken| && taken[j].stamp.Some? ==> taken[j].stamp.value >= 0
    requires forall j :: i < j < |taken| ==> taken[j].write.SetLevel?
    ensures Newest(taken).Some? && taken[i].stamp.value <= Newest(taken).value
  {
    var before := taken[..|taken| - 1];
    assert taken == before + [taken[|taken| - 1]];
    NewestOfNext(before, taken[|taken| - 1]);
    if i < |before| {
      NothingNewer(before, i);
    }
  }

  lemma {:induction false} BatchStamp(token: TokenId, b: Book, maxOutOfOrder: int, entries: seq<Entry>, n: nat, received: int,
                                      exchange: Option<int>, taken: seq<Stamped>)
    requires n <= |entries| && b.exchangeMs == Newest(taken)
    ensures NewestOf(OneBook(token, b, maxOutOfOrder, entries, n, received, exchange).book.exchangeMs, taken,
                     LogBatch(token, b, maxOutOfOrder, entries, n, received, exchange, []), exchange)
    decreases n
  {
    if n == 0 {
      NothingAdded(taken, exchange);
    } else {
      hide NewestOf, ApplyLevel, LogLevel;
      BatchStamp(token, b, maxOutOfOrder, entries, n - 1, received, exchange, taken);
      var entry := entries[n - 1];
      if entry.Change? && entry.price.Some? && entry.size.Some? {
        LevelStamp(OneBook(token, b, maxOutOfOrder, entries, n - 1, received, exchange).book, maxOutOfOrder, entry.side,
                   Level(entry.price.value, entry.size.value), received, exchange,
                   LogBatch(token, b, maxOutOfOrder, entries, n - 1, received, exchange, []), taken);
      }
    }
  }

  lemma LevelStamp(b: Book, maxOutOfOrder: int, side: BookSide, level: Level, received: int, exchange: Option<int>, before: seq<Write>,
                   taken: seq<Stamped>)
    requires NewestOf(b.exchangeMs, taken, before, exchange)
    ensures NewestOf(ApplyLevel(b, maxOutOfOrder, side, level, received, exchange).exchangeMs, taken,
                     LogLevel(b, maxOutOfOrder, side, level, exchange, before), exchange)
  {
    hide Newest, Stale, StampAll, Written;
    var write := SetLevel(side, level);
    StampOneMore(before, write, exchange);
    NewestOfNext(taken + StampAll(before, exchange), Stamped(write, exchange));
    assert taken + (StampAll(before, exchange) + [Stamped(write, exchange)])
      == taken + StampAll(before, exchange) + [Stamped(write, exchange)];
  }

  lemma NothingAdded(taken: seq<Stamped>, stamp: Option<int>)
    ensures taken + StampAll([], stamp) == taken
  {
  }

  lemma EventStamp(token: TokenId, b: Book, maxOutOfOrder: int, ev: MarketEvent, received: int, taken: seq<Stamped>)
    requires b.exchangeMs == Newest(taken)
    ensures AfterEvent(token, b, maxOutOfOrder, ev, received).exchangeMs
      == Newest(taken + TakenBy(token, b, maxOutOfOrder, ev, received))
  {
    hide Newest, OneBook, LogBatch, LogSnapshot, ApplySnapshot, StampAll, Crossed, IsHighest, IsLowest;
    NothingAdded(taken, ev.stamp.Ms());
    if ev.PriceChange? && ev.entries.Some? {
      BatchStamp(token, b, maxOutOfOrder, ev.entries.value, Readable(ev.entries.value), received, ev.stamp.Ms(), taken);
    } else if ev.FullBook? && ev.bids.Some? && ev.asks.Some? {
      SnapshotStamp(b, maxOutOfOrder, ev.bids.value, ev.asks.value, received, ev.stamp.Ms(), EchoValue(ev.tick), taken);
    }
  }

  lemma SnapshotStamp(b: Book, maxOutOfOrder: int, bids: seq<Level>, asks: seq<Level>, received: int, exchange: Option<int>,
                      tick: Option<real>, taken: seq<Stamped>)
    requires b.exchangeMs == Newest(taken)
    ensures ApplySnapshot(b, maxOutOfOrder, bids, asks, received, exchange, tick).exchangeMs
      == Newest(taken + StampAll(LogSnapshot(b, maxOutOfOrder, bids, asks, exchange, []), exchange))
  {
    hide Newest, GoodLevels, Crossed, Assign;
    var write := Reset(bids, asks);
    assert taken + StampAll([], exchange) == taken;
    assert [] + [write] == [write];
    assert StampAll([write], exchange) == [Stamped(write, exchange)];
    NewestOfNext(taken, Stamped(write, exchange));
  }

  lemma {:induction false} RunStamp(books: Books, maxOutOfOrder: int, events: seq<Received>, token: TokenId, taken: seq<Stamped>)
    requires token in books && books[token].exchangeMs == Newest(taken)
    ensures token in Run(books, maxOutOfOrder, events)
    ensures Run(books, maxOutOfOrder, events)[token].exchangeMs == Newest(TakenOver(token, books[token], maxOutOfOrder, events, taken))
    decreases |events|
  {
    if events != [] {
      hide AfterEvent, TakenBy, Newest;
      var b, first := books[token], events[0];
      EventStamp(token, b, maxOutOfOrder, first.ev, first.at, taken);
      RunStamp(ApplyEvent(books, maxOutOfOrder, first.ev, first.at), maxOutOfOrder, events[1..], token,
               taken + TakenBy(token, b, maxOutOfOrder, first.ev, first.at));
    }
  }

  // ---------------------------------------------------------------- one event more

  lemma {:induction false} RunOneMore(books: Books, maxOutOfOrder: int, events: seq<Received>, last: Received, token: TokenId,
                                      taken: seq<Stamped>)
    requires token in books
    ensures token in Run(books, maxOutOfOrder, events)
    ensures token in Run(books, maxOutOfOrder, events + [last])
    ensures Run(books, maxOutOfOrder, events + [last])[token]
      == AfterEvent(token, Run(books, maxOutOfOrder, events)[token], maxOutOfOrder, last.ev, last.at)
    ensures TakenOver(token, books[token], maxOutOfOrder, events + [last], taken)
      == TakenOver(token, books[token], maxOutOfOrder, events, taken)
         + TakenBy(token, Run(books, maxOutOfOrder, events)[token], maxOutOfOrder, last.ev, last.at)
    decreases |events|
  {
    hide AfterEvent, TakenBy;
    var all := events + [last];
    if events == [] {
      assert all == [last] && all[1..] == [];
      var after := ApplyEvent(books, maxOutOfOrder, last.ev, last.at);
      assert Run(books, maxOutOfOrder, all) == Run(after, maxOutOfOrder, []) == after;
      var more := taken + TakenBy(token, books[token], maxOutOfOrder, last.ev, last.at);
      assert TakenOver(token, after[token], maxOutOfOrder, [], more) == more;
    } else {
      assert all[1..] == events[1..] + [last];
      RunOneMore(ApplyEvent(books, maxOutOfOrder, events[0].ev, events[0].at), maxOutOfOrder, events[1..], last, token,
                 taken + TakenBy(token, books[token], maxOutOfOrder, events[0].ev, events[0].at));
    }
  }

  // ---------------------------------------------------------------- snapshots

  predicate IsSnapshotFor(ev: MarketEvent, token: TokenId) {
    ev.FullBook? && ev.asset == token && !ev.stamp.BadStamp? && ev.bids.Some? && ev.asks.Some? && !ev.tick.Malformed?
  }

  /** Every price strictly between 0 and 1 and no negative size. */
  ghost predicate AllInRange(levels: seq<Level>) {
    forall level :: level in levels ==> 0.0 < level.price < 1.0 && level.size >= 0.0
  }

  lemma InRangeIsGood(levels: seq<Level>)
    ensures AllInRange(levels) <==> GoodLevels(levels)
  {
    if GoodLevels(levels) {
      forall level | level in levels
        ensures 0.0 < level.price < 1.0 && level.size >= 0.0
      {
        var i :| 0 <= i < |levels| && levels[i] == level;
        assert GoodLevel(levels[i]);
      }
    } else {
      var i :| 0 <= i < |levels| && !GoodLevel(levels[i]);
      assert levels[i] in levels;
    }
  }

  /** The sizes of `ladder` are, price by price, those of the last entry with a positive size. */
  ghost predicate HoldsLevels(ladder: Ladder, levels: seq<Level>) {
    forall price: real :: Look(ladder, price) == LastPositive(levels, price)
  }

  /** A readable snapshot after any events from the start of a connection, from its stamp and the
      newest one taken: a usable book ignores it exactly when it is older by more than the
      tolerance; any other replaces both sides and the stamp, or, with a bad level, invalidates. */
  lemma SnapshotTakenExactly(books: Books, maxOutOfOrder: int, events: seq<Received>, token: TokenId, ev: MarketEvent, at: int)
    requires AllFresh(books) && token in books && IsSnapshotFor(ev, token)
    ensures var all := events + [Received(ev, at)];
      && token in Run(books, maxOutOfOrder, events) && token in Run(books, maxOutOfOrder, all)
      && var b, after := Run(books, maxOutOfOrder, events)[token], Run(books, maxOutOfOrder, all)[token];
        var taken, took := TakenOver(token, NO_BOOK, maxOutOfOrder, events, []), TakenOver(token, NO_BOOK, maxOutOfOrder, all, []);
        if b.valid && ev.stamp.At? && Newest(taken).Some? && ev.stamp.ms < Newest(taken).value - maxOutOfOrder then
          took == taken && after == b.(valid := !ev.lastTrade.Malformed?)
        else if AllInRange(ev.bids.value) && AllInRange(ev.asks.value) then
          && took == taken + [Stamped(Reset(ev.bids.value, ev.asks.value), if ev.stamp.At? then Some(ev.stamp.ms) else None)]
          && HoldsLevels(after.bids, ev.bids.value) && HoldsLevels(after.asks, ev.asks.value)
          && after.exchangeMs == (if ev.stamp.At? then Some(ev.stamp.ms) else None)
          && after.receivedMs == Some(at) && after.sequence == b.sequence + 1
          && (after.valid <==> !ev.lastTrade.Malformed? && forall x, y :: x in after.bids && y in after.asks ==> x < y)
        else
          took == taken && after == b.(valid := false)
  {
    hide Run, TakenOver, Newest, StampAll, Assign;
    NothingTakenAtFirst();
    RunStamp(books, maxOutOfOrder, events, token, []);
    RunOneMore(books, maxOutOfOrder, events, Received(ev, at), token, []);
    InRangeIsGood(ev.bids.value);
    InRangeIsGood(ev.asks.value);
    SnapshotStep(Run(books, maxOutOfOrder, events)[token], maxOutOfOrder, token, ev, at);
  }

  lemma NothingTakenAtFirst()
    ensures Newest([]) == None
  {
  }

  lemma SnapshotStep(b: Book, maxOutOfOrder: int, token: TokenId, ev: MarketEvent, at: int)
    requires IsSnapshotFor(ev, token)
    ensures var after, took := AfterEvent(token, b, maxOutOfOrder, ev, at), TakenBy(token, b, maxOutOfOrder, ev, at);
      if b.valid && ev.stamp.At? && b.exchangeMs.Some? && ev.stamp.ms < b.exchangeMs.value - maxOutOfOrder then
        took == [] && after == b.(valid := !ev.lastTrade.Malformed?)
      else if GoodLevels(ev.bids.value) && GoodLevels(ev.asks.value) then
        && took == [Stamped(Reset(ev.bids.value, ev.asks.value), if ev.stamp.At? then Some(ev.stamp.ms) else None)]
        && HoldsLevels(after.bids, ev.bids.value) && HoldsLevels(after.asks, ev.asks.value)
        && after.exchangeMs == (if ev.stamp.At? then Some(ev.stamp.ms) else None)
        && after.receivedMs == Some(at) && after.sequence == b.sequence + 1
        && (after.valid <==> !ev.lastTrade.Malformed? && forall x, y :: x in after.bids && y in after.asks ==> x < y)
      else
        took == [] && after == b.(valid := false)
  {
    hide GoodLevels, Assign, Crossed, LastPositive, HoldsLevels;
    var bids, asks := ev.bids.value, ev.asks.value;
    AssignHolds(bids);
    AssignHolds(asks);
    var taken := Book(Assign(bids), Assign(asks), true, Some(at), ev.stamp.Ms(),
                      if EchoValue(ev.tick).Some? && AllowedTick(ev.tick.value) then EchoValue(ev.tick) else b.tick, b.sequence + 1);
    CrossedMeans(taken);
  }

  lemma AssignHolds(levels: seq<Level>)
    ensures HoldsLevels(Assign(levels), levels)
  {
    forall price: real
      ensures Look(Assign(levels), price) == LastPositive(levels, price)
    {
      AssignIs(levels, price);
    }
  }

  lemma CrossedMeans(b: Book)
    ensures Crossed(b) <==> !forall x, y :: x in b.bids && y in b.asks ==> x < y
  {
  }

  // ---------------------------------------------------------------- price changes

  /** The entries about `token`, in order. */
  function Own(token: TokenId, entries: seq<Entry>): seq<Entry> {
    if entries == [] then []
    else
      var last := entries[|entries| - 1];
      Own(token, entries[..|entries| - 1]) + if last.Change? && last.token == token then [last] else []
  }

  /** A readable level of one of the two sides, its price strictly between 0 and 1. */
  predicate GoodEntry(entry: Entry) {
    && entry.Change? && entry.price.Some? && entry.size.Some? && !entry.side.OtherSide?
    && 0.0 < entry.price.value < 1.0 && entry.size.value >= 0.0
  }

  /** The writes are those of the entries before the first bad one. */
  ghost predicate UpToFirstBad(writes: seq<Write>, own: seq<Entry>) {
    && |writes| <= |own|
    && (forall i :: 0 <= i < |writes| ==>
         GoodEntry(own[i]) && writes[i] == SetLevel(own[i].side, Level(own[i].price.value, own[i].size.value)))
    && (|writes| < |own| ==> !GoodEntry(own[|writes|]))
  }

  lemma UpToFirstBadNext(writes: seq<Write>, own: seq<Entry>, entry: Entry)
    requires UpToFirstBad(writes, own)
    ensures |writes| < |own| || !GoodEntry(entry) ==> UpToFirstBad(writes, own + [entry])
    ensures |writes| == |own| && GoodEntry(entry) ==>
      UpToFirstBad(writes + [SetLevel(entry.side, Level(entry.price.value, entry.size.value))], own + [entry])
  {
  }

  /** A usable book, before the checks, after its own entries of a batch that is not too late. */
  ghost predicate InBatch(b: Book, t: Track, writes: seq<Write>, own: seq<Entry>, received: int, exchange: Option<int>) {
    && UpToFirstBad(writes, own)
    && (t.book.valid <==> |writes| == |own|)
    && (writes == [] ==> t.book.exchangeMs == b.exchangeMs && t.book.receivedMs == b.receivedMs)
    && (writes != [] ==> t.book.receivedMs == Some(received))
    && (writes != [] && exchange.Some? ==>
         t.book.exchangeMs
           == if b.exchangeMs.Some? && b.exchangeMs.value != 0 && b.exchangeMs.value > exchange.value then b.exchangeMs else exchange)
    && (exchange.None? ==> t.book.exchangeMs == b.exchangeMs)
    && t.book.sequence == b.sequence + |writes|
    && (own == [] ==> t == Track(b, None))
    && (own != [] && t.book.valid ==> t.echo == Some((own[|own| - 1].bestBid, own[|own| - 1].bestAsk)))
  }

  ghost predicate OnTime(b: Book, maxOutOfOrder: int, exchange: Option<int>) {
    exchange.None? || b.exchangeMs.None? || b.exchangeMs.value <= exchange.value + maxOutOfOrder
  }

  lemma {:induction false} OwnChanges(token: TokenId, entries: seq<Entry>)
    ensures forall i :: 0 <= i < |Own(token, entries)| ==> Own(token, entries)[i].Change?
  {
    if entries != [] {
      OwnChanges(token, entries[..|entries| - 1]);
    }
  }

  lemma EntryInBatch(b: Book, t: Track, writes: seq<Write>, own: seq<Entry>, maxOutOfOrder: int, entry: Entry, received: int,
                     exchange: Option<int>)
    requires b.valid && 0 <= maxOutOfOrder && OnTime(b, maxOutOfOrder, exchange)
    requires InBatch(b, t, writes, own, received, exchange) && entry.Change?
    ensures InBatch(b, Took(t, maxOutOfOrder, entry, received, exchange),
                    if entry.price.Some? && entry.size.Some?
                    then LogLevel(t.book, maxOutOfOrder, entry.side, Level(entry.price.value, entry.size.value), exchange, writes)
                    else writes,
                    own + [entry], received, exchange)
  {
    hide UpToFirstBad, Written;
    UpToFirstBadNext(writes, own, entry);
    FirstBadFits(writes, own);
  }

  lemma FirstBadFits(writes: seq<Write>, own: seq<Entry>)
    requires UpToFirstBad(writes, own)
    ensures |writes| <= |own|
  {
  }

  lemma {:induction false} BatchOnTime(token: TokenId, b: Book, maxOutOfOrder: int, entries: seq<Entry>, n: nat, received: int,
                                       exchange: Option<int>)
    requires n <= |entries| && b.valid && 0 <= maxOutOfOrder && OnTime(b, maxOutOfOrder, exchange)
    ensures InBatch(b, OneBook(token, b, maxOutOfOrder, entries, n, received, exchange),
                    LogBatch(token, b, maxOutOfOrder, entries, n, received, exchange, []), Own(token, entries[..n]), received, exchange)
    decreases n
  {
    if n > 0 {
      hide InBatch, OnTime, Took, LogLevel;
      BatchOnTime(token, b, maxOutOfOrder, entries, n - 1, received, exchange);
      assert entries[..n][..n - 1] == entries[..n - 1];
      var entry := entries[n - 1];
      var own := Own(token, entries[..n - 1]);
      if entry.Change? && entry.token == token {
        EntryInBatch(b, OneBook(token, b, maxOutOfOrder, entries, n - 1, received, exchange),
                     LogBatch(token, b, maxOutOfOrder, entries, n - 1, received, exchange, []), own, maxOutOfOrder, entry, received, exchange);
      } else {
        assert own + [] == own;
      }
    } else {
      assert entries[..0] == [];
    }
  }

  /** A batch that is too late, or comes to an unusable book, writes nothing; a usable book it
      has entries for becomes unusable. */
  lemma {:induction false} BatchTooLate(token: TokenId, b: Book, maxOutOfOrder: int, entries: seq<Entry>, n: nat, received: int,
                                        exchange: Option<int>)
    requires n <= |entries| && (b.valid ==> !OnTime(b, maxOutOfOrder, exchange))
    ensures LogBatch(token, b, maxOutOfOrder, entries, n, received, exchange, []) == []
    ensures var own, t := Own(token, entries[..n]), OneBook(token, b, maxOutOfOrder, entries, n, received, exchange);
      t.book == (if own == [] then b else b.(valid := false)) && (own == [] ==> t.echo.None?)
    decreases n
  {
    if n > 0 {
      hide Written, GoodLevel;
      BatchTooLate(token, b, maxOutOfOrder, entries, n - 1, received, exchange);
      assert entries[..n][..n - 1] == entries[..n - 1];
    } else {
      assert entries[..0] == [];
    }
  }

  /** What a book must show for the checks after its levels: not crossed, and the last echo readable
      and, where it names a best price, that price the best of its side. */
  ghost predicate PassesChecks(b: Book, echoBid: Field, echoAsk: Field) {
    && (forall x, y :: x in b.bids && y in b.asks ==> x < y)
    && !echoBid.Malformed? && !echoAsk.Malformed?
    && (echoBid.Given? && echoBid.value > 0.0 ==> echoBid.value in b.bids && forall x :: x in b.bids ==> x <= echoBid.value)
    && (echoAsk.Given? && echoAsk.value < 1.0 ==> echoAsk.value in b.asks && forall y :: y in b.asks ==> echoAsk.value <= y)
  }

  lemma VerifiedExactly(b: Book, echo: (Field, Field))
    ensures Verified(b, echo) == b.(valid := b.valid && PassesChecks(b, echo.0, echo.1))
  {
    CrossedMeans(b);
  }

  lemma PriceChangeStep(b: Book, maxOutOfOrder: int, token: TokenId, ev: MarketEvent, at: int)
    requires 0 <= maxOutOfOrder && ev.PriceChange? && !ev.stamp.BadStamp? && ev.entries.Some?
    ensures var after, writes := AfterEvent(token, b, maxOutOfOrder, ev, at), LogEvent(token, b, maxOutOfOrder, ev, at, []);
      var cut := Readable(ev.entries.value);
      var own := Own(token, ev.entries.value[..cut]);
      var late := !OnTime(b, maxOutOfOrder, ev.stamp.Ms());
      && (if b.valid && !late then UpToFirstBad(writes, own) else writes == [] && after.bids == b.bids && after.asks == b.asks)
      && (after.valid <==>
           && b.valid && (late ==> own == []) && (forall i :: 0 <= i < |own| ==> GoodEntry(own[i]))
           && (cut < |ev.entries.value| ==> token != ev.asset)
           && (cut == |ev.entries.value| && own != [] ==> PassesChecks(after, own[|own| - 1].bestBid, own[|own| - 1].bestAsk)))
      && after.sequence == b.sequence + |writes|
      && after.receivedMs == if writes != [] then Some(at) else b.receivedMs
  {
    hide OneBook, LogBatch, PassesChecks, UpToFirstBad, GoodEntry, Verified, OnTime, Own;
    var entries, n := ev.entries.value, Readable(ev.entries.value);
    var own := Own(token, entries[..n]);
    var t := OneBook(token, b, maxOutOfOrder, entries, n, at, ev.stamp.Ms());
    var writes := LogBatch(token, b, maxOutOfOrder, entries, n, at, ev.stamp.Ms(), []);
    if b.valid && OnTime(b, maxOutOfOrder, ev.stamp.Ms()) {
      BatchOnTime(token, b, maxOutOfOrder, entries, n, at, ev.stamp.Ms());
      AllGoodExactly(writes, own);
    } else {
      BatchTooLate(token, b, maxOutOfOrder, entries, n, at, ev.stamp.Ms());
    }
    if t.echo.Some? {
      VerifiedExactly(t.book, t.echo.value);
      SameChecks(t.book, t.echo.value);
    }
  }

  lemma AllGoodExactly(writes: seq<Write>, own: seq<Entry>)
    requires UpToFirstBad(writes, own)
    ensures |writes| == |own| <==> forall i :: 0 <= i < |own| ==> GoodEntry(own[i])
  {
  }

  lemma SameChecks(b: Book, echo: (Field, Field))
    ensures PassesChecks(Verified(b, echo), echo.0, echo.1) <==> PassesChecks(b, echo.0, echo.1)
  {
    VerifiedExactly(b, echo);
  }

  /** A price-change event after any events from the start of a connection: which of its levels a
      book takes, and when the book can be used afterwards. A usable book takes all its own entries
      up to the first bad one, unless the event is older than the newest stamp by more than the
      tolerance; then it takes none. It stays usable exactly when no entry was bad or late, the
      event was not cut short on its own account, and its last echo and its two sides agree. */
  lemma PriceChangeTakenExactly(books: Books, maxOutOfOrder: int, events: seq<Received>, token: TokenId, ev: MarketEvent, at: int)
    requires AllFresh(books) && token in books && 0 <= maxOutOfOrder
    requires ev.PriceChange? && !ev.stamp.BadStamp? && ev.entries.Some?
    ensures var all := events + [Received(ev, at)];
      && token in Run(books, maxOutOfOrder, events) && token in Run(books, maxOutOfOrder, all)
      && var b, after := Run(books, maxOutOfOrder, events)[token], Run(books, maxOutOfOrder, all)[token];
        var taken, took := TakenOver(token, NO_BOOK, maxOutOfOrder, events, []), TakenOver(token, NO_BOOK, maxOutOfOrder, all, []);
        var cut := Readable(ev.entries.value);
        var own := Own(token, ev.entries.value[..cut]);
        var late := ev.stamp.At? && Newest(taken).Some? && ev.stamp.ms < Newest(taken).value - maxOutOfOrder;
        && (b.valid && !late ==> exists writes :: UpToFirstBad(writes, own) && took == taken + StampAll(writes, ev.stamp.Ms()))
        && (!b.valid || late ==> took == taken && after.bids == b.bids && after.asks == b.asks)
        && (after.valid <==>
             && b.valid && (late ==> own == []) && (forall i :: 0 <= i < |own| ==> GoodEntry(own[i]))
             && (cut < |ev.entries.value| ==> token != ev.asset)
             && (cut == |ev.entries.value| && own != [] ==> PassesChecks(after, own[|own| - 1].bestBid, own[|own| - 1].bestAsk)))
        && after.sequence == b.sequence + |took| - |taken|
        && after.receivedMs == if |took| > |taken| then Some(at) else b.receivedMs
  {
    hide Run, TakenOver, Newest, AfterEvent, LogEvent;
    NothingTakenAtFirst();
    RunStamp(books, maxOutOfOrder, events, token, []);
    RunOneMore(books, maxOutOfOrder, events, Received(ev, at), token, []);
    OwnChanges(token, ev.entries.value[..Readable(ev.entries.value)]);
    PriceChangeStep(Run(books, maxOutOfOrder, events)[token], maxOutOfOrder, token, ev, at);
  }

  // ---------------------------------------------------------------- what a batch leaves at a price

  predicate On(entry: Entry, side: BookSide, price: real) {
    entry.Change? && entry.side == side && entry.price == Some(price)
  }

  /** What is at a price after the entries: the size of the last entry for it, nothing when that
      size is zero, and what was there before when no entry is for it. */
  ghost predicate LastEntryWins(before: Option<real>, after: Option<real>, own: seq<Entry>, side: BookSide, price: real) {
    || ((forall i :: 0 <= i < |own| ==> !On(own[i], side, price)) && after == before)
    || exists i :: 0 <= i < |own| && On(own[i], side, price) && (forall j :: i < j < |own| ==> !On(own[j], side, price))
         && after == if own[i].size == Some(0.0) then None else own[i].size
  }

  lemma NextEntryWins(before: Option<real>, after: Option<real>, own: seq<Entry>, entry: Entry, side: BookSide, price: real)
    requires LastEntryWins(before, after, own, side, price)
    ensures !On(entry, side, price) ==> LastEntryWins(before, after, own + [entry], side, price)
    ensures On(entry, side, price) ==>
      LastEntryWins(before, if entry.size == Some(0.0) then None else entry.size, own + [entry], side, price)
  {
    var more := own + [entry];
    if On(entry, side, price) {
      assert On(more[|own|], side, price);
    } else if exists i :: 0 <= i < |own| && On(own[i], side, price) {
      var i :| 0 <= i < |own| && On(own[i], side, price) && (forall j :: i < j < |own| ==> !On(own[j], side, price))
        && after == if own[i].size == Some(0.0) then None else own[i].size;
      assert On(more[i], side, price);
    }
  }

  function SideOf(b: Book, side: BookSide): Ladder {
    if side.BuySide? then b.bids else b.asks
  }

  lemma WrittenAt(b: Book, maxOutOfOrder: int, entry: Entry, received: int, exchange: Option<int>, side: BookSide, price: real)
    requires GoodEntry(entry) && !side.OtherSide?
    requires ApplyLevel(b, maxOutOfOrder, entry.side, Level(entry.price.value, entry.size.value), received, exchange).valid
    ensures var after := ApplyLevel(b, maxOutOfOrder, entry.side, Level(entry.price.value, entry.size.value), received, exchange);
      Look(SideOf(after, side), price)
        == if !On(entry, side, price) then Look(SideOf(b, side), price)
           else if entry.size == Some(0.0) then None else entry.size
  {
  }

  lemma {:induction false} BatchAtPrice(token: TokenId, b: Book, maxOutOfOrder: int, entries: seq<Entry>, n: nat, received: int,
                                        exchange: Option<int>, side: BookSide, price: real)
    requires n <= |entries| && !side.OtherSide?
    ensures var after := OneBook(token, b, maxOutOfOrder, entries, n, received, exchange).book;
      after.valid ==> LastEntryWins(Look(SideOf(b, side), price), Look(SideOf(after, side), price), Own(token, entries[..n]), side, price)
    decreases n
  {
    if n == 0 {
      assert entries[..0] == [];
    } else {
      hide LastEntryWins, Look, Written, Stale;
      BatchAtPrice(token, b, maxOutOfOrder, entries, n - 1, received, exchange, side, price);
      assert entries[..n][..n - 1] == entries[..n - 1];
      var entry, own := entries[n - 1], Own(token, entries[..n - 1]);
      var prior := OneBook(token, b, maxOutOfOrder, entries, n - 1, received, exchange).book;
      var after := OneBook(token, b, maxOutOfOrder, entries, n, received, exchange).book;
      if after.valid && entry.Change? && entry.token == token {
        WrittenAt(prior, maxOutOfOrder, entry, received, exchange, side, price);
        NextEntryWins(Look(SideOf(b, side), price), Look(SideOf(prior, side), price), own, entry, side, price);
      } else {
        assert own + [] == own;
      }
    }
  }

  /** A book that is usable after a price-change event shows, at every price of both sides, the last
      of its own entries for that price, and otherwise what it showed before. */
  lemma PriceChangeAtPrice(token: TokenId, b: Book, maxOutOfOrder: int, ev: MarketEvent, at: int, side: BookSide, price: real)
    requires ev.PriceChange? && !ev.stamp.BadStamp? && ev.entries.Some? && !side.OtherSide?
    requires AfterEvent(token, b, maxOutOfOrder, ev, at).valid
    ensures var after, own := AfterEvent(token, b, maxOutOfOrder, ev, at), Own(token, ev.entries.value[..Readable(ev.entries.value)]);
      LastEntryWins(Look(SideOf(b, side), price), Look(SideOf(after, side), price), own, side, price)
  {
    hide LastEntryWins, Look, OneBook, Verified;
    var n := Readable(ev.entries.value);
    BatchAtPrice(token, b, maxOutOfOrder, ev.entries.value, n, at, ev.stamp.Ms(), side, price);
    var t := OneBook(token, b, maxOutOfOrder, ev.entries.value, n, at, ev.stamp.Ms());
    if t.echo.Some? {
      VerifiedExactly(t.book, t.echo.value);
    }
  }

  // ---------------------------------------------------------------- every other event

  /** The events that are neither a readable snapshot nor a readable price change touch no ladder,
      and only the book they name: unreadable ones make it unusable, as does an unsupported tick. */
  lemma OtherEventsExactly(token: TokenId, b: Book, maxOutOfOrder: int, ev: MarketEvent, at: int)
    requires token == ev.asset ==> !IsSnapshotFor(ev, token)
    requires ev.PriceChange? ==> ev.stamp.BadStamp? || ev.entries.None?
    ensures var after := AfterEvent(token, b, maxOutOfOrder, ev, at);
      && after == b.(valid := after.valid, tick := after.tick)
      && (token != ev.asset ==> after == b)
      && (token == ev.asset ==>
           (after.valid <==>
             && b.valid && !ev.stamp.BadStamp? && !ev.FullBook? && !ev.PriceChange?
             && (ev.TickSizeChange? ==> ev.tick.Given? && ev.tick.value in [0.1, 0.01, 0.005, 0.0025, 0.001, 0.0001])
             && (ev.LastTradePrice? ==> ev.price.Given?)))
      && (after.tick != b.tick ==> ev.TickSizeChange? && ev.tick.Given? && after.tick == Some(ev.tick.value))
  {
  }

  // ---------------------------------------------------------------- what follows over runs

  /** A book that stays usable over an event never goes back in time by more than the tolerance. */
  lemma StampNeverFallsFar(token: TokenId, b: Book, maxOutOfOrder: int, ev: MarketEvent, at: int)
    requires 0 <= maxOutOfOrder && b.valid && b.exchangeMs.Some?
    requires AfterEvent(token, b, maxOutOfOrder, ev, at).valid
    ensures var stamp := AfterEvent(token, b, maxOutOfOrder, ev, at).exchangeMs;
      stamp.Some? ==> stamp.value >= b.exchangeMs.value - maxOutOfOrder
  {
    hide OneBook, LogBatch, UpToFirstBad, Crossed, IsHighest, IsLowest, GoodLevels, Assign;
    if ev.PriceChange? && ev.entries.Some? {
      var n := Readable(ev.entries.value);
      if OnTime(b, maxOutOfOrder, ev.stamp.Ms()) {
        BatchOnTime(token, b, maxOutOfOrder, ev.entries.value, n, at, ev.stamp.Ms());
      } else {
        BatchTooLate(token, b, maxOutOfOrder, ev.entries.value, n, at, ev.stamp.Ms());
      }
    }
  }

  function Writes(taken: seq<Stamped>): seq<Write> {
    seq(|taken|, i requires 0 <= i < |taken| => taken[i].write)
  }

  lemma {:induction false} BatchAppends(token: TokenId, b: Book, maxOutOfOrder: int, entries: seq<Entry>, n: nat, received: int,
                                        exchange: Option<int>, log: seq<Write>)
    requires n <= |entries|
    ensures LogBatch(token, b, maxOutOfOrder, entries, n, received, exchange, log)
      == log + LogBatch(token, b, maxOutOfOrder, entries, n, received, exchange, [])
    decreases n
  {
    if n > 0 {
      hide Stale, OneBook, GoodLevel;
      BatchAppends(token, b, maxOutOfOrder, entries, n - 1, received, exchange, log);
    }
  }

  lemma EventAppends(token: TokenId, b: Book, maxOutOfOrder: int, ev: MarketEvent, received: int, taken: seq<Stamped>)
    ensures Writes(taken + TakenBy(token, b, maxOutOfOrder, ev, received))
      == LogEvent(token, b, maxOutOfOrder, ev, received, Writes(taken))
  {
    hide Stale, LogBatch, GoodLevels;
    if ev.PriceChange? && ev.entries.Some? {
      BatchAppends(token, b, maxOutOfOrder, ev.entries.value, Readable(ev.entries.value), received, ev.stamp.Ms(), Writes(taken));
    }
  }

  lemma {:induction false} RunAppends(token: TokenId, b: Book, maxOutOfOrder: int, events: seq<Received>, taken: seq<Stamped>)
    ensures Writes(TakenOver(token, b, maxOutOfOrder, events, taken)) == LogRun(token, b, maxOutOfOrder, events, Writes(taken))
    decreases |events|
  {
    if events != [] {
      hide AfterEvent, TakenBy, LogEvent, Writes;
      var first := events[0];
      EventAppends(token, b, maxOutOfOrder, first.ev, first.at, taken);
      RunAppends(token, AfterEvent(token, b, maxOutOfOrder, first.ev, first.at), maxOutOfOrder, events[1..],
                 taken + TakenBy(token, b, maxOutOfOrder, first.ev, first.at));
    }
  }

  /** From the start of a connection every book holds exactly what it has taken, and its stamp is
      the newest of it. */
  lemma HoldsWhatItTook(books: Books, maxOutOfOrder: int, events: seq<Received>, token: TokenId)
    requires AllFresh(books) && token in books
    ensures token in Run(books, maxOutOfOrder, events)
    ensures var b, taken := Run(books, maxOutOfOrder, events)[token], TakenOver(token, NO_BOOK, maxOutOfOrder, events, []);
      b.exchangeMs == Newest(taken) && Refines(b, Writes(taken))
  {
    hide Run, TakenOver, LogRun, Refines, Newest;
    NothingTakenAtFirst();
    FreshBookRefines();
    RunStamp(books, maxOutOfOrder, events, token, []);
    RunAppends(token, NO_BOOK, maxOutOfOrder, events, []);
    RunRefines(books, maxOutOfOrder, events, token, []);
    assert Writes([]) == [];
  }
}
