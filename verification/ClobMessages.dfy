/** Market-channel events applied to the tracked books. A price-change event is a batch: its
    levels go in one by one, and only afterwards is each touched book checked, once. */
module ClobMessages {
  import opened Domain
  import opened OrderBook

  /** A field of a message: missing, unreadable, or a number. */
  datatype Field = Absent | Malformed | Given(value: real)

  datatype Stamp = NoStamp | BadStamp | At(ms: int)
  {
    function Ms(): Option<int> {
      if At? then Some(ms) else None
    }
  }

  /** One entry of a price-change event; `None` is an unreadable number. */
  datatype Entry =
    | NotAnObject
    | Change(token: TokenId, side: BookSide, price: Option<real>, size: Option<real>, bestBid: Field, bestAsk: Field)

  datatype MarketEvent =
    | FullBook(asset: TokenId, stamp: Stamp, bids: Option<seq<Level>>, asks: Option<seq<Level>>, tick: Field, lastTrade: Field)
    | PriceChange(asset: TokenId, stamp: Stamp, entries: Option<seq<Entry>>)
    | TickSizeChange(asset: TokenId, stamp: Stamp, tick: Field)
    | LastTradePrice(asset: TokenId, stamp: Stamp, price: Field)
    | Informational(asset: TokenId, stamp: Stamp)

  type Books = map<TokenId, Book>

  // ---------------------------------------------------------------- one book's part of a batch

  /** A book while a batch runs, with the last echo its entries carried. */
  datatype Track = Track(book: Book, echo: Option<(Field, Field)>)

  function Took(t: Track, maxOutOfOrder: int, entry: Entry, received: int, exchange: Option<int>): Track
    requires entry.Change?
  {
    if entry.price.None? || entry.size.None? then t.(book := Invalidate(t.book))
    else
      Track(ApplyLevel(t.book, maxOutOfOrder, entry.side, Level(entry.price.value, entry.size.value), received, exchange),
            Some((entry.bestBid, entry.bestAsk)))
  }

  /** The book of `token` after its own entries among the first `n`. */
  function OneBook(token: TokenId, b: Book, maxOutOfOrder: int, entries: seq<Entry>, n: nat, received: int, exchange: Option<int>): Track
    requires n <= |entries|
  {
    if n == 0 then Track(b, None)
    else
      var prior := OneBook(token, b, maxOutOfOrder, entries, n - 1, received, exchange);
      if entries[n - 1].Change? && entries[n - 1].token == token
      then Took(prior, maxOutOfOrder, entries[n - 1], received, exchange) else prior
  }

  function EchoValue(f: Field): Option<real> {
    if f.Given? then Some(f.value) else None
  }

  /** The checks after the batch, on a book that an entry touched. */
  function Verified(b: Book, echo: (Field, Field)): Book {
    if echo.0.Malformed? || echo.1.Malformed? then Invalidate(CheckCrossed(b))
    else VerifyTop(CheckCrossed(b), EchoValue(echo.0), EchoValue(echo.1))
  }

  /** How many entries come before one that is not an object, which aborts the event. */
  function Readable(entries: seq<Entry>): (n: nat)
    ensures n <= |entries|
    ensures forall i :: 0 <= i < n ==> entries[i].Change?
    ensures n < |entries| ==> entries[n].NotAnObject?
  {
    if entries == [] || entries[0].NotAnObject? then 0 else 1 + Readable(entries[1..])
  }

  /** One book after a price-change event. */
  function AfterChanges(token: TokenId, b: Book, maxOutOfOrder: int, asset: TokenId, entries: seq<Entry>, received: int,
                        exchange: Option<int>): Book {
    var n := Readable(entries);
    var track := OneBook(token, b, maxOutOfOrder, entries, n, received, exchange);
    if n < |entries| then (if token == asset then Invalidate(track.book) else track.book)
    else if track.echo.Some? then Verified(track.book, track.echo.value)
    else track.book
  }

  /** One book after any event. */
  function AfterEvent(token: TokenId, b: Book, maxOutOfOrder: int, ev: MarketEvent, received: int): Book {
    if ev.stamp.BadStamp? then (if token == ev.asset then Invalidate(b) else b)
    else
      match ev
      case PriceChange(asset, stamp, entries) =>
        if entries.None? then (if token == asset then Invalidate(b) else b)
        else AfterChanges(token, b, maxOutOfOrder, asset, entries.value, received, stamp.Ms())
      case _ => if token == ev.asset then AfterOwnEvent(b, maxOutOfOrder, ev, received) else b
  }

  function AfterOwnEvent(b: Book, maxOutOfOrder: int, ev: MarketEvent, received: int): Book {
    match ev
    case FullBook(_, stamp, bids, asks, tick, lastTrade) =>
      if bids.None? || asks.None? || tick.Malformed? then Invalidate(b)
      else
        var after := ApplySnapshot(b, maxOutOfOrder, bids.value, asks.value, received, stamp.Ms(), EchoValue(tick));
        if lastTrade.Malformed? then Invalidate(after) else after
    case TickSizeChange(_, _, tick) => if tick.Given? then SetTickSize(b, tick.value) else Invalidate(b)
    case LastTradePrice(_, _, price) => if price.Given? then b else Invalidate(b)
    case _ => b
  }

  function ApplyEvent(books: Books, maxOutOfOrder: int, ev: MarketEvent, received: int): Books {
    map token | token in books :: AfterEvent(token, books[token], maxOutOfOrder, ev, received)
  }

  // ---------------------------------------------------------------- the batch loop

  ghost predicate Separate(books: map<TokenId, OrderBookState>, maxOutOfOrder: int) {
    && (forall t :: t in books ==> books[t].maxOutOfOrder == maxOutOfOrder)
    && forall s, t :: s in books && t in books && s != t ==> books[s] != books[t]
  }

  ghost function Tracks(start: Books, maxOutOfOrder: int, entries: seq<Entry>, n: nat, received: int, exchange: Option<int>)
    : map<TokenId, Track>
    requires n <= |entries|
  {
    map t | t in start :: OneBook(t, start[t], maxOutOfOrder, entries, n, received, exchange)
  }

  lemma OneMoreEntry(start: Books, maxOutOfOrder: int, entries: seq<Entry>, n: nat, received: int, exchange: Option<int>)
    requires n < |entries| && entries[n].Change?
    ensures var before := Tracks(start, maxOutOfOrder, entries, n, received, exchange);
      Tracks(start, maxOutOfOrder, entries, n + 1, received, exchange)
        == if entries[n].token in start
           then before[entries[n].token := Took(before[entries[n].token], maxOutOfOrder, entries[n], received, exchange)]
           else before
  {
    hide Took;
  }

  /** Every book is where `tracks` says, and the echoes collected are the tracks'. */
  ghost predicate Following(books: map<TokenId, OrderBookState>, tracks: map<TokenId, Track>, echoes: map<TokenId, (Field, Field)>)
    reads books.Values
  {
    && tracks.Keys == books.Keys && echoes.Keys <= books.Keys
    && forall t :: t in books ==>
         books[t].State() == tracks[t].book && (if t in echoes then Some(echoes[t]) else None) == tracks[t].echo
  }

  /** What an entry does to its own book, and whether it leaves an echo to check. */
  method TakeLevel(book: OrderBookState, entry: Entry, received: int, exchange: Option<int>) returns (taken: bool)
    requires entry.Change?
    modifies book
    ensures forall echo :: var t := Took(Track(old(book.State()), echo), book.maxOutOfOrder, entry, received, exchange);
      book.State() == t.book && t.echo == if taken then Some((entry.bestBid, entry.bestAsk)) else echo
  {
    hide ApplyLevel, Invalidate, CheckCrossed;
    taken := entry.price.Some? && entry.size.Some?;
    if taken {
      book.ApplyDelta(entry.side, Level(entry.price.value, entry.size.value), received, exchange, false);
    } else {
      MarkInvalid(book);
    }
  }

  method TakeEntry(books: map<TokenId, OrderBookState>, maxOutOfOrder: int, entry: Entry, received: int, exchange: Option<int>,
                   echoes: map<TokenId, (Field, Field)>, ghost tracks: map<TokenId, Track>) returns (after: map<TokenId, (Field, Field)>)
    requires Separate(books, maxOutOfOrder) && entry.Change? && entry.token in books && Following(books, tracks, echoes)
    modifies books[entry.token]
    ensures Following(books, tracks[entry.token := Took(tracks[entry.token], maxOutOfOrder, entry, received, exchange)], after)
  {
    hide Took, Following;
    var book := books[entry.token];
    ghost var states := map t | t in books :: books[t].State();
    IsFollowing(books, tracks, echoes);
    ghost var was := tracks[entry.token];
    ghost var moved := Took(Track(was.book, was.echo), maxOutOfOrder, entry, received, exchange);
    var taken := TakeLevel(book, entry, received, exchange);
    after := if taken then echoes[entry.token := (entry.bestBid, entry.bestAsk)] else echoes;
    assert book.State() == moved.book;
    forall t | t in books
      ensures t != entry.token ==> books[t].State() == states[t]
    {
    }
    StillFollowing(books, tracks[entry.token := moved], after);
  }

  lemma IsFollowing(books: map<TokenId, OrderBookState>, tracks: map<TokenId, Track>, echoes: map<TokenId, (Field, Field)>)
    requires Following(books, tracks, echoes)
    ensures tracks.Keys == books.Keys && echoes.Keys <= books.Keys
    ensures forall t :: t in books ==>
      books[t].State() == tracks[t].book && (if t in echoes then Some(echoes[t]) else None) == tracks[t].echo
  {
  }

  lemma StillFollowing(books: map<TokenId, OrderBookState>, tracks: map<TokenId, Track>, echoes: map<TokenId, (Field, Field)>)
    requires tracks.Keys == books.Keys && echoes.Keys <= books.Keys
    requires forall t :: t in books ==>
      books[t].State() == tracks[t].book && (if t in echoes then Some(echoes[t]) else None) == tracks[t].echo
    ensures Following(books, tracks, echoes)
  {
  }

  /** The levels of an event, up to an entry that is not an object. */
  method ApplyEntries(books: map<TokenId, OrderBookState>, maxOutOfOrder: int, entries: seq<Entry>, received: int, exchange: Option<int>,
                      ghost start: Books) returns (echoes: map<TokenId, (Field, Field)>, aborted: bool)
    requires Separate(books, maxOutOfOrder)
    requires start.Keys == books.Keys && forall t :: t in books ==> start[t] == books[t].State()
    modifies books.Values
    ensures Following(books, Tracks(start, maxOutOfOrder, entries, Readable(entries), received, exchange), echoes)
    ensures aborted <==> Readable(entries) < |entries|
  {
    hide OneBook, Took, Tracks;
    echoes := map[];
    NoEntries(start, maxOutOfOrder, entries, received, exchange);
    var i := 0;
    while i < |entries|
      invariant i <= Readable(entries)
      invariant Following(books, Tracks(start, maxOutOfOrder, entries, i, received, exchange), echoes)
    {
      var entry := entries[i];
      if entry.NotAnObject? {
        return echoes, true;
      }
      OneMoreEntry(start, maxOutOfOrder, entries, i, received, exchange);
      if entry.token in books {
        echoes := TakeEntry(books, maxOutOfOrder, entry, received, exchange, echoes, Tracks(start, maxOutOfOrder, entries, i, received, exchange));
      }
      i := i + 1;
    }
    aborted := false;
  }

  lemma NoEntries(start: Books, maxOutOfOrder: int, entries: seq<Entry>, received: int, exchange: Option<int>)
    ensures Tracks(start, maxOutOfOrder, entries, 0, received, exchange).Keys == start.Keys
    ensures forall t :: t in start ==> Tracks(start, maxOutOfOrder, entries, 0, received, exchange)[t] == Track(start[t], None)
  {
  }

  lemma IsSeparate(books: map<TokenId, OrderBookState>, maxOutOfOrder: int)
    requires Separate(books, maxOutOfOrder)
    ensures forall s, t :: s in books && t in books && s != t ==> books[s] != books[t]
  {
  }

  /** Every book of an echo is checked, but for those still to do. */
  ghost predicate CheckedBut(books: map<TokenId, OrderBookState>, echoes: map<TokenId, (Field, Field)>, todo: set<TokenId>, applied: Books)
    reads books.Values
  {
    && echoes.Keys <= books.Keys && applied.Keys == books.Keys
    && forall t :: t in books ==>
         books[t].State() == if t in echoes && t !in todo then Verified(applied[t], echoes[t]) else applied[t]
  }

  /** Each touched book is checked once, in whatever order. */
  method VerifyAll(books: map<TokenId, OrderBookState>, maxOutOfOrder: int, echoes: map<TokenId, (Field, Field)>, ghost applied: Books)
    requires Separate(books, maxOutOfOrder) && CheckedBut(books, echoes, echoes.Keys, applied)
    modifies books.Values
    ensures CheckedBut(books, echoes, {}, applied)
  {
    hide *;
    var todo := echoes.Keys;
    while todo != {}
      invariant todo <= echoes.Keys && CheckedBut(books, echoes, todo, applied)
      decreases |todo|
    {
      var t :| t in todo;
      VerifyNext(books, maxOutOfOrder, echoes, todo, t, applied);
      todo := todo - {t};
    }
  }

  method VerifyNext(books: map<TokenId, OrderBookState>, maxOutOfOrder: int, echoes: map<TokenId, (Field, Field)>, ghost todo: set<TokenId>,
                    token: TokenId, ghost applied: Books)
    requires Separate(books, maxOutOfOrder) && CheckedBut(books, echoes, todo, applied) && token in todo && token in echoes
    modifies books.Values
    ensures CheckedBut(books, echoes, todo - {token}, applied)
  {
    hide Verified;
    IsSeparate(books, maxOutOfOrder);
    VerifyBook(books[token], echoes[token]);
  }

  /** Following the tracks to the end of the batch, then the abort or the checks, is what the event does
      to each book alone. */
  lemma BatchEnds(start: Books, maxOutOfOrder: int, asset: TokenId, entries: seq<Entry>, received: int, exchange: Option<int>,
                  applied: Books, echoes: map<TokenId, (Field, Field)>)
    requires applied.Keys == start.Keys
    requires var tracks := Tracks(start, maxOutOfOrder, entries, Readable(entries), received, exchange);
      tracks.Keys == start.Keys
      && forall t :: t in start ==> applied[t] == tracks[t].book && (if t in echoes then Some(echoes[t]) else None) == tracks[t].echo
    ensures forall t :: t in start ==>
      AfterChanges(t, start[t], maxOutOfOrder, asset, entries, received, exchange)
        == if Readable(entries) < |entries| then (if t == asset then Invalidate(applied[t]) else applied[t])
           else if t in echoes then Verified(applied[t], echoes[t]) else applied[t]
  {
    hide Verified, OneBook, Invalidate;
  }

  /** The interleaved batch leaves every book as if its own entries had come alone. */
  method ApplyPriceChanges(books: map<TokenId, OrderBookState>, maxOutOfOrder: int, asset: TokenId, entries: seq<Entry>, received: int,
                           exchange: Option<int>)
    requires Separate(books, maxOutOfOrder)
    modifies books.Values
    ensures forall t :: t in books ==>
      books[t].State() == AfterChanges(t, old(books[t].State()), maxOutOfOrder, asset, entries, received, exchange)
  {
    hide *;
    ghost var start := map t | t in books :: books[t].State();
    var echoes, aborted := ApplyEntries(books, maxOutOfOrder, entries, received, exchange, start);
    ghost var applied := map t | t in books :: books[t].State();
    IsFollowing(books, Tracks(start, maxOutOfOrder, entries, Readable(entries), received, exchange), echoes);
    BatchEnds(start, maxOutOfOrder, asset, entries, received, exchange, applied, echoes);
    if aborted {
      MarkAsset(books, maxOutOfOrder, asset, applied);
    } else {
      NothingChecked(books, echoes, applied);
      VerifyAll(books, maxOutOfOrder, echoes, applied);
      AllChecked(books, echoes, applied);
    }
  }

  lemma NothingChecked(books: map<TokenId, OrderBookState>, echoes: map<TokenId, (Field, Field)>, applied: Books)
    requires echoes.Keys <= books.Keys && applied.Keys == books.Keys && forall t :: t in books ==> applied[t] == books[t].State()
    ensures CheckedBut(books, echoes, echoes.Keys, applied)
  {
    hide Verified;
  }

  lemma AllChecked(books: map<TokenId, OrderBookState>, echoes: map<TokenId, (Field, Field)>, applied: Books)
    requires CheckedBut(books, echoes, {}, applied)
    ensures applied.Keys == books.Keys
    ensures forall t :: t in books ==> books[t].State() == if t in echoes then Verified(applied[t], echoes[t]) else applied[t]
  {
    hide Verified;
  }

  /** An event that cannot be read invalidates the book it names, if that is one of ours. */
  method MarkAsset(books: map<TokenId, OrderBookState>, maxOutOfOrder: int, asset: TokenId, ghost states: Books)
    requires Separate(books, maxOutOfOrder) && states.Keys == books.Keys && forall t :: t in books ==> states[t] == books[t].State()
    modifies books.Values
    ensures forall t :: t in books ==> books[t].State() == if t == asset then Invalidate(states[t]) else states[t]
  {
    IsSeparate(books, maxOutOfOrder);
    hide *;
    if asset in books {
      MarkInvalid(books[asset]);
    }
  }

  /** One event of the channel, whatever it is. */
  method ApplyMarketEvent(books: map<TokenId, OrderBookState>, maxOutOfOrder: int, ev: MarketEvent, received: int)
    requires Separate(books, maxOutOfOrder)
    modifies books.Values
    ensures forall t :: t in books ==> books[t].State() == AfterEvent(t, old(books[t].State()), maxOutOfOrder, ev, received)
  {
    hide AfterChanges, ApplySnapshot, Invalidate;
    if ev.stamp.BadStamp? || (ev.PriceChange? && ev.entries.None?) {
      MarkAsset(books, maxOutOfOrder, ev.asset, map t | t in books :: books[t].State());
    } else if ev.PriceChange? {
      ApplyPriceChanges(books, maxOutOfOrder, ev.asset, ev.entries.value, received, ev.stamp.Ms());
    } else if ev.asset in books {
      ApplyOwnEvent(books[ev.asset], ev, received);
    }
  }

  method ApplyOwnEvent(book: OrderBookState, ev: MarketEvent, received: int)
    requires !ev.PriceChange?
    modifies book
    ensures book.State() == AfterOwnEvent(old(book.State()), book.maxOutOfOrder, ev, received)
  {
    match ev
    case FullBook(_, stamp, bids, asks, tick, lastTrade) =>
      if bids.None? || asks.None? || tick.Malformed? {
        MarkInvalid(book);
        return;
      }
      book.ApplyFullSnapshot(bids.value, asks.value, received, stamp.Ms(), EchoValue(tick));
      if lastTrade.Malformed? {
        MarkInvalid(book);
      }
    case TickSizeChange(_, _, tick) =>
      if tick.Given? {
        book.SetTick(tick.value);
      } else {
        MarkInvalid(book);
      }
    case LastTradePrice(_, _, price) =>
      if !price.Given? {
        MarkInvalid(book);
      }
    case _ =>
  }

  method MarkInvalid(book: OrderBookState)
    modifies book
    ensures book.State() == Invalidate(old(book.State()))
  {
    book.valid := false;
  }

  method VerifyBook(book: OrderBookState, echo: (Field, Field))
    modifies book
    ensures book.State() == Verified(old(book.State()), echo)
  {
    hide CheckCrossed, VerifyTop;
    book.CheckBookCrossed();
    if echo.0.Malformed? || echo.1.Malformed? {
      MarkInvalid(book);
    } else {
      book.CheckTop(EchoValue(echo.0), EchoValue(echo.1));
    }
  }

  // ---------------------------------------------------------------- what every event keeps

  ghost predicate AllSound(books: Books) {
    forall t :: t in books ==> Sound(books[t])
  }

  /** Every entry of a price-change event is an object. */
  predicate WellTyped(ev: MarketEvent) {
    ev.PriceChange? && ev.entries.Some? ==> forall i :: 0 <= i < |ev.entries.value| ==> ev.entries.value[i].Change?
  }

  lemma {:induction false} BatchSane(token: TokenId, b: Book, maxOutOfOrder: int, entries: seq<Entry>, n: nat, received: int, exchange: Option<int>)
    requires n <= |entries| && Sound(b)
    ensures var track := OneBook(token, b, maxOutOfOrder, entries, n, received, exchange);
      Sane(track.book) && (track.echo.None? ==> Sound(track.book))
    decreases n
  {
    if n > 0 {
      hide Crossed, Sane, ApplyLevel;
      BatchSane(token, b, maxOutOfOrder, entries, n - 1, received, exchange);
      var prior := OneBook(token, b, maxOutOfOrder, entries, n - 1, received, exchange);
      var entry := entries[n - 1];
      InvalidSound(prior.book);
      if entry.Change? && entry.token == token && entry.price.Some? && entry.size.Some? {
        LevelSane(prior.book, maxOutOfOrder, entry.side, Level(entry.price.value, entry.size.value), received, exchange);
      }
    }
  }

  lemma InvalidSound(b: Book)
    requires Sane(b)
    ensures Sound(Invalidate(b)) && Sound(CheckCrossed(b))
  {
  }

  lemma VerifiedSound(b: Book, echo: (Field, Field))
    requires Sane(b)
    ensures Sound(Verified(b, echo))
  {
    hide Crossed, IsHighest, IsLowest;
    InvalidSound(b);
    InvalidSound(CheckCrossed(b));
  }

  lemma EventSound(token: TokenId, b: Book, maxOutOfOrder: int, ev: MarketEvent, received: int)
    requires Sound(b) && WellTyped(ev)
    ensures Sound(AfterEvent(token, b, maxOutOfOrder, ev, received))
  {
    hide Crossed, Sane, ApplySnapshot, Verified, OneBook, SetTickSize;
    InvalidSound(b);
    if ev.PriceChange? && ev.entries.Some? {
      var n := Readable(ev.entries.value);
      BatchSane(token, b, maxOutOfOrder, ev.entries.value, n, received, ev.stamp.Ms());
      var track := OneBook(token, b, maxOutOfOrder, ev.entries.value, n, received, ev.stamp.Ms());
      if track.echo.Some? {
        VerifiedSound(track.book, track.echo.value);
      }
    } else if ev.FullBook? && ev.bids.Some? && ev.asks.Some? {
      SnapshotSound(b, maxOutOfOrder, ev.bids.value, ev.asks.value, received, ev.stamp.Ms(), EchoValue(ev.tick));
      InvalidSound(ApplySnapshot(b, maxOutOfOrder, ev.bids.value, ev.asks.value, received, ev.stamp.Ms(), EchoValue(ev.tick)));
    } else if ev.TickSizeChange? && ev.tick.Given? {
      TickSound(b, ev.tick.value);
    }
  }

  lemma TickSound(b: Book, tick: real)
    requires Sound(b)
    ensures Sound(SetTickSize(b, tick))
  {
    SameLevels(b, SetTickSize(b, tick));
  }

  datatype Received = Received(ev: MarketEvent, at: int)

  function Run(books: Books, maxOutOfOrder: int, events: seq<Received>): Books {
    if events == [] then books else Run(ApplyEvent(books, maxOutOfOrder, events[0].ev, events[0].at), maxOutOfOrder, events[1..])
  }

  /** After any sequence of well-typed events every book is sound: prices in range, positive
      sizes, and uncrossed while it is valid. */
  lemma {:induction false} RunSound(books: Books, maxOutOfOrder: int, events: seq<Received>)
    requires AllSound(books) && forall i :: 0 <= i < |events| ==> WellTyped(events[i].ev)
    ensures AllSound(Run(books, maxOutOfOrder, events))
  {
    if events != [] {
      hide Sound, AfterEvent, WellTyped;
      forall t | t in books
        ensures Sound(AfterEvent(t, books[t], maxOutOfOrder, events[0].ev, events[0].at))
      {
        EventSound(t, books[t], maxOutOfOrder, events[0].ev, events[0].at);
      }
      RunSound(ApplyEvent(books, maxOutOfOrder, events[0].ev, events[0].at), maxOutOfOrder, events[1..]);
    }
  }

  // ---------------------------------------------------------------- invalid until a snapshot

  ghost predicate SnapshotFor(ev: MarketEvent, token: TokenId) {
    ev.FullBook? && ev.asset == token
  }

  lemma {:induction false} BatchStaysInvalid(token: TokenId, b: Book, maxOutOfOrder: int, entries: seq<Entry>, n: nat, received: int,
                                             exchange: Option<int>)
    requires n <= |entries| && !b.valid
    ensures !OneBook(token, b, maxOutOfOrder, entries, n, received, exchange).book.valid
    decreases n
  {
    if n > 0 {
      BatchStaysInvalid(token, b, maxOutOfOrder, entries, n - 1, received, exchange);
    }
  }

  lemma EventStaysInvalid(token: TokenId, b: Book, maxOutOfOrder: int, ev: MarketEvent, received: int)
    requires !b.valid && !SnapshotFor(ev, token)
    ensures !AfterEvent(token, b, maxOutOfOrder, ev, received).valid
  {
    if ev.PriceChange? && ev.entries.Some? {
      BatchStaysInvalid(token, b, maxOutOfOrder, ev.entries.value, Readable(ev.entries.value), received, ev.stamp.Ms());
    }
  }

  /** An invalid book stays unusable through any events but a full snapshot of its own. */
  lemma {:induction false} InvalidUntilSnapshot(books: Books, maxOutOfOrder: int, events: seq<Received>, token: TokenId)
    requires token in books && !books[token].valid
    requires forall i :: 0 <= i < |events| ==> !SnapshotFor(events[i].ev, token)
    ensures token in Run(books, maxOutOfOrder, events) && !Run(books, maxOutOfOrder, events)[token].valid
  {
    if events != [] {
      hide AfterEvent;
      EventStaysInvalid(token, books[token], maxOutOfOrder, events[0].ev, events[0].at);
      InvalidUntilSnapshot(ApplyEvent(books, maxOutOfOrder, events[0].ev, events[0].at), maxOutOfOrder, events[1..], token);
    }
  }

  // ---------------------------------------------------------------- the book is its log

  /** The writes that one event adds to a book's log. */
  function LogBatch(token: TokenId, b: Book, maxOutOfOrder: int, entries: seq<Entry>, n: nat, received: int, exchange: Option<int>,
                    log: seq<Write>): seq<Write>
    requires n <= |entries|
  {
    if n == 0 then log
    else
      var prior := OneBook(token, b, maxOutOfOrder, entries, n - 1, received, exchange).book;
      var before := LogBatch(token, b, maxOutOfOrder, entries, n - 1, received, exchange, log);
      var entry := entries[n - 1];
      if entry.Change? && entry.token == token && entry.price.Some? && entry.size.Some?
      then LogLevel(prior, maxOutOfOrder, entry.side, Level(entry.price.value, entry.size.value), exchange, before)
      else before
  }

  function LogEvent(token: TokenId, b: Book, maxOutOfOrder: int, ev: MarketEvent, received: int, log: seq<Write>): seq<Write> {
    if ev.stamp.BadStamp? then log
    else if ev.PriceChange? && ev.entries.Some? then
      LogBatch(token, b, maxOutOfOrder, ev.entries.value, Readable(ev.entries.value), received, ev.stamp.Ms(), log)
    else if ev.FullBook? && ev.asset == token && ev.bids.Some? && ev.asks.Some? && !ev.tick.Malformed? then
      LogSnapshot(b, maxOutOfOrder, ev.bids.value, ev.asks.value, ev.stamp.Ms(), log)
    else log
  }

  lemma {:induction false} BatchRefines(token: TokenId, b: Book, maxOutOfOrder: int, entries: seq<Entry>, n: nat, received: int,
                                        exchange: Option<int>, log: seq<Write>)
    requires n <= |entries| && Refines(b, log)
    ensures Refines(OneBook(token, b, maxOutOfOrder, entries, n, received, exchange).book,
                    LogBatch(token, b, maxOutOfOrder, entries, n, received, exchange, log))
    decreases n
  {
    if n > 0 {
      hide Refines, ApplyLevel, LogLevel, Invalidate;
      BatchRefines(token, b, maxOutOfOrder, entries, n - 1, received, exchange, log);
      var prior := OneBook(token, b, maxOutOfOrder, entries, n - 1, received, exchange).book;
      var before := LogBatch(token, b, maxOutOfOrder, entries, n - 1, received, exchange, log);
      CheckRefines(prior, None, None, before);
      var entry := entries[n - 1];
      if entry.Change? && entry.price.Some? && entry.size.Some? {
        LevelRefines(prior, maxOutOfOrder, entry.side, Level(entry.price.value, entry.size.value), received, exchange, before);
      }
    }
  }

  lemma EventRefines(token: TokenId, b: Book, maxOutOfOrder: int, ev: MarketEvent, received: int, log: seq<Write>)
    requires Refines(b, log)
    ensures Refines(AfterEvent(token, b, maxOutOfOrder, ev, received), LogEvent(token, b, maxOutOfOrder, ev, received, log))
  {
    hide Refines, ApplySnapshot, LogSnapshot, OneBook, LogBatch, Invalidate, CheckCrossed, VerifyTop;
    CheckRefines(b, None, None, log);
    if ev.PriceChange? && ev.entries.Some? {
      var n := Readable(ev.entries.value);
      BatchRefines(token, b, maxOutOfOrder, ev.entries.value, n, received, ev.stamp.Ms(), log);
      var track := OneBook(token, b, maxOutOfOrder, ev.entries.value, n, received, ev.stamp.Ms());
      var after := LogBatch(token, b, maxOutOfOrder, ev.entries.value, n, received, ev.stamp.Ms(), log);
      CheckRefines(track.book, None, None, after);
      if track.echo.Some? {
        CheckRefines(CheckCrossed(track.book), EchoValue(track.echo.value.0), EchoValue(track.echo.value.1), after);
      }
    } else if ev.FullBook? && ev.bids.Some? && ev.asks.Some? {
      SnapshotRefines(b, maxOutOfOrder, ev.bids.value, ev.asks.value, received, ev.stamp.Ms(), EchoValue(ev.tick), log);
      var after := ApplySnapshot(b, maxOutOfOrder, ev.bids.value, ev.asks.value, received, ev.stamp.Ms(), EchoValue(ev.tick));
      CheckRefines(after, None, None, LogSnapshot(b, maxOutOfOrder, ev.bids.value, ev.asks.value, ev.stamp.Ms(), log));
    } else if ev.TickSizeChange? && ev.tick.Given? {
      TickRefines(b, ev.tick.value, log);
    }
  }

  lemma TickRefines(b: Book, tick: real, log: seq<Write>)
    requires Refines(b, log)
    ensures Refines(SetTickSize(b, tick), log)
  {
    hide SizeAt;
  }

  /** The log of one book over a run. */
  function LogRun(token: TokenId, b: Book, maxOutOfOrder: int, events: seq<Received>, log: seq<Write>): seq<Write>
    decreases |events|
  {
    if events == [] then log
    else
      LogRun(token, AfterEvent(token, b, maxOutOfOrder, events[0].ev, events[0].at), maxOutOfOrder, events[1..],
             LogEvent(token, b, maxOutOfOrder, events[0].ev, events[0].at, log))
  }

  /** After any events at all, every book is the last accepted snapshot with the later accepted
      levels folded in: at each price, the last write wins. */
  lemma {:induction false} RunRefines(books: Books, maxOutOfOrder: int, events: seq<Received>, token: TokenId, log: seq<Write>)
    requires token in books && Refines(books[token], log)
    ensures token in Run(books, maxOutOfOrder, events)
    ensures Refines(Run(books, maxOutOfOrder, events)[token], LogRun(token, books[token], maxOutOfOrder, events, log))
  {
    if events != [] {
      hide Refines, AfterEvent, LogEvent;
      EventRefines(token, books[token], maxOutOfOrder, events[0].ev, events[0].at, log);
      RunRefines(ApplyEvent(books, maxOutOfOrder, events[0].ev, events[0].at), maxOutOfOrder, events[1..], token,
                 LogEvent(token, books[token], maxOutOfOrder, events[0].ev, events[0].at, log));
    }
  }

  lemma FreshBookRefines()
    ensures Refines(NO_BOOK, []) && Sound(NO_BOOK)
  {
  }

  /** Books as a connection starts them: nothing received yet. */
  ghost predicate AllFresh(books: Books) {
    forall t :: t in books ==> books[t] == NO_BOOK
  }

  /** From the start of a connection, after any well-typed events, every book is sound and is
      exactly what its own log of accepted snapshots and levels says. */
  lemma FromFreshBooks(books: Books, maxOutOfOrder: int, events: seq<Received>, token: TokenId)
    requires AllFresh(books) && token in books && forall i :: 0 <= i < |events| ==> WellTyped(events[i].ev)
    ensures token in Run(books, maxOutOfOrder, events)
    ensures var b := Run(books, maxOutOfOrder, events)[token];
      Sound(b) && Refines(b, LogRun(token, NO_BOOK, maxOutOfOrder, events, []))
  {
    hide Run, LogRun, Refines, Sound, WellTyped;
    FreshBookRefines();
    RunSound(books, maxOutOfOrder, events);
    RunRefines(books, maxOutOfOrder, events, token, []);
  }
}
