/** Runs of the paper venue under a clock that never goes back, and two things they keep:
    the pruned record of our own recent fills answers like the full fill history, and no level
    is ever used beyond the size it displays within the replenish window. */
module VenueRuns {
  import opened Decimals
  import opened Domain
  import opened Matching
  import opened PaperVenue
  import PaperExchange

  datatype Step =
    | SubmitStep(intent: OrderIntent, market: Market, now: int, jitter: nat, chaos: bool)
    | CancelStep(id: OrderId, now: int)
    | CancelAllStep(now: int)
    | AdvanceStep(books: Books, now: int)
    | PollStep(books: Books, now: int)
    | SettleStep(winner: TokenId, loser: TokenId)

  /** `frontier` is the time up to which arrivals have been matched. */
  predicate Legal(frontier: int, step: Step) {
    match step
    case SubmitStep(intent, market, now, _, _) => frontier <= now && intent.Valid() && market.Valid()
    case AdvanceStep(_, now) => frontier <= now
    case PollStep(_, now) => frontier <= now
    case _ => true
  }

  function Frontier(frontier: int, step: Step): int {
    match step
    case AdvanceStep(_, now) => now
    case PollStep(_, now) => now
    case _ => frontier
  }

  function Apply(cfg: Config, v: Venue, frontier: int, step: Step): Venue
    requires Legal(frontier, step)
  {
    match step
    case SubmitStep(intent, market, now, jitter, chaos) => Submit(cfg, v, intent, market, now, jitter, chaos).0
    case CancelStep(id, now) => Cancel(v, id, now)
    case CancelAllStep(now) => CancelEach(v, Ids(v.pending), now)
    case AdvanceStep(books, now) => Advance(cfg, v, books, now)
    case PollStep(books, now) => Advance(cfg, v, books, now).(events := [])
    case SettleStep(winner, loser) => Settle(v, winner, loser)
  }

  predicate LegalRun(frontier: int, steps: seq<Step>)
    decreases |steps|
  {
    steps == [] || (Legal(frontier, steps[0]) && LegalRun(Frontier(frontier, steps[0]), steps[1..]))
  }

  function Run(cfg: Config, v: Venue, frontier: int, steps: seq<Step>): (Venue, int)
    requires LegalRun(frontier, steps)
    decreases |steps|
  {
    if steps == [] then (v, frontier)
    else Run(cfg, Apply(cfg, v, frontier, steps[0]), Frontier(frontier, steps[0]), steps[1..])
  }

  // ---------------------------------------------------------------- the full fill history

  predicate FillAt(entry: Logged, key: LevelKey) {
    && entry.event.FillEvent? && entry.event.fill.tokenId == key.token
    && entry.event.fill.side == key.side && entry.event.fill.price == key.price
  }

  /** Every use of a level ever made, read off the fills in the history. */
  function FullUses(history: seq<Logged>, key: LevelKey): seq<Use> {
    if history == [] then []
    else
      var last := history[|history| - 1];
      FullUses(history[..|history| - 1], key)
        + if FillAt(last, key) then [Use(last.event.fill.tsMs, last.event.fill.shares)] else []
  }

  ghost predicate Faithful(v: Venue, horizon: int) {
    forall key :: Recent(UsesOf(v.consumed, key), horizon) == Recent(FullUses(v.history, key), horizon)
  }

  ghost predicate FillsUpTo(history: seq<Logged>, time: int) {
    forall i :: 0 <= i < |history| && history[i].event.FillEvent? ==> history[i].event.fill.tsMs <= time
  }

  /** Match times never decrease. */
  ghost predicate FillsInOrder(history: seq<Logged>) {
    forall i, j :: 0 <= i < j < |history| && history[i].event.FillEvent? && history[j].event.FillEvent? ==>
      history[i].event.fill.tsMs <= history[j].event.fill.tsMs
  }

  ghost predicate Timely(cfg: Config, v: Venue, frontier: int) {
    && (forall p :: p in v.pending ==> p.dueMs >= frontier && p.intent.Valid())
    && FillsUpTo(v.history, frontier)
    && FillsInOrder(v.history)
    && Faithful(v, frontier - cfg.replenishMs)
  }

  lemma FaithfulLater(v: Venue, earlier: int, later: int)
    requires Faithful(v, earlier) && earlier <= later
    ensures Faithful(v, later)
  {
    forall key
      ensures Recent(UsesOf(v.consumed, key), later) == Recent(FullUses(v.history, key), later)
    {
      PaperExchange.RecentTwice(UsesOf(v.consumed, key), earlier, later);
      PaperExchange.RecentTwice(FullUses(v.history, key), earlier, later);
    }
  }

  // ---------------------------------------------------------------- one match

  lemma {:induction false} RecentAppend(a: seq<Use>, b: seq<Use>, horizon: int)
    ensures Recent(a + b, horizon) == Recent(a, horizon) + Recent(b, horizon)
  {
    if a == [] {
      assert a + b == b;
    } else {
      hide Recent;
      RecentFirst(a, horizon);
      RecentFirst(a + b, horizon);
      assert (a + b)[0] == a[0] && (a + b)[1..] == a[1..] + b;
      RecentAppend(a[1..], b, horizon);
    }
  }

  lemma RecentFirst(uses: seq<Use>, horizon: int)
    requires uses != []
    ensures Recent(uses, horizon) == (if uses[0].tsMs > horizon then [uses[0]] else []) + Recent(uses[1..], horizon)
  {
  }

  lemma {:induction false} UsedAppend(a: seq<Use>, b: seq<Use>)
    ensures Used(a + b) == Used(a) + Used(b)
  {
    if a == [] {
      assert a + b == b;
    } else {
      UsedAppend(a[1..], b);
      assert (a + b)[1..] == a[1..] + b;
    }
  }

  lemma FullUsesAppend(history: seq<Logged>, entry: Logged, key: LevelKey)
    ensures FullUses(history + [entry], key)
      == FullUses(history, key) + if FillAt(entry, key) then [Use(entry.event.fill.tsMs, entry.event.fill.shares)] else []
  {
    assert (history + [entry])[..|history|] == history;
  }

  /** The uses that the first `n` lots make of one price. */
  function LotUses(lots: seq<Lot>, n: nat, price: real, now: int): seq<Use>
    requires n <= |lots|
  {
    if n == 0 then []
    else LotUses(lots, n - 1, price, now) + if lots[n - 1].price == price then [Use(now, lots[n - 1].shares)] else []
  }

  function KeyUses(p: Pending, lots: seq<Lot>, n: nat, key: LevelKey, now: int): seq<Use>
    requires n <= |lots|
  {
    if key.token == p.intent.tokenId && key.side == p.intent.side then LotUses(lots, n, key.price, now) else []
  }

  lemma {:induction false} FillLotsUses(cfg: Config, v: Venue, p: Pending, lots: seq<Lot>, n: nat, now: int, key: LevelKey)
    requires n <= |lots|
    ensures var w := FillLots(cfg, v, p, lots, n, now);
      && UsesOf(w.consumed, key) == UsesOf(v.consumed, key) + KeyUses(p, lots, n, key, now)
      && FullUses(w.history, key) == FullUses(v.history, key) + KeyUses(p, lots, n, key, now)
    decreases n
  {
    hide *;
    if n == 0 {
      NoLotsUses(cfg, v, p, lots, now, key);
    } else {
      FillLotsUses(cfg, v, p, lots, n - 1, now, key);
      var before := FillLots(cfg, v, p, lots, n - 1, now);
      FillLotUses(cfg, before, p, lots[n - 1], n - 1, now, key);
      KeyUsesStep(p, lots, n, key, now, UsesOf(v.consumed, key));
      KeyUsesStep(p, lots, n, key, now, FullUses(v.history, key));
      FillLotsStep(cfg, v, p, lots, n, now);
    }
  }

  lemma NoLotsUses(cfg: Config, v: Venue, p: Pending, lots: seq<Lot>, now: int, key: LevelKey)
    ensures FillLots(cfg, v, p, lots, 0, now) == v
    ensures UsesOf(v.consumed, key) == UsesOf(v.consumed, key) + KeyUses(p, lots, 0, key, now)
    ensures FullUses(v.history, key) == FullUses(v.history, key) + KeyUses(p, lots, 0, key, now)
  {
    hide FullUses;
  }

  lemma FillLotsStep(cfg: Config, v: Venue, p: Pending, lots: seq<Lot>, n: nat, now: int)
    requires 0 < n <= |lots|
    ensures FillLots(cfg, v, p, lots, n, now)
      == FillLot(cfg, FillLots(cfg, v, p, lots, n - 1, now), p, lots[n - 1], n - 1, now)
  {
  }

  function LotUse(p: Pending, lot: Lot, key: LevelKey, now: int): seq<Use> {
    if key.token == p.intent.tokenId && key.side == p.intent.side && lot.price == key.price then [Use(now, lot.shares)] else []
  }

  lemma KeyUsesStep(p: Pending, lots: seq<Lot>, n: nat, key: LevelKey, now: int, before: seq<Use>)
    requires 0 < n <= |lots|
    ensures before + KeyUses(p, lots, n, key, now) == before + KeyUses(p, lots, n - 1, key, now) + LotUse(p, lots[n - 1], key, now)
  {
  }

  lemma FillLotUses(cfg: Config, v: Venue, p: Pending, lot: Lot, index: nat, now: int, key: LevelKey)
    ensures var w := FillLot(cfg, v, p, lot, index, now);
      && UsesOf(w.consumed, key) == UsesOf(v.consumed, key) + LotUse(p, lot, key, now)
      && FullUses(w.history, key) == FullUses(v.history, key) + LotUse(p, lot, key, now)
  {
    var fill := FillOf(cfg, p, lot, index, now);
    FullUsesAppend(v.history, Logged(p.intent.tokenId, FillEvent(fill)), key);
    assert UsesOf(v.consumed, key) + [] == UsesOf(v.consumed, key);
  }

  lemma {:induction false} FillLotsLog(cfg: Config, v: Venue, p: Pending, lots: seq<Lot>, n: nat, now: int)
    requires n <= |lots|
    ensures var w := FillLots(cfg, v, p, lots, n, now);
      && w.pending == v.pending && w.submitted == v.submitted
      && w.history == v.history + seq(n, i requires 0 <= i < n => Logged(p.intent.tokenId, FillEvent(FillOf(cfg, p, lots[i], i, now))))
      && w.events == v.events + seq(n, i requires 0 <= i < n => FillEvent(FillOf(cfg, p, lots[i], i, now)))
    decreases n
  {
    if n > 0 {
      FillLotsLog(cfg, v, p, lots, n - 1, now);
    }
  }

  lemma PrunedUses(consumed: map<LevelKey, seq<Use>>, token: TokenId, side: Side, levels: seq<Level>, horizon: int, key: LevelKey)
    ensures Recent(UsesOf(Pruned(consumed, token, side, levels, horizon), key), horizon)
      == Recent(UsesOf(consumed, key), horizon)
  {
    PaperExchange.RecentTwice(UsesOf(consumed, key), horizon, horizon);
  }

  /** The pruned record stays as good as the full one through a match, at the match's horizon. */
  lemma MatchFaithful(cfg: Config, v: Venue, books: Books, p: Pending, now: int)
    requires Faithful(v, now - cfg.replenishMs)
    ensures Faithful(Match(cfg, v, books, p, now), now - cfg.replenishMs)
  {
    var w := Match(cfg, v, books, p, now);
    var horizon := now - cfg.replenishMs;
    var token := p.intent.tokenId;
    forall key
      ensures Recent(UsesOf(w.consumed, key), horizon) == Recent(FullUses(w.history, key), horizon)
    {
      if token !in books {
        FullUsesAppend(v.history, Logged(token, CancelUpdate(p, now)), key);
        assert FullUses(v.history, key) + [] == FullUses(v.history, key);
      } else {
        MatchBookFaithful(cfg, v, books[token], p, now, key);
      }
    }
  }

  lemma MatchBookFaithful(cfg: Config, v: Venue, book: Book, p: Pending, now: int, key: LevelKey)
    requires Faithful(v, now - cfg.replenishMs)
    ensures var w := MatchBook(cfg, v, book, p, now);
      Recent(UsesOf(w.consumed, key), now - cfg.replenishMs) == Recent(FullUses(w.history, key), now - cfg.replenishMs)
  {
    hide Recent, Pruned, FullUses, PlanOf, FillLots, KeyUses;
    var levels := SideLevels(book, p.intent.side);
    var horizon := now - cfg.replenishMs;
    var plan := PlanOf(p.intent, Available(v.consumed, p.intent.tokenId, p.intent.side, levels, horizon));
    var looked := v.(consumed := Pruned(v.consumed, p.intent.tokenId, p.intent.side, levels, horizon));
    var filled := FillLots(cfg, looked, p, plan.lots, |plan.lots|, now);
    var uses := KeyUses(p, plan.lots, |plan.lots|, key, now);
    PrunedUses(v.consumed, p.intent.tokenId, p.intent.side, levels, horizon, key);
    FillLotsUses(cfg, looked, p, plan.lots, |plan.lots|, now, key);
    FullUsesAppend(filled.history, Logged(p.intent.tokenId, FinalUpdate(p, plan, now)), key);
    RecentAppend(UsesOf(looked.consumed, key), uses, horizon);
    RecentAppend(FullUses(looked.history, key), uses, horizon);
    assert FullUses(filled.history, key) + [] == FullUses(filled.history, key);
  }

  ghost predicate DistinctPrices(levels: seq<Level>) {
    forall i, j :: 0 <= i < j < |levels| ==> levels[i].price != levels[j].price
  }

  function SharesAt(lots: seq<Lot>, price: real): real {
    if lots == [] then 0.0
    else (if lots[0].price == price then lots[0].shares else 0.0) + SharesAt(lots[1..], price)
  }

  lemma {:induction false} NoLotElsewhere(lots: seq<Lot>, levels: seq<Level>, price: real)
    requires TakenFrom(lots, levels)
    requires forall i :: 0 <= i < |levels| ==> levels[i].price != price
    ensures SharesAt(lots, price) == 0.0
    decreases |levels|
  {
    if lots != [] {
      if TakenFrom(lots, levels[1..]) {
        NoLotElsewhere(lots, levels[1..], price);
      } else {
        NoLotElsewhere(lots[1..], levels[1..], price);
      }
    }
  }

  /** At one price a walk takes at most what that level offers. */
  lemma {:induction false} TakenAtMost(lots: seq<Lot>, levels: seq<Level>, k: nat)
    requires TakenFrom(lots, levels) && DistinctPrices(levels) && k < |levels|
    ensures SharesAt(lots, levels[k].price) <= Max(0.0, levels[k].size)
    decreases |levels|
  {
    var price := levels[k].price;
    if lots != [] {
      var skipped := TakenFrom(lots, levels[1..]);
      var rest := if skipped then lots else lots[1..];
      if k == 0 {
        NoLotElsewhere(rest, levels[1..], price);
      } else {
        TakenAtMost(rest, levels[1..], k - 1);
      }
    }
  }

  lemma {:induction false} LotUsesSum(lots: seq<Lot>, n: nat, price: real, now: int)
    requires n <= |lots|
    ensures Used(LotUses(lots, n, price, now)) == SharesAt(lots[..n], price)
    decreases n
  {
    if n > 0 {
      LotUsesSum(lots, n - 1, price, now);
      var last := if lots[n - 1].price == price then [Use(now, lots[n - 1].shares)] else [];
      UsedAppend(LotUses(lots, n - 1, price, now), last);
      SharesAtAppend(lots[..n - 1], lots[n - 1], price);
      assert lots[..n - 1] + [lots[n - 1]] == lots[..n];
    }
  }

  lemma {:induction false} SharesAtAppend(lots: seq<Lot>, lot: Lot, price: real)
    ensures SharesAt(lots + [lot], price) == SharesAt(lots, price) + if lot.price == price then lot.shares else 0.0
  {
    if lots != [] {
      SharesAtAppend(lots[1..], lot, price);
      assert (lots + [lot])[1..] == lots[1..] + [lot];
    } else {
      assert (lots + [lot])[1..] == [];
    }
  }

  lemma {:induction false} UsedNonNegative(uses: seq<Use>)
    requires forall i :: 0 <= i < |uses| ==> uses[i].size >= 0.0
    ensures Used(uses) >= 0.0
  {
    if uses != [] {
      UsedNonNegative(uses[1..]);
    }
  }

  lemma PlanTaken(intent: OrderIntent, levels: seq<Level>)
    requires PricedInRange(levels) && intent.Valid()
    ensures var plan := PlanOf(intent, levels);
      && TakenFrom(plan.lots, levels) && LotsWithin(plan.lots, intent.side, intent.limitPrice)
      && |plan.lots| <= |levels|
      && (intent.side.Buy? ==> Spent(plan.lots) <= intent.quantity)
      && (intent.side.Sell? ==> Shares(plan.lots) <= intent.quantity)
  {
    if intent.side.Buy? {
      BuyWalkKeeps(levels, intent.limitPrice, intent.quantity);
    } else {
      SellWalkKeeps(levels, intent.limitPrice, intent.quantity);
    }
  }

  /** Right after a match, everything we took at a level within the replenish window, counted
      over the full fill history, is at most the size that level displays, unless it exceeded
      the display before the match and nothing more was taken. */
  lemma UseWithinDisplay(cfg: Config, v: Venue, book: Book, p: Pending, now: int, k: nat)
    requires p.intent.Valid() && Faithful(v, now - cfg.replenishMs)
    requires k < |SideLevels(book, p.intent.side)|
    ensures var level := SideLevels(book, p.intent.side)[k];
      var key := LevelKey(p.intent.tokenId, p.intent.side, level.price);
      var before := Used(Recent(FullUses(v.history, key), now - cfg.replenishMs));
      var after := Used(Recent(FullUses(MatchBook(cfg, v, book, p, now).history, key), now - cfg.replenishMs));
      after <= Max(level.size, before)
  {
    hide FullUses, PlanOf, FillLots, KeyUses, Recent, LotUses, TakenFrom;
    var side := p.intent.side;
    var levels := SideLevels(book, side);
    var horizon := now - cfg.replenishMs;
    var key := LevelKey(p.intent.tokenId, side, levels[k].price);
    var avail := Available(v.consumed, p.intent.tokenId, side, levels, horizon);
    var plan := PlanOf(p.intent, avail);
    var looked := v.(consumed := Pruned(v.consumed, p.intent.tokenId, side, levels, horizon));
    var filled := FillLots(cfg, looked, p, plan.lots, |plan.lots|, now);
    var uses := KeyUses(p, plan.lots, |plan.lots|, key, now);
    PlanTaken(p.intent, avail);
    TakenAtMost(plan.lots, avail, k);
    FillLotsUses(cfg, looked, p, plan.lots, |plan.lots|, now, key);
    FullUsesAppend(filled.history, Logged(p.intent.tokenId, FinalUpdate(p, plan, now)), key);
    RecentAppend(FullUses(looked.history, key), uses, horizon);
    UsedAppend(Recent(FullUses(v.history, key), horizon), Recent(uses, horizon));
    UsesAllRecent(p, plan.lots, key, now, horizon);
    assert avail[k].size == levels[k].size - Used(Recent(UsesOf(v.consumed, key), horizon));
    assert FullUses(filled.history, key) + [] == FullUses(filled.history, key);
  }

  lemma UsesAllRecent(p: Pending, lots: seq<Lot>, key: LevelKey, now: int, horizon: int)
    requires key.token == p.intent.tokenId && key.side == p.intent.side
    ensures Used(Recent(KeyUses(p, lots, |lots|, key, now), horizon)) <= Max(0.0, SharesAt(lots, key.price))
  {
    LotUsesSum(lots, |lots|, key.price, now);
    assert lots[..|lots|] == lots;
    RecentAllOrNone(lots, |lots|, key.price, now, horizon);
  }

  lemma {:induction false} RecentAllOrNone(lots: seq<Lot>, n: nat, price: real, now: int, horizon: int)
    requires n <= |lots|
    ensures Recent(LotUses(lots, n, price, now), horizon) == if now > horizon then LotUses(lots, n, price, now) else []
    decreases n
  {
    if n > 0 {
      RecentAllOrNone(lots, n - 1, price, now, horizon);
      var last := if lots[n - 1].price == price then [Use(now, lots[n - 1].shares)] else [];
      RecentAppend(LotUses(lots, n - 1, price, now), last, horizon);
    }
  }

  // ---------------------------------------------------------------- over whole runs

  /** What one match appends to the history, and that it touches no other order. */
  lemma MatchLog(cfg: Config, v: Venue, books: Books, p: Pending, now: int)
    ensures var w := Match(cfg, v, books, p, now);
      && w.pending == v.pending
      && |v.history| <= |w.history| && w.history[..|v.history|] == v.history
      && (forall i :: |v.history| <= i < |w.history| && w.history[i].event.FillEvent? ==> w.history[i].event.fill.tsMs == now)
  {
    if p.intent.tokenId in books {
      var levels := SideLevels(books[p.intent.tokenId], p.intent.side);
      var horizon := now - cfg.replenishMs;
      var plan := PlanOf(p.intent, Available(v.consumed, p.intent.tokenId, p.intent.side, levels, horizon));
      var looked := v.(consumed := Pruned(v.consumed, p.intent.tokenId, p.intent.side, levels, horizon));
      hide PlanOf, FillLots;
      FillLotsLog(cfg, looked, p, plan.lots, |plan.lots|, now);
    }
  }

  ghost predicate Ordered(orders: seq<Pending>) {
    forall i, j :: 0 <= i < j < |orders| ==> orders[i].dueMs <= orders[j].dueMs
  }

  lemma {:induction false} SortByDueSorts(pending: seq<Pending>)
    ensures forall p :: p in SortByDue(pending) <==> p in pending
    ensures Ordered(SortByDue(pending))
  {
    if pending != [] {
      SortByDueSorts(pending[1..]);
      InsertSorts(pending[0], SortByDue(pending[1..]));
    }
  }

  lemma {:induction false} InsertSorts(p: Pending, sorted: seq<Pending>)
    requires Ordered(sorted)
    ensures forall q :: q in InsertByDue(p, sorted) <==> q == p || q in sorted
    ensures Ordered(InsertByDue(p, sorted))
  {
    if sorted == [] || p.dueMs <= sorted[0].dueMs {
    } else {
      InsertSorts(p, sorted[1..]);
      var rest := InsertByDue(p, sorted[1..]);
      forall i | 0 <= i < |rest|
        ensures sorted[0].dueMs <= rest[i].dueMs
      {
        assert rest[i] in rest;
      }
    }
  }

  lemma TimelyMatch(cfg: Config, v: Venue, books: Books, p: Pending, from: int)
    requires FillsUpTo(v.history, from) && FillsInOrder(v.history) && Faithful(v, from - cfg.replenishMs)
    requires from <= p.dueMs
    ensures var w := Match(cfg, v, books, p, p.dueMs);
      FillsUpTo(w.history, p.dueMs) && FillsInOrder(w.history) && Faithful(w, p.dueMs - cfg.replenishMs)
  {
    hide Match, Faithful;
    MatchLog(cfg, v, books, p, p.dueMs);
    FaithfulLater(v, from - cfg.replenishMs, p.dueMs - cfg.replenishMs);
    MatchFaithful(cfg, v, books, p, p.dueMs);
    var w := Match(cfg, v, books, p, p.dueMs);
    assert forall i :: 0 <= i < |v.history| ==> w.history[i] == v.history[i];
  }

  lemma {:induction false} TimelyMatchAll(cfg: Config, v: Venue, books: Books, orders: seq<Pending>, from: int, until: int)
    requires FillsUpTo(v.history, from) && FillsInOrder(v.history) && Faithful(v, from - cfg.replenishMs)
    requires Ordered(orders) && from <= until
    requires forall p :: p in orders ==> from <= p.dueMs <= until
    ensures var w := MatchAll(cfg, v, books, orders);
      && FillsUpTo(w.history, until) && FillsInOrder(w.history) && Faithful(w, until - cfg.replenishMs)
      && (forall q :: q in w.pending ==> q in v.pending && forall p :: p in orders ==> p.orderId != q.orderId)
    decreases |orders|
  {
    if orders == [] {
      FaithfulLater(v, from - cfg.replenishMs, until - cfg.replenishMs);
    } else {
      hide Faithful, FillsInOrder, FillsUpTo, Match;
      var p := orders[0];
      var taken := v.(pending := Without(v.pending, p.orderId));
      assert FillsUpTo(taken.history, from) && FillsInOrder(taken.history);
      SameRecord(v, taken, from - cfg.replenishMs);
      TimelyMatch(cfg, taken, books, p, from);
      MatchLog(cfg, taken, books, p, p.dueMs);
      assert p in orders;
      forall q | q in orders[1..]
        ensures p.dueMs <= q.dueMs <= until
      {
        var i :| 0 <= i < |orders[1..]| && orders[1..][i] == q;
        assert orders[i + 1] == q && q in orders;
      }
      TimelyMatchAll(cfg, Match(cfg, taken, books, p, p.dueMs), books, orders[1..], p.dueMs, until);
    }
  }

  lemma SameRecord(v: Venue, w: Venue, horizon: int)
    requires w.consumed == v.consumed && w.history == v.history && Faithful(v, horizon)
    ensures Faithful(w, horizon)
  {
  }

  lemma TimelyAdvance(cfg: Config, v: Venue, frontier: int, books: Books, now: int)
    requires Timely(cfg, v, frontier) && frontier <= now
    ensures Timely(cfg, Advance(cfg, v, books, now), now)
  {
    hide Faithful, FillsInOrder, FillsUpTo, MatchAll, SortByDue, Ordered;
    var orders := SortByDue(Due(v.pending, now));
    SortByDueSorts(Due(v.pending, now));
    TimelyMatchAll(cfg, v, books, orders, frontier, now);
    forall q | q in Advance(cfg, v, books, now).pending
      ensures q.dueMs >= now && q.intent.Valid()
    {
      assert q in v.pending && q !in orders;
    }
  }

  lemma TimelyEmit(cfg: Config, v: Venue, frontier: int, w: Venue, token: TokenId, update: OrderUpdate)
    requires Timely(cfg, v, frontier)
    requires w.history == v.history + [Logged(token, UpdateEvent(update))] && w.consumed == v.consumed
    requires forall p :: p in w.pending ==> p in v.pending
    ensures Timely(cfg, w, frontier)
  {
    forall key
      ensures FullUses(w.history, key) == FullUses(v.history, key)
    {
      FullUsesAppend(v.history, Logged(token, UpdateEvent(update)), key);
      assert FullUses(v.history, key) + [] == FullUses(v.history, key);
    }
  }

  lemma TimelyCancel(cfg: Config, v: Venue, frontier: int, id: OrderId, now: int)
    requires Timely(cfg, v, frontier)
    ensures Timely(cfg, Cancel(v, id, now), frontier)
  {
    var found := Find(v.pending, id);
    if found.Some? {
      TimelyEmit(cfg, v, frontier, Cancel(v, id, now), found.value.intent.tokenId, CancelUpdate(found.value, now).update);
    }
  }

  lemma {:induction false} TimelyCancelEach(cfg: Config, v: Venue, frontier: int, ids: seq<OrderId>, now: int)
    requires Timely(cfg, v, frontier)
    ensures Timely(cfg, CancelEach(v, ids, now), frontier)
    decreases |ids|
  {
    if ids != [] {
      TimelyCancel(cfg, v, frontier, ids[0], now);
      TimelyCancelEach(cfg, Cancel(v, ids[0], now), frontier, ids[1..], now);
    }
  }

  lemma TimelyStep(cfg: Config, v: Venue, frontier: int, step: Step)
    requires Timely(cfg, v, frontier) && Legal(frontier, step)
    ensures Timely(cfg, Apply(cfg, v, frontier, step), Frontier(frontier, step))
  {
    hide Timely, Advance, Cancel, CancelEach;
    match step
    case SubmitStep(intent, market, now, jitter, chaos) =>
      TimelySubmit(cfg, v, frontier, intent, market, now, jitter, chaos);
    case CancelStep(id, now) =>
      TimelyCancel(cfg, v, frontier, id, now);
    case CancelAllStep(now) =>
      TimelyCancelEach(cfg, v, frontier, Ids(v.pending), now);
    case AdvanceStep(books, now) =>
      TimelyAdvance(cfg, v, frontier, books, now);
    case PollStep(books, now) =>
      TimelyAdvance(cfg, v, frontier, books, now);
      TimelySame(cfg, Advance(cfg, v, books, now), now, Apply(cfg, v, frontier, step));
    case SettleStep(winner, loser) =>
      TimelySame(cfg, v, frontier, Apply(cfg, v, frontier, step));
  }

  lemma TimelySame(cfg: Config, v: Venue, frontier: int, w: Venue)
    requires Timely(cfg, v, frontier)
    requires w.consumed == v.consumed && w.history == v.history && w.pending == v.pending
    ensures Timely(cfg, w, frontier)
  {
    SameRecord(v, w, frontier - cfg.replenishMs);
  }

  lemma TimelySubmit(cfg: Config, v: Venue, frontier: int, intent: OrderIntent, market: Market, now: int, jitter: nat, chaos: bool)
    requires Timely(cfg, v, frontier) && frontier <= now && intent.Valid() && market.Valid()
    ensures Timely(cfg, Submit(cfg, v, intent, market, now, jitter, chaos).0, frontier)
  {
    hide Validate, Faithful;
    SameRecord(v, Submit(cfg, v, intent, market, now, jitter, chaos).0, frontier - cfg.replenishMs);
  }

  lemma {:induction false} TimelyRun(cfg: Config, v: Venue, frontier: int, steps: seq<Step>)
    requires Timely(cfg, v, frontier) && LegalRun(frontier, steps)
    ensures var (w, at) := Run(cfg, v, frontier, steps); Timely(cfg, w, at)
    decreases |steps|
  {
    if steps != [] {
      hide Timely;
      TimelyStep(cfg, v, frontier, steps[0]);
      TimelyRun(cfg, Apply(cfg, v, frontier, steps[0]), Frontier(frontier, steps[0]), steps[1..]);
    }
  }

  /** Over every run from an empty venue, match times never decrease and the pruned record of our
      own use answers every later query exactly as the full fill history would. */
  lemma PrunedRecordIsExact(cfg: Config, cash: real, start: int, steps: seq<Step>, key: LevelKey, now: int)
    requires LegalRun(start, steps)
    requires Run(cfg, Initial(cash), start, steps).1 <= now
    ensures var v := Run(cfg, Initial(cash), start, steps).0;
      && FillsInOrder(v.history)
      && Recent(UsesOf(v.consumed, key), now - cfg.replenishMs) == Recent(FullUses(v.history, key), now - cfg.replenishMs)
  {
    InitiallyTimely(cfg, cash, start);
    hide FullUses, Recent, Run;
    InitiallyTimely(cfg, cash, start);
    TimelyRun(cfg, Initial(cash), start, steps);
    var (v, at) := Run(cfg, Initial(cash), start, steps);
    FaithfulLater(v, at - cfg.replenishMs, now - cfg.replenishMs);
  }

  /** In every reachable state, what a match leaves used at a level within the replenish window
      is at most the level's displayed size, or what was already used there before. */
  lemma NeverBeyondDisplay(cfg: Config, cash: real, start: int, steps: seq<Step>, book: Book, p: Pending, k: nat)
    requires LegalRun(start, steps)
    requires var (v, at) := Run(cfg, Initial(cash), start, steps); p in v.pending
    requires k < |SideLevels(book, p.intent.side)|
    ensures var v := Run(cfg, Initial(cash), start, steps).0;
      var level := SideLevels(book, p.intent.side)[k];
      var key := LevelKey(p.intent.tokenId, p.intent.side, level.price);
      var horizon := p.dueMs - cfg.replenishMs;
      Used(Recent(FullUses(MatchBook(cfg, v, book, p, p.dueMs).history, key), horizon))
        <= Max(level.size, Used(Recent(FullUses(v.history, key), horizon)))
  {
    hide MatchBook, FullUses, Recent, Used, Run;
    InitiallyTimely(cfg, cash, start);
    TimelyRun(cfg, Initial(cash), start, steps);
    var (v, at) := Run(cfg, Initial(cash), start, steps);
    FaithfulLater(v, at - cfg.replenishMs, p.dueMs - cfg.replenishMs);
    UseWithinDisplay(cfg, v, book, p, p.dueMs, k);
  }

  lemma InitiallyTimely(cfg: Config, cash: real, start: int)
    ensures Timely(cfg, Initial(cash), start)
  {
  }
}
