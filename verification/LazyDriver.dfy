/** The replay driver over the lazily matched venue. The driver advances the venue before each
    message and once at the start of each decision step; the orders of the step, the settlements and
    the watchdog's cancels reach the venue as that advance left it. An order that is already due is
    then cancelled where an eagerly matched venue would have filled it, or its money is still counted
    as free. Both venues agree exactly when nothing is due at such a call, and as soon as every order
    takes time to arrive only the cancels can meet a due order. */
module LazyDriver {
  import opened Decimals
  import opened Domain
  import opened Matching
  import opened PaperVenue
  import opened VenueRuns
  import opened LazyMatching
  import opened DecisionStep

  /** One call of the venue at `now`, with the book as it then stands. A message that changes the
      book shows in the next call's `books`. */
  datatype Action = Action(books: Books, now: int, step: Step)
  {
    /** The calls that first match what has arrived; any other finds the venue as it is. */
    predicate Advances() {
      step.AdvanceStep? || step.PollStep?
    }

    predicate Cancels() {
      step.CancelStep? || step.CancelAllStep?
    }

    predicate Legal() {
      match step
      case SubmitStep(intent, market, at, _, _) => at == now && intent.Valid() && market.Valid()
      case CancelStep(_, at) => at == now
      case CancelAllStep(at) => at == now
      case AdvanceStep(b, at) => b == books && at == now
      case PollStep(b, at) => b == books && at == now
      case SettleStep(_, _) => true
    }
  }

  function CancelAll(v: Venue, now: int): Venue {
    CancelEach(v, Ids(v.pending), now)
  }

  function Act(cfg: Config, v: Venue, a: Action): Venue
    requires a.Legal()
  {
    Apply(cfg, v, a.now, a.step)
  }

  ghost predicate Drivable(actions: seq<Action>) {
    forall i :: 0 <= i < |actions| ==> actions[i].Legal()
  }

  function Drive(cfg: Config, v: Venue, actions: seq<Action>): Venue
    requires Drivable(actions)
    decreases |actions|
  {
    if actions == [] then v else Drive(cfg, Act(cfg, v, actions[0]), actions[1..])
  }

  /** The same actions with the venue also advanced at every moment of `schedules[i]` before
      action `i`. */
  function DriveEagerly(cfg: Config, v: Venue, actions: seq<Action>, schedules: seq<seq<int>>): Venue
    requires Drivable(actions) && |schedules| == |actions|
    decreases |actions|
  {
    if actions == [] then v
    else DriveEagerly(cfg, Act(cfg, AdvanceEach(cfg, v, actions[0].books, schedules[0]), actions[0]), actions[1..], schedules[1..])
  }

  /** Moments in order, none after `now`. */
  ghost predicate Schedule(times: seq<int>, now: int) {
    NonDecreasing(times) && forall t :: t in times ==> t <= now
  }

  ghost predicate Before(actions: seq<Action>, schedules: seq<seq<int>>) {
    && |schedules| == |actions|
    && forall i :: 0 <= i < |actions| ==> Schedule(schedules[i], actions[i].now)
  }

  predicate NothingDue(v: Venue, now: int) {
    forall p :: p in v.pending ==> p.dueMs > now
  }

  /** The guard, to be checked before each call of the lazy run that does not advance. */
  ghost predicate NothingDueAtBare(cfg: Config, v: Venue, actions: seq<Action>)
    requires Drivable(actions)
    decreases |actions|
  {
    actions == []
    || ((!actions[0].Advances() ==> NothingDue(v, actions[0].now)) && NothingDueAtBare(cfg, Act(cfg, v, actions[0]), actions[1..]))
  }

  /** Ids and intents as every venue state has them. */
  ghost predicate Sane(v: Venue) {
    IdsKnown(v) && forall p :: p in v.pending ==> p.intent.Valid()
  }

  // ---------------------------------------------------------------- sane venues stay sane

  lemma SaneAdvance(cfg: Config, v: Venue, books: Books, now: int)
    requires Sane(v)
    ensures Sane(Advance(cfg, v, books, now))
  {
    hide Advance;
    IdsAfterAdvance(cfg, v, books, now);
    AdvanceLeavesNotDue(cfg, v, books, now);
    NotDueElements(v.pending, now);
  }

  lemma {:induction false} SaneCancelEach(v: Venue, ids: seq<OrderId>, now: int)
    requires Sane(v)
    ensures Sane(CancelEach(v, ids, now))
    decreases |ids|
  {
    if ids != [] {
      IdsAfterCancel(v, ids[0], now);
      SaneCancelEach(Cancel(v, ids[0], now), ids[1..], now);
    }
  }

  lemma SaneStep(cfg: Config, v: Venue, frontier: int, step: Step)
    requires Sane(v) && VenueRuns.Legal(frontier, step)
    ensures Sane(Apply(cfg, v, frontier, step))
  {
    hide Advance, CancelEach, Validate, IdsKnown;
    IdsAfterStep(cfg, v, frontier, step);
    match step
    case SubmitStep(_, _, _, _, _) =>
    case CancelStep(id, now) =>
    case CancelAllStep(now) => SaneCancelEach(v, Ids(v.pending), now);
    case AdvanceStep(books, now) => SaneAdvance(cfg, v, books, now);
    case PollStep(books, now) => SaneAdvance(cfg, v, books, now);
    case SettleStep(_, _) =>
  }

  lemma SaneAct(cfg: Config, v: Venue, a: Action)
    requires Sane(v) && a.Legal()
    ensures Sane(Act(cfg, v, a))
  {
    hide Sane, Apply;
    SaneStep(cfg, v, a.now, a.step);
  }

  // ---------------------------------------------------------------- under the guard

  lemma {:induction false} NobodyDue(pending: seq<Pending>, now: int)
    requires forall p :: p in pending ==> p.dueMs > now
    ensures Due(pending, now) == []
  {
    if pending != [] {
      NobodyDue(pending[1..], now);
    }
  }

  lemma {:induction false} NothingToMatch(cfg: Config, v: Venue, books: Books, times: seq<int>, now: int)
    requires NothingDue(v, now) && Schedule(times, now)
    ensures AdvanceEach(cfg, v, books, times) == v
    decreases |times|
  {
    if times != [] {
      assert times[0] in times && forall t :: t in times[1..] ==> t in times;
      NobodyDue(v.pending, times[0]);
      NothingToMatch(cfg, v, books, times[1..], now);
    }
  }

  lemma EagerAct(cfg: Config, v: Venue, a: Action, times: seq<int>)
    requires Sane(v) && a.Legal() && Schedule(times, a.now)
    requires !a.Advances() ==> NothingDue(v, a.now)
    ensures Act(cfg, AdvanceEach(cfg, v, a.books, times), a) == Act(cfg, v, a)
  {
    hide AdvanceEach, Advance, CancelEach, NothingDue, Submit;
    if a.Advances() {
      LazyIsEager(cfg, v, a.books, times, a.now);
    } else {
      NothingToMatch(cfg, v, a.books, times, a.now);
    }
  }

  lemma RestBefore(actions: seq<Action>, schedules: seq<seq<int>>)
    requires actions != [] && Drivable(actions) && Before(actions, schedules)
    ensures actions[0].Legal() && Schedule(schedules[0], actions[0].now)
    ensures Drivable(actions[1..]) && Before(actions[1..], schedules[1..])
  {
    hide Schedule;
  }

  /** Under the driver, with nothing due at a call that does not advance, the lazy venue is the eager
      one: whatever moments the eager venue is advanced at, both end in the same state, and so after
      every prefix. */
  lemma {:induction false} LazyDriverIsEager(cfg: Config, v: Venue, actions: seq<Action>, schedules: seq<seq<int>>)
    requires Sane(v) && Drivable(actions) && Before(actions, schedules) && NothingDueAtBare(cfg, v, actions)
    ensures DriveEagerly(cfg, v, actions, schedules) == Drive(cfg, v, actions)
    decreases |actions|
  {
    if actions != [] {
      hide Sane, Act, AdvanceEach, NothingDue, Before, Schedule;
      RestBefore(actions, schedules);
      EagerAct(cfg, v, actions[0], schedules[0]);
      SaneAct(cfg, v, actions[0]);
      LazyDriverIsEager(cfg, Act(cfg, v, actions[0]), actions[1..], schedules[1..]);
    }
  }

  // ---------------------------------------------------------------- histories only grow

  ghost predicate Grows(v: Venue, w: Venue) {
    |v.history| <= |w.history| && w.history[..|v.history|] == v.history
  }

  lemma GrowsOn(u: Venue, v: Venue, w: Venue)
    requires Grows(u, v) && Grows(v, w)
    ensures Grows(u, w)
  {
    assert w.history[..|u.history|] == w.history[..|v.history|][..|u.history|];
  }

  lemma FirstGrows(cfg: Config, v: Venue, books: Books, p: Pending)
    ensures Grows(v, MatchFirst(cfg, v, books, p))
  {
    hide Match;
    MatchLog(cfg, v.(pending := Without(v.pending, p.orderId)), books, p, p.dueMs);
  }

  lemma {:induction false} MatchesGrow(cfg: Config, v: Venue, books: Books, orders: seq<Pending>)
    ensures Grows(v, MatchAll(cfg, v, books, orders))
    decreases |orders|
  {
    MatchAllStep(cfg, v, books, orders);
    if orders != [] {
      hide MatchAll, MatchFirst;
      FirstGrows(cfg, v, books, orders[0]);
      MatchesGrow(cfg, MatchFirst(cfg, v, books, orders[0]), books, orders[1..]);
      GrowsOn(v, MatchFirst(cfg, v, books, orders[0]), MatchAll(cfg, v, books, orders));
    }
  }

  lemma {:induction false} CancelsGrow(v: Venue, ids: seq<OrderId>, now: int)
    ensures Grows(v, CancelEach(v, ids, now))
    decreases |ids|
  {
    if ids != [] {
      CancelsGrow(Cancel(v, ids[0], now), ids[1..], now);
    }
  }

  lemma StepGrows(cfg: Config, v: Venue, frontier: int, step: Step)
    requires VenueRuns.Legal(frontier, step)
    ensures Grows(v, Apply(cfg, v, frontier, step))
  {
    hide MatchAll, CancelEach, Validate;
    match step
    case SubmitStep(_, _, _, _, _) =>
    case CancelStep(_, _) =>
    case CancelAllStep(now) => CancelsGrow(v, Ids(v.pending), now);
    case AdvanceStep(books, now) => MatchesGrow(cfg, v, books, SortByDue(Due(v.pending, now)));
    case PollStep(books, now) => MatchesGrow(cfg, v, books, SortByDue(Due(v.pending, now)));
    case SettleStep(_, _) =>
  }

  lemma {:induction false} DriveGrows(cfg: Config, v: Venue, actions: seq<Action>)
    requires Drivable(actions)
    ensures Grows(v, Drive(cfg, v, actions))
    decreases |actions|
  {
    if actions != [] {
      hide Apply, Grows;
      StepGrows(cfg, v, actions[0].now, actions[0].step);
      DriveGrows(cfg, Act(cfg, v, actions[0]), actions[1..]);
      GrowsOn(v, Act(cfg, v, actions[0]), Drive(cfg, v, actions));
    } else {
      assert v.history[..|v.history|] == v.history;
    }
  }

  // ---------------------------------------------------------------- a due order and a book that fills it

  /** One level on the order's side, at a price it takes and with enough left after our own use; a
      decimal wherever the order and the use are. */
  function FillingLevel(cfg: Config, v: Venue, p: Pending): (level: Level)
    requires p.intent.Valid()
    ensures 0.0 < level.price < 1.0 && level.size > 0.0
  {
    var price := if p.intent.side.Buy? then Min(p.intent.limitPrice, p.intent.quantity) else p.intent.limitPrice;
    var used := Used(Recent(UsesOf(v.consumed, LevelKey(p.intent.tokenId, p.intent.side, price)), p.dueMs - cfg.replenishMs));
    var need := if p.intent.side.Buy? then ((p.intent.quantity / price).Floor + 2) as real else p.intent.quantity;
    Positive(p.intent.quantity, price);
    Level(price, need + Max(0.0, used))
  }

  lemma Positive(a: real, b: real)
    requires a > 0.0 && b > 0.0
    ensures a / b > 0.0
  {
  }

  function FillingBooks(cfg: Config, v: Venue, p: Pending): Books
    requires p.intent.Valid()
  {
    var level := FillingLevel(cfg, v, p);
    map[p.intent.tokenId := if p.intent.side.Buy? then Snapshot([], [level]) else Snapshot([level], [])]
  }

  /** An order takes something from a level it can reach and cannot exhaust. */
  lemma TakesSome(intent: OrderIntent, level: Level)
    requires intent.Valid() && 0.0 < level.price < 1.0
    requires intent.side.Buy? ==> level.price <= intent.limitPrice && level.price <= intent.quantity && level.size >= intent.quantity / level.price + 1.0
    requires intent.side.Sell? ==> level.price == intent.limitPrice && level.size >= intent.quantity
    ensures PricedInRange([level]) && PlanOf(intent, [level]).lots != []
  {
    hide BuyWalk, SellWalk, Notional, FloorTo;
    if intent.side.Buy? {
      var ratio := intent.quantity / level.price;
      DivMul(intent.quantity, level.price);
      AtLeastOne(intent.quantity, level.price, ratio);
      var take := FloorTo(ratio, SHARE_LOT);
      NearlyAll(level.price, take, ratio, intent.quantity);
      OneBuy(level, intent.limitPrice, intent.quantity, take);
    } else {
      OneSale(level, intent.quantity);
    }
  }

  lemma OneBuy(level: Level, limit: real, budget: real, take: real)
    requires 0.0 < level.price < 1.0 && level.price <= limit && budget > 0.0 && level.size > 0.0 && take == BuyTake(level, budget) > 0.0
    ensures BuyWalk([level], limit, budget) == Walk([Lot(level.price, take)], budget - Notional(level.price, take))
  {
    hide BuyTake, Notional;
    assert [level][1..] == [];
    assert BuyWalk([], limit, budget - Notional(level.price, take)) == Walk([], budget - Notional(level.price, take));
    assert [Lot(level.price, take)] + [] == [Lot(level.price, take)];
  }

  lemma OneSale(level: Level, quantity: real)
    requires 0.0 < quantity <= level.size
    ensures SellWalk([level], level.price, quantity) == Walk([Lot(level.price, quantity)], 0.0)
  {
    assert [level][1..] == [];
    assert SellWalk([], level.price, 0.0) == Walk([], 0.0);
    assert [Lot(level.price, quantity)] + [] == [Lot(level.price, quantity)];
  }

  lemma AtLeastOne(quantity: real, price: real, ratio: real)
    requires 0.0 < price <= quantity && ratio * price == quantity
    ensures ratio >= 1.0
  {
    if ratio < 1.0 {
      MulLt(ratio, 1.0, price);
    }
  }

  lemma NearlyAll(price: real, take: real, ratio: real, quantity: real)
    requires price > 0.0 && take <= ratio < take + SHARE_LOT && ratio * price == quantity
    ensures quantity - Notional(price, take) < price * SHARE_LOT
  {
    MulLt(ratio, take + SHARE_LOT, price);
    assert (take + SHARE_LOT) * price == price * take + price * SHARE_LOT;
  }

  /** Matched against that book, the order's first event is a fill. */
  lemma FirstIsFill(cfg: Config, v: Venue, p: Pending)
    requires p.intent.Valid()
    ensures var w := MatchFirst(cfg, v, FillingBooks(cfg, v, p), p);
      |v.history| < |w.history| && w.history[|v.history|].event.FillEvent?
  {
    hide PlanOf, FillLots, Recent, Used, Pruned;
    var books, level := FillingBooks(cfg, v, p), FillingLevel(cfg, v, p);
    var taken := v.(pending := Without(v.pending, p.orderId));
    var levels := SideLevels(books[p.intent.tokenId], p.intent.side);
    var horizon := p.dueMs - cfg.replenishMs;
    assert levels == [level];
    var avail := Available(taken.consumed, p.intent.tokenId, p.intent.side, levels, horizon);
    assert avail == [avail[0]] && avail[0].price == level.price;
    TakesSome(p.intent, avail[0]);
    var plan := PlanOf(p.intent, avail);
    var looked := taken.(consumed := Pruned(taken.consumed, p.intent.tokenId, p.intent.side, levels, horizon));
    FillLotsLog(cfg, looked, p, plan.lots, |plan.lots|, p.dueMs);
  }

  /** Cancelled without an advance, the first order of the queue is logged as cancelled. */
  lemma FirstIsCancelled(v: Venue, now: int)
    requires v.pending != []
    ensures var w := CancelAll(v, now); |v.history| < |w.history| && w.history[|v.history|].event.UpdateEvent?
  {
    hide CancelEach;
    var ids := Ids(v.pending);
    var first := Cancel(v, ids[0], now);
    FirstCancel(v, ids, now);
    CancelsGrow(first, ids[1..], now);
    var w := CancelEach(first, ids[1..], now);
    assert w.history[|v.history|] == w.history[..|first.history|][|v.history|];
  }

  lemma FirstCancel(v: Venue, ids: seq<OrderId>, now: int)
    requires ids != []
    ensures CancelEach(v, ids, now) == CancelEach(Cancel(v, ids[0], now), ids[1..], now)
  {
    hide Cancel;
  }

  /** Without a book the order's one event is its cancellation. */
  lemma FirstIsUpdate(cfg: Config, v: Venue, p: Pending)
    ensures var w := MatchFirst(cfg, v, map[], p); |v.history| < |w.history| && w.history[|v.history|].event.UpdateEvent?
  {
  }

  /** Whatever is due, the next entry of the history can be a fill or an update: it is for the book
      to say. */
  lemma FirstLogged(cfg: Config, v: Venue, now: int, fills: bool) returns (books: Books)
    requires Sane(v) && !NothingDue(v, now)
    ensures var w := Advance(cfg, v, books, now); |v.history| < |w.history| && w.history[|v.history|].event.FillEvent? == fills
  {
    hide MatchAll, MatchFirst, SortByDue;
    var orders := SortByDue(Due(v.pending, now));
    SortByDueSorts(Due(v.pending, now));
    var due :| due in v.pending && due.dueMs <= now;
    assert due in orders;
    var p := orders[0];
    books := if fills then FillingBooks(cfg, v, p) else map[];
    FirstIsFill(cfg, v, p);
    FirstIsUpdate(cfg, v, p);
    MatchAllStep(cfg, v, books, orders);
    var first := MatchFirst(cfg, v, books, p);
    MatchesGrow(cfg, first, books, orders[1..]);
    var w := Advance(cfg, v, books, now);
    assert w.history[|v.history|] == w.history[..|first.history|][|v.history|];
  }

  lemma StaysLogged(v: Venue, w: Venue, n: nat)
    requires Grows(v, w) && n < |v.history|
    ensures n < |w.history| && w.history[n] == v.history[n]
  {
    assert w.history[n] == w.history[..|v.history|][n];
  }

  /** One bare cancel is the eager venue's, on every book and every schedule, exactly when nothing
      is due. */
  lemma BareCancelIsEagerExactly(cfg: Config, v: Venue, now: int)
    requires Sane(v)
    ensures NothingDue(v, now) <==>
      forall books: Books, times: seq<int> :: Schedule(times, now) ==> CancelAll(AdvanceEach(cfg, v, books, times), now) == CancelAll(v, now)
  {
    hide CancelAll, Advance, AdvanceEach, Sane, NothingDue;
    if NothingDue(v, now) {
      forall books: Books, times: seq<int> | Schedule(times, now)
        ensures CancelAll(AdvanceEach(cfg, v, books, times), now) == CancelAll(v, now)
      {
        NothingToMatch(cfg, v, books, times, now);
      }
    } else {
      LateCancelDiffers(cfg, v, now);
    }
  }

  /** The eager history has a fill where the lazy one has a cancellation. */
  lemma LateCancelDiffers(cfg: Config, v: Venue, now: int)
    requires Sane(v) && !NothingDue(v, now)
    ensures exists books: Books, times: seq<int> ::
      Schedule(times, now) && CancelAll(AdvanceEach(cfg, v, books, times), now) != CancelAll(v, now)
  {
    hide CancelEach, Advance, Sane;
    var books := FirstLogged(cfg, v, now, true);
    var w := Advance(cfg, v, books, now);
    CancelsGrow(w, Ids(w.pending), now);
    StaysLogged(w, CancelAll(w, now), |v.history|);
    FirstIsCancelled(v, now);
    OneAdvance(cfg, v, books, now);
    assert Schedule([now], now);
  }

  lemma OneAdvance(cfg: Config, v: Venue, books: Books, now: int)
    ensures AdvanceEach(cfg, v, books, [now]) == Advance(cfg, v, books, now)
  {
    hide Advance;
    assert [now][1..] == [];
  }

  // ---------------------------------------------------------------- exactly, over whole runs

  /** The same calls, with any books at those that do not advance: the lazy run does not look at
      them. */
  ghost predicate Alike(a: Action, b: Action) {
    a == b || (!a.Advances() && a.now == b.now && a.step == b.step)
  }

  ghost predicate AllAlike(actions: seq<Action>, others: seq<Action>) {
    |actions| == |others| && forall i :: 0 <= i < |actions| ==> Alike(actions[i], others[i])
  }

  lemma {:induction false} AlikeDrivesAlike(cfg: Config, v: Venue, actions: seq<Action>, others: seq<Action>)
    requires Drivable(actions) && AllAlike(actions, others)
    ensures Drivable(others) && Drive(cfg, v, others) == Drive(cfg, v, actions)
    ensures NothingDueAtBare(cfg, v, others) <==> NothingDueAtBare(cfg, v, actions)
    decreases |actions|
  {
    if actions != [] {
      assert Alike(actions[0], others[0]);
      hide Apply, NothingDue;
      assert Act(cfg, v, others[0]) == Act(cfg, v, actions[0]);
      AlikeDrivesAlike(cfg, Act(cfg, v, actions[0]), actions[1..], others[1..]);
    }
  }

  function NoMoments(n: nat): seq<seq<int>> {
    seq(n, i => [])
  }

  lemma {:induction false} NeverEager(cfg: Config, v: Venue, actions: seq<Action>)
    requires Drivable(actions)
    ensures DriveEagerly(cfg, v, actions, NoMoments(|actions|)) == Drive(cfg, v, actions)
    ensures Before(actions, NoMoments(|actions|))
    decreases |actions|
  {
    if actions != [] {
      hide Act;
      NeverEager(cfg, Act(cfg, v, actions[0]), actions[1..]);
      assert NoMoments(|actions|)[1..] == NoMoments(|actions[1..]|);
    }
  }

  /** One more action in front. */
  lemma OnePlus(cfg: Config, v: Venue, a: Action, rest: seq<Action>, times: seq<int>, schedules: seq<seq<int>>)
    requires a.Legal() && Drivable(rest) && Schedule(times, a.now) && Before(rest, schedules)
    ensures Drivable([a] + rest) && Before([a] + rest, [times] + schedules)
    ensures DriveEagerly(cfg, v, [a] + rest, [times] + schedules)
      == DriveEagerly(cfg, Act(cfg, AdvanceEach(cfg, v, a.books, times), a), rest, schedules)
  {
    hide Act, AdvanceEach, Schedule;
    assert ([a] + rest)[1..] == rest && ([times] + schedules)[1..] == schedules;
  }

  /** A run with something due at a call that does not advance shows it, against some books and
      schedules. */
  lemma {:induction false} LateCallShows(cfg: Config, v: Venue, actions: seq<Action>)
    returns (others: seq<Action>, schedules: seq<seq<int>>)
    requires Sane(v) && Drivable(actions) && !NothingDueAtBare(cfg, v, actions)
    ensures AllAlike(actions, others) && Drivable(others) && Before(others, schedules)
    ensures DriveEagerly(cfg, v, others, schedules) != Drive(cfg, v, actions)
    decreases |actions|
  {
    var a, rest := actions[0], actions[1..];
    assert Drivable(rest) && actions == [a] + rest;
    if !a.Advances() && !NothingDue(v, a.now) {
      hide *;
      others, schedules := ThisCallShows(cfg, v, a, rest);
    } else {
      hide Act, NothingDue, Sane;
      SaneAct(cfg, v, a);
      var o, s := LateCallShows(cfg, Act(cfg, v, a), rest);
      others := [a] + o;
      schedules := [[]] + s;
      OnePlus(cfg, v, a, o, [], s);
      assert others[1..] == o;
    }
  }

  /** The eager venue logs a fill or an update next, whichever the lazy run will not. */
  lemma ThisCallShows(cfg: Config, v: Venue, a: Action, rest: seq<Action>)
    returns (others: seq<Action>, schedules: seq<seq<int>>)
    requires Sane(v) && a.Legal() && Drivable(rest) && !a.Advances() && !NothingDue(v, a.now)
    ensures Drivable([a] + rest) && AllAlike([a] + rest, others) && Drivable(others) && Before(others, schedules)
    ensures DriveEagerly(cfg, v, others, schedules) != Drive(cfg, v, [a] + rest)
  {
    hide Sane, NothingDue, Drive, DriveEagerly, Act, Advance, Grows;
    var n := |v.history|;
    var lazy := Drive(cfg, Act(cfg, v, a), rest);
    var books := FirstLogged(cfg, v, a.now, !(n < |lazy.history| && lazy.history[n].event.FillEvent?));
    var b := a.(books := books);
    others, schedules := [b] + rest, [[a.now]] + NoMoments(|rest|);
    var w := Advance(cfg, v, books, a.now);
    var eager := Act(cfg, w, b);
    BareGrows(cfg, w, b);
    StaysLogged(w, eager, n);
    DriveGrows(cfg, eager, rest);
    StaysLogged(eager, Drive(cfg, eager, rest), n);
    OneAdvance(cfg, v, books, a.now);
    NeverEager(cfg, eager, rest);
    OnePlus(cfg, v, b, rest, [a.now], NoMoments(|rest|));
    DriveFirst(cfg, v, a, rest);
    SameRest(a, b, rest);
  }

  lemma BareGrows(cfg: Config, v: Venue, a: Action)
    requires a.Legal()
    ensures Grows(v, Act(cfg, v, a))
  {
    hide Apply, Grows;
    StepGrows(cfg, v, a.now, a.step);
  }

  lemma DriveFirst(cfg: Config, v: Venue, a: Action, rest: seq<Action>)
    requires a.Legal() && Drivable(rest)
    ensures Drivable([a] + rest) && Drive(cfg, v, [a] + rest) == Drive(cfg, Act(cfg, v, a), rest)
  {
    hide Act;
    assert ([a] + rest)[1..] == rest;
  }

  lemma SameRest(a: Action, b: Action, rest: seq<Action>)
    requires Alike(a, b)
    ensures AllAlike([a] + rest, [b] + rest)
  {
  }

  /** Exactly: lazy and eager matching agree over a run, against every book that may stand at its
      calls without an advance and every schedule, if and only if nothing is due at any of those
      calls. */
  lemma LazyDriverIsEagerExactly(cfg: Config, v: Venue, actions: seq<Action>)
    requires Sane(v) && Drivable(actions)
    ensures NothingDueAtBare(cfg, v, actions) <==> EagerToo(cfg, v, actions)
  {
    hide NothingDueAtBare, Sane, Drive, DriveEagerly;
    if NothingDueAtBare(cfg, v, actions) {
      forall others: seq<Action>, schedules: seq<seq<int>> | Drivable(others) && AllAlike(actions, others) && Before(others, schedules)
        ensures DriveEagerly(cfg, v, others, schedules) == Drive(cfg, v, actions)
      {
        AlikeDrivesAlike(cfg, v, actions, others);
        LazyDriverIsEager(cfg, v, others, schedules);
      }
    } else {
      var others, schedules := LateCallShows(cfg, v, actions);
      assert DriveEagerly(cfg, v, others, schedules) != Drive(cfg, v, actions);
    }
  }

  /** The eager venue ends as the lazy one, against every such book and schedule. */
  ghost predicate EagerToo(cfg: Config, v: Venue, actions: seq<Action>)
    requires Drivable(actions)
  {
    forall others: seq<Action>, schedules: seq<seq<int>> ::
      Drivable(others) && AllAlike(actions, others) && Before(others, schedules)
      ==> DriveEagerly(cfg, v, others, schedules) == Drive(cfg, v, actions)
  }

  // ---------------------------------------------------------------- when every order takes time to arrive

  /** Orders and settlements as a decision step makes them: at the moment of the advance before, with
      nothing but such calls and cancels in between. `matched` is that moment. */
  ghost predicate InSteps(actions: seq<Action>, matched: Option<int>)
    decreases |actions|
  {
    actions == []
    || (var a := actions[0];
        && (a.Advances() || a.Cancels() || matched == Some(a.now))
        && InSteps(actions[1..], if a.Advances() then Some(a.now) else if matched == Some(a.now) then matched else None))
  }

  /** The delays of every order, its jitter with them, add up to something. */
  ghost predicate Delayed(cfg: Config, actions: seq<Action>) {
    forall i :: 0 <= i < |actions| && actions[i].step.SubmitStep? ==> cfg.latencyMs + actions[i].step.jitter + cfg.takerDelayMs > 0
  }

  /** The guard, asked of the cancels alone. */
  ghost predicate NothingDueAtCancels(cfg: Config, v: Venue, actions: seq<Action>)
    requires Drivable(actions)
    decreases |actions|
  {
    actions == []
    || ((actions[0].Cancels() ==> NothingDue(v, actions[0].now)) && NothingDueAtCancels(cfg, Act(cfg, v, actions[0]), actions[1..]))
  }

  ghost predicate MatchedAt(v: Venue, matched: Option<int>) {
    matched.Some? ==> NothingDue(v, matched.value)
  }

  lemma MatchedAfter(cfg: Config, v: Venue, a: Action, matched: Option<int>)
    requires Sane(v) && a.Legal() && MatchedAt(v, matched) && (a.Advances() || a.Cancels() || matched == Some(a.now))
    requires a.step.SubmitStep? ==> cfg.latencyMs + a.step.jitter + cfg.takerDelayMs > 0
    ensures MatchedAt(Act(cfg, v, a), if a.Advances() then Some(a.now) else if matched == Some(a.now) then matched else None)
  {
    hide Advance, CancelEach, Validate;
    match a.step
    case AdvanceStep(books, now) => NothingLeftDue(cfg, v, books, now);
    case PollStep(books, now) => NothingLeftDue(cfg, v, books, now);
    case CancelAllStep(now) => FewerPending(v, Ids(v.pending), now);
    case _ =>
  }

  lemma NothingLeftDue(cfg: Config, v: Venue, books: Books, now: int)
    requires Sane(v)
    ensures NothingDue(Advance(cfg, v, books, now), now)
  {
    hide Advance;
    AdvanceLeavesNotDue(cfg, v, books, now);
    NotDueElements(v.pending, now);
  }

  lemma {:induction false} FewerPending(v: Venue, ids: seq<OrderId>, now: int)
    ensures forall p :: p in CancelEach(v, ids, now).pending ==> p in v.pending
    decreases |ids|
  {
    if ids != [] {
      FewerPending(Cancel(v, ids[0], now), ids[1..], now);
    }
  }

  lemma {:induction false} OnlyCancelsMeetDueOrders(cfg: Config, v: Venue, actions: seq<Action>, matched: Option<int>)
    requires Sane(v) && Drivable(actions) && InSteps(actions, matched) && Delayed(cfg, actions) && MatchedAt(v, matched)
    ensures NothingDueAtBare(cfg, v, actions) <==> NothingDueAtCancels(cfg, v, actions)
    decreases |actions|
  {
    if actions != [] {
      var a := actions[0];
      var next := if a.Advances() then Some(a.now) else if matched == Some(a.now) then matched else None;
      hide Sane, Act, NothingDue;
      SaneAct(cfg, v, a);
      MatchedAfter(cfg, v, a, matched);
      OnlyCancelsMeetDueOrders(cfg, Act(cfg, v, a), actions[1..], next);
    }
  }

  /** In the replay, with every order delayed, lazy and eager matching agree over a run exactly when
      nothing is due at its cancels. */
  lemma DelayedDriverIsEagerExactly(cfg: Config, v: Venue, actions: seq<Action>)
    requires Sane(v) && Drivable(actions) && InSteps(actions, None) && Delayed(cfg, actions)
    ensures NothingDueAtCancels(cfg, v, actions) <==> EagerToo(cfg, v, actions)
  {
    hide Sane, Drivable, InSteps, Delayed, NothingDueAtBare, NothingDueAtCancels, EagerToo;
    OnlyCancelsMeetDueOrders(cfg, v, actions, None);
    LazyDriverIsEagerExactly(cfg, v, actions);
  }

  // ---------------------------------------------------------------- a run that meets it

  const CALM: Config := Config(5, 0, 0, 1000, 1.0)

  /** A failing input: an order accepted at 0 and due at 5 meets an ask that fills it; the watchdog
      cancels at 10 and nothing is bought, where a venue advanced before the cancel buys for ten
      dollars. */
  lemma DueOrderIsCancelled()
    ensures var (v, ack) := Submit(CALM, Initial(100.0), BUY_T, FREE, 0, 0, false);
      && ack.accepted && v.pending == [Pending(BUY_T, 1, 5, 0.0)]
      && CancelAll(v, 10).cash == 100.0
      && CancelAll(Advance(CALM, v, map["t" := ASKED], 10), 10).cash == 90.0
  {
    hide Advance, CancelEach, MatchBook;
    assert OnTick(0.5, 0.01);
    var p := Pending(BUY_T, 1, 5, 0.0);
    var v := Initial(100.0).(submitted := 1, pending := [p]);
    var books: Books := map["t" := ASKED];
    OneOrder(CALM, v, books, p, 10);
    TenDollarsWorth(v.(pending := []), p);
    CancelCash(v, Ids(v.pending), 10);
    var w := MatchBook(CALM, v.(pending := []), ASKED, p, 5);
    CancelCash(w, Ids(w.pending), 10);
  }

  lemma {:induction false} CancelCash(v: Venue, ids: seq<OrderId>, now: int)
    ensures CancelEach(v, ids, now).cash == v.cash
    decreases |ids|
  {
    if ids != [] {
      CancelCash(Cancel(v, ids[0], now), ids[1..], now);
    }
  }

  lemma TenDollarsWorth(v: Venue, p: Pending)
    requires p == Pending(BUY_T, 1, 5, 0.0) && v.consumed == map[] && v.pending == [] && v.events == []
    ensures MatchBook(CALM, v, ASKED, p, 5).cash == v.cash - 10.0
  {
    hide PlanOf, MatchBook, Available, FillOf, CashDelta;
    TwentyBought(BUY_T);
    BookMatched(CALM, v, map["t" := ASKED], p, Lot(0.5, 20.0), 5);
    TenDollarFill(p);
  }

  lemma TenDollarFill(p: Pending)
    requires p.intent == BUY_T && p.feeRate == 0.0
    ensures CashDelta(FillOf(CALM, p, Lot(0.5, 20.0), 0, 5)) == -10.0
  {
    hide TakerFee;
    TwentyShareFees();
  }
}
