/** The paper exchange as the class it is: fields updated in place, each method proved equal to
    its specification in `PaperVenue`. */
module PaperExchange {
  import opened Decimals
  import opened Domain
  import opened Matching
  import opened PaperVenue

  class PaperExchange {
    const cfg: Config
    var cash: real
    var positions: map<TokenId, real>
    var pending: seq<Pending>
    var events: seq<Event>
    var history: seq<Logged>
    var consumed: map<LevelKey, seq<Use>>
    var submitted: nat

    function State(): Venue
      reads this
    {
      Venue(cash, positions, pending, events, history, consumed, submitted)
    }

    constructor (cfg: Config, initialCash: real)
      ensures this.cfg == cfg && State() == Initial(initialCash)
    {
      this.cfg := cfg;
      cash := initialCash;
      positions, pending, events, history, consumed, submitted := map[], [], [], [], map[], 0;
    }

    method Submit(intent: OrderIntent, market: Market, now: int, jitter: nat, chaos: bool) returns (ack: OrderAck)
      requires market.Valid() && intent.Valid()
      modifies this
      ensures (State(), ack) == PaperVenue.Submit(cfg, old(State()), intent, market, now, jitter, chaos)
    {
      submitted := submitted + 1;
      var refusal := Validate(cfg, State(), intent, market);
      if refusal.Some? || chaos {
        return OrderAck(false, Rejected, None, now);
      }
      var due := now + cfg.latencyMs + jitter + cfg.takerDelayMs;
      pending := pending + [Pending(intent, submitted, due, market.feeRate)];
      ack := OrderAck(true, Live, Some(submitted), now);
    }

    method Cancel(id: OrderId, now: int) returns (cancelled: bool)
      modifies this
      ensures State() == PaperVenue.Cancel(old(State()), id, now)
      ensures cancelled == Find(old(pending), id).Some?
    {
      var i := 0;
      while i < |pending|
        invariant i <= |pending|
        invariant State() == old(State())
        invariant Find(pending, id) == Find(pending[i..], id)
      {
        if pending[i].orderId == id {
          var p := pending[i];
          pending := Without(pending, id);
          Log(p.intent.tokenId, CancelUpdate(p, now));
          return true;
        }
        i := i + 1;
      }
      cancelled := false;
    }

    method CancelAll(now: int) returns (ids: seq<OrderId>)
      modifies this
      ensures ids == Ids(old(pending))
      ensures State() == CancelEach(old(State()), ids, now)
    {
      ids := Ids(pending);
      var i := 0;
      while i < |ids|
        invariant i <= |ids|
        invariant CancelEach(State(), ids[i..], now) == CancelEach(old(State()), ids, now)
      {
        assert ids[i..][0] == ids[i] && ids[i..][1..] == ids[i + 1..];
        var _ := Cancel(ids[i], now);
        i := i + 1;
      }
    }

    method PollEvents(books: Books, now: int) returns (polled: seq<Event>)
      modifies this
      ensures var advanced := PaperVenue.Advance(cfg, old(State()), books, now);
        polled == advanced.events && State() == advanced.(events := [])
    {
      Advance(books, now);
      polled := events;
      events := [];
    }

    method FindOrdersSince(token: TokenId, since: int) returns (found: seq<Event>)
      ensures found == OrdersSince(history, token, since)
    {
      found := [];
      var i := 0;
      while i < |history|
        invariant i <= |history|
        invariant found + OrdersSince(history[i..], token, since) == OrdersSince(history, token, since)
      {
        var entry := history[i];
        assert history[i..][0] == entry && history[i..][1..] == history[i + 1..];
        if entry.token == token && entry.event.TsMs() >= since {
          found := found + [entry.event];
        }
        i := i + 1;
      }
    }

    method Advance(books: Books, now: int)
      modifies this
      ensures State() == PaperVenue.Advance(cfg, old(State()), books, now)
    {
      var due := SortByDue(Due(pending, now));
      var i := 0;
      while i < |due|
        invariant i <= |due|
        invariant MatchAll(cfg, State(), books, due[i..]) == MatchAll(cfg, old(State()), books, due)
      {
        assert due[i..][0] == due[i] && due[i..][1..] == due[i + 1..];
        pending := Without(pending, due[i].orderId);
        Match(books, due[i], due[i].dueMs);
        i := i + 1;
      }
    }

    method AvailableLevels(token: TokenId, side: Side, levels: seq<Level>, now: int) returns (out: seq<Level>)
      modifies this`consumed
      ensures out == Available(old(consumed), token, side, levels, now - cfg.replenishMs)
      ensures consumed == Pruned(old(consumed), token, side, levels, now - cfg.replenishMs)
    {
      hide Pruned, Recent;
      var horizon := now - cfg.replenishMs;
      out := [];
      var i := 0;
      PruneNone(consumed, token, side, levels, horizon);
      while i < |levels|
        invariant i <= |levels|
        invariant out == Available(old(consumed), token, side, levels[..i], horizon)
        invariant consumed == Pruned(old(consumed), token, side, levels[..i], horizon)
      {
        var key := LevelKey(token, side, levels[i].price);
        PruneOne(old(consumed), token, side, levels, i, horizon);
        var recent := Recent(UsesOf(consumed, key), horizon);
        if recent != [] {
          consumed := consumed[key := recent];
        } else {
          consumed := consumed - {key};
        }
        out := out + [Level(levels[i].price, levels[i].size - Used(recent))];
        i := i + 1;
      }
      assert levels[..|levels|] == levels;
    }

    method Match(books: Books, p: Pending, now: int)
      modifies this
      ensures State() == PaperVenue.Match(cfg, old(State()), books, p, now)
    {
      hide BuyWalk, SellWalk, Pruned, Recent, Used, BuyComplete, SellComplete, FillOf;
      var token := p.intent.tokenId;
      if token !in books {
        Log(token, CancelUpdate(p, now));
        return;
      }
      var levels := SideLevels(books[token], p.intent.side);
      var avail := AvailableLevels(token, p.intent.side, levels, now);
      ghost var looked := State();
      MatchIs(cfg, old(State()), books, p, now, avail, looked);
      hide PaperVenue.Match, Available;
      var fills, complete;
      if p.intent.side.Buy? {
        fills, complete := WalkAsks(avail, p.intent.limitPrice, p.intent.quantity);
      } else {
        fills, complete := WalkBids(avail, p.intent.limitPrice, p.intent.quantity);
      }
      if p.intent.orderType.FOK? && !complete {
        fills := [];
      }
      ghost var plan := PlanOf(p.intent, avail);
      assert plan == Plan(fills, complete);
      hide PlanOf, FillLots, FillLot, Shares, FinalUpdate, CancelUpdate, Emit;
      NoLotYet(cfg, looked, p, fills, now);
      FinalIs(p, plan, now);
      if fills == [] {
        Log(token, CancelUpdate(p, now));
        return;
      }
      var cum := 0.0;
      var i := 0;
      while i < |fills|
        invariant i <= |fills|
        invariant State() == FillLots(cfg, looked, p, fills, i, now)
        invariant cum + Shares(fills[i..]) == Shares(fills)
      {
        NextLot(cfg, looked, p, fills, i, now);
        Fill(p, fills[i], i, now);
        cum := cum + fills[i].shares;
        i := i + 1;
      }
      NoShares(fills);
      var status := if complete then Filled else Cancelled;
      Log(token, UpdateEvent(OrderUpdate(p.orderId, Some(p.intent.intentId), status, cum, now)));
    }

    /** The buy loop of a match: up the asks while budget and limit allow. */
    method WalkAsks(levels: seq<Level>, limit: real, amount: real) returns (fills: seq<Lot>, complete: bool)
      requires PricedInRange(levels)
      ensures var w := BuyWalk(levels, limit, amount); fills == w.lots && complete == BuyComplete(w)
    {
      hide FloorTo, Notional, BuyWalk, BuyTake, Prepend;
      fills := [];
      NothingPrepended(BuyWalk(levels, limit, amount));
      assert levels[0..] == levels;
      var budget := amount;
      ghost var goal := BuyWalk(levels, limit, amount);
      var i := 0;
      while i < |levels|
        invariant i <= |levels|
        invariant goal == Prepend(fills, BuyWalk(levels[i..], limit, budget))
      {
        var level := levels[i];
        if level.price > limit || budget <= 0.0 {
          break;
        }
        BuyStep(levels, i, limit, budget);
        TakeIs(level, budget);
        if level.size > 0.0 {
          var take := Min(level.size, FloorTo(budget / level.price, SHARE_LOT));
          if take > 0.0 {
            PrependLot(fills, Lot(level.price, take), BuyWalk(levels[i + 1..], limit, budget - Notional(level.price, take)));
            fills := fills + [Lot(level.price, take)];
            budget := budget - Notional(level.price, take);
          }
        }
        i := i + 1;
      }
      BuyEnd(levels, i, limit, budget);
      LotsOnly(fills, budget);
      complete := fills != [] && budget < fills[|fills| - 1].price * SHARE_LOT;
    }

    /** The sell loop of a match: down the bids while shares and limit allow. */
    method WalkBids(levels: seq<Level>, limit: real, shares: real) returns (fills: seq<Lot>, complete: bool)
      ensures var w := SellWalk(levels, limit, shares); fills == w.lots && complete == SellComplete(w)
    {
      hide SellWalk;
      fills := [];
      var remaining := shares;
      ghost var goal := SellWalk(levels, limit, shares);
      var i := 0;
      while i < |levels|
        invariant i <= |levels|
        invariant goal == Prepend(fills, SellWalk(levels[i..], limit, remaining))
      {
        var level := levels[i];
        if level.price < limit || remaining <= 0.0 {
          break;
        }
        SellStep(levels, i, limit, remaining);
        if level.size > 0.0 {
          var take := Min(level.size, remaining);
          PrependLot(fills, Lot(level.price, take), SellWalk(levels[i + 1..], limit, remaining - take));
          fills := fills + [Lot(level.price, take)];
          remaining := remaining - take;
        }
        i := i + 1;
      }
      SellEnd(levels, i, limit, remaining);
      complete := remaining <= 0.0;
    }

    method Fill(p: Pending, lot: Lot, index: nat, now: int)
      modifies this
      ensures State() == FillLot(cfg, old(State()), p, lot, index, now)
    {
      var token := p.intent.tokenId;
      var fill := FillOf(cfg, p, lot, index, now);
      consumed := Consume(consumed, LevelKey(token, p.intent.side, lot.price), Use(now, lot.shares));
      var held := if token in positions then positions[token] else 0.0;
      if p.intent.side.Buy? {
        cash := cash - (Notional(lot.price, lot.shares) + fill.fee);
        positions := positions[token := held + lot.shares];
      } else {
        cash := cash + (Notional(lot.price, lot.shares) - fill.fee);
        positions := positions[token := held - lot.shares];
      }
      Log(token, FillEvent(fill));
    }

    method Settle(winner: TokenId, loser: TokenId) returns (payout: real)
      modifies this
      ensures State() == PaperVenue.Settle(old(State()), winner, loser)
      ensures payout == old(State()).Held(winner)
    {
      payout := if winner in positions then positions[winner] else 0.0;
      positions := positions - {winner} - {loser};
      cash := cash + payout;
    }

    method Log(token: TokenId, event: Event)
      modifies this`events, this`history
      ensures State() == Emit(old(State()), token, event)
    {
      events := events + [event];
      history := history + [Logged(token, event)];
    }
  }

  lemma NoLotYet(cfg: Config, v: Venue, p: Pending, lots: seq<Lot>, now: int)
    ensures FillLots(cfg, v, p, lots, 0, now) == v
    ensures lots[0..] == lots
  {
  }

  lemma FinalIs(p: Pending, plan: Plan, now: int)
    ensures plan.lots == [] ==> FinalUpdate(p, plan, now) == CancelUpdate(p, now)
    ensures plan.lots != [] ==>
      FinalUpdate(p, plan, now)
        == UpdateEvent(OrderUpdate(p.orderId, Some(p.intent.intentId), if plan.complete then Filled else Cancelled, Shares(plan.lots), now))
  {
  }

  lemma NextLot(cfg: Config, v: Venue, p: Pending, lots: seq<Lot>, i: nat, now: int)
    requires i < |lots|
    ensures FillLots(cfg, v, p, lots, i + 1, now) == FillLot(cfg, FillLots(cfg, v, p, lots, i, now), p, lots[i], i, now)
    ensures Shares(lots[i..]) == lots[i].shares + Shares(lots[i + 1..])
  {
    assert lots[i..][0] == lots[i] && lots[i..][1..] == lots[i + 1..];
  }

  lemma NoShares(lots: seq<Lot>)
    ensures Shares(lots[|lots|..]) == 0.0
  {
  }

  /** A match on a book looks at its levels, books the planned lots and logs one update. */
  lemma MatchIs(cfg: Config, v: Venue, books: Books, p: Pending, now: int, avail: seq<Level>, looked: Venue)
    requires p.intent.tokenId in books
    requires var levels := SideLevels(books[p.intent.tokenId], p.intent.side);
      && avail == Available(v.consumed, p.intent.tokenId, p.intent.side, levels, now - cfg.replenishMs)
      && looked == v.(consumed := Pruned(v.consumed, p.intent.tokenId, p.intent.side, levels, now - cfg.replenishMs))
    ensures PricedInRange(avail)
    ensures var plan := PlanOf(p.intent, avail);
      PaperVenue.Match(cfg, v, books, p, now)
        == Emit(FillLots(cfg, looked, p, plan.lots, |plan.lots|, now), p.intent.tokenId, FinalUpdate(p, plan, now))
  {
    hide PlanOf, FillLots, Pruned, FinalUpdate;
  }

  // ---------------------------------------------------------------- one level of a walk

  ghost function Prepend(lots: seq<Lot>, w: Walk): Walk {
    Walk(lots + w.lots, w.left)
  }

  lemma PrependLot(lots: seq<Lot>, lot: Lot, w: Walk)
    ensures Prepend(lots, Walk([lot] + w.lots, w.left)) == Prepend(lots + [lot], w)
  {
  }

  lemma NothingPrepended(w: Walk)
    ensures Prepend([], w) == w
  {
    assert [] + w.lots == w.lots;
  }

  lemma LotsOnly(lots: seq<Lot>, left: real)
    ensures Prepend(lots, Walk([], left)) == Walk(lots, left)
  {
    assert lots + [] == lots;
  }

  lemma TakeIs(level: Level, budget: real)
    requires level.price > 0.0
    ensures BuyTake(level, budget) == Min(level.size, FloorTo(budget / level.price, SHARE_LOT))
    ensures BuyTake(level, budget) > 0.0 ==> level.size > 0.0
  {
  }

  lemma BuyStep(levels: seq<Level>, i: nat, limit: real, budget: real)
    requires PricedInRange(levels) && i < |levels|
    requires levels[i].price <= limit && budget > 0.0
    ensures var take := BuyTake(levels[i], budget);
      BuyWalk(levels[i..], limit, budget) ==
        if levels[i].size <= 0.0 || take <= 0.0 then BuyWalk(levels[i + 1..], limit, budget)
        else
          var rest := BuyWalk(levels[i + 1..], limit, budget - Notional(levels[i].price, take));
          Walk([Lot(levels[i].price, take)] + rest.lots, rest.left)
  {
    hide BuyTake, Notional;
    assert levels[i..][1..] == levels[i + 1..];
  }

  lemma BuyEnd(levels: seq<Level>, i: nat, limit: real, budget: real)
    requires PricedInRange(levels) && i <= |levels|
    requires i < |levels| ==> levels[i].price > limit || budget <= 0.0
    ensures BuyWalk(levels[i..], limit, budget) == Walk([], budget)
  {
  }

  lemma SellStep(levels: seq<Level>, i: nat, limit: real, remaining: real)
    requires i < |levels| && levels[i].price >= limit && remaining > 0.0
    ensures var take := Min(levels[i].size, remaining);
      SellWalk(levels[i..], limit, remaining) ==
        if levels[i].size <= 0.0 then SellWalk(levels[i + 1..], limit, remaining)
        else
          var rest := SellWalk(levels[i + 1..], limit, remaining - take);
          Walk([Lot(levels[i].price, take)] + rest.lots, rest.left)
  {
    assert levels[i..][1..] == levels[i + 1..];
  }

  lemma SellEnd(levels: seq<Level>, i: nat, limit: real, remaining: real)
    requires i <= |levels|
    requires i < |levels| ==> levels[i].price < limit || remaining <= 0.0
    ensures SellWalk(levels[i..], limit, remaining) == Walk([], remaining)
  {
  }

  // ---------------------------------------------------------------- pruning one level at a time

  lemma {:induction false} RecentTwice(uses: seq<Use>, earlier: int, horizon: int)
    requires earlier <= horizon
    ensures Recent(Recent(uses, earlier), horizon) == Recent(uses, horizon)
  {
    if uses != [] {
      RecentTwice(uses[1..], earlier, horizon);
    }
  }

  lemma PruneNone(consumed: map<LevelKey, seq<Use>>, token: TokenId, side: Side, levels: seq<Level>, horizon: int)
    ensures Pruned(consumed, token, side, levels[..0], horizon) == consumed
  {
  }

  lemma PruneOne(consumed: map<LevelKey, seq<Use>>, token: TokenId, side: Side, levels: seq<Level>, i: nat, horizon: int)
    requires i < |levels|
    ensures var key := LevelKey(token, side, levels[i].price);
      var before := Pruned(consumed, token, side, levels[..i], horizon);
      var recent := Recent(UsesOf(before, key), horizon);
      && recent == Recent(UsesOf(consumed, key), horizon)
      && Pruned(consumed, token, side, levels[..i + 1], horizon)
           == (if recent != [] then before[key := recent] else before - {key})
  {
    var key := LevelKey(token, side, levels[i].price);
    var before := Pruned(consumed, token, side, levels[..i], horizon);
    RecentTwice(UsesOf(consumed, key), horizon, horizon);
    assert levels[..i + 1][i].price == key.price;
    forall k: LevelKey
      ensures Touched(k, token, side, levels[..i + 1]) <==> Touched(k, token, side, levels[..i]) || k == key
    {
      if Touched(k, token, side, levels[..i + 1]) {
        var j :| 0 <= j < i + 1 && levels[..i + 1][j].price == k.price;
        assert j < i ==> levels[..i][j].price == k.price;
      }
      if Touched(k, token, side, levels[..i]) {
        var j :| 0 <= j < i && levels[..i][j].price == k.price;
        assert levels[..i + 1][j].price == k.price;
      }
    }
  }
}
