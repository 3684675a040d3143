/** The paper venue's single operations as someone trading there would put them: what a level shows
    to an order, what each fill costs, what fill-or-kill means, and what a cancellation does. */
module VenueTerms {
  import opened Decimals
  import opened Domain
  import opened Matching
  import opened PaperVenue
  import opened VenueRuns
  import opened MatchBlocks
  import DecisionStep

  // ---------------------------------------------------------------- what a level shows

  /** Shares we took at a level after `since`, by the fills in the history. */
  function TakenSince(history: seq<Logged>, key: LevelKey, since: int): real {
    if history == [] then 0.0
    else
      var last := history[|history| - 1].event;
      TakenSince(history[..|history| - 1], key, since)
        + if last.FillEvent? && last.fill.tokenId == key.token && last.fill.side == key.side && last.fill.price == key.price
             && last.fill.tsMs > since
          then last.fill.shares else 0.0
  }

  lemma {:induction false} UsesAreTaken(history: seq<Logged>, key: LevelKey, since: int)
    ensures Used(Recent(FullUses(history, key), since)) == TakenSince(history, key, since)
  {
    if history != [] {
      var before, last := history[..|history| - 1], history[|history| - 1];
      UsesAreTaken(before, key, since);
      var use := if FillAt(last, key) then [Use(last.event.fill.tsMs, last.event.fill.shares)] else [];
      RecentAppend(FullUses(before, key), use, since);
      UsedAppend(Recent(FullUses(before, key), since), Recent(use, since));
      OneUse(use, since);
    }
  }

  lemma OneUse(uses: seq<Use>, since: int)
    requires |uses| <= 1
    ensures Used(Recent(uses, since)) == if uses != [] && uses[0].tsMs > since then uses[0].size else 0.0
  {
    if uses != [] {
      assert uses[1..] == [];
      RecentFirst(uses, since);
    }
  }

  /** In every state a run reaches, an order arriving at `now` is matched against each level's
      displayed size less what we took there in the last `replenishMs` milliseconds, all our fills
      counted. */
  lemma LevelShows(cfg: Config, cash: real, start: int, steps: seq<Step>, token: TokenId, side: Side, levels: seq<Level>, now: int, i: nat)
    requires LegalRun(start, steps) && Run(cfg, Initial(cash), start, steps).1 <= now && i < |levels|
    ensures var v := Run(cfg, Initial(cash), start, steps).0;
      var shown := Available(v.consumed, token, side, levels, now - cfg.replenishMs);
      && |shown| == |levels| && shown[i].price == levels[i].price
      && shown[i].size == levels[i].size - TakenSince(v.history, LevelKey(token, side, levels[i].price), now - cfg.replenishMs)
  {
    hide Recent, FullUses, Run, LegalRun;
    var key := LevelKey(token, side, levels[i].price);
    PrunedRecordIsExact(cfg, cash, start, steps, key, now);
    UsesAreTaken(Run(cfg, Initial(cash), start, steps).0.history, key, now - cfg.replenishMs);
  }

  // ---------------------------------------------------------------- what a fill costs

  /** A taker fee in the venue's terms: the rate on price times its complement, for all the shares,
      rounded up to the next hundred-thousandth, times the venue's multiplier. */
  lemma FeeOfFill(cfg: Config, p: Pending, lot: Lot, index: nat, now: int)
    requires 0.0 < lot.price < 1.0
    ensures var f := FillOf(cfg, p, lot, index, now);
      var raw := lot.shares * (p.feeRate * (lot.price * (1.0 - lot.price)));
      && (exists fee :: OnGrid(fee, 0.00001) && raw <= fee < raw + 0.00001 && f.fee == fee * cfg.feeMult)
      && f.price == lot.price && f.shares == lot.shares && f.tsMs == now && f.side == p.intent.side && f.tokenId == p.intent.tokenId
      && f.intentId == Some(p.intent.intentId) && f.exchangeOrderId == Some(p.orderId)
      && f.conditionId == p.intent.conditionId && f.outcome == p.intent.outcome
  {
    hide TakerFee;
    RoundedUpFee(p.feeRate, lot.shares, lot.price);
  }

  lemma RoundedUpFee(rate: real, shares: real, price: real)
    requires 0.0 < price < 1.0
    ensures var fee, raw := TakerFee(rate, shares, price), shares * (rate * (price * (1.0 - price)));
      OnGrid(fee, 0.00001) && raw <= fee < raw + 0.00001
  {
    hide CeilTo, OnGrid;
    var raw := shares * FeeRateAt(rate, price);
    assert raw == shares * (rate * (price * (1.0 - price)));
    RoundedOnGrid(raw, 0.00001);
  }

  // ---------------------------------------------------------------- fill or kill

  /** A fill-or-kill order is filled to its last cent of a lot, or not at all: what it buys leaves
      less than one lot at its last price, what it sells is everything. */
  lemma AllOrNothing(cfg: Config, v: Venue, books: Books, p: Pending, now: int)
    requires p.intent.Valid() && p.intent.orderType.FOK?
    ensures var lots := PlanAt(cfg, v, books, p, now).lots;
      lots != [] ==>
        if p.intent.side.Sell? then Shares(lots) == p.intent.quantity
        else p.intent.quantity - Spent(lots) < lots[|lots| - 1].price * 0.01
  {
    if p.intent.tokenId in books {
      var levels := Available(v.consumed, p.intent.tokenId, p.intent.side, SideLevels(books[p.intent.tokenId], p.intent.side),
                              now - cfg.replenishMs);
      if p.intent.side.Buy? {
        BuyWalkKeeps(levels, p.intent.limitPrice, p.intent.quantity);
      } else {
        SellWalkKeeps(levels, p.intent.limitPrice, p.intent.quantity);
      }
    }
  }

  /** Any other order keeps whatever the walk got it. */
  lemma PartialFillsStand(cfg: Config, v: Venue, books: Books, p: Pending, now: int)
    requires p.intent.Valid() && !p.intent.orderType.FOK? && p.intent.tokenId in books
    ensures var levels := Available(v.consumed, p.intent.tokenId, p.intent.side, SideLevels(books[p.intent.tokenId], p.intent.side),
                                    now - cfg.replenishMs);
      PlanAt(cfg, v, books, p, now).lots == WalkOf(p.intent, levels).lots
  {
  }

  // ---------------------------------------------------------------- cancellation

  lemma {:induction false} WithoutOne(before: seq<Pending>, p: Pending, behind: seq<Pending>)
    requires forall q :: q in before || q in behind ==> q.orderId != p.orderId
    ensures Without(before + [p] + behind, p.orderId) == before + behind
  {
    hide Without;
    if before == [] {
      assert before + [p] + behind == [p] + behind && before + behind == behind;
      DecisionStep.WithoutFirst(p, behind, p.orderId);
      DecisionStep.NobodyGone(behind, p.orderId);
    } else {
      var first, rest := before[0], before[1..];
      WithoutOne(rest, p, behind);
      assert before + [p] + behind == [first] + (rest + [p] + behind) && before + behind == [first] + (rest + behind);
      DecisionStep.WithoutFirst(first, rest + [p] + behind, p.orderId);
    }
  }

  /** Cancelling a pending order takes it out of the queue, the others staying in order, and reports
      it CANCELLED with nothing filled; it moves no money. Any other id changes nothing. */
  lemma CancelledExactly(v: Venue, k: nat, id: OrderId, now: int)
    requires DistinctIds(v.pending)
    ensures (forall i :: 0 <= i < |v.pending| ==> v.pending[i].orderId != id) ==> Cancel(v, id, now) == v
    ensures k < |v.pending| && v.pending[k].orderId == id ==>
      var ev := UpdateEvent(OrderUpdate(id, Some(v.pending[k].intent.intentId), Cancelled, 0.0, now));
      Cancel(v, id, now)
        == v.(pending := v.pending[..k] + v.pending[k + 1..], events := v.events + [ev],
              history := v.history + [Logged(v.pending[k].intent.tokenId, ev)])
  {
    if k < |v.pending| && v.pending[k].orderId == id {
      assert v.pending == v.pending[..k] + [v.pending[k]] + v.pending[k + 1..];
      WithoutOne(v.pending[..k], v.pending[k], v.pending[k + 1..]);
      assert v.pending[k] in v.pending;
    }
  }
}
