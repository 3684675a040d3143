/** Reading the venue's history: the events of one order, and what the fills not yet delivered
    to the engine are worth. */
module Histories {
  import opened Domain
  import opened PaperVenue
  import opened MatchBlocks
  import opened Sums

  /** One order's own events, in the order the venue emitted them. */
  function StreamOf(history: seq<Logged>, id: IntentId): seq<Event> {
    if history == [] then []
    else
      var last := history[|history| - 1].event;
      StreamOf(history[..|history| - 1], id) + if last.IntentId() == Some(id) then [last] else []
  }

  lemma {:induction false} StreamAppend(history: seq<Logged>, more: seq<Logged>, id: IntentId)
    ensures StreamOf(history + more, id) == StreamOf(history, id) + StreamOf(more, id)
    decreases |more|
  {
    if more == [] {
      assert history + more == history;
      assert StreamOf(history, id) + [] == StreamOf(history, id);
    } else {
      var n := |more| - 1;
      StreamAppend(history, more[..n], id);
      assert (history + more)[..|history| + n] == history + more[..n];
    }
  }

  lemma {:induction false} StreamOfBlock(token: TokenId, block: seq<Event>, owner: IntentId, id: IntentId)
    requires forall i :: 0 <= i < |block| ==> block[i].IntentId() == Some(owner)
    ensures StreamOf(LogAll(token, block), id) == if id == owner then block else []
    decreases |block|
  {
    if block != [] {
      var n := |block| - 1;
      StreamOfBlock(token, block[..n], owner, id);
      assert LogAll(token, block)[..n] == LogAll(token, block[..n]);
      assert block[..n] + [block[n]] == block;
    }
  }

  /** Every history entry sits in its order's stream, after the order's earlier entries. */
  lemma {:induction false} EntryInStream(history: seq<Logged>, q: nat, id: IntentId)
    requires q < |history| && history[q].event.IntentId() == Some(id)
    ensures var j := |StreamOf(history[..q], id)|;
      j < |StreamOf(history, id)| && StreamOf(history, id)[j] == history[q].event
    ensures StreamOf(history[..q + 1], id) == StreamOf(history[..q], id) + [history[q].event]
  {
    assert history[..q + 1][..q] == history[..q];
    assert history == history[..q + 1] + history[q + 1..];
    StreamAppend(history[..q + 1], history[q + 1..], id);
  }

  lemma StreamSkips(history: seq<Logged>, q: nat, id: IntentId)
    requires q < |history| && history[q].event.IntentId() != Some(id)
    ensures StreamOf(history[..q + 1], id) == StreamOf(history[..q], id)
  {
    assert history[..q + 1][..q] == history[..q];
  }

  /** Every event of a stream comes from some history entry. */
  lemma {:induction false} StreamFromHistory(history: seq<Logged>, id: IntentId, j: nat)
    requires j < |StreamOf(history, id)|
    ensures exists q :: 0 <= q < |history| && history[q].event == StreamOf(history, id)[j] && history[q].event.IntentId() == Some(id)
    decreases |history|
  {
    var n := |history| - 1;
    if j < |StreamOf(history[..n], id)| {
      StreamFromHistory(history[..n], id, j);
      var q :| 0 <= q < n && history[..n][q].event == StreamOf(history[..n], id)[j] && history[..n][q].event.IntentId() == Some(id);
      assert history[q] == history[..n][q];
    } else {
      assert history[n].event == StreamOf(history, id)[j];
    }
  }

  lemma {:induction false} StreamIsEmpty(history: seq<Logged>, id: IntentId)
    requires forall q :: 0 <= q < |history| ==> history[q].event.IntentId() != Some(id)
    ensures StreamOf(history, id) == []
  {
    if history != [] {
      StreamIsEmpty(history[..|history| - 1], id);
    }
  }

  // ---------------------------------------------------------------- undelivered fills

  /** Total of `g` over the fills in the history that are not among `seen`. */
  function Undelivered(history: seq<Logged>, seen: set<FillId>, g: Fill -> real): real {
    if history == [] then 0.0
    else
      var last := history[|history| - 1].event;
      Undelivered(history[..|history| - 1], seen, g)
        + if last.FillEvent? && last.fill.fillId !in seen then g(last.fill) else 0.0
  }

  function SharesIn(token: TokenId): Fill -> real {
    (f: Fill) => if f.tokenId == token then ShareDelta(f) else 0.0
  }

  ghost predicate DistinctFills(history: seq<Logged>) {
    forall i, j :: 0 <= i < j < |history| && history[i].event.FillEvent? && history[j].event.FillEvent? ==>
      history[i].event.fill.fillId != history[j].event.fill.fillId
  }

  ghost function Worth(ev: Event, g: Fill -> real): real {
    if ev.FillEvent? then g(ev.fill) else 0.0
  }

  ghost function WorthAll(events: seq<Event>, g: Fill -> real): real {
    if events == [] then 0.0 else WorthAll(events[..|events| - 1], g) + Worth(events[|events| - 1], g)
  }

  lemma {:induction false} UndeliveredAppend(history: seq<Logged>, token: TokenId, block: seq<Event>, seen: set<FillId>, g: Fill -> real)
    requires forall i :: 0 <= i < |block| && block[i].FillEvent? ==> block[i].fill.fillId !in seen
    ensures Undelivered(history + LogAll(token, block), seen, g) == Undelivered(history, seen, g) + WorthAll(block, g)
    decreases |block|
  {
    if block == [] {
      assert history + LogAll(token, block) == history;
    } else {
      var n := |block| - 1;
      var all := history + LogAll(token, block);
      UndeliveredAppend(history, token, block[..n], seen, g);
      assert all[..|all| - 1] == history + LogAll(token, block[..n]);
      assert all[|all| - 1] == Logged(token, block[n]);
    }
  }

  lemma {:induction false} SeenElsewhere(history: seq<Logged>, seen: set<FillId>, id: FillId, g: Fill -> real)
    requires forall i :: 0 <= i < |history| && history[i].event.FillEvent? ==> history[i].event.fill.fillId != id
    ensures Undelivered(history, seen + {id}, g) == Undelivered(history, seen, g)
  {
    if history != [] {
      SeenElsewhere(history[..|history| - 1], seen, id, g);
    }
  }

  /** Delivering one fill takes exactly its worth out of what is undelivered. */
  lemma {:induction false} DeliverOneFill(history: seq<Logged>, q: nat, seen: set<FillId>, g: Fill -> real)
    requires DistinctFills(history) && q < |history| && history[q].event.FillEvent?
    requires history[q].event.fill.fillId !in seen
    ensures Undelivered(history, seen + {history[q].event.fill.fillId}, g)
      == Undelivered(history, seen, g) - g(history[q].event.fill)
    decreases |history|
  {
    var n := |history| - 1;
    if q == n {
      SeenElsewhere(history[..n], seen, history[q].event.fill.fillId, g);
    } else {
      DeliverOneFill(history[..n], q, seen, g);
    }
  }

  lemma {:induction false} NothingUndelivered(history: seq<Logged>, seen: set<FillId>, g: Fill -> real)
    requires forall q :: 0 <= q < |history| && history[q].event.FillEvent? && history[q].event.fill.fillId !in seen ==>
      g(history[q].event.fill) == 0.0
    ensures Undelivered(history, seen, g) == 0.0
  {
    if history != [] {
      NothingUndelivered(history[..|history| - 1], seen, g);
    }
  }

  /** The worth of a block to the venue's books. */
  lemma {:induction false} BlockWorth(block: seq<Event>, token: TokenId, t: TokenId)
    requires forall i :: 0 <= i < |block| && block[i].FillEvent? ==> block[i].fill.tokenId == token
    ensures WorthAll(block, CashDelta) == Sum(CashOf, block)
    ensures WorthAll(block, SharesIn(t)) == if t == token then Sum(SharesDeltaOf, block) else 0.0
    decreases |block|
  {
    if block != [] {
      var n := |block| - 1;
      BlockWorth(block[..n], token, t);
      SumLast(CashOf, block[..n], block[n]);
      SumLast(SharesDeltaOf, block[..n], block[n]);
      assert block[..n] + [block[n]] == block;
    }
  }
}
