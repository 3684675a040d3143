/** What one accounting operation does to cash and to the shares of each token. */
module LedgerFacts {
  import opened Domain
  import opened Matching
  import opened Accounting
  import opened PaperVenue

  lemma {:induction false} IndexIs(positions: seq<Position>, token: TokenId, i: nat)
    requires Distinct(positions) && i < |positions| && positions[i].tokenId == token
    ensures IndexOf(positions, token) == i
  {
  }

  lemma SharesAt(positions: seq<Position>, token: TokenId, i: nat)
    requires Distinct(positions) && i < |positions| && positions[i].tokenId == token
    ensures SharesOf(positions, token) == positions[i].shares
  {
    IndexIs(positions, token, i);
  }

  lemma SharesAbsent(positions: seq<Position>, token: TokenId)
    requires forall i :: 0 <= i < |positions| ==> positions[i].tokenId != token
    ensures SharesOf(positions, token) == 0.0
  {
  }

  lemma SharesNonNegative(l: Ledger, token: TokenId)
    requires WellKept(l)
    ensures SharesOf(l.positions, token) >= 0.0
  {
  }

  lemma SharesReplaced(positions: seq<Position>, i: nat, p: Position, t: TokenId)
    requires Distinct(positions) && i < |positions| && p.tokenId == positions[i].tokenId
    ensures Distinct(positions[i := p])
    ensures SharesOf(positions[i := p], t) == if t == p.tokenId then p.shares else SharesOf(positions, t)
  {
    var after := positions[i := p];
    assert forall j :: 0 <= j < |positions| ==> after[j].tokenId == positions[j].tokenId;
    var j := IndexOf(positions, t);
    if j < |positions| {
      IndexIs(after, t, j);
      IndexIs(positions, p.tokenId, i);
    } else {
      SharesAbsent(after, t);
    }
  }

  lemma SharesDropped(positions: seq<Position>, i: nat, t: TokenId)
    requires Distinct(positions) && i < |positions|
    ensures Distinct(Drop(positions, i))
    ensures SharesOf(Drop(positions, i), t) == if t == positions[i].tokenId then 0.0 else SharesOf(positions, t)
  {
    var after := Drop(positions, i);
    var j := IndexOf(positions, t);
    if t == positions[i].tokenId {
      SharesAbsent(after, t);
    } else if j < |positions| {
      var k := if j < i then j else j - 1;
      assert after[k] == positions[j];
      IndexIs(after, t, k);
    } else {
      SharesAbsent(after, t);
    }
  }

  lemma SharesAppended(positions: seq<Position>, p: Position, t: TokenId)
    requires Distinct(positions) && !Has(positions, p.tokenId)
    ensures Distinct(positions + [p])
    ensures SharesOf(positions + [p], t) == if t == p.tokenId then p.shares else SharesOf(positions, t)
  {
    var after := positions + [p];
    var j := IndexOf(positions, t);
    if j < |positions| {
      IndexIs(after, t, j);
    } else if t == p.tokenId {
      IndexIs(after, t, |positions|);
    } else {
      SharesAbsent(after, t);
    }
  }

  /** An accepted fill moves cash and shares by exactly what the venue moved them. */
  lemma FillMoves(l: Ledger, f: Fill, t: TokenId)
    requires WellKept(l) && f.Valid() && ApplyFill(l, f).Ok?
    ensures var l' := ApplyFill(l, f).value;
      && l'.cash == l.cash + CashDelta(f) && l'.feesPaid == l.feesPaid + f.fee
      && SharesOf(l'.positions, t) == SharesOf(l.positions, t) + if t == f.tokenId then ShareDelta(f) else 0.0
  {
    hide Notional, CostRemoved;
    var i := IndexOf(l.positions, f.tokenId);
    if f.side.Buy? {
      if i < |l.positions| {
        SharesReplaced(l.positions, i, Bought(l.positions[i], f), t);
      } else {
        SharesAppended(l.positions, Bought(Opened(f), f), t);
      }
    } else {
      var p := Sold(l.positions[i], f);
      SharesReplaced(l.positions, i, p, t);
      SharesDropped(l.positions[i := p], i, t);
    }
  }

  lemma FillKeepsWell(l: Ledger, f: Fill)
    requires WellKept(l) && f.Valid() && ApplyFill(l, f).Ok?
    ensures WellKept(ApplyFill(l, f).value)
    ensures forall p :: p in ApplyFill(l, f).value.positions ==>
      (p.tokenId == f.tokenId && p.conditionId == f.conditionId && p.outcome == f.outcome)
      || exists q :: q in l.positions && p.tokenId == q.tokenId && p.conditionId == q.conditionId && p.outcome == q.outcome
  {
    WellKeptStep(l, FillOp(f));
    hide Notional, CostRemoved;
    var i := IndexOf(l.positions, f.tokenId);
    if i < |l.positions| {
      DropKeeps(l.positions, i);
    }
  }

  /** When a fill is accepted. */
  lemma FillAccepted(l: Ledger, f: Fill)
    requires WellKept(l) && f.Valid()
    requires if f.side.Buy? then BuyCost(f) <= l.cash else f.shares <= SharesOf(l.positions, f.tokenId)
    ensures ApplyFill(l, f).Ok?
  {
  }

  function CostAt(positions: seq<Position>, token: TokenId): real {
    if Has(positions, token) then positions[IndexOf(positions, token)].cost else 0.0
  }

  lemma CostOfMember(positions: seq<Position>, token: TokenId, i: nat)
    requires Distinct(positions) && i < |positions| && positions[i].tokenId == token
    ensures CostAt(positions, token) == positions[i].cost && SharesOf(positions, token) == positions[i].shares
  {
    IndexIs(positions, token, i);
  }

  lemma NoneOfToken(positions: seq<Position>, i: nat)
    requires Distinct(positions) && i < |positions|
    ensures CostAt(Drop(positions, i), positions[i].tokenId) == 0.0 && SharesOf(Drop(positions, i), positions[i].tokenId) == 0.0
  {
  }

  /** A buy is refused only beyond the cash and a millionth, and costs its notional and fee, all of it
      into the position's cost. */
  lemma BuyBooks(l: Ledger, f: Fill)
    requires WellKept(l) && f.Valid() && f.side.Buy?
    ensures ApplyFill(l, f).Ok? <==> f.price * f.shares + f.fee <= l.cash + 0.000001
    ensures ApplyFill(l, f).Ok? ==>
      var l' := ApplyFill(l, f).value;
      && l'.cash == l.cash - (f.price * f.shares + f.fee) && l'.realized == l.realized && l'.closed == l.closed
      && CostAt(l'.positions, f.tokenId) == CostAt(l.positions, f.tokenId) + f.price * f.shares + f.fee
      && SharesOf(l'.positions, f.tokenId) == SharesOf(l.positions, f.tokenId) + f.shares
  {
    var i := IndexOf(l.positions, f.tokenId);
    var paid := f.price * f.shares + f.fee;
    assert BuyCost(f) == paid;
    hide BuyCost;
    if paid <= l.cash + 0.000001 {
      var after := ApplyFill(l, f).value.positions;
      FillKeepsWell(l, f);
      CostOfMember(after, f.tokenId, i);
    }
  }

  function PartOf(cost: real, sold: real, held: real): real
    requires held > 0.0
  {
    cost * sold / held
  }

  /** A sale is refused only beyond what is held. It brings in its notional less the fee; the cost that
      leaves is all of it with the last share, and otherwise the pro-rata part to half a
      ten-billionth; the difference is what was realised. */
  lemma SaleBooks(l: Ledger, f: Fill) returns (removed: real)
    requires WellKept(l) && f.Valid() && f.side.Sell?
    ensures ApplyFill(l, f).Ok? <==> f.shares <= SharesOf(l.positions, f.tokenId)
    ensures ApplyFill(l, f).Ok? ==>
      var l' := ApplyFill(l, f).value;
      && l'.cash == l.cash + f.price * f.shares - f.fee
      && l'.realized == l.realized + f.price * f.shares - f.fee - removed
      && CostAt(l'.positions, f.tokenId) == CostAt(l.positions, f.tokenId) - removed
      && SharesOf(l'.positions, f.tokenId) == SharesOf(l.positions, f.tokenId) - f.shares
      && (f.shares == SharesOf(l.positions, f.tokenId) ==> removed == CostAt(l.positions, f.tokenId) && |l'.closed| == |l.closed| + 1)
      && (f.shares < SharesOf(l.positions, f.tokenId) ==>
           && l'.closed == l.closed
           && var part := PartOf(CostAt(l.positions, f.tokenId), f.shares, SharesOf(l.positions, f.tokenId));
              part - 0.00000000005 <= removed <= part + 0.00000000005)
  {
    hide *;
    removed := 0.0;
    ValidSale(l, f);
    SaleTaken(l, f);
    if f.shares <= SharesOf(l.positions, f.tokenId) {
      var i := HeldAt(l.positions, f.tokenId);
      CostOfMember(l.positions, f.tokenId, i);
      removed := CostRemoved(l.positions[i], f.shares);
      SaleMoves(l, f, i);
      Brought(f);
      if f.shares < l.positions[i].shares {
        PartCostRemoved(l.positions[i], f.shares);
      } else {
        AllCostRemoved(l.positions[i], f.shares);
      }
    }
  }

  lemma ValidSale(l: Ledger, f: Fill)
    requires WellKept(l) && f.Valid()
    ensures f.shares > 0.0 && Distinct(l.positions)
  {
  }

  lemma SaleTaken(l: Ledger, f: Fill)
    requires WellKept(l) && f.Valid() && f.side.Sell?
    ensures ApplyFill(l, f).Ok? <==> f.shares <= SharesOf(l.positions, f.tokenId)
  {
  }

  lemma HeldAt(positions: seq<Position>, token: TokenId) returns (i: nat)
    requires SharesOf(positions, token) > 0.0
    ensures i < |positions| && positions[i].tokenId == token && i == IndexOf(positions, token)
    ensures SharesOf(positions, token) == positions[i].shares
  {
    i := IndexOf(positions, token);
  }

  lemma Brought(f: Fill)
    ensures Proceeds(f) == f.price * f.shares - f.fee
  {
  }

  /** What an accepted sale leaves, in terms of the cost that goes with it. */
  lemma SaleMoves(l: Ledger, f: Fill, i: nat)
    requires WellKept(l) && f.Valid() && f.side.Sell? && i < |l.positions| && i == IndexOf(l.positions, f.tokenId)
    requires l.positions[i].tokenId == f.tokenId && f.shares <= l.positions[i].shares && ApplyFill(l, f).Ok?
    ensures var l', removed := ApplyFill(l, f).value, CostRemoved(l.positions[i], f.shares);
      && l'.cash == l.cash + Proceeds(f) && l'.realized == l.realized + Proceeds(f) - removed
      && SharesOf(l'.positions, f.tokenId) == l.positions[i].shares - f.shares
      && (f.shares < l.positions[i].shares ==> l'.closed == l.closed && CostAt(l'.positions, f.tokenId) == l.positions[i].cost - removed)
      && (f.shares == l.positions[i].shares ==> |l'.closed| == |l.closed| + 1 && CostAt(l'.positions, f.tokenId) == 0.0)
  {
    hide Proceeds, CostRemoved;
    var p := Sold(l.positions[i], f);
    var changed := l.positions[i := p];
    assert Distinct(changed);
    CostOfMember(changed, f.tokenId, i);
    NoneOfToken(changed, i);
  }

  /** What a position has brought in so far: what it realised and what it cost, less the cost still in it. */
  function BroughtSoFar(p: Position): real {
    p.realized + p.entryCost - p.cost
  }

  /** A buy adds to what the position cost and to nothing it brought in. */
  lemma BuyAddsToEntry(l: Ledger, f: Fill, i: nat)
    requires WellKept(l) && f.Valid() && f.side.Buy? && ApplyFill(l, f).Ok? && i < |l.positions| && l.positions[i].tokenId == f.tokenId
    ensures i < |ApplyFill(l, f).value.positions|
    ensures var p, q := l.positions[i], ApplyFill(l, f).value.positions[i];
      && q.entryShares == p.entryShares + f.shares && q.entryCost == p.entryCost + f.price * f.shares + f.fee
      && q.fees == p.fees + f.fee && BroughtSoFar(q) == BroughtSoFar(p) && q.openedMs == p.openedMs
  {
    IndexIs(l.positions, f.tokenId, i);
  }

  /** The sale of the last share closes the trade: what the position cost in all, what it brought in
      with this sale, the difference as its profit and its fees; a loss counts up, anything else
      starts over. */
  lemma LastSaleIsTrade(l: Ledger, f: Fill, i: nat)
    requires WellKept(l) && f.Valid() && f.side.Sell? && i < |l.positions| && l.positions[i].tokenId == f.tokenId
    requires f.shares == l.positions[i].shares
    ensures ApplyFill(l, f).Ok? && ApplyFill(l, f).value.closed != []
    ensures var p, l' := l.positions[i], ApplyFill(l, f).value;
      var t := l'.closed[|l'.closed| - 1];
      && t.tokenId == f.tokenId && t.kind == SoldOut && t.openedMs == p.openedMs && t.closedMs == f.tsMs
      && t.shares == p.entryShares && t.cost == p.entryCost && t.fees == p.fees + f.fee
      && t.proceeds == BroughtSoFar(p) + f.price * f.shares - f.fee && t.pnl == t.proceeds - t.cost
      && l'.consecutiveLosses == (if t.proceeds < t.cost then l.consecutiveLosses + 1 else 0)
      && l'.lastLossMs == (if t.proceeds < t.cost then Some(f.tsMs) else l.lastLossMs)
  {
    IndexIs(l.positions, f.tokenId, i);
    Brought(f);
    AllCostRemoved(l.positions[i], f.shares);
    hide Proceeds, CostRemoved;
  }

  lemma AllCostRemoved(p: Position, shares: real)
    requires p.shares > 0.0 && shares == p.shares
    ensures CostRemoved(p, shares) == p.cost
  {
  }

  lemma PartCostRemoved(p: Position, shares: real)
    requires 0.0 < shares < p.shares
    ensures PartOf(p.cost, shares, p.shares) - 0.00000000005 <= CostRemoved(p, shares) <= PartOf(p.cost, shares, p.shares) + 0.00000000005
  {
    hide PartOf, ProRata;
    SamePart(p.cost, shares, p.shares);
  }

  lemma SamePart(cost: real, sold: real, held: real)
    requires held > 0.0
    ensures ProRata(cost, sold, held) == PartOf(cost, sold, held)
  {
  }

  // ---------------------------------------------------------------- settlement

  /** What redeeming the condition pays, from position `kept` on. */
  ghost function Payout(positions: seq<Position>, condition: ConditionId, winner: Outcome): real {
    if positions == [] then 0.0
    else
      var p := positions[0];
      (if p.conditionId == condition && p.outcome == winner then p.shares else 0.0) + Payout(positions[1..], condition, winner)
  }

  lemma SettleAtMoves(l: Ledger, i: nat, winner: Outcome, ts: int)
    requires i < |l.positions|
    ensures var l' := SettleAt(l, i, winner, ts);
      && l'.positions == Drop(l.positions, i)
      && l'.cash == l.cash + (if l.positions[i].outcome == winner then l.positions[i].shares else 0.0)
  {
    var q := SettledPosition(l.positions[i], winner);
    assert Drop(l.positions[i := q], i) == Drop(l.positions, i);
  }

  /** Settling removes exactly the condition's positions and pays out the winning ones. */
  lemma {:induction false} SettleMoves(l: Ledger, kept: nat, condition: ConditionId, winner: Outcome, ts: int)
    requires WellKept(l) && kept <= |l.positions|
    ensures var l' := SettleFrom(l, kept, condition, winner, ts);
      && l'.cash == l.cash + Payout(l.positions[kept..], condition, winner)
      && l'.feesPaid == l.feesPaid
      && (forall p :: p in l'.positions <==> p in l.positions && (p in l.positions[..kept] || p.conditionId != condition))
    decreases |l.positions| - kept
  {
    if kept < |l.positions| {
      assert l.positions[kept..][1..] == l.positions[kept + 1..];
      assert l.positions[..kept + 1] == l.positions[..kept] + [l.positions[kept]];
      if l.positions[kept].conditionId != condition || l.positions[kept].shares == 0.0 {
        SettleMoves(l, kept + 1, condition, winner, ts);
      } else {
        SettleAtMoves(l, kept, winner, ts);
        var l1 := SettleAt(l, kept, winner, ts);
        DropKeeps(l.positions, kept);
        SettleMoves(l1, kept, condition, winner, ts);
        assert l1.positions[kept..] == l.positions[kept + 1..];
        assert l1.positions[..kept] == l.positions[..kept];
        DropMembers(l.positions, kept);
      }
    }
  }

  lemma DropMembers(positions: seq<Position>, i: nat)
    requires Distinct(positions) && i < |positions|
    ensures forall p :: p in Drop(positions, i) <==> p in positions && p != positions[i]
  {
    forall p | p in positions && p != positions[i]
      ensures p in Drop(positions, i)
    {
      var j :| 0 <= j < |positions| && positions[j] == p;
      if j < i {
        assert Drop(positions, i)[j] == p;
      } else {
        assert Drop(positions, i)[j - 1] == p;
      }
    }
    forall j | 0 <= j < |Drop(positions, i)|
      ensures Drop(positions, i)[j] != positions[i]
    {
    }
  }

  /** With one token per outcome, the payout is the winning token's shares. */
  lemma {:induction false} PayoutIsWinnerShares(positions: seq<Position>, condition: ConditionId, winner: Outcome, token: TokenId)
    requires Distinct(positions)
    requires forall i :: 0 <= i < |positions| ==>
      ((positions[i].conditionId == condition && positions[i].outcome == winner) <==> positions[i].tokenId == token)
    ensures Payout(positions, condition, winner) == SharesOf(positions, token)
  {
    if positions != [] {
      var rest := positions[1..];
      PayoutIsWinnerShares(rest, condition, winner, token);
      if positions[0].tokenId == token {
        SharesAbsent(rest, token);
        SharesAt(positions, token, 0);
      } else {
        var j := IndexOf(rest, token);
        if j < |rest| {
          SharesAt(positions, token, j + 1);
        } else {
          SharesAbsent(positions, token);
        }
      }
    }
  }

  /** Shares by token after a settlement. */
  lemma SettleShares(l: Ledger, condition: ConditionId, winner: Outcome, ts: int, t: TokenId)
    requires WellKept(l)
    ensures var l' := Accounting.Settle(l, condition, winner, ts);
      && WellKept(l')
      && SharesOf(l'.positions, t)
           == if Has(l.positions, t) && l.positions[IndexOf(l.positions, t)].conditionId == condition then 0.0 else SharesOf(l.positions, t)
  {
    SettleMoves(l, 0, condition, winner, ts);
    WellKeptSettle(l, 0, condition, winner, ts);
    var l' := Accounting.Settle(l, condition, winner, ts);
    var i := IndexOf(l.positions, t);
    if i < |l.positions| && l.positions[i].conditionId != condition {
      assert l.positions[i] in l'.positions;
      var k :| 0 <= k < |l'.positions| && l'.positions[k] == l.positions[i];
      SharesAt(l'.positions, t, k);
    } else {
      forall k | 0 <= k < |l'.positions|
        ensures l'.positions[k].tokenId != t
      {
        assert l'.positions[k] in l.positions && l'.positions[k].conditionId != condition;
        var j :| 0 <= j < |l.positions| && l.positions[j] == l'.positions[k];
        IndexIs(l.positions, l.positions[j].tokenId, j);
      }
      SharesAbsent(l'.positions, t);
    }
  }
}
