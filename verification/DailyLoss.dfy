/** The day's loss. Its baseline is the risk equity of the first mark of the current UTC day, a day
    being 86,400,000 milliseconds, and the risk engine allows no entry once the limit is lost since. */
module DailyLoss {
  import opened Decimals
  import opened Domain
  import opened Matching
  import opened Sums
  import opened Accounting
  import RiskEngine

  predicate SameDay(a: int, b: int) {
    a / 86_400_000 == b / 86_400_000
  }

  /** When the ledger was last marked, or else started. */
  function LastMark(start: int, ops: seq<Op>): int {
    if ops == [] then start
    else if ops[|ops| - 1].MarkOp? then ops[|ops| - 1].now
    else LastMark(start, ops[..|ops| - 1])
  }

  /** No mark has crossed midnight. */
  ghost predicate OneDay(start: int, ops: seq<Op>) {
    forall j :: 0 <= j < |ops| && ops[j].MarkOp? ==> SameDay(ops[j].now, start)
  }

  /** The mark at `i` crossed midnight, and none has since. */
  ghost predicate FirstOfDay(start: int, ops: seq<Op>, i: nat) {
    && i < |ops| && ops[i].MarkOp? && !SameDay(ops[i].now, LastMark(start, ops[..i]))
    && forall j :: i < j < |ops| && ops[j].MarkOp? ==> SameDay(ops[j].now, ops[i].now)
  }

  lemma {:induction false} RunLast(l: Ledger, ops: seq<Op>, op: Op)
    requires LegalOps(ops) && LegalOp(op)
    ensures LegalOps(ops + [op]) && Run(l, ops + [op]) == Step(Run(l, ops), op)
    decreases |ops|
  {
    hide Step;
    if ops == [] {
      assert [op][1..] == [];
      assert [] + [op] == [op] && Run(Step(l, op), []) == Step(l, op);
    } else {
      RunLast(Step(l, ops[0]), ops[1..], op);
      assert (ops + [op])[1..] == ops[1..] + [op];
    }
  }

  /** Only a mark touches the day and its baseline. */
  lemma OthersLeaveTheDay(l: Ledger, op: Op)
    requires LegalOp(op) && !op.MarkOp?
    ensures Step(l, op).currentDay == l.currentDay && Step(l, op).startOfDayEquity == l.startOfDayEquity
  {
    hide Notional, CostRemoved;
    if op.SettleOp? {
      SettleLeavesTheDay(l, 0, op.condition, op.winner, op.ts);
    }
  }

  lemma {:induction false} SettleLeavesTheDay(l: Ledger, kept: nat, condition: ConditionId, winner: Outcome, ts: int)
    requires kept <= |l.positions|
    ensures var l' := SettleFrom(l, kept, condition, winner, ts);
      l'.currentDay == l.currentDay && l'.startOfDayEquity == l.startOfDayEquity
    decreases |l.positions| - kept
  {
    if kept < |l.positions| {
      if l.positions[kept].conditionId != condition || l.positions[kept].shares == 0.0 {
        SettleLeavesTheDay(l, kept + 1, condition, winner, ts);
      } else {
        SettleLeavesTheDay(SettleAt(l, kept, winner, ts), kept, condition, winner, ts);
      }
    }
  }

  /** What a mark does to the day, in milliseconds. */
  lemma MarkRolls(l: Ledger, bids: map<TokenId, Option<real>>, now: int)
    ensures var l' := Mark(l, bids, now);
      && l'.currentDay == now / 86_400_000
      && l'.startOfDayEquity == if now / 86_400_000 == l.currentDay then l.startOfDayEquity else l'.riskEquity
  {
    hide Marked, ConservativeValue;
  }

  ghost predicate Baseline(initial: real, start: int, ops: seq<Op>, l: Ledger)
    requires LegalOps(ops)
  {
    && (OneDay(start, ops) ==> l.startOfDayEquity == initial)
    && (forall i: nat :: FirstOfDay(start, ops, i) ==> l.startOfDayEquity == Run(WithCash(initial, start), ops[..i + 1]).riskEquity)
    && (OneDay(start, ops) || exists i: nat :: FirstOfDay(start, ops, i))
  }

  /** Over any run of the ledger the day's baseline is the risk equity of the first mark of the current
      UTC day, or the initial cash while no mark has crossed midnight; marks within a day leave it
      alone. */
  lemma {:induction false} BaselineIsFirstMark(initial: real, start: int, ops: seq<Op>)
    requires LegalOps(ops)
    ensures var l := Run(WithCash(initial, start), ops);
      && l.currentDay == LastMark(start, ops) / 86_400_000
      && (OneDay(start, ops) ==> l.startOfDayEquity == initial)
      && (forall i: nat :: FirstOfDay(start, ops, i) ==> l.startOfDayEquity == Run(WithCash(initial, start), ops[..i + 1]).riskEquity)
      && (OneDay(start, ops) || exists i: nat :: FirstOfDay(start, ops, i))
    decreases |ops|
  {
    if ops != [] {
      hide Run, Step;
      var before, op := ops[..|ops| - 1], ops[|ops| - 1];
      assert ops == before + [op];
      BaselineIsFirstMark(initial, start, before);
      RunLast(WithCash(initial, start), before, op);
      LastMarkOfDay(start, before);
      if op.MarkOp? && !SameDay(op.now, LastMark(start, before)) {
        NewDay(initial, start, before, op);
      } else {
        SameBaseline(initial, start, before, op);
      }
    } else {
      NothingRun(WithCash(initial, start));
    }
  }

  lemma NothingRun(l: Ledger)
    ensures Run(l, []) == l
  {
  }

  /** While no mark has crossed midnight the last one is on the day of the start; after one has, on its
      day. */
  lemma {:induction false} LastMarkOfDay(start: int, ops: seq<Op>)
    ensures OneDay(start, ops) ==> SameDay(LastMark(start, ops), start)
    ensures forall i: nat :: FirstOfDay(start, ops, i) ==> SameDay(LastMark(start, ops), ops[i].now)
    decreases |ops|
  {
    if ops != [] && !ops[|ops| - 1].MarkOp? {
      var before := ops[..|ops| - 1];
      LastMarkOfDay(start, before);
      forall i: nat | FirstOfDay(start, ops, i)
        ensures SameDay(LastMark(start, ops), ops[i].now)
      {
        assert ops[..i] == before[..i];
        assert FirstOfDay(start, before, i);
      }
    }
  }

  lemma NewDay(initial: real, start: int, before: seq<Op>, op: Op)
    requires LegalOps(before) && op.MarkOp? && !SameDay(op.now, LastMark(start, before))
    requires Run(WithCash(initial, start), before).currentDay == LastMark(start, before) / 86_400_000
    requires Run(WithCash(initial, start), before + [op]) == Step(Run(WithCash(initial, start), before), op)
    requires OneDay(start, before) ==> SameDay(LastMark(start, before), start)
    requires forall i: nat :: FirstOfDay(start, before, i) ==> SameDay(LastMark(start, before), before[i].now)
    ensures var l := Run(WithCash(initial, start), before + [op]);
      && l.currentDay == LastMark(start, before + [op]) / 86_400_000
      && Baseline(initial, start, before + [op], l)
  {
    hide Run, Mark, OneDay, FirstOfDay, SameDay;
    var ops, n := before + [op], |before|;
    MarkRolls(Run(WithCash(initial, start), before), op.bids, op.now);
    assert ops[..n] == before && ops[n] == op && ops[..n + 1] == ops;
    FirstAtEnd(start, before, op);
    DifferentDay(op.now, LastMark(start, before));
    if OneDay(start, ops) {
      OneDayBefore(start, before, op);
      OtherDay(op.now, LastMark(start, before), start);
    }
    forall i: nat | FirstOfDay(start, ops, i)
      ensures i == n
    {
      if i != n {
        FirstBefore(start, before, op, i);
        OtherDay(op.now, LastMark(start, before), before[i].now);
      }
    }
  }

  lemma DifferentDay(a: int, b: int)
    requires !SameDay(a, b)
    ensures a / 86_400_000 != b / 86_400_000
  {
  }

  lemma OtherDay(a: int, b: int, c: int)
    requires !SameDay(a, b) && SameDay(b, c)
    ensures !SameDay(a, c)
  {
  }

  lemma FirstAtEnd(start: int, before: seq<Op>, op: Op)
    requires op.MarkOp? && !SameDay(op.now, LastMark(start, before))
    ensures FirstOfDay(start, before + [op], |before|)
  {
    assert (before + [op])[..|before|] == before;
  }

  lemma OneDayBefore(start: int, before: seq<Op>, op: Op)
    requires OneDay(start, before + [op])
    ensures OneDay(start, before) && (op.MarkOp? ==> SameDay(op.now, start))
  {
    var ops := before + [op];
    assert ops[|before|] == op;
    forall j | 0 <= j < |before| && before[j].MarkOp?
      ensures SameDay(before[j].now, start)
    {
      assert ops[j] == before[j];
    }
  }

  lemma FirstBefore(start: int, before: seq<Op>, op: Op, i: nat)
    requires FirstOfDay(start, before + [op], i) && i != |before|
    ensures i < |before| && FirstOfDay(start, before, i) && (op.MarkOp? ==> SameDay(op.now, before[i].now))
    ensures (before + [op])[..i + 1] == before[..i + 1]
  {
    var ops := before + [op];
    assert ops[|before|] == op && ops[..i] == before[..i] && ops[i] == before[i];
    forall j | i < j < |before| && before[j].MarkOp?
      ensures SameDay(before[j].now, before[i].now)
    {
      assert ops[j] == before[j];
    }
  }

  lemma SameBaseline(initial: real, start: int, before: seq<Op>, op: Op)
    requires LegalOps(before) && LegalOp(op) && (op.MarkOp? ==> SameDay(op.now, LastMark(start, before)))
    requires Run(WithCash(initial, start), before).currentDay == LastMark(start, before) / 86_400_000
    requires LegalOps(before + [op]) && Run(WithCash(initial, start), before + [op]) == Step(Run(WithCash(initial, start), before), op)
    requires Baseline(initial, start, before, Run(WithCash(initial, start), before))
    requires OneDay(start, before) ==> SameDay(LastMark(start, before), start)
    requires forall i: nat :: FirstOfDay(start, before, i) ==> SameDay(LastMark(start, before), before[i].now)
    ensures var l := Run(WithCash(initial, start), before + [op]);
      && l.currentDay == LastMark(start, before + [op]) / 86_400_000
      && Baseline(initial, start, before + [op], l)
  {
    hide Run, Mark, OneDay, FirstOfDay, SameDay;
    var ops, n := before + [op], |before|;
    var was, l := Run(WithCash(initial, start), before), Run(WithCash(initial, start), ops);
    assert ops[..n] == before && ops[n] == op;
    if op.MarkOp? {
      MarkRolls(was, op.bids, op.now);
      SameQuotient(op.now, LastMark(start, before));
    } else {
      OthersLeaveTheDay(was, op);
    }
    if OneDay(start, ops) {
      OneDayBefore(start, before, op);
    }
    if OneDay(start, before) {
      OneDayStill(start, before, op);
    } else {
      var i: nat :| FirstOfDay(start, before, i);
      StillFirst(start, before, op, i);
    }
    forall i: nat | FirstOfDay(start, ops, i)
      ensures FirstOfDay(start, before, i) && i < n && ops[..i + 1] == before[..i + 1]
    {
      NotAtEnd(start, before, op);
      FirstBefore(start, before, op, i);
    }
  }

  lemma SameQuotient(a: int, b: int)
    requires SameDay(a, b)
    ensures a / 86_400_000 == b / 86_400_000
  {
  }

  lemma NotAtEnd(start: int, before: seq<Op>, op: Op)
    requires op.MarkOp? ==> SameDay(op.now, LastMark(start, before))
    ensures !FirstOfDay(start, before + [op], |before|)
  {
    assert (before + [op])[..|before|] == before;
  }

  lemma OneDayStill(start: int, before: seq<Op>, op: Op)
    requires OneDay(start, before) && (op.MarkOp? ==> SameDay(op.now, LastMark(start, before))) && SameDay(LastMark(start, before), start)
    ensures OneDay(start, before + [op])
  {
  }

  lemma StillFirst(start: int, before: seq<Op>, op: Op, i: nat)
    requires FirstOfDay(start, before, i) && SameDay(LastMark(start, before), before[i].now)
    requires op.MarkOp? ==> SameDay(op.now, LastMark(start, before))
    ensures FirstOfDay(start, before + [op], i)
  {
    var ops := before + [op];
    assert ops[..i] == before[..i] && ops[i] == before[i];
    forall j | i < j < |ops| && ops[j].MarkOp?
      ensures SameDay(ops[j].now, ops[i].now)
    {
      assert j < |before| ==> ops[j] == before[j];
    }
  }

  // ---------------------------------------------------------------- the loss since midnight

  /** An allowed entry, on the portfolio as it was marked last, means that less than the limit was lost
      since the first mark of the day, in money and as a share. */
  lemma AllowedOnlyWithinDay(initial: real, start: int, ops: seq<Op>, policy: RiskEngine.Policy, ctx: RiskEngine.Context, c: RiskEngine.Candidate)
    requires LegalOps(ops) && c.market.Valid() && RiskEngine.EntryAllowed(policy, ctx, c)
    requires ctx.view.equity == Run(WithCash(initial, start), ops).riskEquity
    requires ctx.view.startOfDayEquity == Run(WithCash(initial, start), ops).startOfDayEquity
    ensures OneDay(start, ops) ==> ctx.view.equity > initial - policy.maxDailyLoss
    ensures forall i: nat :: FirstOfDay(start, ops, i) ==>
      var base := Run(WithCash(initial, start), ops[..i + 1]).riskEquity;
      ctx.view.equity > base - policy.maxDailyLoss && (base > 0.0 ==> ctx.view.equity > base - policy.maxDailyLossPct * base)
  {
    hide Run, FirstOfDay, OneDay, RiskEngine.MarketOk, RiskEngine.FreshOk, RiskEngine.PriceOk, RiskEngine.SizeOk, RiskEngine.RateOk;
    BaselineIsFirstMark(initial, start, ops);
    RiskEngine.EntriesOnlyWithinLosses(policy, ctx, c);
  }

  // ---------------------------------------------------------------- what equity counts

  function GainAt(p: Position, marks: map<TokenId, real>): real {
    Max(0.0, p.shares * (if p.tokenId in marks then marks[p.tokenId] else 0.0) - p.cost)
  }

  lemma {:induction false} ValueIsSum(positions: seq<Position>, marks: map<TokenId, real>)
    ensures MarkedValue(positions, marks) == Sum((p: Position) => p.shares * (if p.tokenId in marks then marks[p.tokenId] else 0.0), positions)
  {
    if positions != [] {
      ValueIsSum(positions[1..], marks);
    }
  }

  lemma Listed(positions: seq<Position>, token: TokenId)
    ensures Has(positions, token) <==> exists i :: 0 <= i < |positions| && positions[i].tokenId == token
  {
  }

  /** A mark values every share held at its bid, or, without a bid, at the last one seen; the peak
      is the highest risk equity of any mark. */
  lemma MarkValues(l: Ledger, bids: map<TokenId, Option<real>>, now: int)
    ensures var l' := Mark(l, bids, now);
      && l'.positions == l.positions && l'.cash == l.cash
      && l'.equity == l.cash + Sum((p: Position) => p.shares * (if p.tokenId in l'.marks then l'.marks[p.tokenId] else 0.0), l.positions)
      && (forall i :: 0 <= i < |l.positions| ==>
            var token := l.positions[i].tokenId;
            if token in bids && bids[token].Some? then token in l'.marks && l'.marks[token] == bids[token].value
            else (token in l'.marks <==> token in l.marks) && (token in l.marks ==> l'.marks[token] == l.marks[token]))
      && l'.peakEquity >= l.peakEquity && l'.peakEquity >= l'.riskEquity && (l'.peakEquity == l.peakEquity || l'.peakEquity == l'.riskEquity)
  {
    ValueIsSum(l.positions, Marked(l, bids));
    forall i | 0 <= i < |l.positions|
      ensures Has(l.positions, l.positions[i].tokenId)
    {
      Listed(l.positions, l.positions[i].tokenId);
    }
  }

  /** Risk equity is equity less every unrealised gain: losses count in full, gains not at all. */
  lemma RiskEquityLeavesGainsOut(l: Ledger, bids: map<TokenId, Option<real>>, now: int)
    ensures var l' := Mark(l, bids, now);
      l'.riskEquity == l'.equity - Sum(p => GainAt(p, l'.marks), l'.positions)
  {
    hide Marked;
    GainsApart(l.positions, Marked(l, bids));
  }

  lemma {:induction false} GainsApart(positions: seq<Position>, marks: map<TokenId, real>)
    ensures ConservativeValue(positions, marks) == MarkedValue(positions, marks) - Sum(p => GainAt(p, marks), positions)
  {
    if positions != [] {
      hide MarkedAt, GainAt, Min;
      GainsApart(positions[1..], marks);
      OneGain(positions[0], marks);
    }
  }

  lemma OneGain(p: Position, marks: map<TokenId, real>)
    ensures Min(MarkedAt(p, marks), p.cost) == MarkedAt(p, marks) - GainAt(p, marks)
  {
  }
}
