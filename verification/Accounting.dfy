/** The portfolio's state as a value, each accounting operation as a function of it, and the
    accounting laws over whole runs. The class `Portfolio.Portfolio` is proved against it. */
module Accounting {
  import opened Decimals
  import opened Domain
  import opened Matching
  import opened Sums

  const CASH_TOLERANCE: real := 0.000001
  const DAY_MS: int := 86_400_000

  datatype Position = Position(
    tokenId: TokenId,
    conditionId: ConditionId,
    outcome: Outcome,
    openedMs: int,
    shares: real,
    cost: real,
    realized: real,
    fees: real,
    entryShares: real,
    entryCost: real)

  datatype ExitKind = SoldOut | Settlement

  datatype ClosedTrade = ClosedTrade(
    tokenId: TokenId,
    openedMs: int,
    closedMs: int,
    shares: real,
    cost: real,
    proceeds: real,
    fees: real,
    pnl: real,
    kind: ExitKind)

  /** `positions` is the insertion-ordered dictionary by token. */
  datatype Ledger = Ledger(
    cash: real,
    startOfDayEquity: real,
    peakEquity: real,
    equity: real,
    riskEquity: real,
    positions: seq<Position>,
    closed: seq<ClosedTrade>,
    realized: real,
    feesPaid: real,
    consecutiveLosses: nat,
    lastLossMs: Option<int>,
    currentDay: int,
    marks: map<TokenId, real>)

  datatype Result<T> = Ok(value: T) | InvariantError

  function WithCash(cash: real, now: int): Ledger {
    Ledger(cash, cash, cash, cash, cash, [], [], 0.0, 0.0, 0, None, now / DAY_MS, map[])
  }

  // ---------------------------------------------------------------- positions by token

  function IndexOf(positions: seq<Position>, token: TokenId): (i: nat)
    ensures i <= |positions|
    ensures i < |positions| ==> positions[i].tokenId == token
    ensures forall j :: 0 <= j < i ==> positions[j].tokenId != token
  {
    if positions == [] || positions[0].tokenId == token then 0 else 1 + IndexOf(positions[1..], token)
  }

  predicate Has(positions: seq<Position>, token: TokenId) {
    IndexOf(positions, token) < |positions|
  }

  function Drop(positions: seq<Position>, i: nat): seq<Position>
    requires i < |positions|
  {
    positions[..i] + positions[i + 1..]
  }

  function SharesOf(positions: seq<Position>, token: TokenId): real {
    if Has(positions, token) then positions[IndexOf(positions, token)].shares else 0.0
  }

  function CostOf(p: Position): real { p.cost }

  function RealizedOf(p: Position): real { p.realized }

  function PnlOf(t: ClosedTrade): real { t.pnl }

  /** Open cost basis. */
  function Exposure(positions: seq<Position>): real {
    Sum(CostOf, positions)
  }

  // ---------------------------------------------------------------- operations

  function BuyCost(f: Fill): real {
    Notional(f.price, f.shares) + f.fee
  }

  function Proceeds(f: Fill): real {
    Notional(f.price, f.shares) - f.fee
  }

  function Opened(f: Fill): Position {
    Position(f.tokenId, f.conditionId, f.outcome, f.tsMs, 0.0, 0.0, 0.0, 0.0, 0.0, 0.0)
  }

  function Bought(p: Position, f: Fill): Position {
    p.(shares := p.shares + f.shares, cost := p.cost + BuyCost(f), fees := p.fees + f.fee,
       entryShares := p.entryShares + f.shares, entryCost := p.entryCost + BuyCost(f))
  }

  function ApplyBuy(l: Ledger, f: Fill): Result<Ledger> {
    if BuyCost(f) > l.cash + CASH_TOLERANCE then InvariantError
    else
      var i := IndexOf(l.positions, f.tokenId);
      var positions := if i < |l.positions| then l.positions[i := Bought(l.positions[i], f)]
                       else l.positions + [Bought(Opened(f), f)];
      Ok(l.(cash := l.cash - BuyCost(f), positions := positions, feesPaid := l.feesPaid + f.fee))
  }

  function ProRata(cost: real, shares: real, held: real): real
    requires held > 0.0
  {
    cost * shares / held
  }

  /** Cost basis leaving with a sale: all of it, or the pro-rata part rounded to the accounting grid. */
  function CostRemoved(p: Position, shares: real): real
    requires p.shares > 0.0
  {
    if shares == p.shares then p.cost else RoundHalfEven(ProRata(p.cost, shares, p.shares), ACCOUNTING_Q)
  }

  function Sold(p: Position, f: Fill): Position
    requires p.shares > 0.0
  {
    var removed := CostRemoved(p, f.shares);
    p.(shares := p.shares - f.shares, cost := p.cost - removed,
       realized := p.realized + (Proceeds(f) - removed), fees := p.fees + f.fee)
  }

  function TradeOf(p: Position, ts: int, kind: ExitKind): ClosedTrade {
    ClosedTrade(p.tokenId, p.openedMs, ts, p.entryShares, p.entryCost, p.entryCost + p.realized, p.fees, p.realized, kind)
  }

  /** Remove the position at `i` (whose final state is `p`) and book its trade. */
  function Close(l: Ledger, i: nat, p: Position, ts: int, kind: ExitKind): Ledger
    requires i < |l.positions|
  {
    var lost := p.realized < 0.0;
    l.(positions := Drop(l.positions, i),
       closed := l.closed + [TradeOf(p, ts, kind)],
       marks := l.marks - {p.tokenId},
       consecutiveLosses := if lost then l.consecutiveLosses + 1 else 0,
       lastLossMs := if lost then Some(ts) else l.lastLossMs)
  }

  function ApplySell(l: Ledger, f: Fill): Result<Ledger>
    requires f.Valid()
  {
    var i := IndexOf(l.positions, f.tokenId);
    if i == |l.positions| || f.shares > l.positions[i].shares then InvariantError
    else
      var p := Sold(l.positions[i], f);
      var pnl := Proceeds(f) - CostRemoved(l.positions[i], f.shares);
      var booked := l.(cash := l.cash + Proceeds(f), positions := l.positions[i := p],
                       realized := l.realized + pnl, feesPaid := l.feesPaid + f.fee);
      Ok(if p.shares == 0.0 then Close(booked, i, p, f.tsMs, SoldOut) else booked)
  }

  function ApplyFill(l: Ledger, f: Fill): Result<Ledger>
    requires f.Valid()
  {
    if f.side.Buy? then ApplyBuy(l, f) else ApplySell(l, f)
  }

  function SettledPosition(p: Position, winner: Outcome): Position {
    var payout := if p.outcome == winner then p.shares else 0.0;
    p.(realized := p.realized + (payout - p.cost), cost := 0.0, shares := 0.0)
  }

  function SettleAt(l: Ledger, i: nat, winner: Outcome, ts: int): Ledger
    requires i < |l.positions|
  {
    var p := l.positions[i];
    var payout := if p.outcome == winner then p.shares else 0.0;
    var q := SettledPosition(p, winner);
    Close(l.(cash := l.cash + payout, realized := l.realized + (payout - p.cost), positions := l.positions[i := q]),
          i, q, ts, Settlement)
  }

  /** Every open position of the condition is redeemed, in insertion order; `kept` positions
      have been passed over already. */
  function SettleFrom(l: Ledger, kept: nat, condition: ConditionId, winner: Outcome, ts: int): Ledger
    requires kept <= |l.positions|
    decreases |l.positions| - kept
  {
    if kept == |l.positions| then l
    else if l.positions[kept].conditionId != condition || l.positions[kept].shares == 0.0 then
      SettleFrom(l, kept + 1, condition, winner, ts)
    else SettleFrom(SettleAt(l, kept, winner, ts), kept, condition, winner, ts)
  }

  /** One turn of the loop over the positions. */
  lemma SettleFromIs(l: Ledger, kept: nat, condition: ConditionId, winner: Outcome, ts: int)
    requires kept <= |l.positions|
    ensures kept == |l.positions| ==> SettleFrom(l, kept, condition, winner, ts) == l
    ensures kept < |l.positions| && (l.positions[kept].conditionId != condition || l.positions[kept].shares == 0.0) ==>
      SettleFrom(l, kept, condition, winner, ts) == SettleFrom(l, kept + 1, condition, winner, ts)
    ensures kept < |l.positions| && l.positions[kept].conditionId == condition && l.positions[kept].shares != 0.0 ==>
      var next := SettleAt(l, kept, winner, ts);
      kept <= |next.positions| && SettleFrom(l, kept, condition, winner, ts) == SettleFrom(next, kept, condition, winner, ts)
  {
  }

  function Settle(l: Ledger, condition: ConditionId, winner: Outcome, ts: int): Ledger {
    SettleFrom(l, 0, condition, winner, ts)
  }

  /** A held token with a bid takes it as its mark; the others keep their last mark. */
  function FreshMarks(positions: seq<Position>, bids: map<TokenId, Option<real>>, tokens: set<TokenId>): map<TokenId, real> {
    map token | token in tokens && token in bids && bids[token].Some? && Has(positions, token) :: bids[token].value
  }

  function Marked(l: Ledger, bids: map<TokenId, Option<real>>): map<TokenId, real> {
    l.marks + FreshMarks(l.positions, bids, bids.Keys)
  }

  function MarkOf(marks: map<TokenId, real>, token: TokenId): real {
    if token in marks then marks[token] else 0.0
  }

  /** Liquidation value of a position at its mark. */
  function MarkedAt(p: Position, marks: map<TokenId, real>): real {
    p.shares * MarkOf(marks, p.tokenId)
  }

  function MarkedValue(positions: seq<Position>, marks: map<TokenId, real>): real {
    if positions == [] then 0.0 else MarkedAt(positions[0], marks) + MarkedValue(positions[1..], marks)
  }

  /** Unrealised losses count in full, unrealised gains never do. */
  function ConservativeValue(positions: seq<Position>, marks: map<TokenId, real>): real {
    if positions == [] then 0.0
    else Min(MarkedAt(positions[0], marks), positions[0].cost) + ConservativeValue(positions[1..], marks)
  }

  function Mark(l: Ledger, bids: map<TokenId, Option<real>>, now: int): Ledger {
    var marks := Marked(l, bids);
    var risk := l.cash + ConservativeValue(l.positions, marks);
    var day := now / DAY_MS;
    l.(marks := marks,
       equity := l.cash + MarkedValue(l.positions, marks),
       riskEquity := risk,
       startOfDayEquity := if day != l.currentDay then risk else l.startOfDayEquity,
       currentDay := day,
       peakEquity := Max(l.peakEquity, risk))
  }

  // ---------------------------------------------------------------- runs

  datatype Op =
    | FillOp(fill: Fill)
    | SettleOp(condition: ConditionId, winner: Outcome, ts: int)
    | MarkOp(bids: map<TokenId, Option<real>>, now: int)

  predicate LegalOp(op: Op) {
    op.FillOp? ==> op.fill.Valid()
  }

  /** A refused fill leaves the ledger as it was. */
  function Step(l: Ledger, op: Op): Ledger
    requires LegalOp(op)
  {
    match op
    case FillOp(f) => if ApplyFill(l, f).Ok? then ApplyFill(l, f).value else l
    case SettleOp(condition, winner, ts) => Settle(l, condition, winner, ts)
    case MarkOp(bids, now) => Mark(l, bids, now)
  }

  ghost predicate LegalOps(ops: seq<Op>) {
    forall i :: 0 <= i < |ops| ==> LegalOp(ops[i])
  }

  function Run(l: Ledger, ops: seq<Op>): Ledger
    requires LegalOps(ops)
    decreases |ops|
  {
    if ops == [] then l else Run(Step(l, ops[0]), ops[1..])
  }

  ghost predicate Open(l: Ledger) {
    forall i :: 0 <= i < |l.positions| ==> l.positions[i].shares > 0.0
  }

  ghost predicate Distinct(positions: seq<Position>) {
    forall i, j :: 0 <= i < j < |positions| ==> positions[i].tokenId != positions[j].tokenId
  }

  ghost predicate WellKept(l: Ledger) {
    Open(l) && Distinct(l.positions)
  }

  /** What the accounting keeps: nothing is created or lost. */
  ghost predicate Balanced(l: Ledger, initial: real) {
    && WellKept(l)
    && l.cash + Exposure(l.positions) - l.realized == initial
    && l.realized == Sum(PnlOf, l.closed) + Sum(RealizedOf, l.positions)
  }

  lemma DropKeeps(positions: seq<Position>, i: nat)
    requires i < |positions| && Distinct(positions)
    ensures Distinct(Drop(positions, i))
    ensures forall p :: p in Drop(positions, i) ==> p in positions
  {
  }

  lemma BalancedBuy(l: Ledger, f: Fill, initial: real)
    requires Balanced(l, initial) && f.Valid() && ApplyBuy(l, f).Ok?
    ensures Balanced(ApplyBuy(l, f).value, initial)
  {
    var i := IndexOf(l.positions, f.tokenId);
    if i < |l.positions| {
      SumUpdate(CostOf, l.positions, i, Bought(l.positions[i], f));
      SumUpdate(RealizedOf, l.positions, i, Bought(l.positions[i], f));
    } else {
      SumLast(CostOf, l.positions, Bought(Opened(f), f));
      SumLast(RealizedOf, l.positions, Bought(Opened(f), f));
    }
  }

  /** Replacing position `i` by `p` shifts the balance by the change in its cost and profit. */
  lemma BalancedReplace(l: Ledger, i: nat, p: Position, cash: real, profit: real, initial: real)
    requires Balanced(l, initial) && i < |l.positions| && p.tokenId == l.positions[i].tokenId && p.shares > 0.0
    requires p.realized == l.positions[i].realized + profit
    requires cash + (p.cost - l.positions[i].cost) == profit
    ensures Balanced(l.(cash := l.cash + cash, positions := l.positions[i := p], realized := l.realized + profit), initial)
  {
    SumUpdate(CostOf, l.positions, i, p);
    SumUpdate(RealizedOf, l.positions, i, p);
  }

  lemma BalancedClose(l: Ledger, i: nat, p: Position, cash: real, profit: real, ts: int, kind: ExitKind, initial: real)
    requires Balanced(l, initial) && i < |l.positions| && p.tokenId == l.positions[i].tokenId && p.cost == 0.0
    requires p.realized == l.positions[i].realized + profit
    requires cash - l.positions[i].cost == profit
    ensures Balanced(
      Close(l.(cash := l.cash + cash, positions := l.positions[i := p], realized := l.realized + profit), i, p, ts, kind), initial)
  {
    SumRemove(CostOf, l.positions, i);
    SumRemove(RealizedOf, l.positions, i);
    SumLast(PnlOf, l.closed, TradeOf(p, ts, kind));
    DropKeeps(l.positions, i);
    assert Drop(l.positions[i := p], i) == Drop(l.positions, i);
  }

  lemma BalancedSell(l: Ledger, f: Fill, initial: real)
    requires Balanced(l, initial) && f.Valid() && ApplySell(l, f).Ok?
    ensures Balanced(ApplySell(l, f).value, initial)
  {
    hide RoundHalfEven, Notional;
    var i := IndexOf(l.positions, f.tokenId);
    var p := Sold(l.positions[i], f);
    var pnl := Proceeds(f) - CostRemoved(l.positions[i], f.shares);
    if p.shares == 0.0 {
      BalancedClose(l, i, p, Proceeds(f), pnl, f.tsMs, SoldOut, initial);
    } else {
      BalancedReplace(l, i, p, Proceeds(f), pnl, initial);
    }
    FeesAside(l, f, i, p, pnl, initial);
  }

  lemma FeesAside(l: Ledger, f: Fill, i: nat, p: Position, pnl: real, initial: real)
    requires i < |l.positions| && p.tokenId == l.positions[i].tokenId
    ensures var booked := l.(cash := l.cash + Proceeds(f), positions := l.positions[i := p], realized := l.realized + pnl);
      var full := booked.(feesPaid := l.feesPaid + f.fee);
      && (Balanced(booked, initial) ==> Balanced(full, initial))
      && (Balanced(Close(booked, i, p, f.tsMs, SoldOut), initial) ==> Balanced(Close(full, i, p, f.tsMs, SoldOut), initial))
  {
  }

  lemma BalancedSettleAt(l: Ledger, i: nat, winner: Outcome, ts: int, initial: real)
    requires Balanced(l, initial) && i < |l.positions|
    ensures Balanced(SettleAt(l, i, winner, ts), initial)
  {
    var p := l.positions[i];
    var payout := if p.outcome == winner then p.shares else 0.0;
    BalancedClose(l, i, SettledPosition(p, winner), payout, payout - p.cost, ts, Settlement, initial);
  }

  lemma {:induction false} BalancedSettle(l: Ledger, kept: nat, condition: ConditionId, winner: Outcome, ts: int, initial: real)
    requires Balanced(l, initial) && kept <= |l.positions|
    ensures Balanced(SettleFrom(l, kept, condition, winner, ts), initial)
    decreases |l.positions| - kept
  {
    if kept < |l.positions| {
      hide Balanced;
      if l.positions[kept].conditionId != condition || l.positions[kept].shares == 0.0 {
        BalancedSettle(l, kept + 1, condition, winner, ts, initial);
      } else {
        BalancedSettleAt(l, kept, winner, ts, initial);
        BalancedSettle(SettleAt(l, kept, winner, ts), kept, condition, winner, ts, initial);
      }
    }
  }

  lemma BalancedStep(l: Ledger, op: Op, initial: real)
    requires Balanced(l, initial) && LegalOp(op)
    ensures Balanced(Step(l, op), initial)
  {
    hide ApplyBuy, ApplySell;
    match op
    case FillOp(f) =>
      if ApplyFill(l, f).Ok? {
        if f.side.Buy? { BalancedBuy(l, f, initial); } else { BalancedSell(l, f, initial); }
      }
    case SettleOp(condition, winner, ts) =>
      BalancedSettle(l, 0, condition, winner, ts, initial);
    case MarkOp(bids, now) =>
  }

  /** Conservation over every run, refused fills included: cash plus open cost basis minus
      realised profit is the initial cash, and realised profit is that of the closed trades plus
      that of the open positions. */
  lemma Conservation(initial: real, start: int, ops: seq<Op>)
    requires LegalOps(ops)
    ensures Balanced(Run(WithCash(initial, start), ops), initial)
  {
    BalancedRun(WithCash(initial, start), ops, initial);
  }

  lemma {:induction false} BalancedRun(l: Ledger, ops: seq<Op>, initial: real)
    requires Balanced(l, initial) && LegalOps(ops)
    ensures Balanced(Run(l, ops), initial)
    decreases |ops|
  {
    if ops != [] {
      hide Balanced;
      BalancedStep(l, ops[0], initial);
      BalancedRun(Step(l, ops[0]), ops[1..], initial);
    }
  }

  // ---------------------------------------------------------------- high-water mark

  lemma {:induction false} ConservativeAtMostCost(positions: seq<Position>, marks: map<TokenId, real>)
    ensures ConservativeValue(positions, marks) <= Exposure(positions)
  {
    if positions != [] {
      ConservativeAtMostCost(positions[1..], marks);
    }
  }

  /** The best realised profit at any point of the run. */
  ghost function BestRealized(l: Ledger, ops: seq<Op>): real
    requires LegalOps(ops)
    decreases |ops|
  {
    if ops == [] then l.realized else Max(l.realized, BestRealized(Step(l, ops[0]), ops[1..]))
  }

  /** A transient spike of the bid never lifts the high-water mark: it stays within the initial
      cash plus the best profit ever realised. */
  lemma PeakNeedsRealisedProfit(initial: real, start: int, ops: seq<Op>)
    requires LegalOps(ops)
    ensures Run(WithCash(initial, start), ops).peakEquity <= initial + BestRealized(WithCash(initial, start), ops)
  {
    PeakWithin(WithCash(initial, start), ops, initial, 0.0);
    BestAtLeastNow(WithCash(initial, start), ops);
  }

  lemma BestAtLeastNow(l: Ledger, ops: seq<Op>)
    requires LegalOps(ops)
    ensures BestRealized(l, ops) >= l.realized
  {
  }

  lemma {:induction false} PeakWithin(l: Ledger, ops: seq<Op>, initial: real, best: real)
    requires Balanced(l, initial) && LegalOps(ops) && l.peakEquity <= initial + best
    ensures Run(l, ops).peakEquity <= initial + Max(best, BestRealized(l, ops))
    decreases |ops|
  {
    if ops != [] {
      hide Balanced;
      var best' := Max(best, l.realized);
      BalancedStep(l, ops[0], initial);
      PeakStep(l, ops[0], initial, best);
      PeakWithin(Step(l, ops[0]), ops[1..], initial, best');
    }
  }

  lemma PeakStep(l: Ledger, op: Op, initial: real, best: real)
    requires Balanced(l, initial) && LegalOp(op) && l.peakEquity <= initial + best
    ensures Step(l, op).peakEquity <= initial + Max(best, l.realized)
  {
    match op
    case FillOp(f) => hide Notional, CostRemoved;
    case SettleOp(condition, winner, ts) => SettleKeepsPeak(l, 0, condition, winner, ts);
    case MarkOp(bids, now) => ConservativeAtMostCost(l.positions, Marked(l, bids));
  }

  lemma {:induction false} SettleKeepsPeak(l: Ledger, kept: nat, condition: ConditionId, winner: Outcome, ts: int)
    requires kept <= |l.positions|
    ensures SettleFrom(l, kept, condition, winner, ts).peakEquity == l.peakEquity
    ensures SettleFrom(l, kept, condition, winner, ts).feesPaid == l.feesPaid
    decreases |l.positions| - kept
  {
    if kept < |l.positions| {
      if l.positions[kept].conditionId != condition || l.positions[kept].shares == 0.0 {
        SettleKeepsPeak(l, kept + 1, condition, winner, ts);
      } else {
        SettleKeepsPeak(SettleAt(l, kept, winner, ts), kept, condition, winner, ts);
      }
    }
  }

  // ---------------------------------------------------------------- loss streak

  /** How many of the newest closed trades lost money in a row. */
  function TrailingLosses(closed: seq<ClosedTrade>): nat {
    if closed == [] || closed[|closed| - 1].pnl >= 0.0 then 0 else 1 + TrailingLosses(closed[..|closed| - 1])
  }

  /** When the newest losing trade closed. */
  function NewestLoss(closed: seq<ClosedTrade>): Option<int> {
    if closed == [] then None
    else if closed[|closed| - 1].pnl < 0.0 then Some(closed[|closed| - 1].closedMs)
    else NewestLoss(closed[..|closed| - 1])
  }

  ghost predicate StreakKept(l: Ledger) {
    l.consecutiveLosses == TrailingLosses(l.closed) && l.lastLossMs == NewestLoss(l.closed)
  }

  lemma CloseKeepsStreak(l: Ledger, i: nat, p: Position, ts: int, kind: ExitKind)
    requires StreakKept(l) && i < |l.positions|
    ensures StreakKept(Close(l, i, p, ts, kind))
  {
    assert (l.closed + [TradeOf(p, ts, kind)])[..|l.closed|] == l.closed;
  }

  lemma {:induction false} SettleKeepsStreak(l: Ledger, kept: nat, condition: ConditionId, winner: Outcome, ts: int)
    requires StreakKept(l) && kept <= |l.positions|
    ensures StreakKept(SettleFrom(l, kept, condition, winner, ts))
    decreases |l.positions| - kept
  {
    hide Close;
    if kept < |l.positions| {
      if l.positions[kept].conditionId != condition || l.positions[kept].shares == 0.0 {
        SettleKeepsStreak(l, kept + 1, condition, winner, ts);
      } else {
        OneSettled(l, kept, winner, ts);
        SettleKeepsStreak(SettleAt(l, kept, winner, ts), kept, condition, winner, ts);
      }
    }
  }

  lemma OneSettled(l: Ledger, i: nat, winner: Outcome, ts: int)
    requires StreakKept(l) && i < |l.positions|
    ensures StreakKept(SettleAt(l, i, winner, ts)) && |SettleAt(l, i, winner, ts).positions| == |l.positions| - 1
  {
    hide TrailingLosses, NewestLoss;
    var p := l.positions[i];
    var payout := if p.outcome == winner then p.shares else 0.0;
    var q := SettledPosition(p, winner);
    CloseKeepsStreak(l.(cash := l.cash + payout, realized := l.realized + (payout - p.cost), positions := l.positions[i := q]), i, q, ts, Settlement);
  }

  lemma StepKeepsStreak(l: Ledger, op: Op)
    requires StreakKept(l) && LegalOp(op)
    ensures StreakKept(Step(l, op))
  {
    hide TrailingLosses, NewestLoss, Notional, CostRemoved;
    match op
    case FillOp(f) =>
      if f.side.Sell? && ApplySell(l, f).Ok? {
        var i := IndexOf(l.positions, f.tokenId);
        var p := Sold(l.positions[i], f);
        CloseKeepsStreak(l.(cash := l.cash + Proceeds(f), positions := l.positions[i := p],
                            realized := l.realized + (Proceeds(f) - CostRemoved(l.positions[i], f.shares)), feesPaid := l.feesPaid + f.fee),
                         i, p, f.tsMs, SoldOut);
      }
    case SettleOp(condition, winner, ts) => SettleKeepsStreak(l, 0, condition, winner, ts);
    case MarkOp(_, _) =>
  }

  /** The loss counters that the risk engine reads are those of the closed trades, over any run. */
  lemma {:induction false} LossStreak(initial: real, start: int, ops: seq<Op>)
    requires LegalOps(ops)
    ensures StreakKept(Run(WithCash(initial, start), ops))
  {
    StreakOverRun(WithCash(initial, start), ops);
  }

  lemma {:induction false} StreakOverRun(l: Ledger, ops: seq<Op>)
    requires StreakKept(l) && LegalOps(ops)
    ensures StreakKept(Run(l, ops))
    decreases |ops|
  {
    hide StreakKept, Step;
    if ops != [] {
      StepKeepsStreak(l, ops[0]);
      StreakOverRun(Step(l, ops[0]), ops[1..]);
    }
  }

  // ---------------------------------------------------------------- cost basis under rounding

  /** Cost bases on the accounting grid, none negative. */
  ghost predicate CostsOnGrid(positions: seq<Position>) {
    forall i :: 0 <= i < |positions| ==> positions[i].cost >= 0.0 && OnGrid(positions[i].cost, ACCOUNTING_Q)
  }

  lemma ProRataWithin(cost: real, shares: real, held: real)
    requires 0.0 <= cost && 0.0 < shares < held
    ensures 0.0 <= ProRata(cost, shares, held) <= cost
  {
    var x := cost * shares / held;
    MulLe(0.0, shares, cost);
    MulLe(shares, held, cost);
    DivMul(cost * shares, held);
    if x < 0.0 {
      MulLt(x, 0.0, held);
    }
    if x > cost {
      MulLt(cost, x, held);
    }
  }

  lemma GridZero(q: real)
    ensures OnGrid(0.0, q)
  {
    assert 0.0 == Multiple(0, q);
  }

  lemma RoundedPart(cost: real, x: real)
    requires 0.0 <= x <= cost && OnGrid(cost, ACCOUNTING_Q)
    ensures 0.0 <= RoundHalfEven(x, ACCOUNTING_Q) <= cost
    ensures OnGrid(cost - RoundHalfEven(x, ACCOUNTING_Q), ACCOUNTING_Q)
  {
    GridZero(ACCOUNTING_Q);
    RoundStaysBetween(0.0, x, cost, ACCOUNTING_Q);
    RoundedOnGrid(x, ACCOUNTING_Q);
    GridAdd(cost, RoundHalfEven(x, ACCOUNTING_Q), ACCOUNTING_Q);
  }

  /** On the grid, rounding the removed cost never takes more than there is. */
  lemma PartialSaleKeepsCost(p: Position, shares: real)
    requires 0.0 < shares <= p.shares && p.cost >= 0.0 && OnGrid(p.cost, ACCOUNTING_Q)
    ensures 0.0 <= CostRemoved(p, shares) <= p.cost
    ensures OnGrid(p.cost - CostRemoved(p, shares), ACCOUNTING_Q)
  {
    GridZero(ACCOUNTING_Q);
    hide RoundHalfEven, OnGrid, ProRata;
    if shares != p.shares {
      ProRataWithin(p.cost, shares, p.shares);
      RoundedPart(p.cost, ProRata(p.cost, shares, p.shares));
    }
  }

  /** Off the grid it can: the exact condition on the pro-rata cost `x`, for a partial sale. The
      remaining cost is negative just when `x` rounds up past the last grid point below the cost. */
  lemma PartialSaleExactly(p: Position, shares: real)
    requires 0.0 < shares < p.shares && p.cost >= 0.0
    ensures (p.cost - CostRemoved(p, shares) >= 0.0) <==> StaysBelow(ProRata(p.cost, shares, p.shares), p.cost)
  {
    hide RoundHalfEven, StaysBelow, ProRata;
    ProRataWithin(p.cost, shares, p.shares);
    RoundsPast(p.cost, ProRata(p.cost, shares, p.shares));
  }

  ghost predicate StaysBelow(x: real, cost: real) {
    var half := FloorTo(cost, ACCOUNTING_Q) + ACCOUNTING_Q / 2.0;
    x < half || (x == half && (cost / ACCOUNTING_Q).Floor % 2 == 0)
  }

  lemma RoundsPast(cost: real, x: real)
    requires 0.0 <= x <= cost
    ensures (RoundHalfEven(x, ACCOUNTING_Q) <= cost) <==> StaysBelow(x, cost)
  {
  }

  const DUST_BUY: Fill := Fill(FillId(1, 0), Some(1), Some(1), "c", "t", "Up", Buy, 0.0001, 0.0000006, 0.0, 1)
  const DUST_SALE: Fill := Fill(FillId(2, 0), Some(2), Some(2), "c", "t", "Up", Sell, 0.0001, 0.00000054, 0.0, 2)

  /** A failing run: 0.0000006 shares bought at 0.0001 cost 0.00000000006; selling nine tenths of
      them removes a whole grid step of cost and leaves less than nothing. */
  lemma OffGridCostCanGoNegative(cash: real, start: int)
    requires cash >= 1.0
    ensures var ops := [FillOp(DUST_BUY), FillOp(DUST_SALE)];
      && LegalOps(ops)
      && ApplyFill(WithCash(cash, start), DUST_BUY).Ok? && ApplyFill(Step(WithCash(cash, start), ops[0]), DUST_SALE).Ok?
      && |Run(WithCash(cash, start), ops).positions| == 1
      && Run(WithCash(cash, start), ops).positions[0].cost == -0.00000000004
  {
    hide Step, ApplyFill, WithCash;
    var ops, l := [FillOp(DUST_BUY), FillOp(DUST_SALE)], WithCash(cash, start);
    DustBought(cash, start);
    var l1 := Step(l, ops[0]);
    DustSold(l1, l1.positions[0]);
    TwoSteps(l, ops[0], ops[1]);
  }

  lemma TwoSteps(l: Ledger, first: Op, second: Op)
    requires LegalOp(first) && LegalOp(second)
    ensures LegalOps([first, second]) && Run(l, [first, second]) == Step(Step(l, first), second)
  {
    hide Step;
    var ops := [first, second];
    assert ops[1..] == [second] && [second][1..] == [];
    assert Run(Step(Step(l, first), second), []) == Step(Step(l, first), second);
    assert Run(Step(l, first), [second]) == Step(Step(l, first), second);
  }

  lemma DustBought(cash: real, start: int)
    requires cash >= 1.0
    ensures ApplyFill(WithCash(cash, start), DUST_BUY).Ok?
    ensures var l := Step(WithCash(cash, start), FillOp(DUST_BUY));
      |l.positions| == 1 && l.positions[0].tokenId == "t" && l.positions[0].cost == 0.00000000006 && l.positions[0].shares == 0.0000006
  {
    assert BuyCost(DUST_BUY) == 0.00000000006;
  }

  lemma DustSold(l: Ledger, p: Position)
    requires l.positions == [p] && p.tokenId == "t" && p.cost == 0.00000000006 && p.shares == 0.0000006
    ensures ApplyFill(l, DUST_SALE).Ok?
    ensures var after := Step(l, FillOp(DUST_SALE)); |after.positions| == 1 && after.positions[0].cost == -0.00000000004
  {
    hide CostRemoved, Notional;
    DustRemoved(p);
    assert IndexOf(l.positions, "t") == 0;
  }

  lemma DustRemoved(p: Position)
    requires p.cost == 0.00000000006 && p.shares == 0.0000006
    ensures CostRemoved(p, 0.00000054) == 0.0000000001
  {
    assert p.cost * 0.00000054 / p.shares == 0.000000000054;
    assert (0.000000000054 / ACCOUNTING_Q).Floor == 0;
  }

  /** Prices on the finest tick, shares on the token's six decimals, fees on the accounting grid. */
  ghost predicate GridFill(f: Fill) {
    OnGrid(f.price, 0.0001) && OnGrid(f.shares, 0.000001) && OnGrid(f.fee, ACCOUNTING_Q)
  }

  lemma GridCost(f: Fill)
    requires GridFill(f)
    ensures OnGrid(BuyCost(f), ACCOUNTING_Q)
  {
    var j: int :| f.price == Multiple(j, 0.0001);
    var k: int :| f.shares == Multiple(k, 0.000001);
    GridProduct(j, k);
    GridAdd(Notional(f.price, f.shares), f.fee, ACCOUNTING_Q);
  }

  lemma GridProduct(j: int, k: int)
    ensures OnGrid(Notional(Multiple(j, 0.0001), Multiple(k, 0.000001)), ACCOUNTING_Q)
  {
    var a, b := j as real, k as real;
    assert (a * 0.0001) * (b * 0.000001) == (a * b) * 0.0000000001;
    assert (j * k) as real == a * b;
    assert Notional(Multiple(j, 0.0001), Multiple(k, 0.000001)) == Multiple(j * k, ACCOUNTING_Q);
  }

  ghost predicate GridOp(op: Op) {
    op.FillOp? ==> GridFill(op.fill)
  }

  lemma {:induction false} CostsStayOnGrid(l: Ledger, ops: seq<Op>)
    requires LegalOps(ops) && (forall i :: 0 <= i < |ops| ==> GridOp(ops[i]))
    requires WellKept(l) && CostsOnGrid(l.positions)
    ensures CostsOnGrid(Run(l, ops).positions)
    decreases |ops|
  {
    if ops != [] {
      assert LegalOp(ops[0]) && GridOp(ops[0]);
      CostsOnGridStep(l, ops[0]);
      WellKeptStep(l, ops[0]);
      CostsStayOnGrid(Step(l, ops[0]), ops[1..]);
    }
  }

  lemma WellKeptStep(l: Ledger, op: Op)
    requires WellKept(l) && LegalOp(op)
    ensures WellKept(Step(l, op))
  {
    match op
    case FillOp(f) =>
      hide Notional, CostRemoved;
      var i := IndexOf(l.positions, f.tokenId);
      if i < |l.positions| {
        DropKeeps(l.positions, i);
      }
    case SettleOp(condition, winner, ts) =>
      WellKeptSettle(l, 0, condition, winner, ts);
    case MarkOp(bids, now) =>
  }

  lemma {:induction false} WellKeptSettle(l: Ledger, kept: nat, condition: ConditionId, winner: Outcome, ts: int)
    requires WellKept(l) && kept <= |l.positions|
    ensures WellKept(SettleFrom(l, kept, condition, winner, ts))
    ensures forall p :: p in SettleFrom(l, kept, condition, winner, ts).positions ==> p in l.positions
    decreases |l.positions| - kept
  {
    if kept < |l.positions| {
      if l.positions[kept].conditionId != condition || l.positions[kept].shares == 0.0 {
        WellKeptSettle(l, kept + 1, condition, winner, ts);
      } else {
        DropKeeps(l.positions, kept);
        var q := SettledPosition(l.positions[kept], winner);
        assert Drop(l.positions[kept := q], kept) == Drop(l.positions, kept);
        WellKeptSettle(SettleAt(l, kept, winner, ts), kept, condition, winner, ts);
      }
    }
  }

  lemma CostsOnGridStep(l: Ledger, op: Op)
    requires WellKept(l) && CostsOnGrid(l.positions) && LegalOp(op) && GridOp(op)
    ensures CostsOnGrid(Step(l, op).positions)
  {
    match op
    case FillOp(f) =>
      if ApplyFill(l, f).Ok? {
        CostsOnGridFill(l, f);
      }
    case SettleOp(condition, winner, ts) =>
      WellKeptSettle(l, 0, condition, winner, ts);
      var after := Settle(l, condition, winner, ts).positions;
      forall i | 0 <= i < |after|
        ensures after[i].cost >= 0.0 && OnGrid(after[i].cost, ACCOUNTING_Q)
      {
        assert after[i] in l.positions;
      }
    case MarkOp(bids, now) =>
  }

  lemma CostsOnGridFill(l: Ledger, f: Fill)
    requires WellKept(l) && CostsOnGrid(l.positions) && f.Valid() && GridFill(f) && ApplyFill(l, f).Ok?
    ensures CostsOnGrid(ApplyFill(l, f).value.positions)
  {
    hide CostRemoved, Notional, OnGrid, GridFill;
    var i := IndexOf(l.positions, f.tokenId);
    if f.side.Buy? {
      GridBuy(f, if i < |l.positions| then l.positions[i].cost else 0.0);
    } else {
      PartialSaleKeepsCost(l.positions[i], f.shares);
    }
  }

  lemma GridBuy(f: Fill, cost: real)
    requires f.Valid() && GridFill(f) && (cost == 0.0 || (cost >= 0.0 && OnGrid(cost, ACCOUNTING_Q)))
    ensures cost + BuyCost(f) >= 0.0 && OnGrid(cost + BuyCost(f), ACCOUNTING_Q)
  {
    GridCost(f);
    MulLe(0.0, f.shares, f.price);
    GridZero(ACCOUNTING_Q);
    GridAdd(cost, BuyCost(f), ACCOUNTING_Q);
  }

  /** Over every run of fills on the grid no cost basis is ever negative, rounding included. */
  lemma CostNeverNegative(initial: real, start: int, ops: seq<Op>)
    requires LegalOps(ops) && (forall i :: 0 <= i < |ops| ==> GridOp(ops[i]))
    ensures CostsOnGrid(Run(WithCash(initial, start), ops).positions)
    ensures Exposure(Run(WithCash(initial, start), ops).positions) >= 0.0
  {
    CostsStayOnGrid(WithCash(initial, start), ops);
    SumNonNegative(CostOf, Run(WithCash(initial, start), ops).positions);
  }
}
