/** The portfolio as the class it is, each method proved equal to its function in `Accounting`. */
module Portfolio {
  import opened Decimals
  import opened Domain
  import opened Matching
  import opened Accounting
  import opened Sums

  class Portfolio {
    var cash: real
    var startOfDayEquity: real
    var peakEquity: real
    var equity: real
    var riskEquity: real
    var positions: seq<Position>
    var closedTrades: seq<ClosedTrade>
    var realized: real
    var feesPaid: real
    var consecutiveLosses: nat
    var lastLossMs: Option<int>
    var currentDay: int
    var marks: map<TokenId, real>

    function State(): Ledger
      reads this
    {
      Ledger(cash, startOfDayEquity, peakEquity, equity, riskEquity, positions, closedTrades, realized,
             feesPaid, consecutiveLosses, lastLossMs, currentDay, marks)
    }

    constructor (initialCash: real, now: int)
      ensures State() == WithCash(initialCash, now)
    {
      cash, startOfDayEquity, peakEquity, equity, riskEquity := initialCash, initialCash, initialCash, initialCash, initialCash;
      positions, closedTrades, marks := [], [], map[];
      realized, feesPaid, consecutiveLosses := 0.0, 0.0, 0;
      lastLossMs, currentDay := None, now / DAY_MS;
    }

    /** Raises (returns `InvariantError`) and changes nothing when the fill cannot be afforded or
        sells more than is held. */
    method ApplyFill(fill: Fill) returns (r: Result<Option<ClosedTrade>>)
      requires fill.Valid()
      modifies this
      ensures var expected := Accounting.ApplyFill(old(State()), fill);
        && r.Ok? == expected.Ok?
        && State() == (if expected.Ok? then expected.value else old(State()))
      ensures r.Ok? && r.value.Some? ==> closedTrades == old(closedTrades) + [r.value.value]
      ensures r.Ok? && r.value.None? ==> closedTrades == old(closedTrades)
    {
      hide Notional, RoundHalfEven, ProRata, Close;
      var i := IndexOf(positions, fill.tokenId);
      if fill.side.Buy? {
        hide ApplySell;
        var cost := Notional(fill.price, fill.shares) + fill.fee;
        if cost > cash + CASH_TOLERANCE {
          return InvariantError;
        }
        if i == |positions| {
          positions := positions + [Opened(fill)];
        }
        cash := cash - cost;
        var pos := positions[i];
        positions := positions[i := pos.(
          shares := pos.shares + fill.shares, cost := pos.cost + cost, fees := pos.fees + fill.fee,
          entryShares := pos.entryShares + fill.shares, entryCost := pos.entryCost + cost)];
        feesPaid := feesPaid + fill.fee;
        return Ok(None);
      }
      hide ApplyBuy;
      if i == |positions| || fill.shares > positions[i].shares {
        return InvariantError;
      }
      var trade := SellFrom(i, fill);
      r := Ok(trade);
    }

    /** The fill's part of the position goes with its part of the cost; a position sold out is closed. */
    method SellFrom(i: nat, fill: Fill) returns (trade: Option<ClosedTrade>)
      requires fill.Valid() && fill.side.Sell? && i == IndexOf(positions, fill.tokenId) < |positions| && fill.shares <= positions[i].shares
      modifies this
      ensures Accounting.ApplySell(old(State()), fill) == Ok(State())
      ensures trade.Some? ==> closedTrades == old(closedTrades) + [trade.value]
      ensures trade.None? ==> closedTrades == old(closedTrades)
    {
      hide Notional, RoundHalfEven, ProRata, Close;
      var pos := positions[i];
      var proceeds := Notional(fill.price, fill.shares) - fill.fee;
      var removed := if fill.shares == pos.shares then pos.cost
                     else RoundHalfEven(ProRata(pos.cost, fill.shares, pos.shares), ACCOUNTING_Q);
      var pnl := proceeds - removed;
      cash := cash + proceeds;
      pos := pos.(shares := pos.shares - fill.shares, cost := pos.cost - removed,
                  realized := pos.realized + pnl, fees := pos.fees + fill.fee);
      positions := positions[i := pos];
      realized := realized + pnl;
      feesPaid := feesPaid + fill.fee;
      if pos.shares == 0.0 {
        var closed := ClosePosition(i, fill.tsMs, SoldOut);
        return Some(closed);
      }
      trade := None;
    }

    method ClosePosition(i: nat, ts: int, kind: ExitKind) returns (trade: ClosedTrade)
      requires i < |positions|
      modifies this
      ensures State() == Close(old(State()), i, old(positions[i]), ts, kind)
      ensures trade == TradeOf(old(positions[i]), ts, kind) && closedTrades == old(closedTrades) + [trade]
    {
      var pos := positions[i];
      trade := ClosedTrade(pos.tokenId, pos.openedMs, ts, pos.entryShares, pos.entryCost,
                           pos.entryCost + pos.realized, pos.fees, pos.realized, kind);
      closedTrades := closedTrades + [trade];
      positions := positions[..i] + positions[i + 1..];
      marks := marks - {pos.tokenId};
      if trade.pnl < 0.0 {
        consecutiveLosses := consecutiveLosses + 1;
        lastLossMs := Some(ts);
      } else {
        consecutiveLosses := 0;
      }
    }

    method Settle(condition: ConditionId, winner: Outcome, ts: int) returns (closed: seq<ClosedTrade>)
      modifies this
      ensures State() == Accounting.Settle(old(State()), condition, winner, ts)
      ensures closedTrades == old(closedTrades) + closed
    {
      hide SettleFrom;
      closed := [];
      var i := 0;
      while i < |positions|
        invariant i <= |positions|
        invariant SettleFrom(State(), i, condition, winner, ts) == Accounting.Settle(old(State()), condition, winner, ts)
        invariant closedTrades == old(closedTrades) + closed
        decreases |positions| - i
      {
        var pos := positions[i];
        SettleFromIs(State(), i, condition, winner, ts);
        if pos.conditionId != condition || pos.shares == 0.0 {
          i := i + 1;
        } else {
          var payout := if pos.outcome == winner then pos.shares else 0.0;
          var pnl := payout - pos.cost;
          cash := cash + payout;
          realized := realized + pnl;
          positions := positions[i := pos.(realized := pos.realized + pnl, cost := 0.0, shares := 0.0)];
          var trade := ClosePosition(i, ts, Settlement);
          closed := closed + [trade];
        }
      }
      SettleFromIs(State(), i, condition, winner, ts);
    }

    method MarkToMarket(bids: map<TokenId, Option<real>>, now: int)
      modifies this
      ensures State() == Mark(old(State()), bids, now)
      ensures currentDay == now / 86_400_000
      ensures startOfDayEquity == if currentDay == old(currentDay) then old(startOfDayEquity) else riskEquity
    {
      hide Marked, MarkedValue, ConservativeValue;
      UpdateMarks(bids);
      var value, conservative := Values();
      equity := cash + value;
      riskEquity := cash + conservative;
      var day := now / DAY_MS;
      if day != currentDay {
        currentDay := day;
        startOfDayEquity := riskEquity;
      }
      peakEquity := Max(peakEquity, riskEquity);
    }

    method Values() returns (value: real, conservative: real)
      ensures value == MarkedValue(positions, marks) && conservative == ConservativeValue(positions, marks)
    {
      hide MarkedAt;
      value, conservative := 0.0, 0.0;
      var i := 0;
      while i < |positions|
        invariant i <= |positions|
        invariant value + MarkedValue(positions[i..], marks) == MarkedValue(positions, marks)
        invariant conservative + ConservativeValue(positions[i..], marks) == ConservativeValue(positions, marks)
      {
        assert positions[i..][0] == positions[i] && positions[i..][1..] == positions[i + 1..];
        var marked := MarkedAt(positions[i], marks);
        value := value + marked;
        conservative := conservative + Min(marked, positions[i].cost);
        i := i + 1;
      }
    }

    method UpdateMarks(bids: map<TokenId, Option<real>>)
      modifies this`marks
      ensures marks == Marked(old(State()), bids)
    {
      hide Has;
      var todo := bids.Keys;
      assert marks == old(marks) + FreshMarks(positions, bids, {});
      while todo != {}
        invariant todo <= bids.Keys
        invariant marks == old(marks) + FreshMarks(positions, bids, bids.Keys - todo)
        decreases todo
      {
        var token :| token in todo;
        if Has(positions, token) && bids[token].Some? {
          marks := marks[token := bids[token].value];
        }
        todo := todo - {token};
      }
      assert bids.Keys - todo == bids.Keys;
    }

    method ExposureUsd() returns (total: real)
      ensures total == Exposure(positions)
    {
      total := 0.0;
      var i := 0;
      while i < |positions|
        invariant i <= |positions|
        invariant total + Sum(CostOf, positions[i..]) == Exposure(positions)
      {
        assert positions[i..][0] == positions[i] && positions[i..][1..] == positions[i + 1..];
        total := total + positions[i].cost;
        i := i + 1;
      }
    }
  }
}
