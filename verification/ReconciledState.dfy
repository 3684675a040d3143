/** The reconciliation that the bot runs while no order is open passes, on the paper venue, in
    every reachable state. */
module ReconciledState {
  import opened Domain
  import opened PaperVenue
  import opened OrderPath
  import opened OrderPathProof
  import Accounting
  import Execution
  import LedgerFacts
  import R = Reconciler

  function Tokens(positions: seq<Accounting.Position>): set<TokenId> {
    set i | 0 <= i < |positions| :: positions[i].tokenId
  }

  /** The bot's side, as the core hands it over; on the paper venue nothing awaits redemption. */
  function LocalOf(s: Sys): R.Local {
    R.Local(map t | t in Tokens(s.desk.ledger.positions) :: Accounting.SharesOf(s.desk.ledger.positions, t),
            Some(s.desk.ledger.cash),
            set id | id in s.desk.engine.orders && Execution.IsOpenOrder(s.desk.engine, id)
                     && s.desk.engine.orders[id].exchangeOrderId.Some? :: s.desk.engine.orders[id].exchangeOrderId.value,
            s.desk.engine.byExchange.Keys, {})
  }

  /** The venue's side, as its account snapshot reports it. */
  function AccountOf(v: Venue): R.Account {
    R.Account(true, v.cash, map t | t in v.positions && v.positions[t] > 0.0 :: v.positions[t], [])
  }

  lemma LocalShares(s: Sys, t: TokenId)
    requires Accounting.WellKept(s.desk.ledger)
    ensures R.Shares(LocalOf(s).positions, t) == Accounting.SharesOf(s.desk.ledger.positions, t)
  {
    var i := Accounting.IndexOf(s.desk.ledger.positions, t);
    if i < |s.desk.ledger.positions| {
      assert t in Tokens(s.desk.ledger.positions);
    }
  }

  lemma RemoteShares(v: Venue, t: TokenId)
    requires v.Held(t) >= 0.0
    ensures R.Shares(AccountOf(v).positions, t) == v.Held(t)
  {
  }

  /** In every reachable state without an open order, the comparison finds nothing at all, at any
      tolerance. */
  lemma ReconciliationPasses(setup: Setup, w: World, tol: R.Tolerance)
    requires Holds(setup, w) && tol.shares >= 0.0 && tol.balance >= 0.0
    requires forall id :: id in w.sys.desk.engine.orders ==> !w.sys.desk.engine.orders[id].status.IsOpen()
    ensures R.Agrees(tol, LocalOf(w.sys), AccountOf(w.sys.venue))
    ensures forall m :: !R.Owed(tol, LocalOf(w.sys), AccountOf(w.sys.venue), m)
  {
    hide IntentsOk, AllPendingOk, HistoryOk, StreamsOk, Coupled, CashCovers, SharesCover, OneOpenPerToken, BooksWithin, R.Shares,
      Accounting.SharesOf, LocalOf, AccountOf;
    IdleLedgersAgree(setup, w);
    var local, remote := LocalOf(w.sys), AccountOf(w.sys.venue);
    Sides(w.sys);
    forall token: TokenId
      ensures !R.Differs(tol, local, remote, token)
    {
      LocalShares(w.sys, token);
      LedgerFacts.SharesNonNegative(w.sys.desk.ledger, token);
      RemoteShares(w.sys.venue, token);
    }
    forall m
      ensures !R.Owed(tol, local, remote, m)
    {
      match m
      case PositionDiffers(token, _, _) => assert !R.Differs(tol, local, remote, token);
      case _ =>
    }
  }

  lemma Sides(s: Sys)
    ensures LocalOf(s).cash == Some(s.desk.ledger.cash) && LocalOf(s).ignored == {}
    ensures AccountOf(s.venue).complete && AccountOf(s.venue).collateral == s.venue.cash && AccountOf(s.venue).openOrders == []
    ensures (forall id :: id in s.desk.engine.orders ==> !s.desk.engine.orders[id].status.IsOpen()) ==> LocalOf(s).openIds == {}
  {
  }
}
