/** Comparing what the bot believes it holds with what the venue reports. */
module Reconciler {
  import opened Decimals
  import opened Domain

  datatype RemoteOrder = RemoteOrder(orderId: OrderId, token: TokenId)

  datatype Account = Account(complete: bool, collateral: real, positions: map<TokenId, real>, openOrders: seq<RemoteOrder>)

  /** `cash` is absent for a venue whose cash is not tracked; `ignored` are the tokens of settled
      markets that await redemption. */
  datatype Local = Local(
    positions: map<TokenId, real>,
    cash: Option<real>,
    openIds: set<OrderId>,
    knownIds: set<OrderId>,
    ignored: set<TokenId>)

  datatype Mismatch =
    | IncompleteRemote
    | PositionDiffers(token: TokenId, ours: real, theirs: real)
    | CashDiffers(ours: real, theirs: real)
    | ExternalOrder(order: RemoteOrder)
    | StaleLocalOrder(orderId: OrderId)
  {
    predicate Critical() {
      !StaleLocalOrder?
    }
  }

  datatype Report = Report(ok: bool, mismatches: seq<Mismatch>, checkedTokens: nat)

  function Shares(positions: map<TokenId, real>, token: TokenId): real {
    if token in positions then positions[token] else 0.0
  }

  datatype Tolerance = Tolerance(shares: real, balance: real)

  /** Held on either side, not waiting for redemption, and apart by more than the tolerance. */
  ghost predicate Differs(tol: Tolerance, local: Local, remote: Account, token: TokenId) {
    && (token in local.positions || token in remote.positions) && token !in local.ignored
    && Abs(Shares(local.positions, token) - Shares(remote.positions, token)) > tol.shares
  }

  ghost predicate CashApart(tol: Tolerance, local: Local, remote: Account) {
    local.cash.Some? && Abs(local.cash.value - remote.collateral) > tol.balance
  }

  function RemoteIds(remote: Account): set<OrderId> {
    set i | 0 <= i < |remote.openOrders| :: remote.openOrders[i].orderId
  }

  /** Exactly the mismatches a comparison owes the operator. */
  ghost predicate Owed(tol: Tolerance, local: Local, remote: Account, m: Mismatch) {
    match m
    case IncompleteRemote => !remote.complete
    case PositionDiffers(token, ours, theirs) =>
      Differs(tol, local, remote, token) && ours == Shares(local.positions, token) && theirs == Shares(remote.positions, token)
    case CashDiffers(ours, theirs) => CashApart(tol, local, remote) && local.cash == Some(ours) && theirs == remote.collateral
    case ExternalOrder(order) => order in remote.openOrders && order.orderId !in local.knownIds
    case StaleLocalOrder(id) => id in local.openIds && id !in RemoteIds(remote)
  }

  /** The ledgers agree where they were compared, the snapshot is whole, and no order is foreign. */
  ghost predicate Agrees(tol: Tolerance, local: Local, remote: Account) {
    && remote.complete
    && (forall token :: !Differs(tol, local, remote, token))
    && !CashApart(tol, local, remote)
    && forall order :: order in remote.openOrders ==> order.orderId in local.knownIds
  }

  class Reconciler {
    const tolerance: Tolerance

    constructor (tolerance: Tolerance)
      ensures this.tolerance == tolerance
    {
      this.tolerance := tolerance;
    }

    /** Passes just when everything compared agrees, and lists every disagreement: a token that either
        side holds counts, whichever it is, an absent one as zero. */
    method Compare(local: Local, remote: Account) returns (report: Report)
      ensures report.ok <==> Agrees(tolerance, local, remote)
      ensures forall m :: m in report.mismatches <==> Owed(tolerance, local, remote, m)
      ensures forall token: TokenId, ours: real, theirs: real :: PositionDiffers(token, ours, theirs) in report.mismatches <==>
        && token !in local.ignored
        && (token in local.positions || token in remote.positions)
        && ours == (if token in local.positions then local.positions[token] else 0.0)
        && theirs == (if token in remote.positions then remote.positions[token] else 0.0)
        && (ours - theirs > tolerance.shares || theirs - ours > tolerance.shares)
      ensures report.ok <==>
        && remote.complete
        && (forall m :: m in report.mismatches ==> !m.PositionDiffers?)
        && (local.cash.Some? ==> -tolerance.balance <= local.cash.value - remote.collateral <= tolerance.balance)
        && (forall i :: 0 <= i < |remote.openOrders| ==> remote.openOrders[i].orderId in local.knownIds)
      ensures report.checkedTokens == |(local.positions.Keys + remote.positions.Keys) - local.ignored|
    {
      hide RemoteIds, Shares;
      var mismatches := if remote.complete then [] else [IncompleteRemote];
      var positions := ComparePositions(local, remote);
      mismatches := mismatches + positions;
      if local.cash.Some? && Abs(local.cash.value - remote.collateral) > tolerance.balance {
        mismatches := mismatches + [CashDiffers(local.cash.value, remote.collateral)];
      }
      var external := ExternalOrders(local, remote);
      var stale := StaleOrders(local, remote);
      mismatches := mismatches + external + stale;
      assert forall m :: m in mismatches <==> Owed(tolerance, local, remote, m);
      var ok := NoneCritical(mismatches);
      OkIsAgreement(tolerance, local, remote, mismatches);
      DifferencesListed(tolerance, local, remote, mismatches);
      OkInPlainTerms(tolerance, local, remote, mismatches);
      report := Report(ok, mismatches, |(local.positions.Keys + remote.positions.Keys) - local.ignored|);
    }

    method ComparePositions(local: Local, remote: Account) returns (found: seq<Mismatch>)
      ensures forall m :: m in found <==> m.PositionDiffers? && Owed(tolerance, local, remote, m)
    {
      hide Shares;
      found := [];
      var todo := (local.positions.Keys + remote.positions.Keys) - local.ignored;
      while todo != {}
        invariant todo <= (local.positions.Keys + remote.positions.Keys) - local.ignored
        invariant forall m :: m in found <==>
          m.PositionDiffers? && m.token !in todo && Owed(tolerance, local, remote, m)
        decreases |todo|
      {
        var token :| token in todo;
        todo := todo - {token};
        var ours, theirs := Shares(local.positions, token), Shares(remote.positions, token);
        if Abs(ours - theirs) > tolerance.shares {
          found := found + [PositionDiffers(token, ours, theirs)];
        }
      }
    }

    method ExternalOrders(local: Local, remote: Account) returns (found: seq<Mismatch>)
      ensures forall m :: m in found <==> m.ExternalOrder? && Owed(tolerance, local, remote, m)
    {
      found := [];
      var i := 0;
      while i < |remote.openOrders|
        invariant i <= |remote.openOrders|
        invariant forall m :: m in found <==>
          m.ExternalOrder? && m.order in remote.openOrders[..i] && m.order.orderId !in local.knownIds
      {
        if remote.openOrders[i].orderId !in local.knownIds {
          found := found + [ExternalOrder(remote.openOrders[i])];
        }
        assert remote.openOrders[..i + 1] == remote.openOrders[..i] + [remote.openOrders[i]];
        i := i + 1;
      }
      assert remote.openOrders[..i] == remote.openOrders;
    }

    method StaleOrders(local: Local, remote: Account) returns (found: seq<Mismatch>)
      ensures forall m :: m in found <==> m.StaleLocalOrder? && Owed(tolerance, local, remote, m)
    {
      hide RemoteIds;
      found := [];
      var todo := local.openIds - RemoteIds(remote);
      while todo != {}
        invariant todo <= local.openIds - RemoteIds(remote)
        invariant forall m :: m in found <==>
          m.StaleLocalOrder? && m.orderId in local.openIds && m.orderId !in RemoteIds(remote) && m.orderId !in todo
        decreases |todo|
      {
        var id :| id in todo;
        todo := todo - {id};
        found := found + [StaleLocalOrder(id)];
      }
    }

    method NoneCritical(mismatches: seq<Mismatch>) returns (ok: bool)
      ensures ok <==> forall m :: m in mismatches ==> !m.Critical()
    {
      var i := 0;
      while i < |mismatches|
        invariant i <= |mismatches|
        invariant forall j :: 0 <= j < i ==> !mismatches[j].Critical()
      {
        if mismatches[i].Critical() {
          return false;
        }
        i := i + 1;
      }
      ok := true;
    }
  }

  lemma OkIsAgreement(tol: Tolerance, local: Local, remote: Account, mismatches: seq<Mismatch>)
    requires forall m :: m in mismatches <==> Owed(tol, local, remote, m)
    ensures (forall m :: m in mismatches ==> !m.Critical()) <==> Agrees(tol, local, remote)
  {
    hide RemoteIds, Shares;
    if forall m :: m in mismatches ==> !m.Critical() {
      assert IncompleteRemote !in mismatches;
      forall token: TokenId
        ensures !Differs(tol, local, remote, token)
      {
        assert PositionDiffers(token, Shares(local.positions, token), Shares(remote.positions, token)) !in mismatches;
      }
      if local.cash.Some? {
        assert CashApart(tol, local, remote) <==> CashDiffers(local.cash.value, remote.collateral) in mismatches;
      }
      forall order | order in remote.openOrders
        ensures order.orderId in local.knownIds
      {
        assert ExternalOrder(order) !in mismatches;
      }
    }
  }

  /** The position mismatches, spelled out. */
  lemma DifferencesListed(tol: Tolerance, local: Local, remote: Account, mismatches: seq<Mismatch>)
    requires forall m :: m in mismatches <==> Owed(tol, local, remote, m)
    ensures forall token: TokenId, ours: real, theirs: real :: PositionDiffers(token, ours, theirs) in mismatches <==>
      && token !in local.ignored
      && (token in local.positions || token in remote.positions)
      && ours == (if token in local.positions then local.positions[token] else 0.0)
      && theirs == (if token in remote.positions then remote.positions[token] else 0.0)
      && (ours - theirs > tol.shares || theirs - ours > tol.shares)
  {
    hide RemoteIds;
    forall token: TokenId, ours: real, theirs: real
      ensures PositionDiffers(token, ours, theirs) in mismatches <==>
        && token !in local.ignored
        && (token in local.positions || token in remote.positions)
        && ours == (if token in local.positions then local.positions[token] else 0.0)
        && theirs == (if token in remote.positions then remote.positions[token] else 0.0)
        && (ours - theirs > tol.shares || theirs - ours > tol.shares)
    {
      assert PositionDiffers(token, ours, theirs) in mismatches <==> Owed(tol, local, remote, PositionDiffers(token, ours, theirs));
    }
  }

  lemma OkInPlainTerms(tol: Tolerance, local: Local, remote: Account, mismatches: seq<Mismatch>)
    requires forall m :: m in mismatches <==> Owed(tol, local, remote, m)
    ensures Agrees(tol, local, remote) <==>
      && remote.complete
      && (forall m :: m in mismatches ==> !m.PositionDiffers?)
      && (local.cash.Some? ==> -tol.balance <= local.cash.value - remote.collateral <= tol.balance)
      && (forall i :: 0 <= i < |remote.openOrders| ==> remote.openOrders[i].orderId in local.knownIds)
  {
    hide RemoteIds, Shares;
    if Agrees(tol, local, remote) {
      forall token: TokenId, ours: real, theirs: real
        ensures PositionDiffers(token, ours, theirs) !in mismatches
      {
        assert !Differs(tol, local, remote, token);
      }
      forall i | 0 <= i < |remote.openOrders|
        ensures remote.openOrders[i].orderId in local.knownIds
      {
        assert remote.openOrders[i] in remote.openOrders;
      }
    } else {
      if exists token: TokenId :: Differs(tol, local, remote, token) {
        var token: TokenId :| Differs(tol, local, remote, token);
        assert PositionDiffers(token, Shares(local.positions, token), Shares(remote.positions, token)) in mismatches;
      }
    }
  }
}
