/** A run that overdraws. With the default policy, whose balance reserve is zero, an entry for all the
    cash and its fee at the limit is approved on the book of the moment. The book falls while the order
    is on its way; at the lower price the same dollars pay a higher fee, the venue's cash goes below
    zero and the portfolio refuses the fill. */
module OverdrawRun {
  import opened Decimals
  import opened Domain
  import opened Matching
  import opened PaperVenue
  import opened TradingDesk
  import opened OrderPath
  import opened OrderPathProof
  import opened ExecutionEngine
  import opened Decisions
  import Accounting
  import Execution
  import Rates
  import RiskEngine
  import Trades

  const MARKET: Market := Market("c", Token("t", "Up"), Token("u", "Down"), 0.01, 0.1, 5.0)
  const SETUP: Setup := Setup(Config(150, 0, 50, 2000, 1.0), 1, map["c" := MARKET], 1)

  /** The book of the decision, and the one the order meets. */
  const BEFORE: Books := map["t" := DEEP]
  const FALLEN: Books := map["t" := Snapshot([], [Level(0.1, 100.0)])]

  const ENTRY: Execution.Decision := Execution.Decision("d", true, Buy, "t", 0.5, 10.0, 20.0, 0)
  const ORDER: OrderIntent := OrderIntent(1, "d", "c", "t", "Up", Buy, FAK, 0.5, 10.0, 0)
  const SUBMISSION: Step := SubmitOrder(ENTRY, "c", "Up", 1, Delivered, 0, false)
  const LOT: Lot := Lot(0.1, 100.0)

  const DECIDING: Sys := Start(10.5, 0).(books := BEFORE)

  lemma Fees()
    ensures Charges(0.1, 0.025, 0.02499) && LimitFee(SETUP.cfg, 0.1, 0.5) == 0.05
  {
    hide FeeRateAt, TakerFee;
    PerShare();
    ForTwenty();
    assert 0.025 / 0.5 == 0.05;
  }

  lemma PerShare()
    ensures FeeRateAt(0.1, 0.5) == 0.025 && FeeRateAt(0.1, 0.49) == 0.02499
  {
  }

  lemma ForTwenty()
    ensures TakerFee(0.1, 20.0, 0.5) == 20.0 * 0.025
  {
    hide FeeRateAt, CeilTo;
    PerShare();
    assert Multiple(50000, FEE_QUANTUM) == 0.5;
    GridStays(50000, FEE_QUANTUM);
  }

  lemma NothingLost()
    ensures Trades.Clear(DECIDING, {}, {}) && Quiet(DEFAULTS, DECIDING, MARKET, "t", Rates.RateView(0, 0, 0, 0, map[]))
  {
    hide ViewOf, RiskEngine.LossLimitBreached, Accounting.IndexOf;
    Unmarked(DECIDING.desk, 10.5);
    NoLoss(ViewOf(DECIDING.desk, 0));
  }

  lemma Unmarked(d: Desk, cash: real)
    requires d.ledger == Accounting.WithCash(cash, 0)
    ensures var view := ViewOf(d, 0);
      view.equity == cash && view.startOfDayEquity == cash && view.peakEquity == cash && view.consecutiveLosses == 0 && view.lastLossMs == None
  {
    hide Accounting.Marked, Execution.PendingBuyUsd;
  }

  lemma NoLoss(view: RiskEngine.View)
    requires view.equity == view.startOfDayEquity == view.peakEquity == 10.5
    ensures !RiskEngine.LossLimitBreached(DEFAULTS, view)
  {
    assert -0.0 / 10.5 == 0.0;
  }

  lemma EntryApproved()
    ensures Decided(EDGE, DEFAULTS, SETUP, DECIDING, SUBMISSION)
  {
    hide Charges, Quiet, Decided, Trades.Clear, FeeRateAt, TakerFee;
    Fees();
    NothingLost();
    TenDollars();
    EntryIsDecided(DEFAULTS, SETUP, DECIDING, SUBMISSION, Rates.RateView(0, 0, 0, 0, map[]), 0.025, 0.02499, 10.0, 1000, {}, {});
  }

  lemma TenDollars()
    ensures Multiple(1000, RiskEngine.CENT) == 10.0 && Accounting.Exposure([]) == 0.0 && 10.0 * (1.0 + 2.0 * 0.025) == 10.5
  {
  }

  // ---------------------------------------------------------------- the run

  lemma BuildsOrder()
    ensures Trades.Builds(SETUP, DECIDING, SUBMISSION, ORDER) && ORDER.Valid()
    ensures Validate(SETUP.cfg, DECIDING.venue, ORDER, MARKET) == None
  {
    hide FloorTo, OnTick, FeeRateAt, Charges;
    HalfOnTick();
    Fees();
  }

  /** A hundred shares at a tenth, for ten dollars and ninety cents of fee. */
  lemma HundredShares()
    ensures PlanOf(ORDER, FALLEN["t"].asks).lots == [LOT]
  {
    hide FloorTo;
    assert Multiple(10000, SHARE_LOT) == 100.0;
    GridStays(10000, SHARE_LOT);
    var levels := [Level(0.1, 100.0)];
    assert BuyTake(levels[0], 10.0) == 100.0;
    assert levels[1..] == [];
    assert BuyWalk([], 0.5, 0.0) == Walk([], 0.0);
    assert BuyWalk(levels, 0.5, 10.0) == Walk([LOT] + [], 0.0);
  }

  lemma NinetyCents()
    ensures LotFee(0.1, 1.0, LOT) == 0.9
  {
    hide CeilTo, FloorTo;
    assert 100.0 * FeeRateAt(0.1, 0.1) == 0.9;
    assert Multiple(90000, FEE_QUANTUM) == 0.9;
    GridStays(90000, FEE_QUANTUM);
  }

  lemma IsTrade()
    ensures Trades.Trades(SETUP, DECIDING, SUBMISSION, FALLEN, ORDER, LOT, {}, {})
    ensures var f := Trades.TradeFill(SETUP, DECIDING, SUBMISSION, ORDER, LOT);
      CashDelta(f) == -10.9 && Accounting.ApplyFill(DECIDING.desk.ledger, f).InvariantError?
  {
    hide PlanOf, LotFee, Validate, Trades.Builds;
    BuildsOrder();
    HundredShares();
    NinetyCents();
  }

  lemma NotCovered()
    ensures !Covered(SETUP, DECIDING, NO_ORDERS, ORDER)
  {
    assert PledgeTotal([], Pledges(SETUP, DECIDING, NO_ORDERS)) == 0.0;
    assert ReserveOf(SETUP, ORDER) > 10.5;
  }

  lemma FiveSteps(setup: Setup, w: World, a: Step, b: Step, c: Step, d: Step, e: Step)
    ensures Run(setup, w, [a, b, c, d, e]).sys
      == Next(setup, Next(setup, Next(setup, Next(setup, Next(setup, w.sys, a), b), c), d), e)
  {
    hide Next, NextWorld, Run;
    var w1 := NextWorld(setup, w, a);
    var w2 := NextWorld(setup, w1, b);
    var w3 := NextWorld(setup, w2, c);
    var w4 := NextWorld(setup, w3, d);
    Trades.RunFirst(setup, w, a, [b, c, d, e]);
    Trades.RunFirst(setup, w1, b, [c, d, e]);
    Trades.RunFirst(setup, w2, c, [d, e]);
    Trades.RunFirst(setup, w3, d, [e]);
    Trades.RunFirst(setup, w4, e, []);
    assert [a] + [b, c, d, e] == [a, b, c, d, e] && [b] + [c, d, e] == [b, c, d, e] && [c] + [d, e] == [c, d, e];
    assert [d] + [e] == [d, e] && [e] + [] == [e];
    Trades.NoSteps(setup, NextWorld(setup, w4, e));
  }

  /** The failing run: [the book of the decision, the submission, the fallen book, the order's arrival,
      the poll]. */
  lemma ApprovedEntryCanOverdraw()
    ensures SETUP.Valid() && DEFAULTS.Valid() && BooksWithin(BEFORE, SETUP.maxLevels) && BooksWithin(FALLEN, SETUP.maxLevels)
    ensures Next(SETUP, Start(10.5, 0), ChangeBooks(BEFORE)) == DECIDING && Decided(EDGE, DEFAULTS, SETUP, DECIDING, SUBMISSION)
    ensures !Covered(SETUP, DECIDING, NO_ORDERS, ORDER)
    ensures var s := Run(SETUP, Begin(10.5, 0), [ChangeBooks(BEFORE), SUBMISSION, ChangeBooks(FALLEN), Tick(200), PollAndApply]).sys;
      s.desk.raised && s.venue.cash == -0.4
  {
    hide Covered, Decided, Trades.Trades, Next, Accounting.ApplyFill, Trades.TradeFill, CashDelta, Trades.AfterTrade, Run, Setup.Valid,
      RiskEngine.Policy.Valid, BooksWithin;
    AllValid();
    EntryApproved();
    NotCovered();
    IsTrade();
    Trades.Traded(SETUP, DECIDING, SUBMISSION, FALLEN, ORDER, LOT, {}, {});
    RunEnds();
    BooksChanged();
  }

  lemma AllValid()
    ensures SETUP.Valid() && DEFAULTS.Valid() && BooksWithin(BEFORE, SETUP.maxLevels) && BooksWithin(FALLEN, SETUP.maxLevels)
  {
    assert "Up"[0] != "Down"[0] && "t"[0] != "u"[0];
  }

  lemma RunEnds()
    ensures Run(SETUP, Begin(10.5, 0), [ChangeBooks(BEFORE), SUBMISSION, ChangeBooks(FALLEN), Tick(200), PollAndApply]).sys
      == Trades.AfterTrade(SETUP, DECIDING, SUBMISSION, FALLEN)
  {
    hide Next, Run, Trades.Arrived;
    Trades.ArrivedIs(SETUP, DECIDING, SUBMISSION, FALLEN);
    FiveSteps(SETUP, Begin(10.5, 0), ChangeBooks(BEFORE), SUBMISSION, ChangeBooks(FALLEN), Tick(200), PollAndApply);
    BooksChanged();
  }

  lemma BooksChanged()
    ensures Next(SETUP, Start(10.5, 0), ChangeBooks(BEFORE)) == DECIDING
  {
  }
}
