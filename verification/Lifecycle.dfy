/** The bot's lifecycle: its states, the transitions allowed between them, and what one request to
    move does. */
module Lifecycle {
  import opened Domain

  datatype BotState = Disabled | Initializing | Syncing | Paper | Live | Halted | KillSwitch | Dead
  {
    predicate Trading() {
      Paper? || Live?
    }

    predicate Stopped() {
      Halted? || KillSwitch?
    }
  }

  function Targets(from: BotState): set<BotState> {
    match from
    case Disabled => {Initializing, KillSwitch, Dead}
    case Initializing => {Syncing, Halted, Disabled, KillSwitch, Dead}
    case Syncing => {Paper, BotState.Live, Halted, Disabled, KillSwitch, Dead}
    case Paper => {Halted, Syncing, Disabled, KillSwitch, Dead}
    case Live => {Halted, Syncing, Disabled, KillSwitch, Dead}
    case Halted => {Syncing, Disabled, KillSwitch, Dead}
    case KillSwitch => {Disabled, Dead}
    case Dead => {}
  }

  datatype Change = Change(
    from: BotState,
    to_: BotState,
    reason: string,
    manualOnly: bool,
    ts: int,
    component: string,
    details: Option<string>)

  /** `authorized` says that a live authorization is stored. */
  datatype Machine = Machine(state: BotState, reason: string, manualOnly: bool, authorized: bool)

  /** A request: `manual` marks an operator's call, `authorized` one that brings an authorization. */
  datatype Request = Request(
    target: BotState,
    reason: string,
    manual: bool,
    manualOnly: bool,
    authorized: bool,
    component: string,
    details: Option<string>)

  datatype Refusal = IllegalTransition | KillSwitchNeedsOperator | HaltNeedsOperator | LiveNeedsAuthorization

  datatype Reaction = Moved(machine: Machine, change: Change) | Stayed(machine: Machine) | Refused(why: Refusal)

  const START: Machine := Machine(Disabled, "startup", false, false)

  function Transition(m: Machine, r: Request, now: int): Reaction {
    if r.target == m.state then
      Stayed(if r.target.Stopped() && r.manualOnly then m.(manualOnly := true) else m)
    else if r.target !in Targets(m.state) then Refused(IllegalTransition)
    else if m.state.KillSwitch? && !r.manual then Refused(KillSwitchNeedsOperator)
    else if m.state.Halted? && m.manualOnly && !r.manual then Refused(HaltNeedsOperator)
    else if r.target.Live? && !r.authorized then Refused(LiveNeedsAuthorization)
    else
      var flag := r.target.KillSwitch? || (r.target.Halted? && r.manualOnly);
      Moved(Machine(r.target, r.reason, flag, r.target.Live?),
            Change(m.state, r.target, r.reason, flag, now, r.component, r.details))
  }

  function HaltRequest(reason: string, manualOnly: bool, component: string, details: Option<string>): Request {
    Request(Halted, reason, false, manualOnly, false, component, details)
  }

  /** Blocks new entries; nothing to do where there is nothing to block. */
  function Halt(m: Machine, reason: string, manualOnly: bool, component: string, details: Option<string>, now: int): Reaction {
    if m.state.KillSwitch? || m.state.Dead? || m.state.Disabled? then Stayed(m)
    else Transition(m, HaltRequest(reason, manualOnly, component, details), now)
  }

  function After(m: Machine, o: Reaction): Machine {
    if o.Refused? then m else o.machine
  }

  // ---------------------------------------------------------------- what every request keeps

  /** Authorization is stored exactly while LIVE; only a stopped state is manual-only, and the
      kill switch always is. */
  ghost predicate Consistent(m: Machine) {
    && (m.authorized <==> m.state.Live?)
    && (m.manualOnly ==> m.state.Stopped())
    && (m.state.KillSwitch? ==> m.manualOnly)
  }

  /** Trading starts only from SYNCING, LIVE only with an authorization, and a manual-only stop is
      left only by an operator's call. */
  lemma TransitionIsSafe(m: Machine, r: Request, now: int)
    requires Consistent(m)
    ensures var o := Transition(m, r, now);
      && Consistent(After(m, o))
      && (o.Moved? ==>
            && o.change.from == m.state && o.change.to_ == o.machine.state == r.target != m.state
            && (r.target.Trading() ==> m.state.Syncing?)
            && (r.target.Live? ==> r.authorized)
            && (m.state.Stopped() && m.manualOnly ==> r.manual))
      && (o.Stayed? ==> o.machine.state == m.state && (m.manualOnly ==> o.machine.manualOnly))
  {
  }

  /** A halt is never refused, and afterwards no entry can be opened. */
  lemma HaltAlwaysStops(m: Machine, reason: string, manualOnly: bool, component: string, details: Option<string>, now: int)
    requires Consistent(m)
    ensures var o := Halt(m, reason, manualOnly, component, details, now);
      && !o.Refused? && Consistent(o.machine) && !o.machine.state.Trading() && !o.machine.state.Syncing? && !o.machine.state.Initializing?
      && (m.manualOnly ==> o.machine.manualOnly)
      && (o.Moved? ==> o.change.from == m.state && o.change.to_.Halted?)
  {
  }

  /** The kill switch request is refused in exactly one living state: a manual-only HALTED. */
  lemma KillRefusedExactly(m: Machine, r: Request, now: int)
    requires r.target.KillSwitch? && !r.manual && !m.state.Dead?
    ensures Transition(m, r, now).Refused? <==> m.state.Halted? && m.manualOnly
  {
  }

  /** Which requests move the machine, by where they want to go. Every stop but DEAD can be left, a
      manual-only one by an operator; nothing leaves DEAD. */
  lemma EnteredExactly(m: Machine, r: Request, now: int)
    ensures var o := Transition(m, r, now);
      var mayEnter :=
        match r.target
        case Initializing => m.state == Disabled
        case Syncing => m.state == Initializing || m.state == Paper || m.state == BotState.Live || m.state == Halted
        case Paper => m.state == Syncing
        case Live => m.state == Syncing && r.authorized
        case Halted => m.state == Initializing || m.state == Syncing || m.state == Paper || m.state == BotState.Live
        case _ => m.state != Dead;
      && (o.Moved? <==>
           && r.target != m.state && mayEnter
           && (m.state == KillSwitch || (m.state == Halted && m.manualOnly) ==> r.manual))
      && (o.Stayed? <==> r.target == m.state)
      && (o.Moved? ==>
           && o.machine.state == r.target && o.machine.reason == r.reason
           && (o.machine.manualOnly <==> r.target == KillSwitch || (r.target == Halted && r.manualOnly)))
  {
  }

  function Ask(target: BotState): Request {
    Request(target, "", false, false, false, "", None)
  }

  /** The bot trades again by itself after a halt, through SYNCING, exactly when the halt did not ask
      for an operator. */
  lemma HaltRecoversExactly(m: Machine, manualOnly: bool, now: int)
    requires Consistent(m) && (m.state.Trading() || m.state.Syncing?)
    ensures var halted := After(m, Halt(m, "", manualOnly, "", None, now));
      var synced := After(halted, Transition(halted, Ask(Syncing), now));
      var trading := After(synced, Transition(synced, Ask(Paper), now));
      trading.state.Trading() <==> !manualOnly
  {
  }
}
