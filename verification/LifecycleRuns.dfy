/** Whole runs of the lifecycle: any sequence of requests, halts, engagements and resets. */
module LifecycleRuns {
  import opened Domain
  import opened Lifecycle
  import opened HaltJournal
  import opened StateMachine
  import RiskEngine

  datatype System = System(m: Machine, flag: bool, sentinel: bool, log: seq<Record>, journal: Journal)
  {
    predicate Engaged() {
      flag || sentinel
    }
  }

  const BEGIN: System := System(START, false, false, [], NO_HALTS)

  datatype Command =
    | Ask(request: Request)
    | HaltNow(reason: string, manualOnly: bool, component: string, details: Option<string>)
    | Engage(reason: string, source: string, sentinelFails: bool)
    | TouchSentinel
    | ResetSwitch(operator: string)
    | Logged(ts: int)

  /** A command, when it runs, and when its audit records are appended. */
  datatype Timed = Timed(command: Command, now: int, logMs: int)

  function Apply(s: System, o: Reaction, logMs: int): System {
    match o
    case Refused(_) => s
    case Stayed(m) => s.(m := m)
    case Moved(m, change) =>
      var (journal, more) := Note(s.journal, change, logMs);
      s.(m := m, log := s.log + [StateChangeRecord(logMs, change)] + more, journal := journal)
  }

  function Step(s: System, t: Timed): System {
    match t.command
    case Ask(r) => Apply(s, Transition(s.m, r, t.now), t.logMs)
    case HaltNow(reason, manualOnly, component, details) => Apply(s, Halt(s.m, reason, manualOnly, component, details, t.now), t.logMs)
    case Engage(reason, source, fails) =>
      var marked := s.(flag := true, sentinel := s.sentinel || !fails, log := s.log + [OtherRecord(t.logMs)]);
      if s.m.state.KillSwitch? || s.m.state.Dead? then marked
      else Apply(marked, Transition(s.m, KillRequest(reason, source), t.now), t.logMs)
    case TouchSentinel => s.(sentinel := true)
    case ResetSwitch(operator) =>
      var cleared := s.(flag := false, sentinel := false, log := s.log + [OtherRecord(t.logMs)]);
      if s.m.state.KillSwitch? then Apply(cleared, Transition(s.m, ResetRequest(operator), t.now), t.logMs) else cleared
    case Logged(ts) => s.(log := s.log + [OtherRecord(ts)])
  }

  function Run(s: System, commands: seq<Timed>): System
    decreases |commands|
  {
    if commands == [] then s else Run(Step(s, commands[0]), commands[1..])
  }

  ghost predicate Stamped(commands: seq<Timed>) {
    forall i :: 0 <= i < |commands| ==> commands[i].now != 0
  }

  ghost predicate SystemOk(s: System) {
    Consistent(s.m) && Agrees(FoldAll(s.log), s.journal) && InStep(s.journal, s.m.state)
  }

  lemma OtherKeeps(s: System, logMs: int)
    requires SystemOk(s)
    ensures Agrees(FoldAll(s.log + [OtherRecord(logMs)]), s.journal)
  {
    FoldOne(s.log, OtherRecord(logMs));
  }

  lemma ApplyKeeps(s: System, r: Request, now: int, logMs: int)
    requires SystemOk(s) && now != 0
    ensures SystemOk(Apply(s, Transition(s.m, r, now), logMs))
  {
    hide Agrees, InStep, FoldAll, Note;
    TransitionIsSafe(s.m, r, now);
    var o := Transition(s.m, r, now);
    if o.Moved? {
      ChangeKeepsAgreement(s.log, s.journal, o.change, logMs);
    }
  }

  lemma StepKeeps(s: System, t: Timed)
    requires SystemOk(s) && t.now != 0
    ensures SystemOk(Step(s, t))
  {
    hide Agrees, InStep, FoldAll, Apply;
    match t.command
    case Ask(r) => ApplyKeeps(s, r, t.now, t.logMs);
    case HaltNow(reason, manualOnly, component, details) =>
      if s.m.state.KillSwitch? || s.m.state.Dead? || s.m.state.Disabled? {
        StayPut(s, t.logMs);
      } else {
        ApplyKeeps(s, HaltRequest(reason, manualOnly, component, details), t.now, t.logMs);
      }
    case Engage(reason, source, fails) =>
      OtherKeeps(s, t.logMs);
      var marked := s.(flag := true, sentinel := s.sentinel || !fails, log := s.log + [OtherRecord(t.logMs)]);
      ApplyKeeps(marked, KillRequest(reason, source), t.now, t.logMs);
    case TouchSentinel =>
    case ResetSwitch(operator) =>
      OtherKeeps(s, t.logMs);
      ApplyKeeps(s.(flag := false, sentinel := false, log := s.log + [OtherRecord(t.logMs)]), ResetRequest(operator), t.now, t.logMs);
    case Logged(ts) => OtherKeeps(s, ts);
  }

  lemma StayPut(s: System, logMs: int)
    ensures Apply(s, Stayed(s.m), logMs) == s
  {
  }

  lemma {:induction false} RunKeeps(s: System, commands: seq<Timed>)
    requires SystemOk(s) && Stamped(commands)
    ensures SystemOk(Run(s, commands))
    decreases |commands|
  {
    if commands != [] {
      hide SystemOk, Step;
      StepKeeps(s, commands[0]);
      RunKeeps(Step(s, commands[0]), commands[1..]);
    }
  }

  lemma BeginOk()
    ensures SystemOk(BEGIN)
  {
  }

  /** Round trip: the history rebuilt from the log has exactly one row per halt, in order, each
      with the journal's own cause, component, recovery start and downtime. */
  lemma RebuiltIsJournal(commands: seq<Timed>)
    requires Stamped(commands)
    ensures var s := Run(BEGIN, commands);
      FoldAll(s.log).rows == RowsOf(s.journal.halts) && (FoldAll(s.log).active <==> s.journal.active)
  {
    hide Run;
    BeginOk();
    RunKeeps(BEGIN, commands);
  }

  /** The journal has an open halt throughout every stop, and none while the bot trades. */
  lemma OpenHaltWhileStopped(commands: seq<Timed>)
    requires Stamped(commands)
    ensures var s := Run(BEGIN, commands);
      && (s.m.state.Stopped() ==> OpenHalt(s.journal).Some?)
      && (s.m.state.Trading() ==> OpenHalt(s.journal).None?)
      && (s.m.authorized <==> s.m.state.Live?)
  {
    hide Run;
    BeginOk();
    RunKeeps(BEGIN, commands);
  }

  // ---------------------------------------------------------------- stops hold

  /** Calls that only an operator makes. */
  ghost predicate ByOperator(c: Command) {
    c.ResetSwitch? || (c.Ask? && c.request.manual)
  }

  lemma StoppedStep(s: System, t: Timed)
    requires s.m.state.Stopped() && s.m.manualOnly && !ByOperator(t.command)
    ensures Step(s, t).m.state == s.m.state && Step(s, t).m.manualOnly
  {
    hide Note;
  }

  /** A manual-only stop holds, in the same state, until an operator acts. */
  lemma {:induction false} StoppedUntilOperator(s: System, commands: seq<Timed>)
    requires s.m.state.Stopped() && s.m.manualOnly
    requires forall i :: 0 <= i < |commands| ==> !ByOperator(commands[i].command)
    ensures Run(s, commands).m.state == s.m.state && Run(s, commands).m.manualOnly
    decreases |commands|
  {
    if commands != [] {
      hide Step;
      StoppedStep(s, commands[0]);
      StoppedUntilOperator(Step(s, commands[0]), commands[1..]);
    }
  }

  lemma EngagedStep(s: System, t: Timed)
    requires s.Engaged() && !t.command.ResetSwitch?
    ensures Step(s, t).Engaged()
  {
    hide Note, Transition;
  }

  lemma {:induction false} EngagedRun(s: System, commands: seq<Timed>)
    requires s.Engaged() && forall i :: 0 <= i < |commands| ==> !commands[i].command.ResetSwitch?
    ensures Run(s, commands).Engaged()
    decreases |commands|
  {
    if commands != [] {
      hide Step;
      EngagedStep(s, commands[0]);
      EngagedRun(Step(s, commands[0]), commands[1..]);
    }
  }

  /** Between an engage and the next reset, whatever else happens and even where the machine
      refused to move, the risk engine allows no entry. */
  lemma NoEntryUntilReset(s: System, engage: Timed, after: seq<Timed>, policy: RiskEngine.Policy, ctx: RiskEngine.Context, c: RiskEngine.Candidate)
    requires engage.command.Engage? && c.market.Valid()
    requires forall i :: 0 <= i < |after| ==> !after[i].command.ResetSwitch?
    requires ctx.killSwitch == Run(Step(s, engage), after).Engaged()
    ensures !RiskEngine.EntryAllowed(policy, ctx, c)
  {
    hide Run, Step, RiskEngine.EntrySize;
    EngageEngages(s, engage);
    EngagedRun(Step(s, engage), after);
  }

  lemma EngageEngages(s: System, engage: Timed)
    requires engage.command.Engage?
    ensures Step(s, engage).Engaged()
  {
    hide Transition, Note;
  }

  /** After an engage the machine is in KILL_SWITCH or DEAD, except exactly when it was held in a
      manual-only HALTED, where it stays; either way nothing but an operator moves it on. */
  lemma EngageStopsExactly(s: System, engage: Timed)
    requires engage.command.Engage? && Consistent(s.m)
    ensures var after := Step(s, engage).m;
      && (!after.state.KillSwitch? && !after.state.Dead? <==> s.m.state.Halted? && s.m.manualOnly)
      && (s.m.state.Halted? && s.m.manualOnly ==> after == s.m)
      && !after.state.Trading() && (after.state.Dead? || (after.state.Stopped() && after.manualOnly))
  {
    hide Note;
  }

  /** One step of trading history: trading is entered only from SYNCING, in every reachable state. */
  lemma TradingOnlyFromSyncing(commands: seq<Timed>, next: Timed)
    requires Stamped(commands)
    ensures var s := Run(BEGIN, commands);
      Step(s, next).m.state.Trading() && Step(s, next).m.state != s.m.state ==> s.m.state.Syncing? && next.command.Ask?
  {
    hide Run, Step;
    BeginOk();
    RunKeeps(BEGIN, commands);
    EntersFromSyncing(Run(BEGIN, commands), next);
  }

  lemma EntersFromSyncing(s: System, next: Timed)
    requires Consistent(s.m)
    ensures Step(s, next).m.state.Trading() && Step(s, next).m.state != s.m.state ==> s.m.state.Syncing? && next.command.Ask?
  {
    hide Note;
  }
}
