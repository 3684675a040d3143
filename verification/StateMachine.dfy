/** The state machine and the kill switch as the objects they are, with the two listeners attached
    in the order the assembly attaches them. */
module StateMachine {
  import opened Domain
  import opened Lifecycle
  import opened HaltJournal

  class BotStateMachine {
    const audit: AuditLog
    const journal: HaltJournal
    var state: BotState
    var reason: string
    var manualOnly: bool
    var authorized: bool

    function State(): Machine
      reads this
    {
      Machine(state, reason, manualOnly, authorized)
    }

    ghost predicate Valid()
      reads this, journal
    {
      journal.Valid() && journal.audit == audit && Consistent(State())
    }

    constructor (audit: AuditLog, journal: HaltJournal)
      requires journal.Valid() && journal.audit == audit
      ensures Valid() && this.audit == audit && this.journal == journal && State() == START
    {
      this.audit, this.journal := audit, journal;
      state, reason, manualOnly, authorized := Disabled, "startup", false, false;
    }

    /** Moves and tells the listeners, or changes nothing but an escalated flag. */
    method Transition(r: Request, now: int, logMs: int) returns (o: Reaction)
      requires Valid()
      modifies this, audit, journal
      ensures Valid()
      ensures o == Lifecycle.Transition(old(State()), r, now) && State() == After(old(State()), o)
      ensures o.Moved? ==>
        && journal.Content() == Note(old(journal.Content()), o.change, logMs).0
        && audit.records == old(audit.records) + [StateChangeRecord(logMs, o.change)] + Note(old(journal.Content()), o.change, logMs).1
      ensures !o.Moved? ==> journal.Content() == old(journal.Content()) && audit.records == old(audit.records)
    {
      var current := state;
      TransitionIsSafe(State(), r, now);
      if r.target == current {
        if r.target.Stopped() && r.manualOnly {
          manualOnly := true;
        }
        return Stayed(State());
      }
      if r.target !in Targets(current) {
        return Refused(IllegalTransition);
      }
      if current.KillSwitch? && !r.manual {
        return Refused(KillSwitchNeedsOperator);
      }
      if current.Halted? && manualOnly && !r.manual {
        return Refused(HaltNeedsOperator);
      }
      if r.target.Live? && !r.authorized {
        return Refused(LiveNeedsAuthorization);
      }
      authorized := r.target.Live?;
      state := r.target;
      reason := r.reason;
      manualOnly := if r.target.Stopped() then r.manualOnly else false;
      if r.target.KillSwitch? {
        manualOnly := true;
      }
      var change := Change(current, r.target, r.reason, manualOnly, now, r.component, r.details);
      audit.Append(StateChangeRecord(logMs, change));
      journal.OnChange(change, logMs);
      o := Moved(State(), change);
    }

    method HaltNow(why: string, needsOperator: bool, component: string, details: Option<string>, now: int, logMs: int)
      returns (o: Reaction)
      requires Valid()
      modifies this, audit, journal
      ensures Valid() && !o.Refused?
      ensures o == Halt(old(State()), why, needsOperator, component, details, now) && State() == o.machine
      ensures o.Moved? ==>
        && journal.Content() == Note(old(journal.Content()), o.change, logMs).0
        && audit.records == old(audit.records) + [StateChangeRecord(logMs, o.change)] + Note(old(journal.Content()), o.change, logMs).1
      ensures !o.Moved? ==> journal.Content() == old(journal.Content()) && audit.records == old(audit.records)
    {
      HaltAlwaysStops(State(), why, needsOperator, component, details, now);
      if state.KillSwitch? || state.Dead? || state.Disabled? {
        return Stayed(State());
      }
      o := Transition(HaltRequest(why, needsOperator, component, details), now, logMs);
    }
  }

  const RESET_CONFIRMATION_PHRASE: string := "I-HAVE-INVESTIGATED-AND-ACCEPT-RESET"
  const MIN_NOTE: nat := 10

  function KillRequest(reason: string, source: string): Request {
    Request(BotState.KillSwitch, "kill switch: " + reason, false, true, false, "kill_switch:" + source, Some(reason))
  }

  function ResetRequest(operator: string): Request {
    Request(Disabled, "kill switch reset by " + operator, true, false, false, "lifecycle", None)
  }

  /** Engaged when the stored flag or the sentinel file says so. */
  class KillSwitchControl {
    const machine: BotStateMachine
    var flag: bool
    var sentinel: bool

    constructor (machine: BotStateMachine, flag: bool, sentinel: bool)
      ensures this.machine == machine && this.flag == flag && this.sentinel == sentinel
    {
      this.machine, this.flag, this.sentinel := machine, flag, sentinel;
    }

    predicate IsEngaged()
      reads this
    {
      flag || sentinel
    }

    /** Always engages, even when the state machine refuses to move; `refused` is that error. */
    method Engage(reason: string, source: string, sentinelFails: bool, now: int, logMs: int) returns (refused: bool)
      requires machine.Valid()
      modifies this, machine, machine.audit, machine.journal
      ensures machine.Valid() && IsEngaged() && flag
      ensures sentinel == (old(sentinel) || !sentinelFails)
      ensures refused <==> old(machine.state).Halted? && old(machine.manualOnly)
      ensures if refused then machine.State() == old(machine.State()) else machine.state.KillSwitch? || machine.state.Dead?
      ensures machine.State() == (if old(machine.state).KillSwitch? || old(machine.state).Dead? then old(machine.State())
                                  else After(old(machine.State()), Lifecycle.Transition(old(machine.State()), KillRequest(reason, source), now)))
    {
      flag := true;
      if !sentinelFails {
        sentinel := true;
      }
      machine.audit.Append(OtherRecord(logMs));
      refused := false;
      if !machine.state.KillSwitch? && !machine.state.Dead? {
        var o := machine.Transition(KillRequest(reason, source), now, logMs);
        refused := o.Refused?;
      }
    }

    /** At startup: an engaged switch forces the state. */
    method SyncFromPersistence(now: int, logMs: int) returns (o: Reaction)
      requires machine.Valid()
      modifies machine, machine.audit, machine.journal
      ensures machine.Valid() && flag == old(flag) && sentinel == old(sentinel)
      ensures IsEngaged() && machine.State() != old(machine.State()) ==> machine.state.KillSwitch?
      ensures !old(IsEngaged()) ==> machine.State() == old(machine.State())
      ensures old(IsEngaged()) && old(machine.state).Disabled? ==> machine.state.KillSwitch?
    {
      o := Stayed(machine.State());
      if IsEngaged() && !machine.state.KillSwitch? {
        o := machine.Transition(KillRequest("persisted", "startup").(component := "lifecycle"), now, logMs);
      }
    }

    /** Only with the exact phrase, a note of some length and an operator's name. */
    method Reset(operator: string, confirmation: string, noteLength: nat, now: int, logMs: int) returns (done: bool)
      requires machine.Valid()
      modifies this, machine, machine.audit, machine.journal
      ensures machine.Valid()
      ensures done <==> confirmation == "I-HAVE-INVESTIGATED-AND-ACCEPT-RESET" && noteLength >= 10 && operator != ""
      ensures done ==> !IsEngaged() && (old(machine.state).KillSwitch? ==> machine.state.Disabled?)
      ensures !done ==> IsEngaged() == old(IsEngaged()) && machine.State() == old(machine.State())
    {
      if confirmation != RESET_CONFIRMATION_PHRASE || noteLength < MIN_NOTE || operator == "" {
        return false;
      }
      flag := false;
      sentinel := false;
      machine.audit.Append(OtherRecord(logMs));
      if machine.state.KillSwitch? {
        var o := machine.Transition(ResetRequest(operator), now, logMs);
      }
      done := true;
    }
  }
}
