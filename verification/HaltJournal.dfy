/** Every halt and every recovery from it, written to the audit log as it happens by two
    listeners, and the history rebuilt from that log. */
module HaltJournal {
  import opened Domain
  import opened Lifecycle

  const HISTORY_KEPT: nat := 50

  datatype HaltId = HaltId(ts: int, number: nat)

  datatype HaltRecord = HaltRecord(
    id: HaltId,
    atMs: int,
    from: BotState,
    to_: BotState,
    cause: string,
    component: string,
    condition: Option<string>,
    manualOnly: bool,
    supersedes: Option<HaltId>,
    recoveryStartedMs: Option<int>,
    recoveredMs: Option<int>,
    downtimeMs: Option<int>)

  /** One record of the audit log; `ts` is when it was appended. */
  datatype Record =
    | StateChangeRecord(ts: int, change: Change)
    | HaltEvent(ts: int, halt: HaltRecord)
    | RecoveryStarted(ts: int, id: HaltId, cause: string, haltedAtMs: int, haltedForMs: int, reason: string)
    | Recovered(ts: int, id: HaltId, cause: string, haltedAtMs: int, recoveredMs: int, downtimeMs: int)
    | OtherRecord(ts: int)

  /** All halts so far; when `active`, the last of them is not over. */
  datatype Journal = Journal(halts: seq<HaltRecord>, active: bool)

  const NO_HALTS: Journal := Journal([], false)

  function LastOf<T>(s: seq<T>, n: nat): seq<T> {
    if |s| <= n then s else s[|s| - n..]
  }

  function OpenHalt(j: Journal): Option<HaltRecord> {
    if j.active && j.halts != [] then Some(j.halts[|j.halts| - 1]) else None
  }

  function NewHalt(j: Journal, c: Change): HaltRecord {
    HaltRecord(HaltId(c.ts, |j.halts| + 1), c.ts, c.from, c.to_, c.reason, c.component, c.details, c.manualOnly,
               if OpenHalt(j).Some? then Some(OpenHalt(j).value.id) else None, None, None, None)
  }

  function WithLast(j: Journal, h: HaltRecord): seq<HaltRecord>
    requires j.halts != []
  {
    j.halts[|j.halts| - 1 := h]
  }

  /** The journal's reaction to a state change: its new content and the record it appends. */
  function Note(j: Journal, c: Change, logMs: int): (Journal, seq<Record>) {
    var current := OpenHalt(j);
    if c.to_.Stopped() then
      var h := NewHalt(j, c);
      (Journal(j.halts + [h], true), [HaltEvent(logMs, h)])
    else if c.from.Halted? && current.Some? then
      var h := current.value.(recoveryStartedMs := Some(c.ts));
      (Journal(WithLast(j, h), true), [RecoveryStarted(logMs, h.id, h.cause, h.atMs, c.ts - h.atMs, c.reason)])
    else if c.to_.Trading() && current.Some? then
      var h := current.value.(recoveredMs := Some(c.ts), downtimeMs := Some(c.ts - current.value.atMs));
      (Journal(WithLast(j, h), false), [Recovered(logMs, h.id, h.cause, h.atMs, c.ts, c.ts - h.atMs)])
    else (j, [])
  }

  // ---------------------------------------------------------------- what the journal says of a run

  function NoteEach(changes: seq<Change>): Journal {
    if changes == [] then NO_HALTS else Note(NoteEach(changes[..|changes| - 1]), changes[|changes| - 1], 0).0
  }

  /** A halt's own record: numbered and stamped when it began, linked to the one it took over from,
      and with a recovery and a downtime only once trading resumed, the downtime counted from its
      beginning. */
  ghost predicate WellTimed(j: Journal, i: nat)
    requires i < |j.halts|
  {
    var h := j.halts[i];
    && h.id == HaltId(h.atMs, i + 1) && h.to_.Stopped()
    && (h.recoveredMs.Some? ==> h.downtimeMs == Some(h.recoveredMs.value - h.atMs))
    && (h.recoveredMs.None? ==> h.downtimeMs == None)
    && (h.recoveredMs.None? <==> if i == |j.halts| - 1 then j.active else j.halts[i + 1].supersedes == Some(h.id))
    && (i > 0 && j.halts[i - 1].recoveredMs.Some? ==> h.supersedes == None)
    && (i == 0 ==> h.supersedes == None)
  }

  /** Over any changes at all, every halt in the journal is well timed, and only the last can be open. */
  lemma {:induction false} EveryHaltWellTimed(changes: seq<Change>)
    ensures var j := NoteEach(changes);
      (j.active ==> j.halts != []) && forall i :: 0 <= i < |j.halts| ==> WellTimed(j, i)
  {
    if changes != [] {
      EveryHaltWellTimed(changes[..|changes| - 1]);
      var j, c := NoteEach(changes[..|changes| - 1]), changes[|changes| - 1];
      hide NoteEach;
      NoteKeepsTimes(j, c);
    }
  }

  lemma NoteKeepsTimes(j: Journal, c: Change)
    requires (j.active ==> j.halts != []) && forall i :: 0 <= i < |j.halts| ==> WellTimed(j, i)
    ensures var after := Note(j, c, 0).0;
      (after.active ==> after.halts != []) && forall i :: 0 <= i < |after.halts| ==> WellTimed(after, i)
  {
    var after := Note(j, c, 0).0;
    forall i | 0 <= i < |after.halts|
      ensures WellTimed(after, i)
    {
      if i < |j.halts| {
        assert WellTimed(j, i);
      }
      if 0 < i {
        assert WellTimed(j, i - 1);
      }
    }
  }

  // ---------------------------------------------------------------- the classes

  class AuditLog {
    var records: seq<Record>

    constructor ()
      ensures records == []
    {
      records := [];
    }

    method Append(rec: Record)
      modifies this
      ensures records == old(records) + [rec]
    {
      records := records + [rec];
    }
  }

  class HaltJournal {
    const audit: AuditLog
    var number: nat
    var active: bool
    /** The newest halts; when `active`, the last entry is the halt that is not over. */
    var history: seq<HaltRecord>
    ghost var halts: seq<HaltRecord>

    ghost function Content(): Journal
      reads this
    {
      Journal(halts, active)
    }

    ghost predicate Valid()
      reads this
    {
      number == |halts| && history == LastOf(halts, HISTORY_KEPT) && (active ==> halts != [])
    }

    constructor (audit: AuditLog)
      ensures Valid() && this.audit == audit && Content() == NO_HALTS
    {
      this.audit := audit;
      number, active, history, halts := 0, false, [], [];
    }

    /** Called for every state change; the history keeps the last fifty halts. */
    method OnChange(c: Change, logMs: int)
      requires Valid()
      modifies this, audit
      ensures Valid()
      ensures (Content(), audit.records) == (Note(old(Content()), c, logMs).0, old(audit.records) + Note(old(Content()), c, logMs).1)
      ensures |history| == (if |halts| <= 50 then |halts| else 50) && history == halts[|halts| - |history|..]
    {
      LastIsKept(halts, HISTORY_KEPT);
      if c.to_.Stopped() {
        OnHalt(c, logMs);
      } else if c.from.Halted? && active {
        var h := history[|history| - 1].(recoveryStartedMs := Some(c.ts));
        ReplaceLast(h);
        audit.Append(RecoveryStarted(logMs, h.id, h.cause, h.atMs, c.ts - h.atMs, c.reason));
      } else if c.to_.Trading() && active {
        var h := history[|history| - 1];
        h := h.(recoveredMs := Some(c.ts), downtimeMs := Some(c.ts - h.atMs));
        ReplaceLast(h);
        audit.Append(Recovered(logMs, h.id, h.cause, h.atMs, c.ts, c.ts - h.atMs));
        active := false;
      } else {
        assert audit.records == audit.records + [];
      }
    }

    method OnHalt(c: Change, logMs: int)
      requires Valid() && c.to_.Stopped()
      modifies this, audit
      ensures Valid()
      ensures (Content(), audit.records) == (Note(old(Content()), c, logMs).0, old(audit.records) + Note(old(Content()), c, logMs).1)
    {
      LastIsKept(halts, HISTORY_KEPT);
      number := number + 1;
      var h := HaltRecord(HaltId(c.ts, number), c.ts, c.from, c.to_, c.reason, c.component, c.details, c.manualOnly,
                          if active then Some(history[|history| - 1].id) else None, None, None, None);
      active := true;
      LastAppend(halts, h, HISTORY_KEPT);
      history := LastOf(history + [h], HISTORY_KEPT);
      halts := halts + [h];
      audit.Append(HaltEvent(logMs, h));
    }

    method ReplaceLast(h: HaltRecord)
      requires Valid() && active
      modifies this`history, this`halts
      ensures Valid() && halts == old(halts)[|old(halts)| - 1 := h]
    {
      LastIsKept(halts, HISTORY_KEPT);
      LastReplace(halts, h, HISTORY_KEPT);
      history := history[|history| - 1 := h];
      halts := halts[|halts| - 1 := h];
    }
  }

  lemma LastIsKept(s: seq<HaltRecord>, n: nat)
    requires n > 0
    ensures s != [] ==> LastOf(s, n) != [] && LastOf(s, n)[|LastOf(s, n)| - 1] == s[|s| - 1]
  {
  }

  lemma LastAppend(s: seq<HaltRecord>, h: HaltRecord, n: nat)
    requires n > 0
    ensures LastOf(s + [h], n) == LastOf(LastOf(s, n) + [h], n)
  {
  }

  lemma LastReplace(s: seq<HaltRecord>, h: HaltRecord, n: nat)
    requires n > 0 && s != []
    ensures LastOf(s[|s| - 1 := h], n) == LastOf(s, n)[|LastOf(s, n)| - 1 := h]
  {
  }

  // ---------------------------------------------------------------- rebuilding the history

  datatype Row = Row(
    haltMs: int,
    from: BotState,
    to_: BotState,
    cause: string,
    component: string,
    condition: Option<string>,
    manualOnly: bool,
    id: Option<HaltId>,
    recoveryStartedMs: Option<int>,
    recoveredMs: Option<int>,
    downtimeMs: Option<int>)

  const UNKNOWN_COMPONENT: string := "unknown (log predates halt journal)"

  /** Rows so far; when `active`, the last row is still being filled in. */
  datatype Rebuilt = Rebuilt(rows: seq<Row>, active: bool)

  function Started(r: Rebuilt, row: Row): Rebuilt {
    Rebuilt(r.rows + [row], true)
  }

  function Replaced(r: Rebuilt, row: Row, active: bool): Rebuilt
    requires r.rows != []
  {
    Rebuilt(r.rows[|r.rows| - 1 := row], active)
  }

  /** A missing or zero stamp falls back to the record's own. */
  function StampOf(ts: int, recordTs: int): int {
    if ts != 0 then ts else recordTs
  }

  function FoldHalt(r: Rebuilt, h: HaltRecord): Rebuilt {
    var same := r.active && r.rows != [] && r.rows[|r.rows| - 1].haltMs == h.atMs && r.rows[|r.rows| - 1].cause == h.cause;
    var started := if same then r
                   else Started(r, Row(h.atMs, h.from, h.to_, h.cause, UNKNOWN_COMPONENT, None, h.manualOnly, None, None, None, None));
    var row := started.rows[|started.rows| - 1];
    Replaced(started, row.(id := Some(h.id), component := h.component,
                           condition := if h.condition.Some? then h.condition else row.condition), true)
  }

  function FoldChange(r: Rebuilt, c: Change, recordTs: int): Rebuilt {
    var ts := StampOf(c.ts, recordTs);
    if c.to_.Stopped() then
      Started(r, Row(ts, c.from, c.to_, c.reason, if c.component != "" then c.component else UNKNOWN_COMPONENT, c.details, c.manualOnly,
                     None, None, None, None))
    else if r.active && r.rows != [] then
      var row := r.rows[|r.rows| - 1];
      if c.from.Halted? then
        if row.recoveryStartedMs.None? then Replaced(r, row.(recoveryStartedMs := Some(ts)), true) else r
      else if c.to_.Trading() then Replaced(r, row.(recoveredMs := Some(ts), downtimeMs := Some(ts - row.haltMs)), false)
      else r
    else r
  }

  function Fold(r: Rebuilt, rec: Record): Rebuilt {
    match rec
    case HaltEvent(_, h) => FoldHalt(r, h)
    case RecoveryStarted(ts, _, _, _, _, _) =>
      if r.active && r.rows != [] && r.rows[|r.rows| - 1].recoveryStartedMs.None?
      then Replaced(r, r.rows[|r.rows| - 1].(recoveryStartedMs := Some(ts)), true) else r
    case Recovered(ts, _, _, _, recoveredMs, _) =>
      if r.active && r.rows != [] then
        var row := r.rows[|r.rows| - 1];
        var at := StampOf(recoveredMs, ts);
        Replaced(r, row.(recoveredMs := Some(at), downtimeMs := Some(at - row.haltMs)), false)
      else r
    case StateChangeRecord(ts, c) => FoldChange(r, c, ts)
    case OtherRecord(_) => r
  }

  function FoldAll(records: seq<Record>): Rebuilt {
    if records == [] then Rebuilt([], false)
    else Fold(FoldAll(records[..|records| - 1]), records[|records| - 1])
  }

  /** One row per halt, the newest `last` of them. */
  method HaltHistory(records: seq<Record>, last: nat) returns (rows: seq<Row>)
    ensures rows == LastOf(FoldAll(records).rows, last)
  {
    hide Fold;
    var r := Rebuilt([], false);
    for i := 0 to |records|
      invariant r == FoldAll(records[..i])
    {
      assert records[..i + 1][..i] == records[..i];
      r := Fold(r, records[i]);
    }
    assert records[..|records|] == records;
    rows := LastOf(r.rows, last);
  }

  lemma FoldOne(records: seq<Record>, rec: Record)
    ensures FoldAll(records + [rec]) == Fold(FoldAll(records), rec)
  {
    assert (records + [rec])[..|records|] == records;
  }

  // ---------------------------------------------------------------- the round trip

  /** What the rebuilt history should say of a halt. */
  function RowOf(h: HaltRecord): Row {
    Row(h.atMs, h.from, h.to_, h.cause, h.component, h.condition, h.manualOnly, Some(h.id), h.recoveryStartedMs, h.recoveredMs, h.downtimeMs)
  }

  function RowsOf(halts: seq<HaltRecord>): seq<Row> {
    seq(|halts|, i requires 0 <= i < |halts| => RowOf(halts[i]))
  }

  /** The rebuilt history says of every halt what the journal says. */
  ghost predicate Agrees(r: Rebuilt, j: Journal) {
    r == Rebuilt(RowsOf(j.halts), j.active) && (j.active ==> j.halts != [])
  }

  /** The journal's open halt has not started to recover while the machine is still HALTED. */
  ghost predicate InStep(j: Journal, state: BotState) {
    && (state.Stopped() ==> j.active)
    && (state.Trading() ==> !j.active)
    && (state.Halted? && j.halts != [] ==> j.halts[|j.halts| - 1].recoveryStartedMs.None?)
  }

  /** Both listeners' records of one change together keep the rebuilt history and the journal in
      agreement. */
  lemma ChangeKeepsAgreement(records: seq<Record>, j: Journal, c: Change, logMs: int)
    requires Agrees(FoldAll(records), j) && InStep(j, c.from) && c.ts != 0
    requires c.from.Halted? ==> !c.to_.Trading()
    requires c.to_.Trading() ==> c.from.Syncing?
    ensures var (j', more) := Note(j, c, logMs);
      && Agrees(FoldAll(records + [StateChangeRecord(logMs, c)] + more), j')
      && InStep(j', c.to_)
  {
    hide Note, Agrees, InStep, FoldAll, FoldChange, FoldHalt;
    var (j', more) := Note(j, c, logMs);
    NoteAgrees(FoldAll(records), j, c, logMs);
    FoldOne(records, StateChangeRecord(logMs, c));
    if more == [] {
      assert records + [StateChangeRecord(logMs, c)] + more == records + [StateChangeRecord(logMs, c)];
    } else {
      FoldOne(records + [StateChangeRecord(logMs, c)], more[0]);
      assert more == [more[0]];
    }
  }

  /** One change, folded: the state machine's record, then the journal's if there is one. */
  lemma NoteAgrees(r: Rebuilt, j: Journal, c: Change, logMs: int)
    requires Agrees(r, j) && InStep(j, c.from) && c.ts != 0
    requires c.from.Halted? ==> !c.to_.Trading()
    requires c.to_.Trading() ==> c.from.Syncing?
    ensures var (j', more) := Note(j, c, logMs);
      && |more| <= 1
      && Agrees(if more == [] then FoldChange(r, c, logMs) else Fold(FoldChange(r, c, logMs), more[0]), j')
      && InStep(j', c.to_)
  {
    var (j', more) := Note(j, c, logMs);
    if c.to_.Stopped() {
      hide FoldChange, FoldHalt;
      HaltRows(r, j, c, logMs);
    } else if j.active {
      ReplaceRow(j, j'.halts[|j'.halts| - 1]);
    }
  }

  lemma ReplaceRow(j: Journal, h: HaltRecord)
    requires j.halts != []
    ensures RowsOf(WithLast(j, h)) == RowsOf(j.halts)[|j.halts| - 1 := RowOf(h)]
  {
  }

  lemma HaltRows(r: Rebuilt, j: Journal, c: Change, logMs: int)
    requires Agrees(r, j) && c.to_.Stopped() && c.ts != 0
    ensures FoldHalt(FoldChange(r, c, logMs), NewHalt(j, c)) == Rebuilt(RowsOf(j.halts + [NewHalt(j, c)]), true)
  {
    var h := NewHalt(j, c);
    assert RowsOf(j.halts + [h]) == RowsOf(j.halts) + [RowOf(h)];
  }

  /** A halt stamped zero is the exception, exactly: its two records make one row just when the
      audit record was appended at zero too. */
  lemma ZeroStampExactly(r: Rebuilt, j: Journal, c: Change, logMs: int)
    requires Agrees(r, j) && c.to_.Stopped()
    ensures |FoldHalt(FoldChange(r, c, logMs), NewHalt(j, c)).rows| == |j.halts| + 1 <==> c.ts != 0 || logMs == 0
  {
  }
}
