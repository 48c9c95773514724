/** One tool invocation: policy decision, dry run, journal, run, audit, and the
    transaction around them (sidecar/orca_core/tools/runtime.py). */
module ToolRuntimes {
  import opened Wrappers
  import opened ToolTrace

  datatype Effect = Allow | Deny | Ask | DryRunOnly
  datatype SideEffect = ReadOnly | Write | Destructive
  datatype Tool = Tool(name: string, sideEffect: SideEffect, reversible: bool, defaultDryRun: bool)

  /** How a started `dry_run` or `run` ends: timeouts count as raising;
      `SelfCancels` is a `CancelledError` that the tool raises itself. */
  datatype Act = Returns | Raises | UserCancels | SelfCancels

  datatype JournalFault = NoFault | NoRunId | SpillFails | InsertFails

  /** Which writes of one transaction fail. */
  datatype Faults = Faults(call: bool, audit: bool, mirror: bool, link: bool, commit: bool)

  /** Everything an invocation depends on besides the tool: the caller's flags, the
      policy decision, how the tool behaves, and which writes fail.  `fallback` says
      whether the audit file still takes a line when the rescue failed. */
  datatype Scenario = Scenario(
    inputValid: bool, effect: Effect, overridden: bool, dryRun: bool,
    dry: Act, snapshot: bool, cancelRequested: bool, journal: JournalFault, run: Act,
    first: Faults, rescue: Faults, fallback: bool)

  /** `phase` tells which error the row carries, "" for none. */
  datatype CallRow = CallRow(tool: string, dryRun: bool, decision: string, phase: string, auditId: Option<Id>)
  datatype AuditRow = AuditRow(action: string, status: string, decision: string)

  /** Tool calls and audit records by id, and for each journal entry its tool call. */
  datatype Database = Database(calls: map<Id, CallRow>, audits: map<Id, AuditRow>, journal: map<Id, Id>)

  datatype Failure = InputInvalid | PolicyViolation | Cancelled | SelfCancelled | JournalFailClosed | EntryInvalid | SpillFailed | WriteFailed
  datatype Reply = Finished(outcome: string) | Raised(failure: Failure)

  /** What a handler hands back to `invoke`: the result, or the exception to raise after
      the commit, with the event to emit; or an exception that leaves the transaction. */
  datatype Handled = Done(reply: Reply, event: string) | Escaped(failure: Failure)

  // ---- What the source promises about an invocation ----

  predicate WritesFail(f: Faults) {
    f.call || f.audit || f.mirror || f.link || f.commit
  }

  function Effective(s: Scenario): Effect {
    if s.effect.Ask? && s.overridden then Allow else s.effect
  }

  predicate WantsDryRun(tool: Tool, s: Scenario) {
    s.dryRun || tool.defaultDryRun
  }

  predicate DriesFirst(tool: Tool, s: Scenario) {
    WantsDryRun(tool, s) || Effective(s).DryRunOnly? || !tool.sideEffect.ReadOnly?
  }

  /** `dry_run` of the tool is started. */
  predicate Dries(tool: Tool, s: Scenario) {
    match Effective(s)
    case Deny => false
    case Ask => !tool.sideEffect.ReadOnly?
    case _ => DriesFirst(tool, s)
  }

  predicate StopsAtDryRun(tool: Tool, s: Scenario) {
    WantsDryRun(tool, s) || Effective(s).DryRunOnly?
  }

  /** The effective decision is allow, no dry run was wanted, and a due dry run succeeded. */
  predicate MayRun(tool: Tool, s: Scenario) {
    s.inputValid && Effective(s).Allow? && !WantsDryRun(tool, s) && (DriesFirst(tool, s) ==> s.dry.Returns?)
  }

  datatype JournalResult = NotNeeded | Written | FailsClosed | Breaks(failure: Failure)

  function JournalStep(tool: Tool, s: Scenario): JournalResult {
    if !tool.reversible then NotNeeded
    else if s.journal.NoRunId? then FailsClosed
    else if !(DriesFirst(tool, s) && s.snapshot) then Breaks(EntryInvalid)
    else if s.journal.SpillFails? then Breaks(SpillFailed)
    else if s.journal.InsertFails? then FailsClosed
    else Written
  }

  predicate Starts(tool: Tool, s: Scenario) {
    && MayRun(tool, s) && !s.first.call && !s.cancelRequested
    && (JournalStep(tool, s).NotNeeded? || JournalStep(tool, s).Written?)
  }

  predicate Rescued(tool: Tool, s: Scenario) {
    MayRun(tool, s) && !s.first.call && JournalStep(tool, s).FailsClosed?
  }

  /** An exception leaves the transaction that is neither a failed write nor the
      fail-closed marker. */
  predicate Escapes(tool: Tool, s: Scenario) {
    if Effective(s).Deny? then false
    else if Effective(s).Ask? then !tool.sideEffect.ReadOnly? && s.dry.SelfCancels?
    else
      || (DriesFirst(tool, s) && s.dry.SelfCancels?)
      || (MayRun(tool, s) && !s.first.call && JournalStep(tool, s).Breaks?)
  }

  /** Exactly when an invocation leaves its pair of rows. */
  predicate Recorded(tool: Tool, s: Scenario) {
    s.inputValid && if Rescued(tool, s) then !WritesFail(s.rescue) else !Escapes(tool, s) && !WritesFail(s.first)
  }

  /** Status of the audit record. */
  function Status(tool: Tool, s: Scenario): string {
    if Effective(s).Deny? || Rescued(tool, s) then "blocked"
    else if Effective(s).Ask? then "approved"
    else if StopsAtDryRun(tool, s) && s.dry.Returns? then "success"
    else if Starts(tool, s) && s.run.Returns? then "success"
    else "failed"
  }

  function Decision(s: Scenario): string {
    match Effective(s)
    case Allow => "allow"
    case Deny => "denied"
    case Ask => "approved"
    case DryRunOnly => "dry_run_only"
  }

  function Phase(tool: Tool, s: Scenario): string {
    if Effective(s).Deny? then "policy"
    else if Effective(s).Ask? then ""
    else if DriesFirst(tool, s) && !s.dry.Returns? then "dry_run"
    else if Rescued(tool, s) then "journal_before"
    else if Status(tool, s) == "failed" then "run"
    else ""
  }

  /** The tool was only previewed, if started at all. */
  predicate OnlyDry(tool: Tool, s: Scenario) {
    !Effective(s).Deny? && (Effective(s).Ask? || (DriesFirst(tool, s) && !s.dry.Returns?) || StopsAtDryRun(tool, s))
  }

  /** The two rows an invocation leaves, the call still without its link. */
  function Call(tool: Tool, s: Scenario): CallRow {
    CallRow(tool.name, OnlyDry(tool, s), Decision(s), Phase(tool, s), None)
  }

  function Record(tool: Tool, s: Scenario): AuditRow {
    AuditRow(tool.name, Status(tool, s), Decision(s))
  }

  /** The rows left when the journal entry could not be written. */
  function BlockedCall(tool: Tool): CallRow {
    CallRow(tool.name, false, "allow", "journal_before", None)
  }

  function BlockedRecord(tool: Tool): AuditRow {
    AuditRow(tool.name, "blocked", "allow")
  }

  /** Events after the transaction, when it is recorded. */
  function Announcement(tool: Tool, s: Scenario): string {
    if Effective(s).Deny? then "tool_call.denied"
    else if Effective(s).Ask? then "approval.requested"
    else if Status(tool, s) == "success" then "tool_call.succeeded"
    else "tool_call.failed"
  }

  function Downgrade(s: Scenario): seq<string> {
    if s.effect.Ask? && s.overridden then ["policy.downgraded_by_approval"] else []
  }

  function Announced(tool: Tool, s: Scenario): seq<string> {
    if !s.inputValid then ["tool_call.failed"]
    else if Rescued(tool, s) then Downgrade(s) + ["tool_call.failed"]
    else if Recorded(tool, s) then Downgrade(s) + [Announcement(tool, s)]
    else []
  }

  /** The result or the exception of an invocation whose rows are committed. */
  function Outcome(tool: Tool, s: Scenario): Reply {
    match Effective(s)
    case Deny => Raised(PolicyViolation)
    case Ask => Finished("approval_pending")
    case _ =>
      if DriesFirst(tool, s) && s.dry.UserCancels? then Raised(Cancelled)
      else if DriesFirst(tool, s) && s.dry.Raises? then Finished("failed")
      else if StopsAtDryRun(tool, s) then Finished("dry_run")
      else if s.cancelRequested || s.run.UserCancels? then Raised(Cancelled)
      else if s.run.SelfCancels? then Raised(SelfCancelled)
      else Finished(if s.run.Returns? then "succeeded" else "failed")
  }

  function Escape(tool: Tool, s: Scenario): Failure {
    if MayRun(tool, s) && JournalStep(tool, s).Breaks? then JournalStep(tool, s).failure else SelfCancelled
  }

  function Answer(tool: Tool, s: Scenario): Reply {
    if !s.inputValid then Raised(InputInvalid)
    else if Rescued(tool, s) then Raised(JournalFailClosed)
    else if Escapes(tool, s) then Raised(Escape(tool, s))
    else if WritesFail(s.first) then Raised(WriteFailed)
    else Outcome(tool, s)
  }

  // ---- The same from the inputs alone ----

  /** The tool is started exactly if the call is valid and allowed, or was to be asked for
      and is approved; neither the caller nor the tool wants a dry run; the dry run that
      comes first for all but read-only tools succeeded; nobody cancelled; and everything
      that has to be written before is written. */
  lemma StartsExactly(tool: Tool, s: Scenario)
    ensures Starts(tool, s) <==>
      && s.inputValid && (s.effect.Allow? || (s.effect.Ask? && s.overridden)) && !s.dryRun && !tool.defaultDryRun
      && (tool.sideEffect.ReadOnly? || s.dry.Returns?) && !s.cancelRequested && !s.first.call
      && (tool.reversible ==> !tool.sideEffect.ReadOnly? && s.snapshot && s.journal.NoFault?)
  {
  }

  lemma DriesExactly(tool: Tool, s: Scenario)
    ensures Dries(tool, s) <==>
      && !s.effect.Deny?
      && (|| s.effect.DryRunOnly? || !tool.sideEffect.ReadOnly?
          || ((s.effect.Allow? || s.overridden) && (s.dryRun || tool.defaultDryRun)))
  {
  }

  /** A denied call, and one that still has to be approved. */
  lemma RowsOfRefused(tool: Tool, s: Scenario)
    requires s.effect.Deny? || (s.effect.Ask? && !s.overridden)
    ensures s.effect.Deny? ==>
      && Call(tool, s) == CallRow(tool.name, false, "denied", "policy", None)
      && Record(tool, s) == AuditRow(tool.name, "blocked", "denied")
      && Outcome(tool, s) == Raised(PolicyViolation) && Announcement(tool, s) == "tool_call.denied"
    ensures s.effect.Ask? ==>
      && Call(tool, s) == CallRow(tool.name, true, "approved", "", None)
      && Record(tool, s) == AuditRow(tool.name, "approved", "approved")
      && Outcome(tool, s) == Finished("approval_pending") && Announcement(tool, s) == "approval.requested"
    ensures Recorded(tool, s) <==>
      && s.inputValid && !(s.first.call || s.first.audit || s.first.mirror || s.first.link || s.first.commit)
      && (s.effect.Ask? && !tool.sideEffect.ReadOnly? ==> !s.dry.SelfCancels?)
  {
  }

  /** A call whose dry run is all that happens, because it was wanted, because policy says
      so, or because it did not succeed. */
  lemma RowsOfDryRun(tool: Tool, s: Scenario)
    requires s.effect.DryRunOnly? || s.effect.Allow? || (s.effect.Ask? && s.overridden)
    requires s.effect.DryRunOnly? || s.dryRun || tool.defaultDryRun || (!tool.sideEffect.ReadOnly? && !s.dry.Returns?)
    ensures var decision := if s.effect.DryRunOnly? then "dry_run_only" else "allow";
      var passed := s.dry.Returns?;
      && Call(tool, s) == CallRow(tool.name, true, decision, if passed then "" else "dry_run", None)
      && Record(tool, s) == AuditRow(tool.name, if passed then "success" else "failed", decision)
      && Announcement(tool, s) == if passed then "tool_call.succeeded" else "tool_call.failed"
    ensures s.dry.Returns? ==> Outcome(tool, s) == Finished("dry_run")
    ensures s.dry.UserCancels? ==> Outcome(tool, s) == Raised(Cancelled)
    ensures s.dry.Raises? ==> Outcome(tool, s) == Finished("failed")
    ensures Recorded(tool, s) <==>
      s.inputValid && !(s.first.call || s.first.audit || s.first.mirror || s.first.link || s.first.commit) && !s.dry.SelfCancels?
  {
  }

  /** A call that gets to the point where the tool is run. */
  lemma RowsOfRun(tool: Tool, s: Scenario)
    requires s.inputValid && (s.effect.Allow? || (s.effect.Ask? && s.overridden))
      && !s.dryRun && !tool.defaultDryRun
    requires tool.sideEffect.ReadOnly? || s.dry.Returns?
    requires tool.reversible ==> !tool.sideEffect.ReadOnly? && s.snapshot && s.journal.NoFault?
    ensures var passed := !s.cancelRequested && s.run.Returns?;
      Recorded(tool, s) ==>
        && Call(tool, s) == CallRow(tool.name, false, "allow", if passed then "" else "run", None)
        && Record(tool, s) == AuditRow(tool.name, if passed then "success" else "failed", "allow")
        && Announcement(tool, s) == if passed then "tool_call.succeeded" else "tool_call.failed"
    ensures Outcome(tool, s) ==
      if s.cancelRequested || s.run.UserCancels? then Raised(Cancelled)
      else if s.run.SelfCancels? then Raised(SelfCancelled)
      else if s.run.Raises? then Finished("failed") else Finished("succeeded")
    ensures Recorded(tool, s) <==>
      !(s.first.call || s.first.audit || s.first.mirror || s.first.link || s.first.commit)
  {
  }

  /** A reversible call whose before snapshot cannot be journaled: a write that fails, or a
      missing run id, blocks the call with rows of its own; a spill that fails, or a
      snapshot that is not there, leaves none. */
  lemma RowsOfUnjournaled(tool: Tool, s: Scenario)
    requires s.inputValid && (s.effect.Allow? || (s.effect.Ask? && s.overridden))
      && !s.dryRun && !tool.defaultDryRun
    requires (tool.sideEffect.ReadOnly? || s.dry.Returns?) && tool.reversible && !s.first.call
    requires tool.sideEffect.ReadOnly? || !s.snapshot || !s.journal.NoFault?
    ensures var before := !tool.sideEffect.ReadOnly? && s.snapshot;
      var blocked := s.journal.NoRunId? || (before && s.journal.InsertFails?);
      && (Rescued(tool, s) <==> blocked)
      && (Recorded(tool, s) <==>
          blocked && !(s.rescue.call || s.rescue.audit || s.rescue.mirror || s.rescue.link || s.rescue.commit))
      && Answer(tool, s) == Raised(if blocked then JournalFailClosed else if !before then EntryInvalid else SpillFailed)
    ensures Rescued(tool, s) ==>
      && Call(tool, s) == CallRow(tool.name, false, "allow", "journal_before", None)
      && Record(tool, s) == AuditRow(tool.name, "blocked", "allow")
  {
  }

  /** What an invocation answers and emits besides the outcomes of its recorded calls. */
  lemma AnswersExactly(tool: Tool, s: Scenario)
    ensures !s.inputValid ==> Answer(tool, s) == Raised(InputInvalid) && !Recorded(tool, s)
    ensures Recorded(tool, s) && !Rescued(tool, s) ==> Answer(tool, s) == Outcome(tool, s)
    ensures s.inputValid && !Recorded(tool, s) && !Rescued(tool, s) && !Escapes(tool, s) ==>
      Answer(tool, s) == Raised(WriteFailed)
    ensures s.dry.SelfCancels? && s.inputValid && Dries(tool, s) ==>
      Answer(tool, s) == Raised(SelfCancelled) && !Recorded(tool, s)
    ensures var downgrade := if s.effect.Ask? && s.overridden then ["policy.downgraded_by_approval"] else [];
      Announced(tool, s) ==
        if !s.inputValid then ["tool_call.failed"]
        else if Rescued(tool, s) then downgrade + ["tool_call.failed"]
        else if Recorded(tool, s) then downgrade + [Announcement(tool, s)]
        else []
  {
  }

  // ---- The database ----

  /** Every call is linked to its own audit record, and every record belongs to a call. */
  ghost predicate Linked(db: Database) {
    && (forall c :: c in db.calls ==> db.calls[c].auditId.Some? && db.calls[c].auditId.value in db.audits)
    && (forall c, d :: c in db.calls && d in db.calls && c != d ==> db.calls[c].auditId != db.calls[d].auditId)
    && (forall a :: a in db.audits ==> exists c :: c in db.calls && db.calls[c].auditId == Some(a))
    && (forall e :: e in db.journal ==> db.journal[e] in db.calls)
  }

  ghost predicate Below(db: Database, n: Id) {
    && (forall c :: c in db.calls ==> c < n)
    && (forall a :: a in db.audits ==> a < n)
    && (forall e :: e in db.journal ==> e < n)
  }

  ghost predicate InMirror(db: Database, mirror: seq<(Id, AuditRow)>) {
    forall a :: a in db.audits ==> (a, db.audits[a]) in mirror
  }

  /** `e` has one more call and one more audit record than `d`, linked to each other. */
  ghost predicate OnePairMore(d: Database, e: Database, call: Id, audit: Id, row: CallRow, record: AuditRow) {
    && call !in d.calls && audit !in d.audits
    && e.calls == d.calls[call := row.(auditId := Some(audit))]
    && e.audits == d.audits[audit := record]
  }

  /** `e` has one more, still unlinked call than `d`. */
  ghost predicate OneCallMore(d: Database, e: Database, call: Id) {
    call !in d.calls && call in e.calls && e.calls == d.calls[call := e.calls[call]] && e.audits == d.audits
  }

  ghost predicate OneEntryMore(d: map<Id, Id>, e: map<Id, Id>, call: Id) {
    exists j: Id :: j !in d && e == d[j := call]
  }

  lemma LinkedPair(d: Database, e: Database, call: Id, audit: Id, row: CallRow, record: AuditRow, n: Id)
    requires OneCallMore(d, e, call) && Below(d, n) && n <= audit
    ensures OnePairMore(d, e.(calls := e.calls[call := row.(auditId := Some(audit))], audits := e.audits[audit := record]), call, audit, row, record)
  {
    hide Linked;
  }

  lemma MirrorGrows(db: Database, e: Database, mirror: seq<(Id, AuditRow)>, audit: Id, record: AuditRow)
    requires InMirror(db, mirror) && e.audits == db.audits[audit := record]
    ensures InMirror(e, mirror + [(audit, record)])
  {
  }

  lemma PairKeepsLinks(d: Database, e: Database, call: Id, audit: Id, row: CallRow, record: AuditRow)
    requires Linked(d) && OnePairMore(d, e, call, audit, row, record)
    requires e.journal == d.journal || OneEntryMore(d.journal, e.journal, call)
    ensures Linked(e)
  {
    forall a | a in e.audits ensures exists c :: c in e.calls && e.calls[c].auditId == Some(a) {
      if a == audit {
        assert e.calls[call].auditId == Some(a);
      } else {
        var c :| c in d.calls && d.calls[c].auditId == Some(a);
        assert e.calls[c].auditId == Some(a);
      }
    }
  }

  function Image(keys: set<Id>, f: map<Id, Id>): set<Id>
    requires keys <= f.Keys
  {
    set k | k in keys :: f[k]
  }

  lemma {:induction false} InjectiveImage(keys: set<Id>, f: map<Id, Id>)
    requires keys <= f.Keys && forall j, k :: j in keys && k in keys && j != k ==> f[j] != f[k]
    ensures |Image(keys, f)| == |keys|
  {
    if keys == {} {
      assert Image(keys, f) == {};
    } else {
      var k :| k in keys;
      InjectiveImage(keys - {k}, f);
      assert Image(keys, f) == Image(keys - {k}, f) + {f[k]};
    }
  }

  /** In a linked database there are as many audit records as calls. */
  lemma LinkedMeansOneToOne(db: Database)
    requires Linked(db)
    ensures |db.calls| == |db.audits|
  {
    var f := map c | c in db.calls :: db.calls[c].auditId.value;
    assert f.Keys == db.calls.Keys;
    InjectiveImage(db.calls.Keys, f);
    assert Image(db.calls.Keys, f) == db.audits.Keys;
  }

  class ToolRuntime {
    var db: Database
    /** Contents to return to when the open transaction rolls back. */
    var saved: Option<Database>
    /** Lines of the audit file mirror. */
    var mirror: seq<(Id, AuditRow)>
    /** Next id to generate. */
    var nextId: Id
    /** History of the current invocation. */
    var trace: seq<Action>
    ghost var terms: Terms

    ghost function Seen(): Monitor
      reads this
    {
      Watch(trace, terms)
    }

    /** Between invocations. */
    ghost predicate Valid()
      reads this
    {
      saved.None? && Linked(db) && Below(db, nextId) && InMirror(db, mirror)
    }

    /** Inside the transaction that started from the saved contents. */
    ghost predicate InTransaction()
      reads this
    {
      && saved.Some? && Linked(saved.value) && Below(saved.value, nextId) && InMirror(saved.value, mirror)
      && Below(db, nextId)
      && Seen().open && Seen().fine
    }

    constructor ()
      ensures Valid() && db == Database(map[], map[], map[])
    {
      db := Database(map[], map[], map[]);
      saved, mirror, nextId, trace := None, [], 0, [];
    }

    method Act(a: Action)
      modifies this`trace
      ensures trace == old(trace) + [a] && Seen() == Next(old(Seen()), a, terms)
    {
      trace := trace + [a];
    }

    method NewId() returns (id: Id)
      modifies this`nextId
      ensures id == old(nextId) && nextId == id + 1
    {
      id := nextId;
      nextId := nextId + 1;
    }

    // ---- Transaction ----

    method Begin()
      requires Valid() && !Seen().open && Seen().fine
      modifies this`saved, this`trace
      ensures InTransaction() && saved == Some(db)
      ensures Seen() == old(Seen()).(open := true, journaled := false, committed := false)
    {
      saved := Some(db);
      Act(Began);
    }

    /** The end of the transaction block: commit, or roll back when an exception leaves it. */
    method End(commit: bool)
      requires InTransaction() && (commit ==> Linked(db) && InMirror(db, mirror))
      modifies this`db, this`saved, this`trace
      ensures Valid() && db == if commit then old(db) else old(saved).value
      ensures Seen() == Next(old(Seen()), if commit then Committed else RolledBack, terms)
    {
      if commit {
        Act(Committed);
      } else {
        db := saved.value;
        Act(RolledBack);
      }
      saved := None;
    }

    // ---- Writes ----

    method InsertCall(id: Id, row: CallRow, fails: bool) returns (ok: bool)
      requires InTransaction() && id !in db.calls && id < nextId
      modifies this`db, this`trace
      ensures InTransaction() && Seen() == old(Seen())
      ensures ok == !fails
      ensures db == if ok then old(db).(calls := old(db).calls[id := row]) else old(db)
    {
      ok := !fails;
      if ok {
        db := db.(calls := db.calls[id := row]);
        Act(CallInserted(id));
      }
    }

    /** `AuditSink.record`: database row first, then a line in the file mirror. */
    method RecordAudit(row: AuditRow, f: Faults) returns (audit: Option<Id>)
      requires InTransaction()
      modifies this`db, this`mirror, this`nextId, this`trace
      ensures InTransaction() && Seen() == old(Seen()) && nextId == old(nextId) + 1
      ensures audit == if f.audit || f.mirror then None else Some(old(nextId))
      ensures audit.Some? ==> db == old(db).(audits := old(db).audits[audit.value := row])
      ensures mirror == old(mirror) + if audit.Some? then [(audit.value, row)] else []
      ensures db.calls == old(db).calls && db.journal == old(db).journal
    {
      var id := NewId();
      if f.audit { return None; }
      db := db.(audits := db.audits[id := row]);
      Act(AuditInserted(id));
      if f.mirror { return None; }
      mirror := mirror + [(id, row)];
      Act(Mirrored);
      return Some(id);
    }

    method UpdateResult(id: Id, row: CallRow, fails: bool) returns (ok: bool)
      requires InTransaction() && id in db.calls && row.auditId.Some?
      modifies this`db, this`trace
      ensures InTransaction() && Seen() == old(Seen())
      ensures ok == !fails
      ensures db == if ok then old(db).(calls := old(db).calls[id := row]) else old(db)
    {
      ok := !fails;
      if ok {
        db := db.(calls := db.calls[id := row]);
        Act(CallLinked(id, row.auditId.value));
      }
    }

    /** Audit record and back-filled link of a call that is already inserted. */
    method FinishCall(id: Id, row: CallRow, record: AuditRow, f: Faults) returns (ok: bool, ghost audit: Id)
      requires InTransaction() && OneCallMore(saved.value, db, id)
      modifies this`db, this`mirror, this`nextId, this`trace
      ensures InTransaction() && Seen() == old(Seen()) && db.journal == old(db).journal
      ensures ok == !(f.audit || f.mirror || f.link)
      ensures ok ==>
        OnePairMore(saved.value, db, id, audit, row, record) && InMirror(db, mirror)
      ensures old(mirror) <= mirror && old(nextId) <= nextId
    {
      hide Watch, Below, Linked, InMirror, OnePairMore;
      audit := nextId;
      ghost var d, e := saved.value, db;
      var found := RecordAudit(record, f);
      if found.None? { return false, audit; }
      ok := UpdateResult(id, row.(auditId := found), f.link);
      if ok {
        LinkedPair(d, e, id, audit, row, record, old(nextId));
        assert db.audits == d.audits[audit := record];
        MirrorGrows(d, db, old(mirror), audit, record);
      }
    }

    /** The three writes of a call that did not run. */
    method WriteCall(id: Id, row: CallRow, record: AuditRow, f: Faults) returns (ok: bool, ghost audit: Id)
      requires InTransaction() && saved == Some(db) && id !in db.calls && id < nextId
      modifies this`db, this`mirror, this`nextId, this`trace
      ensures InTransaction() && Seen() == old(Seen()) && db.journal == old(db).journal
      ensures ok == !(f.call || f.audit || f.mirror || f.link)
      ensures ok ==>
        OnePairMore(saved.value, db, id, audit, row, record) && InMirror(db, mirror)
      ensures old(mirror) <= mirror && old(nextId) <= nextId
    {
      hide Watch, Below, Linked, InMirror, OnePairMore;
      audit := 0;
      ok := InsertCall(id, row, f.call);
      if ok { ok, audit := FinishCall(id, row, record, f); }
    }

    // ---- Handlers, run inside the transaction ----

    ghost predicate Ready(tool: Tool, s: Scenario, id: Id)
      reads this
    {
      && InTransaction() && saved == Some(db) && id !in db.calls && id < nextId
      && terms == Terms(id, tool.reversible, !tool.sideEffect.ReadOnly?, MayRun(tool, s)) && s.inputValid
    }

    method DoDeny(tool: Tool, s: Scenario, id: Id) returns (h: Handled, ghost audit: Id)
      requires Ready(tool, s, id) && Effective(s).Deny?
      modifies this`db, this`mirror, this`nextId, this`trace
      ensures InTransaction() && Seen() == old(Seen()) && db.journal == old(db).journal
        && old(mirror) <= mirror && old(nextId) <= nextId
      ensures h.Done? <==> !(s.first.call || s.first.audit || s.first.mirror || s.first.link)
      ensures h.Done? ==>
        OnePairMore(saved.value, db, id, audit, Call(tool, s), Record(tool, s)) && InMirror(db, mirror)
      ensures h == if h.Done? then Done(Outcome(tool, s), Announcement(tool, s)) else Escaped(WriteFailed)
    {
      hide Watch, Below, Linked, InMirror, OnePairMore;
      var ok;
      ok, audit := WriteCall(id, CallRow(tool.name, false, "denied", "policy", None), AuditRow(tool.name, "blocked", "denied"), s.first);
      h := if ok then Done(Raised(PolicyViolation), "tool_call.denied") else Escaped(WriteFailed);
    }

    method DoAsk(tool: Tool, s: Scenario, id: Id) returns (h: Handled, ghost audit: Id)
      requires Ready(tool, s, id) && Effective(s).Ask?
      modifies this`db, this`mirror, this`nextId, this`trace
      ensures InTransaction()
        && Seen() == old(Seen()).(dried := old(Seen()).dried || Dries(tool, s))
        && db.journal == old(db).journal
        && old(mirror) <= mirror && old(nextId) <= nextId
      ensures h.Done? <==>
        !Escapes(tool, s) && !(s.first.call || s.first.audit || s.first.mirror || s.first.link)
      ensures h.Done? ==>
        OnePairMore(saved.value, db, id, audit, Call(tool, s), Record(tool, s)) && InMirror(db, mirror)
      ensures h == if h.Done? then Done(Outcome(tool, s), Announcement(tool, s)) else Escaped(if Escapes(tool, s) then Escape(tool, s) else WriteFailed)
    {
      hide Watch, Below, Linked, InMirror, OnePairMore;
      audit := 0;
      if !tool.sideEffect.ReadOnly? {
        Act(DryRan);
        // A failed, timed out or cancelled preview is only noted in the approval.
        if s.dry.SelfCancels? { return Escaped(SelfCancelled), audit; }
      }
      var ok;
      ok, audit := WriteCall(id, CallRow(tool.name, true, "approved", "", None), AuditRow(tool.name, "approved", "approved"), s.first);
      h := if ok then Done(Finished("approval_pending"), "approval.requested") else Escaped(WriteFailed);
    }

    /** A due dry run that failed or was cancelled. */
    method RecordDryRunFailed(tool: Tool, s: Scenario, id: Id) returns (h: Handled, ghost audit: Id)
      requires Ready(tool, s, id) && (Effective(s).Allow? || Effective(s).DryRunOnly?)
      requires DriesFirst(tool, s) && (s.dry.Raises? || s.dry.UserCancels?)
      modifies this`db, this`mirror, this`nextId, this`trace
      ensures InTransaction() && Seen() == old(Seen()) && db.journal == old(db).journal
        && old(mirror) <= mirror && old(nextId) <= nextId
      ensures h.Done? <==> !(s.first.call || s.first.audit || s.first.mirror || s.first.link)
      ensures h.Done? ==>
        OnePairMore(saved.value, db, id, audit, Call(tool, s), Record(tool, s)) && InMirror(db, mirror)
      ensures h == if h.Done? then Done(Outcome(tool, s), Announcement(tool, s)) else Escaped(WriteFailed)
    {
      hide Watch, Below, Linked, InMirror, OnePairMore;
      var decision := if Effective(s).DryRunOnly? then "dry_run_only" else "allow";
      var ok;
      ok, audit := WriteCall(id, CallRow(tool.name, true, decision, "dry_run", None), AuditRow(tool.name, "failed", decision), s.first);
      if !ok { return Escaped(WriteFailed), audit; }
      h := Done(if s.dry.UserCancels? then Raised(Cancelled) else Finished("failed"), "tool_call.failed");
    }

    /** A dry run was asked for or decided, and it succeeded. */
    method StopAfterDryRun(tool: Tool, s: Scenario, id: Id) returns (h: Handled, ghost audit: Id)
      requires Ready(tool, s, id) && (Effective(s).Allow? || Effective(s).DryRunOnly?)
      requires StopsAtDryRun(tool, s) && s.dry.Returns?
      modifies this`db, this`mirror, this`nextId, this`trace
      ensures InTransaction() && Seen() == old(Seen()) && db.journal == old(db).journal
        && old(mirror) <= mirror && old(nextId) <= nextId
      ensures h.Done? <==> !(s.first.call || s.first.audit || s.first.mirror || s.first.link)
      ensures h.Done? ==>
        OnePairMore(saved.value, db, id, audit, Call(tool, s), Record(tool, s)) && InMirror(db, mirror)
      ensures h == if h.Done? then Done(Outcome(tool, s), Announcement(tool, s)) else Escaped(WriteFailed)
    {
      hide Watch, Below, Linked, InMirror, OnePairMore;
      var decision := if Effective(s).DryRunOnly? then "dry_run_only" else "allow";
      var ok;
      ok, audit := WriteCall(id, CallRow(tool.name, true, decision, "", None), AuditRow(tool.name, "success", decision), s.first);
      h := if ok then Done(Finished("dry_run"), "tool_call.succeeded") else Escaped(WriteFailed);
    }

    /** `JournalStore.record_before` for this call, if the tool is reversible. */
    method JournalBefore(tool: Tool, s: Scenario, id: Id) returns (failure: Option<Failure>)
      requires InTransaction()
        && terms == Terms(id, tool.reversible, !tool.sideEffect.ReadOnly?, MayRun(tool, s))
        && MayRun(tool, s)
      modifies this`db, this`nextId, this`trace
      ensures InTransaction() && old(nextId) <= nextId
      ensures Seen() == if JournalStep(tool, s).Written? then old(Seen()).(journaled := true) else old(Seen())
      ensures db.calls == old(db).calls && db.audits == old(db).audits
      ensures if JournalStep(tool, s).Written? then OneEntryMore(old(db).journal, db.journal, id) else db == old(db)
      ensures failure == match JournalStep(tool, s)
        case FailsClosed => Some(JournalFailClosed) case Breaks(f) => Some(f) case _ => None
    {
      hide Watch, Linked, InMirror;
      if !tool.reversible { return None; }
      if s.journal.NoRunId? { return Some(JournalFailClosed); }
      var before := DriesFirst(tool, s) && s.snapshot;
      var entry := NewId();
      if before && s.journal.SpillFails? { return Some(SpillFailed); }
      if !before { return Some(EntryInvalid); }
      if s.journal.InsertFails? { return Some(JournalFailClosed); }
      assert entry !in db.journal;
      db := db.(journal := db.journal[entry := id]);
      Act(JournalInserted(id));
      return None;
    }

    method DoAllowOrDry(tool: Tool, s: Scenario, id: Id) returns (h: Handled, ghost audit: Id)
      requires Ready(tool, s, id) && (Effective(s).Allow? || Effective(s).DryRunOnly?)
      modifies this`db, this`mirror, this`nextId, this`trace
      ensures InTransaction() && old(mirror) <= mirror && old(nextId) <= nextId
      ensures Seen().runs == old(Seen()).runs + (if Starts(tool, s) then 1 else 0)
        && Seen().announced == old(Seen()).announced
      ensures Seen().committed == old(Seen()).committed
        && Seen().dried == (old(Seen()).dried || Dries(tool, s))
      ensures h.Done? <==>
        !Rescued(tool, s) && !Escapes(tool, s) && !(s.first.call || s.first.audit || s.first.mirror || s.first.link)
      ensures h.Done? ==>
        OnePairMore(saved.value, db, id, audit, Call(tool, s), Record(tool, s)) && InMirror(db, mirror)
      ensures h.Done? ==>
        if MayRun(tool, s) && JournalStep(tool, s).Written? then OneEntryMore(saved.value.journal, db.journal, id) else db.journal == saved.value.journal
      ensures h.Done? ==> h == Done(Outcome(tool, s), Announcement(tool, s))
      ensures h.Escaped? ==>
        h.failure == if Rescued(tool, s) then JournalFailClosed else if Escapes(tool, s) then Escape(tool, s) else WriteFailed
    {
      hide Watch, Below, Linked, InMirror, OnePairMore, OneEntryMore;
      audit := 0;
      if DriesFirst(tool, s) {
        Act(DryRan);
        if s.dry.SelfCancels? { return Escaped(SelfCancelled), audit; }
        if !s.dry.Returns? {
          h, audit := RecordDryRunFailed(tool, s, id);
          return;
        }
      }
      if StopsAtDryRun(tool, s) {
        h, audit := StopAfterDryRun(tool, s, id);
        return;
      }
      h, audit := JournalAndRun(tool, s, id);
    }

    /** Preliminary row, journal entry, the run itself, and its audit. */
    method JournalAndRun(tool: Tool, s: Scenario, id: Id) returns (h: Handled, ghost audit: Id)
      requires Ready(tool, s, id) && MayRun(tool, s) && (terms.dryFirst ==> Seen().dried)
      modifies this`db, this`mirror, this`nextId, this`trace
      ensures InTransaction() && old(mirror) <= mirror && old(nextId) <= nextId
      ensures Seen().runs == old(Seen()).runs + (if Starts(tool, s) then 1 else 0)
        && Seen().announced == old(Seen()).announced
      ensures Seen().committed == old(Seen()).committed && Seen().dried == old(Seen()).dried
      ensures h.Done? <==>
        !s.first.call && !JournalStep(tool, s).FailsClosed? && !JournalStep(tool, s).Breaks? && !(s.first.audit || s.first.mirror || s.first.link)
      ensures h.Done? ==>
        OnePairMore(saved.value, db, id, audit, Call(tool, s), Record(tool, s)) && InMirror(db, mirror)
      ensures h.Done? ==>
        if JournalStep(tool, s).Written? then OneEntryMore(saved.value.journal, db.journal, id) else db.journal == saved.value.journal
      ensures h.Done? ==> h == Done(Outcome(tool, s), Announcement(tool, s))
      ensures h.Escaped? ==> h.failure == match JournalStep(tool, s)
        case FailsClosed => if s.first.call then WriteFailed else JournalFailClosed
        case Breaks(f) => if s.first.call then WriteFailed else f
        case _ => WriteFailed
    {
      hide Watch, Below, Linked, InMirror, OnePairMore, OneEntryMore;
      audit := 0;
      var row := CallRow(tool.name, false, "allow", "", None);
      var ok := InsertCall(id, row, s.first.call);
      if !ok { return Escaped(WriteFailed), audit; }
      var failure := JournalBefore(tool, s, id);
      if failure.Some? { return Escaped(failure.value), audit; }
      h, audit := RunTool(tool, s, id, row);
    }

    /** Step 5 and 6: the run itself and its audit. */
    method RunTool(tool: Tool, s: Scenario, id: Id, row: CallRow) returns (h: Handled, ghost audit: Id)
      requires InTransaction() && OneCallMore(saved.value, db, id) && MayRun(tool, s)
        && !s.first.call
      requires row == CallRow(tool.name, false, "allow", "", None)
      requires terms.mayRun && (terms.reversible ==> Seen().journaled)
        && (terms.dryFirst ==> Seen().dried)
      requires JournalStep(tool, s).NotNeeded? || JournalStep(tool, s).Written?
      modifies this`db, this`mirror, this`nextId, this`trace
      ensures InTransaction() && old(mirror) <= mirror && old(nextId) <= nextId
        && db.journal == old(db).journal
      ensures Seen() == old(Seen()).(runs := old(Seen()).runs + if Starts(tool, s) then 1 else 0)
      ensures h.Done? <==> !(s.first.audit || s.first.mirror || s.first.link)
      ensures h.Done? ==>
        OnePairMore(saved.value, db, id, audit, Call(tool, s), Record(tool, s)) && InMirror(db, mirror)
      ensures h == if h.Done? then Done(Outcome(tool, s), Announcement(tool, s)) else Escaped(WriteFailed)
    {
      hide Watch, Below, Linked, InMirror, OnePairMore, OneCallMore;
      var reply := Raised(Cancelled);
      if !s.cancelRequested {
        Act(ToolRan);
        match s.run {
          case Returns => reply := Finished("succeeded");
          case Raises => reply := Finished("failed");
          case UserCancels => reply := Raised(Cancelled);
          case SelfCancels => reply := Raised(SelfCancelled);
        }
      }
      var ok;
      if reply == Finished("succeeded") {
        ok, audit := FinishCall(id, row, AuditRow(tool.name, "success", "allow"), s.first);
        h := if ok then Done(reply, "tool_call.succeeded") else Escaped(WriteFailed);
      } else {
        ok, audit := FinishCall(id, row.(phase := "run"), AuditRow(tool.name, "failed", "allow"), s.first);
        h := if ok then Done(reply, "tool_call.failed") else Escaped(WriteFailed);
      }
    }

    // ---- The invocation ----

    /** `_rescue_after_journal_failure`: the pair of rows in a transaction of its own. */
    method Rescue(tool: Tool, id: Id, f: Faults) returns (ok: bool, ghost audit: Id)
      requires Valid() && id !in db.calls && id < nextId && !Seen().open && Seen().fine
      modifies this`db, this`saved, this`mirror, this`nextId, this`trace
      ensures Valid() && !Seen().open && Seen().fine && Seen().runs == old(Seen()).runs
        && Seen().announced == old(Seen()).announced && Seen().dried == old(Seen()).dried
      ensures ok == !WritesFail(f) && old(mirror) <= mirror && old(nextId) <= nextId
      ensures if ok then OnePairMore(old(db), db, id, audit, BlockedCall(tool), BlockedRecord(tool)) && db.journal == old(db).journal else db == old(db)
    {
      hide Watch, Below, Linked, InMirror, OnePairMore;
      Begin();
      ok, audit := WriteCall(id, BlockedCall(tool), BlockedRecord(tool), f);
      ok := ok && !f.commit;
      if ok { PairKeepsLinks(saved.value, db, id, audit, BlockedCall(tool), BlockedRecord(tool)); }
      End(ok);
    }

    method EmitAll(names: seq<string>)
      requires !Seen().open && Seen().fine
      requires !Seen().committed ==> forall i :: 0 <= i < |names| ==> !Promises(names[i])
      modifies this`trace
      ensures Seen() == old(Seen()).(announced := old(Seen()).announced + names)
      ensures old(Valid()) ==> Valid()
    {
      hide Watch, Promises;
      for i := 0 to |names|
        invariant Seen() == old(Seen()).(announced := old(Seen()).announced + names[..i])
      {
        assert names[..i + 1] == names[..i] + [names[i]];
        Act(Emitted(names[i]));
      }
      assert names[..|names|] == names;
    }

    /** The handler for the effective decision. */
    method Handle(tool: Tool, s: Scenario, id: Id) returns (h: Handled, ghost audit: Id)
      requires Ready(tool, s, id)
      modifies this`db, this`mirror, this`nextId, this`trace
      ensures InTransaction() && old(mirror) <= mirror && old(nextId) <= nextId
      ensures Seen().runs == old(Seen()).runs + (if Starts(tool, s) then 1 else 0)
        && Seen().announced == old(Seen()).announced
      ensures Seen().committed == old(Seen()).committed
        && Seen().dried == (old(Seen()).dried || Dries(tool, s))
      ensures h.Done? <==>
        !Rescued(tool, s) && !Escapes(tool, s) && !(s.first.call || s.first.audit || s.first.mirror || s.first.link)
      ensures h.Done? ==>
        OnePairMore(saved.value, db, id, audit, Call(tool, s), Record(tool, s)) && InMirror(db, mirror)
      ensures h.Done? ==>
        if MayRun(tool, s) && JournalStep(tool, s).Written? then OneEntryMore(saved.value.journal, db.journal, id) else db.journal == saved.value.journal
      ensures h.Done? ==> h == Done(Outcome(tool, s), Announcement(tool, s))
      ensures h.Escaped? ==>
        h.failure == if Rescued(tool, s) then JournalFailClosed else if Escapes(tool, s) then Escape(tool, s) else WriteFailed
    {
      hide Watch, Below, Linked, InMirror, OnePairMore, OneEntryMore;
      match Effective(s) {
        case Deny => h, audit := DoDeny(tool, s, id);
        case Ask => h, audit := DoAsk(tool, s, id);
        case _ => h, audit := DoAllowOrDry(tool, s, id);
      }
    }

    /** `invoke`.  Exactly when `Recorded` holds the database has one more call and one
        more audit record, linked to each other; otherwise it is unchanged. */
    method Invoke(tool: Tool, s: Scenario) returns (r: Reply)
      requires Valid()
      modifies this
      ensures Valid() && r == Answer(tool, s)
      ensures Recorded(tool, s) ==>
        exists audit :: OnePairMore(old(db), db, old(nextId), audit, Call(tool, s), Record(tool, s))
      ensures Recorded(tool, s) ==>
        if MayRun(tool, s) && JournalStep(tool, s).Written? then OneEntryMore(old(db).journal, db.journal, old(nextId)) else db.journal == old(db).journal
      ensures !Recorded(tool, s) ==> db == old(db)
      ensures old(mirror) <= mirror && old(nextId) <= nextId
      ensures Rescued(tool, s) && WritesFail(s.rescue) && s.fallback ==>
        mirror != [] && mirror[|mirror| - 1].1 == BlockedRecord(tool)
      ensures InOrder(trace, Terms(old(nextId), tool.reversible, !tool.sideEffect.ReadOnly?, MayRun(tool, s)))
      ensures Names(trace) == Announced(tool, s)
        && Count(trace) == if Starts(tool, s) then 1 else 0
      ensures ToolRan in trace <==>
        && s.inputValid && (s.effect.Allow? || (s.effect.Ask? && s.overridden)) && !s.dryRun && !tool.defaultDryRun
        && (tool.sideEffect.ReadOnly? || s.dry.Returns?) && !s.cancelRequested && !s.first.call
        && (tool.reversible ==> !tool.sideEffect.ReadOnly? && s.snapshot && s.journal.NoFault?)
      ensures DryRan in trace <==>
        && s.inputValid && !s.effect.Deny?
        && (|| s.effect.DryRunOnly? || !tool.sideEffect.ReadOnly?
            || ((s.effect.Allow? || s.overridden) && (s.dryRun || tool.defaultDryRun)))
    {
      hide Watch, Below, Linked, InMirror, OnePairMore, OneEntryMore, InOrder, Names, Count, Holds, Starts, Dries, MayRun, Recorded, Rescued, Answer, Announced;
      StartsExactly(tool, s);
      DriesExactly(tool, s);
      var id := StartInvocation(tool, s);
      ghost var audit;
      r, audit := InvokeFrom(tool, s, id);
      FineMeansInOrder(trace, terms);
      MonitorCounts(trace, terms);
    }

    /** `_await_approval_and_retry` seen from the runtime: a call that needs approval, and
        after an approve the same call with the approval as override.  The ask leaves a row
        of its own and never starts the tool; the retry leaves a second one. */
    method AskAndRetry(tool: Tool, ask: Scenario, approved: bool, retry: Scenario) returns (r: Reply)
      requires Valid() && Effective(ask).Ask? && Recorded(tool, ask)
      requires retry.effect.Ask? && retry.overridden
      modifies this
      ensures Valid()
      ensures |db.calls| == |old(db).calls| + if approved && Recorded(tool, retry) then 2 else 1
      ensures |db.audits| == |db.calls|
      ensures Count(trace) == if approved && Starts(tool, retry) then 1 else 0
      ensures r == if approved then Answer(tool, retry) else Finished("approval_pending")
    {
      hide Linked, Below, InMirror, OnePairMore, OneEntryMore, InOrder, Names, Count, Recorded, Escapes, Announced, JournalStep, Call, Record;
      ghost var before := db;
      AskDoesNotStart(tool, ask);
      r := Invoke(tool, ask);
      OneMoreCall(before, db, old(nextId), Call(tool, ask), Record(tool, ask));
      if approved {
        ghost var between, id := db, nextId;
        r := Invoke(tool, retry);
        if Recorded(tool, retry) { OneMoreCall(between, db, id, Call(tool, retry), Record(tool, retry)); }
      }
      LinkedMeansOneToOne(db);
    }

    method StartInvocation(tool: Tool, s: Scenario) returns (id: Id)
      requires Valid()
      modifies this`nextId, this`trace, this`terms
      ensures Valid() && Seen() == NOTHING && id == old(nextId) && id !in db.calls
        && id < nextId
      ensures terms == Terms(id, tool.reversible, !tool.sideEffect.ReadOnly?, MayRun(tool, s))
    {
      id := NewId();
      trace, terms := [], Terms(id, tool.reversible, !tool.sideEffect.ReadOnly?, MayRun(tool, s));
    }

    method InvokeFrom(tool: Tool, s: Scenario, id: Id) returns (r: Reply, ghost audit: Id)
      requires Valid() && Seen() == NOTHING && id !in db.calls && id < nextId
      requires terms == Terms(id, tool.reversible, !tool.sideEffect.ReadOnly?, MayRun(tool, s))
      modifies this`db, this`saved, this`mirror, this`nextId, this`trace
      ensures Valid() && r == Answer(tool, s) && old(mirror) <= mirror && old(nextId) <= nextId
      ensures Recorded(tool, s) ==>
        OnePairMore(old(db), db, id, audit, Call(tool, s), Record(tool, s))
      ensures Recorded(tool, s) ==>
        if MayRun(tool, s) && JournalStep(tool, s).Written? then OneEntryMore(old(db).journal, db.journal, id) else db.journal == old(db).journal
      ensures !Recorded(tool, s) ==> db == old(db)
      ensures Rescued(tool, s) && WritesFail(s.rescue) && s.fallback ==>
        mirror != [] && mirror[|mirror| - 1].1 == BlockedRecord(tool)
      ensures Seen().fine && Seen().announced == Announced(tool, s)
        && Seen().runs == (if Starts(tool, s) then 1 else 0) && Seen().dried == (s.inputValid && Dries(tool, s))
    {
      hide Watch, Below, Linked, InMirror, OnePairMore, OneEntryMore, JournalStep, Outcome, Announcement, Escape, Effective, Dries, Call, Record, BlockedCall, BlockedRecord, Seen, Valid;
      EscapeIsOther(tool, s);
      RescuedRows(tool, s);
      audit := 0;
      if !s.inputValid {
        EmitAll(["tool_call.failed"]);
        return Raised(InputInvalid), audit;
      }
      var h;
      h, audit := Attempt(tool, s, id);
      if h.Escaped? && h.failure == JournalFailClosed {
        audit := AfterJournalFailure(tool, s, id);
        return Raised(JournalFailClosed), audit;
      }
      if h.Escaped? { return Raised(h.failure), audit; }
      EmitAll(Downgrade(s) + [h.event]);
      r := h.reply;
    }

    /** The main transaction. */
    method Attempt(tool: Tool, s: Scenario, id: Id) returns (h: Handled, ghost audit: Id)
      requires Valid() && Seen() == NOTHING && id !in db.calls && id < nextId && s.inputValid
      requires terms == Terms(id, tool.reversible, !tool.sideEffect.ReadOnly?, MayRun(tool, s))
      modifies this`db, this`saved, this`mirror, this`nextId, this`trace
      ensures Valid() && old(mirror) <= mirror && old(nextId) <= nextId
      ensures !Seen().open && Seen().fine && Seen().announced == []
        && Seen().runs == if Starts(tool, s) then 1 else 0
      ensures Seen().committed == h.Done? && Seen().dried == Dries(tool, s)
      ensures h.Done? <==> !Rescued(tool, s) && !Escapes(tool, s) && !WritesFail(s.first)
      ensures if h.Done? then OnePairMore(old(db), db, id, audit, Call(tool, s), Record(tool, s)) else db == old(db)
      ensures h.Done? ==>
        if MayRun(tool, s) && JournalStep(tool, s).Written? then OneEntryMore(old(db).journal, db.journal, id) else db.journal == old(db).journal
      ensures h == if h.Done? then Done(Outcome(tool, s), Announcement(tool, s))
        else Escaped(if Rescued(tool, s) then JournalFailClosed else if Escapes(tool, s) then Escape(tool, s) else WriteFailed)
    {
      hide Watch, Below, Linked, InMirror, OnePairMore, OneEntryMore, MayRun, JournalStep, Outcome, Announcement, Escape, Effective, Starts, Rescued, Escapes, Status;
      Begin();
      h, audit := Handle(tool, s, id);
      if h.Done? && s.first.commit { h := Escaped(WriteFailed); }
      if h.Done? { PairKeepsLinks(saved.value, db, id, audit, Call(tool, s), Record(tool, s)); }
      End(h.Done?);
    }

    method AfterJournalFailure(tool: Tool, s: Scenario, id: Id) returns (ghost audit: Id)
      requires Valid() && id !in db.calls && id < nextId && !Seen().open && Seen().fine
      modifies this`db, this`saved, this`mirror, this`nextId, this`trace
      ensures Valid() && old(mirror) <= mirror && old(nextId) <= nextId
      ensures Seen().fine && Seen().runs == old(Seen()).runs
        && Seen().dried == old(Seen()).dried
      ensures Seen().announced == old(Seen()).announced + Downgrade(s) + ["tool_call.failed"]
      ensures if WritesFail(s.rescue) then db == old(db) else OnePairMore(old(db), db, id, audit, BlockedCall(tool), BlockedRecord(tool)) && db.journal == old(db).journal
      ensures WritesFail(s.rescue) && s.fallback ==>
        mirror != [] && mirror[|mirror| - 1].1 == BlockedRecord(tool)
    {
      hide Watch, Below, Linked, InMirror, OnePairMore;
      var ok;
      ok, audit := Rescue(tool, id, s.rescue);
      if !ok { MirrorOnly(BlockedRecord(tool), s.fallback); }
      EmitAll(Downgrade(s) + ["tool_call.failed"]);
    }

    /** `_file_mirror_blocked_audit`: last resort without the database. */
    method MirrorOnly(record: AuditRow, works: bool)
      requires Valid() && !Seen().open && Seen().fine
      modifies this`mirror, this`nextId, this`trace
      ensures Valid() && Seen() == old(Seen()) && old(nextId) <= nextId
      ensures if works then exists id :: mirror == old(mirror) + [(id, record)] else mirror == old(mirror)
    {
      hide Watch;
      var id := NewId();
      if works {
        mirror := mirror + [(id, record)];
        Act(Mirrored);
      }
    }
  }

  lemma RescuedRows(tool: Tool, s: Scenario)
    ensures Rescued(tool, s) ==>
      Call(tool, s) == BlockedCall(tool) && Record(tool, s) == BlockedRecord(tool)
  {
  }

  lemma AskDoesNotStart(tool: Tool, s: Scenario)
    requires Effective(s).Ask? && Recorded(tool, s)
    ensures !Starts(tool, s) && Answer(tool, s) == Finished("approval_pending")
  {
  }

  lemma OneMoreCall(d: Database, e: Database, call: Id, row: CallRow, record: AuditRow)
    requires exists audit :: OnePairMore(d, e, call, audit, row, record)
    ensures |e.calls| == |d.calls| + 1
  {
    assert e.calls.Keys == d.calls.Keys + {call};
  }

  lemma EscapeIsOther(tool: Tool, s: Scenario)
    ensures Escape(tool, s) != JournalFailClosed
  {
  }
}
