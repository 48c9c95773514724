/** Approve, reject, expiry and cancel racing around a tool call that needs approval
    (sidecar/orca_core/ipc/routes/runs.py, sidecar/orca_core/ipc/routes/approvals.py,
    sidecar/orca_core/ipc/dependencies.py, sidecar/orca_core/orchestrator/runner.py). */
module ApprovalProtocol {
  type RunId = nat
  type ApprovalId = nat

  datatype State = Pending | Approved | Rejected | Expired

  /** Entries of `approval_results`; `Cancelled` is the sentinel. */
  datatype Result = Yes | No | Cancelled

  datatype RunStatus = Active | Terminal

  datatype Task = NotStarted | InProgress | Finished

  /** Where the run's task is suspended: between asks, in the waiter, or between the
      waiter's return and the cancel check of the retry. */
  datatype Phase = Busy | Waiting(id: ApprovalId) | Retrying(id: ApprovalId) | Ending

  /** A run handle; `pending` tells for each registered approval whether its event is set. */
  datatype Handle = Handle(
    pending: map<ApprovalId, bool>,
    results: map<ApprovalId, Result>,
    cancelled: bool,
    status: RunStatus,
    task: Task,
    phase: Phase)

  const NEW_HANDLE := Handle(map[], map[], false, Active, NotStarted, Busy)

  /** What happened, in order. */
  datatype Happening =
    | Asked(run: RunId, id: ApprovalId)
    | Decided(id: ApprovalId, approve: bool)      // a decide that succeeded
    | CancelRequested(run: RunId)
    | TimedOut(id: ApprovalId)
    | ToolStarted(run: RunId, id: ApprovalId)

  datatype World = World(approvals: map<ApprovalId, State>, runs: map<RunId, Handle>, log: seq<Happening>)

  const EMPTY := World(map[], map[], [])

  datatype Op =
    | OpCreate(run: RunId)
    | OpStartTask(run: RunId)
    | OpAsk(run: RunId, id: ApprovalId)         // the waiter registers a new approval
    | OpDecide(id: ApprovalId, approve: bool)
    | OpCancel(run: RunId)
    | OpTimeout(run: RunId)                     // the waiter's time is up
    | OpWake(run: RunId)                        // the waiter sees its event
    | OpRetry(run: RunId, reached: bool)        // the retry gets to its cancel check, or fails before
    | OpFinish(run: RunId)
    | OpTaskDone(run: RunId)

  datatype Reply = Accepted | NotFound | Conflict

  // ---- Steps ----

  function SetRun(w: World, run: RunId, h: Handle): World {
    w.(runs := w.runs[run := h])
  }

  function Log(w: World, e: Happening): World {
    w.(log := w.log + [e])
  }

  /** `RunHandle.approve` and `reject` */
  function Answer(h: Handle, id: ApprovalId, yes: bool): Handle {
    h.(results := h.results[id := if yes then Yes else No], pending := if id in h.pending then h.pending[id := true] else h.pending)
  }

  predicate Awaits(w: World, run: RunId, id: ApprovalId) {
    run in w.runs && id in w.runs[run].pending
  }

  function DecideReply(w: World, id: ApprovalId): Reply {
    if id !in w.approvals then NotFound
    else if !w.approvals[id].Pending? then Conflict
    else if exists run :: run in w.runs && id in w.runs[run].pending then Accepted
    else NotFound
  }

  /** `decide` once it has found the run that waits. */
  function DecideStep(w: World, id: ApprovalId, approve: bool, run: RunId): World
    requires Awaits(w, run, id)
  {
    Log(World(w.approvals[id := if approve then Approved else Rejected], w.runs[run := Answer(w.runs[run], id, approve)], w.log),
        Decided(id, approve))
  }

  function CancelReply(w: World, run: RunId): Reply {
    if run !in w.runs then NotFound
    else if w.runs[run].status.Terminal? || w.runs[run].task.Finished? then Conflict
    else Accepted
  }

  /** All registered approvals get the sentinel and their events are set. */
  function CancelAll(h: Handle): Handle {
    h.(cancelled := true,
       results := map id | id in h.results.Keys + h.pending.Keys :: if id in h.pending then Cancelled else h.results[id],
       pending := map id | id in h.pending :: true)
  }

  /** `cancel_run` */
  function CancelStep(w: World, run: RunId): World
    requires run in w.runs
  {
    var h := w.runs[run];
    Log(SetRun(w, run, if h.task.NotStarted? then h.(cancelled := true) else CancelAll(h)), CancelRequested(run))
  }

  function AskStep(w: World, run: RunId, id: ApprovalId): World
    requires run in w.runs
  {
    var h := w.runs[run];
    Log(World(w.approvals[id := Pending], w.runs[run := h.(pending := h.pending[id := false], phase := Waiting(id))], w.log), Asked(run, id))
  }

  function TimeoutStep(w: World, run: RunId): World
    requires run in w.runs && w.runs[run].phase.Waiting?
  {
    var h := w.runs[run]; var id := h.phase.id;
    Log(World(w.approvals[id := Expired], w.runs[run := h.(pending := h.pending - {id}, phase := Ending)], w.log), TimedOut(id))
  }

  /** The waiter's result and the checks of the runner right after it. */
  function WakeStep(w: World, run: RunId): World
    requires run in w.runs && w.runs[run].phase.Waiting?
  {
    var h := w.runs[run]; var id := h.phase.id;
    var yes := id in h.results && h.results[id].Yes?;
    var sentinel := id in h.results && h.results[id].Cancelled?;
    SetRun(w, run, h.(phase := if sentinel || h.cancelled || !yes then Ending else Retrying(id)))
  }

  function RetryStep(w: World, run: RunId, reached: bool): World
    requires run in w.runs && w.runs[run].phase.Retrying?
  {
    var h := w.runs[run];
    if !reached then SetRun(w, run, h.(phase := Busy))
    else if h.cancelled then SetRun(w, run, h.(phase := Ending))
    else Log(SetRun(w, run, h.(phase := Busy)), ToolStarted(run, h.phase.id))
  }

  ghost function Step(w: World, op: Op): World {
    match op
    case OpCreate(run) => if run in w.runs then w else SetRun(w, run, NEW_HANDLE)
    case OpStartTask(run) =>
      if run in w.runs && w.runs[run].task.NotStarted? then SetRun(w, run, w.runs[run].(task := InProgress)) else w
    case OpAsk(run, id) =>
      if run in w.runs && w.runs[run].task.InProgress? && w.runs[run].phase.Busy? && id !in w.approvals then AskStep(w, run, id) else w
    case OpDecide(id, approve) =>
      if DecideReply(w, id).Accepted? then
        var run :| run in w.runs && id in w.runs[run].pending;
        DecideStep(w, id, approve, run)
      else w
    case OpCancel(run) => if CancelReply(w, run).Accepted? then CancelStep(w, run) else w
    case OpTimeout(run) => if run in w.runs && w.runs[run].phase.Waiting? then TimeoutStep(w, run) else w
    case OpWake(run) =>
      if run in w.runs && w.runs[run].phase.Waiting? && w.runs[run].phase.id in w.runs[run].pending && w.runs[run].pending[w.runs[run].phase.id]
      then WakeStep(w, run) else w
    case OpRetry(run, reached) => if run in w.runs && w.runs[run].phase.Retrying? then RetryStep(w, run, reached) else w
    case OpFinish(run) =>
      if run in w.runs && (w.runs[run].phase.Busy? || w.runs[run].phase.Ending?) then SetRun(w, run, w.runs[run].(status := Terminal, phase := Ending)) else w
    case OpTaskDone(run) =>
      if run in w.runs && w.runs[run].task.InProgress? && w.runs[run].phase.Ending? then SetRun(w, run, w.runs[run].(status := Terminal, task := Finished)) else w
  }

  ghost function Run(ops: seq<Op>): World {
    if ops == [] then EMPTY else Step(Run(ops[..|ops| - 1]), ops[|ops| - 1])
  }

  // ---- Safety of a history ----

  ghost predicate SafeAt(log: seq<Happening>, i: nat)
    requires i < |log|
  {
    var before := log[..i];
    match log[i]
    case ToolStarted(run, id) =>
      && Asked(run, id) in before && Decided(id, true) in before
      && CancelRequested(run) !in before && TimedOut(id) !in before
      && forall r :: ToolStarted(r, id) !in before
    case Decided(id, _) =>
      && (exists r :: Asked(r, id) in before)
      && Decided(id, true) !in before && Decided(id, false) !in before && TimedOut(id) !in before
    case Asked(_, id) => forall r :: Asked(r, id) !in before
    case _ => true
  }

  /** A tool call that needs approval starts at most once, only after its approval was
      approved, and never after a cancel or the expiry; no approval is decided twice. */
  ghost predicate Safe(log: seq<Happening>) {
    forall i :: 0 <= i < |log| ==> SafeAt(log, i)
  }

  lemma SafeAppend(log: seq<Happening>, e: Happening)
    requires Safe(log) && SafeAt(log + [e], |log|)
    ensures Safe(log + [e])
  {
    var all := log + [e];
    forall i | 0 <= i < |all| ensures SafeAt(all, i) {
      if i < |log| { assert all[..i] == log[..i] && all[i] == log[i] && SafeAt(log, i); }
    }
  }

  // ---- Invariant ----

  /** One run's part of the invariant. */
  ghost predicate HandleOk(log: seq<Happening>, run: RunId, h: Handle) {
    && (forall id :: id in h.pending ==> Asked(run, id) in log)
    && (forall id :: id in h.results && h.results[id].Yes? ==> Decided(id, true) in log)
    && (CancelRequested(run) in log ==> h.cancelled)
    && (h.phase.Waiting? || h.phase.Retrying? ==> AskOpen(log, run, h.phase.id))
    && (h.phase.Waiting? ==> h.phase.id in h.pending)
    && (h.phase.Retrying? ==> Decided(h.phase.id, true) in log)
  }

  /** The ask is neither timed out nor used up. */
  ghost predicate AskOpen(log: seq<Happening>, run: RunId, id: ApprovalId) {
    Asked(run, id) in log && TimedOut(id) !in log && forall r :: ToolStarted(r, id) !in log
  }

  ghost predicate ApprovalsOk(w: World) {
    && (forall run, id :: Asked(run, id) in w.log ==> id in w.approvals)
    && (forall id, yes :: Decided(id, yes) in w.log ==> id in w.approvals && !w.approvals[id].Pending?)
    && (forall id :: TimedOut(id) in w.log ==> id in w.approvals && w.approvals[id].Expired?)
    && (forall run, id :: ToolStarted(run, id) in w.log ==> Asked(run, id) in w.log)
    && (forall run, other, id :: Asked(run, id) in w.log && Asked(other, id) in w.log ==> run == other)
    && (forall run :: CancelRequested(run) in w.log ==> run in w.runs)
  }

  ghost predicate Inv(w: World) {
    && ApprovalsOk(w)
    && (forall run :: run in w.runs ==> HandleOk(w.log, run, w.runs[run]))
    && Safe(w.log)
  }

  ghost predicate HandlesOk(w: World, log: seq<Happening>, except: RunId) {
    forall run :: run in w.runs && run != except ==> HandleOk(log, run, w.runs[run])
  }

  /** What may be appended without touching a handle's part of the invariant. */
  ghost predicate Foreign(e: Happening, run: RunId, h: Handle) {
    && e != CancelRequested(run)
    && (h.phase.Waiting? || h.phase.Retrying? ==> e != TimedOut(h.phase.id) && forall r :: e != ToolStarted(r, h.phase.id))
  }

  lemma HandleGrows(log: seq<Happening>, e: Happening, run: RunId, h: Handle)
    requires HandleOk(log, run, h) && Foreign(e, run, h)
    ensures HandleOk(log + [e], run, h)
  {
  }

  lemma AllGrow(w: World, e: Happening, except: RunId)
    requires Inv(w)
    requires forall run :: run in w.runs && run != except ==> Foreign(e, run, w.runs[run])
    ensures HandlesOk(w, w.log + [e], except)
  {
    hide HandleOk, Foreign, ApprovalsOk, Safe;
    forall run | run in w.runs && run != except ensures HandleOk(w.log + [e], run, w.runs[run]) {
      HandleGrows(w.log, e, run, w.runs[run]);
    }
  }

  lemma Assemble(w: World, v: World, run: RunId)
    requires HandlesOk(w, v.log, run) && run in v.runs && v.runs == w.runs[run := v.runs[run]]
    requires HandleOk(v.log, run, v.runs[run]) && ApprovalsOk(v) && Safe(v.log)
    ensures Inv(v)
  {
    hide HandleOk, ApprovalsOk, Safe;
  }

  /** Steps that only change one handle, quietly. */
  lemma QuietStep(w: World, run: RunId, h: Handle)
    requires Inv(w) && HandleOk(w.log, run, h)
    ensures Inv(SetRun(w, run, h))
  {
    hide HandleOk, Safe;
  }

  lemma AskKeeps(w: World, run: RunId, id: ApprovalId)
    requires Inv(w) && run in w.runs && w.runs[run].phase.Busy? && id !in w.approvals
    ensures Inv(AskStep(w, run, id))
  {
    var e := Asked(run, id);
    NewAsk(w, run, id);
    hide HandleOk, ApprovalsOk, Safe, Foreign;
    forall r | r in w.runs && r != run ensures Foreign(e, r, w.runs[r]) { AskIsForeign(run, id, r, w.runs[r]); }
    AllGrow(w, e, run);
    Assemble(w, AskStep(w, run, id), run);
  }

  lemma AskIsForeign(run: RunId, id: ApprovalId, r: RunId, h: Handle)
    ensures Foreign(Asked(run, id), r, h)
  {
  }

  lemma NewAsk(w: World, run: RunId, id: ApprovalId)
    requires Inv(w) && run in w.runs && w.runs[run].phase.Busy? && id !in w.approvals
    ensures var v := AskStep(w, run, id);
      HandleOk(v.log, run, v.runs[run]) && ApprovalsOk(v) && Safe(v.log)
  {
    NewAskHandle(w, run, id);
    NewAskApprovals(w, run, id);
    NewAskSafe(w, run, id);
  }

  lemma NewAskHandle(w: World, run: RunId, id: ApprovalId)
    requires Inv(w) && run in w.runs && w.runs[run].phase.Busy? && id !in w.approvals
    ensures var v := AskStep(w, run, id); HandleOk(v.log, run, v.runs[run])
  {
    hide Safe;
    assert HandleOk(w.log, run, w.runs[run]);
  }

  lemma NewAskApprovals(w: World, run: RunId, id: ApprovalId)
    requires ApprovalsOk(w) && run in w.runs && id !in w.approvals
    ensures ApprovalsOk(AskStep(w, run, id))
  {
  }

  lemma NewAskSafe(w: World, run: RunId, id: ApprovalId)
    requires ApprovalsOk(w) && Safe(w.log) && id !in w.approvals
    ensures Safe(w.log + [Asked(run, id)])
  {
    var e := Asked(run, id);
    assert (w.log + [e])[..|w.log|] == w.log;
    SafeAppend(w.log, e);
  }

  // ---- decide ----

  lemma DecideHandle(w: World, id: ApprovalId, approve: bool, run: RunId)
    requires Inv(w) && Awaits(w, run, id)
    ensures HandleOk(DecideStep(w, id, approve, run).log, run, Answer(w.runs[run], id, approve))
  {
    hide Safe, ApprovalsOk;
    assert HandleOk(w.log, run, w.runs[run]);
  }

  lemma DecideApprovals(w: World, id: ApprovalId, approve: bool, run: RunId)
    requires ApprovalsOk(w) && Awaits(w, run, id) && id in w.approvals
      && w.approvals[id].Pending?
    ensures ApprovalsOk(DecideStep(w, id, approve, run))
  {
  }

  lemma DecideSafe(w: World, id: ApprovalId, approve: bool, run: RunId)
    requires Inv(w) && Awaits(w, run, id) && id in w.approvals && w.approvals[id].Pending?
    ensures Safe(w.log + [Decided(id, approve)])
  {
    var e := Decided(id, approve);
    assert (w.log + [e])[..|w.log|] == w.log;
    assert HandleOk(w.log, run, w.runs[run]) && Asked(run, id) in w.log;
    SafeAppend(w.log, e);
  }

  lemma DecideKeeps(w: World, id: ApprovalId, approve: bool, run: RunId)
    requires Inv(w) && Awaits(w, run, id) && id in w.approvals && w.approvals[id].Pending?
    ensures Inv(DecideStep(w, id, approve, run))
  {
    DecideHandle(w, id, approve, run);
    DecideApprovals(w, id, approve, run);
    DecideSafe(w, id, approve, run);
    hide HandleOk, ApprovalsOk, Safe, Foreign, Answer;
    forall r | r in w.runs && r != run ensures Foreign(Decided(id, approve), r, w.runs[r]) { DecideIsForeign(id, approve, r, w.runs[r]); }
    AllGrow(w, Decided(id, approve), run);
    Assemble(w, DecideStep(w, id, approve, run), run);
  }

  lemma DecideIsForeign(id: ApprovalId, approve: bool, r: RunId, h: Handle)
    ensures Foreign(Decided(id, approve), r, h)
  {
  }

  // ---- cancel ----

  lemma CancelHandle(w: World, run: RunId)
    requires Inv(w) && run in w.runs
    ensures HandleOk(CancelStep(w, run).log, run, CancelStep(w, run).runs[run])
  {
    hide Safe, ApprovalsOk;
    assert HandleOk(w.log, run, w.runs[run]);
  }

  lemma CancelSafe(w: World, run: RunId)
    requires Safe(w.log) && ApprovalsOk(w) && run in w.runs
    ensures Safe(w.log + [CancelRequested(run)]) && ApprovalsOk(CancelStep(w, run))
  {
    SafeAppend(w.log, CancelRequested(run));
  }

  lemma CancelKeeps(w: World, run: RunId)
    requires Inv(w) && run in w.runs
    ensures Inv(CancelStep(w, run))
  {
    CancelHandle(w, run);
    CancelSafe(w, run);
    hide HandleOk, ApprovalsOk, Safe, Foreign, CancelAll;
    forall r | r in w.runs && r != run ensures Foreign(CancelRequested(run), r, w.runs[r]) { CancelIsForeign(run, r, w.runs[r]); }
    AllGrow(w, CancelRequested(run), run);
    Assemble(w, CancelStep(w, run), run);
  }

  lemma CancelIsForeign(run: RunId, r: RunId, h: Handle)
    requires r != run
    ensures Foreign(CancelRequested(run), r, h)
  {
  }

  // ---- timeout, wake, retry ----

  lemma TimeoutHandle(w: World, run: RunId)
    requires Inv(w) && run in w.runs && w.runs[run].phase.Waiting?
    ensures HandleOk(TimeoutStep(w, run).log, run, TimeoutStep(w, run).runs[run])
  {
    hide Safe, ApprovalsOk;
    assert HandleOk(w.log, run, w.runs[run]);
  }

  lemma TimeoutSafe(w: World, run: RunId)
    requires Inv(w) && run in w.runs && w.runs[run].phase.Waiting?
    ensures Safe(TimeoutStep(w, run).log) && ApprovalsOk(TimeoutStep(w, run))
  {
    assert HandleOk(w.log, run, w.runs[run]);
    SafeAppend(w.log, TimedOut(w.runs[run].phase.id));
  }

  /** Only the run that asked can be waiting for an approval. */
  lemma OthersWaitElsewhere(w: World, run: RunId, id: ApprovalId, r: RunId)
    requires Inv(w) && run in w.runs && r in w.runs && r != run
    requires Asked(run, id) in w.log
    ensures w.runs[r].phase.Waiting? || w.runs[r].phase.Retrying? ==> w.runs[r].phase.id != id
  {
    assert HandleOk(w.log, r, w.runs[r]);
  }

  lemma TimeoutKeeps(w: World, run: RunId)
    requires Inv(w) && run in w.runs && w.runs[run].phase.Waiting?
    ensures Inv(TimeoutStep(w, run))
  {
    TimeoutHandle(w, run);
    TimeoutSafe(w, run);
    var id := w.runs[run].phase.id;
    assert Asked(run, id) in w.log by { assert HandleOk(w.log, run, w.runs[run]); }
    hide HandleOk, ApprovalsOk, Safe;
    forall r | r in w.runs && r != run ensures Foreign(TimedOut(id), r, w.runs[r]) { OthersWaitElsewhere(w, run, id, r); }
    AllGrow(w, TimedOut(id), run);
    Assemble(w, TimeoutStep(w, run), run);
  }

  lemma WakeKeeps(w: World, run: RunId)
    requires Inv(w) && run in w.runs && w.runs[run].phase.Waiting?
    ensures Inv(WakeStep(w, run))
  {
    hide Safe, ApprovalsOk;
    assert HandleOk(w.log, run, w.runs[run]);
    QuietStep(w, run, WakeStep(w, run).runs[run]);
  }

  lemma RetryHandle(w: World, run: RunId)
    requires Inv(w) && run in w.runs && w.runs[run].phase.Retrying? && !w.runs[run].cancelled
    ensures HandleOk(RetryStep(w, run, true).log, run, RetryStep(w, run, true).runs[run])
  {
    hide Safe, ApprovalsOk;
    assert HandleOk(w.log, run, w.runs[run]);
  }

  lemma RetrySafe(w: World, run: RunId)
    requires Inv(w) && run in w.runs && w.runs[run].phase.Retrying? && !w.runs[run].cancelled
    ensures Safe(RetryStep(w, run, true).log) && ApprovalsOk(RetryStep(w, run, true))
  {
    var e := ToolStarted(run, w.runs[run].phase.id);
    assert HandleOk(w.log, run, w.runs[run]);
    assert (w.log + [e])[..|w.log|] == w.log;
    SafeAppend(w.log, e);
  }

  lemma RetryKeeps(w: World, run: RunId, reached: bool)
    requires Inv(w) && run in w.runs && w.runs[run].phase.Retrying?
    ensures Inv(RetryStep(w, run, reached))
  {
    if !reached || w.runs[run].cancelled {
      assert HandleOk(w.log, run, w.runs[run]);
      QuietStep(w, run, RetryStep(w, run, reached).runs[run]);
    } else {
      RetryStarts(w, run);
    }
  }

  lemma RetryStarts(w: World, run: RunId)
    requires Inv(w) && run in w.runs && w.runs[run].phase.Retrying? && !w.runs[run].cancelled
    ensures Inv(RetryStep(w, run, true))
  {
    RetryHandle(w, run);
    RetrySafe(w, run);
    var id := w.runs[run].phase.id;
    assert Asked(run, id) in w.log by { assert HandleOk(w.log, run, w.runs[run]); }
    hide HandleOk, ApprovalsOk, Safe;
    forall r | r in w.runs && r != run ensures Foreign(ToolStarted(run, id), r, w.runs[r]) { OthersWaitElsewhere(w, run, id, r); }
    AllGrow(w, ToolStarted(run, id), run);
    Assemble(w, RetryStep(w, run, true), run);
  }

  // ---- All steps ----

  lemma CreateKeeps(w: World, run: RunId)
    requires Inv(w) && run !in w.runs
    ensures Inv(SetRun(w, run, NEW_HANDLE))
  {
    hide Safe;
    QuietStep(w, run, NEW_HANDLE);
  }

  lemma PhaseEnds(w: World, run: RunId, h: Handle)
    requires Inv(w) && run in w.runs && (h.phase == w.runs[run].phase || h.phase.Ending?)
    requires h.pending == w.runs[run].pending && h.results == w.runs[run].results
      && h.cancelled == w.runs[run].cancelled
    ensures Inv(SetRun(w, run, h))
  {
    hide Safe, ApprovalsOk;
    assert HandleOk(w.log, run, w.runs[run]);
    QuietStep(w, run, h);
  }

  lemma StepKeeps(w: World, op: Op)
    requires Inv(w)
    ensures Inv(Step(w, op))
  {
    hide Inv, AskStep, DecideStep, CancelStep, TimeoutStep, WakeStep, RetryStep, SetRun;
    match op
    case OpCreate(run) => if run !in w.runs { CreateKeeps(w, run); }
    case OpStartTask(run) => if run in w.runs { PhaseEnds(w, run, w.runs[run].(task := InProgress)); }
    case OpAsk(run, id) => if run in w.runs && w.runs[run].phase.Busy? && id !in w.approvals { AskKeeps(w, run, id); }
    case OpDecide(id, approve) =>
      if DecideReply(w, id).Accepted? {
        var run :| run in w.runs && id in w.runs[run].pending && Step(w, op) == DecideStep(w, id, approve, run);
        DecideKeeps(w, id, approve, run);
      }
    case OpCancel(run) => if run in w.runs { CancelKeeps(w, run); }
    case OpTimeout(run) => if run in w.runs && w.runs[run].phase.Waiting? { TimeoutKeeps(w, run); }
    case OpWake(run) => if run in w.runs && w.runs[run].phase.Waiting? { WakeKeeps(w, run); }
    case OpRetry(run, reached) => if run in w.runs && w.runs[run].phase.Retrying? { RetryKeeps(w, run, reached); }
    case OpFinish(run) => if run in w.runs { PhaseEnds(w, run, w.runs[run].(status := Terminal, phase := Ending)); }
    case OpTaskDone(run) => if run in w.runs { PhaseEnds(w, run, w.runs[run].(status := Terminal, task := Finished)); }
  }

  // ---- Main results ----

  lemma {:induction false} RunKeeps(ops: seq<Op>)
    ensures Inv(Run(ops))
  {
    if ops != [] {
      RunKeeps(ops[..|ops| - 1]);
      StepKeeps(Run(ops[..|ops| - 1]), ops[|ops| - 1]);
    }
  }

  /** Over every interleaving: a tool call that needs approval starts at most once,
      only after its own approval was approved, never after its run was cancelled or
      the approval timed out; and of all decides on an approval at most one succeeds. */
  lemma {:induction false} ApprovalIsSafe(ops: seq<Op>)
    ensures Safe(Run(ops).log)
  {
    RunKeeps(ops);
  }

  // ---- What wakes a waiter ----

  /** A cancel of this run came after the ask. */
  ghost predicate CancelledSince(log: seq<Happening>, run: RunId, id: ApprovalId) {
    exists i, j :: 0 <= i < j < |log| && log[i] == Asked(run, id) && log[j] == CancelRequested(run)
  }

  /** The event of a registered approval is set exactly once it is decided or its run was
      cancelled after the ask. */
  ghost predicate EventTold(w: World, run: RunId) {
    run in w.runs ==>
      && (w.runs[run].task.NotStarted? ==> w.runs[run].pending == map[])
      && forall id :: id in w.runs[run].pending ==>
        (w.runs[run].pending[id] <==> Decided(id, true) in w.log || Decided(id, false) in w.log || CancelledSince(w.log, run, id))
  }

  /** Over every interleaving a waiter's event is set only by a decide of its approval or
      by a cancel of its run, and by each of them. */
  lemma {:induction false} EventTellsHistory(ops: seq<Op>, run: RunId)
    ensures EventTold(Run(ops), run)
  {
    if ops != [] {
      var n := |ops| - 1;
      EventTellsHistory(ops[..n], run);
      RunKeeps(ops[..n]);
      StepTellsEvent(Run(ops[..n]), ops[n], run);
    }
  }

  lemma StepTellsEvent(w: World, op: Op, r: RunId)
    requires Inv(w) && EventTold(w, r)
    ensures EventTold(Step(w, op), r)
  {
    hide EventTold, Safe, HandleOk, Inv, ApprovalsOk, AskStep, DecideStep, CancelStep, TimeoutStep, WakeStep, RetryStep;
    match op
    case OpCreate(run) => QuietEvent(w, Step(w, op), r);
    case OpStartTask(run) => QuietEvent(w, Step(w, op), r);
    case OpAsk(run, id) =>
      if run in w.runs && w.runs[run].task.InProgress? && id !in w.approvals { AskEvent(w, run, id, r); }
    case OpDecide(id, approve) =>
      forall run | Awaits(w, run, id) && id in w.approvals && w.approvals[id].Pending?
        ensures EventTold(DecideStep(w, id, approve, run), r)
      {
        DecideEvent(w, id, approve, run, r);
      }
    case OpCancel(run) => if run in w.runs { CancelEvent(w, run, r); }
    case OpTimeout(run) => if run in w.runs && w.runs[run].phase.Waiting? { TimeoutEvent(w, run, r); }
    case OpWake(run) => if run in w.runs && w.runs[run].phase.Waiting? { WakeEvent(w, run, r); }
    case OpRetry(run, reached) => if run in w.runs && w.runs[run].phase.Retrying? { RetryEvent(w, run, reached, r); }
    case _ => QuietEvent(w, Step(w, op), r);
  }

  lemma WakeEvent(w: World, run: RunId, r: RunId)
    requires EventTold(w, r) && run in w.runs && w.runs[run].phase.Waiting?
    ensures EventTold(WakeStep(w, run), r)
  {
    QuietEvent(w, WakeStep(w, run), r);
  }

  /** Neither events nor the log change; a task only leaves its start. */
  lemma QuietEvent(w: World, v: World, r: RunId)
    requires EventTold(w, r) && v.log == w.log
    requires r in v.runs ==>
      if r in w.runs then v.runs[r].pending == w.runs[r].pending && (v.runs[r].task.NotStarted? ==> w.runs[r].task.NotStarted?)
      else v.runs[r] == NEW_HANDLE
    ensures EventTold(v, r)
  {
    hide CancelledSince;
  }

  lemma SinceGrows(log: seq<Happening>, e: Happening, run: RunId, id: ApprovalId)
    ensures CancelledSince(log + [e], run, id) <==>
      CancelledSince(log, run, id) || (e == CancelRequested(run) && Asked(run, id) in log)
  {
    var all := log + [e];
    if i, j :| 0 <= i < j < |log| && log[i] == Asked(run, id) && log[j] == CancelRequested(run) {
      assert all[i] == log[i] && all[j] == log[j];
    }
    if e == CancelRequested(run) && Asked(run, id) in log {
      var i :| 0 <= i < |log| && log[i] == Asked(run, id);
      assert all[i] == log[i] && all[|log|] == e;
    }
    if i, j :| 0 <= i < j < |all| && all[i] == Asked(run, id) && all[j] == CancelRequested(run) {
      if j < |log| { assert log[i] == all[i] && log[j] == all[j]; }
    }
  }

  lemma SinceNeedsAsk(log: seq<Happening>, run: RunId, id: ApprovalId)
    requires CancelledSince(log, run, id)
    ensures Asked(run, id) in log
  {
  }

  lemma AskEvent(w: World, run: RunId, id: ApprovalId, r: RunId)
    requires Inv(w) && EventTold(w, r) && run in w.runs && w.runs[run].task.InProgress?
      && id !in w.approvals
    ensures EventTold(AskStep(w, run, id), r)
  {
    hide Safe, HandleOk, CancelledSince;
    var e := Asked(run, id);
    forall x ensures CancelledSince(w.log + [e], r, x) <==> CancelledSince(w.log, r, x) { SinceGrows(w.log, e, r, x); }
    if CancelledSince(w.log, r, id) { SinceNeedsAsk(w.log, r, id); }
  }

  lemma DecideEvent(w: World, id: ApprovalId, approve: bool, run: RunId, r: RunId)
    requires Inv(w) && EventTold(w, r) && Awaits(w, run, id) && id in w.approvals
      && w.approvals[id].Pending?
    ensures EventTold(DecideStep(w, id, approve, run), r)
  {
    hide Safe, CancelledSince;
    var e := Decided(id, approve);
    forall x ensures CancelledSince(w.log + [e], r, x) <==> CancelledSince(w.log, r, x) { SinceGrows(w.log, e, r, x); }
    assert HandleOk(w.log, run, w.runs[run]);
    if r in w.runs && id in w.runs[r].pending { assert HandleOk(w.log, r, w.runs[r]) && r == run; }
  }

  lemma CancelEvent(w: World, run: RunId, r: RunId)
    requires Inv(w) && EventTold(w, r) && run in w.runs
    ensures EventTold(CancelStep(w, run), r)
  {
    hide Safe, ApprovalsOk, CancelledSince;
    var e := CancelRequested(run);
    assert HandleOk(w.log, run, w.runs[run]);
    forall x ensures CancelledSince(w.log + [e], r, x) <==> CancelledSince(w.log, r, x) || (r == run && Asked(run, x) in w.log) {
      SinceGrows(w.log, e, r, x);
    }
  }

  lemma TimeoutEvent(w: World, run: RunId, r: RunId)
    requires EventTold(w, r) && run in w.runs && w.runs[run].phase.Waiting?
    ensures EventTold(TimeoutStep(w, run), r)
  {
    hide CancelledSince;
    var e := TimedOut(w.runs[run].phase.id);
    forall x ensures CancelledSince(w.log + [e], r, x) <==> CancelledSince(w.log, r, x) { SinceGrows(w.log, e, r, x); }
  }

  lemma RetryEvent(w: World, run: RunId, reached: bool, r: RunId)
    requires EventTold(w, r) && run in w.runs && w.runs[run].phase.Retrying?
    ensures EventTold(RetryStep(w, run, reached), r)
  {
    hide CancelledSince;
    var e := ToolStarted(run, w.runs[run].phase.id);
    forall x ensures CancelledSince(w.log + [e], r, x) <==> CancelledSince(w.log, r, x) { SinceGrows(w.log, e, r, x); }
  }

  // ---- The replies, and what is left of an expired approval ----

  /** Who is told what: an unknown approval, or one that no run waits for any more, is not
      found; one that is decided or expired is a conflict. */
  lemma RepliesExactly(w: World, id: ApprovalId, run: RunId)
    ensures DecideReply(w, id).Conflict? <==> id in w.approvals && !w.approvals[id].Pending?
    ensures DecideReply(w, id).Accepted? <==>
      id in w.approvals && w.approvals[id].Pending? && exists r :: r in w.runs && id in w.runs[r].pending
    ensures CancelReply(w, run).NotFound? <==> run !in w.runs
    ensures CancelReply(w, run).Conflict? <==>
      run in w.runs && (w.runs[run].status.Terminal? || w.runs[run].task.Finished?)
  {
  }

  lemma DecideNotFound(w: World, id: ApprovalId)
    ensures DecideReply(w, id).NotFound? <==>
      id !in w.approvals || (w.approvals[id].Pending? && forall r :: r in w.runs ==> id !in w.runs[r].pending)
  {
  }

  /** An expired approval is neither registered nor decided any more, whatever was
      decided before, and its waiter ends. */
  lemma ExpiryIsFinal(w: World, run: RunId, approve: bool)
    requires run in w.runs && w.runs[run].phase.Waiting?
    ensures var id, v := w.runs[run].phase.id, Step(w, OpTimeout(run));
      && v.approvals[id].Expired? && id !in v.runs[run].pending && v.runs[run].phase.Ending?
      && DecideReply(v, id).Conflict? && Step(v, OpDecide(id, approve)) == v
  {
  }

  /** An accepted cancel of a started run sets the event of everything it waits for, so
      its waiter ends without a decision. */
  lemma CancelEndsWaiting(w: World, run: RunId)
    requires Inv(w) && run in w.runs && w.runs[run].phase.Waiting?
      && !w.runs[run].task.NotStarted?
      && CancelReply(w, run).Accepted?
    ensures var c := Step(w, OpCancel(run)); var v := Step(c, OpWake(run));
      && run in c.runs && c.runs[run].cancelled
      && (forall id :: id in w.runs[run].pending ==>
          id in c.runs[run].pending && c.runs[run].pending[id] && id in c.runs[run].results && c.runs[run].results[id].Cancelled?)
      && run in v.runs && v.runs[run].phase.Ending?
  {
    WaitingIsRegistered(w, run);
    hide Inv, Safe;
  }

  // ---- The table ----

  /** The table tells what happened: an approval is there once it was asked for, it is
      expired once it timed out, and before that approved or rejected as decided. */
  ghost predicate Told(w: World, id: ApprovalId) {
    && (id in w.approvals <==> exists r :: Asked(r, id) in w.log)
    && (id in w.approvals ==>
        var state, timedOut := w.approvals[id], TimedOut(id) in w.log;
        && (state.Expired? <==> timedOut)
        && (state.Approved? <==> Decided(id, true) in w.log && !timedOut)
        && (state.Rejected? <==> Decided(id, false) in w.log && !timedOut)
        && (state.Pending? <==> Decided(id, true) !in w.log && Decided(id, false) !in w.log && !timedOut))
  }

  /** Over every interleaving the stored state of every approval is what its history
      says. */
  lemma {:induction false} TableTellsHistory(ops: seq<Op>, id: ApprovalId)
    ensures Told(Run(ops), id)
  {
    if ops != [] {
      var n := |ops| - 1;
      TableTellsHistory(ops[..n], id);
      RunKeeps(ops[..n]);
      StepTells(Run(ops[..n]), ops[n], id);
    }
  }

  lemma StepTells(w: World, op: Op, id: ApprovalId)
    requires Inv(w) && Told(w, id)
    ensures Told(Step(w, op), id)
  {
    hide Told, Safe, HandleOk, Inv, ApprovalsOk, AskStep, DecideStep, CancelStep, TimeoutStep, WakeStep, RetryStep;
    match op
    case OpAsk(run, x) => if run in w.runs && x !in w.approvals { AskTells(w, run, x, id); }
    case OpDecide(x, approve) =>
      forall run | Awaits(w, run, x) && x in w.approvals && w.approvals[x].Pending?
        ensures Told(DecideStep(w, x, approve, run), id)
      {
        DecideTells(w, x, approve, run, id);
      }
    case OpCancel(run) => if run in w.runs { CancelTells(w, run, id); }
    case OpTimeout(run) => if run in w.runs && w.runs[run].phase.Waiting? { TimeoutTells(w, run, id); }
    case OpWake(run) => if run in w.runs && w.runs[run].phase.Waiting? { WakeTells(w, run, id); }
    case OpRetry(run, reached) => if run in w.runs && w.runs[run].phase.Retrying? { RetryTells(w, run, reached, id); }
    case _ => SameTableTells(w, Step(w, op), id);
  }

  lemma SameTableTells(w: World, v: World, id: ApprovalId)
    requires Told(w, id) && v.approvals == w.approvals && v.log == w.log
    ensures Told(v, id)
  {
  }

  lemma AskTells(w: World, run: RunId, x: ApprovalId, id: ApprovalId)
    requires Inv(w) && Told(w, id) && run in w.runs && x !in w.approvals
    ensures Told(AskStep(w, run, x), id)
  {
    hide Safe, HandleOk;
    var v := AskStep(w, run, x);
    assert Asked(run, x) in v.log;
    assert forall e :: e in v.log <==> e in w.log || e == Asked(run, x);
  }

  lemma DecideTells(w: World, x: ApprovalId, approve: bool, run: RunId, id: ApprovalId)
    requires Inv(w) && Told(w, id) && Awaits(w, run, x) && x in w.approvals
      && w.approvals[x].Pending?
    ensures Told(DecideStep(w, x, approve, run), id)
  {
    hide Safe, HandleOk, Answer;
    var v := DecideStep(w, x, approve, run);
    assert forall e :: e in v.log <==> e in w.log || e == Decided(x, approve);
  }

  lemma CancelTells(w: World, run: RunId, id: ApprovalId)
    requires Told(w, id) && run in w.runs
    ensures Told(CancelStep(w, run), id)
  {
    hide CancelAll;
    assert forall e :: e in CancelStep(w, run).log <==> e in w.log || e == CancelRequested(run);
  }

  lemma TimeoutTells(w: World, run: RunId, id: ApprovalId)
    requires Inv(w) && Told(w, id) && run in w.runs && w.runs[run].phase.Waiting?
    ensures Told(TimeoutStep(w, run), id)
  {
    hide Safe;
    var x := w.runs[run].phase.id;
    assert HandleOk(w.log, run, w.runs[run]) && Asked(run, x) in w.log;
    assert forall e :: e in TimeoutStep(w, run).log <==> e in w.log || e == TimedOut(x);
  }

  lemma WakeTells(w: World, run: RunId, id: ApprovalId)
    requires Told(w, id) && run in w.runs && w.runs[run].phase.Waiting?
    ensures Told(WakeStep(w, run), id)
  {
    SameTableTells(w, WakeStep(w, run), id);
  }

  lemma RetryTells(w: World, run: RunId, reached: bool, id: ApprovalId)
    requires Told(w, id) && run in w.runs && w.runs[run].phase.Retrying?
    ensures Told(RetryStep(w, run, reached), id)
  {
    var x := w.runs[run].phase.id;
    var v := RetryStep(w, run, reached);
    assert v.log == w.log || v.log == w.log + [ToolStarted(run, x)];
    assert forall e :: e in v.log && e !in w.log ==> e == ToolStarted(run, x);
  }

  function Starts(log: seq<Happening>, id: ApprovalId): nat {
    if log == [] then 0
    else Starts(log[..|log| - 1], id) + match log[|log| - 1] case ToolStarted(_, x) => (if x == id then 1 else 0) case _ => 0
  }

  function Decisions(log: seq<Happening>, id: ApprovalId): nat {
    if log == [] then 0
    else Decisions(log[..|log| - 1], id) + match log[|log| - 1] case Decided(x, _) => (if x == id then 1 else 0) case _ => 0
  }

  lemma SafePrefix(log: seq<Happening>, n: nat)
    requires Safe(log) && n <= |log|
    ensures Safe(log[..n])
  {
    forall i | 0 <= i < n ensures SafeAt(log[..n], i) {
      assert log[..n][..i] == log[..i] && SafeAt(log, i);
    }
  }

  /** Counted over a whole safe history: at most one start and one decision per
      approval, and a start needs a decision. */
  lemma {:induction false} AtMostOnce(log: seq<Happening>, id: ApprovalId)
    requires Safe(log)
    ensures Starts(log, id) <= 1 && Decisions(log, id) <= 1
      && Starts(log, id) <= Decisions(log, id)
    ensures Starts(log, id) == 0 <==> forall r :: ToolStarted(r, id) !in log
    ensures Decisions(log, id) == 0 <==> Decided(id, true) !in log && Decided(id, false) !in log
  {
    if log != [] {
      var n := |log| - 1;
      SafePrefix(log, n);
      AtMostOnce(log[..n], id);
      assert SafeAt(log, n);
      assert log == log[..n] + [log[n]];
      hide Safe, SafeAt;
      InAppend(log[..n], log[n], id);
    }
  }

  lemma InAppend(log: seq<Happening>, e: Happening, id: ApprovalId)
    ensures (forall r :: ToolStarted(r, id) !in log + [e]) <==>
      (forall r :: ToolStarted(r, id) !in log) && (e.ToolStarted? ==> e.id != id)
    ensures forall yes :: Decided(id, yes) in log + [e] <==> Decided(id, yes) in log || e == Decided(id, yes)
  {
    if e.ToolStarted? && e.id == id { assert ToolStarted(e.run, id) in log + [e]; }
    forall r | ToolStarted(r, id) in log ensures ToolStarted(r, id) in log + [e] {}
  }

  /** A decide finds the run that asked. */
  lemma DecideFinds(w: World, run: RunId, id: ApprovalId, approve: bool)
    requires Inv(w) && Awaits(w, run, id) && id in w.approvals && w.approvals[id].Pending?
    ensures Step(w, OpDecide(id, approve)) == DecideStep(w, id, approve, run)
  {
    hide Safe, DecideStep;
    forall r | Awaits(w, r, id) ensures r == run {
      assert HandleOk(w.log, r, w.runs[r]) && HandleOk(w.log, run, w.runs[run]);
    }
  }

  lemma WaitingIsRegistered(w: World, run: RunId)
    requires Inv(w) && run in w.runs && w.runs[run].phase.Waiting?
    ensures Awaits(w, run, w.runs[run].phase.id)
  {
    assert HandleOk(w.log, run, w.runs[run]);
  }

  /** A decision while the approval is pending takes the waiter to the retry exactly
      when it approves and the run is not cancelled; the retry then starts the tool
      exactly when no cancel came in between. */
  lemma DecisionDecides(w: World, run: RunId, approve: bool)
    requires Inv(w) && run in w.runs && w.runs[run].phase.Waiting?
    requires var id := w.runs[run].phase.id; id in w.approvals && w.approvals[id].Pending?
    ensures var id := w.runs[run].phase.id;
      var v := Step(Step(w, OpDecide(id, approve)), OpWake(run));
      && run in v.runs && v.runs[run].phase == (if approve && !w.runs[run].cancelled then Retrying(id) else Ending)
      && (v.runs[run].phase.Retrying? ==> ToolStarted(run, id) in Step(v, OpRetry(run, true)).log)
      && v.approvals == w.approvals[id := if approve then Approved else Rejected]
  {
    var id := w.runs[run].phase.id;
    WaitingIsRegistered(w, run);
    DecideFinds(w, run, id, approve);
    hide Inv, HandleOk, Safe;
    var d := Step(w, OpDecide(id, approve));
    assert d.runs[run] == Answer(w.runs[run], id, approve);
  }

  /** A cancel leaves the approval pending: an approve that comes later is accepted
      and overwrites the sentinel, and still the waiter ends without a retry. */
  lemma LateApproveIsAcceptedInVain(w: World, run: RunId)
    requires Inv(w) && run in w.runs && w.runs[run].phase.Waiting?
      && CancelReply(w, run).Accepted?
    requires var id := w.runs[run].phase.id; id in w.approvals && w.approvals[id].Pending?
    ensures var id := w.runs[run].phase.id;
      var c := Step(w, OpCancel(run)); var d := Step(c, OpDecide(id, true)); var v := Step(d, OpWake(run));
      && Decided(id, true) in d.log && run in d.runs && id in d.runs[run].results && d.runs[run].results[id].Yes?
      && run in v.runs && v.runs[run].phase.Ending?
  {
    var id := w.runs[run].phase.id;
    CancelKeeps(w, run);
    var c := CancelStep(w, run);
    assert Step(w, OpCancel(run)) == c;
    WaitingIsRegistered(w, run);
    WaitingIsRegistered(c, run);
    DecisionDecides(c, run, true);
    DecideFinds(c, run, id, true);
    hide Inv, HandleOk, Safe;
  }
}
