/** The run handles and approval table that the routes, the waiter and the runner share
    (sidecar/orca_core/ipc/dependencies.py, sidecar/orca_core/ipc/routes/runs.py,
    sidecar/orca_core/ipc/routes/approvals.py).  Every method is one stretch of code
    without an await, and does one step of the protocol. */
module Approvals {
  import opened ApprovalProtocol

  function Woken(pending: map<ApprovalId, bool>, done: set<ApprovalId>): map<ApprovalId, bool> {
    map id | id in pending :: if id in done then true else pending[id]
  }

  function Marked(results: map<ApprovalId, Result>, done: set<ApprovalId>): map<ApprovalId, Result> {
    map id | id in results.Keys + done :: if id in done then Cancelled else results[id]
  }

  lemma MarkNext(p: map<ApprovalId, bool>, r: map<ApprovalId, Result>, done: set<ApprovalId>, id: ApprovalId)
    requires id in p
    ensures id in Woken(p, done) && Woken(p, done)[id := true] == Woken(p, done + {id})
    ensures Marked(r, done)[id := Cancelled] == Marked(r, done + {id})
  {
  }

  lemma MarkedEnds(h: Handle)
    ensures Woken(h.pending, {}) == h.pending && Marked(h.results, {}) == h.results
    ensures CancelAll(h) == h.(cancelled := true, pending := Woken(h.pending, h.pending.Keys), results := Marked(h.results, h.pending.Keys))
  {
  }

  class RunHandle {
    var pending: map<ApprovalId, bool>
    var results: map<ApprovalId, Result>
    var cancelled: bool
    var status: RunStatus
    var task: Task
    var phase: Phase

    ghost function View(): Handle
      reads this
    {
      Handle(pending, results, cancelled, status, task, phase)
    }

    constructor ()
      ensures View() == NEW_HANDLE
    {
      pending, results, cancelled, status, task, phase := map[], map[], false, Active, NotStarted, Busy;
    }

    method SetEvent(id: ApprovalId)
      modifies this`pending
      ensures pending == if id in old(pending) then old(pending)[id := true] else old(pending)
    {
      if id in pending { pending := pending[id := true]; }
    }

    method Approve(id: ApprovalId)
      modifies this`results, this`pending
      ensures View() == Answer(old(View()), id, true)
    {
      results := results[id := Yes];
      SetEvent(id);
    }

    method Reject(id: ApprovalId)
      modifies this`results, this`pending
      ensures View() == Answer(old(View()), id, false)
    {
      results := results[id := No];
      SetEvent(id);
    }

    /** The body of `cancel_run` for a started task. */
    method CancelPending()
      modifies this`cancelled, this`results, this`pending
      ensures View() == CancelAll(old(View()))
    {
      hide Woken, Marked, CancelAll;
      MarkedEnds(View());
      cancelled := true;
      ghost var p, r := pending, results;
      assert p.Keys - p.Keys == {};
      var todo := pending.Keys;
      while todo != {}
        invariant todo <= p.Keys && cancelled
        invariant pending == Woken(p, p.Keys - todo) && results == Marked(r, p.Keys - todo)
      {
        var id :| id in todo;
        results := results[id := Cancelled];
        SetEvent(id);
        MarkNext(p, r, p.Keys - todo, id);
        assert p.Keys - (todo - {id}) == p.Keys - todo + {id};
        todo := todo - {id};
      }
      assert p.Keys - {} == p.Keys;
    }
  }

  class AppServices {
    var approvals: map<ApprovalId, State>
    var runs: map<RunId, RunHandle>
    ghost var log: seq<Happening>

    ghost predicate Valid()
      reads this
    {
      forall r, q :: r in runs && q in runs && r != q ==> runs[r] != runs[q]
    }

    ghost function View(): World
      reads this, runs.Values
    {
      World(approvals, map r | r in runs :: runs[r].View(), log)
    }

    constructor ()
      ensures Valid() && View() == EMPTY
    {
      approvals, runs, log := map[], map[], [];
    }

    /** `start_run` up to the creation of the handle. */
    method CreateRun(run: RunId)
      requires Valid() && run !in runs
      modifies this
      ensures Valid() && View() == SetRun(old(View()), run, NEW_HANDLE) && run in runs
        && fresh(runs[run])
    {
      var h := new RunHandle();
      runs := runs[run := h];
    }

    method StartTask(run: RunId)
      requires Valid() && run in runs && runs[run].task.NotStarted?
      modifies runs.Values
      ensures Valid()
        && View() == SetRun(old(View()), run, old(View()).runs[run].(task := InProgress))
    {
      runs[run].task := InProgress;
    }

    /** First part of the waiter: a new approval and its event. */
    method Register(run: RunId, id: ApprovalId)
      requires Valid() && run in runs && runs[run].task.InProgress?
        && runs[run].phase.Busy? && id !in approvals
      modifies this`approvals, this`log, runs.Values
      ensures Valid() && View() == AskStep(old(View()), run, id)
    {
      var h := runs[run];
      h.pending := h.pending[id := false];
      h.phase := Waiting(id);
      approvals := approvals[id := Pending];
      log := log + [Asked(run, id)];
    }

    /** `decide` */
    method Decide(id: ApprovalId, approve: bool) returns (reply: Reply)
      requires Valid()
      modifies this`approvals, this`log, runs.Values
      ensures Valid() && reply == DecideReply(old(View()), id)
      ensures if reply.Accepted? then exists run :: Awaits(old(View()), run, id) && View() == DecideStep(old(View()), id, approve, run)
        else View() == old(View())
      ensures reply.Accepted? ==>
        id in approvals && approvals[id].Approved? == approve && approvals[id].Rejected? == !approve
      ensures forall other :: other in old(approvals) && other != id ==> other in approvals && approvals[other] == old(approvals)[other]
    {
      hide DecideStep, DecideReply;
      RepliesExactly(View(), id, 0);
      DecideNotFound(View(), id);
      if id !in approvals { return NotFound; }
      if !approvals[id].Pending? { return Conflict; }
      var found, run := FindRun(id);
      if !found { return NotFound; }
      assert Awaits(View(), run, id);
      Settle(run, id, approve);
      return Accepted;
    }

    /** State, result and event, in this order. */
    method Settle(run: RunId, id: ApprovalId, approve: bool)
      requires Valid() && Awaits(View(), run, id)
      modifies this`approvals, this`log, runs.Values
      ensures Valid() && View() == DecideStep(old(View()), id, approve, run)
      ensures approvals == old(approvals)[id := if approve then Approved else Rejected]
    {
      hide Answer;
      approvals := approvals[id := if approve then Approved else Rejected];
      var h := runs[run];
      if approve { h.Approve(id); } else { h.Reject(id); }
      log := log + [Decided(id, approve)];
    }

    /** The run that waits for an approval. */
    method FindRun(id: ApprovalId) returns (found: bool, run: RunId)
      ensures found ==> run in runs && id in runs[run].pending
      ensures !found ==> forall r :: r in runs ==> id !in runs[r].pending
    {
      var todo := runs.Keys;
      while todo != {}
        invariant todo <= runs.Keys
        invariant forall r :: r in runs && r !in todo ==> id !in runs[r].pending
      {
        var r :| r in todo;
        if id in runs[r].pending { return true, r; }
        todo := todo - {r};
      }
      return false, 0;
    }

    /** `cancel_run` */
    method CancelRun(run: RunId) returns (reply: Reply)
      requires Valid()
      modifies this`log, runs.Values
      ensures Valid() && reply == CancelReply(old(View()), run)
      ensures View() == if reply.Accepted? then CancelStep(old(View()), run) else old(View())
    {
      if run !in runs { return NotFound; }
      var h := runs[run];
      if h.status.Terminal? || h.task.Finished? { return Conflict; }
      if h.task.NotStarted? {
        h.cancelled := true;
      } else {
        h.CancelPending();
      }
      log := log + [CancelRequested(run)];
      return Accepted;
    }

    /** The waiter's time is up; this can win even over an event that is already set. */
    method Expire(run: RunId)
      requires Valid() && run in runs && runs[run].phase.Waiting?
      modifies this`approvals, this`log, runs.Values
      ensures Valid() && View() == TimeoutStep(old(View()), run)
    {
      var h := runs[run];
      var id := h.phase.id;
      approvals := approvals[id := Expired];
      h.pending := h.pending - {id};
      h.phase := Ending;
      log := log + [TimedOut(id)];
    }

    /** The waiter sees its event; its result and the cancel check of the runner. */
    method Resume(run: RunId)
      requires Valid() && run in runs && runs[run].phase.Waiting?
      requires runs[run].phase.id in runs[run].pending && runs[run].pending[runs[run].phase.id]
      modifies runs.Values
      ensures Valid() && View() == WakeStep(old(View()), run)
    {
      var h := runs[run];
      var id := h.phase.id;
      var outcome := if id in h.results then h.results[id] else No;
      var next := Retrying(id);
      if outcome.Cancelled? {
        next := Ending;
      } else if h.cancelled {
        next := Ending;
      } else if outcome.No? {
        next := Ending;
      }
      h.phase := next;
    }

    /** The retry of the call up to its cancel check, and the start of the tool. */
    method Retry(run: RunId, reached: bool) returns (started: bool)
      requires Valid() && run in runs && runs[run].phase.Retrying?
      modifies this`log, runs.Values
      ensures Valid() && View() == RetryStep(old(View()), run, reached)
      ensures started <==> reached && !old(runs[run].cancelled)
    {
      var h := runs[run];
      var id := h.phase.id;
      started := reached && !h.cancelled;
      h.phase := if reached && h.cancelled then Ending else Busy;
      if started { log := log + [ToolStarted(run, id)]; }
    }
  }
}
