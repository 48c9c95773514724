/** The story of a run: its events together with what its chats, tool calls and waiters
    answered, and the grammar that both follow
    (sidecar/orca_core/orchestrator/runner.py). */
module CallTrace {
  import opened Wrappers
  import opened Digraphs
  import opened RunTrace
  import opened Workflows
  import Routing

  datatype InvokeOutcome =
    | InvokeSucceeded
    | InvokeDryRun
    | InvokeFailed
    | InvokeDenied
    | InvokePending(hasApproval: bool)
    | InvokeRaised(orchestrator: bool)

  datatype WaiterOutcome = Approved | Rejected | Expired | WaitCancelled | WaiterRaised

  datatype Moment =
    | Emits(event: RunnerEvent)
    | Chats(calls: nat)                               // the answer asks for so many tool calls
    | Calls(retry: bool, outcome: InvokeOutcome)      // an invocation, or its retry after an approval
    | Waits(answer: WaiterOutcome)
    | CancelSeen                                      // a check of the cancellation that stops the run
    | Fault(cause: Cause)                             // anything else that stops it

  datatype Cause =
    | NoRole(node: Node) | NoProfile | ChatRaises | NotPermitted | NoWaiter | SinkFails | RoutingFails

  /** How far the story is.  `left` calls of the current answer have not been made. */
  datatype Chapter =
    | Opening
    | Between
    | Entered(node: Node)
    | Clear(node: Node, left: nat)
    | Pended(node: Node, left: nat)
    | Requested(node: Node, left: nat)
    | Ruled(node: Node, left: nat, answer: WaiterOutcome)
    | Resumed(node: Node, left: nat)
    | Tripped(node: Node)                             // a call of this step failed
    | Expiring(again: bool)                           // the waiter and the runner both announce it
    | Must(event: RunnerEvent)                        // nothing but this terminal event can follow
    | Over
    | Wrong

  function Turn(c: Chapter, m: Moment): Chapter {
    match c
    case Opening =>
      if m == Emits(RunStarted) then Between else if m == Fault(SinkFails) then Must(RunFailed) else Wrong
    case Between =>
      if m.Emits? && m.event.StepStarted? then Entered(m.event.node)
      else if m == Emits(RunSucceeded) then Over
      else if m.CancelSeen? then Must(RunCancelled)
      else if m.Fault? && m.cause.NoRole? then Must(RunFailed)
      else Wrong
    case Entered(n) =>
      if m.Chats? then Clear(n, m.calls)
      else if m == Fault(NoProfile) || m == Fault(ChatRaises) then Must(RunFailed)
      else Wrong
    case Clear(n, left) =>
      if left == 0 then
        if m.Emits? && m.event.StepSucceeded? && m.event.node == n then Between
        else if m == Fault(RoutingFails) then Must(RunFailed)
        else Wrong
      else if m.Calls? && !m.retry then AfterCall(n, left - 1, m.outcome)
      else if m == Fault(NotPermitted) then Must(RunFailed)
      else Wrong
    case Pended(n, left) =>
      if m == Emits(ApprovalRequested) then Requested(n, left)
      else if m == Fault(SinkFails) || m == Fault(NoWaiter) then Must(RunFailed)
      else Wrong
    case Requested(n, left) => if m.Waits? then AfterWait(n, left, m.answer) else Wrong
    case Ruled(n, left, answer) =>
      if m.CancelSeen? then Must(RunCancelled)
      else if answer.Approved? && m == Emits(ApprovalApproved) then Resumed(n, left)
      else if answer.Rejected? && m == Emits(ApprovalRejected) then Must(RunFailed)
      else Wrong
    case Resumed(n, left) =>
      if m == Fault(SinkFails) then Must(RunFailed)
      else if m.Calls? && m.retry then AfterRetry(n, left, m.outcome)
      else Wrong
    case Tripped(n) => if m == Emits(StepFailed(n)) then Must(RunFailed) else Wrong
    case Expiring(again) =>
      if m != Emits(ApprovalExpired) then Wrong else if again then Expiring(false) else Must(RunFailed)
    case Must(e) => if m == Emits(e) then Over else Wrong
    case Over => Wrong
    case Wrong => Wrong
  }

  function AfterCall(n: Node, left: nat, o: InvokeOutcome): Chapter {
    match o
    case InvokeSucceeded => Clear(n, left)
    case InvokeDryRun => Clear(n, left)
    case InvokeFailed => Tripped(n)
    case InvokeDenied => Tripped(n)
    case InvokePending(hasApproval) => if hasApproval then Pended(n, left) else Must(RunFailed)
    case InvokeRaised(_) => Must(RunFailed)
  }

  function AfterWait(n: Node, left: nat, answer: WaiterOutcome): Chapter {
    match answer
    case Approved => Ruled(n, left, answer)
    case Rejected => Ruled(n, left, answer)
    case Expired => Expiring(true)
    case WaitCancelled => Must(RunCancelled)
    case WaiterRaised => Must(RunFailed)
  }

  function AfterRetry(n: Node, left: nat, o: InvokeOutcome): Chapter {
    match o
    case InvokeSucceeded => Clear(n, left)
    case InvokeDryRun => Clear(n, left)
    case InvokeFailed => Tripped(n)
    case _ => Must(RunFailed)
  }

  function Tell(t: seq<Moment>): Chapter {
    if t == [] then Opening else Turn(Tell(t[..|t| - 1]), t[|t| - 1])
  }

  /** The events alone. */
  function EventsOf(t: seq<Moment>): seq<RunnerEvent> {
    if t == [] then []
    else EventsOf(t[..|t| - 1]) + if t[|t| - 1].Emits? then [t[|t| - 1].event] else []
  }

  // ---- What the outside answers ----

  /** Everything a run asks from outside, by the number of the moment at which it asks:
      whether the run was cancelled, how chats, tool calls and waiters answer, which calls
      are permitted, and what the conditions of edges come to. */
  datatype Environment = Environment(
    hasRole: Node -> bool,
    cancelled: nat -> bool,
    profile: nat -> bool,
    chat: nat -> Result<nat, bool>,
    permits: nat -> bool,
    invoke: nat -> InvokeOutcome,
    waiter: nat -> WaiterOutcome,
    evaluate: nat -> string -> Routing.Verdict)

  /** What the condition of an edge comes to; a missing or blank one always holds. */
  function Answer(e: Edge, evaluate: string -> Routing.Verdict): Routing.Verdict {
    if Unconditional(e) then Routing.Decided(true) else evaluate(e.condition.value)
  }

  /** Targets of the out-edges of `n` whose condition holds, in edge order. */
  function Chosen(edges: seq<Edge>, n: Node, evaluate: string -> Routing.Verdict): seq<Node> {
    if edges == [] then []
    else
      var e := edges[|edges| - 1];
      Chosen(edges[..|edges| - 1], n, evaluate) + if e.src == n && Answer(e, evaluate) == Routing.Decided(true) then [e.dst] else []
  }

  /** The chosen targets are those of the edges `at`: exactly the out-edges whose condition
      holds, in their order. */
  lemma {:induction false} ChosenExactly(edges: seq<Edge>, n: Node, evaluate: string -> Routing.Verdict) returns (at: seq<nat>)
    ensures var next := Chosen(edges, n, evaluate);
      && |at| == |next|
      && (forall j, k :: 0 <= j < k < |at| ==> at[j] < at[k])
      && (forall j :: 0 <= j < |at| ==> at[j] < |edges| && edges[at[j]].dst == next[j])
    ensures forall i :: 0 <= i < |edges| ==>
      (i in at <==> edges[i].src == n && (Unconditional(edges[i]) || evaluate(edges[i].condition.value) == Routing.Decided(true)))
  {
    at := [];
    if edges != [] {
      var k := |edges| - 1;
      at := ChosenExactly(edges[..k], n, evaluate);
      if edges[k].src == n && Answer(edges[k], evaluate) == Routing.Decided(true) {
        at := at + [k];
      }
    }
  }

  ghost predicate AllDecided(edges: seq<Edge>, n: Node, evaluate: string -> Routing.Verdict) {
    forall i :: 0 <= i < |edges| && edges[i].src == n ==> Answer(edges[i], evaluate).Decided?
  }

  /** Moment `i` is what the outside answered at this point of the story. */
  ghost predicate Agrees(c: Chapter, m: Moment, i: nat, edges: seq<Edge>, env: Environment) {
    match c
    case Between =>
      && (m.Emits? && m.event.StepStarted? ==> !env.cancelled(i) && env.hasRole(m.event.node))
      && (m.CancelSeen? ==> env.cancelled(i))
      && (m.Fault? && m.cause.NoRole? ==> !env.cancelled(i) && !env.hasRole(m.cause.node))
    case Entered(_) =>
      && (m.Chats? ==> env.profile(i) && env.chat(i) == Ok(m.calls))
      && (m == Fault(NoProfile) ==> !env.profile(i))
      && (m == Fault(ChatRaises) ==> env.profile(i) && env.chat(i).Err?)
    case Clear(n, _) =>
      && (m.Calls? ==> env.permits(i) && m.outcome == env.invoke(i))
      && (m == Fault(NotPermitted) ==> !env.permits(i))
      && (m.Emits? && m.event.StepSucceeded? ==> AllDecided(edges, n, env.evaluate(i)) && m.event.next == Chosen(edges, n, env.evaluate(i)))
      && (m == Fault(RoutingFails) ==> !AllDecided(edges, n, env.evaluate(i)))
    case Requested(_, _) => m.Waits? ==> m.answer == env.waiter(i)
    case Ruled(_, _, _) => m.CancelSeen? <==> env.cancelled(i)
    case Resumed(_, _) => m.Calls? ==> m.outcome == env.invoke(i)
    case _ => true
  }

  /** The story is what happens in this environment. */
  ghost predicate Consistent(t: seq<Moment>, edges: seq<Edge>, env: Environment) {
    forall i :: 0 <= i < |t| ==> Agrees(Tell(t[..i]), t[i], i, edges, env)
  }

  lemma {:induction false} ConsistentNext(t: seq<Moment>, m: Moment, edges: seq<Edge>, env: Environment)
    requires Consistent(t, edges, env) && Agrees(Tell(t), m, |t|, edges, env)
    ensures Consistent(t + [m], edges, env)
  {
    hide Tell, Agrees;
    var u := t + [m];
    forall i | 0 <= i < |u| ensures Agrees(Tell(u[..i]), u[i], i, edges, env) {
      if i < |t| { assert u[..i] == t[..i] && u[i] == t[i]; } else { assert u[..i] == t; }
    }
  }

  /** The statuses that a sink without failures stores: running at the start and after an
      approve, awaiting approval after an ask, and the verdict at the end. */
  function StatusesOf(t: seq<Moment>): seq<Status> {
    if t == [] then [Running] else StatusesOf(t[..|t| - 1]) + StatusAt(t[|t| - 1])
  }

  function StatusAt(m: Moment): seq<Status> {
    match m
    case Calls(false, InvokePending(true)) => [AwaitingApproval]
    case Emits(e) => if e.ApprovalApproved? then [Running] else if e.IsTerminal() then [Verdict(e)] else []
    case _ => []
  }

  /** How a story may stand when the run stops with `f`. */
  ghost predicate Stops(t: seq<Moment>, f: Failure) {
    && !f.NodeFailure?
    && Turn(Tell(t), Emits(if f.CancelledError? then RunCancelled else RunFailed)) == Over
  }

  // ---- What an accepted story tells ----

  predicate Good(o: InvokeOutcome) {
    o.InvokeSucceeded? || o.InvokeDryRun?
  }

  /** Nothing went wrong at this moment: a call returned a result, on its own or on the
      retry after its approval; a waiter said yes and no cancel was seen after it. */
  predicate Fair(t: seq<Moment>, k: nat)
    requires k < |t|
  {
    match t[k]
    case Calls(retry, o) =>
      || Good(o)
      || (&& !retry && o == InvokePending(true) && k + 4 < |t|
          && t[k + 2] == Waits(Approved) && t[k + 4].Calls? && t[k + 4].retry && Good(t[k + 4].outcome))
    case Waits(answer) => answer.Approved?
    case CancelSeen => false
    case Fault(_) => false
    case _ => true
  }

  ghost predicate AllFair(t: seq<Moment>) {
    forall k :: 0 <= k < |t| ==> Fair(t, k)
  }

  lemma FairStays(t: seq<Moment>, n: nat)
    requires n <= |t| && AllFair(t[..n])
    ensures forall k :: 0 <= k < n ==> Fair(t, k)
  {
    forall k | 0 <= k < n ensures Fair(t, k) {
      assert Fair(t[..n], k);
    }
  }

  lemma TellAt(t: seq<Moment>, i: nat)
    requires i < |t|
    ensures Tell(t[..0]) == Opening && Tell(t[..i + 1]) == Turn(Tell(t[..i]), t[i])
  {
    assert t[..i + 1][..i] == t[..i];
  }

  /** Which chapter and moment lead into the chapters of an approval. */
  lemma ComesFrom(c: Chapter, m: Moment)
    ensures var d := Turn(c, m);
      && (d.Pended? ==> c.Clear? && m == Calls(false, InvokePending(true)))
      && (d.Requested? ==> c.Pended? && m == Emits(ApprovalRequested))
      && (d.Ruled? ==> c.Requested? && m == Waits(d.answer))
      && (d.Resumed? ==> c.Ruled? && c.answer.Approved? && m == Emits(ApprovalApproved))
  {
  }

  lemma {:induction false} GoesFair(t: seq<Moment>)
    requires Tell(t).Opening? || Tell(t).Between? || Tell(t).Entered? || Tell(t).Clear?
    ensures AllFair(t)
    decreases |t|
  {
    hide Tell, Turn, Fair;
    if t != [] {
      var n := |t| - 1;
      assert t[..n + 1] == t;
      TellAt(t, n);
      FairTurn(t);
      if Tell(t[..n]).Resumed? {
        ApprovedBefore(t[..n]);
        assert t[..n][..n - 4] == t[..n - 4];
        GoesFair(t[..n - 4]);
        FairStays(t, n - 4);
        FairRetry(t);
        assert t[n - 4] == t[..n][n - 4] && t[n - 3] == t[..n][n - 3] && t[n - 2] == t[..n][n - 2] && t[n - 1] == t[..n][n - 1];
      } else {
        GoesFair(t[..n]);
        FairStays(t, n);
      }
    }
  }

  /** The last moment before a chapter in which nothing is open. */
  lemma FairTurn(t: seq<Moment>)
    requires t != []
    ensures var n := |t| - 1; var c, d := Tell(t[..n]), Turn(Tell(t[..n]), t[n]);
      d.Opening? || d.Between? || d.Entered? || d.Clear? ==>
        && Fair(t, n)
        && (c.Opening? || c.Between? || c.Entered? || c.Clear? || c.Resumed?)
        && (c.Resumed? ==> t[n].Calls? && t[n].retry && Good(t[n].outcome))
  {
    hide Tell;
  }

  lemma FairRetry(t: seq<Moment>)
    requires |t| >= 5
    ensures var n := |t| - 1;
      t[n - 4] == Calls(false, InvokePending(true)) && t[n - 3] == Emits(ApprovalRequested) && t[n - 2] == Waits(Approved)
      && t[n - 1] == Emits(ApprovalApproved) && t[n].Calls? && t[n].retry && Good(t[n].outcome) ==>
      Fair(t, n - 4) && Fair(t, n - 3) && Fair(t, n - 2) && Fair(t, n - 1)
  {
  }

  /** A story stands before a retry only after an ask, its announcement and an approve. */
  lemma {:induction false} ApprovedBefore(t: seq<Moment>)
    requires Tell(t).Resumed?
    ensures |t| >= 4 && Tell(t[..|t| - 4]).Clear?
    ensures t[|t| - 4] == Calls(false, InvokePending(true))
      && t[|t| - 3] == Emits(ApprovalRequested)
    ensures t[|t| - 2] == Waits(Approved) && t[|t| - 1] == Emits(ApprovalApproved)
  {
    hide Tell, Turn;
    var n := |t|;
    assert t[..n] == t;
    if n == 0 { TellNothing(t); }
    GoBack(t, n);
    GoBack(t, n - 1);
    GoBack(t, n - 2);
    GoBack(t, n - 3);
  }

  lemma {:induction false} TellNothing(t: seq<Moment>)
    requires t == []
    ensures Tell(t) == Opening
  {
  }

  lemma GoBack(t: seq<Moment>, i: nat)
    requires i <= |t| && !Tell(t[..i]).Opening?
    ensures i > 0
    ensures var c, m, d := Tell(t[..i - 1]), t[i - 1], Tell(t[..i]);
      && (d.Pended? ==> c.Clear? && m == Calls(false, InvokePending(true)))
      && (d.Requested? ==> c.Pended? && m == Emits(ApprovalRequested))
      && (d.Ruled? ==> c.Requested? && m == Waits(d.answer))
      && (d.Resumed? ==> c.Ruled? && c.answer.Approved? && m == Emits(ApprovalApproved))
  {
    hide Tell, Turn;
    TellNothing(t[..0]);
    if i > 0 { TellAt(t, i - 1); }
    ComesFrom(Tell(t[..i - 1]), t[i - 1]);
  }

  lemma {:induction false} PrefixTold(t: seq<Moment>, i: nat)
    requires !Tell(t).Wrong? && i <= |t|
    ensures !Tell(t[..i]).Wrong?
    ensures i < |t| ==> !Tell(t[..i]).Over? && Tell(t[..i + 1]) == Turn(Tell(t[..i]), t[i])
    decreases |t|
  {
    if i < |t| {
      var n := |t| - 1;
      PrefixTold(t[..n], i);
      if i < n {
        assert t[..n][..i] == t[..i] && t[..n][..i + 1] == t[..i + 1];
      } else {
        assert t[..i + 1] == t;
      }
    } else {
      assert t[..i] == t;
    }
  }

  function Made(t: seq<Moment>): nat {
    if t == [] then 0 else Made(t[..|t| - 1]) + if t[|t| - 1].Calls? && !t[|t| - 1].retry then 1 else 0
  }

  function AskedFor(t: seq<Moment>): nat {
    if t == [] then 0 else AskedFor(t[..|t| - 1]) + if t[|t| - 1].Chats? then t[|t| - 1].calls else 0
  }

  function LeftOver(c: Chapter): nat {
    match c
    case Clear(_, left) => left
    case Pended(_, left) => left
    case Requested(_, left) => left
    case Ruled(_, left, _) => left
    case Resumed(_, left) => left
    case _ => 0
  }

  lemma {:induction false} CallsAreMade(t: seq<Moment>)
    requires var c := Tell(t); !c.Tripped? && !c.Expiring? && !c.Must? && !c.Over? && !c.Wrong?
    ensures Made(t) + LeftOver(Tell(t)) == AskedFor(t)
  {
    if t != [] { CallsAreMade(t[..|t| - 1]); }
  }

  /** A step or a run is reported as succeeded only when every tool call that the chats
      asked for so far was made and returned a result, on its own or after its approval. */
  lemma {:induction false} SuccessNeedsAllCalls(t: seq<Moment>, i: nat)
    requires Tell(t).Over? && i < |t| && t[i].Emits?
      && (t[i].event.StepSucceeded? || t[i].event.RunSucceeded?)
    ensures forall k :: 0 <= k < i ==> Fair(t, k)
    ensures Made(t[..i]) == AskedFor(t[..i])
  {
    hide Tell, Turn, Fair, Made, AskedFor;
    PrefixTold(t, i);
    PrefixTold(t, i + 1);
    MustEvents(t[..i]);
    SuccessFrom(Tell(t[..i]), t[i]);
    GoesFair(t[..i]);
    FairStays(t, i);
    CallsAreMade(t[..i]);
  }

  lemma {:induction false} MustEvents(t: seq<Moment>)
    ensures Tell(t).Must? ==> Tell(t).event.RunFailed? || Tell(t).event.RunCancelled?
  {
  }

  lemma SuccessFrom(c: Chapter, m: Moment)
    requires !Turn(c, m).Wrong? && m.Emits? && (m.event.StepSucceeded? || m.event.RunSucceeded?)
    requires c.Must? ==> c.event.RunFailed? || c.event.RunCancelled?
    ensures c.Between? || (c.Clear? && c.left == 0)
  {
  }

  lemma {:induction false} SuccessIsFair(t: seq<Moment>)
    requires Tell(t).Over?
    ensures EventsOf(t) != []
    ensures EventsOf(t)[|EventsOf(t)| - 1].RunSucceeded? ==>
      AllFair(t) && Made(t) == AskedFor(t)
  {
    var n := |t| - 1;
    assert t[n].Emits?;
    if t[n].event.RunSucceeded? {
      SuccessNeedsAllCalls(t, n);
    }
  }

  /** What else can end the story, with its last moments from `i` on. */
  predicate EndsWith(t: seq<Moment>, i: nat, last: seq<RunnerEvent>) {
    && |t| == i + 1 + |last|
    && forall k :: 0 <= k < |last| ==> t[i + 1 + k] == Emits(last[k])
  }

  /** Every call and every waiter that brings no result ends the run, and how. */
  lemma {:induction false} FailureEndsRun(t: seq<Moment>, i: nat)
    requires Tell(t).Over? && i < |t|
    ensures t[i].Calls? && (t[i].outcome.InvokeFailed? || (t[i].outcome.InvokeDenied? && !t[i].retry)) ==>
      exists n: Node :: EndsWith(t, i, [StepFailed(n), RunFailed])
    ensures t[i].Calls? && (t[i].outcome.InvokeRaised? || t[i].outcome == InvokePending(false)) ==>
      EndsWith(t, i, [RunFailed])
    ensures t[i].Calls? && t[i].retry && (t[i].outcome.InvokeDenied? || t[i].outcome.InvokePending?) ==>
      EndsWith(t, i, [RunFailed])
    ensures t[i] == Waits(Rejected) ==>
      EndsWith(t, i, [ApprovalRejected, RunFailed]) || (|t| == i + 3 && t[i + 1].CancelSeen? && t[i + 2] == Emits(RunCancelled))
    ensures t[i] == Waits(Expired) ==>
      EndsWith(t, i, [ApprovalExpired, ApprovalExpired, RunFailed])
    ensures t[i] == Waits(WaitCancelled) || t[i].CancelSeen? ==> EndsWith(t, i, [RunCancelled])
    ensures t[i] == Waits(WaiterRaised) || t[i].Fault? ==> EndsWith(t, i, [RunFailed])
  {
    hide Turn;
    Unfold(t, i);
    var c := Tell(t[..i + 1]);
    match c
    case Tripped(n) => TrippedEnds(t, i + 1, n);
    case Must(e) => MustEnds(t, i + 1, e);
    case Expiring(again) => if again { ExpiringEnds(t, i + 1); }
    case Ruled(_, _, Rejected) => RejectedEnds(t, i + 1);
    case _ =>
  }

  lemma {:induction false} Unfold(t: seq<Moment>, i: nat)
    requires Tell(t).Over? && i < |t|
    ensures var c := Tell(t[..i + 1]);
      && !c.Wrong?
      && (t[i].Calls? && (t[i].outcome.InvokeFailed? || (t[i].outcome.InvokeDenied? && !t[i].retry)) ==> c.Tripped?)
      && (t[i].Calls? && (t[i].outcome.InvokeRaised? || t[i].outcome == InvokePending(false)) ==> c == Must(RunFailed))
      && (t[i].Calls? && t[i].retry && (t[i].outcome.InvokeDenied? || t[i].outcome.InvokePending?) ==> c == Must(RunFailed))
      && (t[i] == Waits(Rejected) ==> c.Ruled? && c.answer.Rejected?)
      && (t[i] == Waits(Expired) ==> c == Expiring(true))
      && (t[i] == Waits(WaitCancelled) || t[i].CancelSeen? ==> c == Must(RunCancelled))
      && (t[i] == Waits(WaiterRaised) || t[i].Fault? ==> c == Must(RunFailed))
  {
    hide Tell, Turn;
    PrefixTold(t, i);
    PrefixTold(t, i + 1);
    AfterMoment(Tell(t[..i]), t[i]);
  }

  lemma AfterMoment(b: Chapter, m: Moment)
    requires !Turn(b, m).Wrong?
    ensures var c := Turn(b, m);
      && (m.Calls? && (m.outcome.InvokeFailed? || (m.outcome.InvokeDenied? && !m.retry)) ==> c.Tripped?)
      && (m.Calls? && (m.outcome.InvokeRaised? || m.outcome == InvokePending(false)) ==> c == Must(RunFailed))
      && (m.Calls? && m.retry && (m.outcome.InvokeDenied? || m.outcome.InvokePending?) ==> c == Must(RunFailed))
      && (m == Waits(Rejected) ==> c.Ruled? && c.answer.Rejected?)
      && (m == Waits(Expired) ==> c == Expiring(true))
      && (m == Waits(WaitCancelled) || m.CancelSeen? ==> c == Must(RunCancelled))
      && (m == Waits(WaiterRaised) || m.Fault? ==> c == Must(RunFailed))
  {
  }

  lemma {:induction false} MustEnds(t: seq<Moment>, i: nat, e: RunnerEvent)
    requires Tell(t).Over? && i <= |t| && Tell(t[..i]) == Must(e)
    ensures |t| == i + 1 && t[i] == Emits(e)
  {
    hide Tell;
    assert t[..|t|] == t;
    PrefixTold(t, i);
    PrefixTold(t, i + 1);
  }

  lemma {:induction false} TrippedEnds(t: seq<Moment>, i: nat, n: Node)
    requires Tell(t).Over? && i <= |t| && Tell(t[..i]) == Tripped(n)
    ensures |t| == i + 2 && t[i] == Emits(StepFailed(n)) && t[i + 1] == Emits(RunFailed)
    ensures i > 0 ==> EndsWith(t, i - 1, [StepFailed(n), RunFailed])
  {
    hide Tell;
    assert t[..|t|] == t;
    PrefixTold(t, i);
    PrefixTold(t, i + 1);
    MustEnds(t, i + 1, RunFailed);
  }

  lemma {:induction false} ExpiringEnds(t: seq<Moment>, i: nat)
    requires Tell(t).Over? && 0 < i <= |t| && Tell(t[..i]) == Expiring(true)
    ensures EndsWith(t, i - 1, [ApprovalExpired, ApprovalExpired, RunFailed])
  {
    hide Tell;
    assert t[..|t|] == t;
    PrefixTold(t, i);
    PrefixTold(t, i + 1);
    PrefixTold(t, i + 2);
    MustEnds(t, i + 2, RunFailed);
  }

  lemma {:induction false} RejectedEnds(t: seq<Moment>, i: nat)
    requires Tell(t).Over? && 0 < i <= |t| && Tell(t[..i]).Ruled?
      && Tell(t[..i]).answer.Rejected?
    ensures EndsWith(t, i - 1, [ApprovalRejected, RunFailed]) || (|t| == i + 2 && t[i].CancelSeen? && t[i + 1] == Emits(RunCancelled))
  {
    hide Tell;
    assert t[..|t|] == t;
    PrefixTold(t, i);
    PrefixTold(t, i + 1);
    MustEnds(t, i + 1, if t[i].CancelSeen? then RunCancelled else RunFailed);
  }

  /** Stored statuses start with running; awaiting approval comes only after running and
      goes back to it or ends; a terminal status is the last, and success comes only from
      running. */
  ghost predicate InTurn(s: seq<Status>) {
    && s != [] && s[0] == Running
    && forall i {:trigger s[i]} :: 0 < i < |s| ==>
      match s[i]
      case AwaitingApproval => s[i - 1] == Running
      case Running => s[i - 1] == AwaitingApproval
      case Succeeded => i == |s| - 1 && s[i - 1] == Running
      case _ => i == |s| - 1 && (s[i - 1] == Running || s[i - 1] == AwaitingApproval)
  }

  /** The last stored status in each chapter. */
  ghost predicate Shows(c: Chapter, s: Status) {
    match c
    case Pended(_, _) => s == AwaitingApproval
    case Requested(_, _) => s == AwaitingApproval
    case Ruled(_, _, _) => s == AwaitingApproval
    case Expiring(_) => s == AwaitingApproval
    case Must(_) => s == Running || s == AwaitingApproval
    case Over => s.IsTerminal()
    case _ => s == Running
  }

  lemma {:induction false} StatusesInTurn(t: seq<Moment>)
    requires !Tell(t).Wrong?
    ensures var s := StatusesOf(t); InTurn(s) && Shows(Tell(t), s[|s| - 1])
  {
    if t != [] {
      var init, m := t[..|t| - 1], t[|t| - 1];
      StatusesInTurn(init);
      MustEvents(init);
      hide Tell, StatusesOf;
      var s, more := StatusesOf(init), StatusAt(m);
      StatusTurn(Tell(init), m, s[|s| - 1]);
      if more == [] {
        assert s + more == s;
      } else {
        assert more == [more[0]];
        OneMoreInTurn(s, more[0]);
      }
    }
  }

  lemma OneMoreInTurn(s: seq<Status>, x: Status)
    requires InTurn(s) && !s[|s| - 1].IsTerminal()
    requires match x
      case AwaitingApproval => s[|s| - 1] == Running
      case Running => s[|s| - 1] == AwaitingApproval
      case Succeeded => s[|s| - 1] == Running
      case _ => true
    ensures InTurn(s + [x])
  {
    var all := s + [x];
    forall i {:trigger all[i]} | 0 < i < |all|
      ensures match all[i]
        case AwaitingApproval => all[i - 1] == Running
        case Running => all[i - 1] == AwaitingApproval
        case Succeeded => i == |all| - 1 && all[i - 1] == Running
        case _ => i == |all| - 1 && (all[i - 1] == Running || all[i - 1] == AwaitingApproval)
    {
      if i < |s| { assert all[i] == s[i] && all[i - 1] == s[i - 1]; }
    }
  }

  lemma StatusTurn(c: Chapter, m: Moment, last: Status)
    requires Shows(c, last) && !Turn(c, m).Wrong?
    requires c.Must? ==> c.event.RunFailed? || c.event.RunCancelled?
    ensures var more := StatusAt(m);
      && |more| <= 1
      && (more == [] ==> Shows(Turn(c, m), last))
      && (more != [] ==> !last.IsTerminal() && Shows(Turn(c, m), more[0]))
      && (more == [AwaitingApproval] || more == [Succeeded] ==> last == Running)
      && (more == [Running] ==> last == AwaitingApproval)
  {
  }

  /** So far nothing was seen that could stop the run. */
  predicate Calm(m: Moment) {
    match m
    case Calls(retry, o) => Good(o) || (!retry && o == InvokePending(true))
    case Waits(answer) => answer.Approved?
    case CancelSeen => false
    case Fault(_) => false
    case _ => true
  }

  lemma {:induction false} CalmGoesOn(t: seq<Moment>)
    requires forall k :: 0 <= k < |t| ==> Calm(t[k])
    ensures !Tell(t).Must? && !Tell(t).Tripped? && !Tell(t).Expiring?
    ensures Tell(t).Ruled? ==> Tell(t).answer.Approved?
    ensures Tell(t).Over? ==> t[|t| - 1] == Emits(RunSucceeded)
  {
    if t != [] {
      CalmGoesOn(t[..|t| - 1]);
      assert Calm(t[|t| - 1]);
    }
  }

  /** A run that is reported as failed or cancelled has a reason: a call, a waiter or
      something else that went wrong, or a cancel; a cancelled one has seen a cancel. */
  lemma {:induction false} EndHasReason(t: seq<Moment>)
    requires Tell(t).Over?
    ensures t[|t| - 1] != Emits(RunSucceeded) ==> exists k :: 0 <= k < |t| && !Calm(t[k])
    ensures t[|t| - 1] == Emits(RunCancelled) ==>
      |t| >= 2 && (t[|t| - 2].CancelSeen? || t[|t| - 2] == Waits(WaitCancelled))
  {
    if forall k :: 0 <= k < |t| ==> Calm(t[k]) { CalmGoesOn(t); }
    if t[|t| - 1] == Emits(RunCancelled) {
      var init := t[..|t| - 1];
      assert Tell(init) == Must(RunCancelled);
    }
  }

  lemma RetryFrom(c: Chapter, m: Moment)
    requires !Turn(c, m).Wrong? && m.Calls? && m.retry
    ensures c.Resumed?
  {
  }

  /** A call is retried only right after its ask, and after the approve for it. */
  lemma {:induction false} RetryNeedsApproval(t: seq<Moment>, i: nat)
    requires Tell(t).Over? && i < |t| && t[i].Calls? && t[i].retry
    ensures i >= 4 && t[i - 4] == Calls(false, InvokePending(true))
      && t[i - 2] == Waits(Approved)
  {
    hide Tell, Turn;
    PrefixTold(t, i);
    PrefixTold(t, i + 1);
    RetryFrom(Tell(t[..i]), t[i]);
    ApprovedBefore(t[..i]);
    assert t[i - 4] == t[..i][i - 4] && t[i - 2] == t[..i][i - 2];
  }
}
