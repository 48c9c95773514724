/** The workflow runner (sidecar/orca_core/orchestrator/runner.py).  Everything
    outside it (roles, chat, tools, approvals, the status sink, cancellation) is
    an arbitrary choice, so the contracts hold for every run. */
module GraphRunners {
  import opened Wrappers
  import opened Digraphs
  import opened Workflows
  import opened RunTrace
  import opened CallTrace
  import opened WorklistSearch
  import Routing

  datatype Dispatch = DispatchOk | DispatchFailed | DispatchRaised(failure: Failure)

  // ---- Routing ----

  lemma {:induction false} UnconditionalChosen(edges: seq<Edge>, n: Node, evaluate: string -> Routing.Verdict)
    ensures AlwaysTaken(edges, {n}) <= ArcsFrom(n, Chosen(edges, n, evaluate))
  {
    if edges != [] {
      var k := |edges| - 1;
      UnconditionalChosen(edges[..k], n, evaluate);
      forall e | e in edges && e.src == n && Unconditional(e) ensures (n, e.dst) in ArcsFrom(n, Chosen(edges, n, evaluate)) {
        if e in edges[..k] {
          assert (e.src, e.dst) in AlwaysTaken(edges[..k], {n});
        } else {
          assert e == edges[k];
        }
      }
    }
  }

  lemma {:induction false} ChosenFollowEdges(edges: seq<Edge>, n: Node, evaluate: string -> Routing.Verdict)
    ensures ArcsFrom(n, Chosen(edges, n, evaluate)) <= Arcs(edges)
  {
    if edges != [] {
      var k := |edges| - 1;
      ChosenFollowEdges(edges[..k], n, evaluate);
      assert Arcs(edges) == Arcs(edges[..k]) + {(edges[k].src, edges[k].dst)};
    }
  }

  lemma RunBegins()
    ensures StatusAt(Emits(RunStarted)) == []
      && Turn(Opening, Fault(SinkFails)) == Must(RunFailed)
    ensures Verdict(RunSucceeded) == Succeeded && Verdict(RunFailed) == Failed
      && Verdict(RunCancelled) == Cancelled
    ensures Tell([]) == Opening && EventsOf([]) == []
      && Turn(Opening, Emits(RunStarted)) == Between
    ensures Scan([]) == Fresh && Next(Fresh, RunStarted) == Idle && Started([]) == []
      && Taken([]) == {}
    ensures NoTerminal([]) && NoTerminal([] + [Running])
    ensures RunFailed.IsTerminal() && RunSucceeded.IsTerminal() && RunCancelled.IsTerminal()
  {
  }

  lemma {:induction false} MustStops(t: seq<Moment>)
    requires Tell(t) == Must(RunFailed)
    ensures Stops(t, OrchestratorError)
  {
  }

  lemma {:induction false} CancelStops(t: seq<Moment>, events: seq<RunnerEvent>)
    requires Tell(t) == Must(RunCancelled) && Scan(events) == Idle
    ensures Stops(t, CancelledError) && Stopped(events, CancelledError)
  {
  }

  /** However a run stops, its story can take the terminal event that `run` emits. */
  lemma {:induction false} EndsClosed(t: seq<Moment>, f: Option<Failure>)
    requires if f.None? then Tell(t).Between? else Stops(t, f.value)
    ensures var e := if f.None? then RunSucceeded else if f.value.CancelledError? then RunCancelled else RunFailed;
      Turn(Tell(t), Emits(e)) == Over
  {
  }

  lemma {:induction false} EndFits(t: seq<Moment>, f: Option<Failure>)
    requires if f.None? then Tell(t).Between? else Stops(t, f.value)
    ensures Tell(t).Opening? || Tell(t).Must? || (Tell(t).Between? && f.None?)
  {
  }

  class GraphRunner {
    const w: Workflow
    const env: Environment
    const hasWaiter: bool
    const hasSink: bool
    /** Events emitted on the run's bus. */
    var events: seq<RunnerEvent>
    /** Statuses the sink has stored. */
    var stored: seq<Status>
    /** Whether the sink has ever failed. */
    ghost var sinkFailed: bool
    var closed: bool
    /** History: the events with the answers of chats, calls and waiters between them. */
    var story: seq<Moment>

    constructor (w: Workflow, env: Environment, hasWaiter: bool, hasSink: bool)
      ensures this.w == w && this.env == env && this.hasWaiter == hasWaiter
        && this.hasSink == hasSink
      ensures events == [] && stored == [] && !closed && story == [] && !sinkFailed
    {
      this.w, this.env, this.hasWaiter, this.hasSink := w, env, hasWaiter, hasSink;
      events, stored, closed, story, sinkFailed := [], [], false, [], false;
    }

    /** The story is what happens in this environment, without a failure of the sink or a
        missing waiter that is none; and a sink without failures has stored everything but
        what is due. */
    ghost predicate Lag(due: seq<Status>)
      reads this
    {
      && Consistent(story, w.edges, env)
      && (Fault(SinkFails) in story <==> sinkFailed)
      && (Fault(NoWaiter) in story ==> !hasWaiter)
      && (hasSink && !sinkFailed ==> stored + due == StatusesOf(story))
    }

    lemma NothingStored()
      requires stored == [] && story == [] && !sinkFailed
      ensures Lag([Running])
    {
    }

    ghost predicate Fits(m: Moment)
      reads this
    {
      && Agrees(Tell(story), m, |story|, w.edges, env)
      && m != Fault(SinkFails) && (m == Fault(NoWaiter) ==> !hasWaiter)
    }

    /** What the runner emits at the start and at the end does not depend on the outside. */
    lemma OuterFits(e: RunnerEvent)
      requires Tell(story).Opening? || Tell(story).Must? || (Tell(story).Between? && e.RunSucceeded?)
      ensures Fits(Emits(e))
    {
    }

    method Note(m: Moment)
      modifies this`story
      ensures old(Lag([])) && old(Fits(m)) ==> Lag(StatusAt(m))
      ensures Tell(story) == Turn(old(Tell(story)), m) && story == old(story) + [m]
      ensures EventsOf(story) == if m.Emits? then old(EventsOf(story)) + [m.event] else old(EventsOf(story))
    {
      hide Agrees, Consistent;
      if Lag([]) && Fits(m) { ConsistentNext(story, m, w.edges, env); }
      story := story + [m];
      assert stored + [] == stored && story[..|story| - 1] == old(story);
    }

    method Emit(e: RunnerEvent)
      modifies this`events, this`story
      ensures events == old(events) + [e] && story == old(story) + [Emits(e)]
      ensures old(Lag([])) && old(Fits(Emits(e))) ==> Lag(StatusAt(Emits(e)))
      ensures Tell(story) == Turn(old(Tell(story)), Emits(e))
      ensures old(EventsOf(story) == events) ==> EventsOf(story) == events
      ensures Started(events) == if e.StepStarted? then old(Started(events)) + [e.node] else old(Started(events))
      ensures Taken(events) == if e.StepSucceeded? then old(Taken(events)) + ArcsFrom(e.node, e.next) else old(Taken(events))
      ensures Scan(events) == Next(old(Scan(events)), e)
    {
      events := events + [e];
      Note(Emits(e));
    }

    /** An approval event inside a step. */
    method EmitApproval(e: RunnerEvent)
      requires e.IsApproval() && Scan(events).InStep?
      modifies this`events, this`story
      ensures events == old(events) + [e] && SameStep(old(events), events)
      ensures old(Lag([])) && old(Fits(Emits(e))) ==> Lag(StatusAt(Emits(e)))
      ensures Tell(story) == Turn(old(Tell(story)), Emits(e))
      ensures old(EventsOf(story) == events) ==> EventsOf(story) == events
    {
      Emit(e);
    }

    /** The sink may store the status, fail, or store it and still fail.  Only a
        terminal status swallows the failure. */
    method SetStatus(s: Status, terminal: bool) returns (ok: bool)
      requires !Tell(story).Ruled?
      modifies this`stored, this`sinkFailed, this`story
      ensures stored == old(stored) || (hasSink && stored == old(stored) + [s])
      ensures terminal || !hasSink || !sinkFailed ==> ok
      ensures ok ==> story == old(story)
      ensures !ok ==>
        Tell(story) == Turn(old(Tell(story)), Fault(SinkFails)) && EventsOf(story) == old(EventsOf(story))
      ensures hasSink && !sinkFailed ==> stored == old(stored) + [s]
      ensures !terminal && old(Lag([s])) ==> Lag([])
      ensures terminal && old(Lag([s])) && hasSink && !sinkFailed ==>
        stored == StatusesOf(story)
    {
      hide Tell, Consistent, EventsOf;
      if !hasSink { return true; }
      var wrote: bool := *;
      var raised: bool := *;
      if wrote || !raised { stored := stored + [s]; }
      ok := !raised || terminal;
      sinkFailed := sinkFailed || raised;
      assert stored + [] == stored;
      if !ok {
        SinkFaultAgrees(story);
        NoteSinkFault();
      }
    }

    lemma {:induction false} SinkFaultAgrees(t: seq<Moment>)
      requires !Tell(t).Ruled?
      ensures Agrees(Tell(t), Fault(SinkFails), |t|, w.edges, env)
    {
    }

    method NoteSinkFault()
      modifies this`story
      ensures story == old(story) + [Fault(SinkFails)]
      ensures Tell(story) == Turn(old(Tell(story)), Fault(SinkFails))
        && EventsOf(story) == old(EventsOf(story))
      ensures old(Consistent(story, w.edges, env) && Agrees(Tell(story), Fault(SinkFails), |story|, w.edges, env)) ==>
        Consistent(story, w.edges, env)
    {
      hide Agrees, Consistent;
      if Consistent(story, w.edges, env) && Agrees(Tell(story), Fault(SinkFails), |story|, w.edges, env) {
        ConsistentNext(story, Fault(SinkFails), w.edges, env);
      }
      story := story + [Fault(SinkFails)];
      assert story[..|story| - 1] == old(story);
    }

    /** Where the story stands when a call of a step has been dispatched. */
    ghost predicate Dispatched(r: Dispatch, n: Node, left: nat)
      reads this
    {
      match r
      case DispatchOk => Tell(story) == Clear(n, left)
      case DispatchFailed => Tell(story) == Tripped(n)
      case DispatchRaised(f) => Stops(story, f)
    }

    method AwaitApprovalAndRetry(ghost n: Node, ghost left: nat) returns (r: Dispatch)
      requires Scan(events).InStep? && NoTerminal(stored)
      requires Tell(story) == Pended(n, left) && EventsOf(story) == events
        && Lag([AwaitingApproval])
      modifies this`events, this`stored, this`sinkFailed, this`story
      ensures SameStep(old(events), events) && NoTerminal(stored)
      ensures Dispatched(r, n, left) && EventsOf(story) == events && Lag([])
    {
      hide Tell, EventsOf, Scan, Started, Taken, Consistent, StatusesOf, Lag, AllDecided, Chosen;
      var ok := SetStatus(AwaitingApproval, false);
      if !ok { return DispatchRaised(OrchestratorError); }
      if !hasWaiter {
        Note(Fault(NoWaiter));
        return DispatchRaised(OrchestratorError);
      }
      EmitApproval(ApprovalRequested);
      var outcome := env.waiter(|story|);
      Note(Waits(outcome));
      r := AfterAnswer(outcome, n, left);
    }

    method AfterAnswer(outcome: WaiterOutcome, ghost n: Node, ghost left: nat) returns (r: Dispatch)
      requires Scan(events).InStep? && NoTerminal(stored)
      requires Tell(story) == AfterWait(n, left, outcome) && EventsOf(story) == events
        && Lag([])
      modifies this`events, this`stored, this`sinkFailed, this`story
      ensures SameStep(old(events), events) && NoTerminal(stored)
      ensures Dispatched(r, n, left) && EventsOf(story) == events && Lag([])
    {
      hide Tell, EventsOf, Scan, Started, Taken, Consistent, StatusesOf, Lag, AllDecided, Chosen;
      match outcome {
        case Expired =>
          EmitApproval(ApprovalExpired);
          EmitApproval(ApprovalExpired);
          return DispatchRaised(OrchestratorError);
        case WaitCancelled => return DispatchRaised(CancelledError);
        case WaiterRaised => return DispatchRaised(UnexpectedError);
        case Approved =>
        case Rejected =>
      }
      if env.cancelled(|story|) {
        Note(CancelSeen);
        return DispatchRaised(CancelledError);
      }
      if outcome.Rejected? {
        EmitApproval(ApprovalRejected);
        return DispatchRaised(OrchestratorError);
      }
      r := GoOn(n, left);
    }

    /** An approve that no cancel overtook. */
    method GoOn(ghost n: Node, ghost left: nat) returns (r: Dispatch)
      requires Scan(events).InStep? && NoTerminal(stored) && !env.cancelled(|story|)
      requires Tell(story) == Ruled(n, left, Approved) && EventsOf(story) == events && Lag([])
      modifies this`events, this`stored, this`sinkFailed, this`story
      ensures SameStep(old(events), events) && NoTerminal(stored)
      ensures Dispatched(r, n, left) && EventsOf(story) == events && Lag([])
    {
      hide Tell, EventsOf, Scan, Started, Taken, Consistent, StatusesOf, Lag, AllDecided, Chosen;
      EmitApproval(ApprovalApproved);
      var ok := SetStatus(Running, false);
      if !ok { return DispatchRaised(OrchestratorError); }
      r := RetryCall(n, left);
    }

    /** The retry is not wrapped: whatever it raises reaches `run` as it is. */
    method RetryCall(ghost n: Node, ghost left: nat) returns (r: Dispatch)
      requires Tell(story) == Resumed(n, left) && Lag([])
      modifies this`story
      ensures Lag([])
      ensures Dispatched(r, n, left) && EventsOf(story) == old(EventsOf(story))
    {
      hide Tell, EventsOf;
      var result := env.invoke(|story|);
      Note(Calls(true, result));
      match result {
        case InvokeSucceeded => r := DispatchOk;
        case InvokeDryRun => r := DispatchOk;
        case InvokeFailed => r := DispatchFailed;
        case InvokeRaised(orchestrator) => r := DispatchRaised(if orchestrator then OrchestratorError else UnexpectedError);
        case InvokeDenied => r := DispatchRaised(OrchestratorError);
        case InvokePending(_) => r := DispatchRaised(OrchestratorError);
      }
    }

    method DispatchToolCall(ghost n: Node, ghost left: nat) returns (r: Dispatch)
      requires Scan(events).InStep? && NoTerminal(stored)
      requires Tell(story) == Clear(n, left + 1) && EventsOf(story) == events && Lag([])
      modifies this`events, this`stored, this`sinkFailed, this`story
      ensures SameStep(old(events), events) && NoTerminal(stored)
      ensures Dispatched(r, n, left) && EventsOf(story) == events && Lag([])
    {
      hide Tell, EventsOf, Scan, Started, Taken, Consistent, StatusesOf, Lag, AllDecided, Chosen;
      if !env.permits(|story|) {
        Note(Fault(NotPermitted));
        return DispatchRaised(OrchestratorError);
      }
      var result := env.invoke(|story|);
      Note(Calls(false, result));
      match result {
        // Cancellation inside a tool is wrapped like any other tool error.
        case InvokeRaised(_) => r := DispatchRaised(OrchestratorError);
        case InvokePending(hasApproval) =>
          if !hasApproval { return DispatchRaised(OrchestratorError); }
          r := AwaitApprovalAndRetry(n, left);
        case InvokeSucceeded => r := DispatchOk;
        case InvokeDryRun => r := DispatchOk;
        case InvokeFailed => r := DispatchFailed;
        case InvokeDenied => r := DispatchFailed;
      }
    }

    /** Evaluates the conditions of the out-edges of `n`; a missing or blank
        condition always holds.  A routing error stops the run, and so does another
        exception that escapes from the truth test of the condition's value. */
    method Route(n: Node, evaluate: string -> Routing.Verdict) returns (r: Result<seq<Node>, Failure>)
      ensures r.Ok? <==> AllDecided(w.edges, n, evaluate)
      ensures r.Ok? ==> r.value == Chosen(w.edges, n, evaluate)
      ensures r.Err? ==> r.error.OrchestratorError? || r.error.UnexpectedError?
      ensures r.Err? ==>
        exists k ::
          && 0 <= k < |w.edges| && w.edges[k].src == n && AllDecided(w.edges[..k], n, evaluate)
          && Answer(w.edges[k], evaluate) == if r.error.OrchestratorError? then Routing.Rejected else Routing.Escaped
    {
      var next: seq<Node> := [];
      for i := 0 to |w.edges|
        invariant AllDecided(w.edges[..i], n, evaluate) && next == Chosen(w.edges[..i], n, evaluate)
      {
        var e := w.edges[i];
        assert w.edges[..i + 1][..i] == w.edges[..i];
        if e.src == n {
          var v := if Unconditional(e) then Routing.Decided(true) else evaluate(e.condition.value);
          match v {
            case Rejected => return Err(OrchestratorError);
            case Escaped => return Err(UnexpectedError);
            case Decided(holds) => if holds { next := next + [e.dst]; }
          }
        }
      }
      assert w.edges[..|w.edges|] == w.edges;
      r := Ok(next);
    }

    method ExecuteNode(n: Node) returns (r: Result<seq<Node>, Failure>)
      requires Scan(events) == InStep(n) && NoTerminal(stored)
      requires Tell(story) == Entered(n) && EventsOf(story) == events && Lag([])
      modifies this`events, this`stored, this`sinkFailed, this`story
      ensures SameStep(old(events), events) && NoTerminal(stored)
        && EventsOf(story) == events && Lag([])
      ensures r.Ok? ==> AlwaysTaken(w.edges, {n}) <= ArcsFrom(n, r.value) <= Arcs(w.edges)
      ensures r.Ok? ==>
        Tell(story) == Clear(n, 0) && r.value == Chosen(w.edges, n, env.evaluate(|story|))
      ensures r.Ok? ==> AllDecided(w.edges, n, env.evaluate(|story|))
      ensures r.Err? ==>
        if r.error.NodeFailure? then Tell(story) == Tripped(n) else Stops(story, r.error)
    {
      hide Tell, EventsOf, Scan, Started, Taken, Consistent, StatusesOf, Lag, AllDecided, Chosen;
      if !env.profile(|story|) {
        Note(Fault(NoProfile));
        return Err(OrchestratorError);
      }
      var answer := env.chat(|story|);
      if answer.Err? {
        Note(Fault(ChatRaises));
        return Err(if answer.error then OrchestratorError else UnexpectedError);
      }
      var toolCalls := answer.value;
      Note(Chats(toolCalls));
      for i := 0 to toolCalls
        invariant SameStep(old(events), events) && NoTerminal(stored)
        invariant Tell(story) == Clear(n, toolCalls - i) && EventsOf(story) == events && Lag([])
      {
        var d := DispatchToolCall(n, toolCalls - i - 1);
        match d {
          case DispatchRaised(f) => return Err(f);
          case DispatchFailed => return Err(NodeFailure);
          case DispatchOk =>
        }
      }
      var next := Route(n, env.evaluate(|story|));
      if next.Err? {
        Note(Fault(RoutingFails));
        return Err(next.error);
      }
      ChosenFollowEdges(w.edges, n, env.evaluate(|story|));
      UnconditionalChosen(w.edges, n, env.evaluate(|story|));
      r := Ok(next.value);
    }

    /** Runs one popped node that was not visited before. */
    method RunStep(n: Node) returns (r: Result<seq<Node>, Failure>)
      requires !env.cancelled(|story|)
      requires Scan(events) == Idle && NoTerminal(stored)
      requires Tell(story) == Between && EventsOf(story) == events && Lag([])
      modifies this`events, this`stored, this`sinkFailed, this`story
      ensures NoTerminal(stored) && EventsOf(story) == events && Lag([])
      ensures if r.Ok? then Tell(story) == Between else Stops(story, r.error)
      ensures r.Ok? ==>
        && Scan(events) == Idle
        && Started(events) == old(Started(events)) + [n]
        && Taken(events) == old(Taken(events)) + ArcsFrom(n, r.value)
        && AlwaysTaken(w.edges, {n}) <= ArcsFrom(n, r.value) <= Arcs(w.edges)
      ensures r.Err? ==>
        && Stopped(events, r.error)
        && Taken(events) == old(Taken(events))
        && (Started(events) == old(Started(events)) || Started(events) == old(Started(events)) + [n])
    {
      hide Tell, EventsOf, Scan, Started, Taken, AlwaysTaken, ArcsFrom, NoTerminal, Consistent, StatusesOf, Lag, AllDecided, Chosen;
      if !env.hasRole(n) {
        Note(Fault(NoRole(n)));
        return Err(OrchestratorError);
      }
      Emit(StepStarted(n));
      r := ExecuteNode(n);
      if r.Err? && r.error.NodeFailure? {
        Emit(StepFailed(n));
        return Err(OrchestratorError);
      }
      if r.Ok? { Emit(StepSucceeded(n, r.value)); }
    }

    /** The part of the loop body after the visited check. */
    method Explore(n: Node, visited: set<Node>, ghost s: Search)
      returns (r: Result<seq<Node>, Failure>, ghost t: Search)
      requires WellFormed(w) && Scan(events) == Idle && NoTerminal(stored)
      requires SearchOk(s, Started(events), Taken(events), w) && s.near != []
        && n == s.near[0] && n !in s.visited
      requires visited == s.visited + {n} && !env.cancelled(|story|)
      requires Tell(story) == Between && EventsOf(story) == events && Lag([])
      modifies this`events, this`stored, this`sinkFailed, this`story
      ensures NoTerminal(stored) && EventsOf(story) == events && Lag([])
      ensures if r.Ok? then Tell(story) == Between else Stops(story, r.error)
      ensures r.Ok? ==>
        && Scan(events) == Idle && SearchOk(t, Started(events), Taken(events), w)
        && t.visited == s.visited + {n}
        && t.near + t.far == (s.near + s.far)[1..] + r.value
        && old(Taken(events)) + AlwaysTaken(w.edges, {n}) <= Taken(events)
      ensures r.Err? ==> Stopped(events, r.error) && InOrder(Started(events), Taken(events), w)
    {
      hide SearchOk, Tell, EventsOf, Stops, StatusesOf, Turn, Stopped, NoTerminal, WellFormed, InOrder;
      ghost var started, arcs := Started(events), Taken(events);
      t := Enter(s, started, arcs, w);
      SearchIsRunOrder(s, started, arcs, w);
      SearchIsRunOrder(t, started + [n], arcs, w);
      // Every queued node is a node of the workflow, so the lookup succeeds.
      if n !in Ids(w.nodes) { assert false; }
      var step := RunStep(n);
      if step.Err? { return Err(step.error), t; }
      var unseen := Unvisited(step.value, visited);
      t := Leave(t, started + [n], arcs, w, n, step.value, unseen);
      r := Ok(unseen);
    }

    method ExecuteLoop() returns (r: Option<Failure>)
      requires WellFormed(w)
      requires Scan(events) == Idle && NoTerminal(stored) && Started(events) == []
        && Taken(events) == {}
      requires Tell(story) == Between && EventsOf(story) == events && Lag([])
      modifies this`events, this`stored, this`sinkFailed, this`story
      ensures NoTerminal(stored) && EventsOf(story) == events && Lag([])
      ensures if r.None? then Tell(story) == Between else Stops(story, r.value)
      ensures InOrder(Started(events), Taken(events), w)
      ensures r.None? ==>
        && Scan(events) == Idle
        && IsReachableSet(Taken(events), w.entrypoint, Elements(Started(events)))
        && AlwaysTaken(w.edges, Elements(Started(events))) <= Taken(events)
      ensures r.Some? ==> Stopped(events, r.value)
    {
      hide SearchOk, InOrder, IsReachableSet, Tell, EventsOf, Stops, Scan, Started, Taken, Stopped, NoTerminal;
      var queue := [w.entrypoint];
      var visited: set<Node> := {};
      ghost var s := Search({}, queue, [], 0, []);
      hide *;
      SearchStarts(w);
      while queue != []
        invariant Scan(events) == Idle && NoTerminal(stored)
        invariant Tell(story) == Between && EventsOf(story) == events && Lag([])
        invariant SearchOk(s, Started(events), Taken(events), w)
        invariant queue == s.near + s.far && visited == s.visited
        invariant AlwaysTaken(w.edges, visited) <= Taken(events)
        decreases Ids(w.nodes) - visited, |queue|
      {
        SearchIsRunOrder(s, Started(events), Taken(events), w);
        if env.cancelled(|story|) {
          Note(CancelSeen);
          CancelStops(story, events);
          return Some(CancelledError);
        }
        s := Refocus(s, Started(events), Taken(events), w);
        var n := queue[0];
        queue := queue[1..];
        if n in visited {
          SkipVisited(s, Started(events), Taken(events), w);
          s := s.(near := s.near[1..]);
          continue;
        }
        visited := visited + {n};
        assert AlwaysTaken(w.edges, visited) == AlwaysTaken(w.edges, visited - {n}) + AlwaysTaken(w.edges, {n});
        assert visited - {n} == s.visited;
        EnterBound(s, Started(events), Taken(events), w);
        var step;
        step, s := Explore(n, visited, s);
        if step.Err? { return Some(step.error); }
        queue := queue + step.value;
      }
      SearchIsRunOrder(s, Started(events), Taken(events), w);
      assert visited == Elements(Started(events)) by { SearchVisited(s, Started(events), Taken(events), w); }
      return None;
    }

    /** `for nxt in next_ids: if nxt not in visited: queue.append(nxt)` */
    method Unvisited(next: seq<Node>, visited: set<Node>) returns (unseen: seq<Node>)
      ensures Elements(unseen) == Elements(next) - visited
      ensures |unseen| <= |next|
    {
      unseen := [];
      for i := 0 to |next|
        invariant Elements(unseen) == Elements(next[..i]) - visited && |unseen| <= i
      {
        assert next[..i + 1] == next[..i] + [next[i]];
        assert Elements(next[..i + 1]) == Elements(next[..i]) + {next[i]};
        assert Elements(unseen + [next[i]]) == Elements(unseen) + {next[i]};
        if next[i] !in visited { unseen := unseen + [next[i]]; }
      }
      assert next[..|next|] == next;
    }

    /** One whole run. */
    method Run() returns (raised: bool)
      requires WellFormed(w)
      requires events == [] && stored == [] && !closed && story == [] && !sinkFailed
      modifies this
      ensures hasSink && !sinkFailed ==> stored == StatusesOf(story)
      ensures Tell(story) == Over && EventsOf(story) == events
        && Consistent(story, w.edges, env)
      ensures Fault(NoWaiter) in story ==> !hasWaiter
      ensures events[|events| - 1].RunSucceeded? ==>
        AllFair(story) && Made(story) == AskedFor(story)
      ensures Scan(events) == Done && closed
      ensures InOrder(Started(events), Taken(events), w)
      ensures raised <==> events[|events| - 1].RunFailed?
      ensures events[|events| - 1].RunSucceeded? ==>
        && IsReachableSet(Taken(events), w.entrypoint, Elements(Started(events)))
        && AlwaysTaken(w.edges, Elements(Started(events))) <= Taken(events)
      ensures StatusForm(stored)
      ensures stored != [] && stored[|stored| - 1].IsTerminal() ==>
        match events[|events| - 1]
        case RunSucceeded => stored[|stored| - 1] == Succeeded
        case RunFailed => stored[|stored| - 1] == Failed
        case _ => stored[|stored| - 1] == Cancelled && events[|events| - 1] == RunCancelled
    {
      hide *;
      RunBegins();
      NothingStored();
      NothingStarted(w);
      var failure: Option<Failure> := Some(OrchestratorError);
      var ok := SetStatus(Running, false);
      if ok {
        OuterFits(RunStarted);
        Emit(RunStarted);
        failure := ExecuteLoop();
      } else {
        MustStops(story);
      }
      StopsOpen(events, failure);
      EndsClosed(story, failure);
      raised := failure.Some? && !failure.value.CancelledError?;
      var e := if raised then RunFailed else if failure.None? then RunSucceeded else RunCancelled;
      EndFits(story, failure);
      OuterFits(e);
      Finish(e);
      SuccessIsFair(story);
    }

    /** The terminal event, then the terminal status, then closing the bus. */
    method Finish(e: RunnerEvent)
      requires e.IsTerminal() && NoTerminal(stored) && !closed && Lag([])
        && Fits(Emits(e)) && !Turn(Tell(story), Emits(e)).Ruled?
      modifies this
      ensures hasSink && !sinkFailed ==> stored == StatusesOf(story)
      ensures Consistent(story, w.edges, env) && (Fault(NoWaiter) in story ==> !hasWaiter)
      ensures closed && events != [] && events[|events| - 1] == e
      ensures Scan(events) == Next(old(Scan(events)), e)
      ensures Tell(story) == Turn(old(Tell(story)), Emits(e))
      ensures old(EventsOf(story) == events) ==> EventsOf(story) == events
      ensures Started(events) == old(Started(events)) && Taken(events) == old(Taken(events))
      ensures StatusForm(stored)
      ensures stored != [] && stored[|stored| - 1].IsTerminal() ==>
        stored[|stored| - 1] == Verdict(e)
    {
      hide Consistent, Tell, EventsOf, StatusesOf, Fits, Agrees, Scan, Started, Taken, Turn;
      Emit(e);
      var _ := SetStatus(Verdict(e), true);
      closed := true;
    }
  }

  /** In a workflow without conditions a successful run executes everything that the
      entrypoint reaches along its edges. */
  lemma UnconditionalRunReachesAll(w: Workflow, ran: set<Node>, taken: set<Arc>)
    requires IsReachableSet(taken, w.entrypoint, ran)
      && AlwaysTaken(w.edges, ran) <= taken <= Arcs(w.edges)
    requires forall e :: e in w.edges ==> Unconditional(e)
    ensures IsReachableSet(Arcs(w.edges), w.entrypoint, ran)
  {
    forall a | a in Arcs(w.edges) && a.0 in ran ensures a.1 in ran {
      assert a in AlwaysTaken(w.edges, ran);
    }
    forall t | w.entrypoint in t && Closed(Arcs(w.edges), t) ensures ran <= t {
      assert Closed(taken, t);
    }
  }
}
