/** What a run makes visible: the events its runner emits and the statuses its
    sink stores, with the grammar both follow. */
module RunTrace {
  import opened Wrappers
  import opened Digraphs

  datatype RunnerEvent =
    | RunStarted
    | StepStarted(node: Node)
    | StepSucceeded(node: Node, next: seq<Node>)
    | StepFailed(node: Node)
    | ApprovalRequested
    | ApprovalApproved
    | ApprovalRejected
    | ApprovalExpired
    | RunSucceeded
    | RunFailed
    | RunCancelled
  {
    predicate IsTerminal() { RunSucceeded? || RunFailed? || RunCancelled? }
    predicate IsStep() { StepStarted? || StepSucceeded? || StepFailed? }
    predicate IsApproval() { ApprovalRequested? || ApprovalApproved? || ApprovalRejected? || ApprovalExpired? }
  }

  datatype Status = Running | AwaitingApproval | Succeeded | Failed | Cancelled {
    predicate IsTerminal() { Succeeded? || Failed? || Cancelled? }
  }

  // ---- Projections of a trace ----

  function Started(events: seq<RunnerEvent>): seq<Node> {
    if events == [] then []
    else
      var e := events[|events| - 1];
      Started(events[..|events| - 1]) + if e.StepStarted? then [e.node] else []
  }

  /** The arcs a run actually took, as announced by its succeeded steps. */
  function Taken(events: seq<RunnerEvent>): (r: set<Arc>) {
    if events == [] then {}
    else
      var e := events[|events| - 1];
      Taken(events[..|events| - 1]) + if e.StepSucceeded? then ArcsFrom(e.node, e.next) else {}
  }

  function ArcsFrom(n: Node, next: seq<Node>): (r: set<Arc>) {
    set x | x in next :: (n, x)
  }

  // ---- Grammar of a trace ----

  datatype Phase = Fresh | Idle | InStep(node: Node) | Broken | Done | Bad

  function Next(p: Phase, e: RunnerEvent): Phase {
    match p
    case Fresh => if e.RunStarted? then Idle else if e.RunFailed? then Done else Bad
    case Idle => if e.StepStarted? then InStep(e.node) else if e.IsTerminal() then Done else Bad
    case InStep(n) =>
      if e.StepSucceeded? && e.node == n then Idle
      else if e.StepFailed? && e.node == n then Broken
      else if e.IsApproval() then p
      else if e.RunFailed? || e.RunCancelled? then Done
      else Bad
    case Broken => if e.RunFailed? then Done else Bad
    case Done => Bad
    case Bad => Bad
  }

  function Scan(events: seq<RunnerEvent>): Phase {
    if events == [] then Fresh else Next(Scan(events[..|events| - 1]), events[|events| - 1])
  }

  function Steps(events: seq<RunnerEvent>): seq<RunnerEvent> {
    if events == [] then []
    else
      var e := events[|events| - 1];
      Steps(events[..|events| - 1]) + if e.IsStep() then [e] else []
  }

  /** A started step is closed by its own success or failure, and only after a
      success does another step start. */
  predicate Follows(a: RunnerEvent, b: RunnerEvent) {
    if a.StepStarted? then (b.StepSucceeded? || b.StepFailed?) && b.node == a.node
    else a.StepSucceeded? && b.StepStarted?
  }

  /** Complete steps, then at most one that is unfinished or failed: the first
      step event starts a step and nothing follows a failure. */
  ghost predicate StepForm(steps: seq<RunnerEvent>) {
    && (steps != [] ==> steps[0].StepStarted?)
    && (forall i {:trigger steps[i]} :: 0 < i < |steps| ==> Follows(steps[i - 1], steps[i]))
  }

  /** A trace accepted by the grammar has exactly one terminal event, its last;
      its step events are complete pairs with at most one loose step at the end,
      and none at all when the run succeeded. */
  lemma {:induction false} AcceptedTrace(events: seq<RunnerEvent>)
    requires Scan(events) == Done
    ensures events != []
    ensures forall i :: 0 <= i < |events| ==> (events[i].IsTerminal() <==> i == |events| - 1)
    ensures StepForm(Steps(events))
    ensures events[|events| - 1].RunSucceeded? ==>
      Steps(events) == [] || Steps(events)[|Steps(events)| - 1].StepSucceeded?
  {
    OpenTrace(events[..|events| - 1]);
  }

  /** How the last step stands in each phase. */
  ghost predicate Shape(p: Phase, s: seq<RunnerEvent>) {
    match p
    case Fresh => s == []
    case Idle => s == [] || s[|s| - 1].StepSucceeded?
    case InStep(n) => s != [] && s[|s| - 1] == StepStarted(n)
    case Broken => s != [] && s[|s| - 1].StepFailed?
    case _ => true
  }

  /** Before its terminal event a trace has no terminal event. */
  lemma {:induction false} OpenTrace(events: seq<RunnerEvent>)
    requires !Scan(events).Done? && !Scan(events).Bad?
    ensures forall i :: 0 <= i < |events| ==> !events[i].IsTerminal()
    ensures StepForm(Steps(events)) && Shape(Scan(events), Steps(events))
  {
    if events == [] { return; }
    hide Next, Shape, StepForm;
    var init := events[..|events| - 1];
    OpenTrace(init);
  }

  // ---- Grammar of the stored statuses ----

  ghost predicate StatusForm(stored: seq<Status>) {
    forall i :: 0 <= i < |stored| ==> stored[i].IsTerminal() ==> i == |stored| - 1
  }

  /** The status that goes with a terminal event. */
  function Verdict(e: RunnerEvent): Status {
    if e.RunSucceeded? then Succeeded else if e.RunFailed? then Failed else Cancelled
  }

  ghost predicate NoTerminal(stored: seq<Status>) {
    forall i :: 0 <= i < |stored| ==> !stored[i].IsTerminal()
  }

  // ---- Order of execution ----

  /** Nodes appear in order of their shortest distance from the root. */
  ghost predicate ByDistance(started: seq<Node>, arcs: set<Arc>, root: Node) {
    exists levels: seq<nat> :: Levels(started, arcs, root, levels)
  }

  ghost predicate Levels(started: seq<Node>, arcs: set<Arc>, root: Node, levels: seq<nat>) {
    && |levels| == |started|
    && (forall i, j :: 0 <= i < j < |levels| ==> levels[i] <= levels[j])
    && (forall i :: 0 <= i < |levels| ==> AtDistance(arcs, root, started[i], levels[i]))
  }

  // ---- How a run stops ----

  /** What `_execute_loop` and its helpers can raise. */
  datatype Failure = CancelledError | OrchestratorError | UnexpectedError | NodeFailure

  /** How a run that failed with `f` may have left its trace. */
  ghost predicate Stopped(events: seq<RunnerEvent>, f: Failure) {
    && !f.NodeFailure?
    && (Scan(events).Idle? || Scan(events).InStep? || (Scan(events).Broken? && f.OrchestratorError?))
  }

  /** Only events inside the current step were added. */
  ghost predicate SameStep(before: seq<RunnerEvent>, after: seq<RunnerEvent>) {
    Scan(after) == Scan(before) && Started(after) == Started(before) && Taken(after) == Taken(before)
  }

  /** However a run stops, its trace can take the terminal event that `run` emits. */
  lemma {:induction false} StopsOpen(events: seq<RunnerEvent>, f: Option<Failure>)
    requires if f.None? then Scan(events).Idle? else Stopped(events, f.value) || (events == [] && f.value.OrchestratorError?)
    ensures f.Some? && !f.value.CancelledError? ==> Next(Scan(events), RunFailed) == Done
    ensures f == Some(CancelledError) ==> Next(Scan(events), RunCancelled) == Done
    ensures f.None? ==> Next(Scan(events), RunSucceeded) == Done
  {
  }
}
