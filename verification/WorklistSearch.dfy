/** Breadth-first search with a worklist that marks nodes when they are popped,
    so that the queue may hold duplicates: the invariant of
    `_execute_loop` (sidecar/orca_core/orchestrator/runner.py). */
module WorklistSearch {
  import opened Wrappers
  import opened Digraphs
  import opened Workflows
  import opened RunTrace

  // ---- Breadth-first search state ----

  /** The worklist splits into nodes at distance `d` and successors of visited
      nodes; the visited nodes fill the ball of radius `d - 1`. */
  ghost predicate Frontier(arcs: set<Arc>, root: Node, visited: set<Node>, near: seq<Node>, far: seq<Node>, d: nat) {
    && (d > 0 ==> Ball(arcs, root, d - 1) <= visited)
    && visited + Elements(near) == Ball(arcs, root, d)
    && Elements(far) <= Heads(arcs, visited)
    && (forall a :: a in arcs ==> a.0 in visited && a.1 in visited + Elements(near) + Elements(far))
  }

  ghost predicate Ranked(started: seq<Node>, arcs: set<Arc>, root: Node, levels: seq<nat>, d: nat) {
    Levels(started, arcs, root, levels) && forall i :: 0 <= i < |levels| ==> levels[i] <= d
  }

  /** A popped node that was not visited is at distance exactly `d`. */
  lemma {:induction false} VisitNode(arcs: set<Arc>, root: Node, visited: set<Node>, near: seq<Node>, far: seq<Node>, d: nat,
                  started: seq<Node>, levels: seq<nat>)
    requires near != [] && near[0] !in visited
    requires Frontier(arcs, root, visited, near, far, d)
      && Ranked(started, arcs, root, levels, d)
    ensures Frontier(arcs, root, visited + {near[0]}, near[1..], far, d)
    ensures Ranked(started + [near[0]], arcs, root, levels + [d], d)
    ensures d > 0 ==> near[0] !in Ball(arcs, root, d - 1)
  {
    assert visited + Elements(near) == visited + {near[0]} + Elements(near[1..]);
  }

  /** Recording the arcs of the node just visited changes no distance up to `d`. */
  lemma {:induction false} RecordArcs(arcs: set<Arc>, root: Node, visited: set<Node>, near: seq<Node>, far: seq<Node>, d: nat,
                   started: seq<Node>, levels: seq<nat>, n: Node, next: seq<Node>, unseen: seq<Node>)
    requires n in visited && (d > 0 ==> n !in Ball(arcs, root, d - 1))
    requires Frontier(arcs, root, visited, near, far, d)
      && Ranked(started, arcs, root, levels, d)
    requires Elements(unseen) == Elements(next) - visited
    ensures var more := arcs + ArcsFrom(n, next);
      && Frontier(more, root, visited, near, far + unseen, d)
      && Ranked(started, more, root, levels, d)
  {
    var more := arcs + ArcsFrom(n, next);
    forall k: nat | k <= d ensures Ball(more, root, k) == Ball(arcs, root, k) {
      if d > 0 && k > 0 { BallGrows(arcs, root, k - 1, d - 1); }
      BallStable(arcs, more, root, k);
    }
    assert Elements(far + unseen) == Elements(far) + Elements(unseen);
    forall x | x in Elements(far + unseen) ensures x in Heads(more, visited) {
      if x in Elements(far) {
        var a :| a in arcs && a.0 in visited && a.1 == x;
        assert a in more;
      } else {
        assert (n, x) in more;
      }
    }
    forall i | 0 <= i < |levels| ensures AtDistance(more, root, started[i], levels[i]) {
      assert AtDistance(arcs, root, started[i], levels[i]);
    }
  }

  lemma SearchDone(arcs: set<Arc>, root: Node, visited: set<Node>, d: nat)
    requires Frontier(arcs, root, visited, [], [], d)
    ensures IsReachableSet(arcs, root, visited)
  {
    assert Elements([]) == {};
    BallGrows(arcs, root, 0, d);
    forall t | root in t && Closed(arcs, t) ensures visited <= t {
      BallInClosed(arcs, root, d, t);
    }
  }

  /** What has been run so far: distinct known nodes in order of distance. */
  ghost predicate InOrder(started: seq<Node>, arcs: set<Arc>, w: Workflow) {
    && Distinct(started)
    && Elements(started) <= Ids(w.nodes)
    && arcs <= Arcs(w.edges)
    && ByDistance(started, arcs, w.entrypoint)
  }

  /** Proof state of the worklist loop: the visited set, the queue cut where the
      distance grows, and the distances of the nodes started so far. */
  datatype Search = Search(visited: set<Node>, near: seq<Node>, far: seq<Node>, d: nat, levels: seq<nat>)

  ghost predicate SearchOk(s: Search, started: seq<Node>, arcs: set<Arc>, w: Workflow) {
    match s
    case Search(visited, near, far, d, levels) =>
      && Elements(near) <= Ids(w.nodes) && Elements(far) <= Ids(w.nodes)
      && visited <= Ids(w.nodes) && arcs <= Arcs(w.edges)
      && Distinct(started) && Elements(started) == visited
      && Frontier(arcs, w.entrypoint, visited, near, far, d)
      && Ranked(started, arcs, w.entrypoint, levels, d)
  }

  lemma SearchStarts(w: Workflow)
    requires WellFormed(w)
    ensures SearchOk(Search({}, [w.entrypoint], [], 0, []), [], {}, w)
  {
    assert Elements([]) == {} && Elements([w.entrypoint]) == {w.entrypoint};
  }

  lemma SearchVisited(s: Search, started: seq<Node>, arcs: set<Arc>, w: Workflow)
    requires SearchOk(s, started, arcs, w)
    ensures s.visited == Elements(started)
  {
  }

  lemma NothingStarted(w: Workflow)
    ensures InOrder([], {}, w)
  {
    assert Elements([]) == {};
    assert Levels([], {}, w.entrypoint, []);
  }

  lemma SearchIsRunOrder(s: Search, started: seq<Node>, arcs: set<Arc>, w: Workflow)
    requires SearchOk(s, started, arcs, w)
    ensures InOrder(started, arcs, w)
    ensures s.near + s.far == [] ==> IsReachableSet(arcs, w.entrypoint, Elements(started))
  {
    assert Levels(started, arcs, w.entrypoint, s.levels);
    if s.near + s.far == [] {
      assert s.near == [] && s.far == [];
      SearchDone(arcs, w.entrypoint, s.visited, s.d);
    }
  }

  ghost function Refocus(s: Search, started: seq<Node>, arcs: set<Arc>, w: Workflow): (t: Search)
    requires SearchOk(s, started, arcs, w) && s.near + s.far != []
    ensures SearchOk(t, started, arcs, w) && t.near != []
    ensures t.visited == s.visited && t.near + t.far == s.near + s.far
  {
    hide SearchOk;
    if s.near != [] then s
    else
      assert s.near + s.far == s.far && s.far + [] == s.far;
      NextDistance(s, started, arcs, w);
      s.(near := s.far, far := [], d := s.d + 1)
  }

  /** When no node at the current distance is left, the queue holds the next distance. */
  lemma NextDistance(s: Search, started: seq<Node>, arcs: set<Arc>, w: Workflow)
    requires SearchOk(s, started, arcs, w) && s.near == []
    ensures SearchOk(s.(near := s.far, far := [], d := s.d + 1), started, arcs, w)
  {
    assert Elements([]) == {};
    hide Levels, Arcs, Distinct;
  }

  lemma SkipVisited(s: Search, started: seq<Node>, arcs: set<Arc>, w: Workflow)
    requires SearchOk(s, started, arcs, w) && s.near != [] && s.near[0] in s.visited
    ensures SearchOk(s.(near := s.near[1..]), started, arcs, w)
  {
    assert s.visited + Elements(s.near) == s.visited + Elements(s.near[1..]);
  }

  /** The head of the queue is started. */
  ghost function Enter(s: Search, started: seq<Node>, arcs: set<Arc>, w: Workflow): (t: Search)
    requires SearchOk(s, started, arcs, w) && s.near != [] && s.near[0] !in s.visited
    ensures var n := s.near[0];
      && n in Ids(w.nodes) && SearchOk(t, started + [n], arcs, w)
      && t.visited == s.visited + {n} && t.near == s.near[1..] && t.far == s.far
      && (t.d > 0 ==> n !in Ball(arcs, w.entrypoint, t.d - 1))
  {
    VisitNode(arcs, w.entrypoint, s.visited, s.near, s.far, s.d, started, s.levels);
    PushDistinct(started, s.near[0]);
    Search(s.visited + {s.near[0]}, s.near[1..], s.far, s.d, s.levels + [s.d])
  }

  lemma EnterBound(s: Search, started: seq<Node>, arcs: set<Arc>, w: Workflow)
    requires SearchOk(s, started, arcs, w) && s.near != [] && s.near[0] !in s.visited
    ensures s.near[0] in Ids(w.nodes) - s.visited
  {
  }

  /** The node just started has chosen its successors. */
  ghost function Leave(s: Search, started: seq<Node>, arcs: set<Arc>, w: Workflow, n: Node, next: seq<Node>, unseen: seq<Node>): (t: Search)
    requires WellFormed(w) && SearchOk(s, started, arcs, w) && n in s.visited
    requires s.d > 0 ==> n !in Ball(arcs, w.entrypoint, s.d - 1)
    requires ArcsFrom(n, next) <= Arcs(w.edges)
      && Elements(unseen) == Elements(next) - s.visited
    ensures SearchOk(t, started, arcs + ArcsFrom(n, next), w)
    ensures t == s.(far := s.far + unseen)
  {
    RecordArcs(arcs, w.entrypoint, s.visited, s.near, s.far, s.d, started, s.levels, n, next, unseen);
    NextAreKnown(w, n, next);
    assert Elements(s.far + unseen) == Elements(s.far) + Elements(unseen);
    s.(far := s.far + unseen)
  }

  lemma NextAreKnown(w: Workflow, n: Node, next: seq<Node>)
    requires WellFormed(w) && ArcsFrom(n, next) <= Arcs(w.edges)
    ensures Elements(next) <= Ids(w.nodes)
  {
    forall x | x in Elements(next) ensures x in Ids(w.nodes) {
      assert (n, x) in ArcsFrom(n, next);
    }
  }
}
