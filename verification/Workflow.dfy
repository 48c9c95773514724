/** Workflow graphs and their validation (sidecar/orca_core/schema/workflow.py). */
module Workflows {
  import opened Wrappers
  import opened Digraphs

  datatype AgentNode = AgentNode(id: Node, role: string)
  datatype Edge = Edge(src: Node, dst: Node, condition: Option<string>)
  datatype Workflow = Workflow(nodes: seq<AgentNode>, edges: seq<Edge>, entrypoint: Node)

  datatype GraphError =
    | NoNodes
    | DuplicateId(id: Node)
    | UnknownEntrypoint
    | UnknownSource(at: nat)
    | UnknownTarget(at: nat)
    | SelfLoop(at: nat)
    | HasCycle

  function Ids(nodes: seq<AgentNode>): (r: set<Node>) {
    set n | n in nodes :: n.id
  }

  function Arcs(edges: seq<Edge>): (r: set<Arc>) {
    set e | e in edges :: (e.src, e.dst)
  }

  /** An edge whose condition is missing or blank is always taken. */
  predicate Unconditional(e: Edge) {
    e.condition.None? || forall c :: c in e.condition.value ==> c in " \t\n\r"
  }

  /** Arcs of the unconditional edges that leave `s`. */
  function AlwaysTaken(edges: seq<Edge>, s: set<Node>): (r: set<Arc>) {
    set e | e in edges && e.src in s && Unconditional(e) :: (e.src, e.dst)
  }

  ghost predicate UniqueIds(nodes: seq<AgentNode>) {
    forall i, j :: 0 <= i < j < |nodes| ==> nodes[i].id != nodes[j].id
  }

  ghost predicate KnownEnds(edges: seq<Edge>, ids: set<Node>) {
    forall i :: 0 <= i < |edges| ==> edges[i].src in ids && edges[i].dst in ids
  }

  /** What a workflow graph has to be: named nodes, a known entrypoint, edges
      between known nodes, and no directed cycle. */
  ghost predicate WellFormed(w: Workflow) {
    && w.nodes != []
    && UniqueIds(w.nodes)
    && w.entrypoint in Ids(w.nodes)
    && KnownEnds(w.edges, Ids(w.nodes))
    && Acyclic(Arcs(w.edges))
  }

  // ---- Counting edges of the multigraph ----

  /** Targets of the edges that leave `n`, in edge order and with repetitions. */
  function Targets(edges: seq<Edge>, n: Node): seq<Node> {
    if edges == [] then []
    else
      var e := edges[|edges| - 1];
      Targets(edges[..|edges| - 1], n) + if e.src == n then [e.dst] else []
  }

  /** Number of edges into `n` from nodes of `live`. */
  function Incoming(edges: seq<Edge>, live: set<Node>, n: Node): nat {
    if edges == [] then 0
    else
      var e := edges[|edges| - 1];
      Incoming(edges[..|edges| - 1], live, n) + if e.src in live && e.dst == n then 1 else 0
  }

  lemma {:induction false} RemovingASource(edges: seq<Edge>, live: set<Node>, c: Node, n: Node)
    requires c in live
    ensures Incoming(edges, live, n) == Incoming(edges, live - {c}, n) + multiset(Targets(edges, c))[n]
  {
    if edges != [] { RemovingASource(edges[..|edges| - 1], live, c, n); }
  }

  lemma {:induction false} NoIncoming(edges: seq<Edge>, live: set<Node>, n: Node)
    ensures Incoming(edges, live, n) == 0 <==>
      forall e :: e in edges && e.src in live ==> e.dst != n
  {
    if edges != [] {
      var init := edges[..|edges| - 1];
      NoIncoming(init, live, n);
      assert edges == init + [edges[|edges| - 1]];
    }
  }

  lemma {:induction false} TargetsAreKnown(edges: seq<Edge>, ids: set<Node>, n: Node)
    requires KnownEnds(edges, ids)
    ensures Elements(Targets(edges, n)) <= ids
  {
    if edges != [] { TargetsAreKnown(edges[..|edges| - 1], ids, n); }
  }

  // ---- Validation ----

  method CollectUniqueNodeIds(nodes: seq<AgentNode>) returns (r: Result<set<Node>, GraphError>)
    ensures r.Ok? <==> nodes != [] && UniqueIds(nodes)
    ensures r.Ok? ==> r.value == Ids(nodes)
    ensures nodes == [] ==> r == Err(NoNodes)
    ensures r.Err? && nodes != [] ==>
      && r.error.DuplicateId?
      && exists i, j :: 0 <= i < j < |nodes| && nodes[i].id == nodes[j].id == r.error.id
  {
    if nodes == [] { return Err(NoNodes); }
    var seen: set<Node> := {};
    for i := 0 to |nodes|
      invariant seen == Ids(nodes[..i])
      invariant UniqueIds(nodes[..i])
    {
      if nodes[i].id in seen {
        var j :| 0 <= j < i && nodes[j].id == nodes[i].id;
        return Err(DuplicateId(nodes[i].id));
      }
      assert nodes[..i + 1] == nodes[..i] + [nodes[i]];
      seen := seen + {nodes[i].id};
    }
    assert nodes[..|nodes|] == nodes;
    r := Ok(seen);
  }

  ghost predicate GoodEdge(e: Edge, ids: set<Node>) {
    e.src in ids && e.dst in ids && e.src != e.dst
  }

  method ValidateEdges(edges: seq<Edge>, ids: set<Node>) returns (r: Option<GraphError>)
    ensures r.None? <==> forall i :: 0 <= i < |edges| ==> GoodEdge(edges[i], ids)
    ensures r.Some? ==>
      && (r.value.UnknownSource? || r.value.UnknownTarget? || r.value.SelfLoop?)
      && var k := r.value.at;
      && k < |edges| && (forall i :: 0 <= i < k ==> GoodEdge(edges[i], ids))
      && (r.value.UnknownSource? <==> edges[k].src !in ids)
      && (r.value.UnknownTarget? <==> edges[k].src in ids && edges[k].dst !in ids)
      && (r.value.SelfLoop? <==> edges[k].src in ids && edges[k].dst == edges[k].src)
  {
    for i := 0 to |edges|
      invariant forall k :: 0 <= k < i ==> GoodEdge(edges[k], ids)
    {
      var e := edges[i];
      if e.src !in ids { return Some(UnknownSource(i)); }
      if e.dst !in ids { return Some(UnknownTarget(i)); }
      if e.src == e.dst { return Some(SelfLoop(i)); }
    }
    r := None;
  }

  /** `queue` lists, once each, the live nodes without live in-edges. */
  ghost predicate Ready(queue: seq<Node>, live: set<Node>, indegree: map<Node, int>) {
    && Distinct(queue)
    && live <= indegree.Keys
    && Elements(queue) == set n | n in live && indegree[n] == 0
  }

  /** The indegree table counts, for every node, the edges from live nodes; no
      live node points at one that is no longer live. */
  ghost predicate Counts(indegree: map<Node, int>, ids: set<Node>, edges: seq<Edge>, live: set<Node>) {
    && indegree.Keys == ids
    && (forall n :: n in ids ==> indegree[n] == Incoming(edges, live, n))
    && Sealed(ids, edges, live)
  }

  ghost predicate Sealed(ids: set<Node>, edges: seq<Edge>, live: set<Node>) {
    forall n :: n in ids - live ==> Incoming(edges, live, n) == 0
  }

  /** Kahn's algorithm.  The initial worklist comes from a set, so its order is
      arbitrary; the proof holds for every order. */
  method CheckAcyclic(ids: set<Node>, edges: seq<Edge>) returns (ok: bool, ghost order: seq<Node>)
    requires KnownEnds(edges, ids)
    ensures ok <==> Acyclic(Arcs(edges))
    ensures ok ==> IsTopologicalOrder(order, ids, Arcs(edges))
    ensures !ok ==> exists p :: IsCycle(Arcs(edges), p)
  {
    assert Ordered([], Arcs(edges)) && Elements([]) == {};
    hide Ready, Ordered, Incoming, Targets, KnownEnds;
    var adjacency, indegree := BuildTables(ids, edges);
    var queue := InitialQueue(ids, indegree);
    var visited := 0;
    order := [];
    ghost var live := ids;
    while queue != []
      invariant Counts(indegree, ids, edges, live)
      invariant Ready(queue, live, indegree)
      invariant visited == |order| && Distinct(order) && Ordered(order, Arcs(edges))
      invariant live <= ids && Elements(order) == ids - live
      decreases live
    {
      var current := queue[|queue| - 1];
      PopReady(queue, live, indegree, edges, order);
      queue := queue[..|queue| - 1];
      visited := visited + 1;
      indegree, queue := Release(ids, edges, live, current, adjacency[current], indegree, queue);
      order := order + [current];
      live := live - {current};
    }
    ok := visited == |ids|;
    DistinctCardinality(order);
    if ok {
      SubsetOfEqualSize(Elements(order), ids);
      TopologicalOrderMeansAcyclic(order, ids, Arcs(edges));
    } else {
      LeftoverHasCycle(ids, edges, live, indegree);
    }
  }

  method BuildTables(ids: set<Node>, edges: seq<Edge>)
    returns (adjacency: map<Node, seq<Node>>, indegree: map<Node, int>)
    requires KnownEnds(edges, ids)
    ensures adjacency.Keys == ids && forall n :: n in ids ==> adjacency[n] == Targets(edges, n)
    ensures Counts(indegree, ids, edges, ids)
  {
    adjacency := map n | n in ids :: [];
    indegree := map n | n in ids :: 0;
    for i := 0 to |edges|
      invariant TablesUpTo(adjacency, indegree, ids, edges[..i])
    {
      hide Targets, Incoming;
      var e := edges[i];
      TablesStep(adjacency, indegree, ids, edges[..i], e);
      assert edges[..i + 1] == edges[..i] + [e];
      adjacency := adjacency[e.src := adjacency[e.src] + [e.dst]];
      indegree := indegree[e.dst := indegree[e.dst] + 1];
    }
    assert edges[..|edges|] == edges;
  }

  ghost predicate TablesUpTo(adjacency: map<Node, seq<Node>>, indegree: map<Node, int>,
                             ids: set<Node>, edges: seq<Edge>) {
    && adjacency.Keys == ids && (forall n :: n in ids ==> adjacency[n] == Targets(edges, n))
    && indegree.Keys == ids && (forall n :: n in ids ==> indegree[n] == Incoming(edges, ids, n))
  }

  lemma TablesStep(adjacency: map<Node, seq<Node>>, indegree: map<Node, int>,
                   ids: set<Node>, edges: seq<Edge>, e: Edge)
    requires TablesUpTo(adjacency, indegree, ids, edges) && e.src in ids && e.dst in ids
    ensures TablesUpTo(adjacency[e.src := adjacency[e.src] + [e.dst]],
                       indegree[e.dst := indegree[e.dst] + 1], ids, edges + [e])
  {
    assert (edges + [e])[..|edges|] == edges;
    forall n | n in ids
      ensures Targets(edges + [e], n) == Targets(edges, n) + if e.src == n then [e.dst] else []
      ensures Incoming(edges + [e], ids, n) == Incoming(edges, ids, n) + if e.dst == n then 1 else 0
    {
    }
  }

  method InitialQueue(ids: set<Node>, indegree: map<Node, int>) returns (queue: seq<Node>)
    requires ids == indegree.Keys
    ensures Ready(queue, ids, indegree)
  {
    queue := [];
    var rest := ids;
    while rest != {}
      invariant rest <= ids
      invariant Ready(queue, ids - rest, indegree)
    {
      var n :| n in rest;
      if indegree[n] == 0 {
        PushDistinct(queue, n);
        queue := queue + [n];
      }
      rest := rest - {n};
    }
    assert ids - rest == ids;
  }

  /** The popped node is live, nothing live points at it, and listing it next
      keeps the order topological. */
  lemma {:induction false} PopReady(queue: seq<Node>, live: set<Node>, indegree: map<Node, int>, edges: seq<Edge>, order: seq<Node>)
    requires queue != [] && Ready(queue, live, indegree)
    requires Counts(indegree, indegree.Keys, edges, live)
    requires Distinct(order) && Ordered(order, Arcs(edges))
      && Elements(order) == indegree.Keys - live
    requires KnownEnds(edges, indegree.Keys)
    ensures var c := queue[|queue| - 1];
      && c in live && Incoming(edges, live, c) == 0
      && Distinct(queue[..|queue| - 1])
      && Elements(queue[..|queue| - 1]) == Elements(queue) - {c}
      && Distinct(order + [c]) && Elements(order + [c]) == Elements(order) + {c}
      && Ordered(order + [c], Arcs(edges))
  {
    var c := queue[|queue| - 1];
    assert c in Elements(queue);
    NoIncoming(edges, live, c);
    var o := order + [c];
    forall a, i | a in Arcs(edges) && 0 <= i < |o| && o[i] == a.1 ensures a.0 in o[..i] {
      var e :| e in edges && a == (e.src, e.dst);
      if i == |order| {
        assert o[..i] == order;
        assert e.src in Elements(order);
      } else {
        assert o[..i] == order[..i];
      }
    }
  }

  lemma LeftoverHasCycle(ids: set<Node>, edges: seq<Edge>, live: set<Node>, indegree: map<Node, int>)
    requires live != {} && live <= ids
    requires Counts(indegree, ids, edges, live) && Ready([], live, indegree)
    ensures !Acyclic(Arcs(edges))
  {
    forall x | x in live ensures HasPredecessorIn(live, Arcs(edges), x) {
      assert indegree[x] != 0 by {
        var sources := set n | n in live && indegree[n] == 0;
        assert Elements([]) == {};
        assert x in sources <==> indegree[x] == 0;
      }
      NoIncoming(edges, live, x);
      var e :| e in edges && e.src in live && e.dst == x;
      assert (e.src, x) in Arcs(edges);
    }
    NoSourceMeansCycle(live, Arcs(edges));
  }

  /** The inner loop of Kahn's algorithm: the popped node's out-edges stop
      counting, and every node whose last live in-edge went away is queued. */
  method Release(ids: set<Node>, edges: seq<Edge>, ghost live: set<Node>, current: Node,
                 successors: seq<Node>, indegree: map<Node, int>, queue: seq<Node>)
    returns (indegree': map<Node, int>, queue': seq<Node>)
    requires KnownEnds(edges, ids) && live <= ids && current in live
    requires successors == Targets(edges, current)
    requires Counts(indegree, ids, edges, live) && Incoming(edges, live, current) == 0
    requires Ready(queue, live - {current}, indegree)
    ensures Counts(indegree', ids, edges, live - {current})
    ensures Ready(queue', live - {current}, indegree')
  {
    assert Halfway(indegree, ids, edges, live, []) && Sealed(ids, edges, live);
    assert successors[..0] == [];
    hide Ready, Counts, Incoming, Targets, Halfway, KnownEnds, Sealed;
    indegree', queue' := indegree, queue;
    for j := 0 to |successors|
      invariant Halfway(indegree', ids, edges, live, successors[..j])
      invariant Ready(queue', live - {current}, indegree')
    {
      var s := successors[j];
      ReleaseStep(ids, edges, live, current, j, indegree', queue');
      indegree' := indegree'[s := indegree'[s] - 1];
      if indegree'[s] == 0 { queue' := queue' + [s]; }
    }
    assert successors[..|successors|] == successors;
    HalfwayDone(indegree', ids, edges, live, current);
  }

  lemma {:induction false} HalfwayDone(indegree: map<Node, int>, ids: set<Node>, edges: seq<Edge>, live: set<Node>, current: Node)
    requires Halfway(indegree, ids, edges, live, Targets(edges, current)) && current in live
    requires Sealed(ids, edges, live)
    requires Incoming(edges, live, current) == 0
    ensures Counts(indegree, ids, edges, live - {current})
  {
    forall n ensures Incoming(edges, live, n) == Incoming(edges, live - {current}, n) + multiset(Targets(edges, current))[n] {
      RemovingASource(edges, live, current, n);
    }
  }

  /** The table once the targets in `gone` have been decremented. */
  ghost predicate Halfway(indegree: map<Node, int>, ids: set<Node>, edges: seq<Edge>, live: set<Node>, gone: seq<Node>) {
    indegree.Keys == ids
    && forall n :: n in ids ==> indegree[n] == Incoming(edges, live, n) - multiset(gone)[n]
  }

  lemma {:induction false} ReleaseStep(ids: set<Node>, edges: seq<Edge>, live: set<Node>, current: Node, j: nat,
                    indegree: map<Node, int>, queue: seq<Node>)
    requires KnownEnds(edges, ids) && current in live
    requires Sealed(ids, edges, live) && Incoming(edges, live, current) == 0
    requires j < |Targets(edges, current)|
    requires Halfway(indegree, ids, edges, live, Targets(edges, current)[..j])
    requires Ready(queue, live - {current}, indegree)
    ensures var t := Targets(edges, current); t[j] in ids
    ensures var t := Targets(edges, current);
      var next := indegree[t[j] := indegree[t[j]] - 1];
      && Halfway(next, ids, edges, live, t[..j + 1])
      && Ready(if next[t[j]] == 0 then queue + [t[j]] else queue, live - {current}, next)
  {
    hide Targets, Incoming, KnownEnds, Sealed;
    var t := Targets(edges, current);
    TargetIsLive(ids, edges, live, current, j, indegree);
    HalfwayStep(indegree, ids, edges, live, t[..j], t[j]);
    assert t[..j + 1] == t[..j] + [t[j]];
    DecrementReady(queue, live - {current}, indegree, t[j]);
  }

  lemma HalfwayStep(indegree: map<Node, int>, ids: set<Node>, edges: seq<Edge>, live: set<Node>, gone: seq<Node>, s: Node)
    requires Halfway(indegree, ids, edges, live, gone) && s in ids
    ensures Halfway(indegree[s := indegree[s] - 1], ids, edges, live, gone + [s])
  {
    assert multiset(gone + [s]) == multiset(gone) + multiset{s};
  }

  /** A target of the popped node still has a live in-edge to give up, so it is
      live itself and different from the popped node. */
  lemma {:induction false} TargetIsLive(ids: set<Node>, edges: seq<Edge>, live: set<Node>, current: Node, j: nat, indegree: map<Node, int>)
    requires KnownEnds(edges, ids) && current in live
    requires Sealed(ids, edges, live)
    requires Incoming(edges, live, current) == 0
    requires j < |Targets(edges, current)|
    requires Halfway(indegree, ids, edges, live, Targets(edges, current)[..j])
    ensures var t := Targets(edges, current);
      t[j] in ids && t[j] in live - {current} && indegree[t[j]] > 0
  {
    hide Targets, Incoming, KnownEnds;
    var t := Targets(edges, current);
    TargetsAreKnown(edges, ids, current);
    assert t[j] in Elements(t);
    assert t == t[..j] + [t[j]] + t[j + 1..];
    RemovingASource(edges, live, current, t[j]);
  }

  lemma DecrementReady(queue: seq<Node>, live: set<Node>, indegree: map<Node, int>, s: Node)
    requires Ready(queue, live, indegree) && s in live && indegree[s] > 0
    ensures var next := indegree[s := indegree[s] - 1];
      if next[s] == 0 then Ready(queue + [s], live, next) else Ready(queue, live, next)
  {
    var next := indegree[s := indegree[s] - 1];
    assert s !in Elements(queue);
    if next[s] == 0 {
      PushDistinct(queue, s);
    }
  }

  /** The reported error is the first one in the order of the checks. */
  ghost predicate Explains(w: Workflow, error: GraphError) {
    var ids := Ids(w.nodes);
    var named := w.nodes != [] && UniqueIds(w.nodes);
    var entered := named && w.entrypoint in ids;
    match error
    case NoNodes => w.nodes == []
    case DuplicateId(_) => w.nodes != [] && !UniqueIds(w.nodes)
    case UnknownEntrypoint => named && w.entrypoint !in ids
    case UnknownSource(k) => entered && FirstBadEdge(w.edges, ids, k) && w.edges[k].src !in ids
    case UnknownTarget(k) => entered && FirstBadEdge(w.edges, ids, k) && w.edges[k].src in ids && w.edges[k].dst !in ids
    case SelfLoop(k) => entered && FirstBadEdge(w.edges, ids, k) && w.edges[k].src in ids && w.edges[k].dst == w.edges[k].src
    case HasCycle => entered && (forall e :: e in w.edges ==> GoodEdge(e, ids)) && !Acyclic(Arcs(w.edges))
  }

  ghost predicate FirstBadEdge(edges: seq<Edge>, ids: set<Node>, k: nat) {
    k < |edges| && !GoodEdge(edges[k], ids) && forall i :: 0 <= i < k ==> GoodEdge(edges[i], ids)
  }

  method ValidateGraph(w: Workflow) returns (r: Option<GraphError>)
    ensures r.None? <==> WellFormed(w)
    ensures r.Some? ==> Explains(w, r.value)
  {
    var ids := CollectUniqueNodeIds(w.nodes);
    if ids.Err? { return Some(ids.error); }
    if w.entrypoint !in ids.value { return Some(UnknownEntrypoint); }
    var bad := ValidateEdges(w.edges, ids.value);
    if bad.Some? {
      if bad.value.SelfLoop? { SelfLoopIsCycle(w.edges, bad.value.at); }
      return bad;
    }
    assert forall i :: 0 <= i < |w.edges| ==> GoodEdge(w.edges[i], ids.value);
    var ok, _ := CheckAcyclic(ids.value, w.edges);
    r := if ok then None else Some(HasCycle);
  }

  lemma SelfLoopIsCycle(edges: seq<Edge>, i: nat)
    requires i < |edges| && edges[i].src == edges[i].dst
    ensures !Acyclic(Arcs(edges))
  {
    var n := edges[i].src;
    assert edges[i] in edges;
    assert IsCycle(Arcs(edges), [n, n]);
  }
}
