/** The layered layout of the workflow editor
    (frontend/src/features/editor/lib/layout.ts). */
module BfsLayout {
  import opened Wrappers
  import opened Digraphs

  const NODE_WIDTH := 200
  const NODE_HEIGHT := 80
  const HORIZONTAL_GAP := 60
  const VERTICAL_GAP := 100

  datatype Position = Position(x: int, y: int)
  datatype FlowNode = FlowNode(id: Node, isEntrypoint: bool, position: Position)
  datatype FlowEdge = FlowEdge(source: Node, target: Node)

  function Ids(nodes: seq<FlowNode>): (r: set<Node>) {
    set n | n in nodes :: n.id
  }

  /** Edges whose source is not a node are ignored; their targets need not be nodes. */
  function FlowArcs(nodes: seq<FlowNode>, edges: seq<FlowEdge>): (r: set<Arc>) {
    set e | e in edges && e.source in Ids(nodes) :: (e.source, e.target)
  }

  function Children(edges: seq<FlowEdge>, n: Node): seq<Node> {
    if edges == [] then []
    else
      var e := edges[|edges| - 1];
      Children(edges[..|edges| - 1], n) + if e.source == n then [e.target] else []
  }

  lemma {:induction false} ChildrenAre(edges: seq<FlowEdge>, n: Node, x: Node)
    ensures x in Children(edges, n) <==> FlowEdge(n, x) in edges
  {
    if edges != [] {
      ChildrenAre(edges[..|edges| - 1], n, x);
      assert edges == edges[..|edges| - 1] + [edges[|edges| - 1]];
    }
  }

  function Entry(nodes: seq<FlowNode>): (n: Node)
    requires nodes != []
  {
    if exists i :: 0 <= i < |nodes| && nodes[i].isEntrypoint then FirstFlagged(nodes) else nodes[0].id
  }

  function FirstFlagged(nodes: seq<FlowNode>): Node
    requires exists i :: 0 <= i < |nodes| && nodes[i].isEntrypoint
  {
    if nodes[0].isEntrypoint then nodes[0].id else FirstFlagged(nodes[1..])
  }

  // ---- Breadth-first levels ----

  /** A level map with its insertion order; the first `done` entries have been
      taken off the queue, so the queue is the rest of the order. */
  datatype Bfs = Bfs(order: seq<Node>, levels: map<Node, nat>, done: nat)

  function Discover(b: Bfs, children: seq<Node>, level: nat): (c: Bfs)
    ensures b.order <= c.order && c.done == b.done
    decreases |children|
  {
    if children == [] then b
    else if children[0] in b.levels then Discover(b, children[1..], level)
    else Discover(Bfs(b.order + [children[0]], b.levels[children[0] := level], b.done), children[1..], level)
  }

  ghost predicate Wf(b: Bfs) {
    b.levels.Keys == Elements(b.order) && Distinct(b.order) && b.done <= |b.order|
  }

  /** `after` extends `before` with the nodes of `added`, all of them at `level`. */
  ghost predicate Grew(before: map<Node, nat>, after: map<Node, nat>, added: set<Node>, level: nat) {
    && after.Keys == before.Keys + added
    && (forall n :: n in before ==> after[n] == before[n])
    && (forall n :: n in after && n !in before ==> after[n] == level)
  }

  lemma {:induction false} DiscoverSpec(b: Bfs, children: seq<Node>, level: nat)
    requires Wf(b)
    ensures var c := Discover(b, children, level);
      Wf(c) && Grew(b.levels, c.levels, Elements(children), level)
    decreases |children|
  {
    if children != [] {
      assert Elements(children) == {children[0]} + Elements(children[1..]) by {
        assert children == [children[0]] + children[1..];
      }
      if children[0] in b.levels {
        DiscoverSpec(b, children[1..], level);
      } else {
        PushDistinct(b.order, children[0]);
        DiscoverSpec(Bfs(b.order + [children[0]], b.levels[children[0] := level], b.done), children[1..], level);
      }
    }
  }

  /** Everything that can be given a level. */
  function Universe(nodes: seq<FlowNode>, edges: seq<FlowEdge>): (r: set<Node>) {
    Ids(nodes) + set e | e in edges :: e.target
  }

  /** Out-neighbours of a node; a target that is no node has none. */
  function ChildList(nodes: seq<FlowNode>, edges: seq<FlowEdge>, n: Node): seq<Node> {
    if n in Ids(nodes) then Children(edges, n) else []
  }

  function Step(nodes: seq<FlowNode>, edges: seq<FlowEdge>, b: Bfs): (c: Bfs)
    requires b.done < |b.order| && b.order[b.done] in b.levels
  {
    var current := b.order[b.done];
    Discover(b, ChildList(nodes, edges, current), b.levels[current] + 1).(done := b.done + 1)
  }

  ghost predicate Within(b: Bfs, nodes: seq<FlowNode>, edges: seq<FlowEdge>) {
    Wf(b) && Elements(b.order) <= Universe(nodes, edges)
  }

  lemma HeadHasLevel(b: Bfs)
    requires Wf(b) && b.done < |b.order|
    ensures b.order[b.done] in b.levels
  {
    assert b.order[b.done] in Elements(b.order);
  }

  /** What one turn of the loop does to the level map. */
  lemma StepSpec(nodes: seq<FlowNode>, edges: seq<FlowEdge>, b: Bfs)
    requires Wf(b) && b.done < |b.order|
    ensures b.order[b.done] in b.levels
    ensures var current := b.order[b.done]; var c := Step(nodes, edges, b);
      && Wf(c) && b.order <= c.order && c.done == b.done + 1
      && Grew(b.levels, c.levels, Elements(ChildList(nodes, edges, current)), b.levels[current] + 1)
  {
    HeadHasLevel(b);
    var current := b.order[b.done];
    DiscoverSpec(b, ChildList(nodes, edges, current), b.levels[current] + 1);
  }

  lemma ChildrenAreHeads(nodes: seq<FlowNode>, edges: seq<FlowEdge>, n: Node)
    ensures Elements(ChildList(nodes, edges, n)) == Heads(FlowArcs(nodes, edges), {n})
  {
    forall x ensures n in Ids(nodes) && x in Children(edges, n) <==> x in Heads(FlowArcs(nodes, edges), {n}) {
      ChildrenAre(edges, n, x);
      if FlowEdge(n, x) in edges && n in Ids(nodes) {
        assert (n, x) in FlowArcs(nodes, edges);
      }
    }
  }

  lemma StepWithin(nodes: seq<FlowNode>, edges: seq<FlowEdge>, b: Bfs)
    requires Within(b, nodes, edges) && b.done < |b.order|
    ensures b.order[b.done] in b.levels
    ensures Within(Step(nodes, edges, b), nodes, edges)
    ensures |Universe(nodes, edges)| >= |Step(nodes, edges, b).order|
  {
    StepSpec(nodes, edges, b);
    hide Distinct, Step, Discover, ChildList;
    var c := Step(nodes, edges, b);
    ChildrenAreHeads(nodes, edges, b.order[b.done]);
    assert Heads(FlowArcs(nodes, edges), {b.order[b.done]}) <= Universe(nodes, edges);
    DistinctCardinality(c.order);
    SubsetSize(Elements(c.order), Universe(nodes, edges));
  }

  ghost function Explore(nodes: seq<FlowNode>, edges: seq<FlowEdge>, b: Bfs): (c: Bfs)
    requires Within(b, nodes, edges)
    ensures Within(c, nodes, edges) && c.done == |c.order|
    decreases |Universe(nodes, edges)| - b.done
  {
    if b.done == |b.order| then b
    else
      StepWithin(nodes, edges, b);
      Explore(nodes, edges, Step(nodes, edges, b))
  }

  function Start(root: Node): (b: Bfs)
    ensures Wf(b)
  {
    assert Elements([root]) == {root};
    Bfs([root], map[root := 0], 0)
  }

  // ---- Levels are shortest distances ----

  /** The nodes taken off the queue and the nearer part of the queue fill the
      ball of radius `d`; every other discovered node lies one arc further out. */
  ghost predicate Layered(levels: map<Node, nat>, taken: set<Node>, near: set<Node>, arcs: set<Arc>, root: Node, d: nat) {
    && taken + near == Ball(arcs, root, d)
    && Ball(arcs, root, d) <= levels.Keys <= Ball(arcs, root, d + 1)
    && (forall n :: n in Ball(arcs, root, d) ==> AtDistance(arcs, root, n, levels[n]))
    && (forall n :: n in near ==> levels[n] == d)
    && (forall n :: n in levels && n !in Ball(arcs, root, d) ==> levels[n] == d + 1)
    && Heads(arcs, taken) <= levels.Keys
  }

  lemma NextLayer(levels: map<Node, nat>, taken: set<Node>, arcs: set<Arc>, root: Node, d: nat)
    requires Layered(levels, taken, {}, arcs, root, d)
    ensures Layered(levels, taken, levels.Keys - taken, arcs, root, d + 1)
  {
    FullBall(levels, taken, arcs, root, d);
    BallGrows(arcs, root, d + 1, d + 2);
    ExactNext(levels, taken, arcs, root, d);
    assert taken + (levels.Keys - taken) == levels.Keys;
  }

  lemma ExactNext(levels: map<Node, nat>, taken: set<Node>, arcs: set<Arc>, root: Node, d: nat)
    requires Layered(levels, taken, {}, arcs, root, d)
    ensures forall n :: n in levels ==> AtDistance(arcs, root, n, levels[n])
  {
    forall n | n in levels ensures AtDistance(arcs, root, n, levels[n]) {
      if n !in Ball(arcs, root, d) { OnRim(arcs, root, n, d); }
    }
  }

  lemma FullBall(levels: map<Node, nat>, taken: set<Node>, arcs: set<Arc>, root: Node, d: nat)
    requires Layered(levels, taken, {}, arcs, root, d)
    ensures taken == Ball(arcs, root, d) && levels.Keys == Ball(arcs, root, d + 1)
  {
    assert taken + {} == taken;
    assert Ball(arcs, root, d + 1) == Ball(arcs, root, d) + Heads(arcs, Ball(arcs, root, d));
  }

  lemma OnRim(arcs: set<Arc>, root: Node, n: Node, d: nat)
    requires n in Ball(arcs, root, d + 1) && n !in Ball(arcs, root, d)
    ensures AtDistance(arcs, root, n, d + 1)
  {
  }

  lemma TakeNext(levels: map<Node, nat>, levels': map<Node, nat>, taken: set<Node>, near: set<Node>,
                 arcs: set<Arc>, root: Node, d: nat, n: Node)
    requires Layered(levels, taken, near, arcs, root, d) && n in near
    requires Grew(levels, levels', Heads(arcs, {n}), d + 1)
    ensures Layered(levels', taken + {n}, near - {n}, arcs, root, d)
  {
    assert taken + {n} + (near - {n}) == taken + near;
    assert Heads(arcs, taken + {n}) == Heads(arcs, taken) + Heads(arcs, {n});
    assert Heads(arcs, {n}) <= Ball(arcs, root, d + 1);
  }

  lemma AtLevel(levels: map<Node, nat>, taken: set<Node>, near: set<Node>, arcs: set<Arc>, root: Node, d: nat, n: Node)
    requires Layered(levels, taken, near, arcs, root, d) && n in near
    ensures n in levels && levels[n] == d
  {
  }

  lemma LastLayer(levels: map<Node, nat>, arcs: set<Arc>, root: Node, d: nat)
    requires Layered(levels, levels.Keys, {}, arcs, root, d)
    ensures IsReachableSet(arcs, root, levels.Keys)
    ensures forall n :: n in levels ==> AtDistance(arcs, root, n, levels[n])
  {
    BallGrows(arcs, root, 0, d);
    forall t | root in t && Closed(arcs, t) ensures levels.Keys <= t {
      BallInClosed(arcs, root, d, t);
    }
    forall a | a in arcs && a.0 in levels.Keys ensures a.1 in levels.Keys {
      assert a.1 in Heads(arcs, levels.Keys);
    }
  }

  ghost function TakenOff(b: Bfs): set<Node>
    requires Wf(b)
  {
    Elements(b.order[..b.done])
  }

  lemma TakenStep(b: Bfs, c: Bfs)
    requires Wf(b) && Wf(c) && b.order <= c.order && b.done < |b.order| && c.done == b.done + 1
    ensures TakenOff(c) == TakenOff(b) + {b.order[b.done]}
  {
    assert c.order[..c.done] == b.order[..b.done] + [b.order[b.done]];
  }

  lemma QueueIsRest(b: Bfs)
    requires Wf(b)
    ensures TakenOff(b) <= b.levels.Keys
    ensures b.done < |b.order| ==> b.order[b.done] in b.levels.Keys - TakenOff(b)
    ensures b.done == |b.order| ==> TakenOff(b) == b.levels.Keys
  {
    assert forall x :: x in b.order[..b.done] ==> x in b.order;
    if b.done < |b.order| {
      assert b.order[b.done] in Elements(b.order);
    } else {
      assert b.order[..b.done] == b.order;
    }
  }

  lemma {:induction false} ExploreLayered(nodes: seq<FlowNode>, edges: seq<FlowEdge>, b: Bfs, root: Node, near: seq<Node>, d: nat)
    requires Within(b, nodes, edges)
    requires near <= b.order[b.done..]
    requires Layered(b.levels, TakenOff(b), Elements(near), FlowArcs(nodes, edges), root, d)
    ensures var c := Explore(nodes, edges, b);
      && IsReachableSet(FlowArcs(nodes, edges), root, c.levels.Keys)
      && forall n :: n in c.levels ==> AtDistance(FlowArcs(nodes, edges), root, n, c.levels[n])
    decreases |Universe(nodes, edges)| - b.done, |b.order| - b.done - |near|
  {
    hide Layered, Step, FlowArcs, ChildList, Grew, AtDistance, IsReachableSet, Heads, Distinct, Elements;
    var arcs := FlowArcs(nodes, edges);
    QueueIsRest(b);
    if near != [] {
      StepWithin(nodes, edges, b);
      StepSpec(nodes, edges, b);
      ChildrenAreHeads(nodes, edges, b.order[b.done]);
      var c := Step(nodes, edges, b);
      ExploreStep(nodes, edges, b, near);
      AtLevel(b.levels, TakenOff(b), Elements(near), arcs, root, d, near[0]);
      TakeNext(b.levels, c.levels, TakenOff(b), Elements(near), arcs, root, d, near[0]);
      TakenStep(b, c);
      ExploreLayered(nodes, edges, c, root, near[1..], d);
    } else if b.done < |b.order| {
      EmptyElements(near);
      NextLayer(b.levels, TakenOff(b), arcs, root, d);
      RestElements(b);
      ExploreLayered(nodes, edges, b, root, b.order[b.done..], d + 1);
    } else {
      EmptyElements(near);
      LastLayer(b.levels, arcs, root, d);
    }
  }

  lemma ExploreStep(nodes: seq<FlowNode>, edges: seq<FlowEdge>, b: Bfs, near: seq<Node>)
    requires Wf(b) && near != [] && near <= b.order[b.done..]
    ensures b.done < |b.order| && b.order[b.done] == near[0]
    ensures near[0] in Elements(near) && Elements(near[1..]) == Elements(near) - {near[0]}
    ensures forall c: Bfs :: Wf(c) && b.order <= c.order && c.done == b.done + 1 ==> near[1..] <= c.order[c.done..]
  {
    assert near[0] == b.order[b.done..][0];
    assert near == [near[0]] + near[1..];
    forall i | 1 <= i < |near| ensures near[i] != near[0] {
      assert near[i] == b.order[b.done..][i] == b.order[b.done + i];
    }
  }

  lemma EmptyElements(s: seq<Node>)
    requires s == []
    ensures Elements(s) == {}
  {
  }

  lemma RestElements(b: Bfs)
    requires Wf(b)
    ensures Elements(b.order[b.done..]) == b.levels.Keys - TakenOff(b)
  {
    assert b.order == b.order[..b.done] + b.order[b.done..];
    forall i, j | 0 <= i < b.done <= j < |b.order| ensures b.order[i] != b.order[j] {}
  }

  // ---- Rows and positions ----

  function IdList(nodes: seq<FlowNode>): (r: seq<Node>) {
    seq(|nodes|, i requires 0 <= i < |nodes| => nodes[i].id)
  }

  /** The finished level map: reachable nodes first, then the others at level 0. */
  ghost function FinalLevels(nodes: seq<FlowNode>, edges: seq<FlowEdge>): (b: Bfs)
    requires nodes != []
    ensures Wf(b) && Ids(nodes) <= b.levels.Keys
  {
    StartWithin(nodes, edges);
    var reached := Explore(nodes, edges, Start(Entry(nodes)));
    DiscoverSpec(reached, IdList(nodes), 0);
    assert Ids(nodes) <= Elements(IdList(nodes)) by {
      forall n | n in nodes ensures n.id in IdList(nodes) {
        var i :| 0 <= i < |nodes| && nodes[i] == n;
        assert IdList(nodes)[i] == n.id;
      }
    }
    Discover(reached, IdList(nodes), 0)
  }

  /** The entry is the first node with the flag, or the first node if none has it. */
  lemma {:induction false} EntryExactly(nodes: seq<FlowNode>, i: nat)
    requires i < |nodes| && forall j :: 0 <= j < i ==> !nodes[j].isEntrypoint
    ensures nodes[i].isEntrypoint ==> Entry(nodes) == nodes[i].id
    ensures !nodes[i].isEntrypoint && i == |nodes| - 1 ==> Entry(nodes) == nodes[0].id
  {
    if nodes[i].isEntrypoint { FirstFlag(nodes, i); }
  }

  lemma {:induction false} FirstFlag(nodes: seq<FlowNode>, i: nat)
    requires i < |nodes| && nodes[i].isEntrypoint
      && forall j :: 0 <= j < i ==> !nodes[j].isEntrypoint
    ensures FirstFlagged(nodes) == nodes[i].id
  {
    if i > 0 {
      assert nodes[1..][i - 1] == nodes[i];
      forall j | 0 <= j < i - 1 ensures !nodes[1..][j].isEntrypoint { assert nodes[1..][j] == nodes[j + 1]; }
      FirstFlag(nodes[1..], i - 1);
    }
  }

  lemma {:induction false} EntryIsNode(nodes: seq<FlowNode>)
    requires nodes != []
    ensures Entry(nodes) in Ids(nodes)
  {
    if exists i :: 0 <= i < |nodes| && nodes[i].isEntrypoint {
      FlaggedIsNode(nodes);
    }
  }

  lemma {:induction false} FlaggedIsNode(nodes: seq<FlowNode>)
    requires exists i :: 0 <= i < |nodes| && nodes[i].isEntrypoint
    ensures FirstFlagged(nodes) in Ids(nodes)
  {
    if !nodes[0].isEntrypoint {
      assert nodes == [nodes[0]] + nodes[1..];
      FlaggedIsNode(nodes[1..]);
    }
  }

  lemma StartWithin(nodes: seq<FlowNode>, edges: seq<FlowEdge>)
    requires nodes != []
    ensures Within(Start(Entry(nodes)), nodes, edges)
  {
    EntryIsNode(nodes);
    assert Elements([Entry(nodes)]) == {Entry(nodes)};
  }

  /** Nodes of one level, in the order in which they got it. */
  function Row(order: seq<Node>, levels: map<Node, nat>, l: nat): (r: seq<Node>)
    requires Elements(order) <= levels.Keys
  {
    if order == [] then []
    else
      var k := |order| - 1;
      assert order[k] in Elements(order);
      Row(order[..k], levels, l) + if levels[order[k]] == l then [order[k]] else []
  }

  lemma {:induction false} RowSpec(order: seq<Node>, levels: map<Node, nat>, l: nat)
    requires Elements(order) <= levels.Keys && Distinct(order)
    ensures Distinct(Row(order, levels, l))
    ensures forall n :: n in Row(order, levels, l) <==> n in Elements(order) && levels[n] == l
  {
    if order != [] {
      var k := |order| - 1;
      RowSpec(order[..k], levels, l);
      assert Elements(order) == Elements(order[..k]) + {order[k]};
      assert order[k] !in order[..k];
    }
  }

  function IndexOf(row: seq<Node>, n: Node): (i: nat)
    requires n in row
    ensures i < |row| && row[i] == n
  {
    if row[0] == n then 0 else 1 + IndexOf(row[1..], n)
  }

  function TotalWidth(count: nat): int {
    count * NODE_WIDTH + (count - 1) * HORIZONTAL_GAP
  }

  /** Position of the `i`-th of `count` boxes in the row of a level. */
  function Slot(count: nat, i: nat, level: nat): Position {
    Position(-(TotalWidth(count) / 2) + i * (NODE_WIDTH + HORIZONTAL_GAP), level * (NODE_HEIGHT + VERTICAL_GAP))
  }

  ghost function PositionOf(b: Bfs, n: Node): Position
    requires Wf(b) && n in b.levels
  {
    RowSpec(b.order, b.levels, b.levels[n]);
    var row := Row(b.order, b.levels, b.levels[n]);
    Slot(|row|, IndexOf(row, n), b.levels[n])
  }

  ghost function Layout(nodes: seq<FlowNode>, edges: seq<FlowEdge>): (out: seq<FlowNode>)
    requires nodes != []
    ensures |out| == |nodes|
    ensures forall i :: 0 <= i < |nodes| ==> out[i].id == nodes[i].id && out[i].isEntrypoint == nodes[i].isEntrypoint
  {
    var b := FinalLevels(nodes, edges);
    seq(|nodes|, i requires 0 <= i < |nodes| => nodes[i].(position := PositionOf(b, nodes[i].id)))
  }

  // ---- The algorithm ----

  method ApplyBfsLayout(nodes: seq<FlowNode>, edges: seq<FlowEdge>) returns (out: seq<FlowNode>)
    ensures out == if nodes == [] then [] else Layout(nodes, edges)
  {
    if nodes == [] { return []; }
    var adjacency := BuildAdjacency(nodes, edges);
    var entry := FindEntry(nodes);
    var order, levels := AssignLevels(nodes, edges, adjacency, entry);
    var groups := GroupByLevel(order, levels);
    var positions := Place(groups, FinalLevels(nodes, edges));
    out := MovePlaced(nodes, edges, positions);
  }

  method MovePlaced(nodes: seq<FlowNode>, edges: seq<FlowEdge>, positions: map<Node, Position>) returns (out: seq<FlowNode>)
    requires nodes != []
    requires var b := FinalLevels(nodes, edges);
      positions.Keys == b.levels.Keys && forall n :: n in positions ==> positions[n] == PositionOf(b, n)
    ensures out == Layout(nodes, edges)
  {
    hide Layout, FinalLevels, PositionOf, Ids;
    ghost var whole := Layout(nodes, edges);
    LayoutFrom(nodes, edges, positions);
    out := [];
    for i := 0 to |nodes|
      invariant |out| == i && out == whole[..i]
    {
      var node := nodes[i];
      assert whole[..i + 1] == whole[..i] + [whole[i]];
      out := out + [if node.id in positions then node.(position := positions[node.id]) else node];
    }
  }

  lemma LayoutFrom(nodes: seq<FlowNode>, edges: seq<FlowEdge>, positions: map<Node, Position>)
    requires nodes != []
    requires var b := FinalLevels(nodes, edges);
      positions.Keys == b.levels.Keys && forall n :: n in positions ==> positions[n] == PositionOf(b, n)
    ensures forall i :: 0 <= i < |nodes| ==>
      nodes[i].id in positions && Layout(nodes, edges)[i] == nodes[i].(position := positions[nodes[i].id])
  {
    forall i | 0 <= i < |nodes| ensures nodes[i].id in FinalLevels(nodes, edges).levels {
      assert nodes[i] in nodes && nodes[i].id in Ids(nodes);
    }
  }

  method BuildAdjacency(nodes: seq<FlowNode>, edges: seq<FlowEdge>) returns (adjacency: map<Node, seq<Node>>)
    ensures adjacency.Keys == Ids(nodes)
    ensures forall n :: n in adjacency ==> adjacency[n] == Children(edges, n)
  {
    adjacency := map[];
    for i := 0 to |nodes|
      invariant adjacency.Keys == Ids(nodes[..i]) && forall n :: n in adjacency ==> adjacency[n] == []
    {
      assert nodes[..i + 1] == nodes[..i] + [nodes[i]];
      adjacency := adjacency[nodes[i].id := []];
    }
    assert nodes[..|nodes|] == nodes;
    for i := 0 to |edges|
      invariant adjacency.Keys == Ids(nodes)
      invariant forall n :: n in adjacency ==> adjacency[n] == Children(edges[..i], n)
    {
      var e := edges[i];
      assert edges[..i + 1][..i] == edges[..i];
      if e.source in adjacency {
        adjacency := adjacency[e.source := adjacency[e.source] + [e.target]];
      }
    }
    assert edges[..|edges|] == edges;
  }

  method FindEntry(nodes: seq<FlowNode>) returns (n: Node)
    requires nodes != []
    ensures n == Entry(nodes)
  {
    for i := 0 to |nodes|
      invariant forall k :: 0 <= k < i ==> !nodes[k].isEntrypoint
      invariant (exists k :: 0 <= k < |nodes| && nodes[k].isEntrypoint) ==>
        (exists k :: 0 <= k < |nodes[i..]| && nodes[i..][k].isEntrypoint) && FirstFlagged(nodes[i..]) == FirstFlagged(nodes)
    {
      assert nodes[i..][0] == nodes[i] && nodes[i..][1..] == nodes[i + 1..];
      if nodes[i].isEntrypoint { return nodes[i].id; }
    }
    return nodes[0].id;
  }

  method AssignLevels(nodes: seq<FlowNode>, edges: seq<FlowEdge>, adjacency: map<Node, seq<Node>>, entry: Node)
    returns (order: seq<Node>, levels: map<Node, nat>)
    requires nodes != [] && entry == Entry(nodes)
    requires adjacency.Keys == Ids(nodes)
    requires forall n :: n in adjacency ==> adjacency[n] == Children(edges, n)
    ensures order == FinalLevels(nodes, edges).order
      && levels == FinalLevels(nodes, edges).levels
  {
    StartWithin(nodes, edges);
    var b := Flood(nodes, edges, adjacency, entry);
    var added;
    b, added := DiscoverAll(b, IdList(nodes), 0);
    order, levels := b.order, b.levels;
  }

  /** The queue loop. */
  method Flood(nodes: seq<FlowNode>, edges: seq<FlowEdge>, adjacency: map<Node, seq<Node>>, entry: Node) returns (b: Bfs)
    requires Within(Start(entry), nodes, edges)
    requires adjacency.Keys == Ids(nodes)
    requires forall n :: n in adjacency ==> adjacency[n] == Children(edges, n)
    ensures b == Explore(nodes, edges, Start(entry))
  {
    b := Start(entry);
    var queue := [entry];
    assert b.order[b.done..] == queue;
    hide Children, Universe, Discover, Distinct, Ids, Elements, Start, Within, Explore;
    while queue != []
      invariant b.done <= |b.order| && queue == b.order[b.done..]
      invariant Within(b, nodes, edges)
      invariant Explore(nodes, edges, b) == Explore(nodes, edges, Start(entry))
      decreases |Universe(nodes, edges)| - b.done
    {
      FloodStep(nodes, edges, b);
      b, queue := Turn(nodes, edges, adjacency, b, queue);
    }
    ExploreDone(nodes, edges, b);
  }

  /** The body of the queue loop. */
  method Turn(nodes: seq<FlowNode>, edges: seq<FlowEdge>, adjacency: map<Node, seq<Node>>, b: Bfs, queue: seq<Node>)
    returns (c: Bfs, rest: seq<Node>)
    requires b.done < |b.order| && queue == b.order[b.done..] && b.order[b.done] in b.levels
    requires adjacency.Keys == Ids(nodes)
    requires forall n :: n in adjacency ==> adjacency[n] == Children(edges, n)
    ensures c == Step(nodes, edges, b)
    ensures c.done <= |c.order| && rest == c.order[c.done..]
  {
    hide Children, Discover, Ids;
    var current := queue[0];
    var found;
    c, found := DiscoverAll(b, if current in adjacency then adjacency[current] else [], b.levels[current] + 1);
    QueueAfter(b.order, found, b.done);
    rest := queue[1..] + found;
    c := c.(done := c.done + 1);
  }

  lemma {:induction false} ExploreDone(nodes: seq<FlowNode>, edges: seq<FlowEdge>, b: Bfs)
    requires Within(b, nodes, edges) && b.done == |b.order|
    ensures Explore(nodes, edges, b) == b
  {
  }

  lemma {:induction false} FloodStep(nodes: seq<FlowNode>, edges: seq<FlowEdge>, b: Bfs)
    requires Within(b, nodes, edges) && b.done < |b.order|
    ensures b.order[b.done] in b.levels && b.done < |Universe(nodes, edges)|
    ensures var c := Step(nodes, edges, b);
      Within(c, nodes, edges) && c.done <= |c.order| && Explore(nodes, edges, c) == Explore(nodes, edges, b)
  {
    StepWithin(nodes, edges, b);
  }

  lemma QueueAfter(order: seq<Node>, found: seq<Node>, done: nat)
    requires done < |order|
    ensures order[done..][1..] + found == (order + found)[done + 1..]
  {
  }

  /** Gives `level` to every listed node that has none yet. */
  method DiscoverAll(b: Bfs, children: seq<Node>, level: nat) returns (c: Bfs, found: seq<Node>)
    ensures c == Discover(b, children, level)
    ensures c.order == b.order + found
  {
    c, found := b, [];
    for i := 0 to |children|
      invariant Discover(c, children[i..], level) == Discover(b, children, level)
      invariant c.order == b.order + found
    {
      var child := children[i];
      assert children[i..][0] == child && children[i..][1..] == children[i + 1..];
      if child !in c.levels {
        c := Bfs(c.order + [child], c.levels[child := level], c.done);
        found := found + [child];
      }
    }
  }

  method GroupByLevel(order: seq<Node>, levels: map<Node, nat>) returns (groups: map<nat, seq<Node>>)
    requires Elements(order) <= levels.Keys
    ensures forall l: nat :: l in groups <==> Row(order, levels, l) != []
    ensures forall l :: l in groups ==> groups[l] == Row(order, levels, l)
  {
    groups := map[];
    for i := 0 to |order|
      invariant Elements(order[..i]) <= levels.Keys
      invariant forall l: nat :: l in groups <==> Row(order[..i], levels, l) != []
      invariant forall l :: l in groups ==> groups[l] == Row(order[..i], levels, l)
    {
      assert order[..i + 1][..i] == order[..i];
      assert order[i] in Elements(order);
      var l := levels[order[i]];
      groups := groups[l := if l in groups then groups[l] + [order[i]] else [order[i]]];
    }
    assert order[..|order|] == order;
  }

  method Place(groups: map<nat, seq<Node>>, ghost b: Bfs) returns (positions: map<Node, Position>)
    requires Wf(b)
    requires forall l: nat :: l in groups <==> Row(b.order, b.levels, l) != []
    requires forall l :: l in groups ==> groups[l] == Row(b.order, b.levels, l)
    ensures positions.Keys == b.levels.Keys
    ensures forall n :: n in positions ==> positions[n] == PositionOf(b, n)
  {
    positions := map[];
    var rest := groups.Keys;
    while rest != {}
      invariant rest <= groups.Keys
      invariant positions.Keys == set n | n in b.levels && b.levels[n] in groups.Keys - rest
      invariant WellPlaced(positions, b)
    {
      var l :| l in rest;
      rest := rest - {l};
      positions := PlaceRow(groups[l], l, positions, b);
      RowSpec(b.order, b.levels, l);
    }
    forall n | n in b.levels ensures b.levels[n] in groups {
      RowSpec(b.order, b.levels, b.levels[n]);
    }
  }

  /** Everything placed so far is where it belongs. */
  ghost predicate WellPlaced(positions: map<Node, Position>, b: Bfs)
    requires Wf(b)
  {
    forall n :: n in positions ==> n in b.levels && positions[n] == PositionOf(b, n)
  }

  method PlaceRow(row: seq<Node>, l: nat, before: map<Node, Position>, ghost b: Bfs) returns (positions: map<Node, Position>)
    requires Wf(b) && row == Row(b.order, b.levels, l) && WellPlaced(before, b)
    ensures positions.Keys == before.Keys + Elements(row) && WellPlaced(positions, b)
  {
    hide PositionOf, Row, Elements, Wf, Distinct, WellPlaced;
    positions := before;
    TakeAll(row);
    for i := 0 to |row|
      invariant positions.Keys == before.Keys + Elements(row[..i]) && WellPlaced(positions, b)
    {
      TakeOneMore(row, i);
      PlaceOneMore(b, l, i, positions);
      positions := positions[row[i] := Slot(|row|, i, l)];
    }
  }

  lemma {:induction false} PlaceOneMore(b: Bfs, l: nat, i: nat, positions: map<Node, Position>)
    requires Wf(b) && i < |Row(b.order, b.levels, l)| && WellPlaced(positions, b)
    ensures var row := Row(b.order, b.levels, l);
      WellPlaced(positions[row[i] := Slot(|row|, i, l)], b)
  {
    hide PositionOf, Row, Elements, Wf, Slot;
    RowSlots(b, l);
  }

  lemma TakeOneMore(row: seq<Node>, i: nat)
    requires i < |row|
    ensures Elements(row[..i + 1]) == Elements(row[..i]) + {row[i]}
  {
    assert row[..i + 1] == row[..i] + [row[i]];
  }

  lemma TakeAll(row: seq<Node>)
    ensures Elements(row[..0]) == {} && Elements(row[..|row|]) == Elements(row)
  {
    assert row[..|row|] == row;
  }

  lemma {:induction false} RowSlots(b: Bfs, l: nat)
    requires Wf(b)
    ensures var row := Row(b.order, b.levels, l);
      forall i :: 0 <= i < |row| ==> row[i] in b.levels && PositionOf(b, row[i]) == Slot(|row|, i, l)
  {
    var row := Row(b.order, b.levels, l);
    RowSpec(b.order, b.levels, l);
    forall i | 0 <= i < |row| ensures row[i] in b.levels && PositionOf(b, row[i]) == Slot(|row|, i, l) {
      assert row[i] in row;
      IndexInRow(row, i);
    }
  }

  lemma {:induction false} IndexInRow(row: seq<Node>, i: nat)
    requires Distinct(row) && i < |row|
    ensures IndexOf(row, row[i]) == i
  {
    if i > 0 {
      assert row[i] != row[0];
      assert row[1..][i - 1] == row[i];
      IndexInRow(row[1..], i - 1);
    }
  }

  // ---- What the layout promises ----

  /** The queue loop gives its level to exactly what can be reached. */
  lemma {:induction false} ReachedLevels(nodes: seq<FlowNode>, edges: seq<FlowEdge>)
    requires nodes != []
    ensures Within(Start(Entry(nodes)), nodes, edges)
    ensures var arcs, root := FlowArcs(nodes, edges), Entry(nodes);
      var reached := Explore(nodes, edges, Start(root));
      && IsReachableSet(arcs, root, reached.levels.Keys)
      && forall n :: n in reached.levels ==> AtDistance(arcs, root, n, reached.levels[n])
  {
    var arcs, root := FlowArcs(nodes, edges), Entry(nodes);
    StartWithin(nodes, edges);
    var start := Start(root);
    assert start.order[start.done..] == [root] && start.order[..0] == [];
    assert Layered(start.levels, TakenOff(start), Elements([root]), arcs, root, 0);
    ExploreLayered(nodes, edges, start, root, [root], 0);
  }

  /** Levels are shortest distances from the entry node, 0 for nodes that cannot
      be reached. */
  lemma LevelsAreDistances(nodes: seq<FlowNode>, edges: seq<FlowEdge>, n: Node)
    requires nodes != [] && n in Ids(nodes)
    ensures var arcs := FlowArcs(nodes, edges);
      var level := FinalLevels(nodes, edges).levels[n];
      if exists k: nat :: n in Ball(arcs, Entry(nodes), k) then AtDistance(arcs, Entry(nodes), n, level) else level == 0
  {
    var arcs, root := FlowArcs(nodes, edges), Entry(nodes);
    ReachedLevels(nodes, edges);
    var reached := Explore(nodes, edges, Start(root));
    DiscoverSpec(reached, IdList(nodes), 0);
    if n in reached.levels {
      assert n in Ball(arcs, root, reached.levels[n]);
    }
    if k: nat :| n in Ball(arcs, root, k) {
      BallInClosed(arcs, root, k, reached.levels.Keys);
    }
  }

  ghost predicate Overlap(p: Position, q: Position) {
    -NODE_WIDTH < p.x - q.x < NODE_WIDTH && -NODE_HEIGHT < p.y - q.y < NODE_HEIGHT
  }

  /** No two boxes of the layout overlap, exactly when node ids are unique. */
  lemma NoOverlapIffUniqueIds(nodes: seq<FlowNode>, edges: seq<FlowEdge>)
    requires nodes != []
    ensures (forall i, j :: 0 <= i < j < |nodes| ==> !Overlap(Layout(nodes, edges)[i].position, Layout(nodes, edges)[j].position))
      <==> Distinct(IdList(nodes))
  {
    hide Overlap, Layout;
    var out, ids := Layout(nodes, edges), IdList(nodes);
    forall i, j | 0 <= i < j < |nodes| ensures Overlap(out[i].position, out[j].position) <==> ids[i] == ids[j] {
      OverlapOfTwo(nodes, edges, i, j);
    }
  }

  lemma OverlapOfTwo(nodes: seq<FlowNode>, edges: seq<FlowEdge>, i: nat, j: nat)
    requires i < j < |nodes|
    ensures Overlap(Layout(nodes, edges)[i].position, Layout(nodes, edges)[j].position) <==>
      nodes[i].id == nodes[j].id
  {
    hide Overlap, PositionOf, FinalLevels;
    assert nodes[i].id in Ids(nodes) && nodes[j].id in Ids(nodes);
    OverlapIsSameId(FinalLevels(nodes, edges), nodes[i].id, nodes[j].id);
  }

  lemma OverlapIsSameId(b: Bfs, m: Node, n: Node)
    requires Wf(b) && m in b.levels && n in b.levels
    ensures Overlap(PositionOf(b, m), PositionOf(b, n)) <==> m == n
  {
    RowSpec(b.order, b.levels, b.levels[m]);
    RowSpec(b.order, b.levels, b.levels[n]);
  }

  /** Boxes of a row stand 260 apart from left to right in the order in which they got
      their level, rows 180 apart from top to bottom, and a row of `count` begins at half of
      its width, which is 260 for each box less the last gap of 60. */
  lemma RowsAndColumns(nodes: seq<FlowNode>, edges: seq<FlowEdge>, i: nat)
    requires i < |nodes|
    ensures nodes[i].id in FinalLevels(nodes, edges).levels
    ensures var b, n := FinalLevels(nodes, edges), nodes[i].id;
      var row := Row(b.order, b.levels, b.levels[n]);
      && n in row
      && Layout(nodes, edges)[i].position.y == 180 * b.levels[n]
      && 2 * Layout(nodes, edges)[i].position.x == 520 * IndexOf(row, n) - (260 * |row| - 60)
  {
    hide FinalLevels;
    var b, n := FinalLevels(nodes, edges), nodes[i].id;
    assert n in Ids(nodes);
    RowSpec(b.order, b.levels, b.levels[n]);
    var count := |Row(b.order, b.levels, b.levels[n])|;
    assert TotalWidth(count) == 2 * (130 * count - 30);
  }

  /** A row holds each of its level's ids once, in the order of discovery. */
  lemma {:induction false} RowKeepsOrder(order: seq<Node>, levels: map<Node, nat>, l: nat, m: Node, n: Node)
    requires Elements(order) <= levels.Keys && Distinct(order) && m in order
      && n in order && m != n
    requires levels[m] == l && levels[n] == l
    ensures m in Row(order, levels, l) && n in Row(order, levels, l)
    ensures IndexOf(order, m) < IndexOf(order, n) <==>
      IndexOf(Row(order, levels, l), m) < IndexOf(Row(order, levels, l), n)
  {
    hide IndexOf, Row, Distinct;
    var k := |order| - 1;
    RowSpec(order, levels, l);
    OneMoreInRow(order, levels, l);
    var init := Row(order[..k], levels, l);
    IndexAppend(order[..k], order[k], m);
    IndexAppend(order[..k], order[k], n);
    if levels[order[k]] == l {
      IndexAppend(init, order[k], m);
      IndexAppend(init, order[k], n);
    }
    if m != order[k] && n != order[k] { RowKeepsOrder(order[..k], levels, l, m, n); }
  }

  lemma {:induction false} OneMoreInRow(order: seq<Node>, levels: map<Node, nat>, l: nat)
    requires order != [] && Elements(order) <= levels.Keys && Distinct(order)
    ensures var k := |order| - 1; var init := order[..k];
      && order == init + [order[k]] && Elements(init) <= levels.Keys && Distinct(init) && order[k] !in init
      && order[k] in levels
      && Row(order, levels, l) == (if levels[order[k]] == l then Row(init, levels, l) + [order[k]] else Row(init, levels, l))
      && forall n :: n in Row(init, levels, l) <==> n in init && levels[n] == l
  {
    var k := |order| - 1;
    RowSpec(order[..k], levels, l);
    assert order[k] in Elements(order);
    assert Row(order[..k], levels, l) + [] == Row(order[..k], levels, l);
  }

  lemma {:induction false} IndexAppend(s: seq<Node>, x: Node, n: Node)
    requires n in s + [x]
    ensures n in s ==> IndexOf(s + [x], n) == IndexOf(s, n)
    ensures n !in s ==> n == x && IndexOf(s + [x], n) == |s|
  {
    if s != [] && s[0] != n {
      assert (s + [x])[1..] == s[1..] + [x];
      IndexAppend(s[1..], x, n);
    }
  }

  // ---- Centred rows ----

  /** Mirror images of each other in the line x = 0. */
  ghost predicate Mirrors(p: Position, q: Position) {
    p.y == q.y && p.x + (q.x + NODE_WIDTH) == 0
  }

  ghost predicate HasMirror(nodes: seq<FlowNode>, edges: seq<FlowEdge>, i: nat)
    requires i < |nodes|
  {
    exists j :: 0 <= j < |nodes| && Mirrors(Layout(nodes, edges)[i].position, Layout(nodes, edges)[j].position)
  }

  /** What holds the slot on the other side of a row. */
  ghost function Opposite(b: Bfs, n: Node): (m: Node)
    requires Wf(b) && n in b.levels
    ensures m in b.levels && b.levels[m] == b.levels[n]
  {
    RowSpec(b.order, b.levels, b.levels[n]);
    var row := Row(b.order, b.levels, b.levels[n]);
    assert row[|row| - 1 - IndexOf(row, n)] in row;
    row[|row| - 1 - IndexOf(row, n)]
  }

  lemma MirrorIsOpposite(b: Bfs, n: Node, m: Node)
    requires Wf(b) && n in b.levels && m in b.levels
    ensures Mirrors(PositionOf(b, n), PositionOf(b, m)) <==> m == Opposite(b, n)
  {
    var l := b.levels[n];
    RowSpec(b.order, b.levels, l);
    RowSpec(b.order, b.levels, b.levels[m]);
    if b.levels[m] == l {
      var row := Row(b.order, b.levels, l);
      var i, k := IndexOf(row, n), IndexOf(row, m);
      IndexInRow(row, |row| - 1 - i);
      MirrorSlots(|row|, i, k, l);
    }
  }

  lemma MirrorSlots(count: nat, i: nat, k: nat, level: nat)
    ensures Mirrors(Slot(count, i, level), Slot(count, k, level)) <==> i + k + 1 == count
  {
    assert TotalWidth(count) == 2 * (130 * count - 30);
  }

  /** A box has a mirror image exactly if the opposite slot of its row holds a node, and
      not the id of a missing one. */
  lemma MirrorIffNode(nodes: seq<FlowNode>, edges: seq<FlowEdge>, i: nat)
    requires i < |nodes|
    ensures nodes[i].id in FinalLevels(nodes, edges).levels
    ensures HasMirror(nodes, edges, i) <==>
      Opposite(FinalLevels(nodes, edges), nodes[i].id) in Ids(nodes)
  {
    hide Opposite, PositionOf, FinalLevels;
    var b := FinalLevels(nodes, edges);
    forall j | 0 <= j < |nodes| ensures nodes[j].id in b.levels {
      assert nodes[j] in nodes && nodes[j].id in Ids(nodes);
    }
    forall j | 0 <= j < |nodes|
      ensures Mirrors(Layout(nodes, edges)[i].position, Layout(nodes, edges)[j].position) <==>
        nodes[j].id == Opposite(b, nodes[i].id)
    {
      MirrorIsOpposite(b, nodes[i].id, nodes[j].id);
    }
    if Opposite(b, nodes[i].id) in Ids(nodes) {
      var node :| node in nodes && node.id == Opposite(b, nodes[i].id);
      var j :| 0 <= j < |nodes| && nodes[j] == node;
    }
  }

  /** The slots that hold nodes lie symmetrically in the row. */
  ghost predicate Symmetric(row: seq<Node>, ids: set<Node>) {
    forall k :: 0 <= k < |row| && row[k] in ids ==> row[|row| - 1 - k] in ids
  }

  ghost predicate AllSymmetric(b: Bfs, ids: set<Node>)
    requires Wf(b)
  {
    forall l: nat :: Symmetric(Row(b.order, b.levels, l), ids)
  }

  /** All rows are centred on x = 0, every box having its mirror image. */
  ghost predicate Centred(nodes: seq<FlowNode>, edges: seq<FlowEdge>) {
    forall i :: 0 <= i < |nodes| ==> HasMirror(nodes, edges, i)
  }

  /** That is so exactly if in every row the slots that hold nodes lie symmetrically. */
  lemma RowsAreCentred(nodes: seq<FlowNode>, edges: seq<FlowEdge>)
    requires nodes != []
    ensures Centred(nodes, edges) <==> AllSymmetric(FinalLevels(nodes, edges), Ids(nodes))
  {
    hide HasMirror, FinalLevels;
    var b := FinalLevels(nodes, edges);
    if Centred(nodes, edges) {
      forall l: nat ensures Symmetric(Row(b.order, b.levels, l), Ids(nodes)) {
        CentredIsSymmetric(nodes, edges, l);
      }
    }
    if AllSymmetric(b, Ids(nodes)) {
      forall i | 0 <= i < |nodes| ensures HasMirror(nodes, edges, i) {
        SymmetricHasMirror(nodes, edges, i);
      }
    }
  }

  lemma {:induction false} CentredIsSymmetric(nodes: seq<FlowNode>, edges: seq<FlowEdge>, l: nat)
    requires nodes != [] && Centred(nodes, edges)
    ensures var b := FinalLevels(nodes, edges); Symmetric(Row(b.order, b.levels, l), Ids(nodes))
  {
    hide HasMirror, FinalLevels;
    var b := FinalLevels(nodes, edges);
    var row := Row(b.order, b.levels, l);
    RowSpec(b.order, b.levels, l);
    forall k | 0 <= k < |row| && row[k] in Ids(nodes) ensures row[|row| - 1 - k] in Ids(nodes) {
      assert row[k] in row;
      IndexInRow(row, k);
      var node :| node in nodes && node.id == row[k];
      var i :| 0 <= i < |nodes| && nodes[i] == node;
      MirrorIffNode(nodes, edges, i);
    }
  }

  lemma SymmetricHasMirror(nodes: seq<FlowNode>, edges: seq<FlowEdge>, i: nat)
    requires i < |nodes|
    requires AllSymmetric(FinalLevels(nodes, edges), Ids(nodes))
    ensures HasMirror(nodes, edges, i)
  {
    hide HasMirror, FinalLevels;
    MirrorIffNode(nodes, edges, i);
    var b, n := FinalLevels(nodes, edges), nodes[i].id;
    RowSpec(b.order, b.levels, b.levels[n]);
    var row := Row(b.order, b.levels, b.levels[n]);
    assert nodes[i] in nodes && row[IndexOf(row, n)] in Ids(nodes);
    assert Symmetric(row, Ids(nodes));
  }

  /** Every edge that the search follows leads to a node. */
  ghost predicate KnownTargets(nodes: seq<FlowNode>, edges: seq<FlowEdge>)
    requires nodes != []
  {
    forall e, k: nat :: e in edges && e.source in Ids(nodes) && e.source in Ball(FlowArcs(nodes, edges), Entry(nodes), k)
      ==> e.target in Ids(nodes)
  }

  /** That is exactly when nothing but nodes takes a slot; then all rows are centred. */
  lemma KnownTargetsCentre(nodes: seq<FlowNode>, edges: seq<FlowEdge>)
    requires nodes != []
    ensures KnownTargets(nodes, edges) <==> FinalLevels(nodes, edges).levels.Keys == Ids(nodes)
    ensures KnownTargets(nodes, edges) ==> Centred(nodes, edges)
  {
    hide HasMirror, KnownTargets;
    if KnownTargets(nodes, edges) {
      OnlyNodesHaveLevels(nodes, edges);
      forall i | 0 <= i < |nodes| ensures HasMirror(nodes, edges, i) {
        MirrorIffNode(nodes, edges, i);
      }
    }
    if FinalLevels(nodes, edges).levels.Keys == Ids(nodes) { LevelsAreKnown(nodes, edges); }
  }

  lemma LevelsAreKnown(nodes: seq<FlowNode>, edges: seq<FlowEdge>)
    requires nodes != [] && FinalLevels(nodes, edges).levels.Keys == Ids(nodes)
    ensures KnownTargets(nodes, edges)
  {
    var arcs, root := FlowArcs(nodes, edges), Entry(nodes);
    ReachedLevels(nodes, edges);
    var reached := Explore(nodes, edges, Start(root));
    DiscoverSpec(reached, IdList(nodes), 0);
    forall e, k: nat | e in edges && e.source in Ids(nodes) && e.source in Ball(arcs, root, k) ensures e.target in Ids(nodes) {
      BallInClosed(arcs, root, k, reached.levels.Keys);
      assert (e.source, e.target) in arcs;
    }
  }

  lemma OnlyNodesHaveLevels(nodes: seq<FlowNode>, edges: seq<FlowEdge>)
    requires nodes != [] && KnownTargets(nodes, edges)
    ensures FinalLevels(nodes, edges).levels.Keys == Ids(nodes)
  {
    ReachedLevels(nodes, edges);
    hide KnownTargets, Explore, IsReachableSet;
    var reached := Explore(nodes, edges, Start(Entry(nodes)));
    DiscoverSpec(reached, IdList(nodes), 0);
    forall x | x in reached.levels ensures x in Ids(nodes) { KnownBall(nodes, edges, reached.levels[x]); }
    forall x | x in IdList(nodes) ensures x in Ids(nodes) {
      var i :| 0 <= i < |nodes| && IdList(nodes)[i] == x;
      assert nodes[i] in nodes;
    }
  }

  lemma {:induction false} KnownBall(nodes: seq<FlowNode>, edges: seq<FlowEdge>, k: nat)
    requires nodes != [] && KnownTargets(nodes, edges)
    ensures Ball(FlowArcs(nodes, edges), Entry(nodes), k) <= Ids(nodes)
  {
    EntryIsNode(nodes);
    if k > 0 { KnownBall(nodes, edges, k - 1); }
  }

  /** An edge to a missing node takes up a place and pushes its row off centre:
      node `c` has no mirror image. */
  lemma MissingTargetPushesRow(a: Node, c: Node, missing: Node)
    requires a != c && a != missing && c != missing
    ensures !HasMirror(OffCentreNodes(a, c), OffCentreEdges(a, c, missing), 1)
  {
    hide FinalLevels, HasMirror, Opposite;
    var nodes := OffCentreNodes(a, c);
    OffCentreLevels(a, c, missing);
    OffCentreOpposite(a, c, missing);
    MirrorIffNode(nodes, OffCentreEdges(a, c, missing), 1);
    assert nodes[0] in nodes && nodes[1] in nodes && Ids(nodes) == {a, c};
  }

  lemma OffCentreOpposite(a: Node, c: Node, missing: Node)
    requires a != c && a != missing && c != missing
    requires Wf(Bfs([a, c, missing], map[a := 0, c := 1, missing := 1], 3))
    ensures Opposite(Bfs([a, c, missing], map[a := 0, c := 1, missing := 1], 3), c) == missing
  {
    hide Row;
    OffCentreRow(a, c, missing);
  }

  lemma OffCentreRow(a: Node, c: Node, missing: Node)
    requires a != c && a != missing && c != missing
    ensures Elements([a, c, missing]) == {a, c, missing}
    ensures Row([a, c, missing], map[a := 0, c := 1, missing := 1], 1) == [c, missing]
  {
    var levels: map<Node, nat> := map[a := 0, c := 1, missing := 1];
    var order := [a, c, missing];
    assert order[..|order| - 1] == [a, c] && [a, c][..|[a, c]| - 1] == [a] && [a][..|[a]| - 1] == [];
    assert Row([a], levels, 1) == [];
    assert Row([a, c], levels, 1) == [c];
  }

  lemma OffCentreLevels(a: Node, c: Node, missing: Node)
    requires a != c && a != missing && c != missing
    ensures FinalLevels(OffCentreNodes(a, c), OffCentreEdges(a, c, missing)) ==
      Bfs([a, c, missing], map[a := 0, c := 1, missing := 1], 3)
  {
    var nodes, b := OffCentreNodes(a, c), Bfs([a, c, missing], map[a := 0, c := 1, missing := 1], 3);
    OffCentreSearch(a, c, missing);
    assert IdList(nodes) == [a, c] && [a, c][1..] == [c] && [c][1..] == [];
    hide Explore, Within, Children, Wf;
    assert Discover(b, [c], 0) == b && Discover(b, [a, c], 0) == b;
  }

  function OffCentreNodes(a: Node, c: Node): seq<FlowNode> {
    [FlowNode(a, true, Position(0, 0)), FlowNode(c, false, Position(0, 0))]
  }

  function OffCentreEdges(a: Node, c: Node, missing: Node): seq<FlowEdge> {
    [FlowEdge(a, c), FlowEdge(a, missing)]
  }

  lemma OffCentreSearch(a: Node, c: Node, missing: Node)
    requires a != c && a != missing && c != missing
    ensures var nodes, edges := OffCentreNodes(a, c), OffCentreEdges(a, c, missing);
      && Entry(nodes) == a && Within(Start(a), nodes, edges)
      && Explore(nodes, edges, Start(a)) == Bfs([a, c, missing], map[a := 0, c := 1, missing := 1], 3)
  {
    var nodes, edges := OffCentreNodes(a, c), OffCentreEdges(a, c, missing);
    StartWithin(nodes, edges);
    assert nodes[0] in nodes && nodes[1] in nodes && Ids(nodes) == {a, c};
    OffCentreChildren(a, c, missing);
    var levels: map<Node, nat> := map[a := 0, c := 1, missing := 1];
    var b0, b1 := Start(a), Bfs([a, c, missing], levels, 1);
    var b2, b3 := b1.(done := 2), b1.(done := 3);
    OffCentreDiscover(a, c, missing);
    assert Step(nodes, edges, b0) == b1 && Step(nodes, edges, b1) == b2 && Step(nodes, edges, b2) == b3;
    StepWithin(nodes, edges, b0);
    StepWithin(nodes, edges, b1);
    StepWithin(nodes, edges, b2);
    hide Step, Universe, Ids, Wf;
    assert Explore(nodes, edges, b3) == b3;
    assert Explore(nodes, edges, b2) == b3;
    assert Explore(nodes, edges, b1) == b3;
  }

  lemma OffCentreDiscover(a: Node, c: Node, missing: Node)
    requires a != c && a != missing && c != missing
    ensures Discover(Start(a), [c, missing], 1) == Bfs([a, c, missing], map[a := 0, c := 1, missing := 1], 0)
  {
    assert [c, missing][1..] == [missing] && [missing][1..] == [];
    var first := Bfs([a] + [c], map[a := 0][c := 1], 0);
    assert Discover(Start(a), [c, missing], 1) == Discover(first, [missing], 1);
    assert Discover(first, [missing], 1) == Bfs(first.order + [missing], first.levels[missing := 1], 0);
    assert first.order + [missing] == [a, c, missing];
    assert first.levels[missing := 1] == map[a := 0, c := 1, missing := 1];
  }

  lemma {:induction false} OffCentreChildren(a: Node, c: Node, missing: Node)
    requires a != c && a != missing && c != missing
    ensures Children(OffCentreEdges(a, c, missing), a) == [c, missing]
    ensures Children(OffCentreEdges(a, c, missing), c) == []
  {
    var edges := OffCentreEdges(a, c, missing);
    var one := [FlowEdge(a, c)];
    assert edges[..|edges| - 1] == one && one[..|one| - 1] == [];
    assert Children(one, a) == [c] && Children(one, c) == [];
  }

  /** The layout ignores old positions, so laying out a second time changes nothing. */
  lemma LayoutIgnoresPositions(nodes: seq<FlowNode>, moved: seq<FlowNode>, edges: seq<FlowEdge>)
    requires nodes != [] && |moved| == |nodes|
    requires forall i :: 0 <= i < |nodes| ==> moved[i].id == nodes[i].id && moved[i].isEntrypoint == nodes[i].isEntrypoint
    ensures Layout(moved, edges) == Layout(nodes, edges)
  {
    assert IdList(moved) == IdList(nodes);
    SameEntry(nodes, moved);
    SameIds(nodes, moved);
    StartWithin(nodes, edges);
    StartWithin(moved, edges);
    SameExplore(nodes, moved, edges, Start(Entry(nodes)));
  }

  lemma SameIds(nodes: seq<FlowNode>, moved: seq<FlowNode>)
    requires |moved| == |nodes| && forall i :: 0 <= i < |nodes| ==> moved[i].id == nodes[i].id
    ensures Ids(moved) == Ids(nodes)
  {
    forall x ensures x in Ids(moved) <==> x in Ids(nodes) {
      if x in Ids(moved) {
        var i :| 0 <= i < |moved| && moved[i].id == x;
        assert nodes[i] in nodes;
      }
      if x in Ids(nodes) {
        var i :| 0 <= i < |nodes| && nodes[i].id == x;
        assert moved[i] in moved;
      }
    }
  }

  lemma {:induction false} SameEntry(nodes: seq<FlowNode>, moved: seq<FlowNode>)
    requires nodes != [] && |moved| == |nodes|
    requires forall i :: 0 <= i < |nodes| ==> moved[i].id == nodes[i].id && moved[i].isEntrypoint == nodes[i].isEntrypoint
    ensures Entry(moved) == Entry(nodes)
  {
    if k :| 0 <= k < |nodes| && nodes[k].isEntrypoint {
      assert moved[k].isEntrypoint;
      SameFlagged(nodes, moved);
    } else {
      assert forall k :: 0 <= k < |nodes| ==> !moved[k].isEntrypoint;
    }
  }

  lemma {:induction false} SameFlagged(nodes: seq<FlowNode>, moved: seq<FlowNode>)
    requires |moved| == |nodes|
    requires forall i :: 0 <= i < |nodes| ==> moved[i].id == nodes[i].id && moved[i].isEntrypoint == nodes[i].isEntrypoint
    requires exists k :: 0 <= k < |nodes| && nodes[k].isEntrypoint
    requires exists k :: 0 <= k < |moved| && moved[k].isEntrypoint
    ensures FirstFlagged(moved) == FirstFlagged(nodes)
  {
    if !nodes[0].isEntrypoint {
      assert nodes == [nodes[0]] + nodes[1..] && moved == [moved[0]] + moved[1..];
      SameFlagged(nodes[1..], moved[1..]);
    }
  }

  lemma {:induction false} SameExplore(nodes: seq<FlowNode>, moved: seq<FlowNode>, edges: seq<FlowEdge>, b: Bfs)
    requires Ids(moved) == Ids(nodes) && Within(b, nodes, edges) && Within(b, moved, edges)
    ensures Explore(moved, edges, b) == Explore(nodes, edges, b)
    decreases |Universe(nodes, edges)| - b.done
  {
    if b.done < |b.order| {
      StepWithin(nodes, edges, b);
      StepWithin(moved, edges, b);
      assert Step(moved, edges, b) == Step(nodes, edges, b);
      SameExplore(nodes, moved, edges, Step(nodes, edges, b));
    }
  }

  lemma LayoutIdempotent(nodes: seq<FlowNode>, edges: seq<FlowEdge>)
    requires nodes != []
    ensures Layout(Layout(nodes, edges), edges) == Layout(nodes, edges)
  {
    LayoutIgnoresPositions(nodes, Layout(nodes, edges), edges);
  }
}
