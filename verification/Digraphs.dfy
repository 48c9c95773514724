/** Directed graphs as finite sets of arcs: cycles, topological orders and
    balls of nodes around a root.  Shared by the workflow validator, the runner
    and the editor layout. */
module Digraphs {
  import opened Wrappers

  datatype Node = Id(name: string)
  type Arc = (Node, Node)

  // ---- Walks and cycles ----

  ghost predicate IsWalk(arcs: set<Arc>, p: seq<Node>) {
    forall i {:trigger p[i]} :: 0 < i < |p| ==> (p[i - 1], p[i]) in arcs
  }

  /** A closed walk along at least one arc. */
  ghost predicate IsCycle(arcs: set<Arc>, p: seq<Node>) {
    |p| >= 2 && p[0] == p[|p| - 1] && IsWalk(arcs, p)
  }

  ghost predicate Acyclic(arcs: set<Arc>) {
    forall p: seq<Node> :: !IsCycle(arcs, p)
  }

  function Elements(s: seq<Node>): (r: set<Node>) {
    set x | x in s
  }

  lemma PushDistinct(s: seq<Node>, n: Node)
    requires Distinct(s) && n !in Elements(s)
    ensures Distinct(s + [n])
    ensures Elements(s + [n]) == Elements(s) + {n}
  {
  }

  /** Every arc into a listed node comes from a node listed before it. */
  ghost predicate Ordered(order: seq<Node>, arcs: set<Arc>) {
    forall a, i :: a in arcs && 0 <= i < |order| && order[i] == a.1 ==> a.0 in order[..i]
  }

  ghost predicate IsTopologicalOrder(order: seq<Node>, nodes: set<Node>, arcs: set<Arc>) {
    Distinct(order) && Elements(order) == nodes && Ordered(order, arcs)
  }

  lemma {:induction false} DistinctCardinality(s: seq<Node>)
    requires Distinct(s)
    ensures |Elements(s)| == |s|
  {
    if s != [] {
      var init := s[..|s| - 1];
      DistinctCardinality(init);
      assert Elements(s) == Elements(init) + {s[|s| - 1]};
    }
  }

  lemma SubsetOfEqualSize(a: set<Node>, b: set<Node>)
    requires a <= b && |a| == |b|
    ensures a == b
  {
    assert |b - a| == |b| - |a|;
  }

  /** Along a walk, positions in an ordered listing strictly increase. */
  lemma {:induction false} WalkClimbs(order: seq<Node>, arcs: set<Arc>, p: seq<Node>, j: nat) returns (i: nat)
    requires Ordered(order, arcs) && IsWalk(arcs, p) && |p| >= 2
    requires j < |order| && order[j] == p[|p| - 1]
    ensures i < j && order[i] == p[0]
    decreases |p|
  {
    assert (p[|p| - 2], p[|p| - 1]) in arcs;
    var k :| 0 <= k < j && order[k] == p[|p| - 2];
    if |p| == 2 {
      i := k;
    } else {
      var q := p[..|p| - 1];
      i := WalkClimbs(order, arcs, q, k);
    }
  }

  lemma TopologicalOrderMeansAcyclic(order: seq<Node>, nodes: set<Node>, arcs: set<Arc>)
    requires IsTopologicalOrder(order, nodes, arcs)
    requires forall a :: a in arcs ==> a.1 in nodes
    ensures Acyclic(arcs)
  {
    forall p: seq<Node> ensures !IsCycle(arcs, p) {
      if IsCycle(arcs, p) {
        assert (p[|p| - 2], p[|p| - 1]) in arcs;
        assert p[0] in Elements(order);
        var j :| 0 <= j < |order| && order[j] == p[0];
        var i := WalkClimbs(order, arcs, p, j);
        assert false;
      }
    }
  }

  ghost predicate HasPredecessorIn(s: set<Node>, arcs: set<Arc>, x: Node) {
    exists y :: y in s && (y, x) in arcs
  }

  ghost predicate NoSource(s: set<Node>, arcs: set<Arc>) {
    forall x {:trigger HasPredecessorIn(s, arcs, x)} :: x in s ==> HasPredecessorIn(s, arcs, x)
  }

  /** Walking backwards inside a set that has no source. */
  lemma {:induction false} BackwardWalk(s: set<Node>, arcs: set<Arc>, v: Node, n: nat) returns (p: seq<Node>)
    requires v in s
    requires NoSource(s, arcs)
    ensures |p| == n + 1 && IsWalk(arcs, p) && Elements(p) <= s
  {
    if n == 0 {
      p := [v];
    } else {
      var q := BackwardWalk(s, arcs, v, n - 1);
      assert q[0] in Elements(q);
      assert HasPredecessorIn(s, arcs, q[0]);
      var u :| u in s && (u, q[0]) in arcs;
      p := [u] + q;
      assert Elements(p) == {u} + Elements(q);
    }
  }

  lemma NoSourceMeansCycle(s: set<Node>, arcs: set<Arc>)
    requires s != {}
    requires NoSource(s, arcs)
    ensures !Acyclic(arcs)
  {
    var v :| v in s;
    var p := BackwardWalk(s, arcs, v, |s|);
    var i, j := Pigeonhole(p, s);
    assert IsCycle(arcs, p[i..j + 1]);
  }

  lemma Pigeonhole(p: seq<Node>, s: set<Node>) returns (i: nat, j: nat)
    requires Elements(p) <= s && |p| > |s|
    ensures i < j < |p| && p[i] == p[j]
  {
    if Distinct(p) {
      DistinctCardinality(p);
      SubsetSize(Elements(p), s);
      assert false;
    }
    i, j :| 0 <= i < j < |p| && p[i] == p[j];
  }

  lemma {:induction false} SubsetSize(a: set<Node>, b: set<Node>)
    requires a <= b
    ensures |a| <= |b|
  {
    assert |b - a| == |b| - |a|;
  }

  // ---- Balls: nodes within a given number of arcs of a root ----

  function Heads(arcs: set<Arc>, s: set<Node>): set<Node> {
    set a | a in arcs && a.0 in s :: a.1
  }

  function Ball(arcs: set<Arc>, root: Node, k: nat): (b: set<Node>) {
    if k == 0 then {root} else Ball(arcs, root, k - 1) + Heads(arcs, Ball(arcs, root, k - 1))
  }

  /** `k` is the length of a shortest walk from `root` to `n`. */
  ghost predicate AtDistance(arcs: set<Arc>, root: Node, n: Node, k: nat) {
    n in Ball(arcs, root, k) && (k > 0 ==> n !in Ball(arcs, root, k - 1))
  }

  ghost predicate Closed(arcs: set<Arc>, s: set<Node>) {
    forall a :: a in arcs && a.0 in s ==> a.1 in s
  }

  /** `s` is the least set that contains `root` and is closed under `arcs`. */
  ghost predicate IsReachableSet(arcs: set<Arc>, root: Node, s: set<Node>) {
    root in s && Closed(arcs, s) && forall t :: root in t && Closed(arcs, t) ==> s <= t
  }

  lemma {:induction false} BallGrows(arcs: set<Arc>, root: Node, j: nat, k: nat)
    requires j <= k
    ensures Ball(arcs, root, j) <= Ball(arcs, root, k)
    decreases k - j
  {
    if j < k { BallGrows(arcs, root, j + 1, k); }
  }

  lemma {:induction false} BallInClosed(arcs: set<Arc>, root: Node, k: nat, t: set<Node>)
    requires root in t && Closed(arcs, t)
    ensures Ball(arcs, root, k) <= t
  {
    if k > 0 { BallInClosed(arcs, root, k - 1, t); }
  }

  /** Membership in a ball is exactly a walk of at most that many arcs. */
  lemma {:induction false} BallIffWalk(arcs: set<Arc>, root: Node, n: Node, k: nat)
    ensures n in Ball(arcs, root, k) <==>
      exists p :: 1 <= |p| <= k + 1 && p[0] == root && p[|p| - 1] == n && IsWalk(arcs, p)
  {
    if n in Ball(arcs, root, k) {
      var p := WalkInBall(arcs, root, n, k);
    }
    forall p | 1 <= |p| <= k + 1 && p[0] == root && p[|p| - 1] == n && IsWalk(arcs, p)
      ensures n in Ball(arcs, root, k)
    {
      WalkStaysInBall(arcs, root, p);
      BallGrows(arcs, root, |p| - 1, k);
    }
  }

  lemma {:induction false} WalkInBall(arcs: set<Arc>, root: Node, n: Node, k: nat) returns (p: seq<Node>)
    requires n in Ball(arcs, root, k)
    ensures 1 <= |p| <= k + 1 && p[0] == root && p[|p| - 1] == n && IsWalk(arcs, p)
    decreases k
  {
    if k == 0 {
      p := [root];
    } else if n in Ball(arcs, root, k - 1) {
      p := WalkInBall(arcs, root, n, k - 1);
    } else {
      var a :| a in arcs && a.0 in Ball(arcs, root, k - 1) && a.1 == n;
      var q := WalkInBall(arcs, root, a.0, k - 1);
      p := q + [n];
    }
  }

  lemma {:induction false} WalkStaysInBall(arcs: set<Arc>, root: Node, p: seq<Node>)
    requires |p| >= 1 && p[0] == root && IsWalk(arcs, p)
    ensures p[|p| - 1] in Ball(arcs, root, |p| - 1)
  {
    if |p| > 1 {
      var q := p[..|p| - 1];
      WalkStaysInBall(arcs, root, q);
      assert (p[|p| - 2], p[|p| - 1]) in arcs;
    }
  }

  /** Arcs that leave nodes outside the ball of radius `k - 1` do not change the
      balls of radius up to `k`. */
  lemma {:induction false} BallStable(arcs: set<Arc>, more: set<Arc>, root: Node, k: nat)
    requires arcs <= more
    requires k > 0 ==> forall a :: a in more - arcs ==> a.0 !in Ball(arcs, root, k - 1)
    ensures Ball(more, root, k) == Ball(arcs, root, k)
  {
    if k > 0 {
      BallGrows(arcs, root, k - 1, k);
      if k > 1 { BallGrows(arcs, root, k - 2, k - 1); }
      BallStable(arcs, more, root, k - 1);
    }
  }
}
