/** What conditions mean, construct by construct: which operand decides, what absent values
    do, and which errors a caller can see (sidecar/orca_core/orchestrator/routing.py). */
module RoutingLaws {
  import opened Wrappers
  import opened Routing

  /** `e` evaluates to a value with this truth. */
  predicate Counts<V(==)>(e: Expr<V>, state: V, py: Python<V>, truth: bool) {
    var o := Walk(e, state, py);
    o.Val? && py.holds(o.value) == Done(truth)
  }

  /** What an operand of `and` or `or` contributes when it decides the result. */
  function Decides<V(==)>(e: Expr<V>, state: V, py: Python<V>, truth: bool): Outcome<V> {
    var o := Walk(e, state, py);
    if !o.Val? then o else if !py.holds(o.value).Done? then Exception else Val(py.truth(truth))
  }

  /** `and` is true if all operands are; otherwise the first one that is not decides: it is
      false, or raises, and later ones do not matter. */
  lemma {:induction false} AndExactly<V>(values: seq<Expr<V>>, k: nat, state: V, py: Python<V>)
    requires k <= |values| && forall i :: 0 <= i < k ==> Counts(values[i], state, py, true)
    requires k < |values| ==> !Counts(values[k], state, py, true)
    ensures Walk(And(values), state, py) == if k == |values| then Val(py.truth(true)) else Decides(values[k], state, py, false)
  {
    AllFrom(values, k, state, py);
  }

  lemma {:induction false} AllFrom<V>(values: seq<Expr<V>>, k: nat, state: V, py: Python<V>)
    requires k <= |values| && forall i :: 0 <= i < k ==> Counts(values[i], state, py, true)
    requires k < |values| ==> !Counts(values[k], state, py, true)
    ensures All(values, state, py) == if k == |values| then Val(py.truth(true)) else Decides(values[k], state, py, false)
    decreases k
  {
    if k > 0 {
      forall i | 0 <= i < k - 1 ensures Counts(values[1..][i], state, py, true) {
        assert values[1..][i] == values[i + 1];
      }
      AllFrom(values[1..], k - 1, state, py);
      assert Counts(values[0], state, py, true);
    }
  }

  /** `or` is false if all operands are; otherwise the first one that is not decides. */
  lemma {:induction false} OrExactly<V>(values: seq<Expr<V>>, k: nat, state: V, py: Python<V>)
    requires k <= |values| && forall i :: 0 <= i < k ==> Counts(values[i], state, py, false)
    requires k < |values| ==> !Counts(values[k], state, py, false)
    ensures Walk(Or(values), state, py) == if k == |values| then Val(py.truth(false)) else Decides(values[k], state, py, true)
  {
    AnyFrom(values, k, state, py);
  }

  lemma {:induction false} AnyFrom<V>(values: seq<Expr<V>>, k: nat, state: V, py: Python<V>)
    requires k <= |values| && forall i :: 0 <= i < k ==> Counts(values[i], state, py, false)
    requires k < |values| ==> !Counts(values[k], state, py, false)
    ensures Any(values, state, py) == if k == |values| then Val(py.truth(false)) else Decides(values[k], state, py, true)
    decreases k
  {
    if k > 0 {
      forall i | 0 <= i < k - 1 ensures Counts(values[1..][i], state, py, false) {
        assert values[1..][i] == values[i + 1];
      }
      AnyFrom(values[1..], k - 1, state, py);
      assert Counts(values[0], state, py, false);
    }
  }

  // ---- Negation ----

  function Negated<V>(values: seq<Expr<V>>): seq<Expr<V>> {
    seq(|values|, i requires 0 <= i < |values| => Unary(Not, values[i]))
  }

  lemma {:induction false} NotExactly<V>(e: Expr<V>, state: V, py: Python<V>)
    ensures Counts(e, state, py, true) ==>
      Walk(Unary(Not, e), state, py) == Val(py.truth(false))
    ensures Counts(e, state, py, false) ==>
      Walk(Unary(Not, e), state, py) == Val(py.truth(true))
    ensures !Counts(e, state, py, true) && !Counts(e, state, py, false) ==>
      Walk(Unary(Not, e), state, py) == if Walk(e, state, py).Val? then Exception else Walk(e, state, py)
  {
  }

  /** De Morgan's law, errors and the deciding operand included. */
  lemma {:induction false} OrIsNotAndNot<V>(values: seq<Expr<V>>, state: V, py: Python<V>)
    requires TruthHolds(py)
    ensures Walk(Or(values), state, py) == Walk(Unary(Not, And(Negated(values))), state, py)
  {
    var k := FirstNot(values, state, py);
    OrExactly(values, k, state, py);
    var ns := Negated(values);
    forall i | 0 <= i < k ensures Counts(ns[i], state, py, true) {
      NotExactly(values[i], state, py);
    }
    if k < |values| { NotExactly(values[k], state, py); }
    AndExactly(ns, k, state, py);
    NotExactly(And(ns), state, py);
  }

  /** The first operand that is not false. */
  lemma {:induction false} FirstNot<V>(values: seq<Expr<V>>, state: V, py: Python<V>) returns (k: nat)
    ensures k <= |values| && forall i :: 0 <= i < k ==> Counts(values[i], state, py, false)
    ensures k < |values| ==> !Counts(values[k], state, py, false)
  {
    k := 0;
    while k < |values| && Counts(values[k], state, py, false)
      invariant k <= |values| && forall i :: 0 <= i < k ==> Counts(values[i], state, py, false)
    {
      k := k + 1;
    }
  }

  // ---- Comparisons ----

  /** Operands from left to right, each only if the one before has a value. */
  lemma {:induction false} ComparesInOrder<V>(left: Expr<V>, op: CmpOp, right: Expr<V>, state: V, py: Python<V>)
    ensures var l, r := Walk(left, state, py), Walk(right, state, py);
      var o := Walk(Compare(left, [op], [right]), state, py);
      && (!l.Val? ==> o == l)
      && (l.Val? && !r.Val? ==> o == r)
      && (l.Val? && r.Val? ==>
          match ApplyCmp(op, l.value, r.value, py)
          case Val(b) => o == Val(py.truth(b))
          case RoutingError => o == RoutingError
          case Unsupported => o == Unsupported
          case Exception => o == Exception)
  {
    hide Walk, Chain, ApplyCmp;
    WalkCompare(left, [op], [right], state, py);
    if Walk(left, state, py).Val? { OneLink(Walk(left, state, py).value, op, right, state, py); }
  }

  /** An ordering with an absent operand is false and never raises. */
  lemma AbsentIsUnordered<V>(op: CmpOp, left: V, right: V, py: Python<V>)
    requires op.Lt? || op.LtE? || op.Gt? || op.GtE?
    ensures left == py.none || right == py.none ==> ApplyCmp(op, left, right, py) == Val(false)
    ensures left != py.none && right != py.none ==>
      match py.compare(op, left, right)
      case Done(b) => ApplyCmp(op, left, right, py) == Val(b)
      case _ => ApplyCmp(op, left, right, py) == Exception
  {
  }

  /** Equality and membership with any operands; only membership turns a type error into
      a routing error of its own. */
  lemma EqualityAndMembership<V>(op: CmpOp, left: V, right: V, py: Python<V>)
    requires op.Eq? || op.NotEq? || op.In? || op.NotIn?
    ensures match py.compare(op, left, right)
      case Done(b) => ApplyCmp(op, left, right, py) == Val(b)
      case TypeError => ApplyCmp(op, left, right, py) == if op.In? || op.NotIn? then RoutingError else Exception
      case _ => ApplyCmp(op, left, right, py) == Exception
  {
  }

  /** Identity never raises, and `is not` is its negation. */
  lemma IdentityNeverRaises<V>(left: V, right: V, py: Python<V>)
    ensures ApplyCmp(Is, left, right, py).Val? && ApplyCmp(IsNot, left, right, py).Val?
    ensures ApplyCmp(Is, left, right, py).value == py.same(left, right)
    ensures ApplyCmp(IsNot, left, right, py).value == !ApplyCmp(Is, left, right, py).value
  {
  }

  // ---- Paths ----

  /** A chain of attributes and constant subscripts, `length` left out. */
  predicate IsPath<V>(e: Expr<V>) {
    match e
    case Name(id) => id == "state"
    case Attribute(target, attr) => attr != "length" && IsPath(target)
    case Subscript(target, key) => key.Constant? && IsPath(target)
    case _ => false
  }

  /** Where a path leads, step by step: absent things have absent parts. */
  function Follow<V(==)>(e: Expr<V>, state: V, py: Python<V>): Outcome<V>
    requires IsPath(e)
  {
    match e
    case Name(_) => Val(state)
    case Attribute(target, attr) =>
      var t := Follow(target, state, py);
      if !t.Val? || t.value == py.none then t
      else
        (match py.attribute(t.value, attr)
         case Done(v) => Val(v)
         case Missing => Val(py.none)
         case _ => Exception)
    case Subscript(target, key) =>
      var t := Follow(target, state, py);
      if !t.Val? || t.value == py.none then t
      else
        (match py.item(t.value, key.value)
         case Done(v) => Val(v)
         case Missing => Val(py.none)
         case TypeError => RoutingError
         case Failed => Exception)
  }

  lemma {:induction false} PathsAreFollowed<V>(e: Expr<V>, state: V, py: Python<V>)
    requires IsPath(e)
    ensures Walk(e, state, py) == Follow(e, state, py)
    decreases e
  {
    match e
    case Attribute(target, _) => PathsAreFollowed(target, state, py);
    case Subscript(target, _) => PathsAreFollowed(target, state, py);
    case _ =>
  }

  predicate Extends<V(==)>(e: Expr<V>, p: Expr<V>) {
    e == p ||
      match e
      case Attribute(target, attr) => attr != "length" && Extends(target, p)
      case Subscript(target, key) => key.Constant? && Extends(target, p)
      case _ => false
  }

  /** Once a path has come to nothing, whatever is asked of it is nothing as well. */
  lemma {:induction false} NothingHasParts<V>(e: Expr<V>, p: Expr<V>, state: V, py: Python<V>)
    requires Extends(e, p) && Walk(p, state, py) == Val(py.none)
    ensures Walk(e, state, py) == Val(py.none)
    decreases e
  {
    if e != p {
      match e
      case Attribute(target, _) => NothingHasParts(target, p, state, py);
      case Subscript(target, _) => NothingHasParts(target, p, state, py);
    }
  }

  /** No name but `state` is known, and `length` of something without one is a routing
      error. */
  lemma {:induction false} NamesAndLengths<V>(id: string, e: Expr<V>, state: V, py: Python<V>)
    ensures Walk(Name(id), state, py) == if id == "state" then Val(state) else RoutingError
    ensures var t, o := Walk(e, state, py), Walk(Attribute(e, "length"), state, py);
      if !t.Val? then o == t
      else match py.length(t.value)
        case Done(n) => o == Val(n)
        case TypeError => o == RoutingError
        case _ => o == Exception
  {
  }

  /** Signs. */
  lemma {:induction false} SignsExactly<V>(e: Expr<V>, state: V, py: Python<V>)
    ensures var t, m, p := Walk(e, state, py), Walk(Unary(USub, e), state, py), Walk(Unary(UAdd, e), state, py);
      if !t.Val? then m == t && p == t
      else
        && m == (if py.negative(t.value).Done? then Val(py.negative(t.value).value) else Exception)
        && p == (if py.positive(t.value).Done? then Val(py.positive(t.value).value) else Exception)
  {
  }

  // ---- Displays ----

  /** An element that lets the display go on. */
  predicate Fits<V(==)>(e: Expr<V>, v: V, state: V, py: Python<V>, hashed: bool) {
    Walk(e, state, py) == Val(v) && (hashed ==> py.hashable(v))
  }

  /** The elements' values in order, if all have one; a set needs them to be hashable. */
  lemma {:induction false} ElementsExactly<V>(elts: seq<Expr<V>>, vs: seq<V>, state: V, py: Python<V>, hashed: bool)
    requires |vs| == |elts|
    ensures Elements(elts, state, py, hashed) == Ok(vs) <==>
      forall i :: 0 <= i < |elts| ==> Fits(elts[i], vs[i], state, py, hashed)
  {
    if elts != [] {
      var n := |elts| - 1;
      ElementsExactly(elts[..n], vs[..n], state, py, hashed);
      assert vs == vs[..n] + [vs[n]];
      var init := Elements(elts[..n], state, py, hashed);
      if init.Ok? && Walk(elts[n], state, py).Val? {
        var w := Walk(elts[n], state, py).value;
        SameParts(init.value, w, vs);
      }
    }
  }

  lemma SameParts<V>(init: seq<V>, w: V, vs: seq<V>)
    requires vs != []
    ensures init + [w] == vs <==> init == vs[..|vs| - 1] && w == vs[|vs| - 1]
  {
    if init + [w] == vs {
      assert vs[|vs| - 1] == w && vs[..|vs| - 1] == init;
    }
  }

  /** A list has its elements' values; a set has them if they can be hashed. */
  lemma {:induction false} DisplaysExactly<V>(elts: seq<Expr<V>>, vs: seq<V>, state: V, py: Python<V>)
    requires |vs| == |elts|
      && forall i :: 0 <= i < |elts| ==> Walk(elts[i], state, py) == Val(vs[i])
    ensures Walk(Listing(elts), state, py) == Val(py.listOf(vs))
    ensures (forall i :: 0 <= i < |vs| ==> py.hashable(vs[i])) ==>
      Walk(SetOf(elts), state, py) == Val(py.setOf(vs))
  {
    ElementsExactly(elts, vs, state, py, false);
    ElementsExactly(elts, vs, state, py, true);
  }

  /** The first element without a value is what the display comes to; one of a set that
      cannot be hashed raises. */
  lemma {:induction false} DisplayStops<V>(elts: seq<Expr<V>>, k: nat, vs: seq<V>, state: V, py: Python<V>, hashed: bool)
    requires k < |elts| && |vs| == k
      && forall i :: 0 <= i < k ==> Fits(elts[i], vs[i], state, py, hashed)
    requires !Walk(elts[k], state, py).Val? || (hashed && !py.hashable(Walk(elts[k], state, py).value))
    ensures Walk(if hashed then SetOf(elts) else Listing(elts), state, py) ==
      if Walk(elts[k], state, py).Val? then Exception else Walk(elts[k], state, py)
  {
    ElementsExactly(elts[..k], vs, state, py, hashed);
    assert elts[..k + 1][..k] == elts[..k];
    ElementsStop(elts, k + 1, state, py, hashed);
  }

  function Zip<V>(ks: seq<V>, vs: seq<V>): seq<(V, V)>
    requires |ks| == |vs|
  {
    seq(|ks|, i requires 0 <= i < |ks| => (ks[i], vs[i]))
  }

  /** Keys and values of a dictionary as far as they go. */
  ghost predicate Entries<V>(items: seq<Expr<V>>, ks: seq<V>, vs: seq<V>, state: V, py: Python<V>) {
    && |ks| == |vs| && 2 * |ks| <= |items|
    && forall i :: 0 <= i < |ks| ==>
      py.hashable(ks[i]) && Walk(items[2 * i], state, py) == Val(ks[i]) && Walk(items[2 * i + 1], state, py) == Val(vs[i])
  }

  lemma {:induction false} PairsOfEntries<V>(items: seq<Expr<V>>, ks: seq<V>, vs: seq<V>, state: V, py: Python<V>)
    requires Entries(items, ks, vs, state, py)
    ensures Pairs(items[..2 * |ks|], state, py) == Ok(Zip(ks, vs))
    decreases |ks|
  {
    if ks != [] {
      var n := |ks| - 1;
      PairsOfEntries(items, ks[..n], vs[..n], state, py);
      PairStep(items, 2 * n, Zip(ks[..n], vs[..n]), state, py);
      assert Zip(ks[..n], vs[..n]) + [(ks[n], vs[n])] == Zip(ks, vs);
    }
  }

  /** A dictionary has the values of its entries, in order. */
  lemma {:induction false} DictExactly<V>(items: seq<Expr<V>>, ks: seq<V>, vs: seq<V>, state: V, py: Python<V>)
    requires Entries(items, ks, vs, state, py) && |items| == 2 * |ks|
    ensures Walk(DictOf(items), state, py) == Val(py.dictOf(Zip(ks, vs)))
  {
    PairsOfEntries(items, ks, vs, state, py);
    assert items[..|items|] == items;
  }

  /** The first key or value without a value is what it comes to; the value of a key is
      evaluated before the key is hashed, which may raise. */
  lemma {:induction false} DictStops<V>(items: seq<Expr<V>>, ks: seq<V>, vs: seq<V>, state: V, py: Python<V>)
    requires Entries(items, ks, vs, state, py) && 2 * |ks| + 2 <= |items| && |items| % 2 == 0
    ensures var k, v := Walk(items[2 * |ks|], state, py), Walk(items[2 * |ks| + 1], state, py);
      var o := Walk(DictOf(items), state, py);
      && (!k.Val? ==> o == k)
      && (k.Val? && !v.Val? ==> o == v)
      && (k.Val? && v.Val? && !py.hashable(k.value) ==> o == Exception)
  {
    PairsOfEntries(items, ks, vs, state, py);
    var n := 2 * |ks|;
    PairStep(items, n, Zip(ks, vs), state, py);
    if Pairs(items[..n + 2], state, py).Err? { PairsStop(items, n + 2, state, py); }
  }

  // ---- The white list ----

  /** The nodes right below a node. */
  function Parts<V>(e: Expr<V>): seq<Expr<V>> {
    match e
    case Attribute(target, _) => [target]
    case Subscript(target, key) => [target, key]
    case Compare(left, _, comparators) => [left] + comparators
    case And(values) => values
    case Or(values) => values
    case Unary(_, operand) => [operand]
    case Listing(elts) => elts
    case SetOf(elts) => elts
    case DictOf(items) => items
    case Other(_, children) => children
    case _ => []
  }

  /** The node that a path of positions leads to. */
  function At<V>(e: Expr<V>, path: seq<nat>): Option<Expr<V>> {
    if path == [] then Some(e)
    else if path[0] < |Parts(e)| then At(Parts(e)[path[0]], path[1..])
    else None
  }

  /** A node that `_SAFE_NODES` does not list. */
  predicate Listed<V>(e: Expr<V>) {
    !e.Other? && !(e.Unary? && e.op.Invert?)
  }

  lemma {:induction false} SafeParts<V>(e: Expr<V>)
    ensures Safe(e) <==> Listed(e) && AllSafe(Parts(e))
  {
    var parts := Parts(e);
    match e
    case Attribute(target, _) => assert parts[0] == target;
    case Subscript(target, key) => assert parts[0] == target && parts[1] == key;
    case Compare(left, _, comparators) => SafeCons(left, comparators);
    case Unary(_, operand) => assert parts[0] == operand;
    case _ =>
  }

  lemma {:induction false} SafeCons<V>(e: Expr<V>, es: seq<Expr<V>>)
    ensures AllSafe([e] + es) <==> Safe(e) && AllSafe(es)
  {
    var all := [e] + es;
    assert all[0] == e && forall i :: 0 <= i < |es| ==> es[i] == all[i + 1];
    if Safe(e) && AllSafe(es) {
      forall i | 0 <= i < |all| ensures Safe(all[i]) {
        if i > 0 { assert all[i] == es[i - 1]; }
      }
    }
  }

  lemma {:induction false} SafeBelow<V>(e: Expr<V>, path: seq<nat>)
    requires Safe(e) && At(e, path).Some?
    ensures Listed(At(e, path).value)
    decreases |path|
  {
    SafeParts(e);
    if path != [] { SafeBelow(Parts(e)[path[0]], path[1..]); }
  }

  /** The way to a node that is not listed. */
  lemma {:induction false} UnsafeNode<V>(e: Expr<V>) returns (path: seq<nat>)
    requires !Safe(e)
    ensures At(e, path).Some? && !Listed(At(e, path).value)
    decreases e
  {
    SafeParts(e);
    if !Listed(e) {
      path := [];
    } else {
      var i :| 0 <= i < |Parts(e)| && !Safe(Parts(e)[i]);
      PartIsSmaller(e, i);
      var rest := UnsafeNode(Parts(e)[i]);
      path := [i] + rest;
      assert path[1..] == rest;
    }
  }

  lemma PartIsSmaller<V>(e: Expr<V>, i: nat)
    requires i < |Parts(e)|
    ensures (e decreases to Parts(e)[i])
  {
    match e
    case Compare(left, _, comparators) =>
      if i > 0 { assert Parts(e)[i] == comparators[i - 1]; }
    case _ =>
  }

  /** A tree is accepted exactly if every node in it is on the white list. */
  lemma {:induction false} SafeExactly<V>(e: Expr<V>)
    ensures Safe(e) <==>
      forall path: seq<nat> :: At(e, path).Some? ==> Listed(At(e, path).value)
  {
    if Safe(e) {
      forall path: seq<nat> | At(e, path).Some? ensures Listed(At(e, path).value) {
        SafeBelow(e, path);
      }
    } else {
      var path := UnsafeNode(e);
    }
  }
}
