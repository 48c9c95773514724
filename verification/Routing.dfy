/** Conditions of workflow edges: the white list and the interpreter
    (sidecar/orca_core/orchestrator/routing.py).  What single Python operations do to
    values is a parameter. */
module Routing {
  import opened Wrappers

  datatype CmpOp = Eq | NotEq | Lt | LtE | Gt | GtE | In | NotIn | Is | IsNot

  datatype UnaryOp = Not | USub | UAdd | Invert

  /** Python's expression syntax; `Other` is any node type without a case of its own. */
  datatype Expr<V> =
    | Constant(value: V)
    | Name(id: string)
    | Attribute(target: Expr<V>, attr: string)
    | Subscript(target: Expr<V>, key: Expr<V>)
    | Compare(left: Expr<V>, ops: seq<CmpOp>, comparators: seq<Expr<V>>)
    | And(values: seq<Expr<V>>)
    | Or(values: seq<Expr<V>>)
    | Unary(op: UnaryOp, operand: Expr<V>)
    | Listing(elts: seq<Expr<V>>)                       // tuple or list
    | SetOf(elts: seq<Expr<V>>)
    | DictOf(items: seq<Expr<V>>)                       // keys and values in turn
    | NoKey                                             // the absent key of `**value`
    | Other(kind: string, children: seq<Expr<V>>)

  /** Result of an evaluation: a value, a routing error, the routing error of the
      fallbacks for unknown nodes and operators, or another exception. */
  datatype Outcome<V> = Val(value: V) | RoutingError | Unsupported | Exception

  /** Result of a Python operation that may raise. */
  datatype Attempt<V> = Done(value: V) | Missing | TypeError | Failed

  datatype Python<!V> = Python(
    none: V,
    truth: bool -> V,
    holds: V -> Attempt<bool>,          // bool(v)
    length: V -> Attempt<V>,            // len(v)
    attribute: (V, string) -> Attempt<V>,
    item: (V, V) -> Attempt<V>,
    compare: (CmpOp, V, V) -> Attempt<bool>,
    same: (V, V) -> bool,
    negative: V -> Attempt<V>,
    positive: V -> Attempt<V>,
    listOf: seq<V> -> V,
    setOf: seq<V> -> V,
    dictOf: seq<(V, V)> -> V,
    hashable: V -> bool)

  // ---- Comparison ----

  /** An operation whose every exception goes through. */
  function Plain<W>(a: Attempt<W>): Outcome<W> {
    if a.Done? then Val(a.value) else Exception
  }

  /** An operation whose `TypeError` becomes a routing error. */
  function Guarded<W>(a: Attempt<W>): Outcome<W> {
    if a.Done? then Val(a.value) else if a.TypeError? then RoutingError else Exception
  }

  /** `_apply_cmp` */
  function ApplyCmp<V(==)>(op: CmpOp, left: V, right: V, py: Python<V>): Outcome<bool> {
    match op
    case Eq => Plain(py.compare(op, left, right))
    case NotEq => Plain(py.compare(op, left, right))
    case In => Guarded(py.compare(op, left, right))
    case NotIn => Guarded(py.compare(op, left, right))
    case Is => Val(py.same(left, right))
    case IsNot => Val(!py.same(left, right))
    case _ => if left == py.none || right == py.none then Val(false) else Plain(py.compare(op, left, right))
  }

  // ---- Interpreter ----

  function GetAttribute<V(==)>(target: V, attr: string, py: Python<V>): Outcome<V> {
    if attr == "length" then Guarded(py.length(target))
    else if target == py.none || py.attribute(target, attr).Missing? then Val(py.none)
    else Plain(py.attribute(target, attr))
  }

  function GetItem<V(==)>(target: V, key: V, py: Python<V>): Outcome<V> {
    if target == py.none || py.item(target, key).Missing? then Val(py.none) else Guarded(py.item(target, key))
  }

  function ApplyUnary<V>(op: UnaryOp, operand: V, py: Python<V>): Outcome<V> {
    match op
    case Not => var a := Plain(py.holds(operand)); if a.Val? then Val(py.truth(!a.value)) else Exception
    case USub => Plain(py.negative(operand))
    case UAdd => Plain(py.positive(operand))
    case Invert => Unsupported
  }

  /** An outcome that is not a value, whatever type the value would have. */
  function Stop<U, V>(o: Outcome<U>): Outcome<V>
    requires !o.Val?
  {
    match o
    case RoutingError => RoutingError
    case Unsupported => Unsupported
    case Exception => Exception
  }

  /** `_walk` */
  function Walk<V(==)>(e: Expr<V>, state: V, py: Python<V>): Outcome<V>
    decreases e
  {
    match e
    case Constant(v) => Val(v)
    case Name(id) => if id != "state" then RoutingError else Val(state)
    case Attribute(target, attr) =>
      var t := Walk(target, state, py);
      if t.Val? then GetAttribute(t.value, attr, py) else t
    case Subscript(target, key) =>
      var t := Walk(target, state, py);
      if !t.Val? then t
      else
        var k := Walk(key, state, py);
        if k.Val? then GetItem(t.value, k.value, py) else k
    case Compare(left, ops, comparators) =>
      var l := Walk(left, state, py);
      if l.Val? then Chain(l.value, ops, comparators, state, py) else l
    case And(values) => All(values, state, py)
    case Or(values) => Any(values, state, py)
    case Unary(op, operand) =>
      var o := Walk(operand, state, py);
      if o.Val? then ApplyUnary(op, o.value, py) else o
    case Listing(elts) =>
      var vs := Elements(elts, state, py, false);
      if vs.Ok? then Val(py.listOf(vs.value)) else vs.error
    case SetOf(elts) =>
      var vs := Elements(elts, state, py, true);
      if vs.Ok? then Val(py.setOf(vs.value)) else vs.error
    case DictOf(items) =>
      if |items| % 2 != 0 then Exception
      else
        var vs := Pairs(items, state, py);
        if vs.Ok? then Val(py.dictOf(vs.value)) else vs.error
    case NoKey => Val(py.none)
    case Other(_, _) => Unsupported
  }

  /** The rest of a comparison whose last operand was `left`. */
  function Chain<V(==)>(left: V, ops: seq<CmpOp>, comparators: seq<Expr<V>>, state: V, py: Python<V>): Outcome<V>
    decreases comparators
  {
    if comparators == [] || ops == [] then (if |ops| == |comparators| then Val(py.truth(true)) else Exception)
    else
      var right := Walk(comparators[0], state, py);
      if !right.Val? then right
      else
        var c := ApplyCmp(ops[0], left, right.value, py);
        if !c.Val? then Stop(c)
        else if !c.value then Val(py.truth(false))
        else Chain(right.value, ops[1..], comparators[1..], state, py)
  }

  function All<V(==)>(values: seq<Expr<V>>, state: V, py: Python<V>): Outcome<V>
    decreases values
  {
    if values == [] then Val(py.truth(true))
    else
      var v := Walk(values[0], state, py);
      if !v.Val? then v
      else
        var b := py.holds(v.value);
        if !b.Done? then Exception else if !b.value then Val(py.truth(false)) else All(values[1..], state, py)
  }

  function Any<V(==)>(values: seq<Expr<V>>, state: V, py: Python<V>): Outcome<V>
    decreases values
  {
    if values == [] then Val(py.truth(false))
    else
      var v := Walk(values[0], state, py);
      if !v.Val? then v
      else
        var b := py.holds(v.value);
        if !b.Done? then Exception else if b.value then Val(py.truth(true)) else Any(values[1..], state, py)
  }

  /** Values of the elements, or what stops them; a set checks each one's hash. */
  function Elements<V(==)>(elts: seq<Expr<V>>, state: V, py: Python<V>, hashed: bool): Result<seq<V>, Outcome<V>>
    decreases elts
  {
    if elts == [] then Ok([])
    else
      var n := |elts| - 1;
      var init := Elements(elts[..n], state, py, hashed);
      if init.Err? then init
      else
        var v := Walk(elts[n], state, py);
        if !v.Val? then Err(v) else if hashed && !py.hashable(v.value) then Err(Exception) else Ok(init.value + [v.value])
  }

  /** Values of keys and values in turn; a key is hashed after its value is known. */
  function Pairs<V(==)>(items: seq<Expr<V>>, state: V, py: Python<V>): Result<seq<(V, V)>, Outcome<V>>
    requires |items| % 2 == 0
    decreases items
  {
    var n := |items|;
    if n == 0 then Ok([])
    else
      var init := Pairs(items[..n - 2], state, py);
      if init.Err? then init
      else
        var k := Walk(items[n - 2], state, py);
        if !k.Val? then Err(k)
        else
          var v := Walk(items[n - 1], state, py);
          if !v.Val? then Err(v) else if !py.hashable(k.value) then Err(Exception) else Ok(init.value + [(k.value, v.value)])
  }

  // ---- The same with loops ----

  method Interpret<V(==)>(e: Expr<V>, state: V, py: Python<V>) returns (o: Outcome<V>)
    ensures o == Walk(e, state, py)
    decreases e
  {
    match e
    case Constant(v) => return Val(v);
    case Name(id) => return if id != "state" then RoutingError else Val(state);
    case Attribute(target, attr) =>
      o := Interpret(target, state, py);
      if o.Val? { o := GetAttribute(o.value, attr, py); }
    case Subscript(target, key) =>
      o := Interpret(target, state, py);
      if !o.Val? { return o; }
      var k := Interpret(key, state, py);
      o := if k.Val? then GetItem(o.value, k.value, py) else k;
    case Compare(left, ops, comparators) =>
      o := Interpret(left, state, py);
      if o.Val? { o := CompareLoop(o.value, ops, comparators, state, py); }
    case And(values) => o := AndLoop(values, state, py);
    case Or(values) => o := OrLoop(values, state, py);
    case Unary(op, operand) =>
      o := Interpret(operand, state, py);
      if o.Val? { o := ApplyUnary(op, o.value, py); }
    case Listing(elts) =>
      var vs := ElementLoop(elts, state, py, false);
      o := if vs.Ok? then Val(py.listOf(vs.value)) else vs.error;
    case SetOf(elts) =>
      var vs := ElementLoop(elts, state, py, true);
      o := if vs.Ok? then Val(py.setOf(vs.value)) else vs.error;
    case DictOf(items) =>
      if |items| % 2 != 0 { return Exception; }
      var vs := PairLoop(items, state, py);
      o := if vs.Ok? then Val(py.dictOf(vs.value)) else vs.error;
    case NoKey => return Val(py.none);
    case Other(_, _) => return Unsupported;
  }

  method CompareLoop<V(==)>(first: V, ops: seq<CmpOp>, comparators: seq<Expr<V>>, state: V, py: Python<V>) returns (o: Outcome<V>)
    ensures o == Chain(first, ops, comparators, state, py)
    decreases comparators
  {
    var left, i := first, 0;
    assert ops[0..] == ops && comparators[0..] == comparators;
    while i < |ops| && i < |comparators|
      invariant i <= |ops| && i <= |comparators|
      invariant Chain(left, ops[i..], comparators[i..], state, py) == Chain(first, ops, comparators, state, py)
    {
      var right := Interpret(comparators[i], state, py);
      if !right.Val? { return right; }
      var c := ApplyCmp(ops[i], left, right.value, py);
      if !c.Val? { return Stop(c); }
      if !c.value { return Val(py.truth(false)); }
      assert ops[i..][1..] == ops[i + 1..] && comparators[i..][1..] == comparators[i + 1..];
      left, i := right.value, i + 1;
    }
    o := if |ops| == |comparators| then Val(py.truth(true)) else Exception;
  }

  method AndLoop<V(==)>(values: seq<Expr<V>>, state: V, py: Python<V>) returns (o: Outcome<V>)
    ensures o == All(values, state, py)
    decreases values
  {
    assert values[0..] == values;
    for i := 0 to |values|
      invariant All(values[i..], state, py) == All(values, state, py)
    {
      var v := Interpret(values[i], state, py);
      if !v.Val? { return v; }
      var b := py.holds(v.value);
      if !b.Done? { return Exception; }
      if !b.value { return Val(py.truth(false)); }
      assert values[i..][1..] == values[i + 1..];
    }
    o := Val(py.truth(true));
  }

  method OrLoop<V(==)>(values: seq<Expr<V>>, state: V, py: Python<V>) returns (o: Outcome<V>)
    ensures o == Any(values, state, py)
    decreases values
  {
    assert values[0..] == values;
    for i := 0 to |values|
      invariant Any(values[i..], state, py) == Any(values, state, py)
    {
      var v := Interpret(values[i], state, py);
      if !v.Val? { return v; }
      var b := py.holds(v.value);
      if !b.Done? { return Exception; }
      if b.value { return Val(py.truth(true)); }
      assert values[i..][1..] == values[i + 1..];
    }
    o := Val(py.truth(false));
  }

  method ElementLoop<V(==)>(elts: seq<Expr<V>>, state: V, py: Python<V>, hashed: bool) returns (r: Result<seq<V>, Outcome<V>>)
    ensures r == Elements(elts, state, py, hashed)
    decreases elts
  {
    var vs: seq<V> := [];
    for i := 0 to |elts|
      invariant Elements(elts[..i], state, py, hashed) == Ok(vs)
    {
      var v := Interpret(elts[i], state, py);
      assert elts[..i + 1][..i] == elts[..i];
      if !v.Val? || (hashed && !py.hashable(v.value)) {
        ElementsStop(elts, i + 1, state, py, hashed);
        return Err(if v.Val? then Exception else v);
      }
      vs := vs + [v.value];
    }
    assert elts[..|elts|] == elts;
    r := Ok(vs);
  }

  lemma {:induction false} ElementsStop<V>(elts: seq<Expr<V>>, n: nat, state: V, py: Python<V>, hashed: bool)
    requires n <= |elts| && Elements(elts[..n], state, py, hashed).Err?
    ensures Elements(elts, state, py, hashed) == Elements(elts[..n], state, py, hashed)
  {
    if n < |elts| {
      var m := |elts| - 1;
      assert elts[..m][..n] == elts[..n];
      ElementsStop(elts[..m], n, state, py, hashed);
    } else {
      assert elts[..n] == elts;
    }
  }

  method PairLoop<V(==)>(items: seq<Expr<V>>, state: V, py: Python<V>) returns (r: Result<seq<(V, V)>, Outcome<V>>)
    requires |items| % 2 == 0
    ensures r == Pairs(items, state, py)
    decreases items
  {
    hide Walk, Pairs;
    var vs: seq<(V, V)> := [];
    var i := 0;
    NoPairs(items, state, py);
    while i < |items|
      invariant i <= |items| && i % 2 == 0
      invariant Pairs(items[..i], state, py) == Ok(vs)
      decreases |items| - i
    {
      PairStep(items, i, vs, state, py);
      var k := Interpret(items[i], state, py);
      var v := k;
      if k.Val? { v := Interpret(items[i + 1], state, py); }
      if !v.Val? || !py.hashable(k.value) {
        PairsStop(items, i + 2, state, py);
        return Err(if v.Val? then Exception else v);
      }
      vs := vs + [(k.value, v.value)];
      i := i + 2;
    }
    assert items[..i] == items;
    r := Ok(vs);
  }

  lemma {:induction false} NoPairs<V>(items: seq<Expr<V>>, state: V, py: Python<V>)
    ensures Pairs(items[..0], state, py) == Ok([])
  {
  }

  lemma {:induction false} PairStep<V>(items: seq<Expr<V>>, i: nat, vs: seq<(V, V)>, state: V, py: Python<V>)
    requires i + 2 <= |items| && i % 2 == 0 && Pairs(items[..i], state, py) == Ok(vs)
    ensures Pairs(items[..i + 2], state, py) ==
      var k, v := Walk(items[i], state, py), Walk(items[i + 1], state, py);
      if !k.Val? then Err(k) else if !v.Val? then Err(v) else if !py.hashable(k.value) then Err(Exception) else Ok(vs + [(k.value, v.value)])
  {
    hide Walk;
    var upTo := items[..i + 2];
    assert upTo[..i] == items[..i] && upTo[i] == items[i] && upTo[i + 1] == items[i + 1];
  }

  lemma {:induction false} PairsStop<V>(items: seq<Expr<V>>, n: nat, state: V, py: Python<V>)
    requires n <= |items| && n % 2 == 0 && |items| % 2 == 0 && Pairs(items[..n], state, py).Err?
    ensures Pairs(items, state, py) == Pairs(items[..n], state, py)
  {
    if n < |items| {
      var m := |items| - 2;
      assert items[..m][..n] == items[..n];
      PairsStop(items[..m], n, state, py);
    } else {
      assert items[..n] == items;
    }
  }

  // ---- White list ----

  /** No node outside `_SAFE_NODES`. */
  predicate Safe<V>(e: Expr<V>)
    decreases e
  {
    match e
    case Constant(_) => true
    case Name(_) => true
    case Attribute(target, _) => Safe(target)
    case Subscript(target, key) => Safe(target) && Safe(key)
    case Compare(left, _, comparators) => Safe(left) && AllSafe(comparators)
    case And(values) => AllSafe(values)
    case Or(values) => AllSafe(values)
    case Unary(op, operand) => !op.Invert? && Safe(operand)
    case Listing(elts) => AllSafe(elts)
    case SetOf(elts) => AllSafe(elts)
    case DictOf(items) => AllSafe(items)
    case NoKey => true
    case Other(_, _) => false
  }

  predicate AllSafe<V>(es: seq<Expr<V>>)
    decreases es
  {
    forall i :: 0 <= i < |es| ==> Safe(es[i])
  }

  /** A tree on the white list never reaches the fallbacks for unknown nodes and operators. */
  lemma {:induction false} SafeIsSupported<V>(e: Expr<V>, state: V, py: Python<V>)
    requires Safe(e)
    ensures !Walk(e, state, py).Unsupported?
    decreases e
  {
    match e
    case Attribute(target, _) => SafeIsSupported(target, state, py);
    case Subscript(target, key) => SafeIsSupported(target, state, py); SafeIsSupported(key, state, py);
    case Compare(left, ops, comparators) =>
      SafeIsSupported(left, state, py);
      if Walk(left, state, py).Val? { SafeChain(Walk(left, state, py).value, ops, comparators, state, py); }
    case And(values) => SafeAll(values, state, py);
    case Or(values) => SafeAny(values, state, py);
    case Unary(_, operand) => SafeIsSupported(operand, state, py);
    case Listing(elts) => SafeElements(elts, state, py, false);
    case SetOf(elts) => SafeElements(elts, state, py, true);
    case DictOf(items) => if |items| % 2 == 0 { SafePairs(items, state, py); }
    case _ =>
  }

  lemma {:induction false} SafeChain<V>(left: V, ops: seq<CmpOp>, comparators: seq<Expr<V>>, state: V, py: Python<V>)
    requires AllSafe(comparators)
    ensures !Chain(left, ops, comparators, state, py).Unsupported?
    decreases comparators
  {
    if comparators != [] && ops != [] {
      SafeIsSupported(comparators[0], state, py);
      var right := Walk(comparators[0], state, py);
      if right.Val? { SafeChain(right.value, ops[1..], comparators[1..], state, py); }
    }
  }

  lemma {:induction false} SafeAll<V>(values: seq<Expr<V>>, state: V, py: Python<V>)
    requires AllSafe(values)
    ensures !All(values, state, py).Unsupported?
    decreases values
  {
    if values != [] {
      SafeIsSupported(values[0], state, py);
      SafeAll(values[1..], state, py);
    }
  }

  lemma {:induction false} SafeAny<V>(values: seq<Expr<V>>, state: V, py: Python<V>)
    requires AllSafe(values)
    ensures !Any(values, state, py).Unsupported?
    decreases values
  {
    if values != [] {
      SafeIsSupported(values[0], state, py);
      SafeAny(values[1..], state, py);
    }
  }

  lemma {:induction false} SafeElements<V>(elts: seq<Expr<V>>, state: V, py: Python<V>, hashed: bool)
    requires AllSafe(elts)
    ensures var r := Elements(elts, state, py, hashed);
      r.Err? ==> !r.error.Unsupported? && !r.error.Val?
    decreases elts
  {
    if elts != [] {
      var n := |elts| - 1;
      SafeElements(elts[..n], state, py, hashed);
      SafeIsSupported(elts[n], state, py);
    }
  }

  lemma {:induction false} SafePairs<V>(items: seq<Expr<V>>, state: V, py: Python<V>)
    requires AllSafe(items) && |items| % 2 == 0
    ensures var r := Pairs(items, state, py); r.Err? ==> !r.error.Unsupported? && !r.error.Val?
    decreases items
  {
    if items != [] {
      var n := |items|;
      SafePairs(items[..n - 2], state, py);
      SafeIsSupported(items[n - 2], state, py);
      SafeIsSupported(items[n - 1], state, py);
    }
  }

  // ---- Evaluation of a condition ----

  datatype Verdict = Decided(holds: bool) | Rejected | Escaped

  /** `evaluate_condition`; `parse` gives no tree for a syntax error. */
  method EvaluateCondition<V(==)>(expression: Option<string>, blank: string -> bool, parse: string -> Option<Expr<V>>, state: V, py: Python<V>)
    returns (r: Verdict)
    ensures expression.None? || blank(expression.value) ==> r == Decided(true)
    ensures expression.Some? && !blank(expression.value) ==>
      var tree := parse(expression.value);
      && (tree.None? || !Safe(tree.value) ==> r == Rejected)
      && (tree.Some? && Safe(tree.value) ==>
          var o := Walk(tree.value, state, py);
          && !o.Unsupported?
          && (r.Rejected? <==> !o.Val?)
          && (r.Decided? <==> o.Val? && py.holds(o.value).Done?)
          && (r.Decided? ==> r.holds == py.holds(o.value).value)
          && (r.Escaped? <==> o.Val? && !py.holds(o.value).Done?))
  {
    if expression.None? || blank(expression.value) { return Decided(true); }
    var tree := parse(expression.value);
    if tree.None? || !Safe(tree.value) { return Rejected; }
    SafeIsSupported(tree.value, state, py);
    var o := Interpret(tree.value, state, py);
    if !o.Val? { return Rejected; }
    var b := py.holds(o.value);
    r := if b.Done? then Decided(b.value) else Escaped;
  }

  // ---- Chained comparison ----

  /** The comparisons of neighbouring operands. */
  function Neighbours<V>(left: Expr<V>, ops: seq<CmpOp>, comparators: seq<Expr<V>>): seq<Expr<V>>
    requires |ops| == |comparators|
    decreases comparators
  {
    if comparators == [] then []
    else [Compare(left, [ops[0]], [comparators[0]])] + Neighbours(comparators[0], ops[1..], comparators[1..])
  }

  /** Truth values hold as what they are. */
  predicate TruthHolds<V>(py: Python<V>) {
    py.holds(py.truth(true)) == Done(true) && py.holds(py.truth(false)) == Done(false)
  }

  lemma {:induction false} OneLink<V>(left: V, op: CmpOp, e: Expr<V>, state: V, py: Python<V>)
    ensures Chain(left, [op], [e], state, py) ==
      var right := Walk(e, state, py);
      if !right.Val? then right
      else
        var c := ApplyCmp(op, left, right.value, py);
        if c.Val? then Val(py.truth(c.value)) else Stop(c)
  {
    hide Walk, ApplyCmp;
    assert [op][1..] == [] && [e][1..] == [];
  }

  lemma {:induction false} ChainIsAll<V>(left: Expr<V>, value: V, ops: seq<CmpOp>, comparators: seq<Expr<V>>, state: V, py: Python<V>)
    requires TruthHolds(py) && |ops| == |comparators| && Walk(left, state, py) == Val(value)
    ensures Chain(value, ops, comparators, state, py) == All(Neighbours(left, ops, comparators), state, py)
    decreases comparators
  {
    hide ApplyCmp;
    if comparators != [] {
      var first := Compare(left, [ops[0]], [comparators[0]]);
      OneLink(value, ops[0], comparators[0], state, py);
      assert Walk(first, state, py) == Chain(value, [ops[0]], [comparators[0]], state, py);
      var right := Walk(comparators[0], state, py);
      if right.Val? { ChainIsAll(comparators[0], right.value, ops[1..], comparators[1..], state, py); }
      var all := Neighbours(left, ops, comparators);
      assert all[0] == first && all[1..] == Neighbours(comparators[0], ops[1..], comparators[1..]);
    }
  }

  /** A chained comparison is the `and` of its neighbouring comparisons: same value, same
      error, and stopped by the same comparison. */
  lemma {:induction false} ChainedComparisonIsAnd<V>(left: Expr<V>, ops: seq<CmpOp>, comparators: seq<Expr<V>>, state: V, py: Python<V>)
    requires TruthHolds(py) && |ops| == |comparators| && comparators != []
    ensures Walk(Compare(left, ops, comparators), state, py) == Walk(And(Neighbours(left, ops, comparators)), state, py)
  {
    hide Walk, Chain, ApplyCmp;
    var all := Neighbours(left, ops, comparators);
    WalkCompare(left, ops, comparators, state, py);
    WalkAnd(all, state, py);
    if Walk(left, state, py).Val? {
      ChainIsAll(left, Walk(left, state, py).value, ops, comparators, state, py);
    } else {
      assert all[0] == Compare(left, [ops[0]], [comparators[0]]);
      WalkCompare(left, [ops[0]], [comparators[0]], state, py);
    }
  }

  lemma {:induction false} WalkCompare<V>(left: Expr<V>, ops: seq<CmpOp>, comparators: seq<Expr<V>>, state: V, py: Python<V>)
    ensures Walk(Compare(left, ops, comparators), state, py) ==
      if Walk(left, state, py).Val? then Chain(Walk(left, state, py).value, ops, comparators, state, py) else Walk(left, state, py)
  {
  }

  lemma {:induction false} WalkAnd<V>(values: seq<Expr<V>>, state: V, py: Python<V>)
    ensures Walk(And(values), state, py) == All(values, state, py)
  {
  }

  /** Once the comparisons so far are false or raise, later operands do not matter. */
  lemma {:induction false} ChainStopsEarly<V>(left: V, ops: seq<CmpOp>, comparators: seq<Expr<V>>, n: nat, state: V, py: Python<V>)
    requires TruthHolds(py) && |ops| == |comparators| && n <= |ops|
    requires Chain(left, ops[..n], comparators[..n], state, py) != Val(py.truth(true))
    ensures Chain(left, ops, comparators, state, py) == Chain(left, ops[..n], comparators[..n], state, py)
    decreases n
  {
    hide ApplyCmp;
    assert n > 0;
    var right := Walk(comparators[0], state, py);
    assert ops[..n][1..] == ops[1..][..n - 1] && comparators[..n][1..] == comparators[1..][..n - 1];
    if right.Val? && ApplyCmp(ops[0], left, right.value, py) == Val(true) {
      ChainStopsEarly(right.value, ops[1..], comparators[1..], n - 1, state, py);
    }
  }
}
