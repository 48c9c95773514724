/** What an observer sees of one tool invocation, and the ordering rules it has to
    keep (sidecar/orca_core/tools/runtime.py). */
module ToolTrace {
  type Id = nat

  datatype Action =
    | Began | Committed | RolledBack               // transaction
    | CallInserted(call: Id) | AuditInserted(audit: Id) | CallLinked(call: Id, audit: Id)
    | JournalInserted(call: Id)
    | Mirrored                                     // line appended to the audit file
    | DryRan | ToolRan                             // the tool was started
    | Emitted(name: string)

  /** What the ordering rules depend on. */
  datatype Terms = Terms(call: Id, reversible: bool, dryFirst: bool, mayRun: bool)

  /** State of an observer that reads the trace from the left. */
  datatype Monitor = Monitor(
    fine: bool, open: bool, journaled: bool, committed: bool, dried: bool, runs: nat, announced: seq<string>)

  const NOTHING := Monitor(true, false, false, false, false, 0, [])

  /** Events that promise something about committed rows. */
  predicate Promises(name: string) {
    name in ["tool_call.succeeded", "tool_call.denied", "approval.requested"]
  }

  function Next(m: Monitor, a: Action, terms: Terms): Monitor {
    match a
    case Began => m.(fine := m.fine && !m.open, open := true, journaled := false, committed := false)
    case Committed => m.(fine := m.fine && m.open, open := false, committed := m.open)
    case RolledBack => m.(fine := m.fine && m.open, open := false, journaled := false)
    case JournalInserted(call) => m.(journaled := m.open && call == terms.call)
    case DryRan => m.(dried := true)
    case ToolRan =>
      m.(fine := m.fine && terms.mayRun && m.open && (terms.reversible ==> m.journaled) && (terms.dryFirst ==> m.dried),
         runs := m.runs + 1)
    case Emitted(name) => m.(fine := m.fine && !m.open && (Promises(name) ==> m.committed), announced := m.announced + [name])
    case _ => m
  }

  function Watch(t: seq<Action>, terms: Terms): Monitor {
    if t == [] then NOTHING else Next(Watch(t[..|t| - 1], terms), t[|t| - 1], terms)
  }

  // ---- What a fine trace means ----

  /** A transaction begun at `b` is still open just before position `i`. */
  ghost predicate OpenSince(t: seq<Action>, b: nat, i: nat) {
    b < i <= |t| && t[b].Began? && forall k :: b < k < i ==> !t[k].Began? && !t[k].Committed? && !t[k].RolledBack?
  }

  /** The last transaction before position `i` was committed. */
  ghost predicate CommittedBefore(t: seq<Action>, i: nat) {
    exists c {:trigger t[c].Committed?} :: 0 <= c < i <= |t| && t[c].Committed? && forall k :: c < k < i ==> !t[k].Began?
  }

  ghost predicate Holds(t: seq<Action>, m: Monitor, terms: Terms) {
    && (m.open ==> exists b :: OpenSince(t, b, |t|) && (m.journaled ==> JournaledIn(t, b, |t|, terms.call)))
    && (!m.open ==> NoneOpen(t, |t|))
    && (m.committed ==> CommittedBefore(t, |t|))
    && (m.dried ==> DriedBefore(t, |t|))
  }

  ghost predicate DriedBefore(t: seq<Action>, i: nat) {
    exists j :: 0 <= j < i <= |t| && t[j] == DryRan
  }

  ghost predicate NoneOpen(t: seq<Action>, i: nat) {
    forall b :: !OpenSince(t, b, i)
  }

  ghost predicate JournaledIn(t: seq<Action>, b: nat, i: nat, call: Id) {
    exists j :: b < j < i <= |t| && t[j] == JournalInserted(call)
  }

  /** The ordering rules at one position. */
  ghost predicate InOrderAt(t: seq<Action>, i: nat, terms: Terms)
    requires i < |t|
  {
    match t[i]
    case ToolRan =>
      && terms.mayRun && (terms.dryFirst ==> DriedBefore(t, i))
      && exists b :: OpenSince(t, b, i) && (terms.reversible ==> JournaledIn(t, b, i, terms.call))
    case Emitted(name) => NoneOpen(t, i) && (Promises(name) ==> CommittedBefore(t, i))
    case _ => true
  }

  /** The tool runs only when it may, after a dry run if one is due, inside an open transaction, and if it is
      reversible after its journal entry in that transaction; events come outside
      transactions, and those that promise committed rows after the commit. */
  ghost predicate InOrder(t: seq<Action>, terms: Terms) {
    forall i :: 0 <= i < |t| ==> InOrderAt(t, i, terms)
  }

  lemma NoneOpenBelow(t: seq<Action>, a: Action, i: nat)
    requires i <= |t| && NoneOpen(t, i)
    ensures NoneOpen(t + [a], i)
  {
    var u := t + [a];
    assert forall k :: 0 <= k < |t| ==> u[k] == t[k];
    forall b | OpenSince(u, b, i) ensures false {
      assert OpenSince(t, b, i);
    }
  }

  lemma StillNoneOpen(t: seq<Action>, a: Action)
    requires !a.Began? && (NoneOpen(t, |t|) || a.Committed? || a.RolledBack?)
    ensures NoneOpen(t + [a], |t| + 1)
  {
    var u := t + [a];
    assert u[|t|] == a;
    assert forall k :: 0 <= k < |t| ==> u[k] == t[k];
    forall b: nat | OpenSince(u, b, |u|) ensures false {
      if b < |t| { assert OpenSince(t, b, |t|); }
    }
  }

  lemma SameBelow(t: seq<Action>, a: Action, b: nat, i: nat, call: Id)
    requires i <= |t|
    ensures OpenSince(t, b, i) ==> OpenSince(t + [a], b, i)
    ensures JournaledIn(t, b, i, call) ==> JournaledIn(t + [a], b, i, call)
    ensures CommittedBefore(t, i) ==> CommittedBefore(t + [a], i)
    ensures DriedBefore(t, i) ==> DriedBefore(t + [a], i)
  {
    var u := t + [a];
    assert forall k :: 0 <= k < |t| ==> u[k] == t[k];
  }

  lemma StillOpen(t: seq<Action>, a: Action, b: nat, call: Id)
    requires OpenSince(t, b, |t|) && !a.Began? && !a.Committed? && !a.RolledBack?
    ensures OpenSince(t + [a], b, |t| + 1)
    ensures JournaledIn(t, b, |t|, call) || a == JournalInserted(call) ==>
      JournaledIn(t + [a], b, |t| + 1, call)
  {
    var u := t + [a];
    assert forall k :: 0 <= k < |t| ==> u[k] == t[k];
    assert u[|t|] == a;
  }

  lemma StillCommitted(t: seq<Action>, a: Action)
    requires CommittedBefore(t, |t|) && !a.Began?
    ensures CommittedBefore(t + [a], |t| + 1)
  {
    var u := t + [a];
    assert forall k :: 0 <= k < |t| ==> u[k] == t[k];
    var c :| 0 <= c < |t| && t[c].Committed? && forall k :: c < k < |t| ==> !t[k].Began?;
    assert u[c].Committed?;
  }

  lemma StillDried(t: seq<Action>, a: Action)
    requires DriedBefore(t, |t|) || a.DryRan?
    ensures DriedBefore(t + [a], |t| + 1)
  {
    var u := t + [a];
    assert u[|t|] == a && forall k :: 0 <= k < |t| ==> u[k] == t[k];
  }

  lemma HoldsNext(t: seq<Action>, a: Action, m: Monitor, terms: Terms)
    requires Holds(t, m, terms)
    ensures Holds(t + [a], Next(m, a, terms), terms)
  {
    hide OpenSince, JournaledIn, CommittedBefore, NoneOpen, DriedBefore;
    var n, u := Next(m, a, terms), t + [a];
    if !n.open { StillNoneOpen(t, a); }
    if n.open {
      if a.Began? {
        JustBegun(t);
      } else {
        var b :| OpenSince(t, b, |t|) && (m.journaled ==> JournaledIn(t, b, |t|, terms.call));
        StillOpen(t, a, b, terms.call);
        assert OpenSince(u, b, |u|);
      }
    }
    if n.committed {
      if a.Committed? { JustCommitted(t); } else { StillCommitted(t, a); }
    }
    if n.dried { StillDried(t, a); }
  }

  lemma JustBegun(t: seq<Action>)
    ensures OpenSince(t + [Began], |t|, |t| + 1)
  {
  }

  lemma JustCommitted(t: seq<Action>)
    ensures CommittedBefore(t + [Committed], |t| + 1)
  {
    assert (t + [Committed])[|t|].Committed?;
  }

  lemma InOrderLast(t: seq<Action>, a: Action, m: Monitor, terms: Terms)
    requires Holds(t, m, terms) && Next(m, a, terms).fine
    ensures InOrderAt(t + [a], |t|, terms)
  {
    hide OpenSince, JournaledIn, CommittedBefore, NoneOpen, DriedBefore;
    var u := t + [a];
    assert u[|t|] == a;
    if a.ToolRan? {
      var b :| OpenSince(t, b, |t|) && (m.journaled ==> JournaledIn(t, b, |t|, terms.call));
      SameBelow(t, a, b, |t|, terms.call);
    } else if a.Emitted? {
      NoneOpenBelow(t, a, |t|);
      SameBelow(t, a, 0, |t|, terms.call);
    }
  }

  lemma InOrderKept(t: seq<Action>, a: Action, i: nat, terms: Terms)
    requires i < |t| && InOrderAt(t, i, terms)
    ensures InOrderAt(t + [a], i, terms)
  {
    hide OpenSince, JournaledIn, CommittedBefore, NoneOpen, DriedBefore;
    assert (t + [a])[i] == t[i];
    if t[i].ToolRan? {
      var b :| OpenSince(t, b, i) && (terms.reversible ==> JournaledIn(t, b, i, terms.call));
      SameBelow(t, a, b, i, terms.call);
    } else {
      if NoneOpen(t, i) { NoneOpenBelow(t, a, i); }
      SameBelow(t, a, 0, i, terms.call);
    }
  }

  /** A trace the monitor finds fine obeys the ordering rules at every position. */
  lemma {:induction false} FineMeansInOrder(t: seq<Action>, terms: Terms)
    ensures Holds(t, Watch(t, terms), terms)
    ensures Watch(t, terms).fine ==> InOrder(t, terms)
  {
    hide Holds, InOrderAt;
    if t == [] {
      NothingHolds(terms);
    } else {
      var n := |t| - 1;
      var s, a := t[..n], t[n];
      assert t == s + [a];
      FineMeansInOrder(s, terms);
      HoldsNext(s, a, Watch(s, terms), terms);
      if Watch(t, terms).fine {
        forall i | 0 <= i < |t| ensures InOrderAt(t, i, terms) {
          if i < n { InOrderKept(s, a, i, terms); } else { InOrderLast(s, a, Watch(s, terms), terms); }
        }
      }
    }
  }

  lemma NothingHolds(terms: Terms)
    ensures Holds([], NOTHING, terms)
  {
  }

  function Count(t: seq<Action>): nat {
    if t == [] then 0 else Count(t[..|t| - 1]) + if t[|t| - 1].ToolRan? then 1 else 0
  }

  function Names(t: seq<Action>): seq<string> {
    if t == [] then [] else Names(t[..|t| - 1]) + if t[|t| - 1].Emitted? then [t[|t| - 1].name] else []
  }

  /** The monitor counts the runs of the tool, notes a dry run, and lists the emitted
      events. */
  lemma {:induction false} MonitorCounts(t: seq<Action>, terms: Terms)
    ensures Watch(t, terms).runs == Count(t) && Watch(t, terms).announced == Names(t)
    ensures Watch(t, terms).dried <==> DryRan in t
    ensures Count(t) > 0 <==> ToolRan in t
  {
    if t != [] {
      MonitorCounts(t[..|t| - 1], terms);
      assert t == t[..|t| - 1] + [t[|t| - 1]];
    }
  }
}
