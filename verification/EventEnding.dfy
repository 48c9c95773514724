/** How a subscription ends: which advances wait, and that a close ends every listener
    after what it has left to see (sidecar/orca_core/orchestrator/events.py). */
module EventEnding {
  import opened Wrappers
  import opened EventChannel
  import opened EventDelivery

  predicate HasEnd(queue: Queue) {
    exists i :: 0 <= i < |queue| && queue[i].None?
  }

  predicate EndsWithEnd(queue: Queue) {
    queue != [] && queue[|queue| - 1].None?
  }

  /** The events in front of the first sentinel. */
  function BeforeEnd(queue: Queue): seq<RunEvent> {
    if queue == [] || queue[0].None? then [] else [queue[0].value] + BeforeEnd(queue[1..])
  }

  /** What is left to replay. */
  function Unreplayed(s: Sub): seq<RunEvent> {
    match s.stage
    case AtGap(buffered) => Fresh(s.last, buffered)
    case Replaying(rest) => Fresh(s.last, rest)
    case _ => []
  }

  predicate GapDue(s: Sub) {
    s.stage.AtGap? && LostEvents(s)
  }

  // ---- When an advance waits, and when it ends the subscription ----

  lemma {:induction false} ReplayWaits(s: Sub, rest: seq<RunEvent>, queue: Queue)
    ensures var a := Replay(s, rest, queue);
      && (a.Blocked? <==> Fresh(s.last, rest) == [] && !s.alreadyClosed && queue == [])
      && (a.Finish? <==> Fresh(s.last, rest) == [] && (s.alreadyClosed || (queue != [] && queue[0].None?)))
    decreases |rest|
  {
    if rest != [] && Old(s.last, rest[0]) { ReplayWaits(s, rest[1..], queue); }
  }

  /** An advance waits exactly if the subscriber has ended, or nothing is left to replay,
      it did not register on a closed run, and its queue is empty.  It finishes exactly if
      nothing is left to replay and it registered on a closed run or meets the sentinel. */
  lemma AdvanceWaits(s: Sub, queue: Queue)
    requires s.stage.Live? ==> !s.alreadyClosed
    ensures var a, done := Resume(s, queue), !GapDue(s) && Unreplayed(s) == [];
      && (a.Blocked? <==> s.stage.Ended? || (done && !s.alreadyClosed && queue == []))
      && (a.Finish? <==> !s.stage.Ended? && done && (s.alreadyClosed || (queue != [] && queue[0].None?)))
  {
    match s.stage
    case AtGap(buffered) => ReplayWaits(s, buffered, queue);
    case Replaying(rest) => ReplayWaits(s, rest, queue);
    case _ =>
  }

  // ---- A close ----

  /** A close leaves the sentinel at the end of every listed queue, full or not, and
      does not touch any other queue. */
  lemma CloseSendsEnd(c: Channel, clearBuffer: bool, limits: Limits)
    requires Listening(c) && QueuesBounded(c.queues, limits.queue)
    ensures var d := CloseRun(c, clearBuffer, limits);
      && d.closed && d.queues.Keys == c.queues.Keys
      && forall q :: q in c.queues ==>
        if q in c.subscribers then EndsWithEnd(d.queues[q]) else d.queues[q] == c.queues[q]
  {
  }

  /** Clearing forgets the run: the next event is the first one, and a new subscription is
      listed, misses nothing and has nothing to replay; clearing in a close forgets as
      much, but the run stays closed. */
  lemma ClearForgets(c: Channel, name: string, payload: string, q: QueueId, last: Option<int>, limits: Limits)
    requires limits.buffer > 0
    ensures var d := Clear(c);
      && Append(d, name, payload, limits.buffer).buffer == [RunEvent(1, name, payload)]
      && Append(d, name, payload, limits.buffer).overflowFrom == Some(1)
      && Register(d, q).subscribers == c.subscribers + [q]
      && NewSub(d, last, 0).stage == AtGap([]) && !LostEvents(NewSub(d, last, 0)) && !NewSub(d, last, 0).alreadyClosed
    ensures var d := CloseRun(c, true, limits);
      && Append(d, name, payload, limits.buffer).buffer == [RunEvent(1, name, payload)]
      && Append(d, name, payload, limits.buffer).overflowFrom == Some(1)
      && Register(d, q).subscribers == c.subscribers
      && NewSub(d, last, 0).stage == AtGap([]) && !LostEvents(NewSub(d, last, 0)) && NewSub(d, last, 0).alreadyClosed
  {
  }

  lemma EndIsThere(queue: Queue)
    requires EndsWithEnd(queue)
    ensures HasEnd(queue)
  {
  }

  // ---- From the close to the end ----

  /** Advances that are left until a subscriber with a sentinel in its queue has ended. */
  function Turns(s: Sub, queue: Queue): nat {
    (if GapDue(s) then 1 else 0) + |Unreplayed(s)| + |BeforeEnd(queue)| + 1
  }

  /** Everything that a subscriber will have got at its end. */
  function Finally(s: Sub, queue: Queue): seq<RunEvent> {
    s.got + (Unreplayed(s) + BeforeEnd(queue))
  }

  /** `s` comes closer to its end, or has ended with `all`. */
  ghost predicate Nearing(s: Sub, queue: Queue, all: seq<RunEvent>, turns: nat) {
    if s.stage.Ended? then s.got == all
    else HasEnd(queue) && Finally(s, queue) == all && Turns(s, queue) <= turns
  }

  lemma {:induction false} BeforeEndAppend(queue: Queue, item: Option<RunEvent>)
    requires HasEnd(queue)
    ensures HasEnd(queue + [item]) && BeforeEnd(queue + [item]) == BeforeEnd(queue)
  {
    var i :| 0 <= i < |queue| && queue[i].None?;
    assert (queue + [item])[i].None?;
    if i > 0 && queue[0].Some? {
      assert (queue + [item])[1..] == queue[1..] + [item];
      assert queue[1..][i - 1].None?;
      BeforeEndAppend(queue[1..], item);
    }
  }

  lemma EndStays(queue: Queue)
    requires HasEnd(queue) && queue[0].Some?
    ensures HasEnd(queue[1..])
  {
    var i :| 0 <= i < |queue| && queue[i].None?;
    assert queue[1..][i - 1].None?;
  }

  lemma NotEmpty(queue: Queue)
    requires HasEnd(queue)
    ensures queue != []
  {
  }

  lemma {:induction false} ReceiveNears(s: Sub, queue: Queue)
    requires HasEnd(queue)
    ensures match Receive(s.(stage := Live), queue)
      case Yield(t, more, item) =>
        && t == s.(stage := Live, got := s.got + [item]) && HasEnd(more)
        && [item] + ([] + BeforeEnd(more)) == BeforeEnd(queue)
      case Finish(_) => BeforeEnd(queue) == []
      case Blocked => false
  {
    hide HasEnd;
    NotEmpty(queue);
    if queue[0].Some? { EndStays(queue); }
  }

  lemma {:induction false} ReplayNears(s: Sub, rest: seq<RunEvent>, queue: Queue)
    requires HasEnd(queue)
    ensures match Replay(s, rest, queue)
      case Yield(t, more, item) =>
        && !t.stage.Ended? && !t.stage.AtGap? && HasEnd(more) && t.got == s.got + [item]
        && [item] + (Unreplayed(t) + BeforeEnd(more)) == Fresh(s.last, rest) + BeforeEnd(queue)
      case Finish(_) => Fresh(s.last, rest) == [] && (BeforeEnd(queue) == [] || s.alreadyClosed)
      case Blocked => false
    decreases |rest|
  {
    hide HasEnd, Receive, BeforeEnd;
    if rest == [] {
      if !s.alreadyClosed { ReceiveNears(s, queue); }
      assert Fresh(s.last, rest) + BeforeEnd(queue) == BeforeEnd(queue);
    } else if Old(s.last, rest[0]) {
      ReplayNears(s, rest[1..], queue);
    } else {
      assert [rest[0]] + (Fresh(s.last, rest[1..]) + BeforeEnd(queue)) == Fresh(s.last, rest) + BeforeEnd(queue);
    }
  }

  /** Every advance uses up one turn and loses nothing. */
  lemma AdvanceNears(s: Sub, queue: Queue, all: seq<RunEvent>, turns: nat)
    requires Nearing(s, queue, all, turns) && !s.stage.Ended? && !s.alreadyClosed
    ensures match Resume(s, queue)
      case Yield(t, rest, _) => Nearing(t, rest, all, turns - 1) && turns > 1 && t.alreadyClosed == s.alreadyClosed
      case Finish(_) => s.got == all
      case Blocked => false
  {
    if !GapDue(s) {
      AdvanceSpec(s, queue);
      var a := Resume(s, queue);
      if a.Yield? {
        assert a.sub.got + (Unreplayed(a.sub) + BeforeEnd(a.queue)) == s.got + ([a.item] + (Unreplayed(a.sub) + BeforeEnd(a.queue)));
      }
    }
  }

  lemma {:induction false} AdvanceSpec(s: Sub, queue: Queue)
    requires HasEnd(queue) && !s.stage.Ended? && !GapDue(s) && !s.alreadyClosed
    ensures match Resume(s, queue)
      case Yield(t, more, item) =>
        && !t.stage.Ended? && !t.stage.AtGap? && HasEnd(more) && t.got == s.got + [item]
        && [item] + (Unreplayed(t) + BeforeEnd(more)) == Unreplayed(s) + BeforeEnd(queue)
        && t.alreadyClosed == s.alreadyClosed
      case Finish(_) => Unreplayed(s) + BeforeEnd(queue) == []
      case Blocked => false
  {
    ResumeKeeps(s, queue);
    match s.stage
    case AtGap(buffered) => ReplayNears(s, buffered, queue);
    case Replaying(rest) => ReplayNears(s, rest, queue);
    case Live => if queue[0].Some? { EndStays(queue); }
  }

  /** The same inside the whole run. */
  ghost predicate Approaching(w: World, q: QueueId, all: seq<RunEvent>, turns: nat) {
    && q in w.subs && q in w.channel.queues && !w.subs[q].alreadyClosed
    && Nearing(w.subs[q], w.channel.queues[q], all, turns)
  }

  lemma EmitNears(w: World, name: string, payload: string, limits: Limits, q: QueueId, all: seq<RunEvent>, turns: nat)
    requires limits.buffer > 0 && Listening(w.channel) && Approaching(w, q, all, turns)
    ensures Approaching(EmitStep(w, name, payload, limits), q, all, turns)
  {
    hide Listening, HasEnd, BeforeEnd, Append, Quick;
    var e := RunEvent(w.channel.nextId + 1, name, payload);
    if HasEnd(w.channel.queues[q]) { BeforeEndAppend(w.channel.queues[q], Some(e)); }
  }

  lemma AdvanceApproaches(w: World, limits: Limits, q: QueueId, all: seq<RunEvent>, turns: nat)
    requires Approaching(w, q, all, turns)
    ensures Approaching(ResumeStep(w, q), q, all, if turns > 0 then turns - 1 else 0)
  {
    hide Resume, HasEnd, BeforeEnd, Without, Finally, Turns;
    if !w.subs[q].stage.Ended? {
      AdvanceNears(w.subs[q], w.channel.queues[q], all, turns);
    } else {
      EndedWaits(w.subs[q], w.channel.queues[q]);
    }
  }

  lemma EndedWaits(s: Sub, queue: Queue)
    requires s.stage.Ended?
    ensures Resume(s, queue).Blocked?
  {
  }

  lemma StepNears(w: World, op: Op, limits: Limits, q: QueueId, all: seq<RunEvent>, turns: nat)
    requires limits.buffer > 0 && Listening(w.channel) && w.subs.Keys == w.channel.queues.Keys
    requires Approaching(w, q, all, turns) && !op.OpClose? && op != OpLeave(q)
    ensures Approaching(Step(w, op, limits), q, all, if op == OpResume(q) && turns > 0 then turns - 1 else turns)
  {
    hide Nearing, Listening, EmitStep, Register, NewSub, Without, Resume;
    match op
    case OpEmit(name, payload) => EmitNears(w, name, payload, limits, q, all, turns);
    case OpResume(x) => if x == q { AdvanceApproaches(w, limits, q, all, turns); }
    case OpSubscribe(x, last) => RegisterQueues(w.channel, x);
    case OpLeave(x) =>
  }

  lemma RegisterQueues(c: Channel, x: QueueId)
    ensures Register(c, x).queues == c.queues[x := []]
  {
  }

  function Advances(ops: seq<Op>, q: QueueId): nat {
    if ops == [] then 0
    else Advances(ops[..|ops| - 1], q) + if ops[|ops| - 1] == OpResume(q) then 1 else 0
  }

  lemma {:induction false} RunNears(ops: seq<Op>, more: seq<Op>, limits: Limits, q: QueueId, all: seq<RunEvent>, turns: nat)
    requires limits.buffer > 0 && Approaching(Run(ops, limits), q, all, turns)
    requires forall i :: 0 <= i < |more| ==> !more[i].OpClose? && more[i] != OpLeave(q)
    ensures var n := Advances(more, q);
      Approaching(Run(ops + more, limits), q, all, if n < turns then turns - n else 0)
  {
    hide Approaching, WorldOk, Step, Listening;
    if more == [] {
      assert ops + more == ops;
    } else {
      var k := |more| - 1;
      RunNears(ops, more[..k], limits, q, all, turns);
      assert (ops + more)[..|ops + more| - 1] == ops + more[..k];
      var n := Advances(more[..k], q);
      var v := Run(ops + more[..k], limits);
      Steppable(v, limits);
      StepNears(v, more[k], limits, q, all, if n < turns then turns - n else 0);
    }
  }

  /** Advances a subscriber needs at most, once its run is closed: one for a gap, one for
      every event it has yet to see, and one for the end. */
  function Due(s: Sub, queue: Queue): nat {
    (if GapDue(s) then 1 else 0) + |Pending(s.last, s.stage, queue)| + 1
  }

  lemma {:induction false} FrontOfQueue(queue: Queue)
    ensures |BeforeEnd(queue)| <= |Events(queue)|
    ensures EndsWithEnd(queue) && (forall i :: 0 <= i < |queue| - 1 ==> queue[i].Some?) ==>
      BeforeEnd(queue) == Events(queue)
  {
    if queue != [] {
      FrontOfQueue(queue[1..]);
      if |queue| == 1 { assert queue[1..] == []; }
    }
  }

  lemma ForcedNears(s: Sub, queue: Queue, cap: nat)
    requires !s.stage.Ended? && (cap > 0 ==> |queue| <= cap)
    ensures var r := ForceEnd(queue, cap);
      && HasEnd(r) && Turns(s, r) <= Due(s, queue)
      && (!HasEnd(queue) ==> Finally(s, r) == s.got + Pending(s.last, s.stage, r))
  {
    var r := ForceEnd(queue, cap);
    FrontOfQueue(r);
    CloseCost(s, queue, cap);
    PendingParts(s, r);
    assert EndsWithEnd(r);
    EndIsThere(r);
    if !HasEnd(queue) {
      forall i | 0 <= i < |r| - 1 ensures r[i].Some? {
        assert r[i] == queue[if Full(queue, cap) then i + 1 else i];
      }
    }
  }

  lemma {:induction false} PendingParts(s: Sub, queue: Queue)
    ensures Pending(s.last, s.stage, queue) == Unreplayed(s) + Events(queue)
  {
    assert [] + Events(queue) == Events(queue);
  }

  /** A listener of a run that is closed and then advanced as often as it may need to be
      has ended, with everything that was in front of the first sentinel; that is all it
      had left to see after the close, unless the run had been closed before. */
  lemma {:induction false} ClosedSubscriberEnds(ops: seq<Op>, more: seq<Op>, limits: Limits, q: QueueId)
    requires limits.buffer > 0 && q in Run(ops, limits).channel.subscribers
    requires forall i :: 0 <= i < |more| ==> !more[i].OpClose? && more[i] != OpLeave(q)
    ensures var w := Run(ops, limits); q in w.subs && q in w.channel.queues
    ensures var w, v := Run(ops, limits), Run(ops + [OpClose] + more, limits);
      var s, queue := w.subs[q], w.channel.queues[q];
      Advances(more, q) >= Due(s, queue) ==>
        && q in v.subs && v.subs[q].stage.Ended?
        && v.subs[q].got == Finally(s, ForceEnd(queue, limits.queue))
        && (!HasEnd(queue) ==> v.subs[q].got == s.got + Pending(s.last, s.stage, ForceEnd(queue, limits.queue)))
  {
    hide Run, SubOk, LogOk, Step, Pending, Finally, ForceEnd, HasEnd;
    var w := Run(ops, limits);
    ListedIsLive(w, limits, q);
    var s, queue := w.subs[q], w.channel.queues[q];
    ForcedNears(s, queue, limits.queue);
    CloseApproaches(ops, limits, q);
    var all := Finally(s, ForceEnd(queue, limits.queue));
    RunNears(ops + [OpClose], more, limits, q, all, Due(s, queue));
    if Advances(more, q) >= Due(s, queue) {
      NoTurnsLeft(Run(ops + [OpClose] + more, limits), q, all);
    }
  }

  lemma NoTurnsLeft(w: World, q: QueueId, all: seq<RunEvent>)
    requires Approaching(w, q, all, 0)
    ensures q in w.subs && w.subs[q].stage.Ended? && w.subs[q].got == all
  {
  }

  lemma ListedIsLive(w: World, limits: Limits, q: QueueId)
    requires WorldOk(w, limits) && q in w.channel.subscribers
    ensures Listening(w.channel) && q in w.subs && q in w.channel.queues
    ensures !w.subs[q].stage.Ended? && !w.subs[q].alreadyClosed
    ensures limits.queue > 0 ==> |w.channel.queues[q]| <= limits.queue
  {
    hide LedgerOk, GapOk, BeganOk, LogOk;
  }

  lemma {:induction false} CloseApproaches(ops: seq<Op>, limits: Limits, q: QueueId)
    requires limits.buffer > 0 && q in Run(ops, limits).channel.subscribers
    ensures var w := Run(ops, limits); q in w.subs && q in w.channel.queues
    ensures var w := Run(ops, limits); var s, queue := w.subs[q], w.channel.queues[q];
      Approaching(Run(ops + [OpClose], limits), q, Finally(s, ForceEnd(queue, limits.queue)), Due(s, queue))
  {
    hide Run, SubOk, LogOk, ChannelOk, Pending, ForceEnd, HasEnd, BeforeEnd, PushedOut, Due;
    var w := Run(ops, limits);
    ListedIsLive(w, limits, q);
    ForcedNears(w.subs[q], w.channel.queues[q], limits.queue);
    RunClose(ops, limits);
  }

  lemma {:induction false} RunClose(ops: seq<Op>, limits: Limits)
    requires limits.buffer > 0
    ensures Listening(Run(ops, limits).channel)
    ensures Run(ops + [OpClose], limits) == CloseStep(Run(ops, limits), limits)
  {
    hide WorldOk, CloseStep, Listening;
    Steppable(Run(ops, limits), limits);
    assert (ops + [OpClose])[..|ops|] == ops;
  }
}
