/** Delivery of one run's events to its subscribers, over every interleaving of
    emits, registrations, reads, departures and closes
    (sidecar/orca_core/orchestrator/events.py). */
module EventDelivery {
  import opened Wrappers
  import opened EventChannel
  import Decimals

  /** Where the `subscribe` generator is suspended. */
  datatype Stage =
    | AtGap(buffered: seq<RunEvent>)
    | Replaying(rest: seq<RunEvent>)
    | Live
    | Ended

  /** A subscriber: the locals of its generator, what it has yielded (a gap frame
      and events), and history fields that no step reads. */
  datatype Sub = Sub(
    last: Option<int>,
    marker: Option<nat>,
    alreadyClosed: bool,
    stage: Stage,
    gap: Option<RunEvent>,
    got: seq<RunEvent>,
    emitted: nat,         // events emitted before it registered
    oldest: nat,          // id of the oldest event buffered then; if none, of the next one
    first: nat,           // id of the first event it is entitled to
    reach: nat,           // events up to this id were handed to it
    omitted: set<nat>)    // ids that a close pushed out of its full queue

  /** `log` is the history of all emitted events. */
  datatype World = World(channel: Channel, subs: map<QueueId, Sub>, log: seq<RunEvent>, closes: nat)

  datatype Op =
    | OpEmit(name: string, payload: string)
    | OpSubscribe(q: QueueId, last: Option<int>)
    | OpResume(q: QueueId)
    | OpLeave(q: QueueId)
    | OpClose

  const START := World(EMPTY, map[], [], 0)

  // ---- The subscriber generator ----

  predicate LostEvents(s: Sub) {
    s.last.Some? && s.marker.Some? && s.last.value + 1 < s.marker.value
  }

  function GapEvent(from: int, marker: nat): RunEvent {
    RunEvent(if marker > 1 then marker - 1 else 1, "run.gap", GapPayload(from, marker - 1))
  }

  function GapPayload(from: int, to: int): string {
    "{\"dropped_from\":" + Decimals.PrintInt(from) + ",\"dropped_to\":" + Decimals.PrintInt(to) + "}"
  }

  /** What one `__anext__` does: yield an item, finish, or wait for the queue. */
  datatype Advance = Yield(sub: Sub, queue: Queue, item: RunEvent) | Finish(queue: Queue) | Blocked

  function Resume(s: Sub, queue: Queue): Advance {
    match s.stage
    case AtGap(buffered) =>
      if LostEvents(s) then
        var gap := GapEvent(s.last.value + 1, s.marker.value);
        Yield(s.(stage := Replaying(buffered), gap := Some(gap)), queue, gap)
      else Replay(s, buffered, queue)
    case Replaying(rest) => Replay(s, rest, queue)
    case Live => Receive(s, queue)
    case Ended => Blocked
  }

  predicate Old(last: Option<int>, e: RunEvent) {
    last.Some? && e.id <= last.value
  }

  function Replay(s: Sub, rest: seq<RunEvent>, queue: Queue): Advance
    decreases |rest|
  {
    if rest == [] then
      if s.alreadyClosed then Finish(queue) else Receive(s.(stage := Live), queue)
    else if Old(s.last, rest[0]) then Replay(s, rest[1..], queue)
    else Yield(s.(stage := Replaying(rest[1..]), got := s.got + [rest[0]]), queue, rest[0])
  }

  function Receive(s: Sub, queue: Queue): Advance {
    if queue == [] then Blocked
    else if queue[0].None? then Finish(queue[1..])
    else Yield(s.(got := s.got + [queue[0].value]), queue[1..], queue[0].value)
  }

  // ---- Steps of the world ----

  function FirstWanted(last: Option<int>, oldest: nat, emitted: nat): nat {
    if last.None? || last.value + 1 < oldest then oldest
    else if last.value < emitted then (last.value + 1) as nat
    else emitted + 1
  }

  function NewSub(c: Channel, last: Option<int>, emitted: nat): Sub {
    var oldest := if emitted < |c.buffer| then 1 else emitted - |c.buffer| + 1;
    Sub(last, c.overflowFrom, c.closed, AtGap(c.buffer), None, [], emitted, oldest,
        FirstWanted(last, oldest, emitted), emitted, {})
  }

  function PushedOut(q: Queue, cap: nat): set<nat> {
    if Full(q, cap) && q[0].Some? then {q[0].value.id} else {}
  }

  /** `emit`: the listeners that had room are handed one more event. */
  function EmitStep(w: World, name: string, payload: string, limits: Limits): World
    requires limits.buffer > 0 && Listening(w.channel)
  {
    var c := Emit(w.channel, name, payload, limits);
    World(c, map q | q in w.subs :: if q in c.subscribers then w.subs[q].(reach := w.subs[q].reach + 1) else w.subs[q],
          w.log + [RunEvent(w.channel.nextId + 1, name, payload)], w.closes)
  }

  /** Registration of a subscriber on a new queue. */
  function SubscribeStep(w: World, q: QueueId, last: Option<int>): World {
    w.(channel := Register(w.channel, q), subs := w.subs[q := NewSub(w.channel, last, |w.log|)])
  }

  function SetSub(w: World, q: QueueId, s: Sub, queue: Queue): World {
    w.(channel := w.channel.(queues := w.channel.queues[q := queue]), subs := w.subs[q := s])
  }

  /** A subscriber that ends or leaves runs its `finally` block. */
  function LeaveStep(w: World, q: QueueId): World
    requires q in w.subs
  {
    w.(channel := Detach(w.channel, q), subs := w.subs[q := w.subs[q].(stage := Ended)])
  }

  function ResumeStep(w: World, q: QueueId): World
    requires q in w.subs && q in w.channel.queues
  {
    match Resume(w.subs[q], w.channel.queues[q])
    case Yield(s, queue, _) => SetSub(w, q, s, queue)
    case Finish(queue) => LeaveStep(SetSub(w, q, w.subs[q], queue), q)
    case Blocked => w
  }

  function CloseStep(w: World, limits: Limits): World
    requires Listening(w.channel)
  {
    World(CloseRun(w.channel, false, limits),
          map q | q in w.subs ::
            if q in w.channel.subscribers
            then w.subs[q].(omitted := w.subs[q].omitted + PushedOut(w.channel.queues[q], limits.queue))
            else w.subs[q],
          w.log, w.closes + 1)
  }

  function Step(w: World, op: Op, limits: Limits): (r: World)
    requires limits.buffer > 0 && Listening(w.channel) && w.subs.Keys == w.channel.queues.Keys
  {
    match op
    case OpEmit(name, payload) => EmitStep(w, name, payload, limits)
    case OpSubscribe(q, last) => if q in w.subs then w else SubscribeStep(w, q, last)
    case OpResume(q) => if q in w.subs then ResumeStep(w, q) else w
    case OpLeave(q) => if q in w.subs then LeaveStep(w, q) else w
    case OpClose => CloseStep(w, limits)
  }

  ghost function Run(ops: seq<Op>, limits: Limits): (w: World)
    requires limits.buffer > 0
    ensures WorldOk(w, limits)
  {
    if ops == [] then StartOk(limits); START
    else
      var v := Run(ops[..|ops| - 1], limits);
      StepOk(v, ops[|ops| - 1], limits);
      Step(v, ops[|ops| - 1], limits)
  }

  // ---- Invariant ----

  /** The events waiting in a queue. */
  function Events(queue: Queue): seq<RunEvent> {
    if queue == [] then [] else (if queue[0].Some? then [queue[0].value] else []) + Events(queue[1..])
  }

  function Fresh(last: Option<int>, rest: seq<RunEvent>): seq<RunEvent> {
    if rest == [] then [] else (if Old(last, rest[0]) then [] else [rest[0]]) + Fresh(last, rest[1..])
  }

  /** The events a subscriber has yet to see, in order. */
  function Pending(last: Option<int>, stage: Stage, queue: Queue): seq<RunEvent> {
    match stage
    case AtGap(buffered) => Fresh(last, buffered) + Events(queue)
    case Replaying(rest) => Fresh(last, rest) + Events(queue)
    case _ => Events(queue)
  }

  function Kept(events: seq<RunEvent>, omitted: set<nat>): seq<RunEvent> {
    if events == [] then []
    else
      var e := events[|events| - 1];
      Kept(events[..|events| - 1], omitted) + if e.id in omitted then [] else [e]
  }

  ghost predicate LogOk(log: seq<RunEvent>) {
    forall i :: 0 <= i < |log| ==> log[i].id == i + 1
  }

  ghost predicate ChannelOk(c: Channel, log: seq<RunEvent>, limits: Limits) {
    && Listening(c)
    && IsTail(c.buffer, log, limits.buffer)
    && c.nextId == |log|
    && c.overflowFrom == (if log == [] then None else Some(|log| - |c.buffer| + 1))
    && QueuesBounded(c.queues, limits.queue)
  }

  /** Everything it got and has yet to get is what it is owed; after it ended, what
      it got is a prefix of that. */
  ghost predicate LedgerOk(s: Sub, queue: Queue, log: seq<RunEvent>) {
    1 <= s.first <= s.reach + 1 <= |log| + 1 &&
    var owed := Kept(log[s.first - 1..s.reach], s.omitted);
    if s.stage.Ended? then s.got <= owed else s.got + Pending(s.last, s.stage, queue) == owed
  }

  /** The gap frame comes first and only if events were lost. */
  ghost predicate GapOk(s: Sub) {
    && (s.stage.AtGap? ==> s.gap.None? && s.got == [])
    && (s.gap.Some? ==> LostEvents(s) && s.gap.value == GapEvent(s.last.value + 1, s.marker.value))
    && (LostEvents(s) ==> s.first == s.marker.value > 0)
    && (LostEvents(s) && s.got != [] ==> s.gap.Some?)
    && (LostEvents(s) && (s.stage.Replaying? || s.stage.Live?) ==> s.gap.Some?)
  }

  /** The first event follows from the request and from what was buffered then. */
  ghost predicate BeganOk(s: Sub) {
    && 1 <= s.oldest <= s.emitted + 1 && s.emitted <= s.reach
    && s.marker == (if s.emitted == 0 then None else Some(s.oldest))
    && s.first == FirstWanted(s.last, s.oldest, s.emitted)
  }

  ghost predicate SubOk(s: Sub, queue: Queue, listed: bool, log: seq<RunEvent>) {
    && LedgerOk(s, queue, log)
    && BeganOk(s)
    && GapOk(s)
    && OmittedOk(s)
    && (listed ==> s.reach == |log| && !s.stage.Ended? && !s.alreadyClosed)
    && (s.stage.Live? ==> !s.alreadyClosed)
  }

  ghost predicate OmittedOk(s: Sub) {
    forall id :: id in s.omitted ==> id <= s.reach
  }

  ghost predicate SubsOk(w: World) {
    && w.subs.Keys == w.channel.queues.Keys
    && (forall q :: q in w.subs ==> SubOk(w.subs[q], w.channel.queues[q], q in w.channel.subscribers, w.log))
    && (forall q :: q in w.subs ==> |w.subs[q].omitted| <= w.closes)
  }

  ghost predicate WorldOk(w: World, limits: Limits) {
    LogOk(w.log) && ChannelOk(w.channel, w.log, limits) && SubsOk(w)
  }

  lemma StartOk(limits: Limits)
    requires limits.buffer > 0
    ensures WorldOk(START, limits)
  {
  }

  // ---- Reading ----

  /** The advance hands over the head of `owed` and leaves the rest pending. */
  ghost predicate HandsOver(s: Sub, owed: seq<RunEvent>, queue: Queue, a: Advance) {
    match a
    case Yield(t, rest, item) =>
      && t == s.(stage := t.stage, got := s.got + [item])
      && (t.stage.Replaying? || (t.stage.Live? && !s.alreadyClosed))
      && [item] + Pending(s.last, t.stage, rest) == owed && |rest| <= |queue|
    case Finish(rest) => Events(rest) == Events(queue) && |rest| <= |queue|
    case Blocked => true
  }

  lemma {:induction false} ReplayHandsOver(s: Sub, rest: seq<RunEvent>, queue: Queue)
    ensures HandsOver(s, Fresh(s.last, rest) + Events(queue), queue, Replay(s, rest, queue))
    decreases |rest|
  {
    if rest == [] {
      if !s.alreadyClosed { ReceiveHandsOver(s, queue); }
      assert Fresh(s.last, rest) + Events(queue) == Events(queue);
    } else if Old(s.last, rest[0]) {
      ReplayHandsOver(s, rest[1..], queue);
      assert Fresh(s.last, rest) == Fresh(s.last, rest[1..]);
    } else {
      assert [rest[0]] + (Fresh(s.last, rest[1..]) + Events(queue)) == Fresh(s.last, rest) + Events(queue);
    }
  }

  lemma {:induction false} ReceiveHandsOver(s: Sub, queue: Queue)
    requires !s.alreadyClosed
    ensures HandsOver(s, Events(queue), queue, Receive(s.(stage := Live), queue))
  {
  }

  lemma HandOverGap(s: Sub, owed: seq<RunEvent>, queue: Queue, a: Advance)
    requires GapOk(s) && HandsOver(s, owed, queue, a) && a.Yield?
    requires LostEvents(s) ==> s.gap.Some?
    ensures GapOk(a.sub)
  {
    hide Pending;
  }

  lemma HandOverOk(s: Sub, owed: seq<RunEvent>, queue: Queue, a: Advance, listed: bool, log: seq<RunEvent>)
    requires SubOk(s, queue, listed, log) && HandsOver(s, owed, queue, a) && a.Yield?
    requires owed == Pending(s.last, s.stage, queue) && !s.stage.Ended?
    requires LostEvents(s) ==> s.gap.Some?
    ensures SubOk(a.sub, a.queue, listed, log) && |a.queue| <= |queue|
      && a.sub.omitted == s.omitted
  {
    HandOverGap(s, owed, queue, a);
    hide LedgerOk, GapOk, Pending;
  }

  lemma {:induction false} FinishOk(s: Sub, queue: Queue, rest: Queue, listed: bool, log: seq<RunEvent>)
    requires SubOk(s, queue, listed, log) && Events(rest) == Events(queue)
    ensures SubOk(s, rest, listed, log)
  {
    assert Pending(s.last, s.stage, rest) == Pending(s.last, s.stage, queue);
    hide Pending, Kept, GapOk, OmittedOk;
  }

  /** A yield or a finish keeps the subscriber's account straight. */
  lemma ResumeOk(s: Sub, queue: Queue, listed: bool, log: seq<RunEvent>)
    requires SubOk(s, queue, listed, log)
    ensures match Resume(s, queue)
      case Yield(t, rest, _) => SubOk(t, rest, listed, log) && |rest| <= |queue| && t.omitted == s.omitted
      case Finish(rest) => SubOk(s, rest, listed, log) && |rest| <= |queue|
      case Blocked => true
  {
    if s.stage.AtGap? && LostEvents(s) {
      YieldGapOk(s, queue, listed, log);
    } else if !s.stage.Ended? {
      ResumeHandsOver(s, queue);
      hide SubOk, Resume, Pending;
      match Resume(s, queue)
      case Yield(_, _, _) => HandOverOk(s, Pending(s.last, s.stage, queue), queue, Resume(s, queue), listed, log);
      case Finish(rest) => FinishOk(s, queue, rest, listed, log);
      case Blocked =>
    }
  }

  lemma ResumeHandsOver(s: Sub, queue: Queue)
    requires !s.stage.Ended? && !(s.stage.AtGap? && LostEvents(s))
      && (s.stage.Live? ==> !s.alreadyClosed)
    ensures HandsOver(s, Pending(s.last, s.stage, queue), queue, Resume(s, queue))
  {
    match s.stage
    case AtGap(buffered) => ReplayHandsOver(s, buffered, queue);
    case Replaying(rest) => ReplayHandsOver(s, rest, queue);
    case Live => ReceiveHandsOver(s, queue); assert s.(stage := Live) == s;
  }

  lemma YieldGapOk(s: Sub, queue: Queue, listed: bool, log: seq<RunEvent>)
    requires SubOk(s, queue, listed, log) && s.stage.AtGap? && LostEvents(s)
    ensures var a := Resume(s, queue);
      a.Yield? && SubOk(a.sub, a.queue, listed, log) && a.queue == queue && a.sub.omitted == s.omitted
  {
    hide Kept;
  }

  // ---- Kept events ----

  lemma {:induction false} KeptNothingOmitted(events: seq<RunEvent>)
    ensures Kept(events, {}) == events
  {
    if events != [] { KeptNothingOmitted(events[..|events| - 1]); }
  }

  lemma {:induction false} KeptIgnores(events: seq<RunEvent>, omitted: set<nat>, id: nat)
    requires forall i :: 0 <= i < |events| ==> events[i].id != id
    ensures Kept(events, omitted + {id}) == Kept(events, omitted)
  {
    if events != [] { KeptIgnores(events[..|events| - 1], omitted, id); }
  }

  /** Leaving out one more id removes exactly that event. */
  lemma {:induction false} KeptDrop(events: seq<RunEvent>, omitted: set<nat>, a: seq<RunEvent>, e: RunEvent, b: seq<RunEvent>)
    requires forall i, j :: 0 <= i < j < |events| ==> events[i].id != events[j].id
    requires Kept(events, omitted) == a + ([e] + b)
    ensures Kept(events, omitted + {e.id}) == a + b
    decreases |events|
  {
    var k := |events| - 1;
    var init, x := events[..k], events[k];
    if x.id in omitted {
      KeptDrop(init, omitted, a, e, b);
    } else if b == [] {
      SameEnd(Kept(init, omitted), x, a, e);
      KeptIgnores(init, omitted, e.id);
      assert a + b == a;
    } else {
      var b', y := b[..|b| - 1], b[|b| - 1];
      assert a + ([e] + b) == (a + ([e] + b')) + [y];
      SameEnd(Kept(init, omitted), x, a + ([e] + b'), y);
      KeptDrop(init, omitted, a, e, b');
      assert Kept(init, omitted)[|a|] == e;
      KeptMember(init, omitted, |a|);
      assert a + b == (a + b') + [x];
    }
  }

  lemma SameEnd(p: seq<RunEvent>, x: RunEvent, q: seq<RunEvent>, y: RunEvent)
    requires p + [x] == q + [y]
    ensures p == q && x == y
  {
    assert (p + [x])[|p|] == x && (q + [y])[|q|] == y;
    assert p == (p + [x])[..|p|] && q == (q + [y])[..|q|];
  }

  lemma {:induction false} KeptMember(events: seq<RunEvent>, omitted: set<nat>, i: nat)
    requires i < |Kept(events, omitted)|
    ensures Kept(events, omitted)[i] in events
  {
    var init := events[..|events| - 1];
    if i < |Kept(init, omitted)| { KeptMember(init, omitted, i); }
  }

  lemma {:induction false} EventsAppend(queue: Queue, item: Option<RunEvent>)
    ensures Events(queue + [item]) == Events(queue) + if item.Some? then [item.value] else []
  {
    if queue != [] {
      assert (queue + [item])[1..] == queue[1..] + [item];
      EventsAppend(queue[1..], item);
    }
  }

  lemma PendingAppend(last: Option<int>, stage: Stage, queue: Queue, item: Option<RunEvent>)
    ensures Pending(last, stage, queue + [item]) == Pending(last, stage, queue) + if item.Some? then [item.value] else []
  {
    EventsAppend(queue, item);
  }

  // ---- Each step keeps the invariant ----

  /** The last `n` events. */
  function LastN(log: seq<RunEvent>, n: nat): (r: seq<RunEvent>)
    ensures |r| == if |log| < n then |log| else n
  {
    if |log| <= n then log else log[|log| - n..]
  }

  ghost predicate IsTail(buffer: seq<RunEvent>, log: seq<RunEvent>, limit: nat) {
    buffer == LastN(log, limit)
  }

  lemma BufferOk(buffer: seq<RunEvent>, log: seq<RunEvent>, e: RunEvent, limit: nat)
    requires limit > 0 && IsTail(buffer, log, limit)
    ensures IsTail(if |buffer| == limit then buffer[1..] + [e] else buffer + [e], log + [e], limit)
  {
    var b := if |buffer| == limit then buffer[1..] + [e] else buffer + [e];
    var cut := |log| + 1 - |b|;
    forall i | 0 <= i < |b| ensures b[i] == (log + [e])[cut..][i] {
      if i < |b| - 1 {
        assert b[i] == buffer[if |buffer| == limit then i + 1 else i];
      }
    }
  }

  lemma QueuesFit(queues: map<QueueId, Queue>, targets: seq<QueueId>, e: RunEvent, cap: nat)
    requires QueuesBounded(queues, cap)
    ensures QueuesBounded(DeliverAll(queues, targets, e, cap), cap)
      && QueuesBounded(EndAll(queues, targets, cap), cap)
  {
  }

  lemma LogGrows(log: seq<RunEvent>, e: RunEvent)
    requires LogOk(log) && e.id == |log| + 1
    ensures LogOk(log + [e])
  {
  }

  lemma TailSize(buffer: seq<RunEvent>, log: seq<RunEvent>, limit: nat)
    requires IsTail(buffer, log, limit)
    ensures |buffer| == if |log| < limit then |log| else limit
  {
  }

  lemma AppendOk(c: Channel, log: seq<RunEvent>, name: string, payload: string, limits: Limits)
    requires limits.buffer > 0 && LogOk(log) && ChannelOk(c, log, limits)
    ensures ChannelOk(Emit(c, name, payload, limits), log + [RunEvent(c.nextId + 1, name, payload)], limits)
  {
    hide IsTail, QueuesBounded, DeliverAll, Listening, Quick, LogOk, Append;
    var e := RunEvent(c.nextId + 1, name, payload);
    AppendSpec(c, log, name, payload, limits);
    EmitKeepsListening(c, name, payload, limits);
    QueuesFit(c.queues, c.subscribers, e, limits.queue);
  }

  lemma MarkerNext(buffer: seq<RunEvent>, log: seq<RunEvent>, e: RunEvent, limit: nat, marker: Option<nat>)
    requires limit > 0 && LogOk(log) && IsTail(buffer, log, limit) && e.id == |log| + 1
    requires marker == if log == [] then None else Some(|log| - |buffer| + 1)
    ensures NextMarker(buffer, marker, e, limit) == Some(|log| + 1 - (if |buffer| == limit then |buffer| else |buffer| + 1) + 1)
  {
  }

  lemma AppendSpec(c: Channel, log: seq<RunEvent>, name: string, payload: string, limits: Limits)
    requires limits.buffer > 0 && LogOk(log) && ChannelOk(c, log, limits)
    ensures var e := RunEvent(c.nextId + 1, name, payload);
      var d := Append(c, name, payload, limits.buffer);
      && d.nextId == |log| + 1 && IsTail(d.buffer, log + [e], limits.buffer)
      && d.overflowFrom == Some(|log| + 1 - |d.buffer| + 1)
  {
    hide LogOk, Append, IsTail;
    AppendFields(c, name, payload, limits.buffer);
    AppendedTail(c, log, name, payload, limits);
    AppendedMarker(c, log, name, payload, limits);
  }

  lemma AppendedTail(c: Channel, log: seq<RunEvent>, name: string, payload: string, limits: Limits)
    requires limits.buffer > 0 && ChannelOk(c, log, limits)
    ensures IsTail(Append(c, name, payload, limits.buffer).buffer, log + [RunEvent(c.nextId + 1, name, payload)], limits.buffer)
  {
    hide IsTail, QueuesBounded, Listening, Append;
    AppendFields(c, name, payload, limits.buffer);
    BufferOk(c.buffer, log, RunEvent(c.nextId + 1, name, payload), limits.buffer);
  }

  lemma AppendedMarker(c: Channel, log: seq<RunEvent>, name: string, payload: string, limits: Limits)
    requires limits.buffer > 0 && LogOk(log) && ChannelOk(c, log, limits)
    ensures var d := Append(c, name, payload, limits.buffer);
      |log| + 1 - |d.buffer| + 1 >= 0 && d.overflowFrom == Some(|log| + 1 - |d.buffer| + 1)
  {
    hide IsTail, QueuesBounded, Listening, Append, LogOk, NextMarker;
    TailSize(c.buffer, log, limits.buffer);
    AppendFields(c, name, payload, limits.buffer);
    MarkerNext(c.buffer, log, RunEvent(c.nextId + 1, name, payload), limits.buffer, c.overflowFrom);
  }

  lemma AppendFields(c: Channel, name: string, payload: string, limit: nat)
    requires limit > 0
    ensures var e := RunEvent(c.nextId + 1, name, payload);
      var d := Append(c, name, payload, limit);
      && d.nextId == c.nextId + 1 && d.overflowFrom == NextMarker(c.buffer, c.overflowFrom, e, limit)
      && d.buffer == (if |c.buffer| == limit then c.buffer[1..] + [e] else c.buffer + [e])
      && |d.buffer| == if |c.buffer| == limit then |c.buffer| else |c.buffer| + 1
  {
    hide NextMarker;
  }

  lemma LedgerSameLog(s: Sub, queue: Queue, log: seq<RunEvent>, e: RunEvent)
    requires LedgerOk(s, queue, log)
    ensures LedgerOk(s, queue, log + [e])
  {
    assert (log + [e])[s.first - 1..s.reach] == log[s.first - 1..s.reach];
    hide Kept, Pending;
  }

  lemma {:induction false} KeptExtend(log: seq<RunEvent>, from: nat, omitted: set<nat>, e: RunEvent)
    requires from <= |log| && e.id !in omitted
    ensures Kept((log + [e])[from..|log| + 1], omitted) == Kept(log[from..|log|], omitted) + [e]
  {
    var part := log[from..|log|];
    assert (log + [e])[from..|log| + 1] == part + [e];
    assert (part + [e])[..|part|] == part;
  }

  lemma LedgerDeliver(s: Sub, queue: Queue, log: seq<RunEvent>, e: RunEvent)
    requires LedgerOk(s, queue, log) && s.reach == |log| && e.id == |log| + 1
      && OmittedOk(s) && !s.stage.Ended?
    ensures LedgerOk(s.(reach := s.reach + 1), queue + [Some(e)], log + [e])
  {
    hide Kept, Pending;
    PendingAppend(s.last, s.stage, queue, Some(e));
    KeptExtend(log, s.first - 1, s.omitted, e);
  }

  lemma DeliveredOk(s: Sub, queue: Queue, log: seq<RunEvent>, e: RunEvent, cap: nat)
    requires e.id == |log| + 1
    requires SubOk(s, queue, true, log)
    ensures var quick := !Full(queue, cap);
      SubOk(if quick then s.(reach := s.reach + 1) else s, TryPut(queue, Some(e), cap), quick, log + [e])
  {
    if !Full(queue, cap) {
      LedgerDeliver(s, queue, log, e);
    } else {
      LedgerSameLog(s, queue, log, e);
    }
    hide LedgerOk;
  }

  lemma EmitOne(w: World, name: string, payload: string, q: QueueId, limits: Limits)
    requires limits.buffer > 0 && LogOk(w.log) && ChannelOk(w.channel, w.log, limits)
    requires q in w.subs && q in w.channel.queues
      && SubOk(w.subs[q], w.channel.queues[q], q in w.channel.subscribers, w.log)
    ensures var v := EmitStep(w, name, payload, limits);
      q in v.subs && q in v.channel.queues && SubOk(v.subs[q], v.channel.queues[q], q in v.channel.subscribers, v.log)
  {
    hide SubOk, LogOk, IsTail, QueuesBounded, Distinct;
    var e := RunEvent(w.channel.nextId + 1, name, payload);
    if q in w.channel.subscribers {
      DeliveredOk(w.subs[q], w.channel.queues[q], w.log, e, limits.queue);
    } else {
      SubSameLog(w.subs[q], w.channel.queues[q], w.log, e);
    }
  }

  lemma SubSameLog(s: Sub, queue: Queue, log: seq<RunEvent>, e: RunEvent)
    requires SubOk(s, queue, false, log)
    ensures SubOk(s, queue, false, log + [e])
  {
    LedgerSameLog(s, queue, log, e);
    hide LedgerOk, GapOk, OmittedOk;
  }

  lemma ChannelBasics(c: Channel, log: seq<RunEvent>, limits: Limits)
    requires ChannelOk(c, log, limits)
    ensures Listening(c) && c.nextId == |log| && QueuesBounded(c.queues, limits.queue)
  {
  }

  lemma EmitOk(w: World, name: string, payload: string, limits: Limits)
    requires limits.buffer > 0 && WorldOk(w, limits)
    ensures WorldOk(EmitStep(w, name, payload, limits), limits)
  {
    hide ChannelOk, SubOk, LogOk, Listening, Append, Quick;
    ChannelBasics(w.channel, w.log, limits);
    AppendOk(w.channel, w.log, name, payload, limits);
    LogGrows(w.log, RunEvent(w.channel.nextId + 1, name, payload));
    var v := EmitStep(w, name, payload, limits);
    forall q | q in v.subs ensures SubOk(v.subs[q], v.channel.queues[q], q in v.channel.subscribers, v.log) {
      EmitOne(w, name, payload, q, limits);
    }
    assert v.subs.Keys == w.subs.Keys && v.channel.queues.Keys == w.channel.queues.Keys;
  }

  /** A new subscriber is owed the buffered events it has not seen. */
  lemma {:induction false} FreshIsSuffix(last: Option<int>, log: seq<RunEvent>, from: nat)
    requires LogOk(log) && from <= |log|
    ensures Fresh(last, log[from..]) ==
      (if last.None? || last.value <= from then log[from..]
       else if last.value >= |log| then []
       else log[last.value..])
    decreases |log| - from
  {
    if from < |log| {
      assert log[from..][0] == log[from] && log[from..][1..] == log[from + 1..];
      FreshIsSuffix(last, log, from + 1);
      assert [log[from]] + log[from + 1..] == log[from..];
    }
  }

  lemma {:induction false} NewSubOwed(c: Channel, last: Option<int>, log: seq<RunEvent>, limits: Limits)
    requires limits.buffer > 0 && LogOk(log) && IsTail(c.buffer, log, limits.buffer)
    ensures var s := NewSub(c, last, |log|);
      && 1 <= s.first <= |log| + 1
      && Fresh(last, c.buffer) == log[s.first - 1..|log|]
  {
    hide Fresh, LogOk;
    var from := |log| - |c.buffer|;
    FreshIsSuffix(last, log, from);
  }

  lemma NewSubLedger(c: Channel, last: Option<int>, log: seq<RunEvent>, limits: Limits)
    requires limits.buffer > 0 && LogOk(log) && IsTail(c.buffer, log, limits.buffer)
    ensures LedgerOk(NewSub(c, last, |log|), [], log)
  {
    hide Kept, Fresh, LogOk, IsTail, FirstWanted;
    var s := NewSub(c, last, |log|);
    NewSubOwed(c, last, log, limits);
    KeptNothingOmitted(log[s.first - 1..|log|]);
    assert s.got + Pending(last, s.stage, []) == Fresh(last, c.buffer);
  }

  lemma NewSubOk(c: Channel, last: Option<int>, log: seq<RunEvent>, limits: Limits)
    requires limits.buffer > 0 && LogOk(log) && ChannelOk(c, log, limits)
    ensures SubOk(NewSub(c, last, |log|), [], !c.closed, log)
  {
    hide LedgerOk, LogOk, Listening, QueuesBounded;
    NewSubLedger(c, last, log, limits);
  }

  lemma RegisterOk(c: Channel, log: seq<RunEvent>, q: QueueId, limits: Limits)
    requires ChannelOk(c, log, limits) && q !in c.queues
    ensures ChannelOk(Register(c, q), log, limits)
    ensures q in Register(c, q).subscribers <==> !c.closed
    ensures forall x :: x != q ==> (x in Register(c, q).subscribers <==> x in c.subscribers)
  {
  }

  lemma SubscribeOk(w: World, q: QueueId, last: Option<int>, limits: Limits)
    requires limits.buffer > 0 && WorldOk(w, limits) && q !in w.subs
    ensures WorldOk(SubscribeStep(w, q, last), limits)
  {
    hide SubOk, LogOk, ChannelOk;
    NewSubOk(w.channel, last, w.log, limits);
    RegisterOk(w.channel, w.log, q, limits);
    var v := SubscribeStep(w, q, last);
    forall x | x in v.subs ensures SubOk(v.subs[x], v.channel.queues[x], x in v.channel.subscribers, v.log) {
      if x != q { assert x in w.subs; }
    }
  }

  lemma DetachOk(c: Channel, log: seq<RunEvent>, q: QueueId, limits: Limits)
    requires ChannelOk(c, log, limits)
    ensures ChannelOk(Detach(c, q), log, limits)
    ensures q !in Detach(c, q).subscribers && Detach(c, q).queues == c.queues
    ensures forall x :: x != q ==> (x in Detach(c, q).subscribers <==> x in c.subscribers)
  {
    WithoutDistinct(c.subscribers, q);
  }

  lemma SetQueueOk(c: Channel, log: seq<RunEvent>, q: QueueId, queue: Queue, limits: Limits)
    requires ChannelOk(c, log, limits) && q in c.queues && |queue| <= |c.queues[q]|
    ensures ChannelOk(c.(queues := c.queues[q := queue]), log, limits)
  {
  }

  lemma SetSubOk(w: World, q: QueueId, s: Sub, queue: Queue, limits: Limits)
    requires limits.buffer > 0 && WorldOk(w, limits) && q in w.subs
    requires SubOk(s, queue, q in w.channel.subscribers, w.log)
    requires |queue| <= |w.channel.queues[q]| && s.omitted == w.subs[q].omitted
    ensures WorldOk(SetSub(w, q, s, queue), limits)
  {
    hide SubOk, LogOk, ChannelOk;
    SetQueueOk(w.channel, w.log, q, queue, limits);
    var v := SetSub(w, q, s, queue);
    assert v.subs.Keys == w.subs.Keys && v.channel.queues.Keys == w.channel.queues.Keys;
  }

  lemma LeaveOk(w: World, q: QueueId, limits: Limits)
    requires limits.buffer > 0 && WorldOk(w, limits) && q in w.subs
    ensures WorldOk(LeaveStep(w, q), limits)
  {
    hide SubOk, LogOk, ChannelOk, Detach;
    DetachOk(w.channel, w.log, q, limits);
    assert Detach(w.channel, q).queues == w.channel.queues;
    EndedOk(w.subs[q], w.channel.queues[q], q in w.channel.subscribers, w.log);
    var v := LeaveStep(w, q);
    assert v.subs.Keys == w.subs.Keys;
    forall x | x in v.subs ensures SubOk(v.subs[x], v.channel.queues[x], x in v.channel.subscribers, v.log) {
      if x != q { assert x in w.subs; }
    }
  }

  lemma EndedOk(s: Sub, queue: Queue, listed: bool, log: seq<RunEvent>)
    requires SubOk(s, queue, listed, log)
    ensures SubOk(s.(stage := Ended), queue, false, log)
  {
    hide Kept, Pending;
  }

  lemma ResumeStepOk(w: World, q: QueueId, limits: Limits)
    requires limits.buffer > 0 && WorldOk(w, limits) && q in w.subs
    ensures WorldOk(ResumeStep(w, q), limits)
  {
    assert SubOk(w.subs[q], w.channel.queues[q], q in w.channel.subscribers, w.log);
    ResumeOk(w.subs[q], w.channel.queues[q], q in w.channel.subscribers, w.log);
    hide SubOk, LogOk, ChannelOk, SubsOk;
    match Resume(w.subs[q], w.channel.queues[q])
    case Yield(s, queue, _) => SetSubOk(w, q, s, queue, limits);
    case Finish(queue) =>
      SetSubOk(w, q, w.subs[q], queue, limits);
      LeaveOk(SetSub(w, q, w.subs[q], queue), q, limits);
    case Blocked =>
  }

  lemma LogDistinct(log: seq<RunEvent>, from: nat, to: nat)
    requires LogOk(log) && from <= to <= |log|
    ensures forall i, j :: 0 <= i < j < to - from ==> log[from..to][i].id != log[from..to][j].id
  {
  }

  /** Closing a full queue loses its oldest item and nothing else. */
  lemma ForcedLedger(s: Sub, queue: Queue, log: seq<RunEvent>, cap: nat)
    requires LogOk(log) && LedgerOk(s, queue, log) && (cap > 0 ==> |queue| <= cap)
      && !s.stage.Ended?
    ensures LedgerOk(s.(omitted := s.omitted + PushedOut(queue, cap)), ForceEnd(queue, cap), log)
  {
    if !Full(queue, cap) {
      PendingAppend(s.last, s.stage, queue, None);
      hide Pending, Kept;
      assert s.omitted + {} == s.omitted;
    } else if queue[0].None? {
      PendingAppend(s.last, s.stage, queue[1..], None);
      assert Pending(s.last, s.stage, queue[1..]) == Pending(s.last, s.stage, queue);
      hide Pending, Kept;
      assert s.omitted + {} == s.omitted;
    } else {
      PushedOutLedger(s, queue, log);
      PendingAppend(s.last, s.stage, queue[1..], None);
      hide Pending, Kept;
    }
  }

  lemma PendingSplit(last: Option<int>, stage: Stage, queue: Queue) returns (replay: seq<RunEvent>)
    requires queue != [] && queue[0].Some?
    ensures Pending(last, stage, queue) == replay + ([queue[0].value] + Events(queue[1..]))
    ensures Pending(last, stage, queue[1..]) == replay + Events(queue[1..])
  {
    replay := match stage case AtGap(buffered) => Fresh(last, buffered) case Replaying(r) => Fresh(last, r) case _ => [];
  }

  lemma PushedOutLedger(s: Sub, queue: Queue, log: seq<RunEvent>)
    requires LogOk(log) && LedgerOk(s, queue, log) && !s.stage.Ended?
    requires queue != [] && queue[0].Some?
    ensures LedgerOk(s.(omitted := s.omitted + {queue[0].value.id}), queue[1..], log)
  {
    hide Pending, Events, Kept, LogOk;
    var e, rest := queue[0].value, Events(queue[1..]);
    var replay := PendingSplit(s.last, s.stage, queue);
    LogDistinct(log, s.first - 1, s.reach);
    assert s.got + (replay + ([e] + rest)) == (s.got + replay) + ([e] + rest);
    KeptDrop(log[s.first - 1..s.reach], s.omitted, s.got + replay, e, rest);
    assert s.got + (replay + rest) == (s.got + replay) + rest;
  }

  /** What a close costs a subscriber: the oldest event of a full queue, else nothing. */
  lemma CloseCost(s: Sub, queue: Queue, cap: nat)
    requires !s.stage.Ended?
    ensures |Pending(s.last, s.stage, ForceEnd(queue, cap))| ==
      |Pending(s.last, s.stage, queue)| - if Full(queue, cap) && queue[0].Some? then 1 else 0
  {
    if !Full(queue, cap) {
      PendingAppend(s.last, s.stage, queue, None);
    } else {
      PendingAppend(s.last, s.stage, queue[1..], None);
      if queue[0].Some? { var _ := PendingSplit(s.last, s.stage, queue); }
    }
  }

  lemma WaitingIdBound(s: Sub, queue: Queue, log: seq<RunEvent>)
    requires LogOk(log) && LedgerOk(s, queue, log) && !s.stage.Ended?
    requires queue != [] && queue[0].Some?
    ensures queue[0].value.id <= s.reach
  {
    var e, part := queue[0].value, log[s.first - 1..s.reach];
    var i := |s.got| + |Pending(s.last, s.stage, queue)| - |Events(queue)|;
    assert (s.got + Pending(s.last, s.stage, queue))[i] == e;
    KeptMember(part, s.omitted, i);
    var j :| 0 <= j < |part| && part[j] == e;
    assert part[j] == log[s.first - 1 + j];
  }

  lemma ForcedOk(s: Sub, queue: Queue, log: seq<RunEvent>, cap: nat)
    requires LogOk(log) && SubOk(s, queue, true, log) && (cap > 0 ==> |queue| <= cap)
    ensures SubOk(s.(omitted := s.omitted + PushedOut(queue, cap)), ForceEnd(queue, cap), true, log)
    ensures |s.omitted + PushedOut(queue, cap)| <= |s.omitted| + 1
  {
    hide LedgerOk, LogOk, FirstWanted, ForceEnd;
    ForcedLedger(s, queue, log, cap);
    if Full(queue, cap) && queue[0].Some? { WaitingIdBound(s, queue, log); }
  }

  lemma CloseChannelOk(c: Channel, log: seq<RunEvent>, limits: Limits)
    requires ChannelOk(c, log, limits)
    ensures ChannelOk(CloseRun(c, false, limits), log, limits)
  {
    CloseKeepsListening(c, false, limits);
    QueuesFit(c.queues, c.subscribers, RunEvent(0, "", ""), limits.queue);
    hide IsTail, QueuesBounded, Listening, EndAll;
  }

  lemma CloseOk(w: World, limits: Limits)
    requires limits.buffer > 0 && WorldOk(w, limits)
    ensures WorldOk(CloseStep(w, limits), limits)
  {
    CloseChannelOk(w.channel, w.log, limits);
    assert Listening(w.channel) && QueuesBounded(w.channel.queues, limits.queue);
    hide SubOk, LogOk, ChannelOk, Listening, PushedOut, ForceEnd;
    var v := CloseStep(w, limits);
    assert v.subs.Keys == w.subs.Keys && v.channel.queues.Keys == w.channel.queues.Keys;
    forall q | q in v.subs
      ensures SubOk(v.subs[q], v.channel.queues[q], q in v.channel.subscribers, v.log)
      ensures |v.subs[q].omitted| <= v.closes
    {
      assert q in w.subs;
      if q in w.channel.subscribers {
        ForcedOk(w.subs[q], w.channel.queues[q], w.log, limits.queue);
      }
    }
  }

  lemma Steppable(w: World, limits: Limits)
    requires WorldOk(w, limits)
    ensures Listening(w.channel) && w.subs.Keys == w.channel.queues.Keys
  {
  }

  lemma StepOk(w: World, op: Op, limits: Limits)
    requires limits.buffer > 0 && WorldOk(w, limits)
    ensures Listening(w.channel) && w.subs.Keys == w.channel.queues.Keys
    ensures WorldOk(Step(w, op, limits), limits)
  {
    Steppable(w, limits);
    hide WorldOk, Listening;
    match op
    case OpEmit(name, payload) => EmitOk(w, name, payload, limits);
    case OpSubscribe(q, last) => if q !in w.subs { SubscribeOk(w, q, last, limits); }
    case OpResume(q) => if q in w.subs { ResumeStepOk(w, q, limits); }
    case OpLeave(q) => if q in w.subs { LeaveOk(w, q, limits); }
    case OpClose => CloseOk(w, limits);
  }

  // ---- What steps leave alone ----

  /** What no step of the bus changes about a subscriber. */
  ghost predicate SameSubscription(s: Sub, t: Sub) {
    && t.last == s.last && t.marker == s.marker && t.alreadyClosed == s.alreadyClosed
    && t.emitted == s.emitted && t.oldest == s.oldest && t.first == s.first
    && s.omitted <= t.omitted
  }

  /** What a subscriber has yielded. */
  function Seen(s: Sub): seq<RunEvent> {
    (if s.gap.Some? then [s.gap.value] else []) + s.got
  }

  ghost predicate Keeps(w: World, v: World, q: QueueId) {
    q in w.subs && q in v.subs && SameSubscription(w.subs[q], v.subs[q]) && Seen(v.subs[q]) == Seen(w.subs[q])
  }

  lemma EmitKeeps(w: World, name: string, payload: string, limits: Limits, q: QueueId)
    requires limits.buffer > 0 && Listening(w.channel) && q in w.subs
    ensures Keeps(w, EmitStep(w, name, payload, limits), q)
  {
    hide Emit, Listening;
  }

  lemma SubscribeKeeps(w: World, x: QueueId, last: Option<int>, q: QueueId)
    requires q in w.subs && x !in w.subs
    ensures Keeps(w, SubscribeStep(w, x, last), q)
  {
    hide Register, NewSub;
  }

  lemma LeaveKeeps(w: World, x: QueueId, q: QueueId)
    requires q in w.subs && x in w.subs
    ensures Keeps(w, LeaveStep(w, x), q)
  {
    hide Detach;
  }

  lemma CloseKeeps(w: World, limits: Limits, q: QueueId)
    requires Listening(w.channel) && q in w.subs
    ensures Keeps(w, CloseStep(w, limits), q)
  {
    hide CloseRun, Listening, PushedOut;
  }

  lemma ResumeStepKeeps(w: World, x: QueueId, q: QueueId)
    requires q in w.subs && x in w.subs && x in w.channel.queues
    ensures var v := ResumeStep(w, x);
      && q in v.subs && SameSubscription(w.subs[q], v.subs[q])
      && (x != q ==> Seen(v.subs[q]) == Seen(w.subs[q]))
  {
    hide Detach, Resume;
    ResumeKeeps(w.subs[x], w.channel.queues[x]);
  }

  lemma BusKeeps(w: World, op: Op, limits: Limits, q: QueueId)
    requires limits.buffer > 0 && Listening(w.channel)
      && w.subs.Keys == w.channel.queues.Keys && q in w.subs
    ensures var v := Step(w, op, limits);
      && q in v.subs && SameSubscription(w.subs[q], v.subs[q])
      && (op != OpResume(q) ==> Seen(v.subs[q]) == Seen(w.subs[q]))
  {
    hide EmitStep, CloseStep, SubscribeStep, ResumeStep, LeaveStep, Listening;
    match op
    case OpEmit(name, payload) => EmitKeeps(w, name, payload, limits, q);
    case OpSubscribe(x, last) => if x !in w.subs { SubscribeKeeps(w, x, last, q); }
    case OpResume(x) => if x in w.subs { ResumeStepKeeps(w, x, q); }
    case OpLeave(x) => if x in w.subs { LeaveKeeps(w, x, q); }
    case OpClose => CloseKeeps(w, limits, q);
  }

  lemma {:induction false} ReplayYields(s: Sub, rest: seq<RunEvent>, queue: Queue)
    ensures var a := Replay(s, rest, queue);
      a.Yield? ==> a.sub == s.(stage := a.sub.stage, got := s.got + [a.item])
    decreases |rest|
  {
    if rest != [] && Old(s.last, rest[0]) { ReplayYields(s, rest[1..], queue); }
  }

  lemma ResumeKeeps(s: Sub, queue: Queue)
    ensures var a := Resume(s, queue);
      a.Yield? ==>
        && SameSubscription(s, a.sub) && a.sub.omitted == s.omitted
        && (if s.stage.AtGap? && LostEvents(s) then a.sub.gap == Some(a.item) && a.sub.got == s.got
            else a.sub.gap == s.gap && a.sub.got == s.got + [a.item])
  {
    match s.stage
    case AtGap(buffered) => ReplayYields(s, buffered, queue);
    case Replaying(rest) => ReplayYields(s, rest, queue);
    case _ =>
  }

  // ---- Main results ----

  /** The buffer had lost events that the subscriber asked for. */
  predicate Missed(s: Sub) {
    s.last.Some? && s.emitted > 0 && s.last.value + 1 < s.oldest
  }

  /** The subscriber has advanced past the place of the gap frame. */
  predicate ReadOn(s: Sub) {
    s.gap.Some? || s.got != [] || s.stage.Replaying? || s.stage.Live?
  }

  /** A subscription starts right after the last id, or with the oldest event there was;
      a gap frame says so exactly if events it asked for were lost. */
  ghost predicate StartsWhereAsked(s: Sub) {
    && (ReadOn(s) ==> (s.gap.Some? <==> Missed(s)))
    && (s.gap.Some? ==> Missed(s) && s.gap.value == GapEvent(s.last.value + 1, s.first))
    && (s.last.None? || Missed(s) ==> s.first == s.oldest)
    && (s.last.Some? && 0 <= s.last.value <= s.emitted && !Missed(s) ==> s.first == s.last.value + 1)
    && (s.last.Some? && s.last.value > s.emitted ==> s.first == s.emitted + 1)
  }

  /** `s` registered when the run was in state `v`. */
  ghost predicate RegisteredIn(s: Sub, v: World) {
    && s.emitted == |v.log| && s.alreadyClosed == v.channel.closed
    && s.oldest == if v.channel.buffer == [] then |v.log| + 1 else v.channel.buffer[0].id
  }

  lemma StartIsAsked(s: Sub)
    requires BeganOk(s) && GapOk(s)
    ensures StartsWhereAsked(s) && LostEvents(s) == Missed(s)
  {
    hide GapEvent;
  }

  /** Every subscriber registered once, with the request it was made for. */
  lemma {:induction false} Registration(ops: seq<Op>, limits: Limits, q: QueueId) returns (i: nat)
    requires limits.buffer > 0 && q in Run(ops, limits).subs
    ensures i < |ops| && q !in Run(ops[..i], limits).subs
    ensures var s := Run(ops, limits).subs[q];
      ops[i] == OpSubscribe(q, s.last) && RegisteredIn(s, Run(ops[..i], limits))
  {
    hide WorldOk, Step, Listening, SameSubscription, RegisteredIn;
    var n := |ops| - 1;
    var v := Run(ops[..n], limits);
    Steppable(v, limits);
    if q in v.subs {
      i := Registration(ops[..n], limits, q);
      assert ops[..n][..i] == ops[..i];
      BusKeeps(v, ops[n], limits, q);
      SameRegistration(v.subs[q], Step(v, ops[n], limits).subs[q], Run(ops[..i], limits));
    } else {
      i := n;
      NewRegistration(v, ops[n], limits, q);
    }
  }

  lemma SameRegistration(s: Sub, t: Sub, v: World)
    requires SameSubscription(s, t) && RegisteredIn(s, v)
    ensures t.last == s.last && RegisteredIn(t, v)
  {
  }

  lemma NewRegistration(v: World, op: Op, limits: Limits, q: QueueId)
    requires limits.buffer > 0 && WorldOk(v, limits) && q !in v.subs
    requires Listening(v.channel) && v.subs.Keys == v.channel.queues.Keys
    requires q in Step(v, op, limits).subs
    ensures var s := Step(v, op, limits).subs[q];
      op == OpSubscribe(q, s.last) && RegisteredIn(s, v)
  {
    hide LogOk, ChannelOk, SubsOk, Emit, CloseRun, Detach, Register, Resume, Listening, PushedOut, FirstWanted;
    OldestBuffered(v.channel, v.log, limits);
  }

  lemma OldestBuffered(c: Channel, log: seq<RunEvent>, limits: Limits)
    requires limits.buffer > 0 && LogOk(log) && ChannelOk(c, log, limits)
    ensures |c.buffer| <= |log|
    ensures |log| - |c.buffer| + 1 == if c.buffer == [] then |log| + 1 else c.buffer[0].id
  {
    TailSize(c.buffer, log, limits.buffer);
  }

  /** What a subscriber is owed: a gap frame when events it asked for were lost,
      then every emitted event from the first one still available. */
  ghost predicate ExactlyOnce(s: Sub, log: seq<RunEvent>) {
    && 1 <= s.first <= |log| + 1
    && StartsWhereAsked(s)
    && (s.omitted == {} ==> s.first - 1 + |s.got| <= |log| && s.got == log[s.first - 1..s.first - 1 + |s.got|])
    && s.got <= Kept(log[s.first - 1..], s.omitted)
  }

  lemma {:induction false} KeptPrefix(log: seq<RunEvent>, from: nat, to: nat, omitted: set<nat>)
    requires from <= to <= |log|
    ensures Kept(log[from..to], omitted) <= Kept(log[from..], omitted)
    decreases |log| - to
  {
    if to == |log| {
      assert log[from..to] == log[from..];
    } else {
      KeptPrefix(log, from, to + 1, omitted);
      assert log[from..to + 1][..to - from] == log[from..to];
    }
  }

  lemma GotIsPrefix(s: Sub, queue: Queue, log: seq<RunEvent>)
    requires LedgerOk(s, queue, log)
    ensures s.got <= Kept(log[s.first - 1..s.reach], s.omitted)
  {
    hide Kept, Pending;
  }

  lemma SubExactlyOnce(s: Sub, queue: Queue, listed: bool, log: seq<RunEvent>)
    requires SubOk(s, queue, listed, log)
    ensures ExactlyOnce(s, log)
  {
    hide Kept, Pending, OmittedOk, BeganOk, GapOk;
    StartIsAsked(s);
    GotIsPrefix(s, queue, log);
    KeptPrefix(log, s.first - 1, s.reach, s.omitted);
    KeptNothingOmitted(log[s.first - 1..s.reach]);
  }

  /** Over every interleaving, every subscriber has seen exactly what it is owed so
      far, once and in order, starting from what it asked for in step `at` and from what
      was buffered then; a close can cost it at most one event. */
  lemma {:induction false} ReplayIsExactlyOnce(ops: seq<Op>, limits: Limits, q: QueueId) returns (at: nat)
    requires limits.buffer > 0 && q in Run(ops, limits).subs
    ensures at < |ops| && q !in Run(ops[..at], limits).subs
    ensures var w := Run(ops, limits);
      && ops[at] == OpSubscribe(q, w.subs[q].last) && RegisteredIn(w.subs[q], Run(ops[..at], limits))
      && (forall i :: 0 <= i < |w.log| ==> w.log[i].id == i + 1)
      && ExactlyOnce(w.subs[q], w.log) && |w.subs[q].omitted| <= w.closes
  {
    hide Run, Step, ExactlyOnce, RegisteredIn, SubOk, ChannelOk;
    var w := Run(ops, limits);
    at := Registration(ops, limits, q);
    SubExactlyOnce(w.subs[q], w.channel.queues[q], q in w.channel.subscribers, w.log);
  }

  /** A listed subscriber that has drained its queue has seen everything it is owed. */
  lemma {:induction false} DrainedSubscriberIsUpToDate(ops: seq<Op>, limits: Limits, q: QueueId)
    requires limits.buffer > 0
    requires var w := Run(ops, limits);
      q in w.subs && q in w.channel.subscribers && w.subs[q].stage.Live? && w.channel.queues[q] == []
    ensures var w := Run(ops, limits); var s := w.subs[q];
      && StartsWhereAsked(s) && (s.gap.Some? <==> Missed(s))
      && 1 <= s.first <= |w.log| + 1 && s.got == Kept(w.log[s.first - 1..], s.omitted)
  {
    hide Kept, Run, ChannelOk, LogOk, SubOk, StartsWhereAsked, Missed;
    DrainedLedger(Run(ops, limits).subs[q], Run(ops, limits).log);
  }

  lemma DrainedLedger(s: Sub, log: seq<RunEvent>)
    requires SubOk(s, [], true, log) && s.stage.Live?
    ensures StartsWhereAsked(s) && (s.gap.Some? <==> Missed(s))
    ensures 1 <= s.first <= |log| + 1 && s.got == Kept(log[s.first - 1..], s.omitted)
  {
    hide BeganOk, GapEvent;
    StartIsAsked(s);
    assert log[s.first - 1..s.reach] == log[s.first - 1..];
    assert s.got + [] == s.got;
  }

  predicate Holds(events: seq<RunEvent>, id: int) {
    exists e :: e in events && e.id == id
  }

  /** A gap frame carries the last lost id, and its payload tells the range and no other. */
  lemma GapTellsRange(from: int, marker: nat, from2: int, marker2: nat)
    requires marker > 1
    ensures GapEvent(from, marker).id == marker - 1 && GapEvent(from, marker).name == "run.gap"
    ensures GapEvent(from, marker).payload == GapEvent(from2, marker2).payload ==>
      from == from2 && marker == marker2
  {
    hide Decimals.PrintInt;
    if GapPayload(from, marker - 1) == GapPayload(from2, marker2 - 1) {
      var a, b, c, d := Decimals.PrintInt(from), Decimals.PrintInt(marker - 1), Decimals.PrintInt(from2), Decimals.PrintInt(marker2 - 1);
      Decimals.IntHasNoComma(from);
      Decimals.IntHasNoComma(from2);
      TwoNumbers("{\"dropped_from\":", ",\"dropped_to\":", "}", a, b, c, d);
      Decimals.PrintedIntReadsBack(from);
      Decimals.PrintedIntReadsBack(from2);
      Decimals.PrintedIntReadsBack(marker - 1);
      Decimals.PrintedIntReadsBack(marker2 - 1);
    }
  }

  lemma TwoNumbers(head: string, mid: string, end: string, a: string, b: string, c: string, d: string)
    requires ',' !in a && ',' !in c && mid != "" && mid[0] == ','
    ensures head + a + mid + b + end == head + c + mid + d + end ==> a == c && b == d
  {
    var p, q, m := head + a + mid + b + end, head + c + mid + d + end, mid[1..];
    if p == q {
      assert mid == "," + m;
      assert p[|head|..] == a + "," + (m + b + end) && q[|head|..] == c + "," + (m + d + end);
      FirstComma(a, m + b + end, c, m + d + end);
      assert (m + b + end)[|m|..] == b + end && (m + d + end)[|m|..] == d + end;
      assert b == (b + end)[..|b + end| - |end|] && d == (d + end)[..|d + end| - |end|];
    }
  }

  lemma FirstComma(a: string, b: string, c: string, d: string)
    requires a + "," + b == c + "," + d && ',' !in a && ',' !in c
    ensures a == c && b == d
  {
    var s := a + "," + b;
    assert s[|a|] == ',' && s[|c|] == (c + "," + d)[|c|] == ',';
    assert forall i :: 0 <= i < |a| ==> s[i] == a[i];
    assert forall i :: 0 <= i < |c| ==> s[i] == c[i];
    assert a == s[..|a|] && c == s[..|c|];
    assert b == s[|a| + 1..] && d == s[|c| + 1..];
  }

  /** A gap frame as it is written for the events 3 to 7. */
  lemma GapExample()
    ensures GapEvent(3, 8) == RunEvent(7, "run.gap", "{\"dropped_from\":3,\"dropped_to\":7}")
  {
    assert Decimals.PrintNat(3) == "3" && Decimals.PrintNat(7) == "7";
  }

  /** A gap frame tells the truth when every id it names was emitted and is gone. */
  ghost predicate GapIsTrue(s: Sub, buffer: seq<RunEvent>, log: seq<RunEvent>) {
    forall id: int {:trigger Holds(log, id)} :: s.last.Some? && s.last.value < id < s.first ==> Holds(log, id) && !Holds(buffer, id)
  }

  /** Where a subscription with last id `k` starts, and when its gap frame is right:
      it names exactly lost events, unless `k` is negative. */
  lemma SubscriptionStart(c: Channel, last: Option<int>, log: seq<RunEvent>, limits: Limits)
    requires limits.buffer > 0 && LogOk(log) && ChannelOk(c, log, limits)
    ensures var s := NewSub(c, last, |log|);
      var oldest := if |log| < limits.buffer then 1 else |log| - limits.buffer + 1;
      && (last.None? ==> s.first == oldest && !LostEvents(s))
      && (last.Some? ==> (LostEvents(s) <==> log != [] && last.value + 1 < oldest))
      && (LostEvents(s) ==> s.first == oldest && (GapIsTrue(s, c.buffer, log) <==> last.value >= 0))
      && (last.Some? && !LostEvents(s) && 0 <= last.value <= |log| ==> s.first == last.value + 1)
  {
    var s := NewSub(c, last, |log|);
    TailSize(c.buffer, log, limits.buffer);
    if LostEvents(s) {
      GapTruth(s, c.buffer, log, limits.buffer);
    }
  }

  lemma NoEventZero(log: seq<RunEvent>)
    requires LogOk(log)
    ensures !Holds(log, 0)
  {
    forall e | e in log ensures e.id != 0 {
      var i :| 0 <= i < |log| && log[i] == e;
    }
  }

  /** A gap that starts below the first id names an event that never was. */
  lemma GapFromBelowIsFalse(s: Sub, buffer: seq<RunEvent>, log: seq<RunEvent>)
    requires LogOk(log) && s.last.Some? && s.last.value < 0 < s.first
    ensures !GapIsTrue(s, buffer, log)
  {
    NoEventZero(log);
    hide Holds, LogOk;
    assert !(Holds(log, 0) && !Holds(buffer, 0));
  }

  lemma GapOfDroppedIsTrue(s: Sub, buffer: seq<RunEvent>, log: seq<RunEvent>, limit: nat)
    requires LogOk(log) && IsTail(buffer, log, limit)
    requires s.last.Some? && 0 <= s.last.value
      && s.last.value + 1 < s.first == |log| - |buffer| + 1
    ensures GapIsTrue(s, buffer, log)
  {
    hide Holds, IsTail, LogOk;
    forall id: int {:trigger Holds(log, id)} | s.last.value < id < s.first ensures Holds(log, id) && !Holds(buffer, id) {
      DroppedId(buffer, log, limit, id);
    }
  }

  lemma GapTruth(s: Sub, buffer: seq<RunEvent>, log: seq<RunEvent>, limit: nat)
    requires LogOk(log) && IsTail(buffer, log, limit)
    requires s.last.Some? && s.last.value + 1 < s.first == |log| - |buffer| + 1
    ensures GapIsTrue(s, buffer, log) <==> s.last.value >= 0
  {
    hide GapIsTrue, IsTail, LogOk;
    TailSize(buffer, log, limit);
    if s.last.value < 0 {
      GapFromBelowIsFalse(s, buffer, log);
    } else {
      GapOfDroppedIsTrue(s, buffer, log, limit);
    }
  }

  lemma DroppedId(buffer: seq<RunEvent>, log: seq<RunEvent>, limit: nat, id: int)
    requires LogOk(log) && IsTail(buffer, log, limit) && 0 < id <= |log| - |buffer|
    ensures Holds(log, id) && !Holds(buffer, id)
  {
    assert log[id - 1] in log;
    forall i | 0 <= i < |buffer| ensures buffer[i].id != id {
      assert buffer[i] == log[|log| - |buffer| + i];
    }
  }
}
