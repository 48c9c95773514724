/** The event bus with the dictionaries and loops of the source
    (sidecar/orca_core/orchestrator/events.py).  No method suspends while it holds
    the lock, so each method is one atomic step; its contract says which step of
    `EventChannel` it takes for its run, and that other runs are untouched. */
module EventBuses {
  import opened Wrappers
  import opened EventChannel
  import opened EventDelivery
  import opened EventEnding

  type RunId = string

  function Get<K, V>(m: map<K, V>, k: K, default: V): V {
    if k in m then m[k] else default
  }

  function Find<K, V>(m: map<K, V>, k: K): Option<V> {
    if k in m then Some(m[k]) else None
  }

  // ---- Dropping slow listeners one by one ----

  function Slow(targets: seq<QueueId>, queues: map<QueueId, Queue>, cap: nat): (r: seq<QueueId>)
    requires forall q :: q in targets ==> q in queues
    ensures forall q :: q in r <==> q in targets && Full(queues[q], cap)
  {
    if targets == [] then []
    else
      var k := |targets| - 1;
      Slow(targets[..k], queues, cap) + if Full(queues[targets[k]], cap) then [targets[k]] else []
  }

  function WithoutAll(s: seq<QueueId>, gone: seq<QueueId>): seq<QueueId> {
    if gone == [] then s else Without(WithoutAll(s, gone[..|gone| - 1]), gone[|gone| - 1])
  }

  lemma {:induction false} WithoutAppend(s: seq<QueueId>, x: QueueId, q: QueueId)
    requires x != q
    ensures Without(s + [x], q) == Without(s, q) + [x]
  {
    if s != [] && s[0] != q {
      assert (s + [x])[1..] == s[1..] + [x];
      WithoutAppend(s[1..], x, q);
    } else if s != [] {
      assert (s + [x])[1..] == s[1..] + [x];
    }
  }

  lemma {:induction false} WithoutAllAppend(s: seq<QueueId>, x: QueueId, gone: seq<QueueId>)
    requires x !in gone
    ensures WithoutAll(s + [x], gone) == WithoutAll(s, gone) + [x]
  {
    if gone != [] {
      WithoutAllAppend(s, x, gone[..|gone| - 1]);
      WithoutAppend(WithoutAll(s, gone[..|gone| - 1]), x, gone[|gone| - 1]);
    }
  }

  lemma {:induction false} WithoutLast(s: seq<QueueId>, x: QueueId)
    requires x !in s
    ensures Without(s + [x], x) == s
  {
    if s != [] {
      assert (s + [x])[1..] == s[1..] + [x];
      WithoutLast(s[1..], x);
    }
  }

  /** Removing the slow listeners one by one leaves exactly the quick ones. */
  lemma {:induction false} DroppingSlowLeavesQuick(targets: seq<QueueId>, queues: map<QueueId, Queue>, cap: nat)
    requires forall q :: q in targets ==> q in queues
    requires Distinct(targets)
    ensures WithoutAll(targets, Slow(targets, queues, cap)) == Quick(targets, queues, cap)
  {
    hide WithoutAll, Without, Full;
    if targets == [] {
      WithoutNone(targets);
    } else {
      var k := |targets| - 1;
      var init, x := targets[..k], targets[k];
      assert targets == init + [x];
      assert x !in init;
      DroppingSlowLeavesQuick(init, queues, cap);
      WithoutAllAppend(init, x, Slow(init, queues, cap));
      DropOneMore(init, x, Slow(init, queues, cap), Quick(init, queues, cap));
      assert Slow(init, queues, cap) + [] == Slow(init, queues, cap);
      assert Quick(init, queues, cap) + [] == Quick(init, queues, cap);
    }
  }

  lemma {:induction false} WithoutNone(s: seq<QueueId>)
    ensures WithoutAll(s, []) == s
  {
  }

  lemma {:induction false} WithoutOneMore(s: seq<QueueId>, gone: seq<QueueId>, i: nat)
    requires i < |gone|
    ensures WithoutAll(s, gone[..i + 1]) == Without(WithoutAll(s, gone[..i]), gone[i])
  {
    assert gone[..i + 1][..i] == gone[..i];
  }

  lemma {:induction false} DropOneMore(init: seq<QueueId>, x: QueueId, slow: seq<QueueId>, quick: seq<QueueId>)
    requires x !in quick && WithoutAll(init, slow) == quick
      && WithoutAll(init + [x], slow) == quick + [x]
    ensures WithoutAll(init + [x], slow + [x]) == quick
  {
    assert (slow + [x])[..|slow|] == slow;
    WithoutLast(quick, x);
  }

  lemma DeliverOneMore(queues: map<QueueId, Queue>, targets: seq<QueueId>, i: nat, e: RunEvent, cap: nat)
    requires Distinct(targets) && i < |targets| && targets[i] in queues
    ensures var before := DeliverAll(queues, targets[..i], e, cap);
      && before.Keys == queues.Keys && before[targets[i]] == queues[targets[i]]
      && DeliverAll(queues, targets[..i + 1], e, cap) == before[targets[i] := TryPut(queues[targets[i]], Some(e), cap)]
  {
    assert targets[..i + 1] == targets[..i] + [targets[i]];
    assert targets[i] !in targets[..i];
  }

  lemma EndOneMore(queues: map<QueueId, Queue>, targets: seq<QueueId>, i: nat, cap: nat)
    requires Distinct(targets) && i < |targets| && targets[i] in queues
    ensures var before := EndAll(queues, targets[..i], cap);
      && before.Keys == queues.Keys && before[targets[i]] == queues[targets[i]]
      && EndAll(queues, targets[..i + 1], cap) == before[targets[i] := ForceEnd(queues[targets[i]], cap)]
  {
    assert targets[..i + 1] == targets[..i] + [targets[i]];
    assert targets[i] !in targets[..i];
  }

  lemma EndNone(queues: map<QueueId, Queue>, targets: seq<QueueId>, cap: nat)
    ensures EndAll(queues, targets[..0], cap) == queues
  {
  }

  lemma DeliverNone(queues: map<QueueId, Queue>, targets: seq<QueueId>, e: RunEvent, cap: nat)
    ensures DeliverAll(queues, targets[..0], e, cap) == queues
  {
  }

  class EventBus {
    const limits: Limits
    var buffers: map<RunId, seq<RunEvent>>
    var subscribers: map<RunId, seq<QueueId>>
    var nextId: map<RunId, nat>
    var closedRuns: set<RunId>
    var overflowFrom: map<RunId, nat>
    /** The queue objects, grouped by the run they listen to. */
    var queues: map<RunId, map<QueueId, Queue>>

    /** The entries of all dictionaries for one run. */
    ghost function View(r: RunId): Channel
      reads this
    {
      Channel(Get(buffers, r, []), Find(overflowFrom, r), Get(nextId, r, 0), r in closedRuns,
              Get(subscribers, r, []), Get(queues, r, map[]))
    }

    ghost predicate Valid()
      reads this
    {
      && limits.buffer > 0
      && (forall r: RunId :: Listening(View(r)))
      && (forall r: RunId :: QueuesBounded(View(r).queues, limits.queue))
    }

    /** A step that touches one run keeps the bus valid if it keeps that run valid. */
    twostate lemma StillValid(r: RunId)
      requires old(Valid()) && Listening(View(r)) && QueuesBounded(View(r).queues, limits.queue)
      requires forall o :: o != r ==> View(o) == old(View(o))
      ensures Valid()
    {
      hide Listening, QueuesBounded;
      forall o: RunId ensures Listening(View(o)) && QueuesBounded(View(o).queues, limits.queue) {
        if o != r { assert View(o) == old(View(o)); }
      }
    }

    constructor (limits: Limits)
      requires limits.buffer > 0
      ensures Valid() && this.limits == limits && forall r: RunId :: View(r) == EMPTY
    {
      this.limits := limits;
      buffers, subscribers, nextId, closedRuns, overflowFrom, queues := map[], map[], map[], {}, map[], map[];
    }

    method Emit(r: RunId, name: string, payload: string) returns (ev: RunEvent)
      requires Valid()
      modifies this
      ensures Valid()
      ensures ev == RunEvent(old(View(r)).nextId + 1, name, payload)
      ensures View(r) == EventChannel.Emit(old(View(r)), name, payload, limits)
      ensures forall o :: o != r ==> View(o) == old(View(o))
    {
      hide Listening, QueuesBounded, DeliverAll, Quick, Slow;
      ghost var before := View(r);
      ListeningTo(r);
      QueuesFit(before.queues, before.subscribers, RunEvent(before.nextId + 1, name, payload), limits.queue);
      EmitKeepsListening(before, name, payload, limits);
      ev := Record(r, name, payload);
      RecordKeepsListening(before, View(r));
      var slow := Dispatch(r, ev);
      DispatchedThenDrop(before, View(r), ev, slow, limits.queue);
      DropSlow(r, slow, before.queues);
      StillValid(r);
    }

    /** The bookkeeping of `emit` under the lock. */
    method Record(r: RunId, name: string, payload: string) returns (ev: RunEvent)
      requires limits.buffer > 0
      modifies this`buffers, this`nextId, this`overflowFrom
      ensures ev == RunEvent(old(View(r)).nextId + 1, name, payload)
      ensures View(r) == Append(old(View(r)), name, payload, limits.buffer)
      ensures forall o :: o != r ==> View(o) == old(View(o))
    {
      var id := Get(nextId, r, 0) + 1;
      nextId := nextId[r := id];
      ev := RunEvent(id, name, payload);
      hide NextMarker;
      var buffer, oldest := Bounded(Get(buffers, r, []), Find(overflowFrom, r), ev);
      buffers := buffers[r := buffer];
      overflowFrom := overflowFrom[r := oldest];
    }

    /** The bounded append, with the overflow marker computed before it. */
    method Bounded(before: seq<RunEvent>, was: Option<nat>, ev: RunEvent) returns (buffer: seq<RunEvent>, oldest: nat)
      requires limits.buffer > 0
      ensures buffer == if |before| == limits.buffer then before[1..] + [ev] else before + [ev]
      ensures Some(oldest) == NextMarker(before, was, ev, limits.buffer)
    {
      buffer := before;
      var marker := was;
      if |buffer| == limits.buffer {
        marker := Some(if |buffer| >= 2 then buffer[1].id else ev.id);
        buffer := buffer[1..];
      }
      buffer := buffer + [ev];
      oldest := if marker.Some? then marker.value else buffer[0].id;
    }

    /** The dispatch loop; a full queue never blocks it. */
    method Dispatch(r: RunId, ev: RunEvent) returns (slow: seq<QueueId>)
      requires Listening(View(r))
      modifies this`queues
      ensures View(r) == old(View(r)).(queues := DeliverAll(old(View(r)).queues, View(r).subscribers, ev, limits.queue))
      ensures forall o :: o != r ==> View(o) == old(View(o))
      ensures slow == Slow(View(r).subscribers, old(View(r)).queues, limits.queue)
    {
      hide DeliverAll;
      var targets := Get(subscribers, r, []);
      var mine := Get(queues, r, map[]);
      ghost var start := mine;
      DeliverNone(start, targets, ev, limits.queue);
      slow := [];
      for i := 0 to |targets|
        modifies {}
        invariant mine == DeliverAll(start, targets[..i], ev, limits.queue)
        invariant slow == Slow(targets[..i], start, limits.queue)
      {
        ListenerKnown(r, i);
        DeliverOneMore(start, targets, i, ev, limits.queue);
        assert targets[..i + 1][..i] == targets[..i];
        var q := targets[i];
        assert q in mine.Keys;
        if Full(mine[q], limits.queue) {
          slow := slow + [q];
        } else {
          mine := mine[q := mine[q] + [Some(ev)]];
        }
      }
      assert targets[..|targets|] == targets;
      queues := queues[r := mine];
    }

    /** Slow listeners are removed; the sentinel offered to each finds no room. */
    method DropSlow(r: RunId, slow: seq<QueueId>, ghost before: map<QueueId, Queue>)
      requires Listening(View(r)) && Distinct(View(r).subscribers)
      requires forall q :: q in View(r).subscribers ==> q in before
      requires slow == Slow(View(r).subscribers, before, limits.queue)
      requires forall q :: q in slow ==> q in View(r).queues && Full(View(r).queues[q], limits.queue)
      modifies this`subscribers, this`queues
      ensures View(r) == old(View(r)).(subscribers := Quick(old(View(r)).subscribers, before, limits.queue))
      ensures forall o :: o != r ==> View(o) == old(View(o))
    {
      hide Quick, Slow, Without, WithoutAll, Listening, Distinct;
      var listeners := Get(subscribers, r, []);
      var mine := Get(queues, r, map[]);
      ghost var start := mine;
      WithoutNone(listeners);
      for i := 0 to |slow|
        modifies {}
        invariant listeners == WithoutAll(Get(subscribers, r, []), slow[..i])
        invariant mine == start
      {
        var q := slow[i];
        WithoutOneMore(Get(subscribers, r, []), slow, i);
        listeners := Without(listeners, q);
        mine := mine[q := TryPut(mine[q], None, limits.queue)];
      }
      assert slow[..|slow|] == slow;
      DroppingSlowLeavesQuick(View(r).subscribers, before, limits.queue);
      WithoutNone(View(r).subscribers);
      if slow != [] {
        subscribers := subscribers[r := listeners];
        queues := queues[r := mine];
      }
    }

    /** First part of `subscribe`, up to the end of its locked block. */
    method Register(r: RunId, ghost last: Option<int>, ghost emitted: nat)
      returns (q: QueueId, buffered: seq<RunEvent>, alreadyClosed: bool, marker: Option<nat>)
      requires Valid()
      modifies this
      ensures Valid()
      ensures q !in old(View(r)).queues && View(r) == EventChannel.Register(old(View(r)), q)
      ensures forall o :: o != r ==> View(o) == old(View(o))
      ensures var s := NewSub(old(View(r)), last, emitted);
        s.stage == AtGap(buffered) && s.alreadyClosed == alreadyClosed && s.marker == marker
    {
      var mine := Get(queues, r, map[]);
      q := FreshId(mine.Keys);
      RegisterKeepsListening(View(r), q);
      buffered := Get(buffers, r, []);
      alreadyClosed := r in closedRuns;
      marker := Find(overflowFrom, r);
      queues := queues[r := mine[q := []]];
      if !alreadyClosed {
        subscribers := subscribers[r := Get(subscribers, r, []) + [q]];
      }
      StillValid(r);
    }

    /** The `finally` block of `subscribe`. */
    method Unregister(r: RunId, q: QueueId)
      requires Valid()
      modifies this`subscribers
      ensures Valid()
      ensures View(r) == Detach(old(View(r)), q)
      ensures forall o :: o != r ==> View(o) == old(View(o))
    {
      DetachKeepsListening(View(r), q);
      var listeners := Get(subscribers, r, []);
      if q in listeners { listeners := Without(listeners, q); } else { WithoutAbsent(listeners, q); }
      if listeners == [] {
        subscribers := map k | k in subscribers && k != r :: subscribers[k];
      } else {
        subscribers := subscribers[r := listeners];
      }
      StillValid(r);
    }

    method CloseRun(r: RunId, clearBuffer: bool)
      requires Valid()
      modifies this
      ensures Valid()
      ensures View(r) == EventChannel.CloseRun(old(View(r)), clearBuffer, limits)
      ensures forall q :: q in old(View(r)).subscribers ==> q in View(r).queues && EndsWithEnd(View(r).queues[q])
      ensures forall o :: o != r ==> View(o) == old(View(o))
    {
      hide Listening, QueuesBounded, EndAll, EventChannel.CloseRun, EndsWithEnd;
      ListeningTo(r);
      QueuesStayBounded(View(r), clearBuffer, limits);
      CloseSendsEnd(View(r), clearBuffer, limits);
      CloseKeepsListening(View(r), clearBuffer, limits);
      SendEnd(r);
      closedRuns := closedRuns + {r};
      if clearBuffer { Forget(r); }
      ClosedChannel(old(View(r)), View(r), clearBuffer, limits);
      StillValid(r);
    }

    lemma ListeningTo(r: RunId)
      requires Valid()
      ensures Listening(View(r)) && QueuesBounded(View(r).queues, limits.queue)
      ensures forall q :: q in View(r).subscribers ==> q in View(r).queues
    {
    }

    /** Every listener gets the sentinel, if need be by dropping its oldest item. */
    method SendEnd(r: RunId)
      requires Listening(View(r))
      modifies this`queues
      ensures View(r) == old(View(r)).(queues := EndAll(old(View(r)).queues, View(r).subscribers, limits.queue))
      ensures forall o :: o != r ==> View(o) == old(View(o))
    {
      hide EndAll, ForceEnd;
      var targets := Get(subscribers, r, []);
      var mine := Get(queues, r, map[]);
      ghost var start := mine;
      EndNone(start, targets, limits.queue);
      for i := 0 to |targets|
        modifies {}
        invariant mine == EndAll(start, targets[..i], limits.queue)
      {
        ListenerKnown(r, i);
        EndOneMore(start, targets, i, limits.queue);
        assert targets[i] in mine.Keys;
        mine := mine[targets[i] := PutEnd(mine[targets[i]])];
      }
      assert targets[..|targets|] == targets;
      queues := queues[r := mine];
    }

    /** `put_nowait(None)`, and on a full queue `get_nowait` first. */
    function PutEnd(q: Queue): (r: Queue)
      ensures r == ForceEnd(q, limits.queue)
    {
      if !Full(q, limits.queue) then q + [None] else TryPut(q[1..], None, limits.queue)
    }

    lemma ListenerKnown(r: RunId, i: nat)
      requires Listening(View(r)) && i < |View(r).subscribers|
      ensures Distinct(View(r).subscribers) && View(r).subscribers[i] in View(r).queues
    {
    }

    method Forget(r: RunId)
      modifies this`buffers, this`nextId, this`overflowFrom
      ensures View(r) == old(View(r)).(buffer := [], nextId := 0, overflowFrom := None)
      ensures forall o :: o != r ==> View(o) == old(View(o))
    {
      buffers := map k | k in buffers && k != r :: buffers[k];
      nextId := map k | k in nextId && k != r :: nextId[k];
      overflowFrom := map k | k in overflowFrom && k != r :: overflowFrom[k];
    }

    method Clear(r: RunId)
      requires Valid()
      modifies this
      ensures Valid() && View(r) == EventChannel.Clear(old(View(r)))
      ensures forall o :: o != r ==> View(o) == old(View(o))
    {
      CloseKeepsListening(View(r), true, limits);
      Forget(r);
      closedRuns := closedRuns - {r};
      StillValid(r);
    }
  }

  lemma QueuesStayBounded(c: Channel, clearBuffer: bool, limits: Limits)
    requires QueuesBounded(c.queues, limits.queue)
    ensures QueuesBounded(EventChannel.CloseRun(c, clearBuffer, limits).queues, limits.queue)
  {
    QueuesFit(c.queues, c.subscribers, RunEvent(0, "", ""), limits.queue);
  }

  /** Sentinels sent, marked as closed, and possibly forgotten: that is the close. */
  lemma ClosedChannel(c: Channel, d: Channel, clearBuffer: bool, limits: Limits)
    requires var e := c.(closed := true, queues := EndAll(c.queues, c.subscribers, limits.queue));
      d == if clearBuffer then e.(buffer := [], nextId := 0, overflowFrom := None) else e
    ensures d == EventChannel.CloseRun(c, clearBuffer, limits)
  {
  }

  lemma {:induction false} WithoutAbsent(s: seq<QueueId>, q: QueueId)
    requires q !in s
    ensures Without(s, q) == s
  {
    if s != [] { WithoutAbsent(s[1..], q); }
  }

  lemma RecordKeepsListening(c: Channel, d: Channel)
    requires Listening(c) && d.subscribers == c.subscribers && d.queues == c.queues
    ensures Listening(d)
  {
  }

  /** After the dispatch the slow listeners are known and their queues are full. */
  lemma {:induction false} DispatchedThenDrop(c: Channel, d: Channel, ev: RunEvent, slow: seq<QueueId>, cap: nat)
    requires Listening(c) && d.subscribers == c.subscribers
    requires d.queues == DeliverAll(c.queues, c.subscribers, ev, cap)
    requires (forall q :: q in c.subscribers ==> q in c.queues) ==>
      slow == Slow(c.subscribers, c.queues, cap)
    ensures Listening(d) && (forall q :: q in d.subscribers ==> q in c.queues)
    ensures slow == Slow(d.subscribers, c.queues, cap)
    ensures forall q :: q in slow ==> q in d.queues && Full(d.queues[q], cap)
  {
  }

  /** A queue object that is not one of the given ones. */
  method FreshId(used: set<QueueId>) returns (q: QueueId)
    ensures q !in used
  {
    q := 0;
    var rest := used;
    while rest != {}
      invariant rest <= used
      invariant forall x :: x in used && x !in rest ==> x < q
    {
      var x :| x in rest;
      rest := rest - {x};
      if x >= q { q := x + 1; }
    }
  }

  /** The `subscribe` generator: a suspended reader and its locals. */
  class Subscription {
    const runId: RunId
    const queue: QueueId
    var sub: Sub

    constructor (runId: RunId, queue: QueueId, sub: Sub)
      ensures this.runId == runId && this.queue == queue && this.sub == sub
    {
      this.runId, this.queue, this.sub := runId, queue, sub;
    }

    /** What one advance of the generator may do to the bus. */
    ghost predicate Took(a: Advance, before: Channel, after: Channel, was: Sub, item: Option<RunEvent>, blocked: bool)
      reads this
    {
      match a
      case Yield(s, rest, e) => item == Some(e) && !blocked && sub == s && after == before.(queues := before.queues[queue := rest])
      case Finish(rest) => item == None && !blocked && sub == was.(stage := Ended) &&
        after == Detach(before.(queues := before.queues[queue := rest]), queue)
      case Blocked => item == None && blocked && sub == was && after == before
    }

    /** One `__anext__`: no item means that it finished, or that it has to wait. */
    method Next(bus: EventBus) returns (item: Option<RunEvent>, blocked: bool)
      requires bus.Valid() && queue in bus.View(runId).queues
      modifies this`sub, bus`queues, bus`subscribers
      ensures bus.Valid()
      ensures forall o :: o != runId ==> bus.View(o) == old(bus.View(o))
      ensures Took(Resume(old(sub), old(bus.View(runId)).queues[queue]), old(bus.View(runId)), bus.View(runId), old(sub), item, blocked)
    {
      hide Detach;
      SameQueue(bus.View(runId), queue);
      if sub.stage.Ended? { return None, true; }
      if sub.stage.AtGap? && LostEvents(sub) {
        var gap := GapEvent(sub.last.value + 1, sub.marker.value);
        sub := sub.(stage := Replaying(sub.stage.buffered), gap := Some(gap));
        return Some(gap), false;
      }
      if !sub.stage.Live? {
        var rest := if sub.stage.AtGap? then sub.stage.buffered else sub.stage.rest;
        rest := SkipOld(sub, rest, bus.queues[runId][queue]);
        if rest != [] {
          sub := sub.(stage := Replaying(rest[1..]), got := sub.got + [rest[0]]);
          return Some(rest[0]), false;
        }
        if sub.alreadyClosed {
          Leave(bus);
          return None, false;
        }
      }
      item, blocked := Wait(bus);
    }

    lemma SameQueue(c: Channel, q: QueueId)
      requires q in c.queues
      ensures c.(queues := c.queues[q := c.queues[q]]) == c
    {
      assert c.queues[q := c.queues[q]] == c.queues;
    }

    /** `queue.get()` in the live loop. */
    method Wait(bus: EventBus) returns (item: Option<RunEvent>, blocked: bool)
      requires bus.Valid() && queue in bus.View(runId).queues
      modifies this`sub, bus`queues, bus`subscribers
      ensures bus.Valid()
      ensures forall o :: o != runId ==> bus.View(o) == old(bus.View(o))
      ensures Took(Receive(old(sub).(stage := Live), old(bus.View(runId)).queues[queue]), old(bus.View(runId)), bus.View(runId), old(sub), item, blocked)
    {
      hide Detach, Listening;
      bus.ListeningTo(runId);
      var waiting := bus.queues[runId][queue];
      if waiting == [] { return None, true; }
      ShorterQueue(bus.View(runId), queue, waiting[1..]);
      var mine: map<QueueId, Queue> := bus.queues[runId];
      mine := mine[queue := waiting[1..]];
      bus.queues := bus.queues[runId := mine];
      bus.StillValid(runId);
      if waiting[0].None? {
        Leave(bus);
        return None, false;
      }
      sub := sub.(stage := Live, got := sub.got + [waiting[0].value]);
      return Some(waiting[0].value), false;
    }

    lemma ShorterQueue(c: Channel, q: QueueId, rest: Queue)
      requires Listening(c) && q in c.queues
      ensures Listening(c.(queues := c.queues[q := rest]))
    {
    }

    method Leave(bus: EventBus)
      requires bus.Valid()
      modifies this`sub, bus`subscribers
      ensures bus.Valid() && bus.View(runId) == Detach(old(bus.View(runId)), queue)
      ensures forall o :: o != runId ==> bus.View(o) == old(bus.View(o))
      ensures sub == old(sub).(stage := Ended)
    {
      bus.Unregister(runId, queue);
      sub := sub.(stage := Ended);
    }
  }

  /** The replay loop up to the first event it yields. */
  method SkipOld(s: Sub, buffered: seq<RunEvent>, ghost queue: Queue) returns (rest: seq<RunEvent>)
    ensures Replay(s, buffered, queue) == Replay(s, rest, queue)
    ensures rest != [] ==> !Old(s.last, rest[0])
  {
    rest := buffered;
    while rest != [] && Old(s.last, rest[0])
      invariant Replay(s, buffered, queue) == Replay(s, rest, queue)
    {
      rest := rest[1..];
    }
  }
}
