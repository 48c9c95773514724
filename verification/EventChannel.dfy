/** One run's part of the event bus (sidecar/orca_core/orchestrator/events.py):
    its replay buffer, overflow marker, subscriber queues, and the atomic steps
    on them. */
module EventChannel {
  import opened Wrappers

  /** `payload` is the JSON text of the payload. */
  datatype RunEvent = RunEvent(id: nat, name: string, payload: string)

  type QueueId = nat
  type Queue = seq<Option<RunEvent>>

  datatype Limits = Limits(buffer: nat, queue: nat)

  /** The entries of the bus dictionaries for one run.  `None` in a queue is the
      sentinel that ends its reader. */
  datatype Channel = Channel(
    buffer: seq<RunEvent>,
    overflowFrom: Option<nat>,
    nextId: nat,
    closed: bool,
    subscribers: seq<QueueId>,
    queues: map<QueueId, Queue>)

  const EMPTY := Channel([], None, 0, false, [], map[])

  ghost predicate Listening(c: Channel) {
    && Distinct(c.subscribers)
    && (forall q :: q in c.subscribers ==> q in c.queues)
  }

  ghost predicate QueuesBounded(queues: map<QueueId, Queue>, cap: nat) {
    forall q :: q in queues && cap > 0 ==> |queues[q]| <= cap
  }

  // ---- Queues ----

  /** `asyncio.Queue(maxsize=cap)`; a size of zero means unbounded. */
  predicate Full(q: Queue, cap: nat) {
    cap > 0 && |q| >= cap
  }

  function TryPut(q: Queue, item: Option<RunEvent>, cap: nat): Queue {
    if Full(q, cap) then q else q + [item]
  }

  /** The sentinel always gets in; on a full queue it costs the oldest item. */
  function ForceEnd(q: Queue, cap: nat): Queue {
    if Full(q, cap) then TryPut(q[1..], None, cap) else q + [None]
  }

  function DeliverAll(queues: map<QueueId, Queue>, targets: seq<QueueId>, item: RunEvent, cap: nat): map<QueueId, Queue> {
    map q | q in queues :: if q in targets then TryPut(queues[q], Some(item), cap) else queues[q]
  }

  function EndAll(queues: map<QueueId, Queue>, targets: seq<QueueId>, cap: nat): map<QueueId, Queue> {
    map q | q in queues :: if q in targets then ForceEnd(queues[q], cap) else queues[q]
  }

  /** Listeners whose queue had room. */
  function Quick(targets: seq<QueueId>, queues: map<QueueId, Queue>, cap: nat): (r: seq<QueueId>)
    requires forall q :: q in targets ==> q in queues
    ensures forall q :: q in r <==> q in targets && !Full(queues[q], cap)
  {
    if targets == [] then []
    else
      var k := |targets| - 1;
      Quick(targets[..k], queues, cap) + if Full(queues[targets[k]], cap) then [] else [targets[k]]
  }

  lemma {:induction false} QuickDistinct(targets: seq<QueueId>, queues: map<QueueId, Queue>, cap: nat)
    requires forall q :: q in targets ==> q in queues
    requires Distinct(targets)
    ensures Distinct(Quick(targets, queues, cap))
  {
    if targets != [] {
      var k := |targets| - 1;
      QuickDistinct(targets[..k], queues, cap);
      assert targets[k] !in Quick(targets[..k], queues, cap);
    }
  }

  // ---- Atomic steps ----

  /** The overflow marker after appending `e`: the oldest id still buffered. */
  function NextMarker(buffer: seq<RunEvent>, marker: Option<nat>, e: RunEvent, limit: nat): Option<nat> {
    if |buffer| == limit then Some(if |buffer| >= 2 then buffer[1].id else e.id)
    else if marker.None? then Some(if buffer == [] then e.id else buffer[0].id)
    else marker
  }

  /** Bookkeeping of `emit` under the lock: id, overflow marker, replay buffer. */
  function Append(c: Channel, name: string, payload: string, limit: nat): (r: Channel)
    requires limit > 0
  {
    var e := RunEvent(c.nextId + 1, name, payload);
    c.(nextId := c.nextId + 1,
       overflowFrom := NextMarker(c.buffer, c.overflowFrom, e, limit),
       buffer := if |c.buffer| == limit then c.buffer[1..] + [e] else c.buffer + [e])
  }

  /** `emit`: append, dispatch, and forget the listeners that were too slow. */
  function Emit(c: Channel, name: string, payload: string, limits: Limits): (r: Channel)
    requires limits.buffer > 0 && Listening(c)
  {
    var e := RunEvent(c.nextId + 1, name, payload);
    Append(c, name, payload, limits.buffer).(
      queues := DeliverAll(c.queues, c.subscribers, e, limits.queue),
      subscribers := Quick(c.subscribers, c.queues, limits.queue))
  }

  /** Registration part of `subscribe`: a new queue, listed unless the run is closed. */
  function Register(c: Channel, q: QueueId): Channel {
    c.(queues := c.queues[q := []], subscribers := if c.closed then c.subscribers else c.subscribers + [q])
  }

  function Without(s: seq<QueueId>, q: QueueId): (r: seq<QueueId>)
    ensures forall x :: x in r ==> x in s
    ensures forall x :: x in s && x != q ==> x in r
  {
    if s == [] then [] else if s[0] == q then s[1..] else [s[0]] + Without(s[1..], q)
  }

  /** The `finally` block of `subscribe`. */
  function Detach(c: Channel, q: QueueId): Channel {
    c.(subscribers := Without(c.subscribers, q))
  }

  function CloseRun(c: Channel, clearBuffer: bool, limits: Limits): Channel {
    var d := c.(closed := true, queues := EndAll(c.queues, c.subscribers, limits.queue));
    if clearBuffer then d.(buffer := [], nextId := 0, overflowFrom := None) else d
  }

  function Clear(c: Channel): Channel {
    c.(buffer := [], nextId := 0, closed := false, overflowFrom := None)
  }

  lemma {:induction false} WithoutDistinct(s: seq<QueueId>, q: QueueId)
    requires Distinct(s)
    ensures q !in Without(s, q) && Distinct(Without(s, q))
  {
    if s != [] && s[0] != q {
      WithoutDistinct(s[1..], q);
      assert s[0] !in s[1..];
    }
  }

  // Every step keeps listeners distinct and their queues known.

  lemma EmitKeepsListening(c: Channel, name: string, payload: string, limits: Limits)
    requires Listening(c) && limits.buffer > 0
    ensures Listening(Emit(c, name, payload, limits))
  {
    QuickDistinct(c.subscribers, c.queues, limits.queue);
  }

  lemma RegisterKeepsListening(c: Channel, q: QueueId)
    requires Listening(c) && q !in c.queues
    ensures Listening(Register(c, q))
  {
  }

  lemma DetachKeepsListening(c: Channel, q: QueueId)
    requires Listening(c)
    ensures Listening(Detach(c, q)) && q !in Detach(c, q).subscribers
    ensures forall x :: x != q ==> (x in Detach(c, q).subscribers <==> x in c.subscribers)
  {
    WithoutDistinct(c.subscribers, q);
  }

  lemma CloseKeepsListening(c: Channel, clearBuffer: bool, limits: Limits)
    requires Listening(c)
    ensures Listening(CloseRun(c, clearBuffer, limits)) && Listening(Clear(c))
  {
  }
}
