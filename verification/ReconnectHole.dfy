/** A run in which a close pushes an event out of the client's full queue, so that the
    client is told a story with a hole that no gap frame announces
    (sidecar/orca_core/orchestrator/events.py, frontend/src/lib/ipc/run-stream.ts). */
module ReconnectHole {
  import opened Wrappers
  import opened EventChannel
  import opened EventDelivery
  import opened SseText
  import opened Reconnect

  const LIMITS := Limits(3, 2)

  /** Three equal events; the client has read the first when the run is closed with the
      other two in its queue, which is then full. */
  function HoleOps(name: string, payload: string): seq<SysOp> {
    HoleStart(name, payload) + [Serve, Receive(|HoleText(name, payload)|)]
  }

  function HoleStart(name: string, payload: string): seq<SysOp> {
    var emit := Bus(OpEmit(name, payload));
    [Connect(0), emit, Serve, emit, emit, Bus(OpClose)]
  }

  function Items(got: seq<RunEvent>): seq<Item> {
    [Comment("stream open")] + seq(|got|, i requires 0 <= i < |got| => Frame(got[i]))
  }

  function HoleText(name: string, payload: string): string {
    Render(Items([RunEvent(1, name, payload), RunEvent(3, name, payload)]))
  }

  // ---- States on the way ----

  /** A run with at most three events and one subscriber from the start. */
  function OneSub(log: seq<RunEvent>, got: seq<RunEvent>, live: bool, queue: Queue, omitted: set<nat>, closed: bool): World {
    World(Channel(log, if log == [] then None else Some(1), |log|, closed, [0], map[0 := queue]),
          map[0 := Sub(None, None, false, if live then Live else AtGap([]), None, got, 0, 1, 1, |log|, omitted)],
          log, if closed then 1 else 0)
  }

  /** Nothing has arrived at the client yet. */
  function Unread(w: World, got: seq<RunEvent>): System {
    System(w, {0}, NewParser(None), 0, Reading(Conn(0, Items(got), 0, NewParser(None))))
  }

  lemma EmitsOne(log: seq<RunEvent>, got: seq<RunEvent>, live: bool, queue: Queue, name: string, payload: string)
    requires |log| < 3 && |queue| < 2
    ensures var w := OneSub(log, got, live, queue, {}, false);
      var e := RunEvent(|log| + 1, name, payload);
      Listening(w.channel) && EmitStep(w, name, payload, LIMITS) == OneSub(log + [e], got, live, queue + [Some(e)], {}, false)
  {
    var w := OneSub(log, got, live, queue, {}, false);
    assert w.channel.subscribers[..0] == [];
    assert Quick([], w.channel.queues, 2) == [];
    assert Quick([0], w.channel.queues, 2) == [] + [0];
  }

  lemma TakesNext(log: seq<RunEvent>, got: seq<RunEvent>, live: bool, e: RunEvent, rest: Queue, omitted: set<nat>, closed: bool)
    ensures var w, v := OneSub(log, got, live, [Some(e)] + rest, omitted, closed), OneSub(log, got + [e], true, rest, omitted, closed);
      && ResumeStep(w, 0) == v
      && Resume(w.subs[0], w.channel.queues[0]) == Yield(v.subs[0], rest, e)
  {
    assert ([Some(e)] + rest)[1..] == rest;
  }

  lemma Closes(log: seq<RunEvent>, got: seq<RunEvent>, e: RunEvent, f: RunEvent)
    ensures var w := OneSub(log, got, true, [Some(e), Some(f)], {}, false);
      Listening(w.channel) && CloseStep(w, LIMITS) == OneSub(log, got, true, [Some(f), None], {e.id}, true)
  {
    var w: World := OneSub(log, got, true, [Some(e), Some(f)], {}, false);
    assert w.channel.queues[0][1..] == [Some(f)];
    assert ForceEnd(w.channel.queues[0], 2) == [Some(f), None];
    assert w.subs[0].omitted + PushedOut(w.channel.queues[0], 2) == {e.id};
    var v := CloseStep(w, LIMITS);
    assert 0 in w.channel.subscribers;
    assert v.channel.queues == map[0 := [Some(f), None]];
    assert v.subs == OneSub(log, got, true, [Some(f), None], {e.id}, true).subs;
  }

  // ---- The run ----

  lemma Connects(isJson: string -> bool)
    requires SystemOk(BEGIN, LIMITS, isJson)
    ensures SysStep(BEGIN, Connect(0), LIMITS, isJson) == Unread(OneSub([], [], false, [], {}, false), [])
  {
    assert Items([]) == [Comment("stream open")];
  }

  lemma Emits(y: System, log: seq<RunEvent>, got: seq<RunEvent>, live: bool, queue: Queue,
              name: string, payload: string, isJson: string -> bool)
    requires |log| < 3 && |queue| < 2
    requires y == Unread(OneSub(log, got, live, queue, {}, false), got)
      && SystemOk(y, LIMITS, isJson)
    ensures var e := RunEvent(|log| + 1, name, payload);
      SysStep(y, Bus(OpEmit(name, payload)), LIMITS, isJson) == Unread(OneSub(log + [e], got, live, queue + [Some(e)], {}, false), got)
  {
    EmitsOne(log, got, live, queue, name, payload);
    hide EmitStep, SystemOk, OneSub, Listening;
  }

  lemma Serves(y: System, log: seq<RunEvent>, got: seq<RunEvent>, live: bool, e: RunEvent,
               rest: Queue, omitted: set<nat>, closed: bool, isJson: string -> bool)
    requires y == Unread(OneSub(log, got, live, [Some(e)] + rest, omitted, closed), got)
      && SystemOk(y, LIMITS, isJson)
    ensures SysStep(y, Serve, LIMITS, isJson) == Unread(OneSub(log, got + [e], true, rest, omitted, closed), got + [e])
  {
    TakesNext(log, got, live, e, rest, omitted, closed);
    hide ResumeStep, Resume, SystemOk;
    assert Items(got) + [Frame(e)] == Items(got + [e]);
  }

  lemma ClosesRun(y: System, log: seq<RunEvent>, got: seq<RunEvent>, e: RunEvent, f: RunEvent, isJson: string -> bool)
    requires y == Unread(OneSub(log, got, true, [Some(e), Some(f)], {}, false), got)
      && SystemOk(y, LIMITS, isJson)
    ensures SysStep(y, Bus(OpClose), LIMITS, isJson) == Unread(OneSub(log, got, true, [Some(f), None], {e.id}, true), got)
  {
    Closes(log, got, e, f);
    hide CloseStep, SystemOk, OneSub, Listening;
  }

  /** Reading all that was written. */
  lemma Reads(y: System, w: World, got: seq<RunEvent>, isJson: string -> bool)
    requires y == Unread(w, got) && SystemOk(y, LIMITS, isJson)
    ensures var z := SysStep(y, Receive(|Render(Items(got))|), LIMITS, isJson);
      && z.world == w && z.mine == {0}
      && z.parser.out == AllDelivered(got)
  {
    hide WorldOk, LogReadable, Render, Feed, ItemOk, Seen;
    var text, start := Render(Items(got)), NewParser(None);
    assert text[0..Min(0 + |text|, |text|)] == text;
    RoundTrip(start, Items(got), isJson);
    WrittenFrames(got);
    TakeInAllSpec(start, got);
    assert [] + AllDelivered(got) == AllDelivered(got);
  }

  lemma {:induction false} WrittenFrames(got: seq<RunEvent>)
    ensures FramesOf(Items(got)) == got
  {
    hide Render, Print;
    if got == [] {
      assert Items(got)[1..] == [];
    } else {
      var k := |got| - 1;
      WrittenFrames(got[..k]);
      RenderAppend(Items(got[..k]), Frame(got[k]));
      assert Items(got) == Items(got[..k]) + [Frame(got[k])];
    }
  }

  lemma HoleEmittable(name: string, payload: string, isJson: string -> bool)
    requires OneLine(name) && Trimmed(name) && JsonText(payload, isJson)
    ensures forall i :: 0 <= i < |HoleOps(name, payload)| ==> Emittable(HoleOps(name, payload)[i], isJson)
  {
    hide OneLine, Trimmed, JsonText, HoleText;
  }

  /** One more step of a run. */
  lemma {:induction false} NextStep(ops: seq<SysOp>, op: SysOp, isJson: string -> bool)
    requires AcceptsGaps(isJson)
      && forall i :: 0 <= i < |ops + [op]| ==> Emittable((ops + [op])[i], isJson)
    ensures forall i :: 0 <= i < |ops| ==> Emittable(ops[i], isJson)
    ensures SystemOk(SysRun(ops, LIMITS, isJson), LIMITS, isJson)
    ensures SysRun(ops + [op], LIMITS, isJson) == SysStep(SysRun(ops, LIMITS, isJson), op, LIMITS, isJson)
  {
    hide SystemOk, SysStep, Emittable, AcceptsGaps, StoryOk;
    assert (ops + [op])[..|ops|] == ops;
    forall i | 0 <= i < |ops| ensures Emittable(ops[i], isJson) { assert (ops + [op])[i] == ops[i]; }
  }

  /** Before the client reads, it has been written the first and the third event, and
      the second is gone from its queue. */
  lemma HoleIsWritten(name: string, payload: string, isJson: string -> bool)
    requires AcceptsGaps(isJson) && OneLine(name) && Trimmed(name) && JsonText(payload, isJson)
    ensures forall i :: 0 <= i < |HoleOps(name, payload)| ==> Emittable(HoleOps(name, payload)[i], isJson)
    ensures var e1, e2, e3 := RunEvent(1, name, payload), RunEvent(2, name, payload), RunEvent(3, name, payload);
      SysRun(HoleStart(name, payload) + [Serve], LIMITS, isJson) ==
        Unread(OneSub([e1, e2, e3], [e1, e3], true, [None], {2}, true), [e1, e3])
  {
    hide SysRun, SysStep, SystemOk, Emittable, AcceptsGaps, OneSub, Unread, HoleText, JsonText, StoryOk, OneLine, Trimmed;
    HoleEmittable(name, payload, isJson);
    var ops := HoleOps(name, payload);
    var e1, e2, e3 := RunEvent(1, name, payload), RunEvent(2, name, payload), RunEvent(3, name, payload);
    forall k | 0 <= k < 8 ensures ops[..k + 1] == ops[..k] + [ops[k]] {}
    forall k | 0 <= k < 8 ensures forall i :: 0 <= i < k + 1 ==> Emittable((ops[..k] + [ops[k]])[i], isJson) {}
    assert [] + [e1] == [e1] && [e1] + [e2] == [e1, e2] && [e1, e2] + [e3] == [e1, e2, e3];
    assert [e1] + [e3] == [e1, e3];
    assert [] + [Some(e1)] == [Some(e1)] + [] && [] + [Some(e2)] == [Some(e2)];
    assert [Some(e2)] + [Some(e3)] == [Some(e2), Some(e3)] && [Some(e3)] + [None] == [Some(e3), None];
    NextStep(ops[..0], ops[0], isJson);
    Begins(ops[..0], isJson);
    Connects(isJson);
    NextStep(ops[..1], ops[1], isJson);
    Emits(SysRun(ops[..1], LIMITS, isJson), [], [], false, [], name, payload, isJson);
    NextStep(ops[..2], ops[2], isJson);
    Serves(SysRun(ops[..2], LIMITS, isJson), [e1], [], false, e1, [], {}, false, isJson);
    NextStep(ops[..3], ops[3], isJson);
    Emits(SysRun(ops[..3], LIMITS, isJson), [e1], [e1], true, [], name, payload, isJson);
    NextStep(ops[..4], ops[4], isJson);
    Emits(SysRun(ops[..4], LIMITS, isJson), [e1, e2], [e1], true, [Some(e2)], name, payload, isJson);
    NextStep(ops[..5], ops[5], isJson);
    ClosesRun(SysRun(ops[..5], LIMITS, isJson), [e1, e2, e3], [e1], e2, e3, isJson);
    NextStep(ops[..6], ops[6], isJson);
    Serves(SysRun(ops[..6], LIMITS, isJson), [e1, e2, e3], [e1], true, e3, [None], {2}, true, isJson);
  }

  lemma {:induction false} Begins(ops: seq<SysOp>, isJson: string -> bool)
    requires AcceptsGaps(isJson) && ops == []
    ensures SysRun(ops, LIMITS, isJson) == BEGIN
  {
    hide SystemOk, StoryOk;
  }

  /** After a close of a full queue the client can be told a story with a hole: it gets
      the first and the third event, and no gap frame stands for the second. */
  lemma CloseCanLeaveHole(name: string, payload: string, isJson: string -> bool)
    requires AcceptsGaps(isJson) && OneLine(name) && Trimmed(name)
      && JsonText(payload, isJson) && name != "run.gap"
    ensures forall i :: 0 <= i < |HoleOps(name, payload)| ==> Emittable(HoleOps(name, payload)[i], isJson)
    ensures var y := SysRun(HoleOps(name, payload), LIMITS, isJson);
      && y.parser.out == [Delivered(Some(1), name, payload), Delivered(Some(3), name, payload)]
      && y.world.log == [RunEvent(1, name, payload), RunEvent(2, name, payload), RunEvent(3, name, payload)]
      && Lost(y.world, y.mine) == {2}
      && forall pieces: seq<Piece> :: Texts(pieces) == y.parser.out ==> !Chained(pieces, y.world.log)
  {
    hide SysRun, SysStep, SystemOk, Emittable, AcceptsGaps, StoryOk, Chained, Texts,
      OneSub, Unread, Lost, HoleText, OneLine, Trimmed, JsonText;
    HoleIsWritten(name, payload, isJson);
    var before := HoleStart(name, payload) + [Serve];
    assert HoleOps(name, payload) == before + [Receive(|HoleText(name, payload)|)];
    NextStep(before, Receive(|HoleText(name, payload)|), isJson);
    var e1, e2, e3 := RunEvent(1, name, payload), RunEvent(2, name, payload), RunEvent(3, name, payload);
    var w := OneSub([e1, e2, e3], [e1, e3], true, [None], {2}, true);
    assert HoleText(name, payload) == Render(Items([e1, e3])) by { HoleTextIs(name, payload); }
    Reads(SysRun(before, LIMITS, isJson), w, [e1, e3], isJson);
    LostIs([e1, e2, e3], [e1, e3], [None], {2});
    TwoDelivered(e1, e3);
    var y := SysRun(HoleOps(name, payload), LIMITS, isJson);
    forall pieces: seq<Piece> | Texts(pieces) == y.parser.out ensures !Chained(pieces, y.world.log) {
      TwoApart(pieces, w.log, name, payload);
    }
  }

  lemma LostIs(log: seq<RunEvent>, got: seq<RunEvent>, queue: Queue, omitted: set<nat>)
    ensures var w := OneSub(log, got, true, queue, omitted, true);
      w.log == log && Lost(w, {0}) == omitted
  {
    var w := OneSub(log, got, true, queue, omitted, true);
    forall id | id in omitted ensures id in Lost(w, {0}) {
      assert 0 in w.subs && id in w.subs[0].omitted;
    }
  }

  lemma HoleTextIs(name: string, payload: string)
    ensures HoleText(name, payload) == Render(Items([RunEvent(1, name, payload), RunEvent(3, name, payload)]))
  {
  }

  lemma TwoDelivered(e: RunEvent, f: RunEvent)
    ensures AllDelivered([e, f]) == [AsDelivered(e), AsDelivered(f)]
  {
  }

  lemma TwoApart(pieces: seq<Piece>, log: seq<RunEvent>, name: string, payload: string)
    requires Texts(pieces) == [Delivered(Some(1), name, payload), Delivered(Some(3), name, payload)]
    requires name != "run.gap"
    ensures !Chained(pieces, log)
  {
    assert Texts(pieces)[0] == AsDelivered(pieces[0].Sent()) && Texts(pieces)[1] == AsDelivered(pieces[1].Sent());
    assert pieces[1].Lo() != pieces[0].Hi() + 1;
  }
}
