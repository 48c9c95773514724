/** Event bus, wire and client together: any number of connections, each cut at an
    arbitrary character (frontend/src/lib/ipc/run-stream.ts,
    sidecar/orca_core/ipc/sse.py, sidecar/orca_core/orchestrator/events.py). */
module Reconnect {
  import opened Wrappers
  import opened Decimals
  import opened EventChannel
  import opened EventDelivery
  import opened SseText
  import RunStreams

  /** A connection: its subscription on the server, what has been written to it, how
      much of that the client has read, and the parser as it was when it opened. */
  datatype Conn = Conn(q: QueueId, items: seq<Item>, read: nat, start: Parser)

  datatype Phase = Connecting | Reading(conn: Conn) | Finished

  /** `mine` is the history of the client's subscriptions. */
  datatype System = System(world: World, mine: set<QueueId>, parser: Parser, retries: nat, phase: Phase)

  datatype SysOp =
    | Bus(op: Op)              // any other activity on the bus
    | Connect(q: QueueId)      // the server accepts a request
    | Refuse                   // a request fails
    | Serve                    // the server advances the subscription and writes
    | Ping                     // keep-alive comment
    | Receive(n: nat)          // up to `n` more characters arrive
    | Break                    // the connection fails
    | EndOfStream              // the response ends regularly

  const BEGIN := System(EventDelivery.START, {}, NewParser(None), 0, Connecting)

  function Fail(y: System): System {
    match RunStreams.Retry(y.retries)
    case Some(used) => y.(retries := used, phase := Connecting)
    case None => y.(phase := Finished)
  }

  function Open(y: System, q: QueueId, limits: Limits): System
    requires limits.buffer > 0 && Listening(y.world.channel)
      && y.world.subs.Keys == y.world.channel.queues.Keys
  {
    var last := ParseLastEventId(Header(y.parser.lastEventId));
    var start := Restarted(y.parser);
    System(Step(y.world, OpSubscribe(q, last), limits), y.mine + {q}, start, 0, Reading(Conn(q, [Comment("stream open")], 0, start)))
  }

  function Write(y: System, item: Item): System
    requires y.phase.Reading?
  {
    y.(phase := Reading(y.phase.conn.(items := y.phase.conn.items + [item])))
  }

  function ServeNext(y: System, limits: Limits): System
    requires limits.buffer > 0 && Listening(y.world.channel)
      && y.world.subs.Keys == y.world.channel.queues.Keys
    requires y.phase.Reading?
  {
    var q := y.phase.conn.q;
    if q !in y.world.subs then y
    else
      var z := y.(world := Step(y.world, OpResume(q), limits));
      match Resume(y.world.subs[q], y.world.channel.queues[q])
      case Yield(_, _, item) => Write(z, Frame(item))
      case Finish(_) => z
      case Blocked => z
  }

  function Min(a: nat, b: nat): nat { if a < b then a else b }

  function ReadMore(y: System, n: nat, isJson: string -> bool): System
    requires y.phase.Reading? && y.phase.conn.read <= |Render(y.phase.conn.items)|
  {
    var c := y.phase.conn;
    var text := Render(c.items);
    var upTo := Min(c.read + n, |text|);
    y.(parser := Feed(y.parser, text[c.read..upTo], isJson), phase := Reading(c.(read := upTo)))
  }

  ghost function SysStep(y: System, op: SysOp, limits: Limits, isJson: string -> bool): (z: System)
    requires limits.buffer > 0 && SystemOk(y, limits, isJson)
  {
    Steppable(y.world, limits);
    match op
    case Bus(b) =>
      if y.phase.Reading? && b == OpResume(y.phase.conn.q) then y else y.(world := Step(y.world, b, limits))
    case Connect(q) => if y.phase.Connecting? && q !in y.world.subs then Open(y, q, limits) else y
    case Refuse => if y.phase.Connecting? then Fail(y) else y
    case Serve => if y.phase.Reading? then ServeNext(y, limits) else y
    case Ping => if y.phase.Reading? then Write(y, Comment("ping")) else y
    case Receive(n) => if y.phase.Reading? then ReadMore(y, n, isJson) else y
    case Break => if y.phase.Reading? then Fail(y) else y
    case EndOfStream => if y.phase.Reading? then y.(parser := Dispatch(y.parser, isJson), phase := Finished) else y
  }

  // ---- What the client has been told ----

  /** One delivered frame: an event, or a gap that stands for a range of lost ids. */
  datatype Piece = Event(event: RunEvent) | Gap(from: nat, to: nat) {
    function Lo(): nat { if Event? then event.id else from }
    function Hi(): nat { if Event? then event.id else to }
    function Sent(): RunEvent { if Event? then event else GapEvent(from, to + 1) }
  }

  ghost predicate PieceOk(p: Piece, log: seq<RunEvent>) {
    1 <= p.Lo() <= p.Hi() <= |log| && (p.Event? ==> p.event == log[p.event.id - 1])
  }

  /** `lo` comes after `hi`, and every id between them is in `lost`. */
  ghost predicate Follows(hi: int, lo: int, lost: set<nat>) {
    hi < lo && forall id: nat :: hi < id < lo ==> id in lost
  }

  /** Pieces ascend, and whatever they pass over is in `lost`. */
  ghost predicate Linked(pieces: seq<Piece>, log: seq<RunEvent>, lost: set<nat>) {
    && (forall i :: 0 <= i < |pieces| ==> PieceOk(pieces[i], log))
    && (forall i {:trigger pieces[i]} :: 0 < i < |pieces| ==> Follows(pieces[i - 1].Hi(), pieces[i].Lo(), lost))
  }

  /** Every piece continues where the one before it ended. */
  ghost predicate Chained(pieces: seq<Piece>, log: seq<RunEvent>) {
    && (forall i :: 0 <= i < |pieces| ==> PieceOk(pieces[i], log))
    && (forall i {:trigger pieces[i]} :: 0 < i < |pieces| ==> pieces[i].Lo() == pieces[i - 1].Hi() + 1)
  }

  function Texts(pieces: seq<Piece>): (r: seq<Delivered>) {
    seq(|pieces|, i requires 0 <= i < |pieces| => AsDelivered(pieces[i].Sent()))
  }

  ghost predicate Tells(pieces: seq<Piece>, log: seq<RunEvent>, lost: set<nat>, out: seq<Delivered>, lastEventId: Option<int>) {
    && Linked(pieces, log, lost)
    && out == Texts(pieces)
    && lastEventId == (if pieces == [] then None else Some(pieces[|pieces| - 1].Hi()))
  }

  ghost predicate Account(log: seq<RunEvent>, lost: set<nat>, out: seq<Delivered>, lastEventId: Option<int>) {
    exists pieces :: Tells(pieces, log, lost, out, lastEventId)
  }

  // ---- Invariant ----

  ghost predicate Emittable(op: SysOp, isJson: string -> bool) {
    op.Bus? && op.op.OpEmit? ==> OneLine(op.op.name) && Trimmed(op.op.name) && JsonText(op.op.payload, isJson)
  }

  ghost predicate AcceptsGaps(isJson: string -> bool) {
    forall from: int, to: int :: isJson(GapPayload(from, to))
  }

  ghost predicate LogReadable(log: seq<RunEvent>, isJson: string -> bool) {
    forall i :: 0 <= i < |log| ==> Readable(log[i], isJson)
  }

  /** Ids that a close pushed out of one of the client's full queues. */
  ghost function Lost(w: World, mine: set<QueueId>): set<nat> {
    set q, id | q in mine && q in w.subs && id in w.subs[q].omitted :: id
  }

  /** The subscription starts right after the last id the client had, or with a gap. */
  ghost predicate StartsRight(s: Sub) {
    s.last.Some? ==> s.first == if LostEvents(s) then s.marker.value else s.last.value + 1
  }

  ghost predicate ConnOk(c: Conn, w: World, parser: Parser, isJson: string -> bool) {
    && c.q in w.subs
    && Idle(c.start)
    && ItemsOk(c.items, isJson)
    && FramesOf(c.items) == Seen(w.subs[c.q])
    && c.read <= |Render(c.items)|
    && parser == Feed(c.start, Render(c.items)[..c.read], isJson)
    && w.subs[c.q].last == c.start.lastEventId
  }

  ghost predicate SystemOk(y: System, limits: Limits, isJson: string -> bool) {
    && WorldOk(y.world, limits)
    && LogReadable(y.world.log, isJson)
    && y.mine <= y.world.subs.Keys
    && (y.phase.Reading? ==> y.phase.conn.q in y.mine)
    && (y.phase.Reading? ==> ConnOk(y.phase.conn, y.world, y.parser, isJson))
  }

  /** The client has been told an ascending story that passes over nothing but what
      closes pushed out of its queues. */
  ghost predicate StoryOk(y: System) {
    match y.phase
    case Reading(c) =>
      && c.q in y.world.subs && StartsRight(y.world.subs[c.q])
      && Account(y.world.log, Lost(y.world, y.mine), c.start.out, c.start.lastEventId)
    case _ => Account(y.world.log, Lost(y.world, y.mine), y.parser.out, y.parser.lastEventId)
  }

  // ---- The bus underneath ----

  lemma StepLog(w: World, op: Op, limits: Limits)
    requires limits.buffer > 0 && Listening(w.channel) && w.subs.Keys == w.channel.queues.Keys
    ensures w.log <= Step(w, op, limits).log
    ensures op.OpEmit? ==>
      exists e :: Step(w, op, limits).log == w.log + [e] && e == RunEvent(w.channel.nextId + 1, op.name, op.payload)
    ensures !op.OpEmit? ==> Step(w, op, limits).log == w.log
  {
    hide Emit, CloseRun, Detach, Register, Listening, PushedOut;
  }

  lemma LostGrows(w: World, mine: set<QueueId>, op: Op, limits: Limits)
    requires limits.buffer > 0 && Listening(w.channel) && w.subs.Keys == w.channel.queues.Keys
    ensures Lost(w, mine) <= Lost(Step(w, op, limits), mine)
  {
    hide Step, Listening;
    forall q, id | q in mine && q in w.subs && id in w.subs[q].omitted ensures id in Lost(Step(w, op, limits), mine) {
      BusKeeps(w, op, limits, q);
    }
  }

  // ---- Frames the server writes are readable ----

  lemma GapPayloadIsText(from: int, to: int, isJson: string -> bool)
    requires AcceptsGaps(isJson)
    ensures JsonText(GapPayload(from, to), isJson)
  {
    IntIsLine(from);
    IntIsLine(to);
    hide PrintInt;
    var a, b := PrintInt(from), PrintInt(to);
    var s := GapPayload(from, to);
    assert s == "{\"dropped_from\":" + a + ",\"dropped_to\":" + b + "}";
    assert s[0] == '{' && s[|s| - 1] == '}';
  }

  lemma IntIsLine(n: int)
    ensures OneLine(PrintInt(n))
  {
    if n < 0 { DigitsAreTrimmedLine(-n); } else { DigitsAreTrimmedLine(n); }
  }

  lemma GapIsReadable(from: int, marker: nat, isJson: string -> bool)
    requires AcceptsGaps(isJson)
    ensures Readable(GapEvent(from, marker), isJson)
  {
    GapPayloadIsText(from, marker - 1, isJson);
    hide GapPayload;
    var name := "run.gap";
    assert name[0] == 'r' && name[|name| - 1] == 'p';
  }

  lemma {:induction false} KeptFromLog(log: seq<RunEvent>, omitted: set<nat>, i: nat, isJson: string -> bool)
    requires LogReadable(log, isJson) && i < |Kept(log, omitted)|
    ensures Readable(Kept(log, omitted)[i], isJson)
  {
    KeptMember(log, omitted, i);
  }

  /** Everything a subscriber has got came from the log. */
  lemma GotIsReadable(s: Sub, queue: Queue, listed: bool, log: seq<RunEvent>, i: nat, isJson: string -> bool)
    requires SubOk(s, queue, listed, log) && LogReadable(log, isJson) && i < |s.got|
    ensures Readable(s.got[i], isJson)
  {
    hide Readable;
    SubExactlyOnce(s, queue, listed, log);
    assert s.got[i] == Kept(log[s.first - 1..], s.omitted)[i];
    KeptFromLog(log[s.first - 1..], s.omitted, i, isJson);
  }

  lemma YieldIsReadable(s: Sub, queue: Queue, listed: bool, log: seq<RunEvent>, isJson: string -> bool)
    requires SubOk(s, queue, listed, log) && LogReadable(log, isJson)
      && AcceptsGaps(isJson) && Resume(s, queue).Yield?
    ensures var a := Resume(s, queue);
      Readable(a.item, isJson) && Seen(a.sub) == Seen(s) + [a.item]
  {
    hide Readable, Resume, LedgerOk, LogReadable, AcceptsGaps;
    ResumeKeeps(s, queue);
    ResumeOk(s, queue, listed, log);
    var a := Resume(s, queue);
    if s.stage.AtGap? && LostEvents(s) {
      GapIsReadable(s.last.value + 1, s.marker.value, isJson);
    } else {
      GotIsReadable(a.sub, a.queue, listed, log, |s.got|, isJson);
    }
  }

  // ---- The chain of delivered pieces ----

  /** What a subscriber has been sent, as pieces. */
  function SentPieces(s: Sub): (r: seq<Piece>)
    requires s.gap.Some? ==> s.last.Some? && s.last.value >= 0 && s.first > 0
  {
    (if s.gap.Some? then [Gap(s.last.value + 1, s.first - 1)] else [])
      + seq(|s.got|, i requires 0 <= i < |s.got| => Event(s.got[i]))
  }

  /** The id before the `i`-th of some events that come after `from`. */
  function IdBefore(events: seq<RunEvent>, from: int, i: nat): int
    requires i <= |events|
  {
    if i == 0 then from else events[i - 1].id
  }

  /** The facts about a subscriber that its pieces rest on. */
  ghost predicate StraightStory(s: Sub, log: seq<RunEvent>) {
    && s.first >= 1
    && AllKept(s.got, log, s.first - 1, |log|, s.omitted)
    && (s.gap.Some? ==> s.last.Some? && 0 <= s.last.value && s.last.value + 1 < s.first <= |log| + 1
                        && s.gap.value == GapEvent(s.last.value + 1, s.first))
  }

  function GapCount(s: Sub): nat { if s.gap.Some? then 1 else 0 }

  lemma SentPiece(s: Sub, log: seq<RunEvent>, i: nat)
    requires StraightStory(s, log) && i < |Seen(s)|
    ensures var p, g := SentPieces(s), GapCount(s);
      && |p| == |Seen(s)| && p[i].Sent() == Seen(s)[i] && PieceOk(p[i], log)
      && p[i].Hi() == (if i < g then s.first - 1 else s.got[i - g].id)
      && p[i].Lo() == (if i < g then s.last.value + 1 else s.got[i - g].id)
  {
    hide GapPayload, Follows;
    var g := GapCount(s);
    if i < g {
      assert SentPieces(s)[0] == Gap(s.last.value + 1, s.first - 1);
    } else {
      assert KeptAt(s.got, i - g, log, s.first - 1, |log|, s.omitted);
      assert SentPieces(s)[i] == Event(s.got[i - g]) && Seen(s)[i] == s.got[i - g];
    }
  }

  lemma SentPiecesLinked(s: Sub, log: seq<RunEvent>)
    requires StraightStory(s, log)
    ensures var p := SentPieces(s);
      && Linked(p, log, s.omitted) && |p| == |Seen(s)|
      && (forall i :: 0 <= i < |p| ==> p[i].Sent() == Seen(s)[i])
      && (p != [] ==> Follows(if s.gap.Some? then s.last.value else s.first - 1, p[0].Lo(), s.omitted))
  {
    hide StraightStory, PieceOk, SentPieces, Seen, Piece.Lo, Piece.Hi, Piece.Sent, Follows;
    SentPiecesSize(s, log);
    var p := SentPieces(s);
    forall i | 0 <= i < |p| ensures PieceOk(p[i], log) && p[i].Sent() == Seen(s)[i] {
      SentPiece(s, log, i);
    }
    forall i {:trigger p[i]} | 0 < i < |p| ensures Follows(p[i - 1].Hi(), p[i].Lo(), s.omitted) {
      SentFollows(s, log, i);
    }
    if p != [] { SentFirst(s, log); }
  }

  lemma SentFollows(s: Sub, log: seq<RunEvent>, i: nat)
    requires StraightStory(s, log) && 0 < i < |Seen(s)|
    ensures var p := SentPieces(s);
      |p| == |Seen(s)| && Follows(p[i - 1].Hi(), p[i].Lo(), s.omitted)
  {
    hide PieceOk, SentPieces, Seen, Piece.Lo, Piece.Hi, Piece.Sent, Follows, GapEvent;
    SentPiecesSize(s, log);
    SentPiece(s, log, i - 1);
    SentPiece(s, log, i);
    assert KeptAt(s.got, i - GapCount(s), log, s.first - 1, |log|, s.omitted);
  }

  lemma SentFirst(s: Sub, log: seq<RunEvent>)
    requires StraightStory(s, log) && Seen(s) != []
    ensures var p := SentPieces(s);
      |p| == |Seen(s)| && Follows(if s.gap.Some? then s.last.value else s.first - 1, p[0].Lo(), s.omitted)
  {
    hide PieceOk, SentPieces, Seen, Piece.Lo, Piece.Hi, Piece.Sent, Follows, GapEvent;
    SentPiecesSize(s, log);
    SentPiece(s, log, 0);
    if s.gap.Some? {
      NothingBetween(s.last.value, s.omitted);
    } else {
      assert KeptAt(s.got, 0, log, s.first - 1, |log|, s.omitted);
    }
  }

  lemma NothingBetween(id: int, lost: set<nat>)
    ensures Follows(id, id + 1, lost)
  {
  }

  lemma SentPiecesSize(s: Sub, log: seq<RunEvent>)
    requires StraightStory(s, log)
    ensures s.gap.Some? ==> s.last.Some? && s.last.value >= 0 && s.first > 0
    ensures |SentPieces(s)| == |Seen(s)|
    ensures |Seen(s)| == GapCount(s) + |s.got|
  {
  }

  /** The `i`-th of `k` is an event of the log from after `from` to `upTo`, and all ids
      since the one before it are in `omitted`. */
  ghost predicate KeptAt(k: seq<RunEvent>, i: nat, log: seq<RunEvent>, from: nat, upTo: nat, omitted: set<nat>)
    requires i < |k| && upTo <= |log|
  {
    && from < k[i].id <= upTo && k[i] == log[k[i].id - 1]
    && Follows(IdBefore(k, from, i), k[i].id, omitted)
  }

  ghost predicate AllKept(k: seq<RunEvent>, log: seq<RunEvent>, from: nat, upTo: nat, omitted: set<nat>)
    requires upTo <= |log|
  {
    forall i :: 0 <= i < |k| ==> KeptAt(k, i, log, from, upTo, omitted)
  }

  /** The same for all of `k`, with nothing else missing up to `upTo`. */
  ghost predicate KeptRight(k: seq<RunEvent>, log: seq<RunEvent>, from: nat, upTo: nat, omitted: set<nat>)
    requires upTo <= |log|
  {
    && AllKept(k, log, from, upTo, omitted)
    && Follows(IdBefore(k, from, |k|), upTo + 1, omitted)
  }

  lemma {:induction false} KeptFollows(log: seq<RunEvent>, from: nat, upTo: nat, omitted: set<nat>)
    requires LogOk(log) && from <= upTo <= |log|
    ensures KeptRight(Kept(log[from..upTo], omitted), log, from, upTo, omitted)
    decreases upTo
  {
    hide KeptRight;
    if from == upTo {
      NothingKept(log, from, omitted);
    } else {
      KeptFollows(log, from, upTo - 1, omitted);
      assert log[from..upTo][..upTo - 1 - from] == log[from..upTo - 1];
      var k := Kept(log[from..upTo - 1], omitted);
      KeptOneMore(k, log, from, upTo, omitted);
      assert k + [] == k;
    }
  }

  lemma KeptOneMore(k: seq<RunEvent>, log: seq<RunEvent>, from: nat, upTo: nat, omitted: set<nat>)
    requires from < upTo <= |log| && log[upTo - 1].id == upTo
    requires KeptRight(k, log, from, upTo - 1, omitted)
    ensures upTo in omitted ==> KeptRight(k, log, from, upTo, omitted)
    ensures upTo !in omitted ==> KeptRight(k + [log[upTo - 1]], log, from, upTo, omitted)
  {
    hide Follows, KeptAt;
    var x := log[upTo - 1];
    var more := k + [x];
    NothingBetween(upTo, omitted);
    if upTo in omitted { OneFurther(IdBefore(k, from, |k|), upTo, omitted); }
    forall i | 0 <= i < |k|
      ensures KeptAt(k, i, log, from, upTo, omitted)
        && KeptAt(more, i, log, from, upTo, omitted)
    {
      KeptStays(k, i, x, log, from, upTo, omitted);
    }
    KeptLast(k, log, from, upTo, omitted);
  }

  lemma KeptStays(k: seq<RunEvent>, i: nat, x: RunEvent, log: seq<RunEvent>, from: nat, upTo: nat, omitted: set<nat>)
    requires i < |k| && 0 < upTo <= |log| && KeptAt(k, i, log, from, upTo - 1, omitted)
    ensures KeptAt(k, i, log, from, upTo, omitted)
      && KeptAt(k + [x], i, log, from, upTo, omitted)
  {
    hide Follows;
    assert (k + [x])[i] == k[i] && IdBefore(k + [x], from, i) == IdBefore(k, from, i);
  }

  lemma KeptLast(k: seq<RunEvent>, log: seq<RunEvent>, from: nat, upTo: nat, omitted: set<nat>)
    requires from < upTo <= |log| && log[upTo - 1].id == upTo
    requires Follows(IdBefore(k, from, |k|), upTo, omitted)
    ensures KeptAt(k + [log[upTo - 1]], |k|, log, from, upTo, omitted)
  {
    hide Follows;
    assert IdBefore(k + [log[upTo - 1]], from, |k|) == IdBefore(k, from, |k|);
  }

  lemma NothingKept(log: seq<RunEvent>, from: nat, omitted: set<nat>)
    requires from <= |log|
    ensures KeptRight([], log, from, from, omitted)
  {
  }

  lemma OneFurther(hi: int, lo: int, lost: set<nat>)
    requires Follows(hi, lo, lost) && lo in lost
    ensures Follows(hi, lo + 1, lost)
  {
  }

  lemma GotFollows(s: Sub, queue: Queue, log: seq<RunEvent>)
    requires LogOk(log) && LedgerOk(s, queue, log)
    ensures AllKept(s.got, log, s.first - 1, |log|, s.omitted)
  {
    hide Kept, Pending, KeptAt, LogOk;
    GotIsPrefix(s, queue, log);
    KeptFollows(log, s.first - 1, s.reach, s.omitted);
    var k := Kept(log[s.first - 1..s.reach], s.omitted);
    var from := s.first - 1;
    forall i | 0 <= i < |s.got| ensures KeptAt(s.got, i, log, from, |log|, s.omitted) {
      KeptPrefixAt(s.got, k, i, log, from, s.reach, s.omitted);
    }
  }

  lemma KeptPrefixAt(got: seq<RunEvent>, k: seq<RunEvent>, i: nat, log: seq<RunEvent>, from: nat, upTo: nat, omitted: set<nat>)
    requires i < |got| && got <= k && upTo <= |log| && KeptAt(k, i, log, from, upTo, omitted)
    ensures KeptAt(got, i, log, from, |log|, omitted)
  {
    hide Follows;
    assert got[i] == k[i] && IdBefore(got, from, i) == IdBefore(k, from, i);
  }

  lemma SubIsStraight(s: Sub, queue: Queue, listed: bool, log: seq<RunEvent>)
    requires LogOk(log) && SubOk(s, queue, listed, log) && (s.last.Some? ==> s.last.value >= 0)
    ensures StraightStory(s, log)
    ensures LostEvents(s) && s.got != [] ==> s.gap.Some?
  {
    hide Kept, Pending, GapEvent, AllKept, LogOk;
    GotFollows(s, queue, log);
  }

  lemma Appended(pieces: seq<Piece>, more: seq<Piece>, log: seq<RunEvent>, lost: set<nat>)
    requires Linked(pieces, log, lost) && Linked(more, log, lost)
    requires pieces != [] && more != [] ==>
      Follows(pieces[|pieces| - 1].Hi(), more[0].Lo(), lost)
    ensures Linked(pieces + more, log, lost)
  {
    hide PieceOk, Piece.Lo, Piece.Hi, Follows;
    var all, n := pieces + more, |pieces|;
    forall i {:trigger all[i]} | 0 < i < |all| ensures Follows(all[i - 1].Hi(), all[i].Lo(), lost) {
      if i < n {
        assert all[i] == pieces[i] && all[i - 1] == pieces[i - 1];
      } else if i == n {
        assert all[i] == more[0] && all[i - 1] == pieces[n - 1];
      } else {
        assert all[i] == more[i - n] && all[i - 1] == more[i - n - 1];
      }
    }
  }

  lemma Shortened(pieces: seq<Piece>, m: nat, log: seq<RunEvent>, lost: set<nat>)
    requires Linked(pieces, log, lost) && m <= |pieces|
    ensures Linked(pieces[..m], log, lost)
  {
    hide PieceOk, Piece.Lo, Piece.Hi, Follows;
  }

  /** More events, and more lost ids, do not spoil a story. */
  lemma StaysLinked(pieces: seq<Piece>, log: seq<RunEvent>, lost: set<nat>, log': seq<RunEvent>, lost': set<nat>)
    requires Linked(pieces, log, lost) && log <= log' && lost <= lost'
    ensures Linked(pieces, log', lost')
  {
  }

  lemma TextsAppend(pieces: seq<Piece>, more: seq<Piece>)
    ensures Texts(pieces + more) == Texts(pieces) + Texts(more)
  {
    hide AsDelivered, Piece.Sent;
  }

  lemma TextsAre(pieces: seq<Piece>, events: seq<RunEvent>, m: nat, log: seq<RunEvent>)
    requires forall i :: 0 <= i < |pieces| ==> PieceOk(pieces[i], log)
    requires |pieces| == |events| && m <= |events|
    requires forall i :: 0 <= i < |pieces| ==> pieces[i].Sent() == events[i]
    ensures Texts(pieces[..m]) == AllDelivered(events[..m])
    ensures m > 0 ==> pieces[m - 1].Hi() == events[m - 1].id
  {
    if m > 0 {
      assert PieceOk(pieces[m - 1], log) && pieces[m - 1].Sent() == events[m - 1];
    }
  }

  /** Taking in `m` more frames that follow the last one extends the story. */
  lemma {:induction false} TellsMore(start: Parser, pieces: seq<Piece>, more: seq<Piece>, events: seq<RunEvent>,
                                      m: nat, log: seq<RunEvent>, lost: set<nat>)
    requires Tells(pieces, log, lost, start.out, start.lastEventId)
    requires Linked(more, log, lost) && |more| == |events| && m <= |events|
    requires forall i :: 0 <= i < |more| ==> more[i].Sent() == events[i]
    requires pieces != [] && more != [] ==>
      Follows(pieces[|pieces| - 1].Hi(), more[0].Lo(), lost)
    ensures var r := TakeInAll(start, events[..m]); Account(log, lost, r.out, r.lastEventId)
  {
    hide PieceOk, Follows, Texts, TakeInAll, AllDelivered, Piece.Sent;
    Shortened(more, m, log, lost);
    if m > 0 { assert more[..m][0] == more[0]; }
    Appended(pieces, more[..m], log, lost);
    TextsAppend(pieces, more[..m]);
    TextsAre(more, events, m, log);
    TakeInAllSpec(start, events[..m]);
    hide Linked;
    var r := TakeInAll(start, events[..m]);
    var all := pieces + more[..m];
    if m > 0 { assert all[|all| - 1] == more[m - 1] && events[..m][m - 1] == events[m - 1]; }
    assert Tells(all, log, lost, r.out, r.lastEventId);
  }

  /** Reading `m` frames of a connection extends the client's story by `m` pieces. */
  lemma {:induction false} StoryGrows(start: Parser, s: Sub, log: seq<RunEvent>, lost: set<nat>, m: nat)
    requires StraightStory(s, log) && m <= |Seen(s)| && s.omitted <= lost
    requires Account(log, lost, start.out, start.lastEventId) && s.last == start.lastEventId
    requires StartsRight(s) && (LostEvents(s) && s.got != [] ==> s.gap.Some?)
    ensures var r := TakeInAll(start, Seen(s)[..m]);
      Account(log, lost, r.out, r.lastEventId)
  {
    hide StraightStory, Linked, Texts, SentPieces, Seen, StartsRight, LostEvents, TakeInAll, Follows;
    var pieces :| Tells(pieces, log, lost, start.out, start.lastEventId);
    SentPiecesSize(s, log);
    SentPiecesLinked(s, log);
    StaysLinked(SentPieces(s), log, s.omitted, log, lost);
    FirstPieceFollows(s, log, lost);
    TellsMore(start, pieces, SentPieces(s), Seen(s), m, log, lost);
  }

  lemma FirstPieceFollows(s: Sub, log: seq<RunEvent>, lost: set<nat>)
    requires StraightStory(s, log) && StartsRight(s) && s.omitted <= lost
    requires LostEvents(s) && s.got != [] ==> s.gap.Some?
    ensures s.gap.Some? ==> s.last.Some? && s.last.value >= 0 && s.first > 0
    ensures SentPieces(s) != [] && s.last.Some? ==>
      Follows(s.last.value, SentPieces(s)[0].Lo(), lost)
  {
    SentPiecesLinked(s, log);
    SentPiecesSize(s, log);
  }

  // ---- Every step keeps the story ----

  lemma StoryStays(log: seq<RunEvent>, lost: set<nat>, log': seq<RunEvent>, lost': set<nat>, out: seq<Delivered>, lastEventId: Option<int>)
    requires log <= log' && lost <= lost' && Account(log, lost, out, lastEventId)
    ensures Account(log', lost', out, lastEventId)
  {
    hide Texts, Linked;
    var pieces :| Tells(pieces, log, lost, out, lastEventId);
    StaysLinked(pieces, log, lost, log', lost');
    assert Tells(pieces, log', lost', out, lastEventId);
  }

  lemma LogStaysReadable(w: World, op: Op, limits: Limits, isJson: string -> bool)
    requires limits.buffer > 0 && Listening(w.channel) && w.subs.Keys == w.channel.queues.Keys
    requires LogReadable(w.log, isJson) && Emittable(Bus(op), isJson)
    ensures LogReadable(Step(w, op, limits).log, isJson)
  {
    hide Step, Listening;
    StepLog(w, op, limits);
  }

  lemma BusConnOk(c: Conn, w: World, op: Op, limits: Limits, parser: Parser, isJson: string -> bool)
    requires limits.buffer > 0 && Listening(w.channel) && w.subs.Keys == w.channel.queues.Keys
    requires ConnOk(c, w, parser, isJson) && op != OpResume(c.q)
    ensures ConnOk(c, Step(w, op, limits), parser, isJson)
  {
    hide Step, Listening, Seen, ItemsOk, Feed, Render, Idle;
    BusKeeps(w, op, limits, c.q);
  }

  lemma MineStay(w: World, mine: set<QueueId>, op: Op, limits: Limits)
    requires limits.buffer > 0 && Listening(w.channel) && w.subs.Keys == w.channel.queues.Keys
    requires mine <= w.subs.Keys
    ensures mine <= Step(w, op, limits).subs.Keys
  {
    hide Step, Listening;
    forall q | q in mine ensures q in Step(w, op, limits).subs {
      BusKeeps(w, op, limits, q);
    }
  }

  lemma BusSystemOk(y: System, op: Op, limits: Limits, isJson: string -> bool)
    requires limits.buffer > 0 && SystemOk(y, limits, isJson) && Emittable(Bus(op), isJson)
    ensures SystemOk(SysStep(y, Bus(op), limits, isJson), limits, isJson)
  {
    hide WorldOk, Step, LogReadable, Emittable, ConnOk, Listening;
    StepOk(y.world, op, limits);
    LogStaysReadable(y.world, op, limits, isJson);
    MineStay(y.world, y.mine, op, limits);
    if y.phase.Reading? && op != OpResume(y.phase.conn.q) {
      BusConnOk(y.phase.conn, y.world, op, limits, y.parser, isJson);
    }
  }

  /** Activity on the bus, the client's own subscription included, keeps the story. */
  lemma WorldStepStory(y: System, op: Op, limits: Limits)
    requires limits.buffer > 0 && Listening(y.world.channel)
      && y.world.subs.Keys == y.world.channel.queues.Keys
    requires StoryOk(y) && (y.phase.Reading? ==> y.phase.conn.q in y.world.subs)
    ensures StoryOk(y.(world := Step(y.world, op, limits)))
  {
    hide Step, Listening, Account, Lost, LostEvents;
    var w, v := y.world, Step(y.world, op, limits);
    LostGrows(w, y.mine, op, limits);
    StepLog(w, op, limits);
    match y.phase {
      case Reading(c) =>
        StoryStays(w.log, Lost(w, y.mine), v.log, Lost(v, y.mine), c.start.out, c.start.lastEventId);
        BusKeeps(w, op, limits, c.q);
        StartsSame(w.subs[c.q], v.subs[c.q]);
      case _ =>
        StoryStays(w.log, Lost(w, y.mine), v.log, Lost(v, y.mine), y.parser.out, y.parser.lastEventId);
    }
  }

  lemma StartsSame(s: Sub, t: Sub)
    requires SameSubscription(s, t) && StartsRight(s)
    ensures StartsRight(t)
  {
  }

  lemma NewConnOk(q: QueueId, v: World, start: Parser, isJson: string -> bool)
    requires q in v.subs && v.subs[q].gap.None? && v.subs[q].got == []
      && v.subs[q].last == start.lastEventId
    requires Idle(start)
    ensures ConnOk(Conn(q, [Comment("stream open")], 0, start), v, start, isJson)
  {
    var items := [Comment("stream open")];
    FeedNothing(start, isJson);
    assert Render(items)[..0] == "";
    assert items[1..] == [];
  }

  lemma OpenSystemOk(y: System, q: QueueId, limits: Limits, isJson: string -> bool)
    requires limits.buffer > 0 && SystemOk(y, limits, isJson) && y.phase.Connecting?
      && q !in y.world.subs
    ensures SystemOk(SysStep(y, Connect(q), limits, isJson), limits, isJson)
  {
    hide WorldOk, LogReadable, ConnOk, Listening, Header, ParseLastEventId, Register, FirstWanted, Feed;
    var last := y.parser.lastEventId;
    HeaderReadsBack(last);
    StepOk(y.world, OpSubscribe(q, last), limits);
    NewConnOk(q, SubscribeStep(y.world, q, last), Restarted(y.parser), isJson);
  }

  /** A known last id starts the subscription right after it, or with a gap. */
  lemma NewSubStartsRight(w: World, last: Option<int>, limits: Limits)
    requires limits.buffer > 0 && WorldOk(w, limits)
      && (last.Some? ==> 0 <= last.value <= |w.log|)
    ensures StartsRight(NewSub(w.channel, last, |w.log|))
  {
    hide ChannelOk, LogOk, SubsOk;
    SubscriptionStart(w.channel, last, w.log, limits);
    MarkerIsOldest(w.channel, w.log, limits);
  }

  lemma MarkerIsOldest(c: Channel, log: seq<RunEvent>, limits: Limits)
    requires limits.buffer > 0 && ChannelOk(c, log, limits)
    ensures c.overflowFrom.Some? ==>
      c.overflowFrom.value == if |log| < limits.buffer then 1 else |log| - limits.buffer + 1
  {
    TailSize(c.buffer, log, limits.buffer);
  }

  lemma LastIdKnown(log: seq<RunEvent>, lost: set<nat>, out: seq<Delivered>, lastEventId: Option<int>)
    requires Account(log, lost, out, lastEventId)
    ensures lastEventId.Some? ==> 1 <= lastEventId.value <= |log|
  {
    hide Texts, Follows;
    var pieces :| Tells(pieces, log, lost, out, lastEventId);
  }

  lemma OpenStoryOk(y: System, q: QueueId, limits: Limits)
    requires limits.buffer > 0 && WorldOk(y.world, limits) && y.phase.Connecting?
      && q !in y.world.subs && q !in y.mine
    requires Listening(y.world.channel) && y.world.subs.Keys == y.world.channel.queues.Keys
    requires StoryOk(y)
    ensures StoryOk(Open(y, q, limits))
  {
    hide WorldOk, Listening, Account, Lost, Header, ParseLastEventId, Register, NewSub, StartsRight;
    var w, last, z := y.world, y.parser.lastEventId, Open(y, q, limits);
    HeaderReadsBack(last);
    LostByMore(w, z.world, y.mine, q);
    StoryStays(w.log, Lost(w, y.mine), w.log, Lost(z.world, z.mine), y.parser.out, last);
    LastIdKnown(w.log, Lost(w, y.mine), y.parser.out, last);
    NewSubStartsRight(w, last, limits);
  }

  lemma LostByMore(w: World, v: World, mine: set<QueueId>, q: QueueId)
    requires forall x :: x in w.subs ==> x in v.subs && v.subs[x] == w.subs[x]
    ensures Lost(w, mine) <= Lost(v, mine + {q})
  {
  }

  // ---- The server writes ----

  lemma {:induction false} RenderAppend(items: seq<Item>, x: Item)
    ensures Render(items + [x]) == Render(items) + Print(x)
    ensures FramesOf(items + [x]) == FramesOf(items) + if x.Frame? then [x.event] else []
  {
    hide Print;
    if items == [] {
      assert (items + [x])[1..] == [];
    } else {
      RenderAppend(items[1..], x);
      assert (items + [x])[1..] == items[1..] + [x];
    }
  }

  /** Writing one more item to a connection whose subscription is now as in `v`. */
  lemma WriteConnOk(c: Conn, w: World, v: World, x: Item, parser: Parser, isJson: string -> bool)
    requires ConnOk(c, w, parser, isJson) && ItemOk(x, isJson)
    requires c.q in v.subs && v.subs[c.q].last == w.subs[c.q].last
    requires Seen(v.subs[c.q]) == Seen(w.subs[c.q]) + if x.Frame? then [x.event] else []
    ensures ConnOk(c.(items := c.items + [x]), v, parser, isJson)
  {
    hide Seen, Feed, Render, FramesOf, Print, ItemOk, Idle;
    RenderAppend(c.items, x);
    assert Render(c.items + [x])[..c.read] == Render(c.items)[..c.read];
  }

  lemma SameConnOk(c: Conn, w: World, v: World, parser: Parser, isJson: string -> bool)
    requires ConnOk(c, w, parser, isJson)
    requires c.q in v.subs && v.subs[c.q].last == w.subs[c.q].last
      && Seen(v.subs[c.q]) == Seen(w.subs[c.q])
    ensures ConnOk(c, v, parser, isJson)
  {
    hide Seen, Feed, Render, FramesOf, ItemsOk, Idle;
  }

  lemma SubIsOk(w: World, q: QueueId, limits: Limits)
    requires WorldOk(w, limits) && q in w.subs
    ensures q in w.channel.queues
      && SubOk(w.subs[q], w.channel.queues[q], q in w.channel.subscribers, w.log)
  {
    hide SubOk, ChannelOk, LogOk;
  }

  /** What resuming the connection's subscription does to it. */
  lemma ResumedSub(w: World, q: QueueId, limits: Limits, isJson: string -> bool)
    requires limits.buffer > 0 && WorldOk(w, limits) && LogReadable(w.log, isJson)
      && AcceptsGaps(isJson) && q in w.subs
    ensures q in w.channel.queues
    ensures var v, a := ResumeStep(w, q), Resume(w.subs[q], w.channel.queues[q]);
      && q in v.subs && v.subs[q].last == w.subs[q].last
      && Seen(v.subs[q]) == Seen(w.subs[q]) + (if a.Yield? then [a.item] else [])
      && (a.Yield? ==> ItemOk(Frame(a.item), isJson))
  {
    hide WorldOk, LogReadable, AcceptsGaps, SubOk, Resume, Readable, Detach;
    SubIsOk(w, q, limits);
    if Resume(w.subs[q], w.channel.queues[q]).Yield? {
      YieldIsReadable(w.subs[q], w.channel.queues[q], q in w.channel.subscribers, w.log, isJson);
      ResumeKeeps(w.subs[q], w.channel.queues[q]);
    }
  }

  lemma ServeSystemOk(y: System, limits: Limits, isJson: string -> bool)
    requires limits.buffer > 0 && SystemOk(y, limits, isJson) && AcceptsGaps(isJson)
      && y.phase.Reading?
    ensures SystemOk(SysStep(y, Serve, limits, isJson), limits, isJson)
  {
    hide WorldOk, LogReadable, ConnOk, Listening, ResumeStep, Resume, AcceptsGaps, ItemOk, Seen, Render, FramesOf;
    var c, w := y.phase.conn, y.world;
    StepOk(w, OpResume(c.q), limits);
    StepLog(w, OpResume(c.q), limits);
    MineStay(w, y.mine, OpResume(c.q), limits);
    ResumedSub(w, c.q, limits, isJson);
    match Resume(w.subs[c.q], w.channel.queues[c.q])
    case Yield(_, _, item) => WriteConnOk(c, w, ResumeStep(w, c.q), Frame(item), y.parser, isJson);
    case Finish(_) => SameConnOk(c, w, ResumeStep(w, c.q), y.parser, isJson);
    case Blocked => SameConnOk(c, w, ResumeStep(w, c.q), y.parser, isJson);
  }

  lemma PingSystemOk(y: System, limits: Limits, isJson: string -> bool)
    requires limits.buffer > 0 && SystemOk(y, limits, isJson) && y.phase.Reading?
    ensures SystemOk(SysStep(y, Ping, limits, isJson), limits, isJson)
  {
    hide WorldOk, LogReadable, ConnOk, Render, FramesOf, Seen;
    WriteConnOk(y.phase.conn, y.world, y.world, Comment("ping"), y.parser, isJson);
  }

  // ---- The client reads ----

  lemma {:induction false} ReadConnOk(c: Conn, w: World, parser: Parser, upTo: nat, isJson: string -> bool)
    requires ConnOk(c, w, parser, isJson) && c.read <= upTo <= |Render(c.items)|
    ensures ConnOk(c.(read := upTo), w, Feed(parser, Render(c.items)[c.read..upTo], isJson), isJson)
  {
    hide Seen, Feed, Render, FramesOf, ItemsOk, Idle;
    var text := Render(c.items);
    FeedInChunks(c.start, text[..c.read], text[c.read..upTo], isJson);
    assert text[..c.read] + text[c.read..upTo] == text[..upTo];
  }

  lemma ReceiveSystemOk(y: System, n: nat, limits: Limits, isJson: string -> bool)
    requires limits.buffer > 0 && SystemOk(y, limits, isJson) && y.phase.Reading?
    ensures SystemOk(SysStep(y, Receive(n), limits, isJson), limits, isJson)
  {
    hide WorldOk, LogReadable, ConnOk, Render, Feed;
    var c := y.phase.conn;
    assert c.read <= |Render(c.items)| by { ReadBound(c, y.world, y.parser, isJson); }
    ReadConnOk(c, y.world, y.parser, Min(c.read + n, |Render(c.items)|), isJson);
  }

  lemma ReadBound(c: Conn, w: World, parser: Parser, isJson: string -> bool)
    requires ConnOk(c, w, parser, isJson)
    ensures c.read <= |Render(c.items)|
  {
  }

  // ---- The connection fails ----

  /** `n` failures in a row without an accepted request between them. */
  function Failing(y: System, n: nat): System {
    if n == 0 then y else Fail(Failing(y, n - 1))
  }

  /** Three failures in a row are retried, the fourth ends the client; an accepted request
      lets it start over.  Nothing it was told is lost meanwhile. */
  lemma {:induction false} GivesUpAfterThree(y: System, n: nat)
    requires y.retries <= 3 && n > 0
    ensures var z := Failing(y, n);
      && z.phase == (if y.retries + n <= 3 then Connecting else Finished)
      && z.retries == (if y.retries + n <= 3 then y.retries + n else 3)
      && z.parser == y.parser && z.world == y.world && z.mine == y.mine
  {
    if n > 1 { GivesUpAfterThree(y, n - 1); }
  }

  lemma AcceptedStartsOver(y: System, q: QueueId, limits: Limits)
    requires limits.buffer > 0 && Listening(y.world.channel)
      && y.world.subs.Keys == y.world.channel.queues.Keys
    ensures var z := Open(y, q, limits);
      && z.retries == 0 && z.phase.Reading? && z.phase.conn.read == 0 && Idle(z.parser)
      && z.parser.lastEventId == y.parser.lastEventId && z.parser.out == y.parser.out
  {
    hide Step, Listening;
  }

  // ---- The connection ends ----

  /** Whatever a connection was cut at, the client's story goes on where it stood, and
      it still does so if the parser is flushed. */
  lemma CutStory(c: Conn, w: World, parser: Parser, lost: set<nat>, limits: Limits, isJson: string -> bool)
    requires WorldOk(w, limits) && ConnOk(c, w, parser, isJson) && w.subs[c.q].omitted <= lost
    requires StartsRight(w.subs[c.q]) && Account(w.log, lost, c.start.out, c.start.lastEventId)
    ensures Account(w.log, lost, parser.out, parser.lastEventId)
    ensures var f := Dispatch(parser, isJson); Account(w.log, lost, f.out, f.lastEventId)
  {
    hide SubOk, ChannelOk, LogOk, ItemsOk, Feed, Render, FramesOf, Seen, StartsRight, Account, Dispatch, Idle,
      StraightStory, LostEvents, TakeInAll, TakeIn;
    var s := w.subs[c.q];
    LastIdKnown(w.log, lost, c.start.out, c.start.lastEventId);
    SubIsOk(w, c.q, limits);
    SubIsStraight(s, w.channel.queues[c.q], c.q in w.channel.subscribers, w.log);
    var m := CutAnywhere(c.start, c.items, Render(c.items)[..c.read], isJson);
    StoryGrows(c.start, s, w.log, lost, m);
    if m < |Seen(s)| {
      StoryGrows(c.start, s, w.log, lost, m + 1);
      OneMore(c.start, Seen(s), m);
    }
  }

  lemma {:induction false} OneMore(p: Parser, events: seq<RunEvent>, m: nat)
    requires m < |events|
    ensures var r, q := TakeInAll(p, events[..m]), TakeInAll(p, events[..m + 1]);
      q.out == TakeIn(r, events[m]).out && q.lastEventId == Some(events[m].id)
  {
    TakeInAllSpec(p, events[..m]);
    TakeInAllSpec(p, events[..m + 1]);
  }

  lemma ReadingStory(y: System, limits: Limits, isJson: string -> bool)
    requires SystemOk(y, limits, isJson) && StoryOk(y) && y.phase.Reading?
    ensures var lost := Lost(y.world, y.mine);
      Account(y.world.log, lost, y.parser.out, y.parser.lastEventId)
    ensures var lost, f := Lost(y.world, y.mine), Dispatch(y.parser, isJson);
      Account(y.world.log, lost, f.out, f.lastEventId)
  {
    hide WorldOk, ConnOk, Account, StartsRight, Dispatch, LogReadable;
    CutStory(y.phase.conn, y.world, y.parser, Lost(y.world, y.mine), limits, isJson);
  }

  // ---- All steps ----

  lemma StepKeepsSystem(y: System, op: SysOp, limits: Limits, isJson: string -> bool)
    requires limits.buffer > 0 && SystemOk(y, limits, isJson) && Emittable(op, isJson)
      && AcceptsGaps(isJson)
    ensures SystemOk(SysStep(y, op, limits, isJson), limits, isJson)
  {
    hide WorldOk, LogReadable, ConnOk, Emittable, AcceptsGaps, Step, Open, ServeNext, ReadMore, Write, Dispatch;
    match op
    case Bus(b) => BusSystemOk(y, b, limits, isJson);
    case Connect(q) => if y.phase.Connecting? && q !in y.world.subs { OpenSystemOk(y, q, limits, isJson); }
    case Serve => if y.phase.Reading? { ServeSystemOk(y, limits, isJson); }
    case Ping => if y.phase.Reading? { PingSystemOk(y, limits, isJson); }
    case Receive(n) => if y.phase.Reading? { ReceiveSystemOk(y, n, limits, isJson); }
    case _ =>
  }

  lemma StepKeepsStory(y: System, op: SysOp, limits: Limits, isJson: string -> bool)
    requires limits.buffer > 0 && SystemOk(y, limits, isJson) && StoryOk(y)
    ensures StoryOk(SysStep(y, op, limits, isJson))
  {
    hide WorldOk, LogReadable, ConnOk, Account, StartsRight, Step, Lost, Dispatch, Resume, Render, Feed, Open;
    Steppable(y.world, limits);
    if y.phase.Reading? { ReadingStory(y, limits, isJson); }
    match op
    case Bus(b) => WorldStepStory(y, b, limits);
    case Connect(q) => if y.phase.Connecting? && q !in y.world.subs { OpenStoryOk(y, q, limits); }
    case Serve => if y.phase.Reading? { WorldStepStory(y, OpResume(y.phase.conn.q), limits); }
    case _ =>
  }

  ghost function SysRun(ops: seq<SysOp>, limits: Limits, isJson: string -> bool): (y: System)
    requires limits.buffer > 0 && AcceptsGaps(isJson)
    requires forall i :: 0 <= i < |ops| ==> Emittable(ops[i], isJson)
    ensures SystemOk(y, limits, isJson) && StoryOk(y)
  {
    if ops == [] then BeginOk(limits, isJson); BEGIN
    else
      var n := |ops| - 1;
      var y := SysRun(ops[..n], limits, isJson);
      StepKeepsSystem(y, ops[n], limits, isJson);
      StepKeepsStory(y, ops[n], limits, isJson);
      SysStep(y, ops[n], limits, isJson)
  }

  lemma NoTexts()
    ensures Texts([]) == []
  {
  }

  lemma BeginOk(limits: Limits, isJson: string -> bool)
    requires limits.buffer > 0
    ensures SystemOk(BEGIN, limits, isJson) && StoryOk(BEGIN)
  {
    hide WorldOk, Texts;
    StartOk(limits);
    assert Texts([]) == [] by { NoTexts(); }
    assert Tells([], [], Lost(BEGIN.world, BEGIN.mine), [], None);
  }

  /** After any run of bus, server, network and client, over any number of connections
      cut anywhere, what the client was given is an ascending story of events and
      announced gaps, and its last event id is where that story ends.  The story has a
      hole exactly if it passes over an id that a close pushed out of one of the client's
      full queues; every close pushes out at most one per subscription. */
  lemma {:induction false} ReconnectsTellOneStory(ops: seq<SysOp>, limits: Limits, isJson: string -> bool) returns (pieces: seq<Piece>)
    requires limits.buffer > 0 && AcceptsGaps(isJson)
    requires forall i :: 0 <= i < |ops| ==> Emittable(ops[i], isJson)
    ensures var y := SysRun(ops, limits, isJson);
      var lost := Lost(y.world, y.mine);
      && Tells(pieces, y.world.log, lost, y.parser.out, y.parser.lastEventId)
      && (Chained(pieces, y.world.log) <==> forall id :: id in lost ==> !PassedOver(pieces, id))
      && forall q :: q in y.mine ==> q in y.world.subs && |y.world.subs[q].omitted| <= y.world.closes
  {
    hide LogOk, ChannelOk, SubOk, ConnOk, Tells, Chained, Linked,
      PassedOver, StartsRight, SysRun, Lost, Emittable, AcceptsGaps, LogReadable;
    var y := SysRun(ops, limits, isJson);
    if y.phase.Reading? { ReadingStory(y, limits, isJson); }
    pieces :| Tells(pieces, y.world.log, Lost(y.world, y.mine), y.parser.out, y.parser.lastEventId);
    ToldIsLinked(pieces, y.world.log, Lost(y.world, y.mine), y.parser.out, y.parser.lastEventId);
    GaplessIff(pieces, y.world.log, Lost(y.world, y.mine));
  }

  lemma ToldIsLinked(pieces: seq<Piece>, log: seq<RunEvent>, lost: set<nat>, out: seq<Delivered>, lastEventId: Option<int>)
    requires Tells(pieces, log, lost, out, lastEventId)
    ensures Linked(pieces, log, lost)
  {
    hide Linked, Texts;
  }

  /** Two consecutive pieces leave this id out. */
  ghost predicate PassedOver(pieces: seq<Piece>, id: nat) {
    exists i {:trigger pieces[i]} :: 0 < i < |pieces| && pieces[i - 1].Hi() < id < pieces[i].Lo()
  }

  lemma GaplessIff(pieces: seq<Piece>, log: seq<RunEvent>, lost: set<nat>)
    requires Linked(pieces, log, lost)
    ensures Chained(pieces, log) <==> forall id :: id in lost ==> !PassedOver(pieces, id)
  {
    if forall id :: id in lost ==> !PassedOver(pieces, id) {
      forall i {:trigger pieces[i]} | 0 < i < |pieces| ensures pieces[i].Lo() == pieces[i - 1].Hi() + 1 {
        assert PieceOk(pieces[i - 1], log);
        var id := pieces[i - 1].Hi() + 1;
        if id < pieces[i].Lo() { assert id in lost && PassedOver(pieces, id); }
      }
    }
  }

  /** The number of pieces that stand for an id. */
  function Mentions(pieces: seq<Piece>, id: nat): nat {
    if pieces == [] then 0
    else
      var n := |pieces| - 1;
      Mentions(pieces[..n], id) + if pieces[n].Lo() <= id <= pieces[n].Hi() then 1 else 0
  }

  /** In such a story every id between its ends is told exactly once, unless it is
      passed over and lost; no other id is told. */
  lemma {:induction false} ToldExactlyOnce(pieces: seq<Piece>, log: seq<RunEvent>, lost: set<nat>, id: nat)
    requires Linked(pieces, log, lost) && pieces != []
    ensures Mentions(pieces, id) ==
      if pieces[0].Lo() <= id <= pieces[|pieces| - 1].Hi() && !PassedOver(pieces, id) then 1 else 0
    ensures PassedOver(pieces, id) ==>
      id in lost && pieces[0].Lo() <= id <= pieces[|pieces| - 1].Hi()
  {
    var n := |pieces| - 1;
    var init := pieces[..n];
    assert PieceOk(pieces[n], log);
    if n > 0 {
      Shortened(pieces, n, log, lost);
      ToldExactlyOnce(init, log, lost, id);
      StoryAscends(pieces, log, lost, n - 1);
      PassedOverLast(pieces, id);
    } else {
      assert init == [];
    }
  }

  lemma PassedOverLast(pieces: seq<Piece>, id: nat)
    requires |pieces| > 1
    ensures var n := |pieces| - 1;
      PassedOver(pieces, id) <==> PassedOver(pieces[..n], id) || pieces[n - 1].Hi() < id < pieces[n].Lo()
  {
    hide Piece.Lo, Piece.Hi, PassedOver;
    var n := |pieces| - 1;
    if PassedOver(pieces, id) { PassedOverBefore(pieces, id); }
    if PassedOver(pieces[..n], id) { PassedOverAfter(pieces, id); }
    if pieces[n - 1].Hi() < id < pieces[n].Lo() { PassedOverAt(pieces, n, id); }
  }

  lemma PassedOverAt(pieces: seq<Piece>, i: nat, id: nat)
    requires 0 < i < |pieces| && pieces[i - 1].Hi() < id < pieces[i].Lo()
    ensures PassedOver(pieces, id)
  {
    hide Piece.Lo, Piece.Hi;
  }

  lemma PassedOverBefore(pieces: seq<Piece>, id: nat)
    requires |pieces| > 1 && PassedOver(pieces, id)
    ensures var n := |pieces| - 1;
      PassedOver(pieces[..n], id) || pieces[n - 1].Hi() < id < pieces[n].Lo()
  {
    hide Piece.Lo, Piece.Hi;
    var n := |pieces| - 1;
    var i {:trigger pieces[i]} :| 0 < i < |pieces| && pieces[i - 1].Hi() < id < pieces[i].Lo();
    if i < n { PassedOverAt(pieces[..n], i, id); }
  }

  lemma PassedOverAfter(pieces: seq<Piece>, id: nat)
    requires |pieces| > 1 && PassedOver(pieces[..|pieces| - 1], id)
    ensures PassedOver(pieces, id)
  {
    hide Piece.Lo, Piece.Hi;
    var init := pieces[..|pieces| - 1];
    var i {:trigger init[i]} :| 0 < i < |init| && init[i - 1].Hi() < id < init[i].Lo();
    PassedOverAt(pieces, i, id);
  }

  lemma {:induction false} StoryAscends(pieces: seq<Piece>, log: seq<RunEvent>, lost: set<nat>, i: nat)
    requires Linked(pieces, log, lost) && i < |pieces|
    ensures pieces[0].Lo() <= pieces[i].Lo() <= pieces[i].Hi()
  {
    assert PieceOk(pieces[i], log);
    if i > 0 { StoryAscends(pieces, log, lost, i - 1); }
  }
}
