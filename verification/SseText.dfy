/** The text of an event stream: frames as the server prints them
    (sidecar/orca_core/ipc/sse.py) and the line-by-line reading of the client
    (frontend/src/lib/ipc/run-stream.ts). */
module SseText {
  import opened Wrappers
  import opened EventChannel
  import opened Decimals

  // ---- Printing ----

  function Format(e: RunEvent): string {
    "id: " + PrintNat(e.id) + "\nevent: " + e.name + "\ndata: " + e.payload + "\n\n"
  }

  /** What a connection writes: event frames and comments between them. */
  datatype Item = Frame(event: RunEvent) | Comment(text: string)

  function Print(item: Item): string {
    match item
    case Frame(e) => Format(e)
    case Comment(text) => ": " + text + "\n\n"
  }

  function Render(items: seq<Item>): string {
    if items == [] then "" else Print(items[0]) + Render(items[1..])
  }

  function FramesOf(items: seq<Item>): seq<RunEvent> {
    if items == [] then []
    else (if items[0].Frame? then [items[0].event] else []) + FramesOf(items[1..])
  }

  // ---- Trimming ----

  /** White space and line terminators as removed by JavaScript `trim`. */
  predicate IsSpace(c: char) {
    c in " \t\n\r" || c == '\U{0B}' || c == '\U{0C}' || c == '\U{A0}' || c == '\U{FEFF}' || c == '\U{1680}'
    || '\U{2000}' <= c <= '\U{200A}' || c == '\U{2028}' || c == '\U{2029}' || c == '\U{202F}' || c == '\U{205F}' || c == '\U{3000}'
  }

  function TrimLeft(s: string): (r: string)
    ensures r == [] || !IsSpace(r[0])
    ensures |r| <= |s| && r == s[|s| - |r|..]
  {
    if s != [] && IsSpace(s[0]) then TrimLeft(s[1..]) else s
  }

  function TrimRight(s: string): (r: string)
    ensures r == [] || !IsSpace(r[|r| - 1])
    ensures r <= s
  {
    if s != [] && IsSpace(s[|s| - 1]) then TrimRight(s[..|s| - 1]) else s
  }

  function Trim(s: string): string {
    TrimRight(TrimLeft(s))
  }

  predicate Trimmed(s: string) {
    s == [] || (!IsSpace(s[0]) && !IsSpace(s[|s| - 1]))
  }

  predicate OneLine(s: string) {
    '\n' !in s
  }

  lemma TrimDropsSpace(s: string)
    requires Trimmed(s)
    ensures Trim(" " + s) == s
  {
    assert (" " + s)[1..] == s;
    assert TrimLeft(s) == s && TrimRight(s) == s;
  }

  // ---- Reading ----

  /** A delivered event; an id of `None` is NaN.  The payload is the JSON text that
      was parsed. */
  datatype Delivered = Delivered(id: Option<int>, name: string, payload: string)

  /** Locals of `readStream`, and the two things it changes outside: the last event
      id and the delivered events. */
  datatype Parser = Parser(
    buffer: string,
    eventId: Option<string>,
    eventType: Option<string>,
    dataLines: seq<string>,
    lastEventId: Option<int>,
    out: seq<Delivered>)

  function NewParser(lastEventId: Option<int>): Parser {
    Parser("", None, None, [], lastEventId, [])
  }

  /** A new connection reads with new locals; what lies outside of them stays. */
  function Restarted(p: Parser): Parser {
    NewParser(p.lastEventId).(out := p.out)
  }

  // ---- The request header ----

  /** `Last-Event-ID` as the client sends it; absent before the first event. */
  function Header(lastEventId: Option<int>): Option<string> {
    if lastEventId.None? then None else Some(PrintInt(lastEventId.value))
  }

  /** `_parse_last_event_id` */
  function ParseLastEventId(header: Option<string>): Option<int> {
    if header.None? || header.value == "" then None else ParseWhole(header.value)
  }

  lemma HeaderReadsBack(lastEventId: Option<int>)
    ensures ParseLastEventId(Header(lastEventId)) == lastEventId
  {
    if lastEventId.Some? { PrintedIntReadsBack(lastEventId.value); }
  }

  function JoinLines(lines: seq<string>): string {
    if lines == [] then "" else if |lines| == 1 then lines[0] else lines[0] + "\n" + JoinLines(lines[1..])
  }

  function EventIdNumber(eventId: Option<string>): Option<int> {
    if eventId.None? || eventId.value == "" then Some(0) else ParseIntPrefix(eventId.value)
  }

  /** `dispatchEvent`; `isJson` says which data texts `JSON.parse` accepts.  Without
      data lines it returns before resetting anything. */
  function Dispatch(p: Parser, isJson: string -> bool): Parser {
    if p.dataLines == [] then p
    else
      var data := JoinLines(p.dataLines);
      var id := EventIdNumber(p.eventId);
      var q := p.(eventId := None, eventType := None, dataLines := []);
      if !isJson(data) then q
      else q.(lastEventId := if id.Some? && id.value > 0 then id else p.lastEventId,
              out := p.out + [Delivered(id, if p.eventType.Some? then p.eventType.value else "message", data)])
  }

  /** What a blank line does: nothing without data; else the collected fields are used up,
      and if the data is JSON they are delivered, with "message" for a missing name, and a
      positive id becomes the last event id. */
  lemma BlankLineExactly(p: Parser, isJson: string -> bool)
    ensures var q, data := Line(p, "", isJson), JoinLines(p.dataLines);
      var id := if p.eventId.None? || p.eventId.value == "" then Some(0) else ParseIntPrefix(p.eventId.value);
      && q.buffer == p.buffer
      && (p.dataLines == [] ==> q == p)
      && (p.dataLines != [] ==> q.eventId.None? && q.eventType.None? && q.dataLines == [])
      && (p.dataLines != [] && !isJson(data) ==> q.out == p.out && q.lastEventId == p.lastEventId)
      && (p.dataLines != [] && isJson(data) ==>
          && |q.out| == |p.out| + 1 && p.out <= q.out
          && q.out[|p.out|].id == id && q.out[|p.out|].payload == data
          && q.out[|p.out|].name == (if p.eventType.Some? then p.eventType.value else "message")
          && q.lastEventId == (if id.Some? && id.value > 0 then id else p.lastEventId))
  {
  }

  /** Lines of other fields and comments are skipped. */
  lemma OtherLinesAreSkipped(p: Parser, line: string, isJson: string -> bool)
    requires line != ""
    requires |line| < 3 || line[..3] != "id:"
    requires |line| < 5 || line[..5] != "data:"
    requires |line| < 6 || line[..6] != "event:"
    ensures Line(p, line, isJson) == p
  {
    hide Trim, Dispatch;
  }

  function Line(p: Parser, line: string, isJson: string -> bool): Parser {
    if line == "" then Dispatch(p, isJson)
    else if ":" <= line then p
    else if "id:" <= line then p.(eventId := Some(Trim(line[3..])))
    else if "event:" <= line then p.(eventType := Some(Trim(line[6..])))
    else if "data:" <= line then p.(dataLines := p.dataLines + [Trim(line[5..])])
    else p
  }

  /** Reading one character: a newline completes the buffered line. */
  function ReadChar(p: Parser, c: char, isJson: string -> bool): Parser {
    if c == '\n' then Line(p.(buffer := ""), p.buffer, isJson) else p.(buffer := p.buffer + [c])
  }

  function Feed(p: Parser, text: string, isJson: string -> bool): Parser
    decreases |text|
  {
    if text == "" then p else Feed(ReadChar(p, text[0], isJson), text[1..], isJson)
  }

  /** How the text is cut into chunks does not matter. */
  lemma {:induction false} FeedInChunks(p: Parser, a: string, b: string, isJson: string -> bool)
    ensures Feed(Feed(p, a, isJson), b, isJson) == Feed(p, a + b, isJson)
    decreases |a|
  {
    if a == "" {
      assert a + b == b;
    } else {
      assert (a + b)[0] == a[0] && (a + b)[1..] == a[1..] + b;
      FeedInChunks(ReadChar(p, a[0], isJson), a[1..], b, isJson);
    }
  }

  function FeedAll(p: Parser, chunks: seq<string>, isJson: string -> bool): Parser
    decreases |chunks|
  {
    if chunks == [] then p else FeedAll(Feed(p, chunks[0], isJson), chunks[1..], isJson)
  }

  function Concat(chunks: seq<string>): string {
    if chunks == [] then "" else chunks[0] + Concat(chunks[1..])
  }

  lemma {:induction false} AnyChunking(p: Parser, chunks: seq<string>, isJson: string -> bool)
    ensures FeedAll(p, chunks, isJson) == Feed(p, Concat(chunks), isJson)
    decreases |chunks|
  {
    if chunks != [] {
      FeedInChunks(p, chunks[0], Concat(chunks[1..]), isJson);
      AnyChunking(Feed(p, chunks[0], isJson), chunks[1..], isJson);
    }
  }

  // ---- Lines ----

  /** A line without a newline, then its newline, is read as that line. */
  lemma {:induction false} FeedLine(p: Parser, line: string, rest: string, isJson: string -> bool)
    requires OneLine(line)
    ensures Feed(p, line + "\n" + rest, isJson) == Feed(Line(p.(buffer := ""), p.buffer + line, isJson), rest, isJson)
    decreases |line|
  {
    var text := line + "\n" + rest;
    if line == "" {
      assert text[0] == '\n' && text[1..] == rest;
      assert p.buffer + line == p.buffer;
    } else {
      assert text[0] == line[0] && text[1..] == line[1..] + "\n" + rest;
      var q := p.(buffer := p.buffer + [line[0]]);
      FeedLine(q, line[1..], rest, isJson);
      assert q.buffer + line[1..] == p.buffer + line;
      assert q.(buffer := "") == p.(buffer := "");
    }
  }

  /** Between frames: nothing buffered, nothing collected. */
  predicate Idle(p: Parser) {
    p.buffer == "" && p.eventId.None? && p.eventType.None? && p.dataLines == []
  }

  /** What an event frame has to be for a client to read it back. */
  predicate Readable(e: RunEvent, isJson: string -> bool) {
    && e.id > 0
    && OneLine(e.name) && Trimmed(e.name)
    && JsonText(e.payload, isJson)
  }

  /** Compact JSON of an object: one line, no outer white space, accepted by the parser. */
  predicate JsonText(s: string, isJson: string -> bool) {
    OneLine(s) && Trimmed(s) && isJson(s)
  }

  function AsDelivered(e: RunEvent): Delivered {
    Delivered(Some(e.id), e.name, e.payload)
  }

  function TakeIn(p: Parser, e: RunEvent): Parser {
    p.(lastEventId := Some(e.id), out := p.out + [AsDelivered(e)])
  }

  lemma {:induction false} DigitsAreTrimmedLine(n: nat)
    ensures OneLine(PrintNat(n)) && Trimmed(PrintNat(n)) && PrintNat(n) != ""
  {
    var s := PrintNat(n);
    assert AllDigits(s);
    assert forall c :: IsDigit(c) ==> !IsSpace(c) && c != '\n';
  }

  lemma FrameLines(e: RunEvent)
    ensures Format(e) == ("id: " + PrintNat(e.id)) + "\n" + (("event: " + e.name) + "\n" + (("data: " + e.payload) + "\n" + "\n"))
  {
  }

  lemma IdLine(p: Parser, s: string, isJson: string -> bool)
    requires Trimmed(s)
    ensures Line(p, "id: " + s, isJson) == p.(eventId := Some(s))
  {
    hide Trim, Trimmed, Dispatch;
    var line := "id: " + s;
    assert line[0] == 'i' && line[..3] == "id:" && line[3..] == " " + s;
    TrimDropsSpace(s);
  }

  lemma EventLine(p: Parser, s: string, isJson: string -> bool)
    requires Trimmed(s)
    ensures Line(p, "event: " + s, isJson) == p.(eventType := Some(s))
  {
    hide Trim, Trimmed, Dispatch;
    var line := "event: " + s;
    assert line[0] == 'e' && line[..6] == "event:" && line[6..] == " " + s;
    TrimDropsSpace(s);
  }

  lemma DataLine(p: Parser, s: string, isJson: string -> bool)
    requires Trimmed(s)
    ensures Line(p, "data: " + s, isJson) == p.(dataLines := p.dataLines + [s])
  {
    hide Trim, Trimmed, Dispatch;
    var line := "data: " + s;
    assert line[0] == 'd' && line[..5] == "data:" && line[5..] == " " + s;
    TrimDropsSpace(s);
  }

  lemma CommentLine(p: Parser, s: string, isJson: string -> bool)
    ensures Line(p, ": " + s, isJson) == p
  {
    assert (": " + s)[0] == ':';
  }

  // ---- Round trip ----

  /** The three field lines of a frame, read from an idle parser. */
  lemma {:induction false} FeedFields(p: Parser, e: RunEvent, isJson: string -> bool)
    requires Idle(p) && Readable(e, isJson)
    ensures Feed(p, Format(e), isJson) ==
      Feed(p.(eventId := Some(PrintNat(e.id)), eventType := Some(e.name), dataLines := [e.payload]), "\n", isJson)
  {
    hide Feed, Line, IsSpace, PrintNat;
    DigitsAreTrimmedLine(e.id);
    FrameLines(e);
    var p1 := p.(eventId := Some(PrintNat(e.id)));
    var p2 := p1.(eventType := Some(e.name));
    assert p.buffer + ("id: " + PrintNat(e.id)) == "id: " + PrintNat(e.id);
    assert p1.buffer + ("event: " + e.name) == "event: " + e.name;
    assert p2.buffer + ("data: " + e.payload) == "data: " + e.payload;
    assert p2.dataLines + [e.payload] == [e.payload];
    FeedLine(p, "id: " + PrintNat(e.id), ("event: " + e.name) + "\n" + (("data: " + e.payload) + "\n" + "\n"), isJson);
    IdLine(p.(buffer := ""), PrintNat(e.id), isJson);
    FeedLine(p1, "event: " + e.name, ("data: " + e.payload) + "\n" + "\n", isJson);
    EventLine(p1.(buffer := ""), e.name, isJson);
    FeedLine(p2, "data: " + e.payload, "\n", isJson);
    DataLine(p2.(buffer := ""), e.payload, isJson);
  }

  lemma {:induction false} BlankLineDispatches(p: Parser, isJson: string -> bool)
    requires p.buffer == ""
    ensures Feed(p, "\n", isJson) == Dispatch(p, isJson)
  {
    assert "\n"[1..] == "";
    assert p.(buffer := "") == p;
  }

  lemma {:induction false} FeedFrame(p: Parser, e: RunEvent, isJson: string -> bool)
    requires Idle(p) && Readable(e, isJson)
    ensures Feed(p, Format(e), isJson) == TakeIn(p, e)
  {
    FeedFields(p, e, isJson);
    var q := p.(eventId := Some(PrintNat(e.id)), eventType := Some(e.name), dataLines := [e.payload]);
    BlankLineDispatches(q, isJson);
    DispatchFields(p, e, isJson);
  }

  lemma DispatchFields(p: Parser, e: RunEvent, isJson: string -> bool)
    requires Idle(p) && e.id > 0 && isJson(e.payload)
    ensures Dispatch(p.(eventId := Some(PrintNat(e.id)), eventType := Some(e.name), dataLines := [e.payload]), isJson) == TakeIn(p, e)
  {
    PrintedNatReadsBack(e.id);
  }

  lemma {:induction false} FeedComment(p: Parser, text: string, isJson: string -> bool)
    requires Idle(p) && OneLine(text)
    ensures Feed(p, Print(Comment(text)), isJson) == p
  {
    hide Feed, Line;
    assert Print(Comment(text)) == (": " + text) + "\n" + "\n";
    assert p.buffer + (": " + text) == ": " + text;
    FeedLine(p, ": " + text, "\n", isJson);
    CommentLine(p.(buffer := ""), text, isJson);
    BlankLineDispatches(p, isJson);
  }

  predicate ItemOk(item: Item, isJson: string -> bool) {
    match item
    case Frame(e) => Readable(e, isJson)
    case Comment(text) => OneLine(text)
  }

  ghost predicate ItemsOk(items: seq<Item>, isJson: string -> bool) {
    forall i :: 0 <= i < |items| ==> ItemOk(items[i], isJson)
  }

  function AllDelivered(events: seq<RunEvent>): seq<Delivered> {
    seq(|events|, i requires 0 <= i < |events| => AsDelivered(events[i]))
  }

  function TakeInAll(p: Parser, events: seq<RunEvent>): Parser
    decreases |events|
  {
    if events == [] then p else TakeInAll(TakeIn(p, events[0]), events[1..])
  }

  /** Reading printed frames, with comments between them, delivers the same ids,
      names and payloads in the same order, and leaves the parser idle. */
  lemma {:induction false} RoundTrip(p: Parser, items: seq<Item>, isJson: string -> bool)
    requires Idle(p) && ItemsOk(items, isJson)
    ensures Feed(p, Render(items), isJson) == TakeInAll(p, FramesOf(items))
    decreases |items|
  {
    if items != [] {
      FeedInChunks(p, Print(items[0]), Render(items[1..]), isJson);
      match items[0] {
        case Frame(e) =>
          FeedFrame(p, e, isJson);
          RoundTrip(TakeIn(p, e), items[1..], isJson);
          assert FramesOf(items)[1..] == FramesOf(items[1..]);
        case Comment(text) =>
          FeedComment(p, text, isJson);
          RoundTrip(p, items[1..], isJson);
          assert FramesOf(items) == FramesOf(items[1..]);
      }
    }
  }

  lemma {:induction false} TakeInAllSpec(p: Parser, events: seq<RunEvent>)
    ensures var q := TakeInAll(p, events);
      && q.out == p.out + AllDelivered(events)
      && q.lastEventId == (if events == [] then p.lastEventId else Some(events[|events| - 1].id))
      && q == p.(out := q.out, lastEventId := q.lastEventId)
    decreases |events|
  {
    if events != [] {
      TakeInAllSpec(TakeIn(p, events[0]), events[1..]);
      assert AllDelivered(events) == [AsDelivered(events[0])] + AllDelivered(events[1..]);
    }
  }

  // ---- Connections cut anywhere ----

  /** A text cut inside `line + newline + rest` ends in the line or after it. */
  lemma CutLine(t: string, line: string, rest: string) returns (tail: string)
    requires t <= line + "\n" + rest
    ensures t <= line || (t == line + "\n" + tail && tail <= rest)
  {
    var text := line + "\n" + rest;
    tail := "";
    if |t| > |line| {
      tail := t[|line| + 1..];
      assert t == text[..|t|];
      assert tail == rest[..|tail|];
    } else {
      assert t == line[..|t|];
    }
  }

  lemma {:induction false} FeedPartialLine(p: Parser, t: string, isJson: string -> bool)
    requires OneLine(t)
    ensures Feed(p, t, isJson) == p.(buffer := p.buffer + t)
    decreases |t|
  {
    if t == "" {
      assert p.buffer + t == p.buffer;
    } else {
      FeedPartialLine(p.(buffer := p.buffer + [t[0]]), t[1..], isJson);
      assert p.buffer + [t[0]] + t[1..] == p.buffer + t;
    }
  }

  /** Reading up to a cut that falls in `line` or in `rest`. */
  lemma FeedCutLine(p: Parser, line: string, rest: string, t: string, q: Parser, isJson: string -> bool) returns (tail: string)
    requires p.buffer == "" && OneLine(line) && t <= line + "\n" + rest
    requires Line(p, line, isJson) == q
    ensures Feed(p, t, isJson) == p.(buffer := t) ||
      (t == line + "\n" + tail && tail <= rest && Feed(p, t, isJson) == Feed(q, tail, isJson))
  {
    hide Feed, Line;
    tail := CutLine(t, line, rest);
    if t <= line {
      FeedPartialLine(p, t, isJson);
      assert p.buffer + t == t;
    } else {
      FeedLine(p, line, tail, isJson);
      assert p.buffer + line == line && p.(buffer := "") == p;
    }
  }

  /** The parser once the three field lines of `e` are read. */
  function Filled(p: Parser, e: RunEvent): Parser {
    p.(eventId := Some(PrintNat(e.id)), eventType := Some(e.name), dataLines := [e.payload])
  }

  /** A frame cut short delivers nothing; at most its fields are collected. */
  lemma {:induction false} CutFrame(p: Parser, e: RunEvent, t: string, isJson: string -> bool)
    requires Idle(p) && Readable(e, isJson) && t <= Format(e) && t != Format(e)
    ensures var q := Feed(p, t, isJson);
      && q.out == p.out && q.lastEventId == p.lastEventId
      && (q.dataLines == [] || q == Filled(p, e))
  {
    hide Feed, Line, IsSpace, PrintNat, OneLine, Trimmed;
    DigitsAreTrimmedLine(e.id);
    FrameLines(e);
    FieldTextsOneLine(e, isJson);
    var p1 := p.(eventId := Some(PrintNat(e.id)));
    var p2 := p1.(eventType := Some(e.name));
    var data := ("data: " + e.payload) + "\n" + "\n";
    IdLine(p, PrintNat(e.id), isJson);
    var t1 := FeedCutLine(p, "id: " + PrintNat(e.id), ("event: " + e.name) + "\n" + data, t, p1, isJson);
    if Feed(p, t, isJson) != p.(buffer := t) {
      EventLine(p1, e.name, isJson);
      var t2 := FeedCutLine(p1, "event: " + e.name, data, t1, p2, isJson);
      if Feed(p1, t1, isJson) != p1.(buffer := t1) {
        DataLine(p2, e.payload, isJson);
        assert p2.dataLines + [e.payload] == [e.payload];
        var t3 := FeedCutLine(p2, "data: " + e.payload, "\n", t2, Filled(p, e), isJson);
        if Feed(p2, t2, isJson) != p2.(buffer := t2) {
          if t3 == "" { FeedNothing(Filled(p, e), isJson); }
        }
      }
    }
  }

  lemma FieldTextsOneLine(e: RunEvent, isJson: string -> bool)
    requires Readable(e, isJson)
    ensures OneLine("id: " + PrintNat(e.id)) && OneLine("event: " + e.name)
      && OneLine("data: " + e.payload)
  {
    DigitsAreTrimmedLine(e.id);
  }

  lemma {:induction false} FeedNothing(p: Parser, isJson: string -> bool)
    ensures Feed(p, "", isJson) == p
  {
  }

  lemma {:induction false} CutComment(p: Parser, text: string, t: string, isJson: string -> bool)
    requires Idle(p) && OneLine(text) && t <= Print(Comment(text)) && t != Print(Comment(text))
    ensures var q := Feed(p, t, isJson);
      q.out == p.out && q.lastEventId == p.lastEventId && q.dataLines == []
  {
    hide Feed, Line;
    assert Print(Comment(text)) == (": " + text) + "\n" + "\n";
    CommentLine(p, text, isJson);
    var tail := FeedCutLine(p, ": " + text, "\n", t, p, isJson);
    if Feed(p, t, isJson) != p.(buffer := t) {
      if tail == "" { FeedNothing(p, isJson); }
    }
  }

  /** What a reader has after a cut, and after the flush that follows a regular end
      of the stream: the first `m` frames, or one more when the flush completes it. */
  ghost predicate ReadUpTo(p: Parser, events: seq<RunEvent>, m: nat, q: Parser, isJson: string -> bool) {
    m <= |events| &&
    var r, f := TakeInAll(p, events[..m]), Dispatch(q, isJson);
    && q.out == r.out && q.lastEventId == r.lastEventId
    && ((f.out == r.out && f.lastEventId == r.lastEventId)
        || (m < |events| && f.out == TakeIn(r, events[m]).out && f.lastEventId == Some(events[m].id)))
  }

  lemma TakeInMore(p: Parser, e: RunEvent, events: seq<RunEvent>, m: nat, q: Parser, isJson: string -> bool)
    requires ReadUpTo(TakeIn(p, e), events, m, q, isJson)
    ensures ReadUpTo(p, [e] + events, m + 1, q, isJson)
  {
    hide Dispatch;
    assert ([e] + events)[..m + 1] == [e] + events[..m];
    assert ([e] + events[..m])[1..] == events[..m];
  }

  lemma NothingYet(p: Parser, events: seq<RunEvent>, q: Parser, isJson: string -> bool)
    requires q.out == p.out && q.lastEventId == p.lastEventId && q.dataLines == []
    ensures ReadUpTo(p, events, 0, q, isJson)
  {
  }

  lemma AlmostFirst(p: Parser, events: seq<RunEvent>, isJson: string -> bool)
    requires events != [] && Idle(p) && Readable(events[0], isJson)
    ensures ReadUpTo(p, events, 0, Filled(p, events[0]), isJson)
  {
    hide PrintNat;
    DispatchFields(p, events[0], isJson);
  }

  /** Wherever a connection is cut, the client has delivered a prefix of its frames
      and its last event id is that of the last one it delivered. */
  lemma {:induction false} CutAnywhere(p: Parser, items: seq<Item>, t: string, isJson: string -> bool) returns (m: nat)
    requires Idle(p) && ItemsOk(items, isJson) && t <= Render(items)
    ensures ReadUpTo(p, FramesOf(items), m, Feed(p, t, isJson), isJson)
    decreases |items|
  {
    hide ReadUpTo, Feed, Format, Idle;
    if items == [] {
      FeedNothing(p, isJson);
      IdleHasNothing(p);
      NothingYet(p, [], p, isJson);
      m := 0;
    } else if |t| < |Print(items[0])| {
      assert t <= Print(items[0]) by { assert t == Render(items)[..|t|] == Print(items[0])[..|t|]; }
      m := 0;
      match items[0] {
        case Frame(e) =>
          CutFrame(p, e, t, isJson);
          if Feed(p, t, isJson).dataLines == [] {
            NothingYet(p, FramesOf(items), Feed(p, t, isJson), isJson);
          } else {
            AlmostFirst(p, FramesOf(items), isJson);
          }
        case Comment(text) =>
          CutComment(p, text, t, isJson);
          NothingYet(p, FramesOf(items), Feed(p, t, isJson), isJson);
      }
    } else {
      var tail := t[|Print(items[0])|..];
      CutAfter(t, Print(items[0]), Render(items[1..]));
      FeedInChunks(p, Print(items[0]), tail, isJson);
      match items[0] {
        case Frame(e) =>
          FeedFrame(p, e, isJson);
          TakeInIdle(p, e);
          var k := CutAnywhere(TakeIn(p, e), items[1..], tail, isJson);
          TakeInMore(p, e, FramesOf(items[1..]), k, Feed(p, t, isJson), isJson);
          m := k + 1;
        case Comment(text) =>
          FeedComment(p, text, isJson);
          m := CutAnywhere(p, items[1..], tail, isJson);
          assert FramesOf(items) == FramesOf(items[1..]);
      }
    }
  }

  lemma CutAfter(t: string, a: string, b: string)
    requires t <= a + b && |t| >= |a|
    ensures t == a + t[|a|..] && t[|a|..] <= b
  {
    assert t == (a + b)[..|t|];
    assert t[|a|..] == b[..|t| - |a|];
  }

  lemma TakeInIdle(p: Parser, e: RunEvent)
    requires Idle(p)
    ensures Idle(TakeIn(p, e))
  {
  }

  lemma IdleHasNothing(p: Parser)
    requires Idle(p)
    ensures p.dataLines == []
  {
  }

  // ---- Exactly which event names survive ----

  /** Names waiting in the parser or delivered by it are trimmed single lines. */
  ghost predicate CleanNames(p: Parser) {
    && OneLine(p.buffer)
    && (p.eventType.Some? ==> OneLine(p.eventType.value) && Trimmed(p.eventType.value))
    && (forall d :: d in p.out ==> OneLine(d.name) && Trimmed(d.name))
  }

  lemma LineKeepsClean(p: Parser, line: string, isJson: string -> bool)
    requires CleanNames(p) && OneLine(line)
    ensures CleanNames(Line(p, line, isJson))
  {
    if "event:" <= line {
      var rest := line[6..];
      assert OneLine(rest);
    }
  }

  lemma {:induction false} FeedKeepsClean(p: Parser, text: string, isJson: string -> bool)
    requires CleanNames(p)
    ensures CleanNames(Feed(p, text, isJson))
    decreases |text|
  {
    hide Line;
    if text != "" {
      if text[0] == '\n' { LineKeepsClean(p.(buffer := ""), p.buffer, isJson); }
      FeedKeepsClean(ReadChar(p, text[0], isJson), text[1..], isJson);
    }
  }

  /** An event with a JSON payload reads back as itself exactly when its name is a
      single line without outer white space. */
  lemma FrameReadsBackIff(e: RunEvent, isJson: string -> bool)
    requires e.id > 0 && JsonText(e.payload, isJson)
    ensures Feed(NewParser(None), Format(e), isJson).out == [AsDelivered(e)] <==>
      OneLine(e.name) && Trimmed(e.name)
  {
    var p := NewParser(None);
    if OneLine(e.name) && Trimmed(e.name) {
      FeedFrame(p, e, isJson);
      assert p.out + [AsDelivered(e)] == [AsDelivered(e)];
    }
    FeedKeepsClean(p, Format(e), isJson);
    hide Feed, Format, OneLine, Trimmed, JsonText;
    var out := Feed(p, Format(e), isJson).out;
    if out == [AsDelivered(e)] {
      assert out[0] in out;
    }
  }
}
