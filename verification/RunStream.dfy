/** The client of a run's event stream: incremental parser and reconnect state
    (frontend/src/lib/ipc/run-stream.ts). */
module RunStreams {
  import opened Wrappers
  import opened Decimals
  import opened SseText

  const MAX_RETRIES := 3

  /** How many retries are used after one more failure; `None` gives up. */
  function Retry(retries: nat): Option<nat> {
    if retries < MAX_RETRIES then Some(retries + 1) else None
  }

  /** `s.split('\n')` */
  function Split(s: string): (lines: seq<string>)
    ensures lines != [] && JoinLines(lines) == s
    ensures forall i :: 0 <= i < |lines| ==> OneLine(lines[i])
  {
    if s == "" then [""]
    else
      var rest := Split(s[1..]);
      if s[0] == '\n' then SplitAtNewline(s, rest); [""] + rest
      else SplitInLine(s, rest); [[s[0]] + rest[0]] + rest[1..]
  }

  lemma {:induction false} SplitAtNewline(s: string, rest: seq<string>)
    requires s != "" && s[0] == '\n' && rest != [] && JoinLines(rest) == s[1..]
    ensures JoinLines([""] + rest) == s
  {
    assert ([""] + rest)[1..] == rest;
  }

  lemma {:induction false} SplitInLine(s: string, rest: seq<string>)
    requires s != "" && rest != [] && JoinLines(rest) == s[1..]
    ensures JoinLines([[s[0]] + rest[0]] + rest[1..]) == s
  {
    var lines := [[s[0]] + rest[0]] + rest[1..];
    assert lines[1..] == rest[1..];
    if |rest| > 1 {
      assert JoinLines(lines) == [s[0]] + (rest[0] + "\n" + JoinLines(rest[1..]));
    }
  }

  class RunStream {
    const isJson: string -> bool
    var lastEventId: Option<int>
    var retryCount: nat
    var stopped: bool
    var buffer: string
    var eventId: Option<string>
    var eventType: Option<string>
    var dataLines: seq<string>
    /** Events passed to `onEvent`. */
    var delivered: seq<Delivered>

    ghost function State(): Parser
      reads this
    {
      Parser(buffer, eventId, eventType, dataLines, lastEventId, delivered)
    }

    constructor (isJson: string -> bool)
      ensures this.isJson == isJson && State() == NewParser(None) && retryCount == 0 && !stopped
    {
      this.isJson := isJson;
      lastEventId, retryCount, stopped := None, 0, false;
      buffer, eventId, eventType, dataLines, delivered := "", None, None, [], [];
    }

    /** The `Last-Event-ID` header of the next request: the server reads back from it
        where the client stands. */
    method Header() returns (h: Option<string>)
      ensures ParseLastEventId(h) == lastEventId && h == SseText.Header(lastEventId)
    {
      HeaderReadsBack(lastEventId);
      if lastEventId.Some? { return Some(PrintInt(lastEventId.value)); }
      return None;
    }

    /** An accepted response: retries start over and the locals of `readStream` are new. */
    method BeginRead()
      modifies this`retryCount, this`buffer, this`eventId, this`eventType, this`dataLines
      ensures retryCount == 0
      ensures State() == Restarted(old(State()))
    {
      retryCount := 0;
      buffer, eventId, eventType, dataLines := "", None, None, [];
    }

    method DispatchEvent()
      modifies this`lastEventId, this`delivered, this`eventId, this`eventType, this`dataLines
      ensures State() == Dispatch(old(State()), isJson)
    {
      if dataLines == [] { return; }
      var data := JoinLines(dataLines);
      var id := if eventId.Some? && eventId.value != "" then ParseIntPrefix(eventId.value) else Some(0);
      if isJson(data) {
        if id.Some? && id.value > 0 { lastEventId := id; }
        delivered := delivered + [Delivered(id, if eventType.Some? then eventType.value else "message", data)];
      }
      eventId, eventType, dataLines := None, None, [];
    }

    method HandleLine(line: string)
      modifies this`lastEventId, this`delivered, this`eventId, this`eventType, this`dataLines
      ensures State() == Line(old(State()), line, isJson)
    {
      hide Dispatch, Trim;
      if line == "" {
        DispatchEvent();
      } else if ":" <= line {
      } else if "id:" <= line {
        eventId := Some(Trim(line[3..]));
      } else if "event:" <= line {
        eventType := Some(Trim(line[6..]));
      } else if "data:" <= line {
        dataLines := dataLines + [Trim(line[5..])];
      }
    }

    /** One chunk of the response.  Splitting into lines and keeping the last, possibly
        incomplete one gives the same as reading character by character. */
    method ReadChunk(chunk: string)
      requires OneLine(buffer)
      modifies this`buffer, this`lastEventId, this`delivered, this`eventId, this`eventType, this`dataLines
      ensures State() == Feed(old(State()), chunk, isJson) && OneLine(buffer)
    {
      hide Line, Feed;
      ghost var text := buffer + chunk;
      ghost var at := State().(buffer := "");
      BufferedFirst(State(), chunk, isJson);
      var lines := Split(buffer + chunk);
      var last := |lines| - 1;
      buffer := lines[last];
      for i := 0 to last
        invariant OneLine(buffer) && buffer == lines[last]
        invariant at.buffer == "" && State() == at.(buffer := buffer)
        invariant Feed(at, JoinLines(lines[i..]), isJson) == Feed(old(State()), chunk, isJson)
      {
        LineThenRest(at, lines, i, isJson);
        LineBuffer(at, lines[i], buffer, isJson);
        at := Line(at, lines[i], isJson);
        HandleLine(lines[i]);
      }
      assert lines[last..] == [buffer];
      FeedPartialLine(at, buffer, isJson);
      assert at.buffer + buffer == buffer;
    }

    /** A failed connection: retry while the limit allows, else report the error. */
    method OnFailure() returns (retry: bool, error: bool)
      modifies this`retryCount
      ensures retry <==> !stopped && old(retryCount) < MAX_RETRIES
      ensures error <==> !stopped && old(retryCount) >= MAX_RETRIES
      ensures retryCount == if retry then old(retryCount) + 1 else old(retryCount)
      ensures !stopped ==> Retry(old(retryCount)) == if retry then Some(retryCount) else None
    {
      if stopped { return false, false; }
      if retryCount < MAX_RETRIES {
        retryCount := retryCount + 1;
        return true, false;
      }
      return false, true;
    }

    method Stop()
      modifies this`stopped
      ensures stopped
    {
      stopped := true;
    }
  }

  /** What is buffered could as well come first in the chunk. */
  lemma {:induction false} BufferedFirst(p: Parser, chunk: string, isJson: string -> bool)
    requires OneLine(p.buffer)
    ensures Feed(p.(buffer := ""), p.buffer + chunk, isJson) == Feed(p, chunk, isJson)
  {
    FeedInChunks(p.(buffer := ""), p.buffer, chunk, isJson);
    FeedPartialLine(p.(buffer := ""), p.buffer, isJson);
    assert "" + p.buffer == p.buffer;
  }

  lemma {:induction false} LineThenRest(p: Parser, lines: seq<string>, i: nat, isJson: string -> bool)
    requires p.buffer == "" && i < |lines| - 1 && OneLine(lines[i])
    ensures Feed(p, JoinLines(lines[i..]), isJson) == Feed(Line(p, lines[i], isJson), JoinLines(lines[i + 1..]), isJson)
  {
    assert lines[i..][0] == lines[i] && lines[i..][1..] == lines[i + 1..];
    FeedLine(p, lines[i], JoinLines(lines[i + 1..]), isJson);
    assert p.(buffer := "") == p && p.buffer + lines[i] == lines[i];
  }

  /** Handling a complete line does not look at the buffer. */
  lemma LineBuffer(p: Parser, line: string, buffer: string, isJson: string -> bool)
    ensures Line(p.(buffer := buffer), line, isJson) == Line(p, line, isJson).(buffer := buffer)
    ensures Line(p, line, isJson).buffer == p.buffer
  {
  }
}
