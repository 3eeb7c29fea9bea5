/** The reading loop of the proxy stream: chunks to lines, lines to events, events to a message. */
module ProxyStream {
  import opened ProxyFraming
  import opened ProxyRebuild

  const PREFIX := "data: "

  /** What the string method `trim` removes: white space and line terminators, by code point. */
  predicate IsSpace(c: char) {
    var u := c as int;
    || 0x9 <= u <= 0xD || u == 0x20 || u == 0xA0 || u == 0x1680 || 0x2000 <= u <= 0x200A
    || u == 0x2028 || u == 0x2029 || u == 0x202F || u == 0x205F || u == 0x3000 || u == 0xFEFF
  }

  function TrimLeft(s: string): string {
    if s != "" && IsSpace(s[0]) then TrimLeft(s[1..]) else s
  }

  function TrimRight(s: string): string {
    if s != "" && IsSpace(s[|s| - 1]) then TrimRight(s[..|s| - 1]) else s
  }

  /** The payload of a data line; other lines and empty payloads are skipped. */
  function DataOf(line: string): Option<string> {
    if PREFIX <= line then
      var data := TrimRight(TrimLeft(line[|PREFIX|..]));
      if data == "" then None else Some(data)
    else None
  }

  /** A stream that runs, one that an unreadable or unfitting event has broken off, or one that the
      caller has aborted. */
  datatype Progress = Running(message: Message) | Broken(message: Message) | Aborted(message: Message)

  function TakeLine(p: Progress, line: string, decode: string -> Option<Event>, parse: string -> Json): Progress {
    if !p.Running? || DataOf(line).None? then p
    else
      var e := decode(DataOf(line).value);
      if e.None? then Broken(p.message)
      else
        var next := Step(p.message, e.value, parse);
        if next.None? then Broken(p.message) else Running(next.value)
  }

  function TakeLines(p: Progress, lines: seq<string>, decode: string -> Option<Event>,
      parse: string -> Json): Progress {
    if lines == [] then p
    else TakeLine(TakeLines(p, lines[..|lines| - 1], decode, parse), lines[|lines| - 1], decode, parse)
  }

  lemma {:induction false} TakeLinesConcat(p: Progress, xs: seq<string>, ys: seq<string>,
                                           decode: string -> Option<Event>, parse: string -> Json)
    ensures TakeLines(p, xs + ys, decode, parse) == TakeLines(TakeLines(p, xs, decode, parse), ys, decode, parse)
  {
    if ys == [] {
      assert xs + ys == xs;
    } else {
      var n := |ys| - 1;
      TakeLinesConcat(p, xs, ys[..n], decode, parse);
      assert (xs + ys)[..|xs + ys| - 1] == xs + ys[..n];
    }
  }

  class Reader {
    const decode: string -> Option<Event>
    const parse: string -> Json
    var buffer: string
    var content: map<nat, Block>
    var stopReason: Option<string>
    var forwarded: seq<Event>
    var broken: bool
    ghost var received: string

    function Status(): Progress
      reads this
    {
      var m := Message(content, stopReason, forwarded);
      if broken then Broken(m) else Running(m)
    }

    /** Everything received so far has been taken line by line, except the line still open. */
    ghost predicate Valid()
      reads this
    {
      && Status() == TakeLines(Running(Empty), Lines(received), decode, parse)
      && (!broken ==> buffer == Rest(received))
    }

    constructor (decode: string -> Option<Event>, parse: string -> Json)
      ensures Valid() && received == "" && this.decode == decode && this.parse == parse
    {
      this.decode, this.parse := decode, parse;
      buffer, content, stopReason, forwarded, broken, received := "", map[], None, [], false, "";
    }

    /** `processProxyEvent`, in place; false is the error of an event that does not fit. */
    method ProcessProxyEvent(e: Event) returns (ok: bool)
      requires !broken
      modifies this`content, this`stopReason, this`forwarded
      ensures var next := Step(old(Status()).message, e, parse);
              ok == next.Some? && Status() == if ok then Running(next.value) else old(Status())
    {
      match e {
        case Start =>
        case Done(reason) => stopReason := Some(reason);
        case Error(reason) => stopReason := Some(reason);
        case TextStart(i) => content := content[i := Text("", None)];
        case ThinkingStart(i) => content := content[i := Thinking("", None)];
        case CallStart(i, id, name) => content := content[i := Call(id, name, Some(""), "{}")];
        case TextDelta(i, delta) =>
          if i !in content || !content[i].Text? { return false; }
          content := content[i := content[i].(text := content[i].text + delta)];
        case TextEnd(i, signature) =>
          if i !in content || !content[i].Text? { return false; }
          content := content[i := content[i].(signature := signature)];
        case ThinkingDelta(i, delta) =>
          if i !in content || !content[i].Thinking? { return false; }
          content := content[i := content[i].(thinking := content[i].thinking + delta)];
        case ThinkingEnd(i, signature) =>
          if i !in content || !content[i].Thinking? { return false; }
          content := content[i := content[i].(thinkingSignature := signature)];
        case CallDelta(i, delta) =>
          if i !in content || !content[i].Call? { return false; }
          var json := (if content[i].partialJson.Some? then content[i].partialJson.value else UNDEFINED) + delta;
          content := content[i := content[i].(partialJson := Some(json), arguments := parse(json))];
        case CallEnd(i, id, name, arguments) =>
          if i !in content { return true; }
          if !content[i].Call? {
            assert content[i := content[i]] == content;
            return true;
          }
          content := content[i := Call(id, name, None, arguments)];
      }
      forwarded := forwarded + [e];
      return true;
    }

    method TakeOne(line: string)
      modifies this`content, this`stopReason, this`forwarded, this`broken
      ensures Status() == TakeLine(old(Status()), line, decode, parse)
    {
      if broken { return; }
      var data := DataOf(line);
      if data.None? { return; }
      var e := decode(data.value);
      if e.None? {
        broken := true;
        return;
      }
      var ok := ProcessProxyEvent(e.value);
      if !ok { broken := true; }
    }

    method TakeAll(lines: seq<string>)
      modifies this`content, this`stopReason, this`forwarded, this`broken
      ensures Status() == TakeLines(old(Status()), lines, decode, parse)
    {
      var i := 0;
      while i < |lines|
        invariant 0 <= i <= |lines|
        invariant Status() == TakeLines(old(Status()), lines[..i], decode, parse)
      {
        assert lines[..i + 1][..i] == lines[..i];
        TakeOne(lines[i]);
        i := i + 1;
      }
      assert lines[..i] == lines;
    }

    /** One chunk: complete the open line, take the complete lines, keep the rest. */
    method Feed(chunk: string)
      requires Valid()
      modifies this
      ensures Valid() && received == old(received) + chunk
    {
      ghost var lines := Lines(Rest(received) + chunk);
      LinesConcat(received, chunk);
      TakeLinesConcat(Running(Empty), Lines(received), lines, decode, parse);
      received := received + chunk;
      if broken {
        BrokenStays(Status(), lines, decode, parse);
        return;
      }
      var parts := Split(buffer + chunk);
      buffer := parts[|parts| - 1];
      assert parts[..|parts| - 1] == lines;
      TakeAll(parts[..|parts| - 1]);
    }
  }

  lemma {:induction false} BrokenStays(p: Progress, lines: seq<string>, decode: string -> Option<Event>,
      parse: string -> Json)
    requires p.Broken?
    ensures TakeLines(p, lines, decode, parse) == p
  {
    if lines != [] { BrokenStays(p, lines[..|lines| - 1], decode, parse); }
  }

  /** However a text is cut into chunks, the outcome is that of its complete lines; an abort that
      comes with chunk `abort`, or with the end, leaves what the chunks before it have led to.  It is
      noticed when that chunk has been read. */
  method ReadChunks(chunks: seq<string>, abort: Option<nat>, decode: string -> Option<Event>, parse: string -> Json)
    returns (p: Progress)
    ensures abort.None? || abort.value > |chunks| ==>
              p == TakeLines(Running(Empty), Lines(Joined(chunks)), decode, parse)
    ensures abort.Some? && abort.value <= |chunks| ==>
              var before := TakeLines(Running(Empty), Lines(Joined(chunks[..abort.value])), decode, parse);
              p == if before.Running? then Aborted(before.message) else before
  {
    var reader := new Reader(decode, parse);
    var i := 0;
    while i < |chunks| && abort != Some(i)
      invariant 0 <= i <= |chunks| && reader.Valid() && reader.received == Joined(chunks[..i])
      invariant reader.decode == decode && reader.parse == parse
      invariant abort.Some? && abort.value <= |chunks| ==> i <= abort.value
    {
      assert chunks[..i + 1][..i] == chunks[..i];
      reader.Feed(chunks[i]);
      i := i + 1;
    }
    p := reader.Status();
    if abort == Some(i) {
      if p.Running? { p := Aborted(p.message); }
    } else {
      assert chunks[..i] == chunks;
    }
  }

  /** The events of the data lines, as long as they can be read. */
  function EventsOf(lines: seq<string>, decode: string -> Option<Event>): seq<Event> {
    if lines == [] then []
    else
      var before := EventsOf(lines[..|lines| - 1], decode);
      var data := DataOf(lines[|lines| - 1]);
      if data.None? || decode(data.value).None? then before else before + [decode(data.value).value]
  }

  /** A stream that did not break off holds the message rebuilt from all its events. */
  lemma {:induction false} RunningIsRebuilt(lines: seq<string>, decode: string -> Option<Event>, parse: string -> Json)
    requires TakeLines(Running(Empty), lines, decode, parse).Running?
    ensures Rebuilt(EventsOf(lines, decode), parse) == Some(TakeLines(Running(Empty), lines, decode, parse).message)
  {
    if lines != [] {
      var n := |lines| - 1;
      RunningIsRebuilt(lines[..n], decode, parse);
      var data := DataOf(lines[n]);
      if data.Some? {
        RebuiltMore(EventsOf(lines[..n], decode), decode(data.value).value, parse);
      }
    }
  }
}
