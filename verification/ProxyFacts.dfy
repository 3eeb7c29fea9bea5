/** What a rebuilt message holds, told by the events alone: the last event of each kind decides. */
module ProxyFacts {
  import opened ProxyFraming
  import opened ProxyRebuild
  import opened ProxyStream

  /** The last event about an index that is of a kind. */
  function Last(es: seq<Event>, i: nat, p: Event -> bool): (e: Option<Event>)
    ensures e.Some? ==> About(e.value, i) && p(e.value)
  {
    if es == [] then None
    else if About(es[|es| - 1], i) && p(es[|es| - 1]) then Some(es[|es| - 1])
    else Last(es[..|es| - 1], i, p)
  }

  predicate EndsStream(e: Event) { e.Done? || e.Error? }

  predicate Signs(e: Event) { e.TextStart? || e.TextEnd? }

  predicate SignsThinking(e: Event) { e.ThinkingStart? || e.ThinkingEnd? }

  predicate Names(e: Event) { e.CallStart? || e.CallEnd? }

  predicate Argues(e: Event) { e.CallStart? || e.CallDelta? || e.CallEnd? }

  /** A delta or an end belongs to the last start at its index; the end of a call is let pass. */
  predicate Fits(before: seq<Event>, e: Event) {
    match e
    case TextDelta(i, _) => Last(before, i, IsStart).Some? && Last(before, i, IsStart).value.TextStart?
    case TextEnd(i, _) => Last(before, i, IsStart).Some? && Last(before, i, IsStart).value.TextStart?
    case ThinkingDelta(i, _) => Last(before, i, IsStart).Some? && Last(before, i, IsStart).value.ThinkingStart?
    case ThinkingEnd(i, _) => Last(before, i, IsStart).Some? && Last(before, i, IsStart).value.ThinkingStart?
    case CallDelta(i, _) => Last(before, i, IsStart).Some? && Last(before, i, IsStart).value.CallStart?
    case _ => true
  }

  /** A block is there exactly once something has started at its index, and is of the kind that was
      started last. */
  lemma {:induction false} KindIs(es: seq<Event>, i: nat, parse: string -> Json)
    requires Rebuilt(es, parse).Some?
    ensures
      var b, start := Has(Rebuilt(es, parse).value, i), Last(es, i, IsStart);
      && (b.Some? <==> start.Some?)
      && (b.Some? ==>
            && (b.value.Text? <==> start.value.TextStart?)
            && (b.value.Thinking? <==> start.value.ThinkingStart?)
            && (b.value.Call? <==> start.value.CallStart?))
  {
    if es != [] { KindIs(es[..|es| - 1], i, parse); }
  }

  /** An event is accepted exactly if it fits what came before. */
  lemma StepFits(before: seq<Event>, e: Event, parse: string -> Json)
    requires Rebuilt(before, parse).Some?
    ensures Step(Rebuilt(before, parse).value, e, parse).Some? <==> Fits(before, e)
  {
    if !e.Start? && !EndsStream(e) { KindIs(before, e.index, parse); }
  }

  ghost predicate AllFit(es: seq<Event>) {
    forall k | 0 <= k < |es| :: Fits(es[..k], es[k])
  }

  lemma AllFitMore(es: seq<Event>)
    requires es != []
    ensures AllFit(es) <==> AllFit(es[..|es| - 1]) && Fits(es[..|es| - 1], es[|es| - 1])
  {
    var n := |es| - 1;
    forall k | 0 <= k < n ensures es[..n][..k] == es[..k] && es[..n][k] == es[k] {}
    if !AllFit(es[..n]) {
      var k :| 0 <= k < n && !Fits(es[..n][..k], es[..n][k]);
      assert !Fits(es[..k], es[k]);
    }
  }

  /** The events are accepted exactly if each of them fits those before it. */
  lemma {:induction false} AcceptedExactly(es: seq<Event>, parse: string -> Json)
    ensures Rebuilt(es, parse).Some? <==> AllFit(es)
  {
    if es != [] {
      var n := |es| - 1;
      AcceptedExactly(es[..n], parse);
      AllFitMore(es);
      if Rebuilt(es[..n], parse).Some? { StepFits(es[..n], es[n], parse); }
    }
  }

  /** The events passed on: all but the ends of calls that are not there. */
  function Passed(es: seq<Event>): seq<Event> {
    if es == [] then []
    else
      var before, e := es[..|es| - 1], es[|es| - 1];
      if e.CallEnd? && !(Last(before, e.index, IsStart).Some? && Last(before, e.index, IsStart).value.CallStart?)
      then Passed(before)
      else Passed(before) + [e]
  }

  function LastReason(es: seq<Event>): Option<string> {
    if es == [] then None
    else if EndsStream(es[|es| - 1]) then Some(es[|es| - 1].reason)
    else LastReason(es[..|es| - 1])
  }

  /** What is passed on, and which reason the message has stopped for. */
  lemma {:induction false} PassedExactly(es: seq<Event>, parse: string -> Json)
    requires Rebuilt(es, parse).Some?
    ensures Rebuilt(es, parse).value.forwarded == Passed(es)
    ensures Rebuilt(es, parse).value.stopReason == LastReason(es)
  {
    if es != [] {
      var n := |es| - 1;
      PassedExactly(es[..n], parse);
      if es[n].CallEnd? { KindIs(es[..n], es[n].index, parse); }
    }
  }

  /** A signature is that of the last end since the start, and none before one. */
  lemma {:induction false} SignatureIs(es: seq<Event>, i: nat, parse: string -> Json)
    requires Rebuilt(es, parse).Some? && Has(Rebuilt(es, parse).value, i).Some?
    ensures
      var b := Has(Rebuilt(es, parse).value, i).value;
      && (b.Text? ==>
            var e := Last(es, i, Signs);
            e.Some? && b.signature == if e.value.TextEnd? then e.value.signature else None)
      && (b.Thinking? ==>
            var e := Last(es, i, SignsThinking);
            e.Some? && b.thinkingSignature == if e.value.ThinkingEnd? then e.value.signature else None)
  {
    var n := |es| - 1;
    if About(es[n], i) {
      if !IsStart(es[n]) { SignatureIs(es[..n], i, parse); }
    } else {
      StepAt(Rebuilt(es[..n], parse).value, es[n], i, parse);
      SignatureIs(es[..n], i, parse);
    }
  }

  /** A call is named by its last start or end; its arguments are empty after a start, those parsed
      from the partial JSON after a delta, and those given after an end, which alone leaves no
      partial JSON. */
  lemma {:induction false} CallIs(es: seq<Event>, i: nat, parse: string -> Json)
    requires Rebuilt(es, parse).Some? && Has(Rebuilt(es, parse).value, i).Some?
    requires Has(Rebuilt(es, parse).value, i).value.Call?
    ensures
      var b, name, last := Has(Rebuilt(es, parse).value, i).value, Last(es, i, Names), Last(es, i, Argues);
      && name.Some? && b.id == name.value.id && b.name == name.value.name
      && last.Some? && (b.partialJson.None? <==> last.value.CallEnd?)
      && b.arguments == (if last.value.CallEnd? then last.value.arguments
                         else if last.value.CallStart? then "{}"
                         else parse(b.partialJson.value))
  {
    var n := |es| - 1;
    if About(es[n], i) {
      if !IsStart(es[n]) { CallIs(es[..n], i, parse); }
    } else {
      StepAt(Rebuilt(es[..n], parse).value, es[n], i, parse);
      CallIs(es[..n], i, parse);
    }
  }

  // ---------- lines ----------

  /** White space and line terminators, told by their code points. */
  lemma SpacesAre(c: char)
    ensures IsSpace(c) <==>
              c as int in {0x9, 0xA, 0xB, 0xC, 0xD, 0x20, 0xA0, 0x1680, 0x2000, 0x2001, 0x2002, 0x2003, 0x2004, 0x2005,
                           0x2006, 0x2007, 0x2008, 0x2009, 0x200A, 0x2028, 0x2029, 0x202F, 0x205F, 0x3000, 0xFEFF}
  {}

  predicate AllSpace(s: string) { forall k | 0 <= k < |s| :: IsSpace(s[k]) }

  lemma {:induction false} TrimmedLeft(s: string) returns (spaces: string)
    ensures AllSpace(spaces) && s == spaces + TrimLeft(s)
    ensures TrimLeft(s) != "" ==> !IsSpace(TrimLeft(s)[0])
  {
    if s != "" && IsSpace(s[0]) {
      var rest := TrimmedLeft(s[1..]);
      spaces := [s[0]] + rest;
    } else {
      spaces := "";
    }
  }

  lemma {:induction false} TrimmedRight(s: string) returns (spaces: string)
    ensures AllSpace(spaces) && s == TrimRight(s) + spaces
    ensures TrimRight(s) != "" ==> !IsSpace(TrimRight(s)[|TrimRight(s)| - 1])
  {
    if s != "" && IsSpace(s[|s| - 1]) {
      var rest := TrimmedRight(s[..|s| - 1]);
      spaces := rest + [s[|s| - 1]];
    } else {
      spaces := "";
    }
  }

  /** A data line is the prefix, then white space around a payload that neither starts nor ends with
      any; every other line carries nothing. */
  lemma DataIs(line: string) returns (left: string, right: string)
    ensures DataOf(line).Some? ==>
              var data := DataOf(line).value;
              && line == "data: " + left + data + right && AllSpace(left) && AllSpace(right)
              && data != "" && !IsSpace(data[0]) && !IsSpace(data[|data| - 1])
    ensures DataOf(line).None? && "data: " <= line ==> AllSpace(line[6..])
  {
    left, right := "", "";
    if "data: " <= line {
      var rest := line[6..];
      left := TrimmedLeft(rest);
      right := TrimmedRight(TrimLeft(rest));
      assert line == "data: " + rest;
    }
  }

  function Terminated(lines: seq<string>): string {
    if lines == [] then "" else lines[0] + "\n" + Terminated(lines[1..])
  }

  lemma PrependedLine(c: char, lines: seq<string>)
    requires lines != []
    ensures Terminated(Prepended(c, lines)) == (if c == '\n' then "\n" else [c]) + Terminated(lines)
  {
    assert ([""] + lines)[1..] == lines;
    assert ([[c] + lines[0]] + lines[1..])[1..] == lines[1..];
    assert [c] + lines[0] + "\n" + Terminated(lines[1..]) == [c] + (lines[0] + "\n" + Terminated(lines[1..]));
  }

  lemma RestUnfolds(s: string)
    requires s != "" && '\n' in s
    ensures Rest(s) == Rest(s[1..])
  {
    RestPlain(s[1..]);
    assert s == [s[0]] + s[1..];
  }

  lemma LineFeedOrMore(c: char, tail: string, lines: seq<string>, rest: string)
    requires Terminated(lines) + rest == tail && (lines == [] ==> c == '\n')
    ensures Terminated(Prepended(c, lines)) + rest == [c] + tail
  {
    if lines != [] {
      PrependedLine(c, lines);
    } else {
      assert ([""] + lines)[1..] == [];
    }
  }

  /** The lines with their line feeds and the rest are the text. */
  lemma {:induction false} LinesAre(s: string)
    ensures Terminated(Lines(s)) + Rest(s) == s
  {
    LinesEmpty(s);
    if '\n' !in s {
      RestPlain(s);
    } else {
      LinesAre(s[1..]);
      LinesEmpty(s[1..]);
      LinesUnfold(s);
      RestUnfolds(s);
      LineFeedOrMore(s[0], s[1..], Lines(s[1..]), Rest(s[1..]));
      assert [s[0]] + s[1..] == s;
    }
  }

  /** No line holds a line feed. */
  lemma {:induction false} LinesArePlain(s: string, k: nat)
    requires k < |Lines(s)|
    ensures '\n' !in Lines(s)[k]
  {
    LinesUnfold(s);
    if s[0] == '\n' {
      if k > 0 { LinesArePlain(s[1..], k - 1); }
    } else {
      LinesArePlain(s[1..], k);
    }
  }

  predicate Reads(line: string, decode: string -> Option<Event>) {
    DataOf(line).Some? ==> decode(DataOf(line).value).Some?
  }

  ghost predicate Readable(lines: seq<string>, decode: string -> Option<Event>) {
    forall k | 0 <= k < |lines| :: Reads(lines[k], decode)
  }

  lemma ReadableMore(lines: seq<string>, decode: string -> Option<Event>)
    requires lines != []
    ensures Readable(lines, decode) <==>
              Readable(lines[..|lines| - 1], decode) && Reads(lines[|lines| - 1], decode)
  {}

  /** The events after one more line. */
  function EventsWith(es: seq<Event>, line: string, decode: string -> Option<Event>): seq<Event> {
    var data := DataOf(line);
    if data.None? || decode(data.value).None? then es else es + [decode(data.value).value]
  }

  /** A line goes on exactly if its payload can be read and its event fits. */
  lemma OneLine(m: Message, es: seq<Event>, line: string, decode: string -> Option<Event>, parse: string -> Json)
    requires Rebuilt(es, parse) == Some(m)
    ensures TakeLine(Running(m), line, decode, parse).Running? <==>
              Reads(line, decode) && Rebuilt(EventsWith(es, line, decode), parse).Some?
  {
    var data := DataOf(line);
    if data.Some? && decode(data.value).Some? { RebuiltMore(es, decode(data.value).value, parse); }
  }

  lemma RefusedStays(es: seq<Event>, line: string, decode: string -> Option<Event>, parse: string -> Json)
    requires Rebuilt(es, parse).None?
    ensures Rebuilt(EventsWith(es, line, decode), parse).None?
  {
    var data := DataOf(line);
    if data.Some? && decode(data.value).Some? { RebuiltMore(es, decode(data.value).value, parse); }
  }

  lemma EventsMore(lines: seq<string>, decode: string -> Option<Event>)
    requires lines != []
    ensures EventsOf(lines, decode) == EventsWith(EventsOf(lines[..|lines| - 1], decode), lines[|lines| - 1], decode)
  {}

  lemma OneMore(p: Progress, es: seq<Event>, lines: seq<string>, line: string, decode: string -> Option<Event>,
                parse: string -> Json)
    requires p.Running? <==> Readable(lines, decode) && Rebuilt(es, parse).Some?
    requires p.Running? ==> Rebuilt(es, parse) == Some(p.message)
    ensures TakeLine(p, line, decode, parse).Running? <==>
              Readable(lines, decode) && Reads(line, decode) && Rebuilt(EventsWith(es, line, decode), parse).Some?
  {
    if p.Running? {
      OneLine(p.message, es, line, decode, parse);
    } else if Rebuilt(es, parse).None? {
      RefusedStays(es, line, decode, parse);
    }
  }

  lemma TakenMore(lines: seq<string>, decode: string -> Option<Event>, parse: string -> Json)
    requires lines != []
    ensures TakeLines(Running(Empty), lines, decode, parse)
            == TakeLine(TakeLines(Running(Empty), lines[..|lines| - 1], decode, parse), lines[|lines| - 1],
                        decode, parse)
  {}

  /** A stream runs on exactly if every payload can be read and every event fits. */
  lemma {:induction false} RunsExactly(lines: seq<string>, decode: string -> Option<Event>, parse: string -> Json)
    ensures TakeLines(Running(Empty), lines, decode, parse).Running? <==>
              Readable(lines, decode) && Rebuilt(EventsOf(lines, decode), parse).Some?
  {
    if lines != [] {
      var n := |lines| - 1;
      var before := TakeLines(Running(Empty), lines[..n], decode, parse);
      RunsExactly(lines[..n], decode, parse);
      if before.Running? { RunningIsRebuilt(lines[..n], decode, parse); }
      OneMore(before, EventsOf(lines[..n], decode), lines[..n], lines[n], decode, parse);
      ReadableMore(lines, decode);
      EventsMore(lines, decode);
      TakenMore(lines, decode, parse);
    }
  }
}
