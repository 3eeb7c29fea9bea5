/** Rebuilding an assistant message from the events a proxy server sends. */
module ProxyRebuild {

  type Json = string

  datatype Option<T> = None | Some(value: T)

  /** `partialJson` is the field that the end of a tool call deletes. */
  datatype Block =
    | Text(text: string, signature: Option<string>)
    | Thinking(thinking: string, thinkingSignature: Option<string>)
    | Call(id: string, name: string, partialJson: Option<string>, arguments: Json)

  datatype Event =
    | Start
    | TextStart(index: nat)
    | TextDelta(index: nat, delta: string)
    | TextEnd(index: nat, signature: Option<string>)
    | ThinkingStart(index: nat)
    | ThinkingDelta(index: nat, delta: string)
    | ThinkingEnd(index: nat, signature: Option<string>)
    | CallStart(index: nat, id: string, name: string)
    | CallDelta(index: nat, delta: string)
    | CallEnd(index: nat, id: string, name: string, arguments: Json)
    | Done(reason: string)
    | Error(reason: string)

  /** `forwarded` are the events pushed on the stream. */
  datatype Message = Message(content: map<nat, Block>, stopReason: Option<string>, forwarded: seq<Event>)

  const Empty := Message(map[], None, [])

  const UNDEFINED := "undefined"

  function Has(m: Message, i: nat): Option<Block> {
    if i in m.content then Some(m.content[i]) else None
  }

  predicate IsStart(e: Event) {
    e.TextStart? || e.ThinkingStart? || e.CallStart?
  }

  predicate IsCallEnd(e: Event) {
    e.CallEnd?
  }

  predicate About(e: Event, i: nat) {
    !e.Start? && !e.Done? && !e.Error? && e.index == i
  }

  /** The block at an event's index afterwards; nothing is the error of an event that does not fit
      the block.  `parse` is the best-effort parser of partial JSON. */
  function Changed(b: Option<Block>, e: Event, parse: string -> Json): Option<Option<Block>> {
    match e
    case TextStart(_) => Some(Some(Text("", None)))
    case ThinkingStart(_) => Some(Some(Thinking("", None)))
    case CallStart(_, id, name) => Some(Some(Call(id, name, Some(""), "{}")))
    case TextDelta(_, delta) =>
      if b.Some? && b.value.Text? then Some(Some(b.value.(text := b.value.text + delta))) else None
    case TextEnd(_, signature) =>
      if b.Some? && b.value.Text? then Some(Some(b.value.(signature := signature))) else None
    case ThinkingDelta(_, delta) =>
      if b.Some? && b.value.Thinking? then Some(Some(b.value.(thinking := b.value.thinking + delta))) else None
    case ThinkingEnd(_, signature) =>
      if b.Some? && b.value.Thinking? then Some(Some(b.value.(thinkingSignature := signature))) else None
    case CallDelta(_, delta) =>
      if b.Some? && b.value.Call? then
        var json := (if b.value.partialJson.Some? then b.value.partialJson.value else UNDEFINED) + delta;
        Some(Some(b.value.(partialJson := Some(json), arguments := parse(json))))
      else None
    case CallEnd(_, id, name, arguments) =>
      if b.Some? && b.value.Call? then Some(Some(Call(id, name, None, arguments))) else Some(b)
    case _ => Some(b)
  }

  /** Every accepted event is passed on, except the end of a tool call that is not there. */
  function Forwarded(m: Message, e: Event): seq<Event> {
    if e.CallEnd? && !(Has(m, e.index).Some? && m.content[e.index].Call?) then m.forwarded else m.forwarded + [e]
  }

  function Step(m: Message, e: Event, parse: string -> Json): Option<Message> {
    match e
    case Start => Some(m.(forwarded := m.forwarded + [e]))
    case Done(reason) => Some(m.(stopReason := Some(reason), forwarded := m.forwarded + [e]))
    case Error(reason) => Some(m.(stopReason := Some(reason), forwarded := m.forwarded + [e]))
    case _ =>
      var b := Changed(Has(m, e.index), e, parse);
      if b.None? then None
      else
        var m1 := m.(forwarded := Forwarded(m, e));
        Some(if b.value.None? then m1 else m1.(content := m.content[e.index := b.value.value]))
  }

  /** The message after accepted events; nothing if one of them was refused. */
  function Rebuilt(es: seq<Event>, parse: string -> Json): Option<Message> {
    if es == [] then Some(Empty)
    else
      var before := Rebuilt(es[..|es| - 1], parse);
      if before.None? then None else Step(before.value, es[|es| - 1], parse)
  }

  // ---------- other indexes do not matter ----------

  function Only(es: seq<Event>, i: nat): seq<Event> {
    if es == [] then []
    else
      var e := es[|es| - 1];
      Only(es[..|es| - 1], i) + if About(e, i) then [e] else []
  }

  /** The block that events about one index alone build. */
  function BlockOf(es: seq<Event>, parse: string -> Json): Option<Option<Block>> {
    if es == [] then Some(None)
    else
      var before := BlockOf(es[..|es| - 1], parse);
      if before.None? then None else Changed(before.value, es[|es| - 1], parse)
  }

  /** A step changes nothing but the block its event is about. */
  lemma StepAt(m: Message, e: Event, i: nat, parse: string -> Json)
    requires Step(m, e, parse).Some?
    ensures if About(e, i) then Changed(Has(m, i), e, parse) == Some(Has(Step(m, e, parse).value, i))
            else Has(Step(m, e, parse).value, i) == Has(m, i)
  {}

  /** What is rebuilt at an index depends only on the events about that index. */
  lemma {:induction false} RebuildIsLocal(es: seq<Event>, i: nat, parse: string -> Json)
    requires Rebuilt(es, parse).Some?
    ensures BlockOf(Only(es, i), parse) == Some(Has(Rebuilt(es, parse).value, i))
  {
    if es != [] {
      var n := |es| - 1;
      RebuildIsLocal(es[..n], i, parse);
      StepAt(Rebuilt(es[..n], parse).value, es[n], i, parse);
      if About(es[n], i) {
        BlockMore(Only(es[..n], i), es[n], parse);
      } else {
        assert Only(es, i) == Only(es[..n], i);
      }
    }
  }

  // ---------- blocks are the deltas since their last start ----------

  function Deltas(es: seq<Event>): string {
    if es == [] then ""
    else
      var e := es[|es| - 1];
      Deltas(es[..|es| - 1]) + if e.TextDelta? || e.ThinkingDelta? || e.CallDelta? then e.delta else ""
  }

  predicate HasDelta(es: seq<Event>) {
    exists i | 0 <= i < |es| :: es[i].CallDelta?
  }

  /** The partial JSON of a call after its end. */
  function Regrown(after: seq<Event>): Option<string> {
    if HasDelta(after) then Some(UNDEFINED + Deltas(after)) else None
  }

  ghost predicate NoneOf(es: seq<Event>, p: Event -> bool) {
    forall i | 0 <= i < |es| :: !p(es[i])
  }

  lemma BlockMore(es: seq<Event>, e: Event, parse: string -> Json)
    ensures BlockOf(es + [e], parse)
            == if BlockOf(es, parse).None? then None else Changed(BlockOf(es, parse).value, e, parse)
  {
    assert (es + [e])[..|es|] == es;
  }

  /** A start forgets everything before it. */
  lemma {:induction false} StartForgets(before: seq<Event>, start: Event, after: seq<Event>, parse: string -> Json)
    requires IsStart(start) && BlockOf(before + [start] + after, parse).Some?
    ensures BlockOf([start] + after, parse) == BlockOf(before + [start] + after, parse)
  {
    if after == [] {
      assert before + [start] + after == before + [start];
      BlockMore(before, start, parse);
      assert [start] + after == [] + [start];
      BlockMore([], start, parse);
    } else {
      var n := |after| - 1;
      assert before + [start] + after == (before + [start] + after[..n]) + [after[n]];
      assert [start] + after == ([start] + after[..n]) + [after[n]];
      BlockMore(before + [start] + after[..n], after[n], parse);
      BlockMore([start] + after[..n], after[n], parse);
      StartForgets(before, start, after[..n], parse);
    }
  }

  /** A text or thinking block holds the deltas since its start, in order. */
  lemma {:induction false} TextIsDeltas(start: Event, after: seq<Event>, parse: string -> Json)
    requires (start.TextStart? || start.ThinkingStart?) && NoneOf(after, IsStart)
    requires BlockOf([start] + after, parse).Some?
    ensures var b := BlockOf([start] + after, parse).value;
            b.Some? && if start.TextStart? then b.value.Text? && b.value.text == Deltas(after)
                       else b.value.Thinking? && b.value.thinking == Deltas(after)
  {
    if after == [] {
      assert [start] + after == [] + [start];
      BlockMore([], start, parse);
    } else {
      var n := |after| - 1;
      assert [start] + after == ([start] + after[..n]) + [after[n]];
      BlockMore([start] + after[..n], after[n], parse);
      TextIsDeltas(start, after[..n], parse);
      assert !IsStart(after[n]);
      assert Deltas(after[..n]) + "" == Deltas(after[..n]);
    }
  }

  /** As long as the call has not ended, its partial JSON is the deltas since its start. */
  lemma {:induction false} CallIsDeltas(start: Event, after: seq<Event>, parse: string -> Json)
    requires start.CallStart? && NoneOf(after, IsStart) && NoneOf(after, IsCallEnd)
    requires BlockOf([start] + after, parse).Some?
    ensures var b := BlockOf([start] + after, parse).value;
            b.Some? && b.value.Call? && b.value.partialJson == Some(Deltas(after))
  {
    if after == [] {
      assert [start] + after == [] + [start];
      BlockMore([], start, parse);
    } else {
      var n := |after| - 1;
      assert [start] + after == ([start] + after[..n]) + [after[n]];
      BlockMore([start] + after[..n], after[n], parse);
      CallIsDeltas(start, after[..n], parse);
      assert !IsStart(after[n]) && !IsCallEnd(after[n]);
      assert Deltas(after[..n]) + "" == Deltas(after[..n]);
    }
  }

  lemma {:induction false} CallStays(start: Event, after: seq<Event>, parse: string -> Json)
    requires start.CallStart? && NoneOf(after, IsStart)
    requires BlockOf([start] + after, parse).Some?
    ensures var b := BlockOf([start] + after, parse).value; b.Some? && b.value.Call?
  {
    if after == [] {
      assert [start] + after == [] + [start];
      BlockMore([], start, parse);
    } else {
      var n := |after| - 1;
      assert [start] + after == ([start] + after[..n]) + [after[n]];
      BlockMore([start] + after[..n], after[n], parse);
      CallStays(start, after[..n], parse);
    }
  }

  /** After the last end of a call its partial JSON is gone; a later delta starts it again from
      the text "undefined". */
  lemma {:induction false} AfterCallEnd(start: Event, upTo: seq<Event>, end: Event, after: seq<Event>,
      parse: string -> Json)
    requires start.CallStart? && NoneOf(upTo, IsStart) && end.CallEnd?
    requires NoneOf(after, IsStart) && NoneOf(after, IsCallEnd)
    requires BlockOf([start] + upTo + [end] + after, parse).Some?
    ensures var b := BlockOf([start] + upTo + [end] + after, parse).value;
            && b.Some? && b.value.Call?
            && b.value.partialJson == Regrown(after)
  {
    if after == [] {
      assert [start] + upTo + [end] + after == ([start] + upTo) + [end];
      BlockMore([start] + upTo, end, parse);
      CallStays(start, upTo, parse);
    } else {
      var n := |after| - 1;
      assert [start] + upTo + [end] + after == ([start] + upTo + [end] + after[..n]) + [after[n]];
      BlockMore([start] + upTo + [end] + after[..n], after[n], parse);
      AfterCallEnd(start, upTo, end, after[..n], parse);
      assert !IsStart(after[n]) && !IsCallEnd(after[n]);
      CallStep(BlockOf([start] + upTo + [end] + after[..n], parse).value.value, after[n], parse);
      if !HasDelta(after[..n]) { NoCallDeltas(start, upTo, end, after[..n], parse); }
      RegrownMore(after[..n], after[n]);
      assert after[..n] + [after[n]] == after;
    }
  }

  lemma RegrownMore(es: seq<Event>, e: Event)
    requires !e.TextDelta? && !e.ThinkingDelta? && (!HasDelta(es) ==> Deltas(es) == "")
    ensures Regrown(es + [e])
            == if e.CallDelta? then Some((if Regrown(es).Some? then Regrown(es).value else UNDEFINED) + e.delta)
               else Regrown(es)
  {
    HasDeltaMore(es, e);
    assert (es + [e])[..|es|] == es;
    assert Deltas(es) + "" == Deltas(es);
    if e.CallDelta? { assert UNDEFINED + (Deltas(es) + e.delta) == UNDEFINED + Deltas(es) + e.delta; }
    if e.CallDelta? && !HasDelta(es) { assert "" + e.delta == e.delta; }
  }

  lemma HasDeltaMore(es: seq<Event>, e: Event)
    ensures HasDelta(es + [e]) <==> HasDelta(es) || e.CallDelta?
  {
    var r := es + [e];
    if HasDelta(es) {
      var i :| 0 <= i < |es| && es[i].CallDelta?;
      assert r[i].CallDelta?;
    }
    if e.CallDelta? { assert r[|es|].CallDelta?; }
    if HasDelta(r) {
      var i :| 0 <= i < |r| && r[i].CallDelta?;
      assert i < |es| ==> es[i].CallDelta?;
    }
  }

  /** What an accepted event other than a start or an end does to a call. */
  lemma CallStep(b: Block, e: Event, parse: string -> Json)
    requires b.Call? && !IsStart(e) && !IsCallEnd(e) && Changed(Some(b), e, parse).Some?
    ensures var c := Changed(Some(b), e, parse).value;
            && c.Some? && c.value.Call? && !e.TextDelta? && !e.ThinkingDelta?
            && c.value.partialJson ==
               if e.CallDelta? then Some((if b.partialJson.Some? then b.partialJson.value else UNDEFINED) + e.delta)
               else b.partialJson
  {}

  /** Without call deltas an accepted event about a call adds no text. */
  lemma {:induction false} NoCallDeltas(start: Event, upTo: seq<Event>, end: Event, after: seq<Event>,
      parse: string -> Json)
    requires start.CallStart? && NoneOf(upTo, IsStart) && end.CallEnd?
    requires NoneOf(after, IsStart) && NoneOf(after, IsCallEnd) && !HasDelta(after)
    requires BlockOf([start] + upTo + [end] + after, parse).Some?
    ensures Deltas(after) == ""
  {
    if after != [] {
      var n := |after| - 1;
      assert [start] + upTo + [end] + after == ([start] + upTo + [end] + after[..n]) + [after[n]];
      BlockMore([start] + upTo + [end] + after[..n], after[n], parse);
      HasDeltaMore(after[..n], after[n]);
      assert after[..n] + [after[n]] == after;
      NoCallDeltas(start, upTo, end, after[..n], parse);
      AfterCallEnd(start, upTo, end, after[..n], parse);
      assert !IsStart(after[n]) && !IsCallEnd(after[n]);
      CallStep(BlockOf([start] + upTo + [end] + after[..n], parse).value.value, after[n], parse);
      assert Deltas(after) == Deltas(after[..n]) + "";
    }
  }

  lemma {:induction false} DeltasConcat(xs: seq<Event>, ys: seq<Event>)
    ensures Deltas(xs + ys) == Deltas(xs) + Deltas(ys)
  {
    if ys == [] {
      assert xs + ys == xs;
    } else {
      var n := |ys| - 1;
      DeltasConcat(xs, ys[..n]);
      assert (xs + ys)[..|xs + ys| - 1] == xs + ys[..n];
    }
  }

  /** The exact condition: once a call has ended, its partial JSON equals the deltas since the
      start only if later deltas follow earlier ones that happened to spell "undefined". */
  lemma EndedCallDiffersExactly(start: Event, upTo: seq<Event>, end: Event, after: seq<Event>, parse: string -> Json)
    requires start.CallStart? && NoneOf(upTo, IsStart) && end.CallEnd?
    requires NoneOf(after, IsStart) && NoneOf(after, IsCallEnd)
    requires BlockOf([start] + upTo + [end] + after, parse).Some?
    ensures var b := BlockOf([start] + upTo + [end] + after, parse).value;
            && b.Some? && b.value.Call?
            && (b.value.partialJson == Some(Deltas(upTo + [end] + after)) <==>
                HasDelta(after) && Deltas(upTo) == UNDEFINED)
  {
    AfterCallEnd(start, upTo, end, after, parse);
    DeltasConcat(upTo, [end]);
    DeltasConcat(upTo + [end], after);
    assert Deltas([end]) == "";
    assert Deltas(upTo + [end] + after) == Deltas(upTo) + Deltas(after);
    var x, y, z := Deltas(upTo), UNDEFINED, Deltas(after);
    if x + z == y + z {
      assert |x| == |y|;
      assert x == (x + z)[..|x|] && y == (y + z)[..|y|];
    }
  }

  /** Concretely: one delta after the end of an empty call. */
  lemma DeltaAfterEnd(parse: string -> Json)
    ensures var es := [CallStart(0, "a", "t"), CallEnd(0, "a", "t", "{}"), CallDelta(0, "x")];
            && Rebuilt(es, parse).Some? && 0 in Rebuilt(es, parse).value.content
            && Rebuilt(es, parse).value.content[0] == Call("a", "t", Some("undefinedx"), parse("undefinedx"))
  {
    var a, b, c := CallStart(0, "a", "t"), CallEnd(0, "a", "t", "{}"), CallDelta(0, "x");
    var m1 := RebuiltStep([], Empty, a, Call("a", "t", Some(""), "{}"), parse);
    var m2 := RebuiltStep([a], m1, b, Call("a", "t", None, "{}"), parse);
    assert UNDEFINED + "x" == "undefinedx";
    var m3 := RebuiltStep([a, b], m2, c, Call("a", "t", Some("undefinedx"), parse("undefinedx")), parse);
    assert [] + [a] == [a] && [a] + [b] == [a, b] && [a, b] + [c] == [a, b, c];
  }

  /** An accepted event puts its block at its index. */
  lemma RebuiltStep(es: seq<Event>, m: Message, e: Event, b: Block, parse: string -> Json) returns (next: Message)
    requires Rebuilt(es, parse) == Some(m) && About(e, 0) && Changed(Has(m, 0), e, parse) == Some(Some(b))
    ensures Rebuilt(es + [e], parse) == Some(next) && Has(next, 0) == Some(b)
  {
    RebuiltMore(es, e, parse);
    next := Step(m, e, parse).value;
  }

  lemma RebuiltMore(es: seq<Event>, e: Event, parse: string -> Json)
    ensures Rebuilt(es + [e], parse)
            == if Rebuilt(es, parse).None? then None else Step(Rebuilt(es, parse).value, e, parse)
  {
    assert (es + [e])[..|es|] == es;
  }

  /** Among accepted events, a text or thinking block holds exactly the deltas for its index since
      its last start, whatever came before and whatever other indexes received. */
  lemma TextRebuilt(es: seq<Event>, i: nat, before: seq<Event>, start: Event, after: seq<Event>, parse: string -> Json)
    requires Rebuilt(es, parse).Some? && Only(es, i) == before + [start] + after
    requires (start.TextStart? || start.ThinkingStart?) && NoneOf(after, IsStart)
    ensures var b := Has(Rebuilt(es, parse).value, i);
            b.Some? && if start.TextStart? then b.value.Text? && b.value.text == Deltas(after)
                       else b.value.Thinking? && b.value.thinking == Deltas(after)
  {
    RebuildIsLocal(es, i, parse);
    StartForgets(before, start, after, parse);
    TextIsDeltas(start, after, parse);
  }

  /** The same for the partial JSON of a tool call that has not ended. */
  lemma CallRebuilt(es: seq<Event>, i: nat, before: seq<Event>, start: Event, after: seq<Event>, parse: string -> Json)
    requires Rebuilt(es, parse).Some? && Only(es, i) == before + [start] + after
    requires start.CallStart? && NoneOf(after, IsStart) && NoneOf(after, IsCallEnd)
    ensures var b := Has(Rebuilt(es, parse).value, i);
            b.Some? && b.value.Call? && b.value.partialJson == Some(Deltas(after))
  {
    RebuildIsLocal(es, i, parse);
    StartForgets(before, start, after, parse);
    CallIsDeltas(start, after, parse);
  }

  /** The same for a tool call that has ended and may have received deltas since: it no longer holds
      the deltas since its start, but for the one case in which those before its end spelled out the
      text the deleted field is read as. */
  lemma EndedCallRebuiltExactly(es: seq<Event>, i: nat, before: seq<Event>, start: Event, upTo: seq<Event>, end: Event,
                                after: seq<Event>, parse: string -> Json)
    requires Rebuilt(es, parse).Some? && Only(es, i) == before + [start] + upTo + [end] + after
    requires start.CallStart? && NoneOf(upTo, IsStart) && end.CallEnd?
    requires NoneOf(after, IsStart) && NoneOf(after, IsCallEnd)
    ensures var b := Has(Rebuilt(es, parse).value, i);
            && b.Some? && b.value.Call?
            && (b.value.partialJson == Some(Deltas(upTo + [end] + after)) <==>
                HasDelta(after) && Deltas(upTo) == UNDEFINED)
  {
    var rest := upTo + [end] + after;
    RebuildIsLocal(es, i, parse);
    assert Only(es, i) == before + [start] + rest;
    StartForgets(before, start, rest, parse);
    assert [start] + rest == [start] + upTo + [end] + after;
    EndedCallDiffersExactly(start, upTo, end, after, parse);
  }
}
