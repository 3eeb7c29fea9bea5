/** What the records of a run say in terms of its events alone: when a turn asks for another one,
    what its results carry, what the event handler holds, and what a stream leaves behind. */
module AgentRules {
  import opened AgentEvents
  import opened AgentRuns

  // ---------- when a turn asks for another one ----------

  lemma {:induction false} OutcomesAre(es: seq<Event>, o: Outcome)
    ensures o in Outcomes(es) <==> ToolEnd(o) in es
  {
    if es != [] {
      OutcomesAre(es[..|es| - 1], o);
      assert es == es[..|es| - 1] + [es[|es| - 1]];
    }
  }

  lemma OutcomeEnded(t: Turn, o: Outcome)
    requires TurnOk(t) && !Failing(t.final)
    ensures o in t.outcomes <==> ToolEnd(o) in t.batch
  {
    OutcomesAre(t.batch, o);
    assert o in multiset(t.outcomes) <==> o in t.outcomes;
  }

  /** A turn that did not fail asks for another one exactly if it has tool calls and was cut off by
      the token limit, or one of its executions did not ask to terminate. */
  lemma AsksExactly(t: Turn)
    requires TurnOk(t) && !Failing(t.final)
    ensures AsksForMore(t) <==>
            t.final.calls != [] && (t.final.stop == Length || exists o :: ToolEnd(o) in t.batch && !o.terminate)
  {
    forall o ensures o in t.outcomes <==> ToolEnd(o) in t.batch { OutcomeEnded(t, o); }
  }

  /** The next turn follows an answer that did not fail, and brings messages of its own unless that
      answer has tool calls of which some execution did not ask to terminate. */
  lemma FollowsExactly(turns: seq<Turn>, i: nat)
    requires AllOk(turns) && Chained(turns) && 0 < i < |turns|
    ensures var t := turns[i - 1];
            && t.final.stop != Failed && t.final.stop != Aborted
            && (turns[i].injected == [] ==>
                  t.final.calls != [] && (t.final.stop == Length || exists o :: ToolEnd(o) in t.batch && !o.terminate))
  {
    assert MayFollow(turns[i - 1], turns[i]) && TurnOk(turns[i - 1]);
    AsksExactly(turns[i - 1]);
  }

  /** A run breaks off exactly after a failed or aborted answer, and finishes only after an answer
      without tool calls, or one that was not cut off and whose executions all asked to terminate. */
  lemma EndsExactly(last: Turn, end: End)
    requires TurnOk(last) && EndsWell(Some(last), end) && !end.Suspended?
    ensures end.Broken? <==> last.final.stop == Failed || last.final.stop == Aborted
    ensures end.Finished? ==>
              last.final.calls == []
              || (last.final.stop != Length && forall o :: ToolEnd(o) in last.batch ==> o.terminate)
  {
    if end.Finished? { AsksExactly(last); }
  }

  /** What a turn has to be for another one to follow. */
  ghost predicate GoesOn(t: Turn, next: Turn) {
    && t.final.Assistant? && t.final.stop != Failed && t.final.stop != Aborted
    && (next.injected == [] ==>
          t.final.calls != [] && (t.final.stop == Length || exists o :: ToolEnd(o) in t.batch && !o.terminate))
  }

  /** What the last turn of a run that has ended has to be. */
  ghost predicate ComesToEnd(last: Turn, end: End) {
    && last.final.Assistant?
    && (end.Broken? <==> last.final.stop == Failed || last.final.stop == Aborted)
    && (end.Finished? ==>
          || last.final.calls == []
          || (last.final.stop != Length && forall o :: ToolEnd(o) in last.batch ==> o.terminate))
  }

  ghost predicate ByTheRules(turns: seq<Turn>, end: End) {
    && (forall i | 0 < i < |turns| :: GoesOn(turns[i - 1], turns[i]))
    && (!end.Suspended? ==> turns != [] && ComesToEnd(turns[|turns| - 1], end))
  }

  lemma AllGoOn(turns: seq<Turn>)
    requires AllOk(turns) && Chained(turns)
    ensures forall i | 0 < i < |turns| :: GoesOn(turns[i - 1], turns[i])
  {
    forall i | 0 < i < |turns| ensures GoesOn(turns[i - 1], turns[i]) { OneGoesOn(turns, i); }
  }

  lemma OneGoesOn(turns: seq<Turn>, i: nat)
    requires AllOk(turns) && Chained(turns) && 0 < i < |turns|
    ensures GoesOn(turns[i - 1], turns[i])
  {
    FollowsExactly(turns, i);
  }

  lemma LastComesToEnd(last: Turn, end: End)
    requires TurnOk(last) && EndsWell(Some(last), end) && !end.Suspended?
    ensures ComesToEnd(last, end)
  {
    EndsExactly(last, end);
  }

  /** Every run goes on, breaks off and finishes by these rules. */
  lemma RunByTheRules(log: Log, context: seq<Message>, added: seq<Message>, end: End)
    requires LogOk(log, context, added) && EndsWell(log.last, end)
    ensures ByTheRules(log.turns, end)
  {
    AllGoOn(log.turns);
    if !end.Suspended? { LastComesToEnd(log.turns[|log.turns| - 1], end); }
  }

  // ---------- results ----------

  /** The results of a turn answer its calls in order, each with what the end of an execution of
      that call carried. */
  lemma ResultsCarry(t: Turn, i: nat)
    requires TurnOk(t) && !Failing(t.final) && i < |Results(t)|
    ensures
      var m := Results(t)[i];
      && i < |t.final.calls| && m.ToolResult? && m.callId == t.final.calls[i].id
      && exists o :: ToolEnd(o) in t.batch && o.callId == m.callId && o.text == m.text && o.isError == m.isError
  {
    OutcomeEnded(t, t.outcomes[i]);
    ReportedIds(t.batch, i);
    assert Ids(t.final.calls)[..|t.outcomes|][i] == t.final.calls[i].id;
  }

  /** What has been reported so far carries the ids of the calls in the order they were started. */
  lemma ReportedIds(es: seq<Event>, i: nat)
    requires Folded(es).Some? && i < |Folded(es).value.reported|
    ensures var t := Folded(es).value;
            i < |t.started| && t.reported[i].ToolResult? && t.reported[i].callId == t.started[i]
  {
    ReportedInOrder(es);
  }

  ghost predicate InStartOrder(t: Tools) {
    && |t.reported| <= |t.started|
    && (forall k | 0 <= k < |t.reported| :: t.reported[k].ToolResult? && t.reported[k].callId == t.started[k])
    && (t.speaking.Some? ==>
          && |t.reported| < |t.started| && t.speaking.value.ToolResult?
          && t.speaking.value.callId == t.started[|t.reported|])
  }

  lemma {:induction false} ReportedInOrder(es: seq<Event>)
    requires Folded(es).Some?
    ensures InStartOrder(Folded(es).value)
  {
    if es != [] {
      ReportedInOrder(es[..|es| - 1]);
      StepInOrder(Folded(es[..|es| - 1]).value, es[|es| - 1]);
    }
  }

  lemma StepInOrder(t: Tools, e: Event)
    requires InStartOrder(t) && ToolStep(t, e).Some?
    ensures InStartOrder(ToolStep(t, e).value)
  {}

  /** No tool runs for an answer that was cut off: every execution ends with an error. */
  lemma TruncatedRefused(t: Turn, o: Outcome)
    requires TurnOk(t) && t.final.stop == Length && ToolEnd(o) in t.batch
    ensures o.isError && !o.terminate
  {
    OutcomeEnded(t, o);
  }

  /** The last event of a turn carries its answer and these results. */
  lemma TurnCloses(t: Turn)
    ensures TurnEvents(t)[|TurnEvents(t)| - 1] == TurnEnd(t.final, Results(t)) && |Results(t)| == |t.outcomes|
    ensures Pairs(t.injected) + t.speech + t.batch == TurnEvents(t)[..|TurnEvents(t)| - 1]
  {}

  // ---------- the event handler ----------

  /** The last event that starts or ends an execution of the call, if there is one. */
  ghost predicate LastAbout(es: seq<Event>, id: CallId, k: nat) {
    && k < |es| && (es[k] == ToolStart(id) || (es[k].ToolEnd? && es[k].outcome.callId == id))
    && forall j | k < j < |es| :: es[j] != ToolStart(id) && !(es[j].ToolEnd? && es[j].outcome.callId == id)
  }

  ghost predicate Unsettled(s: AgentState, es: seq<Event>, id: CallId) {
    || (exists k: nat :: LastAbout(es, id, k) && es[k].ToolStart?)
    || (id in s.toolCalls && forall k: nat :: !LastAbout(es, id, k))
  }

  lemma UnsettledMore(s: AgentState, es: seq<Event>, e: Event, id: CallId)
    ensures Unsettled(s, es + [e], id)
            <==> e == ToolStart(id) || (Unsettled(s, es, id) && !(e.ToolEnd? && e.outcome.callId == id))
  {
    var more := es + [e];
    if e == ToolStart(id) || (e.ToolEnd? && e.outcome.callId == id) {
      assert LastAbout(more, id, |es|);
      forall k: nat | LastAbout(more, id, k) ensures k == |es| {}
    } else {
      forall k: nat ensures LastAbout(more, id, k) <==> LastAbout(es, id, k) {
        SameLast(es, e, id, k);
      }
    }
  }

  lemma SameLast(es: seq<Event>, e: Event, id: CallId, k: nat)
    requires e != ToolStart(id) && !(e.ToolEnd? && e.outcome.callId == id)
    ensures LastAbout(es + [e], id, k) <==> LastAbout(es, id, k)
  {
    forall j | 0 <= j < |es| ensures (es + [e])[j] == es[j] {}
  }

  /** A call is pending exactly if the last event about its execution is a start, or there is none
      and it was pending before. */
  lemma {:induction false} PendingExactly(s: AgentState, es: seq<Event>, id: CallId)
    ensures id in ReduceAll(s, es).toolCalls <==> Unsettled(s, es, id)
  {
    if es != [] {
      var n := |es| - 1;
      PendingExactly(s, es[..n], id);
      UnsettledMore(s, es[..n], es[n], id);
      assert es == es[..n] + [es[n]];
    }
  }

  /** Whether an event sets or clears the message being streamed. */
  predicate TouchesStream(e: Event) {
    e.MessageStart? || e.MessageUpdate? || e.MessageEnd? || e.AgentEnd?
  }

  /** The message being streamed is that of the last start or update, until the message or the run
      has ended. */
  lemma {:induction false} StreamingExactly(s: AgentState, es: seq<Event>, k: nat)
    requires k < |es| && TouchesStream(es[k]) && forall j | k < j < |es| :: !TouchesStream(es[j])
    ensures ReduceAll(s, es).streaming
            == if es[k].MessageStart? || es[k].MessageUpdate? then Some(es[k].message) else None
  {
    if k < |es| - 1 { StreamingExactly(s, es[..|es| - 1], k); }
  }

  // ---------- what a stream leaves behind ----------

  ghost predicate Goes(stream: seq<StreamEvent>) {
    forall i | 0 <= i < |stream| :: !stream[i].Terminal?
  }

  ghost predicate Begun(stream: seq<StreamEvent>) {
    exists i | 0 <= i < |stream| :: stream[i].Start?
  }

  lemma {:induction false} HearMore(h: Heard, stream: seq<StreamEvent>, e: StreamEvent)
    requires Goes(stream)
    ensures HearAll(h, stream + [e]) == Hear(HearAll(h, stream), e)
    decreases stream
  {
    if stream == [] {
      assert [] + [e] == [e] && [e][1..] == [];
    } else {
      assert (stream + [e])[1..] == stream[1..] + [e];
      HearMore(Hear(h, stream[0]), stream[1..], e);
    }
  }

  /** Once a stream has begun, its partial message is the one of its last event. */
  lemma {:induction false} PartialExactly(stream: seq<StreamEvent>)
    requires Goes(stream)
    ensures HearAll(Quiet, stream).partial
            == if Begun(stream) then Some(stream[|stream| - 1].partial) else None
  {
    if stream != [] {
      var n := |stream| - 1;
      PartialExactly(stream[..n]);
      HearMore(Quiet, stream[..n], stream[n]);
      assert stream == stream[..n] + [stream[n]];
      assert Begun(stream) <==> Begun(stream[..n]) || stream[n].Start?;
    }
  }

  /** A further start leaves the partial message before it in the context and opens a new one; a
      delta replaces the partial message, and is dropped before the first start; nothing is heard
      after a terminal event. */
  lemma HeardExactly(stream: seq<StreamEvent>, m: Message, rest: seq<StreamEvent>)
    requires Goes(stream)
    ensures
      var h, r := HearAll(Quiet, stream), HearAll(Quiet, stream + [Start(m)]);
      && r.events == h.events + [MessageStart(m)]
      && r.stale == h.stale + if Begun(stream) then [stream[|stream| - 1].partial] else []
    ensures
      var h, r := HearAll(Quiet, stream), HearAll(Quiet, stream + [Delta(m)]);
      r.stale == h.stale && r.events == h.events + if Begun(stream) then [MessageUpdate(m)] else []
    ensures HearAll(Quiet, stream + [Terminal] + rest) == HearAll(Quiet, stream)
  {
    HearMore(Quiet, stream, Start(m));
    HearMore(Quiet, stream, Delta(m));
    PartialExactly(stream);
    Stops(Quiet, stream, rest);
  }

  lemma {:induction false} Stops(h: Heard, stream: seq<StreamEvent>, rest: seq<StreamEvent>)
    requires Goes(stream)
    ensures HearAll(h, stream + [Terminal] + rest) == HearAll(h, stream)
    decreases stream
  {
    if stream == [] {
      assert ([] + [Terminal] + rest)[0] == Terminal;
    } else {
      assert (stream + [Terminal] + rest)[1..] == stream[1..] + [Terminal] + rest;
      Stops(Hear(h, stream[0]), stream[1..], rest);
    }
  }
}
