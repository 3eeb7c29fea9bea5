/** What the record of a run says: the turns, and the three transcripts they lead to. */
module AgentRuns {
  import opened AgentEvents

  /** A turn follows another only if that one did not fail, and without injected messages only if
      its tool calls ask for more. */
  ghost predicate MayFollow(t: Turn, u: Turn) {
    t.final.Assistant? && !Failing(t.final) && (u.injected == [] ==> AsksForMore(t))
  }

  ghost predicate Chained(turns: seq<Turn>) {
    forall i | 0 < i < |turns| :: MayFollow(turns[i - 1], turns[i])
  }

  /** The turns so far and the last of them; what the first turn injects; since turn `since` the
      model's context has grown from `start`. */
  datatype Log = Log(turns: seq<Turn>, last: Option<Turn>, opening: seq<Message>, start: seq<Message>, since: nat)

  function Extended(log: Log, t: Turn): Log {
    log.(turns := log.turns + [t], last := Some(t))
  }

  ghost predicate TurnsOk(turns: seq<Turn>, last: Option<Turn>, opening: seq<Message>, added: seq<Message>) {
    && AllOk(turns) && Chained(turns)
    && (turns != [] ==> turns[0].injected == opening)
    && last == (if turns == [] then None else Some(turns[|turns| - 1]))
    && added == AllAdded(turns)
  }

  ghost predicate LogOk(log: Log, context: seq<Message>, added: seq<Message>) {
    && TurnsOk(log.turns, log.last, log.opening, added)
    && log.since <= |log.turns|
    && context == log.start + AllGrown(log.turns[log.since..])
  }

  ghost predicate Ready(last: Option<Turn>, injected: seq<Message>) {
    last.Some? ==>
      && last.value.final.Assistant? && !Failing(last.value.final)
      && (injected == [] ==> AsksForMore(last.value))
  }

  lemma GrownMore(start: seq<Message>, turns: seq<Turn>, since: nat, t: Turn)
    requires since <= |turns|
    ensures start + AllGrown((turns + [t])[since..]) == start + AllGrown(turns[since..]) + Grown(t)
  {
    MoreTurns(turns[since..], t);
    assert (turns + [t])[since..] == turns[since..] + [t];
  }

  lemma ChainMore(turns: seq<Turn>, last: Option<Turn>, t: Turn)
    requires last == if turns == [] then None else Some(turns[|turns| - 1])
    requires Chained(turns) && Ready(last, t.injected)
    ensures Chained(turns + [t])
  {
    var more := turns + [t];
    forall i | 0 < i < |more| ensures MayFollow(more[i - 1], more[i]) {
      if i < |turns| { assert MayFollow(turns[i - 1], turns[i]); }
    }
  }

  lemma OkMore(turns: seq<Turn>, t: Turn)
    requires AllOk(turns) && TurnOk(t)
    ensures AllOk(turns + [t])
  {}

  lemma LogMore(log: Log, context: seq<Message>, added: seq<Message>, t: Turn)
    requires LogOk(log, context, added) && TurnOk(t) && Ready(log.last, t.injected)
    requires log.turns == [] ==> t.injected == log.opening
    ensures LogOk(Extended(log, t), context + Grown(t), added + Added(t))
  {
    GrownMore(log.start, log.turns, log.since, t);
    assert AllOk(log.turns + [t]) by { OkMore(log.turns, t); }
    assert Chained(log.turns + [t]) by { ChainMore(log.turns, log.last, t); }
    assert added + Added(t) == AllAdded(log.turns + [t]) by { MoreTurns(log.turns, t); }
  }

  lemma LogReplaced(log: Log, context: seq<Message>, added: seq<Message>, replacement: seq<Message>)
    requires LogOk(log, context, added)
    ensures LogOk(log.(start := replacement, since := |log.turns|), replacement, added)
  {
    GrownSinceNow(log.turns, replacement);
  }

  lemma GrownSinceNow(turns: seq<Turn>, start: seq<Message>)
    ensures start + AllGrown(turns[|turns|..]) == start
  {
    assert turns[|turns|..] == [];
  }

  /** The messages that were taken from the queues, apart from those not injected yet. */
  function TakenBy(turns: seq<Turn>, source: Source, from: Source, pending: seq<Message>): seq<Message> {
    Injected(turns, source) + if from == source then pending else []
  }

  ghost predicate AtMostOne(turns: seq<Turn>, source: Source) {
    forall i | 0 <= i < |turns| && turns[i].source == source :: |turns[i].injected| <= 1
  }

  lemma TakenMore(turns: seq<Turn>, t: Turn, source: Source)
    ensures TakenBy(turns + [t], source, Steering, []) == TakenBy(turns, source, t.source, t.injected)
    ensures AtMostOne(turns, source) && (t.source == source ==> |t.injected| <= 1) ==> AtMostOne(turns + [t], source)
  {
    MoreTurns(turns, t);
  }

  lemma BodyMore(origin: seq<Event>, turns: seq<Turn>, t: Turn)
    ensures origin + Body(turns + [t])
            == origin + Body(turns) + (if turns == [] then [] else [TurnStart]) + TurnEvents(t)
  {
    MoreTurns(turns, t);
    Regrouped(origin, Body(turns), if turns == [] then [] else [TurnStart], TurnEvents(t));
  }

  lemma Regrouped(a: seq<Event>, b: seq<Event>, c: seq<Event>, d: seq<Event>)
    ensures a + (b + c + d) == a + b + c + d
  {}

  /** Why a run ended; `Suspended` is a run looked at between two of its turns. */
  datatype End = Broken | Stopped | Finished | Suspended

  /** A run breaks off exactly after a failed answer and finishes only when its last tool calls
      ask for no more. */
  ghost predicate EndsWell(last: Option<Turn>, end: End) {
    end.Suspended? ||
    (last.Some? && last.value.final.Assistant?
     && (end.Broken? <==> Failing(last.value.final)) && (end.Finished? ==> !AsksForMore(last.value)))
  }

  /** The opening of a run. */
  function Opening(prompts: seq<Message>): seq<Event> {
    [AgentStart, TurnStart] + Pairs(prompts)
  }

  lemma OpeningEnded(prompts: seq<Message>)
    ensures Ended(Opening(prompts)) == prompts
  {
    EndedPairs(prompts);
    NothingEnded([AgentStart, TurnStart]);
    EndedConcat([AgentStart, TurnStart], Pairs(prompts));
  }

  lemma RunEnded(prompts: seq<Message>, turns: seq<Turn>, close: seq<Event>)
    requires Ended(Body(turns)) == AllAdded(turns) && Ended(close) == []
    ensures Ended(Opening(prompts) + Body(turns) + close) == prompts + AllAdded(turns)
  {
    OpeningEnded(prompts);
    EndedConcat(Opening(prompts), Body(turns));
    EndedConcat(Opening(prompts) + Body(turns), close);
  }

  /** The event handler's transcript after a run is the old one and the new messages. */
  lemma HandlerAgrees(s: AgentState, prompts: seq<Message>, turns: seq<Turn>, close: seq<Event>)
    requires AllOk(turns) && Ended(close) == []
    ensures ReduceAll(s, Opening(prompts) + Body(turns) + close).messages == s.messages + (prompts + AllAdded(turns))
  {
    BodyEnded(turns);
    RunEnded(prompts, turns, close);
    ReducedMessages(s, Opening(prompts) + Body(turns) + close);
  }

  lemma {:induction false} ReduceConcat(s: AgentState, xs: seq<Event>, ys: seq<Event>)
    ensures ReduceAll(s, xs + ys) == ReduceAll(ReduceAll(s, xs), ys)
  {
    if ys == [] {
      assert xs + ys == xs;
    } else {
      var n := |ys| - 1;
      ReduceConcat(s, xs, ys[..n]);
      assert (xs + ys)[..|xs + ys| - 1] == xs + ys[..n];
    }
  }

  // ---------- pending tool calls ----------

  predicate NoTools(es: seq<Event>) {
    forall i | 0 <= i < |es| :: !es[i].ToolStart? && !es[i].ToolEnd?
  }

  lemma {:induction false} NoToolsKeeps(s: AgentState, es: seq<Event>)
    requires NoTools(es)
    ensures ReduceAll(s, es).toolCalls == s.toolCalls
  {
    if es != [] { NoToolsKeeps(s, es[..|es| - 1]); }
  }

  lemma {:induction false} PairsNoTools(ms: seq<Message>)
    ensures NoTools(Pairs(ms))
  {
    if ms != [] { PairsNoTools(ms[..|ms| - 1]); }
  }

  lemma BatchSettles(s: AgentState, t: Turn)
    requires TurnOk(t) && s.toolCalls == {}
    ensures ReduceAll(s, t.batch).toolCalls == {}
  {
    PendingAreOpen(s, t.batch);
    if Failing(t.final) {
      assert t.batch == [];
    } else {
      assert Folded(t.batch).value.open == multiset{};
    }
  }

  /** At the end of every turn the event handler has no pending tool call left. */
  lemma TurnSettles(s: AgentState, t: Turn)
    requires TurnOk(t) && s.toolCalls == {}
    ensures ReduceAll(s, TurnEvents(t)).toolCalls == {}
  {
    var close := [TurnEnd(t.final, Results(t))];
    PairsNoTools(t.injected);
    NoToolsKeeps(s, Pairs(t.injected));
    var s1 := ReduceAll(s, Pairs(t.injected));
    NoToolsKeeps(s1, t.speech);
    var s2 := ReduceAll(s1, t.speech);
    BatchSettles(s2, t);
    NoToolsKeeps(ReduceAll(s2, t.batch), close);
    ReduceConcat(s, Pairs(t.injected), t.speech);
    ReduceConcat(s, Pairs(t.injected) + t.speech, t.batch);
    ReduceConcat(s, Pairs(t.injected) + t.speech + t.batch, close);
  }

  lemma BodySettles(s: AgentState, turns: seq<Turn>)
    requires turns != [] && TurnOk(turns[|turns| - 1])
    requires ReduceAll(s, Body(turns[..|turns| - 1])).toolCalls == {}
    ensures ReduceAll(s, Body(turns)).toolCalls == {}
  {
    var before := Body(turns[..|turns| - 1]);
    var open := if |turns| == 1 then [] else [TurnStart];
    var s1 := ReduceAll(s, before);
    NoToolsKeeps(s1, open);
    TurnSettles(ReduceAll(s1, open), turns[|turns| - 1]);
    ReduceConcat(s, before, open);
    ReduceConcat(s, before + open, TurnEvents(turns[|turns| - 1]));
  }

  lemma {:induction false} RunSettles(s: AgentState, turns: seq<Turn>)
    requires AllOk(turns) && s.toolCalls == {}
    ensures ReduceAll(s, Body(turns)).toolCalls == {}
  {
    if turns != [] {
      RunSettles(s, turns[..|turns| - 1]);
      BodySettles(s, turns);
    }
  }
}
