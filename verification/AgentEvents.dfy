/** Messages, events and the shape of a run of the agent loop. */
module AgentEvents {

  type CallId = string

  datatype Option<T> = None | Some(value: T)

  datatype ToolCall = ToolCall(id: CallId, name: string)

  datatype StopReason = Done | ToolUse | Length | Failed | Aborted

  datatype Message =
    | User(text: string)
    | Assistant(text: string, calls: seq<ToolCall>, stop: StopReason)
    | ToolResult(callId: CallId, text: string, isError: bool)

  /** The finalized outcome of one tool call. */
  datatype Outcome = Outcome(callId: CallId, text: string, isError: bool, terminate: bool)

  datatype Event =
    | AgentStart
    | TurnStart
    | MessageStart(message: Message)
    | MessageUpdate(message: Message)
    | MessageEnd(message: Message)
    | ToolStart(callId: CallId)
    | ToolUpdate(callId: CallId)
    | ToolEnd(outcome: Outcome)
    | TurnEnd(message: Message, results: seq<Message>)
    | AgentEnd(messages: seq<Message>)

  /** What a model stream delivers; `Terminal` is its done or error event. */
  datatype StreamEvent = Start(partial: Message) | Delta(partial: Message) | Terminal

  datatype Source = Steering | FollowUps

  function Ids(calls: seq<ToolCall>): (ids: seq<CallId>)
    ensures |ids| == |calls|
    ensures forall i | 0 <= i < |calls| :: ids[i] == calls[i].id
  {
    if calls == [] then [] else Ids(calls[..|calls| - 1]) + [calls[|calls| - 1].id]
  }

  function ToResult(o: Outcome): Message {
    ToolResult(o.callId, o.text, o.isError)
  }

  function ToResults(os: seq<Outcome>): (ms: seq<Message>)
    ensures |ms| == |os|
    ensures forall i | 0 <= i < |os| :: ms[i] == ToResult(os[i])
  {
    if os == [] then [] else ToResults(os[..|os| - 1]) + [ToResult(os[|os| - 1])]
  }

  // ---------- what an event list says ----------

  /** The messages that have ended. */
  function Ended(es: seq<Event>): seq<Message> {
    if es == [] then []
    else
      var e := es[|es| - 1];
      Ended(es[..|es| - 1]) + if e.MessageEnd? then [e.message] else []
  }

  lemma {:induction false} EndedConcat(xs: seq<Event>, ys: seq<Event>)
    ensures Ended(xs + ys) == Ended(xs) + Ended(ys)
  {
    if ys == [] {
      assert xs + ys == xs;
    } else {
      var n := |ys| - 1;
      EndedConcat(xs, ys[..n]);
      assert (xs + ys)[..|xs + ys| - 1] == xs + ys[..n];
      assert (xs + ys)[|xs + ys| - 1] == ys[n];
    }
  }

  /** The state of an agent as its event handler keeps it. */
  datatype AgentState = AgentState(messages: seq<Message>, streaming: Option<Message>, toolCalls: set<CallId>)

  function Reduced(s: AgentState, e: Event): AgentState {
    match e
    case MessageStart(m) => s.(streaming := Some(m))
    case MessageUpdate(m) => s.(streaming := Some(m))
    case MessageEnd(m) => s.(streaming := None, messages := s.messages + [m])
    case ToolStart(id) => s.(toolCalls := s.toolCalls + {id})
    case ToolEnd(o) => s.(toolCalls := s.toolCalls - {o.callId})
    case AgentEnd(_) => s.(streaming := None)
    case _ => s
  }

  function ReduceAll(s: AgentState, es: seq<Event>): AgentState {
    if es == [] then s else Reduced(ReduceAll(s, es[..|es| - 1]), es[|es| - 1])
  }

  /** The transcript kept by the event handler grows by exactly the messages that ended. */
  lemma {:induction false} ReducedMessages(s: AgentState, es: seq<Event>)
    ensures ReduceAll(s, es).messages == s.messages + Ended(es)
  {
    if es != [] { ReducedMessages(s, es[..|es| - 1]); }
  }

  // ---------- model streams ----------

  /** What a stream has led to: partial messages left behind by the starts before the last one,
      the partial message of the last start, and the events emitted. */
  datatype Heard = Heard(stale: seq<Message>, partial: Option<Message>, events: seq<Event>)

  const Quiet := Heard([], None, [])

  function Hear(h: Heard, e: StreamEvent): Heard {
    match e
    case Start(m) =>
      Heard(h.stale + (if h.partial.Some? then [h.partial.value] else []), Some(m), h.events + [MessageStart(m)])
    case Delta(m) =>
      if h.partial.None? then h else h.(partial := Some(m), events := h.events + [MessageUpdate(m)])
    case Terminal => h
  }

  /** The loop over the stream stops at the first terminal event. */
  function HearAll(h: Heard, stream: seq<StreamEvent>): Heard
    decreases stream
  {
    if stream == [] || stream[0].Terminal? then h else HearAll(Hear(h, stream[0]), stream[1..])
  }

  function InContext(h: Heard): seq<Message> {
    h.stale + if h.partial.Some? then [h.partial.value] else []
  }

  function Spoken(h: Heard, final: Message): seq<Event> {
    h.events + (if h.partial.None? then [MessageStart(final)] else []) + [MessageEnd(final)]
  }

  function StartsBeforeTerminal(stream: seq<StreamEvent>): nat {
    if stream == [] || stream[0].Terminal? then 0
    else (if stream[0].Start? then 1 else 0) + StartsBeforeTerminal(stream[1..])
  }

  function StartCount(es: seq<Event>): nat {
    if es == [] then 0 else StartCount(es[..|es| - 1]) + if es[|es| - 1].MessageStart? then 1 else 0
  }

  ghost predicate HeardOk(h: Heard) {
    && (h.partial.None? <==> h.events == [])
    && (h.events != [] ==> h.events[0].MessageStart?)
    && (forall i | 0 <= i < |h.events| :: h.events[i].MessageStart? || h.events[i].MessageUpdate?)
    && StartCount(h.events) == |h.stale| + if h.partial.Some? then 1 else 0
  }

  lemma CountMore(es: seq<Event>, e: Event)
    ensures StartCount(es + [e]) == StartCount(es) + if e.MessageStart? then 1 else 0
  {
    assert (es + [e])[..|es|] == es;
  }

  lemma HearOk(h: Heard, e: StreamEvent)
    requires HeardOk(h)
    ensures HeardOk(Hear(h, e))
    ensures StartCount(Hear(h, e).events) == StartCount(h.events) + if e.Start? then 1 else 0
  {
    match e
    case Start(m) => CountMore(h.events, MessageStart(m));
    case Delta(m) => CountMore(h.events, MessageUpdate(m));
    case Terminal =>
  }

  lemma {:induction false} HearAllOk(h: Heard, stream: seq<StreamEvent>)
    requires HeardOk(h)
    ensures HeardOk(HearAll(h, stream))
    ensures StartCount(HearAll(h, stream).events) == StartCount(h.events) + StartsBeforeTerminal(stream)
    decreases stream
  {
    if stream != [] && !stream[0].Terminal? {
      HearOk(h, stream[0]);
      HearAllOk(Hear(h, stream[0]), stream[1..]);
    }
  }

  /** A start, then starts and updates, then the end of the final message. */
  ghost predicate SpeechOk(speech: seq<Event>, final: Message) {
    && |speech| >= 2 && speech[0].MessageStart? && speech[|speech| - 1] == MessageEnd(final)
    && forall i | 0 <= i < |speech| - 1 :: speech[i].MessageStart? || speech[i].MessageUpdate?
  }

  /** An answer is one start, updates and one end exactly if its stream has at most one start;
      otherwise every further start opens another message and leaves one in the context. */
  lemma SpokenOk(stream: seq<StreamEvent>, final: Message)
    ensures var h := HearAll(Quiet, stream);
            && SpeechOk(Spoken(h, final), final)
            && StartCount(Spoken(h, final)) == 1 + |h.stale|
            && (h.stale == [] <==> StartsBeforeTerminal(stream) <= 1)
  {
    HearAllOk(Quiet, stream);
    var h := HearAll(Quiet, stream);
    if h.partial.None? {
      assert Spoken(h, final) == [MessageStart(final)] + [MessageEnd(final)];
      CountMore([], MessageStart(final));
      CountMore([MessageStart(final)], MessageEnd(final));
    } else {
      assert Spoken(h, final) == h.events + [MessageEnd(final)];
      CountMore(h.events, MessageEnd(final));
    }
  }

  /** Concretely: after two starts the first partial message stays in the context and two messages
      have been started for one that ends. */
  lemma TwoStarts(a: Message, b: Message, final: Message)
    ensures var h := HearAll(Quiet, [Start(a), Start(b), Terminal]);
            && h.stale == [a]
            && Spoken(h, final) == [MessageStart(a), MessageStart(b), MessageEnd(final)]
  {
    var stream := [Start(a), Start(b), Terminal];
    assert stream[1..] == [Start(b), Terminal] && stream[1..][1..] == [Terminal];
    var h1 := Hear(Quiet, Start(a));
    var h2 := Hear(h1, Start(b));
    assert HearAll(h2, [Terminal]) == h2;
    assert HearAll(h1, [Start(b), Terminal]) == h2;
  }

  // ---------- tool batches ----------

  /** Started calls, executions under way, finished but unreported results, reported results. */
  datatype Tools = Tools(
    started: seq<CallId>,
    open: multiset<CallId>,
    finished: multiset<Message>,
    reported: seq<Message>,
    speaking: Option<Message>)

  /** A result is reported only while no execution is under way, in the order of the starts, and
      carries what the end of an execution carried. */
  function ToolStep(t: Tools, e: Event): Option<Tools> {
    match e
    case ToolStart(id) =>
      if t.speaking.Some? then None else Some(t.(started := t.started + [id], open := t.open + multiset{id}))
    case ToolUpdate(id) =>
      if t.speaking.None? && id in t.open then Some(t) else None
    case ToolEnd(o) =>
      if t.speaking.None? && o.callId in t.open
      then Some(t.(open := t.open - multiset{o.callId}, finished := t.finished + multiset{ToResult(o)}))
      else None
    case MessageStart(m) =>
      if t.speaking.None? && t.open == multiset{} && m in t.finished
        && |t.reported| < |t.started| && m.ToolResult? && m.callId == t.started[|t.reported|]
      then Some(t.(speaking := Some(m)))
      else None
    case MessageEnd(m) =>
      if t.speaking == Some(m) && m in t.finished
      then Some(t.(speaking := None, finished := t.finished - multiset{m}, reported := t.reported + [m]))
      else None
    case _ => None
  }

  const Fresh := Tools([], multiset{}, multiset{}, [], None)

  function Folded(es: seq<Event>): Option<Tools> {
    if es == [] then Some(Fresh)
    else
      match Folded(es[..|es| - 1])
      case None => None
      case Some(t) => ToolStep(t, es[|es| - 1])
  }

  lemma {:induction false} FoldedReports(es: seq<Event>)
    requires Folded(es).Some?
    ensures Ended(es) == Folded(es).value.reported
  {
    if es != [] { FoldedReports(es[..|es| - 1]); }
  }

  /** The handler's set of pending tool calls is within the executions under way. */
  lemma {:induction false} PendingAreOpen(s: AgentState, es: seq<Event>)
    requires Folded(es).Some? && s.toolCalls == {}
    ensures forall id | id in ReduceAll(s, es).toolCalls :: id in Folded(es).value.open
  {
    if es != [] {
      var n := |es| - 1;
      PendingAreOpen(s, es[..n]);
      PendingStep(ReduceAll(s, es[..n]), Folded(es[..n]).value, es[n]);
    }
  }

  lemma PendingStep(s: AgentState, t: Tools, e: Event)
    requires (forall id | id in s.toolCalls :: id in t.open) && ToolStep(t, e).Some?
    ensures forall id | id in Reduced(s, e).toolCalls :: id in ToolStep(t, e).value.open
  {}

  /** The outcomes of the executions that have ended. */
  function Outcomes(es: seq<Event>): multiset<Outcome> {
    if es == [] then multiset{}
    else
      var e := es[|es| - 1];
      Outcomes(es[..|es| - 1]) + if e.ToolEnd? then multiset{e.outcome} else multiset{}
  }

  lemma BatchMore(es: seq<Event>, e: Event)
    ensures Folded(es + [e]) == match Folded(es) case None => None case Some(t) => ToolStep(t, e)
    ensures Outcomes(es + [e]) == Outcomes(es) + if e.ToolEnd? then multiset{e.outcome} else multiset{}
  {
    assert (es + [e])[..|es|] == es;
  }

  /** The first `n` calls have been answered and nothing else is under way. */
  function Answered(calls: seq<ToolCall>, n: nat, results: seq<Message>): Tools
    requires n <= |calls|
  {
    Tools(Ids(calls)[..n], multiset{}, multiset{}, results, None)
  }

  /** Reporting the next result of a batch in which no execution is under way. */
  lemma ReportOne(es: seq<Event>, t: Tools, m: Message)
    requires Folded(es) == Some(t) && t.speaking.None? && t.open == multiset{} && m in t.finished
    requires |t.reported| < |t.started| && m.ToolResult? && m.callId == t.started[|t.reported|]
    ensures Folded(es + [MessageStart(m)] + [MessageEnd(m)])
            == Some(t.(finished := t.finished - multiset{m}, reported := t.reported + [m]))
    ensures Outcomes(es + [MessageStart(m)] + [MessageEnd(m)]) == Outcomes(es)
  {
    BatchMore(es, MessageStart(m));
    BatchMore(es + [MessageStart(m)], MessageEnd(m));
  }

  predicate ShouldTerminate(outcomes: seq<Outcome>) {
    outcomes != [] && forall o | o in outcomes :: o.terminate
  }

  // ---------- turns ----------

  /** `stream` is what the model delivered, `speech` the events it led to, and `stale` are partial
      messages a stream with several starts leaves in the context. */
  datatype Turn = Turn(
    source: Source,
    injected: seq<Message>,
    stream: seq<StreamEvent>,
    speech: seq<Event>,
    stale: seq<Message>,
    final: Message,
    batch: seq<Event>,
    outcomes: seq<Outcome>,
    aborted: bool)

  function Pairs(ms: seq<Message>): seq<Event> {
    if ms == [] then []
    else Pairs(ms[..|ms| - 1]) + [MessageStart(ms[|ms| - 1]), MessageEnd(ms[|ms| - 1])]
  }

  lemma PairsMore(ms: seq<Message>, m: Message)
    ensures Pairs(ms + [m]) == Pairs(ms) + [MessageStart(m), MessageEnd(m)]
  {
    assert (ms + [m])[..|ms|] == ms;
  }

  lemma {:induction false} EndedPairs(ms: seq<Message>)
    ensures Ended(Pairs(ms)) == ms
  {
    if ms != [] {
      var m := ms[|ms| - 1];
      EndedPairs(ms[..|ms| - 1]);
      EndedConcat(Pairs(ms[..|ms| - 1]), [MessageStart(m), MessageEnd(m)]);
      assert [MessageStart(m), MessageEnd(m)][..1] == [MessageStart(m)];
      assert Ended([MessageStart(m), MessageEnd(m)]) == Ended([MessageStart(m)]) + [m];
    }
  }

  lemma {:induction false} NothingEnded(es: seq<Event>)
    requires forall i | 0 <= i < |es| :: !es[i].MessageEnd?
    ensures Ended(es) == []
  {
    if es != [] { NothingEnded(es[..|es| - 1]); }
  }

  predicate Failing(final: Message)
    requires final.Assistant?
  {
    final.stop == Failed || final.stop == Aborted
  }

  /** What an answer says, and what it leaves behind, is what its stream led to. */
  ghost predicate Spoke(stream: seq<StreamEvent>, speech: seq<Event>, stale: seq<Message>, final: Message) {
    && speech == Spoken(HearAll(Quiet, stream), final) && stale == HearAll(Quiet, stream).stale
    && SpeechOk(speech, final) && StartCount(speech) == 1 + |stale|
  }

  /** One well-formed block.  Unless the answer failed, the results answer a prefix of the tool
      calls of the answer, in order: all of them, or after an abort at least the first. */
  ghost predicate TurnOk(t: Turn) {
    && t.final.Assistant?
    && Spoke(t.stream, t.speech, t.stale, t.final)
    && if Failing(t.final) then t.batch == [] && t.outcomes == [] else BatchOk(t.final, t.batch, t.outcomes, t.aborted)
  }

  ghost predicate BatchOk(final: Message, batch: seq<Event>, outcomes: seq<Outcome>, aborted: bool)
    requires final.Assistant?
  {
    && |outcomes| <= |final.calls|
    && (outcomes == [] <==> final.calls == [])
    && (|outcomes| < |final.calls| ==> aborted && final.stop != Length)
    && Folded(batch) == Some(Answered(final.calls, |outcomes|, ToResults(outcomes)))
    && Outcomes(batch) == multiset(outcomes)
    && (final.stop == Length ==> forall o | o in outcomes :: o.isError && !o.terminate)
  }

  function Results(t: Turn): seq<Message> {
    ToResults(t.outcomes)
  }

  /** The tool calls of a turn ask for another one. */
  predicate AsksForMore(t: Turn)
    requires t.final.Assistant?
  {
    t.final.calls != [] && (t.final.stop == Length || !ShouldTerminate(t.outcomes))
  }

  function TurnEvents(t: Turn): seq<Event> {
    Pairs(t.injected) + t.speech + t.batch + [TurnEnd(t.final, Results(t))]
  }

  /** What a turn adds to the list of new messages, and what it adds to the model's context. */
  function Added(t: Turn): seq<Message> {
    t.injected + [t.final] + Results(t)
  }

  function Grown(t: Turn): seq<Message> {
    t.injected + t.stale + [t.final] + Results(t)
  }

  lemma TurnEnded(t: Turn)
    requires TurnOk(t)
    ensures Ended(TurnEvents(t)) == Added(t)
  {
    var n := |t.speech| - 1;
    EndedPairs(t.injected);
    NothingEnded(t.speech[..n]);
    assert Ended(t.speech) == [t.final];
    FoldedReports(t.batch);
    assert Ended(t.batch) == Results(t);
    var close := [TurnEnd(t.final, Results(t))];
    NothingEnded(close);
    EndedConcat(Pairs(t.injected), t.speech);
    EndedConcat(Pairs(t.injected) + t.speech, t.batch);
    EndedConcat(Pairs(t.injected) + t.speech + t.batch, close);
  }

  /** The events of a run between its opening and its end: the first turn was opened before. */
  function Body(turns: seq<Turn>): seq<Event> {
    if turns == [] then []
    else
      Body(turns[..|turns| - 1])
      + (if |turns| == 1 then [] else [TurnStart])
      + TurnEvents(turns[|turns| - 1])
  }

  function AllAdded(turns: seq<Turn>): seq<Message> {
    if turns == [] then [] else AllAdded(turns[..|turns| - 1]) + Added(turns[|turns| - 1])
  }

  function AllGrown(turns: seq<Turn>): seq<Message> {
    if turns == [] then [] else AllGrown(turns[..|turns| - 1]) + Grown(turns[|turns| - 1])
  }

  /** The messages that the turns took from one of the two queues. */
  function Injected(turns: seq<Turn>, source: Source): seq<Message> {
    if turns == [] then []
    else
      var t := turns[|turns| - 1];
      Injected(turns[..|turns| - 1], source) + if t.source == source then t.injected else []
  }

  lemma MoreTurns(turns: seq<Turn>, t: Turn)
    ensures Body(turns + [t]) == Body(turns) + (if turns == [] then [] else [TurnStart]) + TurnEvents(t)
    ensures AllAdded(turns + [t]) == AllAdded(turns) + Added(t)
    ensures AllGrown(turns + [t]) == AllGrown(turns) + Grown(t)
    ensures forall s :: Injected(turns + [t], s) == Injected(turns, s) + if t.source == s then t.injected else []
  {
    assert (turns + [t])[..|turns|] == turns;
  }

  lemma BodyStep(turns: seq<Turn>)
    requires turns != []
    ensures Ended(Body(turns)) == Ended(Body(turns[..|turns| - 1])) + Ended(TurnEvents(turns[|turns| - 1]))
  {
    var n := |turns| - 1;
    var open := if |turns| == 1 then [] else [TurnStart];
    NothingEnded(open);
    EndedConcat(Body(turns[..n]), open);
    EndedConcat(Body(turns[..n]) + open, TurnEvents(turns[n]));
  }

  ghost predicate AllOk(turns: seq<Turn>) {
    forall i | 0 <= i < |turns| :: TurnOk(turns[i])
  }

  lemma {:induction false} BodyEnded(turns: seq<Turn>)
    requires AllOk(turns)
    ensures Ended(Body(turns)) == AllAdded(turns)
  {
    if turns != [] {
      BodyEnded(turns[..|turns| - 1]);
      TurnEnded(turns[|turns| - 1]);
      BodyStep(turns);
    }
  }

  /** No stream of the run starts a second message before its terminal event. */
  ghost predicate OneStartEach(turns: seq<Turn>) {
    forall t | t in turns :: StartsBeforeTerminal(t.stream) <= 1
  }

  /** How many partial messages the turns have left behind. */
  function StaleCount(turns: seq<Turn>): nat {
    if turns == [] then 0 else StaleCount(turns[..|turns| - 1]) + |turns[|turns| - 1].stale|
  }

  lemma {:induction false} GrownLength(turns: seq<Turn>)
    ensures |AllGrown(turns)| == |AllAdded(turns)| + StaleCount(turns)
  {
    if turns != [] { GrownLength(turns[..|turns| - 1]); }
  }

  lemma {:induction false} NoneStale(turns: seq<Turn>)
    ensures StaleCount(turns) == 0 <==> forall i | 0 <= i < |turns| :: turns[i].stale == []
  {
    if turns != [] {
      var n := |turns| - 1;
      NoneStale(turns[..n]);
      assert forall i | 0 <= i < n :: turns[..n][i] == turns[i];
    }
  }

  lemma OneStartIndexed(turns: seq<Turn>)
    ensures OneStartEach(turns) <==> forall i | 0 <= i < |turns| :: StartsBeforeTerminal(turns[i].stream) <= 1
  {
    assert forall i | 0 <= i < |turns| :: turns[i] in turns;
  }

  /** Nothing has been left behind exactly if no stream had a second start. */
  lemma StaleExactly(turns: seq<Turn>)
    requires AllOk(turns)
    ensures StaleCount(turns) == 0 <==> OneStartEach(turns)
  {
    NoneStale(turns);
    OneStartIndexed(turns);
    forall i | 0 <= i < |turns| ensures turns[i].stale == [] <==> StartsBeforeTerminal(turns[i].stream) <= 1 {
      GrownByTurn(turns[i]);
    }
  }

  lemma {:induction false} GrownAlike(turns: seq<Turn>)
    requires forall i | 0 <= i < |turns| :: turns[i].stale == []
    ensures AllGrown(turns) == AllAdded(turns)
  {
    if turns != [] {
      var n := |turns| - 1;
      GrownAlike(turns[..n]);
      assert turns[n].injected + turns[n].stale == turns[n].injected;
    }
  }

  /** An answer leaves something behind exactly if its stream has a second start. */
  lemma GrownByTurn(t: Turn)
    requires TurnOk(t)
    ensures StartsBeforeTerminal(t.stream) <= 1 <==> t.stale == []
  {
    SpokenOk(t.stream, t.final);
  }

  /** The model's context and the list of new messages agree exactly if no stream of the run had
      more than one start before its terminal event. */
  lemma ContextAgreesExactly(base: seq<Message>, turns: seq<Turn>)
    requires AllOk(turns)
    ensures base + AllGrown(turns) == base + AllAdded(turns) <==> OneStartEach(turns)
  {
    GrownLength(turns);
    StaleExactly(turns);
    NoneStale(turns);
    if OneStartEach(turns) { GrownAlike(turns); }
    assert |base + AllGrown(turns)| == |base| + |AllGrown(turns)|;
    assert |base + AllAdded(turns)| == |base| + |AllAdded(turns)|;
  }
}
