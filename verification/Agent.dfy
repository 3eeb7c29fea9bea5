/** The agent with its queues and the loop that runs its turns.

    The rest of the world acts at every await: it may queue messages and may abort.  Model
    streams, tool outcomes, the callbacks of the configuration are chosen arbitrarily. */
module AgentImplementation {
  import opened AgentEvents
  import opened ToolBatch
  import opened AgentRuns
  import opened AgentRules

  datatype QueueMode = All | OneAtATime

  class PendingMessageQueue {
    const mode: QueueMode
    var messages: seq<Message>
    ghost var enqueued: seq<Message>
    ghost var taken: seq<Message>

    /** Nothing is lost, duplicated or reordered. */
    ghost predicate Valid()
      reads this
    {
      enqueued == taken + messages
    }

    constructor (mode: QueueMode)
      ensures Valid() && this.mode == mode && enqueued == taken == []
    {
      this.mode := mode;
      messages := [];
      enqueued, taken := [], [];
    }

    method Enqueue(m: Message)
      requires Valid()
      modifies this
      ensures Valid() && taken == old(taken)
      ensures messages == old(messages) + [m] && enqueued == old(enqueued) + [m]
    {
      messages := messages + [m];
      enqueued := enqueued + [m];
    }

    method Drain() returns (drained: seq<Message>)
      requires Valid()
      modifies this
      ensures Valid() && taken == old(taken) + drained && enqueued == old(enqueued)
      ensures mode == All ==> messages == []
      ensures mode == OneAtATime ==> |drained| <= 1
      ensures drained == [] <==> old(messages) == []
    {
      if mode == All {
        drained := messages;
        messages := [];
      } else if messages == [] {
        drained := [];
      } else {
        drained := [messages[0]];
        messages := messages[1..];
      }
      taken := taken + drained;
    }
  }

  class Agent {
    const steering: PendingMessageQueue
    const followUps: PendingMessageQueue
    var state: AgentState
    var active: bool
    var aborted: bool
    var skipPoll: bool
    ghost var base: AgentState
    ghost var events: seq<Event>

    /** The event handler has seen every event since the state was `base`. */
    ghost predicate Valid()
      reads this, steering, followUps
    {
      steering != followUps && steering.Valid() && followUps.Valid() && state == ReduceAll(base, events)
    }

    constructor (steeringMode: QueueMode, followUpMode: QueueMode, messages: seq<Message>)
      ensures Valid() && fresh(steering) && fresh(followUps) && !active
      ensures state == AgentState(messages, None, {})
      ensures steering.mode == steeringMode && followUps.mode == followUpMode
    {
      steering := new PendingMessageQueue(steeringMode);
      followUps := new PendingMessageQueue(followUpMode);
      state := AgentState(messages, None, {});
      active, aborted, skipPoll := false, false, false;
      base, events := AgentState(messages, None, {}), [];
    }

    /** What waiting may change: messages are queued and the run may be aborted. */
    twostate predicate Waited()
      reads this, steering, followUps
    {
      && Valid() && base == old(base) && skipPoll == old(skipPoll) && active == old(active)
      && (old(aborted) ==> aborted)
      && steering.taken == old(steering.taken) && followUps.taken == old(followUps.taken)
    }

    method Wait()
      requires Valid()
      modifies this`aborted, steering, followUps
      ensures Waited()
    {
      var arriving: int := *;
      while arriving > 0
        invariant Waited()
      {
        arriving := arriving - 1;
        var message: Message := *;
        var steers: bool := *;
        if steers { steering.Enqueue(message); } else { followUps.Enqueue(message); }
      }
      var aborts: bool := *;
      aborted := aborted || aborts;
    }

    /** Handles an event and awaits the listeners. */
    method Emit(e: Event)
      requires Valid()
      modifies this`state, this`events, this`aborted, steering, followUps
      ensures Waited() && events == old(events) + [e]
    {
      state := Reduced(state, e);
      events := events + [e];
      assert events[..|events| - 1] == old(events);
      Wait();
    }

    // ---------- one model answer ----------

    /** One stream event before the end: `grown` is the context so far. */
    method HearEvent(grown: seq<Message>, ghost context: seq<Message>, h: Heard, e: StreamEvent)
      returns (next: seq<Message>, after: Heard)
      requires Valid() && !e.Terminal? && grown == context + InContext(h)
      modifies this`state, this`events, this`aborted, steering, followUps
      ensures Waited() && after == Hear(h, e) && next == context + InContext(after)
      ensures h.events <= after.events && events == old(events) + after.events[|h.events|..]
    {
      next, after := grown, h;
      match e {
        case Start(message) =>
          next := grown + [message];
          after := Hear(h, e);
          Emit(MessageStart(message));
        case Delta(message) =>
          if h.partial.Some? {
            next := grown[|grown| - 1 := message];
            after := Hear(h, e);
            Emit(MessageUpdate(message));
          }
      }
    }

    /** The loop over the stream. */
    method HearStream(context: seq<Message>, stream: seq<StreamEvent>) returns (grown: seq<Message>, h: Heard)
      requires Valid()
      modifies this`state, this`events, this`aborted, steering, followUps
      ensures Waited() && events == old(events) + h.events
      ensures h == HearAll(Quiet, stream) && grown == context + InContext(h)
    {
      grown, h := context, Quiet;
      var rest := stream;
      while rest != [] && !rest[0].Terminal?
        invariant Waited() && events == old(events) + h.events
        invariant grown == context + InContext(h)
        invariant HearAll(h, rest) == HearAll(Quiet, stream)
        decreases rest
      {
        grown, h := HearEvent(grown, context, h, rest[0]);
        rest := rest[1..];
      }
    }

    /** The end of an answer, whether by a terminal event or by the end of the stream. */
    method FinishAnswer(context: seq<Message>, grown: seq<Message>, h: Heard, final: Message)
      returns (complete: seq<Message>)
      requires Valid() && grown == context + InContext(h)
      modifies this`state, this`events, this`aborted, steering, followUps
      ensures Waited() && complete == context + h.stale + [final]
      ensures events == old(events) + (if h.partial.None? then [MessageStart(final)] else []) + [MessageEnd(final)]
    {
      if h.partial.Some? {
        complete := grown[|grown| - 1 := final];
      } else {
        complete := grown + [final];
        Emit(MessageStart(final));
      }
      Emit(MessageEnd(final));
    }

    method StreamAssistantResponse(context: seq<Message>, stream: seq<StreamEvent>, final: Message)
      returns (complete: seq<Message>)
      requires Valid()
      modifies this`state, this`events, this`aborted, steering, followUps
      ensures Waited()
      ensures events == old(events) + Spoken(HearAll(Quiet, stream), final)
      ensures complete == context + HearAll(Quiet, stream).stale + [final]
    {
      var grown, h := HearStream(context, stream);
      complete := FinishAnswer(context, grown, h, final);
    }

    // ---------- tool batches ----------

    /** Lookup and validation, which find the tool and accept the arguments, and the `beforeToolCall`
        hook, which may block the call; nothing means that the tool is to run. */
    method PrepareToolCall(call: ToolCall) returns (immediate: Option<Outcome>, ghost found: bool, ghost blocked: bool)
      requires Valid()
      modifies this`aborted, steering, followUps
      ensures Waited()
      ensures immediate.None? <==> found && !aborted && !blocked
      ensures immediate.Some? ==> immediate.value.callId == call.id && immediate.value.isError
      ensures immediate.Some? && immediate.value.terminate ==> found && !aborted && blocked
    {
      var known, accepted, blocks, terminate: bool := *, *, *, *;
      var reason: string := *;
      found, blocked := known && accepted, blocks;
      if !known || !accepted {
        immediate := Some(Outcome(call.id, reason, true, false));
        return;
      }
      Wait();
      immediate :=
        if aborted then Some(Outcome(call.id, "Operation aborted", true, false))
        else if blocks then Some(Outcome(call.id, reason, true, terminate))
        else None;
    }

    /** The tool body with its progress reports, and the `afterToolCall` hook. */
    method ExecuteAndFinalize(call: ToolCall, ghost origin: seq<Event>, ghost batch: seq<Event>, ghost t: Tools)
      returns (o: Outcome, ghost more: seq<Event>)
      requires Valid() && events == origin + batch && Folded(batch) == Some(t)
      requires t.speaking.None? && call.id in t.open
      modifies this`state, this`events, this`aborted, steering, followUps
      ensures Waited() && o.callId == call.id && events == origin + more
      ensures Folded(more) == Some(t) && Outcomes(more) == Outcomes(batch)
    {
      more := Update(call.id, origin, batch, t);
      var text: string := *;
      var isError, terminate: bool := *, *;
      Wait();
      o := Outcome(call.id, text, isError, terminate);
    }

    method EmitResult(m: Message, ghost origin: seq<Event>, ghost batch: seq<Event>, ghost t: Tools)
        returns (ghost more: seq<Event>)
      requires Valid() && events == origin + batch && Folded(batch) == Some(t)
      requires t.speaking.None? && t.open == multiset{} && m in t.finished
      requires |t.reported| < |t.started| && m.ToolResult? && m.callId == t.started[|t.reported|]
      modifies this`state, this`events, this`aborted, steering, followUps
      ensures Waited() && events == origin + more
      ensures Folded(more) == Some(t.(finished := t.finished - multiset{m}, reported := t.reported + [m]))
      ensures Outcomes(more) == Outcomes(batch)
    {
      Emit(MessageStart(m));
      Emit(MessageEnd(m));
      ReportOne(batch, t, m);
      more := batch + [MessageStart(m)] + [MessageEnd(m)];
    }

    /** The end of the only execution under way and its result message. */
    method EndAndReport(calls: seq<ToolCall>, o: Outcome, ghost done: seq<Outcome>,
                        ghost origin: seq<Event>, ghost batch: seq<Event>)
      returns (ghost more: seq<Event>)
      requires Valid() && events == origin + batch && |done| < |calls| && o.callId == calls[|done|].id
      requires Folded(batch) == Some(Running(calls, done)) && Outcomes(batch) == multiset(done)
      modifies this`state, this`events, this`aborted, steering, followUps
      ensures Waited() && events == origin + more
      ensures Folded(more) == Some(Answered(calls, |done| + 1, ToResults(done + [o])))
      ensures Outcomes(more) == multiset(done + [o])
    {
      more := EndCall(calls, o, done, origin, batch);
      OneReported(calls, done, o);
      OneMore(calls, done, o);
      more := EmitResult(ToResult(o), origin, more, Unreported(calls, done, o));
    }

    method EndCall(ghost calls: seq<ToolCall>, o: Outcome, ghost done: seq<Outcome>,
                   ghost origin: seq<Event>, ghost batch: seq<Event>)
      returns (ghost more: seq<Event>)
      requires Valid() && events == origin + batch && |done| < |calls| && o.callId == calls[|done|].id
      requires Folded(batch) == Some(Running(calls, done))
      modifies this`state, this`events, this`aborted, steering, followUps
      ensures Waited() && events == origin + more
      ensures Folded(more) == Some(Unreported(calls, done, o)) && Outcomes(more) == Outcomes(batch) + multiset{o}
    {
      Emit(ToolEnd(o));
      EndOne(calls, done, o, batch);
      more := batch + [ToolEnd(o)];
    }

    /** Sequential execution stops after the call during which the run was aborted: `late` says
        whether a call other than the first was started although it was. */
    method ExecuteSequential(calls: seq<ToolCall>)
      returns (outcomes: seq<Outcome>, ghost batch: seq<Event>, ghost late: bool)
      requires Valid()
      modifies this`state, this`events, this`aborted, steering, followUps
      ensures Waited() && events == old(events) + batch
      ensures |outcomes| <= |calls| && (outcomes == [] <==> calls == []) && (|outcomes| < |calls| ==> aborted)
      ensures Folded(batch) == Some(Answered(calls, |outcomes|, ToResults(outcomes)))
      ensures Outcomes(batch) == multiset(outcomes)
      ensures !late
    {
      outcomes, batch, late := [], [], false;
      while |outcomes| < |calls|
        invariant Waited() && events == old(events) + batch
        invariant |outcomes| <= |calls|
        invariant Folded(batch) == Some(Answered(calls, |outcomes|, ToResults(outcomes)))
        invariant Outcomes(batch) == multiset(outcomes)
        invariant !late && (outcomes != [] ==> !aborted)
        decreases |calls| - |outcomes|
      {
        late := late || (outcomes != [] && aborted);
        outcomes, batch := RunOne(calls, outcomes, old(events), batch);
        if aborted { break; }
      }
    }

    method RunOne(calls: seq<ToolCall>, done: seq<Outcome>, ghost origin: seq<Event>, ghost batch: seq<Event>)
      returns (next: seq<Outcome>, ghost more: seq<Event>)
      requires Valid() && events == origin + batch && |done| < |calls|
      requires Folded(batch) == Some(Answered(calls, |done|, ToResults(done))) && Outcomes(batch) == multiset(done)
      modifies this`state, this`events, this`aborted, steering, followUps
      ensures Waited() && events == origin + more && |next| == |done| + 1
      ensures Folded(more) == Some(Answered(calls, |next|, ToResults(next)))
      ensures Outcomes(more) == multiset(next)
    {
      var o;
      o, more := StartAndRun(calls[|done|], calls, done, origin, batch);
      more := EndAndReport(calls, o, done, origin, more);
      next := done + [o];
    }

    method StartAndRun(call: ToolCall, ghost calls: seq<ToolCall>, ghost done: seq<Outcome>,
                       ghost origin: seq<Event>, ghost batch: seq<Event>)
      returns (o: Outcome, ghost more: seq<Event>)
      requires Valid() && events == origin + batch && |done| < |calls| && call == calls[|done|]
      requires Folded(batch) == Some(Answered(calls, |done|, ToResults(done)))
      modifies this`state, this`events, this`aborted, steering, followUps
      ensures Waited() && o.callId == call.id && events == origin + more
      ensures Folded(more) == Some(Running(calls, done)) && Outcomes(more) == Outcomes(batch)
    {
      Emit(ToolStart(call.id));
      StartOne(calls, done, batch);
      more := batch + [ToolStart(call.id)];
      var immediate;
      ghost var found, blocked;
      immediate, found, blocked := PrepareToolCall(call);
      if immediate.Some? {
        o := immediate.value;
      } else {
        o, more := ExecuteAndFinalize(call, origin, more, Running(calls, done));
      }
    }

    /** Any number of progress reports of one execution. */
    method Update(id: CallId, ghost origin: seq<Event>, ghost batch: seq<Event>, ghost t: Tools)
      returns (ghost more: seq<Event>)
      requires Valid() && events == origin + batch && Folded(batch) == Some(t) && t.speaking.None? && id in t.open
      modifies this`state, this`events, this`aborted, steering, followUps
      ensures Waited() && events == origin + more
      ensures Folded(more) == Some(t) && Outcomes(more) == Outcomes(batch)
    {
      more := batch;
      var reports: int := *;
      while reports > 0
        invariant Waited() && events == origin + more
        invariant Folded(more) == Some(t) && Outcomes(more) == Outcomes(batch)
      {
        Emit(ToolUpdate(id));
        BatchMore(more, ToolUpdate(id));
        more := more + [ToolUpdate(id)];
        reports := reports - 1;
      }
    }

    /** The calls of an answer cut off by the token limit are all refused. */
    method FailTruncated(calls: seq<ToolCall>) returns (outcomes: seq<Outcome>, ghost batch: seq<Event>)
      requires Valid()
      modifies this`state, this`events, this`aborted, steering, followUps
      ensures Waited() && events == old(events) + batch
      ensures |outcomes| == |calls| && forall o | o in outcomes :: o.isError && !o.terminate
      ensures Folded(batch) == Some(Answered(calls, |outcomes|, ToResults(outcomes)))
      ensures Outcomes(batch) == multiset(outcomes)
    {
      outcomes, batch := [], [];
      while |outcomes| < |calls|
        invariant Waited() && events == old(events) + batch
        invariant |outcomes| <= |calls| && forall o | o in outcomes :: o.isError && !o.terminate
        invariant Folded(batch) == Some(Answered(calls, |outcomes|, ToResults(outcomes)))
        invariant Outcomes(batch) == multiset(outcomes)
        decreases |calls| - |outcomes|
      {
        outcomes, batch := FailOne(calls, outcomes, old(events), batch);
      }
    }

    method FailOne(calls: seq<ToolCall>, done: seq<Outcome>, ghost origin: seq<Event>, ghost batch: seq<Event>)
      returns (next: seq<Outcome>, ghost more: seq<Event>)
      requires Valid() && events == origin + batch && |done| < |calls|
      requires Folded(batch) == Some(Answered(calls, |done|, ToResults(done))) && Outcomes(batch) == multiset(done)
      requires forall o | o in done :: o.isError && !o.terminate
      modifies this`state, this`events, this`aborted, steering, followUps
      ensures Waited() && events == origin + more && |next| == |done| + 1
      ensures forall o | o in next :: o.isError && !o.terminate
      ensures Folded(more) == Some(Answered(calls, |next|, ToResults(next)))
      ensures Outcomes(more) == multiset(next)
    {
      var call := calls[|done|];
      Emit(ToolStart(call.id));
      StartOne(calls, done, batch);
      var o := Outcome(call.id, "Tool call was not executed: the response hit the output token limit", true, false);
      more := EndAndReport(calls, o, done, origin, batch + [ToolStart(call.id)]);
      next := done + [o];
    }

    /** The first phase of parallel execution: calls are prepared one by one until the run is aborted,
        and those that need no execution end at once. */
    method StartAll(calls: seq<ToolCall>)
      returns (entries: seq<Option<Outcome>>, ghost batch: seq<Event>, ghost late: bool)
      requires Valid()
      modifies this`state, this`events, this`aborted, steering, followUps
      ensures Waited() && events == old(events) + batch
      ensures |entries| <= |calls| && (entries == [] <==> calls == []) && (|entries| < |calls| ==> aborted)
      ensures InFlight(calls, entries, batch)
      ensures !late
    {
      entries, batch, late := [], [], false;
      while |entries| < |calls|
        invariant Waited() && events == old(events) + batch
        invariant |entries| <= |calls| && InFlight(calls, entries, batch)
        invariant !late && (entries != [] ==> !aborted)
        decreases |calls| - |entries|
      {
        late := late || (entries != [] && aborted);
        entries, batch := StartNext(calls, entries, old(events), batch);
        if aborted { break; }
      }
    }

    method StartNext(calls: seq<ToolCall>, entries: seq<Option<Outcome>>,
                     ghost origin: seq<Event>, ghost batch: seq<Event>)
      returns (next: seq<Option<Outcome>>, ghost more: seq<Event>)
      requires Valid() && events == origin + batch && |entries| < |calls| && InFlight(calls, entries, batch)
      modifies this`state, this`events, this`aborted, steering, followUps
      ensures Waited() && events == origin + more && |next| == |entries| + 1 && InFlight(calls, next, more)
    {
      var call := calls[|entries|];
      Emit(ToolStart(call.id));
      StartEntry(calls, entries, batch);
      more := batch + [ToolStart(call.id)];
      next := entries + [None];
      var immediate;
      ghost var found, blocked;
      immediate, found, blocked := PrepareToolCall(call);
      if immediate.Some? {
        next, more := EndOneOf(calls, next, |entries|, immediate.value, origin, more);
      }
    }

    /** The end of one of the executions under way. */
    method EndOneOf(calls: seq<ToolCall>, entries: seq<Option<Outcome>>, i: nat, o: Outcome,
                    ghost origin: seq<Event>, ghost batch: seq<Event>)
      returns (next: seq<Option<Outcome>>, ghost more: seq<Event>)
      requires Valid() && events == origin + batch && |entries| <= |calls| && InFlight(calls, entries, batch)
      requires i < |entries| && entries[i].None? && o.callId == calls[i].id
      modifies this`state, this`events, this`aborted, steering, followUps
      ensures Waited() && events == origin + more && |next| == |entries|
      ensures InFlight(calls, next, more) && Left(next) == Left(entries) - 1
    {
      Emit(ToolEnd(o));
      EndEntry(calls, entries, i, o, batch);
      more := batch + [ToolEnd(o)];
      next := entries[i := Some(o)];
    }

    /** The second phase: the executions report progress and end in any order. */
    method FinishAll(calls: seq<ToolCall>, started: seq<Option<Outcome>>,
                     ghost origin: seq<Event>, ghost batch: seq<Event>)
      returns (entries: seq<Option<Outcome>>, ghost more: seq<Event>)
      requires Valid() && events == origin + batch && |started| <= |calls| && InFlight(calls, started, batch)
      modifies this`state, this`events, this`aborted, steering, followUps
      ensures Waited() && events == origin + more && |entries| == |started|
      ensures InFlight(calls, entries, more) && Left(entries) == 0
    {
      entries, more := started, batch;
      while Left(entries) > 0
        invariant Waited() && events == origin + more
        invariant |entries| == |started| && InFlight(calls, entries, more)
        decreases Left(entries)
      {
        NoneLeft(calls, entries);
        more := UpdateOpen(calls, entries, origin, more);
        var i :| 0 <= i < |entries| && entries[i].None?;
        entries, more := FinishOne(calls, entries, i, origin, more);
      }
    }

    /** Any interleaving of progress reports of the executions under way. */
    method UpdateOpen(calls: seq<ToolCall>, entries: seq<Option<Outcome>>,
                      ghost origin: seq<Event>, ghost batch: seq<Event>)
      returns (ghost more: seq<Event>)
      requires Valid() && events == origin + batch && |entries| <= |calls| && InFlight(calls, entries, batch)
      modifies this`state, this`events, this`aborted, steering, followUps
      ensures Waited() && events == origin + more && InFlight(calls, entries, more)
    {
      more := batch;
      var reports: int := *;
      while reports > 0
        invariant Waited() && events == origin + more && InFlight(calls, entries, more)
      {
        var i: int := *;
        if 0 <= i < |entries| && entries[i].None? { more := UpdateEntry(calls, entries, i, origin, more); }
        reports := reports - 1;
      }
    }

    method UpdateEntry(calls: seq<ToolCall>, entries: seq<Option<Outcome>>, i: nat,
                       ghost origin: seq<Event>, ghost batch: seq<Event>)
      returns (ghost more: seq<Event>)
      requires Valid() && events == origin + batch && |entries| <= |calls| && InFlight(calls, entries, batch)
      requires i < |entries| && entries[i].None?
      modifies this`state, this`events, this`aborted, steering, followUps
      ensures Waited() && events == origin + more && InFlight(calls, entries, more)
    {
      FinishOpen(calls, entries, i, Outcome("", "", false, false));
      more := Update(calls[i].id, origin, batch, Flying(calls, entries));
    }

    method FinishOne(calls: seq<ToolCall>, entries: seq<Option<Outcome>>, i: nat,
                     ghost origin: seq<Event>, ghost batch: seq<Event>)
      returns (next: seq<Option<Outcome>>, ghost more: seq<Event>)
      requires Valid() && events == origin + batch && |entries| <= |calls| && InFlight(calls, entries, batch)
      requires i < |entries| && entries[i].None?
      modifies this`state, this`events, this`aborted, steering, followUps
      ensures Waited() && events == origin + more && |next| == |entries|
      ensures InFlight(calls, next, more) && Left(next) == Left(entries) - 1
    {
      FinishOpen(calls, entries, i, Outcome("", "", false, false));
      var o;
      o, more := ExecuteAndFinalize(calls[i], origin, batch, Flying(calls, entries));
      next, more := EndOneOf(calls, entries, i, o, origin, more);
    }

    /** The last phase: results are reported in the order of the calls. */
    method ReportAll(calls: seq<ToolCall>, outcomes: seq<Outcome>, ghost origin: seq<Event>, ghost batch: seq<Event>)
      returns (ghost more: seq<Event>)
      requires Valid() && events == origin + batch && |outcomes| <= |calls|
      requires forall i | 0 <= i < |outcomes| :: outcomes[i].callId == calls[i].id
      requires Folded(batch) == Some(Reporting(calls, outcomes, 0))
      modifies this`state, this`events, this`aborted, steering, followUps
      ensures Waited() && events == origin + more
      ensures Folded(more) == Some(Answered(calls, |outcomes|, ToResults(outcomes)))
      ensures Outcomes(more) == Outcomes(batch)
    {
      more := batch;
      var i := 0;
      while i < |outcomes|
        invariant 0 <= i <= |outcomes|
        invariant Waited() && events == origin + more
        invariant Folded(more) == Some(Reporting(calls, outcomes, i)) && Outcomes(more) == Outcomes(batch)
      {
        ReportingStep(calls, outcomes, i);
        more := EmitResult(ToResult(outcomes[i]), origin, more, Reporting(calls, outcomes, i));
        i := i + 1;
      }
      ReportingDone(calls, outcomes);
    }

    static method Landed(calls: seq<ToolCall>, entries: seq<Option<Outcome>>, ghost batch: seq<Event>)
      returns (outcomes: seq<Outcome>)
      requires |entries| <= |calls| && InFlight(calls, entries, batch) && Left(entries) == 0
      ensures |outcomes| == |entries| && forall i | 0 <= i < |outcomes| :: outcomes[i].callId == calls[i].id
      ensures Folded(batch) == Some(Reporting(calls, outcomes, 0)) && Outcomes(batch) == multiset(outcomes)
    {
      NoneLeft(calls, entries);
      outcomes := Values(entries);
      LandedAll(calls, entries, batch);
    }

    /** Parallel execution starts no further call once the run was aborted by the end of a start. */
    method ExecuteParallel(calls: seq<ToolCall>)
      returns (outcomes: seq<Outcome>, ghost batch: seq<Event>, ghost late: bool)
      requires Valid()
      modifies this`state, this`events, this`aborted, steering, followUps
      ensures Waited() && events == old(events) + batch
      ensures |outcomes| <= |calls| && (outcomes == [] <==> calls == []) && (|outcomes| < |calls| ==> aborted)
      ensures Folded(batch) == Some(Answered(calls, |outcomes|, ToResults(outcomes)))
      ensures Outcomes(batch) == multiset(outcomes)
      ensures !late
    {
      var entries;
      entries, batch, late := StartAll(calls);
      entries, batch := FinishAll(calls, entries, old(events), batch);
      outcomes := Landed(calls, entries, batch);
      batch := ReportAll(calls, outcomes, old(events), batch);
    }

    // ---------- turns ----------

    method ExecuteToolCalls(final: Message) returns (outcomes: seq<Outcome>, ghost batch: seq<Event>)
      requires Valid() && final.Assistant? && !Failing(final)
      modifies this`state, this`events, this`aborted, steering, followUps
      ensures Waited() && events == old(events) + batch && BatchOk(final, batch, outcomes, aborted)
    {
      if final.calls == [] {
        outcomes, batch := [], [];
        return;
      }
      if final.stop == Length {
        outcomes, batch := FailTruncated(final.calls);
      } else {
        var sequential: bool := *;
        ghost var late;
        if sequential {
          outcomes, batch, late := ExecuteSequential(final.calls);
        } else {
          outcomes, batch, late := ExecuteParallel(final.calls);
        }
      }
    }

    /** A message that is complete from the start. */
    method EmitPair(m: Message)
      requires Valid()
      modifies this`state, this`events, this`aborted, steering, followUps
      ensures Waited() && events == old(events) + [MessageStart(m), MessageEnd(m)]
    {
      Emit(MessageStart(m));
      Emit(MessageEnd(m));
    }

    method Inject(pending: seq<Message>)
      requires Valid()
      modifies this`state, this`events, this`aborted, steering, followUps
      ensures Waited() && events == old(events) + Pairs(pending)
    {
      ghost var origin := events;
      ghost var done: seq<Message> := [];
      var i := 0;
      while i < |pending|
        invariant 0 <= i <= |pending| && done == pending[..i]
        invariant Waited() && events == origin + Pairs(done)
      {
        EmitPair(pending[i]);
        PairsMore(done, pending[i]);
        done := done + [pending[i]];
        i := i + 1;
      }
      assert done == pending;
    }

    /** One answer of an arbitrary model. */
    method Answer(context: seq<Message>)
      returns (grown: seq<Message>, final: Message,
               ghost stream: seq<StreamEvent>, ghost speech: seq<Event>, ghost stale: seq<Message>)
      requires Valid()
      modifies this`state, this`events, this`aborted, steering, followUps
      ensures Waited() && events == old(events) + speech && grown == context + stale + [final]
      ensures final.Assistant? && Spoke(stream, speech, stale, final)
    {
      var delivered: seq<StreamEvent> := *;
      var text: string := *;
      var calls: seq<ToolCall> := *;
      var stop: StopReason := *;
      final := Assistant(text, calls, stop);
      SpokenOk(delivered, final);
      stream := delivered;
      speech, stale := Spoken(HearAll(Quiet, stream), final), HearAll(Quiet, stream).stale;
      grown := StreamAssistantResponse(context, delivered, final);
    }

    /** The tool calls of an answer that did not fail. */
    method Work(final: Message) returns (outcomes: seq<Outcome>, hasMore: bool, ghost batch: seq<Event>)
      requires Valid() && final.Assistant?
      modifies this`state, this`events, this`aborted, steering, followUps
      ensures Waited() && events == old(events) + batch
      ensures if Failing(final) then batch == [] && outcomes == [] else BatchOk(final, batch, outcomes, aborted)
      ensures !Failing(final) ==>
                hasMore == (final.calls != [] && (final.stop == Length || !ShouldTerminate(outcomes)))
    {
      outcomes, hasMore, batch := [], false, [];
      if final.stop == Failed || final.stop == Aborted { return; }
      outcomes, batch := ExecuteToolCalls(final);
      hasMore := final.calls != [] && (final.stop == Length || !ShouldTerminate(outcomes));
    }

    /** From the injection of pending messages to the end of the turn. */
    method RunTurn(context: seq<Message>, source: Source, pending: seq<Message>)
      returns (grown: seq<Message>, added: seq<Message>, failed: bool, hasMore: bool, ghost turn: Turn)
      requires Valid()
      modifies this`state, this`events, this`aborted, steering, followUps
      ensures Waited() && events == old(events) + TurnEvents(turn) && TurnOk(turn)
      ensures turn.source == source && turn.injected == pending
      ensures grown == context + Grown(turn) && added == Added(turn)
      ensures failed == Failing(turn.final) && (!failed ==> hasMore == AsksForMore(turn))
      ensures failed <==> turn.final.stop == Failed || turn.final.stop == Aborted
      ensures !failed ==>
                (hasMore <==>
                 && turn.final.calls != []
                 && (turn.final.stop == Length || exists o :: ToolEnd(o) in turn.batch && !o.terminate))
    {
      Inject(pending);
      ghost var stream, speech, stale, batch;
      var final, answered, outcomes;
      answered, final, stream, speech, stale := Answer(context + pending);
      failed := final.stop == Failed || final.stop == Aborted;
      outcomes, hasMore, batch := Work(final);
      turn := Turn(source, pending, stream, speech, stale, final, batch, outcomes, aborted);
      added := pending + [final] + ToResults(outcomes);
      grown := answered + ToResults(outcomes);
      TurnMade(turn);
      if !failed { AsksExactly(turn); }
      TurnGrows(turn, context, answered);
      TurnEmits(turn, old(events));
      Emit(TurnEnd(final, ToResults(outcomes)));
    }

    // ---------- the loop ----------

    /** `getSteeringMessages`: the first poll after a continuation with drained messages is skipped. */
    method PollSteering() returns (polled: seq<Message>)
      requires Valid()
      modifies this`skipPoll, steering
      ensures Valid() && !skipPoll
      ensures steering.taken == old(steering.taken) + polled && steering.enqueued == old(steering.enqueued)
      ensures steering.mode == OneAtATime ==> |polled| <= 1
      ensures old(skipPoll) ==> polled == []
    {
      if skipPoll {
        skipPoll := false;
        return [];
      }
      polled := steering.Drain();
    }

    /** What may change between two turns, apart from the list of events. */
    twostate predicate Stepped()
      reads this, steering, followUps
    {
      && Valid() && base == old(base) && active == old(active) && (old(aborted) ==> aborted)
    }

    /** Per queue: what has been taken since the run began is what the turns injected and what is
        pending, in order; one at a time, no turn injects two. */
    ghost predicate Books(turns: seq<Turn>, source: Source, pending: seq<Message>, s0: seq<Message>, f0: seq<Message>)
      reads steering, followUps
    {
      && steering.taken == s0 + TakenBy(turns, Steering, source, pending)
      && followUps.taken == f0 + TakenBy(turns, FollowUps, source, pending)
      && (steering.mode == OneAtATime ==>
            AtMostOne(turns, Steering) && (source == Steering ==> |pending| <= 1))
      && (followUps.mode == OneAtATime ==>
            AtMostOne(turns, FollowUps) && (source == FollowUps ==> |pending| <= 1))
    }

    lemma BooksMore(turns: seq<Turn>, t: Turn, s0: seq<Message>, f0: seq<Message>)
      requires Books(turns, t.source, t.injected, s0, f0)
      ensures Books(turns + [t], Steering, [], s0, f0)
    {
      TakenMore(turns, t, Steering);
      TakenMore(turns, t, FollowUps);
    }

    /** `prepareNextTurn`, before any turn but the first, may replace the model's context. */
    method PrepareContext(completed: bool, context: seq<Message>, ghost log: Log, ghost added: seq<Message>)
      returns (prepared: seq<Message>, ghost next: Log)
      requires Valid() && LogOk(log, context, added) && (completed ==> log.last.Some?)
      modifies this`aborted, steering, followUps
      ensures Waited() && LogOk(next, prepared, added) && next.turns == log.turns && next.last == log.last
          && next.opening == log.opening
      ensures (next.start == log.start && next.since == log.since) || next.since > 0
    {
      prepared, next := context, log;
      if !completed { return; }
      var swaps: bool := *;
      Wait();
      if swaps {
        prepared := *;
        LogReplaced(log, context, added, prepared);
        next := log.(start := prepared, since := |log.turns|);
      }
    }

    /** The second poll, only if the first one returned nothing. */
    method PollAgain(completed: bool, source: Source, pending: seq<Message>, ghost turns: seq<Turn>,
                     ghost s0: seq<Message>, ghost f0: seq<Message>)
      returns (from: Source, messages: seq<Message>)
      requires Valid() && !skipPoll && Books(turns, source, pending, s0, f0)
      modifies this`state, this`events, this`aborted, this`skipPoll, steering, followUps
      ensures Stepped() && !skipPoll && events == old(events) + if completed then [TurnStart] else []
      ensures Books(turns, from, messages, s0, f0) && (messages == [] ==> pending == [])
      ensures !completed ==> messages == pending
    {
      from, messages := source, pending;
      if completed {
        if pending == [] {
          from := Steering;
          messages := PollSteering();
        }
        Emit(TurnStart);
      }
    }

    method BeginTurn(completed: bool, context: seq<Message>, source: Source, pending: seq<Message>, ghost log: Log,
                     ghost added: seq<Message>, ghost s0: seq<Message>, ghost f0: seq<Message>)
      returns (prepared: seq<Message>, from: Source, messages: seq<Message>, ghost next: Log)
      requires Valid() && !skipPoll && (completed ==> log.last.Some?)
      requires LogOk(log, context, added) && Ready(log.last, pending) && Books(log.turns, source, pending, s0, f0)
      modifies this`state, this`events, this`aborted, this`skipPoll, steering, followUps
      ensures Stepped() && !skipPoll && events == old(events) + if completed then [TurnStart] else []
      ensures LogOk(next, prepared, added) && next.turns == log.turns && next.last == log.last
          && next.opening == log.opening && Ready(next.last, messages)
      ensures Books(next.turns, from, messages, s0, f0) && (!completed ==> messages == pending)
      ensures (next.start == log.start && next.since == log.since) || next.since > 0
    {
      prepared, next := PrepareContext(completed, context, log, added);
      from, messages := PollAgain(completed, source, pending, log.turns, s0, f0);
    }

    /** The rest of a round of the inner loop. */
    method TakeTurn(prepared: seq<Message>, added: seq<Message>, from: Source, messages: seq<Message>,
                    ghost log: Log, ghost origin: seq<Event>, ghost s0: seq<Message>, ghost f0: seq<Message>)
      returns (grown: seq<Message>, more: seq<Message>, failed: bool, hasMore: bool, ghost next: Log, ghost turn: Turn)
      requires Valid() && LogOk(log, prepared, added) && Ready(log.last, messages)
      requires log.turns == [] ==> messages == log.opening
      requires events == origin + Body(log.turns) + if log.turns == [] then [] else [TurnStart]
      requires Books(log.turns, from, messages, s0, f0)
      modifies this`state, this`events, this`aborted, steering, followUps
      ensures Waited() && events == origin + Body(next.turns)
      ensures next == Extended(log, turn)
      ensures LogOk(next, grown, more) && Books(next.turns, Steering, [], s0, f0)
      ensures Decides(turn, failed, hasMore)
    {
      grown, more, failed, hasMore, turn := RunTurn(prepared, from, messages);
      more := added + more;
      next := Extended(log, turn);
      LogMore(log, prepared, added, turn);
      BooksMore(log.turns, turn, s0, f0);
      BodyMore(origin, log.turns, turn);
    }

    /** One round of the inner loop up to the end of the turn; `completed` says that a turn of
        this run has ended before. */
    method NextTurn(completed: bool, context: seq<Message>, added: seq<Message>, source: Source, pending: seq<Message>,
                    ghost log: Log, ghost origin: seq<Event>, ghost s0: seq<Message>, ghost f0: seq<Message>)
      returns (grown: seq<Message>, more: seq<Message>, failed: bool, hasMore: bool, ghost next: Log, ghost turn: Turn)
      requires Valid() && !skipPoll && (completed <==> log.last.Some?)
      requires events == origin + Body(log.turns) && LogOk(log, context, added) && Ready(log.last, pending)
      requires log.last.None? ==> pending == log.opening
      requires Books(log.turns, source, pending, s0, f0)
      modifies this`state, this`events, this`aborted, this`skipPoll, steering, followUps
      ensures Stepped() && !skipPoll && next.opening == log.opening && LogOk(next, grown, more)
      ensures Books(next.turns, Steering, [], s0, f0)
      ensures events == origin + Body(next.turns)
      ensures (next.start == log.start && next.since == log.since) || next.since > 0
      ensures next.last == Some(turn) && Decides(turn, failed, hasMore)
    {
      var prepared, from, messages;
      prepared, from, messages, next := BeginTurn(completed, context, source, pending, log, added, s0, f0);
      grown, more, failed, hasMore, next, turn := TakeTurn(prepared, added, from, messages, next, origin, s0, f0);
    }

    /** Between two turns of a run that began with the events `origin`. */
    ghost predicate Between(source: Source, pending: seq<Message>, hasMore: bool, log: Log,
                            origin: seq<Event>, s0: seq<Message>, f0: seq<Message>)
      reads this, steering, followUps
    {
      && Valid() && !skipPoll && events == origin + Body(log.turns)
      && Books(log.turns, source, pending, s0, f0)
      && (hasMore || pending != [] ==> Ready(log.last, pending))
      && (log.last.None? ==> pending == log.opening)
      && (if log.last.None? then hasMore else LastOk(log.last.value, hasMore))
    }

    /** The poll between two turns. */
    method PollBetween(hasMore: bool, ghost log: Log, ghost turn: Turn,
                       ghost origin: seq<Event>, ghost s0: seq<Message>, ghost f0: seq<Message>)
      returns (pending: seq<Message>)
      requires Valid() && !skipPoll && events == origin + Body(log.turns)
      requires Books(log.turns, Steering, [], s0, f0)
      requires log.last == Some(turn) && Decides(turn, false, hasMore)
      modifies this`skipPoll, this`aborted, steering, followUps
      ensures Stepped() && Between(Steering, pending, hasMore, log, origin, s0, f0)
    {
      pending := PollSteering();
      DecidedReady(log.last, turn, hasMore, pending);
      assert Books(log.turns, Steering, pending, s0, f0);
    }

    /** The check for follow-up messages when the agent would stop. */
    method PollFollowUps(ghost log: Log, ghost origin: seq<Event>, ghost s0: seq<Message>, ghost f0: seq<Message>,
                         ghost source: Source)
      returns (pending: seq<Message>)
      requires Between(source, [], false, log, origin, s0, f0)
      modifies this`aborted, steering, followUps
      ensures Stepped() && Between(FollowUps, pending, pending != [], log, origin, s0, f0)
      ensures EndsWell(log.last, Finished) && (pending == [] ==> Books(log.turns, Steering, [], s0, f0))
    {
      pending := followUps.Drain();
    }

    /** The end of a run. */
    method Finish(end: End, newMessages: seq<Message>, ghost turns: seq<Turn>,
                  ghost origin: seq<Event>, ghost s0: seq<Message>, ghost f0: seq<Message>)
      requires Valid() && events == origin + Body(turns) && Books(turns, Steering, [], s0, f0)
      modifies this`state, this`events, this`aborted, steering, followUps
      ensures Stepped() && events == origin + Body(turns) + [AgentEnd(newMessages)]
      ensures Books(turns, Steering, [], s0, f0)
    {
      Emit(AgentEnd(newMessages));
    }

    /** One round of the inner loop; `end` stays `Suspended` if the run goes on. */
    method Round(completed: bool, context: seq<Message>, newMessages: seq<Message>, added: seq<Message>,
                 source: Source, pending: seq<Message>, hasMore: bool,
                 ghost log: Log, ghost origin: seq<Event>, ghost s0: seq<Message>, ghost f0: seq<Message>)
      returns (end: End, grown: seq<Message>, more: seq<Message>, polled: seq<Message>, asks: bool, ghost next: Log)
      requires Between(source, pending, hasMore, log, origin, s0, f0) && (hasMore || pending != [])
      requires LogOk(log, context, added) && (completed <==> log.last.Some?)
      modifies this`state, this`events, this`aborted, this`skipPoll, steering, followUps
      ensures Stepped() && LogOk(next, grown, more) && next.last.Some? && next.opening == log.opening
      ensures (next.start == log.start && next.since == log.since) || next.since > 0
      ensures EndsWell(next.last, end) && !end.Finished?
      ensures if end.Suspended? then Between(Steering, polled, asks, next, origin, s0, f0)
              else polled == [] && events == origin + Body(next.turns) + [AgentEnd(newMessages + more)]
                   && Books(next.turns, Steering, [], s0, f0)
    {
      var failed;
      ghost var turn;
      grown, more, failed, asks, next, turn :=
        NextTurn(completed, context, added, source, pending, log, origin, s0, f0);
      end, polled := AfterTurn(failed, asks, newMessages + more, next, turn, origin, s0, f0);
    }

    /** After the end of a turn: break off, stop, or poll for the next one. */
    method AfterTurn(failed: bool, asks: bool, newMessages: seq<Message>, ghost log: Log, ghost turn: Turn,
                     ghost origin: seq<Event>, ghost s0: seq<Message>, ghost f0: seq<Message>)
      returns (end: End, polled: seq<Message>)
      requires Valid() && !skipPoll && events == origin + Body(log.turns)
      requires Books(log.turns, Steering, [], s0, f0) && log.last == Some(turn) && Decides(turn, failed, asks)
      modifies this`state, this`events, this`aborted, this`skipPoll, steering, followUps
      ensures Stepped() && EndsWell(log.last, end) && !end.Finished?
      ensures if end.Suspended? then Between(Steering, polled, asks, log, origin, s0, f0)
              else polled == [] && events == origin + Body(log.turns) + [AgentEnd(newMessages)]
                   && Books(log.turns, Steering, [], s0, f0)
    {
      end, polled := Suspended, [];
      if failed {
        end := Broken;
      } else {
        var stops: bool := *;
        Wait();
        if stops { end := Stopped; }
      }
      if !end.Suspended? {
        Finish(end, newMessages, log.turns, origin, s0, f0);
        return;
      }
      polled := PollBetween(asks, log, turn, origin, s0, f0);
    }

    /** The inner loop.  `cut` says that the budget ran out before it was done. */
    method RunTurns(was: bool, initial: seq<Message>, newMessages: seq<Message>, before: seq<Message>,
                    from: Source, first: seq<Message>, budget: nat,
                    ghost start: Log, ghost origin: seq<Event>, ghost s0: seq<Message>, ghost f0: seq<Message>)
      returns (end: End, cut: bool, left: nat, context: seq<Message>, added: seq<Message>,
               source: Source, pending: seq<Message>, ghost log: Log)
      requires Between(from, first, true, start, origin, s0, f0) && LogOk(start, initial, before)
      requires was <==> start.last.Some?
      modifies this`state, this`events, this`aborted, this`skipPoll, steering, followUps
      ensures Stepped() && LogOk(log, context, added) && EndsWell(log.last, end) && !end.Finished?
      ensures (log.start == start.start && log.since == start.since) || log.since > 0
      ensures log.opening == start.opening
      ensures !end.Suspended? ==>
                && pending == [] && Books(log.turns, Steering, [], s0, f0)
                && events == origin + Body(log.turns) + [AgentEnd(newMessages + added)]
      ensures end.Suspended? && cut ==>
                Valid() && events == origin + Body(log.turns) && Books(log.turns, source, pending, s0, f0)
      ensures end.Suspended? && !cut ==>
                left < budget && log.last.Some? && Between(source, [], false, log, origin, s0, f0)
    {
      end, cut, left, context, added := Suspended, false, budget, initial, before;
      source, pending, log := from, first, start;
      var completed, hasMore := was, true;
      while hasMore || pending != []
        invariant Stepped() && end == Suspended && left <= budget && (hasMore || left < budget) && !cut
        invariant Between(source, pending, hasMore, log, origin, s0, f0)
        invariant LogOk(log, context, added) && (completed <==> log.last.Some?)
        invariant (log.start == start.start && log.since == start.since) || log.since > 0
        invariant log.opening == start.opening
        decreases left
      {
        if left == 0 { cut := true; return; }
        left := left - 1;
        end, context, added, pending, hasMore, log :=
          Round(completed, context, newMessages, added, source, pending, hasMore, log, origin, s0, f0);
        source, completed := Steering, true;
        if !end.Suspended? { return; }
      }
    }

    /** The poll before the first turn. */
    method PollFirst(initial: seq<Message>) returns (pending: seq<Message>, ghost log: Log)
      requires Valid()
      modifies this`skipPoll, steering
      ensures Stepped() && log == Log([], None, pending, initial, 0) && LogOk(log, initial, [])
      ensures old(skipPoll) ==> pending == []
      ensures Between(Steering, pending, true, log, old(events), old(steering.taken), old(followUps.taken))
    {
      pending := PollSteering();
      log := Log([], None, pending, initial, 0);
      assert old(events) == old(events) + Body([]);
    }

    /** When the inner loop is done: take follow-up messages, or end the run. */
    method FollowUpOrFinish(newMessages: seq<Message>, was: Source,
                            ghost log: Log, ghost origin: seq<Event>, ghost s0: seq<Message>, ghost f0: seq<Message>)
      returns (end: End, source: Source, pending: seq<Message>)
      requires Between(was, [], false, log, origin, s0, f0)
      modifies this`state, this`events, this`aborted, steering, followUps
      ensures Stepped() && EndsWell(log.last, end) && (end.Suspended? <==> pending != [])
      ensures pending != [] ==> Between(source, pending, true, log, origin, s0, f0)
      ensures pending == [] ==>
                Books(log.turns, source, [], s0, f0) && events == origin + Body(log.turns) + [AgentEnd(newMessages)]
    {
      pending := PollFollowUps(log, origin, s0, f0, was);
      end, source := Suspended, FollowUps;
      if pending == [] {
        end, source := Finished, Steering;
        Finish(end, newMessages, log.turns, origin, s0, f0);
      }
    }

    /** One round of the outer loop: the inner loop and the check for follow-up messages. */
    method Lap(completed: bool, initial: seq<Message>, newMessages: seq<Message>, before: seq<Message>,
               from: Source, first: seq<Message>, budget: nat,
               ghost start: Log, ghost origin: seq<Event>, ghost s0: seq<Message>, ghost f0: seq<Message>)
      returns (end: End, more: bool, left: nat, context: seq<Message>, added: seq<Message>,
               source: Source, pending: seq<Message>, ghost log: Log)
      requires Between(from, first, true, start, origin, s0, f0) && LogOk(start, initial, before)
      requires completed <==> start.last.Some?
      modifies this`state, this`events, this`aborted, this`skipPoll, steering, followUps
      ensures Stepped() && LogOk(log, context, added) && EndsWell(log.last, end)
      ensures (log.start == start.start && log.since == start.since) || log.since > 0
      ensures log.opening == start.opening
      ensures more ==> left < budget && log.last.Some? && Between(source, pending, true, log, origin, s0, f0)
      ensures !more ==>
                && Books(log.turns, source, pending, s0, f0) && (!end.Suspended? ==> pending == [])
                && events == origin + Body(log.turns) + if end.Suspended? then [] else [AgentEnd(newMessages + added)]
    {
      var cut;
      end, cut, left, context, added, source, pending, log :=
        RunTurns(completed, initial, newMessages, before, from, first, budget, start, origin, s0, f0);
      end, more, source, pending := AfterTurns(end, cut, newMessages + added, source, pending, log, origin, s0, f0);
    }

    /** After the inner loop: the run has ended, has been cut, or looks for follow-up messages. */
    method AfterTurns(ended: End, cut: bool, newMessages: seq<Message>, from: Source, waiting: seq<Message>,
                      ghost log: Log, ghost origin: seq<Event>, ghost s0: seq<Message>, ghost f0: seq<Message>)
      returns (end: End, more: bool, source: Source, pending: seq<Message>)
      requires Valid() && EndsWell(log.last, ended)
      requires !ended.Suspended? ==>
                 && waiting == [] && Books(log.turns, Steering, [], s0, f0)
                 && events == origin + Body(log.turns) + [AgentEnd(newMessages)]
      requires ended.Suspended? && cut ==> events == origin + Body(log.turns) && Books(log.turns, from, waiting, s0, f0)
      requires ended.Suspended? && !cut ==> Between(from, [], false, log, origin, s0, f0)
      modifies this`state, this`events, this`aborted, steering, followUps
      ensures Stepped() && EndsWell(log.last, end)
      ensures more ==> ended.Suspended? && !cut && Between(source, pending, true, log, origin, s0, f0)
      ensures !more ==>
                && Books(log.turns, source, pending, s0, f0) && (!end.Suspended? ==> pending == [])
                && events == origin + Body(log.turns) + if end.Suspended? then [] else [AgentEnd(newMessages)]
    {
      end, more, source, pending := ended, false, from, waiting;
      if !end.Suspended? { source := Steering; return; }
      if cut { return; }
      end, source, pending := FollowUpOrFinish(newMessages, source, log, origin, s0, f0);
      more := pending != [];
    }

    /** The turn loop.  `budget` bounds the turns looked at: a run that is cut there is reported as
        suspended, with everything said about the turns so far. */
    method RunLoop(initial: seq<Message>, newMessages: seq<Message>, budget: nat)
      returns (end: End, context: seq<Message>, added: seq<Message>, source: Source, pending: seq<Message>,
          ghost log: Log)
      requires Valid()
      modifies this`state, this`events, this`aborted, this`skipPoll, steering, followUps
      ensures Stepped() && LogOk(log, context, added) && EndsWell(log.last, end)
      ensures log.since == 0 ==> log.start == initial
      ensures old(skipPoll) ==> log.opening == []
      ensures events == old(events) + Body(log.turns)
                        + Closing(end, newMessages + added)
      ensures Books(log.turns, source, pending, old(steering.taken), old(followUps.taken))
      ensures !end.Suspended? ==> pending == []
      ensures ByTheRules(log.turns, end)
    {
      ghost var origin, s0, f0 := events, steering.taken, followUps.taken;
      var more, left := true, budget;
      end, context, added, source := Suspended, initial, [], Steering;
      pending, log := PollFirst(initial);
      var completed := false;
      while more
        invariant Stepped() && LogOk(log, context, added) && EndsWell(log.last, end)
        invariant more ==> Between(source, pending, true, log, origin, s0, f0) && (completed <==> log.last.Some?)
        invariant (log.since == 0 ==> log.start == initial) && (old(skipPoll) ==> log.opening == [])
        invariant !more ==>
                    && Books(log.turns, source, pending, s0, f0) && (!end.Suspended? ==> pending == [])
                    && events == origin + Body(log.turns) + if end.Suspended? then []
                        else [AgentEnd(newMessages + added)]
        decreases more, left
      {
        end, more, left, context, added, source, pending, log :=
          Lap(completed, context, newMessages, added, source, pending, left, log, origin, s0, f0);
        completed := true;
      }
      RunByTheRules(log, context, added, end);
    }

    // ---------- runs ----------

    /** `runAgentLoop`; without prompts it is the continuation of a transcript. */
    method RunAgentLoop(prompts: seq<Message>, initial: seq<Message>, budget: nat)
      returns (end: End, context: seq<Message>, newMessages: seq<Message>, source: Source, pending: seq<Message>,
               ghost log: Log, ghost trace: seq<Event>)
      requires Valid()
      modifies this`state, this`events, this`aborted, this`skipPoll, steering, followUps
      ensures Stepped() && events == old(events) + trace
      ensures RunOk(initial, prompts, old(skipPoll), end, context, newMessages, log, trace)
      ensures Books(log.turns, source, pending, old(steering.taken), old(followUps.taken))
      ensures !end.Suspended? ==> pending == []
    {
      OpenRun(prompts);
      ghost var origin := events;
      var added;
      end, context, added, source, pending, log := RunLoop(initial + prompts, prompts, budget);
      newMessages := prompts + added;
      trace := Opening(prompts) + Body(log.turns) + Closing(end, newMessages);
      RunMade(initial, prompts, old(skipPoll), end, context, added, log);
      TraceMade(old(events), prompts, log.turns, Closing(end, newMessages));
    }

    method OpenRun(prompts: seq<Message>)
      requires Valid()
      modifies this`state, this`events, this`aborted, steering, followUps
      ensures Waited() && events == old(events) + Opening(prompts)
    {
      Emit(AgentStart);
      Emit(TurnStart);
      Inject(prompts);
    }

    method StartRun(skip: bool)
      requires Valid()
      modifies this
      ensures Valid() && active && !aborted && skipPoll == skip && events == []
      ensures state == old(state).(streaming := None)
    {
      active, aborted, skipPoll := true, false, skip;
      state := state.(streaming := None);
      base, events := state, [];
    }

    method FinishRun()
      requires Valid()
      modifies this
      ensures Valid() && !active && state == old(state).(streaming := None, toolCalls := {})
    {
      active := false;
      state := state.(streaming := None, toolCalls := {});
      base, events := state, [];
    }

    /** `runWithLifecycle` of an idle agent; `trace` is what the run emitted. */
    method RunWithLifecycle(prompts: seq<Message>, skip: bool, budget: nat)
      returns (end: End, context: seq<Message>, newMessages: seq<Message>, source: Source, pending: seq<Message>,
               ghost log: Log, ghost trace: seq<Event>)
      requires Valid() && !active
      modifies this, steering, followUps
      ensures Valid() && (active <==> end.Suspended?)
      ensures RunOk(old(state.messages), prompts, skip, end, context, newMessages, log, trace)
      ensures skip ==> log.opening == []
      ensures Books(log.turns, source, pending, old(steering.taken), old(followUps.taken))
      ensures !end.Suspended? ==> pending == [] && state.streaming == None && state.toolCalls == {}
      ensures state.messages == old(state.messages) + newMessages
    {
      StartRun(skip);
      ghost var start := state;
      end, context, newMessages, source, pending, log, trace := RunAgentLoop(prompts, state.messages, budget);
      assert events == trace;
      RunHandled(start, start.messages, end, prompts, skip, context, newMessages, log, trace);
      if !end.Suspended? { FinishRun(); }
    }

    /** The messages a continuation starts from: none after a user message or a tool result, else
        queued steering messages (`skip`), else queued follow-ups; false if there are none. */
    method DrainPrompts() returns (found: bool, prompts: seq<Message>, skip: bool)
      requires Valid()
      modifies steering, followUps
      ensures Valid() && (skip ==> prompts != [])
      ensures found == CanContinue(state.messages, old(steering.messages), old(followUps.messages))
      ensures steering.taken == old(steering.taken) + (if skip then prompts else [])
      ensures followUps.taken == old(followUps.taken) + (if skip then [] else prompts)
      ensures !found ==> prompts == [] && !skip
      ensures steering.mode == OneAtATime && skip ==> |prompts| <= 1
      ensures followUps.mode == OneAtATime && !skip ==> |prompts| <= 1
    {
      found, prompts, skip := state.messages != [], [], false;
      if found && state.messages[|state.messages| - 1].Assistant? {
        prompts := steering.Drain();
        skip := prompts != [];
        if !skip {
          prompts := followUps.Drain();
          found := prompts != [];
        }
      }
    }

    /** `continue`: after an assistant message a run needs a queued message to start from. */
    method Continue(budget: nat)
      returns (started: bool, prompts: seq<Message>, skip: bool, end: End, context: seq<Message>,
               newMessages: seq<Message>, source: Source, pending: seq<Message>, ghost log: Log,
                   ghost trace: seq<Event>)
      requires Valid()
      modifies this, steering, followUps
      ensures Valid()
      ensures started == (!old(active) &&
                          CanContinue(old(state.messages), old(steering.messages), old(followUps.messages)))
      ensures !started ==> state == old(state) && events == old(events)
                           && steering.taken == old(steering.taken) && followUps.taken == old(followUps.taken)
      ensures started ==> RunOk(old(state.messages), prompts, skip, end, context, newMessages, log, trace)
      ensures started ==> state.messages == old(state.messages) + newMessages
      ensures started ==> Books(log.turns, source, pending, old(steering.taken) + (if skip then prompts else []),
                                old(followUps.taken) + (if skip then [] else prompts))
      ensures started && !end.Suspended? ==> pending == []
      ensures started && skip ==> log.opening == []
      ensures started && steering.mode == OneAtATime && skip ==> |prompts| <= 1
      ensures started && followUps.mode == OneAtATime && !skip ==> |prompts| <= 1
    {
      started, prompts, skip := false, [], false;
      end, context, newMessages, source, pending := Suspended, [], [], Steering, [];
      log, trace := Log([], None, [], [], 0), [];
      if active { return; }
      started, prompts, skip := DrainPrompts();
      if !started { return; }
      end, context, newMessages, source, pending, log, trace := RunWithLifecycle(prompts, skip, budget);
    }
  }

  /** After an assistant message there is nothing to continue from but queued messages. */
  predicate CanContinue(transcript: seq<Message>, steering: seq<Message>, followUps: seq<Message>) {
    transcript != [] && (transcript[|transcript| - 1].Assistant? ==> steering != [] || followUps != [])
  }

  /** A run from its opening to its end: its events are well formed, and the model's context has
      grown by what its turns added since the context was last replaced. */
  ghost predicate RunOk(transcript: seq<Message>, prompts: seq<Message>, skip: bool, end: End, context: seq<Message>,
                        newMessages: seq<Message>, log: Log, trace: seq<Event>)
  {
    && EndsWell(log.last, end) && LogOk(log, context, AllAdded(log.turns))
    && newMessages == prompts + AllAdded(log.turns)
    && (log.since == 0 ==> log.start == transcript + prompts)
    && (skip ==> log.opening == []) && ByTheRules(log.turns, end)
    && trace == Opening(prompts) + Body(log.turns) + Closing(end, newMessages)
  }

  function Closing(end: End, newMessages: seq<Message>): seq<Event> {
    if end.Suspended? then [] else [AgentEnd(newMessages)]
  }

  lemma RunMade(transcript: seq<Message>, prompts: seq<Message>, skip: bool, end: End, context: seq<Message>,
                added: seq<Message>, log: Log)
    requires EndsWell(log.last, end) && LogOk(log, context, added) && ByTheRules(log.turns, end)
    requires (log.since == 0 ==> log.start == transcript + prompts) && (skip ==> log.opening == [])
    ensures RunOk(transcript, prompts, skip, end, context, prompts + added, log,
                  Opening(prompts) + Body(log.turns) + Closing(end, prompts + added))
  {}

  lemma TraceMade(before: seq<Event>, prompts: seq<Message>, turns: seq<Turn>, closing: seq<Event>)
    ensures before + (Opening(prompts) + Body(turns) + closing) == before + Opening(prompts) + Body(turns) + closing
  {}

  lemma ContextOfRun(transcript: seq<Message>, prompts: seq<Message>, log: Log, context: seq<Message>,
      added: seq<Message>)
    requires LogOk(log, context, added) && log.since == 0 && log.start == transcript + prompts
    ensures context == transcript + prompts + AllGrown(log.turns)
  {
    assert log.turns[0..] == log.turns;
  }

  /** The messages that end during a run are its new messages, in order. */
  lemma EndedAreNew(transcript: seq<Message>, prompts: seq<Message>, skip: bool, end: End,
                    context: seq<Message>, newMessages: seq<Message>, log: Log, trace: seq<Event>)
    requires RunOk(transcript, prompts, skip, end, context, newMessages, log, trace)
    ensures Ended(trace) == newMessages
  {
    NothingEnded(Closing(end, newMessages));
    BodyEnded(log.turns);
    RunEnded(prompts, log.turns, Closing(end, newMessages));
  }

  lemma MessagesRegrouped(a: seq<Message>, b: seq<Message>, c: seq<Message>)
    ensures a + (b + c) == a + b + c
  {}

  lemma GrowthExactly(transcript: seq<Message>, prompts: seq<Message>, turns: seq<Turn>)
    requires AllOk(turns)
    ensures transcript + prompts + AllGrown(turns) == transcript + (prompts + AllAdded(turns)) <==> OneStartEach(turns)
  {
    ContextAgreesExactly(transcript + prompts, turns);
    MessagesRegrouped(transcript, prompts, AllAdded(turns));
  }

  /** Unless the context was replaced, the model's context has grown by the new messages exactly if
      no stream had more than one start before its terminal event. */
  lemma ContextGrowsByNewExactly(transcript: seq<Message>, prompts: seq<Message>, skip: bool, end: End,
                                 context: seq<Message>, newMessages: seq<Message>, log: Log, trace: seq<Event>)
    requires RunOk(transcript, prompts, skip, end, context, newMessages, log, trace) && log.since == 0
    ensures context == transcript + newMessages <==> OneStartEach(log.turns)
  {
    ContextOfRun(transcript, prompts, log, context, AllAdded(log.turns));
    GrowthExactly(transcript, prompts, log.turns);
  }

  lemma RunHandled(start: AgentState, transcript: seq<Message>, end: End, prompts: seq<Message>, skip: bool,
                   context: seq<Message>, newMessages: seq<Message>, log: Log, trace: seq<Event>)
    requires RunOk(transcript, prompts, skip, end, context, newMessages, log, trace)
    ensures ReduceAll(start, trace).messages == start.messages + newMessages
  {
    NothingEnded(Closing(end, newMessages));
    HandlerAgrees(start, prompts, log.turns, Closing(end, newMessages));
  }

  lemma DecidedReady(last: Option<Turn>, turn: Turn, hasMore: bool, pending: seq<Message>)
    requires last == Some(turn) && Decides(turn, false, hasMore)
    ensures hasMore || pending != [] ==> Ready(last, pending)
    ensures LastOk(turn, hasMore)
  {}

  ghost predicate LastOk(t: Turn, hasMore: bool) {
    t.final.Assistant? && !Failing(t.final) && (!hasMore ==> !AsksForMore(t))
  }

  /** How a turn decides what comes next. */
  ghost predicate Decides(t: Turn, failed: bool, hasMore: bool) {
    t.final.Assistant? && failed == Failing(t.final) && (!failed ==> hasMore == AsksForMore(t))
  }

  lemma TurnMade(t: Turn)
    requires t.final.Assistant? && Spoke(t.stream, t.speech, t.stale, t.final)
    requires if Failing(t.final) then t.batch == [] && t.outcomes == []
             else BatchOk(t.final, t.batch, t.outcomes, t.aborted)
    ensures TurnOk(t)
  {}

  lemma TurnGrows(t: Turn, context: seq<Message>, answered: seq<Message>)
    requires answered == context + t.injected + t.stale + [t.final]
    ensures answered + Results(t) == context + Grown(t)
  {}

  lemma TurnEmits(t: Turn, before: seq<Event>)
    ensures before + Pairs(t.injected) + t.speech + t.batch + [TurnEnd(t.final, Results(t))] == before + TurnEvents(t)
  {}

  /** The calls of the entries have been started, those with an outcome have ended. */
  ghost function Flying(calls: seq<ToolCall>, entries: seq<Option<Outcome>>): Tools
    requires |entries| <= |calls|
  {
    Tools(Ids(calls)[..|entries|], OpenIds(calls, entries), Collected(entries), [], None)
  }

  ghost predicate InFlight(calls: seq<ToolCall>, entries: seq<Option<Outcome>>, batch: seq<Event>)
    requires |entries| <= |calls|
  {
    && Folded(batch) == Some(Flying(calls, entries))
    && Outcomes(batch) == CollectedOutcomes(entries)
    && forall i | 0 <= i < |entries| && entries[i].Some? :: entries[i].value.callId == calls[i].id
  }

  lemma FlyingMore(calls: seq<ToolCall>, entries: seq<Option<Outcome>>, t: Tools, id: CallId)
    requires |entries| < |calls| && t == Flying(calls, entries) && id == calls[|entries|].id
    ensures Flying(calls, entries + [None]) == t.(started := t.started + [id], open := t.open + multiset{id})
  {
    MoreEntries(calls, entries, None);
    NextId(Ids(calls), |entries|);
    assert Collected(entries) + multiset{} == Collected(entries);
  }

  lemma NextId(ids: seq<CallId>, n: nat)
    requires n < |ids|
    ensures ids[..n + 1] == ids[..n] + [ids[n]]
  {}

  /** Starting a call, for the tools as they are. */
  lemma StartStep(batch: seq<Event>, t: Tools, id: CallId)
    requires Folded(batch) == Some(t) && t.speaking.None?
    ensures Folded(batch + [ToolStart(id)]) == Some(t.(started := t.started + [id], open := t.open + multiset{id}))
    ensures Outcomes(batch + [ToolStart(id)]) == Outcomes(batch)
  {
    BatchMore(batch, ToolStart(id));
  }

  lemma StartEntry(calls: seq<ToolCall>, entries: seq<Option<Outcome>>, batch: seq<Event>)
    requires |entries| < |calls| && InFlight(calls, entries, batch)
    ensures InFlight(calls, entries + [None], batch + [ToolStart(calls[|entries|].id)])
  {
    var t, id := Flying(calls, entries), calls[|entries|].id;
    StartStep(batch, t, id);
    FlyingMore(calls, entries, t, id);
    MoreEntries(calls, entries, None);
  }

  lemma EndEntry(calls: seq<ToolCall>, entries: seq<Option<Outcome>>, i: nat, o: Outcome, batch: seq<Event>)
    requires |entries| <= |calls| && InFlight(calls, entries, batch)
    requires i < |entries| && entries[i].None? && o.callId == calls[i].id
    ensures InFlight(calls, entries[i := Some(o)], batch + [ToolEnd(o)])
    ensures Left(entries[i := Some(o)]) == Left(entries) - 1
  {
    var t := Flying(calls, entries);
    FinishEntry(calls, entries, i, o);
    EndStep(batch, t, o);
    FlyingLess(calls, entries, i, o, t);
  }

  /** Ending an execution, for the tools as they are. */
  lemma EndStep(batch: seq<Event>, t: Tools, o: Outcome)
    requires Folded(batch) == Some(t) && t.speaking.None? && o.callId in t.open
    ensures Folded(batch + [ToolEnd(o)])
            == Some(t.(open := t.open - multiset{o.callId}, finished := t.finished + multiset{ToResult(o)}))
    ensures Outcomes(batch + [ToolEnd(o)]) == Outcomes(batch) + multiset{o}
  {
    BatchMore(batch, ToolEnd(o));
  }

  lemma FlyingLess(calls: seq<ToolCall>, entries: seq<Option<Outcome>>, i: nat, o: Outcome, t: Tools)
    requires |entries| <= |calls| && i < |entries| && entries[i].None? && o.callId == calls[i].id
    requires t == Flying(calls, entries)
    ensures Flying(calls, entries[i := Some(o)])
            == t.(open := t.open - multiset{o.callId}, finished := t.finished + multiset{ToResult(o)})
  {
    FinishEntry(calls, entries, i, o);
  }

  /** Every execution has ended and the first `i` results have been reported. */
  ghost function Reporting(calls: seq<ToolCall>, outcomes: seq<Outcome>, i: nat): Tools
    requires i <= |outcomes| <= |calls|
  {
    Tools(Ids(calls)[..|outcomes|], multiset{}, multiset(ToResults(outcomes)[i..]), ToResults(outcomes)[..i], None)
  }

  lemma ReportingStep(calls: seq<ToolCall>, outcomes: seq<Outcome>, i: nat)
    requires i < |outcomes| <= |calls|
    ensures var t := Reporting(calls, outcomes, i);
            var m := ToResult(outcomes[i]);
            && m in t.finished
            && t.(finished := t.finished - multiset{m}, reported := t.reported + [m])
               == Reporting(calls, outcomes, i + 1)
  {
    var ms := ToResults(outcomes);
    assert ms[i..] == [ms[i]] + ms[i + 1..];
    assert ms[..i] + [ms[i]] == ms[..i + 1];
    assert multiset(ms[i..]) == multiset{ms[i]} + multiset(ms[i + 1..]);
  }

  lemma ReportingDone(calls: seq<ToolCall>, outcomes: seq<Outcome>)
    requires |outcomes| <= |calls|
    ensures Reporting(calls, outcomes, |outcomes|) == Answered(calls, |outcomes|, ToResults(outcomes))
  {
    var ms := ToResults(outcomes);
    assert ms[|outcomes|..] == [] && ms[..|outcomes|] == ms;
  }

  lemma LandedAll(calls: seq<ToolCall>, entries: seq<Option<Outcome>>, batch: seq<Event>)
    requires |entries| <= |calls| && InFlight(calls, entries, batch) && Left(entries) == 0
    requires forall i | 0 <= i < |entries| :: entries[i].Some?
    ensures Folded(batch) == Some(Reporting(calls, Values(entries), 0))
    ensures Outcomes(batch) == multiset(Values(entries))
  {
    NoneLeft(calls, entries);
    CollectedAll(entries);
    var ms := ToResults(Values(entries));
    assert ms[0..] == ms && ms[..0] == [];
  }

  /** One execution under way, the earlier calls answered. */
  ghost function Running(calls: seq<ToolCall>, done: seq<Outcome>): Tools
    requires |done| < |calls|
  {
    Tools(Ids(calls)[..|done| + 1], multiset{calls[|done|].id}, multiset{}, ToResults(done), None)
  }

  ghost function Unreported(calls: seq<ToolCall>, done: seq<Outcome>, o: Outcome): Tools
    requires |done| < |calls|
  {
    Tools(Ids(calls)[..|done| + 1], multiset{}, multiset{ToResult(o)}, ToResults(done), None)
  }

  lemma StartOne(calls: seq<ToolCall>, done: seq<Outcome>, batch: seq<Event>)
    requires |done| < |calls| && Folded(batch) == Some(Answered(calls, |done|, ToResults(done)))
    ensures Folded(batch + [ToolStart(calls[|done|].id)]) == Some(Running(calls, done))
    ensures Outcomes(batch + [ToolStart(calls[|done|].id)]) == Outcomes(batch)
  {
    var id := calls[|done|].id;
    var ids := Ids(calls);
    BatchMore(batch, ToolStart(id));
    assert ids[..|done|] + [id] == ids[..|done| + 1];
    assert multiset{} + multiset{id} == multiset{id};
  }

  lemma EndOne(calls: seq<ToolCall>, done: seq<Outcome>, o: Outcome, batch: seq<Event>)
    requires |done| < |calls| && o.callId == calls[|done|].id && Folded(batch) == Some(Running(calls, done))
    ensures Folded(batch + [ToolEnd(o)]) == Some(Unreported(calls, done, o))
    ensures Outcomes(batch + [ToolEnd(o)]) == Outcomes(batch) + multiset{o}
  {
    BatchMore(batch, ToolEnd(o));
    assert multiset{o.callId} - multiset{o.callId} == multiset{};
    assert multiset{} + multiset{ToResult(o)} == multiset{ToResult(o)};
  }

  lemma OneReported(calls: seq<ToolCall>, done: seq<Outcome>, o: Outcome)
    requires |done| < |calls| && o.callId == calls[|done|].id
    ensures
      var t, m := Unreported(calls, done, o), ToResult(o);
      && t.speaking.None? && t.open == multiset{} && m in t.finished
      && |t.reported| < |t.started| && m.ToolResult? && m.callId == t.started[|t.reported|]
      && t.(finished := t.finished - multiset{m}, reported := t.reported + [m])
         == Answered(calls, |done| + 1, ToResults(done + [o]))
  {
    OneMore(calls, done, o);
    assert multiset{ToResult(o)} - multiset{ToResult(o)} == multiset{};
  }

  lemma OneMore(calls: seq<ToolCall>, done: seq<Outcome>, o: Outcome)
    requires |done| < |calls| && o.callId == calls[|done|].id
    ensures ToResults(done + [o]) == ToResults(done) + [ToResult(o)]
    ensures multiset(done + [o]) == multiset(done) + multiset{o}
  {
    assert (done + [o])[..|done|] == done;
  }
}
