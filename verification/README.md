# Verified model of the client, agent and market-lab core

This project models the stateful core of a trading assistant and proves properties of it over all
inputs, all runs and all interleavings. It covers six areas.

- **Session leases** (`Leases`, `LeaseInvariant`, `LeaseWire`, `LeaseBooks`, `LeaseSteps`, `LeaseSafety`, `LeaseExact`,
  `LeaseDiscipline`, `LeaseModes`, `LeaseRules`, `LeaseCleanup`, `LeaseDispose`, `LeaseHazards`, `PiClient`;
  `Connections`, `ConnectionRuns`, `ConnectionMessages`, `Connection`; `SessionCache`, `SessionCacheFacts`,
  `ClientState`; `LeaseSegments`, `LeaseCache`, `LeaseSight`, `LeaseCacheRuns`, `LeaseCacheHazards`). The client counts
  shared and exclusive leases over an asynchronous link. One event is the code between two awaits, one server message,
  or one change of the link. `Orderly` is the side condition of each event: runs that meet it keep the accounting, and
  after every event that does not, a run that does can break it (`LeaseExact`). `LeaseHazards` holds one concrete run
  from the start for each side condition. `LeaseCache` composes the leases with the cache of session snapshots: the
  lease tables decide which segment sets a snapshot aside.
- **Agent loop** (`AgentEvents`, `AgentRules`, `ToolBatch`, `AgentRuns`, `Agent`). The nested turn loop with its two
  queues, three tool executors and the event handler. Model streams, tool outcomes, hooks, arriving messages and aborts
  are chosen arbitrarily at every await.
- **Model publication** (`Publications`, `PublicationAborts`, `PublicationHazards`, `Catalogs`, `ModelsRegistry`).
  Refresh generations, the publication chain of a provider, the durable store and the overlay.
- **Subagent sessions** (`Sessions`, `SessionRuns`, `SessionStore`, `Slots`, `SlotPool`, `Unicode`, `Paging`). Two
  durable records with a crash between any two writes, worker slots, and reading evidence page by page.
- **Indicators and rule replay** (`RealFacts`, `Indicators`, `IndicatorSeries`, `IndicatorFacts`, `Strategies`,
  `TradeRules`, `ReplayStats`, `WarmUp`).
- **Proxy stream** (`ProxyFraming`, `ProxyRebuild`, `ProxyStream`, `ProxyFacts`). Line framing and the rebuilding of a
  message.

Where the original updates fields, the model is a class whose methods are proved to take the step of a pure transition
system or to compute a specified value; what holds over whole runs is then proved about those. What each step does is
told a second time without the definitions it is built from, by messages, tokens, indicator values and stored records
(the lemmas whose names end in `Exactly` or `Is`).

Six statements that one might expect are false of the code. Each is refuted by a concrete run or input, and the exact
condition under which it does hold is proved for all inputs:

- the count of a session is the number of its unreleased tokens (`LeaseHazards`, `LeaseExact.OrderlyExactly`);
- a session whose dispose failed is detached before it is attached or shared again (`LeaseHazards.DisposeOvertaken`,
  `LeaseDispose.FailedDisposeExactly`);
- an attached session, and so an active lease, has a cached snapshot (`LeaseCacheHazards.LeaseLosesSnapshot`,
  `LeaseCacheHazards.LeaseStartsBlind`, `LeaseSight.LeasesSeeThroughoutExactly`; for sessions being attached
  `LeaseCacheHazards.LeaseStaysBlind`, `LeaseCache.CoherenceKeptExactly`);
- the model's context grows by the new messages (`AgentEvents.TwoStarts`,
  `AgentImplementation.ContextGrowsByNewExactly`);
- a restored overlay is what the store holds (`PublicationHazards.RestoreMayLag`,
  `Publications.RestoredInStepExactly`);
- the partial JSON of a tool call is its deltas (`ProxyRebuild.DeltaAfterEnd`, `ProxyRebuild.EndedCallRebuiltExactly`).

## Model

| member | source | states |
|---|---|---|
| `LeaseSteps.KeepInv` | packages/client/src/client.ts:151-292 | every event that meets its side condition keeps the lease invariant: counts equal unreleased tokens, a recorded exclusive token is alone, generations and promises are consistent |
| `LeaseExact.OrderlyExactly` | packages/client/src/client.ts:151-177 | the side conditions are exact for the accounting: an event is orderly if and only if no orderly continuation of it ever miscounts a session |
| `LeaseExact.DisorderGoesWrong` | packages/client/src/client.ts:172-177 | after every disorderly event there is an orderly continuation that ends with a count that differs from the number of unreleased tokens |
| `LeaseSafety.RunKeepsInv` | packages/client/src/client.ts:151-412 | the invariant holds in every state that an orderly run reaches |
| `LeaseSafety.LeaseAccounting` | packages/client/src/client.ts:381-412 | lease accounting over whole runs: the count of a session is the number of its unreleased tokens, a recorded exclusive token is the only one and conversely, and without a link nothing is pending or attached |
| `LeaseRules.AdmittedExactly` | packages/client/src/client.ts:381-394 | over whole runs: an exclusive acquisition gets a token if and only if its session has none left, a shared one if and only if it has no exclusive one, and neither once the client is disposed |
| `LeaseRules.AcquireExactly` | packages/client/src/client.ts:151-171 | an acquisition is refused with no change, or waits for the detach under way, for the one cleanup detach of a marked session, for the one attach request, which is sent if it is not there, or becomes a current lease of an attached session |
| `LeaseRules.AfterDetachExactly` | packages/client/src/client.ts:155-171 | one that has waited for a detach goes on in the same way, whatever the outcome |
| `LeaseRules.AfterCleanupExactly` | packages/client/src/client.ts:158-167 | one that has waited for the cleanup attaches, whatever the attached set says, or gives up |
| `LeaseRules.AfterAttachExactly` | packages/client/src/client.ts:166-176 | one that has waited for the attach becomes a current lease, or gives up |
| `LeaseRules.CreateExactly` | packages/client/src/client.ts:141-145 | a creation ends in an exclusive lease if and only if the server has created a session nobody holds a token of |
| `LeaseRules.CatchExactly` | packages/client/src/client.ts:254-266 | a failed dispose gives the lease up and marks its session, a failed detach makes the lease active again, and a stale lease stays so |
| `LeaseRules.AnsweredExactly` | packages/client/src/state.ts:77-86 | which answers change the attached sessions, and how |
| `LeaseRules.CutExactly` | packages/client/src/client.ts:321-353 | a disconnect rejects every pending request and no other, and empties what was attached, counted and marked |
| `LeaseModes.RunRecorded` | packages/client/src/client.ts:381-394 | in every orderly run the recorded token of a session is that of an exclusive acquisition or lease |
| `LeaseSafety.SettledOnce` | packages/client/src/client.ts:189-207 | a request promise is settled at most once, keeps its outcome, and is never forgotten, whatever happens |
| `LeaseSafety.OneAttach` | packages/client/src/client.ts:161-171 | at most one attach request of a session is outstanding |
| `LeaseDiscipline.DetachOnlyByTheLast` | packages/client/src/client.ts:231-268 | a lease sends a detach exactly if it holds the only unreleased token; otherwise it only gives its token back |
| `LeaseDiscipline.NoGrantDuringDetach` | packages/client/src/client.ts:155-158 | while a detach is outstanding no acquisition of the session becomes a lease |
| `LeaseDiscipline.CutKills` | packages/client/src/client.ts:321-328 | a disconnect, a dispose and a removal make every lease handed out before stale |
| `LeaseDiscipline.NeverActiveAgain` | packages/client/src/client.ts:209-225 | a stale or released lease is never active again in any later orderly run, through reconnects and new leases of the same session |
| `LeaseDiscipline.DeadReleaseIsSilent` | packages/client/src/client.ts:231-234 | releasing such a lease sends nothing and changes no count, no exclusive record and no cleanup mark |
| `LeaseCleanup.UncleanNotGranted` | packages/client/src/client.ts:158-161 | while a session waits for its cleanup detach no acquisition of it becomes a lease; a creation answered with the same id may, and is exclusive |
| `LeaseDispose.FailedDisposeUnclean` | packages/client/src/client.ts:254-260 | a failed dispose leaves its session marked, with no attach of it under way, if and only if every acquisition of it is still before the cleanup detach or only gives up |
| `LeaseDispose.FailedDisposeExactly` | packages/client/src/client.ts:254-266 | after a failed dispose no orderly run attaches or shares the session before it is cleaned, if and only if every other unreleased token is that of an acquisition that has not got past the cleanup detach |
| `LeaseDispose.VacantRun` | packages/client/src/client.ts:363-379 | such a session stays marked, unattached and unshared through every orderly run without an acknowledged cleanup detach or an invalidation |
| `LeaseDispose.DisposedDetachAlone` | packages/client/src/client.ts:363-379 | in those runs a cleanup detach is sent only when no lease of the session holds a token |
| `LeaseDispose.CleanupDetachExactly` | packages/client/src/client.ts:151-159 | an acquire sends a cleanup detach underneath a lease if and only if the session is marked and leased, no detach of it is under way, and the acquire may share it |
| `LeaseHazards.RemovalUncounted` | packages/client/src/client.ts:294-300 | from the start: a removal delivered while an attach is outstanding leaves an attached lease that no count covers |
| `LeaseHazards.RemovalBreaksExclusion` | packages/client/src/client.ts:172-173 | from there a shared and an exclusive lease of one session are active side by side |
| `LeaseHazards.RemovalInDetachUncounted` | packages/client/src/client.ts:239-249 | a removal delivered while a detach is outstanding lets the end of that detach take the count of a later acquisition |
| `LeaseHazards.LateGrantUncounted` | packages/client/src/client.ts:172-173 | a disconnect between the acknowledgement and the continuation of an acquisition leaves a current lease uncounted |
| `LeaseHazards.LateDetachUncounted` | packages/client/src/client.ts:242-249 | a disconnect between the acknowledgement and the continuation of a detach lets it take the count of a later acquisition |
| `LeaseHazards.EarlyAcquireUncounted` | packages/client/src/client.ts:173-176 | acquiring a session before a rejected acquisition of it has given its token back: that takes the new count |
| `LeaseHazards.EarlyCreateUncounted` | packages/client/src/client.ts:141-145 | the same for a creation that goes on too early |
| `LeaseHazards.EarlyConnectUncounted` | packages/client/src/client.ts:107-111 | reconnecting while an acquisition still waits for a rejected detach: it attaches over the new link and nobody counts its lease |
| `LeaseHazards.DisposeMarksAttaching` | packages/client/src/client.ts:245-260 | an orderly run in which a failed dispose marks its session while an attach of it is already out |
| `LeaseHazards.DisposeOvertaken` | packages/client/src/client.ts:363-379 | later in that run the cleanup detach goes out underneath an active lease |
| `ClientImplementation.PiClient.InvalidateAllSessionLeases` | packages/client/src/client.ts:409-412 | the loop over the counted sessions bumps each generation once and empties counts and cleanup marks |
| `ClientImplementation.PiClient.RejectPendingRequests` | packages/client/src/client.ts:336-340 | the loop rejects every pending request and nothing else |
| `ClientImplementation.PiClient.AttachOrLease` | packages/client/src/client.ts:161-173 | from the attached test to the shared attach, or to the lease |
| `ClientImplementation.PiClient.ReconcileOrAttach` | packages/client/src/client.ts:158-161 | from the cleanup test to the shared reconciliation, or on to the attach |
| `ClientImplementation.PiClient.AcquireSession` | packages/client/src/client.ts:151-157 | the first segment of an acquisition equals the transition-system step, with its errors |
| `ClientImplementation.PiClient.ResumeAcquisition` | packages/client/src/client.ts:157-177 | each later segment of an acquisition equals the transition-system step |
| `ClientImplementation.PiClient.ReleaseLease` | packages/client/src/client.ts:231-244 | the first segment of a release or dispose |
| `ClientImplementation.PiClient.ResumeLeaseRelease` | packages/client/src/client.ts:244-253 | the segment after the detach response, with its finally block |
| `ClientImplementation.PiClient.HandleFailedRelease` | packages/client/src/client.ts:254-266 | the catch handler: invalidated, relinquished with a cleanup mark, or active again |
| `ClientImplementation.PiClient.HandleResponse` | packages/client/src/client.ts:300-318 | a response settles its own request and updates the attached set |
| `ClientImplementation.PiClient.DisposeClient` | packages/client/src/client.ts:342-353 | disposing rejects, disconnects and invalidates; doing parts twice changes nothing more |
| `Connections.KeepInv` | packages/client/src/connection.ts:66-236 | every handler keeps the connection invariant: history, settled promises, transports |
| `ConnectionRuns.ReportedChanges` | packages/client/src/connection.ts:66-231 | the reported changes of every run are, attempt by attempt, connecting, connected exactly if its promise resolved, disconnected unless it is current; each change legally follows the one before |
| `ConnectionRuns.SettledDeliveredClosed` | packages/client/src/connection.ts:177-231 | every connect promise is settled exactly once unless its attempt is under way, messages are delivered only for attempts whose promise resolved, and every transport but the current one is closed |
| `ConnectionRuns.SupersededForGood` | packages/client/src/connection.ts:79-87 | once an attempt is over, however long the run goes on, nothing its transport raises changes anything and its promise keeps its answer |
| `ConnectionRuns.LeftoversReachTheNewAttempt` | packages/client/src/connection.ts:156-159 | if a listener reconnects inside a batch, the new attempt survives exactly if no message of the batch is left |
| `ConnectionMessages.ConnectingExactly` | packages/client/src/connection.ts:162-197 | while connecting, the promise resolves and connected is reported if and only if the message is an accepted hello and the transport is there; every other message rejects the promise, reports disconnected and closes the transport |
| `ConnectionMessages.ConnectedExactly` | packages/client/src/connection.ts:198-203 | once connected, a handshake message ends the attempt in the same way, and any other message is delivered, which ends it only if the handler rejects it or reconnects |
| `ConnectionMessages.DataExactly` | packages/client/src/connection.ts:142-160 | data of an old attempt is ignored; data before the transport and malformed data end the attempt |
| `ConnectionMessages.TransportsExactly` | packages/client/src/connection.ts:119-140 | a transport that comes in time is the one of its attempt, a late one is closed, and a factory or a greeting that fails ends the attempt exactly if it is the current one |
| `ConnectionImplementation.Connection.HandleMessage` | packages/client/src/connection.ts:162-204 | the handshake and the messages after it, with every protocol error, as `ConnectionMessages.ConnectingExactly` and `ConnectionMessages.ConnectedExactly` tell them |
| `ConnectionImplementation.Connection.ReceiveData` | packages/client/src/connection.ts:142-160 | the batch loop equals the fold over the decoded messages that stops at a lost link |
| `ConnectionImplementation.Connection.TransportReady` | packages/client/src/connection.ts:127-132 | a late transport is closed, a timely one becomes the transport of its attempt |
| `ConnectionImplementation.Connection.TransportFailed` | packages/client/src/connection.ts:121-126 | a factory that fails ends only its own attempt |
| `SessionCache.CoherenceKeptExactly` | packages/client/src/state.ts:49-57 | the cache stays coherent under an event if and only if it is not an attach answer about another session that leaves an attached one without a snapshot |
| `SessionCache.AnswerAboutAnother` | packages/client/src/client.ts:157-161 | a run to such a state: after its cleanup detach a session is reported attached again, the attach that follows is answered about another one, and it is left attached, without a snapshot and without an attempt |
| `SessionCache.AttachedMeansStored` | packages/client/src/state.ts:77-113 | in every such run an attached session without an outstanding attach has a stored snapshot whose flag says so |
| `SessionCache.RevisionsNeverDecrease` | packages/client/src/state.ts:106-113 | the stored revision of a session never decreases between attach attempts, removals and resets |
| `SessionCache.ServerRevisionNeverDecreases` | packages/client/src/state.ts:100-104 | the server snapshot revision never decreases between resets |
| `SessionCache.FailedAttachRestores` | packages/client/src/client.ts:179-187 | a failed attach restores exactly the snapshot it set aside, whatever other events came between |
| `SessionCacheFacts.StoredIsNewest` | packages/client/src/state.ts:106-113 | over whole runs without a removal, reset, detach or attach of the session: the cache holds the last of the newest snapshots it was offered, or what it held if that is newer than all of them |
| `SessionCacheFacts.FlagFollowed` | packages/client/src/state.ts:106-113 | over whole runs without a disconnect either: a session is attached if and only if its stored snapshot says so |
| `SessionCacheFacts.OfferExactly` | packages/client/src/state.ts:106-113 | an offered snapshot is stored, and its flag followed, exactly if no newer one is there; one of the same revision replaces |
| `LeaseSegments.SegmentGoes` | packages/client/src/client.ts:151-207 | every segment of the lease protocol leaves settled and pending promises alone, issues at most fresh ones, shares a new attach request, and clears the table of attach requests only at the end of the acquisition that waits |
| `LeaseCache.KeepCoupled` | packages/client/src/client.ts:179-187 | leases and cache in one system: both agree on the attached sessions, and a snapshot is set aside exactly as long as an attach request of its session is out or its rejection has not been handled |
| `LeaseCache.CoherenceKeptExactly` | packages/client/src/state.ts:77-86 | driven by the lease tables, the cache stays coherent under an event if and only if it is not an attach answer about another session that leaves an attached one without a snapshot |
| `LeaseCache.AttachedAgainExactly` | packages/client/src/client.ts:157-164 | a resumed acquisition attaches an attached session again if and only if it waited for a cleanup detach that was acknowledged and no attach request is shared |
| `LeaseCache.PlainKeptExactly` | packages/client/src/client.ts:157-187 | that every attached session has a stored snapshot survives an event if and only if the event does not attach an attached session again |
| `LeaseSight.SegmentWakes` | packages/client/src/client.ts:160-173 | the leases a segment makes active: of one session at most, told by guards on the lease tables before it |
| `LeaseSight.LeasesSeeExactly` | packages/client/src/client.ts:160-173 | every active lease goes on having a snapshot to show if and only if the event neither attaches again a session with an active lease nor makes a lease active of an attached session without a stored snapshot |
| `LeaseSight.PlainSeesExactly` | packages/client/src/client.ts:269-272 | while all attached sessions have a stored snapshot, only the first of the two takes a snapshot from an active lease |
| `LeaseSight.LeasesSeeThroughoutExactly` | packages/client/src/client.ts:269-272 | from the start: in every state of a run every active lease has a snapshot if and only if no event of the run does either |
| `LeaseCache.AttachedStoredExactly` | packages/client/src/client.ts:160-165 | from the start: in every state of a run all attached sessions have a stored snapshot if and only if the run never attaches an attached session again; then every active lease has one |
| `LeaseCache.BlindIsBeingAttached` | packages/client/src/client.ts:179-187 | in every run without such a foreign answer an active lease without a snapshot is one whose session is being attached, with an attached snapshot set aside |
| `LeaseCacheRuns.IsLeaseRun` | packages/client/src/client.ts:294-318 | every run of the two together is a run of the lease protocol, orderly if and only if it is: what holds of those runs holds with the cache |
| `LeaseCacheRuns.CacheFollows` | packages/client/src/state.ts:77-98 | every answer, message and change of the link is to the cache the event of its own that it amounts to |
| `LeaseCacheRuns.SegmentFollows` | packages/client/src/client.ts:179-187 | a segment sets the snapshot of a session aside exactly if it has issued an attach request of it |
| `LeaseCacheRuns.LeasesSeeUnlessDisposeFails` | packages/client/src/client.ts:254-264 | as long as no dispose fails, every active lease has a snapshot in every state |
| `LeaseCacheHazards.LeaseLosesSnapshot` | packages/client/src/client.ts:363-379 | from the start, all events orderly: after a failed dispose an active lease loses its snapshot to a second attach of its session |
| `LeaseCacheHazards.LeaseStartsBlind` | packages/client/src/client.ts:160-173 | from the start, all events orderly: with no active lease a session is attached again, and the next acquisition becomes an active lease without a snapshot |
| `LeaseCacheHazards.LeaseStaysBlind` | packages/client/src/state.ts:77-86 | answered with the snapshot of another session, that attach leaves the lease without one for good |
| `ClientStateImplementation.ClientState.ApplySessionSnapshot` | packages/client/src/state.ts:106-113 | the revision filter, the forced write, and the attached set |
| `ClientStateImplementation.ClientState.FinishAttach` | packages/client/src/client.ts:181-187 | ending an attach stores the answer or restores the snapshot |
| `AgentEvents.SpokenOk` | packages/agent/src/agent-loop.ts:312-369 | the events of an answer are a start, starts and updates, one end; there is exactly one start if and only if the stream has at most one, and each further one leaves a partial message in the context |
| `AgentEvents.TwoStarts` | packages/agent/src/agent-loop.ts:317-322 | a concrete stream with two starts, the partial message it leaves behind and the events it emits |
| `AgentEvents.ReducedMessages` | packages/agent/src/agent.ts:544-582 | the transcript kept by the event handler grows by exactly the messages that ended |
| `AgentEvents.PendingAreOpen` | packages/agent/src/agent.ts:559-571 | the handler's pending tool calls are always within the executions under way |
| `AgentEvents.FoldedReports` | packages/agent/src/agent-loop.ts:765-794 | the messages that end during a well-formed tool batch are the reported results in order |
| `AgentEvents.TurnEnded` | packages/agent/src/agent-loop.ts:200-243 | the messages that end during a turn are the injected ones, the answer and the results |
| `AgentEvents.ContextAgreesExactly` | packages/agent/src/agent-loop.ts:315-345 | context and new messages agree if and only if no stream of the run started a second message before its terminal event |
| `AgentRuns.LogMore` | packages/agent/src/agent-loop.ts:205-243 | a further turn extends context, new messages and turn chain as recorded |
| `AgentRuns.LogReplaced` | packages/agent/src/agent-loop.ts:176-190 | replacing the context restarts only the record of what it has grown from |
| `AgentRuns.HandlerAgrees` | packages/agent/src/agent.ts:544-557 | after a run the handler's transcript is the old one and the new messages |
| `AgentRuns.TurnSettles` | packages/agent/src/agent-loop.ts:379-552 | at the end of every turn the event handler has no pending tool call left, for all three executors |
| `AgentRuns.RunSettles` | packages/agent/src/agent.ts:559-571 | the same over any number of turns |
| `AgentRules.AsksExactly` | packages/agent/src/agent-loop.ts:224-237 | a turn asks for another one if and only if it has calls and was cut off by the token limit, or one of its executions ended without asking to terminate |
| `AgentRules.RunByTheRules` | packages/agent/src/agent-loop.ts:172-258 | over whole runs: a turn is followed by another one only if it asks for it or messages are pending, and a run finishes only after a turn without calls or with an untruncated batch whose executions all asked to terminate; it breaks off exactly after a failed or aborted answer |
| `AgentRules.ResultsCarry` | packages/agent/src/agent-loop.ts:765-789 | the results that are reported carry the outcomes of their calls, in the order of the calls |
| `AgentRules.TruncatedRefused` | packages/agent/src/agent-loop.ts:379-404 | every execution of a truncated answer is an error that does not terminate |
| `AgentRules.PendingExactly` | packages/agent/src/agent.ts:559-571 | after any events a tool call is pending if and only if the last event about it is its start |
| `AgentRules.StreamingExactly` | packages/agent/src/agent.ts:546-557 | which message is streaming after any events: that of the last start or update unless a message or the run has ended since |
| `AgentRules.HeardExactly` | packages/agent/src/agent-loop.ts:312-369 | a stream is read up to its first terminal event; what comes later changes nothing |
| `AgentImplementation.EndedAreNew` | packages/agent/src/agent-loop.ts:96-119 | the messages that end during a run are exactly its new messages, in order |
| `AgentImplementation.ContextGrowsByNewExactly` | packages/agent/src/agent-loop.ts:156-273 | without a replaced context, the context has grown by exactly the new messages if and only if no stream of the run started a second message before its terminal event |
| `AgentImplementation.PendingMessageQueue.Drain` | packages/agent/src/agent.ts:141-154 | draining takes a prefix, all or at most one by mode, and loses nothing |
| `AgentImplementation.Agent.Emit` | packages/agent/src/agent.ts:544-591 | an event is reduced into the state before listeners are awaited |
| `AgentImplementation.Agent.StreamAssistantResponse` | packages/agent/src/agent-loop.ts:279-370 | the stream loop emits and pushes exactly what the stream specifies, up to its first terminal event or its end |
| `AgentImplementation.Agent.PrepareToolCall` | packages/agent/src/agent-loop.ts:598-666 | a tool is to run if and only if it is found, its arguments are accepted, the run is not aborted and the hook does not block the call; anything else is an error of the same call, and only a blocked call may terminate |
| `AgentImplementation.Agent.ExecuteAndFinalize` | packages/agent/src/agent-loop.ts:668-756 | progress reports of a call under way, then an outcome of the same call |
| `AgentImplementation.Agent.StartAll` | packages/agent/src/agent-loop.ts:497-536 | the first parallel phase starts calls in order, none but the first once the run is aborted, and ends at once those that need no execution |
| `AgentImplementation.Agent.FinishAll` | packages/agent/src/agent-loop.ts:538-540 | the second parallel phase ends every execution under way, in any order, with the progress reports of all of them interleaved freely |
| `AgentImplementation.Agent.ReportAll` | packages/agent/src/agent-loop.ts:541-546 | the last parallel phase reports each outcome once, in the order of the calls |
| `AgentImplementation.Agent.FailTruncated` | packages/agent/src/agent-loop.ts:379-404 | every call of a truncated answer is answered with an error in a well-formed batch and none terminates |
| `AgentImplementation.Agent.ExecuteSequential` | packages/agent/src/agent-loop.ts:431-485 | a well-formed batch answering a prefix of the calls: all of them, or after an abort at least the first; once the run is aborted no further call is started |
| `AgentImplementation.Agent.ExecuteParallel` | packages/agent/src/agent-loop.ts:487-552 | the same for executions that report and end in any order and calls that are started one by one, with results in the order of the calls |
| `AgentImplementation.Agent.ExecuteToolCalls` | packages/agent/src/agent-loop.ts:224-241 | the dispatch over the executors yields a well-formed batch in every case |
| `AgentImplementation.Agent.Inject` | packages/agent/src/agent-loop.ts:200-209 | pending messages each start and end, in order |
| `AgentImplementation.Agent.RunTurn` | packages/agent/src/agent-loop.ts:200-243 | a whole turn is a well-formed block and adds what it says to context and new messages; unless its answer failed it asks for more if and only if it has calls and was cut off by the token limit, or one of its executions ended without asking to terminate |
| `AgentImplementation.Agent.PollSteering` | packages/agent/src/agent.ts:475-481 | a poll takes from the steering queue, except the one skipped after a continuation |
| `AgentImplementation.Agent.PollAgain` | packages/agent/src/agent-loop.ts:191-197 | the second poll happens only if nothing is pending, so nothing pending is lost and no queue is injected twice in one-at-a-time mode |
| `AgentImplementation.Agent.PollFollowUps` | packages/agent/src/agent-loop.ts:260-266 | follow-ups are taken only when the agent would stop, and replace no pending message |
| `AgentImplementation.Agent.Round` | packages/agent/src/agent-loop.ts:175-258 | one round of the inner loop: failed answers and stop requests end the run with nothing pending, and whether another turn follows is what the turn asks for |
| `AgentImplementation.Agent.RunLoop` | packages/agent/src/agent-loop.ts:156-273 | the nested loop: well-formed chained turns, then one agent end; per queue, taken messages are injected ones and pending ones in order; at every exit nothing is pending; the run goes on and finishes by the rules of `AgentRules.RunByTheRules` |
| `AgentImplementation.Agent.RunAgentLoop` | packages/agent/src/agent-loop.ts:96-119 | a run opens once, injects its prompts, and closes once with all new messages |
| `AgentImplementation.Agent.RunWithLifecycle` | packages/agent/src/agent.ts:486-535 | a run leaves the agent's transcript extended by exactly the new messages and no streaming message or pending call |
| `AgentImplementation.Agent.DrainPrompts` | packages/agent/src/agent.ts:366-385 | a continuation after an answer starts from steering messages, else from follow-ups, else not at all |
| `AgentImplementation.Agent.Continue` | packages/agent/src/agent.ts:361-388 | a continuation starts exactly if it may, conserves both queues including its prompts, and injects nothing more from steering into its first turn |
| `Publications.KeepInv` | packages/ai/src/models.ts:338-365 | every step keeps the publication chain in order and both effect logs sorted by generation |
| `Publications.EffectsInOrder` | packages/ai/src/models.ts:338-365 | in every run store writes and overlay updates each happen in nondecreasing generation order and at most one publication is past its gate |
| `Publications.SupersededIsSilent` | packages/ai/src/models.ts:320-329 | once superseded, a refresh never changes the overlay, and the store at most once, by the publication already past its gate |
| `PublicationAborts.AbortedIsSilent` | packages/ai/src/models.ts:344-357 | once a refresh has been aborted, in every run the overlay is never changed on its behalf, and the store at most once, by the publication already past its gate |
| `PublicationAborts.GateRefusesExactly` | packages/ai/src/models.ts:347 | a publication at its gate is refused if and only if its refresh has been aborted or is not the latest, and then store and overlay stay as they are |
| `PublicationAborts.ResumeRefusesExactly` | packages/ai/src/models.ts:355 | so is one that continues after its store access |
| `PublicationAborts.ResumesExactly` | packages/ai/src/models.ts:355-357 | after it the overlay is replaced exactly if the refresh is still the latest and unaborted and the access has not thrown |
| `PublicationAborts.AbortsExactly` | packages/ai/src/models.ts:320-336 | a refresh or a replacement aborts exactly the refresh under way, and a caller its own |
| `PublicationAborts.EndedNotAborted` | packages/ai/src/models.ts:431-435 | a refresh that has ended is aborted by nobody but its own caller |
| `Publications.PublishedMeansInStep` | packages/ai/src/models.ts:347-357 | a persisting publication is answered with success if and only if its refresh has not been aborted and is the latest of the provider, and then store and overlay hold the same catalog |
| `Publications.RestoredInStepExactly` | packages/ai/src/models.ts:375-378 | when a refresh restores what it read, the overlay is the provider's part of that, and the store still holds it if and only if no change that was past its gate at the read has landed since with another catalog |
| `Publications.IdleReadRestores` | packages/ai/src/models.ts:803-816 | so with nothing past its gate at the read, the overlay is the provider's part of what the store holds |
| `PublicationHazards.RestoreMayLag` | packages/ai/src/models.ts:375-378 | a run from the start in which they do not: a superseded write lands between the read and the restore |
| `Catalogs.CurrentModels` | packages/ai/src/models.ts:766-774 | the merge loop: looking an id up gives its last dynamic entry, else its first baseline entry |
| `Catalogs.LookupMerged` | packages/ai/src/models.ts:316-318 | the same for the specification of the merge |
| `Catalogs.MergedDistinct` | packages/ai/src/models.ts:766-774 | no id is listed twice unless the baseline lists it twice |
| `Catalogs.BaselineKeepsPlace` | packages/ai/src/models.ts:766-774 | baseline entries keep their positions and ids |
| `Catalogs.NewInOrder` | packages/ai/src/models.ts:766-774 | the entries after the baseline are the new ids, in the order in which they come up |
| `ModelsRegistry.ModelsImpl.SupersedeProviderRefresh` | packages/ai/src/models.ts:320-329 | a new generation, the previous controller aborted, other providers untouched |
| `ModelsRegistry.ModelsImpl.ClearProviders` | packages/ai/src/models.ts:279-284 | the loop supersedes every known or refreshing provider exactly once |
| `ModelsRegistry.ModelsImpl.PassGate` | packages/ai/src/models.ts:346-357 | the first check, and both checks at once when nothing is persisted |
| `ModelsRegistry.ModelsImpl.ReadStored` | packages/ai/src/models.ts:375 | what a refresh phase reads is recorded for its generation alone |
| `ModelsRegistry.ModelsImpl.RestoreStored` | packages/ai/src/models.ts:803-816 | the provider's part of what was read is queued without persisting, and nothing if the store was empty |
| `Sessions.AcquireSettles` | extensions/subagent/sessions.ts:241-293 | a completed acquire never leaves the session running and brings a running one in step with its run record if and only if that record can be read |
| `Sessions.AcquiredIs` | extensions/subagent/sessions.ts:250-287 | what a completed acquire makes of the two records |
| `Sessions.RecoveryConverges` | extensions/subagent/sessions.ts:258-287 | however often recovery is cut short, the first complete one reaches the status, summary and run records of a single uninterrupted one |
| `Sessions.RecoveryFinds` | extensions/subagent/sessions.ts:258-287 | which status and summary a recovery finds for a session that was running, told by the record of its last run |
| `SessionRuns.KeepInv` | extensions/subagent/runner.ts:506-532 | begin, spawn, settle and acquire keep the records consistent with a crash allowed between any two writes |
| `SessionRuns.AcquiredInStep` | extensions/subagent/sessions.ts:241-315 | in every run with crashes, a session whose acquire completed is not running and its status matches its run record |
| `SessionRuns.SettledOutcomeSurvives` | extensions/subagent/runner.ts:515-531 | a settle cut short after the run record shows at the next acquire interrupted if the run was aborted, failed if it failed, else idle, with its report as summary; cut short before, the run is interrupted |
| `SessionRuns.SettledAs` | extensions/subagent/runner.ts:507-531 | a settle that completes stores interrupted in both records if the run was aborted, failed if it failed, else idle and completed, with report, summary and error those of its ending |
| `SessionRuns.BeginsAs` | extensions/subagent/sessions.ts:295-315 | a run that begins is stored as running with its task, before the session says so |
| `SessionRuns.SpawnsAs` | extensions/subagent/runner.ts:456 | the pid of the child joins what is stored, and nothing else changes |
| `SessionRuns.SettledForGood` | extensions/subagent/sessions.ts:258-272 | no later operation or crash rewrites the record of a settled run |
| `SessionStore.ChildSessionStore.ReadRunRecord` | extensions/subagent/sessions.ts:322-340 | a record that is absent or damaged is not read |
| `SessionStore.ChildSessionStore.Recover` | extensions/subagent/sessions.ts:258-287 | the recovery writes exactly the prefix of its specified writes that the crash lets through |
| `SessionStore.ChildSessionStore.Acquire` | extensions/subagent/sessions.ts:241-293 | the same for the whole acquire, which fails only for a child that cannot be killed |
| `SessionStore.ChildSessionStore.BeginRun` | extensions/subagent/sessions.ts:295-315 | run record first, metadata second |
| `SessionStore.ChildSessionStore.RecordSpawn` | extensions/subagent/runner.ts:456 | the pid of the child joins the metadata |
| `SessionStore.ChildSessionStore.SettleRun` | extensions/subagent/runner.ts:508-531 | settled run record first, metadata read again and written second |
| `Slots.KeepInv` | extensions/subagent/runner.ts:188-218 | entering, resuming, finishing and aborting keep the pool invariant |
| `Slots.NoOverbookingNoLostWakeup` | extensions/subagent/runner.ts:194-217 | in every run the counter equals the running bodies and never exceeds the limit, and whoever sleeps has a running body whose end wakes it |
| `Slots.NobodyVanishes` | extensions/subagent/runner.ts:194-217 | a task that entered is never lost |
| `Slots.WokenGetsSlotExactly` | extensions/subagent/runner.ts:194-211 | a woken task gets a slot if and only if it has not been aborted and fewer bodies than the limit run; it sleeps again if and only if they are as many |
| `Slots.AbortsExactly` | extensions/subagent/runner.ts:196-207 | an abort ends a task that sleeps and moves no other one |
| `Slots.FinishesExactly` | extensions/subagent/runner.ts:214-217 | a body that ends wakes all sleepers and moves no other task |
| `Slots.RefusedIsOvertaken` | extensions/subagent/runner.ts:194-217 | if a slot was free for a woken task and none is when it goes on, another task has taken one in between, in any run |
| `Slots.WokenMayBeOvertaken` | extensions/subagent/runner.ts:194-211 | waking is no reservation: a concrete run in which a later task takes the slot |
| `SlotPool.Pool.TryTake` | extensions/subagent/runner.ts:194-211 | one pass of the wait loop |
| `SlotPool.Pool.Leave` | extensions/subagent/runner.ts:214-217 | the end of a body frees its slot and wakes every sleeper of that moment |
| `Unicode.Utf8RoundTrip` | extensions/subagent/runner.ts:149-153 | decoding the UTF-8 bytes of a text gives the text back |
| `Unicode.Utf16RoundTrip` | extensions/subagent/runner.ts:148-154 | the same for UTF-16 units |
| `Unicode.EncodingLengths` | extensions/subagent/runner.ts:149-153 | one byte up to 0x7F, two up to 0x7FF, three up to 0xFFFF, four beyond, with the lead bytes that go with them (section 3 of RFC 3629) |
| `Unicode.EncodingShortest` | extensions/subagent/runner.ts:149-153 | no byte sequence that decodes to a scalar value is shorter than its encoding |
| `Paging.FitIsLongest` | extensions/subagent/runner.ts:148-154 | exactly the prefixes of whole scalar values up to the computed length fit into the cap |
| `Paging.TruncateBytes` | extensions/subagent/runner.ts:148-154 | the loop back over continuation bytes returns the text or its longest fitting prefix of whole scalar values |
| `Paging.TruncatedWellFormed` | extensions/subagent/runner.ts:148-154 | on well-formed text both cases are that prefix |
| `Paging.EvidencePage` | extensions/subagent/index.ts:194-203 | a page and its next offset, and the error of an offset past the end |
| `Paging.ReadAllPages` | extensions/subagent/index.ts:192-203 | following nextOffset from zero ends, every page fits, and the pages together are the text |
| `Indicators.ComputeEma` | extensions/market-lab/indicators.ts:85-91 | the loop computes the exponential average of its definition |
| `Indicators.EmaWithin` | extensions/market-lab/indicators.ts:85-91 | an exponential average stays within the bounds of its inputs |
| `Indicators.ComputeRsi` | extensions/market-lab/indicators.ts:93-111 | both loops and all branches compute the index of its definition |
| `Indicators.SumChanges` | extensions/market-lab/indicators.ts:95-101 | the first loop sums gains and losses |
| `Indicators.SmoothChanges` | extensions/market-lab/indicators.ts:102-108 | the second loop applies Wilder's smoothing once per further value |
| `Indicators.RsiBounds` | extensions/market-lab/indicators.ts:109-110 | the index lies between 0 and 100 |
| `Indicators.RsiNegated` | extensions/market-lab/indicators.ts:93-111 | the index of the negated series is 100 minus the index |
| `IndicatorFacts.EmaStarts` | extensions/market-lab/indicators.ts:87 | the first exponential average is the mean of the first values |
| `IndicatorFacts.EmaWeights` | extensions/market-lab/indicators.ts:88-89 | a further value counts with the weight two against one less than the period for what came before |
| `IndicatorFacts.WilderStarts` | extensions/market-lab/indicators.ts:95-103 | the first averages of gains and losses differ by the change over the first values and add up to the way they travelled, over the period |
| `IndicatorFacts.WilderMoves` | extensions/market-lab/indicators.ts:104-108 | a further change moves each average towards its own part by the share of one period |
| `IndicatorFacts.RsiIs` | extensions/market-lab/indicators.ts:109-110 | the index is the share of the gains in per cent, and 50 if nothing has moved |
| `IndicatorFacts.TrueRangeSpans` | extensions/market-lab/indicators.ts:115-122 | the true range spans the candle and the close before it, so it covers gaps and is at least high minus low |
| `IndicatorFacts.AtrIs` | extensions/market-lab/indicators.ts:113-124 | ATR is there exactly with more candles than the period, is the mean of the last ranges, and at least the mean of high minus low |
| `IndicatorFacts.BandsAre` | extensions/market-lab/indicators.ts:126-132 | the middle is the mean of the last closes, the variance the mean of the squared distances from it |
| `IndicatorSeries.CalculateIndicators` | extensions/market-lab/indicators.ts:134-179 | the loop over the candles computes the points of their definition, carried signal included; each of its points is that of the candles up to its own, so no later candle matters |
| `IndicatorSeries.NextMacd` | extensions/market-lab/indicators.ts:143-148 | the MACD part of a round of the indicator loop, with the carried MACD values and the carried signal |
| `IndicatorSeries.NextPoint` | extensions/market-lab/indicators.ts:141-176 | one round of that loop, from the carried lists to the next point |
| `IndicatorSeries.PointsOfPrefix` | extensions/market-lab/indicators.ts:134-179 | no look-ahead, as `IndicatorSeries.CalculateIndicators` states of the loop: the points of a prefix are the prefix of the points |
| `IndicatorSeries.MacdBound` | extensions/market-lab/indicators.ts:144-148 | the absolute value of MACD is at most the width of the range of the closes |
| `IndicatorSeries.BandsWithin` | extensions/market-lab/indicators.ts:126-132 | the middle of the bands lies in the range of the closes and their variance is not negative |
| `IndicatorSeries.PointWithin` | extensions/market-lab/indicators.ts:140-177 | every point of a bounded series has bounded averages, index and MACD |
| `Strategies.SimulateRule` | extensions/market-lab/strategies.ts:267-311 | the replay loop opens exactly the specified trades, with both argument errors |
| `Strategies.NoOverlap` | extensions/market-lab/strategies.ts:291-310 | trade intervals are pairwise disjoint and in order, and any trade needs tradeCount * horizon + 2 candles |
| `Strategies.ReplayOnlyAppends` | extensions/market-lab/strategies.ts:277-311 | replaying a longer series repeats the trades of the shorter one and may only append |
| `Strategies.ReturnSign` | extensions/market-lab/strategies.ts:296 | a trade gains exactly if the price moved to its side |
| `TradeRules.TradesExactly` | extensions/market-lab/strategies.ts:256-311 | of every replay on the points of any candles: a trade is opened exactly where a signal is at a free index with a positive next open; it is long exactly if the fast average crosses above the slow one, the histogram above zero, or the index falls below 30, and short conversely; entry and exit are that open and the close at the horizon, and the return has the sign of the move to the side |
| `TradeRules.EvaluationExactly` | extensions/market-lab/strategies.ts:63-179 | the signal of each preset, told by indicator values a candle apart |
| `ReplayStats.SummaryConsistent` | extensions/market-lab/strategies.ts:312-358 | the counts split the trades by side and by sign, and the average return lies between the worst and the best, each attained by a trade |
| `ReplayStats.CountsExactly` | extensions/market-lab/strategies.ts:345-350 | longs, shorts, wins, losses and flats are the numbers of trades with that side or that sign of the return |
| `ReplayStats.RatesExactly` | extensions/market-lab/strategies.ts:351-353 | the win rate is the share of the wins, the average the share of the sum of the returns |
| `ReplayStats.ReturnsBetween` | extensions/market-lab/strategies.ts:354-355 | every return lies between the worst and the best |
| `WarmUp.NoTradeBeforeWarmUp` | extensions/market-lab/strategies.ts:322-327 | with fewer candles than the recommended minimum no series opens a trade, for every preset, periods and horizon |
| `WarmUp.TradeAtWarmUp` | extensions/market-lab/strategies.ts:322-327 | with exactly the minimum some series does, if the preset can signal at all |
| `WarmUp.NoTradeEver` | extensions/market-lab/strategies.ts:82-91 | a preset with two equal periods never opens a trade on any series |
| `ProxyFraming.LinesConcat` | packages/agent/src/proxy.ts:193-195 | text that arrives later completes the open line and adds further ones |
| `ProxyFraming.Split` | packages/agent/src/proxy.ts:194-195 | the split into complete lines and the rest |
| `ProxyFacts.LinesAre` | packages/agent/src/proxy.ts:193-195 | the lines with their line feeds and the rest are the text |
| `ProxyRebuild.RebuildIsLocal` | packages/agent/src/proxy.ts:240-351 | what is rebuilt at a content index depends only on the events about that index |
| `ProxyRebuild.StartForgets` | packages/agent/src/proxy.ts:248-250 | a start forgets everything before it |
| `ProxyRebuild.TextRebuilt` | packages/agent/src/proxy.ts:252-310 | a text or thinking block holds exactly the deltas since its last start |
| `ProxyRebuild.CallRebuilt` | packages/agent/src/proxy.ts:312-336 | so does the partial JSON of a tool call that has not ended |
| `ProxyRebuild.AfterCallEnd` | packages/agent/src/proxy.ts:338-350 | after the end of a call its partial JSON is gone, and a later delta starts it again from the text undefined |
| `ProxyRebuild.EndedCallDiffersExactly` | packages/agent/src/proxy.ts:325-342 | after an end, partial JSON equals the deltas since the start if and only if later deltas follow earlier ones that spelled undefined |
| `ProxyRebuild.EndedCallRebuiltExactly` | packages/agent/src/proxy.ts:325-342 | the same of the rebuilt message, whatever came before the last start and whatever other indexes received |
| `ProxyRebuild.DeltaAfterEnd` | packages/agent/src/proxy.ts:325-342 | a concrete message with such a block |
| `ProxyFacts.AcceptedExactly` | packages/agent/src/proxy.ts:240-351 | over whole streams: the events are accepted if and only if every delta or end, but the end of a call, belongs to the last start at its index |
| `ProxyFacts.KindIs` | packages/agent/src/proxy.ts:248-310 | a block is there once something has started at its index, and of the kind started last |
| `ProxyFacts.PassedExactly` | packages/agent/src/proxy.ts:240-371 | every event is passed on but the ends of calls that are not there, and the stop reason is that of the last done or error |
| `ProxyFacts.SignatureIs` | packages/agent/src/proxy.ts:265-310 | a signature is that of the last end since the start |
| `ProxyFacts.CallIs` | packages/agent/src/proxy.ts:312-351 | a call is named by its last start or end; its arguments are empty after a start, parsed from the partial JSON after a delta, and those given after an end, which alone leaves no partial JSON |
| `ProxyStream.Reader.ProcessProxyEvent` | packages/agent/src/proxy.ts:240-371 | each event changes the message in place as specified or is refused and changes nothing |
| `ProxyStream.Reader.TakeOne` | packages/agent/src/proxy.ts:197-208 | one line: skipped, decoded and processed, or the end of the stream by error |
| `ProxyStream.Reader.Feed` | packages/agent/src/proxy.ts:193-208 | after every chunk the message is that of the complete lines of all text received |
| `ProxyStream.ReadChunks` | packages/agent/src/proxy.ts:185-209 | the outcome depends only on the concatenated text, not on the chunk boundaries; an abort noticed with a chunk leaves what the text before it has led to |
| `ProxyStream.RunningIsRebuilt` | packages/agent/src/proxy.ts:197-208 | a stream that did not break off holds the message rebuilt from all its events |
| `ProxyFacts.DataIs` | packages/agent/src/proxy.ts:198-200 | a data line is the prefix and white space around its payload, and every other line carries nothing |
| `ProxyFacts.RunsExactly` | packages/agent/src/proxy.ts:197-208 | a stream runs on if and only if every payload can be read and every event fits |

## Left out

- Continuations whose promise has settled may run in any order in the lease model, a superset of what a promise job
  queue does; the events of a run stand for the scheduler.
- LeaseCache.KeepCoupled: leaves out server snapshots and progress events, which neither part reads; the cache is
  cleared at any moment without a link, a superset of the starts of a connection.
- Listeners do not re-enter connect or disconnect, except the one case of `ConnectionRuns.LeftoversReachTheNewAttempt`.
- Client requests other than attach, detach and create are one opaque command; response frames, encoding errors,
  request names and the mismatch of a response command are one failed outcome. The decoder is a parameter: a chunk
  yields messages or is malformed.
- AgentImplementation.Agent.RunLoop: bounds the number of turns looked at, because nothing in the code bounds it;
  everything is stated for the turns up to the bound, and for complete runs when the run ends within it.
- AgentImplementation.Agent.PrepareToolCall: does not model the tool table, argument validation and the hook one by
  one; any of them may refuse, in the order of the code, and the reason is opaque.
- AgentImplementation.Agent.RunWithLifecycle: covers runs that do not throw; the failure message of a run that throws
  and clearing a queue are not modelled. Queue modes do not change during a run.
- LeaseExact.OrderlyExactly: speaks of continuations the model allows; the job queue of a runtime may leave some of
  them out, so a disorderly event need not go wrong under a given scheduler. Which token is counted wrongly is not said.
- LeaseSafety.LeaseAccounting: counts an acquisition that a disconnect has overtaken as giving its token up at the
  disconnect, when the tables are cleared, and not when its continuation runs.
- Message conversion, context transformation, API keys, usage, timestamps and thinking levels of a turn carry no
  property here.
- Publications.PublishedMeansInStep: speaks of the moment of the answer; the caller's race with its abort signal can
  only replace that answer by an error. Credentials and header merging are left out, as are cost and thinking-level
  tables.
- Publications.EffectsInOrder: takes a store access that throws as one that never lands. With a store whose failed
  write lands later, a change could follow one of a newer generation; `Publications.RestoredInStepExactly` and
  `Publications.SupersededIsSilent` rely on the same.
- Publications.IdleReadRestores: makes the same assumption as the next line.
- Publications.RestoredInStepExactly: assumes that the refresh persists nothing and reads no more between its read and
  its restore, as the provider built from parts does; a provider of its own making may do otherwise.
- Sessions.RecoveryConverges: compares status, summary and run records, not timestamps. Locks, atomic file writes,
  schema checks, symbolic links, session creation and listing are not part of this model.
- Paging.ReadAllPages: is about well-formed text, which a JSON serializer always yields; a single truncation is
  specified for every string.
- Indicators use reals, so rounding, infinities and not-a-number do not occur. Recent high and low are left out. Periods
  outside 2 to 200 are not representable; rejecting them is not modelled.
- IndicatorSeries.CalculateIndicators: gives the variance from which the upper and lower Bollinger band are computed,
  not the bands, because their distance from the middle is a square root.
- Strategies.SimulateRule: returns the trades; the statistics over them are `ReplayStats.Summary`, and the warning texts
  are left out, but for the number of candles they recommend (`WarmUp`).
- ProxyStream.Reader.Feed: takes the decoded text of a chunk; decoding bytes, parsing of events and of partial JSON are
  function parameters or left out, and the error event pushed after a break is not modelled.
- HTTP, sockets, child processes, terminal output, configuration and the exchange side are not modelled.
