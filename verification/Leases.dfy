/** The session-lease protocol of `PiClient` as a transition system.

    One event is one synchronous segment of the client: the code between two awaits, one server
    message, or one change of the link.  Continuations whose promise has settled may run in any
    order, which includes every order a promise job queue produces.  A promise is named by the
    number of the request it follows. */
module Leases {

  type SessionId = string
  type Token = nat
  type Promise = nat

  datatype Mode = Shared | Exclusive

  datatype Command =
    | Attach(session: SessionId)
    | Detach(session: SessionId)
    | Create
    | Other

  datatype Outcome = Acked | Created(session: SessionId) | Failed

  /** Where an acquisition is suspended. */
  datatype Wait =
    | OnDetachment(promise: Promise)
    | OnReconciliation(promise: Promise)
    | OnAttachment(promise: Promise)

  datatype Acquisition = Acquisition(session: SessionId, mode: Mode, wait: Wait, epoch: nat)

  /** The closure variable `state` of a lease; `Detaching` and `Failing` are the two suspension
      points of a release that had to talk to the server. */
  datatype Phase =
    | Active
    | Detaching(promise: Promise, relinquish: bool)
    | Failing(relinquish: bool)
    | Released
    | Invalidated

  datatype Lease = Lease(session: SessionId, mode: Mode, generation: nat, phase: Phase)

  datatype State = State(
    counts: map<SessionId, nat>,
    exclusive: map<SessionId, Token>,
    generations: map<SessionId, nat>,
    attachments: map<SessionId, Promise>,
    detachments: map<SessionId, Promise>,
    cleanup: set<SessionId>,
    reconciliations: map<SessionId, Promise>,
    pending: map<Promise, Command>,
    settled: map<Promise, Outcome>,
    attached: set<SessionId>,
    connected: bool,
    disposed: bool,
    epoch: nat,
    next: nat,
    acquisitions: map<Token, Acquisition>,
    creations: set<Promise>,
    leases: map<Token, Lease>)

  const Init := State(map[], map[], map[], map[], map[], {}, map[], map[], map[], {},
                      false, false, 0, 0, map[], {}, map[])

  datatype Event =
    | BeginAcquire(session: SessionId, mode: Mode)
    | ResumeAcquire(token: Token)
    | BeginCreate
    | ResumeCreate(promise: Promise)
    | BeginRelease(token: Token, relinquish: bool)
    | ResumeRelease(token: Token)
    | CatchRelease(token: Token)
    | ResumeReconcile(session: SessionId)
    | SendOther
    | Respond(promise: Promise, outcome: Outcome, attachedFlag: bool)
    | Snapshot(session: SessionId, attachedFlag: bool)
    | SessionRemoved(session: SessionId)
    | Connect
    | Disconnect
    | Dispose

  // ---------- lease bookkeeping ----------

  function Count(s: State, id: SessionId): nat {
    if id in s.counts then s.counts[id] else 0
  }

  function Generation(s: State, id: SessionId): nat {
    if id in s.generations then s.generations[id] else 0
  }

  predicate CanReserve(s: State, id: SessionId, mode: Mode) {
    match mode
    case Exclusive => Count(s, id) == 0
    case Shared => id !in s.exclusive
  }

  /** Counts a new token named `s.next`. */
  function Reserved(s: State, id: SessionId, mode: Mode): State {
    s.(counts := s.counts[id := Count(s, id) + 1],
       exclusive := if mode == Exclusive then s.exclusive[id := s.next] else s.exclusive,
       next := s.next + 1)
  }

  function Unreserved(s: State, id: SessionId, t: Token): State {
    s.(counts := if Count(s, id) <= 1 then s.counts - {id} else s.counts[id := Count(s, id) - 1],
       exclusive := if id in s.exclusive && s.exclusive[id] == t then s.exclusive - {id} else s.exclusive)
  }

  function Invalidate(s: State, id: SessionId): State {
    s.(counts := s.counts - {id},
       exclusive := s.exclusive - {id},
       cleanup := s.cleanup - {id},
       generations := s.generations[id := Generation(s, id) + 1])
  }

  /** What the loop over the counted sessions amounts to. */
  function InvalidateAll(s: State): State {
    s.(counts := map[],
       exclusive := s.exclusive - s.counts.Keys,
       cleanup := {},
       generations := map id | id in s.generations.Keys + s.counts.Keys ::
                        if id in s.counts then Generation(s, id) + 1 else s.generations[id])
  }

  // ---------- requests ----------

  /** The table without the entry of the session, if that entry is this promise. */
  function Without(table: map<SessionId, Promise>, id: SessionId, p: Promise): map<SessionId, Promise> {
    if id in table && table[id] == p then table - {id} else table
  }

  /** Issues a request named `s.next`; without a usable link its promise is rejected at once. */
  function Sent(s: State, command: Command): State {
    if s.connected && !s.disposed then
      s.(pending := s.pending[s.next := command], next := s.next + 1)
    else
      s.(settled := s.settled[s.next := Failed], next := s.next + 1)
  }

  function RejectPending(s: State): State {
    s.(pending := map[],
       settled := map p | p in s.settled.Keys + s.pending.Keys ::
                    if p in s.pending then Failed else s.settled[p])
  }

  // ---------- acquiring ----------

  /** What an acquisition does at a check: wait for a promise, or become a lease now. */
  datatype Decision = Await(state: State, wait: Wait) | Grant

  /** The segment from the attached check on: share or send an attach, or finish. */
  function CheckAttached(s: State, id: SessionId, reconciled: bool): Decision {
    if !reconciled && id in s.attached then Grant
    else if id in s.attachments then Await(s, OnAttachment(s.attachments[id]))
    else
      var s1 := Sent(s, Attach(id));
      Await(s1.(attachments := s1.attachments[id := s.next]), OnAttachment(s.next))
  }

  /** The segment after an earlier detach has settled: share or send the cleanup detach. */
  function CheckCleanup(s: State, id: SessionId): Decision {
    if id !in s.cleanup then CheckAttached(s, id, false)
    else if id in s.reconciliations then Await(s, OnReconciliation(s.reconciliations[id]))
    else
      var s1 := Sent(s, Detach(id));
      Await(s1.(reconciliations := s1.reconciliations[id := s.next]), OnReconciliation(s.next))
  }

  /** The acquisition becomes a lease of the current generation. */
  function Granted(s: State, t: Token, id: SessionId, mode: Mode): State {
    s.(acquisitions := s.acquisitions - {t},
       leases := s.leases[t := Lease(id, mode, Generation(s, id), Active)],
       generations := s.generations[id := Generation(s, id)])
  }

  function Carried(s: State, t: Token, id: SessionId, mode: Mode, epoch: nat, decision: Decision): State {
    match decision
    case Await(s1, wait) => s1.(acquisitions := s1.acquisitions[t := Acquisition(id, mode, wait, epoch)])
    case Grant => Granted(s, t, id, mode)
  }

  function Abandoned(s: State, t: Token, id: SessionId): State {
    Unreserved(s, id, t).(acquisitions := s.acquisitions - {t})
  }

  /** A new acquisition first waits for a detach that is under way. */
  function CheckDetachment(s: State, id: SessionId): Decision {
    if id in s.detachments then Await(s, OnDetachment(s.detachments[id])) else CheckCleanup(s, id)
  }

  function Acquire(s: State, id: SessionId, mode: Mode): State {
    if s.disposed || !CanReserve(s, id, mode) then s
    else
      var s1 := Reserved(s, id, mode);
      Carried(s1, s.next, id, mode, s.epoch, CheckDetachment(s1, id))
  }

  function ContinueAcquire(s: State, t: Token): State
    requires t in s.acquisitions && s.acquisitions[t].wait.promise in s.settled
  {
    var a := s.acquisitions[t];
    var failed := s.settled[a.wait.promise].Failed?;
    match a.wait
    case OnDetachment(_) => Carried(s, t, a.session, a.mode, a.epoch, CheckCleanup(s, a.session))
    case OnReconciliation(_) =>
      if failed then Abandoned(s, t, a.session)
      else Carried(s, t, a.session, a.mode, a.epoch, CheckAttached(s, a.session, true))
    case OnAttachment(p) =>
      var s1 := ForgetAttachment(s, a.session, p);
      if failed then Abandoned(s1, t, a.session) else Granted(s1, t, a.session, a.mode)
  }

  function ForgetAttachment(s: State, id: SessionId, p: Promise): State {
    s.(attachments := Without(s.attachments, id, p))
  }

  function ContinueCreate(s: State, p: Promise): State
    requires p in s.settled
  {
    var s1 := s.(creations := s.creations - {p});
    match s.settled[p]
    case Created(id) =>
      if CanReserve(s1, id, Exclusive) then Granted(Reserved(s1, id, Exclusive), s1.next, id, Exclusive) else s1
    case _ => s1
  }

  // ---------- releasing ----------

  function SetPhase(s: State, t: Token, phase: Phase): State
    requires t in s.leases
  {
    s.(leases := s.leases[t := s.leases[t].(phase := phase)])
  }

  predicate IsStale(s: State, t: Token)
    requires t in s.leases
  {
    s.leases[t].session !in s.generations || s.generations[s.leases[t].session] != s.leases[t].generation
  }

  /** `refreshState`: a lease of an older generation is found out lazily.  One whose release is
      under way may be left to the end of that release: a stale lease stays stale. */
  function Refreshed(s: State, t: Token): State
    requires t in s.leases
  {
    if s.leases[t].phase.Active? && IsStale(s, t) then SetPhase(s, t, Invalidated) else s
  }

  predicate IsActive(s: State, t: Token)
    requires t in s.leases
  {
    s.leases[t].phase.Active? && !IsStale(s, t) && s.leases[t].session in s.attached
  }

  function DetachSent(s: State, t: Token, relinquish: bool): State
    requires t in s.leases
  {
    var id := s.leases[t].session;
    var s1 := Sent(s, Detach(id));
    SetPhase(s1.(detachments := s1.detachments[id := s.next]), t, Detaching(s.next, relinquish))
  }

  function Release(s: State, t: Token, relinquish: bool): State
    requires t in s.leases
  {
    var s1 := Refreshed(s, t);
    var id := s.leases[t].session;
    if !s1.leases[t].phase.Active? then s1
    else if s.disposed || !s.connected || id !in s.attached then s1
    else if Count(s1, id) <= 1 then DetachSent(s1, t, relinquish)
    else SetPhase(Unreserved(s1, id, t), t, Released)
  }

  function ContinueRelease(s: State, t: Token): State
    requires t in s.leases && s.leases[t].phase.Detaching? && s.leases[t].phase.promise in s.settled
  {
    var id := s.leases[t].session;
    var p := s.leases[t].phase.promise;
    var s1 := ForgetDetachment(s, id, p);
    if s.settled[p].Failed? then SetPhase(s1, t, Failing(s.leases[t].phase.relinquish))
    else SetPhase(Unreserved(s1, id, t), t, Released)
  }

  function ForgetDetachment(s: State, id: SessionId, p: Promise): State {
    s.(detachments := Without(s.detachments, id, p))
  }

  function CatchFailedRelease(s: State, t: Token): State
    requires t in s.leases && s.leases[t].phase.Failing?
  {
    var id := s.leases[t].session;
    if IsStale(s, t) then SetPhase(s, t, Invalidated)
    else if s.leases[t].phase.relinquish then
      SetPhase(Unreserved(s, id, t).(cleanup := s.cleanup + {id}), t, Released)
    else SetPhase(s, t, Active)
  }

  function ContinueReconcile(s: State, id: SessionId): State
    requires id in s.reconciliations && s.reconciliations[id] in s.settled
  {
    s.(cleanup := if s.settled[s.reconciliations[id]].Failed? then s.cleanup else s.cleanup - {id},
       reconciliations := s.reconciliations - {id})
  }

  // ---------- messages and the link ----------

  function SetAttached(s: State, id: SessionId, flag: bool): State {
    s.(attached := if flag then s.attached + {id} else s.attached - {id})
  }

  function AttachedAfter(s: State, command: Command, outcome: Outcome, flag: bool): set<SessionId> {
    match outcome
    case Failed => s.attached
    case Created(id) => if flag then s.attached + {id} else s.attached - {id}
    case Acked =>
      match command
      case Detach(id) => s.attached - {id}
      case Attach(id) => if flag then s.attached + {id} else s.attached - {id}
      case _ => s.attached
  }

  /** A response settles its request; the session result updates the attached set first. */
  function Answered(s: State, p: Promise, outcome: Outcome, flag: bool): State
    requires p in s.pending
  {
    s.(attached := AttachedAfter(s, s.pending[p], outcome, flag),
       pending := s.pending - {p},
       settled := s.settled[p := outcome])
  }

  /** The whole disconnect handler. */
  function Cut(s: State): State {
    RejectPending(InvalidateAll(s.(attached := {}))).(connected := false, epoch := s.epoch + 1)
  }

  // ---------- the transition system ----------

  /** Whether an outcome answers a command at all. */
  predicate Answers(outcome: Outcome, command: Command) {
    match outcome
    case Failed => true
    case Created(_) => command.Create?
    case Acked => !command.Create?
  }

  /** An acquisition that shares a reconciliation also waits for the block that clears it. */
  predicate CanResume(s: State, t: Token) {
    && t in s.acquisitions
    && s.acquisitions[t].wait.promise in s.settled
    && (s.acquisitions[t].wait.OnReconciliation? ==>
          s.acquisitions[t].session !in s.reconciliations
          || s.reconciliations[s.acquisitions[t].session] != s.acquisitions[t].wait.promise)
  }

  predicate Enabled(s: State, e: Event) {
    match e
    case BeginAcquire(_, _) => true
    case ResumeAcquire(t) => CanResume(s, t)
    case BeginCreate => true
    case ResumeCreate(p) => p in s.creations && p in s.settled
    case BeginRelease(t, _) => t in s.leases
    case ResumeRelease(t) => t in s.leases && s.leases[t].phase.Detaching? && s.leases[t].phase.promise in s.settled
    case CatchRelease(t) => t in s.leases && s.leases[t].phase.Failing?
    case ResumeReconcile(id) => id in s.reconciliations && s.reconciliations[id] in s.settled
    case SendOther => true
    case Respond(p, outcome, _) => s.connected && p in s.pending && Answers(outcome, s.pending[p])
    case Snapshot(_, _) => s.connected
    case SessionRemoved(_) => s.connected
    case Connect => !s.connected && !s.disposed
    case Disconnect => !s.disposed
    case Dispose => !s.disposed
  }

  function Apply(s: State, e: Event): State
    requires Enabled(s, e)
  {
    match e
    case BeginAcquire(id, mode) => Acquire(s, id, mode)
    case ResumeAcquire(t) => ContinueAcquire(s, t)
    case BeginCreate => Sent(s, Create).(creations := s.creations + {s.next})
    case ResumeCreate(p) => ContinueCreate(s, p)
    case BeginRelease(t, relinquish) => Release(s, t, relinquish)
    case ResumeRelease(t) => ContinueRelease(s, t)
    case CatchRelease(t) => CatchFailedRelease(s, t)
    case ResumeReconcile(id) => ContinueReconcile(s, id)
    case SendOther => Sent(s, Other)
    case Respond(p, outcome, flag) => Answered(s, p, outcome, flag)
    case Snapshot(id, flag) => SetAttached(s, id, flag)
    case SessionRemoved(id) => Invalidate(s, id).(attached := s.attached - {id})
    case Connect => s.(connected := true, attached := {})
    case Disconnect => Cut(s)
    case Dispose => Cut(s).(disposed := true)
  }
}
