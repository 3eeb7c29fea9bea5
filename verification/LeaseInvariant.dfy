/** The accounting invariant of the lease protocol, and the exact condition under which each
    event keeps it. */
module LeaseInvariant {
  import opened Leases

  // ---------- unreleased tokens ----------

  datatype Owner = Nobody | Session(id: SessionId)

  /** The session token `t` still counts for: that of an acquisition of this link epoch, or of a
      lease of the current generation that has not been given back. */
  function OwnerOf(s: State, t: Token): Owner {
    if t in s.acquisitions then
      if s.acquisitions[t].epoch == s.epoch then Session(s.acquisitions[t].session) else Nobody
    else if t in s.leases then
      if !IsStale(s, t) && Holding(s.leases[t].phase) then Session(s.leases[t].session) else Nobody
    else Nobody
  }

  predicate Holding(phase: Phase) { phase.Active? || Releasing(phase) }

  predicate Releasing(phase: Phase) { phase.Detaching? || phase.Failing? }

  function ModeOf(s: State, t: Token): Mode
    requires t in s.acquisitions || t in s.leases
  {
    if t in s.acquisitions then s.acquisitions[t].mode else s.leases[t].mode
  }

  /** The unreleased tokens of a session. */
  function Tokens(s: State, id: SessionId): set<Token> {
    set t | t in s.acquisitions.Keys + s.leases.Keys && OwnerOf(s, t) == Session(id)
  }

  /** An acquisition the last disconnect has overtaken. */
  ghost predicate Overtaken(s: State, t: Token) {
    t in s.acquisitions && s.acquisitions[t].epoch != s.epoch
  }

  ghost predicate Drained(s: State, id: SessionId) {
    forall t | t in s.acquisitions && s.acquisitions[t].session == id :: !Overtaken(s, t)
  }

  // ---------- the invariant ----------

  predicate Known(s: State, p: Promise) { p in s.pending || p in s.settled }

  ghost predicate Names(s: State) {
    && (forall t | t in s.acquisitions :: t < s.next && t !in s.leases && s.acquisitions[t].epoch <= s.epoch)
    && (forall t | t in s.leases :: t < s.next)
    && (forall p | p in s.pending :: p < s.next && p !in s.settled)
    && (forall p | p in s.settled :: p < s.next)
    && (forall p | p in s.creations :: p in s.settled || (p in s.pending && s.pending[p] == Create))
  }

  ghost predicate Accounting(s: State) {
    forall id :: Count(s, id) == |Tokens(s, id)| && (id in s.counts ==> s.counts[id] > 0)
  }

  ghost predicate Ownership(s: State) {
    && (forall id | id in s.exclusive :: Tokens(s, id) == {s.exclusive[id]})
    && (forall t | t in s.acquisitions || t in s.leases ::
          OwnerOf(s, t).Session? && ModeOf(s, t) == Exclusive ==>
            OwnerOf(s, t).id in s.exclusive && s.exclusive[OwnerOf(s, t).id] == t)
  }

  ghost predicate Generations(s: State) {
    forall t | t in s.leases ::
      s.leases[t].session in s.generations && s.leases[t].generation <= s.generations[s.leases[t].session]
  }

  predicate Rejected(s: State, p: Promise) { p in s.settled && s.settled[p] == Failed }

  predicate Fulfilled(s: State, p: Promise) { p in s.settled && s.settled[p] != Failed }

  /** An acquisition that can only give its token back: what it waits for has been rejected. */
  ghost predicate Leaving(s: State, t: Token)
    requires t in s.acquisitions
  {
    !s.acquisitions[t].wait.OnDetachment? && Rejected(s, s.acquisitions[t].wait.promise)
  }

  /** An overtaken acquisition is of a session that nobody counts, and cannot succeed while the
      link stays as it is. */
  ghost predicate LeftBehind(s: State, t: Token)
    requires t in s.acquisitions
  {
    && s.acquisitions[t].session !in s.counts
    && (s.connected || s.acquisitions[t].wait.OnAttachment? ==> Leaving(s, t))
  }

  /** Without a link nothing is pending, attached, marked or being released. */
  ghost predicate Cuts(s: State) {
    && (!s.connected ==> s.pending == map[] && s.attached == {} && s.cleanup == {})
    && (s.disposed ==> !s.connected)
    && (forall t | t in s.acquisitions && Overtaken(s, t) :: LeftBehind(s, t))
    && (forall t | t in s.leases && Releasing(s.leases[t].phase) && !IsStale(s, t) :: s.connected)
  }

  /** No creation can still make a lease of the session. */
  ghost predicate Uncreated(s: State, id: SessionId) {
    forall c | c in s.creations :: c in s.settled ==> s.settled[c] != Created(id)
  }

  /** The client is disposed and nothing can be counted for the session any more. */
  ghost predicate Sealed(s: State, id: SessionId) {
    s.disposed && id !in s.counts && id !in s.exclusive && Uncreated(s, id)
  }

  /** What a stale lease may be waiting for: giving its token back takes nobody else's. */
  ghost predicate Harmless(s: State, id: SessionId, p: Promise) {
    p in s.settled && (s.settled[p] == Failed || Sealed(s, id))
  }

  /** A lease that is detaching is alone, but for acquisitions that wait for its detach. */
  ghost predicate DetachAlone(s: State, t: Token)
    requires t in s.leases && s.leases[t].phase.Detaching?
  {
    var Lease(id, _, _, Detaching(p, _)) := s.leases[t];
    && Known(s, p)
    && (IsStale(s, t) ==> Harmless(s, id, p))
    && (p in s.pending ==>
          && s.pending[p] == Detach(id)
          && id in s.detachments && s.detachments[id] == p
          && (forall u | u in s.acquisitions && s.acquisitions[u].session == id ::
                s.acquisitions[u].wait == OnDetachment(p))
          && (forall u | u in s.leases && u != t :: OwnerOf(s, u) != Session(id)))
  }

  ghost predicate Detaches(s: State) {
    && (forall t | t in s.leases && s.leases[t].phase.Detaching? :: DetachAlone(s, t))
    && (forall id | id in s.detachments :: Known(s, s.detachments[id]))
  }

  ghost predicate WaitKnown(s: State, t: Token)
    requires t in s.acquisitions
  {
    var a := s.acquisitions[t];
    && Known(s, a.wait.promise)
    && (a.wait.OnAttachment? && a.wait.promise in s.pending ==> s.pending[a.wait.promise] == Attach(a.session))
    && (a.wait.OnReconciliation? && a.wait.promise in s.pending ==> s.pending[a.wait.promise] == Detach(a.session))
  }

  ghost predicate RequestKnown(s: State, p: Promise)
    requires p in s.pending
  {
    s.pending[p].Attach? ==>
      s.pending[p].session in s.attachments && s.attachments[s.pending[p].session] == p
  }

  ghost predicate Waits(s: State, t: Token, id: SessionId, wait: Wait) {
    t in s.acquisitions && s.acquisitions[t].session == id && s.acquisitions[t].wait == wait
  }

  /** A shared attach promise is there for some acquisition that waits for it. */
  ghost predicate AttachmentKnown(s: State, id: SessionId)
    requires id in s.attachments
  {
    var p := s.attachments[id];
    && Known(s, p)
    && (p in s.pending ==> s.pending[p] == Attach(id))
    && exists t :: Waits(s, t, id, OnAttachment(p))
  }

  ghost predicate ReconciliationKnown(s: State, id: SessionId)
    requires id in s.reconciliations
  {
    var p := s.reconciliations[id];
    Known(s, p) && (p in s.pending ==> s.pending[p] == Detach(id))
  }

  ghost predicate Attaches(s: State) {
    && (forall t | t in s.acquisitions :: WaitKnown(s, t))
    && (forall p | p in s.pending :: RequestKnown(s, p))
    && (forall id | id in s.attachments :: AttachmentKnown(s, id))
    && (forall id | id in s.reconciliations :: ReconciliationKnown(s, id))
  }

  ghost predicate Books(s: State) { Accounting(s) && Ownership(s) }

  ghost predicate Basics(s: State) { Names(s) && Generations(s) && Cuts(s) }

  ghost predicate Wire(s: State) { Basics(s) && Detaches(s) && Attaches(s) }

  ghost predicate Inv(s: State) { Books(s) && Wire(s) }

  // ---------- the side conditions, event by event ----------

  /** The side condition under which an event keeps the invariant. */
  ghost predicate Orderly(s: State, e: Event) {
    match e
    case BeginAcquire(id, _) =>
      // whatever the last disconnect rejected for this session has run
      Drained(s, id) || s.disposed
    case ResumeCreate(p) =>
      p in s.settled && s.settled[p].Created? ==> Drained(s, s.settled[p].session)
    case Connect =>
      // of what it rejected, only what can do nothing but give up is left
      forall t | t in s.acquisitions && Overtaken(s, t) :: Leaving(s, t)
    case SessionRemoved(id) =>
      // no acquire of this link epoch and no detach of the session is outstanding
      && (forall t | t in s.acquisitions && s.acquisitions[t].session == id :: Overtaken(s, t))
      && (forall t | t in s.leases && s.leases[t].phase.Detaching? && s.leases[t].session == id ::
            Rejected(s, s.leases[t].phase.promise))
    case Disconnect =>
      AttachesHandled(s) && forall t :: !DetachUnhandled(s, t)
    case Dispose =>
      // the end of a detach may come later, unless a creation brings its session back
      AttachesHandled(s) && forall t | DetachUnhandled(s, t) :: Uncreated(s, s.leases[t].session)
    case _ => true
  }

  /** No acknowledged attach still waits for its continuation to run. */
  ghost predicate AttachesHandled(s: State) {
    forall t | t in s.acquisitions && s.acquisitions[t].wait.OnAttachment? ::
      !Fulfilled(s, s.acquisitions[t].wait.promise)
  }

  /** The detach of the lease is acknowledged, but its continuation has not run. */
  ghost predicate DetachUnhandled(s: State, t: Token) {
    t in s.leases && s.leases[t].phase.Detaching? && Fulfilled(s, s.leases[t].phase.promise)
  }

  lemma InitInv()
    ensures Inv(Init)
  {
    forall id ensures Count(Init, id) == |Tokens(Init, id)| {
      assert Tokens(Init, id) == {};
    }
  }
}
