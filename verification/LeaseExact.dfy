/** The side conditions of the lease protocol are exact for its accounting: after an event that
    violates its side condition, events that all meet theirs can lead to a wrong count. */
module LeaseExact {
  import opened Leases
  import opened LeaseInvariant
  import opened LeaseWire
  import opened LeaseBooks
  import opened LeaseSteps
  import opened LeaseSafety

  /** Some run of orderly events ends in a state in which a session is miscounted. */
  ghost predicate GoesWrong(s: State) {
    exists es :: Runs(s, es) && OrderlyRun(s, es) && !Accounting(After(s, es))
  }

  lemma WrongNow(s: State, id: SessionId)
    requires Count(s, id) != |Tokens(s, id)|
    ensures GoesWrong(s)
  {
    assert Runs(s, []) && OrderlyRun(s, []) && After(s, []) == s;
  }

  lemma WrongLater(s: State, e: Event)
    requires Enabled(s, e) && Orderly(s, e) && GoesWrong(Apply(s, e))
    ensures GoesWrong(s)
  {
    var es :| Runs(Apply(s, e), es) && OrderlyRun(Apply(s, e), es) && !Accounting(After(Apply(s, e), es));
    var all := [e] + es;
    assert all[0] == e && all[1..] == es;
    assert Runs(s, all) && OrderlyRun(s, all) && After(s, all) == After(Apply(s, e), es);
  }

  /** An unreleased token of a session that nobody counts. */
  lemma WrongUncounted(s: State, u: Token, id: SessionId)
    requires OwnerOf(s, u) == Session(id) && Count(s, id) == 0
    ensures GoesWrong(s)
  {
    assert u in Tokens(s, id);
    WrongNow(s, id);
  }

  // ---------- acquisitions that the link has left behind ----------

  /** There is no link, and an attach of the session would be rejected. */
  ghost predicate Offline(s: State, id: SessionId) {
    && !s.connected && s.pending == map[] && s.attached == {} && s.cleanup == {}
    && (id in s.attachments ==> Rejected(s, s.attachments[id]))
    && (forall p | p in s.settled :: p < s.next)
  }

  /** Acquisition `t` can be driven to its end without ever becoming a lease. */
  ghost predicate Doomed(s: State, id: SessionId, t: Token) {
    && t in s.acquisitions && s.acquisitions[t].session == id && s.acquisitions[t].wait.promise in s.settled
    && (Leaving(s, t) || (Offline(s, id) && !s.acquisitions[t].wait.OnAttachment?))
  }

  /** The acquisition shares a reconciliation whose own continuation comes first. */
  predicate Behind(s: State, id: SessionId, t: Token)
    requires t in s.acquisitions
  {
    && s.acquisitions[t].wait.OnReconciliation?
    && id in s.reconciliations && s.reconciliations[id] == s.acquisitions[t].wait.promise
  }

  /** The next event on the way of a doomed acquisition. */
  function NextOf(s: State, id: SessionId, t: Token): Event
    requires t in s.acquisitions
  {
    if Behind(s, id, t) then ResumeReconcile(id) else ResumeAcquire(t)
  }

  ghost function Distance(s: State, id: SessionId, t: Token): nat
    requires t in s.acquisitions
  {
    (if Leaving(s, t) then 0 else 2) + (if Behind(s, id, t) then 1 else 0)
  }

  /** What such a step leaves alone. */
  ghost predicate Aside(s: State, r: State, t: Token) {
    && r == s.(attachments := r.attachments, reconciliations := r.reconciliations, cleanup := r.cleanup,
               pending := r.pending, settled := r.settled, next := r.next,
               acquisitions := r.acquisitions, counts := r.counts, exclusive := r.exclusive)
    && r.next >= s.next
    && (forall p | p in s.settled :: p in r.settled && r.settled[p] == s.settled[p])
    && (forall u | u != t :: u in s.acquisitions <==> u in r.acquisitions)
    && (forall u | u != t && u in s.acquisitions :: r.acquisitions[u] == s.acquisitions[u])
    && (t in r.acquisitions ==> t in s.acquisitions && r.acquisitions[t].epoch == s.acquisitions[t].epoch)
  }

  lemma OfflineAttach(s: State, id: SessionId, reconciled: bool)
    requires Offline(s, id)
    ensures
      var d := CheckAttached(s, id, reconciled);
      && d.Await? && d.wait.OnAttachment? && Rejected(d.state, d.wait.promise) && Offline(d.state, id)
      && d.state == s.(attachments := d.state.attachments, settled := d.state.settled, next := d.state.next)
      && d.state.next >= s.next
      && (forall p | p in s.settled :: p in d.state.settled && d.state.settled[p] == s.settled[p])
  {}

  /** What brings a doomed acquisition closer to its end. */
  ghost predicate Closer(s: State, r: State, id: SessionId, t: Token) {
    && t in s.acquisitions && Doomed(r, id, t) && Distance(r, id, t) < Distance(s, id, t)
    && Aside(s, r, t) && r.counts == s.counts && r.exclusive == s.exclusive
    && (Offline(s, id) ==> Offline(r, id))
  }

  lemma ReconcileCloser(s: State, id: SessionId, t: Token, r: State)
    requires Doomed(s, id, t) && Behind(s, id, t) && r == ContinueReconcile(s, id)
    ensures Closer(s, r, id, t)
  {
    assert r == s.(cleanup := r.cleanup, reconciliations := s.reconciliations - {id});
    assert Leaving(r, t) <==> Leaving(s, t);
  }

  lemma RejoinCloser(s: State, id: SessionId, t: Token, d: Decision, r: State)
    requires Doomed(s, id, t) && !Behind(s, id, t) && !Leaving(s, t)
    requires d.Await? && d.wait.OnAttachment? && Rejected(d.state, d.wait.promise) && Offline(d.state, id)
    requires d.state == s.(attachments := d.state.attachments, settled := d.state.settled, next := d.state.next)
    requires d.state.next >= s.next
    requires forall p | p in s.settled :: p in d.state.settled && d.state.settled[p] == s.settled[p]
    requires r == Carried(s, t, id, s.acquisitions[t].mode, s.acquisitions[t].epoch, d)
    ensures Closer(s, r, id, t)
  {
    var a := Acquisition(id, s.acquisitions[t].mode, d.wait, s.acquisitions[t].epoch);
    assert r == d.state.(acquisitions := s.acquisitions[t := a]);
    assert Leaving(r, t) && !Behind(r, id, t);
  }

  /** A doomed acquisition that is not leaving yet comes one step closer to it. */
  lemma StepDoomed(s: State, id: SessionId, t: Token) returns (r: State)
    requires Doomed(s, id, t) && (Behind(s, id, t) || !Leaving(s, t))
    ensures Enabled(s, NextOf(s, id, t)) && Orderly(s, NextOf(s, id, t)) && r == Apply(s, NextOf(s, id, t))
    ensures Closer(s, r, id, t)
  {
    if Behind(s, id, t) {
      r := ContinueReconcile(s, id);
      ReconcileCloser(s, id, t, r);
    } else {
      r := ContinueAcquire(s, t);
      var reconciled := s.acquisitions[t].wait.OnReconciliation?;
      OfflineAttach(s, id, reconciled);
      RejoinCloser(s, id, t, CheckAttached(s, id, reconciled), r);
    }
  }

  /** A leaving acquisition gives its token back. */
  lemma StepLeaving(s: State, id: SessionId, t: Token) returns (r: State)
    requires Doomed(s, id, t) && !Behind(s, id, t) && Leaving(s, t)
    ensures Enabled(s, ResumeAcquire(t)) && Orderly(s, ResumeAcquire(t)) && r == Apply(s, ResumeAcquire(t))
    ensures Left(s, r, id, t)
  {
    r := ContinueAcquire(s, t);
    if s.acquisitions[t].wait.OnAttachment? {
      AbandonedLeaves(s, ForgetAttachment(s, id, s.acquisitions[t].wait.promise), id, t, r);
    } else {
      AbandonedLeaves(s, s, id, t, r);
    }
  }

  ghost predicate Left(s: State, r: State, id: SessionId, t: Token) {
    && Aside(s, r, t) && r.acquisitions == s.acquisitions - {t}
    && r.counts == Unreserved(s, id, t).counts && r.exclusive == Unreserved(s, id, t).exclusive
    && (Offline(s, id) ==> Offline(r, id))
  }

  lemma AbandonedLeaves(s: State, s1: State, id: SessionId, t: Token, r: State)
    requires t in s.acquisitions && r == Abandoned(s1, t, id)
    requires s1 == s || (exists p :: s1 == ForgetAttachment(s, id, p))
    ensures Left(s, r, id, t)
  {
    assert s1 == s.(attachments := s1.attachments);
    assert r == s1.(counts := r.counts, exclusive := r.exclusive, acquisitions := s.acquisitions - {t});
  }

  lemma AsideOwner(s: State, r: State, t: Token, u: Token)
    requires Aside(s, r, t) && u != t
    ensures OwnerOf(r, u) == OwnerOf(s, u)
  {}

  /** A doomed acquisition beside a counted token of its session takes that count away. */
  lemma DoomedBeside(s: State, id: SessionId, t: Token, u: Token)
    requires Doomed(s, id, t) && u != t && OwnerOf(s, u) == Session(id) && Count(s, id) == 1
    ensures GoesWrong(s)
    decreases Distance(s, id, t)
  {
    if Behind(s, id, t) || !Leaving(s, t) {
      var r := StepDoomed(s, id, t);
      AsideOwner(s, r, t, u);
      DoomedBeside(r, id, t, u);
      WrongLater(s, NextOf(s, id, t));
    } else {
      var r := StepLeaving(s, id, t);
      AsideOwner(s, r, t, u);
      WrongUncounted(r, u, id);
      WrongLater(s, ResumeAcquire(t));
    }
  }

  // ---------- acquiring or creating too early ----------

  /** An acquisition the link has left behind is doomed. */
  lemma OvertakenDoomed(s: State, id: SessionId, t: Token)
    requires Inv(s) && Overtaken(s, t) && s.acquisitions[t].session == id
    ensures Doomed(s, id, t) && Count(s, id) == 0 && id !in s.exclusive
    ensures !s.connected ==> Offline(s, id)
  {
    assert LeftBehind(s, t) && WaitKnown(s, t);
    ExclusiveCounted(s, id);
    if id in s.attachments { OvertakenAttachment(s, id); }
  }

  /** What an acquisition that gets its token does at once. */
  ghost predicate Takes(s: State, r: State, id: SessionId, u: Token) {
    && OwnerOf(r, u) == Session(id) && Count(r, id) == Count(s, id) + 1
    && r.connected == s.connected && r.disposed == s.disposed && r.creations == s.creations
    && PromisesGrow(s, r) && (forall p | p in s.pending :: p in r.pending)
    && (forall t | t in s.acquisitions :: t in r.acquisitions && r.acquisitions[t] == s.acquisitions[t])
    && (forall t | t in s.leases :: t in r.leases && r.leases[t] == s.leases[t])
  }

  lemma AcquireTakes(s: State, id: SessionId, mode: Mode, r: State)
    requires Names(s) && Generations(s) && !s.disposed && CanReserve(s, id, mode) && r == Acquire(s, id, mode)
    ensures Takes(s, r, id, s.next)
  {
    var s1 := Reserved(s, id, mode);
    var d := CheckDetachment(s1, id);
    DetachmentDecides(s1, id);
    CarriedOwners(s1, s.next, id, mode, s.epoch, d, r);
    AcquirePromises(s, id, mode);
    CarriedKeeps(s1, s.next, id, mode, s.epoch, d, r);
    PendingKept(s1, id, s.next, mode, s.epoch, r);
  }

  lemma PendingKept(s: State, id: SessionId, t: Token, mode: Mode, epoch: nat, r: State)
    requires r == Carried(s, t, id, mode, epoch, CheckDetachment(s, id))
    ensures forall p | p in s.pending :: p in r.pending
  {
    if id in s.detachments {
      CarriedPending(s, t, id, mode, epoch, CheckDetachment(s, id), r);
    } else {
      CleanupPending(s, id);
      CarriedPending(s, t, id, mode, epoch, CheckCleanup(s, id), r);
    }
  }

  lemma CleanupPending(s: State, id: SessionId)
    ensures var d := CheckCleanup(s, id); d.Await? ==> forall p | p in s.pending :: p in d.state.pending
  {
    if id in s.cleanup {
      SentPending(s, Detach(id));
    } else {
      SentPending(s, Attach(id));
    }
  }

  lemma SentPending(s: State, c: Command)
    ensures forall p | p in s.pending :: p in Sent(s, c).pending
  {}

  lemma CarriedPending(s: State, t: Token, id: SessionId, mode: Mode, epoch: nat, d: Decision, r: State)
    requires d.Await? ==> forall p | p in s.pending :: p in d.state.pending
    requires r == Carried(s, t, id, mode, epoch, d)
    ensures forall p | p in s.pending :: p in r.pending
  {}

  lemma CarriedKeeps(s: State, t: Token, id: SessionId, mode: Mode, epoch: nat, d: Decision, r: State)
    requires Decided(s, d) && r == Carried(s, t, id, mode, epoch, d)
    ensures r.connected == s.connected && r.disposed == s.disposed && r.creations == s.creations
    ensures forall u | u in s.acquisitions && u != t :: u in r.acquisitions && r.acquisitions[u] == s.acquisitions[u]
    ensures forall u | u in s.leases && u != t :: u in r.leases && r.leases[u] == s.leases[u]
  {}

  lemma OfflineAcquire(s: State, id: SessionId, mode: Mode)
    requires Offline(s, id) && !s.disposed && CanReserve(s, id, mode)
    ensures Offline(Acquire(s, id, mode), id)
  {
    var s1 := Reserved(s, id, mode);
    assert Offline(s1, id);
    if id in s1.detachments {
      OfflineCarried(s1, s.next, id, mode, s.epoch, CheckDetachment(s1, id), Acquire(s, id, mode));
    } else {
      OfflineAttach(s1, id, false);
      OfflineCarried(s1, s.next, id, mode, s.epoch, CheckAttached(s1, id, false), Acquire(s, id, mode));
    }
  }

  lemma OfflineCarried(s: State, t: Token, id: SessionId, mode: Mode, epoch: nat, d: Decision, r: State)
    requires d.Await? && Offline(d.state, id) && r == Carried(s, t, id, mode, epoch, d)
    ensures Offline(r, id)
  {}

  lemma AcquireTooEarly(s: State, id: SessionId, mode: Mode, r: State)
    requires Inv(s) && !Orderly(s, BeginAcquire(id, mode)) && r == Acquire(s, id, mode)
    ensures GoesWrong(r)
  {
    var t :| t in s.acquisitions && s.acquisitions[t].session == id && Overtaken(s, t);
    OvertakenDoomed(s, id, t);
    AcquiredBeside(s, id, mode, t, r);
  }

  lemma AcquiredBeside(s: State, id: SessionId, mode: Mode, t: Token, r: State)
    requires Names(s) && Generations(s) && Doomed(s, id, t) && (!s.connected ==> Offline(s, id))
    requires !s.disposed && Count(s, id) == 0 && id !in s.exclusive && r == Acquire(s, id, mode)
    ensures GoesWrong(r)
  {
    AcquireTakes(s, id, mode, r);
    if !s.connected { OfflineAcquire(s, id, mode); }
    StillDoomed(s, r, id, t);
    DoomedBeside(r, id, t, s.next);
  }

  lemma StillDoomed(s: State, r: State, id: SessionId, t: Token)
    requires Doomed(s, id, t) && PromisesGrow(s, r) && (Offline(s, id) ==> Offline(r, id))
    requires t in r.acquisitions && r.acquisitions[t] == s.acquisitions[t]
    ensures Doomed(r, id, t)
  {}

  lemma CreateTakes(s: State, p: Promise, id: SessionId, r: State)
    requires Names(s) && p in s.settled && s.settled[p] == Created(id) && Count(s, id) == 0
    requires r == ContinueCreate(s, p)
    ensures OwnerOf(r, s.next) == Session(id) && Count(r, id) == 1
    ensures r == s.(counts := r.counts, exclusive := r.exclusive, generations := r.generations, next := s.next + 1,
                    creations := r.creations, leases := r.leases)
    ensures forall t | t in s.leases :: t in r.leases && r.leases[t] == s.leases[t]
  {
    LeaseTaken(s.(creations := s.creations - {p}), id, r);
  }

  lemma LeaseTaken(s: State, id: SessionId, r: State)
    requires s.next !in s.acquisitions && s.next !in s.leases && Count(s, id) == 0
    requires forall t | t in s.acquisitions :: t < s.next
    requires r == Granted(Reserved(s, id, Exclusive), s.next, id, Exclusive)
    ensures OwnerOf(r, s.next) == Session(id) && Count(r, id) == 1
    ensures r == s.(counts := r.counts, exclusive := r.exclusive, generations := r.generations, next := s.next + 1,
                    leases := r.leases)
    ensures forall t | t in s.leases :: t in r.leases && r.leases[t] == s.leases[t]
  {
    assert r.acquisitions == s.acquisitions;
  }

  lemma CreateTooEarly(s: State, p: Promise, r: State)
    requires Inv(s) && p in s.settled && !Orderly(s, ResumeCreate(p)) && r == ContinueCreate(s, p)
    ensures GoesWrong(r)
  {
    var id := s.settled[p].session;
    var t :| t in s.acquisitions && s.acquisitions[t].session == id && Overtaken(s, t);
    OvertakenDoomed(s, id, t);
    CreateTakes(s, p, id, r);
    StillDoomed(s, r, id, t);
    DoomedBeside(r, id, t, s.next);
  }

  // ---------- a detach that outlives its lease ----------

  /** The end of the detach of lease `t` will take a count that belongs to token `u`. */
  ghost predicate Owed(s: State, id: SessionId, t: Token, u: Token) {
    && t in s.leases && s.leases[t].session == id && s.leases[t].phase.Detaching? && t != u
    && OwnerOf(s, u) == Session(id) && Count(s, id) == 1
    && (Fulfilled(s, s.leases[t].phase.promise)
        || (s.connected && s.leases[t].phase.promise in s.pending
            && !s.pending[s.leases[t].phase.promise].Create?))
  }

  lemma OwedWrong(s: State, id: SessionId, t: Token, u: Token)
    requires Owed(s, id, t, u)
    ensures GoesWrong(s)
  {
    var p := s.leases[t].phase.promise;
    if Fulfilled(s, p) {
      OwedTaken(s, id, t, u);
    } else {
      var r := Answered(s, p, Acked, false);
      assert OwnerOf(r, u) == OwnerOf(s, u);
      OwedTaken(r, id, t, u);
      WrongLater(s, Respond(p, Acked, false));
    }
  }

  lemma OwedTaken(s: State, id: SessionId, t: Token, u: Token)
    requires Owed(s, id, t, u) && Fulfilled(s, s.leases[t].phase.promise)
    ensures GoesWrong(s)
  {
    var r := ContinueRelease(s, t);
    assert OwnerOf(r, u) == OwnerOf(s, u);
    WrongUncounted(r, u, id);
    WrongLater(s, ResumeRelease(t));
  }

  lemma RemovedTooEarly(s: State, id: SessionId, r: State)
    requires Inv(s) && s.connected && !Orderly(s, SessionRemoved(id)) && r == Apply(s, SessionRemoved(id))
    ensures GoesWrong(r)
  {
    if t :| t in s.acquisitions && s.acquisitions[t].session == id && !Overtaken(s, t) {
      assert OwnerOf(r, t) == Session(id);
      WrongUncounted(r, t, id);
    } else {
      var t :| t in s.leases && s.leases[t].phase.Detaching? && s.leases[t].session == id
               && !Rejected(s, s.leases[t].phase.promise);
      RemovedUnderDetach(s, id, t, r);
    }
  }

  lemma RemovedUnderDetach(s: State, id: SessionId, t: Token, r: State)
    requires Inv(s) && s.connected && r == Apply(s, SessionRemoved(id))
    requires t in s.leases && s.leases[t].phase.Detaching? && s.leases[t].session == id
    requires !Rejected(s, s.leases[t].phase.promise)
    requires forall u | u in s.acquisitions && s.acquisitions[u].session == id :: Overtaken(s, u)
    ensures GoesWrong(r)
  {
    CurrentDetach(s, id, t);
    RemovedShape(s, id, r);
    assert Drained(r, id);
    AcquireOwed(r, id, t);
  }

  lemma RemovedShape(s: State, id: SessionId, r: State)
    requires Names(s) && Generations(s) && s.connected && r == Apply(s, SessionRemoved(id))
    ensures Names(r) && Generations(r) && r.acquisitions == s.acquisitions && r.leases == s.leases
    ensures r.pending == s.pending && r.settled == s.settled && r.connected && r.disposed == s.disposed
    ensures r.epoch == s.epoch && Count(r, id) == 0 && id !in r.exclusive
  {}

  /** Online, a lease whose detach was not rejected holds the only token of its session. */
  lemma CurrentDetach(s: State, id: SessionId, t: Token)
    requires Inv(s) && s.connected
    requires t in s.leases && s.leases[t].phase.Detaching? && s.leases[t].session == id
    requires !Rejected(s, s.leases[t].phase.promise)
    ensures Drained(s, id) && Known(s, s.leases[t].phase.promise)
    ensures s.leases[t].phase.promise in s.pending ==> s.pending[s.leases[t].phase.promise] == Detach(id)
  {
    assert DetachAlone(s, t) && !IsStale(s, t);
    CountHolds(s, t, id);
    assert forall u | u in s.acquisitions && Overtaken(s, u) :: LeftBehind(s, u);
  }

  /** The detach of lease `t` is acknowledged or may still be. */
  ghost predicate Outlives(s: State, id: SessionId, t: Token) {
    && t in s.leases && s.leases[t].session == id && s.leases[t].phase.Detaching?
    && (Fulfilled(s, s.leases[t].phase.promise)
        || (s.connected && s.leases[t].phase.promise in s.pending
            && s.pending[s.leases[t].phase.promise] == Detach(id)))
  }

  lemma AcquireOwed(s: State, id: SessionId, t: Token)
    requires Names(s) && Generations(s) && Drained(s, id) && Count(s, id) == 0 && id !in s.exclusive
    requires Outlives(s, id, t) && !s.disposed
    ensures GoesWrong(s)
  {
    var r := Acquire(s, id, Shared);
    AcquireTakes(s, id, Shared, r);
    TakenOwed(s, r, id, t, s.next);
    OwedWrong(r, id, t, s.next);
    WrongLater(s, BeginAcquire(id, Shared));
  }

  lemma TakenOwed(s: State, r: State, id: SessionId, t: Token, u: Token)
    requires Outlives(s, id, t) && Takes(s, r, id, u) && Count(s, id) == 0 && t != u
    ensures Owed(r, id, t, u)
  {}

  lemma CreateOwed(s: State, id: SessionId, t: Token, c: Promise)
    requires Names(s) && Drained(s, id) && Count(s, id) == 0 && DetachUnhandled(s, t) && s.leases[t].session == id
    requires c in s.creations && c in s.settled && s.settled[c] == Created(id)
    ensures GoesWrong(s)
  {
    var r := ContinueCreate(s, c);
    CreateTakes(s, c, id, r);
    OwedWrong(r, id, t, s.next);
    WrongLater(s, ResumeCreate(c));
  }

  // ---------- a cut under an acknowledged request ----------

  lemma CutUnderAttach(s: State, t: Token, r: State, disposed: bool)
    requires Inv(s) && r == Cut(s).(disposed := disposed)
    requires t in s.acquisitions && s.acquisitions[t].wait.OnAttachment?
    requires Fulfilled(s, s.acquisitions[t].wait.promise)
    ensures GoesWrong(r)
  {
    CutShape(s, r, disposed);
    CutGrows(s, r);
    LateGrant(r, t);
  }

  /** An acknowledged attach makes a lease, whatever has happened to its count. */
  lemma LateGrant(s: State, t: Token)
    requires t in s.acquisitions && s.acquisitions[t].wait.OnAttachment?
    requires Fulfilled(s, s.acquisitions[t].wait.promise) && Count(s, s.acquisitions[t].session) == 0
    ensures GoesWrong(s)
  {
    var r := ContinueAcquire(s, t);
    WrongUncounted(r, t, s.acquisitions[t].session);
    WrongLater(s, ResumeAcquire(t));
  }

  lemma CutUnderDetach(s: State, t: Token, r: State, disposed: bool)
    requires Inv(s) && !s.disposed && r == Cut(s).(disposed := disposed)
    requires AttachesHandled(s) && DetachUnhandled(s, t) && (disposed ==> !Uncreated(s, s.leases[t].session))
    ensures GoesWrong(r)
  {
    var id := s.leases[t].session;
    var c: Promise := 0;
    if disposed { c :| c in s.creations && c in s.settled && s.settled[c] == Created(id); }
    CutShape(s, r, disposed);
    CutGrows(s, r);
    CutUnowned(s, r);
    CutStranded(s, r, id, t, c);
    StrandedWrong(r, id, t, c);
  }

  /** Offline, with every acquisition of the session doomed, while the continuation of an
      acknowledged detach of it has yet to run. */
  ghost predicate Stranded(s: State, id: SessionId, t: Token, c: Promise) {
    && Names(s) && Generations(s) && Offline(s, id) && Count(s, id) == 0 && id !in s.exclusive
    && DetachUnhandled(s, t) && s.leases[t].session == id
    && (forall u | u in s.acquisitions && s.acquisitions[u].session == id :: Doomed(s, id, u))
    && (s.disposed ==> c in s.creations && c in s.settled && s.settled[c] == Created(id))
  }

  lemma CutStranded(s: State, r: State, id: SessionId, t: Token, c: Promise)
    requires Inv(s) && AttachesHandled(s) && DetachUnhandled(s, t) && s.leases[t].session == id
    requires PromisesGrow(s, r) && (forall p | p in s.pending :: Rejected(r, p))
    requires r.disposed ==> c in s.creations && c in s.settled && s.settled[c] == Created(id)
    requires !r.connected && r.pending == map[] && r.attached == {} && r.cleanup == {}
    requires r.counts == map[] && r.exclusive == map[] && r.next == s.next && r.epoch == s.epoch + 1
    requires forall p | p in r.settled :: p < s.next
    requires r.acquisitions == s.acquisitions && r.leases == s.leases && r.creations == s.creations
    requires r.generations == InvalidateAll(s).generations && r.attachments == s.attachments
    ensures Stranded(r, id, t, c)
  {
    CutNames(s, r);
    CutGenerations(s, r);
    CutLeaves(s, r);
    CutOffline(s, r, id);
    CutDoomed(s, r, id);
  }

  lemma CutOffline(s: State, r: State, id: SessionId)
    requires Attaches(s) && r.acquisitions == s.acquisitions && r.attachments == s.attachments
    requires forall t | t in r.acquisitions && r.acquisitions[t].wait.OnAttachment? :: Leaving(r, t)
    requires !r.connected && r.pending == map[] && r.attached == {} && r.cleanup == {}
    requires forall p | p in r.settled :: p < r.next
    ensures Offline(r, id)
  {
    if id in s.attachments {
      assert AttachmentKnown(s, id);
      var u :| Waits(s, u, id, OnAttachment(s.attachments[id]));
      assert Leaving(r, u);
    }
  }

  lemma CutDoomed(s: State, r: State, id: SessionId)
    requires Attaches(s) && r.acquisitions == s.acquisitions && PromisesGrow(s, r) && Offline(r, id)
    requires forall t | t in r.acquisitions && r.acquisitions[t].wait.OnAttachment? :: Leaving(r, t)
    ensures forall u | u in r.acquisitions && r.acquisitions[u].session == id :: Doomed(r, id, u)
  {
    forall u | u in r.acquisitions && r.acquisitions[u].session == id ensures Doomed(r, id, u) {
      assert WaitKnown(s, u);
    }
  }

  /** Drain the session, then let it be counted again: the late continuation takes that count. */
  lemma StrandedWrong(s: State, id: SessionId, t: Token, c: Promise)
    requires Stranded(s, id, t, c)
    ensures GoesWrong(s)
    decreases |s.acquisitions.Keys|, 4
  {
    if u :| u in s.acquisitions && s.acquisitions[u].session == id {
      StrandedDrain(s, id, t, c, u);
    } else {
      assert Drained(s, id);
      if s.disposed { CreateOwed(s, id, t, c); } else { AcquireOwed(s, id, t); }
    }
  }

  lemma StrandedDrain(s: State, id: SessionId, t: Token, c: Promise, u: Token)
    requires Stranded(s, id, t, c) && u in s.acquisitions && s.acquisitions[u].session == id
    ensures GoesWrong(s)
    decreases |s.acquisitions.Keys|, Distance(s, id, u)
  {
    var e, r := StrandedStep(s, id, t, c, u);
    if u in r.acquisitions { StrandedDrain(r, id, t, c, u); } else { StrandedWrong(r, id, t, c); }
    WrongLater(s, e);
  }

  lemma StrandedStep(s: State, id: SessionId, t: Token, c: Promise, u: Token) returns (e: Event, r: State)
    requires Stranded(s, id, t, c) && u in s.acquisitions && s.acquisitions[u].session == id
    ensures Enabled(s, e) && Orderly(s, e) && r == Apply(s, e) && Stranded(r, id, t, c)
    ensures if u in r.acquisitions
            then r.acquisitions[u].session == id && r.acquisitions.Keys == s.acquisitions.Keys
                 && Distance(r, id, u) < Distance(s, id, u)
            else r.acquisitions.Keys == s.acquisitions.Keys - {u}
  {
    if Behind(s, id, u) || !Leaving(s, u) {
      e := NextOf(s, id, u);
      r := StepDoomed(s, id, u);
      CloserStranded(s, r, id, t, c, u);
    } else {
      e := ResumeAcquire(u);
      r := StepLeaving(s, id, u);
      LeftStranded(s, r, id, t, c, u);
    }
  }

  lemma CloserStranded(s: State, r: State, id: SessionId, t: Token, c: Promise, u: Token)
    requires Stranded(s, id, t, c) && u in s.acquisitions && Closer(s, r, id, u)
    ensures Stranded(r, id, t, c) && r.acquisitions.Keys == s.acquisitions.Keys
  {
    AsideStranded(s, r, id, t, c, u);
  }

  lemma LeftStranded(s: State, r: State, id: SessionId, t: Token, c: Promise, u: Token)
    requires Stranded(s, id, t, c) && u in s.acquisitions && Left(s, r, id, u)
    ensures Stranded(r, id, t, c) && r.acquisitions.Keys == s.acquisitions.Keys - {u}
  {
    AsideStranded(s, r, id, t, c, u);
  }

  lemma AsideStranded(s: State, r: State, id: SessionId, t: Token, c: Promise, u: Token)
    requires Stranded(s, id, t, c) && Aside(s, r, u) && Offline(r, id)
    requires r.counts == s.counts || r.counts == Unreserved(s, id, u).counts
    requires r.exclusive == s.exclusive || r.exclusive == Unreserved(s, id, u).exclusive
    requires u in s.acquisitions && (u in r.acquisitions ==> Doomed(r, id, u))
    ensures Stranded(r, id, t, c)
  {}

  // ---------- reconnecting too early ----------

  /** Online again, an acquisition of an earlier link that may still go on. */
  ghost predicate Resumable(s: State, id: SessionId, t: Token) {
    && s.connected && !s.disposed && id !in s.counts && id !in s.attached && id !in s.cleanup
    && (forall p | p in s.settled :: p < s.next) && (forall p | p in s.pending :: p < s.next)
    && t in s.acquisitions && t !in s.leases && s.acquisitions[t].session == id
    && !s.acquisitions[t].wait.OnAttachment? && s.acquisitions[t].wait.promise in s.settled
    && (s.acquisitions[t].wait.OnReconciliation? ==> Fulfilled(s, s.acquisitions[t].wait.promise))
    && (id in s.attachments ==>
          && Rejected(s, s.attachments[id])
          && exists w :: Waits(s, w, id, OnAttachment(s.attachments[id])))
  }

  lemma ConnectTooEarly(s: State, r: State)
    requires Inv(s) && Enabled(s, Connect) && !Orderly(s, Connect) && r == Apply(s, Connect)
    ensures GoesWrong(r)
  {
    var t :| t in s.acquisitions && Overtaken(s, t) && !Leaving(s, t);
    var id := s.acquisitions[t].session;
    OvertakenDoomed(s, id, t);
    if id in s.attachments {
      assert AttachmentKnown(s, id);
      var w :| Waits(s, w, id, OnAttachment(s.attachments[id]));
      assert Waits(r, w, id, OnAttachment(r.attachments[id]));
    }
    assert Resumable(r, id, t);
    ResumableWrong(r, id, t);
  }

  /** Its own continuations give it a lease that nobody counts. */
  lemma ResumableWrong(s: State, id: SessionId, t: Token)
    requires Resumable(s, id, t)
    ensures GoesWrong(s)
    decreases (if Behind(s, id, t) then 1 else 0) + (if id in s.attachments then 2 else 0)
  {
    if Behind(s, id, t) {
      var r := ContinueReconcile(s, id);
      ReconcileResumable(s, id, t, r);
      ResumableWrong(r, id, t);
      WrongLater(s, ResumeReconcile(id));
    } else if id in s.attachments {
      var w :| Waits(s, w, id, OnAttachment(s.attachments[id]));
      var r := ContinueAcquire(s, w);
      WaiterGone(s, id, t, w, r);
      ResumableWrong(r, id, t);
      WrongLater(s, ResumeAcquire(w));
    } else {
      AttachAgain(s, id, t);
    }
  }

  lemma ReconcileResumable(s: State, id: SessionId, t: Token, r: State)
    requires Resumable(s, id, t) && Behind(s, id, t) && r == ContinueReconcile(s, id)
    ensures Resumable(r, id, t) && !Behind(r, id, t) && r.attachments == s.attachments
  {
    if id in s.attachments {
      var w :| Waits(s, w, id, OnAttachment(s.attachments[id]));
      assert Waits(r, w, id, OnAttachment(r.attachments[id]));
    }
  }

  lemma WaiterGone(s: State, id: SessionId, t: Token, w: Token, r: State)
    requires Resumable(s, id, t) && id in s.attachments && Waits(s, w, id, OnAttachment(s.attachments[id]))
    requires CanResume(s, w) && r == ContinueAcquire(s, w)
    ensures Resumable(r, id, t) && id !in r.attachments && r.reconciliations == s.reconciliations
    ensures r.acquisitions[t] == s.acquisitions[t]
  {}

  lemma AttachAgain(s: State, id: SessionId, t: Token)
    requires Resumable(s, id, t) && !Behind(s, id, t) && id !in s.attachments
    ensures GoesWrong(s)
  {
    var q := s.next;
    var s1 := ContinueAcquire(s, t);
    AttachSent(s, id, t, s1);
    var s2 := Answered(s1, q, Acked, true);
    LateGrant(s2, t);
    WrongLater(s1, Respond(q, Acked, true));
    WrongLater(s, ResumeAcquire(t));
  }

  lemma AttachSent(s: State, id: SessionId, t: Token, r: State)
    requires Resumable(s, id, t) && !Behind(s, id, t) && id !in s.attachments
    requires CanResume(s, t) && r == ContinueAcquire(s, t)
    ensures r.connected && s.next in r.pending && r.pending[s.next] == Attach(id) && Count(r, id) == 0
    ensures t in r.acquisitions && r.acquisitions[t].session == id && r.acquisitions[t].wait == OnAttachment(s.next)
  {
    var a := s.acquisitions[t];
    var d := CheckAttached(s, id, a.wait.OnReconciliation?);
    assert d == Await(Sent(s, Attach(id)).(attachments := s.attachments[id := s.next]), OnAttachment(s.next));
    AttachShape(s, t, id, a.mode, a.epoch, Acquisition(id, a.mode, OnAttachment(s.next), a.epoch), r);
  }

  // ---------- the side conditions are exact ----------

  lemma {:induction false} DisorderGoesWrong(s: State, e: Event)
    requires Inv(s) && Enabled(s, e) && !Orderly(s, e)
    ensures GoesWrong(Apply(s, e))
  {
    match e
    case BeginAcquire(id, mode) => AcquireTooEarly(s, id, mode, Apply(s, e));
    case ResumeCreate(p) => CreateTooEarly(s, p, Apply(s, e));
    case Connect => ConnectTooEarly(s, Apply(s, e));
    case SessionRemoved(id) => RemovedTooEarly(s, id, Apply(s, e));
    case Disconnect => CutTooEarly(s, Cut(s), false);
    case Dispose => CutTooEarly(s, Cut(s).(disposed := true), true);
  }

  lemma CutTooEarly(s: State, r: State, disposed: bool)
    requires Inv(s) && !Severs(s, disposed) && !s.disposed && r == Cut(s).(disposed := disposed)
    ensures GoesWrong(r)
  {
    if AttachesHandled(s) {
      var t :| DetachUnhandled(s, t) && (disposed ==> !Uncreated(s, s.leases[t].session));
      CutUnderDetach(s, t, r, disposed);
    } else {
      var t :| t in s.acquisitions && s.acquisitions[t].wait.OnAttachment?
               && Fulfilled(s, s.acquisitions[t].wait.promise);
      CutUnderAttach(s, t, r, disposed);
    }
  }

  lemma OrderNeverWrong(s: State, es: seq<Event>)
    requires Inv(s) && Runs(s, es) && OrderlyRun(s, es)
    ensures Accounting(After(s, es))
  {
    RunKeepsInv(s, es);
  }

  /** An event meets its side condition exactly if no orderly continuation miscounts a session. */
  lemma OrderlyExactly(s: State, e: Event)
    requires Inv(s) && Enabled(s, e)
    ensures Orderly(s, e) <==> !GoesWrong(Apply(s, e))
  {
    if Orderly(s, e) {
      KeepInv(s, e);
      forall es | Runs(Apply(s, e), es) && OrderlyRun(Apply(s, e), es) ensures Accounting(After(Apply(s, e), es)) {
        OrderNeverWrong(Apply(s, e), es);
      }
    } else {
      DisorderGoesWrong(s, e);
    }
  }
}
