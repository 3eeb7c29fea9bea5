/** What becomes of a session whose dispose has failed: exactly when it stays detached and unshared
    until it is cleaned, and when a cleanup detach goes out under a lease. */
module LeaseDispose {
  import opened Leases
  import opened LeaseInvariant
  import opened LeaseWire
  import opened LeaseBooks
  import opened LeaseSteps
  import opened LeaseSafety
  import opened LeaseDiscipline
  import opened LeaseCleanup

  // ---------- from the failed dispose on ----------

  /** Lease `t` is about to give up its session after its dispose has failed. */
  ghost predicate FailedDispose(s: State, t: Token) {
    t in s.leases && s.leases[t].phase == Failing(true) && !IsStale(s, t)
  }

  /** Every other unreleased token of the session is that of an acquisition that has not got past
      the cleanup detach. */
  ghost predicate NobodyPassed(s: State, t: Token, id: SessionId) {
    forall u | u != t && OwnerOf(s, u) == Session(id) :: u in s.acquisitions && BeforeCleanup(s, u)
  }

  /** The session is attached or shared in spite of its mark. */
  ghost predicate Exposed(s: State, id: SessionId) {
    || (exists p :: p in s.pending && s.pending[p] == Attach(id))
    || (exists u :: Shares(s, u, id))
  }

  /** Without a cleaning event, some orderly run ends with the session exposed. */
  ghost predicate GetsExposed(s: State, id: SessionId) {
    exists es :: Runs(s, es) && OrderlyRun(s, es) && NeverCleans(s, es, id) && Exposed(After(s, es), id)
  }

  lemma FailedDisposeShape(s: State, t: Token, r: State)
    requires FailedDispose(s, t) && r == CatchFailedRelease(s, t)
    ensures r.acquisitions == s.acquisitions && r.pending == s.pending && r.settled == s.settled
    ensures r.reconciliations == s.reconciliations && r.attachments == s.attachments && r.connected == s.connected
    ensures r.cleanup == s.cleanup + {s.leases[t].session} && r.detachments == s.detachments && r.epoch == s.epoch
    ensures forall u | u != t :: OwnerOf(r, u) == OwnerOf(s, u)
    ensures OwnerOf(r, t) == Nobody || t in s.acquisitions
    ensures r.leases.Keys == s.leases.Keys && forall u | u in s.leases && u != t :: r.leases[u] == s.leases[u]
  {}

  /** A pending attach has an acquisition that waits for it. */
  lemma AttachAwaited(s: State, id: SessionId, p: Promise) returns (u: Token)
    requires Attaches(s) && p in s.pending && s.pending[p] == Attach(id)
    ensures Waits(s, u, id, OnAttachment(p))
  {
    assert RequestKnown(s, p) && AttachmentKnown(s, id);
    u :| Waits(s, u, id, OnAttachment(p));
  }

  /** A failed dispose leaves its session marked with no attach of it under way, exactly if every
      acquisition of it is still before the cleanup detach. */
  lemma FailedDisposeUnclean(s: State, t: Token)
    requires Inv(s) && FailedDispose(s, t)
    ensures
      var id := s.leases[t].session;
      Unclean(CatchFailedRelease(s, t), id)
      <==> forall u | u in s.acquisitions && s.acquisitions[u].session == id :: BeforeCleanup(s, u)
  {
    var r := CatchFailedRelease(s, t);
    FailedDisposeShape(s, t, r);
    SameCleanup(s, r, s.leases[t].session);
    PendingNotBefore(s, s.leases[t].session);
  }

  lemma SameCleanup(s: State, r: State, id: SessionId)
    requires r.acquisitions == s.acquisitions && r.settled == s.settled && r.reconciliations == s.reconciliations
    ensures forall u | u in s.acquisitions && s.acquisitions[u].session == id ::
              BeforeCleanup(r, u) <==> BeforeCleanup(s, u)
  {}

  lemma PendingNotBefore(s: State, id: SessionId)
    requires Wire(s)
    ensures (exists p :: p in s.pending && s.pending[p] == Attach(id)) ==>
              exists u :: u in s.acquisitions && s.acquisitions[u].session == id && !BeforeCleanup(s, u)
  {
    if p :| p in s.pending && s.pending[p] == Attach(id) {
      var u := AttachAwaited(s, id, p);
      assert !BeforeCleanup(s, u);
    }
  }

  /** The holder of a current token keeps every acquisition of its session current and shared. */
  lemma HeldCurrent(s: State, t: Token, id: SessionId)
    requires Inv(s) && OwnerOf(s, t) == Session(id)
    ensures forall u | u in s.acquisitions && s.acquisitions[u].session == id :: OwnerOf(s, u) == Session(id)
  {
    CountHolds(s, t, id);
    assert forall u | u in s.acquisitions && Overtaken(s, u) :: LeftBehind(s, u);
  }

  lemma TwoShare(s: State, t: Token, u: Token, id: SessionId)
    requires Ownership(s) && OwnerOf(s, t) == Session(id) && OwnerOf(s, u) == Session(id) && t != u
    requires u in s.acquisitions || u in s.leases
    ensures ModeOf(s, u) == Shared
  {
    assert t in Tokens(s, id);
  }

  lemma FailedDisposeVacant(s: State, t: Token, id: SessionId, r: State)
    requires Inv(s) && FailedDispose(s, t) && s.leases[t].session == id && r == CatchFailedRelease(s, t)
    ensures NobodyPassed(s, t, id) <==> Vacant(r, id)
  {
    FailedDisposeShape(s, t, r);
    FailedDisposeUnclean(s, t);
    HeldCurrent(s, t, id);
    LeasesShare(s, t, id, r);
  }

  lemma LeasesShare(s: State, t: Token, id: SessionId, r: State)
    requires Ownership(s) && Names(s) && FailedDispose(s, t) && s.leases[t].session == id
    requires r == CatchFailedRelease(s, t)
    ensures forall u :: Shares(r, u, id) <==> u != t && u in s.leases && OwnerOf(s, u) == Session(id)
  {
    FailedDisposeShape(s, t, r);
    forall u | u != t && u in s.leases && OwnerOf(s, u) == Session(id) ensures Shares(r, u, id) {
      TwoShare(s, t, u, id);
    }
  }

  // ---------- what an acquisition past the cleanup detach does ----------

  lemma ExposedNow(s: State, id: SessionId)
    requires Exposed(s, id)
    ensures GetsExposed(s, id)
  {
    assert Runs(s, []) && OrderlyRun(s, []) && NeverCleans(s, [], id) && After(s, []) == s;
  }

  lemma ExposedLater(s: State, e: Event, id: SessionId)
    requires Enabled(s, e) && Orderly(s, e) && !Cleans(s, e, id) && GetsExposed(Apply(s, e), id)
    ensures GetsExposed(s, id)
  {
    var r := Apply(s, e);
    var es :| Runs(r, es) && OrderlyRun(r, es) && NeverCleans(r, es, id) && Exposed(After(r, es), id);
    var all := [e] + es;
    assert all[0] == e && all[1..] == es;
    assert Runs(s, all) && OrderlyRun(s, all) && NeverCleans(s, all, id) && After(s, all) == After(r, es);
  }

  /** A current shared acquisition of the session that waits for an attach, or has its detach. */
  ghost predicate Passed(s: State, u: Token, id: SessionId) {
    && s.connected && u in s.acquisitions && OwnerOf(s, u) == Session(id) && ModeOf(s, u) == Shared
    && !BeforeCleanup(s, u)
  }

  lemma PassedWaits(s: State, u: Token, id: SessionId)
    requires Inv(s) && Passed(s, u, id) && s.acquisitions[u].wait.OnAttachment?
    ensures GetsExposed(s, id)
  {
    assert WaitKnown(s, u);
    if s.acquisitions[u].wait.promise in s.pending {
      ExposedNow(s, id);
    } else {
      var r := ContinueAcquire(s, u);
      LateShare(s, u, id, r);
      ExposedNow(r, id);
      ExposedLater(s, ResumeAcquire(u), id);
    }
  }

  lemma LateShare(s: State, u: Token, id: SessionId, r: State)
    requires u in s.acquisitions && s.acquisitions[u].session == id && s.acquisitions[u].mode == Shared
    requires s.acquisitions[u].wait.OnAttachment? && Fulfilled(s, s.acquisitions[u].wait.promise)
    requires CanResume(s, u) && r == ContinueAcquire(s, u)
    ensures Shares(r, u, id)
  {}

  lemma PassedReconciled(s: State, u: Token, id: SessionId)
    requires Inv(s) && Passed(s, u, id) && s.acquisitions[u].wait.OnReconciliation?
    requires s.acquisitions[u].wait.promise in s.settled
    ensures GetsExposed(s, id)
    decreases id in s.attachments, 1
  {
    if id in s.attachments {
      var w := Waiter(s, u, id);
      if Rejected(s, s.attachments[id]) { PassedBehind(s, u, id, w); } else { PassedWaits(s, w, id); }
    } else {
      PassedAttaches(s, u, id);
    }
  }

  lemma PassedBehind(s: State, u: Token, id: SessionId, w: Token)
    requires Inv(s) && Passed(s, u, id) && s.acquisitions[u].wait.OnReconciliation?
    requires s.acquisitions[u].wait.promise in s.settled
    requires id in s.attachments && Rejected(s, s.attachments[id])
    requires Waits(s, w, id, OnAttachment(s.attachments[id]))
    ensures GetsExposed(s, id)
    decreases id in s.attachments, 0
  {
    var r := WaiterGone(s, u, id, w);
    PassedReconciled(r, u, id);
  }

  lemma PassedAttaches(s: State, u: Token, id: SessionId)
    requires Names(s) && Cuts(s) && Passed(s, u, id) && s.acquisitions[u].wait.OnReconciliation?
    requires s.acquisitions[u].wait.promise in s.settled && id !in s.attachments
    ensures GetsExposed(s, id)
  {
    var r := ContinueAcquire(s, u);
    AttachFollows(s, u, id, r);
    ExposedNow(r, id);
    ExposedLater(s, ResumeAcquire(u), id);
  }

  /** Whoever shares the attach of the session is as current as `u`. */
  lemma Waiter(s: State, u: Token, id: SessionId) returns (w: Token)
    requires Inv(s) && Passed(s, u, id) && s.acquisitions[u].wait.OnReconciliation? && id in s.attachments
    ensures Waits(s, w, id, OnAttachment(s.attachments[id])) && Known(s, s.attachments[id])
    ensures !Rejected(s, s.attachments[id]) ==> Passed(s, w, id)
  {
    assert AttachmentKnown(s, id);
    w :| Waits(s, w, id, OnAttachment(s.attachments[id]));
    HeldCurrent(s, u, id);
    TwoShare(s, u, w, id);
  }

  lemma AttachFollows(s: State, u: Token, id: SessionId, r: State)
    requires Cuts(s) && Names(s) && s.connected && u in s.acquisitions && s.acquisitions[u].session == id
    requires s.acquisitions[u].wait.OnReconciliation? && Fulfilled(s, s.acquisitions[u].wait.promise)
    requires id !in s.attachments && CanResume(s, u) && r == ContinueAcquire(s, u)
    ensures Exposed(r, id)
  {
    var a := s.acquisitions[u];
    AttachShape(s, u, id, a.mode, a.epoch, Acquisition(id, a.mode, OnAttachment(s.next), a.epoch), r);
    assert s.next in r.pending && r.pending[s.next] == Attach(id);
  }

  lemma WaiterLeaves(s: State, u: Token, id: SessionId, w: Token, r: State)
    requires Passed(s, u, id) && s.acquisitions[u].wait.OnReconciliation?
    requires id in s.attachments && Rejected(s, s.attachments[id])
    requires Waits(s, w, id, OnAttachment(s.attachments[id])) && CanResume(s, w) && r == ContinueAcquire(s, w)
    ensures Passed(r, u, id) && r.acquisitions[u] == s.acquisitions[u] && id !in r.attachments
    ensures r.settled == s.settled
  {}

  lemma WaiterGone(s: State, u: Token, id: SessionId, w: Token) returns (r: State)
    requires Inv(s) && Passed(s, u, id) && s.acquisitions[u].wait.OnReconciliation?
    requires id in s.attachments && Rejected(s, s.attachments[id])
    requires s.acquisitions[u].wait.promise in s.settled
    requires Waits(s, w, id, OnAttachment(s.attachments[id]))
    ensures Inv(r) && Passed(r, u, id) && r.acquisitions[u] == s.acquisitions[u] && id !in r.attachments
    ensures r.acquisitions[u].wait.promise in r.settled
    ensures GetsExposed(r, id) ==> GetsExposed(s, id)
  {
    r := ContinueAcquire(s, w);
    KeepContinueAcquire(s, w);
    WaiterLeaves(s, u, id, w, r);
    ResumeExposed(s, w, id);
  }

  lemma ResumeExposed(s: State, w: Token, id: SessionId)
    requires CanResume(s, w)
    ensures GetsExposed(ContinueAcquire(s, w), id) ==> GetsExposed(s, id)
  {
    if GetsExposed(ContinueAcquire(s, w), id) { ExposedLater(s, ResumeAcquire(w), id); }
  }

  lemma PassedExposed(s: State, u: Token, id: SessionId)
    requires Inv(s) && Passed(s, u, id)
    ensures GetsExposed(s, id)
  {
    assert WaitKnown(s, u);
    var p := s.acquisitions[u].wait.promise;
    if s.acquisitions[u].wait.OnAttachment? {
      PassedWaits(s, u, id);
    } else if p in s.settled {
      PassedReconciled(s, u, id);
    } else {
      var r := DetachAcked(s, u, id, p);
      PassedReconciled(r, u, id);
    }
  }

  lemma DetachAcked(s: State, u: Token, id: SessionId, p: Promise) returns (r: State)
    requires Inv(s) && Passed(s, u, id) && s.acquisitions[u].wait == OnReconciliation(p)
    requires p in s.pending && s.pending[p] == Detach(id)
    ensures Inv(r) && Passed(r, u, id) && r.acquisitions[u] == s.acquisitions[u] && p in r.settled
    ensures GetsExposed(r, id) ==> GetsExposed(s, id)
  {
    var e := Respond(p, Acked, false);
    r := Apply(s, e);
    KeepInv(s, e);
    assert OwnerOf(r, u) == OwnerOf(s, u);
    if GetsExposed(r, id) { ExposedLater(s, e, id); }
  }

  // ---------- the main results ----------

  lemma {:induction false} VacantRun(s: State, es: seq<Event>, id: SessionId)
    requires Inv(s) && Vacant(s, id) && Runs(s, es) && OrderlyRun(s, es) && NeverCleans(s, es, id)
    ensures Inv(After(s, es)) && Vacant(After(s, es), id)
    decreases es
  {
    if es != [] {
      KeepInv(s, es[0]);
      VacantStep(s, es[0], id);
      VacantRun(Apply(s, es[0]), es[1..], id);
    }
  }

  /** After a failed dispose the session stays detached and unshared until it has been cleaned, in
      every orderly run, exactly if no other unreleased token has got past the cleanup detach. */
  lemma FailedDisposeExactly(s: State, t: Token)
    requires Inv(s) && FailedDispose(s, t)
    ensures
      var id := s.leases[t].session;
      NobodyPassed(s, t, id) <==> !GetsExposed(CatchFailedRelease(s, t), id)
  {
    var id := s.leases[t].session;
    var r := CatchFailedRelease(s, t);
    KeepInv(s, CatchRelease(t));
    FailedDisposeVacant(s, t, id, r);
    if NobodyPassed(s, t, id) { VacantNotExposed(r, id); } else { SomebodyPassed(s, t, id, r); }
  }

  lemma VacantNotExposed(s: State, id: SessionId)
    requires Inv(s) && Vacant(s, id)
    ensures !GetsExposed(s, id)
  {
    forall es | Runs(s, es) && OrderlyRun(s, es) && NeverCleans(s, es, id) ensures !Exposed(After(s, es), id) {
      VacantRun(s, es, id);
    }
  }

  lemma SomebodyPassed(s: State, t: Token, id: SessionId, r: State)
    requires Inv(s) && FailedDispose(s, t) && s.leases[t].session == id && !NobodyPassed(s, t, id)
    requires r == CatchFailedRelease(s, t) && Inv(r)
    ensures GetsExposed(r, id)
  {
    var u := NotBehind(s, t, id, r);
    if u in r.leases { ExposedNow(r, id); } else { PassedExposed(r, u, id); }
  }

  lemma NotBehind(s: State, t: Token, id: SessionId, r: State) returns (u: Token)
    requires Ownership(s) && Cuts(s) && Names(s)
    requires FailedDispose(s, t) && s.leases[t].session == id && !NobodyPassed(s, t, id)
    requires r == CatchFailedRelease(s, t)
    ensures if u in r.leases then Shares(r, u, id) else Passed(r, u, id)
  {
    u :| u != t && OwnerOf(s, u) == Session(id) && !(u in s.acquisitions && BeforeCleanup(s, u));
    FailedDisposeShape(s, t, r);
    TwoShare(s, t, u, id);
  }

  // ---------- a cleanup detach under a lease ----------

  /** The step has put a new cleanup detach of the session on the wire. */
  ghost predicate SendsCleanup(s: State, r: State, id: SessionId) {
    && id in r.reconciliations && r.reconciliations[id] in r.pending && !Known(s, r.reconciliations[id])
    && r.pending[r.reconciliations[id]] == Detach(id)
  }

  ghost predicate Leased(s: State, id: SessionId) {
    exists u :: u in s.leases && OwnerOf(s, u) == Session(id)
  }

  /** A session with a lease takes no exclusive token. */
  lemma LeasedShared(s: State, id: SessionId, mode: Mode)
    requires Accounting(s) && CanReserve(s, id, mode) && Leased(s, id)
    ensures mode == Shared
  {
    var u :| u in s.leases && OwnerOf(s, u) == Session(id);
    CountHolds(s, u, id);
  }

  lemma CleanupSent(s: State, id: SessionId, mode: Mode, r: State)
    requires Names(s) && s.connected && !s.disposed && CanReserve(s, id, mode) && id in s.cleanup
    requires id !in s.detachments && id !in s.reconciliations && r == Acquire(s, id, mode)
    ensures SendsCleanup(s, r, id)
  {}

  /** What follows from a new entry in the table of reconciliations. */
  lemma CleanupSender(s: State, id: SessionId, mode: Mode, r: State)
    requires Attaches(s) && r == Acquire(s, id, mode) && SendsCleanup(s, r, id)
    ensures id in s.cleanup && id !in s.detachments && id !in s.reconciliations
    ensures !s.disposed && CanReserve(s, id, mode)
  {
    if id in s.reconciliations { assert ReconciliationKnown(s, id); }
    if !s.disposed && CanReserve(s, id, mode) { UnsentCleanup(Reserved(s, id, mode), s.next, id, mode, s.epoch, r); }
  }

  lemma UnsentCleanup(s: State, t: Token, id: SessionId, mode: Mode, epoch: nat, r: State)
    requires r == Carried(s, t, id, mode, epoch, CheckDetachment(s, id))
    ensures id !in s.cleanup || id in s.detachments || id in s.reconciliations ==>
              r.reconciliations == s.reconciliations
  {
    if id !in s.detachments && id !in s.cleanup { AttachOnly(s, t, id, mode, epoch, r); }
  }

  lemma AttachOnly(s: State, t: Token, id: SessionId, mode: Mode, epoch: nat, r: State)
    requires r == Carried(s, t, id, mode, epoch, CheckAttached(s, id, false))
    ensures r.reconciliations == s.reconciliations
  {
    var d := CheckAttached(s, id, false);
    if d.Await? {
      assert d.state.reconciliations == s.reconciliations;
      AwaitReconciles(s, t, id, mode, epoch, d, r);
    }
  }

  lemma AwaitReconciles(s: State, t: Token, id: SessionId, mode: Mode, epoch: nat, d: Decision, r: State)
    requires d.Await? && d.state.reconciliations == s.reconciliations && r == Carried(s, t, id, mode, epoch, d)
    ensures r.reconciliations == s.reconciliations
  {}

  /** An acquire sends a cleanup detach under a lease of its session exactly if the session is
      marked and leased, no detach of it is under way, and the acquire may share it. */
  lemma CleanupDetachExactly(s: State, id: SessionId, mode: Mode)
    requires Inv(s) && s.connected
    ensures
      var r := Acquire(s, id, mode);
      SendsCleanup(s, r, id) && Leased(r, id)
      <==> id in s.cleanup && id !in s.detachments && id !in s.reconciliations
           && mode == Shared && id !in s.exclusive && Leased(s, id)
  {
    var r := Acquire(s, id, mode);
    if CanReserve(s, id, mode) {
      if Leased(s, id) { LeasedShared(s, id, mode); }
      if id in s.cleanup { SameLeased(s, id, mode, r); }
      if id in s.cleanup && id !in s.detachments && id !in s.reconciliations { CleanupSent(s, id, mode, r); }
    }
    if SendsCleanup(s, r, id) { CleanupSender(s, id, mode, r); }
  }

  lemma SameLeased(s: State, id: SessionId, mode: Mode, r: State)
    requires Names(s) && Generations(s) && !s.disposed && CanReserve(s, id, mode) && id in s.cleanup
    requires r == Acquire(s, id, mode)
    ensures Leased(r, id) <==> Leased(s, id)
  {
    var s1 := Reserved(s, id, mode);
    UncleanAcquireGrants(s, id, mode);
    DetachmentDecides(s1, id);
    CarriedOwners(s1, s.next, id, mode, s.epoch, CheckDetachment(s1, id), r);
    ReservedOwners(s, id, mode, r);
  }

  /** No reconciliation of the session is new in `r`. */
  ghost predicate NoneNew(s: State, r: State, id: SessionId) {
    id in r.reconciliations ==> id in s.reconciliations && r.reconciliations[id] == s.reconciliations[id]
  }

  lemma DecisionNoneNew(s: State, i: SessionId, id: SessionId)
    requires i != id
    ensures var d := CheckCleanup(s, i); d.Await? ==> NoneNew(s, d.state, id)
  {
    if i in s.cleanup {
      SentKeepsReconciliations(s, Detach(i));
    } else {
      AttachedNoneNew(s, i, false, id);
    }
  }

  lemma AttachedNoneNew(s: State, i: SessionId, reconciled: bool, id: SessionId)
    ensures var d := CheckAttached(s, i, reconciled); d.Await? ==> NoneNew(s, d.state, id)
  {
    SentKeepsReconciliations(s, Attach(i));
  }

  lemma SentKeepsReconciliations(s: State, c: Command)
    ensures Sent(s, c).reconciliations == s.reconciliations
  {}

  lemma CarriedNoneNew(s: State, t: Token, i: SessionId, mode: Mode, epoch: nat, d: Decision, r: State, id: SessionId)
    requires d.Await? ==> NoneNew(s, d.state, id)
    requires r == Carried(s, t, i, mode, epoch, d)
    ensures NoneNew(s, r, id)
  {}

  lemma AcquireNoneNew(s: State, i: SessionId, mode: Mode, id: SessionId)
    requires i != id
    ensures NoneNew(s, Acquire(s, i, mode), id)
  {
    if !s.disposed && CanReserve(s, i, mode) {
      var s1 := Reserved(s, i, mode);
      DecisionNoneNew(s1, i, id);
      CarriedNoneNew(s1, s.next, i, mode, s.epoch, CheckDetachment(s1, i), Acquire(s, i, mode), id);
    }
  }

  lemma ResumeNoneNew(s: State, t: Token, id: SessionId, r: State)
    requires CanResume(s, t) && r == ContinueAcquire(s, t)
    requires s.acquisitions[t].session != id || !s.acquisitions[t].wait.OnDetachment?
    ensures NoneNew(s, r, id)
  {
    var a := s.acquisitions[t];
    match a.wait
    case OnDetachment(_) =>
      DecisionNoneNew(s, a.session, id);
      CarriedNoneNew(s, t, a.session, a.mode, a.epoch, CheckCleanup(s, a.session), r, id);
    case OnReconciliation(p) =>
      if s.settled[p].Failed? {
        LeaveNoneNew(s, s, t, a, r, id);
      } else {
        AttachedNoneNew(s, a.session, true, id);
        CarriedNoneNew(s, t, a.session, a.mode, a.epoch, CheckAttached(s, a.session, true), r, id);
      }
    case OnAttachment(p) =>
      LeaveNoneNew(s, ForgetAttachment(s, a.session, p), t, a, r, id);
  }

  lemma LeaveNoneNew(s: State, s1: State, t: Token, a: Acquisition, r: State, id: SessionId)
    requires s1.reconciliations == s.reconciliations
    requires r == Abandoned(s1, t, a.session) || r == Granted(s1, t, a.session, a.mode)
    ensures NoneNew(s, r, id)
  {}

  lemma OtherNoneNew(s: State, e: Event, id: SessionId)
    requires Enabled(s, e) && !e.BeginAcquire? && !e.ResumeAcquire?
    ensures NoneNew(s, Apply(s, e), id)
  {
    match e
    case BeginRelease(t, relinquish) => ReleaseNoneNew(s, t, relinquish, id);
    case ResumeCreate(p) => CreateNoneNew(s, p, id);
    case ResumeRelease(t) => EndNoneNew(s, t, id);
    case CatchRelease(t) => CatchNoneNew(s, t, id);
    case _ =>
  }

  lemma ReleaseNoneNew(s: State, t: Token, relinquish: bool, id: SessionId)
    requires t in s.leases
    ensures NoneNew(s, Release(s, t, relinquish), id)
  {
    var r := Release(s, t, relinquish);
    ReleaseShape(s, t, relinquish, r);
    RefreshedShape(s, t);
    if r == DetachSent(s, t, relinquish) { DetachSentShape(s, r, t, relinquish); }
  }

  lemma CreateNoneNew(s: State, p: Promise, id: SessionId)
    requires p in s.settled
    ensures NoneNew(s, ContinueCreate(s, p), id)
  {
    var s1 := s.(creations := s.creations - {p});
    if s.settled[p].Created? && CanReserve(s1, s.settled[p].session, Exclusive) {
      LeasedNoneNew(s1, s.settled[p].session, ContinueCreate(s, p), id);
    }
  }

  lemma LeasedNoneNew(s: State, i: SessionId, r: State, id: SessionId)
    requires r == Granted(Reserved(s, i, Exclusive), s.next, i, Exclusive)
    ensures NoneNew(s, r, id)
  {}

  lemma EndNoneNew(s: State, t: Token, id: SessionId)
    requires t in s.leases && s.leases[t].phase.Detaching? && s.leases[t].phase.promise in s.settled
    ensures NoneNew(s, ContinueRelease(s, t), id)
  {}

  lemma CatchNoneNew(s: State, t: Token, id: SessionId)
    requires t in s.leases && s.leases[t].phase.Failing?
    ensures NoneNew(s, CatchFailedRelease(s, t), id)
  {}

  /** While a session is vacant, a cleanup detach of it goes out only when no lease of it is there. */
  lemma CleanupDetachAlone(s: State, e: Event, id: SessionId)
    requires Inv(s) && Vacant(s, id) && Enabled(s, e) && SendsCleanup(s, Apply(s, e), id)
    ensures !Leased(Apply(s, e), id)
  {
    SentIsNew(s, Apply(s, e), id);
    match e
    case BeginAcquire(i, mode) =>
      if i != id { AcquireNoneNew(s, i, mode, id); }
      AcquireAlone(s, id, mode, Apply(s, e));
    case ResumeAcquire(t) =>
      if s.acquisitions[t].session != id || !s.acquisitions[t].wait.OnDetachment? {
        ResumeNoneNew(s, t, id, Apply(s, e));
      }
      RecheckUnleased(s, t, id, Apply(s, e));
    case _ =>
      OtherNoneNew(s, e, id);
  }

  lemma SentIsNew(s: State, r: State, id: SessionId)
    requires Attaches(s) && SendsCleanup(s, r, id)
    ensures !NoneNew(s, r, id)
  {
    if id in s.reconciliations { assert ReconciliationKnown(s, id); }
  }

  lemma AcquireAlone(s: State, id: SessionId, mode: Mode, r: State)
    requires Books(s) && Wire(s) && Vacant(s, id) && r == Acquire(s, id, mode) && SendsCleanup(s, r, id)
    ensures !Leased(r, id)
  {
    CleanupSender(s, id, mode, r);
    SameLeased(s, id, mode, r);
    if Leased(s, id) {
      LeasedShared(s, id, mode);
      LeasedExclusive(s, id);
    }
  }

  /** In a vacant session only an exclusive lease can be left, and then it is recorded. */
  lemma LeasedExclusive(s: State, id: SessionId)
    requires Ownership(s) && Names(s) && Vacant(s, id) && Leased(s, id)
    ensures id in s.exclusive && forall u | u in s.acquisitions :: OwnerOf(s, u) != Session(id)
  {
    var u :| u in s.leases && OwnerOf(s, u) == Session(id);
    assert !Shares(s, u, id);
    assert s.exclusive[id] == u && Tokens(s, id) == {u};
    assert forall v :: OwnerOf(s, v) == Session(id) ==> v in Tokens(s, id);
  }

  lemma RecheckUnleased(s: State, t: Token, id: SessionId, r: State)
    requires Books(s) && Basics(s) && Vacant(s, id) && CanResume(s, t) && r == ContinueAcquire(s, t)
    requires s.acquisitions[t].session == id && s.acquisitions[t].wait.OnDetachment?
    ensures !Leased(r, id)
  {
    OvertakenOffline(s, t);
    assert OwnerOf(s, t) == Session(id);
    if Leased(s, id) { LeasedExclusive(s, id); }
    assert BeforeCleanup(s, t);
    UncleanResumeGrants(s, t, r);
    ResumedLeased(s, t, id, r);
  }

  lemma ResumedLeased(s: State, t: Token, id: SessionId, r: State)
    requires Names(s) && Generations(s) && CanResume(s, t) && s.acquisitions[t].wait.OnDetachment?
    requires s.acquisitions[t].session == id && id in s.cleanup && r == ContinueAcquire(s, t)
    requires !Leased(s, id) && r.leases == s.leases
    ensures !Leased(r, id)
  {
    var a := s.acquisitions[t];
    CleanupRespects(s, id, id);
    CheckDecides(s, id);
    CarriedOwners(s, t, id, a.mode, a.epoch, CheckCleanup(s, id), r);
  }

  /** After a failed dispose that nobody has overtaken, no run sends a cleanup detach under a lease
      before the session has been cleaned. */
  lemma DisposedDetachAlone(s: State, t: Token, es: seq<Event>, e: Event)
    requires Inv(s) && FailedDispose(s, t) && NobodyPassed(s, t, s.leases[t].session)
    requires Runs(CatchFailedRelease(s, t), es) && OrderlyRun(CatchFailedRelease(s, t), es)
    requires NeverCleans(CatchFailedRelease(s, t), es, s.leases[t].session)
    requires Enabled(After(CatchFailedRelease(s, t), es), e)
    ensures
      var id := s.leases[t].session;
      var m := After(CatchFailedRelease(s, t), es);
      SendsCleanup(m, Apply(m, e), id) ==> !Leased(Apply(m, e), id)
  {
    var id := s.leases[t].session;
    var r := CatchFailedRelease(s, t);
    KeepInv(s, CatchRelease(t));
    FailedDisposeVacant(s, t, id, r);
    VacantRun(r, es, id);
    if SendsCleanup(After(r, es), Apply(After(r, es), e), id) { CleanupDetachAlone(After(r, es), e, id); }
  }
}
