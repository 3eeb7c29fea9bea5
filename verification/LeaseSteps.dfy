/** Every event of an orderly run keeps the lease invariant. */
module LeaseSteps {
  import opened Leases
  import opened LeaseInvariant
  import opened LeaseWire
  import opened LeaseBooks

  // ---------- acquiring ----------

  /** An attach that an overtaken acquisition can come to share has been rejected. */
  lemma OvertakenAttachment(s: State, id: SessionId)
    requires Accounting(s) && Cuts(s) && Attaches(s) && id in s.attachments && id !in s.counts
    ensures Rejected(s, s.attachments[id])
  {
    assert AttachmentKnown(s, id);
    var u :| Waits(s, u, id, OnAttachment(s.attachments[id]));
    if !Overtaken(s, u) {
      CountHolds(s, u, id);
    }
  }

  /** The promise a check makes the acquisition wait for. */
  ghost predicate AttachmentUsable(s: State, id: SessionId, epoch: nat) {
    epoch != s.epoch && id in s.attachments ==> Rejected(s, s.attachments[id])
  }

  lemma GrantedWire(s: State, t: Token, id: SessionId, mode: Mode)
    requires Wire(s) && NoDetach(s, id) && t < s.next && t !in s.leases
    requires t in s.acquisitions && s.acquisitions[t].session in s.attachments ==>
               s.acquisitions[t].wait != OnAttachment(s.attachments[s.acquisitions[t].session])
    ensures Wire(Granted(s, t, id, mode))
  {
    var m := s.(acquisitions := s.acquisitions - {t});
    if t in s.acquisitions { DropWire(s, m, t); } else { assert m == s; }
    GrantedShape(s, m, t, id, mode);
    LeaseChangeWire(m, Granted(s, t, id, mode), t);
  }

  lemma GrantedShape(s: State, m: State, t: Token, id: SessionId, mode: Mode)
    requires m == s.(acquisitions := s.acquisitions - {t}) && NoDetach(m, id) && t !in m.leases
    ensures
      var r := Granted(s, t, id, mode);
      && r == m.(leases := m.leases[t := r.leases[t]], generations := r.generations)
      && r.leases[t] == Lease(id, mode, Generation(m, id), Active)
      && id in r.generations && r.leases[t].generation <= r.generations[id]
      && NoDetach(r, id)
      && (forall i | i in m.generations :: i in r.generations && r.generations[i] == m.generations[i])
  {}

  lemma AttachShape(s: State, t: Token, id: SessionId, mode: Mode, epoch: nat, a: Acquisition, r: State)
    requires a == Acquisition(id, mode, OnAttachment(s.next), epoch)
    requires r == Carried(s, t, id, mode, epoch,
                          Await(Sent(s, Attach(id)).(attachments := s.attachments[id := s.next]), OnAttachment(s.next)))
    ensures Issued(s, r, Attach(id)) && Suspended(s, r, t, a)
    ensures r.attachments == s.attachments[id := s.next] && r.reconciliations == s.reconciliations
  {}

  lemma CleanupShape(s: State, t: Token, id: SessionId, mode: Mode, epoch: nat, a: Acquisition, r: State)
    requires a == Acquisition(id, mode, OnReconciliation(s.next), epoch)
    requires r == Carried(s, t, id, mode, epoch,
                          Await(Sent(s, Detach(id)).(reconciliations := s.reconciliations[id := s.next]),
                                OnReconciliation(s.next)))
    ensures Issued(s, r, Detach(id)) && Suspended(s, r, t, a)
    ensures r.attachments == s.attachments && r.reconciliations == s.reconciliations[id := s.next]
  {}

  lemma CheckAttachedWire(s: State, t: Token, id: SessionId, mode: Mode, epoch: nat, reconciled: bool)
    requires Wire(s) && Carriable(s, t, id, epoch) && NoDetach(s, id) && AttachmentUsable(s, id, epoch)
    ensures Wire(Carried(s, t, id, mode, epoch, CheckAttached(s, id, reconciled)))
  {
    if !reconciled && id in s.attached {
      GrantedWire(s, t, id, mode);
    } else if id in s.attachments {
      JoinAttachWire(s, t, id, mode, epoch);
    } else {
      var a := Acquisition(id, mode, OnAttachment(s.next), epoch);
      var r := Carried(s, t, id, mode, epoch, CheckAttached(s, id, reconciled));
      AttachShape(s, t, id, mode, epoch, a, r);
      AttachWire(s, r, t, a);
    }
  }

  lemma JoinAttachWire(s: State, t: Token, id: SessionId, mode: Mode, epoch: nat)
    requires Wire(s) && Carriable(s, t, id, epoch) && NoDetach(s, id) && AttachmentUsable(s, id, epoch)
    requires id in s.attachments
    ensures Wire(Carried(s, t, id, mode, epoch, Await(s, OnAttachment(s.attachments[id]))))
  {
    assert AttachmentKnown(s, id);
    var a := Acquisition(id, mode, OnAttachment(s.attachments[id]), epoch);
    JoinWire(s, s.(acquisitions := s.acquisitions[t := a]), t, a);
  }

  lemma JoinCleanupWire(s: State, t: Token, id: SessionId, mode: Mode, epoch: nat)
    requires Wire(s) && Carriable(s, t, id, epoch) && NoDetach(s, id) && id in s.reconciliations
    ensures Wire(Carried(s, t, id, mode, epoch, Await(s, OnReconciliation(s.reconciliations[id]))))
  {
    assert ReconciliationKnown(s, id);
    var a := Acquisition(id, mode, OnReconciliation(s.reconciliations[id]), epoch);
    JoinWire(s, s.(acquisitions := s.acquisitions[t := a]), t, a);
  }

  lemma SendCleanupWire(s: State, t: Token, id: SessionId, mode: Mode, epoch: nat, r: State)
    requires Wire(s) && Carriable(s, t, id, epoch) && NoDetach(s, id) && id !in s.reconciliations
    requires r == Carried(s, t, id, mode, epoch,
                          Await(Sent(s, Detach(id)).(reconciliations := s.reconciliations[id := s.next]),
                                OnReconciliation(s.next)))
    ensures Wire(r)
  {
    var a := Acquisition(id, mode, OnReconciliation(s.next), epoch);
    CleanupShape(s, t, id, mode, epoch, a, r);
    CleanupWire(s, r, t, a);
  }

  lemma CheckCleanupWire(s: State, t: Token, id: SessionId, mode: Mode, epoch: nat)
    requires Wire(s) && Carriable(s, t, id, epoch) && NoDetach(s, id) && AttachmentUsable(s, id, epoch)
    ensures Wire(Carried(s, t, id, mode, epoch, CheckCleanup(s, id)))
  {
    if id !in s.cleanup {
      CheckAttachedWire(s, t, id, mode, epoch, false);
    } else if id in s.reconciliations {
      JoinCleanupWire(s, t, id, mode, epoch);
    } else {
      SendCleanupWire(s, t, id, mode, epoch, Carried(s, t, id, mode, epoch, CheckCleanup(s, id)));
    }
  }

  /** A decision is one of those the checks make in state `s`. */
  ghost predicate Decided(s: State, d: Decision) {
    || d == Grant
    || d.state == s.(attachments := d.state.attachments, reconciliations := d.state.reconciliations,
                     pending := d.state.pending, settled := d.state.settled, next := d.state.next)
  }

  lemma SentKeeps(s: State, c: Command)
    ensures Decided(s, Await(Sent(s, c), OnAttachment(s.next)))
  {}

  lemma AttachDecides(s: State, id: SessionId, reconciled: bool)
    ensures Decided(s, CheckAttached(s, id, reconciled))
  {
    if (reconciled || id !in s.attached) && id !in s.attachments { SentKeeps(s, Attach(id)); }
  }

  lemma CheckDecides(s: State, id: SessionId)
    ensures Decided(s, CheckCleanup(s, id))
  {
    if id !in s.cleanup { AttachDecides(s, id, false); }
    else if id !in s.reconciliations { SentKeeps(s, Detach(id)); }
  }

  lemma DetachmentDecides(s: State, id: SessionId)
    ensures Decided(s, CheckDetachment(s, id))
  {
    if id !in s.detachments { CheckDecides(s, id); }
  }

  lemma CarriedOwners(s: State, t: Token, id: SessionId, mode: Mode, epoch: nat, d: Decision, r: State)
    requires Generations(s) && t !in s.leases && Decided(s, d)
    requires d.Grant? ==> epoch == s.epoch
    requires r == Carried(s, t, id, mode, epoch, d)
    ensures r.counts == s.counts && r.exclusive == s.exclusive
    ensures t in r.acquisitions || t in r.leases
    ensures ModeOf(r, t) == mode && OwnerOf(r, t) == if epoch == s.epoch then Session(id) else Nobody
    ensures OthersKept(s, r, t)
  {
    forall u | u != t ensures OwnerOf(r, u) == OwnerOf(s, u) {}
  }

  lemma KeepAcquire(s: State, id: SessionId, mode: Mode)
    requires Inv(s) && Orderly(s, BeginAcquire(id, mode))
    ensures Inv(Acquire(s, id, mode))
  {
    if !s.disposed && CanReserve(s, id, mode) {
      AcquireWire(s, id, mode);
      AcquireBooks(s, id, mode);
    }
  }

  lemma AcquireWire(s: State, id: SessionId, mode: Mode)
    requires Wire(s) && Drained(s, id) && !s.disposed && CanReserve(s, id, mode)
    ensures Wire(Acquire(s, id, mode))
  {
    var s1 := Reserved(s, id, mode);
    assert forall t | t in s.leases && s.leases[t].phase.Detaching? :: DetachAlone(s, t);
    ReservedWire(s, id, mode);
    if id in s1.detachments {
      JoinDetachWire(s1, s.next, id, mode);
    } else {
      NoDetachWithout(s1, id);
      assert Carriable(s1, s.next, id, s.epoch);
      CheckCleanupWire(s1, s.next, id, mode, s.epoch);
    }
  }

  lemma JoinDetachWire(s: State, t: Token, id: SessionId, mode: Mode)
    requires Wire(s) && Carriable(s, t, id, s.epoch) && id in s.detachments
    ensures Wire(Carried(s, t, id, mode, s.epoch, Await(s, OnDetachment(s.detachments[id]))))
  {
    var a := Acquisition(id, mode, OnDetachment(s.detachments[id]), s.epoch);
    JoinWire(s, s.(acquisitions := s.acquisitions[t := a]), t, a);
  }

  lemma NoDetachWithout(s: State, id: SessionId)
    requires Detaches(s) && id !in s.detachments
    ensures NoDetach(s, id)
  {
    forall t | t in s.leases && s.leases[t].session == id && s.leases[t].phase.Detaching?
      ensures s.leases[t].phase.promise !in s.pending
    {
      assert DetachAlone(s, t);
    }
  }

  lemma AcquireBooks(s: State, id: SessionId, mode: Mode)
    requires Books(s) && Names(s) && Generations(s) && !s.disposed && CanReserve(s, id, mode)
    ensures Books(Acquire(s, id, mode))
  {
    var r := Acquire(s, id, mode);
    AcquireOwners(s, id, mode, r);
    BooksAdd(s, r, s.next, id, mode);
  }

  lemma AcquireOwners(s: State, id: SessionId, mode: Mode, r: State)
    requires Names(s) && Generations(s) && !s.disposed && CanReserve(s, id, mode) && r == Acquire(s, id, mode)
    ensures s.next in r.acquisitions || s.next in r.leases
    ensures OwnerOf(s, s.next) == Nobody && OwnerOf(r, s.next) == Session(id) && ModeOf(r, s.next) == mode
    ensures OthersKept(s, r, s.next) && r.counts == s.counts[id := Count(s, id) + 1]
    ensures r.exclusive == if mode == Exclusive then s.exclusive[id := s.next] else s.exclusive
  {
    var s1 := Reserved(s, id, mode);
    DetachmentDecides(s1, id);
    CarriedOwners(s1, s.next, id, mode, s.epoch, CheckDetachment(s1, id), r);
    ReservedOwners(s, id, mode, r);
  }

  lemma ReservedOwners(s: State, id: SessionId, mode: Mode, r: State)
    requires Names(s) && OthersKept(Reserved(s, id, mode), r, s.next)
    ensures OwnerOf(s, s.next) == Nobody && OthersKept(s, r, s.next)
  {
    var s1 := Reserved(s, id, mode);
    forall u ensures OwnerOf(s1, u) == OwnerOf(s, u) {}
  }

  lemma NoDetachBeside(s: State, t: Token)
    requires Detaches(s) && t in s.acquisitions && s.acquisitions[t].wait.promise !in s.pending
    ensures NoDetach(s, s.acquisitions[t].session)
  {
    forall u | u in s.leases && s.leases[u].session == s.acquisitions[t].session && s.leases[u].phase.Detaching?
      ensures s.leases[u].phase.promise !in s.pending
    {
      assert DetachAlone(s, u);
    }
  }

  lemma KeepContinueAcquire(s: State, t: Token)
    requires Inv(s) && CanResume(s, t)
    ensures Inv(ContinueAcquire(s, t))
  {
    NoDetachBeside(s, t);
    var id := s.acquisitions[t].session;
    if s.acquisitions[t].epoch != s.epoch && id in s.attachments { OvertakenAttachment(s, id); }
    match s.acquisitions[t].wait
    case OnDetachment(_) =>
      ResumeCheckWire(s, t);
      ResumeCheckBooks(s, t);
    case OnReconciliation(p) =>
      if s.settled[p].Failed? {
        KeepAbandon(s, t, ContinueAcquire(s, t));
      } else {
        ResumeAttachWire(s, t);
        ResumeAttachBooks(s, t);
      }
    case OnAttachment(p) =>
      KeepAttachSettled(s, t);
  }

  lemma KeepAttachSettled(s: State, t: Token)
    requires Inv(s) && CanResume(s, t) && s.acquisitions[t].wait.OnAttachment?
    requires NoDetach(s, s.acquisitions[t].session)
    ensures Inv(ContinueAcquire(s, t))
  {
    AttachSettledWire(s, t, ContinueAcquire(s, t));
    AttachSettledBooks(s, t, ContinueAcquire(s, t));
  }

  lemma ForgetShape(s: State, r: State, t: Token)
    requires t in s.acquisitions && s.acquisitions[t].wait.OnAttachment? && NoDetach(s, s.acquisitions[t].session)
    requires r == ForgetAttachment(s, s.acquisitions[t].session, s.acquisitions[t].wait.promise)
    ensures r.acquisitions == s.acquisitions && r.leases == s.leases && r.next == s.next
    ensures NoDetach(r, s.acquisitions[t].session)
    ensures s.acquisitions[t].session in r.attachments ==>
              s.acquisitions[t].wait != OnAttachment(r.attachments[s.acquisitions[t].session])
  {}

  lemma AttachSettledWire(s: State, t: Token, r: State)
    requires Wire(s) && CanResume(s, t) && s.acquisitions[t].wait.OnAttachment?
    requires NoDetach(s, s.acquisitions[t].session) && r == ContinueAcquire(s, t)
    ensures Wire(r)
  {
    var s1 := ForgetAttachment(s, s.acquisitions[t].session, s.acquisitions[t].wait.promise);
    assert Wire(s1) by { ForgetAttachmentWire(s, s1, s.acquisitions[t].session, s.acquisitions[t].wait.promise); }
    ForgetShape(s, s1, t);
    AttachSettledTail(s1, t, r);
  }

  lemma AttachSettledTail(s1: State, t: Token, r: State)
    requires Wire(s1) && t in s1.acquisitions && NoDetach(s1, s1.acquisitions[t].session)
    requires s1.acquisitions[t].session in s1.attachments ==>
               s1.acquisitions[t].wait != OnAttachment(s1.attachments[s1.acquisitions[t].session])
    requires r == Abandoned(s1, t, s1.acquisitions[t].session)
             || r == Granted(s1, t, s1.acquisitions[t].session, s1.acquisitions[t].mode)
    ensures Wire(r)
  {
    if r == Abandoned(s1, t, s1.acquisitions[t].session) {
      AbandonedWire(s1, t, r);
    } else {
      GrantedWire(s1, t, s1.acquisitions[t].session, s1.acquisitions[t].mode);
    }
  }

  lemma AttachSettledBooks(s: State, t: Token, r: State)
    requires Books(s) && Names(s) && Generations(s) && Cuts(s)
    requires CanResume(s, t) && s.acquisitions[t].wait.OnAttachment? && r == ContinueAcquire(s, t)
    ensures Books(r)
  {
    var p := s.acquisitions[t].wait.promise;
    if !s.settled[p].Failed? { AckedIsCurrent(s, t); }
    AttachSettledOwners(s, t, p, ForgetAttachment(s, s.acquisitions[t].session, p), r);
  }

  lemma AttachSettledOwners(s: State, t: Token, p: Promise, s1: State, r: State)
    requires Books(s) && Names(s) && Generations(s) && Cuts(s) && t in s.acquisitions
    requires s1 == ForgetAttachment(s, s.acquisitions[t].session, p)
    requires r == Abandoned(s1, t, s.acquisitions[t].session)
             || (!Overtaken(s, t) && r == Granted(s1, t, s.acquisitions[t].session, s.acquisitions[t].mode))
    ensures Books(r)
  {
    ForgetAttachmentBooks(s, s.acquisitions[t].session, p);
    if r == Abandoned(s1, t, s.acquisitions[t].session) {
      AbandonedBooks(s1, t, r);
    } else {
      CarriedBooks(s1, t, Grant, r);
    }
  }

  lemma AckedIsCurrent(s: State, t: Token)
    requires Cuts(s) && t in s.acquisitions && s.acquisitions[t].wait.OnAttachment?
    requires Fulfilled(s, s.acquisitions[t].wait.promise)
    ensures !Overtaken(s, t)
  {}

  /** An overtaken acquisition goes on only without a link. */
  lemma OvertakenOffline(s: State, t: Token)
    requires Cuts(s) && t in s.acquisitions && !Leaving(s, t)
    ensures Overtaken(s, t) ==> !s.connected && s.acquisitions[t].session !in s.counts
  {
    if Overtaken(s, t) { assert LeftBehind(s, t); }
  }

  lemma ResumeCheckWire(s: State, t: Token)
    requires Wire(s) && t in s.acquisitions && !s.acquisitions[t].wait.OnAttachment? && !Leaving(s, t)
    requires NoDetach(s, s.acquisitions[t].session)
    requires AttachmentUsable(s, s.acquisitions[t].session, s.acquisitions[t].epoch)
    ensures
      var Acquisition(id, mode, _, epoch) := s.acquisitions[t];
      Wire(Carried(s, t, id, mode, epoch, CheckCleanup(s, id)))
  {
    var Acquisition(id, mode, _, epoch) := s.acquisitions[t];
    OvertakenOffline(s, t);
    assert Carriable(s, t, id, epoch);
    CheckCleanupWire(s, t, id, mode, epoch);
  }

  lemma ResumeAttachWire(s: State, t: Token)
    requires Wire(s) && t in s.acquisitions && !s.acquisitions[t].wait.OnAttachment? && !Leaving(s, t)
    requires NoDetach(s, s.acquisitions[t].session)
    requires AttachmentUsable(s, s.acquisitions[t].session, s.acquisitions[t].epoch)
    ensures
      var Acquisition(id, mode, _, epoch) := s.acquisitions[t];
      Wire(Carried(s, t, id, mode, epoch, CheckAttached(s, id, true)))
  {
    var Acquisition(id, mode, _, epoch) := s.acquisitions[t];
    OvertakenOffline(s, t);
    assert Carriable(s, t, id, epoch);
    CheckAttachedWire(s, t, id, mode, epoch, true);
  }

  lemma ResumeCheckBooks(s: State, t: Token)
    requires Books(s) && Names(s) && Generations(s) && Cuts(s) && t in s.acquisitions && !Leaving(s, t)
    ensures
      var Acquisition(id, mode, _, epoch) := s.acquisitions[t];
      Books(Carried(s, t, id, mode, epoch, CheckCleanup(s, id)))
  {
    var Acquisition(id, mode, _, epoch) := s.acquisitions[t];
    var d := CheckCleanup(s, id);
    CheckDecides(s, id);
    OvertakenOffline(s, t);
    CarriedBooks(s, t, d, Carried(s, t, id, mode, epoch, d));
  }

  lemma ResumeAttachBooks(s: State, t: Token)
    requires Books(s) && Names(s) && Generations(s) && t in s.acquisitions
    ensures
      var Acquisition(id, mode, _, epoch) := s.acquisitions[t];
      Books(Carried(s, t, id, mode, epoch, CheckAttached(s, id, true)))
  {
    var Acquisition(id, mode, _, epoch) := s.acquisitions[t];
    AttachDecides(s, id, true);
    var d := CheckAttached(s, id, true);
    assert !d.Grant?;
    CarriedBooks(s, t, d, Carried(s, t, id, mode, epoch, d));
  }

  /** Going on with an acquisition, or turning it into a lease, leaves the books as they are. */
  lemma CarriedBooks(s: State, t: Token, d: Decision, r: State)
    requires Books(s) && Generations(s) && t in s.acquisitions && t !in s.leases
    requires Decided(s, d) && (d.Grant? ==> s.acquisitions[t].epoch == s.epoch)
    requires r == Carried(s, t, s.acquisitions[t].session, s.acquisitions[t].mode, s.acquisitions[t].epoch, d)
    ensures Books(r)
  {
    CarriedOwners(s, t, s.acquisitions[t].session, s.acquisitions[t].mode, s.acquisitions[t].epoch, d, r);
    assert SameOwners(s, r);
    BooksFrame(s, r);
  }

  lemma ForgetAttachmentWire(s: State, r: State, id: SessionId, p: Promise)
    requires Wire(s) && p in s.settled && r == ForgetAttachment(s, id, p)
    ensures Wire(r)
  {
    ForgetWire(s, r);
  }

  lemma ForgetAttachmentBooks(s: State, id: SessionId, p: Promise)
    requires Books(s)
    ensures Books(ForgetAttachment(s, id, p))
  {
    assert SameOwners(s, ForgetAttachment(s, id, p));
    BooksFrame(s, ForgetAttachment(s, id, p));
  }

  lemma AbandonedWire(s: State, t: Token, r: State)
    requires Wire(s) && t in s.acquisitions
    requires s.acquisitions[t].session in s.attachments ==>
               s.acquisitions[t].wait != OnAttachment(s.attachments[s.acquisitions[t].session])
    requires r == Abandoned(s, t, s.acquisitions[t].session)
    ensures Wire(r)
  {
    var m := s.(acquisitions := s.acquisitions - {t});
    DropWire(s, m, t);
    CountsWire(m, r);
  }

  lemma DropOwners(s: State, t: Token, r: State)
    requires t in s.acquisitions && t !in s.leases
    requires r.acquisitions == s.acquisitions - {t} && r.leases == s.leases
    requires r.generations == s.generations && r.epoch == s.epoch
    ensures OwnerOf(r, t) == Nobody && OthersKept(s, r, t)
  {
    forall u | u != t ensures OwnerOf(r, u) == OwnerOf(s, u) {}
  }

  lemma AbandonedBooks(s: State, t: Token, r: State)
    requires Books(s) && Names(s) && Cuts(s) && t in s.acquisitions
    requires r == Abandoned(s, t, s.acquisitions[t].session)
    ensures Books(r)
  {
    var id := s.acquisitions[t].session;
    DropOwners(s, t, r);
    if Overtaken(s, t) {
      OvertakenBooks(s, t, r);
    } else {
      BooksDrop(s, r, t, id);
    }
  }

  /** An acquisition that was overtaken gives back what nobody counts. */
  lemma OvertakenBooks(s: State, t: Token, r: State)
    requires Books(s) && Names(s) && Cuts(s) && Overtaken(s, t)
    requires r == Abandoned(s, t, s.acquisitions[t].session)
    ensures Books(r)
  {
    DropOwners(s, t, r);
    assert LeftBehind(s, t);
    ExclusiveCounted(s, s.acquisitions[t].session);
    assert SameOwners(s, r);
    BooksFrame(s, r);
  }

  lemma KeepAbandon(s: State, t: Token, r: State)
    requires Inv(s) && t in s.acquisitions
    requires s.acquisitions[t].session in s.attachments ==>
               s.acquisitions[t].wait != OnAttachment(s.attachments[s.acquisitions[t].session])
    requires r == Abandoned(s, t, s.acquisitions[t].session)
    ensures Inv(r)
  {
    AbandonedWire(s, t, r);
    AbandonedBooks(s, t, r);
  }

  // ---------- creating ----------

  lemma ForgetCreation(s: State, r: State, p: Promise)
    requires Inv(s) && r == s.(creations := s.creations - {p})
    ensures Wire(r) && Books(r)
  {
    ForgetCreationWire(s, r, p);
    ForgetCreationBooks(s, r, p);
  }

  lemma ForgetCreationWire(s: State, r: State, p: Promise)
    requires Wire(s) && r == s.(creations := s.creations - {p})
    ensures Wire(r)
  {
    assert Basics(r);
    SameDetaches(s, r);
    SameAttaches(s, r);
  }

  lemma ForgetCreationBooks(s: State, r: State, p: Promise)
    requires Books(s) && r == s.(creations := s.creations - {p})
    ensures Books(r)
  {
    assert SameOwners(s, r);
    BooksFrame(s, r);
  }

  lemma KeepContinueCreate(s: State, p: Promise)
    requires Inv(s) && p in s.creations && p in s.settled && Orderly(s, ResumeCreate(p))
    ensures Inv(ContinueCreate(s, p))
  {
    var s1 := s.(creations := s.creations - {p});
    ForgetCreation(s, s1, p);
    if s.settled[p].Created? && CanReserve(s1, s.settled[p].session, Exclusive) {
      CreatedUnsealed(s, s1, p);
      CreatedWire(s1, s.settled[p].session, ContinueCreate(s, p));
      CreatedBooks(s1, s.settled[p].session, ContinueCreate(s, p));
    }
  }

  /** While the creation was there its session was not sealed. */
  lemma CreatedUnsealed(s: State, s1: State, p: Promise)
    requires Detaches(s) && p in s.creations && p in s.settled && s.settled[p].Created?
    requires s1 == s.(creations := s.creations - {p})
    ensures Unsealed(s1, s.settled[p].session)
  {
    var id := s.settled[p].session;
    assert !Sealed(s, id);
    forall t | t in s1.leases && s1.leases[t].phase.Detaching? && s1.leases[t].session == id && IsStale(s1, t)
      ensures Rejected(s1, s1.leases[t].phase.promise)
    {
      assert DetachAlone(s, t) && IsStale(s, t);
    }
  }

  lemma CreatedWire(s: State, id: SessionId, r: State)
    requires Wire(s) && Drained(s, id) && Unsealed(s, id) && Accounting(s) && Count(s, id) == 0
    requires r == Granted(Reserved(s, id, Exclusive), s.next, id, Exclusive)
    ensures Wire(r)
  {
    assert NoDetach(s, id) by { NoDetachUnheld(s, id); }
    CreatedWireTail(s, id, r);
  }

  lemma CreatedWireTail(s: State, id: SessionId, r: State)
    requires Wire(s) && Drained(s, id) && Unsealed(s, id) && NoDetach(s, id)
    requires r == Granted(Reserved(s, id, Exclusive), s.next, id, Exclusive)
    ensures Wire(r)
  {
    ReservedWire(s, id, Exclusive);
    GrantedWire(Reserved(s, id, Exclusive), s.next, id, Exclusive);
  }

  lemma NoDetachUnheld(s: State, id: SessionId)
    requires Detaches(s) && Names(s) && Accounting(s) && Count(s, id) == 0
    ensures NoDetach(s, id)
  {
    forall t | t in s.leases && s.leases[t].session == id && s.leases[t].phase.Detaching?
      ensures s.leases[t].phase.promise !in s.pending
    {
      assert DetachAlone(s, t);
      assert OwnerOf(s, t) != Session(id) by {
        if OwnerOf(s, t) == Session(id) { CountHolds(s, t, id); }
      }
    }
  }

  lemma CreatedBooks(s: State, id: SessionId, r: State)
    requires Books(s) && Names(s) && Generations(s) && CanReserve(s, id, Exclusive)
    requires r == Granted(Reserved(s, id, Exclusive), s.next, id, Exclusive)
    ensures Books(r)
  {
    var s1 := Reserved(s, id, Exclusive);
    CarriedOwners(s1, s.next, id, Exclusive, s.epoch, Grant, r);
    ReservedOwners(s, id, Exclusive, r);
    BooksAdd(s, r, s.next, id, Exclusive);
  }

  // ---------- releasing ----------

  /** A lease that is stale, or was given back before, changes its mind about nothing. */
  lemma KeepPhase(s: State, r: State, t: Token, phase: Phase)
    requires Inv(s) && t in s.leases && r == SetPhase(s, t, phase) && !phase.Detaching?
    requires OwnerOf(r, t) == OwnerOf(s, t)
    requires Releasing(phase) && !IsStale(s, t) ==> s.connected
    ensures Inv(r)
  {
    LeaseChangeWire(s, r, t);
    PhaseOwners(s, r, t, phase);
    BooksFrame(s, r);
  }

  lemma PhaseOwners(s: State, r: State, t: Token, phase: Phase)
    requires t in s.leases && r == SetPhase(s, t, phase)
    ensures OthersKept(s, r, t) && (t in s.acquisitions ==> OwnerOf(r, t) == OwnerOf(s, t))
    ensures t !in s.acquisitions ==> ModeOf(r, t) == ModeOf(s, t)
    ensures OwnerOf(r, t) == OwnerOf(s, t) ==> SameOwners(s, r)
  {
    forall u | u != t ensures OwnerOf(r, u) == OwnerOf(s, u) {}
  }

  lemma KeepRefreshed(s: State, t: Token)
    requires Inv(s) && t in s.leases
    ensures Inv(Refreshed(s, t))
  {
    RefreshedShape(s, t);
    if Refreshed(s, t) != s { KeepPhase(s, Refreshed(s, t), t, Invalidated); }
  }

  /** The lease gives its token back. */
  lemma KeepGiveBack(s: State, r: State, t: Token, cleanup: set<SessionId>)
    requires Inv(s) && t in s.leases && OwnerOf(s, t) == Session(s.leases[t].session)
    requires r == SetPhase(Unreserved(s, s.leases[t].session, t).(cleanup := cleanup), t, Released)
    requires !s.connected ==> cleanup == s.cleanup
    ensures Inv(r)
  {
    GiveBackWire(s, r, t, cleanup);
    GiveBackBooks(s, r, t, cleanup);
  }

  lemma GiveBackWire(s: State, r: State, t: Token, cleanup: set<SessionId>)
    requires Wire(s) && t in s.leases && (!s.connected ==> cleanup == s.cleanup)
    requires r == SetPhase(Unreserved(s, s.leases[t].session, t).(cleanup := cleanup), t, Released)
    ensures Wire(r)
  {
    var m := Unreserved(s, s.leases[t].session, t).(cleanup := cleanup);
    CountsWire(s, m);
    GiveBackTail(m, r, t);
  }

  lemma GiveBackTail(m: State, r: State, t: Token)
    requires Wire(m) && t in m.leases && r == SetPhase(m, t, Released)
    ensures Wire(r)
  {
    LeaseChangeWire(m, r, t);
  }

  lemma GiveBackBooks(s: State, r: State, t: Token, cleanup: set<SessionId>)
    requires Books(s) && Names(s) && t in s.leases && OwnerOf(s, t) == Session(s.leases[t].session)
    requires r == SetPhase(Unreserved(s, s.leases[t].session, t).(cleanup := cleanup), t, Released)
    ensures Books(r)
  {
    GiveBackOwners(s, r, t, cleanup);
    BooksDrop(s, r, t, s.leases[t].session);
  }

  lemma GiveBackOwners(s: State, r: State, t: Token, cleanup: set<SessionId>)
    requires Names(s) && t in s.leases
    requires r == SetPhase(Unreserved(s, s.leases[t].session, t).(cleanup := cleanup), t, Released)
    ensures OwnerOf(r, t) == Nobody && OthersKept(s, r, t)
    ensures r.counts == Unreserved(s, s.leases[t].session, t).counts
    ensures r.exclusive == Unreserved(s, s.leases[t].session, t).exclusive
  {
    forall u | u != t ensures OwnerOf(r, u) == OwnerOf(s, u) {}
  }

  lemma RefreshedShape(s: State, t: Token)
    requires t in s.leases
    ensures Refreshed(s, t) == s || (IsStale(s, t) && Refreshed(s, t) == SetPhase(s, t, Invalidated))
    ensures Refreshed(s, t).leases[t].phase.Active? ==> Refreshed(s, t) == s && !IsStale(s, t)
    ensures IsStale(s, t) && s.leases[t].phase.Active? ==> Refreshed(s, t) == SetPhase(s, t, Invalidated)
  {}

  lemma ReleaseShape(s: State, t: Token, relinquish: bool, r: State)
    requires t in s.leases && r == Release(s, t, relinquish)
    ensures
      || r == Refreshed(s, t)
      || (s.leases[t].phase.Active? && !IsStale(s, t) && s.connected && !s.disposed && s.leases[t].session in s.attached
          && r == if Count(s, s.leases[t].session) <= 1 then DetachSent(s, t, relinquish)
                  else SetPhase(Unreserved(s, s.leases[t].session, t), t, Released))
  {
    RefreshedShape(s, t);
  }

  lemma KeepRelease(s: State, t: Token, relinquish: bool)
    requires Inv(s) && t in s.leases
    ensures Inv(Release(s, t, relinquish))
  {
    var r := Release(s, t, relinquish);
    ReleaseShape(s, t, relinquish, r);
    if r == Refreshed(s, t) {
      KeepRefreshed(s, t);
    } else {
      KeepActiveRelease(s, t, relinquish, r);
    }
  }

  lemma KeepActiveRelease(s: State, t: Token, relinquish: bool, r: State)
    requires Inv(s) && t in s.leases && s.leases[t].phase.Active? && !IsStale(s, t)
    requires s.connected && !s.disposed
    requires r == if Count(s, s.leases[t].session) <= 1 then DetachSent(s, t, relinquish)
                  else SetPhase(Unreserved(s, s.leases[t].session, t), t, Released)
    ensures Inv(r)
  {
    var id := s.leases[t].session;
    CountHolds(s, t, id);
    if Count(s, id) <= 1 {
      DetachSentWire(s, r, t, relinquish);
      DetachSentBooks(s, r, t, relinquish);
    } else {
      UnreserveKeeps(s, id, t);
      KeepGiveBack(s, r, t, s.cleanup);
    }
  }

  lemma DetachSentWire(s: State, r: State, t: Token, relinquish: bool)
    requires Wire(s) && t in s.leases && s.leases[t].phase.Active? && !IsStale(s, t)
    requires s.connected && !s.disposed && Alone(s, t, s.leases[t].session) && s.leases[t].session in s.counts
    requires r == DetachSent(s, t, relinquish)
    ensures Wire(r)
  {
    DetachSentShape(s, r, t, relinquish);
    DetachWire(s, r, t, s.next, relinquish);
  }

  lemma DetachSentShape(s: State, r: State, t: Token, relinquish: bool)
    requires t in s.leases && r == DetachSent(s, t, relinquish)
    ensures Issued(s, r, Detach(s.leases[t].session))
    ensures r.leases == s.leases[t := s.leases[t].(phase := Detaching(s.next, relinquish))]
    ensures r.detachments == s.detachments[s.leases[t].session := s.next]
    ensures r.acquisitions == s.acquisitions && r.generations == s.generations && r.counts == s.counts
    ensures r.attachments == s.attachments && r.reconciliations == s.reconciliations
    ensures r.attached == s.attached && r.creations == s.creations && r.exclusive == s.exclusive
    ensures r.cleanup == s.cleanup
  {}

  lemma DetachSentBooks(s: State, r: State, t: Token, relinquish: bool)
    requires Books(s) && Names(s) && t in s.leases && s.leases[t].phase.Active? && r == DetachSent(s, t, relinquish)
    ensures Books(r)
  {
    DetachSentShape(s, r, t, relinquish);
    forall u ensures OwnerOf(r, u) == OwnerOf(s, u) {}
    BooksFrame(s, r);
  }

  lemma ForgetDetachmentBooks(s: State, r: State, id: SessionId, p: Promise)
    requires Books(s) && r == ForgetDetachment(s, id, p)
    ensures Books(r)
  {
    assert SameOwners(s, r);
    BooksFrame(s, r);
  }

  lemma ForgetDetachmentWire(s: State, r: State, id: SessionId, p: Promise)
    requires Wire(s) && p in s.settled && r == ForgetDetachment(s, id, p)
    ensures Wire(r)
  {
    ForgetWire(s, r);
  }

  lemma KeepContinueRelease(s: State, t: Token)
    requires Inv(s) && Enabled(s, ResumeRelease(t))
    ensures Inv(ContinueRelease(s, t))
  {
    var Lease(id, _, _, Detaching(p, relinquish)) := s.leases[t];
    var s1 := ForgetDetachment(s, id, p);
    ForgetDetachmentWire(s, s1, id, p);
    ForgetDetachmentBooks(s, s1, id, p);
    KeepSettledDetach(s1, t, ContinueRelease(s, t));
  }

  lemma KeepSettledDetach(s: State, t: Token, r: State)
    requires Inv(s) && t in s.leases && s.leases[t].phase.Detaching? && s.leases[t].phase.promise in s.settled
    requires r == if s.settled[s.leases[t].phase.promise].Failed?
                  then SetPhase(s, t, Failing(s.leases[t].phase.relinquish))
                  else SetPhase(Unreserved(s, s.leases[t].session, t), t, Released)
    ensures Inv(r)
  {
    assert DetachAlone(s, t);
    if s.settled[s.leases[t].phase.promise].Failed? {
      SamePhaseOwner(s, t, Failing(s.leases[t].phase.relinquish));
      KeepPhase(s, r, t, Failing(s.leases[t].phase.relinquish));
    } else if IsStale(s, t) {
      UncountedKeeps(s, s.leases[t].session, t);
      KeepPhase(s, r, t, Released);
    } else {
      UnreserveKeeps(s, s.leases[t].session, t);
      KeepGiveBack(s, r, t, s.cleanup);
    }
  }

  /** Giving back a token of a session nobody counts changes nothing. */
  lemma UncountedKeeps(s: State, id: SessionId, t: Token)
    requires id !in s.counts && id !in s.exclusive
    ensures Unreserved(s, id, t) == s
  {}

  lemma SamePhaseOwner(s: State, t: Token, phase: Phase)
    requires t in s.leases && (Holding(s.leases[t].phase) <==> Holding(phase))
    ensures OwnerOf(SetPhase(s, t, phase), t) == OwnerOf(s, t)
  {}

  lemma UnreserveKeeps(s: State, id: SessionId, t: Token)
    ensures Unreserved(s, id, t) == Unreserved(s, id, t).(cleanup := s.cleanup)
  {}

  lemma KeepCatch(s: State, t: Token)
    requires Inv(s) && t in s.leases && s.leases[t].phase.Failing?
    ensures Inv(CatchFailedRelease(s, t))
  {
    if IsStale(s, t) {
      KeepPhase(s, CatchFailedRelease(s, t), t, Invalidated);
    } else {
      KeepCurrentCatch(s, t, CatchFailedRelease(s, t));
    }
  }

  lemma KeepCurrentCatch(s: State, t: Token, r: State)
    requires Inv(s) && t in s.leases && s.leases[t].phase.Failing? && !IsStale(s, t)
    requires r == if s.leases[t].phase.relinquish
                  then SetPhase(Unreserved(s, s.leases[t].session, t)
                                  .(cleanup := s.cleanup + {s.leases[t].session}), t, Released)
                  else SetPhase(s, t, Active)
    ensures Inv(r)
  {
    if s.leases[t].phase.relinquish {
      KeepGiveBack(s, r, t, s.cleanup + {s.leases[t].session});
    } else {
      SamePhaseOwner(s, t, Active);
      KeepPhase(s, r, t, Active);
    }
  }

  // ---------- the rest ----------

  ghost predicate JustSent(s: State, r: State, c: Command) {
    && Issued(s, r, c)
    && r == s.(pending := r.pending, settled := r.settled, next := r.next, creations := r.creations)
    && (r.creations == s.creations || (c == Create && r.creations == s.creations + {s.next}))
  }

  lemma KeepSent(s: State, r: State, c: Command)
    requires Inv(s) && !c.Attach? && JustSent(s, r, c)
    ensures Inv(r)
  {
    SentWire(s, r, c);
    SentBooks(s, r, c);
  }

  lemma SentBooks(s: State, r: State, c: Command)
    requires Books(s) && JustSent(s, r, c)
    ensures Books(r)
  {
    assert SameOwners(s, r);
    BooksFrame(s, r);
  }

  lemma SentWire(s: State, r: State, c: Command)
    requires Wire(s) && !c.Attach? && JustSent(s, r, c)
    ensures Wire(r)
  {
    IssuedGrows(s, r, c);
    SentBasics(s, r, c);
    IssuedWire(s, r, c);
  }

  lemma SentBasics(s: State, r: State, c: Command)
    requires Basics(s) && PromisesGrow(s, r) && JustSent(s, r, c) && Known(r, s.next)
    requires forall p | p in r.pending && !Known(s, p) :: p == s.next && r.pending[p] == c
    requires forall p | p in r.pending :: p < r.next && p !in r.settled
    requires forall p | p in r.settled :: p < r.next
    ensures Basics(r)
  {
    assert forall p | p in s.creations :: Known(s, p);
  }

  lemma KeepReconcile(s: State, id: SessionId)
    requires Inv(s) && id in s.reconciliations && s.reconciliations[id] in s.settled
    ensures Inv(ContinueReconcile(s, id))
  {
    ReconcileWire(s, id, ContinueReconcile(s, id));
    ReconcileBooks(s, id, ContinueReconcile(s, id));
  }

  lemma ReconcileWire(s: State, id: SessionId, r: State)
    requires Wire(s) && id in s.reconciliations && s.reconciliations[id] in s.settled
    requires r == ContinueReconcile(s, id)
    ensures Wire(r)
  {
    ForgetWire(s, r);
  }

  lemma ReconcileBooks(s: State, id: SessionId, r: State)
    requires Books(s) && id in s.reconciliations && s.reconciliations[id] in s.settled
    requires r == ContinueReconcile(s, id)
    ensures Books(r)
  {
    assert SameOwners(s, r);
    BooksFrame(s, r);
  }

  lemma KeepAnswered(s: State, p: Promise, outcome: Outcome, flag: bool)
    requires Inv(s) && Enabled(s, Respond(p, outcome, flag))
    ensures Inv(Answered(s, p, outcome, flag))
  {
    SettledWire(s, Answered(s, p, outcome, flag), p, outcome);
    assert SameOwners(s, Answered(s, p, outcome, flag));
    BooksFrame(s, Answered(s, p, outcome, flag));
  }

  lemma KeepAttachedSet(s: State, r: State)
    requires Inv(s) && r == s.(attached := r.attached, connected := r.connected)
    requires r.connected && !r.disposed
    requires forall t | t in s.acquisitions && Overtaken(s, t) :: Leaving(s, t)
    ensures Inv(r)
  {
    AttachedWire(s, r);
    assert SameOwners(s, r);
    BooksFrame(s, r);
  }

  lemma KeepSnapshot(s: State, r: State)
    requires Inv(s) && s.connected && r == s.(attached := r.attached)
    ensures Inv(r)
  {
    assert forall t | t in s.acquisitions && Overtaken(s, t) :: LeftBehind(s, t);
    KeepAttachedSet(s, r);
  }

  lemma KeepRemoved(s: State, id: SessionId)
    requires Inv(s) && s.connected && Orderly(s, SessionRemoved(id))
    ensures Inv(Apply(s, SessionRemoved(id)))
  {
    var r := Apply(s, SessionRemoved(id));
    InvalidatedWire(s, r, id);
    RemovedOwners(s, r, id);
    BooksClear(s, r, id);
  }

  lemma RemovedOwners(s: State, r: State, id: SessionId)
    requires Names(s) && Generations(s) && s.connected && r == Apply(s, SessionRemoved(id))
    requires forall t | t in s.acquisitions && s.acquisitions[t].session == id :: Overtaken(s, t)
    ensures Cleared(s, r, id)
  {}

  lemma KeepCut(s: State, r: State, disposed: bool)
    requires Inv(s) && Severs(s, disposed) && r == Cut(s).(disposed := disposed)
    ensures Inv(r)
  {
    CutShape(s, r, disposed);
    CutStale(s, r);
    CutUnowned(s, r);
    CutWire(s, r);
    BooksEmpty(s, r);
  }

  lemma CutUnowned(s: State, r: State)
    requires Books(s) && r.exclusive == s.exclusive - s.counts.Keys
    ensures r.exclusive == map[]
  {
    forall id | id in s.exclusive ensures id in s.counts { ExclusiveCounted(s, id); }
  }

  lemma CutShape(s: State, r: State, disposed: bool)
    requires r == Cut(s).(disposed := disposed)
    ensures r.pending == map[] && r.settled == RejectPending(s).settled
    ensures !r.connected && r.attached == {} && r.counts == map[] && r.exclusive == s.exclusive - s.counts.Keys
    ensures r.cleanup == {} && r.disposed == disposed
    ensures r.acquisitions == s.acquisitions && r.leases == s.leases && r.next == s.next
    ensures r.creations == s.creations && r.epoch == s.epoch + 1
    ensures r.generations == InvalidateAll(s).generations
    ensures r.attachments == s.attachments && r.detachments == s.detachments && r.reconciliations == s.reconciliations
  {}

  /** Every event of an orderly run keeps the invariant. */
  lemma KeepInv(s: State, e: Event)
    requires Inv(s) && Enabled(s, e) && Orderly(s, e)
    ensures Inv(Apply(s, e))
  {
    match e
    case BeginAcquire(id, mode) => KeepAcquire(s, id, mode);
    case ResumeAcquire(t) => KeepContinueAcquire(s, t);
    case BeginCreate => KeepSent(s, Apply(s, e), Create);
    case ResumeCreate(p) => KeepContinueCreate(s, p);
    case BeginRelease(t, relinquish) => KeepRelease(s, t, relinquish);
    case ResumeRelease(t) => KeepContinueRelease(s, t);
    case CatchRelease(t) => KeepCatch(s, t);
    case ResumeReconcile(id) => KeepReconcile(s, id);
    case SendOther => KeepSent(s, Apply(s, e), Other);
    case _ => KeepMessage(s, e);
  }

  lemma KeepMessage(s: State, e: Event)
    requires Inv(s) && Enabled(s, e) && Orderly(s, e)
    requires e.Respond? || e.Snapshot? || e.SessionRemoved? || e.Connect? || e.Disconnect? || e.Dispose?
    ensures Inv(Apply(s, e))
  {
    match e
    case Respond(p, outcome, flag) => KeepAnswered(s, p, outcome, flag);
    case Snapshot(id, flag) => KeepSnapshot(s, Apply(s, e));
    case SessionRemoved(id) => KeepRemoved(s, id);
    case Connect => KeepAttachedSet(s, Apply(s, e));
    case Disconnect => KeepCut(s, Apply(s, e), false);
    case Dispose => KeepCut(s, Apply(s, e), true);
  }
}
