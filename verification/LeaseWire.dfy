/** How the segments of the lease protocol keep the part of the invariant that speaks of requests,
    promises and suspended calls. */
module LeaseWire {
  import opened Leases
  import opened LeaseInvariant

  /** From `s` to `r` promises only get settled, and only once; new ones may appear. */
  ghost predicate PromisesGrow(s: State, r: State) {
    && (forall p | Known(s, p) :: Known(r, p))
    && (forall p | p in r.pending && Known(s, p) :: p in s.pending && r.pending[p] == s.pending[p])
    && (forall p | p in s.settled :: p in r.settled && r.settled[p] == s.settled[p])
  }

  /** No lease of the session waits for an answer to its detach. */
  ghost predicate NoDetach(s: State, id: SessionId) {
    forall t | t in s.leases && s.leases[t].session == id && s.leases[t].phase.Detaching? ::
      s.leases[t].phase.promise !in s.pending
  }

  /** A session that was sealed for a stale lease stays sealed. */
  ghost predicate SealsKept(s: State, r: State) {
    forall id :: Sealed(s, id) ==> Sealed(r, id)
  }

  // ---------- what has to be shown of a step ----------

  ghost predicate KeptLease(s: State, r: State, t: Token) {
    t in s.leases && t in r.leases && r.leases[t] == s.leases[t]
  }

  ghost predicate KeptAcquisition(s: State, r: State, t: Token) {
    t in s.acquisitions && t in r.acquisitions && r.acquisitions[t] == s.acquisitions[t]
  }

  lemma DetachesStep(s: State, r: State)
    requires Detaches(s) && Names(r) && PromisesGrow(s, r)
    requires forall t | t in r.leases && r.leases[t].phase.Detaching? && !KeptLease(s, r, t) :: DetachAlone(r, t)
    requires forall t | KeptLease(s, r, t) && r.leases[t].phase.Detaching? && IsStale(r, t) ::
               Harmless(r, r.leases[t].session, r.leases[t].phase.promise)
    requires forall id | id in s.detachments && s.detachments[id] in r.pending ::
               (id in r.detachments && r.detachments[id] == s.detachments[id]) || NoDetach(s, id)
    requires forall id | id in r.detachments :: Known(r, r.detachments[id])
    requires forall u | u in r.acquisitions && !KeptAcquisition(s, r, u) ::
               NoDetach(r, r.acquisitions[u].session)
               || (r.acquisitions[u].session in r.detachments
                   && r.acquisitions[u].wait == OnDetachment(r.detachments[r.acquisitions[u].session]))
    requires forall u | u in r.leases && OwnerOf(r, u).Session? ::
               (u in s.leases && OwnerOf(r, u) == OwnerOf(s, u)) || NoDetach(r, OwnerOf(r, u).id)
    ensures Detaches(r)
  {
    forall t | t in r.leases && r.leases[t].phase.Detaching? ensures DetachAlone(r, t) {
      if KeptLease(s, r, t) { assert DetachAlone(s, t); }
    }
  }

  /** A stale lease that was stale before is as harmless as it was. */
  lemma HarmlessKept(s: State, r: State, t: Token)
    requires Detaches(s) && PromisesGrow(s, r) && SealsKept(s, r)
    requires t in s.leases && s.leases[t].phase.Detaching? && IsStale(s, t)
    ensures Harmless(r, s.leases[t].session, s.leases[t].phase.promise)
  {
    assert DetachAlone(s, t);
  }

  lemma AttachesStep(s: State, r: State)
    requires Attaches(s) && PromisesGrow(s, r)
    requires forall t | t in r.acquisitions && !KeptAcquisition(s, r, t) :: WaitKnown(r, t)
    requires forall p | p in r.pending && !Known(s, p) :: RequestKnown(r, p)
    requires forall id | id in s.attachments && s.attachments[id] in r.pending ::
               id in r.attachments && r.attachments[id] == s.attachments[id]
    requires forall id | id in r.attachments && !(id in s.attachments && r.attachments[id] == s.attachments[id]) ::
               AttachmentKnown(r, id)
    requires forall t, id | id in r.attachments && Waits(s, t, id, OnAttachment(r.attachments[id])) ::
               KeptAcquisition(s, r, t)
    requires forall id | id in r.reconciliations
                         && !(id in s.reconciliations && r.reconciliations[id] == s.reconciliations[id]) ::
               ReconciliationKnown(r, id)
    ensures Attaches(r)
  {
    forall t | t in r.acquisitions ensures WaitKnown(r, t) {
      if KeptAcquisition(s, r, t) { assert WaitKnown(s, t); }
    }
    forall p | p in r.pending ensures RequestKnown(r, p) {
      if Known(s, p) { assert RequestKnown(s, p); }
    }
    forall id | id in r.attachments ensures AttachmentKnown(r, id) {
      if id in s.attachments && r.attachments[id] == s.attachments[id] {
        assert AttachmentKnown(s, id);
        var t :| Waits(s, t, id, OnAttachment(s.attachments[id]));
        assert KeptAcquisition(s, r, t);
        assert Waits(r, t, id, OnAttachment(s.attachments[id]));
      }
    }
    forall id | id in r.reconciliations ensures ReconciliationKnown(r, id) {
      if id in s.reconciliations && r.reconciliations[id] == s.reconciliations[id] {
        assert ReconciliationKnown(s, id);
      }
    }
  }

  lemma SameAttaches(s: State, r: State)
    requires Attaches(s) && PromisesGrow(s, r)
    requires r.acquisitions == s.acquisitions && r.attachments == s.attachments
    requires r.reconciliations == s.reconciliations
    requires forall p | p in r.pending && !Known(s, p) :: !r.pending[p].Attach?
    ensures Attaches(r)
  {
    AttachesStep(s, r);
  }

  // ---------- requests ----------

  /** `r` has issued command `c` as promise `s.next`, whatever else it changed. */
  ghost predicate Issued(s: State, r: State, c: Command) {
    && r.next == s.next + 1
    && r.connected == s.connected && r.disposed == s.disposed && r.epoch == s.epoch
    && r.pending == Sent(s, c).pending && r.settled == Sent(s, c).settled
  }

  lemma IssuedGrows(s: State, r: State, c: Command)
    requires Names(s) && Issued(s, r, c)
    ensures PromisesGrow(s, r) && Known(r, s.next) && !Known(s, s.next)
    ensures forall p | p in r.pending && !Known(s, p) :: p == s.next && r.pending[p] == c
    ensures forall p | p in r.settled && !Known(s, p) :: r.settled[p] == Failed
    ensures forall p | p in r.pending :: p < r.next && p !in r.settled
    ensures forall p | p in r.settled :: p < r.next
    ensures r.creations == s.creations || r.creations == s.creations + {s.next} ==>
              forall id :: Uncreated(s, id) ==> Uncreated(r, id)
  {}

  lemma IssuedWire(s: State, r: State, c: Command)
    requires Wire(s) && Issued(s, r, c) && !c.Attach? && Basics(r)
    requires r.leases == s.leases && r.acquisitions == s.acquisitions && r.generations == s.generations
    requires r.attachments == s.attachments && r.reconciliations == s.reconciliations
    requires r.detachments == s.detachments && SealsKept(s, r)
    ensures Wire(r)
  {
    IssuedGrows(s, r, c);
    SameDetaches(s, r);
    SameAttaches(s, r);
  }

  /** Leases and acquisitions stay as they are, but perhaps for acquisition `t`. */
  ghost predicate AcquisitionStep(s: State, r: State, t: Token) {
    && r.leases == s.leases && r.generations == s.generations
    && r.detachments == s.detachments && r.epoch == s.epoch
    && (forall u | u in r.acquisitions && u != t :: KeptAcquisition(s, r, u))
    && (forall u | u in s.acquisitions && u != t :: KeptAcquisition(s, r, u))
    && t !in s.leases
  }

  lemma AcquisitionDetaches(s: State, r: State, t: Token)
    requires Detaches(s) && Names(r) && PromisesGrow(s, r) && AcquisitionStep(s, r, t) && SealsKept(s, r)
    requires t in r.acquisitions ==>
               NoDetach(r, r.acquisitions[t].session)
               || (r.acquisitions[t].session in r.detachments
                   && r.acquisitions[t].wait == OnDetachment(r.detachments[r.acquisitions[t].session]))
    ensures Detaches(r)
  {
    forall u | u in r.leases ensures OwnerOf(r, u) == OwnerOf(s, u) {}
    forall u | KeptLease(s, r, u) && r.leases[u].phase.Detaching? && IsStale(r, u)
      ensures Harmless(r, r.leases[u].session, r.leases[u].phase.promise)
    {
      HarmlessKept(s, r, u);
    }
    DetachesStep(s, r);
  }

  lemma SameDetaches(s: State, r: State)
    requires Detaches(s) && Names(r) && PromisesGrow(s, r) && SealsKept(s, r)
    requires r.leases == s.leases && r.acquisitions == s.acquisitions && r.generations == s.generations
    requires r.epoch == s.epoch
    requires forall id | id in s.detachments && s.detachments[id] in r.pending ::
               id in r.detachments && r.detachments[id] == s.detachments[id]
    requires forall id | id in r.detachments :: Known(r, r.detachments[id])
    ensures Detaches(r)
  {
    forall u ensures OwnerOf(r, u) == OwnerOf(s, u) {}
    forall u | KeptLease(s, r, u) && r.leases[u].phase.Detaching? && IsStale(r, u)
      ensures Harmless(r, r.leases[u].session, r.leases[u].phase.promise)
    {
      HarmlessKept(s, r, u);
    }
    DetachesStep(s, r);
  }

  // ---------- acquisitions ----------

  /** No stale lease of the session relies on its being sealed. */
  ghost predicate Unsealed(s: State, id: SessionId) {
    forall t | t in s.leases && s.leases[t].phase.Detaching? && s.leases[t].session == id && IsStale(s, t) ::
      Rejected(s, s.leases[t].phase.promise)
  }

  lemma ReservedWire(s: State, id: SessionId, mode: Mode)
    requires Wire(s) && Drained(s, id) && Unsealed(s, id)
    ensures Wire(Reserved(s, id, mode))
  {
    var r := Reserved(s, id, mode);
    assert Basics(r);
    ReservedDetaches(s, r, id, mode);
    SameAttaches(s, r);
  }

  lemma ReservedDetaches(s: State, r: State, id: SessionId, mode: Mode)
    requires Detaches(s) && Names(r) && Unsealed(s, id) && r == Reserved(s, id, mode)
    ensures Detaches(r)
  {
    forall u ensures OwnerOf(r, u) == OwnerOf(s, u) {}
    forall u | KeptLease(s, r, u) && r.leases[u].phase.Detaching? && IsStale(r, u)
      ensures Harmless(r, r.leases[u].session, r.leases[u].phase.promise)
    {
      assert DetachAlone(s, u);
    }
    DetachesStep(s, r);
  }

  /** What may be assumed of the token an acquisition is carried on under. */
  ghost predicate Carriable(s: State, t: Token, id: SessionId, epoch: nat) {
    && t < s.next && t !in s.leases && epoch <= s.epoch
    && (t in s.acquisitions ==> s.acquisitions[t].session == id && !s.acquisitions[t].wait.OnAttachment?)
    && (epoch != s.epoch ==> !s.connected && id !in s.counts)
  }

  /** What a step that puts `t` to wait leaves alone. */
  ghost predicate Suspended(s: State, r: State, t: Token, a: Acquisition) {
    && r.acquisitions == s.acquisitions[t := a]
    && r.leases == s.leases && r.generations == s.generations && r.counts == s.counts
    && r.exclusive == s.exclusive && r.cleanup == s.cleanup
    && r.detachments == s.detachments && r.attached == s.attached && r.creations == s.creations
    && r.connected == s.connected && r.disposed == s.disposed && r.epoch == s.epoch
  }

  lemma SuspendedBasics(s: State, r: State, t: Token, a: Acquisition)
    requires Basics(s) && Carriable(s, t, a.session, a.epoch) && Suspended(s, r, t, a)
    requires PromisesGrow(s, r) && r.next >= s.next && (!s.connected ==> r.pending == s.pending)
    requires forall p | p in r.pending :: p < r.next && p !in r.settled
    requires forall p | p in r.settled :: p < r.next
    requires a.wait.OnAttachment? && a.epoch != s.epoch ==>
               a.wait.promise in r.settled && r.settled[a.wait.promise] == Failed
    ensures Basics(r)
  {
    assert forall p | p in s.creations :: Known(s, p);
  }

  /** The acquisition waits for a promise that is already there. */
  lemma JoinWire(s: State, r: State, t: Token, a: Acquisition)
    requires Wire(s) && Carriable(s, t, a.session, a.epoch)
    requires r == s.(acquisitions := s.acquisitions[t := a]) && WaitKnown(r, t)
    requires a.wait.OnAttachment? && a.epoch != s.epoch ==>
               a.wait.promise in s.settled && s.settled[a.wait.promise] == Failed
    requires NoDetach(s, a.session) || (a.session in s.detachments && a.wait == OnDetachment(s.detachments[a.session]))
    ensures Wire(r)
  {
    assert PromisesGrow(s, r);
    SuspendedBasics(s, r, t, a);
    AcquisitionDetaches(s, r, t);
    SuspendedAttaches(s, r, t, a);
  }

  /** The acquisition sends an attach in this segment and waits for it. */
  lemma AttachWire(s: State, r: State, t: Token, a: Acquisition)
    requires Wire(s) && Carriable(s, t, a.session, a.epoch) && NoDetach(s, a.session)
    requires a.wait == OnAttachment(s.next) && a.session !in s.attachments
    requires Issued(s, r, Attach(a.session)) && Suspended(s, r, t, a)
    requires r.attachments == s.attachments[a.session := s.next] && r.reconciliations == s.reconciliations
    ensures Wire(r)
  {
    IssuedGrows(s, r, Attach(a.session));
    SuspendedWire(s, r, t, a);
    AttachAttaches(s, r, t, a);
  }

  /** An acquisition that waits for a promise of its own leaves everything else in order. */
  lemma SuspendedWire(s: State, r: State, t: Token, a: Acquisition)
    requires Basics(s) && Detaches(s) && Carriable(s, t, a.session, a.epoch) && NoDetach(s, a.session)
    requires Suspended(s, r, t, a) && PromisesGrow(s, r) && r.next == s.next + 1
    requires !s.connected ==> r.pending == s.pending
    requires forall p | p in r.pending :: p < r.next && p !in r.settled
    requires forall p | p in r.settled :: p < r.next
    requires a.wait.OnAttachment? && a.epoch != s.epoch ==> Rejected(r, a.wait.promise)
    ensures Basics(r) && Detaches(r)
  {
    SuspendedBasics(s, r, t, a);
    AcquisitionDetaches(s, r, t);
  }

  lemma AttachAttaches(s: State, r: State, t: Token, a: Acquisition)
    requires Attaches(s) && PromisesGrow(s, r)
    requires t in s.acquisitions ==> !s.acquisitions[t].wait.OnAttachment?
    requires a.wait == OnAttachment(s.next) && a.session !in s.attachments && Known(r, s.next)
    requires s.next in r.pending ==> r.pending[s.next] == Attach(a.session)
    requires forall p | p in r.pending && !Known(s, p) :: p == s.next
    requires r.acquisitions == s.acquisitions[t := a]
    requires r.attachments == s.attachments[a.session := s.next] && r.reconciliations == s.reconciliations
    ensures Attaches(r)
  {
    assert Waits(r, t, a.session, OnAttachment(s.next));
    SuspendedAttaches(s, r, t, a);
  }

  /** The acquisition sends the cleanup detach in this segment and waits for it. */
  lemma CleanupWire(s: State, r: State, t: Token, a: Acquisition)
    requires Wire(s) && Carriable(s, t, a.session, a.epoch) && NoDetach(s, a.session)
    requires a.wait == OnReconciliation(s.next) && a.session !in s.reconciliations
    requires Issued(s, r, Detach(a.session)) && Suspended(s, r, t, a)
    requires r.attachments == s.attachments && r.reconciliations == s.reconciliations[a.session := s.next]
    ensures Wire(r)
  {
    IssuedGrows(s, r, Detach(a.session));
    SuspendedWire(s, r, t, a);
    SuspendedAttaches(s, r, t, a);
  }

  lemma SuspendedAttaches(s: State, r: State, t: Token, a: Acquisition)
    requires Attaches(s) && PromisesGrow(s, r)
    requires t in s.acquisitions ==> !s.acquisitions[t].wait.OnAttachment?
    requires r.acquisitions == s.acquisitions[t := a] && WaitKnown(r, t)
    requires forall p | p in r.pending && !Known(s, p) :: RequestKnown(r, p)
    requires forall id | id in s.attachments :: id in r.attachments && r.attachments[id] == s.attachments[id]
    requires forall id | id in r.attachments && id !in s.attachments :: AttachmentKnown(r, id)
    requires forall id | id in r.reconciliations
                         && !(id in s.reconciliations && r.reconciliations[id] == s.reconciliations[id]) ::
               ReconciliationKnown(r, id)
    ensures Attaches(r)
  {
    AttachesStep(s, r);
  }

  lemma DropWire(s: State, r: State, t: Token)
    requires Wire(s) && t in s.acquisitions && r == s.(acquisitions := s.acquisitions - {t})
    requires s.acquisitions[t].session in s.attachments ==>
               s.acquisitions[t].wait != OnAttachment(s.attachments[s.acquisitions[t].session])
    ensures Wire(r)
  {
    assert Basics(r);
    AcquisitionDetaches(s, r, t);
    DropAttaches(s, r, t);
  }

  lemma DropAttaches(s: State, r: State, t: Token)
    requires Attaches(s) && t in s.acquisitions && r == s.(acquisitions := s.acquisitions - {t})
    requires s.acquisitions[t].session in s.attachments ==>
               s.acquisitions[t].wait != OnAttachment(s.attachments[s.acquisitions[t].session])
    ensures Attaches(r)
  {
    AttachesStep(s, r);
  }

  /** The counts may go down without disturbing anything else. */
  lemma CountsWire(s: State, r: State)
    requires Wire(s) && r == s.(counts := r.counts, exclusive := r.exclusive, cleanup := r.cleanup)
    requires forall id | id in r.counts :: id in s.counts
    requires forall id | id in r.exclusive :: id in s.exclusive
    requires !s.connected ==> r.cleanup == s.cleanup
    ensures Wire(r)
  {
    assert Basics(r);
    SameDetaches(s, r);
    SameAttaches(s, r);
  }

  /** Settled promises leave the tables of shared ones. */
  lemma ForgetWire(s: State, r: State)
    requires Wire(s)
    requires r == s.(attachments := r.attachments, detachments := r.detachments,
                     reconciliations := r.reconciliations, cleanup := r.cleanup)
    requires forall id | id in r.attachments :: id in s.attachments && r.attachments[id] == s.attachments[id]
    requires forall id | id in s.attachments && s.attachments[id] !in s.settled :: id in r.attachments
    requires forall id | id in r.detachments :: id in s.detachments && r.detachments[id] == s.detachments[id]
    requires forall id | id in s.detachments && s.detachments[id] !in s.settled :: id in r.detachments
    requires forall id | id in r.reconciliations ::
               id in s.reconciliations && r.reconciliations[id] == s.reconciliations[id]
    requires r.cleanup <= s.cleanup
    ensures Wire(r)
  {
    assert Basics(r);
    SameDetaches(s, r);
    AttachesStep(s, r);
  }

  // ---------- leases ----------

  /** A new lease, or a lease whose token goes on or stops counting. */
  lemma LeaseChangeWire(s: State, r: State, t: Token)
    requires Wire(s) && t < s.next && t !in s.acquisitions
    requires t in r.leases && r == s.(leases := s.leases[t := r.leases[t]], generations := r.generations)
    requires r.leases[t].session in r.generations && r.leases[t].generation <= r.generations[r.leases[t].session]
    requires forall id | id in s.generations :: id in r.generations && r.generations[id] == s.generations[id]
    requires OwnerOf(r, t) == Nobody || (t in s.leases && OwnerOf(r, t) == OwnerOf(s, t))
             || NoDetach(r, r.leases[t].session)
    requires r.leases[t].phase.Detaching? ==> DetachAlone(r, t)
    requires Releasing(r.leases[t].phase) && !IsStale(r, t) ==> s.connected
    ensures Wire(r)
  {
    assert Basics(r);
    LeaseDetaches(s, r, t);
    SameAttaches(s, r);
  }

  lemma LeaseDetaches(s: State, r: State, t: Token)
    requires Detaches(s) && Names(r) && PromisesGrow(s, r) && r.detachments == s.detachments && SealsKept(s, r)
    requires r.acquisitions == s.acquisitions && r.epoch == s.epoch && t !in s.acquisitions
    requires t in r.leases && r.leases == s.leases[t := r.leases[t]]
    requires forall u | u in s.leases && u != t :: IsStale(r, u) <==> IsStale(s, u)
    requires OwnerOf(r, t) == Nobody || (t in s.leases && OwnerOf(r, t) == OwnerOf(s, t))
             || NoDetach(r, r.leases[t].session)
    requires r.leases[t].phase.Detaching? ==> DetachAlone(r, t)
    ensures Detaches(r)
  {
    assert forall u | u in s.leases && u != t :: OwnerOf(r, u) == OwnerOf(s, u);
    forall u | KeptLease(s, r, u) && r.leases[u].phase.Detaching? && IsStale(r, u)
      ensures Harmless(r, r.leases[u].session, r.leases[u].phase.promise)
    {
      if u != t { HarmlessKept(s, r, u); }
    }
    DetachesStep(s, r);
  }

  /** Nobody but `t` holds a token of the session. */
  ghost predicate Alone(s: State, t: Token, id: SessionId) {
    forall u | u != t :: OwnerOf(s, u) != Session(id)
  }

  lemma AloneNoDetach(s: State, t: Token, id: SessionId)
    requires Detaches(s) && Names(s) && Alone(s, t, id)
    requires t in s.leases && !s.leases[t].phase.Detaching?
    ensures NoDetach(s, id)
  {
    forall u | u in s.leases && s.leases[u].session == id && s.leases[u].phase.Detaching?
      ensures s.leases[u].phase.promise !in s.pending
    {
      assert DetachAlone(s, u);
      assert OwnerOf(s, u) != Session(id);
      assert u !in s.acquisitions;
      assert IsStale(s, u);
    }
  }

  /** The last token holder of a session sends the detach. */
  lemma DetachWire(s: State, r: State, t: Token, p: Promise, relinquish: bool)
    requires Wire(s) && t in s.leases && p == s.next && s.connected && !s.disposed
    requires Issued(s, r, Detach(s.leases[t].session))
    requires Alone(s, t, s.leases[t].session) && s.leases[t].phase.Active? && !IsStale(s, t)
    requires r.leases == s.leases[t := s.leases[t].(phase := Detaching(p, relinquish))]
    requires r.detachments == s.detachments[s.leases[t].session := p]
    requires r.acquisitions == s.acquisitions && r.generations == s.generations && r.counts == s.counts
    requires r.attachments == s.attachments && r.reconciliations == s.reconciliations
    requires r.attached == s.attached && r.creations == s.creations && r.cleanup == s.cleanup
    requires s.leases[t].session in s.counts
    ensures Wire(r)
  {
    IssuedGrows(s, r, Detach(s.leases[t].session));
    DetachBasics(s, r, t, p, relinquish);
    AloneNoDetach(s, t, s.leases[t].session);
    CountedDrained(s, s.leases[t].session);
    DetachDetaches(s, r, t, p, relinquish);
    SameAttaches(s, r);
  }

  lemma CountedDrained(s: State, id: SessionId)
    requires Cuts(s) && id in s.counts
    ensures Drained(s, id)
  {
    assert forall u | u in s.acquisitions && Overtaken(s, u) :: LeftBehind(s, u);
  }

  lemma DetachBasics(s: State, r: State, t: Token, p: Promise, relinquish: bool)
    requires Basics(s) && t in s.leases && s.connected && !s.disposed && PromisesGrow(s, r)
    requires Issued(s, r, Detach(s.leases[t].session))
    requires forall q | q in r.pending :: q < r.next && q !in r.settled
    requires forall q | q in r.settled :: q < r.next
    requires r.leases == s.leases[t := s.leases[t].(phase := Detaching(p, relinquish))]
    requires r.acquisitions == s.acquisitions && r.generations == s.generations && r.counts == s.counts
    requires r.attached == s.attached && r.creations == s.creations && r.cleanup == s.cleanup
    ensures Basics(r)
  {
    assert forall q | q in s.creations :: Known(s, q);
  }

  lemma DetachDetaches(s: State, r: State, t: Token, p: Promise, relinquish: bool)
    requires Detaches(s) && Names(r) && PromisesGrow(s, r) && t in s.leases && t !in s.acquisitions
    requires Drained(s, s.leases[t].session) && !s.disposed
    requires !Known(s, p) && p in r.pending && r.pending[p] == Detach(s.leases[t].session)
    requires s.leases[t].phase.Active? && !IsStale(s, t)
    requires Alone(s, t, s.leases[t].session) && NoDetach(s, s.leases[t].session)
    requires r.leases == s.leases[t := s.leases[t].(phase := Detaching(p, relinquish))]
    requires r.detachments == s.detachments[s.leases[t].session := p]
    requires r.acquisitions == s.acquisitions && r.generations == s.generations && r.epoch == s.epoch
    ensures Detaches(r)
  {
    assert forall u :: OwnerOf(r, u) == OwnerOf(s, u);
    assert DetachAlone(r, t) by {
      forall u | u in r.acquisitions ensures r.acquisitions[u].session != s.leases[t].session {
        assert OwnerOf(s, u) != Session(s.leases[t].session);
      }
    }
    forall u | KeptLease(s, r, u) && r.leases[u].phase.Detaching? && IsStale(r, u)
      ensures Harmless(r, r.leases[u].session, r.leases[u].phase.promise)
    {
      HarmlessKept(s, r, u);
    }
    DetachesStep(s, r);
  }

  // ---------- messages and the link ----------

  lemma SettledWire(s: State, r: State, p: Promise, outcome: Outcome)
    requires Wire(s) && s.connected && p in s.pending
    requires r == s.(pending := s.pending - {p}, settled := s.settled[p := outcome], attached := r.attached)
    ensures Wire(r)
  {
    assert PromisesGrow(s, r);
    assert Basics(r);
    SameDetaches(s, r);
    SameAttaches(s, r);
  }

  /** The attached set is free while the link is up. */
  lemma AttachedWire(s: State, r: State)
    requires Wire(s) && r == s.(attached := r.attached, connected := r.connected)
    requires r.connected && !r.disposed
    requires forall t | t in s.acquisitions && Overtaken(s, t) :: Leaving(s, t)
    ensures Wire(r)
  {
    assert Basics(r);
    SameDetaches(s, r);
    SameAttaches(s, r);
  }

  lemma InvalidatedWire(s: State, r: State, id: SessionId)
    requires Wire(s) && s.connected && Orderly(s, SessionRemoved(id))
    requires r == Invalidate(s, id).(attached := s.attached - {id})
    ensures Wire(r)
  {
    assert Basics(r);
    InvalidatedDetaches(s, r, id);
    SameAttaches(s, r);
  }

  lemma InvalidatedDetaches(s: State, r: State, id: SessionId)
    requires Detaches(s) && Names(r) && PromisesGrow(s, r)
    requires forall t | t in s.leases && s.leases[t].phase.Detaching? && s.leases[t].session == id ::
               Rejected(s, s.leases[t].phase.promise)
    requires !s.disposed && r.leases == s.leases && r.acquisitions == s.acquisitions && r.epoch == s.epoch
    requires r.detachments == s.detachments && r.generations == s.generations[id := Generation(s, id) + 1]
    requires Generations(s)
    ensures Detaches(r)
  {
    assert forall t | t in s.leases && s.leases[t].session != id :: IsStale(r, t) <==> IsStale(s, t);
    assert forall u | OwnerOf(r, u).Session? :: OwnerOf(r, u) == OwnerOf(s, u);
    forall u | KeptLease(s, r, u) && r.leases[u].phase.Detaching? && IsStale(r, u)
      ensures Harmless(r, r.leases[u].session, r.leases[u].phase.promise)
    {
      if r.leases[u].session != id { HarmlessKept(s, r, u); }
    }
    DetachesStep(s, r);
  }

  /** The side condition of a disconnect or a dispose. */
  ghost predicate Severs(s: State, disposed: bool) {
    && !s.disposed && AttachesHandled(s)
    && (forall t | DetachUnhandled(s, t) :: disposed && Uncreated(s, s.leases[t].session))
  }

  /** A disconnect rejects what is pending and starts a new epoch. */
  lemma CutWire(s: State, r: State)
    requires Wire(s) && Severs(s, r.disposed) && (forall t :: OwnerOf(r, t) == Nobody)
    requires r.pending == map[] && r.settled == RejectPending(s).settled
    requires !r.connected && r.attached == {} && r.counts == map[] && r.exclusive == map[] && r.cleanup == {}
    requires r.acquisitions == s.acquisitions && r.leases == s.leases && r.next == s.next
    requires r.creations == s.creations && r.epoch == s.epoch + 1
    requires r.generations == InvalidateAll(s).generations
    requires r.attachments == s.attachments && r.detachments == s.detachments && r.reconciliations == s.reconciliations
    ensures Wire(r)
  {
    CutGrows(s, r);
    CutBasics(s, r);
    CutSeals(s, r);
    CutDetaches(s, r);
    SameAttaches(s, r);
  }

  lemma CutGrows(s: State, r: State)
    requires Names(s) && r.pending == map[] && r.settled == RejectPending(s).settled
    ensures PromisesGrow(s, r)
    ensures forall p | p in s.pending :: p in r.settled && r.settled[p] == Failed
    ensures forall p | p in r.settled :: p < s.next
  {}

  lemma CutBasics(s: State, r: State)
    requires Basics(s) && AttachesHandled(s) && PromisesGrow(s, r) && Attaches(s)
    requires forall p | p in s.pending :: Rejected(r, p)
    requires forall p | p in r.settled :: p < s.next
    requires r.pending == map[] && !r.connected && r.attached == {} && r.counts == map[] && r.cleanup == {}
    requires r.acquisitions == s.acquisitions && r.leases == s.leases && r.next == s.next
    requires r.creations == s.creations && r.epoch == s.epoch + 1
    requires r.generations == InvalidateAll(s).generations
    requires forall t :: OwnerOf(r, t) == Nobody
    ensures Basics(r)
  {
    CutNames(s, r);
    CutGenerations(s, r);
    CutLeaves(s, r);
    CutCuts(r);
  }

  lemma CutNames(s: State, r: State)
    requires Names(s) && r.pending == map[] && (forall p | p in r.settled :: p < s.next)
    requires forall p | p in s.pending || p in s.settled :: p in r.settled
    requires r.acquisitions == s.acquisitions && r.leases == s.leases && r.next == s.next
    requires r.creations == s.creations && r.epoch == s.epoch + 1
    ensures Names(r)
  {}

  lemma CutGenerations(s: State, r: State)
    requires Generations(s) && r.leases == s.leases && r.generations == InvalidateAll(s).generations
    ensures Generations(r)
  {}

  lemma CutCuts(r: State)
    requires r.pending == map[] && !r.connected && r.attached == {} && r.counts == map[] && r.cleanup == {}
    requires forall t :: OwnerOf(r, t) == Nobody
    requires forall t | t in r.acquisitions && r.acquisitions[t].wait.OnAttachment? :: Leaving(r, t)
    requires forall t | t in r.leases :: t !in r.acquisitions
    ensures Cuts(r)
  {
    assert forall t | t in r.leases && Releasing(r.leases[t].phase) :: OwnerOf(r, t) == Nobody;
  }

  /** An acquisition that waits for an attach when the link breaks can only give up. */
  lemma CutLeaves(s: State, r: State)
    requires AttachesHandled(s) && PromisesGrow(s, r) && Attaches(s) && r.acquisitions == s.acquisitions
    requires forall p | p in s.pending :: Rejected(r, p)
    ensures forall t | t in r.acquisitions && r.acquisitions[t].wait.OnAttachment? :: Leaving(r, t)
  {
    forall t | t in r.acquisitions && r.acquisitions[t].wait.OnAttachment? ensures Leaving(r, t) {
      assert WaitKnown(s, t);
    }
  }

  /** Nothing counts any more after a disconnect. */
  lemma CutStale(s: State, r: State)
    requires Accounting(s) && Names(s) && Generations(s)
    requires r.acquisitions == s.acquisitions && r.leases == s.leases && r.epoch == s.epoch + 1
    requires r.generations == InvalidateAll(s).generations
    ensures forall t :: OwnerOf(r, t) == Nobody
  {
    forall t ensures OwnerOf(r, t) == Nobody {
      if t in s.leases && OwnerOf(s, t).Session? {
        var id := s.leases[t].session;
        assert t in Tokens(s, id);
        assert Count(s, id) == |Tokens(s, id)|;
        assert id in s.counts;
      }
    }
  }

  /** Once the client is disposed, nothing counts for a session without a creation. */
  lemma CutSeals(s: State, r: State)
    requires Names(s) && r.counts == map[] && r.exclusive == map[] && r.creations == s.creations
    requires forall p | p in s.pending :: Rejected(r, p)
    requires forall p | p in s.settled :: p in r.settled && r.settled[p] == s.settled[p]
    ensures r.disposed ==> forall id | Uncreated(s, id) :: Sealed(r, id)
  {
    assert forall p | p in s.creations :: Known(s, p);
  }

  lemma CutDetaches(s: State, r: State)
    requires Detaches(s) && Names(r) && PromisesGrow(s, r) && Severs(s, r.disposed)
    requires r.disposed ==> forall id | Uncreated(s, id) :: Sealed(r, id)
    requires forall p | p in s.pending :: p in r.settled && r.settled[p] == Failed
    requires forall t :: OwnerOf(r, t) == Nobody
    requires r.leases == s.leases && r.acquisitions == s.acquisitions && r.detachments == s.detachments
    requires r.pending == map[]
    ensures Detaches(r)
  {
    forall u | KeptLease(s, r, u) && r.leases[u].phase.Detaching? && IsStale(r, u)
      ensures Harmless(r, r.leases[u].session, r.leases[u].phase.promise)
    {
      assert DetachAlone(s, u);
      assert DetachUnhandled(s, u) || !Fulfilled(s, s.leases[u].phase.promise);
    }
    DetachesStep(s, r);
  }
}
