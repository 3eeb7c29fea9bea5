/** When a session whose dispose failed is detached before it is attached or leased again. */
module LeaseCleanup {
  import opened Leases
  import opened LeaseInvariant
  import opened LeaseWire
  import opened LeaseBooks
  import opened LeaseSteps
  import opened LeaseSafety
  import opened LeaseDiscipline

  /** An acquisition that has not got past the cleanup detach of its session, or only gives up. */
  ghost predicate BeforeCleanup(s: State, t: Token)
    requires t in s.acquisitions
  {
    match s.acquisitions[t].wait
    case OnDetachment(_) => true
    case OnReconciliation(p) =>
      || Rejected(s, p)
      || (s.acquisitions[t].session in s.reconciliations && s.reconciliations[s.acquisitions[t].session] == p)
    case OnAttachment(p) => Rejected(s, p)
  }

  /** The session still needs its cleanup detach, and no attach of it is under way. */
  ghost predicate Unclean(s: State, id: SessionId) {
    && id in s.cleanup
    && (forall p | p in s.pending :: s.pending[p] != Attach(id))
    && (forall t | t in s.acquisitions && s.acquisitions[t].session == id :: BeforeCleanup(s, t))
  }

  /** The session's cleanup detach is acknowledged, or its leases are invalidated. */
  ghost predicate Cleans(s: State, e: Event, id: SessionId) {
    || (e == ResumeReconcile(id) && id in s.reconciliations && s.reconciliations[id] in s.settled
        && s.settled[s.reconciliations[id]] != Failed)
    || e == SessionRemoved(id) || e == Disconnect || e == Dispose
  }

  ghost predicate NeverCleans(s: State, es: seq<Event>, id: SessionId)
    requires Runs(s, es)
    decreases es
  {
    es != [] ==> !Cleans(s, es[0], id) && NeverCleans(Apply(s, es[0]), es[1..], id)
  }

  /** `r` treats the acquisitions and the attaches of the session as `s` does. */
  lemma UncleanFrame(s: State, r: State, id: SessionId)
    requires Unclean(s, id) && PromisesGrow(s, r) && id in r.cleanup
    requires forall p | p in r.pending && !Known(s, p) :: r.pending[p] != Attach(id)
    requires forall t | t in r.acquisitions && r.acquisitions[t].session == id ::
               KeptAcquisition(s, r, t) || BeforeCleanup(r, t)
    requires id in s.reconciliations ==>
               Rejected(s, s.reconciliations[id])
               || (id in r.reconciliations && r.reconciliations[id] == s.reconciliations[id])
    ensures Unclean(r, id)
  {
    forall t | t in r.acquisitions && r.acquisitions[t].session == id ensures BeforeCleanup(r, t) {
      if KeptAcquisition(s, r, t) { assert BeforeCleanup(s, t); }
    }
  }

  /** What a decision for session `i` does to the cleanup of session `id`. */
  ghost predicate Respects(s: State, i: SessionId, d: Decision, id: SessionId) {
    && (i == id ==> d.Await? && !d.wait.OnAttachment?)
    && (d.Await? ==>
          && PromisesGrow(s, d.state)
          && d.state.cleanup == s.cleanup
          && (forall p | p in d.state.pending && !Known(s, p) :: d.state.pending[p] != Attach(id))
          && (id in s.reconciliations ==>
                id in d.state.reconciliations && d.state.reconciliations[id] == s.reconciliations[id])
          && (i == id && d.wait.OnReconciliation? ==>
                id in d.state.reconciliations && d.state.reconciliations[id] == d.wait.promise))
  }

  lemma AttachRespects(s: State, i: SessionId, reconciled: bool, id: SessionId)
    requires Names(s) && i != id
    ensures Respects(s, i, CheckAttached(s, i, reconciled), id)
  {
    if (reconciled || i !in s.attached) && i !in s.attachments {
      IssuedGrows(s, Sent(s, Attach(i)), Attach(i));
    }
  }

  lemma CleanupRespects(s: State, i: SessionId, id: SessionId)
    requires Names(s) && id in s.cleanup
    ensures Respects(s, i, CheckCleanup(s, i), id)
  {
    if i !in s.cleanup {
      AttachRespects(s, i, false, id);
    } else if i !in s.reconciliations {
      IssuedGrows(s, Sent(s, Detach(i)), Detach(i));
    }
  }

  lemma DetachmentRespects(s: State, i: SessionId, id: SessionId)
    requires Names(s) && id in s.cleanup
    ensures Respects(s, i, CheckDetachment(s, i), id)
  {
    if i !in s.detachments { CleanupRespects(s, i, id); }
  }

  /** `r` carries acquisition `t` of session `i` on by decision `d`. */
  lemma UncleanCarried(s: State, s1: State, t: Token, i: SessionId, mode: Mode, epoch: nat, d: Decision, r: State,
      id: SessionId)
    requires Unclean(s, id) && Respects(s1, i, d, id) && Decided(s1, d) && r == Carried(s1, t, i, mode, epoch, d)
    requires s1 == s.(counts := s1.counts, exclusive := s1.exclusive, next := s1.next)
    requires t in s.acquisitions ==> s.acquisitions[t].session == i
    ensures Unclean(r, id)
  {
    assert forall p :: Known(s, p) <==> Known(s1, p);
    if d.Await? {
      CarriedShape(s1, t, i, mode, epoch, d, r);
      SamePromises(s, d.state, r);
    } else {
      SamePromises(s, s, r);
    }
    UncleanFrame(s, r, id);
  }

  lemma CarriedShape(s: State, t: Token, i: SessionId, mode: Mode, epoch: nat, d: Decision, r: State)
    requires d.Await? && Decided(s, d) && r == Carried(s, t, i, mode, epoch, d)
    ensures r.acquisitions == s.acquisitions[t := Acquisition(i, mode, d.wait, epoch)]
    ensures r.pending == d.state.pending && r.settled == d.state.settled && r.cleanup == d.state.cleanup
    ensures r.reconciliations == d.state.reconciliations
  {}

  lemma UncleanAcquire(s: State, i: SessionId, mode: Mode, id: SessionId)
    requires Names(s) && Unclean(s, id)
    ensures Unclean(Acquire(s, i, mode), id)
  {
    if !s.disposed && CanReserve(s, i, mode) {
      var s1 := Reserved(s, i, mode);
      DetachmentRespects(s1, i, id);
      DetachmentDecides(s1, i);
      UncleanCarried(s, s1, s.next, i, mode, s.epoch, CheckDetachment(s1, i), Acquire(s, i, mode), id);
    }
  }

  lemma UncleanResume(s: State, t: Token, id: SessionId)
    requires Names(s) && Unclean(s, id) && CanResume(s, t)
    ensures Unclean(ContinueAcquire(s, t), id)
  {
    var a := s.acquisitions[t];
    var r := ContinueAcquire(s, t);
    if a.session == id { assert BeforeCleanup(s, t); }
    match a.wait
    case OnDetachment(_) => UncleanRecheck(s, t, a, r, id);
    case OnReconciliation(p) =>
      if s.settled[p].Failed? { UncleanLeave(s, s, t, a, r, id); } else { UncleanReattach(s, t, a, r, id); }
    case OnAttachment(p) => UncleanLeave(s, ForgetAttachment(s, a.session, p), t, a, r, id);
  }

  lemma UncleanRecheck(s: State, t: Token, a: Acquisition, r: State, id: SessionId)
    requires Names(s) && Unclean(s, id) && t in s.acquisitions && s.acquisitions[t] == a
    requires r == Carried(s, t, a.session, a.mode, a.epoch, CheckCleanup(s, a.session))
    ensures Unclean(r, id)
  {
    CleanupRespects(s, a.session, id);
    CheckDecides(s, a.session);
    UncleanCarried(s, s, t, a.session, a.mode, a.epoch, CheckCleanup(s, a.session), r, id);
  }

  lemma UncleanReattach(s: State, t: Token, a: Acquisition, r: State, id: SessionId)
    requires Names(s) && Unclean(s, id) && t in s.acquisitions && s.acquisitions[t] == a && a.session != id
    requires r == Carried(s, t, a.session, a.mode, a.epoch, CheckAttached(s, a.session, true))
    ensures Unclean(r, id)
  {
    AttachRespects(s, a.session, true, id);
    AttachDecides(s, a.session, true);
    UncleanCarried(s, s, t, a.session, a.mode, a.epoch, CheckAttached(s, a.session, true), r, id);
  }

  lemma UncleanLeave(s: State, s1: State, t: Token, a: Acquisition, r: State, id: SessionId)
    requires Unclean(s, id) && s1 == s.(attachments := s1.attachments)
    requires r == Abandoned(s1, t, a.session) || r == Granted(s1, t, a.session, a.mode)
    ensures Unclean(r, id)
  {
    LeavePromises(s, s1, t, a, r);
    UncleanFrame(s, r, id);
  }

  // ---------- the other events ----------

  /** Nothing an unclean session depends on changes, but that promises may settle. */
  lemma UncleanQuiet(s: State, r: State, id: SessionId)
    requires Unclean(s, id) && PromisesGrow(s, r) && id in r.cleanup
    requires forall p | p in r.pending && !Known(s, p) :: r.pending[p] != Attach(id)
    requires r.acquisitions == s.acquisitions && r.reconciliations == s.reconciliations
    ensures Unclean(r, id)
  {
    UncleanFrame(s, r, id);
  }

  lemma UncleanCreate(s: State, p: Promise, id: SessionId)
    requires Names(s) && Unclean(s, id) && p in s.settled
    ensures Unclean(ContinueCreate(s, p), id)
  {
    CreatePromises(s, p);
    var s1 := s.(creations := s.creations - {p});
    if s.settled[p].Created? && CanReserve(s1, s.settled[p].session, Exclusive) {
      UncleanCreated(s, s1, s.settled[p].session, ContinueCreate(s, p), id);
    } else {
      UncleanQuiet(s, s1, id);
    }
  }

  lemma UncleanCreated(s: State, s1: State, i: SessionId, r: State, id: SessionId)
    requires Unclean(s, id) && PromisesGrow(s, r) && s1 == s.(creations := s1.creations)
    requires r == Granted(Reserved(s1, i, Exclusive), s1.next, i, Exclusive)
    ensures Unclean(r, id)
  {
    UncleanFrame(s, r, id);
  }

  lemma UncleanPhase(s: State, s1: State, t: Token, phase: Phase, r: State, id: SessionId)
    requires Unclean(s, id) && t in s1.leases
    requires s1 == s.(detachments := s1.detachments, counts := s1.counts, exclusive := s1.exclusive,
                      cleanup := s1.cleanup)
    requires id in s1.cleanup && r == SetPhase(s1, t, phase)
    ensures Unclean(r, id)
  {
    UncleanQuiet(s, r, id);
  }

  lemma UncleanRelease(s: State, t: Token, relinquish: bool, id: SessionId)
    requires Names(s) && Unclean(s, id) && t in s.leases
    ensures Unclean(Release(s, t, relinquish), id)
  {
    var r := Release(s, t, relinquish);
    ReleaseShape(s, t, relinquish, r);
    if r == Refreshed(s, t) {
      UncleanRefreshed(s, t, r, id);
    } else if r == DetachSent(s, t, relinquish) {
      UncleanDetachSent(s, r, t, relinquish, id);
    } else {
      UncleanPhase(s, Unreserved(s, s.leases[t].session, t), t, Released, r, id);
    }
  }

  lemma UncleanRefreshed(s: State, t: Token, r: State, id: SessionId)
    requires Unclean(s, id) && t in s.leases && r == Refreshed(s, t)
    ensures Unclean(r, id)
  {
    RefreshedShape(s, t);
    if r != s { UncleanPhase(s, s, t, Invalidated, r, id); }
  }

  lemma UncleanDetachSent(s: State, r: State, t: Token, relinquish: bool, id: SessionId)
    requires Names(s) && Unclean(s, id) && t in s.leases && r == DetachSent(s, t, relinquish)
    ensures Unclean(r, id)
  {
    DetachSentShape(s, r, t, relinquish);
    IssuedGrows(s, r, Detach(s.leases[t].session));
    assert r.cleanup == s.cleanup;
    UncleanQuiet(s, r, id);
  }

  lemma UncleanCatch(s: State, t: Token, id: SessionId)
    requires Unclean(s, id) && t in s.leases && s.leases[t].phase.Failing?
    ensures Unclean(CatchFailedRelease(s, t), id)
  {
    var r := CatchFailedRelease(s, t);
    if IsStale(s, t) {
      UncleanPhase(s, s, t, Invalidated, r, id);
    } else if s.leases[t].phase.relinquish {
      var i := s.leases[t].session;
      UncleanPhase(s, Unreserved(s, i, t).(cleanup := s.cleanup + {i}), t, Released, r, id);
    } else {
      UncleanPhase(s, s, t, Active, r, id);
    }
  }

  lemma UncleanContinueRelease(s: State, t: Token, id: SessionId)
    requires Unclean(s, id) && t in s.leases && s.leases[t].phase.Detaching? && s.leases[t].phase.promise in s.settled
    ensures Unclean(ContinueRelease(s, t), id)
  {
    var s1 := ForgetDetachment(s, s.leases[t].session, s.leases[t].phase.promise);
    if s.settled[s.leases[t].phase.promise].Failed? {
      UncleanPhase(s, s1, t, Failing(s.leases[t].phase.relinquish), ContinueRelease(s, t), id);
    } else {
      UncleanPhase(s, Unreserved(s1, s.leases[t].session, t), t, Released, ContinueRelease(s, t), id);
    }
  }

  lemma UncleanStep(s: State, e: Event, id: SessionId)
    requires Names(s) && Unclean(s, id) && Enabled(s, e) && !Cleans(s, e, id)
    ensures Unclean(Apply(s, e), id)
  {
    match e
    case BeginAcquire(i, mode) => UncleanAcquire(s, i, mode, id);
    case ResumeAcquire(t) => UncleanResume(s, t, id);
    case BeginCreate => IssuedGrows(s, Apply(s, e), Create); UncleanQuiet(s, Apply(s, e), id);
    case ResumeCreate(p) => UncleanCreate(s, p, id);
    case BeginRelease(t, relinquish) => UncleanRelease(s, t, relinquish, id);
    case ResumeRelease(t) => UncleanContinueRelease(s, t, id);
    case CatchRelease(t) => UncleanCatch(s, t, id);
    case ResumeReconcile(i) => UncleanFrame(s, ContinueReconcile(s, i), id);
    case SendOther => IssuedGrows(s, Apply(s, e), Other); UncleanQuiet(s, Apply(s, e), id);
    case _ => UncleanMessage(s, e, id);
  }

  lemma UncleanMessage(s: State, e: Event, id: SessionId)
    requires Names(s) && Unclean(s, id) && Enabled(s, e) && !Cleans(s, e, id)
    requires e.Respond? || e.Snapshot? || e.SessionRemoved? || e.Connect? || e.Disconnect? || e.Dispose?
    ensures Unclean(Apply(s, e), id)
  {
    match e
    case Respond(p, outcome, flag) => UncleanQuiet(s, Answered(s, p, outcome, flag), id);
    case Snapshot(i, flag) => UncleanQuiet(s, SetAttached(s, i, flag), id);
    case SessionRemoved(i) => UncleanQuiet(s, Invalidate(s, i).(attached := s.attached - {i}), id);
    case Connect => UncleanQuiet(s, s.(connected := true, attached := {}), id);
    case Disconnect =>
    case Dispose =>
  }

  // ---------- leases of an unclean session ----------

  /** What an event may add to the leases of an unclean session: one, from a creation. */
  ghost predicate OnlyCreated(s: State, e: Event, r: State, id: SessionId) {
    forall u | u in r.leases && u !in s.leases && r.leases[u].session == id ::
      e.ResumeCreate? && r.leases[u].mode == Exclusive
  }

  /** No acquisition of an unclean session becomes a lease. */
  lemma UncleanNotGranted(s: State, e: Event, id: SessionId)
    requires Names(s) && Unclean(s, id) && Enabled(s, e)
    ensures OnlyCreated(s, e, Apply(s, e), id)
  {
    match e
    case BeginAcquire(i, mode) =>
      AcquireEvolves(s, i, mode);
      if i == id { UncleanAcquireGrants(s, id, mode); }
    case ResumeAcquire(t) =>
      ResumeEvolves(s, t);
      if s.acquisitions[t].session == id {
        assert BeforeCleanup(s, t);
        UncleanResumeGrants(s, t, ContinueAcquire(s, t));
      }
    case ResumeCreate(p) => CreatedExclusive(s, p, ContinueCreate(s, p));
    case _ => EventEvolves(s, e);
  }

  lemma CreatedExclusive(s: State, p: Promise, r: State)
    requires p in s.settled && r == ContinueCreate(s, p)
    ensures forall u | u in r.leases && u !in s.leases :: r.leases[u].mode == Exclusive
  {}

  lemma UncleanAcquireGrants(s: State, id: SessionId, mode: Mode)
    requires Names(s) && id in s.cleanup
    ensures Acquire(s, id, mode).leases == s.leases
  {
    if !s.disposed && CanReserve(s, id, mode) {
      DetachmentRespects(Reserved(s, id, mode), id, id);
      DetachmentDecides(Reserved(s, id, mode), id);
    }
  }

  lemma AwaitKeepsLeases(s: State, t: Token, id: SessionId, mode: Mode, epoch: nat, d: Decision)
    requires d.Await? && d.state.leases == s.leases
    ensures Carried(s, t, id, mode, epoch, d).leases == s.leases
  {}

  lemma UncleanResumeGrants(s: State, t: Token, r: State)
    requires Names(s) && CanResume(s, t) && s.acquisitions[t].session in s.cleanup && BeforeCleanup(s, t)
    requires r == ContinueAcquire(s, t)
    ensures r.leases == s.leases
  {
    var a := s.acquisitions[t];
    match a.wait
    case OnDetachment(_) =>
      RecheckKeepsLeases(s, t, a.session, a.mode, a.epoch, CheckCleanup(s, a.session), r);
    case _ =>
      RejectedKeepsLeases(s, t, r);
  }

  lemma RejectedKeepsLeases(s: State, t: Token, r: State)
    requires CanResume(s, t) && !s.acquisitions[t].wait.OnDetachment? && Rejected(s, s.acquisitions[t].wait.promise)
    requires r == ContinueAcquire(s, t)
    ensures r.leases == s.leases
  {}

  lemma RecheckKeepsLeases(s: State, t: Token, id: SessionId, mode: Mode, epoch: nat, d: Decision, r: State)
    requires Names(s) && id in s.cleanup && d == CheckCleanup(s, id) && r == Carried(s, t, id, mode, epoch, d)
    ensures r.leases == s.leases
  {
    CleanupRespects(s, id, id);
    CheckDecides(s, id);
    AwaitKeepsLeases(s, t, id, mode, epoch, d);
  }

  /** An unreleased shared lease of the session. */
  ghost predicate Shares(s: State, u: Token, id: SessionId) {
    u in s.leases && OwnerOf(s, u) == Session(id) && s.leases[u].mode == Shared
  }

  /** The session is unclean, and nobody shares it. */
  ghost predicate Vacant(s: State, id: SessionId) {
    Unclean(s, id) && forall u :: !Shares(s, u, id)
  }

  lemma VacantStep(s: State, e: Event, id: SessionId)
    requires Names(s) && Generations(s) && Vacant(s, id) && Enabled(s, e) && !Cleans(s, e, id)
    requires Names(Apply(s, e))
    ensures Vacant(Apply(s, e), id)
  {
    UncleanStep(s, e, id);
    UncleanNotGranted(s, e, id);
    EventEvolves(s, e);
    SharersEvolve(s, e, Apply(s, e), id);
  }

  lemma SharersEvolve(s: State, e: Event, r: State, id: SessionId)
    requires Names(s) && Generations(s) && Names(r) && Evolves(s, r, Gained(s, e)) && OnlyCreated(s, e, r, id)
    requires forall u :: !Shares(s, u, id)
    ensures forall u :: !Shares(r, u, id)
  {
    forall u ensures !Shares(r, u, id) {
      if Shares(r, u, id) && u in s.leases { assert Shares(s, u, id); }
    }
  }
}
