/** What the lease protocol guarantees over whole runs. */
module LeaseSafety {
  import opened Leases
  import opened LeaseInvariant
  import opened LeaseWire
  import opened LeaseBooks
  import opened LeaseSteps

  // ---------- runs ----------

  ghost predicate Runs(s: State, es: seq<Event>)
    decreases es
  {
    es != [] ==> Enabled(s, es[0]) && Runs(Apply(s, es[0]), es[1..])
  }

  ghost function After(s: State, es: seq<Event>): State
    requires Runs(s, es)
    decreases es
  {
    if es == [] then s else After(Apply(s, es[0]), es[1..])
  }

  ghost predicate OrderlyRun(s: State, es: seq<Event>)
    requires Runs(s, es)
    decreases es
  {
    es != [] ==> Orderly(s, es[0]) && OrderlyRun(Apply(s, es[0]), es[1..])
  }

  lemma {:induction false} RunExtended(s: State, es: seq<Event>, e: Event)
    requires Runs(s, es) && Enabled(After(s, es), e)
    ensures Runs(s, es + [e]) && After(s, es + [e]) == Apply(After(s, es), e)
    ensures OrderlyRun(s, es + [e]) <==> OrderlyRun(s, es) && Orderly(After(s, es), e)
    decreases es
  {
    if es == [] {
      assert [] + [e] == [e] && [e][1..] == [];
    } else {
      RunExtended(Apply(s, es[0]), es[1..], e);
      assert (es + [e])[1..] == es[1..] + [e];
    }
  }

  lemma {:induction false} RunKeepsInv(s: State, es: seq<Event>)
    requires Inv(s) && Runs(s, es) && OrderlyRun(s, es)
    ensures Inv(After(s, es))
    decreases es
  {
    if es != [] {
      KeepInv(s, es[0]);
      RunKeepsInv(Apply(s, es[0]), es[1..]);
    }
  }

  /** In every state an orderly run reaches, the count of a session is the number of its unreleased
      tokens, a recorded exclusive token is the only one, and every unreleased exclusive token is
      recorded; without a link nothing is pending and nothing attached. */
  lemma LeaseAccounting(es: seq<Event>, id: SessionId)
    requires Runs(Init, es) && OrderlyRun(Init, es)
    ensures
      var s := After(Init, es);
      && Count(s, id) == |Tokens(s, id)|
      && (id in s.exclusive ==> Tokens(s, id) == {s.exclusive[id]})
      && (forall t | t in Tokens(s, id) && ModeOf(s, t) == Exclusive :: Tokens(s, id) == {t})
      && (!s.connected ==> s.pending == map[] && s.attached == {})
  {
    InitInv();
    RunKeepsInv(Init, es);
    var s := After(Init, es);
    forall t | t in Tokens(s, id) && ModeOf(s, t) == Exclusive ensures Tokens(s, id) == {t} {
      assert OwnerOf(s, t) == Session(id);
    }
  }

  // ---------- requests ----------

  lemma AttachPromises(s: State, id: SessionId, reconciled: bool)
    requires Names(s)
    ensures
      var d := CheckAttached(s, id, reconciled);
      d.Await? ==> PromisesGrow(s, d.state)
  {
    IssuedGrows(s, Sent(s, Attach(id)), Attach(id));
  }

  lemma CleanupPromises(s: State, id: SessionId)
    requires Names(s)
    ensures
      var d := CheckCleanup(s, id);
      d.Await? ==> PromisesGrow(s, d.state)
  {
    AttachPromises(s, id, false);
    IssuedGrows(s, Sent(s, Detach(id)), Detach(id));
  }

  lemma SamePromises(s: State, m: State, r: State)
    requires PromisesGrow(s, m) && r.pending == m.pending && r.settled == m.settled
    ensures PromisesGrow(s, r)
  {}

  lemma CarriedPromises(s: State, t: Token, id: SessionId, mode: Mode, epoch: nat, d: Decision, r: State)
    requires r == Carried(s, t, id, mode, epoch, d) && (d.Await? ==> PromisesGrow(s, d.state))
    ensures PromisesGrow(s, r)
  {
    if d.Await? { SamePromises(s, d.state, r); }
  }

  lemma AcquirePromises(s: State, id: SessionId, mode: Mode)
    requires Names(s)
    ensures PromisesGrow(s, Acquire(s, id, mode))
  {
    if !s.disposed && CanReserve(s, id, mode) {
      var s1 := Reserved(s, id, mode);
      DetachmentPromises(s1, id);
      CarriedPromises(s1, s.next, id, mode, s.epoch, CheckDetachment(s1, id), Acquire(s, id, mode));
    }
  }

  lemma DetachmentPromises(s: State, id: SessionId)
    requires Names(s)
    ensures
      var d := CheckDetachment(s, id);
      d.Await? ==> PromisesGrow(s, d.state)
  {
    CleanupPromises(s, id);
  }

  lemma ResumePromises(s: State, t: Token)
    requires Names(s) && CanResume(s, t)
    ensures PromisesGrow(s, ContinueAcquire(s, t))
  {
    var a := s.acquisitions[t];
    match a.wait
    case OnDetachment(_) => ResumeCheckPromises(s, t, a);
    case OnReconciliation(p) =>
      if s.settled[p].Failed? {
        LeavePromises(s, s, t, a, ContinueAcquire(s, t));
      } else {
        ResumeAttachPromises(s, t, a);
      }
    case OnAttachment(p) =>
      LeavePromises(s, ForgetAttachment(s, a.session, p), t, a, ContinueAcquire(s, t));
  }

  lemma LeavePromises(s: State, s1: State, t: Token, a: Acquisition, r: State)
    requires s1.pending == s.pending && s1.settled == s.settled
    requires r == Abandoned(s1, t, a.session) || r == Granted(s1, t, a.session, a.mode)
    ensures PromisesGrow(s, r)
  {}

  lemma ResumeCheckPromises(s: State, t: Token, a: Acquisition)
    requires Names(s)
    ensures PromisesGrow(s, Carried(s, t, a.session, a.mode, a.epoch, CheckCleanup(s, a.session)))
  {
    CleanupPromises(s, a.session);
    CarriedPromises(s, t, a.session, a.mode, a.epoch, CheckCleanup(s, a.session),
                    Carried(s, t, a.session, a.mode, a.epoch, CheckCleanup(s, a.session)));
  }

  lemma ResumeAttachPromises(s: State, t: Token, a: Acquisition)
    requires Names(s)
    ensures PromisesGrow(s, Carried(s, t, a.session, a.mode, a.epoch, CheckAttached(s, a.session, true)))
  {
    AttachPromises(s, a.session, true);
    CarriedPromises(s, t, a.session, a.mode, a.epoch, CheckAttached(s, a.session, true),
                    Carried(s, t, a.session, a.mode, a.epoch, CheckAttached(s, a.session, true)));
  }

  lemma RefreshedPromises(s: State, t: Token)
    requires t in s.leases
    ensures Refreshed(s, t).pending == s.pending && Refreshed(s, t).settled == s.settled
  {}

  lemma ReleasePromises(s: State, t: Token, relinquish: bool)
    requires Names(s) && t in s.leases
    ensures PromisesGrow(s, Release(s, t, relinquish))
  {
    var r := Release(s, t, relinquish);
    ReleaseShape(s, t, relinquish, r);
    if r == Refreshed(s, t) {
      RefreshedPromises(s, t);
      SamePromises(s, s, r);
    } else {
      ActiveReleasePromises(s, t, relinquish, r);
    }
  }

  lemma ActiveReleasePromises(s: State, t: Token, relinquish: bool, r: State)
    requires Names(s) && t in s.leases
    requires r == DetachSent(s, t, relinquish) || r == SetPhase(Unreserved(s, s.leases[t].session, t), t, Released)
    ensures PromisesGrow(s, r)
  {
    if r == DetachSent(s, t, relinquish) {
      DetachSentShape(s, r, t, relinquish);
      IssuedGrows(s, r, Detach(s.leases[t].session));
    }
  }

  /** A phase change, with or without giving the token back, sends and settles nothing. */
  lemma PhaseWire(s: State, t: Token, phase: Phase, cleanup: set<SessionId>, r: State)
    requires t in s.leases
    requires r == SetPhase(s, t, phase)
             || r == SetPhase(Unreserved(s, s.leases[t].session, t), t, phase)
             || r == SetPhase(Unreserved(s, s.leases[t].session, t).(cleanup := cleanup), t, phase)
    ensures r.pending == s.pending && r.settled == s.settled
  {}

  lemma PhasePromises(s: State, s1: State, t: Token, phase: Phase, cleanup: set<SessionId>, r: State)
    requires s1.pending == s.pending && s1.settled == s.settled && t in s1.leases
    requires r == SetPhase(s1, t, phase)
             || r == SetPhase(Unreserved(s1, s1.leases[t].session, t), t, phase)
             || r == SetPhase(Unreserved(s1, s1.leases[t].session, t).(cleanup := cleanup), t, phase)
    ensures PromisesGrow(s, r)
  {
    PhaseWire(s1, t, phase, cleanup, r);
    SamePromises(s, s, r);
  }

  lemma CatchPromises(s: State, t: Token)
    requires t in s.leases && s.leases[t].phase.Failing?
    ensures PromisesGrow(s, CatchFailedRelease(s, t))
  {
    if IsStale(s, t) {
      PhasePromises(s, s, t, Invalidated, {}, CatchFailedRelease(s, t));
    } else if s.leases[t].phase.relinquish {
      PhasePromises(s, s, t, Released, s.cleanup + {s.leases[t].session}, CatchFailedRelease(s, t));
    } else {
      PhasePromises(s, s, t, Active, {}, CatchFailedRelease(s, t));
    }
  }

  lemma DetachPromises(s: State, t: Token)
    requires t in s.leases && s.leases[t].phase.Detaching? && s.leases[t].phase.promise in s.settled
    ensures PromisesGrow(s, ContinueRelease(s, t))
  {
    var s1 := ForgetDetachment(s, s.leases[t].session, s.leases[t].phase.promise);
    if s.settled[s.leases[t].phase.promise].Failed? {
      PhasePromises(s, s1, t, Failing(s.leases[t].phase.relinquish), {}, ContinueRelease(s, t));
    } else {
      PhasePromises(s, s1, t, Released, {}, ContinueRelease(s, t));
    }
  }

  lemma CreatePromises(s: State, p: Promise)
    requires p in s.settled
    ensures PromisesGrow(s, ContinueCreate(s, p))
  {
    var s1 := s.(creations := s.creations - {p});
    if s.settled[p].Created? && CanReserve(s1, s.settled[p].session, Exclusive) {
      CreatedPromises(s, s1, s.settled[p].session, ContinueCreate(s, p));
    }
  }

  lemma CreatedPromises(s: State, s1: State, id: SessionId, r: State)
    requires s1.pending == s.pending && s1.settled == s.settled
    requires r == Granted(Reserved(s1, id, Exclusive), s1.next, id, Exclusive)
    ensures PromisesGrow(s, r)
  {}

  lemma CutPromises(s: State, r: State, disposed: bool)
    requires Names(s) && r == Cut(s).(disposed := disposed)
    ensures PromisesGrow(s, r)
  {
    CutShape(s, r, disposed);
    CutGrows(s, r);
  }

  /** Whatever happens, a promise is settled at most once and never forgotten. */
  lemma SettledOnce(s: State, e: Event)
    requires Names(s) && Enabled(s, e)
    ensures PromisesGrow(s, Apply(s, e))
  {
    match e
    case BeginAcquire(id, mode) => AcquirePromises(s, id, mode);
    case ResumeAcquire(t) => ResumePromises(s, t);
    case BeginCreate => IssuedGrows(s, Apply(s, e), Create);
    case SendOther => IssuedGrows(s, Apply(s, e), Other);
    case BeginRelease(t, relinquish) => ReleasePromises(s, t, relinquish);
    case ResumeCreate(p) => CreatePromises(s, p);
    case ResumeRelease(t) => DetachPromises(s, t);
    case CatchRelease(t) => CatchPromises(s, t);
    case Disconnect => CutPromises(s, Apply(s, e), false);
    case Dispose => CutPromises(s, Apply(s, e), true);
    case _ =>
  }

  /** At most one attach of a session is outstanding. */
  lemma OneAttach(s: State, p: Promise, q: Promise, id: SessionId)
    requires Inv(s) && p in s.pending && q in s.pending
    requires s.pending[p] == Attach(id) && s.pending[q] == Attach(id)
    ensures p == q
  {
    assert RequestKnown(s, p) && RequestKnown(s, q);
  }
}
