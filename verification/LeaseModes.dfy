/** Tokens keep their modes, and the recorded token of a session is an exclusive one. */
module LeaseModes {
  import opened Leases
  import opened LeaseInvariant
  import opened LeaseBooks
  import opened LeaseSteps
  import opened LeaseSafety

  // ---------- modes are kept ----------

  predicate Has(s: State, t: Token) { t in s.acquisitions || t in s.leases }

  predicate IsOf(s: State, t: Token, mode: Mode) {
    (t in s.acquisitions ==> s.acquisitions[t].mode == mode) && (t in s.leases ==> s.leases[t].mode == mode)
  }

  ghost predicate Recorded(s: State) {
    forall id | id in s.exclusive :: IsOf(s, s.exclusive[id], Exclusive)
  }

  /** Tokens keep their modes, and only new exclusive ones are recorded. */
  ghost predicate ModesKept(s: State, r: State) {
    && (forall t | Has(s, t) :: IsOf(r, t, ModeOf(s, t)))
    && (forall id | id in r.exclusive ::
          (id in s.exclusive && r.exclusive[id] == s.exclusive[id]) || IsOf(r, r.exclusive[id], Exclusive))
  }

  lemma RecordedKept(s: State, r: State)
    requires Names(s) && Ownership(s) && Recorded(s) && ModesKept(s, r)
    ensures Recorded(r)
  {
    forall id | id in r.exclusive ensures IsOf(r, r.exclusive[id], Exclusive) {
      if id in s.exclusive && r.exclusive[id] == s.exclusive[id] {
        var t := s.exclusive[id];
        assert t in Tokens(s, id) by { assert t in {t}; }
        assert Has(s, t) && IsOf(s, t, Exclusive) && ModeOf(s, t) == Exclusive;
      }
    }
  }

  /** Only one token changes its place. */
  ghost predicate JustToken(s: State, r: State, t: Token, mode: Mode) {
    && r.exclusive == s.exclusive && IsOf(r, t, mode)
    && r.acquisitions - {t} == s.acquisitions - {t} && r.leases - {t} == s.leases - {t}
  }

  lemma CarriedModes(s: State, t: Token, id: SessionId, mode: Mode, epoch: nat, d: Decision, r: State)
    requires Decided(s, d) && t !in s.leases && r == Carried(s, t, id, mode, epoch, d)
    ensures JustToken(s, r, t, mode)
  {}

  lemma AcquireModes(s: State, id: SessionId, mode: Mode)
    requires Names(s)
    ensures ModesKept(s, Acquire(s, id, mode))
  {
    if !s.disposed && CanReserve(s, id, mode) {
      var s1 := Reserved(s, id, mode);
      DetachmentDecides(s1, id);
      CarriedModes(s1, s.next, id, mode, s.epoch, CheckDetachment(s1, id), Acquire(s, id, mode));
      NewModes(s, s1, id, mode, Acquire(s, id, mode));
    }
  }

  /** No token is in both tables, and the next name is in neither. */
  ghost predicate Apart(s: State) {
    !Has(s, s.next) && forall t | t in s.acquisitions :: t !in s.leases
  }

  lemma NewModes(s: State, s1: State, id: SessionId, mode: Mode, r: State)
    requires Apart(s) && s1 == Reserved(s, id, mode) && JustToken(s1, r, s.next, mode)
    ensures ModesKept(s, r)
  {
    forall t | Has(s, t) ensures IsOf(r, t, ModeOf(s, t)) {
      assert t != s.next;
      assert t in r.acquisitions ==> t in r.acquisitions - {s.next};
      assert t in r.leases ==> t in r.leases - {s.next};
    }
  }

  /** A token that was there has moved. */
  lemma MovedModes(s: State, s1: State, t: Token, r: State)
    requires Names(s) && t in s.acquisitions && JustToken(s1, r, t, s.acquisitions[t].mode)
    requires s1.acquisitions == s.acquisitions && s1.leases == s.leases
    requires forall id | id in s1.exclusive :: id in s.exclusive && s1.exclusive[id] == s.exclusive[id]
    ensures ModesKept(s, r)
  {
    forall u | Has(s, u) ensures IsOf(r, u, ModeOf(s, u)) {
      if u != t {
        assert u in r.acquisitions ==> u in r.acquisitions - {t};
        assert u in r.leases ==> u in r.leases - {t};
      }
    }
  }

  lemma ResumeModes(s: State, t: Token)
    requires Names(s) && CanResume(s, t)
    ensures ModesKept(s, ContinueAcquire(s, t))
  {
    var a := s.acquisitions[t];
    var r := ContinueAcquire(s, t);
    match a.wait
    case OnDetachment(_) =>
      CheckDecides(s, a.session);
      CarriedModes(s, t, a.session, a.mode, a.epoch, CheckCleanup(s, a.session), r);
      MovedModes(s, s, t, r);
    case OnReconciliation(p) =>
      if s.settled[p].Failed? {
        LeaveModes(s, s, t, a, r);
      } else {
        AttachDecides(s, a.session, true);
        CarriedModes(s, t, a.session, a.mode, a.epoch, CheckAttached(s, a.session, true), r);
        MovedModes(s, s, t, r);
      }
    case OnAttachment(p) => LeaveModes(s, ForgetAttachment(s, a.session, p), t, a, r);
  }

  lemma LeaveModes(s: State, s1: State, t: Token, a: Acquisition, r: State)
    requires Names(s) && t in s.acquisitions && s.acquisitions[t] == a
    requires s1 == s.(attachments := s1.attachments)
    requires r == Abandoned(s1, t, a.session) || r == Granted(s1, t, a.session, a.mode)
    ensures ModesKept(s, r)
  {
    MovedModes(s, s1.(exclusive := r.exclusive), t, r);
  }

  lemma CreateModes(s: State, p: Promise)
    requires Names(s) && p in s.settled
    ensures ModesKept(s, ContinueCreate(s, p))
  {
    var s1 := s.(creations := s.creations - {p});
    if s.settled[p].Created? && CanReserve(s1, s.settled[p].session, Exclusive) {
      CreatedModes(s, s1, s.settled[p].session, ContinueCreate(s, p));
    }
  }

  lemma CreatedModes(s: State, s1: State, i: SessionId, r: State)
    requires Names(s) && s1 == s.(creations := s1.creations)
    requires r == Granted(Reserved(s1, i, Exclusive), s1.next, i, Exclusive)
    ensures ModesKept(s, r)
  {
    GrantedToken(Reserved(s1, i, Exclusive), s1.next, i, Exclusive, r);
    assert Apart(s1);
    NewModes(s1, Reserved(s1, i, Exclusive), i, Exclusive, r);
    assert forall t | Has(s, t) :: Has(s1, t) && ModeOf(s1, t) == ModeOf(s, t);
  }

  lemma GrantedToken(s: State, t: Token, id: SessionId, mode: Mode, r: State)
    requires r == Granted(s, t, id, mode)
    ensures JustToken(s, r, t, mode)
  {}

  ghost predicate SameModes(s: State, r: State) {
    && r.acquisitions == s.acquisitions && r.leases.Keys == s.leases.Keys
    && (forall t | t in s.leases :: r.leases[t].mode == s.leases[t].mode)
    && (forall id | id in r.exclusive :: id in s.exclusive && r.exclusive[id] == s.exclusive[id])
  }

  lemma SameModesKept(s: State, r: State)
    requires Names(s) && SameModes(s, r)
    ensures ModesKept(s, r)
  {}

  lemma PhaseModes(s: State, s1: State, t: Token, phase: Phase, r: State)
    requires t in s.leases && s1.leases == s.leases && SameModes(s, s1) && r == SetPhase(s1, t, phase)
    ensures SameModes(s, r)
  {}

  lemma GiveBackModes(s: State, s1: State, t: Token, cleanup: set<SessionId>, r: State)
    requires t in s.leases && s1.leases == s.leases && SameModes(s, s1)
    requires r == SetPhase(Unreserved(s1, s.leases[t].session, t).(cleanup := cleanup), t, Released)
    ensures SameModes(s, r)
  {
    var m := Unreserved(s1, s.leases[t].session, t).(cleanup := cleanup);
    assert m.leases == s.leases && SameModes(s, m);
    PhaseModes(s, m, t, Released, r);
  }

  lemma RefreshedModes(s: State, t: Token, r: State)
    requires t in s.leases && (r == s || r == SetPhase(s, t, Invalidated))
    ensures SameModes(s, r)
  {
    if r != s { PhaseModes(s, s, t, Invalidated, r); }
  }

  lemma GivenBackModes(s: State, t: Token, r: State)
    requires t in s.leases && r == SetPhase(Unreserved(s, s.leases[t].session, t), t, Released)
    ensures SameModes(s, r)
  {
    PhaseModes(s, Unreserved(s, s.leases[t].session, t), t, Released, r);
  }

  lemma ReleaseModes(s: State, t: Token, relinquish: bool, r: State)
    requires t in s.leases && r == Release(s, t, relinquish)
    ensures SameModes(s, r)
  {
    ReleaseShape(s, t, relinquish, r);
    if r == Refreshed(s, t) {
      RefreshedShape(s, t);
      RefreshedModes(s, t, r);
    } else if Count(s, s.leases[t].session) <= 1 {
      DetachSentShape(s, r, t, relinquish);
    } else {
      GivenBackModes(s, t, r);
    }
  }

  lemma ContinueReleaseModes(s: State, t: Token)
    requires t in s.leases && s.leases[t].phase.Detaching? && s.leases[t].phase.promise in s.settled
    ensures SameModes(s, ContinueRelease(s, t))
  {
    var s1 := ForgetDetachment(s, s.leases[t].session, s.leases[t].phase.promise);
    if s.settled[s.leases[t].phase.promise].Failed? {
      PhaseModes(s, s1, t, Failing(s.leases[t].phase.relinquish), ContinueRelease(s, t));
    } else {
      GiveBackModes(s, s1, t, s1.cleanup, ContinueRelease(s, t));
    }
  }

  lemma CatchModes(s: State, t: Token)
    requires t in s.leases && s.leases[t].phase.Failing?
    ensures SameModes(s, CatchFailedRelease(s, t))
  {
    var r := CatchFailedRelease(s, t);
    if IsStale(s, t) {
      PhaseModes(s, s, t, Invalidated, r);
    } else if s.leases[t].phase.relinquish {
      GiveBackModes(s, s, t, s.cleanup + {s.leases[t].session}, r);
    } else {
      PhaseModes(s, s, t, Active, r);
    }
  }

  lemma OtherModes(s: State, e: Event)
    requires Enabled(s, e) && !e.BeginAcquire? && !e.ResumeAcquire? && !e.ResumeCreate?
    ensures SameModes(s, Apply(s, e))
  {
    match e
    case BeginRelease(t, relinquish) => ReleaseModes(s, t, relinquish, Apply(s, e));
    case ResumeRelease(t) => ContinueReleaseModes(s, t);
    case CatchRelease(t) => CatchModes(s, t);
    case Disconnect => CutShape(s, Apply(s, e), false);
    case Dispose => CutShape(s, Apply(s, e), true);
    case _ =>
  }

  lemma EventModes(s: State, e: Event)
    requires Names(s) && Enabled(s, e)
    ensures ModesKept(s, Apply(s, e))
  {
    match e
    case BeginAcquire(id, mode) => AcquireModes(s, id, mode);
    case ResumeAcquire(t) => ResumeModes(s, t);
    case ResumeCreate(p) => CreateModes(s, p);
    case _ => OtherModes(s, e); SameModesKept(s, Apply(s, e));
  }

  lemma {:induction false} RunRecorded(s: State, es: seq<Event>)
    requires Inv(s) && Recorded(s) && Runs(s, es) && OrderlyRun(s, es)
    ensures Recorded(After(s, es))
    decreases es
  {
    if es != [] {
      KeepInv(s, es[0]);
      EventModes(s, es[0]);
      RecordedKept(s, Apply(s, es[0]));
      RunRecorded(Apply(s, es[0]), es[1..]);
    }
  }
}
