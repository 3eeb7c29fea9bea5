/** Detach discipline, reconciliation after a failed dispose, and permanent invalidation. */
module LeaseDiscipline {
  import opened Leases
  import opened LeaseInvariant
  import opened LeaseWire
  import opened LeaseBooks
  import opened LeaseSteps
  import opened LeaseSafety

  // ---------- who sends a detach ----------

  lemma LoneToken(s: State, t: Token, id: SessionId)
    requires Accounting(s) && OwnerOf(s, t) == Session(id)
    ensures t in Tokens(s, id)
    ensures Count(s, id) <= 1 <==> Tokens(s, id) == {t}
  {
    assert t in Tokens(s, id);
    assert Count(s, id) == |Tokens(s, id)|;
    if Count(s, id) <= 1 {
      assert |Tokens(s, id) - {t}| == 0;
      assert Tokens(s, id) - {t} == {};
    }
  }

  /** Releasing an active lease sends a detach exactly if its token is the only unreleased one;
      otherwise nothing is sent and the other tokens stay. */
  lemma DetachOnlyByTheLast(s: State, t: Token, relinquish: bool)
    requires Inv(s) && t in s.leases && IsActive(s, t) && s.connected && !s.disposed
    ensures
      var id := s.leases[t].session;
      var r := Release(s, t, relinquish);
      if Tokens(s, id) == {t}
      then r.pending == s.pending[s.next := Detach(id)] && r.leases[t].phase == Detaching(s.next, relinquish)
           && Tokens(r, id) == {t}
      else r.pending == s.pending && r.leases[t].phase == Released
           && Tokens(r, id) == Tokens(s, id) - {t} && Tokens(r, id) != {}
  {
    var id := s.leases[t].session;
    LoneToken(s, t, id);
    RefreshedShape(s, t);
    if Tokens(s, id) == {t} {
      DetachSentAlone(s, Release(s, t, relinquish), t, relinquish);
    } else {
      GivenBackTokens(s, Release(s, t, relinquish), t);
    }
  }

  lemma DetachSentAlone(s: State, r: State, t: Token, relinquish: bool)
    requires Names(s) && t in s.leases && s.leases[t].phase.Active? && s.connected && !s.disposed
    requires r == DetachSent(s, t, relinquish)
    ensures r.pending == s.pending[s.next := Detach(s.leases[t].session)]
    ensures r.leases[t].phase == Detaching(s.next, relinquish)
    ensures Tokens(r, s.leases[t].session) == Tokens(s, s.leases[t].session)
  {
    DetachSentShape(s, r, t, relinquish);
    forall u ensures u in Tokens(r, s.leases[t].session) <==> u in Tokens(s, s.leases[t].session) {
      assert OwnerOf(r, u) == OwnerOf(s, u);
    }
  }

  lemma GivenBackTokens(s: State, r: State, t: Token)
    requires Names(s) && t in s.leases && OwnerOf(s, t) == Session(s.leases[t].session)
    requires r == SetPhase(Unreserved(s, s.leases[t].session, t), t, Released)
    ensures r.pending == s.pending && r.leases[t].phase == Released
    ensures Tokens(r, s.leases[t].session) == Tokens(s, s.leases[t].session) - {t}
  {
    var id := s.leases[t].session;
    forall u ensures u in Tokens(r, id) <==> u in Tokens(s, id) - {t} {
      assert u != t ==> OwnerOf(r, u) == OwnerOf(s, u);
    }
  }

  // ---------- how leases evolve ----------

  /** Leases are never lost or renamed, a finished one stays finished, generations only grow, and
      new leases are of the sessions in `gained` only. */
  ghost predicate Evolves(s: State, r: State, gained: set<SessionId>) {
    && (forall u | u in s.leases ::
          && u in r.leases && r.leases[u].session == s.leases[u].session
          && r.leases[u].mode == s.leases[u].mode && r.leases[u].generation == s.leases[u].generation
          && (Holding(r.leases[u].phase) ==> Holding(s.leases[u].phase)))
    && (forall id | id in s.generations :: id in r.generations && r.generations[id] >= s.generations[id])
    && (forall u | u in r.leases && u !in s.leases :: r.leases[u].session in gained)
  }

  /** The sessions an event may give a new lease of. */
  function Gained(s: State, e: Event): set<SessionId> {
    match e
    case BeginAcquire(id, _) => if id in s.detachments then {} else {id}
    case ResumeAcquire(t) => if t in s.acquisitions then {s.acquisitions[t].session} else {}
    case ResumeCreate(p) =>
      if p in s.settled && s.settled[p].Created? && Count(s, s.settled[p].session) == 0
      then {s.settled[p].session} else {}
    case _ => {}
  }

  lemma CarriedEvolves(s: State, s1: State, t: Token, i: SessionId, mode: Mode, epoch: nat, d: Decision, r: State)
    requires Decided(s1, d) && s1.leases == s.leases && s1.generations == s.generations && t !in s.leases
    requires r == Carried(s1, t, i, mode, epoch, d)
    ensures Evolves(s, r, if d.Grant? then {i} else {})
  {}

  lemma AcquireEvolves(s: State, i: SessionId, mode: Mode)
    requires Names(s)
    ensures Evolves(s, Acquire(s, i, mode), Gained(s, BeginAcquire(i, mode)))
  {
    if !s.disposed && CanReserve(s, i, mode) {
      var s1 := Reserved(s, i, mode);
      DetachmentDecides(s1, i);
      CarriedEvolves(s, s1, s.next, i, mode, s.epoch, CheckDetachment(s1, i), Acquire(s, i, mode));
    }
  }

  lemma ResumeEvolves(s: State, t: Token)
    requires Names(s) && CanResume(s, t)
    ensures Evolves(s, ContinueAcquire(s, t), {s.acquisitions[t].session})
  {
    var a := s.acquisitions[t];
    match a.wait
    case OnDetachment(_) => ResumeCheckEvolves(s, t, a, ContinueAcquire(s, t));
    case OnReconciliation(p) =>
      if s.settled[p].Failed? {
        LeaveEvolves(s, s, t, a, ContinueAcquire(s, t));
      } else {
        ResumeAttachEvolves(s, t, a, ContinueAcquire(s, t));
      }
    case OnAttachment(p) =>
      LeaveEvolves(s, ForgetAttachment(s, a.session, p), t, a, ContinueAcquire(s, t));
  }

  lemma ResumeCheckEvolves(s: State, t: Token, a: Acquisition, r: State)
    requires t !in s.leases && r == Carried(s, t, a.session, a.mode, a.epoch, CheckCleanup(s, a.session))
    ensures Evolves(s, r, {a.session})
  {
    CheckDecides(s, a.session);
    CarriedEvolves(s, s, t, a.session, a.mode, a.epoch, CheckCleanup(s, a.session), r);
  }

  lemma ResumeAttachEvolves(s: State, t: Token, a: Acquisition, r: State)
    requires t !in s.leases && r == Carried(s, t, a.session, a.mode, a.epoch, CheckAttached(s, a.session, true))
    ensures Evolves(s, r, {a.session})
  {
    AttachDecides(s, a.session, true);
    CarriedEvolves(s, s, t, a.session, a.mode, a.epoch, CheckAttached(s, a.session, true), r);
  }

  lemma LeaveEvolves(s: State, s1: State, t: Token, a: Acquisition, r: State)
    requires s1.leases == s.leases && s1.generations == s.generations && t !in s.leases
    requires r == Abandoned(s1, t, a.session) || r == Granted(s1, t, a.session, a.mode)
    ensures Evolves(s, r, {a.session})
  {}

  lemma CreateEvolves(s: State, p: Promise)
    requires Names(s) && p in s.settled
    ensures Evolves(s, ContinueCreate(s, p), Gained(s, ResumeCreate(p)))
  {
    var s1 := s.(creations := s.creations - {p});
    if s.settled[p].Created? && CanReserve(s1, s.settled[p].session, Exclusive) {
      CreatedEvolves(s, s1, s.settled[p].session, ContinueCreate(s, p));
    }
  }

  lemma CreatedEvolves(s: State, s1: State, i: SessionId, r: State)
    requires s1.leases == s.leases && s1.generations == s.generations && s1.next !in s.leases
    requires r == Granted(Reserved(s1, i, Exclusive), s1.next, i, Exclusive)
    ensures Evolves(s, r, {i})
  {}

  lemma PhaseEvolves(s: State, s1: State, t: Token, phase: Phase, r: State)
    requires t in s.leases && (Holding(phase) ==> Holding(s.leases[t].phase))
    requires s1.leases == s.leases && s1.generations == s.generations && r == SetPhase(s1, t, phase)
    ensures Evolves(s, r, {})
  {}

  lemma GiveBackEvolves(s: State, s1: State, t: Token, cleanup: set<SessionId>, r: State)
    requires t in s.leases && s1.leases == s.leases && s1.generations == s.generations
    requires r == SetPhase(Unreserved(s1, s.leases[t].session, t).(cleanup := cleanup), t, Released)
    ensures Evolves(s, r, {})
  {
    var m := Unreserved(s1, s.leases[t].session, t).(cleanup := cleanup);
    assert m.leases == s.leases;
    PhaseEvolves(s, m, t, Released, r);
  }

  lemma ReleaseEvolves(s: State, t: Token, relinquish: bool)
    requires t in s.leases
    ensures Evolves(s, Release(s, t, relinquish), {})
  {
    var r := Release(s, t, relinquish);
    ReleaseShape(s, t, relinquish, r);
    RefreshedShape(s, t);
    if r == Refreshed(s, t) {
      if r != s { PhaseEvolves(s, s, t, Invalidated, r); }
    } else if r == DetachSent(s, t, relinquish) {
      DetachSentShape(s, r, t, relinquish);
    } else {
      UnreserveKeeps(s, s.leases[t].session, t);
      GiveBackEvolves(s, s, t, s.cleanup, r);
    }
  }

  lemma CatchEvolves(s: State, t: Token)
    requires t in s.leases && s.leases[t].phase.Failing?
    ensures Evolves(s, CatchFailedRelease(s, t), {})
  {
    var r := CatchFailedRelease(s, t);
    if IsStale(s, t) {
      PhaseEvolves(s, s, t, Invalidated, r);
    } else if s.leases[t].phase.relinquish {
      GiveBackEvolves(s, s, t, s.cleanup + {s.leases[t].session}, r);
    } else {
      PhaseEvolves(s, s, t, Active, r);
    }
  }

  lemma ContinueReleaseEvolves(s: State, t: Token)
    requires t in s.leases && s.leases[t].phase.Detaching? && s.leases[t].phase.promise in s.settled
    ensures Evolves(s, ContinueRelease(s, t), {})
  {
    var s1 := ForgetDetachment(s, s.leases[t].session, s.leases[t].phase.promise);
    if s.settled[s.leases[t].phase.promise].Failed? {
      PhaseEvolves(s, s1, t, Failing(s.leases[t].phase.relinquish), ContinueRelease(s, t));
    } else {
      UnreserveKeeps(s1, s.leases[t].session, t);
      GiveBackEvolves(s, s1, t, s1.cleanup, ContinueRelease(s, t));
    }
  }

  lemma CutEvolves(s: State, r: State, disposed: bool)
    requires r == Cut(s).(disposed := disposed)
    ensures Evolves(s, r, {})
  {
    CutShape(s, r, disposed);
  }

  lemma EventEvolves(s: State, e: Event)
    requires Names(s) && Enabled(s, e)
    ensures Evolves(s, Apply(s, e), Gained(s, e))
  {
    match e
    case BeginAcquire(i, mode) => AcquireEvolves(s, i, mode);
    case ResumeAcquire(u) => ResumeEvolves(s, u);
    case ResumeCreate(p) => CreateEvolves(s, p);
    case _ => NoneGained(s, e);
  }

  lemma NoneGained(s: State, e: Event)
    requires Enabled(s, e) && !e.BeginAcquire? && !e.ResumeAcquire? && !e.ResumeCreate?
    ensures Evolves(s, Apply(s, e), {})
  {
    match e
    case BeginRelease(u, relinquish) => ReleaseEvolves(s, u, relinquish);
    case ResumeRelease(u) => ContinueReleaseEvolves(s, u);
    case CatchRelease(u) => CatchEvolves(s, u);
    case Disconnect => CutEvolves(s, Apply(s, e), false);
    case Dispose => CutEvolves(s, Apply(s, e), true);
    case _ =>
  }

  // ---------- nobody gets in while a detach is out ----------

  lemma DetachHolds(s: State, t: Token)
    requires Accounting(s) && Names(s) && Detaches(s)
    requires t in s.leases && s.leases[t].phase.Detaching? && s.leases[t].phase.promise in s.pending
    ensures s.leases[t].session in s.detachments && Count(s, s.leases[t].session) > 0
    ensures forall u | CanResume(s, u) :: s.acquisitions[u].session != s.leases[t].session
  {
    assert DetachAlone(s, t);
    assert OwnerOf(s, t) == Session(s.leases[t].session);
    CountHolds(s, t, s.leases[t].session);
  }

  /** While a lease waits for the answer to its detach, its session gets no new lease. */
  lemma NoGrantDuringDetach(s: State, e: Event, t: Token)
    requires Inv(s) && Enabled(s, e)
    requires t in s.leases && s.leases[t].phase.Detaching? && s.leases[t].phase.promise in s.pending
    ensures forall u | u in Apply(s, e).leases && Apply(s, e).leases[u].session == s.leases[t].session :: u in s.leases
  {
    DetachHolds(s, t);
    EventEvolves(s, e);
    assert s.leases[t].session !in Gained(s, e);
  }

  // ---------- permanent invalidation ----------

  /** A lease that can never be active again. */
  ghost predicate Dead(s: State, t: Token) {
    t in s.leases && (IsStale(s, t) || !Holding(s.leases[t].phase))
  }

  lemma DeadStaysDead(s: State, e: Event, t: Token)
    requires Names(s) && Generations(s) && Enabled(s, e) && Dead(s, t)
    ensures Dead(Apply(s, e), t)
  {
    EventEvolves(s, e);
  }

  /** A lease handed out before a disconnect or a removal of its session is dead after it. */
  lemma CutKills(s: State, e: Event, t: Token)
    requires Inv(s) && Enabled(s, e) && t in s.leases
    requires e == Disconnect || e == Dispose || e == SessionRemoved(s.leases[t].session)
    ensures Dead(Apply(s, e), t)
  {
    var r := Apply(s, e);
    match e
    case SessionRemoved(id) =>
    case Disconnect => CutShape(s, r, false); CutStale(s, r); assert OwnerOf(r, t) == Nobody;
    case Dispose => CutShape(s, r, true); CutStale(s, r); assert OwnerOf(r, t) == Nobody;
  }

  /** No later run, reconnects and new leases of the same session included, revives it. */
  lemma {:induction false} NeverActiveAgain(s: State, es: seq<Event>, t: Token)
    requires Inv(s) && Runs(s, es) && OrderlyRun(s, es) && Dead(s, t)
    ensures Dead(After(s, es), t) && !IsActive(After(s, es), t)
    decreases es
  {
    if es != [] {
      KeepInv(s, es[0]);
      DeadStaysDead(s, es[0], t);
      NeverActiveAgain(Apply(s, es[0]), es[1..], t);
    }
  }

  ghost predicate Silent(s: State, r: State) {
    r.pending == s.pending && r.counts == s.counts && r.exclusive == s.exclusive && r.cleanup == s.cleanup
  }

  lemma PhaseSilent(s: State, t: Token, phase: Phase)
    requires t in s.leases
    ensures Silent(s, SetPhase(s, t, phase))
  {}

  lemma DeadBegin(s: State, t: Token, relinquish: bool, r: State)
    requires Dead(s, t) && r == Release(s, t, relinquish)
    ensures Silent(s, r)
  {
    ReleaseShape(s, t, relinquish, r);
    RefreshedShape(s, t);
    PhaseSilent(s, t, Invalidated);
  }

  /** The detach of a dead lease has failed, or nothing counts for its session any more: either way
      its continuation takes nobody's token. */
  lemma DeadResume(s: State, t: Token, r: State)
    requires Detaches(s) && Dead(s, t) && Enabled(s, ResumeRelease(t)) && r == ContinueRelease(s, t)
    ensures Silent(s, r)
  {
    assert DetachAlone(s, t);
    PhaseSilent(ForgetDetachment(s, s.leases[t].session, s.leases[t].phase.promise), t,
                Failing(s.leases[t].phase.relinquish));
  }

  lemma DeadCatch(s: State, t: Token, r: State)
    requires Dead(s, t) && Enabled(s, CatchRelease(t)) && r == CatchFailedRelease(s, t)
    ensures Silent(s, r)
  {
    PhaseSilent(s, t, Invalidated);
  }

  /** Every step of releasing a dead lease sends nothing and leaves all counts and tokens alone. */
  lemma DeadReleaseIsSilent(s: State, e: Event, t: Token)
    requires Inv(s) && Enabled(s, e) && Dead(s, t)
    requires e.BeginRelease? || e.ResumeRelease? || e.CatchRelease?
    requires e.token == t
    ensures Silent(s, Apply(s, e))
  {
    var r := Apply(s, e);
    match e
    case BeginRelease(_, relinquish) => DeadBegin(s, t, relinquish, r);
    case ResumeRelease(_) => DeadResume(s, t, r);
    case CatchRelease(_) => DeadCatch(s, t, r);
  }
}
