/** What each segment of the lease protocol does, told by tokens, requests and waiting places. */
module LeaseRules {
  import opened Leases
  import opened LeaseInvariant
  import opened LeaseBooks
  import opened LeaseSteps
  import opened LeaseSafety
  import opened LeaseModes

  // ---------- requests and waiting places ----------

  ghost predicate Quiet(s: State, r: State) {
    r.pending == s.pending && r.settled == s.settled
  }

  /** One request is issued; without a usable link it is rejected on the spot. */
  ghost predicate Requests(s: State, r: State, p: Promise, c: Command) {
    if s.connected && !s.disposed then r.pending == s.pending[p := c] && r.settled == s.settled
    else r.pending == s.pending && r.settled == s.settled[p := Failed]
  }

  /** The token is that of an active lease of the current generation. */
  ghost predicate Leased(s: State, r: State, t: Token, id: SessionId, mode: Mode) {
    && t !in r.acquisitions && t in r.leases && id in r.generations
    && r.leases[t] == Lease(id, mode, r.generations[id], Active)
    && (id in s.generations ==> r.generations[id] == s.generations[id])
    && Quiet(s, r)
  }

  /** The token is gone without having become a lease. */
  ghost predicate GivenUp(s: State, r: State, t: Token) {
    t !in r.acquisitions && t !in r.leases && Quiet(s, r) && r.cleanup == s.cleanup
  }

  ghost predicate WaitsFor(r: State, t: Token, id: SessionId, mode: Mode, wait: Wait) {
    Waits(r, t, id, wait) && r.acquisitions[t].mode == mode
  }

  /** Waiting for the one attach request of the session, which is sent if it is not there. */
  ghost predicate AwaitsAttach(s: State, r: State, t: Token, id: SessionId, mode: Mode, p: Promise) {
    if id in s.attachments then
      Quiet(s, r) && WaitsFor(r, t, id, mode, OnAttachment(s.attachments[id]))
    else
      && Requests(s, r, p, Attach(id)) && WaitsFor(r, t, id, mode, OnAttachment(p))
      && r.attachments == s.attachments[id := p]
  }

  /** Waiting for the one cleanup detach of the session. */
  ghost predicate AwaitsCleanup(s: State, r: State, t: Token, id: SessionId, mode: Mode, p: Promise) {
    if id in s.reconciliations then
      Quiet(s, r) && WaitsFor(r, t, id, mode, OnReconciliation(s.reconciliations[id]))
    else
      && Requests(s, r, p, Detach(id)) && WaitsFor(r, t, id, mode, OnReconciliation(p))
      && r.reconciliations == s.reconciliations[id := p]
  }

  /** A marked session is cleaned first, an attached one leased at once, any other one attached. */
  ghost predicate GoesOn(s: State, r: State, t: Token, id: SessionId, mode: Mode, p: Promise) {
    if id in s.cleanup then AwaitsCleanup(s, r, t, id, mode, p)
    else if id in s.attached then Leased(s, r, t, id, mode)
    else AwaitsAttach(s, r, t, id, mode, p)
  }

  // ---------- the checks ----------

  lemma GrantedIs(s: State, t: Token, id: SessionId, mode: Mode, r: State)
    requires r == Granted(s, t, id, mode)
    ensures Leased(s, r, t, id, mode)
  {}

  lemma JoinIs(s: State, t: Token, id: SessionId, mode: Mode, wait: Wait, epoch: nat, r: State)
    requires r == s.(acquisitions := s.acquisitions[t := Acquisition(id, mode, wait, epoch)])
    ensures Quiet(s, r) && WaitsFor(r, t, id, mode, wait)
  {}

  lemma AttachIs(s: State, t: Token, id: SessionId, mode: Mode, epoch: nat, reconciled: bool, r: State)
    requires reconciled || id !in s.attached
    requires r == Carried(s, t, id, mode, epoch, CheckAttached(s, id, reconciled))
    ensures AwaitsAttach(s, r, t, id, mode, s.next)
  {
    if id in s.attachments {
      JoinIs(s, t, id, mode, OnAttachment(s.attachments[id]), epoch, r);
    } else {
      AttachShape(s, t, id, mode, epoch, Acquisition(id, mode, OnAttachment(s.next), epoch), r);
    }
  }

  lemma CleanupIs(s: State, t: Token, id: SessionId, mode: Mode, epoch: nat, r: State)
    requires id in s.cleanup && r == Carried(s, t, id, mode, epoch, CheckCleanup(s, id))
    ensures AwaitsCleanup(s, r, t, id, mode, s.next)
  {
    if id in s.reconciliations {
      JoinIs(s, t, id, mode, OnReconciliation(s.reconciliations[id]), epoch, r);
    } else {
      CleanupShape(s, t, id, mode, epoch, Acquisition(id, mode, OnReconciliation(s.next), epoch), r);
    }
  }

  lemma GoesOnIs(s: State, t: Token, id: SessionId, mode: Mode, epoch: nat, r: State)
    requires r == Carried(s, t, id, mode, epoch, CheckCleanup(s, id))
    ensures GoesOn(s, r, t, id, mode, s.next)
  {
    if id in s.cleanup {
      CleanupIs(s, t, id, mode, epoch, r);
    } else if id in s.attached {
      GrantedIs(s, t, id, mode, r);
    } else {
      AttachIs(s, t, id, mode, epoch, false, r);
    }
  }

  // ---------- acquiring ----------

  /** Somebody is in the way: any token not yet given back of an exclusive acquisition, an exclusive
      one of a shared acquisition. */
  ghost predicate Taken(s: State, id: SessionId, mode: Mode) {
    match mode
    case Exclusive => Tokens(s, id) != {}
    case Shared => exists t :: t in Tokens(s, id) && ModeOf(s, t) == Exclusive
  }

  lemma ReservableExactly(s: State, id: SessionId, mode: Mode)
    requires Books(s) && Recorded(s)
    ensures CanReserve(s, id, mode) <==> !Taken(s, id, mode)
  {
    assert Count(s, id) == |Tokens(s, id)|;
    if mode == Shared {
      if id in s.exclusive {
        var t := s.exclusive[id];
        assert t in Tokens(s, id) by { assert t in {t}; }
        assert IsOf(s, t, Exclusive);
      } else {
        forall t | t in Tokens(s, id) ensures ModeOf(s, t) != Exclusive { assert OwnerOf(s, t) == Session(id); }
      }
    }
  }

  /** Where the books differ, the checks are the same. */
  ghost predicate BooksApart(s: State, s1: State) {
    s1 == s.(counts := s1.counts, exclusive := s1.exclusive, next := s1.next, creations := s1.creations)
  }

  lemma GoesOnAlike(s: State, s1: State, r: State, t: Token, id: SessionId, mode: Mode, p: Promise)
    requires BooksApart(s, s1) && GoesOn(s1, r, t, id, mode, p)
    ensures GoesOn(s, r, t, id, mode, p)
  {}

  lemma LeasedAlike(s: State, s1: State, r: State, t: Token, id: SessionId, mode: Mode)
    requires BooksApart(s, s1) && Leased(s1, r, t, id, mode)
    ensures Leased(s, r, t, id, mode)
  {}

  /** An acquisition is refused exactly if the client is disposed or somebody is in the way.
      Otherwise it takes the next token, and waits for a detach under way or goes on. */
  lemma AcquireExactly(s: State, id: SessionId, mode: Mode, r: State)
    requires Inv(s) && Recorded(s) && r == Apply(s, BeginAcquire(id, mode))
    ensures
      if s.disposed || Taken(s, id, mode) then r == s
      else if id in s.detachments then
        Quiet(s, r) && WaitsFor(r, s.next, id, mode, OnDetachment(s.detachments[id]))
      else GoesOn(s, r, s.next, id, mode, s.next + 1)
    ensures !s.disposed && !Taken(s, id, mode) ==> Has(r, s.next)
  {
    ReservableExactly(s, id, mode);
    if !s.disposed && !Taken(s, id, mode) { AdmittedIs(s, id, mode, Reserved(s, id, mode), r); }
  }

  lemma AdmittedIs(s: State, id: SessionId, mode: Mode, s1: State, r: State)
    requires s1 == Reserved(s, id, mode)
    requires r == Carried(s1, s.next, id, mode, s.epoch, CheckDetachment(s1, id))
    ensures
      if id in s.detachments then
        Quiet(s, r) && WaitsFor(r, s.next, id, mode, OnDetachment(s.detachments[id]))
      else GoesOn(s, r, s.next, id, mode, s.next + 1)
    ensures Has(r, s.next)
  {
    if id in s.detachments {
      JoinIs(s1, s.next, id, mode, OnDetachment(s.detachments[id]), s.epoch, r);
    } else {
      GoesOnIs(s1, s.next, id, mode, s.epoch, r);
      GoesOnAlike(s, s1, r, s.next, id, mode, s.next + 1);
    }
  }

  /** An acquisition that has waited for a detach goes on, whatever the outcome. */
  lemma AfterDetachExactly(s: State, t: Token, a: Acquisition, r: State)
    requires Enabled(s, ResumeAcquire(t)) && r == Apply(s, ResumeAcquire(t))
    requires a == s.acquisitions[t] && a.wait.OnDetachment?
    ensures GoesOn(s, r, t, a.session, a.mode, s.next)
  {
    assert r == Carried(s, t, a.session, a.mode, a.epoch, CheckCleanup(s, a.session));
    GoesOnIs(s, t, a.session, a.mode, a.epoch, r);
  }

  /** One that has waited for the cleanup attaches, whatever the attached set says, or gives up. */
  lemma AfterCleanupExactly(s: State, t: Token, a: Acquisition, r: State)
    requires Enabled(s, ResumeAcquire(t)) && t !in s.leases && r == Apply(s, ResumeAcquire(t))
    requires a == s.acquisitions[t] && a.wait.OnReconciliation?
    ensures if s.settled[a.wait.promise].Failed? then GivenUp(s, r, t)
            else AwaitsAttach(s, r, t, a.session, a.mode, s.next)
  {
    CleanedIs(s, t, a, a.wait.promise, r);
  }

  /** One that has waited for the attach becomes a lease, or gives up. */
  lemma AfterAttachExactly(s: State, t: Token, a: Acquisition, r: State)
    requires Enabled(s, ResumeAcquire(t)) && t !in s.leases && r == Apply(s, ResumeAcquire(t))
    requires a == s.acquisitions[t] && a.wait.OnAttachment?
    ensures if s.settled[a.wait.promise].Failed? then GivenUp(s, r, t)
            else Leased(s, r, t, a.session, a.mode)
  {
    AttachedIs(s, ForgetAttachment(s, a.session, a.wait.promise), t, a, a.wait.promise, r);
  }

  lemma CleanedIs(s: State, t: Token, a: Acquisition, p: Promise, r: State)
    requires t !in s.leases && p in s.settled
    requires r == if s.settled[p].Failed? then Abandoned(s, t, a.session)
                  else Carried(s, t, a.session, a.mode, a.epoch, CheckAttached(s, a.session, true))
    ensures if s.settled[p].Failed? then GivenUp(s, r, t) else AwaitsAttach(s, r, t, a.session, a.mode, s.next)
  {
    if s.settled[p].Failed? {
      AbandonedIs(s, s, t, a.session, r);
    } else {
      AttachIs(s, t, a.session, a.mode, a.epoch, true, r);
    }
  }

  lemma AttachedIs(s: State, s1: State, t: Token, a: Acquisition, p: Promise, r: State)
    requires t !in s.leases && p in s.settled && s1 == s.(attachments := s1.attachments)
    requires r == if s.settled[p].Failed? then Abandoned(s1, t, a.session) else Granted(s1, t, a.session, a.mode)
    ensures if s.settled[p].Failed? then GivenUp(s, r, t) else Leased(s, r, t, a.session, a.mode)
  {
    if s.settled[p].Failed? {
      AbandonedIs(s, s1, t, a.session, r);
    } else {
      GrantedIs(s1, t, a.session, a.mode, r);
    }
  }

  lemma AbandonedIs(s: State, s1: State, t: Token, id: SessionId, r: State)
    requires t !in s.leases && s1 == s.(attachments := s1.attachments) && r == Abandoned(s1, t, id)
    ensures GivenUp(s, r, t)
  {}

  /** A creation is one request, which goes on once it is answered. */
  lemma BeginCreateExactly(s: State)
    ensures
      var r := Apply(s, BeginCreate);
      Requests(s, r, s.next, Create) && r.creations == s.creations + {s.next} && r.acquisitions == s.acquisitions
  {}

  /** A creation ends in a lease exactly if the server has created a session nobody holds a token
      of, and that lease is exclusive. */
  lemma CreateExactly(s: State, p: Promise, r: State)
    requires Inv(s) && Enabled(s, ResumeCreate(p)) && r == Apply(s, ResumeCreate(p))
    ensures
      if s.settled[p].Created? && Tokens(s, s.settled[p].session) == {}
      then Leased(s, r, s.next, s.settled[p].session, Exclusive)
      else r == s.(creations := s.creations - {p})
  {
    if s.settled[p].Created? { CreateIs(s, s.(creations := s.creations - {p}), s.settled[p].session, r); }
  }

  lemma CreateIs(s: State, s1: State, id: SessionId, r: State)
    requires Accounting(s) && s1 == s.(creations := s1.creations)
    requires r == if CanReserve(s1, id, Exclusive) then Granted(Reserved(s1, id, Exclusive), s.next, id, Exclusive)
                  else s1
    ensures if Tokens(s, id) == {} then Leased(s, r, s.next, id, Exclusive) else r == s1
  {
    assert Count(s, id) == |Tokens(s, id)|;
    if Tokens(s, id) == {} { CreatedIs(s, s1, Reserved(s1, id, Exclusive), id, r); }
  }

  lemma CreatedIs(s: State, s1: State, s2: State, id: SessionId, r: State)
    requires s1 == s.(creations := s1.creations) && s2 == Reserved(s1, id, Exclusive)
    requires r == Granted(s2, s.next, id, Exclusive)
    ensures Leased(s, r, s.next, id, Exclusive)
  {
    GrantedIs(s2, s.next, id, Exclusive, r);
    LeasedAlike(s, s2, r, s.next, id, Exclusive);
  }

  // ---------- releasing ----------

  lemma PhaseIs(s: State, t: Token, phase: Phase, r: State)
    requires t in s.leases && r == SetPhase(s, t, phase)
    ensures t in r.leases && r.leases[t] == s.leases[t].(phase := phase) && Quiet(s, r)
    ensures r.cleanup == s.cleanup && r.detachments == s.detachments
  {}

  lemma ForgottenIs(s: State, id: SessionId, p: Promise)
    ensures
      var table := ForgetDetachment(s, id, p).detachments;
      id in table ==> table[id] != p
  {}

  lemma GivenBackIs(s: State, s1: State, t: Token, r: State)
    requires t in s.leases && s1 == s.(detachments := s1.detachments, cleanup := s1.cleanup)
    requires r == SetPhase(Unreserved(s1, s.leases[t].session, t).(cleanup := s1.cleanup), t, Released)
    ensures t in r.leases && r.leases[t].phase == Released && Quiet(s, r)
    ensures r.cleanup == s1.cleanup && r.detachments == s1.detachments
  {
    PhaseIs(Unreserved(s1, s.leases[t].session, t).(cleanup := s1.cleanup), t, Released, r);
  }

  /** An acknowledged detach ends the lease, and a failed one is handled next. */
  lemma DetachEndExactly(s: State, t: Token, r: State)
    requires Enabled(s, ResumeRelease(t)) && r == Apply(s, ResumeRelease(t))
    ensures t in r.leases && Quiet(s, r) && r.cleanup == s.cleanup
    ensures s.leases[t].session in r.detachments ==>
              r.detachments[s.leases[t].session] != s.leases[t].phase.promise
    ensures r.leases[t].phase == if s.settled[s.leases[t].phase.promise].Failed?
                                 then Failing(s.leases[t].phase.relinquish) else Released
  {
    var s1 := ForgetDetachment(s, s.leases[t].session, s.leases[t].phase.promise);
    ForgottenIs(s, s.leases[t].session, s.leases[t].phase.promise);
    if s.settled[s.leases[t].phase.promise].Failed? {
      PhaseIs(s1, t, Failing(s.leases[t].phase.relinquish), r);
    } else {
      UnreserveKeeps(s1, s.leases[t].session, t);
      GivenBackIs(s, s1, t, r);
    }
  }

  /** A failed dispose gives the lease up and marks the session for cleanup, a failed detach makes
      the lease active again, and a lease that has gone stale meanwhile stays so. */
  lemma CatchExactly(s: State, t: Token, l: Lease, r: State)
    requires Enabled(s, CatchRelease(t)) && Generations(s) && l == s.leases[t] && r == Apply(s, CatchRelease(t))
    ensures t in r.leases && Quiet(s, r)
    ensures s.generations[l.session] != l.generation ==> r == s.(leases := s.leases[t := l.(phase := Invalidated)])
    ensures s.generations[l.session] == l.generation && !l.phase.relinquish ==>
              r == s.(leases := s.leases[t := l.(phase := Active)])
    ensures s.generations[l.session] == l.generation && l.phase.relinquish ==>
              r.leases[t].phase == Released && r.cleanup == s.cleanup + {l.session}
  {
    if IsStale(s, t) {
      PhaseIs(s, t, Invalidated, r);
    } else if l.phase.relinquish {
      MarkedIs(s, s.(cleanup := s.cleanup + {l.session}), t, r);
    } else {
      PhaseIs(s, t, Active, r);
    }
  }

  lemma MarkedIs(s: State, s1: State, t: Token, r: State)
    requires t in s.leases && s1 == s.(cleanup := s1.cleanup)
    requires r == SetPhase(Unreserved(s, s.leases[t].session, t).(cleanup := s1.cleanup), t, Released)
    ensures t in r.leases && r.leases[t].phase == Released && Quiet(s, r) && r.cleanup == s1.cleanup
  {
    PhaseIs(Unreserved(s, s.leases[t].session, t).(cleanup := s1.cleanup), t, Released, r);
  }

  /** The mark of a session is taken off exactly by an acknowledged cleanup detach. */
  lemma ReconcileExactly(s: State, id: SessionId)
    requires Enabled(s, ResumeReconcile(id))
    ensures
      var r := Apply(s, ResumeReconcile(id));
      && Quiet(s, r) && id !in r.reconciliations
      && r.cleanup == if s.settled[s.reconciliations[id]].Failed? then s.cleanup else s.cleanup - {id}
  {}

  // ---------- answers and the link ----------

  /** Only acknowledged attaches and detaches and created sessions change which are attached. */
  lemma AnsweredExactly(s: State, p: Promise, outcome: Outcome, flag: bool)
    requires Enabled(s, Respond(p, outcome, flag))
    ensures
      var r, c := Apply(s, Respond(p, outcome, flag)), s.pending[p];
      && p !in r.pending && p in r.settled && r.settled[p] == outcome
      && (forall q | q in s.pending && q != p :: q in r.pending && r.pending[q] == s.pending[q])
      && (outcome.Failed? ==> r.attached == s.attached)
      && (outcome.Created? && flag ==> r.attached == s.attached + {outcome.session})
      && (outcome.Created? && !flag ==> r.attached == s.attached - {outcome.session})
      && (outcome.Acked? && c.Detach? ==> r.attached == s.attached - {c.session})
      && (outcome.Acked? && c.Attach? && flag ==> r.attached == s.attached + {c.session})
      && (outcome.Acked? && c.Attach? && !flag ==> r.attached == s.attached - {c.session})
      && (outcome.Acked? && c.Other? ==> r.attached == s.attached)
  {}

  /** A snapshot says whether its session is attached, a connection starts with none attached, and
      neither touches the books. */
  lemma AttachedExactly(s: State, id: SessionId, flag: bool)
    ensures
      Enabled(s, Snapshot(id, flag)) ==>
        var r := Apply(s, Snapshot(id, flag));
        (id in r.attached <==> flag) && r.attached - {id} == s.attached - {id} && r == s.(attached := r.attached)
    ensures
      Enabled(s, Connect) ==>
        var r := Apply(s, Connect);
        r.connected && r.attached == {} && r == s.(attached := {}, connected := true)
  {}

  /** A removal empties what was counted, recorded, marked and attached of its session, whose next
      generation begins, and touches no other session. */
  lemma RemovedExactly(s: State, id: SessionId)
    requires Enabled(s, SessionRemoved(id))
    ensures
      var r := Apply(s, SessionRemoved(id));
      && r.counts == s.counts - {id} && r.exclusive == s.exclusive - {id} && r.cleanup == s.cleanup - {id}
      && r.attached == s.attached - {id} && Quiet(s, r)
      && r.generations.Keys == s.generations.Keys + {id}
      && r.generations[id] == (if id in s.generations then s.generations[id] else 0) + 1
      && (forall k | k in s.generations && k != id :: r.generations[k] == s.generations[k])
  {}

  /** A disconnect rejects every pending request and nothing else, and empties what was attached,
      counted and marked. */
  lemma CutExactly(s: State, e: Event)
    requires Enabled(s, e) && (e == Disconnect || e == Dispose)
    ensures
      var r := Apply(s, e);
      && r.pending == map[] && r.attached == {} && r.counts == map[] && r.cleanup == {} && !r.connected
      && (forall p | p in s.pending :: p in r.settled && r.settled[p] == Failed)
      && (forall p | p in s.settled && p !in s.pending :: p in r.settled && r.settled[p] == s.settled[p])
      && (r.disposed <==> e == Dispose || s.disposed)
  {}

  /** Over whole runs: an exclusive acquisition gets a token exactly if its session has none left, a
      shared one exactly if it has no exclusive one, and neither once the client is disposed. */
  lemma AdmittedExactly(es: seq<Event>, id: SessionId, mode: Mode)
    requires Runs(Init, es) && OrderlyRun(Init, es)
    ensures
      var s := After(Init, es);
      Has(Apply(s, BeginAcquire(id, mode)), s.next) <==> !s.disposed && !Taken(s, id, mode)
  {
    Reached(es);
    AdmittedIn(After(Init, es), id, mode, Apply(After(Init, es), BeginAcquire(id, mode)));
  }

  lemma Reached(es: seq<Event>)
    requires Runs(Init, es) && OrderlyRun(Init, es)
    ensures Inv(After(Init, es)) && Recorded(After(Init, es))
  {
    InitInv();
    RunKeepsInv(Init, es);
    RunRecorded(Init, es);
  }

  lemma AdmittedIn(s: State, id: SessionId, mode: Mode, r: State)
    requires Inv(s) && Recorded(s) && r == Apply(s, BeginAcquire(id, mode))
    ensures Has(r, s.next) <==> !s.disposed && !Taken(s, id, mode)
  {
    AcquireExactly(s, id, mode, r);
    NextUnused(s);
  }

  lemma NextUnused(s: State)
    requires Names(s)
    ensures !Has(s, s.next)
  {}
}
