/** Two runs from the start, all events orderly, in which an active lease is left without a snapshot
    after a dispose has failed.  In the first the cleanup detach goes out under the lease, and the
    acquisition behind that detach attaches the session again.  In the second a lease becomes active
    while such an attach is under way. */
module LeaseCacheHazards {
  import L = Leases
  import C = SessionCache
  import opened LeaseSegments
  import opened LeaseCache
  import opened LeaseSight
  import opened LeaseCacheRuns

  const Id: SessionId := "s"

  const Mine := C.Snapshot(Id, 0, true, "")
  const Away := Mine.(attached := false)

  const ToLeased := [
    Connect,
    Segment(L.BeginAcquire(Id, L.Shared)),
    Answer(1, L.Acked, SessionBody(Mine)),
    Segment(L.ResumeAcquire(0))]

  /** The dispose of the lease has been refused. */
  const ToRefused := ToLeased + [
    Segment(L.BeginRelease(0, true)),
    Answer(2, L.Failed, Nothing)]

  const Loss := ToRefused + [
    Message(Away),
    Segment(L.ResumeRelease(0)),
    Segment(L.BeginAcquire(Id, L.Shared)),
    Segment(L.CatchRelease(0)),
    Answer(4, L.Acked, SessionBody(Mine)),
    Segment(L.ResumeAcquire(3)),
    Segment(L.BeginAcquire(Id, L.Shared)),
    Answer(6, L.Acked, DetachBody(Id)),
    Message(Mine),
    Segment(L.ResumeReconcile(Id)),
    Segment(L.ResumeAcquire(5))]

  const Exposure := ToRefused + [
    Segment(L.ResumeRelease(0)),
    Segment(L.CatchRelease(0)),
    Segment(L.BeginAcquire(Id, L.Shared)),
    Answer(4, L.Acked, DetachBody(Id)),
    Message(Mine),
    Segment(L.ResumeReconcile(Id)),
    Segment(L.ResumeAcquire(3)),
    Segment(L.BeginAcquire(Id, L.Shared))]

  // ---------- the states of the runs ----------

  const K0 := C.Init
  const K1 := K0.(attempts := map[Id := C.None])
  const K2 := K0.(snapshots := map[Id := Mine], attached := {Id})
  const K3 := K0.(snapshots := map[Id := Away])
  const K4 := K0.(attempts := map[Id := C.Some(Away)])
  const K5 := K3.(detached := {Id})
  const K6 := K2.(detached := {Id})
  const K7 := K0.(attached := {Id}, attempts := map[Id := C.Some(Mine)])

  /** Lease tables of the first link: connected, nothing exclusive, one generation. */
  function Tables(next: nat := 0, counts: map<SessionId, nat> := map[], attached: set<SessionId> := {},
                  cleanup: set<SessionId> := {}, attachments: map<SessionId, L.Promise> := map[],
                  detachments: map<SessionId, L.Promise> := map[], reconciliations: map<SessionId, L.Promise> := map[],
                  pending: map<L.Promise, L.Command> := map[], settled: map<L.Promise, L.Outcome> := map[],
                  acquisitions: map<L.Token, L.Acquisition> := map[], leases: map<L.Token, L.Lease> := map[]): L.State
  {
    L.State(counts, map[], if leases == map[] then map[] else map[Id := 0], attachments, detachments, cleanup,
            reconciliations, pending, settled, attached, true, false, 0, next, acquisitions, {}, leases)
  }

  function Waiting(wait: L.Wait): L.Acquisition { L.Acquisition(Id, L.Shared, wait, 0) }

  function Leasehold(phase: L.Phase): L.Lease { L.Lease(Id, L.Shared, 0, phase) }

  const Online := Tables()
  const Asked := Tables(
    next := 2, counts := map[Id := 1], attachments := map[Id := 1], pending := map[1 := L.Attach(Id)],
    acquisitions := map[0 := Waiting(L.OnAttachment(1))])
  const Replied := Tables(
    next := 2, counts := map[Id := 1], attached := {Id}, attachments := map[Id := 1],
    settled := map[1 := L.Acked], acquisitions := map[0 := Waiting(L.OnAttachment(1))])
  const Held := Tables(
    next := 2, counts := map[Id := 1], attached := {Id}, settled := map[1 := L.Acked],
    leases := map[0 := Leasehold(L.Active)])
  const Closing := Tables(
    next := 3, counts := map[Id := 1], attached := {Id}, detachments := map[Id := 2],
    pending := map[2 := L.Detach(Id)], settled := map[1 := L.Acked],
    leases := map[0 := Leasehold(L.Detaching(2, true))])
  const Refused := Tables(
    next := 3, counts := map[Id := 1], attached := {Id}, detachments := map[Id := 2],
    settled := map[1 := L.Acked, 2 := L.Failed], leases := map[0 := Leasehold(L.Detaching(2, true))])
  const Away1 := Tables(
    next := 3, counts := map[Id := 1], detachments := map[Id := 2], settled := map[1 := L.Acked, 2 := L.Failed],
    leases := map[0 := Leasehold(L.Detaching(2, true))])
  const Away2 := Tables(
    next := 3, counts := map[Id := 1], settled := map[1 := L.Acked, 2 := L.Failed],
    leases := map[0 := Leasehold(L.Failing(true))])
  const Away3 := Tables(
    next := 5, counts := map[Id := 2], attachments := map[Id := 4], pending := map[4 := L.Attach(Id)],
    settled := map[1 := L.Acked, 2 := L.Failed], acquisitions := map[3 := Waiting(L.OnAttachment(4))],
    leases := map[0 := Leasehold(L.Failing(true))])
  const Marked := Tables(
    next := 5, counts := map[Id := 1], cleanup := {Id}, attachments := map[Id := 4],
    pending := map[4 := L.Attach(Id)], settled := map[1 := L.Acked, 2 := L.Failed],
    acquisitions := map[3 := Waiting(L.OnAttachment(4))], leases := map[0 := Leasehold(L.Released)])
  const Marked1 := Tables(
    next := 5, counts := map[Id := 1], attached := {Id}, cleanup := {Id}, attachments := map[Id := 4],
    settled := map[1 := L.Acked, 2 := L.Failed, 4 := L.Acked], acquisitions := map[3 := Waiting(L.OnAttachment(4))],
    leases := map[0 := Leasehold(L.Released)])
  const Marked2 := Tables(
    next := 5, counts := map[Id := 1], attached := {Id}, cleanup := {Id},
    settled := map[1 := L.Acked, 2 := L.Failed, 4 := L.Acked],
    leases := map[0 := Leasehold(L.Released), 3 := Leasehold(L.Active)])
  const Underneath := Tables(
    next := 7, counts := map[Id := 2], attached := {Id}, cleanup := {Id}, reconciliations := map[Id := 6],
    pending := map[6 := L.Detach(Id)], settled := map[1 := L.Acked, 2 := L.Failed, 4 := L.Acked],
    acquisitions := map[5 := Waiting(L.OnReconciliation(6))],
    leases := map[0 := Leasehold(L.Released), 3 := Leasehold(L.Active)])
  const Cleaned1 := Tables(
    next := 7, counts := map[Id := 2], cleanup := {Id}, reconciliations := map[Id := 6],
    settled := map[1 := L.Acked, 2 := L.Failed, 4 := L.Acked, 6 := L.Acked],
    acquisitions := map[5 := Waiting(L.OnReconciliation(6))],
    leases := map[0 := Leasehold(L.Released), 3 := Leasehold(L.Active)])
  const Cleaned2 := Tables(
    next := 7, counts := map[Id := 2], attached := {Id}, cleanup := {Id}, reconciliations := map[Id := 6],
    settled := map[1 := L.Acked, 2 := L.Failed, 4 := L.Acked, 6 := L.Acked],
    acquisitions := map[5 := Waiting(L.OnReconciliation(6))],
    leases := map[0 := Leasehold(L.Released), 3 := Leasehold(L.Active)])
  const Cleaned3 := Tables(
    next := 7, counts := map[Id := 2], attached := {Id},
    settled := map[1 := L.Acked, 2 := L.Failed, 4 := L.Acked, 6 := L.Acked],
    acquisitions := map[5 := Waiting(L.OnReconciliation(6))],
    leases := map[0 := Leasehold(L.Released), 3 := Leasehold(L.Active)])
  const Lost := Tables(
    next := 8, counts := map[Id := 2], attached := {Id}, attachments := map[Id := 7],
    pending := map[7 := L.Attach(Id)], settled := map[1 := L.Acked, 2 := L.Failed, 4 := L.Acked, 6 := L.Acked],
    acquisitions := map[5 := Waiting(L.OnAttachment(7))],
    leases := map[0 := Leasehold(L.Released), 3 := Leasehold(L.Active)])

  const Given1 := Tables(
    next := 3, counts := map[Id := 1], attached := {Id}, settled := map[1 := L.Acked, 2 := L.Failed],
    leases := map[0 := Leasehold(L.Failing(true))])
  const Given2 := Tables(
    next := 3, attached := {Id}, cleanup := {Id}, settled := map[1 := L.Acked, 2 := L.Failed],
    leases := map[0 := Leasehold(L.Released)])
  const Given3 := Tables(
    next := 5, counts := map[Id := 1], attached := {Id}, cleanup := {Id}, reconciliations := map[Id := 4],
    pending := map[4 := L.Detach(Id)], settled := map[1 := L.Acked, 2 := L.Failed],
    acquisitions := map[3 := Waiting(L.OnReconciliation(4))], leases := map[0 := Leasehold(L.Released)])
  const Again1 := Tables(
    next := 5, counts := map[Id := 1], cleanup := {Id}, reconciliations := map[Id := 4],
    settled := map[1 := L.Acked, 2 := L.Failed, 4 := L.Acked],
    acquisitions := map[3 := Waiting(L.OnReconciliation(4))], leases := map[0 := Leasehold(L.Released)])
  const Again2 := Tables(
    next := 5, counts := map[Id := 1], attached := {Id}, cleanup := {Id}, reconciliations := map[Id := 4],
    settled := map[1 := L.Acked, 2 := L.Failed, 4 := L.Acked],
    acquisitions := map[3 := Waiting(L.OnReconciliation(4))], leases := map[0 := Leasehold(L.Released)])
  const Again3 := Tables(
    next := 5, counts := map[Id := 1], attached := {Id},
    settled := map[1 := L.Acked, 2 := L.Failed, 4 := L.Acked],
    acquisitions := map[3 := Waiting(L.OnReconciliation(4))], leases := map[0 := Leasehold(L.Released)])
  const Again4 := Tables(
    next := 6, counts := map[Id := 1], attached := {Id}, attachments := map[Id := 5],
    pending := map[5 := L.Attach(Id)], settled := map[1 := L.Acked, 2 := L.Failed, 4 := L.Acked],
    acquisitions := map[3 := Waiting(L.OnAttachment(5))], leases := map[0 := Leasehold(L.Released)])
  const Exposed := Tables(
    next := 7, counts := map[Id := 2], attached := {Id}, attachments := map[Id := 5],
    pending := map[5 := L.Attach(Id)], settled := map[1 := L.Acked, 2 := L.Failed, 4 := L.Acked],
    acquisitions := map[3 := Waiting(L.OnAttachment(5))],
    leases := map[0 := Leasehold(L.Released), 6 := Leasehold(L.Active)])

  // ---------- steps ----------

  /** The first `n` events of the run are orderly and lead to these states. */
  ghost predicate Reached(es: seq<Event>, n: nat, s: L.State, c: C.State) {
    && n <= |es| && Runs(Init, es[..n]) && OrderlyRun(Init, es[..n])
    && After(Init, es[..n]) == State(s, c)
  }

  /** The event is orderly and leads from one state to the other. */
  ghost predicate Leads(e: Event, s: L.State, c: C.State, r: L.State, d: C.State) {
    Enabled(State(s, c), e) && SegmentOrderly(State(s, c), e) && Apply(State(s, c), e) == State(r, d)
  }

  lemma Next(es: seq<Event>, n: nat, s: L.State, c: C.State, r: L.State, d: C.State)
    requires n < |es| && Reached(es, n, s, c) && Leads(es[n], s, c, r, d)
    ensures Reached(es, n + 1, r, d)
  {
    assert es[..n + 1] == es[..n] + [es[n]];
    RunCoupled(es[..n]);
    OrderlyStep(State(s, c), es[n]);
    RunExtended(Init, es[..n], es[n]);
  }

  lemma BegunSteps()
    ensures Leads(Connect, L.Init, K0, Online, K0)
    ensures Leads(Segment(L.BeginAcquire(Id, L.Shared)), Online, K0, Asked, K1)
  {}

  lemma HeldSteps()
    ensures Leads(Answer(1, L.Acked, SessionBody(Mine)), Asked, K1, Replied, K2)
    ensures Leads(Segment(L.ResumeAcquire(0)), Replied, K2, Held, K2)
  {}

  lemma RefusedSteps()
    ensures Leads(Segment(L.BeginRelease(0, true)), Held, K2, Closing, K2)
    ensures Leads(Answer(2, L.Failed, Nothing), Closing, K2, Refused, K2)
  {}

  lemma LeftSteps()
    ensures Leads(Message(Away), Refused, K2, Away1, K3)
    ensures Leads(Segment(L.ResumeRelease(0)), Away1, K3, Away2, K3)
  {}

  lemma TakenSteps()
    ensures Leads(Segment(L.BeginAcquire(Id, L.Shared)), Away2, K3, Away3, K4)
  {}

  lemma MarkedSteps()
    ensures Leads(Segment(L.CatchRelease(0)), Away3, K4, Marked, K4)
  {}

  lemma AnsweredSteps()
    ensures Leads(Answer(4, L.Acked, SessionBody(Mine)), Marked, K4, Marked1, K2)
  {}

  lemma LeasedSteps()
    ensures Leads(Segment(L.ResumeAcquire(3)), Marked1, K2, Marked2, K2)
    ensures Leads(Segment(L.BeginAcquire(Id, L.Shared)), Marked2, K2, Underneath, K2)
  {}

  lemma CleanedSteps()
    ensures Leads(Answer(6, L.Acked, DetachBody(Id)), Underneath, K2, Cleaned1, K5)
    ensures Leads(Message(Mine), Cleaned1, K5, Cleaned2, K6)
  {}

  lemma LostSteps()
    ensures Leads(Segment(L.ResumeReconcile(Id)), Cleaned2, K6, Cleaned3, K6)
    ensures Leads(Segment(L.ResumeAcquire(5)), Cleaned3, K6, Lost, K7)
  {}

  lemma GivenSteps()
    ensures Leads(Segment(L.ResumeRelease(0)), Refused, K2, Given1, K2)
    ensures Leads(Segment(L.CatchRelease(0)), Given1, K2, Given2, K2)
  {}

  lemma CleaningSteps()
    ensures Leads(Segment(L.BeginAcquire(Id, L.Shared)), Given2, K2, Given3, K2)
  {}

  lemma AgainSteps()
    ensures Leads(Answer(4, L.Acked, DetachBody(Id)), Given3, K2, Again1, K5)
    ensures Leads(Message(Mine), Again1, K5, Again2, K6)
  {}

  lemma ReattachedSteps()
    ensures Leads(Segment(L.ResumeReconcile(Id)), Again2, K6, Again3, K6)
    ensures Leads(Segment(L.ResumeAcquire(3)), Again3, K6, Again4, K7)
  {}

  lemma ExposedIs()
    ensures L.Acquire(Again4, Id, L.Shared) == Exposed
  {
    assert Again4.acquisitions - {6} == Again4.acquisitions;
    assert Again4.leases[6 := Leasehold(L.Active)] == Exposed.leases;
  }

  lemma ExposedSteps()
    ensures Leads(Segment(L.BeginAcquire(Id, L.Shared)), Again4, K7, Exposed, K7)
  {
    ExposedIs();
  }

  // ---------- the runs ----------

  lemma HeldReached(es: seq<Event>)
    requires |es| > 3 && Reached(es, 0, L.Init, K0)
    requires es[0] == Connect
    requires es[1] == Segment(L.BeginAcquire(Id, L.Shared))
    requires es[2] == Answer(1, L.Acked, SessionBody(Mine))
    requires es[3] == Segment(L.ResumeAcquire(0))
    ensures Reached(es, 3, Replied, K2) && Reached(es, 4, Held, K2)
  {
    BegunSteps();
    HeldSteps();
    Next(es, 0, L.Init, K0, Online, K0);
    Next(es, 1, Online, K0, Asked, K1);
    Next(es, 2, Asked, K1, Replied, K2);
    Next(es, 3, Replied, K2, Held, K2);
  }

  lemma RefusedReached(es: seq<Event>)
    requires |es| > 5 && Reached(es, 4, Held, K2)
    requires es[4] == Segment(L.BeginRelease(0, true))
    requires es[5] == Answer(2, L.Failed, Nothing)
    ensures Reached(es, 5, Closing, K2) && Reached(es, 6, Refused, K2)
  {
    RefusedSteps();
    Next(es, 4, Held, K2, Closing, K2);
    Next(es, 5, Closing, K2, Refused, K2);
  }

  lemma LeasedReached(es: seq<Event>)
    requires |es| > 12 && Reached(es, 6, Refused, K2)
    requires es[6] == Message(Away)
    requires es[7] == Segment(L.ResumeRelease(0))
    requires es[8] == Segment(L.BeginAcquire(Id, L.Shared))
    requires es[9] == Segment(L.CatchRelease(0))
    requires es[10] == Answer(4, L.Acked, SessionBody(Mine))
    requires es[11] == Segment(L.ResumeAcquire(3))
    requires es[12] == Segment(L.BeginAcquire(Id, L.Shared))
    ensures Reached(es, 12, Marked2, K2) && Reached(es, 13, Underneath, K2)
  {
    LeftSteps();
    TakenSteps();
    MarkedSteps();
    AnsweredSteps();
    LeasedSteps();
    Next(es, 6, Refused, K2, Away1, K3);
    Next(es, 7, Away1, K3, Away2, K3);
    Next(es, 8, Away2, K3, Away3, K4);
    Next(es, 9, Away3, K4, Marked, K4);
    Next(es, 10, Marked, K4, Marked1, K2);
    Next(es, 11, Marked1, K2, Marked2, K2);
    Next(es, 12, Marked2, K2, Underneath, K2);
  }

  lemma LostReached(es: seq<Event>)
    requires |es| > 16 && Reached(es, 13, Underneath, K2)
    requires es[13] == Answer(6, L.Acked, DetachBody(Id))
    requires es[14] == Message(Mine)
    requires es[15] == Segment(L.ResumeReconcile(Id))
    requires es[16] == Segment(L.ResumeAcquire(5))
    ensures Reached(es, 16, Cleaned3, K6) && Reached(es, 17, Lost, K7)
  {
    CleanedSteps();
    LostSteps();
    Next(es, 13, Underneath, K2, Cleaned1, K5);
    Next(es, 14, Cleaned1, K5, Cleaned2, K6);
    Next(es, 15, Cleaned2, K6, Cleaned3, K6);
    Next(es, 16, Cleaned3, K6, Lost, K7);
  }

  lemma AgainReached(es: seq<Event>)
    requires |es| > 10 && Reached(es, 6, Refused, K2)
    requires es[6] == Segment(L.ResumeRelease(0))
    requires es[7] == Segment(L.CatchRelease(0))
    requires es[8] == Segment(L.BeginAcquire(Id, L.Shared))
    requires es[9] == Answer(4, L.Acked, DetachBody(Id))
    requires es[10] == Message(Mine)
    ensures Reached(es, 10, Again1, K5) && Reached(es, 11, Again2, K6)
  {
    GivenSteps();
    CleaningSteps();
    AgainSteps();
    Next(es, 6, Refused, K2, Given1, K2);
    Next(es, 7, Given1, K2, Given2, K2);
    Next(es, 8, Given2, K2, Given3, K2);
    Next(es, 9, Given3, K2, Again1, K5);
    Next(es, 10, Again1, K5, Again2, K6);
  }

  lemma ExposedReached(es: seq<Event>)
    requires |es| > 13 && Reached(es, 11, Again2, K6)
    requires es[11] == Segment(L.ResumeReconcile(Id))
    requires es[12] == Segment(L.ResumeAcquire(3))
    requires es[13] == Segment(L.BeginAcquire(Id, L.Shared))
    ensures Reached(es, 13, Again4, K7) && Reached(es, 14, Exposed, K7)
  {
    ReattachedSteps();
    ExposedSteps();
    Next(es, 11, Again2, K6, Again3, K6);
    Next(es, 12, Again3, K6, Again4, K7);
    Next(es, 13, Again4, K7, Exposed, K7);
  }

  lemma LossEvents(es: seq<Event>)
    requires es == Loss
    ensures |es| == 17
    ensures es[0] == Connect
    ensures es[1] == Segment(L.BeginAcquire(Id, L.Shared))
    ensures es[2] == Answer(1, L.Acked, SessionBody(Mine))
    ensures es[3] == Segment(L.ResumeAcquire(0))
    ensures es[4] == Segment(L.BeginRelease(0, true))
    ensures es[5] == Answer(2, L.Failed, Nothing)
    ensures es[6] == Message(Away)
    ensures es[7] == Segment(L.ResumeRelease(0))
    ensures es[8] == Segment(L.BeginAcquire(Id, L.Shared))
    ensures es[9] == Segment(L.CatchRelease(0))
    ensures es[10] == Answer(4, L.Acked, SessionBody(Mine))
    ensures es[11] == Segment(L.ResumeAcquire(3))
    ensures es[12] == Segment(L.BeginAcquire(Id, L.Shared))
    ensures es[13] == Answer(6, L.Acked, DetachBody(Id))
    ensures es[14] == Message(Mine)
    ensures es[15] == Segment(L.ResumeReconcile(Id))
    ensures es[16] == Segment(L.ResumeAcquire(5))
  {}

  lemma ExposureEvents(es: seq<Event>)
    requires es == Exposure
    ensures |es| == 14
    ensures es[0] == Connect
    ensures es[1] == Segment(L.BeginAcquire(Id, L.Shared))
    ensures es[2] == Answer(1, L.Acked, SessionBody(Mine))
    ensures es[3] == Segment(L.ResumeAcquire(0))
    ensures es[4] == Segment(L.BeginRelease(0, true))
    ensures es[5] == Answer(2, L.Failed, Nothing)
    ensures es[6] == Segment(L.ResumeRelease(0))
    ensures es[7] == Segment(L.CatchRelease(0))
    ensures es[8] == Segment(L.BeginAcquire(Id, L.Shared))
    ensures es[9] == Answer(4, L.Acked, DetachBody(Id))
    ensures es[10] == Message(Mine)
    ensures es[11] == Segment(L.ResumeReconcile(Id))
    ensures es[12] == Segment(L.ResumeAcquire(3))
    ensures es[13] == Segment(L.BeginAcquire(Id, L.Shared))
  {}

  lemma LossReached(es: seq<Event>)
    requires es == Loss
    ensures Reached(es, 16, Cleaned3, K6) && Reached(es, 17, Lost, K7)
  {
    LossEvents(es);
    HeldReached(es);
    RefusedReached(es);
    LeasedReached(es);
    LostReached(es);
  }

  lemma ExposureReached(es: seq<Event>)
    requires es == Exposure
    ensures Reached(es, 13, Again4, K7) && Reached(es, 14, Exposed, K7)
  {
    ExposureEvents(es);
    HeldReached(es);
    RefusedReached(es);
    AgainReached(es);
    ExposedReached(es);
  }

  lemma LostIsBlind()
    ensures Strips(State(Cleaned3, K6), Segment(L.ResumeAcquire(5))) && Blind(State(Lost, K7), 3)
  {
    assert Holds(State(Cleaned3, K6), 3, Id);
  }

  /** The last event attaches the session again, under the lease: its snapshot is only set aside. */
  lemma LeaseLosesSnapshot()
    ensures Reached(Loss, 16, Cleaned3, K6) && Reached(Loss, 17, Lost, K7)
    ensures Strips(State(Cleaned3, K6), Loss[16]) && Blind(State(Lost, K7), 3)
    ensures Id in K7.attempts && K7.attempts[Id] == C.Some(Mine)
  {
    LossReached(Loss);
    LossEvents(Loss);
    LostIsBlind();
  }

  lemma OtherAnswer(other: C.Snapshot)
    requires other.id != Id
    ensures CacheAnswer(K7, L.Attach(Id), SessionBody(other)).snapshots == map[other.id := other]
    ensures Id in CacheAnswer(K7, L.Attach(Id), SessionBody(other)).attached
    ensures Id !in CacheAnswer(K7, L.Attach(Id), SessionBody(other)).attempts
  {}

  /** Answered with the snapshot of another session, the lease is left without one for good: its
      own is no longer set aside either. */
  lemma LeaseStaysBlind(other: C.Snapshot)
    requires other.id != Id
    ensures
      var j, e := State(Lost, K7), Answer(7, L.Acked, SessionBody(other));
      && Reached(Loss, 17, Lost, K7) && Enabled(j, e) && Orphans(j, e)
      && Blind(Apply(j, e), 3) && Id !in Apply(j, e).cache.attempts
  {
    LossReached(Loss);
    OtherAnswer(other);
  }

  lemma AgainSees()
    ensures Sees(State(Again4, K7)) && !Plain(State(Again4, K7))
  {
    assert Id in K7.attached && !HasSnapshot(K7, Id);
  }

  lemma ExposedIsBlind()
    ensures Blind(State(Exposed, K7), 6)
    ensures Exposes(State(Again4, K7), Segment(L.BeginAcquire(Id, L.Shared)))
    ensures !Reattaches(State(Again4, K7), Segment(L.BeginAcquire(Id, L.Shared)))
  {
    assert Id in Leased(Again4, L.BeginAcquire(Id, L.Shared)) && Unseen(K7, Id);
  }

  /** No lease is active while the session is attached again; the next acquisition becomes one at
      once, because the session is attached, and has no snapshot. */
  lemma LeaseStartsBlind()
    ensures Reached(Exposure, 13, Again4, K7) && Sees(State(Again4, K7)) && !Plain(State(Again4, K7))
    ensures Exposes(State(Again4, K7), Exposure[13]) && !Reattaches(State(Again4, K7), Exposure[13])
    ensures Reached(Exposure, 14, Exposed, K7) && Blind(State(Exposed, K7), 6)
  {
    ExposureReached(Exposure);
    ExposureEvents(Exposure);
    AgainSees();
    ExposedIsBlind();
  }
}
