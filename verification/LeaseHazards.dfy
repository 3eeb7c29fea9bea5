/** Concrete runs, one for each side condition, in which a single event is out of order and the
    session ends up with an unreleased token that its count leaves out. */
module LeaseHazards {
  import opened Leases
  import opened LeaseInvariant
  import opened LeaseSafety

  const Id: SessionId := "s"

  /** All events of the run are orderly but for the one at index `k`. */
  ghost predicate SlipsAt(s: State, es: seq<Event>, k: int)
    requires Runs(s, es)
    decreases es
  {
    es != [] ==> (Orderly(s, es[0]) <==> k != 0) && SlipsAt(Apply(s, es[0]), es[1..], k - 1)
  }

  lemma {:induction false} SlipsExtended(s: State, es: seq<Event>, k: int, e: Event)
    requires Runs(s, es) && Runs(s, es + [e]) && Enabled(After(s, es), e)
    ensures SlipsAt(s, es + [e], k) <==> SlipsAt(s, es, k) && (Orderly(After(s, es), e) <==> k != |es|)
    decreases es
  {
    if es == [] {
      assert [] + [e] == [e] && [e][1..] == [];
    } else {
      assert (es + [e])[1..] == es[1..] + [e];
      SlipsExtended(Apply(s, es[0]), es[1..], k - 1, e);
    }
  }

  /** From the start the first `n` events lead to `r`, and only event `k` is out of order, if it is
      among them. */
  ghost predicate Reached(es: seq<Event>, n: nat, k: nat, r: State) {
    && n <= |es|
    && forall run | run <= es && |run| == n :: Runs(Init, run) && After(Init, run) == r && SlipsAt(Init, run, k)
  }

  lemma Next(es: seq<Event>, n: nat, k: nat, m: State, r: State)
    requires n < |es| && Reached(es, n, k, m)
    requires Enabled(m, es[n]) && Apply(m, es[n]) == r && (Orderly(m, es[n]) <==> n != k)
    ensures Reached(es, n + 1, k, r)
  {
    assert Runs(Init, es[..n]);
    assert es[..n + 1] == es[..n] + [es[n]];
    RunExtended(Init, es[..n], es[n]);
    SlipsExtended(Init, es[..n], k, es[n]);
    forall run | run <= es && |run| == n + 1 ensures run == es[..n + 1] {}
  }

  /** An unreleased token that nobody counts. */
  ghost predicate Uncounted(s: State, t: Token) { OwnerOf(s, t) == Session(Id) && Count(s, Id) == 0 }

  lemma CutIs(s: State, r: State)
    requires r == s.(counts := map[], exclusive := map[], generations := r.generations, cleanup := {},
                     pending := map[], settled := r.settled, attached := {}, connected := false, epoch := s.epoch + 1)
    requires s.exclusive == map[]
    requires r.generations == InvalidateAll(s).generations && r.settled == RejectPending(s).settled
    ensures Cut(s) == r
  {
    var m := InvalidateAll(s.(attached := {}));
    assert m.generations == InvalidateAll(s).generations;
    assert RejectPending(m).settled == RejectPending(s).settled;
  }

  // ---------- the states the runs start from ----------

  const Online := Init.(connected := true)

  /** An attach for the first acquisition of the session is on its way. */
  const Attaching := Online.(next := 2, counts := map[Id := 1],
                             pending := map[1 := Attach(Id)], attachments := map[Id := 1],
                             acquisitions := map[0 := Acquisition(Id, Shared, OnAttachment(1), 0)])

  /** The attach is answered, and the acquisition has its lease. */
  const Answered1 := Attaching.(pending := map[], settled := map[1 := Acked], attached := {Id})
  const Held := Answered1.(generations := map[Id := 0], attachments := map[], acquisitions := map[],
                           leases := map[0 := Lease(Id, Shared, 0, Active)])

  /** The detach of the lease is on its way. */
  const Closing := Held.(next := 3, pending := map[2 := Detach(Id)], detachments := map[Id := 2],
                         leases := map[0 := Lease(Id, Shared, 0, Detaching(2, false))])

  const ToAttaching := [Connect, BeginAcquire(Id, Shared)]

  const ToHeld := [Connect, BeginAcquire(Id, Shared), Respond(1, Acked, true), ResumeAcquire(0)]

  const ToClosing := [Connect, BeginAcquire(Id, Shared), Respond(1, Acked, true), ResumeAcquire(0),
                      BeginRelease(0, false)]

  lemma AttachingReached(es: seq<Event>, k: nat)
    requires k >= 2 && ToAttaching <= es
    ensures Reached(es, 2, k, Attaching)
  {
    assert es[0] == ToAttaching[0] && es[1] == ToAttaching[1];
    Next(es, 0, k, Init, Online);
    Next(es, 1, k, Online, Attaching);
  }

  lemma HeldReached(es: seq<Event>, k: nat)
    requires k >= 4 && ToHeld <= es
    ensures Reached(es, 4, k, Held)
  {
    assert es[0] == ToHeld[0] && es[1] == ToHeld[1] && es[2] == ToHeld[2] && es[3] == ToHeld[3];
    AttachingReached(es, k);
    Next(es, 2, k, Attaching, Answered1);
    Next(es, 3, k, Answered1, Held);
  }

  lemma ClosingReached(es: seq<Event>, k: nat)
    requires k >= 5 && ToClosing <= es
    ensures Reached(es, 5, k, Closing)
  {
    assert es[4] == ToClosing[4] && ToHeld == ToClosing[..4];
    HeldReached(es, k);
    Next(es, 4, k, Held, Closing);
  }

  // ---------- removal of a session that is being acquired ----------

  /** The session is removed while the attach is out, and the attach succeeds all the same: the lease
      is attached, of the new generation and uncounted. */
  const Removal := ToAttaching +
    [SessionRemoved(Id), Respond(1, Acked, true), ResumeAcquire(0)]

  const Removal1 := Attaching.(counts := map[], generations := map[Id := 1])
  const Removal2 := Removal1.(pending := map[], settled := map[1 := Acked], attached := {Id})
  const Stray := Removal2.(attachments := map[], acquisitions := map[],
                           leases := map[0 := Lease(Id, Shared, 1, Active)])

  lemma RemovalInvalidates(es: seq<Event>)
    requires |es| > 2 && Reached(es, 2, 2, Attaching)
    requires es[2] == SessionRemoved(Id)
    ensures Reached(es, 3, 2, Removal1)
  {
    assert OwnerOf(Attaching, 0) == Session(Id);
    Next(es, 2, 2, Attaching, Removal1);
  }

  lemma RemovalAnswered(es: seq<Event>)
    requires |es| > 4 && Reached(es, 3, 2, Removal1)
    requires es[3] == Respond(1, Acked, true) && es[4] == ResumeAcquire(0)
    ensures Reached(es, 5, 2, Stray)
  {
    Next(es, 3, 2, Removal1, Removal2);
    Next(es, 4, 2, Removal2, Stray);
  }

  lemma RemovalSteps(es: seq<Event>)
    requires |es| == 5 && Reached(es, 2, 2, Attaching)
    requires es[2] == SessionRemoved(Id) && es[3] == Respond(1, Acked, true) && es[4] == ResumeAcquire(0)
    ensures Reached(es, 5, 2, Stray)
  {
    RemovalInvalidates(es);
    RemovalAnswered(es);
  }

  lemma StrayUncounted()
    ensures Uncounted(Stray, 0)
  {}

  lemma RemovalUncounted()
    ensures Reached(Removal, 5, 2, Stray) && Uncounted(Stray, 0)
  {
    AttachingReached(Removal, 2);
    RemovalSteps(Removal);
    StrayUncounted();
  }

  /** An exclusive acquisition then gets its lease beside the shared one: both are active. */
  lemma RemovalBreaksExclusion()
    ensures
      var s := Acquire(Stray, Id, Exclusive);
      && Reached(Removal, 5, 2, Stray) && Count(s, Id) == 1
      && 0 in s.leases && IsActive(s, 0) && s.leases[0].mode == Shared && s.leases[0].session == Id
      && 2 in s.leases && IsActive(s, 2) && s.leases[2].mode == Exclusive && s.leases[2].session == Id
  {
    RemovalUncounted();
  }

  // ---------- removal of a session that is being detached ----------

  /** The session is removed under a detach and acquired anew; the end of the detach takes the
      count of the new acquisition. */
  const RemovalInDetach := ToClosing +
    [SessionRemoved(Id), BeginAcquire(Id, Shared), Respond(2, Acked, false), ResumeRelease(0)]

  const Removed1 := Closing.(counts := map[], attached := {}, generations := map[Id := 1])
  const Removed2 := Removed1.(counts := map[Id := 1], next := 4,
                              acquisitions := map[3 := Acquisition(Id, Shared, OnDetachment(2), 0)])
  const Removed3 := Removed2.(pending := map[], settled := map[1 := Acked, 2 := Acked])
  const Removed4 := Removed3.(counts := Removed3.counts - {Id}, detachments := Removed3.detachments - {Id},
                              leases := Removed3.leases[0 := Lease(Id, Shared, 0, Released)])

  lemma RemovedInvalidates(es: seq<Event>)
    requires |es| > 5 && Reached(es, 5, 5, Closing)
    requires es[5] == SessionRemoved(Id)
    ensures Reached(es, 6, 5, Removed1)
  {
    assert 0 in Closing.leases && !Rejected(Closing, 2);
    Next(es, 5, 5, Closing, Removed1);
  }

  lemma RemovedTaken(es: seq<Event>)
    requires |es| > 6 && Reached(es, 6, 5, Removed1)
    requires es[6] == BeginAcquire(Id, Shared)
    ensures Reached(es, 7, 5, Removed2)
  {
    Next(es, 6, 5, Removed1, Removed2);
  }

  lemma RemovedAnswered(es: seq<Event>)
    requires |es| > 7 && Reached(es, 7, 5, Removed2)
    requires es[7] == Respond(2, Acked, false)
    ensures Reached(es, 8, 5, Removed3)
  {
    Next(es, 7, 5, Removed2, Removed3);
  }

  lemma RemovedResumed(es: seq<Event>)
    requires |es| > 8 && Reached(es, 8, 5, Removed3)
    requires es[8] == ResumeRelease(0)
    ensures Reached(es, 9, 5, Removed4)
  {
    assert ContinueRelease(Removed3, 0) == Removed4;
    Next(es, 8, 5, Removed3, Removed4);
  }

  lemma RemovedSteps(es: seq<Event>)
    requires |es| == 9 && Reached(es, 5, 5, Closing)
    requires es[5] == SessionRemoved(Id) && es[6] == BeginAcquire(Id, Shared)
    requires es[7] == Respond(2, Acked, false) && es[8] == ResumeRelease(0)
    ensures Reached(es, 9, 5, Removed4)
  {
    RemovedInvalidates(es);
    RemovedTaken(es);
    RemovedAnswered(es);
    RemovedResumed(es);
  }

  lemma Removed4Uncounted()
    ensures Uncounted(Removed4, 3)
  {}

  lemma RemovedStepsStart(es: seq<Event>)
    requires es == RemovalInDetach
    ensures Reached(es, 5, 5, Closing)
  {
    ClosingReached(es, 5);
  }

  lemma RemovalInDetachUncounted()
    ensures Reached(RemovalInDetach, 9, 5, Removed4) && Uncounted(Removed4, 3)
  {
    RemovedStepsStart(RemovalInDetach);
    RemovedSteps(RemovalInDetach);
    Removed4Uncounted();
  }

  // ---------- a cut under an acknowledged attach or detach ----------

  /** The link breaks after the attach was acknowledged but before the acquisition has gone on:
      its lease is of the new generation and nobody counts it. */
  const LateGrant := ToAttaching + [Respond(1, Acked, true), Disconnect, ResumeAcquire(0)]

  const Late1 := Answered1.(counts := map[], attached := {}, connected := false, epoch := 1,
                            generations := map[Id := 1])
  const Late2 := Late1.(attachments := map[], acquisitions := map[], leases := map[0 := Lease(Id, Shared, 1, Active)])

  lemma LateGrantCut(es: seq<Event>)
    requires |es| > 3 && Reached(es, 2, 3, Attaching)
    requires es[2] == Respond(1, Acked, true) && es[3] == Disconnect
    ensures Reached(es, 4, 3, Late1)
  {
    assert Fulfilled(Answered1, Answered1.acquisitions[0].wait.promise);
    Next(es, 2, 3, Attaching, Answered1);
    Next(es, 3, 3, Answered1, Late1);
  }

  lemma LateGrantResumed(es: seq<Event>)
    requires |es| > 4 && Reached(es, 4, 3, Late1)
    requires es[4] == ResumeAcquire(0)
    ensures Reached(es, 5, 3, Late2)
  {
    Next(es, 4, 3, Late1, Late2);
  }

  lemma LateGrantSteps(es: seq<Event>)
    requires |es| == 5 && Reached(es, 2, 3, Attaching)
    requires es[2] == Respond(1, Acked, true) && es[3] == Disconnect && es[4] == ResumeAcquire(0)
    ensures Reached(es, 5, 3, Late2)
  {
    LateGrantCut(es);
    LateGrantResumed(es);
  }

  lemma Late2Uncounted()
    ensures Uncounted(Late2, 0)
  {}

  lemma LateGrantUncounted()
    ensures Reached(LateGrant, 5, 3, Late2) && Uncounted(Late2, 0)
  {
    AttachingReached(LateGrant, 3);
    LateGrantSteps(LateGrant);
    Late2Uncounted();
  }

  /** The link breaks after the detach was acknowledged, and the session is acquired before the
      release has gone on: it takes the count of the acquisition. */
  const LateDetach := ToClosing +
    [Respond(2, Acked, false), Disconnect, BeginAcquire(Id, Shared), ResumeRelease(0)]

  const Detached1 := Closing.(pending := map[], settled := map[1 := Acked, 2 := Acked], attached := {})
  const Detached2 := Detached1.(counts := map[], settled := RejectPending(Detached1).settled, connected := false,
                                epoch := 1, generations := map[Id := 1])
  const Detached3 := Detached2.(counts := map[Id := 1], next := 4,
                                acquisitions := map[3 := Acquisition(Id, Shared, OnDetachment(2), 1)])
  const Detached4 := Detached3.(counts := Detached3.counts - {Id}, detachments := Detached3.detachments - {Id},
                                leases := Detached3.leases[0 := Lease(Id, Shared, 0, Released)])

  lemma DetachedAnswered(es: seq<Event>)
    requires |es| > 5 && Reached(es, 5, 6, Closing)
    requires es[5] == Respond(2, Acked, false)
    ensures Reached(es, 6, 6, Detached1)
  {
    Next(es, 5, 6, Closing, Detached1);
  }

  lemma DetachedCut(es: seq<Event>)
    requires |es| > 6 && Reached(es, 6, 6, Detached1)
    requires es[6] == Disconnect
    ensures Reached(es, 7, 6, Detached2)
  {
    assert DetachUnhandled(Detached1, 0);
    Next(es, 6, 6, Detached1, Detached2);
  }

  lemma DetachedTaken(es: seq<Event>)
    requires |es| > 7 && Reached(es, 7, 6, Detached2)
    requires es[7] == BeginAcquire(Id, Shared)
    ensures Reached(es, 8, 6, Detached3)
  {
    Next(es, 7, 6, Detached2, Detached3);
  }

  lemma DetachedResumed(es: seq<Event>)
    requires |es| > 8 && Reached(es, 8, 6, Detached3)
    requires es[8] == ResumeRelease(0)
    ensures Reached(es, 9, 6, Detached4)
  {
    assert ContinueRelease(Detached3, 0) == Detached4;
    Next(es, 8, 6, Detached3, Detached4);
  }

  lemma DetachedSteps(es: seq<Event>)
    requires |es| == 9 && Reached(es, 5, 6, Closing)
    requires es[5] == Respond(2, Acked, false) && es[6] == Disconnect && es[7] == BeginAcquire(Id, Shared)
    requires es[8] == ResumeRelease(0)
    ensures Reached(es, 9, 6, Detached4)
  {
    DetachedAnswered(es);
    DetachedCut(es);
    DetachedTaken(es);
    DetachedResumed(es);
  }

  lemma Detached4Uncounted()
    ensures Uncounted(Detached4, 3)
  {}

  lemma DetachedStepsStart(es: seq<Event>)
    requires es == LateDetach
    ensures Reached(es, 5, 6, Closing)
  {
    ClosingReached(es, 6);
  }

  lemma LateDetachUncounted()
    ensures Reached(LateDetach, 9, 6, Detached4) && Uncounted(Detached4, 3)
  {
    DetachedStepsStart(LateDetach);
    DetachedSteps(LateDetach);
    Detached4Uncounted();
  }

  // ---------- acquiring, creating and connecting before rejected continuations have run ----------

  /** The session is acquired anew while the acquisition the link has rejected still has to give
      its token back; it takes the new count. */
  const EarlyAcquire := ToAttaching + [Disconnect, BeginAcquire(Id, Shared), ResumeAcquire(0)]

  const Dropped1 := Attaching.(counts := map[], pending := map[], settled := RejectPending(Attaching).settled,
                               connected := false, epoch := 1, generations := map[Id := 1])
  const Dropped2 := Dropped1.(counts := map[Id := 1], next := 3,
                              acquisitions := map[0 := Acquisition(Id, Shared, OnAttachment(1), 0),
                                                  2 := Acquisition(Id, Shared, OnAttachment(1), 1)])
  const Dropped3 := Dropped2.(counts := Dropped2.counts - {Id}, attachments := Dropped2.attachments - {Id},
                              acquisitions := Dropped2.acquisitions - {0})

  lemma DroppedCut(es: seq<Event>)
    requires |es| > 2 && Reached(es, 2, 3, Attaching)
    requires es[2] == Disconnect
    ensures Reached(es, 3, 3, Dropped1)
  {
    Next(es, 2, 3, Attaching, Dropped1);
  }

  lemma DroppedTaken(es: seq<Event>)
    requires |es| > 3 && Reached(es, 3, 3, Dropped1)
    requires es[3] == BeginAcquire(Id, Shared)
    ensures Reached(es, 4, 3, Dropped2)
  {
    assert Overtaken(Dropped1, 0);
    Next(es, 3, 3, Dropped1, Dropped2);
  }

  lemma DroppedResumed(es: seq<Event>)
    requires |es| > 4 && Reached(es, 4, 3, Dropped2)
    requires es[4] == ResumeAcquire(0)
    ensures Reached(es, 5, 3, Dropped3)
  {
    Next(es, 4, 3, Dropped2, Dropped3);
  }

  lemma DroppedSteps(es: seq<Event>)
    requires |es| == 5 && Reached(es, 2, 3, Attaching)
    requires es[2] == Disconnect && es[3] == BeginAcquire(Id, Shared) && es[4] == ResumeAcquire(0)
    ensures Reached(es, 5, 3, Dropped3)
  {
    DroppedCut(es);
    DroppedTaken(es);
    DroppedResumed(es);
  }

  lemma Dropped3Uncounted()
    ensures Uncounted(Dropped3, 2)
  {}

  lemma EarlyAcquireUncounted()
    ensures Reached(EarlyAcquire, 5, 3, Dropped3) && Uncounted(Dropped3, 2)
  {
    AttachingReached(EarlyAcquire, 3);
    DroppedSteps(EarlyAcquire);
    Dropped3Uncounted();
  }

  /** A creation of the same session goes on while a rejected acquisition of it has yet to. */
  const EarlyCreate := [Connect, BeginCreate, BeginAcquire(Id, Shared), Respond(0, Created(Id), true), Disconnect,
                        ResumeCreate(0), ResumeAcquire(1)]

  const Creating1 := Online.(pending := map[0 := Create], next := 1, creations := {0})
  const Creating2 := Creating1.(counts := map[Id := 1], pending := map[0 := Create, 2 := Attach(Id)],
                                attachments := map[Id := 2], next := 3,
                                acquisitions := map[1 := Acquisition(Id, Shared, OnAttachment(2), 0)])
  const Creating3 := Creating2.(pending := map[2 := Attach(Id)], settled := map[0 := Created(Id)], attached := {Id})
  const Creating4 := Creating3.(counts := map[], pending := map[], attached := {}, connected := false, epoch := 1,
                                settled := map[0 := Created(Id), 2 := Failed], generations := map[Id := 1])
  const Creating5 := Creating4.(counts := Creating4.counts[Id := 1], exclusive := Creating4.exclusive[Id := 3],
                                creations := Creating4.creations - {0}, next := 4,
                                leases := Creating4.leases[3 := Lease(Id, Exclusive, 1, Active)],
                                generations := Creating4.generations[Id := 1])
  const Creating6 := Creating5.(counts := Creating5.counts - {Id}, attachments := Creating5.attachments - {Id},
                                acquisitions := Creating5.acquisitions - {1})

  lemma CreatingBegun(es: seq<Event>)
    requires |es| > 1 && Reached(es, 0, 5, Init)
    requires es[0] == Connect && es[1] == BeginCreate
    ensures Reached(es, 2, 5, Creating1)
  {
    Next(es, 0, 5, Init, Online);
    Next(es, 1, 5, Online, Creating1);
  }

  lemma CreatingBoth(es: seq<Event>)
    requires |es| > 3 && Reached(es, 2, 5, Creating1)
    requires es[2] == BeginAcquire(Id, Shared) && es[3] == Respond(0, Created(Id), true)
    ensures Reached(es, 4, 5, Creating3)
  {
    Next(es, 2, 5, Creating1, Creating2);
    Next(es, 3, 5, Creating2, Creating3);
  }

  lemma CreatingCutEffect()
    ensures Cut(Creating3) == Creating4
  {
    assert RejectPending(Creating3).settled == map[0 := Created(Id), 2 := Failed];
    assert InvalidateAll(Creating3).generations == map[Id := 1];
    CutIs(Creating3, Creating4);
  }

  lemma CreatingCut(es: seq<Event>)
    requires |es| > 4 && Reached(es, 4, 5, Creating3)
    requires es[4] == Disconnect
    ensures Reached(es, 5, 5, Creating4)
  {
    CreatingCutEffect();
    Next(es, 4, 5, Creating3, Creating4);
  }

  lemma CreatingTakenEffect()
    ensures ContinueCreate(Creating4, 0) == Creating5
  {}

  lemma CreatingTakenEarly()
    ensures !Orderly(Creating4, ResumeCreate(0))
  {
    assert Overtaken(Creating4, 1);
  }

  lemma CreatingTaken(es: seq<Event>)
    requires |es| > 5 && Reached(es, 5, 5, Creating4)
    requires es[5] == ResumeCreate(0)
    ensures Reached(es, 6, 5, Creating5)
  {
    CreatingTakenEarly();
    CreatingTakenEffect();
    Next(es, 5, 5, Creating4, Creating5);
  }

  lemma CreatingResumedState()
    ensures Enabled(Creating5, ResumeAcquire(1)) && Apply(Creating5, ResumeAcquire(1)) == Creating6
    ensures Orderly(Creating5, ResumeAcquire(1))
  {}

  lemma CreatingResumed(es: seq<Event>)
    requires |es| > 6 && Reached(es, 6, 5, Creating5)
    requires es[6] == ResumeAcquire(1)
    ensures Reached(es, 7, 5, Creating6)
  {
    CreatingResumedState();
    Next(es, 6, 5, Creating5, Creating6);
  }

  lemma CreatingSteps(es: seq<Event>)
    requires |es| == 7
    requires es[0] == Connect && es[1] == BeginCreate && es[2] == BeginAcquire(Id, Shared)
    requires es[3] == Respond(0, Created(Id), true) && es[4] == Disconnect && es[5] == ResumeCreate(0)
    requires es[6] == ResumeAcquire(1)
    ensures Reached(es, 7, 5, Creating6)
  {
    CreatingBegun(es);
    CreatingBoth(es);
    CreatingCut(es);
    CreatingTaken(es);
    CreatingResumed(es);
  }

  lemma Creating6Uncounted()
    ensures Uncounted(Creating6, 3)
  {}

  lemma EarlyCreateUncounted()
    ensures Reached(EarlyCreate, 7, 5, Creating6) && Uncounted(Creating6, 3)
  {
    CreatingSteps(EarlyCreate);
    Creating6Uncounted();
  }

  /** The link comes back while an acquisition still waits for the detach the break has rejected:
      its attach over the new link succeeds, and nobody counts the lease. */
  const EarlyConnect := ToClosing +
    [BeginAcquire(Id, Shared), Disconnect, Connect, ResumeAcquire(3), Respond(4, Acked, true), ResumeAcquire(3)]

  const Back1 := Closing.(counts := map[Id := 2], next := 4,
                          acquisitions := map[3 := Acquisition(Id, Shared, OnDetachment(2), 0)])
  const Back2 := Back1.(counts := map[], pending := map[], settled := RejectPending(Back1).settled, attached := {},
                        connected := false, epoch := 1, generations := map[Id := 1])
  const Back3 := Back2.(connected := true)
  const Back4 := Back3.(next := 5, pending := map[4 := Attach(Id)], attachments := map[Id := 4],
                        acquisitions := Back3.acquisitions[3 := Acquisition(Id, Shared, OnAttachment(4), 0)])
  const Back5 := Back4.(pending := map[], settled := Back4.settled[4 := Acked], attached := {Id})
  const Back6 := Back5.(attachments := Back5.attachments - {Id}, acquisitions := Back5.acquisitions - {3},
                        leases := Back5.leases[3 := Lease(Id, Shared, 1, Active)],
                        generations := Back5.generations[Id := 1])

  lemma BackWaiting(es: seq<Event>)
    requires |es| > 5 && Reached(es, 5, 7, Closing)
    requires es[5] == BeginAcquire(Id, Shared)
    ensures Reached(es, 6, 7, Back1)
  {
    Next(es, 5, 7, Closing, Back1);
  }

  lemma BackCutOrderly()
    ensures Orderly(Back1, Disconnect)
  {}

  lemma BackCutEffect()
    ensures Cut(Back1) == Back2
  {
    BackCutGenerations();
    CutIs(Back1, Back2);
  }

  lemma BackCutGenerations()
    ensures InvalidateAll(Back1).generations == map[Id := 1]
  {}

  lemma BackCut(es: seq<Event>)
    requires |es| > 6 && Reached(es, 6, 7, Back1)
    requires es[6] == Disconnect
    ensures Reached(es, 7, 7, Back2)
  {
    BackCutOrderly();
    BackCutEffect();
    Next(es, 6, 7, Back1, Back2);
  }

  lemma BackConnected(es: seq<Event>)
    requires |es| > 7 && Reached(es, 7, 7, Back2)
    requires es[7] == Connect
    ensures Reached(es, 8, 7, Back3)
  {
    assert Overtaken(Back2, 3);
    Next(es, 7, 7, Back2, Back3);
  }

  lemma BackSent(es: seq<Event>)
    requires |es| > 8 && Reached(es, 8, 7, Back3)
    requires es[8] == ResumeAcquire(3)
    ensures Reached(es, 9, 7, Back4)
  {
    Next(es, 8, 7, Back3, Back4);
  }

  lemma BackAnswered(es: seq<Event>)
    requires |es| > 9 && Reached(es, 9, 7, Back4)
    requires es[9] == Respond(4, Acked, true)
    ensures Reached(es, 10, 7, Back5)
  {
    assert Answered(Back4, 4, Acked, true) == Back5;
    Next(es, 9, 7, Back4, Back5);
  }

  lemma BackGrantedState()
    ensures Enabled(Back5, ResumeAcquire(3)) && Apply(Back5, ResumeAcquire(3)) == Back6
    ensures Orderly(Back5, ResumeAcquire(3))
  {}

  lemma BackGranted(es: seq<Event>)
    requires |es| > 10 && Reached(es, 10, 7, Back5)
    requires es[10] == ResumeAcquire(3)
    ensures Reached(es, 11, 7, Back6)
  {
    BackGrantedState();
    Next(es, 10, 7, Back5, Back6);
  }

  lemma BackSteps(es: seq<Event>)
    requires |es| == 11 && Reached(es, 5, 7, Closing)
    requires es[5] == BeginAcquire(Id, Shared) && es[6] == Disconnect && es[7] == Connect
    requires es[8] == ResumeAcquire(3) && es[9] == Respond(4, Acked, true) && es[10] == ResumeAcquire(3)
    ensures Reached(es, 11, 7, Back6)
  {
    BackWaiting(es);
    BackCut(es);
    BackConnected(es);
    BackSent(es);
    BackAnswered(es);
    BackGranted(es);
  }

  lemma Back6Uncounted()
    ensures Uncounted(Back6, 3)
  {}

  lemma BackStepsStart(es: seq<Event>)
    requires es == EarlyConnect
    ensures Reached(es, 5, 7, Closing)
  {
    ClosingReached(es, 7);
  }

  lemma EarlyConnectEvents(es: seq<Event>)
    requires es == EarlyConnect
    ensures |es| == 11
    ensures es[5] == BeginAcquire(Id, Shared) && es[6] == Disconnect && es[7] == Connect
    ensures es[8] == ResumeAcquire(3) && es[9] == Respond(4, Acked, true) && es[10] == ResumeAcquire(3)
  {}

  lemma EarlyConnectRun(es: seq<Event>)
    requires es == EarlyConnect
    ensures Reached(es, 11, 7, Back6)
  {
    EarlyConnectEvents(es);
    BackStepsStart(es);
    BackSteps(es);
  }

  lemma EarlyConnectUncounted()
    ensures Reached(EarlyConnect, 11, 7, Back6) && Uncounted(Back6, 3)
  {
    EarlyConnectRun(EarlyConnect);
    Back6Uncounted();
  }

  // ---------- a dispose that fails while its session is acquired anew ----------

  /** All events are orderly.  Between the end of the failed detach and the handler that marks the
      session, the session is acquired: its attach is out when the mark is set, and the next
      acquisition sends the cleanup detach under the lease it has become. */
  const Overtaking :=
    [Connect, BeginAcquire(Id, Shared), Respond(1, Acked, true), ResumeAcquire(0), BeginRelease(0, true),
     Respond(2, Failed, false), Snapshot(Id, false), ResumeRelease(0), BeginAcquire(Id, Shared), CatchRelease(0),
     Respond(4, Acked, true), ResumeAcquire(3), BeginAcquire(Id, Shared)]

  const Disposing1 := Held.(next := 3, pending := map[2 := Detach(Id)], detachments := map[Id := 2],
                            leases := map[0 := Lease(Id, Shared, 0, Detaching(2, true))])
  const Disposing2 := Disposing1.(pending := map[], settled := map[1 := Acked, 2 := Failed])
  const Disposing3 := Disposing2.(attached := {})
  const Disposing4 := Disposing3.(detachments := Disposing3.detachments - {Id},
                                  leases := Disposing3.leases[0 := Lease(Id, Shared, 0, Failing(true))])
  const Disposing5 := Disposing4.(counts := map[Id := 2], next := 5, pending := map[4 := Attach(Id)],
                                  attachments := map[Id := 4],
                                  acquisitions := map[3 := Acquisition(Id, Shared, OnAttachment(4), 0)])
  const Marked := Online.(counts := map[Id := 1], generations := map[Id := 0], cleanup := {Id}, next := 5,
                          pending := map[4 := Attach(Id)], settled := map[1 := Acked, 2 := Failed],
                          attachments := map[Id := 4], leases := map[0 := Lease(Id, Shared, 0, Released)],
                          acquisitions := map[3 := Acquisition(Id, Shared, OnAttachment(4), 0)])
  const Marked1 := Marked.(pending := map[], settled := map[1 := Acked, 2 := Failed, 4 := Acked], attached := {Id})
  const Marked2 := Marked1.(attachments := map[], acquisitions := map[],
                            leases := map[0 := Lease(Id, Shared, 0, Released), 3 := Lease(Id, Shared, 0, Active)])
  const Underneath := Marked2.(counts := map[Id := 2], next := 7, pending := map[6 := Detach(Id)],
                               reconciliations := map[Id := 6],
                               acquisitions := map[5 := Acquisition(Id, Shared, OnReconciliation(6), 0)])

  lemma DisposingSent(es: seq<Event>)
    requires |es| > 4 && Reached(es, 4, 13, Held)
    requires es[4] == BeginRelease(0, true)
    ensures Reached(es, 5, 13, Disposing1)
  {
    Next(es, 4, 13, Held, Disposing1);
  }

  lemma DisposingAnswered(es: seq<Event>)
    requires |es| > 6 && Reached(es, 5, 13, Disposing1)
    requires es[5] == Respond(2, Failed, false) && es[6] == Snapshot(Id, false)
    ensures Reached(es, 7, 13, Disposing3)
  {
    Next(es, 5, 13, Disposing1, Disposing2);
    Next(es, 6, 13, Disposing2, Disposing3);
  }

  lemma DisposingEnded(es: seq<Event>)
    requires |es| > 7 && Reached(es, 7, 13, Disposing3)
    requires es[7] == ResumeRelease(0)
    ensures Reached(es, 8, 13, Disposing4)
  {
    assert ContinueRelease(Disposing3, 0) == Disposing4;
    Next(es, 7, 13, Disposing3, Disposing4);
  }

  lemma DisposingTaken(es: seq<Event>)
    requires |es| > 8 && Reached(es, 8, 13, Disposing4)
    requires es[8] == BeginAcquire(Id, Shared)
    ensures Reached(es, 9, 13, Disposing5)
  {
    assert Acquire(Disposing4, Id, Shared) == Disposing5;
    Next(es, 8, 13, Disposing4, Disposing5);
  }

  lemma DisposingMarkedEffect()
    ensures CatchFailedRelease(Disposing5, 0) == Marked
  {
    assert Disposing5.counts[Id := 1] == Marked.counts;
    assert Disposing5.cleanup + {Id} == Marked.cleanup;
    assert Disposing5.leases[0 := Lease(Id, Shared, 0, Released)] == Marked.leases;
  }

  lemma DisposingMarked(es: seq<Event>)
    requires |es| > 9 && Reached(es, 9, 13, Disposing5)
    requires es[9] == CatchRelease(0)
    ensures Reached(es, 10, 13, Marked)
  {
    DisposingMarkedEffect();
    Next(es, 9, 13, Disposing5, Marked);
  }

  lemma MarkedAnswered(es: seq<Event>)
    requires |es| > 10 && Reached(es, 10, 13, Marked)
    requires es[10] == Respond(4, Acked, true)
    ensures Reached(es, 11, 13, Marked1)
  {
    Next(es, 10, 13, Marked, Marked1);
  }

  lemma MarkedGranted(es: seq<Event>)
    requires |es| > 11 && Reached(es, 11, 13, Marked1)
    requires es[11] == ResumeAcquire(3)
    ensures Reached(es, 12, 13, Marked2)
  {
    Next(es, 11, 13, Marked1, Marked2);
  }

  lemma MarkedDetached(es: seq<Event>)
    requires |es| > 12 && Reached(es, 12, 13, Marked2)
    requires es[12] == BeginAcquire(Id, Shared)
    ensures Reached(es, 13, 13, Underneath)
  {
    Next(es, 12, 13, Marked2, Underneath);
  }

  lemma OvertakingHeld(es: seq<Event>)
    requires es == Overtaking
    ensures Reached(es, 4, 13, Held)
  {
    HeldReached(es, 13);
  }

  lemma OvertakingSteps(es: seq<Event>)
    requires |es| == 13 && Reached(es, 4, 13, Held)
    requires es[4] == BeginRelease(0, true) && es[5] == Respond(2, Failed, false) && es[6] == Snapshot(Id, false)
    requires es[7] == ResumeRelease(0) && es[8] == BeginAcquire(Id, Shared) && es[9] == CatchRelease(0)
    requires es[10] == Respond(4, Acked, true) && es[11] == ResumeAcquire(3) && es[12] == BeginAcquire(Id, Shared)
    ensures Reached(es, 10, 13, Marked) && Reached(es, 13, 13, Underneath)
  {
    DisposingSent(es);
    DisposingAnswered(es);
    DisposingEnded(es);
    DisposingTaken(es);
    DisposingMarked(es);
    MarkedAnswered(es);
    MarkedGranted(es);
    MarkedDetached(es);
  }

  lemma DetachUnderLease()
    ensures Underneath.pending == map[6 := Detach(Id)]
    ensures 3 in Underneath.leases && IsActive(Underneath, 3) && Underneath.leases[3].session == Id
  {}

  lemma OvertakingRun(es: seq<Event>)
    requires es == Overtaking
    ensures Reached(es, 10, 13, Marked) && Reached(es, 13, 13, Underneath)
  {
    OvertakingHeld(es);
    OvertakingEvents(es);
    OvertakingSteps(es);
  }

  lemma OvertakingEvents(es: seq<Event>)
    requires es == Overtaking
    ensures |es| == 13
    ensures es[4] == BeginRelease(0, true) && es[5] == Respond(2, Failed, false) && es[6] == Snapshot(Id, false)
    ensures es[7] == ResumeRelease(0) && es[8] == BeginAcquire(Id, Shared) && es[9] == CatchRelease(0)
    ensures es[10] == Respond(4, Acked, true) && es[11] == ResumeAcquire(3) && es[12] == BeginAcquire(Id, Shared)
  {}

  /** The session is marked while its attach is out. */
  lemma DisposeMarksAttaching()
    ensures Reached(Overtaking, 10, 13, Marked) && Marked.pending == map[4 := Attach(Id)] && Id in Marked.cleanup
  {
    OvertakingRun(Overtaking);
  }

  /** Later it is detached under an active lease. */
  lemma DisposeOvertaken()
    ensures Reached(Overtaking, 13, 13, Underneath) && Underneath.pending == map[6 := Detach(Id)]
    ensures 3 in Underneath.leases && IsActive(Underneath, 3) && Underneath.leases[3].session == Id
  {
    DetachUnderLease();
    OvertakingRun(Overtaking);
  }
}
