/** Exactly when every active lease has a snapshot to show: which events take the snapshot of an
    active lease away, and which make a lease active whose session has none. */
module LeaseSight {
  import L = Leases
  import I = LeaseInvariant
  import T = LeaseSteps
  import C = SessionCache
  import opened LeaseSegments
  import opened LeaseCache

  // ---------- the two ways to lose sight ----------

  /** Every active lease has a snapshot to show. */
  ghost predicate Sees(j: State) { forall t :: !Blind(j, t) }

  /** Lease `t` of the session is active. */
  ghost predicate Holds(j: State, t: L.Token, id: SessionId) {
    t in j.leases.leases && L.IsActive(j.leases, t) && j.leases.leases[t].session == id
  }

  predicate Unseen(c: C.State, id: SessionId) { id in c.attached && id !in c.snapshots }

  /** The session that an event makes an active lease of, if it is attached. */
  function Leased(s: L.State, e: L.Event): set<SessionId>
    requires L.Enabled(s, e)
  {
    match e
    case BeginAcquire(id, mode) =>
      if !s.disposed && L.CanReserve(s, id, mode) && id !in s.detachments && id !in s.cleanup && id in s.attached
      then {id} else {}
    case ResumeAcquire(t) =>
      var a := s.acquisitions[t];
      (match a.wait
       case OnDetachment(_) => if a.session !in s.cleanup && a.session in s.attached then {a.session} else {}
       case OnReconciliation(_) => {}
       case OnAttachment(p) => if Rejected(s, p) then {} else {a.session})
    case ResumeCreate(p) =>
      if s.settled[p].Created? && L.CanReserve(s, s.settled[p].session, L.Exclusive)
      then {s.settled[p].session} else {}
    case CatchRelease(t) =>
      if s.leases[t].phase == L.Failing(false) && !L.IsStale(s, t) then {s.leases[t].session} else {}
    case _ => {}
  }

  /** An attached session with an active lease is attached again. */
  ghost predicate Strips(j: State, e: Event) {
    Reattaches(j, e) && exists t :: Holds(j, t, j.leases.acquisitions[e.event.token].session)
  }

  /** A lease becomes active of a session that is attached but has no stored snapshot. */
  predicate Exposes(j: State, e: Event) {
    e.Segment? && L.Enabled(j.leases, e.event) && exists id | id in Leased(j.leases, e.event) :: Unseen(j.cache, id)
  }

  ghost predicate Blinds(j: State, e: Event) { Strips(j, e) || Exposes(j, e) }

  // ---------- which leases an event makes active ----------

  predicate Live(s: L.State, t: L.Token) { t in s.leases && s.leases[t].phase.Active? && !L.IsStale(s, t) }

  /** Every live lease was one before, of the same session, or is of a session in `gained`. */
  ghost predicate Wakes(s: L.State, r: L.State, gained: set<SessionId>) {
    && I.Generations(r)
    && (forall t | Live(r, t) :: r.leases[t].session in gained
                                 || (Live(s, t) && s.leases[t].session == r.leases[t].session))
    && (forall id | id in gained :: exists t :: LiveOf(r, t, id))
  }

  predicate LiveOf(s: L.State, t: L.Token, id: SessionId) { Live(s, t) && s.leases[t].session == id }

  predicate SameLeases(s: L.State, r: L.State) { r.leases == s.leases && r.generations == s.generations }

  lemma SameWakes(s: L.State, r: L.State)
    requires I.Generations(s) && SameLeases(s, r)
    ensures Wakes(s, r, {})
  {
    forall t | Live(r, t) ensures Live(s, t) {}
  }

  lemma GrantedWakes(s: L.State, m: L.State, t: L.Token, id: SessionId, mode: L.Mode)
    requires I.Generations(s) && SameLeases(s, m)
    ensures Wakes(s, L.Granted(m, t, id, mode), {id})
  {
    var r := L.Granted(m, t, id, mode);
    assert LiveOf(r, t, id);
    forall u | Live(r, u) && u != t ensures Live(s, u) && s.leases[u] == r.leases[u] {}
  }

  lemma PhaseWakes(s: L.State, m: L.State, t: L.Token, phase: L.Phase)
    requires I.Generations(s) && SameLeases(s, m) && t in s.leases
    ensures Wakes(s, L.SetPhase(m, t, phase),
                  if phase.Active? && !L.IsStale(s, t) then {s.leases[t].session} else {})
  {
    var r := L.SetPhase(m, t, phase);
    if phase.Active? && !L.IsStale(s, t) { assert LiveOf(r, t, s.leases[t].session); }
    forall u | Live(r, u) && u != t ensures Live(s, u) && s.leases[u] == r.leases[u] {}
  }

  lemma CarriedWakes(s: L.State, m: L.State, t: L.Token, id: SessionId, mode: L.Mode, epoch: nat, d: L.Decision)
    requires I.Generations(s) && SameLeases(s, m) && T.Decided(m, d)
    ensures Wakes(s, L.Carried(m, t, id, mode, epoch, d), if d.Grant? then {id} else {})
  {
    var r := L.Carried(m, t, id, mode, epoch, d);
    if d.Grant? { GrantedWakes(s, m, t, id, mode); } else { SameWakes(s, r); }
  }

  lemma AttachGrants(s: L.State, id: SessionId, reconciled: bool)
    ensures L.CheckAttached(s, id, reconciled).Grant? <==> !reconciled && id in s.attached
  {}

  lemma CleanupGrants(s: L.State, id: SessionId)
    ensures L.CheckCleanup(s, id).Grant? <==> id !in s.cleanup && id in s.attached
  {
    AttachGrants(s, id, false);
  }

  lemma AcquireWakes(s: L.State, id: SessionId, mode: L.Mode)
    requires I.Generations(s)
    ensures Wakes(s, L.Acquire(s, id, mode), Leased(s, L.BeginAcquire(id, mode)))
  {
    if s.disposed || !L.CanReserve(s, id, mode) {
      SameWakes(s, s);
    } else {
      var m := L.Reserved(s, id, mode);
      CleanupGrants(m, id);
      T.DetachmentDecides(m, id);
      CarriedWakes(s, m, s.next, id, mode, s.epoch, L.CheckDetachment(m, id));
    }
  }

  lemma LeftWakes(s: L.State, m: L.State, t: L.Token, id: SessionId, mode: L.Mode)
    requires I.Generations(s) && SameLeases(s, m)
    ensures Wakes(s, L.Abandoned(m, t, id), {}) && Wakes(s, L.Granted(m, t, id, mode), {id})
  {
    SameWakes(s, L.Abandoned(m, t, id));
    GrantedWakes(s, m, t, id, mode);
  }

  lemma ResumeWakes(s: L.State, t: L.Token)
    requires I.Generations(s) && L.CanResume(s, t)
    ensures Wakes(s, L.ContinueAcquire(s, t), Leased(s, L.ResumeAcquire(t)))
  {
    var a := s.acquisitions[t];
    match a.wait
    case OnDetachment(_) =>
      CleanupGrants(s, a.session);
      T.CheckDecides(s, a.session);
      CarriedWakes(s, s, t, a.session, a.mode, a.epoch, L.CheckCleanup(s, a.session));
    case OnReconciliation(_) =>
      LeftWakes(s, s, t, a.session, a.mode);
      AttachGrants(s, a.session, true);
      T.AttachDecides(s, a.session, true);
      CarriedWakes(s, s, t, a.session, a.mode, a.epoch, L.CheckAttached(s, a.session, true));
    case OnAttachment(p) => LeftWakes(s, L.ForgetAttachment(s, a.session, p), t, a.session, a.mode);
  }

  lemma CreateWakes(s: L.State, p: L.Promise)
    requires I.Generations(s) && L.Enabled(s, L.ResumeCreate(p))
    ensures Wakes(s, L.ContinueCreate(s, p), Leased(s, L.ResumeCreate(p)))
  {
    var m := s.(creations := s.creations - {p});
    SameWakes(s, m);
    if s.settled[p].Created? {
      var id := s.settled[p].session;
      var k := L.Reserved(m, id, L.Exclusive);
      GrantedWakes(s, k, m.next, id, L.Exclusive);
    }
  }

  lemma ReleaseWakes(s: L.State, t: L.Token, relinquish: bool)
    requires I.Generations(s) && t in s.leases
    ensures Wakes(s, L.Release(s, t, relinquish), {})
  {
    var r := L.Release(s, t, relinquish);
    T.ReleaseShape(s, t, relinquish, r);
    if r == L.Refreshed(s, t) {
      RefreshedWakes(s, t);
    } else if r == L.DetachSent(s, t, relinquish) {
      DetachSentWakes(s, t, relinquish);
    } else {
      GivenBackWakes(s, t);
    }
  }

  lemma RefreshedWakes(s: L.State, t: L.Token)
    requires I.Generations(s) && t in s.leases
    ensures Wakes(s, L.Refreshed(s, t), {})
  {
    SameWakes(s, s);
    PhaseWakes(s, s, t, L.Invalidated);
  }

  lemma GivenBackWakes(s: L.State, t: L.Token)
    requires I.Generations(s) && t in s.leases
    ensures Wakes(s, L.SetPhase(L.Unreserved(s, s.leases[t].session, t), t, L.Released), {})
  {
    PhaseWakes(s, L.Unreserved(s, s.leases[t].session, t), t, L.Released);
  }

  lemma DetachSentWakes(s: L.State, t: L.Token, relinquish: bool)
    requires I.Generations(s) && t in s.leases
    ensures Wakes(s, L.DetachSent(s, t, relinquish), {})
  {
    var id := s.leases[t].session;
    var m := L.Sent(s, L.Detach(id)).(detachments := L.Sent(s, L.Detach(id)).detachments[id := s.next]);
    PhaseWakes(s, m, t, L.Detaching(s.next, relinquish));
  }

  lemma ReleasedWakes(s: L.State, t: L.Token)
    requires I.Generations(s) && L.Enabled(s, L.ResumeRelease(t))
    ensures Wakes(s, L.ContinueRelease(s, t), {})
  {
    var id := s.leases[t].session;
    var m := L.ForgetDetachment(s, id, s.leases[t].phase.promise);
    PhaseWakes(s, m, t, L.Failing(s.leases[t].phase.relinquish));
    PhaseWakes(s, L.Unreserved(m, id, t), t, L.Released);
  }

  lemma CaughtWakes(s: L.State, t: L.Token)
    requires I.Generations(s) && L.Enabled(s, L.CatchRelease(t))
    ensures Wakes(s, L.CatchFailedRelease(s, t), Leased(s, L.CatchRelease(t)))
  {
    var id := s.leases[t].session;
    PhaseWakes(s, s, t, L.Invalidated);
    PhaseWakes(s, s, t, L.Active);
    PhaseWakes(s, L.Unreserved(s, id, t).(cleanup := s.cleanup + {id}), t, L.Released);
  }

  /** A segment makes leases active of the sessions in `Leased` exactly. */
  lemma SegmentWakes(s: L.State, e: L.Event)
    requires I.Generations(s) && IsSegment(e) && L.Enabled(s, e)
    ensures Wakes(s, L.Apply(s, e), Leased(s, e))
  {
    match e
    case BeginAcquire(id, mode) => AcquireWakes(s, id, mode);
    case ResumeAcquire(t) => ResumeWakes(s, t);
    case ResumeCreate(p) => CreateWakes(s, p);
    case BeginRelease(t, relinquish) => ReleaseWakes(s, t, relinquish);
    case ResumeRelease(t) => ReleasedWakes(s, t);
    case CatchRelease(t) => CaughtWakes(s, t);
    case _ => SameWakes(s, L.Apply(s, e));
  }

  // ---------- the other events ----------

  lemma InvalidatedWakes(s: L.State, r: L.State, ids: set<SessionId>)
    requires I.Generations(s) && r.leases == s.leases
    requires forall id | id in s.generations || id in ids :: id in r.generations
    requires forall id | id in r.generations ::
               r.generations[id] == if id in ids then L.Generation(s, id) + 1 else L.Generation(s, id)
    ensures Wakes(s, r, {})
  {
    forall t | Live(r, t) ensures Live(s, t) {}
  }

  lemma CutWakes(s: L.State, r: L.State)
    requires I.Generations(s) && r.leases == L.Cut(s).leases && r.generations == L.Cut(s).generations
    ensures Wakes(s, r, {})
  {
    InvalidatedWakes(s, r, s.counts.Keys);
  }

  lemma RemovedWakes(j: State, id: SessionId)
    requires I.Generations(j.leases) && Enabled(j, Removed(id))
    ensures Wakes(j.leases, Apply(j, Removed(id)).leases, {})
  {
    InvalidatedWakes(j.leases, L.Apply(j.leases, L.SessionRemoved(id)), {id});
  }

  lemma DisconnectWakes(j: State)
    requires I.Generations(j.leases) && Enabled(j, Disconnect)
    ensures Wakes(j.leases, Apply(j, Disconnect).leases, {})
  {
    CutWakes(j.leases, L.Apply(j.leases, L.Disconnect));
  }

  lemma DisposeWakes(j: State)
    requires I.Generations(j.leases) && Enabled(j, Dispose)
    ensures Wakes(j.leases, Apply(j, Dispose).leases, {})
  {
    CutWakes(j.leases, L.Apply(j.leases, L.Dispose));
  }

  lemma QuietWakes(j: State, e: Event)
    requires I.Generations(j.leases) && Enabled(j, e)
    requires !e.Segment? && !e.Removed? && !e.Disconnect? && !e.Dispose?
    ensures Wakes(j.leases, Apply(j, e).leases, {})
  {
    SameWakes(j.leases, Apply(j, e).leases);
  }

  /** Nothing but a segment makes a lease active. */
  lemma OtherWakes(j: State, e: Event)
    requires I.Generations(j.leases) && Enabled(j, e) && !e.Segment?
    ensures Wakes(j.leases, Apply(j, e).leases, {})
  {
    match e
    case Removed(id) => RemovedWakes(j, id);
    case Disconnect => DisconnectWakes(j);
    case Dispose => DisposeWakes(j);
    case _ => QuietWakes(j, e);
  }

  lemma KeepGenerations(j: State, e: Event)
    requires I.Generations(j.leases) && Enabled(j, e)
    ensures I.Generations(Apply(j, e).leases)
  {
    if e.Segment? { SegmentWakes(j.leases, e.event); } else { OtherWakes(j, e); }
  }

  /** Only an attach request leaves an attached session without a stored snapshot. */
  lemma StoredUnseen(c: C.State, snap: C.Snapshot, force: bool, id: SessionId)
    ensures Unseen(C.Stored(c, snap, force), id) ==> Unseen(c, id)
  {}

  lemma AnswerUnseen(c: C.State, command: L.Command, body: Body, id: SessionId)
    ensures Unseen(CacheAnswer(c, command, body), id) ==> Unseen(c, id)
  {
    match body
    case Nothing =>
    case SessionBody(snap) => StoredUnseen(c, snap, false, id);
    case DetachBody(k) =>
      var m := c.(attached := c.attached - {k});
      if k in c.snapshots { StoredUnseen(m, c.snapshots[k].(attached := false), true, id); }
  }

  lemma OtherUnseen(j: State, e: Event, id: SessionId)
    requires Enabled(j, e) && !e.Segment?
    ensures Unseen(Apply(j, e).cache, id) ==> Unseen(j.cache, id)
  {
    match e
    case Answer(p, outcome, body) => AnswerUnseen(j.cache, j.leases.pending[p], body, id);
    case Message(snap) => StoredUnseen(j.cache, snap, false, id);
    case _ =>
  }

  // ---------- exactly when every active lease has a snapshot ----------

  lemma BlindMeans(j: State, t: L.Token)
    requires j.leases.attached == j.cache.attached
    ensures Blind(j, t) <==> Live(j.leases, t) && Unseen(j.cache, j.leases.leases[t].session)
  {}

  lemma OtherSees(j: State, e: Event)
    requires Coupled(j) && I.Generations(j.leases) && Sees(j) && Enabled(j, e) && !e.Segment?
    ensures Sees(Apply(j, e))
  {
    var r := Apply(j, e);
    KeepCoupled(j, e);
    OtherWakes(j, e);
    forall t ensures !Blind(r, t) {
      BlindMeans(r, t);
      BlindMeans(j, t);
      if Blind(r, t) { OtherUnseen(j, e, r.leases.leases[t].session); }
    }
  }

  /** The only session whose snapshot a segment takes. */
  lemma SegmentUnseen(j: State, e: L.Event, id: SessionId)
    requires Coupled(j) && Enabled(j, Segment(e)) && id in j.cache.attached
    ensures Unseen(Apply(j, Segment(e)).cache, id)
            <==> Unseen(j.cache, id)
                 || (Reattaches(j, Segment(e)) && j.leases.acquisitions[e.token].session == id)
  {
    match e
    case BeginAcquire(k, mode) => if k == id { AcquireNeverReattaches(j.leases, id, mode); }
    case ResumeAcquire(t) => if j.leases.acquisitions[t].session == id { AttachedAgainExactly(j.leases, t); }
    case _ =>
  }

  lemma ReattachCarries(s: L.State, t: L.Token, a: L.Acquisition)
    requires L.Enabled(s, L.ResumeAcquire(t)) && s.acquisitions[t] == a
    requires a.wait.OnReconciliation? && !Rejected(s, a.wait.promise)
    ensures SameLeases(s, L.ContinueAcquire(s, t))
  {
    AttachGrants(s, a.session, true);
    T.AttachDecides(s, a.session, true);
  }

  lemma StripsBlinds(j: State, e: L.Event)
    requires Coupled(j) && Enabled(j, Segment(e)) && Strips(j, Segment(e))
    ensures !Sees(Apply(j, Segment(e)))
  {
    var id := j.leases.acquisitions[e.token].session;
    var t :| Holds(j, t, id);
    KeepCoupled(j, Segment(e));
    SegmentGoes(j.leases, e);
    SegmentUnseen(j, e, id);
    ReattachCarries(j.leases, e.token, j.leases.acquisitions[e.token]);
    assert Blind(Apply(j, Segment(e)), t);
  }

  lemma ExposesBlinds(j: State, e: L.Event)
    requires Coupled(j) && I.Generations(j.leases) && Enabled(j, Segment(e)) && Exposes(j, Segment(e))
    ensures !Sees(Apply(j, Segment(e)))
  {
    var r := Apply(j, Segment(e));
    var id :| id in Leased(j.leases, e) && Unseen(j.cache, id);
    SegmentWakes(j.leases, e);
    var t :| LiveOf(r.leases, t, id);
    KeepCoupled(j, Segment(e));
    SegmentGoes(j.leases, e);
    SegmentUnseen(j, e, id);
    BlindMeans(r, t);
  }

  lemma SegmentSees(j: State, e: L.Event, t: L.Token)
    requires Coupled(j) && I.Generations(j.leases) && Sees(j) && Enabled(j, Segment(e)) && !Blinds(j, Segment(e))
    ensures !Blind(Apply(j, Segment(e)), t)
  {
    var r := Apply(j, Segment(e));
    KeepCoupled(j, Segment(e));
    SegmentGoes(j.leases, e);
    SegmentWakes(j.leases, e);
    BlindMeans(r, t);
    if Blind(r, t) {
      var id := r.leases.leases[t].session;
      SegmentUnseen(j, e, id);
      ReattachedNotLeased(j, e);
      BlindMeans(j, t);
      if id !in Leased(j.leases, e) { assert Holds(j, t, id); }
    }
  }

  lemma ReattachedNotLeased(j: State, e: L.Event)
    requires L.Enabled(j.leases, e)
    ensures Reattaches(j, Segment(e)) ==> Leased(j.leases, e) == {}
  {}

  /** Every active lease goes on having a snapshot, exactly if the event neither attaches again a
      session with an active lease nor makes a lease active of an attached session that has no
      stored snapshot. */
  lemma LeasesSeeExactly(j: State, e: Event)
    requires Coupled(j) && I.Generations(j.leases) && Sees(j) && Enabled(j, e)
    ensures Sees(Apply(j, e)) <==> !Blinds(j, e)
  {
    match e
    case Segment(e1) =>
      if Strips(j, e) {
        StripsBlinds(j, e1);
      } else if Exposes(j, e) {
        ExposesBlinds(j, e1);
      } else {
        forall t ensures !Blind(Apply(j, e), t) { SegmentSees(j, e1, t); }
      }
    case _ => OtherSees(j, e);
  }

  /** While every attached session has a stored snapshot, only the first way is open. */
  lemma PlainSeesExactly(j: State, e: Event)
    requires Coupled(j) && I.Generations(j.leases) && Plain(j) && Enabled(j, e)
    ensures Sees(Apply(j, e)) <==> !Strips(j, e)
  {
    forall t ensures !Blind(j, t) { PlainSees(j, t); }
    LeasesSeeExactly(j, e);
    assert forall id :: Unseen(j.cache, id) ==> !HasSnapshot(j.cache, id);
  }

  // ---------- runs ----------

  ghost predicate NeverBlinds(j: State, es: seq<Event>)
    requires Runs(j, es)
    decreases es
  {
    es != [] ==> !Blinds(j, es[0]) && NeverBlinds(Apply(j, es[0]), es[1..])
  }

  ghost predicate SeesThroughout(j: State, es: seq<Event>)
    requires Runs(j, es)
    decreases es
  {
    Sees(j) && (es != [] ==> SeesThroughout(Apply(j, es[0]), es[1..]))
  }

  lemma {:induction false} SeesRunExactly(j: State, es: seq<Event>)
    requires Coupled(j) && I.Generations(j.leases) && Sees(j) && Runs(j, es)
    ensures SeesThroughout(j, es) <==> NeverBlinds(j, es)
    decreases es
  {
    if es != [] {
      KeepCoupled(j, es[0]);
      KeepGenerations(j, es[0]);
      LeasesSeeExactly(j, es[0]);
      if !Blinds(j, es[0]) { SeesRunExactly(Apply(j, es[0]), es[1..]); }
    }
  }

  /** From the start: in every state of a run every active lease has a snapshot, exactly if no event
      of the run takes the snapshot of an active lease or makes a lease active that has none. */
  lemma LeasesSeeThroughoutExactly(es: seq<Event>)
    requires Runs(Init, es)
    ensures SeesThroughout(Init, es) <==> NeverBlinds(Init, es)
  {
    SeesRunExactly(Init, es);
  }
}
