/** What the segments of the lease protocol do to requests and to the table of attach requests. */
module LeaseSegments {
  import opened Leases
  import opened LeaseSteps

  /** The code of the client between two awaits. */
  predicate IsSegment(e: Event) {
    match e
    case Respond(_, _, _) => false
    case Snapshot(_, _) => false
    case SessionRemoved(_) => false
    case Connect => false
    case Disconnect => false
    case Dispose => false
    case _ => true
  }

  /** The event is a segment of an acquisition of the session. */
  predicate About(s: State, e: Event, id: SessionId)
    requires Enabled(s, e)
  {
    match e
    case BeginAcquire(k, _) => k == id
    case ResumeAcquire(t) => s.acquisitions[t].session == id
    case _ => false
  }

  /** From `s` to `r` an attach request of the session has been issued. */
  predicate Attaches(s: State, r: State, id: SessionId) {
    id in r.attachments && id !in s.attachments
  }

  predicate Rejected(s: State, p: Promise) { p in s.settled && s.settled[p] == Failed }

  /** Promises are named freshly, and every pending attach is the shared one of its session. */
  ghost predicate Wired(s: State) {
    && (forall p | p in s.pending :: p < s.next && p !in s.settled)
    && (forall p | p in s.settled :: p < s.next)
    && (forall p | p in s.pending && s.pending[p].Attach? :: Shared(s, s.pending[p].session, p))
    && (forall id | id in s.attachments :: Awaited(s, id, s.attachments[id]))
    && (!s.connected ==> s.attached == {})
  }

  predicate Shared(s: State, id: SessionId, p: Promise) { id in s.attachments && s.attachments[id] == p }

  predicate Awaited(s: State, id: SessionId, p: Promise) {
    p in s.settled || (p in s.pending && s.pending[p] == Attach(id))
  }

  predicate Fresh(s: State, r: State, p: Promise) { s.next <= p < r.next }

  /** The promises of `s` stay as they are; requests issued on the way to `r` have fresh names. */
  ghost predicate Issues(s: State, r: State) {
    && s.next <= r.next
    && (forall p | p in s.pending :: p in r.pending && r.pending[p] == s.pending[p])
    && (forall p | p in s.settled :: p in r.settled && r.settled[p] == s.settled[p])
    && (forall p | p in r.pending && p !in s.pending :: Fresh(s, r, p) && p !in r.settled)
    && (forall p | p in r.settled && p !in s.settled :: Fresh(s, r, p) && r.settled[p] == Failed)
  }

  /** New attach requests are the shared ones of their sessions, and conversely. */
  ghost predicate Shares(s: State, r: State) {
    && (forall p | p in r.pending && p !in s.pending && r.pending[p].Attach? :: Shared(r, r.pending[p].session, p))
    && (forall id | id in s.attachments && id in r.attachments :: r.attachments[id] == s.attachments[id])
    && (forall id | Attaches(s, r, id) :: Fresh(s, r, r.attachments[id]) && Underway(r, id, r.attachments[id]))
  }

  /** The attach request is out, or it has been rejected. */
  predicate Underway(s: State, id: SessionId, p: Promise) {
    Rejected(s, p) || (p in s.pending && s.pending[p] == Attach(id))
  }

  /** Sessions leave the table of attach requests only by the end of the acquisition that waits. */
  ghost predicate Clears(s: State, r: State, e: Event)
    requires Enabled(s, e)
  {
    forall id | id in s.attachments && id !in r.attachments ::
      && e.ResumeAcquire? && s.acquisitions[e.token].session == id
      && s.acquisitions[e.token].wait == OnAttachment(s.attachments[id])
  }

  ghost predicate Goes(s: State, r: State, e: Event)
    requires Enabled(s, e)
  {
    && r.attached == s.attached && r.connected == s.connected && r.disposed == s.disposed
    && Issues(s, r) && Shares(s, r) && Clears(s, r, e)
    && (forall id | Attaches(s, r, id) :: About(s, e, id))
  }

  /** `r` has issued one request as promise `n`, whatever else it changed. */
  ghost predicate Sends(s: State, r: State, n: Promise, command: Command) {
    && s.next <= n < r.next
    && (|| (r.pending == s.pending[n := command] && r.settled == s.settled)
        || (r.pending == s.pending && r.settled == s.settled[n := Failed]))
  }

  ghost predicate Quiet(s: State, r: State) {
    r.pending == s.pending && r.settled == s.settled && s.next <= r.next
  }

  ghost predicate SameLink(s: State, r: State) {
    r.attached == s.attached && r.connected == s.connected && r.disposed == s.disposed
  }

  /** Nothing is sent and no attach request is entered or left. */
  ghost predicate Still(s: State, r: State) {
    SameLink(s, r) && Quiet(s, r) && r.attachments == s.attachments
  }

  lemma SendsIssues(s: State, r: State, n: Promise, command: Command)
    requires Wired(s) && Sends(s, r, n, command)
    ensures Issues(s, r)
    ensures forall p | p in r.pending && p !in s.pending :: p == n && r.pending[p] == command
    ensures Rejected(r, n) || (n in r.pending && r.pending[n] == command)
  {}

  lemma QuietGoes(s: State, r: State, e: Event)
    requires Wired(s) && Enabled(s, e) && Still(s, r)
    ensures Goes(s, r, e)
  {}

  lemma SendsGoes(s: State, r: State, e: Event, n: Promise, command: Command)
    requires Wired(s) && Enabled(s, e) && SameLink(s, r) && Sends(s, r, n, command)
    requires !command.Attach? && r.attachments == s.attachments
    ensures Goes(s, r, e)
  {
    SendsIssues(s, r, n, command);
  }

  lemma AttachGoes(s: State, r: State, e: Event, n: Promise, id: SessionId)
    requires Wired(s) && Enabled(s, e) && SameLink(s, r) && Sends(s, r, n, Attach(id))
    requires id !in s.attachments && r.attachments == s.attachments[id := n] && About(s, e, id)
    ensures Goes(s, r, e)
  {
    SendsIssues(s, r, n, Attach(id));
  }

  /** What an acquisition segment may do before it waits or is done. */
  ghost predicate Asks(s: State, r: State, n: Promise, id: SessionId) {
    && SameLink(s, r)
    && (|| Still(s, r)
        || (Sends(s, r, n, Detach(id)) && r.attachments == s.attachments)
        || (Sends(s, r, n, Attach(id)) && id !in s.attachments && r.attachments == s.attachments[id := n]))
  }

  lemma AsksGoes(s: State, r: State, e: Event, n: Promise, id: SessionId)
    requires Wired(s) && Enabled(s, e) && About(s, e, id) && Asks(s, r, n, id)
    ensures Goes(s, r, e)
  {
    if Still(s, r) {
      QuietGoes(s, r, e);
    } else if r.attachments == s.attachments {
      SendsGoes(s, r, e, n, Detach(id));
    } else {
      AttachGoes(s, r, e, n, id);
    }
  }

  lemma AttachSentAsks(s: State, id: SessionId, r: State)
    requires id !in s.attachments && r == Sent(s, Attach(id)).(attachments := s.attachments[id := s.next])
    ensures Sends(s, r, s.next, Attach(id)) && Asks(s, r, s.next, id)
  {}

  lemma AttachAsks(s: State, id: SessionId, reconciled: bool)
    ensures
      var d := CheckAttached(s, id, reconciled);
      d.Await? ==> Asks(s, d.state, s.next, id)
  {
    if id in s.attachments {
      assert Still(s, s);
    } else {
      AttachSentAsks(s, id, Sent(s, Attach(id)).(attachments := s.attachments[id := s.next]));
    }
  }

  lemma DetachAsks(s: State, id: SessionId, r: State)
    requires r == Sent(s, Detach(id)).(reconciliations := s.reconciliations[id := s.next])
    ensures Asks(s, r, s.next, id)
  {}

  lemma CleanupAsks(s: State, id: SessionId)
    ensures
      var d := CheckCleanup(s, id);
      d.Await? ==> Asks(s, d.state, s.next, id)
  {
    if id !in s.cleanup {
      AttachAsks(s, id, false);
    } else if id !in s.reconciliations {
      DetachAsks(s, id, CheckCleanup(s, id).state);
    }
  }

  lemma DetachmentAsks(s: State, id: SessionId)
    ensures
      var d := CheckDetachment(s, id);
      d.Await? ==> Asks(s, d.state, s.next, id)
  {
    CleanupAsks(s, id);
  }

  lemma CarriedAsks(s: State, t: Token, id: SessionId, mode: Mode, epoch: nat, d: Decision)
    requires d.Await? ==> Asks(s, d.state, s.next, id)
    ensures Asks(s, Carried(s, t, id, mode, epoch, d), s.next, id)
  {}

  lemma ReservedAsks(s: State, m: State, r: State, id: SessionId, mode: Mode)
    requires m == Reserved(s, id, mode) && Asks(m, r, m.next, id)
    ensures Asks(s, r, m.next, id)
  {}

  lemma AcquireGoes(s: State, id: SessionId, mode: Mode)
    requires Wired(s)
    ensures Goes(s, Acquire(s, id, mode), BeginAcquire(id, mode))
  {
    var r := Acquire(s, id, mode);
    var m := Reserved(s, id, mode);
    if s.disposed || !CanReserve(s, id, mode) {
      QuietGoes(s, r, BeginAcquire(id, mode));
    } else {
      DetachmentAsks(m, id);
      CarriedAsks(m, s.next, id, mode, s.epoch, CheckDetachment(m, id));
      ReservedAsks(s, m, r, id, mode);
      AsksGoes(s, r, BeginAcquire(id, mode), m.next, id);
    }
  }

  lemma UnreservedStill(s: State, id: SessionId, t: Token)
    ensures Still(s, Unreserved(s, id, t))
  {}

  lemma AbandonedStill(s: State, t: Token, id: SessionId)
    ensures Still(s, Abandoned(s, t, id))
  {}

  lemma GrantedStill(s: State, t: Token, id: SessionId, mode: Mode)
    ensures Still(s, Granted(s, t, id, mode))
  {}

  lemma ReservedStill(s: State, id: SessionId, mode: Mode)
    ensures Still(s, Reserved(s, id, mode))
  {}

  lemma PhaseStill(s: State, t: Token, phase: Phase)
    requires t in s.leases
    ensures Still(s, SetPhase(s, t, phase))
  {}

  lemma LeftGoes(s: State, r: State, t: Token, id: SessionId, p: Promise)
    requires Wired(s) && Enabled(s, ResumeAcquire(t)) && SameLink(s, r) && Quiet(s, r)
    requires s.acquisitions[t].session == id && s.acquisitions[t].wait == OnAttachment(p)
    requires r.attachments == Without(s.attachments, id, p)
    ensures Goes(s, r, ResumeAcquire(t))
  {}

  lemma AttachedGoes(s: State, m: State, t: Token, id: SessionId, p: Promise)
    requires Wired(s) && Enabled(s, ResumeAcquire(t))
    requires s.acquisitions[t].session == id && s.acquisitions[t].wait == OnAttachment(p)
    requires m == ForgetAttachment(s, id, p)
    ensures Goes(s, Abandoned(m, t, id), ResumeAcquire(t))
    ensures Goes(s, Granted(m, t, id, s.acquisitions[t].mode), ResumeAcquire(t))
  {
    AbandonedStill(m, t, id);
    GrantedStill(m, t, id, s.acquisitions[t].mode);
    LeftGoes(s, Abandoned(m, t, id), t, id, p);
    LeftGoes(s, Granted(m, t, id, s.acquisitions[t].mode), t, id, p);
  }

  lemma ResumeGoes(s: State, t: Token)
    requires Wired(s) && Enabled(s, ResumeAcquire(t))
    ensures Goes(s, ContinueAcquire(s, t), ResumeAcquire(t))
  {
    var a := s.acquisitions[t];
    match a.wait
    case OnDetachment(_) =>
      CleanupAsks(s, a.session);
      DecidedGoes(s, t, a, CheckCleanup(s, a.session));
    case OnReconciliation(p) =>
      AbandonedStill(s, t, a.session);
      QuietGoes(s, Abandoned(s, t, a.session), ResumeAcquire(t));
      AttachAsks(s, a.session, true);
      DecidedGoes(s, t, a, CheckAttached(s, a.session, true));
    case OnAttachment(p) => AttachedGoes(s, ForgetAttachment(s, a.session, p), t, a.session, p);
  }

  lemma DecidedGoes(s: State, t: Token, a: Acquisition, d: Decision)
    requires Wired(s) && Enabled(s, ResumeAcquire(t)) && a == s.acquisitions[t]
    requires d.Await? ==> Asks(s, d.state, s.next, a.session)
    ensures Goes(s, Carried(s, t, a.session, a.mode, a.epoch, d), ResumeAcquire(t))
  {
    CarriedAsks(s, t, a.session, a.mode, a.epoch, d);
    AsksGoes(s, Carried(s, t, a.session, a.mode, a.epoch, d), ResumeAcquire(t), s.next, a.session);
  }

  lemma ReleaseGoes(s: State, t: Token, relinquish: bool)
    requires Wired(s) && t in s.leases
    ensures Goes(s, Release(s, t, relinquish), BeginRelease(t, relinquish))
  {
    var r := Release(s, t, relinquish);
    var id := s.leases[t].session;
    ReleaseShape(s, t, relinquish, r);
    PhaseStill(s, t, Invalidated);
    UnreservedStill(s, id, t);
    PhaseStill(Unreserved(s, id, t), t, Released);
    if r == DetachSent(s, t, relinquish) {
      DetachSentShape(s, r, t, relinquish);
      DetachSentGoes(s, r, t, relinquish);
    } else {
      QuietGoes(s, r, BeginRelease(t, relinquish));
    }
  }

  lemma DetachSentGoes(s: State, r: State, t: Token, relinquish: bool)
    requires Wired(s) && t in s.leases && r == DetachSent(s, t, relinquish)
    ensures Goes(s, r, BeginRelease(t, relinquish))
  {
    DetachSentShape(s, r, t, relinquish);
    SendsGoes(s, r, BeginRelease(t, relinquish), s.next, Detach(s.leases[t].session));
  }

  lemma CreatedStill(s: State, p: Promise)
    requires p in s.settled
    ensures Still(s, ContinueCreate(s, p))
  {
    var m := s.(creations := s.creations - {p});
    if s.settled[p].Created? {
      var id := s.settled[p].session;
      ReservedStill(m, id, Exclusive);
      GrantedStill(Reserved(m, id, Exclusive), m.next, id, Exclusive);
    }
  }

  lemma ReleasedStill(s: State, t: Token)
    requires Enabled(s, ResumeRelease(t))
    ensures Still(s, ContinueRelease(s, t))
  {
    var id := s.leases[t].session;
    var m := ForgetDetachment(s, id, s.leases[t].phase.promise);
    UnreservedStill(m, id, t);
    PhaseStill(m, t, Failing(s.leases[t].phase.relinquish));
    PhaseStill(Unreserved(m, id, t), t, Released);
  }

  lemma CaughtStill(s: State, t: Token)
    requires Enabled(s, CatchRelease(t))
    ensures Still(s, CatchFailedRelease(s, t))
  {
    var id := s.leases[t].session;
    var m := Unreserved(s, id, t);
    UnreservedStill(s, id, t);
    PhaseStill(s, t, Invalidated);
    PhaseStill(s, t, Active);
    PhaseStill(m.(cleanup := s.cleanup + {id}), t, Released);
  }

  lemma SegmentGoes(s: State, e: Event)
    requires Wired(s) && IsSegment(e) && Enabled(s, e)
    ensures Goes(s, Apply(s, e), e)
  {
    match e
    case BeginAcquire(id, mode) => AcquireGoes(s, id, mode);
    case ResumeAcquire(t) => ResumeGoes(s, t);
    case BeginRelease(t, relinquish) => ReleaseGoes(s, t, relinquish);
    case BeginCreate => SendsGoes(s, Apply(s, e), e, s.next, Create);
    case SendOther => SendsGoes(s, Apply(s, e), e, s.next, Other);
    case ResumeCreate(p) =>
      CreatedStill(s, p);
      QuietGoes(s, Apply(s, e), e);
    case ResumeRelease(t) =>
      ReleasedStill(s, t);
      QuietGoes(s, Apply(s, e), e);
    case CatchRelease(t) =>
      CaughtStill(s, t);
      QuietGoes(s, Apply(s, e), e);
    case ResumeReconcile(id) => QuietGoes(s, Apply(s, e), e);
  }
}
