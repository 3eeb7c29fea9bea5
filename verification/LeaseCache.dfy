/** The lease protocol and the snapshot cache of the client in one transition system: which segment
    sets a snapshot aside is decided by the lease tables, and which sessions are attached by the
    cache.  Server snapshots and progress events are left out: neither part reads them. */
module LeaseCache {
  import L = Leases
  import C = SessionCache
  import opened LeaseSegments

  type SessionId = L.SessionId

  datatype State = State(leases: L.State, cache: C.State)

  const Init := State(L.Init, C.Init)

  /** What a response carries for the cache. */
  datatype Body = Nothing | SessionBody(snapshot: C.Snapshot) | DetachBody(session: SessionId)

  /** `Restore` is the handler of a rejected attach request, `Call` the start of a connection. */
  datatype Event =
    | Segment(event: L.Event)
    | Answer(promise: L.Promise, outcome: L.Outcome, body: Body)
    | Restore(session: SessionId)
    | Message(snapshot: C.Snapshot)
    | Removed(session: SessionId)
    | Call
    | Connect
    | Disconnect
    | Dispose

  // ---------- the transition system ----------

  predicate Fits(command: L.Command, outcome: L.Outcome, body: Body) {
    match outcome
    case Failed => body == Nothing
    case Created(id) => body.SessionBody? && body.snapshot.id == id
    case Acked =>
      match command
      case Attach(_) => body.SessionBody?
      case Detach(_) => body.DetachBody?
      case _ => !body.DetachBody?
  }

  /** The handler of a rejected attach runs before what waits for that attach. */
  predicate CanFollow(j: State, e: L.Event)
    requires L.Enabled(j.leases, e)
  {
    e.ResumeAcquire? ==>
      var a := j.leases.acquisitions[e.token];
      a.wait.OnAttachment? && Shared(j.leases, a.session, a.wait.promise) ==> a.session !in j.cache.attempts
  }

  predicate Enabled(j: State, e: Event) {
    match e
    case Segment(e1) => IsSegment(e1) && L.Enabled(j.leases, e1) && CanFollow(j, e1)
    case Answer(p, outcome, body) =>
      && j.leases.connected && p in j.leases.pending
      && L.Answers(outcome, j.leases.pending[p]) && Fits(j.leases.pending[p], outcome, body)
    case Restore(id) =>
      id in j.cache.attempts && id in j.leases.attachments && Rejected(j.leases, j.leases.attachments[id])
    case Message(_) => j.leases.connected
    case Removed(_) => j.leases.connected
    case Call => !j.leases.connected && !j.leases.disposed
    case Connect => L.Enabled(j.leases, L.Connect)
    case Disconnect => L.Enabled(j.leases, L.Disconnect)
    case Dispose => L.Enabled(j.leases, L.Dispose)
  }

  /** An attach request that a segment issues sets the snapshot of its session aside. */
  function CacheSegment(c: C.State, s: L.State, r: L.State, e: L.Event): C.State
    requires L.Enabled(s, e)
  {
    match e
    case BeginAcquire(id, _) => CacheAttach(c, s, r, id)
    case ResumeAcquire(t) => CacheAttach(c, s, r, s.acquisitions[t].session)
    case _ => c
  }

  function CacheAttach(c: C.State, s: L.State, r: L.State, id: SessionId): C.State {
    if Attaches(s, r, id) then C.AttachBegun(c, id) else c
  }

  function CacheAnswer(c: C.State, command: L.Command, body: Body): C.State {
    match body
    case Nothing => c
    case DetachBody(id) => C.Apply(c, C.DetachResult(id))
    case SessionBody(snap) =>
      var c1 := C.Stored(c, snap, false);
      if command.Attach? then C.Ended(c1, command.session) else c1
  }

  /** The lease tables with the attached sessions of the cache. */
  function Seen(s: L.State, c: C.State): L.State { s.(attached := c.attached) }

  function Settled(s: L.State, p: L.Promise, outcome: L.Outcome): L.State {
    s.(pending := s.pending - {p}, settled := s.settled[p := outcome])
  }

  function Apply(j: State, e: Event): State
    requires Enabled(j, e)
  {
    var s, c := j.leases, j.cache;
    match e
    case Segment(e1) => State(L.Apply(s, e1), CacheSegment(c, s, L.Apply(s, e1), e1))
    case Answer(p, outcome, body) =>
      var c1 := CacheAnswer(c, s.pending[p], body);
      State(Seen(Settled(s, p, outcome), c1), c1)
    case Restore(id) => State(s, C.Apply(c, C.AttachFailed(id)))
    case Message(snap) =>
      var c1 := C.Stored(c, snap, false);
      State(Seen(s, c1), c1)
    case Removed(id) => State(L.Apply(s, L.SessionRemoved(id)), C.Apply(c, C.SessionRemoved(id)))
    case Call => State(s, C.Apply(c, C.Reset))
    case Connect => State(L.Apply(s, L.Connect), c)
    case Disconnect => State(L.Apply(s, L.Disconnect), C.Apply(c, C.ClearAttachments))
    case Dispose => State(L.Apply(s, L.Dispose), C.Apply(c, C.Reset))
  }

  // ---------- the invariant ----------

  /** The attached sessions are those of the cache, and a snapshot is set aside exactly as long as
      an attach request of its session is out or has just been rejected. */
  ghost predicate Coupled(j: State) {
    && Wired(j.leases) && C.AllFiled(j.cache) && j.leases.attached == j.cache.attached
    && (forall id | id in j.cache.attempts :: Trying(j.leases, id))
    && (forall p | p in j.leases.pending && j.leases.pending[p].Attach? ::
          j.leases.pending[p].session in j.cache.attempts)
  }

  predicate Trying(s: L.State, id: SessionId) { id in s.attachments && Underway(s, id, s.attachments[id]) }

  lemma GoneWired(s: L.State, r: L.State, e: L.Event)
    requires Wired(s) && L.Enabled(s, e) && Goes(s, r, e)
    ensures Wired(r)
  {
    forall p | p in r.pending && r.pending[p].Attach? ensures Shared(r, r.pending[p].session, p) {
      if p in s.pending { assert Shared(s, s.pending[p].session, p); }
    }
    forall id | id in r.attachments ensures Awaited(r, id, r.attachments[id]) {
      if id in s.attachments { assert Awaited(s, id, s.attachments[id]); } else { assert Attaches(s, r, id); }
    }
  }

  lemma SegmentFiled(j: State, e: L.Event)
    requires C.AllFiled(j.cache) && L.Enabled(j.leases, e)
    ensures C.AllFiled(CacheSegment(j.cache, j.leases, L.Apply(j.leases, e), e))
  {
    match e
    case BeginAcquire(id, _) => C.AttachBegunFiled(j.cache, id);
    case ResumeAcquire(t) => C.AttachBegunFiled(j.cache, j.leases.acquisitions[t].session);
    case _ =>
  }

  lemma SegmentCoupled(j: State, e: L.Event)
    requires Coupled(j) && Enabled(j, Segment(e))
    ensures Coupled(Apply(j, Segment(e)))
  {
    var s, r := j.leases, L.Apply(j.leases, e);
    var c := CacheSegment(j.cache, s, r, e);
    SegmentGoes(s, e);
    GoneWired(s, r, e);
    SegmentFiled(j, e);
    forall id | id in c.attempts ensures Trying(r, id) {
      if id in j.cache.attempts { assert Trying(s, id); } else { assert Attaches(s, r, id); }
    }
    forall p | p in r.pending && r.pending[p].Attach? ensures r.pending[p].session in c.attempts {
      if p !in s.pending { NewAttach(s, r, e, p); }
    }
  }

  lemma NewAttach(s: L.State, r: L.State, e: L.Event, p: L.Promise)
    requires Wired(s) && L.Enabled(s, e) && Goes(s, r, e)
    requires p in r.pending && p !in s.pending && r.pending[p].Attach?
    ensures Attaches(s, r, r.pending[p].session) && About(s, e, r.pending[p].session)
  {
    var id := r.pending[p].session;
    assert Shared(r, id, p);
    assert forall k :: k in s.attachments ==> Awaited(s, k, s.attachments[k]);
  }

  lemma SettledWired(s: L.State, p: L.Promise, outcome: L.Outcome, attached: set<SessionId>)
    requires Wired(s) && p in s.pending && s.connected
    ensures Wired(Settled(s, p, outcome).(attached := attached))
  {
    var r := Settled(s, p, outcome).(attached := attached);
    forall id | id in r.attachments ensures Awaited(r, id, r.attachments[id]) {
      assert Awaited(s, id, s.attachments[id]);
    }
    forall q | q in r.pending && r.pending[q].Attach? ensures Shared(r, r.pending[q].session, q) {
      assert Shared(s, s.pending[q].session, q);
    }
  }

  lemma CacheAnswerAttempts(c: C.State, command: L.Command, body: Body)
    ensures CacheAnswer(c, command, body).attempts
            == if body.SessionBody? && command.Attach? then c.attempts - {command.session} else c.attempts
  {}

  lemma AnswerFiled(c: C.State, command: L.Command, body: Body)
    requires C.AllFiled(c)
    ensures C.AllFiled(CacheAnswer(c, command, body))
  {
    match body
    case Nothing =>
    case DetachBody(id) => C.KeepFiled(c, C.DetachResult(id));
    case SessionBody(snap) =>
      C.KeepFiled(c, C.SessionResult(snap));
      var m, r := C.Stored(c, snap, false), CacheAnswer(c, command, body);
      forall id | id in r.snapshots || id in r.attempts ensures C.Filed(r, id) { assert C.Filed(m, id); }
  }

  lemma AnswerCoupled(j: State, p: L.Promise, outcome: L.Outcome, body: Body)
    requires Coupled(j) && Enabled(j, Answer(p, outcome, body))
    ensures Coupled(Apply(j, Answer(p, outcome, body)))
  {
    var s, c := j.leases, CacheAnswer(j.cache, j.leases.pending[p], body);
    var r := Seen(Settled(s, p, outcome), c);
    SettledWired(s, p, outcome, c.attached);
    AnswerFiled(j.cache, s.pending[p], body);
    CacheAnswerAttempts(j.cache, s.pending[p], body);
    forall id | id in c.attempts ensures Trying(r, id) {
      assert Trying(s, id);
      if s.attachments[id] == p { assert s.pending[p] == L.Attach(id); }
    }
    forall q | q in r.pending && r.pending[q].Attach? ensures r.pending[q].session in c.attempts {
      assert Shared(s, s.pending[q].session, q);
      if s.pending[p].Attach? { assert Shared(s, s.pending[p].session, p); }
    }
  }

  lemma CutCoupled(j: State, c: C.State, disposed: bool)
    requires Coupled(j) && C.AllFiled(c) && c.attempts == j.cache.attempts && c.attached == {}
    ensures Coupled(State(L.Cut(j.leases).(disposed := disposed), c))
  {
    var s, r := j.leases, L.Cut(j.leases).(disposed := disposed);
    forall id | id in r.attachments ensures Awaited(r, id, r.attachments[id]) {
      assert Awaited(s, id, s.attachments[id]);
    }
    forall id | id in c.attempts ensures Trying(r, id) { assert Trying(s, id); }
  }

  /** The same requests and promises, whatever else has changed. */
  lemma SameCoupled(j: State, r: L.State, c: C.State)
    requires Coupled(j) && C.AllFiled(c) && r.attached == c.attached && c.attempts == j.cache.attempts
    requires r.pending == j.leases.pending && r.settled == j.leases.settled && r.next == j.leases.next
    requires r.attachments == j.leases.attachments && (!r.connected ==> r.attached == {})
    ensures Coupled(State(r, c))
  {
    var s := j.leases;
    forall p | p in r.pending && r.pending[p].Attach? ensures Shared(r, r.pending[p].session, p) {
      assert Shared(s, s.pending[p].session, p);
    }
    forall id | id in r.attachments ensures Awaited(r, id, r.attachments[id]) {
      assert Awaited(s, id, s.attachments[id]);
    }
    forall id | id in c.attempts ensures Trying(r, id) { assert Trying(s, id); }
  }

  lemma RestoreCoupled(j: State, id: SessionId)
    requires Coupled(j) && Enabled(j, Restore(id))
    ensures Coupled(Apply(j, Restore(id)))
  {
    C.KeepFiled(j.cache, C.AttachFailed(id));
    forall p | p in j.leases.pending && j.leases.pending[p].Attach? ensures j.leases.pending[p].session != id {
      assert Shared(j.leases, j.leases.pending[p].session, p);
    }
  }

  lemma DisconnectCoupled(j: State)
    requires Coupled(j) && Enabled(j, Disconnect)
    ensures Coupled(Apply(j, Disconnect))
  {
    var s := L.Cut(j.leases);
    assert s == s.(disposed := j.leases.disposed);
    C.KeepFiled(j.cache, C.ClearAttachments);
    CutCoupled(j, C.Apply(j.cache, C.ClearAttachments), j.leases.disposed);
  }

  lemma DisposeCoupled(j: State)
    requires Coupled(j) && Enabled(j, Dispose)
    ensures Coupled(Apply(j, Dispose))
  {
    C.KeepFiled(j.cache, C.Reset);
    CutCoupled(j, C.Apply(j.cache, C.Reset), true);
  }

  lemma MessageCoupled(j: State, snap: C.Snapshot)
    requires Coupled(j) && Enabled(j, Message(snap))
    ensures Coupled(Apply(j, Message(snap)))
  {
    var c := C.Stored(j.cache, snap, false);
    C.KeepFiled(j.cache, C.SessionSnapshot(snap));
    SameCoupled(j, Seen(j.leases, c), c);
  }

  lemma CallCoupled(j: State)
    requires Coupled(j) && Enabled(j, Call)
    ensures Coupled(Apply(j, Call))
  {
    C.KeepFiled(j.cache, C.Reset);
    SameCoupled(j, j.leases, C.Apply(j.cache, C.Reset));
  }

  lemma ConnectCoupled(j: State)
    requires Coupled(j) && Enabled(j, Connect)
    ensures Coupled(Apply(j, Connect))
  {
    SameCoupled(j, L.Apply(j.leases, L.Connect), j.cache);
  }

  lemma RemovedCoupled(j: State, id: SessionId)
    requires Coupled(j) && Enabled(j, Removed(id))
    ensures Coupled(Apply(j, Removed(id)))
  {
    C.KeepFiled(j.cache, C.SessionRemoved(id));
    SameCoupled(j, L.Apply(j.leases, L.SessionRemoved(id)), C.Apply(j.cache, C.SessionRemoved(id)));
  }

  /** Every event keeps the two parts together. */
  lemma KeepCoupled(j: State, e: Event)
    requires Coupled(j) && Enabled(j, e)
    ensures Coupled(Apply(j, e))
  {
    match e
    case Segment(e1) => SegmentCoupled(j, e1);
    case Answer(p, outcome, body) => AnswerCoupled(j, p, outcome, body);
    case Restore(id) => RestoreCoupled(j, id);
    case Disconnect => DisconnectCoupled(j);
    case Dispose => DisposeCoupled(j);
    case Message(snap) => MessageCoupled(j, snap);
    case Removed(id) => RemovedCoupled(j, id);
    case Call => CallCoupled(j);
    case Connect => ConnectCoupled(j);
  }

  // ---------- coherence ----------

  /** The answer to an attach is about another session, and its own one is attached but has no
      stored snapshot. */
  predicate Orphans(j: State, e: Event) {
    && e.Answer? && e.body.SessionBody? && e.promise in j.leases.pending && j.leases.pending[e.promise].Attach?
    && C.Orphans(j.cache, C.AttachSucceeded(j.leases.pending[e.promise].session, e.body.snapshot))
  }

  lemma SegmentCovers(j: State, e: L.Event, id: SessionId)
    requires Coupled(j) && C.Inv(j.cache) && L.Enabled(j.leases, e)
    ensures C.Inv(CacheAttach(j.cache, j.leases, L.Apply(j.leases, e), id))
  {
    if Attaches(j.leases, L.Apply(j.leases, e), id) {
      assert id in j.cache.attempts ==> Trying(j.leases, id);
      C.AttachBegunKeeps(j.cache, id);
    }
  }

  lemma AnswerCovers(j: State, p: L.Promise, outcome: L.Outcome, body: Body)
    requires Coupled(j) && C.Inv(j.cache) && Enabled(j, Answer(p, outcome, body))
    ensures C.Inv(CacheAnswer(j.cache, j.leases.pending[p], body)) <==> !Orphans(j, Answer(p, outcome, body))
  {
    match body
    case Nothing =>
    case DetachBody(id) => C.CoherenceKeptExactly(j.cache, C.DetachResult(id));
    case SessionBody(snap) =>
      if j.leases.pending[p].Attach? {
        C.CoherenceKeptExactly(j.cache, C.AttachSucceeded(j.leases.pending[p].session, snap));
      } else {
        C.CoherenceKeptExactly(j.cache, C.SessionResult(snap));
      }
  }

  /** The cache stays coherent exactly if the event is not such an answer: no lease segment sets a
      snapshot aside while one of its session already is. */
  lemma CoherenceKeptExactly(j: State, e: Event)
    requires Coupled(j) && C.Inv(j.cache) && Enabled(j, e)
    ensures C.Inv(Apply(j, e).cache) <==> !Orphans(j, e)
  {
    match e
    case Segment(BeginAcquire(id, mode)) => SegmentCovers(j, e.event, id);
    case Segment(ResumeAcquire(t)) => SegmentCovers(j, e.event, j.leases.acquisitions[t].session);
    case Segment(_) =>
    case Answer(p, outcome, body) => AnswerCovers(j, p, outcome, body);
    case Restore(id) => C.CoherenceKeptExactly(j.cache, C.AttachFailed(id));
    case Message(snap) => C.CoherenceKeptExactly(j.cache, C.SessionSnapshot(snap));
    case Removed(id) => C.CoherenceKeptExactly(j.cache, C.SessionRemoved(id));
    case Connect =>
    case Disconnect => C.CoherenceKeptExactly(j.cache, C.ClearAttachments);
    case _ => C.CoherenceKeptExactly(j.cache, C.Reset);
  }

  // ---------- stored snapshots ----------

  /** Every attached session has a stored snapshot that says so. */
  ghost predicate Plain(j: State) {
    forall id | id in j.cache.attached :: HasSnapshot(j.cache, id)
  }

  predicate HasSnapshot(c: C.State, id: SessionId) {
    id in c.snapshots && c.snapshots[id].id == id && c.snapshots[id].attached
  }

  /** After its cleanup detach the session was reported attached again, and the acquisition that
      waited for the detach attaches it once more. */
  predicate Reattaches(j: State, e: Event) {
    && e.Segment? && e.event.ResumeAcquire? && L.Enabled(j.leases, e.event)
    && var a := j.leases.acquisitions[e.event.token];
      && a.wait.OnReconciliation? && !Rejected(j.leases, a.wait.promise)
      && a.session in j.leases.attached && a.session !in j.leases.attachments
  }

  lemma CheckAttaches(s: L.State, t: L.Token, a: L.Acquisition, reconciled: bool)
    requires a.session in s.attached
    ensures
      Attaches(s, L.Carried(s, t, a.session, a.mode, a.epoch, L.CheckAttached(s, a.session, reconciled)), a.session)
      <==> reconciled && a.session !in s.attachments
  {}

  lemma CleanupNeverAttaches(s: L.State, t: L.Token, a: L.Acquisition)
    requires a.session in s.attached
    ensures !Attaches(s, L.Carried(s, t, a.session, a.mode, a.epoch, L.CheckCleanup(s, a.session)), a.session)
  {
    CheckAttaches(s, t, a, false);
  }

  lemma EndNeverAttaches(s: L.State, t: L.Token, a: L.Acquisition, p: L.Promise)
    ensures !Attaches(s, L.Abandoned(s, t, a.session), a.session)
    ensures
      var m := L.ForgetAttachment(s, a.session, p);
      && !Attaches(s, L.Abandoned(m, t, a.session), a.session)
      && !Attaches(s, L.Granted(m, t, a.session, a.mode), a.session)
  {
    var m := L.ForgetAttachment(s, a.session, p);
    AbandonedStill(s, t, a.session);
    AbandonedStill(m, t, a.session);
    GrantedStill(m, t, a.session, a.mode);
  }

  /** An attached session is attached again in that case only. */
  lemma AttachedAgainExactly(s: L.State, t: L.Token)
    requires L.Enabled(s, L.ResumeAcquire(t)) && s.acquisitions[t].session in s.attached
    ensures
      var a := s.acquisitions[t];
      Attaches(s, L.ContinueAcquire(s, t), a.session)
      <==> a.wait.OnReconciliation? && !Rejected(s, a.wait.promise) && a.session !in s.attachments
  {
    var a := s.acquisitions[t];
    CleanupNeverAttaches(s, t, a);
    CheckAttaches(s, t, a, true);
    EndNeverAttaches(s, t, a, a.wait.promise);
  }

  lemma AcquireNeverReattaches(s: L.State, id: SessionId, mode: L.Mode)
    requires id in s.attached
    ensures !Attaches(s, L.Acquire(s, id, mode), id)
  {
    var m := L.Reserved(s, id, mode);
    ReservedStill(s, id, mode);
    CleanupNeverAttaches(m, s.next, L.Acquisition(id, mode, L.OnDetachment(0), s.epoch));
  }

  // ---------- exactly when stored snapshots stay ----------

  lemma SegmentPlain(j: State, e: L.Event)
    requires Coupled(j) && Plain(j) && Enabled(j, Segment(e))
    ensures Plain(Apply(j, Segment(e))) <==> !Reattaches(j, Segment(e))
  {
    var s, r := j.leases, L.Apply(j.leases, e);
    match e
    case BeginAcquire(id, mode) =>
      if id in s.attached { AcquireNeverReattaches(s, id, mode); }
      AttachPlain(j, r, id);
    case ResumeAcquire(t) =>
      var id := s.acquisitions[t].session;
      if id in s.attached { AttachedAgainExactly(s, t); }
      AttachPlain(j, r, id);
    case _ =>
  }

  lemma AttachPlain(j: State, r: L.State, id: SessionId)
    requires Coupled(j) && Plain(j)
    ensures Plain(State(r, CacheAttach(j.cache, j.leases, r, id)))
            <==> !(Attaches(j.leases, r, id) && id in j.leases.attached)
  {
    var c := CacheAttach(j.cache, j.leases, r, id);
    if Attaches(j.leases, r, id) && id in j.leases.attached {
      assert id in c.attached && !HasSnapshot(c, id);
    }
  }

  lemma StoredPlain(c: C.State, snap: C.Snapshot, id: SessionId)
    requires forall k | k in c.attached :: HasSnapshot(c, k)
    requires id in C.Stored(c, snap, false).attached
    ensures HasSnapshot(C.Stored(c, snap, false), id)
  {}

  lemma DetachedPlain(c: C.State, k: SessionId, id: SessionId)
    requires forall i | i in c.attached :: HasSnapshot(c, i)
    requires id in C.Detached(c, k).attached
    ensures HasSnapshot(C.Detached(c, k), id)
  {
    assert id in c.attached;
  }

  lemma AnswerPlain(j: State, p: L.Promise, outcome: L.Outcome, body: Body)
    requires Plain(j) && Enabled(j, Answer(p, outcome, body))
    ensures Plain(Apply(j, Answer(p, outcome, body)))
  {
    var c := CacheAnswer(j.cache, j.leases.pending[p], body);
    forall id | id in c.attached ensures HasSnapshot(c, id) {
      match body
      case Nothing =>
      case DetachBody(k) => DetachedPlain(j.cache, k, id);
      case SessionBody(snap) => StoredPlain(j.cache, snap, id);
    }
  }

  /** That every attached session has a stored snapshot survives an event exactly if the event does
      not attach an attached session again. */
  lemma PlainKeptExactly(j: State, e: Event)
    requires Coupled(j) && Plain(j) && Enabled(j, e)
    ensures Plain(Apply(j, e)) <==> !Reattaches(j, e)
  {
    match e
    case Segment(e1) => SegmentPlain(j, e1);
    case Answer(p, outcome, body) => AnswerPlain(j, p, outcome, body);
    case Message(snap) =>
      forall id | id in Apply(j, e).cache.attached ensures HasSnapshot(Apply(j, e).cache, id) {
        StoredPlain(j.cache, snap, id);
      }
    case _ =>
  }

  // ---------- leases without a snapshot ----------

  /** An active lease of the session has no snapshot to show. */
  ghost predicate Blind(j: State, t: L.Token) {
    t in j.leases.leases && L.IsActive(j.leases, t) && j.leases.leases[t].session !in j.cache.snapshots
  }

  lemma PlainSees(j: State, t: L.Token)
    requires Coupled(j) && Plain(j)
    ensures !Blind(j, t)
  {
    if t in j.leases.leases && L.IsActive(j.leases, t) {
      assert HasSnapshot(j.cache, j.leases.leases[t].session);
    }
  }

  // ---------- runs ----------

  ghost predicate Runs(j: State, es: seq<Event>)
    decreases es
  {
    es != [] ==> Enabled(j, es[0]) && Runs(Apply(j, es[0]), es[1..])
  }

  ghost function After(j: State, es: seq<Event>): State
    requires Runs(j, es)
    decreases es
  {
    if es == [] then j else After(Apply(j, es[0]), es[1..])
  }

  /** No event of the run attaches an attached session again. */
  ghost predicate NeverReattaches(j: State, es: seq<Event>)
    requires Runs(j, es)
    decreases es
  {
    es != [] ==> !Reattaches(j, es[0]) && NeverReattaches(Apply(j, es[0]), es[1..])
  }

  ghost predicate PlainThroughout(j: State, es: seq<Event>)
    requires Runs(j, es)
    decreases es
  {
    Plain(j) && (es != [] ==> PlainThroughout(Apply(j, es[0]), es[1..]))
  }

  lemma {:induction false} PlainRunExactly(j: State, es: seq<Event>)
    requires Coupled(j) && Plain(j) && Runs(j, es)
    ensures PlainThroughout(j, es) <==> NeverReattaches(j, es)
    ensures NeverReattaches(j, es) ==> Coupled(After(j, es)) && Plain(After(j, es))
    decreases es
  {
    if es != [] {
      KeepCoupled(j, es[0]);
      PlainKeptExactly(j, es[0]);
      if Reattaches(j, es[0]) {
        assert !Plain(Apply(j, es[0]));
      } else {
        PlainRunExactly(Apply(j, es[0]), es[1..]);
      }
    }
  }

  /** From the start: in every state of a run every attached session has a stored snapshot exactly
      if the run never attaches an attached session again; then every active lease has one. */
  lemma AttachedStoredExactly(es: seq<Event>)
    requires Runs(Init, es)
    ensures PlainThroughout(Init, es) <==> NeverReattaches(Init, es)
    ensures NeverReattaches(Init, es) ==> forall t :: !Blind(After(Init, es), t)
  {
    PlainRunExactly(Init, es);
    if NeverReattaches(Init, es) {
      forall t ensures !Blind(After(Init, es), t) { PlainSees(After(Init, es), t); }
    }
  }

  /** Every attach answer of the run that would leave an attached session without a snapshot is
      about its own session. */
  ghost predicate OwnAnswers(j: State, es: seq<Event>)
    requires Runs(j, es)
    decreases es
  {
    es != [] ==> !Orphans(j, es[0]) && OwnAnswers(Apply(j, es[0]), es[1..])
  }

  lemma {:induction false} CoherentRun(j: State, es: seq<Event>)
    requires Coupled(j) && C.Inv(j.cache) && Runs(j, es) && OwnAnswers(j, es)
    ensures Coupled(After(j, es)) && C.Inv(After(j, es).cache)
    decreases es
  {
    if es != [] {
      KeepCoupled(j, es[0]);
      CoherenceKeptExactly(j, es[0]);
      CoherentRun(Apply(j, es[0]), es[1..]);
    }
  }

  /** In every such run an active lease without a snapshot is one whose session is being attached
      again: the request is out or has just been rejected, and its snapshot is set aside. */
  lemma BlindIsBeingAttached(es: seq<Event>, t: L.Token)
    requires Runs(Init, es) && OwnAnswers(Init, es) && Blind(After(Init, es), t)
    ensures
      var j := After(Init, es);
      var id := j.leases.leases[t].session;
      && Trying(j.leases, id)
      && id in j.cache.attempts && j.cache.attempts[id].Some? && j.cache.attempts[id].value.attached
  {
    var j := After(Init, es);
    CoherentRun(Init, es);
    assert C.Covered(j.cache, j.leases.leases[t].session);
    assert Trying(j.leases, j.leases.leases[t].session);
  }
}
