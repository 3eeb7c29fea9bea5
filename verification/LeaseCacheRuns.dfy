/** Whole runs of the lease protocol with its cache: what they are for the leases alone, and that
    every active lease keeps its snapshot unless a dispose fails. */
module LeaseCacheRuns {
  import L = Leases
  import I = LeaseInvariant
  import S = LeaseSafety
  import C = SessionCache
  import opened LeaseSegments
  import opened LeaseCache

  // ---------- the cache of a run ----------

  /** The event of the cache that a message or a change of the link amounts to, if any. */
  function CacheEvent(j: State, e: Event): C.Option<C.Event>
    requires Enabled(j, e)
  {
    match e
    case Answer(p, _, SessionBody(snap)) =>
      if j.leases.pending[p].Attach? then C.Some(C.AttachSucceeded(j.leases.pending[p].session, snap))
      else C.Some(C.SessionResult(snap))
    case Answer(_, _, DetachBody(id)) => C.Some(C.DetachResult(id))
    case Restore(id) => C.Some(C.AttachFailed(id))
    case Message(snap) => C.Some(C.SessionSnapshot(snap))
    case Removed(id) => C.Some(C.SessionRemoved(id))
    case Call => C.Some(C.Reset)
    case Disconnect => C.Some(C.ClearAttachments)
    case Dispose => C.Some(C.Reset)
    case _ => C.None
  }

  /** Beside the segments, every event is to the cache the event of its own that it amounts to. */
  lemma CacheFollows(j: State, e: Event)
    requires Coupled(j) && Enabled(j, e) && !e.Segment?
    ensures
      var r := Apply(j, e).cache;
      match CacheEvent(j, e)
      case None => r == j.cache
      case Some(e1) => C.Enabled(j.cache, e1) && r == C.Apply(j.cache, e1)
  {}

  /** A segment sets the snapshot of a session aside exactly if it has issued an attach request of it,
      and leaves the cache alone otherwise. */
  lemma SegmentFollows(j: State, e: L.Event, r: State, id: SessionId)
    requires Coupled(j) && Enabled(j, Segment(e)) && r == Apply(j, Segment(e))
    ensures id in r.leases.attachments && id !in j.leases.attachments ==> SetAside(j.cache, r.cache, id)
    ensures r.leases.attachments.Keys <= j.leases.attachments.Keys ==> r.cache == j.cache
    ensures r.cache.attached == j.cache.attached && r.cache.server == j.cache.server
  {
    SegmentGoes(j.leases, e);
    CacheGoes(j.cache, j.leases, r.leases, e, r.cache, id);
  }

  ghost predicate SetAside(c: C.State, r: C.State, id: SessionId) {
    && r.snapshots == c.snapshots - {id}
    && r.attempts == c.attempts[id := if id in c.snapshots then C.Some(c.snapshots[id]) else C.None]
  }

  lemma CacheGoes(c: C.State, s: L.State, r: L.State, e: L.Event, d: C.State, id: SessionId)
    requires L.Enabled(s, e) && Goes(s, r, e) && d == CacheSegment(c, s, r, e)
    ensures id in r.attachments && id !in s.attachments ==> SetAside(c, d, id)
    ensures r.attachments.Keys <= s.attachments.Keys ==> d == c
    ensures d.attached == c.attached && d.server == c.server
  {
    if Attaches(s, r, id) { assert About(s, e, id); }
  }

  // ---------- the leases of a run ----------

  /** The session whose attached flag the lease protocol sets at an answer. */
  function Answered(command: L.Command, outcome: L.Outcome): SessionId {
    match (outcome, command)
    case (Created(id), _) => id
    case (Acked, Attach(id)) => id
    case (Acked, Detach(id)) => id
    case _ => ""
  }

  /** The session whose attached flag the cache sets. */
  function Carried(body: Body): SessionId {
    match body
    case Nothing => ""
    case SessionBody(snap) => snap.id
    case DetachBody(id) => id
  }

  /** The events of the lease protocol that an event amounts to. */
  function LeaseEvents(j: State, e: Event): seq<L.Event>
    requires Enabled(j, e)
  {
    match e
    case Segment(e1) => [e1]
    case Answer(p, outcome, body) =>
      var after := Apply(j, e).cache.attached;
      var first, second := Answered(j.leases.pending[p], outcome), Carried(body);
      [L.Respond(p, outcome, first in after), L.Snapshot(first, first in after), L.Snapshot(second, second in after)]
    case Message(snap) => [L.Snapshot(snap.id, snap.id in Apply(j, e).cache.attached)]
    case Removed(id) => [L.SessionRemoved(id)]
    case Connect => [L.Connect]
    case Disconnect => [L.Disconnect]
    case Dispose => [L.Dispose]
    case _ => []
  }

  lemma OneEvent(s: L.State, e: L.Event)
    requires L.Enabled(s, e)
    ensures S.Runs(s, [e]) && S.After(s, [e]) == L.Apply(s, e)
    ensures S.OrderlyRun(s, [e]) <==> I.Orderly(s, e)
  {
    assert [e][1..] == [];
  }

  lemma {:induction false} Joined(s: L.State, a: seq<L.Event>, b: seq<L.Event>)
    requires S.Runs(s, a) && S.Runs(S.After(s, a), b)
    ensures S.Runs(s, a + b) && S.After(s, a + b) == S.After(S.After(s, a), b)
    ensures S.OrderlyRun(s, a + b) <==> S.OrderlyRun(s, a) && S.OrderlyRun(S.After(s, a), b)
    decreases a
  {
    if a == [] {
      assert a + b == b;
    } else {
      Joined(L.Apply(s, a[0]), a[1..], b);
      assert (a + b)[1..] == a[1..] + b;
    }
  }

  /** Only the session of a snapshot or detach result changes its place in the attached set. */
  lemma AnswerAttached(c: C.State, command: L.Command, body: Body, id: SessionId)
    requires C.AllFiled(c) && id != Carried(body)
    ensures id in CacheAnswer(c, command, body).attached <==> id in c.attached
  {
    if body.DetachBody? && body.session in c.snapshots { assert C.Filed(c, body.session); }
  }

  lemma AttachedAfterIs(s: L.State, command: L.Command, outcome: L.Outcome, flag: bool, id: SessionId)
    requires id != Answered(command, outcome)
    ensures id in L.AttachedAfter(s, command, outcome, flag) <==> id in s.attached
  {}

  lemma AnswerSeen(s: L.State, a: set<SessionId>, p: L.Promise, outcome: L.Outcome, flag: bool, second: SessionId)
    requires p in s.pending
    requires
      var first := Answered(s.pending[p], outcome);
      forall id | id != first && id != second :: id in a <==> id in s.attached
    ensures
      var first := Answered(s.pending[p], outcome);
      var m := L.SetAttached(L.Answered(s, p, outcome, flag), first, first in a);
      L.SetAttached(m, second, second in a) == Settled(s, p, outcome).(attached := a)
  {
    var first := Answered(s.pending[p], outcome);
    var r := L.SetAttached(L.SetAttached(L.Answered(s, p, outcome, flag), first, first in a), second, second in a);
    forall id ensures id in r.attached <==> id in a {
      if id != first { AttachedAfterIs(s, s.pending[p], outcome, flag, id); }
    }
    assert r.attached == a;
  }

  lemma AnswerIsLeaseRun(j: State, p: L.Promise, outcome: L.Outcome, body: Body)
    requires Coupled(j) && Enabled(j, Answer(p, outcome, body))
    ensures
      var es := LeaseEvents(j, Answer(p, outcome, body));
      && S.Runs(j.leases, es) && S.After(j.leases, es) == Apply(j, Answer(p, outcome, body)).leases
      && S.OrderlyRun(j.leases, es)
  {
    var s, a := j.leases, CacheAnswer(j.cache, j.leases.pending[p], body).attached;
    var first, second := Answered(s.pending[p], outcome), Carried(body);
    forall id | id != first && id != second ensures id in a <==> id in s.attached {
      AnswerAttached(j.cache, s.pending[p], body, id);
    }
    AnswerSeen(s, a, p, outcome, first in a, second);
    ThreeEvents(s, p, outcome, first in a, first, first in a, second, second in a);
  }

  lemma ThreeEvents(s: L.State, p: L.Promise, outcome: L.Outcome, flag: bool,
                    first: SessionId, one: bool, second: SessionId, two: bool)
    requires s.connected && p in s.pending && L.Answers(outcome, s.pending[p])
    ensures
      var es := [L.Respond(p, outcome, flag), L.Snapshot(first, one), L.Snapshot(second, two)];
      && S.Runs(s, es) && S.OrderlyRun(s, es)
      && S.After(s, es) == L.SetAttached(L.SetAttached(L.Answered(s, p, outcome, flag), first, one), second, two)
  {
    var e1, e2, e3 := L.Respond(p, outcome, flag), L.Snapshot(first, one), L.Snapshot(second, two);
    var s1 := L.Apply(s, e1);
    var s2 := L.Apply(s1, e2);
    OneEvent(s, e1);
    OneEvent(s1, e2);
    OneEvent(s2, e3);
    Joined(s1, [e2], [e3]);
    Joined(s, [e1], [e2] + [e3]);
    assert [e1] + ([e2] + [e3]) == [e1, e2, e3];
  }

  lemma MessageIsLeaseRun(j: State, snap: C.Snapshot)
    requires Coupled(j) && Enabled(j, Message(snap))
    ensures
      var es := LeaseEvents(j, Message(snap));
      && S.Runs(j.leases, es) && S.After(j.leases, es) == Apply(j, Message(snap)).leases
      && S.OrderlyRun(j.leases, es)
  {
    var c := C.Stored(j.cache, snap, false);
    OneEvent(j.leases, L.Snapshot(snap.id, snap.id in c.attached));
    assert L.SetAttached(j.leases, snap.id, snap.id in c.attached).attached == c.attached;
  }

  /** The part of an event that needs a side condition is one event of the lease protocol. */
  ghost predicate Orderly(j: State, e: Event)
    requires Enabled(j, e)
  {
    S.Runs(j.leases, LeaseEvents(j, e)) && S.OrderlyRun(j.leases, LeaseEvents(j, e))
  }

  lemma StepIsLeaseRun(j: State, e: Event)
    requires Coupled(j) && Enabled(j, e)
    ensures S.Runs(j.leases, LeaseEvents(j, e)) && S.After(j.leases, LeaseEvents(j, e)) == Apply(j, e).leases
  {
    match e
    case Segment(e1) => OneEvent(j.leases, e1);
    case Answer(p, outcome, body) => AnswerIsLeaseRun(j, p, outcome, body);
    case Message(snap) => MessageIsLeaseRun(j, snap);
    case Removed(id) => OneEvent(j.leases, L.SessionRemoved(id));
    case Connect => OneEvent(j.leases, L.Connect);
    case Disconnect => OneEvent(j.leases, L.Disconnect);
    case Dispose => OneEvent(j.leases, L.Dispose);
    case _ =>
  }

  ghost predicate OrderlyRun(j: State, es: seq<Event>)
    requires Runs(j, es)
    decreases es
  {
    es != [] ==> Orderly(j, es[0]) && OrderlyRun(Apply(j, es[0]), es[1..])
  }

  /** A run of the client is a run of the lease protocol, orderly if the run is: all that holds of
      those holds of the client with its cache. */
  lemma {:induction false} IsLeaseRun(j: State, es: seq<Event>) returns (ls: seq<L.Event>)
    requires Coupled(j) && Runs(j, es)
    ensures S.Runs(j.leases, ls) && S.After(j.leases, ls) == After(j, es).leases
    ensures S.OrderlyRun(j.leases, ls) <==> OrderlyRun(j, es)
    decreases es
  {
    if es == [] {
      ls := [];
    } else {
      StepIsLeaseRun(j, es[0]);
      KeepCoupled(j, es[0]);
      var rest := IsLeaseRun(Apply(j, es[0]), es[1..]);
      ls := LeaseEvents(j, es[0]) + rest;
      Joined(j.leases, LeaseEvents(j, es[0]), rest);
    }
  }

  lemma {:induction false} RunExtended(j: State, es: seq<Event>, e: Event)
    requires Runs(j, es) && Enabled(After(j, es), e)
    ensures Runs(j, es + [e]) && After(j, es + [e]) == Apply(After(j, es), e)
    ensures OrderlyRun(j, es + [e]) <==> OrderlyRun(j, es) && Orderly(After(j, es), e)
    decreases es
  {
    if es == [] {
      assert [] + [e] == [e] && [e][1..] == [];
    } else {
      RunExtended(Apply(j, es[0]), es[1..], e);
      assert (es + [e])[1..] == es[1..] + [e];
    }
  }

  lemma {:induction false} KeepCoupledRun(j: State, es: seq<Event>)
    requires Coupled(j) && Runs(j, es)
    ensures Coupled(After(j, es))
    decreases es
  {
    if es != [] {
      KeepCoupled(j, es[0]);
      KeepCoupledRun(Apply(j, es[0]), es[1..]);
    }
  }

  /** The two parts stay together in every run. */
  lemma RunCoupled(es: seq<Event>)
    requires Runs(Init, es)
    ensures Coupled(After(Init, es))
  {
    KeepCoupledRun(Init, es);
  }

  /** The side condition of an event, in terms of the lease protocol. */
  ghost predicate SegmentOrderly(j: State, e: Event) {
    match e
    case Segment(e1) => I.Orderly(j.leases, e1)
    case Removed(id) => I.Orderly(j.leases, L.SessionRemoved(id))
    case Connect => I.Orderly(j.leases, L.Connect)
    case Disconnect => I.Orderly(j.leases, L.Disconnect)
    case Dispose => I.Orderly(j.leases, L.Dispose)
    case _ => true
  }

  lemma OrderlyStep(j: State, e: Event)
    requires Coupled(j) && Enabled(j, e)
    ensures Orderly(j, e) <==> SegmentOrderly(j, e)
  {
    match e
    case Segment(e1) => OneEvent(j.leases, e1);
    case Answer(p, outcome, body) => AnswerIsLeaseRun(j, p, outcome, body);
    case Message(snap) => MessageIsLeaseRun(j, snap);
    case Removed(id) => OneEvent(j.leases, L.SessionRemoved(id));
    case Connect => OneEvent(j.leases, L.Connect);
    case Disconnect => OneEvent(j.leases, L.Disconnect);
    case Dispose => OneEvent(j.leases, L.Dispose);
    case _ =>
  }

  // ---------- without a failed dispose ----------

  /** No session is marked for a cleanup detach, and none is being cleaned up. */
  ghost predicate Calm(s: L.State) {
    && s.cleanup == {} && s.reconciliations == map[]
    && forall t | t in s.acquisitions :: !s.acquisitions[t].wait.OnReconciliation?
  }

  /** A dispose has failed and marks its session. */
  predicate Marks(s: L.State, e: L.Event) {
    e.CatchRelease? && e.token in s.leases && s.leases[e.token].phase == L.Failing(true) && !L.IsStale(s, e.token)
  }

  lemma CalmSent(s: L.State, id: SessionId)
    requires Calm(s)
    ensures Calm(L.Sent(s, L.Attach(id)).(attachments := s.attachments[id := s.next]))
  {}

  lemma CalmDecision(s: L.State, id: SessionId, reconciled: bool)
    requires Calm(s)
    ensures
      var d := L.CheckAttached(s, id, reconciled);
      d.Await? ==> Calm(d.state) && !d.wait.OnReconciliation?
  {
    CalmSent(s, id);
  }

  lemma CalmCarried(s: L.State, t: L.Token, id: SessionId, mode: L.Mode, epoch: nat, d: L.Decision)
    requires Calm(s) && (d.Await? ==> Calm(d.state) && !d.wait.OnReconciliation?)
    ensures Calm(L.Carried(s, t, id, mode, epoch, d))
  {}

  lemma CalmEnd(s: L.State, t: L.Token, id: SessionId, mode: L.Mode)
    requires Calm(s)
    ensures Calm(L.Abandoned(s, t, id)) && Calm(L.Granted(s, t, id, mode)) && Calm(L.Reserved(s, id, mode))
  {}

  lemma CalmPhase(s: L.State, t: L.Token, id: SessionId, phase: L.Phase)
    requires Calm(s) && t in s.leases
    ensures Calm(L.SetPhase(s, t, phase)) && Calm(L.SetPhase(L.Unreserved(s, id, t), t, phase))
  {}

  lemma CalmAcquire(s: L.State, id: SessionId, mode: L.Mode)
    requires Calm(s)
    ensures Calm(L.Acquire(s, id, mode))
  {
    var m := L.Reserved(s, id, mode);
    CalmEnd(s, s.next, id, mode);
    CalmDecision(m, id, false);
    CalmCarried(m, s.next, id, mode, s.epoch, L.CheckDetachment(m, id));
  }

  lemma CalmResume(s: L.State, t: L.Token)
    requires Calm(s) && L.CanResume(s, t)
    ensures Calm(L.ContinueAcquire(s, t))
  {
    var a := s.acquisitions[t];
    match a.wait
    case OnDetachment(_) =>
      CalmDecision(s, a.session, false);
      CalmCarried(s, t, a.session, a.mode, a.epoch, L.CheckCleanup(s, a.session));
    case OnAttachment(p) => CalmEnd(L.ForgetAttachment(s, a.session, p), t, a.session, a.mode);
  }

  lemma CalmRelease(s: L.State, t: L.Token, relinquish: bool)
    requires Calm(s) && t in s.leases
    ensures Calm(L.Release(s, t, relinquish))
  {
    var id := s.leases[t].session;
    CalmPhase(s, t, id, L.Invalidated);
    CalmPhase(s, t, id, L.Released);
    CalmPhase(L.Sent(s, L.Detach(id)).(detachments := L.Sent(s, L.Detach(id)).detachments[id := s.next]), t, id,
              L.Detaching(s.next, relinquish));
  }

  lemma CalmReleased(s: L.State, t: L.Token)
    requires Calm(s) && L.Enabled(s, L.ResumeRelease(t))
    ensures Calm(L.ContinueRelease(s, t))
  {
    var id := s.leases[t].session;
    var m := L.ForgetDetachment(s, id, s.leases[t].phase.promise);
    CalmPhase(m, t, id, L.Failing(s.leases[t].phase.relinquish));
    CalmPhase(m, t, id, L.Released);
  }

  lemma CalmCaught(s: L.State, t: L.Token)
    requires Calm(s) && L.Enabled(s, L.CatchRelease(t)) && !Marks(s, L.CatchRelease(t))
    ensures Calm(L.CatchFailedRelease(s, t))
  {
    CalmPhase(s, t, s.leases[t].session, L.Invalidated);
    CalmPhase(s, t, s.leases[t].session, L.Active);
  }

  lemma CalmCreated(s: L.State, p: L.Promise)
    requires Calm(s) && p in s.settled
    ensures Calm(L.ContinueCreate(s, p))
  {
    var m := s.(creations := s.creations - {p});
    if s.settled[p].Created? {
      var id := s.settled[p].session;
      CalmEnd(m, m.next, id, L.Exclusive);
      CalmEnd(L.Reserved(m, id, L.Exclusive), m.next, id, L.Exclusive);
    }
  }

  lemma CalmSegment(s: L.State, e: L.Event)
    requires Calm(s) && IsSegment(e) && L.Enabled(s, e) && !Marks(s, e)
    ensures Calm(L.Apply(s, e))
  {
    match e
    case BeginAcquire(id, mode) => CalmAcquire(s, id, mode);
    case ResumeAcquire(t) => CalmResume(s, t);
    case BeginRelease(t, relinquish) => CalmRelease(s, t, relinquish);
    case ResumeRelease(t) => CalmReleased(s, t);
    case CatchRelease(t) => CalmCaught(s, t);
    case ResumeCreate(p) => CalmCreated(s, p);
    case _ =>
  }

  lemma CalmStep(j: State, e: Event)
    requires Calm(j.leases) && Enabled(j, e) && !(e.Segment? && Marks(j.leases, e.event))
    ensures Calm(Apply(j, e).leases)
  {
    match e
    case Segment(e1) => CalmSegment(j.leases, e1);
    case _ =>
  }

  /** No dispose fails in the run. */
  ghost predicate NeverMarks(j: State, es: seq<Event>)
    requires Runs(j, es)
    decreases es
  {
    es != [] ==> !(es[0].Segment? && Marks(j.leases, es[0].event)) && NeverMarks(Apply(j, es[0]), es[1..])
  }

  lemma {:induction false} CalmRun(j: State, es: seq<Event>)
    requires Calm(j.leases) && Runs(j, es) && NeverMarks(j, es)
    ensures NeverReattaches(j, es)
    decreases es
  {
    if es != [] {
      CalmStep(j, es[0]);
      CalmRun(Apply(j, es[0]), es[1..]);
    }
  }

  /** As long as no dispose fails, every active lease has a snapshot. */
  lemma LeasesSeeUnlessDisposeFails(es: seq<Event>, t: L.Token)
    requires Runs(Init, es) && NeverMarks(Init, es)
    ensures !Blind(After(Init, es), t)
  {
    CalmRun(Init, es);
    AttachedStoredExactly(es);
  }
}
