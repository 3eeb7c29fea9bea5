/** The client's cache of session snapshots as a transition system: results, events, attach
    attempts that forget a snapshot and restore it on failure, resets. */
module SessionCache {

  type SessionId = string

  datatype Snapshot = Snapshot(id: SessionId, revision: nat, attached: bool, body: string)

  datatype Option<T> = None | Some(value: T)

  /** `attempts` holds, for every session with an attach request under way, the snapshot that
      request has set aside.  There is one per session: the client shares the request until the
      code that restores the snapshot has run.  `detached` holds the sessions with a detach that
      was acknowledged since their last attach request: only these are attached again without a
      look at the attached flag.  Which attach requests the lease tables really let through is in
      `LeaseCache`. */
  datatype State = State(
    snapshots: map<SessionId, Snapshot>,
    attached: set<SessionId>,
    server: Option<nat>,
    attempts: map<SessionId, Option<Snapshot>>,
    detached: set<SessionId>)

  const Init := State(map[], {}, None, map[], {})

  datatype Event =
    | ServerSnapshot(revision: nat)
    | SessionSnapshot(snapshot: Snapshot)
    | SessionRemoved(session: SessionId)
    | SessionProgress(session: SessionId)
    | ListResult
    | DetachResult(session: SessionId)
    | SessionResult(snapshot: Snapshot)
    | BeginAttach(session: SessionId)
    | AttachSucceeded(session: SessionId, snapshot: Snapshot)
    | AttachFailed(session: SessionId)
    | ClearAttachments
    | Reset

  // ---------- the operations ----------

  /** Stores a snapshot unless a newer one is stored already. */
  function Stored(s: State, snap: Snapshot, force: bool): State {
    if !force && snap.id in s.snapshots && snap.revision < s.snapshots[snap.id].revision then s
    else
      s.(snapshots := s.snapshots[snap.id := snap],
         attached := if snap.attached then s.attached + {snap.id} else s.attached - {snap.id})
  }

  function Detached(s: State, id: SessionId): State {
    var s1 := s.(attached := s.attached - {id});
    if id in s.snapshots then Stored(s1, s.snapshots[id].(attached := false), true) else s1
  }

  function Forgotten(s: State, id: SessionId): State {
    s.(snapshots := s.snapshots - {id})
  }

  function Lookup(s: State, id: SessionId): Option<Snapshot> {
    if id in s.snapshots then Some(s.snapshots[id]) else None
  }

  /** Sets the snapshot of the session aside, as an attach request does before it is sent. */
  function AttachBegun(s: State, id: SessionId): State {
    Forgotten(s, id).(attempts := s.attempts[id := Lookup(s, id)], detached := s.detached - {id})
  }

  function Restored(s: State, snap: Snapshot): State {
    if snap.id in s.snapshots then s else s.(snapshots := s.snapshots[snap.id := snap])
  }

  function Ended(s: State, id: SessionId): State {
    s.(attempts := s.attempts - {id})
  }

  predicate Enabled(s: State, e: Event) {
    match e
    case BeginAttach(id) => id !in s.attempts && (id !in s.attached || id in s.detached)
    case AttachSucceeded(id, _) => id in s.attempts
    case AttachFailed(id) => id in s.attempts
    case _ => true
  }

  function Apply(s: State, e: Event): State
    requires Enabled(s, e)
  {
    match e
    case ServerSnapshot(revision) =>
      if s.server.Some? && revision < s.server.value then s else s.(server := Some(revision))
    case SessionSnapshot(snap) => Stored(s, snap, false)
    case SessionRemoved(id) => Forgotten(s, id).(attached := s.attached - {id})
    case SessionProgress(_) => s
    case ListResult => s
    case DetachResult(id) => Detached(s, id).(detached := s.detached + {id})
    case SessionResult(snap) => Stored(s, snap, false)
    case BeginAttach(id) => AttachBegun(s, id)
    case AttachSucceeded(id, snap) => Ended(Stored(s, snap, false), id)
    case AttachFailed(id) =>
      (match s.attempts[id]
       case None => Ended(s, id)
       case Some(snap) => Ended(Restored(s, snap), id))
    case ClearAttachments => s.(attached := {})
    case Reset => s.(snapshots := map[], attached := {}, server := None)
  }

  // ---------- coherence ----------

  /** The snapshot of an attached session says so: the stored one, or else the one set aside. */
  predicate Covered(s: State, id: SessionId) {
    if id in s.snapshots then s.snapshots[id].attached
    else id in s.attempts && s.attempts[id].Some? && s.attempts[id].value.attached
  }

  predicate Filed(s: State, id: SessionId) {
    && (id in s.snapshots ==> s.snapshots[id].id == id)
    && (id in s.attempts && s.attempts[id].Some? ==> s.attempts[id].value.id == id)
  }

  ghost predicate AllFiled(s: State) {
    forall id | id in s.snapshots || id in s.attempts :: Filed(s, id)
  }

  ghost predicate Inv(s: State) {
    && AllFiled(s)
    && (forall id | id in s.attached :: Covered(s, id))
  }

  /** An attach answer about another session ends the attempt of a session that is still attached
      but has no stored snapshot. */
  predicate Orphans(s: State, e: Event) {
    && e.AttachSucceeded? && e.snapshot.id != e.session
    && e.session in s.attached && e.session !in s.snapshots
  }

  lemma AttachBegunFiled(s: State, id: SessionId)
    requires AllFiled(s)
    ensures AllFiled(AttachBegun(s, id))
  {
    var r := AttachBegun(s, id);
    forall k | k in r.snapshots || k in r.attempts ensures Filed(r, k) {
      if k in s.snapshots || k in s.attempts { assert Filed(s, k); }
    }
  }

  lemma AttachBegunKeeps(s: State, id: SessionId)
    requires Inv(s) && id !in s.attempts
    ensures Inv(AttachBegun(s, id))
  {
    var r := AttachBegun(s, id);
    AttachBegunFiled(s, id);
    forall k | k in r.attached ensures Covered(r, k) { assert Covered(s, k); }
  }

  lemma KeepFiled(s: State, e: Event)
    requires AllFiled(s) && Enabled(s, e)
    ensures AllFiled(Apply(s, e))
  {
    var r := Apply(s, e);
    forall id | id in r.snapshots || id in r.attempts ensures Filed(r, id) {
      if id in s.snapshots || id in s.attempts { assert Filed(s, id); }
    }
  }

  lemma KeepCovered(s: State, e: Event, id: SessionId)
    requires Inv(s) && Enabled(s, e)
    requires id in Apply(s, e).attached
    requires !(Orphans(s, e) && e.session == id)
    ensures Covered(Apply(s, e), id)
  {
    if id in s.attached { assert Covered(s, id); }
    if e.AttachFailed? { assert Filed(s, e.session); }
  }

  /** Coherence survives a step exactly if the step is not an attach answer about another session
      that leaves an attached one without a snapshot. */
  lemma CoherenceKeptExactly(s: State, e: Event)
    requires Inv(s) && Enabled(s, e)
    ensures Inv(Apply(s, e)) <==> !Orphans(s, e)
  {
    var r := Apply(s, e);
    KeepFiled(s, e);
    if Orphans(s, e) {
      assert e.session in r.attached && !Covered(r, e.session);
    } else {
      forall id | id in r.attached ensures Covered(r, id) { KeepCovered(s, e, id); }
    }
  }

  // ---------- runs ----------

  predicate Runs(s: State, es: seq<Event>)
    decreases es
  {
    es == [] || (Enabled(s, es[0]) && !Orphans(s, es[0]) && Runs(Apply(s, es[0]), es[1..]))
  }

  function After(s: State, es: seq<Event>): State
    requires Runs(s, es)
    decreases es
  {
    if es == [] then s else After(Apply(s, es[0]), es[1..])
  }

  lemma {:induction false} RunKeepsInv(s: State, es: seq<Event>)
    requires Inv(s) && Runs(s, es)
    ensures Inv(After(s, es))
    decreases es
  {
    if es != [] {
      CoherenceKeptExactly(s, es[0]);
      RunKeepsInv(Apply(s, es[0]), es[1..]);
    }
  }

  lemma OneMore(s: State, e: Event, es: seq<Event>)
    requires Enabled(s, e) && !Orphans(s, e) && Runs(Apply(s, e), es)
    ensures Runs(s, [e] + es) && After(s, [e] + es) == After(Apply(s, e), es)
  {
    assert ([e] + es)[1..] == es;
  }

  /** Concretely: after its cleanup detach a session is reported attached again before the attach
      that follows is sent; the attach is answered with another session's snapshot, and the session
      is left attached, without a snapshot and without an attempt. */
  lemma AnswerAboutAnother(mine: Snapshot, other: Snapshot) returns (s: State)
    requires mine.attached && mine.id != other.id
    ensures Runs(Init, [DetachResult(mine.id), SessionSnapshot(mine), BeginAttach(mine.id)])
    ensures s == After(Init, [DetachResult(mine.id), SessionSnapshot(mine), BeginAttach(mine.id)])
    ensures Enabled(s, AttachSucceeded(mine.id, other)) && Orphans(s, AttachSucceeded(mine.id, other))
    ensures
      var r := Apply(s, AttachSucceeded(mine.id, other));
      mine.id in r.attached && mine.id !in r.snapshots && mine.id !in r.attempts
  {
    var es := [DetachResult(mine.id), SessionSnapshot(mine), BeginAttach(mine.id)];
    var s1 := Apply(Init, es[0]);
    var s2 := Apply(s1, es[1]);
    s := Apply(s2, es[2]);
    OneMore(s2, es[2], []);
    OneMore(s1, es[1], [es[2]] + []);
    OneMore(Init, es[0], [es[1]] + ([es[2]] + []));
    assert es == [es[0]] + ([es[1]] + ([es[2]] + []));
  }

  /** Whenever no attach of it is under way, an attached session has a stored snapshot that says
      it is attached. */
  lemma AttachedMeansStored(es: seq<Event>, id: SessionId)
    requires Runs(Init, es)
    requires id in After(Init, es).attached && id !in After(Init, es).attempts
    ensures id in After(Init, es).snapshots && After(Init, es).snapshots[id].attached
  {
    RunKeepsInv(Init, es);
    assert Covered(After(Init, es), id);
  }

  /** The events that may drop the snapshot of a session. */
  predicate Drops(e: Event, id: SessionId) {
    e == BeginAttach(id) || e == SessionRemoved(id) || e == Reset
  }

  lemma {:induction false} RevisionsNeverDecrease(s: State, es: seq<Event>, id: SessionId)
    requires Inv(s) && Runs(s, es) && id in s.snapshots
    requires forall e | e in es :: !Drops(e, id)
    ensures id in After(s, es).snapshots
    ensures s.snapshots[id].revision <= After(s, es).snapshots[id].revision
    decreases es
  {
    if es != [] {
      CoherenceKeptExactly(s, es[0]);
      assert es[0] in es && !Drops(es[0], id);
      assert Filed(s, id);
      RevisionsNeverDecrease(Apply(s, es[0]), es[1..], id);
    }
  }

  lemma {:induction false} ServerRevisionNeverDecreases(s: State, es: seq<Event>)
    requires Runs(s, es) && s.server.Some? && Reset !in es
    ensures After(s, es).server.Some? && s.server.value <= After(s, es).server.value
    decreases es
  {
    if es != [] { ServerRevisionNeverDecreases(Apply(s, es[0]), es[1..]); }
  }

  /** The session an event may store a snapshot of, or whose attempt it ends. */
  predicate Touches(e: Event, id: SessionId) {
    match e
    case SessionSnapshot(snap) => snap.id == id
    case SessionResult(snap) => snap.id == id
    case AttachSucceeded(k, snap) => k == id || snap.id == id
    case AttachFailed(k) => k == id
    case _ => false
  }

  lemma {:induction false} SetAsideStays(s: State, es: seq<Event>, id: SessionId)
    requires Inv(s) && Runs(s, es) && id in s.attempts && id !in s.snapshots
    requires forall e | e in es :: !Touches(e, id)
    ensures var r := After(s, es); id in r.attempts && r.attempts[id] == s.attempts[id] && id !in r.snapshots
    decreases es
  {
    if es != [] {
      CoherenceKeptExactly(s, es[0]);
      assert es[0] in es && !Touches(es[0], id);
      if es[0].AttachFailed? { assert Filed(s, es[0].session); }
      SetAsideStays(Apply(s, es[0]), es[1..], id);
    }
  }

  /** A failed attach undoes what starting it did to the cached snapshot, whatever else happened
      meanwhile, even a removal or a reset. */
  lemma FailedAttachRestores(s: State, es: seq<Event>, id: SessionId)
    requires Inv(s) && Enabled(s, BeginAttach(id))
    requires Runs(Apply(s, BeginAttach(id)), es)
    requires forall e | e in es :: !Touches(e, id)
    ensures var r := After(Apply(s, BeginAttach(id)), es);
            && Enabled(r, AttachFailed(id))
            && Lookup(Apply(r, AttachFailed(id)), id) == Lookup(s, id)
  {
    CoherenceKeptExactly(s, BeginAttach(id));
    SetAsideStays(Apply(s, BeginAttach(id)), es, id);
    if id in s.snapshots { assert Filed(s, id); }
  }
}
