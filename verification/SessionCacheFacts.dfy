/** What the cache holds, told by the snapshots it has been offered. */
module SessionCacheFacts {
  import opened SessionCache

  // ---------- one event ----------

  /** The snapshot an event offers. */
  function Offered(e: Event): Option<Snapshot> {
    match e
    case SessionSnapshot(snap) => Some(snap)
    case SessionResult(snap) => Some(snap)
    case AttachSucceeded(_, snap) => Some(snap)
    case _ => None
  }

  /** An offered snapshot is stored, and its flag followed, exactly if no newer one is there. */
  lemma OfferExactly(s: State, e: Event, snap: Snapshot)
    requires Enabled(s, e) && Offered(e) == Some(snap)
    ensures
      var r, newer := Apply(s, e), snap.id in s.snapshots && s.snapshots[snap.id].revision > snap.revision;
      && r.snapshots == (if newer then s.snapshots else s.snapshots[snap.id := snap])
      && r.attached == (if newer then s.attached
                        else if snap.attached then s.attached + {snap.id}
                        else s.attached - {snap.id})
      && r.server == s.server
  {}

  /** A detach clears the flag of the stored snapshot and leaves the others alone. */
  lemma DetachExactly(s: State, id: SessionId)
    requires AllFiled(s)
    ensures
      var r := Apply(s, DetachResult(id));
      && r.attached == s.attached - {id} && r.detached == s.detached + {id}
      && r.snapshots.Keys == s.snapshots.Keys
      && (id in s.snapshots ==> r.snapshots[id] == s.snapshots[id].(attached := false))
      && (forall k | k in s.snapshots && k != id :: r.snapshots[k] == s.snapshots[k])
  {
    if id in s.snapshots { assert Filed(s, id); }
  }

  /** A removal forgets the session, an attach its snapshot only; a disconnect forgets what is
      attached, a reset everything but the attach requests under way. */
  lemma ForgetExactly(s: State, id: SessionId)
    ensures
      var r := Apply(s, SessionRemoved(id));
      r.snapshots == s.snapshots - {id} && r.attached == s.attached - {id} && r.attempts == s.attempts
    ensures
      Enabled(s, BeginAttach(id)) ==>
        var r := Apply(s, BeginAttach(id));
        && r.snapshots == s.snapshots - {id} && r.attached == s.attached
        && r.attempts == s.attempts[id := if id in s.snapshots then Some(s.snapshots[id]) else None]
        && r.detached == s.detached - {id}
    ensures
      var r := Apply(s, ClearAttachments);
      r.attached == {} && r.snapshots == s.snapshots && r.server == s.server && r.attempts == s.attempts
    ensures
      var r := Apply(s, Reset);
      r.attached == {} && r.snapshots == map[] && r.server == None && r.attempts == s.attempts
  {}

  /** A failed attach puts the snapshot back that was set aside, unless there is one again. */
  lemma FailedExactly(s: State, id: SessionId)
    requires AllFiled(s) && Enabled(s, AttachFailed(id))
    ensures
      var r := Apply(s, AttachFailed(id));
      && r.attached == s.attached && r.attempts == s.attempts - {id}
      && r.snapshots == match s.attempts[id]
                        case None => s.snapshots
                        case Some(snap) => if id in s.snapshots then s.snapshots else s.snapshots[id := snap]
  {
    assert Filed(s, id);
  }

  /** A server snapshot is taken unless it is older. */
  lemma ServerExactly(s: State, revision: nat)
    ensures
      var r := Apply(s, ServerSnapshot(revision));
      && r.server == Some(if s.server.Some? && s.server.value > revision then s.server.value else revision)
      && r == s.(server := r.server)
  {}

  // ---------- whole runs ----------

  predicate OffersOf(e: Event, id: SessionId) {
    Offered(e).Some? && Offered(e).value.id == id
  }

  /** The events that change the snapshot of a session otherwise than by an offer. */
  predicate Disturbs(e: Event, id: SessionId) {
    Drops(e, id) || e == DetachResult(id) || e == AttachFailed(id)
  }

  predicate NotOlder(first: Option<Snapshot>, snap: Snapshot) {
    first.Some? ==> first.value.revision <= snap.revision
  }

  /** The offer at `j` is the last of the newest, and not older than what was there before. */
  ghost predicate Wins(first: Option<Snapshot>, es: seq<Event>, id: SessionId, j: nat) {
    && j < |es| && OffersOf(es[j], id) && NotOlder(first, Offered(es[j]).value)
    && (forall k | 0 <= k < |es| && OffersOf(es[k], id) ::
          if k <= j then Offered(es[k]).value.revision <= Offered(es[j]).value.revision
          else Offered(es[k]).value.revision < Offered(es[j]).value.revision)
  }

  /** Every offer is older than what was there before. */
  ghost predicate AllOlder(first: Option<Snapshot>, es: seq<Event>, id: SessionId) {
    forall k | 0 <= k < |es| && OffersOf(es[k], id) :: !NotOlder(first, Offered(es[k]).value)
  }

  lemma OfferTaken(s: State, e: Event, id: SessionId)
    requires AllFiled(s) && Enabled(s, e) && !Disturbs(e, id)
    ensures Lookup(Apply(s, e), id)
            == if OffersOf(e, id) && NotOlder(Lookup(s, id), Offered(e).value) then Offered(e) else Lookup(s, id)
  {
    match e
    case DetachResult(k) => if k in s.snapshots { assert Filed(s, k); }
    case AttachFailed(k) => assert Filed(s, k);
    case _ =>
  }

  /** Whatever order they come in, the cache holds the last of the newest snapshots it has been
      offered, and keeps what it held if that is newer than all of them. */
  lemma {:induction false} StoredIsNewest(s: State, es: seq<Event>, id: SessionId)
    requires AllFiled(s) && Runs(s, es) && forall e | e in es :: !Disturbs(e, id)
    ensures
      var before, now := Lookup(s, id), Lookup(After(s, es), id);
      || (now == before && AllOlder(before, es, id))
      || (exists j: nat :: Wins(before, es, id, j) && now == Offered(es[j]))
    decreases es
  {
    if es != [] {
      var r := Apply(s, es[0]);
      assert es[0] in es;
      KeepFiled(s, es[0]);
      OfferTaken(s, es[0], id);
      StoredIsNewest(r, es[1..], id);
      NewestMore(Lookup(s, id), Lookup(r, id), Lookup(After(s, es), id), es, id);
    }
  }

  lemma NewestMore(before: Option<Snapshot>, next: Option<Snapshot>, now: Option<Snapshot>, es: seq<Event>,
                   id: SessionId)
    requires es != []
    requires next == if OffersOf(es[0], id) && NotOlder(before, Offered(es[0]).value) then Offered(es[0]) else before
    requires (now == next && AllOlder(next, es[1..], id))
             || exists j: nat :: Wins(next, es[1..], id, j) && now == Offered(es[1..][j])
    ensures (now == before && AllOlder(before, es, id))
            || exists j: nat :: Wins(before, es, id, j) && now == Offered(es[j])
  {
    if now == next && AllOlder(next, es[1..], id) {
      OlderMore(before, next, es, id);
    } else {
      var j: nat :| Wins(next, es[1..], id, j) && now == Offered(es[1..][j]);
      WinsLater(before, next, es, id, j);
    }
  }

  lemma OlderMore(before: Option<Snapshot>, next: Option<Snapshot>, es: seq<Event>, id: SessionId)
    requires es != [] && AllOlder(next, es[1..], id)
    requires next == if OffersOf(es[0], id) && NotOlder(before, Offered(es[0]).value) then Offered(es[0]) else before
    ensures if OffersOf(es[0], id) && NotOlder(before, Offered(es[0]).value)
            then Wins(before, es, id, 0) && next == Offered(es[0])
            else AllOlder(before, es, id)
  {
    forall k | 0 < k < |es| && OffersOf(es[k], id) ensures !NotOlder(next, Offered(es[k]).value) {
      assert es[k] == es[1..][k - 1];
    }
  }

  lemma WinsLater(before: Option<Snapshot>, next: Option<Snapshot>, es: seq<Event>, id: SessionId, j: nat)
    requires es != [] && Wins(next, es[1..], id, j)
    requires next == if OffersOf(es[0], id) && NotOlder(before, Offered(es[0]).value) then Offered(es[0]) else before
    ensures Wins(before, es, id, j + 1)
  {
    forall k | 0 < k < |es| && OffersOf(es[k], id)
      ensures if k <= j + 1 then Offered(es[k]).value.revision <= Offered(es[j + 1]).value.revision
              else Offered(es[k]).value.revision < Offered(es[j + 1]).value.revision
    {
      assert es[k] == es[1..][k - 1];
    }
  }

  /** Without a disconnect the attached sessions are those whose stored snapshot says so. */
  lemma {:induction false} FlagFollowed(s: State, es: seq<Event>, id: SessionId)
    requires AllFiled(s) && Runs(s, es)
    requires forall e | e in es :: !Drops(e, id) && e != AttachFailed(id) && e != ClearAttachments
    requires id in s.attached <==> id in s.snapshots && s.snapshots[id].attached
    ensures
      var r := After(s, es);
      id in r.attached <==> id in r.snapshots && r.snapshots[id].attached
    decreases es
  {
    if es != [] {
      assert es[0] in es;
      KeepFiled(s, es[0]);
      FlagOfOne(s, es[0], id);
      FlagFollowed(Apply(s, es[0]), es[1..], id);
    }
  }

  lemma FlagOfOne(s: State, e: Event, id: SessionId)
    requires AllFiled(s) && Enabled(s, e) && !Drops(e, id) && e != AttachFailed(id) && e != ClearAttachments
    requires id in s.attached <==> id in s.snapshots && s.snapshots[id].attached
    ensures
      var r := Apply(s, e);
      id in r.attached <==> id in r.snapshots && r.snapshots[id].attached
  {
    match e
    case DetachResult(k) => if k in s.snapshots { assert Filed(s, k); }
    case AttachFailed(k) => assert Filed(s, k);
    case _ =>
  }
}
