/** `ClientState` with its tables as fields; every method takes the step of the same name in the
    transition system of the cache.  Listeners are left out: they cannot change the cache. */
module ClientStateImplementation {
  import opened SessionCache

  class ClientState {
    var snapshots: map<SessionId, Snapshot>
    var attached: set<SessionId>
    var server: Option<nat>
    var attempts: map<SessionId, Option<Snapshot>>
    ghost var detached: set<SessionId>

    ghost function View(): State
      reads this
    {
      State(snapshots, attached, server, attempts, detached)
    }

    constructor ()
      ensures View() == Init
    {
      snapshots, attached, server, attempts := map[], {}, None, map[];
      detached := {};
    }

    method ResetAll()
      modifies this
      ensures View() == Apply(old(View()), Reset)
    {
      snapshots, attached, server := map[], {}, None;
    }

    method ClearAttached()
      modifies this
      ensures View() == Apply(old(View()), ClearAttachments)
    {
      attached := {};
    }

    method ForgetSessionSnapshot(id: SessionId) returns (previous: Option<Snapshot>)
      modifies this`snapshots
      ensures previous == Lookup(old(View()), id) && View() == Forgotten(old(View()), id)
    {
      previous := if id in snapshots then Some(snapshots[id]) else None;
      snapshots := snapshots - {id};
    }

    method RestoreSessionSnapshot(snap: Snapshot)
      modifies this`snapshots
      ensures View() == Restored(old(View()), snap)
    {
      if snap.id !in snapshots { snapshots := snapshots[snap.id := snap]; }
    }

    method ApplySessionSnapshot(snap: Snapshot, force: bool)
      modifies this`snapshots, this`attached
      ensures View() == Stored(old(View()), snap, force)
    {
      if !force && snap.id in snapshots && snap.revision < snapshots[snap.id].revision { return; }
      snapshots := snapshots[snap.id := snap];
      if snap.attached { attached := attached + {snap.id}; } else { attached := attached - {snap.id}; }
    }

    method ApplyDetachResult(id: SessionId)
      modifies this`snapshots, this`attached, this`detached
      ensures View() == Apply(old(View()), DetachResult(id))
    {
      detached := detached + {id};
      attached := attached - {id};
      if id in snapshots {
        ApplySessionSnapshot(snapshots[id].(attached := false), true);
      }
    }

    method ApplyServerSnapshot(revision: nat)
      modifies this`server
      ensures View() == Apply(old(View()), ServerSnapshot(revision))
    {
      if server.Some? && revision < server.value { return; }
      server := Some(revision);
    }

    method ApplySessionRemoved(id: SessionId)
      modifies this`snapshots, this`attached
      ensures View() == Apply(old(View()), SessionRemoved(id))
    {
      snapshots := snapshots - {id};
      attached := attached - {id};
    }

    // ---------- the two segments of an attach request ----------

    method StartAttach(id: SessionId)
      requires Enabled(View(), BeginAttach(id))
      modifies this`snapshots, this`attempts, this`detached
      ensures View() == Apply(old(View()), BeginAttach(id))
    {
      var previous := ForgetSessionSnapshot(id);
      attempts := attempts[id := previous];
      detached := detached - {id};
    }

    /** `answer` is the snapshot of the response, or nothing if the request was rejected. */
    method FinishAttach(id: SessionId, answer: Option<Snapshot>)
      requires id in attempts
      modifies this
      ensures View() == Apply(old(View()),
                              if answer.Some? then AttachSucceeded(id, answer.value) else AttachFailed(id))
    {
      if answer.Some? {
        ApplySessionSnapshot(answer.value, false);
      } else if attempts[id].Some? {
        RestoreSessionSnapshot(attempts[id].value);
      }
      attempts := attempts - {id};
    }
  }
}
