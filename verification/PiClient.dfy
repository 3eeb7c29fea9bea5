/** `PiClient` with its tables as fields.  Every method is one synchronous segment of the client
    and is proved to take the step of the same name in the transition system. */
module ClientImplementation {
  import opened Leases

  class PiClient {
    var counts: map<SessionId, nat>
    var exclusive: map<SessionId, Token>
    var generations: map<SessionId, nat>
    var attachments: map<SessionId, Promise>
    var detachments: map<SessionId, Promise>
    var cleanup: set<SessionId>
    var reconciliations: map<SessionId, Promise>
    var pending: map<Promise, Command>
    var settled: map<Promise, Outcome>
    var attached: set<SessionId>
    var connected: bool
    var disposed: bool
    var epoch: nat
    var next: nat
    var acquisitions: map<Token, Acquisition>
    var creations: set<Promise>
    var leases: map<Token, Lease>

    function View(): State
      reads this
    {
      State(counts, exclusive, generations, attachments, detachments, cleanup, reconciliations, pending, settled,
            attached, connected, disposed, epoch, next, acquisitions, creations, leases)
    }

    constructor ()
      ensures View() == Init
    {
      counts, exclusive, generations, attachments := map[], map[], map[], map[];
      detachments, cleanup, reconciliations, pending, settled := map[], {}, map[], map[], map[];
      attached, connected, disposed, epoch, next := {}, false, false, 0, 0;
      acquisitions, creations, leases := map[], {}, map[];
    }

    // ---------- bookkeeping ----------

    /** Throws an ownership error by returning false. */
    method ReserveSessionLease(id: SessionId, mode: Mode) returns (ok: bool, t: Token)
      modifies this
      ensures ok == CanReserve(old(View()), id, mode)
      ensures t == old(next)
      ensures View() == if ok then Reserved(old(View()), id, mode) else old(View())
    {
      t := next;
      var count := if id in counts then counts[id] else 0;
      if mode == Exclusive && count > 0 { return false, t; }
      if mode == Shared && id in exclusive { return false, t; }
      counts := counts[id := count + 1];
      if mode == Exclusive { exclusive := exclusive[id := t]; }
      next := next + 1;
      return true, t;
    }

    method ReleaseSessionLease(id: SessionId, t: Token)
      modifies this`counts, this`exclusive
      ensures View() == Unreserved(old(View()), id, t)
    {
      var count := if id in counts then counts[id] else 0;
      if count <= 1 { counts := counts - {id}; } else { counts := counts[id := count - 1]; }
      if id in exclusive && exclusive[id] == t { exclusive := exclusive - {id}; }
    }

    method InvalidateSessionLeases(id: SessionId)
      modifies this`counts, this`exclusive, this`cleanup, this`generations
      ensures View() == Invalidate(old(View()), id)
    {
      counts := counts - {id};
      exclusive := exclusive - {id};
      cleanup := cleanup - {id};
      generations := generations[id := (if id in generations then generations[id] else 0) + 1];
    }

    /** The generations once the sessions of `done` have been invalidated. */
    static ghost function Bumped(s: State, done: set<SessionId>): map<SessionId, nat>
      requires done <= s.counts.Keys
    {
      map id | id in s.generations.Keys + done :: if id in done then Generation(s, id) + 1 else s.generations[id]
    }

    static lemma BumpedOneMore(s: State, done: set<SessionId>, id: SessionId)
      requires done <= s.counts.Keys && id in s.counts && id !in done
      ensures Bumped(s, done + {id})
              == Bumped(s, done)[id := (if id in Bumped(s, done) then Bumped(s, done)[id] else 0) + 1]
    {}

    static lemma BumpedAll(s: State, done: set<SessionId>)
      requires done == s.counts.Keys
      ensures Bumped(s, done) == InvalidateAll(s).generations
    {}

    method InvalidateAllSessionLeases()
      modifies this`counts, this`exclusive, this`cleanup, this`generations
      ensures View() == InvalidateAll(old(View()))
    {
      InvalidateCountedSessionLeases();
      cleanup := {};
    }

    /** One round of the loop over the counted sessions, field by field. */
    method InvalidateCounted(id: SessionId)
      modifies this`counts, this`exclusive, this`cleanup, this`generations
      ensures counts == old(counts) - {id} && exclusive == old(exclusive) - {id}
      ensures generations == old(generations)[id := (if id in old(generations) then old(generations)[id] else 0) + 1]
    {
      InvalidateSessionLeases(id);
    }

    /** The loop over the counted sessions. */
    method InvalidateCountedSessionLeases()
      modifies this`counts, this`exclusive, this`cleanup, this`generations
      ensures counts == map[] && exclusive == old(exclusive) - old(counts).Keys
      ensures generations == InvalidateAll(old(View())).generations
    {
      ghost var s := View();
      var todo := counts.Keys;
      ghost var done: set<SessionId> := {};
      while todo != {}
        invariant done !! todo && done + todo == s.counts.Keys
        invariant counts == s.counts - done && exclusive == s.exclusive - done
        invariant generations == Bumped(s, done)
        decreases todo
      {
        var id :| id in todo;
        BumpedOneMore(s, done, id);
        InvalidateCounted(id);
        todo := todo - {id};
        done := done + {id};
      }
      BumpedAll(s, done);
    }

    // ---------- requests ----------

    method Request(command: Command) returns (p: Promise)
      modifies this`pending, this`settled, this`next
      ensures p == old(next) && View() == Sent(old(View()), command)
    {
      p := next;
      next := next + 1;
      if disposed || !connected {
        settled := settled[p := Failed];
      } else {
        pending := pending[p := command];
      }
    }

    static ghost function Rejected(s: State, done: set<Promise>): map<Promise, Outcome>
    {
      map p | p in s.settled.Keys + done :: if p in done then Failed else s.settled[p]
    }

    method RejectPendingRequests()
      modifies this`pending, this`settled
      ensures View() == RejectPending(old(View()))
    {
      RejectEachRequest();
    }

    /** The loop over the pending requests. */
    method RejectEachRequest()
      modifies this`pending, this`settled
      ensures pending == map[] && settled == RejectPending(old(View())).settled
    {
      ghost var s := View();
      var requests := pending.Keys;
      pending := map[];
      ghost var done: set<Promise> := {};
      while requests != {}
        invariant done !! requests && done + requests == s.pending.Keys
        invariant pending == map[] && settled == Rejected(s, done)
        decreases requests
      {
        var p :| p in requests;
        settled := settled[p := Failed];
        requests := requests - {p};
        done := done + {p};
      }
      assert done == s.pending.Keys;
      assert settled == RejectPending(s).settled;
    }

    // ---------- acquiring ----------

    /** Turns a token into a lease of the current generation. */
    method CreateSessionLease(id: SessionId, t: Token, mode: Mode)
      modifies this`generations, this`leases, this`acquisitions
      ensures View() == Granted(old(View()), t, id, mode)
    {
      var generation := if id in generations then generations[id] else 0;
      generations := generations[id := generation];
      acquisitions := acquisitions - {t};
      leases := leases[t := Lease(id, mode, generation, Active)];
    }

    method Suspend(t: Token, id: SessionId, mode: Mode, since: nat, wait: Wait)
      modifies this`acquisitions
      ensures acquisitions == old(acquisitions)[t := Acquisition(id, mode, wait, since)]
    {
      acquisitions := acquisitions[t := Acquisition(id, mode, wait, since)];
    }

    /** From the test of the attached flag to the next await or to the lease. */
    method AttachOrLease(t: Token, id: SessionId, mode: Mode, since: nat, reconciled: bool)
      modifies this
      ensures View() == Carried(old(View()), t, id, mode, since, CheckAttached(old(View()), id, reconciled))
    {
      if reconciled || id !in attached {
        if id !in attachments {
          var attachment := Request(Attach(id));
          attachments := attachments[id := attachment];
        }
        Suspend(t, id, mode, since, OnAttachment(attachments[id]));
      } else {
        CreateSessionLease(id, t, mode);
      }
    }

    /** From the test of the cleanup mark, after an earlier detach has settled. */
    method ReconcileOrAttach(t: Token, id: SessionId, mode: Mode, since: nat)
      modifies this
      ensures View() == Carried(old(View()), t, id, mode, since, CheckCleanup(old(View()), id))
    {
      if id in cleanup {
        if id !in reconciliations {
          var reconciliation := Request(Detach(id));
          reconciliations := reconciliations[id := reconciliation];
        }
        Suspend(t, id, mode, since, OnReconciliation(reconciliations[id]));
      } else {
        AttachOrLease(t, id, mode, since, false);
      }
    }

    /** The first segment; false is the ownership or the disposed error. */
    method AcquireSession(id: SessionId, mode: Mode) returns (ok: bool)
      modifies this
      ensures View() == Acquire(old(View()), id, mode)
      ensures ok == (!old(disposed) && CanReserve(old(View()), id, mode))
    {
      if disposed { return false; }
      var t;
      ok, t := ReserveSessionLease(id, mode);
      if ok {
        if id in detachments {
          Suspend(t, id, mode, epoch, OnDetachment(detachments[id]));
        } else {
          ReconcileOrAttach(t, id, mode, epoch);
        }
      }
    }

    method AbandonAcquisition(t: Token, id: SessionId)
      modifies this`counts, this`exclusive, this`acquisitions
      ensures View() == Abandoned(old(View()), t, id)
    {
      ReleaseSessionLease(id, t);
      acquisitions := acquisitions - {t};
    }

    /** The segment after the await the acquisition is suspended at. */
    method ResumeAcquisition(t: Token)
      requires CanResume(View(), t)
      modifies this
      ensures View() == ContinueAcquire(old(View()), t)
    {
      var a := acquisitions[t];
      var failed := settled[a.wait.promise].Failed?;
      match a.wait {
        case OnDetachment(_) => ReconcileOrAttach(t, a.session, a.mode, a.epoch);
        case OnReconciliation(_) =>
          if failed { AbandonAcquisition(t, a.session); }
          else { AttachOrLease(t, a.session, a.mode, a.epoch, true); }
        case OnAttachment(attachment) =>
          if a.session in attachments && attachments[a.session] == attachment {
            attachments := attachments - {a.session};
          }
          if failed { AbandonAcquisition(t, a.session); }
          else { CreateSessionLease(a.session, t, a.mode); }
      }
    }

    /** The segment of `createSession` after the response. */
    method ResumeCreation(p: Promise)
      requires p in creations && p in settled
      modifies this
      ensures View() == ContinueCreate(old(View()), p)
    {
      creations := creations - {p};
      match settled[p] {
        case Created(id) =>
          var ok, t := ReserveSessionLease(id, Exclusive);
          if ok { CreateSessionLease(id, t, Exclusive); }
        case _ =>
      }
    }

    // ---------- releasing ----------

    method EnterPhase(t: Token, phase: Phase)
      requires t in leases
      modifies this`leases
      ensures View() == SetPhase(old(View()), t, phase)
    {
      leases := leases[t := leases[t].(phase := phase)];
    }

    method RefreshState(t: Token)
      requires t in leases
      modifies this`leases
      ensures View() == Refreshed(old(View()), t)
    {
      if leases[t].phase.Active? && OfOlderGeneration(leases[t]) { EnterPhase(t, Invalidated); }
    }

    predicate OfOlderGeneration(lease: Lease)
      reads this
    {
      lease.session !in generations || generations[lease.session] != lease.generation
    }

    /** `detach` and `dispose` of a lease: the segment up to the await of the detach response. */
    method ReleaseLease(t: Token, relinquish: bool)
      requires t in leases
      modifies this
      ensures View() == Release(old(View()), t, relinquish)
    {
      RefreshState(t);
      var id := leases[t].session;
      if !leases[t].phase.Active? { return; }
      if disposed || !connected || id !in attached { return; }
      if (if id in counts then counts[id] else 0) <= 1 {
        var detachment := Request(Detach(id));
        detachments := detachments[id := detachment];
        EnterPhase(t, Detaching(detachment, relinquish));
      } else {
        ReleaseSessionLease(id, t);
        EnterPhase(t, Released);
      }
    }

    /** The segment after the detach response, with its `finally`. */
    method ResumeLeaseRelease(t: Token)
      requires t in leases && leases[t].phase.Detaching? && leases[t].phase.promise in settled
      modifies this
      ensures View() == ContinueRelease(old(View()), t)
    {
      var id := leases[t].session;
      var detachment := leases[t].phase.promise;
      var relinquish := leases[t].phase.relinquish;
      var failed := settled[detachment].Failed?;
      if !failed { ReleaseSessionLease(id, t); }
      if id in detachments && detachments[id] == detachment { detachments := detachments - {id}; }
      EnterPhase(t, if failed then Failing(relinquish) else Released);
    }

    /** The catch handler of a release. */
    method HandleFailedRelease(t: Token)
      requires t in leases && leases[t].phase.Failing?
      modifies this
      ensures View() == CatchFailedRelease(old(View()), t)
    {
      var relinquish := leases[t].phase.relinquish;
      var id := leases[t].session;
      if OfOlderGeneration(leases[t]) {
        EnterPhase(t, Invalidated);
        return;
      }
      if relinquish {
        ReleaseSessionLease(id, t);
        cleanup := cleanup + {id};
        EnterPhase(t, Released);
      } else {
        EnterPhase(t, Active);
      }
    }

    method SettleReconciliation(id: SessionId)
      requires id in reconciliations && reconciliations[id] in settled
      modifies this`cleanup, this`reconciliations
      ensures View() == ContinueReconcile(old(View()), id)
    {
      if !settled[reconciliations[id]].Failed? { cleanup := cleanup - {id}; }
      reconciliations := reconciliations - {id};
    }

    // ---------- messages and the link ----------

    method SetAttachedFlag(id: SessionId, flag: bool)
      modifies this`attached
      ensures View() == SetAttached(old(View()), id, flag)
    {
      if flag { attached := attached + {id}; } else { attached := attached - {id}; }
    }

    method HandleResponse(p: Promise, outcome: Outcome, flag: bool)
      requires p in pending
      modifies this`pending, this`settled, this`attached
      ensures View() == Answered(old(View()), p, outcome, flag)
    {
      var command := pending[p];
      pending := pending - {p};
      match outcome {
        case Failed =>
        case Created(id) => SetAttachedFlag(id, flag);
        case Acked =>
          match command {
            case Detach(id) => SetAttachedFlag(id, false);
            case Attach(id) => SetAttachedFlag(id, flag);
            case _ =>
          }
      }
      settled := settled[p := outcome];
    }

    method HandleSessionRemoved(id: SessionId)
      modifies this`counts, this`exclusive, this`cleanup, this`generations, this`attached
      ensures View() == Apply(old(View()).(connected := true), SessionRemoved(id)).(connected := old(connected))
    {
      InvalidateSessionLeases(id);
      SetAttachedFlag(id, false);
    }

    /** The disconnect branch of the connection listener. */
    method HandleDisconnect()
      modifies this
      ensures View() == Cut(old(View()))
    {
      attached := {};
      InvalidateAllSessionLeases();
      RejectPendingRequests();
      connected, epoch := false, epoch + 1;
    }

    /** Invalidating leases does not look at requests. */
    static lemma InvalidateRejected(s: State, r: State)
      requires r == s.(pending := map[], settled := RejectPending(s).settled)
      ensures InvalidateAll(r) == InvalidateAll(s).(pending := map[], settled := RejectPending(s).settled)
    {
      assert InvalidateAll(r).generations == InvalidateAll(s).generations;
    }

    static lemma RejectTwice(a: State, b: State)
      requires b == a.(pending := map[], settled := RejectPending(a).settled)
      ensures RejectPending(b) == RejectPending(a)
    {
      assert RejectPending(b).settled == b.settled;
    }

    static lemma RejectedBefore(s: State, r: State)
      requires r == RejectPending(s)
      ensures Cut(r) == Cut(s)
    {
      var s1, r1 := s.(attached := {}), r.(attached := {});
      assert RejectPending(s1).settled == RejectPending(s).settled;
      InvalidateRejected(s1, r1);
      var a := InvalidateAll(s1);
      assert RejectPending(a).settled == RejectPending(s1).settled;
      RejectTwice(a, InvalidateAll(r1));
    }

    static lemma CutTwice(s: State)
      ensures InvalidateAll(Cut(s)) == Cut(s)
    {
      assert Cut(s).exclusive - Cut(s).counts.Keys == Cut(s).exclusive;
      assert InvalidateAll(Cut(s)).generations == Cut(s).generations;
    }

    method RejectAndDisconnect()
      modifies this
      ensures View() == Cut(old(View()))
    {
      ghost var s := View();
      RejectPendingRequests();
      RejectedBefore(s, View());
      HandleDisconnect();
    }

    static lemma CutDisposed(s: State, r: State)
      requires r == s.(disposed := true)
      ensures Cut(r) == Cut(s).(disposed := true)
    {
      InvalidateDisposed(s.(attached := {}), r.(attached := {}));
    }

    static lemma InvalidateDisposed(s: State, r: State)
      requires r == s.(disposed := true)
      ensures InvalidateAll(r) == InvalidateAll(s).(disposed := true)
      ensures RejectPending(InvalidateAll(r)) == RejectPending(InvalidateAll(s)).(disposed := true)
    {
      assert InvalidateAll(r).generations == InvalidateAll(s).generations;
      assert RejectPending(InvalidateAll(r)).settled == RejectPending(InvalidateAll(s)).settled;
    }

    /** Disposing rejects first, then disconnects and invalidates again; once is as good as twice. */
    method DisposeClient()
      modifies this
      ensures View() == if old(disposed) then old(View()) else Cut(old(View())).(disposed := true)
    {
      if disposed { return; }
      ghost var s := View();
      disposed := true;
      CutDisposed(s, View());
      CutTwice(View());
      RejectAndDisconnect();
      InvalidateAllSessionLeases();
    }
  }
}
