/** The pool object: its counter and wake set are fields, the rest of the record is ghost. */
module SlotPool {
  import opened Slots

  class Pool {
    var active: int
    var wake: set<Task>
    ghost var woken: set<Task>
    ghost var running: set<Task>
    ghost var done: set<Task>
    ghost var aborted: set<Task>

    ghost function View(): State
      reads this
    {
      State(active, wake, woken, running, done, aborted)
    }

    constructor ()
      ensures View() == Init
    {
      active, wake, woken, running, done, aborted := 0, {}, {}, {}, {}, {};
    }

    /** One pass of the wait loop; `aborted` is the signal of the task.  True is a slot. */
    method TryTake(t: Task, isAborted: bool) returns (taken: bool)
      requires isAborted == (t in aborted)
      modifies this
      ensures View() == Try(old(View()), t)
      ensures taken == (old(active) < MAX_CONCURRENCY && !isAborted)
    {
      taken := false;
      if active >= MAX_CONCURRENCY {
        if isAborted {
          done := done + {t};
        } else {
          wake := wake + {t};
        }
        return;
      }
      if isAborted {
        done := done + {t};
        return;
      }
      active := active + 1;
      running := running + {t};
      taken := true;
    }

    method Resume(t: Task, isAborted: bool) returns (taken: bool)
      requires isAborted == (t in aborted) && Enabled(View(), Proceed(t))
      modifies this
      ensures View() == Apply(old(View()), Proceed(t))
    {
      woken := woken - {t};
      taken := TryTake(t, isAborted);
    }

    /** The end of a body: every sleeper of that moment is woken. */
    method Leave(t: Task)
      requires Enabled(View(), Finish(t))
      modifies this
      ensures View() == Apply(old(View()), Finish(t))
    {
      active := active - 1;
      running, done := running - {t}, done + {t};
      var sleepers := wake;
      while sleepers != {}
        invariant sleepers <= old(wake) && wake == sleepers
        invariant woken == old(woken) + (old(wake) - sleepers)
        invariant active == old(active) - 1 && running == old(running) - {t}
        invariant done == old(done) + {t} && aborted == old(aborted)
        decreases sleepers
      {
        var sleeper :| sleeper in sleepers;
        wake := wake - {sleeper};
        woken := woken + {sleeper};
        sleepers := sleepers - {sleeper};
      }
    }

    /** The abort listener, which only a sleeping task has installed. */
    method Cancel(t: Task)
      modifies this
      ensures View() == Apply(old(View()), Abort(t))
    {
      aborted := aborted + {t};
      if t in wake {
        wake := wake - {t};
        done := done + {t};
      }
    }
  }
}
