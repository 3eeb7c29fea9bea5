/** The worker slots of one session directory: a counter, a set of sleepers and abort signals. */
module Slots {

  type Task = nat

  const MAX_CONCURRENCY := 2

  /** Sleepers are in the pool's wake set; woken tasks have been resumed but have not run yet. */
  datatype State = State(
    active: int,
    sleeping: set<Task>,
    woken: set<Task>,
    running: set<Task>,
    done: set<Task>,
    aborted: set<Task>)

  const Init := State(0, {}, {}, {}, {}, {})

  datatype Event = Enter(task: Task) | Proceed(task: Task) | Finish(task: Task) | Abort(task: Task)

  predicate Known(s: State, t: Task) {
    t in s.sleeping || t in s.woken || t in s.running || t in s.done
  }

  /** One pass of the wait loop: sleep, give up, or take a slot. */
  function Try(s: State, t: Task): State {
    if t in s.aborted then s.(done := s.done + {t})
    else if s.active >= MAX_CONCURRENCY then s.(sleeping := s.sleeping + {t})
    else s.(active := s.active + 1, running := s.running + {t})
  }

  predicate Enabled(s: State, e: Event) {
    match e
    case Enter(t) => !Known(s, t)
    case Proceed(t) => t in s.woken
    case Finish(t) => t in s.running
    case Abort(t) => true
  }

  /** Finishing, however the body ends, frees the slot and wakes every sleeper. */
  function Apply(s: State, e: Event): State
    requires Enabled(s, e)
  {
    match e
    case Enter(t) => Try(s, t)
    case Proceed(t) => Try(s.(woken := s.woken - {t}), t)
    case Finish(t) =>
      s.(active := s.active - 1, running := s.running - {t}, done := s.done + {t},
         sleeping := {}, woken := s.woken + s.sleeping)
    case Abort(t) =>
      var s1 := s.(aborted := s.aborted + {t});
      if t in s.sleeping then s1.(sleeping := s.sleeping - {t}, done := s.done + {t}) else s1
  }

  /** The counter counts the running bodies, there are never too many of them, and nobody sleeps
      while a slot is free; no sleeper has been aborted. */
  ghost predicate Inv(s: State) {
    && s.active == |s.running| <= MAX_CONCURRENCY
    && (s.sleeping != {} ==> s.active == MAX_CONCURRENCY)
    && s.sleeping !! s.woken && s.running !! (s.sleeping + s.woken) && s.done !! (s.sleeping + s.woken + s.running)
    && s.sleeping !! s.aborted
  }

  /** Trying to take a slot, for a task that is nowhere yet. */
  lemma TryKeeps(s: State, t: Task)
    requires Inv(s) && !Known(s, t)
    ensures Inv(Try(s, t))
  {
    if t !in s.aborted && s.active < MAX_CONCURRENCY {
      assert |s.running + {t}| == |s.running| + 1;
      assert s.sleeping == {};
    }
  }

  /** Moving a running task to the tasks that are done, and all sleepers to the woken. */
  lemma StaysDisjoint(sleeping: set<Task>, woken: set<Task>, running: set<Task>, done: set<Task>, t: Task)
    requires running !! (sleeping + woken) && done !! (sleeping + woken + running) && t in running
    ensures (running - {t}) !! (woken + sleeping)
    ensures (done + {t}) !! (woken + sleeping + (running - {t}))
  {}

  lemma FinishKeeps(s: State, t: Task)
    requires Inv(s) && t in s.running
    ensures Inv(Apply(s, Finish(t)))
  {
    StaysDisjoint(s.sleeping, s.woken, s.running, s.done, t);
    var awake := s.woken + s.sleeping;
    assert {} + awake == awake;
    assert |s.running - {t}| == |s.running| - 1;
  }

  lemma AbortKeeps(s: State, t: Task)
    requires Inv(s)
    ensures Inv(Apply(s, Abort(t)))
  {}

  lemma KeepInv(s: State, e: Event)
    requires Inv(s) && Enabled(s, e)
    ensures Inv(Apply(s, e))
  {
    match e
    case Enter(t) => TryKeeps(s, t);
    case Proceed(t) => TryKeeps(s.(woken := s.woken - {t}), t);
    case Finish(t) => FinishKeeps(s, t);
    case Abort(t) => AbortKeeps(s, t);
  }

  predicate Runs(s: State, es: seq<Event>)
    decreases es
  {
    es == [] || (Enabled(s, es[0]) && Runs(Apply(s, es[0]), es[1..]))
  }

  function After(s: State, es: seq<Event>): State
    requires Runs(s, es)
    decreases es
  {
    if es == [] then s else After(Apply(s, es[0]), es[1..])
  }

  lemma {:induction false} RunKeepsInv(s: State, es: seq<Event>)
    requires Inv(s) && Runs(s, es)
    ensures Inv(After(s, es))
    decreases es
  {
    if es != [] {
      KeepInv(s, es[0]);
      RunKeepsInv(Apply(s, es[0]), es[1..]);
    }
  }

  /** In every run: slots are never overbooked, and whoever sleeps has a running body that will
      wake it when it ends. */
  lemma NoOverbookingNoLostWakeup(es: seq<Event>)
    requires Runs(Init, es)
    ensures var s := After(Init, es);
            && s.active == |s.running| <= MAX_CONCURRENCY
            && (s.sleeping != {} ==> s.active == MAX_CONCURRENCY && s.running != {})
            && (forall t | t in s.running ::
                 Apply(s, Finish(t)).sleeping == {} && s.sleeping <= Apply(s, Finish(t)).woken)
  {
    RunKeepsInv(Init, es);
  }

  lemma KnownStep(s: State, e: Event, t: Task)
    requires Enabled(s, e) && Known(s, t)
    ensures Known(Apply(s, e), t) && (t in s.done ==> t in Apply(s, e).done)
  {}

  /** A task that has entered is never lost, and one that is done stays done. */
  lemma {:induction false} NobodyVanishes(s: State, es: seq<Event>, t: Task)
    requires Runs(s, es) && Known(s, t)
    ensures Known(After(s, es), t)
    ensures t in s.done ==> t in After(s, es).done
    decreases es
  {
    if es != [] {
      KnownStep(s, es[0], t);
      NobodyVanishes(Apply(s, es[0]), es[1..], t);
    }
  }

  /** A woken task that goes on gets a slot exactly if it has not been aborted and one is free. */
  lemma WokenGetsSlotExactly(s: State, t: Task)
    requires Inv(s) && t in s.woken
    ensures
      var r := Apply(s, Proceed(t));
      && (t in r.running <==> t !in s.aborted && |s.running| < MAX_CONCURRENCY)
      && (t in r.sleeping <==> t !in s.aborted && |s.running| == MAX_CONCURRENCY)
      && (t in r.done <==> t in s.aborted)
  {}

  /** The same of a task that enters. */
  lemma EntersExactly(s: State, t: Task)
    requires Inv(s) && Enabled(s, Enter(t))
    ensures
      var r := Apply(s, Enter(t));
      && (t in r.running <==> t !in s.aborted && |s.running| < MAX_CONCURRENCY)
      && (t in r.sleeping <==> t !in s.aborted && |s.running| == MAX_CONCURRENCY)
      && (t in r.done <==> t in s.aborted)
  {}

  /** An abort ends a task that sleeps, and moves no other one. */
  lemma AbortsExactly(s: State, t: Task, u: Task)
    requires Inv(s)
    ensures
      var r := Apply(s, Abort(t));
      && (u in r.aborted <==> u == t || u in s.aborted)
      && (u in r.running <==> u in s.running) && (u in r.woken <==> u in s.woken)
      && (u in r.sleeping <==> u in s.sleeping && u != t)
      && (u in r.done <==> u in s.done || (u == t && t in s.sleeping))
  {}

  /** A body that ends wakes all sleepers, and moves no other task. */
  lemma FinishesExactly(s: State, t: Task, u: Task)
    requires Inv(s) && Enabled(s, Finish(t))
    ensures
      var r := Apply(s, Finish(t));
      && (u in r.running <==> u in s.running && u != t) && (u in r.done <==> u in s.done || u == t)
      && u !in r.sleeping && (u in r.woken <==> u in s.woken || u in s.sleeping)
      && (u in r.aborted <==> u in s.aborted)
  {}

  /** If a slot was free when a task had been woken and none is when it goes on, another task has
      taken one in between. */
  lemma RefusedIsOvertaken(s: State, es: seq<Event>, t: Task) returns (u: Task)
    requires Inv(s) && t in s.woken && s.active < MAX_CONCURRENCY && Runs(s, es)
    requires t in After(s, es).woken && t in Apply(After(s, es), Proceed(t)).sleeping
    ensures u != t && u in After(s, es).running && u !in s.running
  {
    RunKeepsInv(s, es);
    var r := After(s, es);
    if r.running <= s.running { Fewer(r.running, s.running); }
    u :| u in r.running && u !in s.running;
  }

  lemma {:induction false} Fewer(a: set<Task>, b: set<Task>)
    requires a <= b
    ensures |a| <= |b|
  {
    if a != {} {
      var x :| x in a;
      Fewer(a - {x}, b - {x});
    }
  }

  /** Waking is not a reservation: a task that enters after a sleeper was woken may take the slot
      first, and the sleeper sleeps again. */
  lemma WokenMayBeOvertaken()
    ensures var es := [Enter(0), Enter(1), Enter(2), Finish(0), Enter(3), Proceed(2)];
            Runs(Init, es) && 2 in After(Init, es).sleeping && 3 in After(Init, es).running
  {
    var s3 := Apply(Apply(Apply(Init, Enter(0)), Enter(1)), Enter(2));
    assert s3 == State(2, {2}, {}, {0, 1}, {}, {});
    var s4 := Apply(s3, Finish(0));
    assert s4 == State(1, {}, {2}, {1}, {0}, {});
    var s5 := Apply(s4, Enter(3));
    var s6 := Apply(s5, Proceed(2));
    assert s6.sleeping == {2};
    assert [Proceed(2)][1..] == [] && Runs(s5, [Proceed(2)]) && After(s5, [Proceed(2)]) == s6;
    var e5 := [Enter(3), Proceed(2)];
    assert e5[1..] == [Proceed(2)] && Runs(s4, e5) && After(s4, e5) == s6;
    var e4 := [Finish(0)] + e5;
    assert e4[1..] == e5 && Runs(s3, e4) && After(s3, e4) == s6;
    var e3 := [Enter(2)] + e4;
    var s2 := Apply(Apply(Init, Enter(0)), Enter(1));
    assert e3[1..] == e4 && Runs(s2, e3) && After(s2, e3) == s6;
    var e2 := [Enter(1)] + e3;
    var s1 := Apply(Init, Enter(0));
    assert e2[1..] == e3 && Runs(s1, e2) && After(s1, e2) == s6;
    var e1 := [Enter(0)] + e2;
    assert e1[1..] == e2 && Runs(Init, e1) && After(Init, e1) == s6;
    assert e1 == [Enter(0), Enter(1), Enter(2), Finish(0), Enter(3), Proceed(2)];
  }
}
