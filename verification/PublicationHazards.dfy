/** A run from the start in which a restored overlay lags behind the store. */
module PublicationHazards {
  import opened Catalogs
  import opened Publications

  lemma {:induction false} RunExtended(s: State, es: seq<Event>, e: Event)
    requires Runs(s, es) && Enabled(After(s, es), e)
    ensures Runs(s, es + [e]) && After(s, es + [e]) == Apply(After(s, es), e)
    decreases es
  {
    if es == [] {
      assert [] + [e] == [e] && [e][1..] == [];
    } else {
      RunExtended(Apply(s, es[0]), es[1..], e);
      assert (es + [e])[1..] == es[1..] + [e];
    }
  }

  /** From `s` the first `n` events lead to `r`. */
  ghost predicate Reached(s: State, es: seq<Event>, n: nat, r: State) {
    && n <= |es|
    && forall run | run <= es && |run| == n :: Runs(s, run) && After(s, run) == r
  }

  lemma Next(s: State, es: seq<Event>, n: nat, m: State, r: State)
    requires n < |es| && Reached(s, es, n, m) && Enabled(m, es[n]) && Apply(m, es[n]) == r
    ensures Reached(s, es, n + 1, r)
  {
    assert Runs(s, es[..n]);
    RunExtended(s, es[..n], es[n]);
    forall run | run <= es && |run| == n + 1 ensures run == es[..n] + [es[n]] {}
  }

  lemma Arrived(s: State, es: seq<Event>, r: State)
    requires Reached(s, es, |es|, r)
    ensures Runs(s, es) && After(s, es) == r
  {
    assert es <= es && Runs(s, es);
  }

  function Persisted(catalog: Catalog, g: nat, stage: Stage): Publication {
    Publication(g, Write(catalog), Some(catalog), stage)
  }

  /** The first refresh is under way, with its publication at the given stage. */
  function Storing(stored: Catalog, stage: Stage): State {
    Init.(generation := 1, controller := Some(1), chain := [Persisted(stored, 1, stage)])
  }

  /** It has stored and shown its catalog. */
  function Stored(stored: Catalog): State {
    Storing(stored, Settled(Published)).(store := Some(stored), overlay := stored, writes := [1], updates := [1])
  }

  /** A second refresh has queued another catalog. */
  function Replacing(stored: Catalog, fetched: Catalog, stage: Stage): State {
    Stored(stored).(generation := 2, controller := Some(2), aborted := {1},
                    chain := [Persisted(stored, 1, Settled(Published)), Persisted(fetched, 2, stage)])
  }

  /** A third refresh has superseded the second, whose store change is on its way. */
  function Overtaken(stored: Catalog, fetched: Catalog): State {
    Replacing(stored, fetched, Writing(false)).(generation := 3, controller := Some(3), aborted := {1, 2})
  }

  function Before(stored: Catalog, fetched: Catalog): seq<Event> {
    [BeginRefresh, Publish(1, Write(stored), Some(stored)), Gate, StoreChanges, Resume(false),
     BeginRefresh, Publish(2, Write(fetched), Some(fetched)), Gate, BeginRefresh]
  }

  lemma StoringReached(stored: Catalog, es: seq<Event>)
    requires |es| > 3 && es[0] == BeginRefresh && es[1] == Publish(1, Write(stored), Some(stored)) && es[2] == Gate
    ensures Reached(Init, es, 3, Storing(stored, Writing(false)))
  {
    var s1 := Init.(generation := 1, controller := Some(1));
    Next(Init, es, 0, Init, s1);
    Next(Init, es, 1, s1, Storing(stored, Waiting));
    Next(Init, es, 2, Storing(stored, Waiting), Storing(stored, Writing(false)));
  }

  lemma StoredReached(stored: Catalog, es: seq<Event>)
    requires |es| > 5 && Reached(Init, es, 3, Storing(stored, Writing(false)))
    requires es[3] == StoreChanges && es[4] == Resume(false)
    ensures Reached(Init, es, 5, Stored(stored))
  {
    var s4 := Storing(stored, Writing(true)).(store := Some(stored), writes := [1]);
    Next(Init, es, 3, Storing(stored, Writing(false)), s4);
    Next(Init, es, 4, s4, Stored(stored));
  }

  lemma ReplacingReached(stored: Catalog, fetched: Catalog, es: seq<Event>)
    requires |es| > 6 && Reached(Init, es, 5, Stored(stored))
    requires es[5] == BeginRefresh && es[6] == Publish(2, Write(fetched), Some(fetched))
    ensures Reached(Init, es, 7, Replacing(stored, fetched, Waiting))
  {
    var s6 := Stored(stored).(generation := 2, controller := Some(2), aborted := {1});
    Next(Init, es, 5, Stored(stored), s6);
    Next(Init, es, 6, s6, Replacing(stored, fetched, Waiting));
  }

  lemma OvertakenReached(stored: Catalog, fetched: Catalog, es: seq<Event>)
    requires |es| == 9 && Reached(Init, es, 7, Replacing(stored, fetched, Waiting))
    requires es[7] == Gate && es[8] == BeginRefresh
    ensures Runs(Init, es) && After(Init, es) == Overtaken(stored, fetched)
  {
    var s7 := Replacing(stored, fetched, Waiting);
    assert Head(s7.chain) == 1;
    Next(Init, es, 7, s7, Replacing(stored, fetched, Writing(false)));
    Next(Init, es, 8, Replacing(stored, fetched, Writing(false)), Overtaken(stored, fetched));
    Arrived(Init, es, Overtaken(stored, fetched));
  }

  lemma BeforeReached(stored: Catalog, fetched: Catalog)
    ensures Runs(Init, Before(stored, fetched)) && After(Init, Before(stored, fetched)) == Overtaken(stored, fetched)
  {
    var es := Before(stored, fetched);
    StoringReached(stored, es);
    StoredReached(stored, es);
    ReplacingReached(stored, fetched, es);
    OvertakenReached(stored, fetched, es);
  }

  /** The third refresh has read the store, the change that was on its way has landed in vain, and
      what was read waits to be restored. */
  function Lagging(stored: Catalog, fetched: Catalog, provider: string): State {
    Overtaken(stored, fetched).(
      store := Some(fetched), writes := [1, 2], seen := map[3 := Some(stored)],
      chain := [Persisted(stored, 1, Settled(Published)), Persisted(fetched, 2, Settled(Refused)),
                Restoring(3, stored, provider)])
  }

  function Meanwhile(provider: string): seq<Event> { [StoreChanges, Resume(false), Restore(3, provider)] }

  lemma Prepended(s: State, e: Event, es: seq<Event>, g: nat)
    requires Enabled(s, e) && Abstains(s, e, g)
    requires Runs(Apply(s, e), es) && AbstainsThroughout(Apply(s, e), es, g)
    ensures Runs(s, [e] + es) && After(s, [e] + es) == After(Apply(s, e), es)
    ensures AbstainsThroughout(s, [e] + es, g)
  {
    assert ([e] + es)[1..] == es;
  }

  lemma LaggingReached(stored: Catalog, fetched: Catalog, provider: string, m: State)
    requires m == Overtaken(stored, fetched).(seen := map[3 := Some(stored)])
    ensures Runs(m, Meanwhile(provider)) && After(m, Meanwhile(provider)) == Lagging(stored, fetched, provider)
    ensures AbstainsThroughout(m, Meanwhile(provider), 3)
  {
    var first := Persisted(stored, 1, Settled(Published));
    var s1 := m.(store := Some(fetched), writes := [1, 2], chain := [first, Persisted(fetched, 2, Writing(true))]);
    var s2 := s1.(chain := [first, Persisted(fetched, 2, Settled(Refused))]);
    assert Head(m.chain) == 1 && Head(s1.chain) == 1;
    assert Apply(m, StoreChanges) == s1;
    assert Apply(s1, Resume(false)) == s2;
    assert Apply(s2, Restore(3, provider)) == Lagging(stored, fetched, provider);
    Prepended(s2, Restore(3, provider), [], 3);
    Prepended(s1, Resume(false), [Restore(3, provider)] + [], 3);
    Prepended(m, StoreChanges, [Resume(false)] + ([Restore(3, provider)] + []), 3);
    assert Meanwhile(provider) == [StoreChanges] + ([Resume(false)] + ([Restore(3, provider)] + []));
  }

  /** The overlay ends with what the third refresh read, the store with what landed meanwhile. */
  lemma RestoreMayLag(stored: Catalog, fetched: Catalog, provider: string)
    ensures Runs(Init, Before(stored, fetched)) && Enabled(After(Init, Before(stored, fetched)), ReadStore(3))
    ensures
      var m := Apply(After(Init, Before(stored, fetched)), ReadStore(3));
      && Runs(m, Meanwhile(provider)) && AbstainsThroughout(m, Meanwhile(provider), 3)
      && Enabled(After(m, Meanwhile(provider)), Gate)
      && var r := Apply(After(m, Meanwhile(provider)), Gate);
         && r.overlay == Own(stored, provider) && r.store == Some(fetched) && r.updates == [1, 3] && r.writes == [1, 2]
         && (Own(stored, provider) != Own(fetched, provider) ==> r.overlay != Own(r.store.value, provider))
  {
    BeforeReached(stored, fetched);
    var m := Apply(Overtaken(stored, fetched), ReadStore(3));
    LaggingReached(stored, fetched, provider, m);
    LastGate(stored, fetched, provider);
  }

  lemma LastGate(stored: Catalog, fetched: Catalog, provider: string)
    ensures Enabled(Lagging(stored, fetched, provider), Gate)
    ensures
      var r := Apply(Lagging(stored, fetched, provider), Gate);
      r.overlay == Own(stored, provider) && r.store == Some(fetched) && r.updates == [1, 3] && r.writes == [1, 2]
  {
    var chain := Lagging(stored, fetched, provider).chain;
    assert chain[1..][1..] == [Restoring(3, stored, provider)];
    assert Head(chain[1..][1..]) == 0;
    assert Head(chain) == 2;
  }
}
