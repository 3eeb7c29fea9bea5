/** `ModelsImpl`: the tables of refreshes and publications of all providers.  Every method takes
    the step of the transition system for one provider and leaves the others alone. */
module ModelsRegistry {
  import opened Catalogs
  import opened Publications

  type ProviderId = string

  class ModelsImpl {
    var generations: map<ProviderId, nat>
    var controllers: map<ProviderId, nat>
    var aborted: map<ProviderId, set<nat>>
    var chains: map<ProviderId, seq<Publication>>
    var store: map<ProviderId, Catalog>
    var overlays: map<ProviderId, Catalog>
    var seen: map<ProviderId, map<nat, Option<Catalog>>>
    ghost var writes: map<ProviderId, seq<nat>>
    ghost var updates: map<ProviderId, seq<nat>>

    ghost function View(id: ProviderId): State
      reads this
    {
      State(
        if id in generations then generations[id] else 0,
        if id in controllers then Some(controllers[id]) else None,
        if id in aborted then aborted[id] else {},
        if id in chains then chains[id] else [],
        if id in store then Some(store[id]) else None,
        if id in overlays then overlays[id] else [],
        if id in seen then seen[id] else map[],
        if id in writes then writes[id] else [],
        if id in updates then updates[id] else [])
    }

    constructor ()
      ensures forall id :: View(id) == Init
    {
      generations, controllers, aborted, chains := map[], map[], map[], map[];
      store, overlays, seen, writes, updates := map[], map[], map[], map[], map[];
    }

    twostate predicate Only(id: ProviderId, s: State)
      reads this
    {
      View(id) == s && forall k | k != id :: View(k) == old(View(k))
    }

    /** A provider whose entries are all as before is as before. */
    twostate lemma Same(k: ProviderId)
      requires (k in generations <==> k in old(generations))
      requires (k in generations ==> generations[k] == old(generations)[k])
      requires (k in controllers <==> k in old(controllers))
      requires (k in controllers ==> controllers[k] == old(controllers)[k])
      requires (k in aborted <==> k in old(aborted)) && (k in aborted ==> aborted[k] == old(aborted)[k])
      requires (k in chains <==> k in old(chains)) && (k in chains ==> chains[k] == old(chains)[k])
      requires (k in store <==> k in old(store)) && (k in store ==> store[k] == old(store)[k])
      requires (k in overlays <==> k in old(overlays)) && (k in overlays ==> overlays[k] == old(overlays)[k])
      requires (k in seen <==> k in old(seen)) && (k in seen ==> seen[k] == old(seen)[k])
      requires (k in writes <==> k in old(writes)) && (k in writes ==> writes[k] == old(writes)[k])
      requires (k in updates <==> k in old(updates)) && (k in updates ==> updates[k] == old(updates)[k])
      ensures View(k) == old(View(k))
    {}

    method SupersedeProviderRefresh(id: ProviderId) returns (generation: nat)
      modifies this`generations, this`controllers, this`aborted
      ensures generation == old(View(id)).generation + 1 && Only(id, Superseded(old(View(id))))
    {
      generation := (if id in generations then generations[id] else 0) + 1;
      generations := generations[id := generation];
      if id in controllers {
        aborted := aborted[id := (if id in aborted then aborted[id] else {}) + {controllers[id]}];
        controllers := controllers - {id};
      }
      forall k | k != id ensures View(k) == old(View(k)) { Same(k); }
    }

    method SetProvider(id: ProviderId, overlay: Catalog)
      modifies this
      ensures Only(id, Apply(old(View(id)), ReplaceProvider(overlay)))
    {
      var _ := SupersedeProviderRefresh(id);
      overlays := overlays[id := overlay];
    }

    method BeginProviderRefresh(id: ProviderId) returns (generation: nat)
      modifies this`generations, this`controllers, this`aborted
      ensures generation == old(View(id)).generation + 1 && Only(id, Begun(old(View(id))))
    {
      generation := SupersedeProviderRefresh(id);
      controllers := controllers[id := generation];
    }

    method EndProviderRefresh(id: ProviderId, generation: nat)
      modifies this`controllers
      ensures Only(id, Apply(old(View(id)), EndRefresh(generation)))
    {
      if id in controllers && controllers[id] == generation { controllers := controllers - {id}; }
    }

    /** Queues a publication behind the earlier ones of its provider. */
    method PublishProviderModels(id: ProviderId, generation: nat, persist: Persist, update: Option<Catalog>)
      requires 1 <= generation <= View(id).generation
      modifies this`chains
      ensures Only(id, Apply(old(View(id)), Publish(generation, persist, update)))
    {
      var chain := if id in chains then chains[id] else [];
      chains := chains[id := chain + [Publication(generation, persist, update, Waiting)]];
    }

    /** What a refresh phase reads before it hands over to the provider. */
    method ReadStored(id: ProviderId, generation: nat) returns (stored: Option<Catalog>)
      requires Enabled(View(id), ReadStore(generation))
      modifies this`seen
      ensures stored == View(id).store && Only(id, Apply(old(View(id)), ReadStore(generation)))
    {
      stored := if id in store then Some(store[id]) else None;
      seen := seen[id := (if id in seen then seen[id] else map[])[generation := stored]];
    }

    /** A provider restores its part of what its refresh has read, if there was anything. */
    method RestoreStored(id: ProviderId, generation: nat)
      requires 1 <= generation <= View(id).generation && generation in View(id).seen
      modifies this`chains
      ensures if View(id).seen[generation].Some? then Only(id, Apply(old(View(id)), Restore(generation, id)))
              else Only(id, old(View(id)))
    {
      if seen[id][generation].Some? {
        var restored := Own(seen[id][generation].value, id);
        PublishProviderModels(id, generation, Keep, Some(restored));
      }
    }

    method IsCurrent(id: ProviderId, p: Publication) returns (current: bool)
      ensures current == Current(View(id), p)
    {
      current := !(id in aborted && p.generation in aborted[id])
                 && (if id in generations then generations[id] else 0) == p.generation;
    }

    method Move(id: ProviderId, h: nat, stage: Stage)
      requires h < |View(id).chain|
      modifies this`chains
      ensures Only(id, SetStage(old(View(id)), h, stage))
      ensures id in old(chains) && chains == old(chains)[id := chains[id]]
    {
      chains := chains[id := chains[id][h := chains[id][h].(stage := stage)]];
    }

    /** From the first check to the store access or, with nothing to persist, to the answer. */
    method PassGate(id: ProviderId)
      requires Enabled(View(id), Gate)
      modifies this`chains, this`overlays, this`updates
      ensures Only(id, Apply(old(View(id)), Gate))
    {
      var h := Head(chains[id]);
      var current := IsCurrent(id, chains[id][h]);
      if !current {
        Move(id, h, Settled(Refused));
      } else if chains[id][h].persist.Keep? {
        Conclude(id, h);
      } else {
        Move(id, h, Writing(false));
      }
    }

    /** The second check and the update of the overlay. */
    method Conclude(id: ProviderId, h: nat)
      requires h < |View(id).chain|
      modifies this`chains, this`overlays, this`updates
      ensures Only(id, Concluded(old(View(id)), h))
    {
      var p := chains[id][h];
      var current := IsCurrent(id, p);
      if !current {
        Move(id, h, Settled(Refused));
        return;
      }
      Move(id, h, Settled(Published));
      if p.update.Some? {
        overlays := overlays[id := p.update.value];
        updates := updates[id := (if id in updates then updates[id] else []) + [p.generation]];
      }
      forall k | k != id ensures View(k) == old(View(k)) { Same(k); }
    }

    /** The store access takes effect. */
    method ChangeStore(id: ProviderId)
      requires Enabled(View(id), StoreChanges)
      modifies this`chains, this`store, this`writes
      ensures Only(id, Apply(old(View(id)), StoreChanges))
    {
      var h := Head(chains[id]);
      var p := chains[id][h];
      Move(id, h, Writing(true));
      if p.persist.Write? { store := store[id := p.persist.catalog]; } else { store := store - {id}; }
      writes := writes[id := (if id in writes then writes[id] else []) + [p.generation]];
      forall k | k != id ensures View(k) == old(View(k)) { Same(k); }
    }

    /** The continuation after the store access. */
    method ContinuePublication(id: ProviderId, throws: bool)
      requires Enabled(View(id), Resume(throws))
      modifies this`chains, this`overlays, this`updates
      ensures Only(id, Apply(old(View(id)), Resume(throws)))
    {
      var h := Head(chains[id]);
      if throws { Move(id, h, Settled(Threw)); } else { Conclude(id, h); }
    }

    /** `clearProviders` supersedes every provider that is known or being refreshed. */
    method ClearProviders(known: set<ProviderId>)
      modifies this`generations, this`controllers, this`aborted
      ensures forall id :: View(id) == if id in known || id in old(controllers) then Superseded(old(View(id)))
                                       else old(View(id))
    {
      var todo := known + controllers.Keys;
      ghost var all := todo;
      while todo != {}
        invariant todo <= all
        invariant forall id | id in all - todo :: View(id) == Superseded(old(View(id)))
        invariant forall id | id !in all - todo :: View(id) == old(View(id))
        decreases todo
      {
        var id :| id in todo;
        var _ := SupersedeProviderRefresh(id);
        todo := todo - {id};
      }
    }
  }
}
