/** What aborting a refresh means for its publications, in terms of abort signals and generations
    alone, and which refreshes are aborted. */
module PublicationAborts {
  import opened Catalogs
  import opened Publications

  // ---------- refused exactly ----------

  /** A publication at its gate is refused exactly if its refresh has been aborted or is not the
      latest of the provider; then store and overlay stay as they are. */
  lemma GateRefusesExactly(s: State)
    requires Enabled(s, Gate)
    ensures
      var h, r := Head(s.chain), Apply(s, Gate);
      var g := s.chain[h].generation;
      && (r.chain[h].stage == Settled(Refused) <==> g in s.aborted || g != s.generation)
      && (g in s.aborted || g != s.generation ==> r.store == s.store && r.overlay == s.overlay)
  {}

  /** So is one that continues after its store access. */
  lemma ResumeRefusesExactly(s: State)
    requires Enabled(s, Resume(false))
    ensures
      var h, r := Head(s.chain), Apply(s, Resume(false));
      var g := s.chain[h].generation;
      && (r.chain[h].stage == Settled(Refused) <==> g in s.aborted || g != s.generation)
      && (r.chain[h].stage == Settled(Published) <==> g !in s.aborted && g == s.generation)
      && (g in s.aborted || g != s.generation ==> r.overlay == s.overlay)
  {}

  // ---------- what a publication that is not refused does ----------

  /** At its gate the latest, unaborted refresh goes on to its store access, or, with nothing to
      persist, replaces the overlay at once. */
  lemma GatePassesExactly(s: State)
    requires Enabled(s, Gate)
    ensures
      var h, r := Head(s.chain), Apply(s, Gate);
      var p := s.chain[h];
      p.generation !in s.aborted && p.generation == s.generation ==>
        && r.store == s.store && r.writes == s.writes
        && r.chain == s.chain[h := p.(stage := if p.persist.Keep? then Settled(Published) else Writing(false))]
        && r.overlay == (if p.persist.Keep? && p.update.Some? then p.update.value else s.overlay)
        && r.updates == s.updates + (if p.persist.Keep? && p.update.Some? then [p.generation] else [])
  {}

  /** The store access writes the catalog, or deletes what is stored, and changes nothing else. */
  lemma StoresExactly(s: State)
    requires Enabled(s, StoreChanges)
    ensures
      var h, r := Head(s.chain), Apply(s, StoreChanges);
      var p := s.chain[h];
      && (p.persist.Write? ==> r.store == Some(p.persist.catalog))
      && (p.persist.Delete? ==> r.store == None)
      && r.overlay == s.overlay && r.updates == s.updates && r.writes == s.writes + [p.generation]
  {}

  /** After it the latest, unaborted refresh replaces the overlay; an access that fails ends the
      publication without that. */
  lemma ResumesExactly(s: State, throws: bool)
    requires Enabled(s, Resume(throws))
    ensures
      var h, r := Head(s.chain), Apply(s, Resume(throws));
      var p := s.chain[h];
      var lands := !throws && p.generation !in s.aborted && p.generation == s.generation && p.update.Some?;
      && r.store == s.store && r.writes == s.writes
      && r.overlay == (if lands then p.update.value else s.overlay)
      && r.updates == s.updates + (if lands then [p.generation] else [])
      && (r.chain[h].stage == Settled(Threw) <==> throws)
  {}

  /** A refresh queues behind everything else, and what it restores are the models of its provider
      among those it has read. */
  lemma QueuesExactly(s: State, e: Event)
    requires Enabled(s, e) && (e.Publish? || e.Restore?)
    ensures
      var r := Apply(s, e);
      && |r.chain| == |s.chain| + 1 && r.chain[..|s.chain|] == s.chain && r == s.(chain := r.chain)
      && var p := r.chain[|s.chain|];
         && p.generation == e.generation && p.stage == Waiting
         && (e.Publish? ==> p.persist == e.persist && p.update == e.update)
         && (e.Restore? ==>
               && p.persist == Keep && p.update.Some?
               && p.update.value == Own(s.seen[e.generation].value, e.provider))
  {}

  /** Those models come in the order of the stored catalog. */
  lemma {:induction false} OwnInOrder(xs: Catalog, ys: Catalog, provider: string)
    ensures Own(xs + ys, provider) == Own(xs, provider) + Own(ys, provider)
  {
    if ys == [] {
      assert xs + ys == xs;
    } else {
      var n := |ys| - 1;
      OwnInOrder(xs, ys[..n], provider);
      assert (xs + ys)[..|xs + ys| - 1] == xs + ys[..n];
    }
  }

  lemma OwnOfOne(m: Model, provider: string)
    ensures Own([m], provider) == if m.provider == provider then [m] else []
  {
    assert [m][..0] == [];
  }

  /** A read is recorded for its generation alone, and a refresh that ends gives up its controller
      if it still has it. */
  lemma ReadsExactly(s: State, g: nat)
    ensures Enabled(s, ReadStore(g)) ==> Apply(s, ReadStore(g)) == s.(seen := s.seen[g := s.store])
    ensures Apply(s, EndRefresh(g)) == if s.controller == Some(g) then s.(controller := None) else s
  {}

  // ---------- an aborted refresh is silent ----------

  /** How many of the effects belong to generation `g`. */
  function Of(effects: seq<nat>, g: nat): nat {
    if effects == [] then 0
    else Of(effects[..|effects| - 1], g) + if effects[|effects| - 1] == g then 1 else 0
  }

  lemma OfMore(effects: seq<nat>, e: nat, g: nat)
    ensures Of(effects + [e], g) == Of(effects, g) + if e == g then 1 else 0
  {
    assert (effects + [e])[..|effects|] == effects;
  }

  /** A store change of the generation that is past its gate and has not landed. */
  function OnItsWay(s: State, g: nat): nat {
    var h := Head(s.chain);
    if h < |s.chain| && s.chain[h].stage == Writing(false) && s.chain[h].generation == g then 1 else 0
  }

  lemma AbortedConclude(s: State, g: nat)
    requires InOrder(s.chain) && Head(s.chain) < |s.chain| && g in s.aborted
    ensures var r := Concluded(s, Head(s.chain));
            r.writes == s.writes && Of(r.updates, g) == Of(s.updates, g) && OnItsWay(r, g) == 0
  {
    var h := Head(s.chain);
    OfMore(s.updates, s.chain[h].generation, g);
    SettleHead(s.chain, h, s.chain[h].(stage := Settled(Refused)));
    SettleHead(s.chain, h, s.chain[h].(stage := Settled(Published)));
  }

  lemma AbortedGate(s: State, g: nat)
    requires InOrder(s.chain) && Enabled(s, Gate) && g in s.aborted
    ensures var r := Gated(s, Head(s.chain));
            r.writes == s.writes && Of(r.updates, g) == Of(s.updates, g) && OnItsWay(r, g) == 0
  {
    var h := Head(s.chain);
    AbortedConclude(s, g);
    SettleHead(s.chain, h, s.chain[h].(stage := Settled(Refused)));
    MoveHead(s.chain, h, s.chain[h].(stage := Writing(false)));
  }

  lemma AbortedStore(s: State, g: nat)
    requires InOrder(s.chain) && Enabled(s, StoreChanges)
    ensures var r := Apply(s, StoreChanges);
            r.updates == s.updates && Of(r.writes, g) == Of(s.writes, g) + OnItsWay(s, g) && OnItsWay(r, g) == 0
  {
    var h := Head(s.chain);
    OfMore(s.writes, s.chain[h].generation, g);
    MoveHead(s.chain, h, s.chain[h].(stage := Writing(true)));
  }

  lemma AbortedResume(s: State, throws: bool, g: nat)
    requires InOrder(s.chain) && Enabled(s, Resume(throws)) && g in s.aborted
    ensures var r := Apply(s, Resume(throws));
            r.writes == s.writes && Of(r.updates, g) == Of(s.updates, g) && OnItsWay(r, g) == 0
  {
    var h := Head(s.chain);
    AbortedConclude(s, g);
    SettleHead(s.chain, h, s.chain[h].(stage := Settled(Threw)));
  }

  lemma AbortedQueued(s: State, p: Publication, g: nat)
    requires p.stage == Waiting
    ensures OnItsWay(Queued(s, p), g) == OnItsWay(s, g)
  {
    HeadMore(s.chain, p);
  }

  lemma AbortedStep(s: State, e: Event, g: nat)
    requires InOrder(s.chain) && Enabled(s, e) && g in s.aborted
    ensures var r := Apply(s, e);
            && g in r.aborted && Of(r.updates, g) == Of(s.updates, g)
            && Of(r.writes, g) + OnItsWay(r, g) <= Of(s.writes, g) + OnItsWay(s, g)
  {
    match e
    case Restore(k, provider) => AbortedQueued(s, Restoring(k, s.seen[k].value, provider), g);
    case Publish(k, persist, update) => AbortedQueued(s, Publication(k, persist, update, Waiting), g);
    case Gate => AbortedGate(s, g);
    case StoreChanges => AbortedStore(s, g);
    case Resume(throws) => AbortedResume(s, throws, g);
    case _ =>
  }

  /** Once a refresh has been aborted, by its caller or by a later refresh, the overlay is never
      changed on its behalf, and the store at most once, by the publication past its gate. */
  lemma {:induction false} AbortedIsSilent(s: State, es: seq<Event>, g: nat)
    requires Inv(s) && Runs(s, es) && g in s.aborted
    ensures Of(After(s, es).updates, g) == Of(s.updates, g)
    ensures Of(After(s, es).writes, g) <= Of(s.writes, g) + OnItsWay(s, g)
    decreases es
  {
    if es != [] {
      AbortedStep(s, es[0], g);
      KeepInv(s, es[0]);
      AbortedIsSilent(Apply(s, es[0]), es[1..], g);
    }
  }

  // ---------- which refreshes are aborted ----------

  /** The controller is that of the latest refresh, unless it has ended. */
  ghost predicate Controlled(s: State) {
    s.controller.Some? ==> s.controller.value == s.generation
  }

  lemma {:induction false} RunControlled(s: State, es: seq<Event>)
    requires Controlled(s) && Runs(s, es)
    ensures Controlled(After(s, es))
    decreases es
  {
    if es != [] { RunControlled(Apply(s, es[0]), es[1..]); }
  }

  /** A refresh or a replacement of the provider aborts exactly the refresh under way, and takes the
      next generation; a caller aborts its own refresh and no other. */
  lemma AbortsExactly(s: State, e: Event, g: nat)
    requires Enabled(s, e)
    ensures
      var r := Apply(s, e);
      && (g in r.aborted <==>
            || g in s.aborted || e == CallerAbort(g)
            || ((e.BeginRefresh? || e.ReplaceProvider?) && s.controller == Some(g)))
      && r.generation == s.generation + (if e.BeginRefresh? || e.ReplaceProvider? then 1 else 0)
      && (r.controller.Some? <==>
            e.BeginRefresh?
            || (s.controller.Some? && !e.ReplaceProvider? && e != EndRefresh(s.controller.value)))
  {}

  /** A provider that is replaced brings its own models; a refresh that begins changes none. */
  lemma ReplacesExactly(s: State, overlay: Catalog)
    ensures
      var r := Apply(s, ReplaceProvider(overlay));
      r.overlay == overlay && r.store == s.store && r.chain == s.chain && r.seen == s.seen
    ensures
      var r := Apply(s, BeginRefresh);
      r.overlay == s.overlay && r.store == s.store && r.chain == s.chain && r.seen == s.seen
  {}

  /** A refresh that has ended is aborted by nobody but its own caller. */
  lemma {:induction false} EndedNotAborted(s: State, es: seq<Event>, g: nat)
    requires Controlled(s) && Runs(s, es) && g <= s.generation && s.controller != Some(g)
    requires g !in s.aborted && CallerAbort(g) !in es
    ensures g !in After(s, es).aborted
    decreases es
  {
    if es != [] {
      AbortsExactly(s, es[0], g);
      EndedNotAborted(Apply(s, es[0]), es[1..], g);
    }
  }
}
