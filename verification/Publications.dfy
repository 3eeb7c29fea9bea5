/** Publishing the models of one provider as a transition system: refresh generations, abort
    signals, the chain of publications, the durable store and the provider's overlay. */
module Publications {
  import opened Catalogs

  type Catalog = seq<Model>

  datatype Persist = Keep | Delete | Write(catalog: Catalog)

  datatype Answer = Published | Refused | Threw

  /** `Writing` is past the first check; `applied` says that the store has been changed. */
  datatype Stage = Waiting | Writing(applied: bool) | Settled(answer: Answer)

  datatype Publication = Publication(generation: nat, persist: Persist, update: Option<Catalog>, stage: Stage)

  /** `chain` holds every publication in the order of the calls; `seen` what the refresh of a
      generation has last read from the store; `writes` and `updates` record the generations that
      changed the store and the overlay. */
  datatype State = State(
    generation: nat,
    controller: Option<nat>,
    aborted: set<nat>,
    chain: seq<Publication>,
    store: Option<Catalog>,
    overlay: Catalog,
    seen: map<nat, Option<Catalog>>,
    writes: seq<nat>,
    updates: seq<nat>)

  const Init := State(0, None, {}, [], None, [], map[], [], [])

  datatype Event =
    | ReplaceProvider(overlay: Catalog)
    | BeginRefresh
    | EndRefresh(generation: nat)
    | CallerAbort(generation: nat)
    | ReadStore(generation: nat)
    | Restore(generation: nat, provider: string)
    | Publish(generation: nat, persist: Persist, update: Option<Catalog>)
    | Gate
    | StoreChanges
    | Resume(throws: bool)

  function Superseded(s: State): State {
    s.(generation := s.generation + 1, controller := None,
       aborted := if s.controller.Some? then s.aborted + {s.controller.value} else s.aborted)
  }

  function Begun(s: State): State {
    Superseded(s).(controller := Some(s.generation + 1))
  }

  /** The number of settled publications: the next one is the head of the chain. */
  function Head(chain: seq<Publication>): (h: nat)
    ensures h <= |chain|
    ensures forall k | 0 <= k < h :: chain[k].stage.Settled?
    ensures h < |chain| ==> !chain[h].stage.Settled?
  {
    if chain == [] || !chain[0].stage.Settled? then 0 else 1 + Head(chain[1..])
  }

  predicate Current(s: State, p: Publication) {
    p.generation !in s.aborted && s.generation == p.generation
  }

  function SetStage(s: State, h: nat, stage: Stage): State
    requires h < |s.chain|
  {
    s.(chain := s.chain[h := s.chain[h].(stage := stage)])
  }

  /** The second check, and the in-memory update. */
  function Concluded(s: State, h: nat): State
    requires h < |s.chain|
  {
    var p := s.chain[h];
    if !Current(s, p) then SetStage(s, h, Settled(Refused))
    else
      var s1 := SetStage(s, h, Settled(Published));
      if p.update.None? then s1 else s1.(overlay := p.update.value, updates := s1.updates + [p.generation])
  }

  /** The first check; without anything to persist the second follows at once. */
  function Gated(s: State, h: nat): State
    requires h < |s.chain|
  {
    var p := s.chain[h];
    if !Current(s, p) then SetStage(s, h, Settled(Refused))
    else if p.persist.Keep? then Concluded(s, h)
    else SetStage(s, h, Writing(false))
  }

  function Applied(s: State, h: nat): State
    requires h < |s.chain|
  {
    var p := s.chain[h];
    SetStage(s, h, Writing(true)).(
      store := if p.persist.Write? then Some(p.persist.catalog) else None,
      writes := s.writes + [p.generation])
  }

  function Queued(s: State, p: Publication): State {
    s.(chain := s.chain + [p])
  }

  /** The models of one provider: a stored catalog may hold others. */
  function Own(catalog: Catalog, provider: string): (own: Catalog)
    ensures forall model :: model in own <==> model in catalog && model.provider == provider
  {
    if catalog == [] then []
    else
      var rest := Own(catalog[..|catalog| - 1], provider);
      if catalog[|catalog| - 1].provider == provider then rest + [catalog[|catalog| - 1]] else rest
  }

  /** What a refresh queues to restore the stored catalog it has read. */
  function Restoring(g: nat, stored: Catalog, provider: string): Publication {
    Publication(g, Keep, Some(Own(stored, provider)), Waiting)
  }

  predicate Enabled(s: State, e: Event) {
    var h := Head(s.chain);
    match e
    case ReadStore(g) => 1 <= g <= s.generation
    case Restore(g, _) => 1 <= g <= s.generation && g in s.seen && s.seen[g].Some?
    case Publish(g, _, _) => 1 <= g <= s.generation
    case Gate => h < |s.chain| && s.chain[h].stage == Waiting
    case StoreChanges => h < |s.chain| && s.chain[h].stage == Writing(false)
    case Resume(throws) => h < |s.chain| && s.chain[h].stage.Writing? && (!throws ==> s.chain[h].stage.applied)
    case _ => true
  }

  function Apply(s: State, e: Event): State
    requires Enabled(s, e)
  {
    var h := Head(s.chain);
    match e
    case ReplaceProvider(overlay) => Superseded(s).(overlay := overlay)
    case BeginRefresh => Begun(s)
    case EndRefresh(g) => if s.controller == Some(g) then s.(controller := None) else s
    case CallerAbort(g) => s.(aborted := s.aborted + {g})
    case ReadStore(g) => s.(seen := s.seen[g := s.store])
    case Restore(g, provider) => Queued(s, Restoring(g, s.seen[g].value, provider))
    case Publish(g, persist, update) => Queued(s, Publication(g, persist, update, Waiting))
    case Gate => Gated(s, h)
    case StoreChanges => Applied(s, h)
    case Resume(throws) => if throws then SetStage(s, h, Settled(Threw)) else Concluded(s, h)
  }

  // ---------- the invariant ----------

  predicate PastGate(p: Publication) {
    p.stage.Writing?
  }

  ghost predicate Sorted(gs: seq<nat>) {
    forall i, j | 0 <= i < j < |gs| :: gs[i] <= gs[j]
  }

  ghost predicate Below(gs: seq<nat>, g: nat) {
    forall i | 0 <= i < |gs| :: gs[i] <= g
  }

  /** Behind the head everything waits: at most one publication is past its gate. */
  ghost predicate InOrder(chain: seq<Publication>) {
    forall k | Head(chain) < k < |chain| :: chain[k].stage == Waiting
  }

  /** What the head has past the gate is not older than any effect so far. */
  ghost predicate HeadNewest(chain: seq<Publication>, generation: nat, writes: seq<nat>) {
    var h := Head(chain);
    h < |chain| && PastGate(chain[h]) ==> chain[h].generation <= generation && Below(writes, chain[h].generation)
  }

  ghost predicate Inv(s: State) {
    && InOrder(s.chain) && HeadNewest(s.chain, s.generation, s.writes)
    && Sorted(s.writes) && Sorted(s.updates)
    && Below(s.writes, s.generation) && Below(s.updates, s.generation)
  }

  lemma {:induction false} HeadMore(chain: seq<Publication>, p: Publication)
    requires !p.stage.Settled?
    ensures Head(chain + [p]) == Head(chain)
  {
    if chain != [] && chain[0].stage.Settled? {
      assert (chain + [p])[1..] == chain[1..] + [p];
      HeadMore(chain[1..], p);
    }
  }

  lemma {:induction false} HeadSet(chain: seq<Publication>, h: nat, p: Publication)
    requires h == Head(chain) < |chain|
    ensures !p.stage.Settled? ==> Head(chain[h := p]) == h
    ensures p.stage.Settled? ==> Head(chain[h := p]) >= h + 1
  {
    if h > 0 {
      assert chain[h := p][1..] == chain[1..][h - 1 := p];
      HeadSet(chain[1..], h - 1, p);
    }
  }

  /** Settling the head leaves a chain in which nothing is past its gate. */
  lemma SettleHead(chain: seq<Publication>, h: nat, p: Publication)
    requires InOrder(chain) && h == Head(chain) < |chain| && p.stage.Settled?
    ensures var r := chain[h := p];
            InOrder(r) && (Head(r) < |r| ==> !PastGate(r[Head(r)]))
  {
    HeadSet(chain, h, p);
  }

  lemma MoveHead(chain: seq<Publication>, h: nat, p: Publication)
    requires InOrder(chain) && h == Head(chain) < |chain| && !p.stage.Settled?
    ensures var r := chain[h := p];
            InOrder(r) && Head(r) == h && r[h] == p
  {
    HeadSet(chain, h, p);
  }

  lemma SettledKeeps(s: State, h: nat, answer: Answer)
    requires Inv(s) && h == Head(s.chain) < |s.chain|
    ensures Inv(SetStage(s, h, Settled(answer)))
  {
    SettleHead(s.chain, h, s.chain[h].(stage := Settled(answer)));
  }

  lemma UpdatedKeeps(s: State, g: nat, overlay: Catalog)
    requires Inv(s) && g == s.generation
    ensures Inv(s.(overlay := overlay, updates := s.updates + [g]))
  {}

  lemma ConcludedKeeps(s: State, h: nat)
    requires Inv(s) && h == Head(s.chain) < |s.chain|
    ensures Inv(Concluded(s, h))
  {
    var p := s.chain[h];
    SettledKeeps(s, h, Refused);
    SettledKeeps(s, h, Published);
    if Current(s, p) && p.update.Some? {
      UpdatedKeeps(SetStage(s, h, Settled(Published)), p.generation, p.update.value);
    }
  }

  lemma GatedKeeps(s: State, h: nat)
    requires Inv(s) && h == Head(s.chain) < |s.chain|
    ensures Inv(Gated(s, h))
  {
    ConcludedKeeps(s, h);
    SettleHead(s.chain, h, s.chain[h].(stage := Settled(Refused)));
    MoveHead(s.chain, h, s.chain[h].(stage := Writing(false)));
  }

  lemma AppliedKeeps(s: State, h: nat)
    requires Inv(s) && h == Head(s.chain) < |s.chain| && PastGate(s.chain[h])
    ensures Inv(Applied(s, h))
  {
    MoveHead(s.chain, h, s.chain[h].(stage := Writing(true)));
  }

  lemma PublishKeeps(s: State, p: Publication)
    requires Inv(s) && p.stage == Waiting
    ensures Inv(Queued(s, p))
  {
    HeadMore(s.chain, p);
  }

  lemma SupersededKeeps(s: State)
    requires Inv(s)
    ensures Inv(Superseded(s))
  {}

  lemma ThrewKeeps(s: State, h: nat)
    requires Inv(s) && h == Head(s.chain) < |s.chain|
    ensures Inv(SetStage(s, h, Settled(Threw)))
  {
    SettleHead(s.chain, h, s.chain[h].(stage := Settled(Threw)));
  }

  /** Every step keeps the chain in order and both logs of effects sorted by generation. */
  lemma KeepInv(s: State, e: Event)
    requires Inv(s) && Enabled(s, e)
    ensures Inv(Apply(s, e))
  {
    var h := Head(s.chain);
    match e
    case ReplaceProvider(overlay) => SupersededKeeps(s);
    case BeginRefresh => SupersededKeeps(s);
    case EndRefresh(_) =>
    case CallerAbort(_) =>
    case ReadStore(_) =>
    case Restore(g, provider) => PublishKeeps(s, Restoring(g, s.seen[g].value, provider));
    case Publish(g, persist, update) => PublishKeeps(s, Publication(g, persist, update, Waiting));
    case Gate => GatedKeeps(s, h);
    case StoreChanges => AppliedKeeps(s, h);
    case Resume(throws) => if throws { ThrewKeeps(s, h); } else { ConcludedKeeps(s, h); }
  }

  // ---------- runs ----------

  predicate Runs(s: State, es: seq<Event>)
    decreases es
  {
    es == [] || (Enabled(s, es[0]) && Runs(Apply(s, es[0]), es[1..]))
  }

  function After(s: State, es: seq<Event>): State
    requires Runs(s, es)
    decreases es
  {
    if es == [] then s else After(Apply(s, es[0]), es[1..])
  }

  lemma {:induction false} RunKeepsInv(s: State, es: seq<Event>)
    requires Inv(s) && Runs(s, es)
    ensures Inv(After(s, es))
    decreases es
  {
    if es != [] {
      KeepInv(s, es[0]);
      RunKeepsInv(Apply(s, es[0]), es[1..]);
    }
  }

  /** In every run the store and the overlay change in nondecreasing order of generation, and at
      most one publication is past its gate. */
  lemma EffectsInOrder(es: seq<Event>)
    requires Runs(Init, es)
    ensures var s := After(Init, es);
            && Sorted(s.writes) && Sorted(s.updates)
            && forall j, k | 0 <= j < |s.chain| && 0 <= k < |s.chain| && PastGate(s.chain[j]) && PastGate(s.chain[k]) ::
                 j == k
  {
    RunKeepsInv(Init, es);
    var s := After(Init, es);
    forall j, k | 0 <= j < |s.chain| && 0 <= k < |s.chain| && PastGate(s.chain[j]) && PastGate(s.chain[k])
      ensures j == k
    {
      assert j == Head(s.chain) && k == Head(s.chain);
    }
  }

  // ---------- superseded refreshes ----------

  /** How many of the effects belong to generations older than `g`. */
  function Older(effects: seq<nat>, g: nat): nat {
    if effects == [] then 0
    else Older(effects[..|effects| - 1], g) + if effects[|effects| - 1] < g then 1 else 0
  }

  lemma OlderMore(effects: seq<nat>, e: nat, g: nat)
    ensures Older(effects + [e], g) == Older(effects, g) + if e < g then 1 else 0
  {
    assert (effects + [e])[..|effects|] == effects;
  }

  /** The one store change of an older generation that may still land. */
  predicate InFlight(s: State, g: nat) {
    var h := Head(s.chain);
    h < |s.chain| && s.chain[h].stage == Writing(false) && s.chain[h].generation < g
  }

  function Outstanding(s: State, g: nat): nat {
    if InFlight(s, g) then 1 else 0
  }

  lemma LateStep(s: State, e: Event, g: nat)
    requires Inv(s) && Enabled(s, e) && g <= s.generation
    ensures var r := Apply(s, e);
            && g <= r.generation
            && Older(r.updates, g) == Older(s.updates, g)
            && Older(r.writes, g) + Outstanding(r, g) <= Older(s.writes, g) + Outstanding(s, g)
  {
    var h := Head(s.chain);
    match e
    case ReplaceProvider(_) =>
    case BeginRefresh =>
    case EndRefresh(_) =>
    case CallerAbort(_) =>
    case ReadStore(_) =>
    case Restore(k, provider) => HeadMore(s.chain, Restoring(k, s.seen[k].value, provider));
    case Publish(k, persist, update) => HeadMore(s.chain, Publication(k, persist, update, Waiting));
    case Gate => LateGate(s, g);
    case StoreChanges =>
      OlderMore(s.writes, s.chain[h].generation, g);
      MoveHead(s.chain, h, s.chain[h].(stage := Writing(true)));
    case Resume(throws) =>
      if throws { SettleHead(s.chain, h, s.chain[h].(stage := Settled(Threw))); } else { LateConclude(s, g); }
  }

  lemma LateConclude(s: State, g: nat)
    requires Inv(s) && Head(s.chain) < |s.chain| && g <= s.generation
    ensures var r := Concluded(s, Head(s.chain));
            r.writes == s.writes && Older(r.updates, g) == Older(s.updates, g) && Outstanding(r, g) == 0
  {
    var h := Head(s.chain);
    OlderMore(s.updates, s.chain[h].generation, g);
    SettleHead(s.chain, h, s.chain[h].(stage := Settled(Refused)));
    SettleHead(s.chain, h, s.chain[h].(stage := Settled(Published)));
  }

  lemma LateGate(s: State, g: nat)
    requires Inv(s) && Head(s.chain) < |s.chain| && g <= s.generation && s.chain[Head(s.chain)].stage == Waiting
    ensures var r := Gated(s, Head(s.chain));
            r.writes == s.writes && Older(r.updates, g) == Older(s.updates, g) && Outstanding(r, g) == 0
  {
    var h := Head(s.chain);
    LateConclude(s, g);
    SettleHead(s.chain, h, s.chain[h].(stage := Settled(Refused)));
    MoveHead(s.chain, h, s.chain[h].(stage := Writing(false)));
  }

  /** Once a refresh has been superseded the overlay is never changed on behalf of it or of any
      older one, and the store at most once, by the publication that was past its gate. */
  lemma {:induction false} SupersededIsSilent(s: State, es: seq<Event>, g: nat)
    requires Inv(s) && Runs(s, es) && g <= s.generation
    ensures Older(After(s, es).updates, g) == Older(s.updates, g)
    ensures Older(After(s, es).writes, g) <= Older(s.writes, g) + Outstanding(s, g)
    decreases es
  {
    if es != [] {
      LateStep(s, es[0], g);
      KeepInv(s, es[0]);
      SupersededIsSilent(Apply(s, es[0]), es[1..], g);
    }
  }

  // ---------- store and overlay ----------

  /** The store change of a publication past its gate is still in the store. */
  ghost predicate Held(s: State) {
    var h := Head(s.chain);
    h < |s.chain| && s.chain[h].stage == Writing(true) ==>
      s.store == (if s.chain[h].persist.Write? then Some(s.chain[h].persist.catalog) else None)
      && !s.chain[h].persist.Keep?
  }

  ghost predicate Kept(s: State) {
    var h := Head(s.chain);
    h < |s.chain| && PastGate(s.chain[h]) ==> !s.chain[h].persist.Keep?
  }

  lemma SettledHeld(s: State, h: nat, answer: Answer)
    requires InOrder(s.chain) && h == Head(s.chain) < |s.chain|
    ensures var r := SetStage(s, h, Settled(answer));
            Head(r.chain) < |r.chain| ==> !PastGate(r.chain[Head(r.chain)])
  {
    SettleHead(s.chain, h, s.chain[h].(stage := Settled(answer)));
  }

  lemma AnsweredHeld(s: State, h: nat, answer: Answer, r: State)
    requires InOrder(s.chain) && h == Head(s.chain) < |s.chain| && r.chain == SetStage(s, h, Settled(answer)).chain
    ensures Held(r) && Kept(r)
  {
    SettledHeld(s, h, answer);
  }

  lemma ResumeHeld(s: State, throws: bool)
    requires InOrder(s.chain) && Enabled(s, Resume(throws))
    ensures Held(Apply(s, Resume(throws))) && Kept(Apply(s, Resume(throws)))
  {
    var h, r := Head(s.chain), Apply(s, Resume(throws));
    if throws {
      AnsweredHeld(s, h, Threw, r);
    } else if Current(s, s.chain[h]) {
      AnsweredHeld(s, h, Published, r);
    } else {
      AnsweredHeld(s, h, Refused, r);
    }
  }

  lemma GateHeld(s: State)
    requires InOrder(s.chain) && Enabled(s, Gate)
    ensures Held(Apply(s, Gate)) && Kept(Apply(s, Gate))
  {
    var h := Head(s.chain);
    SettledHeld(s, h, Refused);
    SettledHeld(s, h, Published);
    MoveHead(s.chain, h, s.chain[h].(stage := Writing(false)));
  }

  lemma KeepHeld(s: State, e: Event)
    requires Inv(s) && Held(s) && Kept(s) && Enabled(s, e)
    ensures Held(Apply(s, e)) && Kept(Apply(s, e))
  {
    match e
    case ReplaceProvider(_) =>
    case BeginRefresh =>
    case EndRefresh(_) =>
    case CallerAbort(_) =>
    case ReadStore(_) =>
    case Restore(k, provider) => QueuedHeld(s, Restoring(k, s.seen[k].value, provider));
    case Publish(k, persist, update) => QueuedHeld(s, Publication(k, persist, update, Waiting));
    case Gate => GateHeld(s);
    case StoreChanges => StoreHeld(s);
    case Resume(throws) => ResumeHeld(s, throws);
  }

  lemma QueuedHeld(s: State, p: Publication)
    requires Inv(s) && Held(s) && Kept(s) && p.stage == Waiting
    ensures Held(Queued(s, p)) && Kept(Queued(s, p))
  {
    HeadMore(s.chain, p);
  }

  lemma StoreHeld(s: State)
    requires Inv(s) && Held(s) && Kept(s) && Enabled(s, StoreChanges)
    ensures Held(Apply(s, StoreChanges)) && Kept(Apply(s, StoreChanges))
  {
    var h := Head(s.chain);
    MoveHead(s.chain, h, s.chain[h].(stage := Writing(true)));
  }

  lemma {:induction false} RunKeepsHeld(s: State, es: seq<Event>)
    requires Inv(s) && Held(s) && Kept(s) && Runs(s, es)
    ensures Inv(After(s, es)) && Held(After(s, es)) && Kept(After(s, es))
    decreases es
  {
    if es != [] {
      KeepInv(s, es[0]);
      KeepHeld(s, es[0]);
      RunKeepsHeld(Apply(s, es[0]), es[1..]);
    }
  }

  /** When a publication that persists and shows the same catalog is answered with success, store
      and overlay hold that catalog; when it is refused after its store change landed, the store
      is ahead of the overlay. */
  lemma PublishedMeansInStep(es: seq<Event>, catalog: Catalog)
    requires Runs(Init, es)
    requires var s := After(Init, es);
             var h := Head(s.chain);
             Enabled(s, Resume(false)) && s.chain[h].persist == Write(catalog) && s.chain[h].update == Some(catalog)
    ensures var s := After(Init, es);
            var h := Head(s.chain);
            var r := Apply(s, Resume(false));
            var g := s.chain[h].generation;
            && r.store == Some(catalog)
            && (r.chain[h].stage == Settled(Published) <==> g !in s.aborted && g == s.generation)
            && r.overlay == (if g !in s.aborted && g == s.generation then catalog else s.overlay)
  {
    RunKeepsHeld(Init, es);
  }

  // ---------- restoring what was read ----------

  /** What a publication that persists leaves in the store. */
  function Target(persist: Persist): Option<Catalog> {
    if persist.Write? then Some(persist.catalog) else None
  }

  /** A store change is on its way: the head is past its gate and has not changed the store. */
  predicate Busy(s: State) {
    Head(s.chain) < |s.chain| && s.chain[Head(s.chain)].stage == Writing(false)
  }

  /** The refresh of generation `g` neither reads the store again nor persists anything. */
  predicate Abstains(s: State, e: Event, g: nat)
    requires Enabled(s, e)
  {
    match e
    case ReadStore(k) => k != g
    case Gate => s.chain[Head(s.chain)].generation == g ==> s.chain[Head(s.chain)].persist.Keep?
    case _ => true
  }

  predicate AbstainsThroughout(s: State, es: seq<Event>, g: nat)
    requires Runs(s, es)
    decreases es
  {
    es != [] ==> Abstains(s, es[0], g) && AbstainsThroughout(Apply(s, es[0]), es[1..], g)
  }

  /** Since `m` nothing has changed the store but, perhaps, the change that was on its way then. */
  ghost predicate Since(m: State, s: State) {
    || (s.writes == m.writes && s.store == m.store
        && (Busy(s) ==> Busy(m) && s.chain[Head(s.chain)].persist == m.chain[Head(m.chain)].persist))
    || (Busy(m) && !Busy(s) && |s.writes| == |m.writes| + 1 && s.store == Target(m.chain[Head(m.chain)].persist))
  }

  lemma SinceStep(m: State, s: State, e: Event, g: nat)
    requires Inv(s) && Since(m, s) && s.generation == g && Enabled(s, e) && Abstains(s, e, g)
    requires Apply(s, e).generation == g
    ensures Since(m, Apply(s, e))
  {
    var h := Head(s.chain);
    match e
    case ReplaceProvider(_) =>
    case BeginRefresh =>
    case EndRefresh(_) =>
    case CallerAbort(_) =>
    case ReadStore(_) =>
    case Restore(k, provider) => HeadMore(s.chain, Restoring(k, s.seen[k].value, provider));
    case Publish(k, persist, update) => HeadMore(s.chain, Publication(k, persist, update, Waiting));
    case Gate => SinceGate(m, s, g);
    case StoreChanges => MoveHead(s.chain, h, s.chain[h].(stage := Writing(true)));
    case Resume(throws) => SinceResume(m, s, throws);
  }

  /** A publication that is answered leaves nothing on its way. */
  lemma SinceSettled(m: State, s: State, answer: Answer, r: State)
    requires InOrder(s.chain) && Head(s.chain) < |s.chain|
    requires r.chain == SetStage(s, Head(s.chain), Settled(answer)).chain
    ensures !Busy(r)
  {
    SettledHeld(s, Head(s.chain), answer);
  }

  lemma SinceGate(m: State, s: State, g: nat)
    requires InOrder(s.chain) && Since(m, s) && s.generation == g && Enabled(s, Gate) && Abstains(s, Gate, g)
    ensures Since(m, Apply(s, Gate))
  {
    SinceSettled(m, s, if Current(s, s.chain[Head(s.chain)]) then Published else Refused, Apply(s, Gate));
  }

  lemma SinceResume(m: State, s: State, throws: bool)
    requires InOrder(s.chain) && Since(m, s) && Enabled(s, Resume(throws))
    ensures Since(m, Apply(s, Resume(throws)))
  {
    var current := Current(s, s.chain[Head(s.chain)]);
    SinceSettled(m, s, if throws then Threw else if current then Published else Refused, Apply(s, Resume(throws)));
  }

  lemma {:induction false} GenerationGrows(s: State, es: seq<Event>)
    requires Runs(s, es)
    ensures After(s, es).generation >= s.generation
    decreases es
  {
    if es != [] { GenerationGrows(Apply(s, es[0]), es[1..]); }
  }

  lemma {:induction false} SinceRun(m: State, s: State, es: seq<Event>, g: nat)
    requires Inv(s) && Since(m, s) && s.generation == g && Runs(s, es) && AbstainsThroughout(s, es, g)
    requires After(s, es).generation == g
    ensures Since(m, After(s, es))
    ensures g in s.seen ==> g in After(s, es).seen && After(s, es).seen[g] == s.seen[g]
    decreases es
  {
    if es != [] {
      var r := Apply(s, es[0]);
      GenerationGrows(r, es[1..]);
      SinceStep(m, s, es[0], g);
      KeepInv(s, es[0]);
      SinceRun(m, r, es[1..], g);
    }
  }

  /** The store change that was on its way at the read has landed since and left another catalog. */
  predicate Overwritten(m: State, s: State) {
    Busy(m) && |s.writes| > |m.writes| && Target(m.chain[Head(m.chain)].persist) != m.store
  }

  /** A refresh reads the store and later restores what it read.  When its publication passes the
      gate the overlay is the provider's part of what it read, and the store still holds that,
      exactly unless a change that was on its way at the read has landed since and left another
      catalog. */
  lemma RestoredInStepExactly(before: seq<Event>, g: nat, es: seq<Event>, provider: string)
    requires Runs(Init, before) && Enabled(After(Init, before), ReadStore(g)) && After(Init, before).store.Some?
    requires Runs(Apply(After(Init, before), ReadStore(g)), es)
    requires AbstainsThroughout(Apply(After(Init, before), ReadStore(g)), es, g)
    requires
      var s := After(Apply(After(Init, before), ReadStore(g)), es);
      && Enabled(s, Gate) && g in s.seen && s.seen[g].Some?
      && s.chain[Head(s.chain)] == Restoring(g, s.seen[g].value, provider)
      && g !in s.aborted && g == s.generation
    ensures
      var m := After(Init, before);
      var s := After(Apply(m, ReadStore(g)), es);
      var r := Apply(s, Gate);
      r.overlay == Own(m.store.value, provider) && (r.store == m.store <==> !Overwritten(m, s))
  {
    RunKeepsHeld(Init, before);
    var m := After(Init, before);
    var m1 := Apply(m, ReadStore(g));
    KeepInv(m, ReadStore(g));
    GenerationGrows(m1, es);
    SinceRun(m, m1, es, g);
  }

  /** With no store change on its way at the read, what is restored is the provider's part of what
      the store holds. */
  lemma IdleReadRestores(before: seq<Event>, g: nat, es: seq<Event>, provider: string)
    requires Runs(Init, before) && Enabled(After(Init, before), ReadStore(g)) && After(Init, before).store.Some?
    requires !Busy(After(Init, before))
    requires Runs(Apply(After(Init, before), ReadStore(g)), es)
    requires AbstainsThroughout(Apply(After(Init, before), ReadStore(g)), es, g)
    requires
      var s := After(Apply(After(Init, before), ReadStore(g)), es);
      && Enabled(s, Gate) && g in s.seen && s.seen[g].Some?
      && s.chain[Head(s.chain)] == Restoring(g, s.seen[g].value, provider)
      && g !in s.aborted && g == s.generation
    ensures
      var r := Apply(After(Apply(After(Init, before), ReadStore(g)), es), Gate);
      r.store.Some? && r.overlay == Own(r.store.value, provider)
  {
    RestoredInStepExactly(before, g, es, provider);
  }
}
