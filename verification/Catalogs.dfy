/** The model list of a provider: a static baseline overlaid by a dynamic list, merged by id. */
module Catalogs {

  datatype Model = Model(id: string, provider: string, details: string)

  datatype Option<T> = None | Some(value: T)

  /** The first index with this id, or the length of the list. */
  function FindIndex(models: seq<Model>, id: string): (i: nat)
    ensures i <= |models|
    ensures i < |models| ==> models[i].id == id
    ensures forall k | 0 <= k < i :: models[k].id != id
  {
    if models == [] || models[0].id == id then 0 else 1 + FindIndex(models[1..], id)
  }

  /** `getModel`: the first entry with the id. */
  function Lookup(models: seq<Model>, id: string): Option<Model> {
    var i := FindIndex(models, id);
    if i < |models| then Some(models[i]) else None
  }

  /** The last entry with the id. */
  function LastWith(models: seq<Model>, id: string): Option<Model> {
    if models == [] then None
    else
      var m := models[|models| - 1];
      if m.id == id then Some(m) else LastWith(models[..|models| - 1], id)
  }

  function Placed(merged: seq<Model>, m: Model): seq<Model> {
    var i := FindIndex(merged, m.id);
    if i < |merged| then merged[i := m] else merged + [m]
  }

  function Merged(baseline: seq<Model>, overlay: seq<Model>): seq<Model> {
    if overlay == [] then baseline
    else Placed(Merged(baseline, overlay[..|overlay| - 1]), overlay[|overlay| - 1])
  }

  method FindFirst(models: seq<Model>, id: string) returns (index: int)
    ensures index == if FindIndex(models, id) < |models| then FindIndex(models, id) else -1
  {
    var i := 0;
    while i < |models|
      invariant 0 <= i <= |models|
      invariant forall k | 0 <= k < i :: models[k].id != id
    {
      if models[i].id == id { return i; }
      i := i + 1;
    }
    return -1;
  }

  /** The merge loop of `currentModels`. */
  method CurrentModels(baseline: seq<Model>, overlay: seq<Model>) returns (merged: seq<Model>)
    ensures merged == Merged(baseline, overlay)
    ensures forall id :: Lookup(merged, id) == (if LastWith(overlay, id).Some? then LastWith(overlay, id)
                                                else Lookup(baseline, id))
  {
    merged := baseline;
    var i := 0;
    while i < |overlay|
      invariant 0 <= i <= |overlay|
      invariant merged == Merged(baseline, overlay[..i])
    {
      var index := FindFirst(merged, overlay[i].id);
      if index >= 0 { merged := merged[index := overlay[i]]; } else { merged := merged + [overlay[i]]; }
      assert overlay[..i + 1][..i] == overlay[..i];
      i := i + 1;
    }
    assert overlay[..i] == overlay;
    forall id ensures Lookup(merged, id) == if LastWith(overlay, id).Some? then LastWith(overlay, id)
        else Lookup(baseline, id) {
      LookupMerged(baseline, overlay, id);
    }
  }

  lemma {:induction false} FindUnique(models: seq<Model>, id: string, i: nat)
    requires i <= |models|
    requires i < |models| ==> models[i].id == id
    requires forall k | 0 <= k < i :: models[k].id != id
    ensures FindIndex(models, id) == i
  {
    if i > 0 { FindUnique(models[1..], id, i - 1); }
  }

  lemma LookupPlaced(merged: seq<Model>, m: Model, id: string)
    ensures Lookup(Placed(merged, m), id) == if id == m.id then Some(m) else Lookup(merged, id)
  {
    var i := FindIndex(merged, m.id);
    var r := Placed(merged, m);
    if id == m.id {
      FindUnique(r, id, i);
    } else {
      var j := FindIndex(merged, id);
      if j < |merged| {
        FindUnique(r, id, j);
      } else {
        FindUnique(r, id, |r|);
      }
    }
  }

  /** Looking an id up gives its last dynamic entry, else its first baseline entry. */
  lemma {:induction false} LookupMerged(baseline: seq<Model>, overlay: seq<Model>, id: string)
    ensures Lookup(Merged(baseline, overlay), id)
            == if LastWith(overlay, id).Some? then LastWith(overlay, id) else Lookup(baseline, id)
  {
    if overlay != [] {
      var n := |overlay| - 1;
      LookupMerged(baseline, overlay[..n], id);
      LookupPlaced(Merged(baseline, overlay[..n]), overlay[n], id);
    }
  }

  /** No id is listed twice unless the baseline lists it twice. */
  ghost predicate Distinct(models: seq<Model>) {
    forall i, j | 0 <= i < j < |models| :: models[i].id != models[j].id
  }

  lemma {:induction false} MergedDistinct(baseline: seq<Model>, overlay: seq<Model>)
    requires Distinct(baseline)
    ensures Distinct(Merged(baseline, overlay))
  {
    if overlay != [] { MergedDistinct(baseline, overlay[..|overlay| - 1]); }
  }

  /** Baseline entries keep their positions, replaced only by entries of the same id. */
  lemma {:induction false} BaselineKeepsPlace(baseline: seq<Model>, overlay: seq<Model>)
    ensures |baseline| <= |Merged(baseline, overlay)|
    ensures forall i | 0 <= i < |baseline| :: Merged(baseline, overlay)[i].id == baseline[i].id
  {
    if overlay != [] { BaselineKeepsPlace(baseline, overlay[..|overlay| - 1]); }
  }

  predicate HasId(models: seq<Model>, id: string) {
    exists i | 0 <= i < |models| :: models[i].id == id
  }

  /** The ids of the overlay that the baseline does not have, each where it comes first. */
  function NewIds(baseline: seq<Model>, overlay: seq<Model>): seq<string> {
    if overlay == [] then []
    else
      var before, id := NewIds(baseline, overlay[..|overlay| - 1]), overlay[|overlay| - 1].id;
      if HasId(baseline, id) || id in before then before else before + [id]
  }

  /** The ids of a list are those of another one and further ones. */
  ghost predicate Listed(baseline: seq<Model>, ids: seq<string>, merged: seq<Model>) {
    && |merged| == |baseline| + |ids|
    && (forall i | 0 <= i < |baseline| :: merged[i].id == baseline[i].id)
    && (forall i | |baseline| <= i < |merged| :: merged[i].id == ids[i - |baseline|])
  }

  /** The entries after the baseline are the new ones, in the order in which their ids come up. */
  lemma {:induction false} NewInOrder(baseline: seq<Model>, overlay: seq<Model>)
    ensures Listed(baseline, NewIds(baseline, overlay), Merged(baseline, overlay))
  {
    if overlay != [] {
      var n := |overlay| - 1;
      NewInOrder(baseline, overlay[..n]);
      ListedMore(baseline, NewIds(baseline, overlay[..n]), Merged(baseline, overlay[..n]), overlay[n]);
    }
  }

  lemma ListedMore(baseline: seq<Model>, ids: seq<string>, merged: seq<Model>, m: Model)
    requires Listed(baseline, ids, merged)
    ensures Listed(baseline, if HasId(baseline, m.id) || m.id in ids then ids else ids + [m.id], Placed(merged, m))
  {
    ListedExactly(baseline, ids, merged, m.id);
  }

  lemma ListedExactly(baseline: seq<Model>, ids: seq<string>, merged: seq<Model>, id: string)
    requires Listed(baseline, ids, merged)
    ensures FindIndex(merged, id) < |merged| <==> HasId(baseline, id) || id in ids
  {
    var i := FindIndex(merged, id);
    if i < |merged| {
      if i < |baseline| {
        assert baseline[i].id == id;
      } else {
        assert ids[i - |baseline|] == id;
      }
    } else {
      forall k | 0 <= k < |ids| ensures ids[k] != id { assert merged[|baseline| + k].id != id; }
    }
  }
}
