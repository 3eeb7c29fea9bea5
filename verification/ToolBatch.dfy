/** Bookkeeping of a tool batch whose executions finish in any order. */
module ToolBatch {
  import opened AgentEvents

  /** The ids of the calls whose entry has no outcome yet. */
  function OpenIds(calls: seq<ToolCall>, entries: seq<Option<Outcome>>): multiset<CallId>
    requires |entries| <= |calls|
  {
    if entries == [] then multiset{}
    else
      var n := |entries| - 1;
      OpenIds(calls, entries[..n]) + if entries[n].None? then multiset{calls[n].id} else multiset{}
  }

  /** The results of the entries that have an outcome. */
  function Collected(entries: seq<Option<Outcome>>): multiset<Message> {
    if entries == [] then multiset{}
    else
      var n := |entries| - 1;
      Collected(entries[..n]) + if entries[n].Some? then multiset{ToResult(entries[n].value)} else multiset{}
  }

  function CollectedOutcomes(entries: seq<Option<Outcome>>): multiset<Outcome> {
    if entries == [] then multiset{}
    else
      var n := |entries| - 1;
      CollectedOutcomes(entries[..n]) + if entries[n].Some? then multiset{entries[n].value} else multiset{}
  }

  function Left(entries: seq<Option<Outcome>>): nat {
    if entries == [] then 0
    else Left(entries[..|entries| - 1]) + if entries[|entries| - 1].None? then 1 else 0
  }

  lemma MoreEntries(calls: seq<ToolCall>, entries: seq<Option<Outcome>>, e: Option<Outcome>)
    requires |entries| < |calls|
    ensures OpenIds(calls, entries + [e])
            == OpenIds(calls, entries) + if e.None? then multiset{calls[|entries|].id} else multiset{}
    ensures Collected(entries + [e])
            == Collected(entries) + if e.Some? then multiset{ToResult(e.value)} else multiset{}
    ensures CollectedOutcomes(entries + [e])
            == CollectedOutcomes(entries) + if e.Some? then multiset{e.value} else multiset{}
  {
    assert (entries + [e])[..|entries|] == entries;
  }

  lemma Swap(a: multiset<CallId>, b: multiset<CallId>, c: multiset<CallId>)
    ensures a + b + c == a + c + b
  {}

  lemma {:induction false} FinishOpen(calls: seq<ToolCall>, entries: seq<Option<Outcome>>, i: nat, o: Outcome)
    requires |entries| <= |calls| && i < |entries| && entries[i].None?
    ensures calls[i].id in OpenIds(calls, entries)
    ensures OpenIds(calls, entries) == OpenIds(calls, entries[i := Some(o)]) + multiset{calls[i].id}
  {
    var n := |entries| - 1;
    var after := entries[i := Some(o)];
    if i < n {
      FinishOpen(calls, entries[..n], i, o);
      assert after[..n] == entries[..n][i := Some(o)];
      var last := if entries[n].None? then multiset{calls[n].id} else multiset{};
      Swap(OpenIds(calls, after[..n]), multiset{calls[i].id}, last);
    } else {
      assert after[..n] == entries[..n];
      assert OpenIds(calls, after) == OpenIds(calls, entries[..n]);
    }
  }

  lemma {:induction false} FinishCollected(entries: seq<Option<Outcome>>, i: nat, o: Outcome)
    requires i < |entries| && entries[i].None?
    ensures Collected(entries[i := Some(o)]) == Collected(entries) + multiset{ToResult(o)}
  {
    var n := |entries| - 1;
    var after := entries[i := Some(o)];
    if i < n {
      FinishCollected(entries[..n], i, o);
      assert after[..n] == entries[..n][i := Some(o)];
    } else {
      assert after[..n] == entries[..n];
    }
  }

  lemma {:induction false} FinishOutcomes(entries: seq<Option<Outcome>>, i: nat, o: Outcome)
    requires i < |entries| && entries[i].None?
    ensures CollectedOutcomes(entries[i := Some(o)]) == CollectedOutcomes(entries) + multiset{o}
  {
    var n := |entries| - 1;
    var after := entries[i := Some(o)];
    if i < n {
      FinishOutcomes(entries[..n], i, o);
      assert after[..n] == entries[..n][i := Some(o)];
    } else {
      assert after[..n] == entries[..n];
    }
  }

  lemma {:induction false} FinishLeft(entries: seq<Option<Outcome>>, i: nat, o: Outcome)
    requires i < |entries| && entries[i].None?
    ensures Left(entries[i := Some(o)]) == Left(entries) - 1
  {
    var n := |entries| - 1;
    var after := entries[i := Some(o)];
    if i < n {
      FinishLeft(entries[..n], i, o);
      assert after[..n] == entries[..n][i := Some(o)];
    } else {
      assert after[..n] == entries[..n];
    }
  }

  /** Finishing one execution moves its call from the open ones to the collected results. */
  lemma FinishEntry(calls: seq<ToolCall>, entries: seq<Option<Outcome>>, i: nat, o: Outcome)
    requires |entries| <= |calls| && i < |entries| && entries[i].None? && o.callId == calls[i].id
    ensures o.callId in OpenIds(calls, entries)
    ensures OpenIds(calls, entries[i := Some(o)]) == OpenIds(calls, entries) - multiset{o.callId}
    ensures Collected(entries[i := Some(o)]) == Collected(entries) + multiset{ToResult(o)}
    ensures CollectedOutcomes(entries[i := Some(o)]) == CollectedOutcomes(entries) + multiset{o}
    ensures Left(entries[i := Some(o)]) == Left(entries) - 1
  {
    FinishOpen(calls, entries, i, o);
    FinishCollected(entries, i, o);
    FinishOutcomes(entries, i, o);
    FinishLeft(entries, i, o);
  }

  lemma {:induction false} NoneLeft(calls: seq<ToolCall>, entries: seq<Option<Outcome>>)
    requires |entries| <= |calls|
    ensures Left(entries) == 0 <==> forall i | 0 <= i < |entries| :: entries[i].Some?
    ensures Left(entries) == 0 ==> OpenIds(calls, entries) == multiset{}
  {
    if entries != [] { NoneLeft(calls, entries[..|entries| - 1]); }
  }

  function Values(entries: seq<Option<Outcome>>): (os: seq<Outcome>)
    requires forall i | 0 <= i < |entries| :: entries[i].Some?
    ensures |os| == |entries| && forall i | 0 <= i < |os| :: os[i] == entries[i].value
  {
    if entries == [] then [] else Values(entries[..|entries| - 1]) + [entries[|entries| - 1].value]
  }

  lemma {:induction false} CollectedAll(entries: seq<Option<Outcome>>)
    requires forall i | 0 <= i < |entries| :: entries[i].Some?
    ensures Collected(entries) == multiset(ToResults(Values(entries)))
    ensures CollectedOutcomes(entries) == multiset(Values(entries))
  {
    if entries != [] {
      var n := |entries| - 1;
      CollectedAll(entries[..n]);
      assert Values(entries)[..n] == Values(entries[..n]);
      assert ToResults(Values(entries)) == ToResults(Values(entries[..n])) + [ToResult(entries[n].value)];
    }
  }
}
