/** What the connection invariant says about whole runs. */
module ConnectionRuns {
  import opened Connections

  predicate Runs(s: State, es: seq<Event>)
    decreases es
  {
    es == [] || (Enabled(s, es[0]) && Runs(Apply(s, es[0]), es[1..]))
  }

  function After(s: State, es: seq<Event>): State
    requires Runs(s, es)
    decreases es
  {
    if es == [] then s else After(Apply(s, es[0]), es[1..])
  }

  lemma {:induction false} RunKeeps(s: State, es: seq<Event>)
    requires Inv(s) && Runs(s, es)
    ensures Inv(After(s, es))
    decreases es
  {
    if es != [] {
      KeepInv(s, es[0]);
      RunKeeps(Apply(s, es[0]), es[1..]);
    }
  }

  lemma InitInv()
    ensures Inv(Init)
  {}

  // ---------- the grammar of the reported state changes ----------

  /** Every change follows the one that may precede it, of the same attempt. */
  predicate Follows(log: seq<Change>, k: nat)
    requires k < |log|
  {
    match log[k]
    case ToConnecting(id) => if k == 0 then id == 1 else id > 0 && log[k - 1] == ToDisconnected(id - 1)
    case ToConnected(id) => k > 0 && log[k - 1] == ToConnecting(id)
    case ToDisconnected(id) => k > 0 && (log[k - 1] == ToConnecting(id) || log[k - 1] == ToConnected(id))
  }

  ghost predicate IsTrace(log: seq<Change>) {
    forall k: nat | k < |log| :: Follows(log, k)
  }

  lemma {:induction false} HistoryIsTrace(s: State, n: nat)
    requires forall id | 1 <= id <= n :: !IsCurrent(s, id)
    ensures IsTrace(History(s, n))
    ensures n > 0 ==> History(s, n) != [] && History(s, n)[|History(s, n)| - 1] == ToDisconnected(n)
    ensures n == 0 ==> History(s, n) == []
  {
    if n > 0 {
      HistoryIsTrace(s, n - 1);
      ExtendTrace(History(s, n - 1), s, n);
    }
  }

  lemma ExtendTrace(log: seq<Change>, s: State, n: nat)
    requires IsTrace(log) && n > 0
    requires if n == 1 then log == [] else log != [] && log[|log| - 1] == ToDisconnected(n - 1)
    ensures IsTrace(log + Block(s, n))
    ensures !IsCurrent(s, n) ==> (log + Block(s, n))[|log + Block(s, n)| - 1] == ToDisconnected(n)
  {
    var r := log + Block(s, n);
    forall k: nat | k < |r| ensures Follows(r, k) {
      if k < |log| {
        assert Follows(log, k);
        assert r[k] == log[k] && (k > 0 ==> r[k - 1] == log[k - 1]);
      } else if k > |log| {
        assert r[k] == Block(s, n)[k - |log|] && r[k - 1] == Block(s, n)[k - |log| - 1];
      }
    }
  }

  /** Attempt by attempt: connecting, connected exactly if its promise resolved, disconnected
      unless it is the current one. */
  lemma ReportedChanges(es: seq<Event>)
    requires Runs(Init, es)
    ensures var s := After(Init, es); s.changes == History(s, s.sequence) && IsTrace(s.changes)
  {
    InitInv();
    RunKeeps(Init, es);
    var s := After(Init, es);
    if s.sequence > 0 {
      HistoryIsTrace(s, s.sequence - 1);
      ExtendTrace(History(s, s.sequence - 1), s, s.sequence);
    }
  }

  /** Every promise is settled once or still belongs to the attempt under way; a message reaches
      its handler only for an attempt whose promise resolved; every transport that was made has
      been closed unless it is the current one. */
  lemma SettledDeliveredClosed(es: seq<Event>)
    requires Runs(Init, es)
    ensures var s := After(Init, es);
            && (forall id | 1 <= id <= s.sequence ::
                 if Pending(s, id) then Answers(s, id) == [] else |Answers(s, id)| == 1)
            && (forall id | id in s.delivered :: Answers(s, id) == [true])
            && s.made - s.shut == match TransportOf(s.lifecycle) case None => {} case Some(t) => {t}
  {
    InitInv();
    RunKeeps(Init, es);
    var s := After(Init, es);
    forall id | 1 <= id <= s.sequence
      ensures if Pending(s, id) then Answers(s, id) == [] else |Answers(s, id)| == 1
    {
      assert Answer(s, id);
    }
  }

  // ---------- an attempt that is over ----------

  ghost predicate Over(s: State, id: nat) {
    1 <= id <= s.sequence && !IsCurrent(s, id)
  }

  /** How far one handler may move: it never goes back to an attempt that is over. */
  ghost predicate Onwards(s: State, r: State) {
    && s.sequence <= r.sequence
    && (forall id | Over(s, id) :: Over(r, id) && Answers(r, id) == Answers(s, id))
  }

  lemma {:induction false} BatchOnwards(s: State, ms: seq<Message>)
    requires Inv(s)
    ensures Onwards(s, HandleAll(s, ms))
    decreases ms
  {
    if ms != [] && !s.lifecycle.Disconnected? {
      var r := Handle(s, ms[0]);
      HandleKeeps(s, ms[0]);
      assert Onwards(s, r);
      BatchOnwards(r, ms[1..]);
      forall id | Over(s, id)
        ensures Over(HandleAll(s, ms), id) && Answers(HandleAll(s, ms), id) == Answers(s, id)
      {
        assert Over(r, id);
      }
    }
  }

  lemma StepOnwards(s: State, e: Event)
    requires Inv(s) && Enabled(s, e)
    ensures Onwards(s, Apply(s, e))
  {
    if e.Data? && e.decoded.Messages? { BatchOnwards(s, e.decoded.messages); }
  }

  /** The events that the transport of one attempt can raise. */
  predicate Raises(e: Event, id: nat) {
    match e
    case HelloUnsent(k) => k == id
    case Data(k, _) => k == id
    case Close(k) => k == id
    case Error(k) => k == id
    case _ => false
  }

  /** However long the run goes on after an attempt is over, its promise keeps its answer and
      nothing its transport raises changes anything. */
  lemma {:induction false} SupersededForGood(s: State, es: seq<Event>, id: nat, e: Event)
    requires Inv(s) && Over(s, id) && Runs(s, es)
    requires Raises(e, id)
    ensures Answers(After(s, es), id) == Answers(s, id)
    ensures Apply(After(s, es), e) == After(s, es)
    decreases es
  {
    if es != [] {
      StepOnwards(s, es[0]);
      KeepInv(s, es[0]);
      SupersededForGood(Apply(s, es[0]), es[1..], id, e);
    }
  }

  // ---------- a listener that reconnects inside a batch ----------

  predicate AllAccepted(ms: seq<Message>) {
    forall m | m in ms :: m == Body(Accepts)
  }

  lemma {:induction false} AcceptedBatch(s: State, ms: seq<Message>)
    requires s.lifecycle.Connected? && AllAccepted(ms)
    ensures var r := HandleAll(s, ms);
            r.(delivered := s.delivered) == s && |r.delivered| == |s.delivered| + |ms|
    decreases ms
  {
    if ms != [] {
      assert ms[0] in ms;
      forall m | m in ms[1..] ensures m == Body(Accepts) { assert m in ms; }
      AcceptedBatch(Handle(s, ms[0]), ms[1..]);
    }
  }

  lemma {:induction false} HandleAllConcat(s: State, xs: seq<Message>, ys: seq<Message>)
    ensures HandleAll(s, xs + ys) == HandleAll(HandleAll(s, xs), ys)
    decreases xs
  {
    if xs == [] {
      assert xs + ys == ys;
    } else if s.lifecycle.Disconnected? {
    } else {
      assert (xs + ys)[1..] == xs[1..] + ys;
      HandleAllConcat(Handle(s, xs[0]), xs[1..], ys);
    }
  }

  /** The batch loop looks only for a disconnected link, so after a listener has reconnected the
      rest of the batch meets the new attempt: the attempt survives exactly if nothing was left. */
  lemma LeftoversReachTheNewAttempt(s: State, before: seq<Message>, after: seq<Message>)
    requires Inv(s) && s.lifecycle.Connected? && AllAccepted(before)
    ensures var r := HandleAll(s, before + [Body(Reconnects)] + after);
            && r.sequence == s.sequence + 1
            && (after == [] <==> r.lifecycle == Connecting(s.sequence + 1, None))
            && (after != [] <==> r.lifecycle.Disconnected? && Answers(r, s.sequence + 1) == [false])
  {
    AcceptedBatch(s, before);
    var s1 := HandleAll(s, before);
    var s2 := Handle(s1, Body(Reconnects));
    HandleAllConcat(s, before + [Body(Reconnects)], after);
    HandleAllConcat(s, before, [Body(Reconnects)]);
    assert HandleAll(s1, [Body(Reconnects)]) == HandleAll(s2, []);
    assert s2.lifecycle == Connecting(s.sequence + 1, None);
    assert Answers(s2, s.sequence + 1) == [];
    if after != [] {
      assert Handle(s2, after[0]) == Fail(s2);
      assert HandleAll(s2, after) == HandleAll(Fail(s2), after[1..]) == Fail(s2);
    }
  }
}
