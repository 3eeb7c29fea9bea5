/** `ChildSessionStore` with its two records as fields.  `left` is the number of durable writes
    until the process dies: a write after that changes nothing. */
module SessionStore {
  import opened Sessions

  class ChildSessionStore {
    var metadata: Metadata
    var runs: map<RunId, Run>
    var damaged: set<RunId>
    var left: nat

    ghost function View(): Disk
      reads this
    {
      Disk(metadata, runs, damaged)
    }

    constructor (metadata: Metadata, runs: map<RunId, Run>, damaged: set<RunId>, left: nat)
      ensures View() == Disk(metadata, runs, damaged) && this.left == left
    {
      this.metadata, this.runs, this.damaged, this.left := metadata, runs, damaged, left;
    }

    /** The prefix of some writes that reaches the disk. */
    static ghost function Reaching(ws: seq<Write>, k: nat): seq<Write> {
      if k <= |ws| then ws[..k] else ws
    }

    twostate predicate Wrote(ws: seq<Write>)
      reads this
    {
      && View() == AllWritten(old(View()), Reaching(ws, old(left)))
      && left == if |ws| <= old(left) then old(left) - |ws| else 0
    }

    static lemma ReachingConcat(d: Disk, xs: seq<Write>, ys: seq<Write>, k: nat)
      ensures AllWritten(d, Reaching(xs + ys, k))
              == AllWritten(AllWritten(d, Reaching(xs, k)), Reaching(ys, if |xs| <= k then k - |xs| else 0))
    {
      var rest := if |xs| <= k then k - |xs| else 0;
      assert Reaching(xs + ys, k) == Reaching(xs, k) + Reaching(ys, rest);
      WrittenConcat(d, Reaching(xs, k), Reaching(ys, rest));
    }

    method Save(m: Metadata)
      modifies this`metadata, this`left
      ensures Wrote([SaveMetadata(m)])
    {
      OneWrite(View(), SaveMetadata(m));
      if left > 0 {
        metadata, left := m, left - 1;
      }
    }

    method SaveRunRecord(run: Run)
      modifies this`runs, this`damaged, this`left
      ensures Wrote([SaveRun(run)])
    {
      OneWrite(View(), SaveRun(run));
      if left > 0 {
        runs, damaged, left := runs[run.id := run], damaged - {run.id}, left - 1;
      }
    }

    method ReadRunRecord(id: RunId) returns (run: Option<Run>)
      ensures run == ReadRun(View(), id)
    {
      run := if id in runs && id !in damaged then Some(runs[id]) else None;
    }

    /** The recovery of a session found running. */
    method Recover(m: Metadata)
      requires m.status == Running
      modifies this
      ensures Wrote(RecoveryWrites(old(View()), m))
    {
      if m.runId.None? {
        Save(m.(status := Interrupted, childPid := None));
        return;
      }
      ghost var d, k := View(), left;
      var previous := ReadRunRecord(m.runId.value);
      ghost var first: seq<Write> := [];
      if previous.Some? && previous.value.status == InProgress {
        first := [SaveRun(Stopped(previous.value))];
        SaveRunRecord(Stopped(previous.value));
      }
      var status := if previous.None? then Interrupted
                    else if previous.value.status == Completed then Idle
                    else if previous.value.status == RunFailed then Failed
                    else Interrupted;
      var after := m.(status := status, childPid := None,
                      summary := if previous.Some? then previous.value.report else None);
      ReachingConcat(d, first, [SaveMetadata(after)], k);
      Save(after);
    }

    /** False is the busy error: the child is alive and cannot be killed. */
    method Acquire(child: Child) returns (ok: bool)
      modifies this
      ensures ok == Acquires(old(View()), child) == !(old(metadata).childPid.Some? && child.Busy?)
      ensures Wrote(AcquireWrites(old(View()), child))
    {
      ghost var d, k := View(), left;
      var m := metadata;
      ghost var first: seq<Write> := [];
      if m.childPid.Some? && !child.Gone? {
        if child.Busy? { return false; }
        m := m.(childPid := None);
        first := [SaveMetadata(m)];
        Save(m);
      }
      ReachingConcat(d, first, RecoveryWrites(d, m), k);
      if m.status == Running {
        assert RecoveryWrites(View(), m) == RecoveryWrites(d, m);
        Recover(m);
      }
      return true;
    }

    method BeginRun(id: RunId, task: string) returns (run: Run)
      modifies this
      ensures run == Begun(id, task) && Wrote(BeginWrites(old(View()), id, task))
    {
      ghost var d, k := View(), left;
      run := Begun(id, task);
      var m := metadata.(runId := Some(id), status := Running, runCount := metadata.runCount + 1,
                         childPid := None, error := None);
      assert [SaveRun(run)] + [SaveMetadata(m)] == BeginWrites(d, id, task);
      ReachingConcat(d, [SaveRun(run)], [SaveMetadata(m)], k);
      SaveRunRecord(run);
      Save(m);
    }

    method RecordSpawn(pid: Pid)
      modifies this`metadata, this`left
      ensures Wrote(SpawnWrites(old(View()), pid))
    {
      Save(metadata.(childPid := Some(pid)));
    }

    /** The settle block: the metadata is read again between the two writes. */
    method SettleRun(run: Run, ending: Ending)
      modifies this
      ensures Wrote(SettleWrites(old(View()), run, ending))
    {
      ghost var d, k := View(), left;
      var status := if ending.aborted then Interrupted else if ending.failed then Failed else Idle;
      var settled := run.(
        status := if status == Idle then Completed else if status == Failed then RunFailed else RunInterrupted,
        report := ending.report, error := ending.error);
      SaveRunRecord(settled);
      var m := metadata.(status := status, childPid := None, summary := ending.report, error := ending.error);
      assert [SaveRun(settled)] + [SaveMetadata(m)] == SettleWrites(d, run, ending);
      ReachingConcat(d, [SaveRun(settled)], [SaveMetadata(m)], k);
      Save(m);
    }
  }
}
