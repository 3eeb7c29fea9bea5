/** The two durable records of a subagent session, written in a fixed order, and their recovery
    after a crash between any two writes. */
module Sessions {

  type RunId = nat
  type Pid = nat

  datatype Option<T> = None | Some(value: T)

  datatype Status = Idle | Running | Failed | Interrupted

  datatype RunStatus = InProgress | Completed | RunFailed | RunInterrupted

  /** `report` is the summary of the report, if there is one. */
  datatype Run = Run(id: RunId, task: string, status: RunStatus, report: Option<string>, error: Option<string>)

  datatype Metadata = Metadata(
    status: Status,
    runId: Option<RunId>,
    childPid: Option<Pid>,
    runCount: nat,
    summary: Option<string>,
    error: Option<string>)

  /** Run files that parse and pass the checks of `readRun`, and the ids of files that do not. */
  datatype Disk = Disk(metadata: Metadata, runs: map<RunId, Run>, damaged: set<RunId>)

  datatype Write = SaveMetadata(metadata: Metadata) | SaveRun(run: Run)

  /** What the operating system says about the recorded child process. */
  datatype Child = Gone | Killed | Busy

  function ReadRun(d: Disk, id: RunId): Option<Run> {
    if id in d.runs && id !in d.damaged then Some(d.runs[id]) else None
  }

  function Written(d: Disk, w: Write): Disk {
    match w
    case SaveMetadata(m) => d.(metadata := m)
    case SaveRun(r) => d.(runs := d.runs[r.id := r], damaged := d.damaged - {r.id})
  }

  function AllWritten(d: Disk, ws: seq<Write>): Disk
    decreases ws
  {
    if ws == [] then d else AllWritten(Written(d, ws[0]), ws[1..])
  }

  /** The metadata status that a settled run calls for; a run that is in progress or cannot be
      read counts as interrupted. */
  function StatusFor(run: Option<Run>): Status {
    if run.None? then Interrupted
    else match run.value.status
      case Completed => Idle
      case RunFailed => Failed
      case _ => Interrupted
  }

  function SummaryOf(run: Option<Run>): Option<string> {
    if run.None? then None else run.value.report
  }

  const INTERRUPTION := "Previous parent or child process exited before settling this run"

  function Stopped(run: Run): Run {
    run.(status := RunInterrupted, error := Some(INTERRUPTION))
  }

  // ---------- the writes of each operation ----------

  /** Forgetting a child that had to be killed. */
  function KillWrites(m: Metadata, child: Child): seq<Write> {
    if m.childPid.Some? && child.Killed? then [SaveMetadata(m.(childPid := None))] else []
  }

  function RecoveryWrites(d: Disk, m: Metadata): seq<Write> {
    if m.status != Running then []
    else if m.runId.None? then [SaveMetadata(m.(status := Interrupted, childPid := None))]
    else
      var previous := ReadRun(d, m.runId.value);
      (if previous.Some? && previous.value.status == InProgress then [SaveRun(Stopped(previous.value))] else [])
      + [SaveMetadata(m.(status := StatusFor(previous), childPid := None, summary := SummaryOf(previous)))]
  }

  /** `acquire` fails without a write exactly if a living child cannot be killed. */
  predicate Acquires(d: Disk, child: Child) {
    d.metadata.childPid.None? || !child.Busy?
  }

  function AcquireWrites(d: Disk, child: Child): seq<Write> {
    if !Acquires(d, child) then []
    else
      var kill := KillWrites(d.metadata, child);
      var m := if kill == [] then d.metadata else d.metadata.(childPid := None);
      kill + RecoveryWrites(d, m)
  }

  function Begun(id: RunId, task: string): Run {
    Run(id, task, InProgress, None, None)
  }

  function BeginWrites(d: Disk, id: RunId, task: string): seq<Write> {
    [SaveRun(Begun(id, task)),
     SaveMetadata(d.metadata.(runId := Some(id), status := Running, runCount := d.metadata.runCount + 1,
                              childPid := None, error := None))]
  }

  function SpawnWrites(d: Disk, pid: Pid): seq<Write> {
    [SaveMetadata(d.metadata.(childPid := Some(pid)))]
  }

  /** How the parent saw the run end. */
  datatype Ending = Ending(aborted: bool, failed: bool, report: Option<string>, error: Option<string>)

  function EndStatus(e: Ending): Status {
    if e.aborted then Interrupted else if e.failed then Failed else Idle
  }

  function EndRunStatus(e: Ending): RunStatus {
    if e.aborted then RunInterrupted else if e.failed then RunFailed else Completed
  }

  function SettleWrites(d: Disk, run: Run, e: Ending): seq<Write> {
    [SaveRun(run.(status := EndRunStatus(e), report := e.report, error := e.error)),
     SaveMetadata(d.metadata.(status := EndStatus(e), childPid := None, summary := e.report, error := e.error))]
  }

  /** A record that has been saved can be read, even if it could not before, and no other one is
      touched; saving the metadata touches no record. */
  lemma SavedIsRead(d: Disk, run: Run, m: Metadata, id: RunId)
    ensures
      var r := Written(d, SaveRun(run));
      && ReadRun(r, run.id) == Some(run) && r.metadata == d.metadata
      && (id != run.id ==> ReadRun(r, id) == ReadRun(d, id))
    ensures
      var r := Written(d, SaveMetadata(m));
      r.metadata == m && ReadRun(r, id) == ReadRun(d, id)
  {}

  // ---------- acquire ----------

  function Acquired(d: Disk, child: Child): Disk {
    AllWritten(d, AcquireWrites(d, child))
  }

  /** The disk after a crash that let only the first `k` writes through. */
  function Partly(d: Disk, child: Child, k: nat): Disk {
    var ws := AcquireWrites(d, child);
    AllWritten(d, if k <= |ws| then ws[..k] else ws)
  }

  /** Idle with completed, failed with failed, interrupted with interrupted. */
  predicate Matches(status: Status, run: RunStatus) {
    || (status == Idle && run == Completed)
    || (status == Failed && run == RunFailed)
    || (status == Interrupted && run == RunInterrupted)
  }

  predicate InStep(d: Disk) {
    && d.metadata.runId.Some?
    && var run := ReadRun(d, d.metadata.runId.value);
       run.Some? && Matches(d.metadata.status, run.value.status)
  }

  /** Every record is filed under its own id. */
  ghost predicate Filed(d: Disk) {
    forall id | id in d.runs :: d.runs[id].id == id
  }

  /** What a completed acquire makes of a session that was running. */
  function Recovered(d: Disk): Disk
    requires d.metadata.status == Running
  {
    if d.metadata.runId.None? then d.(metadata := d.metadata.(status := Interrupted, childPid := None))
    else
      var previous := ReadRun(d, d.metadata.runId.value);
      d.(metadata := d.metadata.(status := StatusFor(previous), childPid := None, summary := SummaryOf(previous)),
         runs := if previous.Some? && previous.value.status == InProgress
                 then d.runs[previous.value.id := Stopped(previous.value)] else d.runs)
  }

  lemma {:induction false} WrittenConcat(d: Disk, xs: seq<Write>, ys: seq<Write>)
    ensures AllWritten(d, xs + ys) == AllWritten(AllWritten(d, xs), ys)
    decreases xs
  {
    if xs == [] {
      assert xs + ys == ys;
    } else {
      assert (xs + ys)[1..] == xs[1..] + ys;
      WrittenConcat(Written(d, xs[0]), xs[1..], ys);
    }
  }

  lemma OneWrite(d: Disk, w: Write)
    ensures AllWritten(d, [w]) == Written(d, w)
  {
    assert [w][1..] == [];
  }

  lemma TwoWrites(d: Disk, v: Write, w: Write)
    ensures AllWritten(d, [v, w]) == Written(Written(d, v), w)
  {
    assert [v, w][1..] == [w];
    OneWrite(Written(d, v), w);
  }

  lemma RecoveryIs(d: Disk, m: Metadata)
    requires Filed(d) && m.status == Running
    requires m == d.metadata || m == d.metadata.(childPid := None)
    ensures AllWritten(d.(metadata := m), RecoveryWrites(d, m)) == Recovered(d)
  {
    var e := d.(metadata := m);
    var ws := RecoveryWrites(d, m);
    if |ws| == 1 {
      OneWrite(e, ws[0]);
      assert ws == [ws[0]];
    } else {
      TwoWrites(e, ws[0], ws[1]);
      assert ws == [ws[0], ws[1]];
      assert d.damaged - {m.runId.value} == d.damaged;
    }
  }

  lemma AcquiredIs(d: Disk, child: Child)
    requires Filed(d) && Acquires(d, child)
    ensures d.metadata.status == Running ==> Acquired(d, child) == Recovered(d)
    ensures d.metadata.status != Running ==>
              Acquired(d, child) == d.(metadata := d.metadata.(
                childPid := if child.Killed? then None else d.metadata.childPid))
  {
    var kill := KillWrites(d.metadata, child);
    var m := if kill == [] then d.metadata else d.metadata.(childPid := None);
    WrittenConcat(d, kill, RecoveryWrites(d, m));
    if kill != [] { OneWrite(d, kill[0]); }
    assert AllWritten(d, kill) == d.(metadata := m);
    if d.metadata.status == Running { RecoveryIs(d, m); }
  }

  /** A completed acquire never leaves the session running, and brings a running session in step
      with its run record exactly if that record can be read. */
  lemma AcquireSettles(d: Disk, child: Child)
    requires Filed(d) && Acquires(d, child)
    ensures var r := Acquired(d, child);
            && r.metadata.status != Running
            && (d.metadata.status == Running ==>
                  (InStep(r) <==> d.metadata.runId.Some? && ReadRun(d, d.metadata.runId.value).Some?))
  {
    AcquiredIs(d, child);
  }

  // ---------- interrupted recovery ----------

  /** What two recoveries have to agree on: not the pid of a child that is gone. */
  predicate SameOutcome(d: Disk, e: Disk) {
    d.runs == e.runs && d.damaged == e.damaged
    && d.metadata.(childPid := None) == e.metadata.(childPid := None)
  }

  lemma FiledPartly(d: Disk, child: Child, k: nat)
    requires Filed(d)
    ensures Filed(Partly(d, child, k))
  {
    var ws := AcquireWrites(d, child);
    var n := if k <= |ws| then k else |ws|;
    FiledAfter(d, ws[..n]);
    assert k > |ws| ==> ws[..n] == ws;
  }

  lemma {:induction false} FiledAfter(d: Disk, ws: seq<Write>)
    requires Filed(d)
    ensures Filed(AllWritten(d, ws))
    decreases ws
  {
    if ws != [] { FiledAfter(Written(d, ws[0]), ws[1..]); }
  }

  /** The disk a crashed recovery of a running session leaves: nothing done, the child forgotten,
      the run marked as interrupted, or everything done. */
  lemma PartlyIs(d: Disk, child: Child, k: nat)
    requires Filed(d) && Acquires(d, child) && d.metadata.status == Running
    ensures var r := Partly(d, child, k);
            var previous := if d.metadata.runId.Some? then ReadRun(d, d.metadata.runId.value) else None;
            var gone := d.(metadata := d.metadata.(childPid := None));
            var marked := d.(runs := if previous.Some? && previous.value.status == InProgress
                                     then d.runs[previous.value.id := Stopped(previous.value)] else d.runs);
            || r == d || r == gone
            || r == marked || r == marked.(metadata := gone.metadata)
            || r == Recovered(d)
  {
    var kill := KillWrites(d.metadata, child);
    var m := if kill == [] then d.metadata else d.metadata.(childPid := None);
    var rest := RecoveryWrites(d, m);
    var ws := kill + rest;
    AcquiredIs(d, child);
    if k < |ws| {
      if k <= |kill| {
        assert ws[..k] == kill[..k];
        if k > 0 {
          assert kill[..k] == kill;
          OneWrite(d, kill[0]);
        }
      } else {
        assert ws[..k] == kill + rest[..k - |kill|];
        WrittenConcat(d, kill, rest[..k - |kill|]);
        if kill != [] { OneWrite(d, kill[0]); }
        assert AllWritten(d, kill) == d.(metadata := m);
        assert rest[..k - |kill|] == [rest[0]];
        OneWrite(d.(metadata := m), rest[0]);
        assert d.damaged - {m.runId.value} == d.damaged;
      }
    } else {
      assert ws[..|ws|] == ws;
    }
  }

  /** One attempt to acquire, cut short after some writes. */
  datatype Attempt = Attempt(child: Child, k: nat)

  predicate Attemptable(d: Disk, attempts: seq<Attempt>)
    decreases attempts
  {
    attempts == []
    || (Acquires(d, attempts[0].child) && Attemptable(Partly(d, attempts[0].child, attempts[0].k), attempts[1..]))
  }

  function Attempted(d: Disk, attempts: seq<Attempt>): Disk
    decreases attempts
  {
    if attempts == [] then d else Attempted(Partly(d, attempts[0].child, attempts[0].k), attempts[1..])
  }

  /** The outcome a disk is heading for. */
  function Outcome(d: Disk): Disk {
    if d.metadata.status == Running then Recovered(d) else d
  }

  lemma PartlyKeepsOutcome(d: Disk, child: Child, k: nat)
    requires Filed(d) && Acquires(d, child)
    ensures SameOutcome(Outcome(Partly(d, child, k)), Outcome(d))
  {
    if d.metadata.status == Running {
      PartlyIs(d, child, k);
    } else {
      var ws := AcquireWrites(d, child);
      assert ws == KillWrites(d.metadata, child);
      if k > 0 && ws != [] {
        OneWrite(d, ws[0]);
        assert ws[..1] == ws;
      }
    }
  }

  /** However often recovery crashes, the first one that completes reaches the outcome of a single
      uninterrupted recovery: the same status, the same summary, the same run records. */
  lemma {:induction false} RecoveryConverges(d: Disk, attempts: seq<Attempt>, last: Child)
    requires Filed(d) && Attemptable(d, attempts) && Acquires(Attempted(d, attempts), last)
    ensures SameOutcome(Acquired(Attempted(d, attempts), last), Outcome(d))
    decreases attempts
  {
    if attempts == [] {
      AcquiredIs(d, last);
    } else {
      var a := attempts[0];
      FiledPartly(d, a.child, a.k);
      PartlyKeepsOutcome(d, a.child, a.k);
      RecoveryConverges(Partly(d, a.child, a.k), attempts[1..], last);
    }
  }

  // ---------- the outcome a recovery finds ----------

  /** A session found running becomes idle, failed or interrupted as the record of its run says,
      with the report of that record; a record still in progress is marked as interrupted and keeps
      its report.  Without a readable record the session is interrupted, and without a summary if
      it names a run. */
  lemma RecoveryFinds(d: Disk, child: Child)
    requires Filed(d) && Acquires(d, child) && d.metadata.status == Running
    ensures
      var m, r := d.metadata, Acquired(d, child);
      && r.metadata.childPid == None && r.metadata.runId == m.runId && r.metadata.runCount == m.runCount
      && r.metadata.error == m.error && r.damaged == d.damaged
      && (m.runId.None? ==> r.metadata.status == Interrupted && r.metadata.summary == m.summary && r.runs == d.runs)
      && (m.runId.Some? && (m.runId.value !in d.runs || m.runId.value in d.damaged) ==>
            r.metadata.status == Interrupted && r.metadata.summary == None && r.runs == d.runs)
      && (m.runId.Some? && m.runId.value in d.runs && m.runId.value !in d.damaged ==>
            && Recorded(r, d.runs[m.runId.value])
            && (forall id | id in d.runs && id != m.runId.value :: id in r.runs && r.runs[id] == d.runs[id]))
  {
    AcquiredIs(d, child);
  }

  /** What the record of the run of a session says about it after a recovery. */
  predicate Recorded(r: Disk, run: Run) {
    && run.id in r.runs && r.metadata.summary == run.report
    && match run.status
       case Completed => r.metadata.status == Idle && r.runs[run.id] == run
       case RunFailed => r.metadata.status == Failed && r.runs[run.id] == run
       case RunInterrupted => r.metadata.status == Interrupted && r.runs[run.id] == run
       case InProgress =>
         && r.metadata.status == Interrupted
         && r.runs[run.id] == Run(run.id, run.task, RunInterrupted, run.report, Some(INTERRUPTION))
  }
}
