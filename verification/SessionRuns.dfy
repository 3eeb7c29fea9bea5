/** A session over any number of acquisitions, runs and crashes. */
module SessionRuns {
  import opened Sessions

  /** Who is at work: nobody, a parent that holds the lock, or a parent with a run in progress. */
  datatype Phase = Free | Locked | Working(run: Run)

  datatype World = World(disk: Disk, phase: Phase)

  /** `k` writes of an operation reach the disk; with fewer than all of them the process dies. */
  datatype Event =
    | Acquire(child: Child, k: nat)
    | Begin(id: RunId, task: string, k: nat)
    | Spawn(pid: Pid, k: nat)
    | Settle(ending: Ending, k: nat)
    | Release
    | Crash

  const Created := World(Disk(Metadata(Idle, None, None, 0, None, None), map[], {}), Free)

  function Cut(ws: seq<Write>, k: nat): seq<Write> {
    if k <= |ws| then ws[..k] else ws
  }

  function Operation(w: World, e: Event): seq<Write>
    requires Enabled(w, e)
  {
    match e
    case Acquire(child, _) => AcquireWrites(w.disk, child)
    case Begin(id, task, _) => BeginWrites(w.disk, id, task)
    case Spawn(pid, _) => SpawnWrites(w.disk, pid)
    case Settle(ending, _) => SettleWrites(w.disk, w.phase.run, ending)
    case _ => []
  }

  /** A run begins only if the record of the previous one, if any, can be read. */
  predicate Enabled(w: World, e: Event) {
    match e
    case Acquire(_, _) => w.phase.Free?
    case Begin(id, _, _) =>
      && w.phase.Locked? && id !in w.disk.runs
      && (w.disk.metadata.runId.Some? ==> ReadRun(w.disk, w.disk.metadata.runId.value).Some?)
    case Spawn(_, _) => w.phase.Working?
    case Settle(_, _) => w.phase.Working?
    case Release => w.phase.Locked?
    case Crash => true
  }

  function NextPhase(w: World, e: Event): Phase
    requires Enabled(w, e)
  {
    match e
    case Acquire(child, _) => if Acquires(w.disk, child) then Locked else Free
    case Begin(id, task, _) => Working(Begun(id, task))
    case Spawn(_, _) => w.phase
    case _ => Free
  }

  function Survives(w: World, e: Event): bool
    requires Enabled(w, e)
  {
    match e
    case Acquire(_, k) => k >= |Operation(w, e)|
    case Begin(_, _, k) => k >= |Operation(w, e)|
    case Spawn(_, k) => k >= |Operation(w, e)|
    case Settle(_, k) => k >= |Operation(w, e)|
    case _ => true
  }

  function Reached(e: Event): nat {
    match e
    case Acquire(_, k) => k
    case Begin(_, _, k) => k
    case Spawn(_, k) => k
    case Settle(_, k) => k
    case _ => 0
  }

  function Apply(w: World, e: Event): World
    requires Enabled(w, e)
  {
    World(AllWritten(w.disk, Cut(Operation(w, e), Reached(e))), if Survives(w, e) then NextPhase(w, e) else Free)
  }

  /** Unless it is running, a session with a run is in step with its record; the run at work is
      the one the metadata refers to. */
  ghost predicate Inv(w: World) {
    && Filed(w.disk) && w.disk.damaged == {}
    && (if w.disk.metadata.runId.None? then w.disk.metadata.status == Idle
        else w.disk.metadata.runId.value in w.disk.runs
             && (w.disk.metadata.status != Running ==> InStep(w.disk)))
    && (w.phase.Locked? ==> w.disk.metadata.status != Running)
    && (w.phase.Working? ==>
          w.disk.metadata.status == Running && w.disk.metadata.runId == Some(w.phase.run.id)
          && w.disk.runs[w.phase.run.id].status == InProgress)
  }

  lemma KeepAcquire(w: World, child: Child, k: nat)
    requires Inv(w) && w.phase.Free?
    ensures Inv(Apply(w, Acquire(child, k)))
  {
    var ws := AcquireWrites(w.disk, child);
    assert k > |ws| ==> ws[..|ws|] == ws;
    assert Cut(ws, k) == if k <= |ws| then ws[..k] else ws;
    if Acquires(w.disk, child) {
      FiledPartly(w.disk, child, k);
      AcquiredIs(w.disk, child);
      if w.disk.metadata.status == Running {
        PartlyIs(w.disk, child, k);
      } else {
        assert ws == KillWrites(w.disk.metadata, child);
        if ws != [] {
          OneWrite(w.disk, ws[0]);
          assert k > 0 ==> Cut(ws, k) == ws;
        }
      }
      assert k >= |ws| ==> Cut(ws, k) == ws;
    }
  }

  lemma KeepTwo(w: World, r: Run, m: Metadata, k: nat, next: Phase)
    requires Inv(w)
    requires r.id !in w.disk.runs || (w.disk.metadata.status == Running && w.disk.metadata.runId == Some(r.id))
    requires m.runId == Some(r.id) && (m.status == Running || Matches(m.status, r.status))
    requires next.Locked? ==> m.status != Running
    requires next.Working? ==> m.status == Running && next.run.id == r.id && r.status == InProgress
    ensures Inv(World(AllWritten(w.disk, Cut([SaveRun(r), SaveMetadata(m)], k)), if k >= 2 then next else Free))
  {
    var ws := [SaveRun(r), SaveMetadata(m)];
    TwoWrites(w.disk, ws[0], ws[1]);
    OneWrite(w.disk, ws[0]);
    if k == 1 { assert ws[..1] == [ws[0]]; }
    if k == 2 { assert ws[..2] == ws; }
  }

  lemma KeepSpawn(w: World, pid: Pid, k: nat)
    requires Inv(w) && w.phase.Working?
    ensures Inv(Apply(w, Spawn(pid, k)))
  {
    var ws := SpawnWrites(w.disk, pid);
    OneWrite(w.disk, ws[0]);
    if k == 1 { assert ws[..1] == ws; }
  }

  lemma KeepInv(w: World, e: Event)
    requires Inv(w) && Enabled(w, e)
    ensures Inv(Apply(w, e))
  {
    match e
    case Acquire(child, k) => KeepAcquire(w, child, k);
    case Begin(id, task, k) =>
      var ws := BeginWrites(w.disk, id, task);
      KeepTwo(w, ws[0].run, ws[1].metadata, k, NextPhase(w, e));
    case Spawn(pid, k) => KeepSpawn(w, pid, k);
    case Settle(ending, k) =>
      var ws := SettleWrites(w.disk, w.phase.run, ending);
      KeepTwo(w, ws[0].run, ws[1].metadata, k, Free);
    case Release =>
    case Crash =>
  }

  predicate Runs(w: World, es: seq<Event>)
    decreases es
  {
    es == [] || (Enabled(w, es[0]) && Runs(Apply(w, es[0]), es[1..]))
  }

  function After(w: World, es: seq<Event>): World
    requires Runs(w, es)
    decreases es
  {
    if es == [] then w else After(Apply(w, es[0]), es[1..])
  }

  lemma {:induction false} RunKeepsInv(w: World, es: seq<Event>)
    requires Inv(w) && Runs(w, es)
    ensures Inv(After(w, es))
    decreases es
  {
    if es != [] {
      KeepInv(w, es[0]);
      RunKeepsInv(Apply(w, es[0]), es[1..]);
    }
  }

  /** Whatever crashed before, a session whose acquire has completed is not running, and if it has
      ever run, its status is the one its run record calls for. */
  lemma AcquiredInStep(es: seq<Event>)
    requires Runs(Created, es) && After(Created, es).phase.Locked?
    ensures var d := After(Created, es).disk;
            d.metadata.status != Running && (d.metadata.runId.Some? ==> InStep(d))
  {
    RunKeepsInv(Created, es);
  }

  /** The record of a run as its parent saw it end. */
  predicate RecordedAs(run: Run, was: Run, e: Ending) {
    && run.id == was.id && run.task == was.task && run.report == e.report && run.error == e.error
    && (e.aborted ==> run.status == RunInterrupted)
    && (!e.aborted && e.failed ==> run.status == RunFailed)
    && (!e.aborted && !e.failed ==> run.status == Completed)
  }

  /** The session status as its parent saw the run end. */
  predicate ShownAs(status: Status, e: Ending) {
    && (e.aborted ==> status == Interrupted)
    && (!e.aborted && e.failed ==> status == Failed)
    && (!e.aborted && !e.failed ==> status == Idle)
  }

  /** A settle that completes shows an aborted run as interrupted in both records, one that failed
      and was not aborted as failed, and any other as completed and the session idle, with the
      report and the error of the ending. */
  lemma SettledAs(w: World, ending: Ending, k: nat)
    requires Inv(w) && w.phase.Working? && k >= 2
    ensures
      var d, id, r := w.disk, w.phase.run.id, Apply(w, Settle(ending, k)).disk;
      && r.metadata == d.metadata.(status := r.metadata.status, childPid := None, summary := ending.report,
                                   error := ending.error)
      && ShownAs(r.metadata.status, ending)
      && id in r.runs && RecordedAs(r.runs[id], w.phase.run, ending)
      && (forall i | i in d.runs && i != id :: i in r.runs && r.runs[i] == d.runs[i])
  {
    var ws := SettleWrites(w.disk, w.phase.run, ending);
    CutTwo(w.disk, ws[0], ws[1], k);
  }

  /** If the process dies while a run is being settled, the next acquire shows the outcome and
      the summary of that run exactly as if it had not, once the run record has been written;
      before that the run counts as interrupted. */
  lemma SettledOutcomeSurvives(w: World, ending: Ending, k: nat, child: Child)
    requires Inv(w) && w.phase.Working? && k < 2
    requires Acquires(Apply(w, Settle(ending, k)).disk, child)
    ensures
      var id, r := w.phase.run.id, Acquired(Apply(w, Settle(ending, k)).disk, child);
      && id in r.runs
      && if k == 1 then ShownAs(r.metadata.status, ending) && r.metadata.summary == ending.report
                        && RecordedAs(r.runs[id], w.phase.run, ending)
         else r.metadata.status == Interrupted && r.runs[id].status == RunInterrupted
  {
    var ws := SettleWrites(w.disk, w.phase.run, ending);
    CutTwo(w.disk, ws[0], ws[1], k);
    KeepInv(w, Settle(ending, k));
    AcquiredIs(Apply(w, Settle(ending, k)).disk, child);
  }

  /** A run that begins is recorded as in progress before the session says that it is running. */
  lemma BeginsAs(w: World, id: RunId, task: string, k: nat)
    requires Enabled(w, Begin(id, task, k))
    ensures
      var m, r := w.disk.metadata, Apply(w, Begin(id, task, k)).disk;
      && (k == 0 ==> r == w.disk)
      && (k > 0 ==> id in r.runs && r.runs[id] == Run(id, task, InProgress, None, None))
      && (k == 1 ==> r.metadata == m)
      && (k > 1 ==> r.metadata == Metadata(Running, Some(id), None, m.runCount + 1, m.summary, None))
  {
    var ws := BeginWrites(w.disk, id, task);
    CutTwo(w.disk, ws[0], ws[1], k);
  }

  /** The pid of the child joins what is stored, and nothing else changes. */
  lemma SpawnsAs(w: World, pid: Pid, k: nat)
    requires Enabled(w, Spawn(pid, k))
    ensures
      var d, r := w.disk, Apply(w, Spawn(pid, k)).disk;
      && (k == 0 ==> r == d)
      && (k > 0 ==> r == d.(metadata := r.metadata) && r.metadata == d.metadata.(childPid := Some(pid)))
  {
    OneWrite(w.disk, SpawnWrites(w.disk, pid)[0]);
    if k > 0 { assert Cut(SpawnWrites(w.disk, pid), k) == SpawnWrites(w.disk, pid); }
  }

  // ---------- a settled run keeps its outcome ----------

  ghost predicate Finished(w: World, id: RunId) {
    && id in w.disk.runs && w.disk.runs[id].status != InProgress
    && (w.phase.Working? ==> w.phase.run.id != id)
  }

  lemma FinishedStep(w: World, e: Event, id: RunId)
    requires Inv(w) && Enabled(w, e) && Finished(w, id)
    ensures Finished(Apply(w, e), id) && Apply(w, e).disk.runs[id] == w.disk.runs[id]
  {
    match e
    case Acquire(child, k) =>
      var ws := AcquireWrites(w.disk, child);
      assert Cut(ws, k) == if k <= |ws| then ws[..k] else ws;
      if Acquires(w.disk, child) {
        if w.disk.metadata.status == Running {
          PartlyIs(w.disk, child, k);
        } else if ws != [] {
          OneWrite(w.disk, ws[0]);
          assert k > 0 ==> Cut(ws, k) == ws;
        }
      }
    case Begin(k0, task, k) =>
      var ws := BeginWrites(w.disk, k0, task);
      CutTwo(w.disk, ws[0], ws[1], k);
    case Spawn(pid, k) =>
      var ws := SpawnWrites(w.disk, pid);
      OneWrite(w.disk, ws[0]);
      assert k >= 1 ==> Cut(ws, k) == ws;
    case Settle(ending, k) =>
      var ws := SettleWrites(w.disk, w.phase.run, ending);
      CutTwo(w.disk, ws[0], ws[1], k);
    case Release =>
    case Crash =>
  }

  lemma CutTwo(d: Disk, v: Write, u: Write, k: nat)
    ensures AllWritten(d, Cut([v, u], k)) == if k == 0 then d else if k == 1 then Written(d, v)
                                             else Written(Written(d, v), u)
  {
    TwoWrites(d, v, u);
    OneWrite(d, v);
    assert k == 1 ==> Cut([v, u], k) == [v];
    assert k >= 2 ==> Cut([v, u], k) == [v, u];
  }

  /** No later operation and no crash rewrites the record of a run that has been settled. */
  lemma {:induction false} SettledForGood(w: World, es: seq<Event>, id: RunId)
    requires Inv(w) && Runs(w, es) && Finished(w, id)
    ensures id in After(w, es).disk.runs && After(w, es).disk.runs[id] == w.disk.runs[id]
    decreases es
  {
    if es != [] {
      FinishedStep(w, es[0], id);
      KeepInv(w, es[0]);
      SettledForGood(Apply(w, es[0]), es[1..], id);
    }
  }
}
