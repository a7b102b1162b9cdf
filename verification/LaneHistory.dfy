/** Any number of batches through the upload lane, one after another, some of them cut off
    in the middle, with force-proceeds and operators rearranging the folders in between. */
module LaneHistory {
  import opened Text
  import opened Chunking
  import opened FileService
  import opened UploadedFileRepository
  import opened CbosClient
  import opened UploadMatching
  import opened LaneState
  import opened LaneGate
  import opened UploadService

  datatype Op =
    | RunBatch(task: Task, sniffs: map<Path, Sniff>, allowed: set<string>)
    | RunCutOff(task: Task, sniffs: map<Path, Sniff>, offered: nat, next: Progress)
    | Proceed(requested: set<string>, allowed: set<string>)
    | OperatorMoves(files: map<Path, Bytes>)

  ghost predicate OpOk(op: Op) {
    op.RunBatch? || op.RunCutOff? ==> FlatManifest(op.task.files)
  }

  /** How often this file was acknowledged under this UploadID. */
  function Acks(trace: seq<Call>, key: FileKey): nat {
    if |trace| == 0 then 0
    else
      var last := trace[|trace| - 1];
      Acks(trace[..|trace| - 1], key) + (if Acknowledged(last) && CallKey(last) == key then 1 else 0)
  }

  lemma {:induction false} NoAcks(trace: seq<Call>, key: FileKey)
    requires forall i :: 0 <= i < |trace| && Acknowledged(trace[i]) ==> CallKey(trace[i]) != key
    ensures Acks(trace, key) == 0
  {
    if |trace| > 0 {
      NoAcks(trace[..|trace| - 1], key);
    }
  }

  /** Between runs every file was acknowledged at most once per UploadID, segment and date,
      and the row that says so is there. */
  lemma {:induction false} AtMostOneAck(trace: seq<Call>, key: FileKey)
    requires RegisteredOnce(trace)
    ensures Acks(trace, key) <= 1
    ensures Acks(trace, key) == 1 <==>
              exists i :: 0 <= i < |trace| && Acknowledged(trace[i]) && CallKey(trace[i]) == key
  {
    if |trace| > 0 {
      var init, last := trace[..|trace| - 1], trace[|trace| - 1];
      if Acknowledged(last) && CallKey(last) == key {
        NoAcks(init, key);
      } else {
        AtMostOneAck(init, key);
        if i :| 0 <= i < |trace| && Acknowledged(trace[i]) && CallKey(trace[i]) == key {
          assert init[i] == trace[i];
        }
      }
    }
  }

  lemma AckHasItsRow(w: World, key: FileKey)
    requires AtRest(w)
    ensures Acks(w.trace, key) <= 1
    ensures Acks(w.trace, key) == 1 ==> HasCompleted(w.rows, key)
  {
    AtMostOneAck(w.trace, key);
  }

  /** At rest, only the table, the calls and the GUIDs count; operators may move any file. */
  lemma FoldersDoNotMatter(w: World, files: map<Path, Bytes>)
    ensures AtRest(w) <==> AtRest(w.(files := files))
  {
  }

  lemma LaneKeepsUploaded(before: World, after: World, task: Task, report: Report, allowed: set<string>,
      settings: Settings, sniffs: map<Path, Sniff>)
    requires LaneDone(before, after, task, report, allowed, settings, sniffs)
    ensures KeepsUploaded(before.rows, after.rows) && before.trace <= after.trace
  {
  }

  /** Where things stand between two operations, and what CBOS was asked so far. */
  datatype Stage = Stage(w: World, t: Talk)

  /** What one operation does: the lane's own promise for a batch; a run stopped where it was;
      nothing at all to the world for a force-proceed; the files, and only the files, as the
      operators put them. */
  ghost predicate OpDone(op: Op, before: Stage, after: Stage, settings: Settings) {
    match op
    case RunBatch(task, sniffs, allowed) =>
      exists report ::
        && LaneDone(before.w, after.w, task, report, allowed, settings, sniffs)
        && TalkTold(task, before.w, report, before.t, after.t, settings)
    case RunCutOff(task, sniffs, offered, next) =>
      var listed := Existing(task.files, before.w.files);
      var n := if offered < |listed| then offered else |listed|;
      exists setup, marks, marks' ::
        && SetupOk(task, before.t, after.t, setup, settings)
        && StoppedAt(task, before.w, after.w, setup, settings, sniffs, marks, marks', n, next)
    case Proceed(_, _) => after.w == before.w
    case OperatorMoves(files) => after == before.(w := before.w.(files := files))
  }

  ghost function StageOf(lane: Lane): Stage
    reads lane, lane.table, lane.disk, lane.cbos
  {
    Stage(lane.Now(), lane.cbos.Said())
  }

  /** One operation on the lane. */
  method Do(lane: Lane, op: Op)
    requires AtRest(lane.Now()) && OpOk(op)
    modifies lane, lane.table, lane.disk, lane.cbos
    ensures AtRest(lane.Now()) && OpDone(op, old(StageOf(lane)), StageOf(lane), lane.settings)
    ensures KeepsUploaded(old(lane.table.rows), lane.table.rows) && old(lane.cbos.trace) <= lane.cbos.trace
  {
    hide AtRest, LaneDone, CallsDone, TalkTold, MayProceed, FlatManifest, StoppedAt, SetupOk, Existing;
    match op
    case RunBatch(task, sniffs, allowed) =>
      ghost var before := lane.Now();
      var report := lane.ProcessBatch(task, sniffs, allowed);
      LaneKeepsUploaded(before, lane.Now(), task, report, allowed, lane.settings, sniffs);
    case RunCutOff(task, sniffs, offered, next) =>
      var _ := lane.CutOff(task, sniffs, offered, next);
    case Proceed(requested, allowed) =>
      var _, _ := lane.ProceedBatch(requested, allowed);
    case OperatorMoves(files) =>
      FoldersDoNotMatter(lane.Now(), files);
      lane.disk.files := files;
  }

  /** The operations one after another, stage by stage. */
  ghost predicate Lived(stages: seq<Stage>, ops: seq<Op>, settings: Settings) {
    && |stages| == |ops| + 1
    && forall n :: 0 <= n < |ops| ==> OpDone(ops[n], stages[n], stages[n + 1], settings)
  }

  lemma LivedOn(stages: seq<Stage>, ops: seq<Op>, op: Op, after: Stage, settings: Settings)
    requires Lived(stages, ops, settings) && OpDone(op, stages[|ops|], after, settings)
    ensures Lived(stages + [after], ops + [op], settings)
  {
    hide OpDone;
  }

  /** Carries out any sequence of operations on one lane. */
  method Live(lane: Lane, ops: seq<Op>) returns (ghost stages: seq<Stage>)
    requires AtRest(lane.Now())
    requires forall i :: 0 <= i < |ops| ==> OpOk(ops[i])
    modifies lane, lane.table, lane.disk, lane.cbos
    ensures Lived(stages, ops, lane.settings) && stages[0] == old(StageOf(lane)) && stages[|ops|] == StageOf(lane)
    ensures AtRest(lane.Now())
    ensures KeepsUploaded(old(lane.table.rows), lane.table.rows) && old(lane.cbos.trace) <= lane.cbos.trace
    ensures forall key :: Acks(lane.cbos.trace, key) <= 1
    ensures forall key :: Acks(lane.cbos.trace, key) == 1 ==> HasCompleted(lane.table.rows, key)
  {
    hide AtRest, OpDone, OpOk, Acks, HasCompleted;
    stages := [StageOf(lane)];
    for n := 0 to |ops|
      invariant AtRest(lane.Now())
      invariant Lived(stages, ops[..n], lane.settings) && stages[0] == old(StageOf(lane)) && stages[n] == StageOf(lane)
      invariant KeepsUploaded(old(lane.table.rows), lane.table.rows) && old(lane.cbos.trace) <= lane.cbos.trace
    {
      Do(lane, ops[n]);
      LivedOn(stages, ops[..n], ops[n], StageOf(lane), lane.settings);
      assert ops[..n] + [ops[n]] == ops[..n + 1];
      stages := stages + [StageOf(lane)];
    }
    assert ops[..|ops|] == ops;
    forall key
      ensures Acks(lane.cbos.trace, key) <= 1
      ensures Acks(lane.cbos.trace, key) == 1 ==> HasCompleted(lane.table.rows, key)
    {
      AckHasItsRow(lane.Now(), key);
    }
  }

  /** The same from an empty table and an untouched CBOS. */
  method LiveFromScratch(files: map<Path, Bytes>, settings: Settings, ops: seq<Op>)
    returns (trace: seq<Call>, rows: seq<Row>, ghost stages: seq<Stage>)
    requires forall i :: 0 <= i < |ops| ==> OpOk(ops[i])
    ensures Lived(stages, ops, settings) && stages[0].w == World([], files, [], map[], 0, [])
    ensures stages[|ops|].w.trace == trace && stages[|ops|].w.rows == rows
    ensures forall key :: Acks(trace, key) <= 1 && (Acks(trace, key) == 1 ==> HasCompleted(rows, key))
    ensures TableOk(rows) && StatusAgrees(rows) && GuidsOnce(trace)
  {
    var table := new AuditTable();
    var disk := new Disk();
    disk.files := files;
    var cbos := new Cbos();
    var lane := new Lane(table, disk, cbos, settings);
    stages := Live(lane, ops);
    trace, rows := cbos.trace, table.rows;
  }
}
