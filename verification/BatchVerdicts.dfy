/** What the status of a batch rests on: the worker's verdicts in the batch machine are the
    conclusions of the two lanes, so a confirmed row has a run of one of them behind it in
    which every slot CBOS expects a file for was accounted for. */
module BatchVerdicts {
  import opened Text
  import opened BatchModel
  import Queue = BatchQueueProtocol
  import opened BatchIntake
  import opened CbosClient
  import FileService
  import UploadMatching
  import LaneState
  import LanePhases
  import LaneGate
  import UploadService

  /** What a lane did to reach its verdict. */
  datatype Evidence =
    | ByUpload(run: LaneState.Run, after: LaneState.World, report: LaneGate.Report, allowed: set<string>)
    | ByProceed(reread: Option<Reservation>, requested: set<string>, allowed: set<string>)
    | ByCrash

  ghost predicate SameBatchAs(run: LaneState.Run, t: Queue.SegmentBatchTask) {
    run.task.folderDate == t.folderDate && run.task.segment == t.segment && run.task.batchId == t.batchId
  }

  /** A run of the upload lane that is finished, and the gate's answer to it. */
  ghost predicate RanToItsEnd(run: LaneState.Run, after: LaneState.World, report: LaneGate.Report,
      allowed: set<string>) {
    && report.reservation.Some? && run.candidates == report.reservation.value.candidates
    && LanePhases.Finished(run, after, report.filled)
    && LaneGate.GateMeans(run, after, allowed, report.exit)
  }

  function Requested(slots: seq<string>): set<string> {
    set s | s in slots
  }

  /** This is how carrying out this task ends with this status. */
  ghost predicate Gives(e: Evidence, t: Queue.SegmentBatchTask, status: BatchStatus) {
    match e
    case ByUpload(run, after, report, allowed) =>
      && t.mode.Upload? && SameBatchAs(run, t)
      && (status == Unconfirmed <==> report.exit == LaneGate.Superseded)
      && (status == Queued <==> report.exit == LaneGate.Deferred)
      && (status == Incomplete <==> report.exit == LaneGate.Parked)
      && (status == Confirmed <==> report.exit == LaneGate.Complete)
      && (status == Failed <==> report.exit in {LaneGate.Crashed, LaneGate.SetupFailed, LaneGate.NothingUploaded})
      && (report.exit in {LaneGate.NothingUploaded, LaneGate.Parked, LaneGate.Complete} ==>
            RanToItsEnd(run, after, report, allowed))
    case ByProceed(reread, requested, allowed) =>
      && t.mode.Proceed? && requested == Requested(t.proceedSlots)
      && status == (
           if reread.Some? && LaneGate.MayProceed(reread.value.candidates, requested, allowed)
           then Confirmed else Incomplete)
    case ByCrash => status == Failed
  }

  /** Why one file slot may stand when its batch is confirmed by the upload lane. */
  ghost predicate SlotAccounted(run: LaneState.Run, after: LaneState.World, c: UploadCandidate, allowed: set<string>) {
    || c.isOptional || c.uploadId in allowed
    || LaneGate.SlotHeldByCbos(run.candidates, c.uploadId)
    || LanePhases.RegisteredSlot(run, after, c.uploadId)
    || LaneGate.SlotUploadedEarlier(run, c.uploadId)
  }

  /** No file slot was left unexplained. */
  ghost predicate Complete(e: Evidence) {
    match e
    case ByUpload(run, after, report, allowed) =>
      forall i :: 0 <= i < |run.candidates| && run.candidates[i].ExpectsAFile() ==>
        SlotAccounted(run, after, run.candidates[i], allowed)
    case ByProceed(reread, requested, allowed) =>
      reread.Some? && forall i :: 0 <= i < |reread.value.candidates| ==>
        LaneGate.Excused(reread.value.candidates[i], requested, allowed)
    case ByCrash => false
  }

  /** Neither lane confirms a batch that is not complete. */
  lemma ConfirmedMeansComplete(e: Evidence, t: Queue.SegmentBatchTask)
    requires Gives(e, t, Confirmed)
    ensures Complete(e)
  {
    match e
    case ByUpload(run, after, report, allowed) =>
      forall i | 0 <= i < |run.candidates| && run.candidates[i].ExpectsAFile()
        ensures SlotAccounted(run, after, run.candidates[i], allowed)
      {
        LaneGate.ConfirmedIsComplete(run, after, report.filled, allowed, i);
      }
    case ByProceed(reread, requested, allowed) =>
      LaneGate.ProceedIsComplete(reread.value.candidates, requested, allowed);
  }

  /** A batch whose files were listed and tried and none of which reached CBOS is failed,
      whatever its slots look like; and no other batch that got past setup is. */
  lemma NothingReachedFails(e: Evidence, t: Queue.SegmentBatchTask, status: BatchStatus)
    requires Gives(e, t, status) && e.ByUpload?
    requires e.report.exit in {LaneGate.NothingUploaded, LaneGate.Parked, LaneGate.Complete}
    ensures status == Failed <==> e.run.task.files != [] && LaneGate.NothingReached(e.run, e.after)
  {
    hide LanePhases.Finished;
  }

  /** A run of the batch machine in which every verdict is what a lane gave. */
  ghost predicate IsBackedRun(maxsize: int, states: seq<Sys>, events: seq<Event>, why: seq<Evidence>) {
    && IsRun(maxsize, states, events) && |why| == |events|
    && forall k :: 0 <= k < |events| && events[k].Verdict? ==> Gives(why[k], states[k].job.task, events[k].status)
  }

  /** At step k the worker confirmed this batch, carrying out a task for it. */
  ghost predicate ConfirmedAt(states: seq<Sys>, events: seq<Event>, k: int, id: string) {
    && 0 <= k < |events| && k < |states| && events[k] == Verdict(Confirmed)
    && Unsettled(states[k]) && states[k].job.task.batchId == Some(id)
  }

  /** Over any intake calls, verdicts and restarts: a batch that is confirmed was confirmed
      by a lane that carried out a task for this very batch and left no file slot of it
      unexplained. */
  lemma {:induction false} ConfirmedRestsOnALane(maxsize: int, states: seq<Sys>, events: seq<Event>,
      why: seq<Evidence>, n: nat, id: string)
    requires IsBackedRun(maxsize, states, events, why) && n < |states|
    requires id in states[n].batches && states[n].batches[id].status == Confirmed
    ensures exists k :: k < n && ConfirmedAt(states, events, k, id) && Complete(why[k])
  {
    hide Gives, Complete, Inv, Enabled, After, Unsettled;
    if n > 0 {
      var before := states[n - 1];
      RunKeeps(maxsize, states, events, n - 1);
      if id in before.batches && before.batches[id].status == Confirmed {
        ConfirmedRestsOnALane(maxsize, states, events, why, n - 1, id);
      } else {
        ConfirmedByVerdict(maxsize, before, events[n - 1], id);
        ConfirmedMeansComplete(why[n - 1], before.job.task);
        assert ConfirmedAt(states, events, n - 1, id);
      }
    }
  }

  /** Only a verdict confirms. */
  lemma ConfirmedByVerdict(maxsize: int, s: Sys, e: Event, id: string)
    requires Inv(s) && Enabled(maxsize, s, e)
    requires id in After(maxsize, s, e).batches && After(maxsize, s, e).batches[id].status == Confirmed
    requires !(id in s.batches && s.batches[id].status == Confirmed)
    ensures e == Verdict(Confirmed) && Unsettled(s) && s.job.task.batchId == Some(id)
  {
    if id in s.batches {
      StatusChangesOnlyInItsLane(maxsize, s, e, id);
    }
  }

  // ---- the worker carries out its task ----

  /** The upload lane for a task of the queue: its conclusion is a verdict the batch machine
      allows, and the run just made is the evidence. */
  method CarryOutUpload(lane: UploadService.Lane, t: Queue.SegmentBatchTask, task: LaneState.Task,
      sniffs: map<FileService.Path, UploadMatching.Sniff>, allowed: set<string>)
      returns (status: BatchStatus, ghost e: Evidence)
    requires t.mode.Upload? && task.folderDate == t.folderDate && task.segment == t.segment
    requires task.batchId == t.batchId
    requires LaneState.AtRest(lane.Now()) && LaneState.FlatManifest(task.files)
    modifies lane`log, lane.table, lane.disk, lane.cbos
    ensures LaneState.AtRest(lane.Now())
    ensures VerdictOf(t.mode, status) && Gives(e, t, status)
    ensures e.ByUpload? && e.run.before == old(lane.Now()) && e.after == lane.Now()
    ensures LaneGate.TalkTold(task, old(lane.Now()), e.report, old(lane.cbos.Said()), lane.cbos.Said(), lane.settings)
    ensures status == Unconfirmed <==> LaneGate.AllGone(task, old(lane.Now()))
  {
    hide LaneState.AtRest, LaneState.FlatManifest, LanePhases.Finished, LaneGate.SetupOk, LaneGate.CallsDone,
         LaneGate.GateMeans, LaneGate.Existing, LaneGate.AllGone;
    ghost var before := lane.Now();
    var report := lane.ProcessBatch(task, sniffs, allowed);
    status := LaneGate.VerdictStatus(report.exit);
    LaneVerdictsFit(report.exit);
    e := ByUpload(report.RunFrom(before, task, lane.settings, sniffs), lane.Now(), report, allowed);
  }

  /** The same for a force-proceed, which takes its slots from the task. */
  method CarryOutProceed(lane: UploadService.Lane, t: Queue.SegmentBatchTask, allowed: set<string>)
      returns (status: BatchStatus, ghost e: Evidence)
    requires t.mode.Proceed?
    modifies lane.cbos
    ensures VerdictOf(t.mode, status) && Gives(e, t, status) && e.ByProceed?
  {
    var requested := Requested(t.proceedSlots);
    var reread;
    status, reread := lane.ProceedBatch(requested, allowed);
    e := ByProceed(reread, requested, allowed);
  }
}
