/** app/services/batch_service.py: batch intake, rescan and force-proceed over the batches
    table and the queue, with the worker recording verdicts and a restart at any point.
    Each intake call is one step; the worker's steps fall anywhere in between. */
module BatchIntake {
  import opened Text
  import opened BatchModel
  import opened BatchQueueProtocol
  import LaneGate

  datatype Manifest = Manifest(batchId: string, folderDate: string, segment: string)

  /** What lies at a manifest path: nothing usable, or a manifest whose listed files do or
      do not match their checksums. */
  datatype Found = Unreadable | Loaded(m: Manifest, checksumsOk: bool)

  datatype Batch = Batch(folderDate: string, segment: string, status: BatchStatus, proceedSlots: Option<seq<string>>)

  datatype IntakeResult =
    | Accepted(status: BatchStatus, alreadyKnown: bool)
    | ManifestError
    | ChecksumMismatch
    | QueueFull

  datatype ProceedResult = UnknownBatch | NotAllowed | ProceedQueued | ProceedQueueFull

  datatype Job = Resting | Busy(task: SegmentBatchTask, settled: bool)

  datatype Sys = Sys(batches: map<string, Batch>, q: Shared, job: Job)

  function UploadTask(m: Manifest): SegmentBatchTask {
    SegmentBatchTask(m.folderDate, m.segment, Upload, Some(m.batchId), [])
  }

  function ProceedTask(batchId: string, b: Batch, slots: seq<string>): SegmentBatchTask {
    SegmentBatchTask(b.folderDate, b.segment, Proceed, Some(batchId), slots)
  }

  predicate Recoverable(s: BatchStatus) {
    s in {Queued, Uploading}
  }

  // ---- the intake calls as functions of the state ----

  function Enqueue(maxsize: int, q: Shared, task: SegmentBatchTask): (Shared, Enqueued) {
    if Key(task) in q.inFlight then (q, Duplicate)
    else if !HasRoom(maxsize, q) then (q, Enqueued.Full)
    else (ItemPut(GuardTaken(q, Key(task)), Work(task)), Added)
  }

  function Answer(r: Enqueued, status: BatchStatus, known: bool): IntakeResult {
    if r == Enqueued.Full then QueueFull else Accepted(status, known)
  }

  // ---- what each intake call does, told case by case ----

  /** A task was offered to the queue: one that is guarded, or finds no room, changes nothing. */
  ghost predicate Offered(maxsize: int, q: Shared, q': Shared, task: SegmentBatchTask, full: bool) {
    && (full <==> Key(task) !in q.inFlight && maxsize > 0 && |q.waiting| >= maxsize)
    && (full || Key(task) in q.inFlight ==> q' == q)
    && (!full && Key(task) !in q.inFlight ==>
          q' == Shared(q.inFlight + {Key(task)}, q.waiting + [Work(task)], q.unfinished + 1))
  }

  /** What submitting a manifest does. Unreadable: nothing. Known: the row stays, and an
      unfinished batch is offered to the queue again. New: recorded as rejected and left
      alone when its checksums fail, recorded as queued and offered when they hold. */
  ghost predicate SubmitTold(maxsize: int, s: Sys, s': Sys, f: Found, r: IntakeResult) {
    && s'.job == s.job
    && (r == ManifestError <==> f == Unreadable)
    && (f == Unreadable ==> s' == s)
    && (f != Unreadable ==>
          var id, task := f.m.batchId, SegmentBatchTask(f.m.folderDate, f.m.segment, Upload, Some(f.m.batchId), []);
          && (r == ChecksumMismatch <==> id !in s.batches && !f.checksumsOk)
          && (id !in s.batches && !f.checksumsOk ==>
                && s'.batches == s.batches[id := Batch(f.m.folderDate, f.m.segment, Rejected, None)] && s'.q == s.q)
          && (id !in s.batches && f.checksumsOk ==>
                && s'.batches == s.batches[id := Batch(f.m.folderDate, f.m.segment, Queued, None)]
                && Offered(maxsize, s.q, s'.q, task, r == QueueFull)
                && (r != QueueFull ==> r == Accepted(Queued, false)))
          && (id in s.batches ==>
                && s'.batches == s.batches
                && (r != QueueFull ==> r == Accepted(s.batches[id].status, true))
                && (s.batches[id].status in {Queued, Uploading} ==>
                      Offered(maxsize, s.q, s'.q, task, r == QueueFull))
                && (s.batches[id].status !in {Queued, Uploading} ==> s'.q == s.q && r != QueueFull)))
  }

  /** What asking for a force-proceed does: an unknown batch and one that is not parked are
      refused; for a parked one the slots are recorded and a task with them is offered. */
  ghost predicate ProceedTold(maxsize: int, s: Sys, s': Sys, id: string, slots: seq<string>, r: ProceedResult) {
    && s'.job == s.job
    && (r == UnknownBatch <==> id !in s.batches)
    && (r == NotAllowed <==> id in s.batches && s.batches[id].status != Incomplete)
    && (r in {UnknownBatch, NotAllowed} ==> s' == s)
    && (r !in {UnknownBatch, NotAllowed} ==>
          && s'.batches == s.batches[id := s.batches[id].(proceedSlots := Some(slots))]
          && Offered(maxsize, s.q, s'.q,
               SegmentBatchTask(s.batches[id].folderDate, s.batches[id].segment, Proceed, Some(id), slots),
               r == ProceedQueueFull))
  }

  /** The transitions of the batch machine do that. */
  lemma SubmittedTells(maxsize: int, s: Sys, f: Found)
    ensures SubmitTold(maxsize, s, Submitted(maxsize, s, f).0, f, Submitted(maxsize, s, f).1)
  {
  }

  lemma ProceedTells(maxsize: int, s: Sys, id: string, slots: seq<string>)
    ensures var (s', r) := ProceedRequested(maxsize, s, id, slots); ProceedTold(maxsize, s, s', id, slots, r)
  {
  }

  function Submitted(maxsize: int, s: Sys, f: Found): (Sys, IntakeResult) {
    if f.Unreadable? then (s, ManifestError)
    else if f.m.batchId in s.batches then
      var b := s.batches[f.m.batchId];
      if Recoverable(b.status) then
        var (q, r) := Enqueue(maxsize, s.q, UploadTask(f.m));
        (s.(q := q), Answer(r, b.status, true))
      else (s, Accepted(b.status, true))
    else if !f.checksumsOk then
      (s.(batches := s.batches[f.m.batchId := Batch(f.m.folderDate, f.m.segment, Rejected, None)]), ChecksumMismatch)
    else
      var (q, r) := Enqueue(maxsize, s.q, UploadTask(f.m));
      (s.(batches := s.batches[f.m.batchId := Batch(f.m.folderDate, f.m.segment, Queued, None)], q := q),
        Answer(r, Queued, false))
  }

  function ProceedRequested(maxsize: int, s: Sys, batchId: string, slots: seq<string>): (Sys, ProceedResult) {
    if batchId !in s.batches then (s, UnknownBatch)
    else if s.batches[batchId].status != Incomplete then (s, NotAllowed)
    else
      var b := s.batches[batchId].(proceedSlots := Some(slots));
      var (q, r) := Enqueue(maxsize, s.q, ProceedTask(batchId, b, slots));
      (s.(batches := s.batches[batchId := b], q := q), if r == Enqueued.Full then ProceedQueueFull else ProceedQueued)
  }

  class BatchService {
    const queue: BatchQueue
    var batches: map<string, Batch>

    constructor (queue: BatchQueue)
      ensures this.queue == queue && batches == map[]
    {
      this.queue, batches := queue, map[];
    }

    ghost function Now(job: Job): Sys
      reads this, queue
    {
      Sys(batches, queue.Now(), job)
    }

    /** Enqueue, and only log a dropped duplicate. */
    method EnqueueChecked(task: SegmentBatchTask) returns (r: Enqueued)
      modifies queue
      ensures (queue.Now(), r) == Enqueue(queue.maxsize, old(queue.Now()), task)
    {
      r := queue.Enqueue(task);
    }

    /** A batch already recorded: put back on the queue while it is not finished. */
    method AcknowledgeKnown(m: Manifest, ghost job: Job) returns (r: IntakeResult)
      requires m.batchId in batches
      modifies queue
      ensures (Now(job), r) == Submitted(queue.maxsize, old(Now(job)), Loaded(m, true))
    {
      var status := batches[m.batchId].status;
      if status == Queued || status == Uploading {
        var e := EnqueueChecked(UploadTask(m));
        if e == Enqueued.Full {
          return QueueFull;
        }
      }
      r := Accepted(status, true);
    }

    /** Validate, verify checksums, record, enqueue; idempotent on the batch id. */
    method SubmitManifest(f: Found, ghost job: Job) returns (r: IntakeResult)
      modifies this, queue
      ensures (Now(job), r) == Submitted(queue.maxsize, old(Now(job)), f)
      ensures SubmitTold(queue.maxsize, old(Now(job)), Now(job), f, r)
    {
      SubmittedTells(queue.maxsize, Now(job), f);
      if f.Unreadable? {
        return ManifestError;
      }
      if f.m.batchId in batches {
        r := AcknowledgeKnown(f.m, job);
        return;
      }
      if !f.checksumsOk {
        batches := batches[f.m.batchId := Batch(f.m.folderDate, f.m.segment, Rejected, None)];
        return ChecksumMismatch;
      }
      batches := batches[f.m.batchId := Batch(f.m.folderDate, f.m.segment, Queued, None)];
      var e := EnqueueChecked(UploadTask(f.m));
      if e == Enqueued.Full {
        return QueueFull;
      }
      r := Accepted(Queued, false);
    }

    /** Submits every manifest on disk; a bad one is skipped, a full queue ends the scan. */
    method Rescan(found: seq<Found>, ghost job: Job) returns (queued: seq<string>, skipped: nat, full: bool)
      modifies this, queue
      ensures Now(job) == Rescanned(queue.maxsize, old(Now(job)), found).0
      ensures full == Rescanned(queue.maxsize, old(Now(job)), found).1
      ensures !full ==> (queued, skipped) == RescanReport(queue.maxsize, old(Now(job)), found)
    {
      queued, skipped, full := [], 0, false;
      assert found[..|found|] == found;
      for i := 0 to |found|
        invariant (Now(job), false) == Rescanned(queue.maxsize, old(Now(job)), found[..i])
        invariant (queued, skipped) == RescanReport(queue.maxsize, old(Now(job)), found[..i])
      {
        assert found[..i + 1][..i] == found[..i];
        var r := SubmitManifest(found[i], job);
        if r.QueueFull? {
          RescanStops(queue.maxsize, old(Now(job)), found, i + 1);
          full := true;
          return;
        }
        if r.ManifestError? || r.ChecksumMismatch? {
          skipped := skipped + 1;
        } else if !r.alreadyKnown {
          queued := queued + [found[i].m.batchId];
        }
      }
    }

    /** Force-proceed applies to a parked batch only. The decision is recorded first. */
    method RequestProceed(batchId: string, slots: seq<string>, ghost job: Job) returns (r: ProceedResult)
      modifies this, queue
      ensures (Now(job), r) == ProceedRequested(queue.maxsize, old(Now(job)), batchId, slots)
      ensures ProceedTold(queue.maxsize, old(Now(job)), Now(job), batchId, slots, r)
    {
      ProceedTells(queue.maxsize, Now(job), batchId, slots);
      if batchId !in batches {
        return UnknownBatch;
      }
      if batches[batchId].status != Incomplete {
        return NotAllowed;
      }
      batches := batches[batchId := batches[batchId].(proceedSlots := Some(slots))];
      var e := EnqueueChecked(ProceedTask(batchId, batches[batchId], slots));
      r := if e == Enqueued.Full then ProceedQueueFull else ProceedQueued;
    }
  }

  /** A whole rescan: the state it leaves and whether a full queue cut it short. */
  function Rescanned(maxsize: int, s: Sys, found: seq<Found>): (Sys, bool) {
    if |found| == 0 then (s, false)
    else
      var (before, full) := Rescanned(maxsize, s, found[..|found| - 1]);
      if full then (before, true)
      else
        var (after, r) := Submitted(maxsize, before, found[|found| - 1]);
        (after, r.QueueFull?)
  }

  /** The batch ids a rescan reports as newly queued, and how many manifests it skipped. */
  function RescanReport(maxsize: int, s: Sys, found: seq<Found>): (seq<string>, nat) {
    if |found| == 0 then ([], 0)
    else
      var (queued, skipped) := RescanReport(maxsize, s, found[..|found| - 1]);
      var r := Submitted(maxsize, Rescanned(maxsize, s, found[..|found| - 1]).0, found[|found| - 1]).1;
      match r
      case Accepted(_, known) => (if known then queued else queued + [found[|found| - 1].m.batchId], skipped)
      case QueueFull => (queued, skipped)
      case _ => (queued, skipped + 1)
  }

  lemma {:induction false} RescanStops(maxsize: int, s: Sys, found: seq<Found>, n: nat)
    requires n <= |found| && Rescanned(maxsize, s, found[..n]).1
    ensures Rescanned(maxsize, s, found) == Rescanned(maxsize, s, found[..n])
  {
    if n < |found| {
      assert found[..|found| - 1][..n] == found[..n];
      RescanStops(maxsize, s, found[..|found| - 1], n);
    } else {
      assert found[..n] == found;
    }
  }

  // ---- what a rescan reports ----

  /** This manifest is refused: unreadable, or new with checksums that fail. */
  ghost predicate Refusable(s: Sys, found: seq<Found>, i: int)
    requires 0 <= i < |found|
  {
    || found[i] == Unreadable
    || (&& !found[i].checksumsOk && found[i].m.batchId !in s.batches
        && forall j :: 0 <= j < i && found[j] != Unreadable ==> found[j].m.batchId != found[i].m.batchId)
  }

  ghost function RefusableCount(s: Sys, found: seq<Found>, n: nat): nat
    requires n <= |found|
  {
    if n == 0 then 0 else RefusableCount(s, found, n - 1) + (if Refusable(s, found, n - 1) then 1 else 0)
  }

  lemma {:induction false} RefusableOfPrefix(s: Sys, found: seq<Found>, n: nat)
    requires n < |found|
    ensures RefusableCount(s, found[..|found| - 1], n) == RefusableCount(s, found, n)
  {
    if n > 0 {
      RefusableOfPrefix(s, found, n - 1);
      var init := found[..|found| - 1];
      assert Refusable(s, init, n - 1) <==> Refusable(s, found, n - 1);
    }
  }

  /** Rows are there for what was there before and for every readable manifest seen. */
  lemma {:induction false} RescanRows(maxsize: int, s: Sys, found: seq<Found>)
    requires !Rescanned(maxsize, s, found).1
    ensures forall id :: id in Rescanned(maxsize, s, found).0.batches <==>
              || id in s.batches
              || exists j :: 0 <= j < |found| && found[j] != Unreadable && found[j].m.batchId == id
  {
    hide SubmitTold;
    if |found| > 0 {
      var init, last := found[..|found| - 1], found[|found| - 1];
      RescanRows(maxsize, s, init);
      OneRowMore(maxsize, Rescanned(maxsize, s, init).0, last);
      assert forall j :: 0 <= j < |init| ==> init[j] == found[j];
    }
  }

  lemma OneRowMore(maxsize: int, s: Sys, f: Found)
    ensures forall id :: id in Submitted(maxsize, s, f).0.batches <==>
              id in s.batches || (f != Unreadable && f.m.batchId == id)
  {
  }

  /** A rescan that is not cut short counts as skipped exactly the manifests it refuses, and
      as queued exactly the batches it recorded as such, each once. */
  lemma {:induction false} RescanTells(maxsize: int, s: Sys, found: seq<Found>)
    requires !Rescanned(maxsize, s, found).1
    ensures var (after, report) := (Rescanned(maxsize, s, found).0, RescanReport(maxsize, s, found));
            && report.1 == RefusableCount(s, found, |found|)
            && (forall id ::
                  id in report.0 <==> id !in s.batches && id in after.batches && after.batches[id].status == Queued)
            && forall i, j :: 0 <= i < j < |report.0| ==> report.0[i] != report.0[j]
  {
    if |found| > 0 {
      var init, last := found[..|found| - 1], found[|found| - 1];
      var before := Rescanned(maxsize, s, init).0;
      RescanTells(maxsize, s, init);
      RescanRows(maxsize, s, init);
      RefusableOfPrefix(s, found, |init|);
      RefusedIs(maxsize, s, found);
      SubmittedTells(maxsize, before, last);
    }
  }

  lemma RefusedIs(maxsize: int, s: Sys, found: seq<Found>)
    requires |found| > 0 && !Rescanned(maxsize, s, found[..|found| - 1]).1
    ensures var before := Rescanned(maxsize, s, found[..|found| - 1]).0;
            Submitted(maxsize, before, found[|found| - 1]).1 in {ManifestError, ChecksumMismatch} <==>
              Refusable(s, found, |found| - 1)
  {
    var init, last := found[..|found| - 1], found[|found| - 1];
    RescanRows(maxsize, s, init);
    SubmittedTells(maxsize, Rescanned(maxsize, s, init).0, last);
    assert forall j :: 0 <= j < |init| ==> init[j] == found[j];
  }

  // ---- the worker, a restart, and any order of all of them ----

  datatype Event =
    | Submit(f: Found)
    | RequestProceed(batchId: string, slots: seq<string>)
    | PickUp
    | MarkUploading
    | Verdict(status: BatchStatus)
    | VerdictLost
    | PutDown
    | Restart

  /** Dates and segments hold no separator and a batch id is one of its own. */
  predicate Proper(m: Manifest) {
    '|' !in m.folderDate && '|' !in m.segment && m.batchId != "" && m.batchId != "scan"
  }

  /** One manifest per batch id. */
  predicate SameBatch(s: Sys, m: Manifest) {
    m.batchId in s.batches ==>
      s.batches[m.batchId].folderDate == m.folderDate && s.batches[m.batchId].segment == m.segment
  }

  predicate Unsettled(s: Sys) {
    s.job.Busy? && !s.job.settled && s.job.task.batchId.Some?
  }

  /** What each lane may conclude; a crash is recorded as failed. */
  predicate VerdictOf(mode: Mode, status: BatchStatus) {
    match mode
    case Upload => status in {Unconfirmed, Queued, Failed, Incomplete, Confirmed}
    case Proceed => status in {Incomplete, Confirmed, Failed}
  }

  /** Every way the upload lane can end is one of them. */
  lemma LaneVerdictsFit(exit: LaneGate.Exit)
    ensures VerdictOf(Upload, LaneGate.VerdictStatus(exit))
  {
  }

  predicate Enabled(maxsize: int, s: Sys, e: Event) {
    match e
    case Submit(f) => f.Loaded? ==> Proper(f.m) && SameBatch(s, f.m)
    case RequestProceed(_, _) => true
    case PickUp => s.job.Resting? && s.q.waiting != [] && s.q.waiting[0].Work?
    case MarkUploading => Unsettled(s) && s.job.task.mode.Upload?
    case Verdict(status) => Unsettled(s) && VerdictOf(s.job.task.mode, status)
    case VerdictLost => Unsettled(s)
    case PutDown => s.job.Busy? && s.job.settled && s.q.unfinished > 0
    case Restart => true
  }

  /** Writing a status to a batch that has no row does nothing. */
  function SetStatus(s: Sys, status: BatchStatus): Sys
    requires Unsettled(s)
  {
    var id := s.job.task.batchId.value;
    if id in s.batches then s.(batches := s.batches[id := s.batches[id].(status := status)]) else s
  }

  function After(maxsize: int, s: Sys, e: Event): Sys
    requires Enabled(maxsize, s, e)
  {
    match e
    case Submit(f) => Submitted(maxsize, s, f).0
    case RequestProceed(id, slots) => ProceedRequested(maxsize, s, id, slots).0
    case PickUp => s.(q := ItemTaken(s.q), job := Busy(s.q.waiting[0].task, false))
    case MarkUploading => SetStatus(s, Uploading)
    case Verdict(status) => SetStatus(s, status).(job := Busy(s.job.task, true))
    case VerdictLost => s.(job := Busy(s.job.task, true))
    case PutDown => s.(q := GuardDropped(MarkedDone(s.q), Key(s.job.task)), job := Resting)
    case Restart => s.(q := Shared({}, [], 0), job := Resting)
  }

  // ---- what always holds ----

  function Holders(s: Sys, key: string): nat {
    WaitingCount(s.q.waiting, key) + One(s.job.Busy? && Key(s.job.task) == key)
  }

  /** A task still to be carried out finds its batch in a status its lane starts from. */
  predicate Fits(batches: map<string, Batch>, t: SegmentBatchTask) {
    && t.batchId.Some? && t.batchId.value in batches
    && var b := batches[t.batchId.value];
       && b.folderDate == t.folderDate && b.segment == t.segment
       && match t.mode
          case Upload => Recoverable(b.status)
          case Proceed => b.status == Incomplete
  }

  ghost predicate AllFit(s: Sys) {
    && (forall i :: 0 <= i < |s.q.waiting| ==> s.q.waiting[i].Work? && Fits(s.batches, s.q.waiting[i].task))
    && (Unsettled(s) ==> Fits(s.batches, s.job.task))
  }

  ghost predicate RowsProper(s: Sys) {
    forall id :: id in s.batches ==> Proper(Manifest(id, s.batches[id].folderDate, s.batches[id].segment))
  }

  ghost predicate Inv(s: Sys) {
    && (forall key :: Holders(s, key) == One(key in s.q.inFlight))
    && AllFit(s) && RowsProper(s)
    && s.q.unfinished == |s.q.waiting| + One(s.job.Busy?)
    && (s.job.Busy? ==> s.job.task.batchId.Some? && '|' !in s.job.task.folderDate && '|' !in s.job.task.segment)
  }

  function Start(): Sys {
    Sys(map[], Shared({}, [], 0), Resting)
  }

  lemma EnqueueKeeps(maxsize: int, s: Sys, task: SegmentBatchTask)
    requires Inv(s) && Fits(s.batches, task)
    ensures Inv(s.(q := Enqueue(maxsize, s.q, task).0))
  {
    forall key ensures Holders(s.(q := Enqueue(maxsize, s.q, task).0), key)
      == One(key in Enqueue(maxsize, s.q, task).0.inFlight) {
      assert Holders(s, key) == One(key in s.q.inFlight);
      PutCounts(s.q.waiting, Work(task), key);
    }
  }

  /** Writing the status of the batch being worked on disturbs no other task: none that
      waits is about the same batch. */
  lemma OthersAreOtherBatches(s: Sys, i: nat)
    requires Inv(s) && Unsettled(s) && i < |s.q.waiting|
    ensures s.q.waiting[i].task.batchId != s.job.task.batchId
  {
    var a, b := s.q.waiting[i].task, s.job.task;
    WaitingCountZero(s.q.waiting, Key(a));
    assert Holders(s, Key(a)) == One(Key(a) in s.q.inFlight);
  }

  lemma StatusKeeps(s: Sys, after: Sys, status: BatchStatus)
    requires Inv(s) && Unsettled(s)
    requires || (after == SetStatus(s, status) && Recoverable(status) && s.job.task.mode.Upload?)
             || after == SetStatus(s, status).(job := Busy(s.job.task, true))
    ensures Inv(after)
  {
    forall i | 0 <= i < |after.q.waiting|
      ensures after.q.waiting[i].Work? && Fits(after.batches, after.q.waiting[i].task) {
      OthersAreOtherBatches(s, i);
    }
    forall key ensures Holders(after, key) == One(key in after.q.inFlight) {
      assert Holders(s, key) == One(key in s.q.inFlight);
    }
    assert Fits(s.batches, s.job.task);
  }

  lemma NewRowKeeps(s: Sys, m: Manifest, status: BatchStatus)
    requires Inv(s) && Proper(m) && m.batchId !in s.batches
    ensures Inv(s.(batches := s.batches[m.batchId := Batch(m.folderDate, m.segment, status, None)]))
  {
  }

  lemma SubmitKeeps(maxsize: int, s: Sys, f: Found)
    requires Inv(s) && Enabled(maxsize, s, Submit(f))
    ensures Inv(Submitted(maxsize, s, f).0)
  {
    if f.Loaded? {
      if f.m.batchId in s.batches {
        if Recoverable(s.batches[f.m.batchId].status) {
          EnqueueKeeps(maxsize, s, UploadTask(f.m));
        }
      } else if !f.checksumsOk {
        NewRowKeeps(s, f.m, Rejected);
      } else {
        NewRowKeeps(s, f.m, Queued);
        EnqueueKeeps(maxsize, s.(batches := s.batches[f.m.batchId := Batch(f.m.folderDate, f.m.segment, Queued, None)]),
          UploadTask(f.m));
      }
    }
  }

  lemma ProceedKeeps(maxsize: int, s: Sys, id: string, slots: seq<string>)
    requires Inv(s)
    ensures Inv(ProceedRequested(maxsize, s, id, slots).0)
  {
    if id in s.batches && s.batches[id].status == Incomplete {
      var b := s.batches[id].(proceedSlots := Some(slots));
      var recorded := s.(batches := s.batches[id := b]);
      forall key ensures Holders(recorded, key) == One(key in recorded.q.inFlight) {
        assert Holders(s, key) == One(key in s.q.inFlight);
      }
      assert Proper(Manifest(id, b.folderDate, b.segment));
      EnqueueKeeps(maxsize, recorded, ProceedTask(id, b, slots));
    }
  }

  lemma WorkerKeeps(maxsize: int, s: Sys, e: Event)
    requires Inv(s) && Enabled(maxsize, s, e) && (e.PickUp? || e.VerdictLost? || e.PutDown? || e.Restart?)
    ensures Inv(After(maxsize, s, e))
  {
    var after := After(maxsize, s, e);
    forall key ensures Holders(after, key) == One(key in after.q.inFlight) {
      assert Holders(s, key) == One(key in s.q.inFlight);
    }
    if e.PickUp? {
      var t := s.q.waiting[0].task;
      assert Fits(s.batches, t) && Proper(Manifest(t.batchId.value, t.folderDate, t.segment));
    }
  }

  lemma StepKeeps(maxsize: int, s: Sys, e: Event)
    requires Inv(s) && Enabled(maxsize, s, e)
    ensures Inv(After(maxsize, s, e))
  {
    match e
    case Submit(f) => SubmitKeeps(maxsize, s, f);
    case RequestProceed(id, slots) => ProceedKeeps(maxsize, s, id, slots);
    case MarkUploading => StatusKeeps(s, After(maxsize, s, e), Uploading);
    case Verdict(status) => StatusKeeps(s, After(maxsize, s, e), status);
    case _ => WorkerKeeps(maxsize, s, e);
  }

  /** A step changes a batch's status only when the worker, on a task for that very batch,
      writes it: from queued or uploading in the upload lane, from incomplete in the
      proceed lane. So a finished batch never changes and a parked one leaves only through
      a proceed task. */
  lemma StatusChangesOnlyInItsLane(maxsize: int, s: Sys, e: Event, id: string)
    requires Inv(s) && Enabled(maxsize, s, e) && id in s.batches
    ensures id in After(maxsize, s, e).batches
    ensures After(maxsize, s, e).batches[id].status != s.batches[id].status ==>
              && (e.Verdict? || e.MarkUploading?)
              && Unsettled(s) && s.job.task.batchId == Some(id)
              && (if s.job.task.mode.Upload? then Recoverable(s.batches[id].status)
                   else s.batches[id].status == Incomplete)
  {
  }

  ghost predicate IsRun(maxsize: int, states: seq<Sys>, events: seq<Event>) {
    && |states| == |events| + 1 && states[0] == Start()
    && forall i ::
         0 <= i < |events| ==>
           Enabled(maxsize, states[i], events[i]) && states[i + 1] == After(maxsize, states[i], events[i])
  }

  lemma {:induction false} RunKeeps(maxsize: int, states: seq<Sys>, events: seq<Event>, n: nat)
    requires IsRun(maxsize, states, events) && n < |states|
    ensures Inv(states[n])
  {
    if n > 0 {
      RunKeeps(maxsize, states, events, n - 1);
      StepKeeps(maxsize, states[n - 1], events[n - 1]);
    }
  }

  predicate InHand(s: Sys, id: string) {
    || (exists i :: 0 <= i < |s.q.waiting| && s.q.waiting[i].Work? && s.q.waiting[i].task.batchId == Some(id))
    || (Unsettled(s) && s.job.task.batchId == Some(id))
  }

  /** Confirmed, unconfirmed, failed and rejected are for good: over any further intake
      calls, verdicts and restarts the row keeps its status and no task takes it up. */
  lemma {:induction false} TerminalIsForGood(maxsize: int, states: seq<Sys>, events: seq<Event>, m: nat, n: nat,
      id: string)
    requires IsRun(maxsize, states, events) && m <= n < |states|
    requires id in states[m].batches && states[m].batches[id].status in {Confirmed, Unconfirmed, Failed, Rejected}
    ensures id in states[n].batches && states[n].batches[id].status == states[m].batches[id].status
    ensures !InHand(states[n], id)
  {
    hide After, Enabled;
    RunKeeps(maxsize, states, events, n);
    if m < n {
      TerminalIsForGood(maxsize, states, events, m, n - 1, id);
      RunKeeps(maxsize, states, events, n - 1);
      StatusChangesOnlyInItsLane(maxsize, states[n - 1], events[n - 1], id);
    }
  }

  /** Between any two moments, a parked batch that is no longer parked was taken up by a
      proceed task, whose verdict ended the parking. */
  lemma {:induction false} ParkedLeavesByProceed(maxsize: int, states: seq<Sys>, events: seq<Event>, m: nat, n: nat,
      id: string)
    requires IsRun(maxsize, states, events) && m <= n < |states|
    requires id in states[m].batches && states[m].batches[id].status == Incomplete
    ensures id in states[n].batches
    ensures states[n].batches[id].status != Incomplete ==>
              exists k :: m <= k < n && events[k].Verdict? && Unsettled(states[k])
                && states[k].job.task.mode == Proceed && states[k].job.task.batchId == Some(id)
  {
    hide After;
    if m < n {
      ParkedLeavesByProceed(maxsize, states, events, m, n - 1, id);
      RunKeeps(maxsize, states, events, n - 1);
      StatusChangesOnlyInItsLane(maxsize, states[n - 1], events[n - 1], id);
      if states[n].batches[id].status != Incomplete && states[n - 1].batches[id].status == Incomplete {
        assert Fits(states[n - 1].batches, states[n - 1].job.task);
      }
    }
  }

  /** No batch has two tasks still to be carried out, of either lane. */
  lemma OneTaskPerBatch(s: Sys, i: nat, j: nat)
    requires Inv(s) && i < j < |s.q.waiting|
    ensures s.q.waiting[i].task.batchId != s.q.waiting[j].task.batchId
    ensures Unsettled(s) ==> s.q.waiting[i].task.batchId != s.job.task.batchId
  {
    var a, b := s.q.waiting[i].task, s.q.waiting[j].task;
    assert Fits(s.batches, a) && Fits(s.batches, b);
    assert Holders(s, Key(a)) == One(Key(a) in s.q.inFlight);
    if Key(a) == Key(b) {
      QueuedTwice(s.q.waiting, i, j);
    }
    if Unsettled(s) {
      OthersAreOtherBatches(s, i);
    }
  }

  /** A batch whose first submission failed its checksums is rejected for good: no task for it
      is ever in hand. */
  lemma RejectedNeverInHand(maxsize: int, states: seq<Sys>, events: seq<Event>, k: nat, n: nat, m: Manifest)
    requires IsRun(maxsize, states, events) && k < n < |states|
    requires events[k] == Submit(Loaded(m, false)) && m.batchId !in states[k].batches
    ensures m.batchId in states[n].batches && states[n].batches[m.batchId].status == Rejected
    ensures !InHand(states[n], m.batchId)
  {
    hide InHand;
    SubmittedTells(maxsize, states[k], Loaded(m, false));
    assert states[k + 1] == After(maxsize, states[k], events[k]);
    TerminalIsForGood(maxsize, states, events, k + 1, n, m.batchId);
  }

  /** Every row stems from a submission of its own that was the first for its id, and it is
      rejected exactly when the checksums failed there: so a batch that is queued, or ever
      got further, had checksums that held. */
  lemma {:induction false} EveryRowWasSubmitted(maxsize: int, states: seq<Sys>, events: seq<Event>, n: nat, id: string)
      returns (k: nat)
    requires IsRun(maxsize, states, events) && n < |states| && id in states[n].batches
    ensures k < n && events[k].Submit? && events[k].f.Loaded? && events[k].f.m.batchId == id
    ensures id !in states[k].batches
    ensures states[n].batches[id].status == Rejected <==> !events[k].f.checksumsOk
  {
    hide Inv, InHand, Offered;
    if n > 0 && id in states[n - 1].batches {
      k := EveryRowWasSubmitted(maxsize, states, events, n - 1, id);
      RunKeeps(maxsize, states, events, n - 1);
      RejectedStaysSo(maxsize, states[n - 1], events[n - 1], id);
    } else if n > 0 {
      k := n - 1;
      NewRowIsSubmitted(maxsize, states[n - 1], events[n - 1], id);
    }
  }

  lemma RejectedStaysSo(maxsize: int, s: Sys, e: Event, id: string)
    requires Inv(s) && Enabled(maxsize, s, e) && id in s.batches && id in After(maxsize, s, e).batches
    ensures After(maxsize, s, e).batches[id].status == Rejected <==> s.batches[id].status == Rejected
  {
    StatusChangesOnlyInItsLane(maxsize, s, e, id);
  }

  lemma NewRowIsSubmitted(maxsize: int, s: Sys, e: Event, id: string)
    requires Enabled(maxsize, s, e) && id !in s.batches && id in After(maxsize, s, e).batches
    ensures e.Submit? && e.f.Loaded? && e.f.m.batchId == id
    ensures After(maxsize, s, e).batches[id].status == if e.f.checksumsOk then Queued else Rejected
  {
    if e.Submit? {
      SubmittedTells(maxsize, s, e.f);
    }
  }

  // ---- recovery ----

  predicate IsWaiting(s: Sys, t: SegmentBatchTask) {
    exists i :: 0 <= i < |s.q.waiting| && s.q.waiting[i].Work? && SameTarget(s.q.waiting[i].task, t)
  }

  predicate WithWorker(s: Sys, t: SegmentBatchTask) {
    s.job.Busy? && SameTarget(s.job.task, t)
  }

  predicate Held(s: Sys, t: SegmentBatchTask) {
    IsWaiting(s, t) || WithWorker(s, t)
  }

  /** The worker has written, or failed to write, this task's verdict but still holds its
      guard: the task is as good as over, and nobody can queue it again yet. */
  predicate JustSettled(s: Sys, t: SegmentBatchTask) {
    WithWorker(s, t) && s.job.settled
  }

  predicate Clean(t: SegmentBatchTask) {
    SeparatorFree(t) && ProperId(t.batchId)
  }

  lemma WaitingIsClean(s: Sys, i: nat)
    requires Inv(s) && i < |s.q.waiting|
    ensures s.q.waiting[i].Work? && Clean(s.q.waiting[i].task)
  {
    var w := s.q.waiting[i].task;
    assert Fits(s.batches, w);
    assert Proper(Manifest(w.batchId.value, w.folderDate, w.segment));
  }

  /** A guarded key stands for this very task, not for some other batch, and it is in one
      place only. */
  lemma GuardMeansHeld(s: Sys, t: SegmentBatchTask)
    requires Inv(s) && Clean(t)
    ensures Key(t) in s.q.inFlight <==> Held(s, t)
    ensures !(IsWaiting(s, t) && WithWorker(s, t))
  {
    WaitingCountZero(s.q.waiting, Key(t));
    assert Holders(s, Key(t)) == One(Key(t) in s.q.inFlight);
    forall i | 0 <= i < |s.q.waiting|
      ensures s.q.waiting[i].Work? && (Key(s.q.waiting[i].task) == Key(t) <==> SameTarget(s.q.waiting[i].task, t)) {
      WaitingIsClean(s, i);
      SupersedingIsNotSwallowed(s.q.waiting[i].task, t);
    }
    if s.job.Busy? {
      SupersedingIsNotSwallowed(s.job.task, t);
    }
    hide Key, SameTarget;
  }

  lemma SameLane(s: Sys, t: SegmentBatchTask, u: SegmentBatchTask)
    requires Fits(s.batches, t) && Fits(s.batches, u) && t.batchId == u.batchId
    ensures SameTarget(t, u)
  {
  }

  /** A batch is in hand exactly while the task its status calls for is held and its verdict
      is still to come. */
  lemma InHandMeans(s: Sys, t: SegmentBatchTask)
    requires Inv(s) && Clean(t) && Fits(s.batches, t)
    ensures InHand(s, t.batchId.value) <==> Held(s, t) && !JustSettled(s, t)
  {
    GuardMeansHeld(s, t);
    forall i | 0 <= i < |s.q.waiting|
      ensures s.q.waiting[i].Work?
      ensures (s.q.waiting[i].task.batchId == t.batchId <==> SameTarget(s.q.waiting[i].task, t)) {
      WaitingIsClean(s, i);
      if s.q.waiting[i].task.batchId == t.batchId {
        SameLane(s, s.q.waiting[i].task, t);
      }
    }
    if Unsettled(s) && s.job.task.batchId == t.batchId {
      SameLane(s, s.job.task, t);
    }
  }

  lemma EnqueueHeld(maxsize: int, s: Sys, t: SegmentBatchTask)
    requires Inv(s) && Clean(t) && Fits(s.batches, t)
    ensures var (q, r) := Enqueue(maxsize, s.q, t);
            && (r == Duplicate <==> Held(s, t)) && (r == Enqueued.Full <==> !Held(s, t) && !HasRoom(maxsize, s.q))
            && (r == Added ==> q.waiting == s.q.waiting + [Work(t)]) && (r != Added ==> q == s.q)
            && (InHand(s.(q := q), t.batchId.value) <==> InHand(s, t.batchId.value) || r == Added)
  {
    GuardMeansHeld(s, t);
    var (q, r) := Enqueue(maxsize, s.q, t);
    if r == Added {
      assert q.waiting[|s.q.waiting|] == Work(t);
    }
  }

  /** Submitting a queued or uploading batch again puts it in hand exactly when it already
      was, or when there is room and the worker is not about to let go of its finished task. */
  lemma SubmitRecovers(maxsize: int, s: Sys, m: Manifest, checksumsOk: bool)
    requires Inv(s) && Enabled(maxsize, s, Submit(Loaded(m, checksumsOk)))
    requires m.batchId in s.batches && Recoverable(s.batches[m.batchId].status)
    ensures var (after, r) := Submitted(maxsize, s, Loaded(m, checksumsOk));
            && (InHand(after, m.batchId) <==>
                  InHand(s, m.batchId) || (!JustSettled(s, UploadTask(m)) && HasRoom(maxsize, s.q)))
            && after.batches == s.batches && after.job == s.job
            && r == if Held(s, UploadTask(m)) || HasRoom(maxsize, s.q)
                    then Accepted(s.batches[m.batchId].status, true)
                    else QueueFull
  {
    InHandMeans(s, UploadTask(m));
    EnqueueHeld(maxsize, s, UploadTask(m));
  }

  /** What a rescan may assume of the manifests on disk. */
  ghost predicate FoundOk(s: Sys, found: seq<Found>) {
    && (forall i :: 0 <= i < |found| && found[i].Loaded? ==> Proper(found[i].m) && SameBatch(s, found[i].m))
    && forall i, j ::
         0 <= i < j < |found| && found[i].Loaded? && found[j].Loaded? && found[i].m.batchId == found[j].m.batchId ==>
         found[i].m == found[j].m
  }

  ghost predicate RowsOf(s: Sys, after: Sys, found: seq<Found>) {
    forall id :: id in after.batches ==>
      || (id in s.batches && after.batches[id] == s.batches[id])
      || exists j ::
           && 0 <= j < |found|
           && found[j].Loaded?
           && found[j].m == Manifest(id, after.batches[id].folderDate, after.batches[id].segment)
  }

  /** A rescan touches no row it finds, keeps the invariant and leaves the worker alone. */
  lemma {:induction false} RescanKeeps(maxsize: int, s: Sys, found: seq<Found>)
    requires Inv(s) && FoundOk(s, found)
    ensures var after := Rescanned(maxsize, s, found).0;
            Inv(after) && after.job == s.job && RowsOf(s, after, found)
  {
    if |found| > 0 {
      var init, last := found[..|found| - 1], found[|found| - 1];
      RescanKeeps(maxsize, s, init);
      var before := Rescanned(maxsize, s, init).0;
      StillSame(s, before, found);
      SubmitKeeps(maxsize, before, last);
      RowsGrow(maxsize, s, before, found);
    }
  }

  lemma StillSame(s: Sys, before: Sys, found: seq<Found>)
    requires |found| > 0 && FoundOk(s, found) && RowsOf(s, before, found[..|found| - 1])
    ensures found[|found| - 1].Loaded? ==> Proper(found[|found| - 1].m) && SameBatch(before, found[|found| - 1].m)
  {
    var last := found[|found| - 1];
    if last.Loaded? && last.m.batchId in before.batches {
      var id := last.m.batchId;
      if !(id in s.batches && before.batches[id] == s.batches[id]) {
        var j :| 0 <= j < |found| - 1 && found[j].Loaded?
          && found[j].m == Manifest(id, before.batches[id].folderDate, before.batches[id].segment);
        assert found[j].m == last.m;
      }
    }
  }

  lemma RowsGrow(maxsize: int, s: Sys, before: Sys, found: seq<Found>)
    requires |found| > 0 && RowsOf(s, before, found[..|found| - 1])
    ensures RowsOf(s, before, found) && RowsOf(s, Submitted(maxsize, before, found[|found| - 1]).0, found)
  {
    var last, after := found[|found| - 1], Submitted(maxsize, before, found[|found| - 1]).0;
    forall id | id in before.batches
      ensures || (id in s.batches && before.batches[id] == s.batches[id])
              || exists j ::
                   && 0 <= j < |found|
                   && found[j].Loaded?
                   && found[j].m == Manifest(id, before.batches[id].folderDate, before.batches[id].segment)
    {
      if !(id in s.batches && before.batches[id] == s.batches[id]) {
        var j :| 0 <= j < |found| - 1 && found[j].Loaded?
          && found[j].m == Manifest(id, before.batches[id].folderDate, before.batches[id].segment);
      }
    }
    forall id | id in after.batches && id !in before.batches
      ensures last.Loaded? && last.m == Manifest(id, after.batches[id].folderDate, after.batches[id].segment)
    {
    }
  }

  lemma SubmitGrows(maxsize: int, s: Sys, f: Found, id: string, key: string)
    ensures var after := Submitted(maxsize, s, f).0;
            && (key in s.q.inFlight ==> key in after.q.inFlight)
            && (id in s.batches ==> id in after.batches && after.batches[id] == s.batches[id])
  {
  }

  lemma {:induction false} RescanGuards(maxsize: int, s: Sys, found: seq<Found>, i: nat)
    requires i < |found| && found[i].Loaded? && !Rescanned(maxsize, s, found).1
    ensures var after := Rescanned(maxsize, s, found).0;
            && found[i].m.batchId in after.batches
            && (Recoverable(after.batches[found[i].m.batchId].status) ==>
                  Key(UploadTask(found[i].m)) in after.q.inFlight)
  {
    var before, last := Rescanned(maxsize, s, found[..|found| - 1]).0, found[|found| - 1];
    if i < |found| - 1 {
      RescanGuards(maxsize, s, found[..|found| - 1], i);
      SubmitGrows(maxsize, before, last, found[i].m.batchId, Key(UploadTask(found[i].m)));
    }
  }

  /** A rescan that is not cut short leaves every queued or uploading batch it saw in hand,
      except exactly the one whose finished task the worker is about to let go. */
  lemma RescanRecovers(maxsize: int, s: Sys, found: seq<Found>, i: nat)
    requires Inv(s) && FoundOk(s, found)
    requires i < |found| && found[i].Loaded? && !Rescanned(maxsize, s, found).1
    ensures var after, m := Rescanned(maxsize, s, found).0, found[i].m;
            && m.batchId in after.batches
            && (Recoverable(after.batches[m.batchId].status) ==>
                  (InHand(after, m.batchId) <==> !JustSettled(s, UploadTask(m))))
  {
    var after, m := Rescanned(maxsize, s, found).0, found[i].m;
    RescanKeeps(maxsize, s, found);
    RescanGuards(maxsize, s, found, i);
    if Recoverable(after.batches[m.batchId].status) {
      FoundHasItsRow(s, after, found, i);
      GuardMeansHeld(after, UploadTask(m));
      InHandMeans(after, UploadTask(m));
    }
  }

  /** The process may end at any time. The rows are all that is left, and a rescan that is not
      cut short puts every queued or uploading batch it finds back in hand, with no exception. */
  lemma RestartRecovers(maxsize: int, s: Sys, found: seq<Found>, i: nat)
    requires Inv(s) && FoundOk(After(maxsize, s, Restart), found)
    requires i < |found| && found[i].Loaded?
    ensures var up := After(maxsize, s, Restart);
            && up.batches == s.batches && (forall id :: !InHand(up, id))
            && (!Rescanned(maxsize, up, found).1 ==>
                  var after, id := Rescanned(maxsize, up, found).0, found[i].m.batchId;
                  id in after.batches && (Recoverable(after.batches[id].status) ==> InHand(after, id)))
  {
    var up := After(maxsize, s, Restart);
    StepKeeps(maxsize, s, Restart);
    if !Rescanned(maxsize, up, found).1 {
      RescanRecovers(maxsize, up, found, i);
    }
  }

  /** What the worker has concluded, or failed to write down, it does not conclude again: a
      further status comes only after another task was picked up. */
  lemma {:induction false} OneVerdictEach(maxsize: int, states: seq<Sys>, events: seq<Event>, j: nat, k: nat)
      returns (p: nat)
    requires IsRun(maxsize, states, events) && j < k < |events|
    requires events[j].Verdict? || events[j].VerdictLost?
    requires events[k].Verdict? || events[k].VerdictLost? || events[k].MarkUploading?
    ensures j < p < k && events[p].PickUp?
  {
    p := SettledUntilPickUp(maxsize, states, events, j, k);
  }

  lemma {:induction false} SettledUntilPickUp(maxsize: int, states: seq<Sys>, events: seq<Event>, j: nat, n: nat)
      returns (p: nat)
    requires IsRun(maxsize, states, events) && j < n < |states|
    requires events[j].Verdict? || events[j].VerdictLost?
    ensures Unsettled(states[n]) ==> j < p < n && events[p].PickUp?
  {
    p := 0;
    if n > j + 1 {
      p := SettledUntilPickUp(maxsize, states, events, j, n - 1);
      if events[n - 1].PickUp? {
        p := n - 1;
      }
    }
  }

  lemma FoundHasItsRow(s: Sys, after: Sys, found: seq<Found>, i: nat)
    requires FoundOk(s, found) && RowsOf(s, after, found) && i < |found| && found[i].Loaded?
    requires found[i].m.batchId in after.batches
    ensures SameBatch(after, found[i].m)
  {
    var id := found[i].m.batchId;
    if !(id in s.batches && after.batches[id] == s.batches[id]) {
      var j :| 0 <= j < |found| && found[j].Loaded?
        && found[j].m == Manifest(id, after.batches[id].folderDate, after.batches[id].segment);
      assert if i < j then found[i].m == found[j].m else if j < i then found[j].m == found[i].m else true;
    }
  }

  // ---- a proceed asked for again ----

  /** The slots of a force-proceed are always recorded. A task with them joins the queue
      exactly when none of this batch is held and there is room. Otherwise the request is
      answered as queued all the same, unless the queue is full, and the queue stays as it
      was; and when the worker is about to let go of a finished proceed task, that answer is
      given although no task is left at all. */
  lemma RepeatedProceedIsDropped(maxsize: int, s: Sys, id: string, slots: seq<string>)
    requires Inv(s) && id in s.batches && s.batches[id].status == Incomplete
    ensures var t := ProceedTask(id, s.batches[id], slots);
            var (after, r) := ProceedRequested(maxsize, s, id, slots);
            && after.batches == s.batches[id := s.batches[id].(proceedSlots := Some(slots))]
            && (r == ProceedQueued && after.q.waiting == s.q.waiting + [Work(t)] <==>
                  !Held(s, t) && HasRoom(maxsize, s.q))
            && (r == ProceedQueued && after.q == s.q <==> Held(s, t))
            && (r == ProceedQueued && !InHand(after, id) <==> JustSettled(s, t))
            && (r == ProceedQueueFull <==> !Held(s, t) && !HasRoom(maxsize, s.q))
  {
    var b := s.batches[id].(proceedSlots := Some(slots));
    var t, recorded := ProceedTask(id, b, slots), s.(batches := s.batches[id := b]);
    assert Proper(Manifest(id, b.folderDate, b.segment));
    RecordKeeps(s, id, slots);
    InHandMeans(recorded, t);
    EnqueueHeld(maxsize, recorded, t);
    assert s.q.waiting + [Work(t)] != s.q.waiting;
  }

  lemma RecordKeeps(s: Sys, id: string, slots: seq<string>)
    requires Inv(s) && id in s.batches
    ensures Inv(s.(batches := s.batches[id := s.batches[id].(proceedSlots := Some(slots))]))
  {
    var after := s.(batches := s.batches[id := s.batches[id].(proceedSlots := Some(slots))]);
    forall key ensures Holders(after, key) == One(key in after.q.inFlight) {
      assert Holders(s, key) == One(key in s.q.inFlight);
    }
  }

  // ---- runs that reach those states ----

  /** Plays events from a state; None when one is not enabled. */
  function Play(maxsize: int, s: Sys, events: seq<Event>): Option<Sys>
    decreases |events|
  {
    if |events| == 0 then Some(s)
    else if Enabled(maxsize, s, events[0]) then Play(maxsize, After(maxsize, s, events[0]), events[1..])
    else None
  }

  lemma {:induction false} PlayIsRun(maxsize: int, s: Sys, events: seq<Event>) returns (states: seq<Sys>)
    requires Play(maxsize, s, events).Some?
    ensures |states| == |events| + 1 && states[0] == s && states[|events|] == Play(maxsize, s, events).value
    ensures forall i ::
              0 <= i < |events| ==>
                Enabled(maxsize, states[i], events[i]) && states[i + 1] == After(maxsize, states[i], events[i])
    decreases |events|
  {
    if |events| == 0 {
      states := [s];
    } else {
      var rest := PlayIsRun(maxsize, After(maxsize, s, events[0]), events[1..]);
      states := [s] + rest;
      forall i | 0 <= i < |events|
        ensures Enabled(maxsize, states[i], events[i]) && states[i + 1] == After(maxsize, states[i], events[i]) {
        if i > 0 {
          assert events[1..][i - 1] == events[i];
        }
      }
    }
  }

  /** Played from the start, events are a run that ends where the play ends. */
  lemma PlayReaches(maxsize: int, events: seq<Event>)
    requires Play(maxsize, Start(), events).Some?
    ensures exists states ::
              IsRun(maxsize, states, events) && states[|events|] == Play(maxsize, Start(), events).value
  {
    hide Enabled, After;
    var states := PlayIsRun(maxsize, Start(), events);
    assert IsRun(maxsize, states, events);
  }

  const SAMPLE := Manifest("b1", "17-08-2026", "EQ")

  /** One batch in the table and one task of it held, waiting or with the worker. */
  function Sample(status: BatchStatus, slots: Option<seq<string>>, held: SegmentBatchTask, waiting: seq<Item>,
      job: Job): Sys {
    Sys(map["b1" := Batch("17-08-2026", "EQ", status, slots)], Shared({Key(held)}, waiting, |waiting| + One(job.Busy?)),
      job)
  }

  function SampleProceed(slots: seq<string>): SegmentBatchTask {
    SegmentBatchTask("17-08-2026", "EQ", Proceed, Some("b1"), slots)
  }

  lemma PlayStep(maxsize: int, s: Sys, events: seq<Event>, e: Event)
    requires Play(maxsize, s, events).Some? && Enabled(maxsize, Play(maxsize, s, events).value, e)
    ensures Play(maxsize, s, events + [e]) == Some(After(maxsize, Play(maxsize, s, events).value, e))
    decreases |events|
  {
    if |events| > 0 {
      PlayStep(maxsize, After(maxsize, s, events[0]), events[1..], e);
      assert (events + [e])[1..] == events[1..] + [e] && (events + [e])[0] == events[0];
    } else {
      assert (events + [e])[1..] == [];
    }
  }

  const TAKEN := [Submit(Loaded(SAMPLE, true)), PickUp]

  lemma SubmitFirst()
    ensures var e := Submit(Loaded(SAMPLE, true));
            Enabled(0, Start(), e)
              && After(0, Start(), e) == Sample(Queued, None, UploadTask(SAMPLE), [Work(UploadTask(SAMPLE))], Resting)
  {
    hide Key;
    var t := UploadTask(SAMPLE);
    assert Start().q.waiting + [Work(t)] == [Work(t)] && Start().q.inFlight + {Key(t)} == {Key(t)};
  }

  lemma PickUpOnly(status: BatchStatus, slots: Option<seq<string>>, t: SegmentBatchTask)
    ensures var s := Sample(status, slots, t, [Work(t)], Resting);
            Enabled(0, s, PickUp) && After(0, s, PickUp) == Sample(status, slots, t, [], Busy(t, false))
  {
    assert [Work(t)][1..] == [];
  }

  lemma ReachTaken()
    ensures Play(0, Start(), TAKEN)
              == Some(Sample(Queued, None, UploadTask(SAMPLE), [], Busy(UploadTask(SAMPLE), false)))
  {
    hide Key, Enabled, After;
    var first := [Submit(Loaded(SAMPLE, true))];
    SubmitFirst();
    PlayStep(0, Start(), [], Submit(Loaded(SAMPLE, true)));
    assert [] + first == first;
    PickUpOnly(Queued, None, UploadTask(SAMPLE));
    PlayStep(0, Start(), first, PickUp);
    assert first + [PickUp] == TAKEN;
  }

  const DEFERRED := TAKEN + [Verdict(Queued)]

  /** The window a rescan does not cover, on a run: the worker deferred the batch and has not
      let go yet. The rescan changes nothing, and once the worker lets go the batch is queued
      by status but in nobody's hand. */
  lemma RescanMissesSettled()
    ensures Play(0, Start(), DEFERRED).Some?
    ensures var s := Play(0, Start(), DEFERRED).value;
            && JustSettled(s, UploadTask(SAMPLE))
            && Rescanned(0, s, [Loaded(SAMPLE, true)]) == (s, false)
            && Enabled(0, s, PutDown)
            && var later := After(0, s, PutDown);
               later.batches["b1"].status == Queued && later.q == Shared({}, [], 0) && !InHand(later, "b1")
  {
    ReachTaken();
    PlayStep(0, Start(), TAKEN, Verdict(Queued));
    var s := Play(0, Start(), DEFERRED).value;
    assert s == Sample(Queued, None, UploadTask(SAMPLE), [], Busy(UploadTask(SAMPLE), true));
    assert [Loaded(SAMPLE, true)][..0] == [];
    assert Key(UploadTask(SAMPLE)) in s.q.inFlight;
  }

  const PARKED := TAKEN + [Verdict(Incomplete)] + [PutDown] + [RequestProceed("b1", ["81"])]

  lemma ParkAndProceed(t: SegmentBatchTask, slots: seq<string>)
    requires t == UploadTask(SAMPLE)
    ensures var s := Sample(Queued, None, t, [], Busy(t, false));
            && Enabled(0, s, Verdict(Incomplete)) && Enabled(0, After(0, s, Verdict(Incomplete)), PutDown)
            && After(0, After(0, After(0, s, Verdict(Incomplete)), PutDown), RequestProceed("b1", slots)) ==
               Sample(Incomplete, Some(slots), SampleProceed(slots), [Work(SampleProceed(slots))], Resting)
  {
    hide Key;
    var parked := After(0, After(0, Sample(Queued, None, t, [], Busy(t, false)), Verdict(Incomplete)), PutDown);
    assert parked.q.inFlight == {} && parked.q.unfinished == 0;
    assert parked.q.waiting + [Work(SampleProceed(slots))] == [Work(SampleProceed(slots))];
    assert parked.q.inFlight + {Key(SampleProceed(slots))} == {Key(SampleProceed(slots))};
  }

  lemma ReachParked()
    ensures Play(0, Start(), PARKED)
              == Some(Sample(Incomplete, Some(["81"]), SampleProceed(["81"]), [Work(SampleProceed(["81"]))], Resting))
  {
    ReachTaken();
    ParkAndProceed(UploadTask(SAMPLE), ["81"]);
    hide Key, Sample, After;
    PlayStep(0, Start(), TAKEN, Verdict(Incomplete));
    PlayStep(0, Start(), TAKEN + [Verdict(Incomplete)], PutDown);
    PlayStep(0, Start(), TAKEN + [Verdict(Incomplete)] + [PutDown], RequestProceed("b1", ["81"]));
  }

  /** A dropped request, on a run: ops name slot 81, then slot 97 before the worker gets to
      it. Both are answered as queued and the row says 97, but the one task says 81. */
  lemma SecondProceedDropped()
    ensures Play(0, Start(), PARKED).Some?
    ensures var (after, r) := ProceedRequested(0, Play(0, Start(), PARKED).value, "b1", ["97"]);
            && r == ProceedQueued && after.batches["b1"].proceedSlots == Some(["97"])
            && after.q.waiting == [Work(SampleProceed(["81"]))]
  {
    ReachParked();
    assert Key(SampleProceed(["97"])) == Key(SampleProceed(["81"]));
  }

  /** A lost request, on a run: slot 97 is named after the proceed of slot 81 has parked the
      batch again but before the worker lets go. It is answered as queued, and no task for it
      exists then or once the worker has let go. */
  lemma LateProceedLost()
    ensures Play(0, Start(), PARKED + [PickUp] + [Verdict(Incomplete)]).Some?
    ensures var (after, r) :=
              ProceedRequested(0, Play(0, Start(), PARKED + [PickUp] + [Verdict(Incomplete)]).value, "b1", ["97"]);
            && r == ProceedQueued && after.batches["b1"].proceedSlots == Some(["97"])
            && after.q.waiting == [] && !InHand(after, "b1") && Enabled(0, after, PutDown)
            && After(0, after, PutDown).q == Shared({}, [], 0) && !InHand(After(0, after, PutDown), "b1")
  {
    ReachParked();
    PlayStep(0, Start(), PARKED, PickUp);
    PlayStep(0, Start(), PARKED + [PickUp], Verdict(Incomplete));
    assert Key(SampleProceed(["97"])) == Key(SampleProceed(["81"]));
  }
}
