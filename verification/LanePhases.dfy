/** The two phases of the upload lane: every file is offered and its chunks sent, and
    only then is any file registered and the run closed. */
module LanePhases {
  import opened Text
  import opened FileService
  import opened UploadOutcome
  import opened UploadedFileRepository
  import opened CbosClient
  import opened UploadMatching
  import opened LaneState

  /** An acknowledged registration of this file was made in this run. */
  ghost predicate Acked(run: Run, w: World, p: Path) {
    exists i :: InTrace(run, w, i) && Acknowledged(w.trace[i]) && w.trace[i].file == p
  }

  ghost predicate Unregistered(trace: seq<Call>, key: FileKey) {
    forall i :: 0 <= i < |trace| && Acknowledged(trace[i]) ==> CallKey(trace[i]) != key
  }

  ghost predicate RegisteredSlot(run: Run, w: World, uploadId: string) {
    exists i :: InTrace(run, w, i) && Acknowledged(w.trace[i]) && w.trace[i].uploadId == uploadId
  }

  ghost predicate SkippedSlot(run: Run, w: World, uploadId: string) {
    exists i :: InRun(run, w, i) && w.log[i].outcome.kind == IdempotentSkip && w.log[i].uploadId == Some(uploadId)
  }

  /** The filled UploadIDs are exactly those with a witness: a registration acknowledged in
      this run, or a file skipped because it, or its slot, is already in CBOS. */
  ghost predicate FilledExactly(run: Run, w: World, filled: set<string>) {
    forall u :: u in filled <==> RegisteredSlot(run, w, u) || SkippedSlot(run, w, u)
  }

  /** Since then nothing was registered and nothing skipped. */
  ghost predicate NothingFilled(w: World, after: World) {
    && w.trace <= after.trace && w.log <= after.log
    && (forall i :: |w.trace| <= i < |after.trace| ==> !Acknowledged(after.trace[i]))
    && forall i :: |w.log| <= i < |after.log| ==> after.log[i].outcome.kind != IdempotentSkip
  }

  /** What is filled once this file has left with this outcome. */
  function FilledBy(o: FileOutcome, uploadId: Option<string>, filled: set<string>): set<string> {
    if o.kind == IdempotentSkip && uploadId.Some? then filled + {uploadId.value} else filled
  }

  // ---- the offering phase: Step 5 only ----

  ghost predicate OnlyChunks(run: Run, w: World) {
    forall i :: InTrace(run, w, i) ==> w.trace[i].Chunk?
  }

  ghost predicate NoneConfirmed(run: Run, w: World) {
    forall i :: InRun(run, w, i) ==> w.log[i].outcome.kind in {Rejected, CallFailed, IdempotentSkip}
  }

  ghost predicate WasUploaded(run: Run, w: World, r: nat) {
    r < |run.before.rows| && run.before.rows[r].status == Uploaded
  }

  /** A row is 'uploaded' because it was so before, or for a file already offered. */
  ghost predicate UploadsKnown(run: Run, w: World, k: nat) {
    forall r :: 0 <= r < |w.rows| && w.rows[r].status == Uploaded ==>
      WasUploaded(run, w, r) || IsListedName(run, k, w.rows[r].fileName)
  }

  ghost predicate IsListedName(run: Run, k: nat, name: string) {
    exists m :: 0 <= m < k && m < |run.listed| && |run.listed[m].path| >= 2 && Name(run.listed[m].path) == name
  }

  ghost predicate NoneRegistered(run: Run, w: World, all: seq<Attempt>) {
    forall i :: 0 <= i < |all| ==> Unregistered(w.trace, AttemptKey(run.task, all[i]))
  }

  /** No open file has its 'uploaded' row yet. */
  ghost predicate Unrecorded(run: Run, w: World, all: seq<Attempt>) {
    forall i :: 0 <= i < |all| ==> !HasCompleted(w.rows, AttemptKey(run.task, all[i]))
  }

  ghost predicate Offering(run: Run, w: World, k: nat, all: seq<Attempt>, filled: set<string>) {
    && k <= |run.listed| && Base(run, w, k, all)
    && OnlyChunks(run, w) && NoneConfirmed(run, w) && UploadsKnown(run, w, k)
    && NoneRegistered(run, w, all) && Unrecorded(run, w, all) && FilledExactly(run, w, filled)
  }

  /** A pending row completes nothing, so writing one completes nothing either. */
  lemma RowStepCompletesNothing(w: World, after: World, id: nat, file: Path, key: FileKey)
    requires RowStep(w, after, id, file) && after.rows[id].status == Pending && HasCompleted(after.rows, key)
    ensures HasCompleted(w.rows, key)
  {
    var r :| 0 <= r < |after.rows| && Completed(after.rows[r], key);
    assert r != id && w.rows[r] == after.rows[r];
  }

  /** A file that leaves completes no other name. */
  lemma LeavingCompletesNoOther(w: World, after: World, id: nat, file: Path, o: FileOutcome, skip: Option<SkipReason>,
      key: FileKey)
    requires OutcomeStep(w, after, id, file, o, skip) && w.rows[id].fileName != key.fileName
    requires HasCompleted(after.rows, key)
    ensures HasCompleted(w.rows, key)
  {
    var r :| 0 <= r < |after.rows| && Completed(after.rows[r], key);
    assert r != id && Completed(w.rows[r], key);
  }

  lemma EarlierNameDiffers(run: Run, k: nat, p: Path)
    requires RunOk(run) && k < |run.listed| && IsListed(run, k, p)
    ensures BaseName(p) != Name(run.listed[k].path) && p != run.listed[k].path
  {
  }

  lemma RowStepKeepsUnrecorded(run: Run, w: World, after: World, k: nat, all: seq<Attempt>, id: nat)
    requires Unrecorded(run, w, all) && k < |run.listed| && RowStep(w, after, id, run.listed[k].path)
    requires after.rows[id].status == Pending
    ensures Unrecorded(run, after, all)
  {
    hide RowStep, HasCompleted;
    forall i | 0 <= i < |all| ensures !HasCompleted(after.rows, AttemptKey(run.task, all[i])) {
      if HasCompleted(after.rows, AttemptKey(run.task, all[i])) {
        RowStepCompletesNothing(w, after, id, run.listed[k].path, AttemptKey(run.task, all[i]));
      }
    }
  }

  lemma SettlingKeepsUnrecorded(run: Run, w: World, after: World, k: nat, all: seq<Attempt>, id: nat, o: FileOutcome,
      skip: Option<SkipReason>)
    requires RunOk(run) && AttemptsOk(run, w, k, all) && Unrecorded(run, w, all)
    requires Offered(run, w, k, id) && StatusFits(w.rows[id])
    requires OutcomeStep(w, after, id, run.listed[k].path, o, skip)
    ensures Unrecorded(run, after, all)
  {
    hide OutcomeStep, HasCompleted, RunOk;
    forall i | 0 <= i < |all| ensures !HasCompleted(after.rows, AttemptKey(run.task, all[i])) {
      assert AttemptOk(run, w, k, all[i]);
      EarlierNameDiffers(run, k, all[i].file);
      if HasCompleted(after.rows, AttemptKey(run.task, all[i])) {
        LeavingCompletesNoOther(w, after, id, run.listed[k].path, o, skip, AttemptKey(run.task, all[i]));
      }
    }
  }

  lemma RunStarts(run: Run)
    requires RunOk(run)
    ensures Offering(run, run.before, 0, [], {})
  {
  }

  lemma FilledStays(run: Run, w: World, after: World, filled: set<string>)
    requires FilledExactly(run, w, filled) && NothingFilled(w, after)
    ensures FilledExactly(run, after, filled)
  {
    forall u ensures RegisteredSlot(run, after, u) <==> RegisteredSlot(run, w, u) {
      SlotStays(run, w, after, u);
    }
    forall u ensures SkippedSlot(run, after, u) <==> SkippedSlot(run, w, u) {
      SkipStays(run, w, after, u);
    }
    hide RegisteredSlot, SkippedSlot;
  }

  lemma SlotStays(run: Run, w: World, after: World, u: string)
    requires NothingFilled(w, after)
    ensures RegisteredSlot(run, after, u) <==> RegisteredSlot(run, w, u)
  {
    if i :| InTrace(run, w, i) && Acknowledged(w.trace[i]) && w.trace[i].uploadId == u {
      assert InTrace(run, after, i) && after.trace[i] == w.trace[i];
    }
    if i :| InTrace(run, after, i) && Acknowledged(after.trace[i]) && after.trace[i].uploadId == u {
      assert InTrace(run, w, i) && after.trace[i] == w.trace[i];
    }
  }

  lemma SkipStays(run: Run, w: World, after: World, u: string)
    requires NothingFilled(w, after)
    ensures SkippedSlot(run, after, u) <==> SkippedSlot(run, w, u)
  {
    if i :| InRun(run, w, i) && w.log[i].outcome.kind == IdempotentSkip && w.log[i].uploadId == Some(u) {
      assert InRun(run, after, i) && after.log[i] == w.log[i];
    }
    if i :| InRun(run, after, i) && after.log[i].outcome.kind == IdempotentSkip && after.log[i].uploadId == Some(u) {
      assert InRun(run, w, i) && after.log[i] == w.log[i];
    }
  }

  /** The file that just left fills its slot exactly when it was skipped. */
  lemma SettlingFills(run: Run, w: World, after: World, id: nat, file: Path, o: FileOutcome, skip: Option<SkipReason>,
      filled: set<string>)
    requires FilledExactly(run, w, filled) && |run.before.log| <= |w.log|
    requires OutcomeStep(w, after, id, file, o, skip)
    ensures FilledExactly(run, after, FilledBy(o, w.rows[id].uploadId, filled))
  {
    var more := FilledBy(o, w.rows[id].uploadId, filled);
    forall u ensures u in more <==> RegisteredSlot(run, after, u) || SkippedSlot(run, after, u) {
      SettlingFillsOne(run, w, after, id, file, o, skip, u);
      assert RegisteredSlot(run, after, u) <==> RegisteredSlot(run, w, u);
    }
  }

  lemma SettlingFillsOne(run: Run, w: World, after: World, id: nat, file: Path, o: FileOutcome,
      skip: Option<SkipReason>, u: string)
    requires OutcomeStep(w, after, id, file, o, skip) && |run.before.log| <= |w.log|
    ensures SkippedSlot(run, after, u) <==>
              SkippedSlot(run, w, u) || (o.kind == IdempotentSkip && w.rows[id].uploadId == Some(u))
    ensures RegisteredSlot(run, after, u) <==> RegisteredSlot(run, w, u)
  {
    if i :| InRun(run, w, i) && w.log[i].outcome.kind == IdempotentSkip && w.log[i].uploadId == Some(u) {
      assert InRun(run, after, i) && after.log[i] == w.log[i];
    }
    if i :| InRun(run, after, i) && after.log[i].outcome.kind == IdempotentSkip && after.log[i].uploadId == Some(u) {
      assert i < |w.log| ==> InRun(run, w, i) && after.log[i] == w.log[i];
    }
    if o.kind == IdempotentSkip && w.rows[id].uploadId == Some(u) {
      assert InRun(run, after, |w.log|);
    }
    assert after.trace == w.trace;
  }

  lemma RowStepKeepsOffering(run: Run, w: World, after: World, k: nat, all: seq<Attempt>, filled: set<string>, id: nat)
    requires RunOk(run) && Offering(run, w, k, all, filled) && k < |run.listed|
    requires RowStep(w, after, id, run.listed[k].path)
    requires TableOk(after.rows) && Offered(run, after, k, id)
    requires after.rows[id].fileName == Name(run.listed[k].path)
    ensures Offering(run, after, k, all, filled)
  {
    hide ToSend, AllExplained, RefusedUnder, AnsweredUnder, GaveUp;
    RowStepKeepsBase(run, w, after, k, all, id);
    RowStepKeepsUnrecorded(run, w, after, k, all, id);
    forall r | 0 <= r < |after.rows| && after.rows[r].status == Uploaded
      ensures WasUploaded(run, after, r) || IsListedName(run, k, after.rows[r].fileName)
    {
      assert w.rows[r].status == Uploaded;
      assert WasUploaded(run, w, r) || IsListedName(run, k, w.rows[r].fileName);
    }
    forall i | InRun(run, after, i) ensures after.log[i].outcome.kind in {Rejected, CallFailed, IdempotentSkip} {
      assert InRun(run, w, i);
    }
    forall i | InTrace(run, after, i) ensures after.trace[i].Chunk? {
      assert InTrace(run, w, i);
    }
    FilledStays(run, w, after, filled);
  }

  lemma ChunkStepKeepsOffering(run: Run, w: World, after: World, k: nat, all: seq<Attempt>, filled: set<string>,
      guid: nat)
    requires RunOk(run) && Offering(run, w, k, all, filled) && ChunkStep(w, after, guid)
    requires forall i :: 0 <= i < |all| ==> all[i].guid != guid
    ensures Offering(run, after, k, all, filled)
  {
    hide ToSend, AllExplained, RefusedUnder, AnsweredUnder, GaveUp;
    ChunkStepKeepsBase(run, w, after, k, all, guid);
    forall i | InTrace(run, after, i) ensures after.trace[i].Chunk? {
      assert i < |w.trace| ==> InTrace(run, w, i);
    }
    forall i | InRun(run, after, i) ensures after.log[i].outcome.kind in {Rejected, CallFailed, IdempotentSkip} {
      assert InRun(run, w, i);
    }
    forall r | 0 <= r < |after.rows| && after.rows[r].status == Uploaded
      ensures WasUploaded(run, after, r) || IsListedName(run, k, after.rows[r].fileName)
    {
      assert WasUploaded(run, w, r) || IsListedName(run, k, w.rows[r].fileName);
    }
    FilledStays(run, w, after, filled);
  }

  /** Rejected, failed or skipped: the offered file is settled. */
  lemma SettleOffered(run: Run, w: World, after: World, k: nat, all: seq<Attempt>, filled: set<string>, id: nat,
      o: FileOutcome, skip: Option<SkipReason>)
    requires RunOk(run) && Offering(run, w, k, all, filled) && Offered(run, w, k, id)
    requires Produced(o) && o.kind in {Rejected, CallFailed, IdempotentSkip}
    requires OutcomeStep(w, after, id, run.listed[k].path, o, skip)
    requires TableOk(after.rows) && Explained(run, after, after.log[|w.log|])
    ensures Offering(run, after, k + 1, all, FilledBy(o, w.rows[id].uploadId, filled))
  {
    hide ToSend, AllExplained, RefusedUnder, AnsweredUnder, GaveUp, Explained;
    OfferedLeaves(run, w, after, k, all, id, o, skip);
    assert StatusFits(w.rows[id]) && w.trace == after.trace;
    UploadsKnownAfter(run, w, after, k, id, o, skip);
    SettlingKeepsUnrecorded(run, w, after, k, all, id, o, skip);
    SettlingKeepsKinds(run, w, after, id, run.listed[k].path, o, skip);
    SettlingFills(run, w, after, id, run.listed[k].path, o, skip, filled);
  }

  /** More of the same: only chunk calls, and no confirmed file. */
  lemma SettlingKeepsKinds(run: Run, w: World, after: World, id: nat, file: Path, o: FileOutcome,
      skip: Option<SkipReason>)
    requires OnlyChunks(run, w) && NoneConfirmed(run, w) && |run.before.log| <= |w.log|
    requires OutcomeStep(w, after, id, file, o, skip) && o.kind in {Rejected, CallFailed, IdempotentSkip}
    ensures OnlyChunks(run, after) && NoneConfirmed(run, after)
  {
    forall i | InRun(run, after, i) ensures after.log[i].outcome.kind in {Rejected, CallFailed, IdempotentSkip} {
      assert i < |w.log| ==> InRun(run, w, i) && after.log[i] == w.log[i];
    }
    forall i | InTrace(run, after, i) ensures after.trace[i].Chunk? {
      assert InTrace(run, w, i);
    }
  }

  lemma UploadsKnownAfter(run: Run, w: World, after: World, k: nat, id: nat, o: FileOutcome, skip: Option<SkipReason>)
    requires UploadsKnown(run, w, k) && Offered(run, w, k, id) && StatusAgrees(w.rows)
    requires OutcomeStep(w, after, id, run.listed[k].path, o, skip)
    ensures UploadsKnown(run, after, k + 1)
  {
  }

  /** No 'uploaded' row for this file means no acknowledged registration of it, ever. */
  lemma NotCompletedNotRegistered(run: Run, w: World, k: nat, all: seq<Attempt>, filled: set<string>, key: FileKey)
    requires RunOk(run) && Offering(run, w, k, all, filled)
    requires !HasCompleted(w.rows, key)
    ensures Unregistered(w.trace, key)
  {
    forall i | 0 <= i < |w.trace| && Acknowledged(w.trace[i]) ensures CallKey(w.trace[i]) != key {
      if i < |run.before.trace| {
        assert w.trace[i] == run.before.trace[i];
        CompletedStays(run.before.rows, w.rows, CallKey(w.trace[i]));
      } else {
        assert InTrace(run, w, i);
      }
    }
  }

  /** A completed row found now was completed before the run: names in a batch differ. */
  lemma CompletedIsEarlier(run: Run, w: World, k: nat, all: seq<Attempt>, filled: set<string>, r: nat, key: FileKey)
    requires RunOk(run) && Offering(run, w, k, all, filled) && k < |run.listed|
    requires r < |w.rows| && Completed(w.rows[r], key) && key.fileName == Name(run.listed[k].path)
    ensures r < |run.before.rows| && Completed(run.before.rows[r], key)
  {
    assert !IsListedName(run, k, key.fileName);
    assert WasUploaded(run, w, r);
  }

  lemma OpenOffered(run: Run, w: World, k: nat, all: seq<Attempt>, filled: set<string>, a: Attempt)
    requires RunOk(run) && Offering(run, w, k, all, filled) && Offered(run, w, k, a.row)
    requires a.file == run.listed[k].path && w.rows[a.row].uploadId == Some(a.uploadId)
    requires w.rows[a.row].guid == Some(a.guid)
    requires ToSend(run, a.file, Some(a.uploadId))
    requires run.before.nextGuid <= a.guid < w.nextGuid
    requires forall i :: 0 <= i < |all| ==> all[i].guid != a.guid
    requires ServerHolds(w.store, a.guid, a.sentName, run.before.files[a.file]) && !GaveUp(w.trace, a.guid, run.limit)
    requires SentAs(run, a.file, a.sentName)
    requires ExpectedSlot(run.candidates, a.uploadId)
    requires Unregistered(w.trace, AttemptKey(run.task, a)) && !HasCompleted(w.rows, AttemptKey(run.task, a))
    ensures Offering(run, w, k + 1, all + [a], filled)
  {
    hide ToSend, AllExplained, RefusedUnder, AnsweredUnder, GaveUp;
    OfferedOpens(run, w, k, all, a);
    forall r | 0 <= r < |w.rows| && w.rows[r].status == Uploaded
      ensures WasUploaded(run, w, r) || IsListedName(run, k + 1, w.rows[r].fileName)
    {
      assert WasUploaded(run, w, r) || IsListedName(run, k, w.rows[r].fileName);
    }
  }

  // ---- the closing phase: Step 7 only, then every file leaves ----

  /** No Step 7 of the run precedes a Step 5 of the run. */
  ghost predicate ChunksFirst(run: Run, w: World) {
    forall i, j :: InTrace(run, w, i) && InTrace(run, w, j) && i < j && w.trace[i].Register? ==> !w.trace[j].Chunk?
  }

  /** A Step 7 carries the GUID and name under which the server holds the whole file, the
      name being the file's own or a rewrite of it, and no chunk of that upload was given up. */
  ghost predicate Backed(run: Run, w: World, c: Call)
    requires c.Register?
  {
    && c.segment == run.task.segment && c.folderDate == run.task.folderDate
    && IsListed(run, |run.listed|, c.file) && c.file in run.before.files
    && ServerHolds(w.store, c.guid, c.name, run.before.files[c.file]) && SentAs(run, c.file, c.name)
    && !GaveUp(w.trace, c.guid, run.limit)
    && ExpectedSlot(run.candidates, c.uploadId)
  }

  ghost predicate AllBacked(run: Run, w: World) {
    forall i :: InTrace(run, w, i) && w.trace[i].Register? ==> Backed(run, w, w.trace[i])
  }

  /** In uploaded/ exactly when registered in this run or skipped as already there. */
  ghost predicate OutcomesMatch(run: Run, w: World) {
    forall i :: InRun(run, w, i) ==>
      (Acked(run, w, w.log[i].src) <==> w.log[i].outcome.kind in {Confirmed, GateParked})
  }

  ghost predicate OpenLedger(run: Run, w: World, all: seq<Attempt>, n: nat) {
    forall i :: 0 <= i < |w.trace| && Acknowledged(w.trace[i]) ==>
      HasCompleted(w.rows, CallKey(w.trace[i])) || SentKey(run, all, n, CallKey(w.trace[i]))
  }

  ghost predicate SentKey(run: Run, all: seq<Attempt>, n: nat, key: FileKey) {
    exists j :: n <= j < |all| && AttemptKey(run.task, all[j]) == key
  }

  ghost predicate GuidUnused(trace: seq<Call>, guid: nat) {
    forall i :: 0 <= i < |trace| && trace[i].Register? ==> trace[i].guid != guid
  }

  ghost predicate Waits(run: Run, w: World, a: Attempt) {
    Unregistered(w.trace, AttemptKey(run.task, a)) && GuidUnused(w.trace, a.guid) && !Acked(run, w, a.file)
  }

  /** Step 7 for this open file. */
  function RegisterCall(run: Run, a: Attempt, ok: bool): Call {
    Register(a.guid, a.sentName, a.uploadId, a.file, run.task.segment, run.task.folderDate, ok)
  }

  ghost predicate Sent(run: Run, w: World, a: Attempt) {
    exists i :: InTrace(run, w, i) && w.trace[i] == RegisterCall(run, a, true)
  }

  lemma SentMeans(run: Run, w: World, a: Attempt)
    requires Sent(run, w, a)
    ensures Acked(run, w, a.file) && AnsweredUnder(run, w, Some(a.guid), true)
  {
  }

  lemma SentStays(run: Run, w: World, after: World, a: Attempt)
    requires Sent(run, w, a) && w.trace <= after.trace
    ensures Sent(run, after, a)
  {
    var i :| InTrace(run, w, i) && w.trace[i] == RegisterCall(run, a, true);
    assert InTrace(run, after, i) && after.trace[i] == w.trace[i];
  }

  lemma WaitsStays(run: Run, w: World, after: World, a: Attempt)
    requires Waits(run, w, a) && after.trace == w.trace
    ensures Waits(run, after, a)
  {
  }

  /** The first n open files wait for Step 7; the others have been acknowledged. */
  ghost predicate Queue(run: Run, w: World, all: seq<Attempt>, n: nat) {
    && n <= |all|
    && (forall i :: 0 <= i < n ==> Waits(run, w, all[i]))
    && forall i :: n <= i < |all| ==> Sent(run, w, all[i])
  }

  ghost predicate Closing(run: Run, w: World, all: seq<Attempt>, n: nat, filled: set<string>) {
    && Base(run, w, |run.listed|, all)
    && RegisteredOnce(w.trace) && GuidsOnce(w.trace)
    && ChunksFirst(run, w) && AllBacked(run, w) && OutcomesMatch(run, w)
    && OpenLedger(run, w, all, n) && Queue(run, w, all, n) && Unrecorded(run, w, all)
    && FilledExactly(run, w, filled)
  }

  lemma OfferingEnds(run: Run, w: World, all: seq<Attempt>, filled: set<string>)
    requires RunOk(run) && Offering(run, w, |run.listed|, all, filled)
    ensures Closing(run, w, all, |all|, filled)
  {
    hide ToSend, AllExplained, RefusedUnder, AnsweredUnder, GaveUp, TableOk, StatusAgrees, HasCompleted, KeepsUploaded;
    CutOffWhileOffering(run, w, |run.listed|, all, filled);
    forall i | 0 <= i < |w.trace| && w.trace[i].Register?
      ensures i < |run.before.trace| && w.trace[i] == run.before.trace[i] {
    }
    forall i | 0 <= i < |all| ensures GuidUnused(w.trace, all[i].guid) {
      assert AttemptOk(run, w, |run.listed|, all[i]);
    }
  }

  /** The Step 7 call for the first waiting file. */
  ghost predicate RegisterStep(run: Run, w: World, after: World, a: Attempt, ok: bool) {
    after == w.(trace := w.trace + [RegisterCall(run, a, ok)])
  }

  lemma RegisterKeepsOnce(run: Run, w: World, after: World, all: seq<Attempt>, n: nat, filled: set<string>, ok: bool)
    requires RunOk(run) && Closing(run, w, all, n, filled) && n > 0 && RegisterStep(run, w, after, all[0], ok)
    ensures RegisteredOnce(after.trace) && GuidsOnce(after.trace)
  {
    hide Base, ChunksFirst, AllBacked, OutcomesMatch, OpenLedger, Unrecorded, FilledExactly, RunOk, Acked;
    assert Waits(run, w, all[0]);
  }

  lemma RegisterKeepsCalls(run: Run, w: World, after: World, all: seq<Attempt>, n: nat, filled: set<string>, ok: bool)
    requires RunOk(run) && Closing(run, w, all, n, filled) && n > 0 && RegisterStep(run, w, after, all[0], ok)
    ensures RegisteredOnce(after.trace) && GuidsOnce(after.trace) && ChunksFirst(run, after) && AllBacked(run, after)
  {
    RegisterKeepsOnce(run, w, after, all, n, filled, ok);
    hide RegisteredOnce, GuidsOnce, ChunksFirst, AllBacked, Unrecorded, Base;
    FirstOpen(run, w, all);
    RegisterKeepsBacked(run, w, after, all[0], ok);
    RegisterKeepsChunksFirst(run, w, after, all[0], ok);
  }

  lemma RegisterKeepsBacked(run: Run, w: World, after: World, a: Attempt, ok: bool)
    requires AllBacked(run, w) && AttemptOk(run, w, |run.listed|, a) && RegisterStep(run, w, after, a, ok)
    ensures AllBacked(run, after)
  {
    hide ToSend, GaveUp, IsListed, ExpectedSlot, ServerHolds;
    forall i | InTrace(run, after, i) && after.trace[i].Register? ensures Backed(run, after, after.trace[i]) {
      GaveUpGrows(w.trace, after.trace, after.trace[i].guid, run.limit);
      if i < |w.trace| {
        assert InTrace(run, w, i) && Backed(run, w, w.trace[i]);
      }
    }
  }

  lemma RegisterKeepsChunksFirst(run: Run, w: World, after: World, a: Attempt, ok: bool)
    requires ChunksFirst(run, w) && RegisterStep(run, w, after, a, ok)
    ensures ChunksFirst(run, after)
  {
    forall i, j | InTrace(run, after, i) && InTrace(run, after, j) && i < j && after.trace[i].Register?
      ensures !after.trace[j].Chunk? {
      if j < |w.trace| {
        assert InTrace(run, w, i) && InTrace(run, w, j);
      }
    }
  }

  lemma AckedAfterRegister(run: Run, w: World, after: World, a: Attempt, ok: bool, p: Path)
    requires Grown(run, w) && RegisterStep(run, w, after, a, ok)
    ensures Acked(run, after, p) <==> Acked(run, w, p) || (ok && p == a.file)
  {
    if Acked(run, w, p) {
      var i :| InTrace(run, w, i) && Acknowledged(w.trace[i]) && w.trace[i].file == p;
      assert InTrace(run, after, i) && after.trace[i] == w.trace[i];
    }
    if ok && p == a.file {
      assert InTrace(run, after, |w.trace|);
    }
    if Acked(run, after, p) {
      var i :| InTrace(run, after, i) && Acknowledged(after.trace[i]) && after.trace[i].file == p;
      assert i < |w.trace| ==> InTrace(run, w, i);
    }
  }

  lemma OpenIsNotLogged(run: Run, w: World, k: nat, all: seq<Attempt>, j: nat, i: int)
    requires Base(run, w, k, all) && j < |all| && InRun(run, w, i)
    ensures w.log[i].src != all[j].file
  {
  }

  lemma OutcomesAfterRegister(run: Run, w: World, after: World, all: seq<Attempt>, n: nat, filled: set<string>,
      ok: bool)
    requires RunOk(run) && Closing(run, w, all, n, filled) && n > 0 && RegisterStep(run, w, after, all[0], ok)
    ensures OutcomesMatch(run, after)
  {
    hide ToSend, AllExplained, RefusedUnder, AnsweredUnder, GaveUp;
    forall i | InRun(run, after, i)
      ensures Acked(run, after, after.log[i].src) <==> after.log[i].outcome.kind in {Confirmed, GateParked}
    {
      assert InRun(run, w, i);
      OpenIsNotLogged(run, w, |run.listed|, all, 0, i);
      AckedAfterRegister(run, w, after, all[0], ok, after.log[i].src);
    }
  }

  lemma WaitingAfterRegister(run: Run, w: World, after: World, all: seq<Attempt>, n: nat, filled: set<string>, ok: bool,
      i: nat)
    requires RunOk(run) && Closing(run, w, all, n, filled) && 0 < i < |all| && n > 0
    requires RegisterStep(run, w, after, all[0], ok)
    ensures i < n ==> Waits(run, after, all[i])
    ensures i >= n ==> Sent(run, after, all[i])
  {
    hide ToSend, AllExplained, RefusedUnder, AnsweredUnder, GaveUp;
    if i >= n {
      SentStays(run, w, after, all[i]);
    }
    AckedAfterRegister(run, w, after, all[0], ok, all[i].file);
    assert AttemptOk(run, w, |run.listed|, all[i]) && AttemptOk(run, w, |run.listed|, all[0]);
    NamesDiffer(run, all[0].file, all[i].file);
  }

  lemma NamesDiffer(run: Run, p: Path, q: Path)
    requires RunOk(run) && IsListed(run, |run.listed|, p) && IsListed(run, |run.listed|, q) && p != q
    ensures BaseName(p) != BaseName(q)
  {
  }

  lemma AckedKeepsOne(run: Run, w: World, after: World, all: seq<Attempt>, n: nat, filled: set<string>, i: nat)
    requires RunOk(run) && Closing(run, w, all, n, filled)
    requires 0 < n <= |all| && 0 < i < |all| && RegisterStep(run, w, after, all[0], true)
    ensures if i < n then Waits(run, after, all[i]) else Sent(run, after, all[i])
  {
    WaitingAfterRegister(run, w, after, all, n, filled, true, i);
  }

  lemma FirstIsAcked(run: Run, w: World, after: World, a: Attempt)
    requires Grown(run, w) && RegisterStep(run, w, after, a, true)
    ensures Sent(run, after, a)
  {
    assert InTrace(run, after, |w.trace|);
  }

  lemma AckedKeepsQueue(run: Run, w: World, after: World, all: seq<Attempt>, n: nat, filled: set<string>)
    requires 0 < n <= |all| && RegisterStep(run, w, after, all[0], true)
    requires RunOk(run) && Closing(run, w, all, n, filled) && Grown(run, w)
    ensures Queue(run, after, all[1..] + [all[0]], n - 1)
  {
    hide Closing, RunOk, Sent, Waits, RegisterStep, Grown;
    var rest := all[1..] + [all[0]];
    FirstIsAcked(run, w, after, all[0]);
    forall i | 0 <= i < |rest|
      ensures if i < n - 1 then Waits(run, after, rest[i]) else Sent(run, after, rest[i])
    {
      if i < |all| - 1 {
        assert rest[i] == all[i + 1];
        AckedKeepsOne(run, w, after, all, n, filled, i + 1);
      }
    }
  }

  lemma AckedKeepsLedger(run: Run, w: World, after: World, all: seq<Attempt>, n: nat)
    requires OpenLedger(run, w, all, n) && 0 < n <= |all| && RegisterStep(run, w, after, all[0], true)
    ensures OpenLedger(run, after, all[1..] + [all[0]], n - 1)
  {
    var rest := all[1..] + [all[0]];
    forall i | 0 <= i < |after.trace| && Acknowledged(after.trace[i])
      ensures HasCompleted(after.rows, CallKey(after.trace[i])) || SentKey(run, rest, n - 1, CallKey(after.trace[i]))
    {
      var key := CallKey(after.trace[i]);
      if i == |w.trace| {
        assert AttemptKey(run.task, rest[|all| - 1]) == key;
      } else if !HasCompleted(w.rows, key) {
        var j :| n <= j < |all| && AttemptKey(run.task, all[j]) == key;
        assert rest[j - 1] == all[j];
      }
    }
  }

  lemma RotateKeepsUnrecorded(run: Run, w: World, after: World, all: seq<Attempt>)
    requires Unrecorded(run, w, all) && |all| > 0 && after.rows == w.rows
    ensures Unrecorded(run, after, all[1..] + [all[0]])
  {
    hide HasCompleted;
    var rest := all[1..] + [all[0]];
    forall i | 0 <= i < |rest| ensures !HasCompleted(after.rows, AttemptKey(run.task, rest[i])) {
      assert rest[i] == all[if i < |all| - 1 then i + 1 else 0];
    }
  }

  /** Acknowledged: the file moves from waiting to sent, and its slot is filled. */
  lemma RegisterAcked(run: Run, w: World, after: World, all: seq<Attempt>, n: nat, filled: set<string>)
    requires RunOk(run) && Closing(run, w, all, n, filled) && n > 0 && RegisterStep(run, w, after, all[0], true)
    ensures Closing(run, after, all[1..] + [all[0]], n - 1, filled + {all[0].uploadId})
  {
    hide Base, RunOk, RegisteredOnce, GuidsOnce, ChunksFirst, AllBacked, OutcomesMatch, OpenLedger, Queue, Unrecorded,
         FilledExactly;
    QueueIsShort(run, w, all, n);
    FirstOpen(run, w, all);
    RotateKeepsBase(run, w, after, |run.listed|, all);
    RegisterKeepsCalls(run, w, after, all, n, filled, true);
    OutcomesAfterRegister(run, w, after, all, n, filled, true);
    AckedKeepsQueue(run, w, after, all, n, filled);
    AckedKeepsLedger(run, w, after, all, n);
    RotateKeepsUnrecorded(run, w, after, all);
    RegisteringFills(run, w, after, all[0], filled);
  }

  lemma QueueIsShort(run: Run, w: World, all: seq<Attempt>, n: nat)
    requires Queue(run, w, all, n)
    ensures n <= |all|
  {
  }

  lemma FirstOpen(run: Run, w: World, all: seq<Attempt>)
    requires Base(run, w, |run.listed|, all) && |all| > 0
    ensures AttemptOk(run, w, |run.listed|, all[0]) && all[0].guid < w.nextGuid && Grown(run, w)
  {
    hide ToSend, ServerHolds, GaveUp, ExpectedSlot;
  }

  lemma RegisteringFills(run: Run, w: World, after: World, a: Attempt, filled: set<string>)
    requires FilledExactly(run, w, filled) && Grown(run, w) && RegisterStep(run, w, after, a, true)
    ensures FilledExactly(run, after, filled + {a.uploadId})
  {
    assert InTrace(run, after, |w.trace|);
    forall u
      ensures RegisteredSlot(run, after, u) <==> RegisteredSlot(run, w, u) || u == a.uploadId
      ensures SkippedSlot(run, after, u) <==> SkippedSlot(run, w, u)
    {
      RegisteringFillsOne(run, w, after, a, u);
    }
    hide RegisteredSlot, SkippedSlot;
  }

  lemma RegisteringFillsOne(run: Run, w: World, after: World, a: Attempt, u: string)
    requires Grown(run, w) && RegisterStep(run, w, after, a, true)
    ensures RegisteredSlot(run, after, u) <==> RegisteredSlot(run, w, u) || u == a.uploadId
    ensures SkippedSlot(run, after, u) <==> SkippedSlot(run, w, u)
  {
    if i :| InTrace(run, w, i) && Acknowledged(w.trace[i]) && w.trace[i].uploadId == u {
      assert InTrace(run, after, i) && after.trace[i] == w.trace[i];
    }
    if i :| InTrace(run, after, i) && Acknowledged(after.trace[i]) && after.trace[i].uploadId == u {
      assert i < |w.trace| ==> InTrace(run, w, i) && after.trace[i] == w.trace[i];
    }
    assert InTrace(run, after, |w.trace|);
    if u == a.uploadId {
      assert Acknowledged(after.trace[|w.trace|]) && after.trace[|w.trace|].uploadId == u;
    }
    SkipOfLog(run, w, after, u);
  }

  lemma SkipOfLog(run: Run, w: World, after: World, u: string)
    requires after.log == w.log
    ensures SkippedSlot(run, after, u) <==> SkippedSlot(run, w, u)
  {
    assert forall i :: InRun(run, after, i) <==> InRun(run, w, i);
  }

  lemma AckedStays(run: Run, w: World, after: World, p: Path)
    requires after.trace == w.trace
    ensures Acked(run, after, p) <==> Acked(run, w, p)
  {
  }

  /** What the calls made so far still say once the first open file has left. */
  lemma LeavingKeepsCalls(run: Run, w: World, after: World, all: seq<Attempt>, o: FileOutcome)
    requires RunOk(run) && Base(run, w, |run.listed|, all) && |all| > 0
    requires OutcomeStep(w, after, all[0].row, all[0].file, o, None)
    requires RegisteredOnce(w.trace) && GuidsOnce(w.trace) && ChunksFirst(run, w) && AllBacked(run, w)
    requires OutcomesMatch(run, w)
    requires Acked(run, w, all[0].file) <==> o.kind in {Confirmed, GateParked}
    ensures RegisteredOnce(after.trace) && GuidsOnce(after.trace) && ChunksFirst(run, after) && AllBacked(run, after)
    ensures OutcomesMatch(run, after)
  {
    hide ToSend, AllExplained, RefusedUnder, AnsweredUnder, GaveUp;
    forall i, j | InTrace(run, after, i) && InTrace(run, after, j) && i < j && after.trace[i].Register?
      ensures !after.trace[j].Chunk? {
      assert InTrace(run, w, i) && InTrace(run, w, j);
    }
    forall i | InTrace(run, after, i) && after.trace[i].Register? ensures Backed(run, after, after.trace[i]) {
      assert InTrace(run, w, i) && Backed(run, w, w.trace[i]);
    }
    forall i | InRun(run, after, i)
      ensures Acked(run, after, after.log[i].src) <==> after.log[i].outcome.kind in {Confirmed, GateParked}
    {
      AckedStays(run, w, after, after.log[i].src);
      if i < |w.log| {
        assert InRun(run, w, i) && after.log[i] == w.log[i];
      }
    }
  }

  lemma LeavingKeepsLedger(run: Run, w: World, after: World, all: seq<Attempt>, n: nat, m: nat)
    requires OpenLedger(run, w, all, n) && |all| > 0 && KeepsUploaded(w.rows, after.rows) && after.trace == w.trace
    requires n > 0 || HasCompleted(after.rows, AttemptKey(run.task, all[0]))
    requires m == if n > 0 then n - 1 else 0
    ensures OpenLedger(run, after, all[1..], m)
  {
  }

  lemma RefusedKeepsOne(run: Run, w: World, mid: World, after: World, all: seq<Attempt>, n: nat, filled: set<string>,
      i: nat)
    requires RunOk(run) && Closing(run, w, all, n, filled)
    requires 0 < n <= |all| && 0 < i < |all| && RegisterStep(run, w, mid, all[0], false)
    requires after.trace == mid.trace
    ensures if i < n then Waits(run, after, all[i]) else Sent(run, after, all[i])
  {
    hide ToSend, AllExplained, RefusedUnder, AnsweredUnder, GaveUp;
    WaitingAfterRegister(run, w, mid, all, n, filled, false, i);
    if i < n {
      WaitsStays(run, mid, after, all[i]);
    } else {
      SentStays(run, mid, after, all[i]);
    }
  }

  lemma RefusedKeepsQueue(run: Run, w: World, mid: World, after: World, all: seq<Attempt>, n: nat, filled: set<string>)
    requires 0 < n <= |all| && RegisterStep(run, w, mid, all[0], false)
    requires RunOk(run) && Closing(run, w, all, n, filled)
    requires after.trace == mid.trace
    ensures Queue(run, after, all[1..], n - 1)
  {
    hide Closing, RunOk, Sent, Waits, RegisterStep;
    forall i | 0 <= i < |all| - 1
      ensures if i < n - 1 then Waits(run, after, all[1..][i]) else Sent(run, after, all[1..][i])
    {
      assert all[1..][i] == all[i + 1];
      RefusedKeepsOne(run, w, mid, after, all, n, filled, i + 1);
    }
  }

  lemma RefusedKeepsLedger(run: Run, w: World, mid: World, all: seq<Attempt>, n: nat)
    requires OpenLedger(run, w, all, n) && |all| > 0 && RegisterStep(run, w, mid, all[0], false)
    ensures OpenLedger(run, mid, all, n)
  {
  }

  lemma LeavingIs(w: World, after: World, id: nat, file: Path, o: FileOutcome, skip: Option<SkipReason>)
    requires OutcomeStep(w, after, id, file, o, skip)
    ensures after.trace == w.trace && after.store == w.store && w.log <= after.log
    ensures o.kind != IdempotentSkip ==> NothingFilled(w, after)
  {
  }

  lemma SameRowsUnrecorded(run: Run, w: World, after: World, all: seq<Attempt>)
    requires Unrecorded(run, w, all) && after.rows == w.rows
    ensures Unrecorded(run, after, all)
  {
  }

  /** What a refused call says of the file it was for. */
  lemma FirstIsRefused(run: Run, w: World, mid: World, all: seq<Attempt>, n: nat)
    requires Queue(run, w, all, n) && n > 0 && Grown(run, w) && RegisterStep(run, w, mid, all[0], false)
    ensures !Acked(run, mid, all[0].file) && RefusedUnder(run, mid, Some(all[0].guid))
  {
    hide GaveUp;
    assert Waits(run, w, all[0]);
    AckedAfterRegister(run, w, mid, all[0], false, all[0].file);
    assert InTrace(run, mid, |w.trace|);
  }

  /** After a refused call everything is as before, but for the call. */
  lemma RefusedCall(run: Run, w: World, mid: World, all: seq<Attempt>, n: nat, filled: set<string>)
    requires RunOk(run) && Closing(run, w, all, n, filled) && n > 0 && RegisterStep(run, w, mid, all[0], false)
    ensures n <= |all| && Base(run, mid, |run.listed|, all) && OpenLedger(run, mid, all, n) && Unrecorded(run, mid, all)
    ensures RegisteredOnce(mid.trace) && GuidsOnce(mid.trace) && ChunksFirst(run, mid) && AllBacked(run, mid)
    ensures OutcomesMatch(run, mid) && FilledExactly(run, mid, filled)
    ensures !Acked(run, mid, all[0].file) && RefusedUnder(run, mid, Some(all[0].guid))
  {
    hide Base, RunOk, RegisteredOnce, GuidsOnce, ChunksFirst, AllBacked, OutcomesMatch, OpenLedger, Queue, Unrecorded,
         FilledExactly, Acked, RefusedUnder;
    QueueIsShort(run, w, all, n);
    FirstOpen(run, w, all);
    CallAppendKeepsBase(run, w, mid, |run.listed|, all);
    RegisterKeepsCalls(run, w, mid, all, n, filled, false);
    OutcomesAfterRegister(run, w, mid, all, n, filled, false);
    FirstIsRefused(run, w, mid, all, n);
    RefusedKeepsLedger(run, w, mid, all, n);
    SameRowsUnrecorded(run, w, mid, all);
    FilledStays(run, w, mid, filled);
  }

  lemma RefusedLeaves(run: Run, mid: World, after: World, all: seq<Attempt>, n: nat, filled: set<string>)
    requires RunOk(run) && Base(run, mid, |run.listed|, all) && 0 < n <= |all|
    requires OpenLedger(run, mid, all, n) && Unrecorded(run, mid, all) && FilledExactly(run, mid, filled)
    requires RegisteredOnce(mid.trace) && GuidsOnce(mid.trace) && ChunksFirst(run, mid) && AllBacked(run, mid)
    requires OutcomesMatch(run, mid) && !Acked(run, mid, all[0].file) && RefusedUnder(run, mid, Some(all[0].guid))
    requires OutcomeStep(mid, after, all[0].row, all[0].file, FailedOutcome(), None) && TableOk(after.rows)
    requires Queue(run, after, all[1..], n - 1)
    ensures Closing(run, after, all[1..], n - 1, filled)
  {
    hide Base, RunOk, RegisteredOnce, GuidsOnce, ChunksFirst, AllBacked, OutcomesMatch, OpenLedger, Queue, Unrecorded,
         FilledExactly, Acked, RefusedUnder, TableOk, OutcomeStep;
    LeavingIs(mid, after, all[0].row, all[0].file, FailedOutcome(), None);
    RefusalStays(run, mid, after, Some(all[0].guid));
    OpenLeaves(run, mid, after, |run.listed|, all, FailedOutcome());
    LeavingKeepsCalls(run, mid, after, all, FailedOutcome());
    LeavingKeepsUnrecorded(run, mid, after, all, FailedOutcome());
    LeavingKeepsLedger(run, mid, after, all, n, n - 1);
    FilledStays(run, mid, after, filled);
  }

  /** Refused: after the failed call the file leaves for uploadFailed/. */
  lemma RegisterRefused(run: Run, w: World, mid: World, after: World, all: seq<Attempt>, n: nat, filled: set<string>)
    requires RunOk(run) && Closing(run, w, all, n, filled) && n > 0 && RegisterStep(run, w, mid, all[0], false)
    requires OutcomeStep(mid, after, all[0].row, all[0].file, FailedOutcome(), None) && TableOk(after.rows)
    ensures Closing(run, after, all[1..], n - 1, filled)
  {
    hide Base, RunOk, Closing, RegisteredOnce, GuidsOnce, ChunksFirst, AllBacked, OutcomesMatch, OpenLedger, Queue,
         Unrecorded, FilledExactly, Acked, RefusedUnder, TableOk, OutcomeStep, RegisterStep;
    RefusedCall(run, w, mid, all, n, filled);
    LeavingIs(mid, after, all[0].row, all[0].file, FailedOutcome(), None);
    RefusedKeepsQueue(run, w, mid, after, all, n, filled);
    RefusedLeaves(run, mid, after, all, n, filled);
  }

  /** A registered file leaves for uploaded/; its row now proves the registration. */
  lemma SentLeaves(run: Run, w: World, after: World, all: seq<Attempt>, filled: set<string>, o: FileOutcome)
    requires RunOk(run) && Closing(run, w, all, 0, filled) && |all| > 0 && o in {ConfirmedOutcome(), ParkedOutcome()}
    requires OutcomeStep(w, after, all[0].row, all[0].file, o, None) && TableOk(after.rows)
    ensures Closing(run, after, all[1..], 0, filled)
  {
    hide ToSend, AllExplained, RefusedUnder, AnsweredUnder, GaveUp;
    var a := all[0];
    assert AttemptOk(run, w, |run.listed|, a) && Sent(run, w, a);
    LeavingIs(w, after, a.row, a.file, o, None);
    assert StatusFits(w.rows[a.row]);
    SentStays(run, w, after, a);
    SentMeans(run, w, a);
    SentMeans(run, after, a);
    assert Completed(after.rows[a.row], AttemptKey(run.task, a));
    LeavingKeepsUnrecorded(run, w, after, all, o);
    OpenLeaves(run, w, after, |run.listed|, all, o);
    LeavingKeepsCalls(run, w, after, all, o);
    RestStaySent(run, w, after, all);
    LeavingKeepsLedger(run, w, after, all, 0, 0);
    FilledStays(run, w, after, filled);
  }

  lemma RestStaySent(run: Run, w: World, after: World, all: seq<Attempt>)
    requires Queue(run, w, all, 0) && |all| > 0 && w.trace <= after.trace
    ensures Queue(run, after, all[1..], 0)
  {
    hide Sent;
    forall i | 0 <= i < |all| - 1 ensures Sent(run, after, all[1..][i]) {
      SentStays(run, w, after, all[i + 1]);
    }
  }

  lemma LeavingKeepsUnrecorded(run: Run, w: World, after: World, all: seq<Attempt>, o: FileOutcome)
    requires RunOk(run) && Base(run, w, |run.listed|, all) && Unrecorded(run, w, all) && |all| > 0
    requires OutcomeStep(w, after, all[0].row, all[0].file, o, None)
    ensures Unrecorded(run, after, all[1..])
  {
    assert AttemptOk(run, w, |run.listed|, all[0]) && StatusFits(w.rows[all[0].row]);
    hide OutcomeStep, HasCompleted, ToSend, RunOk;
    forall i | 0 <= i < |all| - 1 ensures !HasCompleted(after.rows, AttemptKey(run.task, all[1..][i])) {
      var a := all[i + 1];
      assert AttemptOk(run, w, |run.listed|, a);
      NamesDiffer(run, all[0].file, a.file);
      if HasCompleted(after.rows, AttemptKey(run.task, a)) {
        LeavingCompletesNoOther(w, after, all[0].row, all[0].file, o, None, AttemptKey(run.task, a));
      }
    }
  }

  // ---- a run that is cut off ----

  /** Cut off while files are still being offered, wherever that is, the table, the calls
      and the GUIDs are at rest: the next run starts from there as from any other. */
  lemma CutOffWhileOffering(run: Run, w: World, k: nat, all: seq<Attempt>, filled: set<string>)
    requires RunOk(run) && Offering(run, w, k, all, filled)
    ensures AtRest(w) && KeepsUploaded(run.before.rows, w.rows) && run.before.trace <= w.trace
    ensures forall i :: |run.before.trace| <= i < |w.trace| ==> w.trace[i].Chunk?
  {
    forall i | 0 <= i < |w.trace| && w.trace[i].Register?
      ensures i < |run.before.trace| && w.trace[i] == run.before.trace[i] {
      assert i >= |run.before.trace| ==> InTrace(run, w, i);
    }
    hide Base, StatusFits, TableOk;
    forall i | 0 <= i < |w.trace| && Acknowledged(w.trace[i]) ensures HasCompleted(w.rows, CallKey(w.trace[i])) {
      CompletedStays(run.before.rows, w.rows, CallKey(w.trace[i]));
    }
  }

  /** Cut off later, the state is at rest exactly when no acknowledged file is still waiting
      for its 'uploaded' row. Otherwise the service no longer knows that CBOS has it, and the
      next run would register it again. */
  lemma CutOffIff(run: Run, w: World, all: seq<Attempt>, n: nat, filled: set<string>)
    requires RunOk(run) && Closing(run, w, all, n, filled)
    ensures AtRest(w) <==> n == |all|
  {
    hide HasCompleted, AllExplained, ToSend, StatusFits;
    if n < |all| {
      assert Sent(run, w, all[n]);
      var i :| InTrace(run, w, i) && w.trace[i] == RegisterCall(run, all[n], true);
      assert !HasCompleted(w.rows, CallKey(w.trace[i]));
    } else {
      assert forall key :: !SentKey(run, all, n, key);
    }
  }

  // ---- what a finished run leaves behind ----

  /** Every listed file left exactly once, to the folder its fate calls for. */
  ghost predicate Routed(run: Run, w: World) {
    && AllLanded(run, w) && OutcomesMatch(run, w)
    && (forall m :: 0 <= m < |run.listed| ==> IsLogged(run, w, run.listed[m].path))
    && (forall i :: InRun(run, w, i) ==> IsListed(run, |run.listed|, w.log[i].src) && Explained(run, w, w.log[i]))
    && Contents(w.files) == Contents(run.before.files)
  }

  ghost predicate TwoPhase(run: Run, w: World) {
    ChunksFirst(run, w) && AllBacked(run, w)
  }

  /** All a completed run promises. */
  ghost predicate Finished(run: Run, w: World, filled: set<string>) {
    AtRest(w) && Routed(run, w) && TwoPhase(run, w) && Grown(run, w) && FilledExactly(run, w, filled)
  }

  lemma RunEnds(run: Run, w: World, filled: set<string>)
    requires RunOk(run) && Closing(run, w, [], 0, filled)
    ensures Finished(run, w, filled)
  {
    forall m | 0 <= m < |run.listed| ensures IsLogged(run, w, run.listed[m].path) {
      assert IsLogged(run, w, run.listed[m].path) || IsOpen([], run.listed[m].path);
    }
  }

  /** A file belongs in uploaded/ when it was registered in this run or skipped because
      CBOS already had it. */
  ghost predicate BelongsInUploaded(run: Run, w: World, e: LogEntry) {
    Acked(run, w, e.src) || e.outcome.kind == IdempotentSkip
  }

  /** The routing partition: a completed run moves each listed file exactly once, with its
      bytes, and folder and row status both say whether CBOS has it. */
  lemma EveryFileRouted(run: Run, w: World, filled: set<string>, m: nat)
    requires Finished(run, w, filled) && m < |run.listed|
    ensures exists i :: InRun(run, w, i) && w.log[i].src == run.listed[m].path
              && (forall j :: InRun(run, w, j) && w.log[j].src == run.listed[m].path ==> j == i)
    ensures forall i :: InRun(run, w, i) && w.log[i].src == run.listed[m].path ==>
              var e := w.log[i];
              && e.src !in w.files && e.dest in w.files && w.files[e.dest] == run.before.files[e.src]
              && (InFolder(e.dest, UPLOADED) <==> BelongsInUploaded(run, w, e))
              && (InFolder(e.dest, UPLOAD_FAILED) <==> !BelongsInUploaded(run, w, e))
              && e.row < |w.rows| && w.rows[e.row].path == Live(e.dest)
              && w.rows[e.row].status == if BelongsInUploaded(run, w, e) then Uploaded else Failed
  {
    assert IsLogged(run, w, run.listed[m].path);
    forall i | InRun(run, w, i) && w.log[i].src == run.listed[m].path
      ensures Landed(run, w, w.log[i])
      ensures InFolder(w.log[i].dest, UPLOADED) <==> BelongsInUploaded(run, w, w.log[i])
    {
      assert Landed(run, w, w.log[i]);
    }
  }

  /** Why a file ended where it did, once setup succeeded. Its verdict is the matcher's one
      answer for it. It failed exactly when that is a rejection, or when it had to be sent and
      a chunk used up the full limit or its Step 7 was refused; it was registered exactly when
      it had to be sent and neither happened; and it was skipped exactly when it was matched
      but did not have to be sent. */
  lemma EveryFateExplained(run: Run, w: World, filled: set<string>, m: nat, i: int)
    requires RunOk(run) && Finished(run, w, filled) && run.rules.Some? && m < |run.listed|
    requires InRun(run, w, i) && w.log[i].src == run.listed[m].path
    ensures var e, v := w.log[i], VerdictOn(run, run.listed[m]);
            && e.row < |w.rows|
            && (v.Matched? ==> e.uploadId == Some(v.rule.uploadId))
            && (w.rows[e.row].status == Failed <==>
                  v.FileRejected? || (ToSend(run, e.src, e.uploadId) && RefusedUnder(run, w, e.guid)))
            && (Acked(run, w, e.src) <==> ToSend(run, e.src, e.uploadId) && !RefusedUnder(run, w, e.guid))
            && (e.outcome.kind == IdempotentSkip <==> v.Matched? && !ToSend(run, e.src, e.uploadId))
  {
    var e, v := w.log[i], VerdictOn(run, run.listed[m]);
    assert Landed(run, w, e) && Explained(run, w, e);
    SentHasVerdict(run, m, e.uploadId);
    match e.outcome.kind
    case Rejected =>
      var why :| VerdictGiven(run, e.src, FileRejected(why));
      OneVerdict(run, m, FileRejected(why));
    case IdempotentSkip =>
      PlacedIsVerdict(run, m, e.uploadId.value);
      SkipIsNotSent(run, e);
    case CallFailed =>
    case _ => RegisteredNotRefused(run, w, e.guid);
  }

  lemma PlacedIsVerdict(run: Run, m: nat, uploadId: string)
    requires FlatManifest(run.listed) && m < |run.listed| && Placed(run, run.listed[m].path, uploadId)
    ensures VerdictOn(run, run.listed[m]).Matched? && VerdictOn(run, run.listed[m]).rule.uploadId == uploadId
  {
    var rule :| VerdictGiven(run, run.listed[m].path, Matched(rule)) && rule.uploadId == uploadId;
    OneVerdict(run, m, Matched(rule));
  }

  lemma SentHasVerdict(run: Run, m: nat, uploadId: Option<string>)
    requires FlatManifest(run.listed) && m < |run.listed| && run.rules.Some?
    ensures ToSend(run, run.listed[m].path, uploadId) ==>
              var v := VerdictOn(run, run.listed[m]);
              v.Matched? && uploadId == Some(v.rule.uploadId)
  {
    if ToSend(run, run.listed[m].path, uploadId) {
      PlacedIsVerdict(run, m, uploadId.value);
    }
  }

  lemma SkipIsNotSent(run: Run, e: LogEntry)
    requires SkipJustified(run, e)
    ensures !ToSend(run, e.src, e.uploadId)
  {
    hide Placed, SlotInCbos, Completed;
  }

  lemma RegisteredNotRefused(run: Run, w: World, guid: Option<nat>)
    requires AllBacked(run, w) && GuidsOnce(w.trace) && AnsweredUnder(run, w, guid, true)
    ensures !RefusedUnder(run, w, guid)
  {
    hide GaveUp, ServerHolds;
    var i :| InTrace(run, w, i) && w.trace[i].Register? && w.trace[i].guid == guid.value && w.trace[i].ok;
    assert Backed(run, w, w.trace[i]);
  }
}
