/** What one run of the upload lane may assume and must keep, stated over plain values:
    the audit table, the folder tree, the CBOS calls and the outcome log. */
module LaneState {
  import opened Text
  import opened Chunking
  import opened FileService
  import opened UploadOutcome
  import opened UploadedFileRepository
  import opened CbosClient
  import opened UploadMatching
  import CbosFilename

  datatype ListedFile = ListedFile(path: Path, exchange: string)

  datatype Supplied = Supplied(processId: string, table1: Option<Table1>, table2: seq<UploadCandidate>)

  datatype Task = Task(
    folderDate: string,
    segment: string,
    files: seq<ListedFile>,
    batchId: Option<string>,
    supplied: Option<Supplied>)

  /** A manifest is flat: its names differ, and it never sits inside uploaded/ or
      uploadFailed/ itself. */
  ghost predicate FlatManifest(files: seq<ListedFile>) {
    && (forall i :: 0 <= i < |files| ==> Intake(files[i].path))
    && forall i, j :: 0 <= i < j < |files| ==> Name(files[i].path) != Name(files[j].path)
  }

  datatype SkipReason = CbosStatus | EarlierRow(row: nat)

  /** The line apply_outcome logs for a file once it is moved and recorded. */
  datatype LogEntry = LogEntry(
    row: nat,
    src: Path,
    dest: Path,
    uploadId: Option<string>,
    guid: Option<nat>,
    outcome: FileOutcome,
    skip: Option<SkipReason>)

  datatype World = World(
    rows: seq<Row>,
    files: map<Path, Bytes>,
    trace: seq<Call>,
    store: Store,
    nextGuid: nat,
    log: seq<LogEntry>)

  /** A file whose chunks are in CBOS and whose outcome is still open. */
  datatype Attempt = Attempt(row: nat, file: Path, uploadId: string, guid: nat, sentName: string)

  function BaseName(p: Path): string {
    if |p| == 0 then "" else p[|p| - 1]
  }

  function CallKey(c: Call): FileKey
    requires c.Register?
  {
    FileKey(c.segment, c.folderDate, c.uploadId, BaseName(c.file))
  }

  function AttemptKey(t: Task, a: Attempt): FileKey {
    FileKey(t.segment, t.folderDate, a.uploadId, BaseName(a.file))
  }

  predicate Acknowledged(c: Call) {
    c.Register? && c.ok
  }

  // ---- between runs ----

  predicate StatusFits(row: Row) {
    match row.status
    case Uploaded => InFolder(row.path.p, UPLOADED)
    case Failed => InFolder(row.path.p, UPLOAD_FAILED)
    case Pending => row.path.Live? && Intake(row.path.p) && row.fileName == Name(row.path.p)
  }

  /** A row's status is the folder its path lies in; a pending row is still at intake. */
  ghost predicate StatusAgrees(rows: seq<Row>) {
    forall i :: 0 <= i < |rows| ==> StatusFits(rows[i])
  }

  /** No (segment, date, UploadID, file name) is acknowledged twice. */
  ghost predicate RegisteredOnce(trace: seq<Call>) {
    forall i, j :: 0 <= i < j < |trace| && Acknowledged(trace[i]) && Acknowledged(trace[j]) ==>
      CallKey(trace[i]) != CallKey(trace[j])
  }

  ghost predicate GuidsOnce(trace: seq<Call>) {
    forall i, j :: 0 <= i < j < |trace| && trace[i].Register? && trace[j].Register? ==>
      trace[i].guid != trace[j].guid
  }

  ghost predicate GuidsIssued(w: World) {
    && (forall i :: 0 <= i < |w.trace| ==> w.trace[i].guid < w.nextGuid)
    && forall g :: g in w.store ==> g < w.nextGuid
  }

  ghost predicate HasCompleted(rows: seq<Row>, key: FileKey) {
    exists r :: 0 <= r < |rows| && Completed(rows[r], key)
  }

  /** Every acknowledged registration has its 'uploaded' row. */
  ghost predicate Ledger(rows: seq<Row>, trace: seq<Call>) {
    forall i :: 0 <= i < |trace| && Acknowledged(trace[i]) ==> HasCompleted(rows, CallKey(trace[i]))
  }

  ghost predicate AtRest(w: World) {
    && TableOk(w.rows) && StatusAgrees(w.rows)
    && RegisteredOnce(w.trace) && GuidsOnce(w.trace) && GuidsIssued(w)
    && Ledger(w.rows, w.trace)
  }

  /** An 'uploaded' row is never reset, relabelled as another file, or lost. */
  ghost predicate KeepsUploaded(before: seq<Row>, after: seq<Row>) {
    && |before| <= |after|
    && forall r :: 0 <= r < |before| && before[r].status == Uploaded ==>
         && after[r].status == Uploaded
         && after[r].fileName == before[r].fileName && after[r].uploadId == before[r].uploadId
         && after[r].segment == before[r].segment && after[r].folderDate == before[r].folderDate
  }

  lemma CompletedStays(before: seq<Row>, after: seq<Row>, key: FileKey)
    requires KeepsUploaded(before, after) && HasCompleted(before, key)
    ensures HasCompleted(after, key)
  {
  }

  // ---- during a run ----

  const NO_EXCHANGE := "NA"

  /** What a run started from, and what it works with: the slots, the rules (none when setup
      failed), the column widths each file shows, and how often a chunk may be tried. */
  datatype Run = Run(
    before: World,
    task: Task,
    listed: seq<ListedFile>,
    candidates: seq<UploadCandidate>,
    rules: Option<seq<UploadRule>>,
    validate: bool,
    sniffs: map<Path, Sniff>,
    limit: nat,
    rewrites: bool)

  ghost predicate RunOk(run: Run) {
    && AtRest(run.before) && FlatManifest(run.listed)
    && forall m :: 0 <= m < |run.listed| ==> run.listed[m].path in run.before.files
  }

  ghost predicate Grown(run: Run, w: World) {
    && run.before.trace <= w.trace && run.before.log <= w.log && run.before.nextGuid <= w.nextGuid
    && KeepsUploaded(run.before.rows, w.rows)
  }

  function Folder(o: FileOutcome): string {
    if o.destination == ToUploaded then UPLOADED else UPLOAD_FAILED
  }

  /** A file that left intake: its bytes are in the folder its outcome calls for, and its
      row names that path with the matching status. */
  ghost predicate Landed(run: Run, w: World, e: LogEntry) {
    && Produced(e.outcome) && Intake(e.src)
    && e.src in run.before.files && e.src !in w.files
    && e.dest in w.files && w.files[e.dest] == run.before.files[e.src]
    && InFolder(e.dest, Folder(e.outcome)) && |e.dest| == |e.src| + 1 && e.dest[..|e.src| - 1] == Parent(e.src)
    && e.row < |w.rows| && w.rows[e.row].path == Live(e.dest) && w.rows[e.row].status == e.outcome.status
    && w.rows[e.row].uploadId == e.uploadId && w.rows[e.row].fileName == Name(e.src)
  }

  ghost predicate InRun(run: Run, w: World, i: int) {
    |run.before.log| <= i < |w.log|
  }

  ghost predicate AllLanded(run: Run, w: World) {
    && (forall i :: InRun(run, w, i) ==> Landed(run, w, w.log[i]))
    && forall i, j :: InRun(run, w, i) && InRun(run, w, j) && i != j ==> w.log[i].src != w.log[j].src
  }

  ghost predicate Untouched(run: Run, w: World, k: nat) {
    && (forall m :: k <= m < |run.listed| ==>
          run.listed[m].path in w.files && run.listed[m].path in run.before.files
            && w.files[run.listed[m].path] == run.before.files[run.listed[m].path])
    && Contents(w.files) == Contents(run.before.files)
  }

  ghost predicate IsListed(run: Run, k: nat, p: Path) {
    exists m :: 0 <= m < k && m < |run.listed| && run.listed[m].path == p
  }

  ghost predicate ExpectedSlot(candidates: seq<UploadCandidate>, uploadId: string) {
    exists c :: 0 <= c < |candidates| && candidates[c].ExpectsAFile() && candidates[c].uploadId == uploadId
  }

  /** The name a file goes out under is its own, or its own with the trading day that CBOS
      asked for written over a stamp a few days late. */
  ghost predicate SentAs(run: Run, file: Path, name: string) {
    || name == BaseName(file)
    || exists reply :: CbosFilename.Rewritten(run.rewrites, reply, run.task.folderDate, BaseName(file), name)
  }

  lemma RewriteIsSent(run: Run, file: Path, name: string, reply: Answer<CbosFilename.Reply>)
    requires CbosFilename.Rewritten(run.rewrites, reply, run.task.folderDate, BaseName(file), name)
    ensures SentAs(run, file, name)
  {
  }

  ghost predicate AttemptOk(run: Run, w: World, k: nat, a: Attempt) {
    && IsListed(run, k, a.file)
    && a.file in run.before.files && a.file in w.files && w.files[a.file] == run.before.files[a.file]
    && a.row < |w.rows| && w.rows[a.row].path == Live(a.file) && w.rows[a.row].status == Pending
    && w.rows[a.row].uploadId == Some(a.uploadId) && w.rows[a.row].guid == Some(a.guid)
    && ToSend(run, a.file, Some(a.uploadId))
    && w.rows[a.row].segment == run.task.segment && w.rows[a.row].folderDate == run.task.folderDate
    && run.before.nextGuid <= a.guid < w.nextGuid
    && ServerHolds(w.store, a.guid, a.sentName, run.before.files[a.file])
    && !GaveUp(w.trace, a.guid, run.limit) && SentAs(run, a.file, a.sentName)
    && ExpectedSlot(run.candidates, a.uploadId)
  }

  ghost predicate AttemptsOk(run: Run, w: World, k: nat, all: seq<Attempt>) {
    && (forall i :: 0 <= i < |all| ==> AttemptOk(run, w, k, all[i]))
    && forall i, j :: 0 <= i < j < |all| ==> all[i].file != all[j].file && all[i].guid != all[j].guid
  }

  ghost predicate IsLogged(run: Run, w: World, p: Path) {
    exists i :: InRun(run, w, i) && w.log[i].src == p
  }

  ghost predicate IsOpen(all: seq<Attempt>, p: Path) {
    exists i :: 0 <= i < |all| && all[i].file == p
  }

  /** Every file offered so far has left by the log or is still open; nothing else has. */
  ghost predicate Accounted(run: Run, w: World, k: nat, all: seq<Attempt>) {
    && (forall m :: 0 <= m < k && m < |run.listed| ==>
          IsLogged(run, w, run.listed[m].path) || IsOpen(all, run.listed[m].path))
    && forall i :: InRun(run, w, i) ==> IsListed(run, k, w.log[i].src)
  }

  // ---- why a file left the way it did ----

  function MatchExchange(f: ListedFile): Option<string> {
    if f.exchange == NO_EXCHANGE then None else Some(f.exchange)
  }

  /** A path whose columns were not sniffed reads as no delimited text. */
  function SniffOf(sniffs: map<Path, Sniff>, p: Path): Sniff {
    if p in sniffs then sniffs[p] else None
  }

  /** The matcher's one verdict on a listed file. */
  function VerdictOn(run: Run, f: ListedFile): Verdict
    requires run.rules.Some?
  {
    MatchFile(BaseName(f.path), run.rules.value, MatchExchange(f), SniffOf(run.sniffs, f.path), run.validate)
  }

  ghost predicate VerdictGiven(run: Run, p: Path, v: Verdict) {
    run.rules.Some? && exists m ::
      0 <= m < |run.listed| && run.listed[m].path == p && v == VerdictOn(run, run.listed[m])
  }

  lemma SamePathOnce(files: seq<ListedFile>, i: nat, j: nat)
    requires FlatManifest(files) && i < |files| && j < |files| && files[i].path == files[j].path
    ensures i == j
  {
  }

  /** Names in a manifest differ, so a path has one verdict. */
  lemma OneVerdict(run: Run, m: nat, v: Verdict)
    requires FlatManifest(run.listed) && m < |run.listed| && VerdictGiven(run, run.listed[m].path, v)
    ensures v == VerdictOn(run, run.listed[m])
  {
    var n :| 0 <= n < |run.listed| && run.listed[n].path == run.listed[m].path && v == VerdictOn(run, run.listed[n]);
    SamePathOnce(run.listed, n, m);
  }

  ghost predicate Placed(run: Run, p: Path, uploadId: string) {
    exists rule :: VerdictGiven(run, p, Matched(rule)) && rule.uploadId == uploadId
  }

  /** candidates_by_upload_id.get(id): the last slot with that id. */
  function SlotOf(cs: seq<UploadCandidate>, uploadId: string): (r: Option<nat>)
    ensures r.Some? ==> r.value < |cs| && cs[r.value].uploadId == uploadId
  {
    if |cs| == 0 then None
    else if cs[|cs| - 1].uploadId == uploadId then Some(|cs| - 1)
    else SlotOf(cs[..|cs| - 1], uploadId)
  }

  predicate SlotInCbos(cs: seq<UploadCandidate>, uploadId: string) {
    SlotOf(cs, uploadId).Some? && cs[SlotOf(cs, uploadId).value].AlreadyInCbos()
  }

  /** What Table2's own words say of a slot: it has a file unless its status is missing,
      failed, or pending without a word about anything but the upload being what is pending. */
  ghost predicate SaysHeld(c: UploadCandidate) {
    && c.status.Some? && Upper(Strip(c.status.value)) != "FAILED"
    && (Upper(Strip(c.status.value)) == "PENDING" ==>
          && c.uploadId != "" && c.uploadId != "0"
          && c.statusDesc.Some? && !Occurs("UPLOAD FILE PENDING", Upper(Strip(c.statusDesc.value))))
  }

  /** A file is skipped for its slot exactly when the last slot of its UploadID says so. */
  lemma {:induction false} SlotInCbosIff(cs: seq<UploadCandidate>, uploadId: string)
    ensures SlotInCbos(cs, uploadId) <==>
              exists i :: 0 <= i < |cs| && cs[i].uploadId == uploadId && SaysHeld(cs[i])
                && forall j :: i < j < |cs| ==> cs[j].uploadId != uploadId
  {
    if |cs| > 0 && cs[|cs| - 1].uploadId != uploadId {
      var init := cs[..|cs| - 1];
      SlotInCbosIff(init, uploadId);
      if i :| 0 <= i < |init| && init[i].uploadId == uploadId && SaysHeld(init[i])
              && forall j :: i < j < |init| ==> init[j].uploadId != uploadId {
        assert cs[i] == init[i];
        forall j | i < j < |cs| ensures cs[j].uploadId != uploadId {
          assert j < |init| ==> cs[j] == init[j];
        }
      }
      if i :| 0 <= i < |cs| && cs[i].uploadId == uploadId && SaysHeld(cs[i])
              && forall j :: i < j < |cs| ==> cs[j].uploadId != uploadId {
        assert init[i] == cs[i];
        forall j | i < j < |init| ensures init[j].uploadId != uploadId {
          assert init[j] == cs[j];
        }
      }
    } else if |cs| > 0 {
      assert SaysHeld(cs[|cs| - 1]) <==> cs[|cs| - 1].AlreadyInCbos();
    }
  }

  function KeyOf(run: Run, p: Path, uploadId: string): FileKey {
    FileKey(run.task.segment, run.task.folderDate, uploadId, BaseName(p))
  }

  /** Matched, and neither its slot nor an earlier row says CBOS has it. */
  ghost predicate ToSend(run: Run, p: Path, uploadId: Option<string>) {
    && uploadId.Some? && Placed(run, p, uploadId.value)
    && !SlotInCbos(run.candidates, uploadId.value) && !HasCompleted(run.before.rows, KeyOf(run, p, uploadId.value))
  }

  ghost predicate SkipJustified(run: Run, e: LogEntry) {
    && e.uploadId.Some? && e.skip.Some? && Placed(run, e.src, e.uploadId.value)
    && match e.skip.value
       case CbosStatus => SlotInCbos(run.candidates, e.uploadId.value)
       case EarlierRow(r) =>
         && !SlotInCbos(run.candidates, e.uploadId.value)
         && r < |run.before.rows| && Completed(run.before.rows[r], KeyOf(run, e.src, e.uploadId.value))
  }

  ghost predicate InTrace(run: Run, w: World, i: int) {
    |run.before.trace| <= i < |w.trace|
  }

  /** Step 7 was answered this way under this GUID, in this run. */
  ghost predicate AnsweredUnder(run: Run, w: World, guid: Option<nat>, ok: bool) {
    && guid.Some?
    && exists i :: InTrace(run, w, i) && w.trace[i].Register? && w.trace[i].guid == guid.value && w.trace[i].ok == ok
  }

  /** CBOS refused the upload under this GUID for good: a chunk used up its limit, or Step 7
      was refused. A refusal that a retry made good is no such refusal. */
  ghost predicate RefusedUnder(run: Run, w: World, guid: Option<nat>) {
    guid.Some? && (GaveUp(w.trace, guid.value, run.limit) || AnsweredUnder(run, w, guid, false))
  }

  /** Rejected by the matcher; skipped as already there; failed after a refused call, or
      because setup failed; or sent. */
  ghost predicate Explained(run: Run, w: World, e: LogEntry) {
    match e.outcome.kind
    case Rejected => exists why :: VerdictGiven(run, e.src, FileRejected(why))
    case IdempotentSkip => SkipJustified(run, e)
    case CallFailed => run.rules.Some? ==> ToSend(run, e.src, e.uploadId) && RefusedUnder(run, w, e.guid)
    case _ => ToSend(run, e.src, e.uploadId) && AnsweredUnder(run, w, e.guid, true)
  }

  ghost predicate AllExplained(run: Run, w: World) {
    forall i :: InRun(run, w, i) ==> Explained(run, w, w.log[i])
  }

  lemma AnswerStays(run: Run, w: World, after: World, guid: Option<nat>, ok: bool)
    requires AnsweredUnder(run, w, guid, ok) && w.trace <= after.trace
    ensures AnsweredUnder(run, after, guid, ok)
  {
    var i :| InTrace(run, w, i) && w.trace[i].Register? && w.trace[i].guid == guid.value && w.trace[i].ok == ok;
    assert InTrace(run, after, i) && after.trace[i] == w.trace[i];
  }

  lemma RefusalStays(run: Run, w: World, after: World, guid: Option<nat>)
    requires RefusedUnder(run, w, guid) && w.trace <= after.trace
    ensures RefusedUnder(run, after, guid)
  {
    hide AnsweredUnder, GaveUp;
    GaveUpGrows(w.trace, after.trace, guid.value, run.limit);
    if AnsweredUnder(run, w, guid, false) {
      AnswerStays(run, w, after, guid, false);
    }
  }

  lemma ExplainedStays(run: Run, w: World, after: World, e: LogEntry)
    requires Explained(run, w, e) && w.trace <= after.trace
    ensures Explained(run, after, e)
  {
    hide ToSend, SkipJustified, VerdictGiven, RefusedUnder, AnsweredUnder;
    if e.outcome.kind == CallFailed {
      if run.rules.Some? {
        RefusalStays(run, w, after, e.guid);
      }
    } else if e.outcome.kind != Rejected && e.outcome.kind != IdempotentSkip {
      AnswerStays(run, w, after, e.guid, true);
    }
  }

  /** More calls and at most one more line, which is explained itself. */
  lemma AllExplainedStays(run: Run, w: World, after: World)
    requires AllExplained(run, w) && w.trace <= after.trace && w.log <= after.log && |after.log| <= |w.log| + 1
    requires |after.log| > |w.log| ==> Explained(run, after, after.log[|w.log|])
    ensures AllExplained(run, after)
  {
    hide Explained;
    forall i | InRun(run, after, i) ensures Explained(run, after, after.log[i]) {
      if i < |w.log| {
        assert InRun(run, w, i) && after.log[i] == w.log[i];
        ExplainedStays(run, w, after, w.log[i]);
      }
    }
  }

  ghost predicate Base(run: Run, w: World, k: nat, all: seq<Attempt>) {
    && TableOk(w.rows) && StatusAgrees(w.rows) && GuidsIssued(w) && Grown(run, w)
    && AllLanded(run, w) && Untouched(run, w, k)
    && AttemptsOk(run, w, k, all) && Accounted(run, w, k, all)
    && AllExplained(run, w)
  }

  // ---- the steps a run takes ----

  /** Only the row of the file now offered changes, or a row for it is appended. */
  ghost predicate RowStep(w: World, after: World, id: nat, file: Path) {
    && after == w.(rows := after.rows)
    && |w.rows| <= |after.rows| && id < |after.rows| && (id == |w.rows| || |after.rows| == |w.rows|)
    && |after.rows| <= |w.rows| + 1
    && (id < |w.rows| ==> w.rows[id].path == Live(file))
    && (forall j :: 0 <= j < |w.rows| && j != id ==> after.rows[j] == w.rows[j])
  }

  ghost predicate Offered(run: Run, w: World, k: nat, id: nat) {
    && k < |run.listed| && id < |w.rows|
    && w.rows[id].path == Live(run.listed[k].path) && w.rows[id].status == Pending
    && w.rows[id].segment == run.task.segment && w.rows[id].folderDate == run.task.folderDate
  }

  function Recorded(row: Row, dest: Path, o: FileOutcome): Row {
    row.(path := Live(dest), status := o.status,
    retryCount := if o.countsAsRetry then row.retryCount + 1 else row.retryCount,
    stamped := row.stamped || o.stampUploadedAt)
  }

  /** The effect of apply_outcome on everything. */
  ghost predicate OutcomeStep(w: World, after: World, id: nat, file: Path, o: FileOutcome, skip: Option<SkipReason>) {
    && id < |w.rows| && |after.rows| == |w.rows| && file in w.files && |file| >= 2
    && |after.log| == |w.log| + 1
    && var e := after.log[|w.log|];
       && after == w.(rows := after.rows, files := after.files, log := w.log + [e])
       && e == LogEntry(id, file, e.dest, w.rows[id].uploadId, w.rows[id].guid, o, skip)
       && e.dest !in w.files && after.files == Moved(w.files, file, e.dest)
       && InFolder(e.dest, Folder(o)) && |e.dest| == |file| + 1 && e.dest[..|file| - 1] == Parent(file)
       && after.rows[id] == Recorded(w.rows[id], e.dest, o)
       && forall j :: 0 <= j < |w.rows| && j != id ==> after.rows[j] == Released(w.rows[j], e.dest, id)
  }

  /** A GUID is taken, or chunk calls are made under it. */
  ghost predicate ChunkStep(w: World, after: World, guid: nat) {
    && after == w.(trace := after.trace, store := after.store, nextGuid := after.nextGuid)
    && w.nextGuid <= after.nextGuid && guid < after.nextGuid
    && w.trace <= after.trace
    && (forall i :: |w.trace| <= i < |after.trace| ==> after.trace[i].Chunk? && after.trace[i].guid == guid)
    && forall g ::
         g != guid ==> (g in after.store <==> g in w.store) && (g in after.store ==> after.store[g] == w.store[g])
  }

  // ---- each step keeps the run's invariant ----

  lemma RowStepKeepsBase(run: Run, w: World, after: World, k: nat, all: seq<Attempt>, id: nat)
    requires RunOk(run) && Base(run, w, k, all) && k < |run.listed|
    requires RowStep(w, after, id, run.listed[k].path)
    requires TableOk(after.rows) && Offered(run, after, k, id)
    requires after.rows[id].fileName == Name(run.listed[k].path)
    ensures Base(run, after, k, all)
  {
    hide ToSend, Explained, AllExplained, RefusedUnder, AnsweredUnder, GaveUp;
    var file := run.listed[k].path;
    RowStepKeepsRows(run, w, after, k, id);
    hide TableOk, StatusAgrees, StatusFits, Grown, KeepsUploaded, Landed, AttemptOk;
    forall i | InRun(run, after, i) ensures Landed(run, after, after.log[i]) {
      assert InRun(run, w, i) && Landed(run, w, w.log[i]);
      RowStepKeepsLanded(run, w, after, id, file, w.log[i]);
    }
    forall i | 0 <= i < |all| ensures AttemptOk(run, after, k, all[i]) {
      assert AttemptOk(run, w, k, all[i]);
      RowStepKeepsAttempt(run, w, after, k, id, all[i]);
    }
    AccountedStays(run, w, after, k, all);
    AllExplainedStays(run, w, after);
  }

  lemma RowStepKeepsRows(run: Run, w: World, after: World, k: nat, id: nat)
    requires RunOk(run) && StatusAgrees(w.rows) && Grown(run, w) && Offered(run, after, k, id)
    requires RowStep(w, after, id, run.listed[k].path) && after.rows[id].fileName == Name(run.listed[k].path)
    ensures StatusAgrees(after.rows) && Grown(run, after)
    ensures id < |w.rows| ==> w.rows[id].status == Pending
  {
    assert id < |w.rows| ==> StatusFits(w.rows[id]);
    forall j | 0 <= j < |after.rows| ensures StatusFits(after.rows[j]) {
      assert j < |w.rows| ==> StatusFits(w.rows[j]);
    }
  }

  lemma RowStepKeepsLanded(run: Run, w: World, after: World, id: nat, file: Path, e: LogEntry)
    requires RowStep(w, after, id, file) && Landed(run, w, e)
    requires id < |w.rows| ==> w.rows[id].status == Pending
    ensures Landed(run, after, e)
  {
  }

  lemma RowStepKeepsAttempt(run: Run, w: World, after: World, k: nat, id: nat, a: Attempt)
    requires RunOk(run) && k < |run.listed| && RowStep(w, after, id, run.listed[k].path) && AttemptOk(run, w, k, a)
    ensures AttemptOk(run, after, k, a)
  {
    hide ToSend, GaveUp, ServerHolds, ExpectedSlot;
    assert a.file != run.listed[k].path;
  }

  lemma AccountedStays(run: Run, w: World, after: World, k: nat, all: seq<Attempt>)
    requires Accounted(run, w, k, all) && after.log == w.log
    ensures Accounted(run, after, k, all)
  {
  }

  lemma ChunkStepKeepsBase(run: Run, w: World, after: World, k: nat, all: seq<Attempt>, guid: nat)
    requires RunOk(run) && Base(run, w, k, all) && ChunkStep(w, after, guid)
    requires forall i :: 0 <= i < |all| ==> all[i].guid != guid
    ensures Base(run, after, k, all)
  {
    hide ToSend, Explained, AllExplained, RefusedUnder, AnsweredUnder, GaveUp;
    forall i | 0 <= i < |all| ensures AttemptOk(run, after, k, all[i]) {
      assert AttemptOk(run, w, k, all[i]);
      GaveUpGrows(w.trace, after.trace, all[i].guid, run.limit);
    }
    forall i | InRun(run, after, i) ensures Landed(run, after, after.log[i]) {
      assert InRun(run, w, i) && Landed(run, w, w.log[i]);
    }
    AccountedStays(run, w, after, k, all);
    AllExplainedStays(run, w, after);
  }

  lemma RowsAfterOutcome(w: World, after: World, id: nat, file: Path, o: FileOutcome, skip: Option<SkipReason>)
    requires OutcomeStep(w, after, id, file, o, skip) && Produced(o)
    requires StatusAgrees(w.rows) && w.rows[id].status == Pending
    ensures StatusAgrees(after.rows) && KeepsUploaded(w.rows, after.rows)
  {
    forall j | 0 <= j < |after.rows| ensures StatusFits(after.rows[j]) {
      assert StatusFits(w.rows[j]);
    }
  }

  lemma LandedStays(run: Run, w: World, after: World, id: nat, file: Path, o: FileOutcome, skip: Option<SkipReason>,
      e: LogEntry)
    requires OutcomeStep(w, after, id, file, o, skip) && Landed(run, w, e) && w.rows[id].status == Pending
    requires Intake(file)
    ensures Landed(run, after, e) && e.src != file
  {
  }

  lemma OutcomeStepKeepsRows(run: Run, w: World, after: World, id: nat, file: Path, o: FileOutcome,
      skip: Option<SkipReason>)
    requires Grown(run, w) && StatusAgrees(w.rows) && Contents(w.files) == Contents(run.before.files)
    requires OutcomeStep(w, after, id, file, o, skip) && Produced(o) && w.rows[id].status == Pending
    ensures StatusAgrees(after.rows) && Grown(run, after) && KeepsUploaded(w.rows, after.rows)
    ensures Contents(after.files) == Contents(run.before.files)
  {
    MoveConserves(w.files, file, after.log[|w.log|].dest);
    RowsAfterOutcome(w, after, id, file, o, skip);
  }

  lemma LeaverLands(run: Run, w: World, after: World, id: nat, file: Path, o: FileOutcome, skip: Option<SkipReason>)
    requires OutcomeStep(w, after, id, file, o, skip) && Produced(o) && Intake(file)
    requires w.rows[id].fileName == Name(file)
    requires file in run.before.files && w.files[file] == run.before.files[file]
    ensures Landed(run, after, after.log[|w.log|])
  {
  }

  /** What stays true of the table, the folders and the log when a file leaves. */
  lemma OutcomeStepKeepsLog(run: Run, w: World, after: World, k: nat, all: seq<Attempt>, id: nat, file: Path,
      o: FileOutcome, skip: Option<SkipReason>)
    requires RunOk(run) && Base(run, w, k, all) && OutcomeStep(w, after, id, file, o, skip) && Produced(o)
    requires w.rows[id].path == Live(file) && w.rows[id].status == Pending && w.rows[id].fileName == Name(file)
    requires file in run.before.files && w.files[file] == run.before.files[file]
    ensures StatusAgrees(after.rows) && Grown(run, after) && AllLanded(run, after)
    ensures KeepsUploaded(w.rows, after.rows)
    ensures Contents(after.files) == Contents(run.before.files)
  {
    hide AttemptsOk, Accounted, GuidsIssued, TableOk, AllExplained, AllLanded, Moved, Contents, RunOk, StatusFits,
         KeepsUploaded;
    PendingAtIntake(w, id, file);
    OutcomeStepKeepsRows(run, w, after, id, file, o, skip);
    LeavingKeepsLanded(run, w, after, id, file, o, skip);
  }

  lemma PendingAtIntake(w: World, id: nat, file: Path)
    requires StatusAgrees(w.rows) && id < |w.rows| && w.rows[id].path == Live(file) && w.rows[id].status == Pending
    ensures Intake(file) && w.rows[id].fileName == Name(file)
  {
    assert StatusFits(w.rows[id]);
  }

  lemma LeavingKeepsLanded(run: Run, w: World, after: World, id: nat, file: Path, o: FileOutcome,
      skip: Option<SkipReason>)
    requires AllLanded(run, w) && |run.before.log| <= |w.log| && Produced(o)
    requires OutcomeStep(w, after, id, file, o, skip) && w.rows[id].status == Pending && w.rows[id].path == Live(file)
    requires Intake(file) && w.rows[id].fileName == Name(file)
    requires file in run.before.files && w.files[file] == run.before.files[file]
    ensures AllLanded(run, after)
  {
    hide Landed;
    LeaverLands(run, w, after, id, file, o, skip);
    forall i | InRun(run, after, i)
      ensures Landed(run, after, after.log[i]) && (i < |w.log| ==> after.log[i].src != file) {
      if i < |w.log| {
        assert InRun(run, w, i) && after.log[i] == w.log[i];
        LandedStays(run, w, after, id, file, o, skip, w.log[i]);
      }
    }
    forall i, j | InRun(run, after, i) && InRun(run, after, j) && i != j ensures after.log[i].src != after.log[j].src {
      if i < |w.log| && j < |w.log| {
        assert InRun(run, w, i) && InRun(run, w, j);
      }
    }
  }

  lemma AttemptSurvives(run: Run, w: World, after: World, k: nat, id: nat, file: Path, o: FileOutcome,
      skip: Option<SkipReason>, a: Attempt)
    requires OutcomeStep(w, after, id, file, o, skip) && w.rows[id].path == Live(file)
    requires AttemptOk(run, w, k, a) && a.file != file
    ensures AttemptOk(run, after, k + 1, a) && AttemptOk(run, after, k, a)
  {
    hide ToSend, Explained, AllExplained, RefusedUnder, AnsweredUnder, GaveUp;
    assert IsListed(run, k + 1, a.file);
  }

  /** An offered file leaves at once: rejected, failed or skipped. */
  lemma OfferedLeaves(run: Run, w: World, after: World, k: nat, all: seq<Attempt>, id: nat, o: FileOutcome,
      skip: Option<SkipReason>)
    requires RunOk(run) && Base(run, w, k, all) && Offered(run, w, k, id) && Produced(o)
    requires OutcomeStep(w, after, id, run.listed[k].path, o, skip)
    requires TableOk(after.rows)
    requires Explained(run, after, after.log[|w.log|])
    ensures Base(run, after, k + 1, all) && KeepsUploaded(w.rows, after.rows)
  {
    hide ToSend, Explained, AllExplained, RefusedUnder, AnsweredUnder, GaveUp;
    hide AttemptsOk, StatusFits, Landed, Accounted, TableOk;
    var file := run.listed[k].path;
    PendingAtIntake(w, id, file);
    OutcomeStepKeepsLog(run, w, after, k, all, id, file, o, skip);
    OpenOnesSurvive(run, w, after, k, all, id, o, skip);
    assert after.log[|w.log|].src == file;
    assert IsLogged(run, after, file) && IsListed(run, k + 1, file);
    AccountedAfter(run, w, after, k, all, all, file);
    AllExplainedStays(run, w, after);
  }

  lemma OpenOnesSurvive(run: Run, w: World, after: World, k: nat, all: seq<Attempt>, id: nat, o: FileOutcome,
      skip: Option<SkipReason>)
    requires RunOk(run) && AttemptsOk(run, w, k, all) && Offered(run, w, k, id)
    requires OutcomeStep(w, after, id, run.listed[k].path, o, skip)
    ensures AttemptsOk(run, after, k + 1, all)
  {
    hide OutcomeStep, ToSend, GaveUp, ServerHolds, ExpectedSlot;
    forall i | 0 <= i < |all| ensures AttemptOk(run, after, k + 1, all[i]) {
      assert AttemptOk(run, w, k, all[i]) && all[i].file != run.listed[k].path;
      AttemptSurvives(run, w, after, k, id, run.listed[k].path, o, skip, all[i]);
    }
  }

  /** The log grew by one entry for `gone`; the open list lost at most that file. */
  lemma AccountedAfter(run: Run, w: World, after: World, k: nat, all: seq<Attempt>, rest: seq<Attempt>, gone: Path)
    requires Accounted(run, w, k, all) && w.log <= after.log && |after.log| == |w.log| + 1
    requires |run.before.log| <= |w.log|
    requires IsLogged(run, after, gone) && after.log[|w.log|].src == gone
    requires forall p :: IsOpen(all, p) ==> IsOpen(rest, p) || p == gone
    ensures IsListed(run, k + 1, gone) && k < |run.listed| && run.listed[k].path == gone ==>
              Accounted(run, after, k + 1, rest)
    ensures IsListed(run, k, gone) ==> Accounted(run, after, k, rest)
  {
  }

  lemma OthersStayOpen(run: Run, w: World, after: World, k: nat, all: seq<Attempt>, o: FileOutcome)
    requires AttemptsOk(run, w, k, all) && |all| > 0 && OutcomeStep(w, after, all[0].row, all[0].file, o, None)
    ensures AttemptsOk(run, after, k, all[1..])
    ensures forall p :: IsOpen(all, p) ==> IsOpen(all[1..], p) || p == all[0].file
  {
    hide ToSend, Explained, AllExplained, RefusedUnder, AnsweredUnder, GaveUp;
    assert AttemptOk(run, w, k, all[0]);
    forall i | 0 <= i < |all| - 1 ensures AttemptOk(run, after, k, all[1..][i]) {
      assert AttemptOk(run, w, k, all[i + 1]);
      AttemptSurvives(run, w, after, k, all[0].row, all[0].file, o, None, all[i + 1]);
    }
    forall p | IsOpen(all, p) ensures IsOpen(all[1..], p) || p == all[0].file {
      var i :| 0 <= i < |all| && all[i].file == p;
      if i > 0 {
        assert all[1..][i - 1].file == p;
      }
    }
  }

  lemma OpenIsExplained(run: Run, w: World, after: World, k: nat, a: Attempt, o: FileOutcome)
    requires AttemptOk(run, w, k, a) && OutcomeStep(w, after, a.row, a.file, o, None)
    requires o.kind in {Confirmed, GateParked, CallFailed}
    requires if o.kind == CallFailed then RefusedUnder(run, after, Some(a.guid))
               else AnsweredUnder(run, after, Some(a.guid), true)
    ensures Explained(run, after, after.log[|w.log|])
  {
  }

  /** An open file leaves: its registration failed, or the run is being closed. */
  lemma OpenLeaves(run: Run, w: World, after: World, k: nat, all: seq<Attempt>, o: FileOutcome)
    requires RunOk(run) && Base(run, w, k, all) && k == |run.listed| && |all| > 0 && Produced(o)
    requires o.kind in {Confirmed, GateParked, CallFailed}
    requires OutcomeStep(w, after, all[0].row, all[0].file, o, None)
    requires TableOk(after.rows)
    requires if o.kind == CallFailed then RefusedUnder(run, after, Some(all[0].guid))
               else AnsweredUnder(run, after, Some(all[0].guid), true)
    ensures Base(run, after, k, all[1..]) && KeepsUploaded(w.rows, after.rows)
  {
    hide ToSend, Explained, AllExplained, RefusedUnder, AnsweredUnder, GaveUp;
    var a := all[0];
    assert AttemptOk(run, w, k, a);
    assert StatusFits(w.rows[a.row]);
    OutcomeStepKeepsLog(run, w, after, k, all, a.row, a.file, o, None);
    OthersStayOpen(run, w, after, k, all, o);
    assert InRun(run, after, |w.log|);
    OpenIsExplained(run, w, after, k, a, o);
    hide AttemptsOk, AllLanded, StatusAgrees, TableOk, Grown, RunOk, KeepsUploaded, AttemptOk;
    AccountedAfter(run, w, after, k, all, all[1..], a.file);
    AllExplainedStays(run, w, after);
  }

  /** The offered file's chunks are all in CBOS: it joins the open list. */
  lemma OfferedOpens(run: Run, w: World, k: nat, all: seq<Attempt>, a: Attempt)
    requires RunOk(run) && Base(run, w, k, all) && Offered(run, w, k, a.row)
    requires a.file == run.listed[k].path && w.rows[a.row].uploadId == Some(a.uploadId)
    requires w.rows[a.row].guid == Some(a.guid)
    requires ToSend(run, a.file, Some(a.uploadId))
    requires run.before.nextGuid <= a.guid < w.nextGuid
    requires forall i :: 0 <= i < |all| ==> all[i].guid != a.guid
    requires ServerHolds(w.store, a.guid, a.sentName, run.before.files[a.file]) && !GaveUp(w.trace, a.guid, run.limit)
    requires SentAs(run, a.file, a.sentName)
    requires ExpectedSlot(run.candidates, a.uploadId)
    ensures Base(run, w, k + 1, all + [a])
  {
    hide ToSend, Explained, AllExplained, RefusedUnder, AnsweredUnder, GaveUp;
    forall i | 0 <= i < |all| + 1 ensures AttemptOk(run, w, k + 1, (all + [a])[i]) {
      if i < |all| {
        assert AttemptOk(run, w, k, all[i]);
        assert IsListed(run, k + 1, all[i].file);
      } else {
        assert IsListed(run, k + 1, a.file);
      }
    }
    forall i | 0 <= i < |all| ensures all[i].file != a.file {
      assert AttemptOk(run, w, k, all[i]);
    }
    forall m | 0 <= m < k + 1 && m < |run.listed|
      ensures IsLogged(run, w, run.listed[m].path) || IsOpen(all + [a], run.listed[m].path)
    {
      if m == k {
        assert (all + [a])[|all|].file == run.listed[m].path;
      } else if IsOpen(all, run.listed[m].path) {
        var i :| 0 <= i < |all| && all[i].file == run.listed[m].path;
        assert (all + [a])[i].file == run.listed[m].path;
      }
    }
    forall i | InRun(run, w, i) ensures IsListed(run, k + 1, w.log[i].src) {
      assert IsListed(run, k, w.log[i].src);
    }
  }

  lemma RotateKeepsAccounted(run: Run, w: World, k: nat, all: seq<Attempt>)
    requires Accounted(run, w, k, all) && |all| > 0
    ensures Accounted(run, w, k, all[1..] + [all[0]])
  {
    var rest := all[1..] + [all[0]];
    forall p | IsOpen(all, p) ensures IsOpen(rest, p) {
      var i :| 0 <= i < |all| && all[i].file == p;
      assert rest[if i == 0 then |all| - 1 else i - 1].file == p;
    }
  }

  lemma RotateKeepsAttempts(run: Run, w: World, k: nat, all: seq<Attempt>)
    requires AttemptsOk(run, w, k, all) && |all| > 0
    ensures AttemptsOk(run, w, k, all[1..] + [all[0]])
  {
    hide AttemptOk;
    var rest := all[1..] + [all[0]];
    forall i | 0 <= i < |rest| ensures AttemptOk(run, w, k, rest[i]) {
      assert rest[i] == if i < |all| - 1 then all[i + 1] else all[0];
    }
  }

  lemma CallAppendKeepsAttempt(run: Run, w: World, after: World, k: nat, a: Attempt)
    requires AttemptOk(run, w, k, a) && after == w.(trace := after.trace)
    requires |after.trace| == |w.trace| + 1 && w.trace <= after.trace && after.trace[|w.trace|].Register?
    ensures AttemptOk(run, after, k, a)
  {
    hide ToSend, SentAs, GaveUp, ServerHolds, ExpectedSlot;
    GaveUpGrows(w.trace, after.trace, a.guid, run.limit);
  }

  lemma CallAppendKeepsBase(run: Run, w: World, after: World, k: nat, all: seq<Attempt>)
    requires RunOk(run) && Base(run, w, k, all)
    requires after == w.(trace := after.trace) && |after.trace| == |w.trace| + 1 && w.trace <= after.trace
    requires after.trace[|w.trace|].guid < w.nextGuid && after.trace[|w.trace|].Register?
    ensures Base(run, after, k, all)
  {
    hide ToSend, Explained, AllExplained, RefusedUnder, AnsweredUnder, GaveUp, AttemptOk, TableOk, StatusAgrees;
    hide RunOk, Accounted, KeepsUploaded, IsListed;
    forall i | 0 <= i < |all| ensures AttemptOk(run, after, k, all[i]) {
      CallAppendKeepsAttempt(run, w, after, k, all[i]);
    }
    forall i | InRun(run, after, i) ensures Landed(run, after, after.log[i]) {
      assert InRun(run, w, i) && Landed(run, w, w.log[i]);
    }
    AccountedStays(run, w, after, k, all);
    AllExplainedStays(run, w, after);
  }

  /** A registered file moves to the end of the open list. */
  lemma RotateKeepsBase(run: Run, w: World, after: World, k: nat, all: seq<Attempt>)
    requires RunOk(run) && Base(run, w, k, all) && |all| > 0
    requires after == w.(trace := after.trace) && |after.trace| == |w.trace| + 1 && w.trace <= after.trace
    requires after.trace[|w.trace|].guid < w.nextGuid && after.trace[|w.trace|].Register?
    ensures Base(run, after, k, all[1..] + [all[0]])
  {
    CallAppendKeepsBase(run, w, after, k, all);
    RotateKeepsAccounted(run, after, k, all);
    RotateKeepsAttempts(run, after, k, all);
  }
}
