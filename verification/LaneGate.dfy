/** app/services/upload_service.py: what the upload lane concludes from its run, which
    slots it marks, and what it tells CBOS about them. */
module LaneGate {
  import opened Text
  import opened Chunking
  import opened FileService
  import opened UploadOutcome
  import opened UploadedFileRepository
  import opened CbosClient
  import opened UploadMatching
  import opened LaneState
  import opened LanePhases
  import BatchModel

  const CORP_ACTION_SEGMENT := "FOPositionChange"

  datatype Settings = Settings(
    maxRetries: int,
    holidayCheckEnforced: bool,
    chunkSizeKb: int,
    chunkRetryAttempts: int,
    validateColumns: bool,
    rewriteNames: bool)
  {
    /** How often setup is tried: a limit of 0 or less means not at all. */
    function SetupTries(): nat {
      Max(0, maxRetries)
    }

    function ChunkLimit(): nat {
      Max(1, chunkRetryAttempts)
    }
  }

  datatype Exit = Superseded | Deferred | Crashed | SetupFailed | NothingUploaded | Parked | Complete

  /** What a run decided, with what it decided it on. */
  datatype Report = Report(
    exit: Exit,
    listed: seq<ListedFile>,
    holiday: Option<Answer<bool>>,
    reservation: Option<Reservation>,
    rules: seq<UploadRule>,
    filled: set<string>)
  {
    /** The run this reports. */
    function RunFrom(before: World, task: Task, settings: Settings, sniffs: map<Path, Sniff>): Run {
      Run(before, task, listed, Candidates(), if reservation.Some? then Some(rules) else None,
          settings.validateColumns, sniffs, settings.ChunkLimit(), settings.rewriteNames)
    }

    function Candidates(): seq<UploadCandidate> {
      if reservation.Some? then reservation.value.candidates else []
    }
  }

  /** The exits that leave every file and every row exactly as they were. */
  predicate Idle(exit: Exit) {
    exit.Superseded? || exit.Deferred? || exit.Crashed?
  }

  datatype Setup = Ready(reservation: Reservation, rules: seq<UploadRule>) | Refused | Broken

  /** The listed files that are still on disk. */
  function Existing(files: seq<ListedFile>, disk: map<Path, Bytes>): (r: seq<ListedFile>)
    ensures forall i :: 0 <= i < |r| ==> r[i].path in disk && r[i] in files
    ensures forall f :: f in files && f.path in disk ==> f in r
  {
    if |files| == 0 then []
    else
      var rest, last := Existing(files[..|files| - 1], disk), files[|files| - 1];
      assert files == files[..|files| - 1] + [last];
      if last.path in disk then rest + [last] else rest
  }

  /** A task brings its own PROCESSID when that is present and not empty. */
  function Supplies(task: Task): Option<Supplied> {
    if task.supplied.Some? && task.supplied.value.processId != "" then task.supplied else None
  }

  lemma {:induction false} ExistingIsFlat(files: seq<ListedFile>, disk: map<Path, Bytes>)
    requires FlatManifest(files)
    ensures FlatManifest(Existing(files, disk))
    ensures forall f :: f in Existing(files, disk) ==> f in files
  {
    if |files| > 0 {
      var init, last := files[..|files| - 1], files[|files| - 1];
      ExistingIsFlat(init, disk);
      forall i | 0 <= i < |Existing(init, disk)| ensures Name(Existing(init, disk)[i].path) != Name(last.path) {
        assert Existing(init, disk)[i] in init;
      }
    }
  }

  // ---- which slots are marked optional, and which hold the batch ----

  predicate MarkedUpFront(c: UploadCandidate) {
    c.isOptional && !c.ExpectsAFile() && c.stepNo.Some?
  }

  predicate MarkedUnfilled(c: UploadCandidate, filled: set<string>) {
    c.isOptional && c.ExpectsAFile() && c.stepNo.Some? && c.uploadId !in filled && !c.AlreadyInCbos()
  }

  predicate IsMissing(c: UploadCandidate, filled: set<string>, allowed: set<string>) {
    c.NeedsUpload() && c.uploadId !in filled && c.ExpectsAFile() && c.uploadId !in allowed
  }

  /** Positions below n whose slot satisfies p, in table order. */
  function Positions(cs: seq<UploadCandidate>, p: UploadCandidate -> bool, n: nat): (ps: seq<nat>)
    requires n <= |cs|
    ensures forall i :: 0 <= i < |ps| ==> ps[i] < n
  {
    if n == 0 then [] else
      var rest := Positions(cs, p, n - 1);
      if p(cs[n - 1]) then rest + [n - 1] else rest
  }

  lemma {:induction false} PositionsExact(cs: seq<UploadCandidate>, p: UploadCandidate -> bool, n: nat)
    requires n <= |cs|
    ensures forall i :: i in Positions(cs, p, n) <==> 0 <= i < n && p(cs[i])
    ensures forall i, j :: 0 <= i < j < |Positions(cs, p, n)| ==> Positions(cs, p, n)[i] < Positions(cs, p, n)[j]
  {
    if n > 0 {
      PositionsExact(cs, p, n - 1);
    }
  }

  function Slots(cs: seq<UploadCandidate>, ps: seq<nat>): (r: seq<UploadCandidate>)
    requires forall i :: 0 <= i < |ps| ==> ps[i] < |cs|
    ensures |r| == |ps|
  {
    seq(|ps|, i requires 0 <= i < |ps| => cs[ps[i]])
  }

  /** The Step 8 calls for these slots; one without a STEPNO makes none. */
  function MarksFor(processId: string, slots: seq<UploadCandidate>): seq<Mark> {
    if |slots| == 0 then []
    else
      var rest, c := MarksFor(processId, slots[..|slots| - 1]), slots[|slots| - 1];
      if c.stepNo.Some? then rest + [Mark(processId, c.stepNo.value)] else rest
  }

  lemma MarksAppend(processId: string, cs: seq<UploadCandidate>, ps: seq<nat>, n: nat)
    requires (forall i :: 0 <= i < |ps| ==> ps[i] < |cs|) && n < |cs|
    ensures MarksFor(processId, Slots(cs, ps + [n])) ==
            MarksFor(processId, Slots(cs, ps))
              + (if cs[n].stepNo.Some? then [Mark(processId, cs[n].stepNo.value)] else [])
  {
    assert Slots(cs, ps + [n])[..|ps|] == Slots(cs, ps);
  }

  function UpFront(cs: seq<UploadCandidate>): (ps: seq<nat>)
    ensures forall i :: 0 <= i < |ps| ==> ps[i] < |cs|
  {
    Positions(cs, (c: UploadCandidate) => MarkedUpFront(c), |cs|)
  }

  function Unfilled(cs: seq<UploadCandidate>, filled: set<string>): (ps: seq<nat>)
    ensures forall i :: 0 <= i < |ps| ==> ps[i] < |cs|
  {
    Positions(cs, (c: UploadCandidate) => MarkedUnfilled(c, filled), |cs|)
  }

  function Missing(cs: seq<UploadCandidate>, filled: set<string>, allowed: set<string>): (ps: seq<nat>)
    ensures forall i :: 0 <= i < |ps| ==> ps[i] < |cs|
  {
    Positions(cs, (c: UploadCandidate) => IsMissing(c, filled, allowed), |cs|)
  }

  /** Step 8 touches exactly the slots Table2 itself excuses and nothing filled or
      already held: each once, and never one the gate reports missing. */
  lemma Step8Restraint(cs: seq<UploadCandidate>, filled: set<string>, allowed: set<string>, i: nat)
    requires i < |cs|
    ensures var marked := UpFront(cs) + Unfilled(cs, filled);
            && (i in marked <==>
                  && cs[i].isOptional && cs[i].stepNo.Some?
                  && (!cs[i].ExpectsAFile() || (cs[i].uploadId !in filled && !cs[i].AlreadyInCbos())))
            && (forall a, b :: 0 <= a < b < |marked| ==> marked[a] != marked[b])
            && (i in Missing(cs, filled, allowed) ==> i !in marked)
  {
    PositionsExact(cs, (c: UploadCandidate) => MarkedUpFront(c), |cs|);
    PositionsExact(cs, (c: UploadCandidate) => MarkedUnfilled(c, filled), |cs|);
    PositionsExact(cs, (c: UploadCandidate) => IsMissing(c, filled, allowed), |cs|);
    var first, second := UpFront(cs), Unfilled(cs, filled);
    var marked := first + second;
    forall a, b | 0 <= a < b < |marked| ensures marked[a] != marked[b] {
      if a < |first| <= b {
        assert first[a] in first && second[b - |first|] in second;
      }
    }
  }

  /** Why each file slot may stand when a batch is confirmed. */
  predicate Excused(c: UploadCandidate, filled: set<string>, allowed: set<string>) {
    c.ExpectsAFile() ==> c.isOptional || c.AlreadyInCbos() || c.uploadId in filled || c.uploadId in allowed
  }

  // ---- being optional is a policy, and no evidence of a file ----

  ghost predicate SameButFlags(cs: seq<UploadCandidate>, ds: seq<UploadCandidate>) {
    |cs| == |ds| && forall i :: 0 <= i < |cs| ==> ds[i] == cs[i].(isOptional := ds[i].isOptional)
  }

  lemma {:induction false} FlagsKeepSlotOf(cs: seq<UploadCandidate>, ds: seq<UploadCandidate>, uploadId: string)
    requires SameButFlags(cs, ds)
    ensures SlotOf(cs, uploadId) == SlotOf(ds, uploadId)
  {
    if |cs| > 0 {
      FlagsKeepSlotOf(cs[..|cs| - 1], ds[..|ds| - 1], uploadId);
    }
  }

  lemma FlagsKeepSlotInCbos(cs: seq<UploadCandidate>, ds: seq<UploadCandidate>, uploadId: string)
    requires SameButFlags(cs, ds)
    ensures SlotInCbos(cs, uploadId) <==> SlotInCbos(ds, uploadId)
  {
    FlagsKeepSlotOf(cs, ds, uploadId);
  }

  /** However the optional flags of a table are set, the same files are sent and the same
      ones may be skipped: only the gate looks at a flag, and only at the slot's own. */
  lemma FlagsNeverSkipAFile(run: Run, other: seq<UploadCandidate>, p: Path, uploadId: Option<string>, e: LogEntry)
    requires SameButFlags(run.candidates, other)
    ensures ToSend(run.(candidates := other), p, uploadId) <==> ToSend(run, p, uploadId)
    ensures SkipJustified(run.(candidates := other), e) <==> SkipJustified(run, e)
  {
    hide SlotInCbos, VerdictOn, HasCompleted;
    var flagged := run.(candidates := other);
    forall f ensures run.rules.Some? ==> VerdictOn(flagged, f) == VerdictOn(run, f) {
      VerdictKeepsToRules(run, other, f);
    }
    if uploadId.Some? {
      FlagsKeepSlotInCbos(run.candidates, other, uploadId.value);
    }
    if e.uploadId.Some? {
      FlagsKeepSlotInCbos(run.candidates, other, e.uploadId.value);
    }
  }

  lemma VerdictKeepsToRules(run: Run, other: seq<UploadCandidate>, f: ListedFile)
    ensures run.rules.Some? ==> VerdictOn(run.(candidates := other), f) == VerdictOn(run, f)
  {
  }

  /** At the gate a flag excuses its own slot and no other. */
  lemma FlagExcusesItsSlot(cs: seq<UploadCandidate>, ds: seq<UploadCandidate>, filled: set<string>,
      allowed: set<string>, i: nat)
    requires SameButFlags(cs, ds) && i < |cs|
    ensures ds[i].isOptional ==> i !in Missing(ds, filled, allowed)
    ensures ds[i].isOptional == cs[i].isOptional ==>
              (i in Missing(ds, filled, allowed) <==> i in Missing(cs, filled, allowed))
  {
    PositionsExact(cs, (c: UploadCandidate) => IsMissing(c, filled, allowed), |cs|);
    PositionsExact(ds, (c: UploadCandidate) => IsMissing(c, filled, allowed), |ds|);
  }

  // ---- the verdict, and the calls that go with it ----

  function UpFrontMarks(r: Reservation): seq<Mark> {
    MarksFor(r.processId, Slots(r.candidates, UpFront(r.candidates)))
  }

  function GateMarks(exit: Exit, r: Reservation, filled: set<string>): seq<Mark> {
    if exit in {Parked, Complete} then MarksFor(r.processId, Slots(r.candidates, Unfilled(r.candidates, filled)))
      else []
  }

  function KindsOf(exit: Exit): set<Kind> {
    match exit
    case Complete => {Rejected, CallFailed, IdempotentSkip, Confirmed}
    case Parked => {Rejected, CallFailed, IdempotentSkip, GateParked}
    case NothingUploaded => {Rejected, CallFailed, IdempotentSkip}
    case SetupFailed => {CallFailed}
    case _ => {}
  }

  /** The status the batch row ends up with; a crash is recorded by the worker. */
  function VerdictStatus(exit: Exit): BatchModel.BatchStatus {
    match exit
    case Superseded => BatchModel.Unconfirmed
    case Deferred => BatchModel.Queued
    case Crashed => BatchModel.Failed
    case SetupFailed => BatchModel.Failed
    case NothingUploaded => BatchModel.Failed
    case Parked => BatchModel.Incomplete
    case Complete => BatchModel.Confirmed
  }

  /** Some file of this UploadID had already reached CBOS under an earlier 'uploaded' row. */
  ghost predicate SlotUploadedEarlier(run: Run, uploadId: string) {
    exists r ::
      && 0 <= r < |run.before.rows|
      && run.before.rows[r].status == Uploaded
      && run.before.rows[r].uploadId == Some(uploadId)
                && run.before.rows[r].segment == run.task.segment
                && run.before.rows[r].folderDate == run.task.folderDate
  }

  ghost predicate SlotHeldByCbos(cs: seq<UploadCandidate>, uploadId: string) {
    exists c :: 0 <= c < |cs| && cs[c].uploadId == uploadId && cs[c].AlreadyInCbos()
  }

  lemma FilledIsInCbos(run: Run, w: World, filled: set<string>, u: string)
    requires Finished(run, w, filled) && u in filled
    ensures RegisteredSlot(run, w, u) || SlotHeldByCbos(run.candidates, u) || SlotUploadedEarlier(run, u)
  {
    if !RegisteredSlot(run, w, u) {
      var i :| InRun(run, w, i) && w.log[i].outcome.kind == IdempotentSkip && w.log[i].uploadId == Some(u);
      assert Explained(run, w, w.log[i]);
      match w.log[i].skip.value
      case CbosStatus =>
      case EarlierRow(r) => assert run.before.rows[r].uploadId == Some(u);
    }
  }

  // ---- where a run ends, told from its calls and its log alone ----

  /** No file of this run is in CBOS: each was rejected, or a call for it failed. */
  ghost predicate NothingReached(run: Run, w: World) {
    forall i :: InRun(run, w, i) ==> w.log[i].outcome.kind in {Rejected, CallFailed}
  }

  /** A mandatory slot, on no allowlist, that neither CBOS nor this run has filled. */
  ghost predicate OpenSlot(run: Run, w: World, c: UploadCandidate, allowed: set<string>) {
    && c.uploadId != "" && c.uploadId != "0"
    && !c.isOptional && !c.AlreadyInCbos() && c.uploadId !in allowed
    && !RegisteredSlot(run, w, c.uploadId) && !SkippedSlot(run, w, c.uploadId)
  }

  /** Files were listed and none reached CBOS; else some mandatory slot is open, or none. */
  ghost predicate GateMeans(run: Run, w: World, allowed: set<string>, exit: Exit) {
    && exit in {NothingUploaded, Parked, Complete}
    && (exit == NothingUploaded <==> run.task.files != [] && NothingReached(run, w))
    && (exit == Parked <==>
          && exit != NothingUploaded
          && exists i :: 0 <= i < |run.candidates| && OpenSlot(run, w, run.candidates[i], allowed))
  }

  lemma AckedIsFilled(run: Run, w: World, filled: set<string>, p: Path)
    requires FilledExactly(run, w, filled) && Acked(run, w, p)
    ensures filled != {}
  {
    var i :| InTrace(run, w, i) && Acknowledged(w.trace[i]) && w.trace[i].file == p;
    assert RegisteredSlot(run, w, w.trace[i].uploadId);
  }

  /** Nothing is filled exactly when no file reached CBOS, now or before. */
  lemma FilledMeansReached(run: Run, w: World, filled: set<string>)
    requires Finished(run, w, filled)
    ensures filled == {} <==> NothingReached(run, w)
  {
    hide Finished;
    if filled == {} {
      forall i | InRun(run, w, i) ensures w.log[i].outcome.kind in {Rejected, CallFailed} {
        if w.log[i].outcome.kind !in {Rejected, CallFailed} {
          ReachedFills(run, w, filled, i);
        }
      }
    } else {
      var u :| u in filled;
      FilledIsLogged(run, w, filled, u);
    }
  }

  lemma ReachedFills(run: Run, w: World, filled: set<string>, i: int)
    requires Finished(run, w, filled) && InRun(run, w, i) && w.log[i].outcome.kind !in {Rejected, CallFailed}
    ensures filled != {}
  {
    hide ToSend, SkipJustified, AnsweredUnder, Acked, ChunksFirst, AllBacked, AtRest, TwoPhase, Grown;
    assert Landed(run, w, w.log[i]) && Explained(run, w, w.log[i]);
    if w.log[i].outcome.kind == IdempotentSkip {
      SkipHasId(run, w.log[i]);
      assert SkippedSlot(run, w, w.log[i].uploadId.value);
    } else {
      AckedIsFilled(run, w, filled, w.log[i].src);
    }
  }

  lemma SkipHasId(run: Run, e: LogEntry)
    requires SkipJustified(run, e)
    ensures e.uploadId.Some?
  {
  }

  lemma FilledIsLogged(run: Run, w: World, filled: set<string>, u: string)
    requires Finished(run, w, filled) && u in filled
    ensures !NothingReached(run, w)
  {
    hide AtRest, Routed, TwoPhase, Grown;
    if SkippedSlot(run, w, u) {
      var i :| InRun(run, w, i) && w.log[i].outcome.kind == IdempotentSkip && w.log[i].uploadId == Some(u);
    } else {
      var i :| InTrace(run, w, i) && Acknowledged(w.trace[i]) && w.trace[i].uploadId == u;
      AckIsLogged(run, w, i);
    }
  }

  lemma AckIsLogged(run: Run, w: World, i: int)
    requires Routed(run, w) && TwoPhase(run, w) && InTrace(run, w, i) && Acknowledged(w.trace[i])
    ensures !NothingReached(run, w)
  {
    hide AllLanded, Explained, ChunksFirst, Contents, ServerHolds, GaveUp, ExpectedSlot;
    assert Backed(run, w, w.trace[i]);
    var m :| 0 <= m < |run.listed| && run.listed[m].path == w.trace[i].file;
    assert IsLogged(run, w, run.listed[m].path) && Acked(run, w, run.listed[m].path);
    var j :| InRun(run, w, j) && w.log[j].src == run.listed[m].path;
  }

  /** The lane decides by the set of filled slots; this is what its decision means. */
  lemma GateTells(run: Run, w: World, filled: set<string>, allowed: set<string>, exit: Exit)
    requires Finished(run, w, filled)
    requires if run.task.files != [] && filled == {} then exit == NothingUploaded
             else exit == if Missing(run.candidates, filled, allowed) != [] then Parked else Complete
    ensures GateMeans(run, w, allowed, exit)
  {
    FilledMeansReached(run, w, filled);
    var cs, missing := run.candidates, Missing(run.candidates, filled, allowed);
    PositionsExact(cs, (c: UploadCandidate) => IsMissing(c, filled, allowed), |cs|);
    forall i | 0 <= i < |cs| ensures OpenSlot(run, w, cs[i], allowed) <==> i in missing {
    }
    if missing != [] {
      assert missing[0] in missing;
    }
  }

  /** A batch is confirmed only when nothing CBOS expects is left open: each file slot is
      excused by Table2, already held, allowlisted, or has a file that reached CBOS. */
  lemma ConfirmedIsComplete(run: Run, w: World, filled: set<string>, allowed: set<string>, i: nat)
    requires Finished(run, w, filled) && GateMeans(run, w, allowed, Complete) && i < |run.candidates|
    requires run.candidates[i].ExpectsAFile()
    ensures var c := run.candidates[i];
            || c.isOptional || c.uploadId in allowed
            || SlotHeldByCbos(run.candidates, c.uploadId)
            || RegisteredSlot(run, w, c.uploadId)
            || SlotUploadedEarlier(run, c.uploadId)
  {
    var c := run.candidates[i];
    assert !OpenSlot(run, w, c, allowed);
    if SkippedSlot(run, w, c.uploadId) {
      FilledIsInCbos(run, w, filled, c.uploadId);
    }
  }

  /** A non-empty batch that is parked or confirmed has a file that was registered or was in
      CBOS already. */
  lemma SomethingReached(run: Run, w: World, filled: set<string>, allowed: set<string>, exit: Exit)
    requires Finished(run, w, filled) && GateMeans(run, w, allowed, exit)
    requires run.task.files != [] && exit != NothingUploaded
    ensures exists m :: 0 <= m < |run.listed|
              && exists i :: InRun(run, w, i) && w.log[i].src == run.listed[m].path
                   && (Acked(run, w, w.log[i].src) || w.log[i].outcome.kind == IdempotentSkip)
  {
    hide Explained, AtRest, TwoPhase, Grown, FilledExactly;
    var i :| InRun(run, w, i) && w.log[i].outcome.kind !in {Rejected, CallFailed};
    assert Landed(run, w, w.log[i]) && IsListed(run, |run.listed|, w.log[i].src);
    var m :| 0 <= m < |run.listed| && run.listed[m].path == w.log[i].src;
  }

  // ---- force-proceed ----

  /** The mandatory slots of the re-read Table2 that hold nothing yet. */
  function Empty(cs: seq<UploadCandidate>): (ps: seq<nat>)
    ensures forall i :: 0 <= i < |ps| ==> ps[i] < |cs|
  {
    Positions(cs, (c: UploadCandidate) => c.NeedsUpload(), |cs|)
  }

  function EmptyFileSlots(cs: seq<UploadCandidate>): set<string> {
    set c | c in cs && c.NeedsUpload() && c.ExpectsAFile() :: c.uploadId
  }

  predicate MayProceed(cs: seq<UploadCandidate>, requested: set<string>, allowed: set<string>) {
    requested <= EmptyFileSlots(cs) && EmptyFileSlots(cs) <= allowed + requested
  }

  /** A forced batch still leaves no file slot unexplained, and ops named only slots that
      really were open. */
  lemma ProceedIsComplete(cs: seq<UploadCandidate>, requested: set<string>, allowed: set<string>)
    ensures MayProceed(cs, requested, allowed) <==>
              && (forall i :: 0 <= i < |cs| ==> Excused(cs[i], requested, allowed))
              && (forall u ::
                    u in requested ==> exists i :: 0 <= i < |cs| && cs[i].uploadId == u && !Excused(cs[i], {}, {}))
  {
    if MayProceed(cs, requested, allowed) {
      forall i | 0 <= i < |cs| ensures Excused(cs[i], requested, allowed) {
        if cs[i].ExpectsAFile() && cs[i].NeedsUpload() {
          assert cs[i].uploadId in EmptyFileSlots(cs);
        }
      }
      forall u | u in requested ensures exists i :: 0 <= i < |cs| && cs[i].uploadId == u && !Excused(cs[i], {}, {}) {
        assert u in EmptyFileSlots(cs);
      }
    }
  }

  /** The distinct UploadIDs a file is expected under, in table order. */
  function FileSlots(cs: seq<UploadCandidate>): seq<string> {
    if |cs| == 0 then []
    else
      var rest, last := FileSlots(cs[..|cs| - 1]), cs[|cs| - 1];
      if last.ExpectsAFile() && last.uploadId !in rest then rest + [last.uploadId] else rest
  }

  /** Each expected UploadID once; a computation or posting step never. */
  lemma {:induction false} FileSlotsExact(cs: seq<UploadCandidate>)
    ensures forall u :: u in FileSlots(cs) <==> ExpectedSlot(cs, u)
    ensures forall i, j :: 0 <= i < j < |FileSlots(cs)| ==> FileSlots(cs)[i] != FileSlots(cs)[j]
  {
    if |cs| > 0 {
      var init, last := cs[..|cs| - 1], cs[|cs| - 1];
      FileSlotsExact(init);
      forall u ensures ExpectedSlot(cs, u) <==> ExpectedSlot(init, u) || (last.ExpectsAFile() && last.uploadId == u) {
        if ExpectedSlot(init, u) {
          var c :| 0 <= c < |init| && init[c].ExpectsAFile() && init[c].uploadId == u;
          assert cs[c] == init[c];
        }
        if ExpectedSlot(cs, u) {
          var c :| 0 <= c < |cs| && cs[c].ExpectsAFile() && cs[c].uploadId == u;
          assert c < |init| ==> init[c] == cs[c];
        }
        assert last.ExpectsAFile() ==> ExpectedSlot(cs, last.uploadId);
      }
    }
  }

  function Usable(answers: seq<RuleAnswer>): seq<UploadRule> {
    if |answers| == 0 then []
    else
      var rest, last := Usable(answers[..|answers| - 1]), answers[|answers| - 1].answer;
      if last.Ok? && last.value.Some? then rest + [last.value.value] else rest
  }

  /** Exactly the answers that hold a rule give one, in their order. */
  lemma {:induction false} UsableExact(answers: seq<RuleAnswer>) returns (ps: seq<nat>)
    ensures |ps| == |Usable(answers)| && forall i, j :: 0 <= i < j < |ps| ==> ps[i] < ps[j]
    ensures forall i :: i in ps <==> 0 <= i < |answers| && answers[i].answer.Ok? && answers[i].answer.value.Some?
    ensures forall k :: 0 <= k < |ps| ==> ps[k] < |answers| && answers[ps[k]].answer == Ok(Some(Usable(answers)[k]))
  {
    ps := [];
    if |answers| > 0 {
      ps := UsableExact(answers[..|answers| - 1]);
      var last := answers[|answers| - 1].answer;
      if last.Ok? && last.value.Some? {
        ps := ps + [|answers| - 1];
      }
    }
  }

  /** These Step 4 answers are one for each expected slot, and the rules are what they gave. */
  ghost predicate RulesFrom(answers: seq<RuleAnswer>, cs: seq<UploadCandidate>, rules: seq<UploadRule>) {
    && |answers| == |FileSlots(cs)| && rules == Usable(answers)
    && forall i :: 0 <= i < |answers| ==> answers[i].answer.Ok? && answers[i].uploadId == FileSlots(cs)[i]
  }

  /** The last Step 4 answers are those. */
  ghost predicate RulesAsked(asked: seq<RuleAnswer>, cs: seq<UploadCandidate>, rules: seq<UploadRule>) {
    exists before, news :: asked == before + news && RulesFrom(news, cs, rules)
  }

  lemma NextSlot(cs: seq<UploadCandidate>, i: nat)
    requires i < |cs|
    ensures FileSlots(cs[..i + 1]) == FileSlots(cs[..i])
              + (if cs[i].ExpectsAFile() && cs[i].uploadId !in FileSlots(cs[..i]) then [cs[i].uploadId] else [])
  {
    assert cs[..i + 1][..i] == cs[..i];
  }

  lemma NextRule(answers: seq<RuleAnswer>, cs: seq<UploadCandidate>, i: nat, rules: seq<UploadRule>, a: RuleAnswer)
    requires i < |cs| && RulesFrom(answers, cs[..i], rules)
    requires cs[i].ExpectsAFile() && cs[i].uploadId !in FileSlots(cs[..i]) && a.uploadId == cs[i].uploadId
    requires a.answer.Ok?
    ensures RulesFrom(
              answers + [a], cs[..i + 1],
              if a.answer.value.Some? then rules + [a.answer.value.value] else rules)
  {
    NextSlot(cs, i);
    assert (answers + [a])[..|answers|] == answers;
    hide FileSlots;
  }

  lemma SameRules(answers: seq<RuleAnswer>, cs: seq<UploadCandidate>, i: nat, rules: seq<UploadRule>)
    requires i < |cs| && RulesFrom(answers, cs[..i], rules)
    requires !cs[i].ExpectsAFile() || cs[i].uploadId in FileSlots(cs[..i])
    ensures RulesFrom(answers, cs[..i + 1], rules)
  {
    NextSlot(cs, i);
    hide FileSlots;
  }

  ghost predicate RulesOffered(rules: seq<UploadRule>, cs: seq<UploadCandidate>) {
    forall i :: 0 <= i < |rules| ==> ExpectedSlot(cs, rules[i].uploadId)
  }

  /** Every line logged since `before` is of one of these kinds. */
  ghost predicate OnlyKinds(log: seq<LogEntry>, before: seq<LogEntry>, kinds: set<Kind>) {
    before <= log && forall i :: |before| <= i < |log| ==> log[i].outcome.kind in kinds
  }

  // ---- what one run of the upload lane promises ----

  /** An idle exit leaves everything as it was; any other finishes the run it reports, with
      every file's outcome of a kind that exit hands out, and a run that got past setup ends
      as the gate says. */
  ghost predicate LaneDone(before: World, after: World, task: Task, report: Report, allowed: set<string>,
      settings: Settings, sniffs: map<Path, Sniff>) {
    && report.listed == Existing(task.files, before.files)
    && (Idle(report.exit) ==> after == before)
    && (!Idle(report.exit) ==>
          && Finished(report.RunFrom(before, task, settings, sniffs), after, report.filled)
          && OnlyKinds(after.log, before.log, KindsOf(report.exit)))
    && (report.exit == SetupFailed ==> after.trace == before.trace && after.store == before.store)
    && (report.exit in {NothingUploaded, Parked, Complete} ==>
          GateMeans(report.RunFrom(before, task, settings, sniffs), after, allowed, report.exit))
  }

  /** The Step 8 calls are the ones the exit calls for, and Step 9 is polled once, on
      confirmation alone. */
  ghost predicate CallsDone(marks: seq<Mark>, marks': seq<Mark>, polls: nat, polls': nat, report: Report) {
    && polls' == polls + (if report.exit == Complete then 1 else 0)
    && (report.exit !in {NothingUploaded, Parked, Complete} ==> marks' == marks)
    && (report.exit in {NothingUploaded, Parked, Complete} ==>
          && report.reservation.Some?
          && marks' == marks + UpFrontMarks(report.reservation.value)
               + GateMarks(report.exit, report.reservation.value, report.filled))
  }

  /** A slot that Step 8 is owed: Table2 excuses it, and either no file is ever expected in
      it, or none was seen by the time the gate was reached. */
  ghost predicate MarkDue(run: Run, w: World, c: UploadCandidate, exit: Exit) {
    && c.isOptional && c.stepNo.Some?
    && (|| c.uploadId == "" || c.uploadId == "0"
        || (&& exit != NothingUploaded && !c.AlreadyInCbos()
            && !RegisteredSlot(run, w, c.uploadId) && !SkippedSlot(run, w, c.uploadId)))
  }

  /** These calls mark the slots at these places, in this order. */
  ghost predicate MarksAt(marks: seq<Mark>, r: Reservation, ps: seq<nat>) {
    && |marks| == |ps|
    && forall k :: 0 <= k < |ps| ==>
         && ps[k] < |r.candidates| && r.candidates[ps[k]].stepNo.Some?
         && marks[k] == Mark(r.processId, r.candidates[ps[k]].stepNo.value)
  }

  lemma {:induction false} MarksOf(r: Reservation, ps: seq<nat>)
    requires forall k :: 0 <= k < |ps| ==> ps[k] < |r.candidates| && r.candidates[ps[k]].stepNo.Some?
    ensures MarksAt(MarksFor(r.processId, Slots(r.candidates, ps)), r, ps)
  {
    if |ps| > 0 {
      MarksOf(r, ps[..|ps| - 1]);
      assert Slots(r.candidates, ps)[..|ps| - 1] == Slots(r.candidates, ps[..|ps| - 1]);
    }
  }

  lemma UpFrontAt(cs: seq<UploadCandidate>)
    ensures forall i :: i in UpFront(cs) <==> 0 <= i < |cs| && MarkedUpFront(cs[i])
    ensures forall i, j :: 0 <= i < j < |UpFront(cs)| ==> UpFront(cs)[i] != UpFront(cs)[j]
  {
    PositionsExact(cs, (c: UploadCandidate) => MarkedUpFront(c), |cs|);
  }

  lemma UnfilledAt(cs: seq<UploadCandidate>, filled: set<string>)
    ensures forall i :: i in Unfilled(cs, filled) <==> 0 <= i < |cs| && MarkedUnfilled(cs[i], filled)
    ensures forall i, j :: 0 <= i < j < |Unfilled(cs, filled)| ==> Unfilled(cs, filled)[i] != Unfilled(cs, filled)[j]
  {
    PositionsExact(cs, (c: UploadCandidate) => MarkedUnfilled(c, filled), |cs|);
  }

  lemma AllMarked(r: Reservation, first: seq<nat>, second: seq<nat>)
    requires forall k :: 0 <= k < |first| ==> first[k] < |r.candidates| && r.candidates[first[k]].stepNo.Some?
    requires forall k :: 0 <= k < |second| ==> second[k] < |r.candidates| && r.candidates[second[k]].stepNo.Some?
    ensures MarksAt(
              MarksFor(r.processId, Slots(r.candidates, first)) + MarksFor(r.processId, Slots(r.candidates, second)),
              r, first + second)
  {
    hide MarksFor, Slots;
    MarksOf(r, first);
    MarksOf(r, second);
  }

  /** Two lists without repetition that share nothing. */
  lemma Disjoined(first: seq<nat>, second: seq<nat>)
    requires forall i, j :: 0 <= i < j < |first| ==> first[i] != first[j]
    requires forall i, j :: 0 <= i < j < |second| ==> second[i] != second[j]
    requires forall x :: x in first ==> x !in second
    ensures forall i, j :: 0 <= i < j < |first + second| ==> (first + second)[i] != (first + second)[j]
  {
    forall i, j | 0 <= i < j < |first + second| ensures (first + second)[i] != (first + second)[j] {
      if i < |first| <= j {
        assert first[i] in first && second[j - |first|] in second;
      }
    }
  }

  /** Step 8 was called once for each slot it is owed to, and for no other. */
  lemma MarksTold(run: Run, w: World, marks: seq<Mark>, marks': seq<Mark>, polls: nat, polls': nat, report: Report)
      returns (ps: seq<nat>)
    requires CallsDone(marks, marks', polls, polls', report) && report.exit in {NothingUploaded, Parked, Complete}
    requires run.candidates == report.reservation.value.candidates && FilledExactly(run, w, report.filled)
    ensures marks <= marks' && MarksAt(marks'[|marks|..], report.reservation.value, ps)
    ensures forall i, j :: 0 <= i < j < |ps| ==> ps[i] != ps[j]
    ensures forall i :: 0 <= i < |run.candidates| ==>
              (i in ps <==> MarkDue(run, w, run.candidates[i], report.exit))
  {
    hide RegisteredSlot, SkippedSlot, MarksFor, Slots, UpFront, Unfilled, MarksAt;
    var r, cs := report.reservation.value, run.candidates;
    var first, second := UpFront(cs), if report.exit == NothingUploaded then [] else Unfilled(cs, report.filled);
    ps := first + second;
    UpFrontAt(cs);
    UnfilledAt(cs, report.filled);
    AllMarked(r, first, second);
    Disjoined(first, second);
    NoMarks(r);
    assert marks' == marks + (MarksFor(r.processId, Slots(cs, first)) + MarksFor(r.processId, Slots(cs, second)));
    DueIs(run, w, first, second, report.filled, report.exit);
  }

  lemma NoMarks(r: Reservation)
    ensures MarksFor(r.processId, Slots(r.candidates, [])) == []
  {
  }

  lemma DueIs(run: Run, w: World, first: seq<nat>, second: seq<nat>, filled: set<string>, exit: Exit)
    requires FilledExactly(run, w, filled)
    requires forall i :: i in first <==> 0 <= i < |run.candidates| && MarkedUpFront(run.candidates[i])
    requires forall i :: i in second <==>
               0 <= i < |run.candidates| && exit != NothingUploaded && MarkedUnfilled(run.candidates[i], filled)
    ensures forall i :: 0 <= i < |run.candidates| ==>
              (i in first + second <==> MarkDue(run, w, run.candidates[i], exit))
  {
    hide RegisteredSlot, SkippedSlot;
    forall i | 0 <= i < |run.candidates| ensures i in first + second <==> MarkDue(run, w, run.candidates[i], exit) {
      assert i in first + second <==> i in first || i in second;
    }
  }

  lemma {:induction false} SteplessMakeNone(r: Reservation, p: UploadCandidate -> bool, q: UploadCandidate -> bool,
      n: nat)
    requires n <= |r.candidates| && forall c :: q(c) <==> p(c) && c.stepNo.Some?
    ensures MarksFor(r.processId, Slots(r.candidates, Positions(r.candidates, p, n)))
         == MarksFor(r.processId, Slots(r.candidates, Positions(r.candidates, q, n)))
  {
    hide MarksFor, Slots;
    if n > 0 {
      SteplessMakeNone(r, p, q, n - 1);
      MarksAppend(r.processId, r.candidates, Positions(r.candidates, p, n - 1), n - 1);
      MarksAppend(r.processId, r.candidates, Positions(r.candidates, q, n - 1), n - 1);
    }
  }

  /** A force-proceed marks each slot that is neither optional nor held, once and in table
      order, as far as it has a STEPNO; no other slot is touched. */
  lemma ProceedMarksTold(r: Reservation) returns (ps: seq<nat>)
    ensures MarksAt(MarksFor(r.processId, Slots(r.candidates, Empty(r.candidates))), r, ps)
    ensures forall i, j :: 0 <= i < j < |ps| ==> ps[i] < ps[j]
    ensures forall i :: 0 <= i < |r.candidates| ==>
              (i in ps <==>
                 && !r.candidates[i].isOptional && !r.candidates[i].AlreadyInCbos() && r.candidates[i].stepNo.Some?)
  {
    var cs := r.candidates;
    var p := (c: UploadCandidate) => c.NeedsUpload();
    var q := (c: UploadCandidate) => c.NeedsUpload() && c.stepNo.Some?;
    ps := Positions(cs, q, |cs|);
    PositionsExact(cs, q, |cs|);
    SteplessMakeNone(r, p, q, |cs|);
    forall k | 0 <= k < |ps| ensures cs[ps[k]].stepNo.Some? {
      assert ps[k] in ps;
    }
    MarksOf(r, ps);
  }

  /** The task brings the PROCESSID it is to be run under. */
  ghost predicate Brings(task: Task) {
    task.supplied.Some? && task.supplied.value.processId != ""
  }

  /** A PROCESSID the task brings is used as it came, with its own slots, and CBOS is asked
      for no other; setup then fails only over a reservation without slots or a Step 4 call
      that raised. */
  ghost predicate BroughtUsed(task: Task, t: Talk, t': Talk, r: Setup)
    requires Brings(task)
  {
    var s := task.supplied.value;
    && t'.lookups == t.lookups && t'.reserves == t.reserves && t'.answers == t.answers && !r.Broken?
    && (r.Ready? ==>
          && r.reservation.processId == s.processId && r.reservation.candidates == s.table2
          && (!r.reservation.isRunnable <==> s.table1.Some? && s.table1.value.isRunnable == Some(false)))
    && (r.Refused? ==> s.table2 == [] || AskedInVain(t, t'))
  }

  /** A Step 4 call made since then raised. */
  ghost predicate AskedInVain(t: Talk, t': Talk) {
    exists i :: |t.asked| <= i < |t'.asked| && t'.asked[i].answer.Raised?
  }

  /** Without one the day's PROCESSID is looked up once and reserved again, or a new one when
      there is none, as often as the limit allows, and the first answer that can be used is. */
  ghost predicate OwnReserved(t: Talk, t': Talk, tries: nat, r: Setup) {
    && (exists found :: t'.lookups == t.lookups + [found] && AllReserve(t, t', found))
    && |t'.reserves| - |t.reserves| == |t'.answers| - |t.answers| <= tries
    && (r.Broken? <==> tries == 0)
    && (r.Refused? ==> |t'.reserves| == |t.reserves| + tries)
    && (r.Ready? ==> |t'.answers| > |t.answers| && t'.answers[|t'.answers| - 1] == Ok(r.reservation))
    && (!AskedInVain(t, t') ==>
          forall i ::
            |t.answers| <= i < (if r.Ready? then |t'.answers| - 1 else |t'.answers|) ==> t'.answers[i].Raised?)
  }

  ghost predicate AllReserve(t: Talk, t': Talk, found: Option<string>) {
    && t.reserves <= t'.reserves && t.answers <= t'.answers
    && forall i :: |t.reserves| <= i < |t'.reserves| ==> t'.reserves[i] == (if found.Some? then found.value else "0")
  }

  /** What setup promises about the calls it made and about its own result. */
  ghost predicate SetupOk(task: Task, t: Talk, t': Talk, r: Setup, settings: Settings) {
    && t'.opens == t.opens && t.asked <= t'.asked
    && (Brings(task) ==> BroughtUsed(task, t, t', r))
    && (!Brings(task) ==> OwnReserved(t, t', if settings.maxRetries > 0 then settings.maxRetries else 0, r))
    && (r.Ready? ==>
          RulesOffered(r.rules, r.reservation.candidates) && RulesAsked(t'.asked, r.reservation.candidates, r.rules))
  }

  /** What setup gave, as the report tells it. */
  ghost function SetupOf(report: Report): Setup {
    if report.reservation.Some? then Ready(report.reservation.value, report.rules)
    else if report.exit == Crashed then Broken
    else Refused
  }

  /** Files were listed, and none of them is there any more. */
  ghost predicate AllGone(task: Task, before: World) {
    task.files != [] && forall f :: f in task.files ==> f.path !in before.files
  }

  lemma GoneMeans(task: Task, before: World)
    ensures AllGone(task, before) <==> task.files != [] && Existing(task.files, before.files) == []
  {
    var listed := Existing(task.files, before.files);
    if listed != [] {
      assert listed[0] in task.files && listed[0].path in before.files;
    }
  }

  /** Step 1 is asked for a real segment whose PROCESSID nobody brought. */
  ghost predicate MustAskStep1(task: Task, before: World) {
    !AllGone(task, before) && task.segment != CORP_ACTION_SEGMENT && !Brings(task)
  }

  /** Which exit a run takes and what it said to CBOS on the way, all in terms of its input
      and of CBOS's answers. */
  ghost predicate TalkTold(task: Task, before: World, report: Report, t: Talk, t': Talk, settings: Settings) {
    var closed := settings.holidayCheckEnforced && report.holiday == Some(Ok(false));
    && (report.holiday.Some? <==> MustAskStep1(task, before))
    && t'.opens == t.opens + (if report.holiday.Some? then [report.holiday.value] else [])
    && (report.exit == Superseded <==> AllGone(task, before))
    && (report.exit == Deferred <==> closed || (report.reservation.Some? && !report.reservation.value.isRunnable))
    && (AllGone(task, before) || closed ==> report.reservation.None? && t' == t.(opens := t'.opens))
    && (!AllGone(task, before) && !closed ==>
          && SetupOk(task, t.(opens := t'.opens), t', SetupOf(report), settings)
          && (report.reservation.None? <==> report.exit in {Crashed, SetupFailed}))
  }

  /** The report tells what setup gave and where it led. */
  ghost predicate Led(report: Report, setup: Setup) {
    && SetupOf(report) == setup
    && (report.reservation.None? <==> report.exit in {Crashed, SetupFailed})
    && report.exit != Superseded
    && (report.exit == Deferred <==> report.reservation.Some? && !report.reservation.value.isRunnable)
  }

  /** A run crashes by itself exactly when setup is reached and may make no attempt. */
  lemma CrashExactly(task: Task, before: World, report: Report, t: Talk, t': Talk, settings: Settings)
    requires TalkTold(task, before, report, t, t', settings)
    ensures report.exit == Crashed <==>
              && settings.maxRetries <= 0 && !Brings(task) && !AllGone(task, before)
              && !(settings.holidayCheckEnforced && report.holiday == Some(Ok(false)))
  {
    hide RulesOffered, RulesAsked, AskedInVain, AllReserve;
  }
}
