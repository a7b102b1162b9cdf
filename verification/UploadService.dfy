/** app/services/upload_service.py: one queued batch through Steps 1 to 9, and the
    force-proceed lane for a batch the completeness gate parked. */
module UploadService {
  import opened Text
  import opened Chunking
  import opened FileService
  import opened UploadOutcome
  import opened UploadedFileRepository
  import opened CbosClient
  import opened UploadMatching
  import opened LaneState
  import opened LanePhases
  import opened LaneGate
  import BatchModel
  import CbosFilename

  const POLL_FAILED := "UNKNOWN (Step 9 poll failed)"

  /** How far a run that is cut off had got with the file it was offering. */
  datatype Progress =
    | NotStarted
    | RowWritten
    | ColumnsWritten(uploadId: string)
    | Sending(uploadId: string, calls: nat)

  /** The run got exactly this far with the file: its row, the slot it was placed in, and
      the first chunk calls under its GUID. */
  ghost predicate GotTo(w: World, file: Path, next: Progress) {
    next.NotStarted? || exists id :: 0 <= id < |w.rows| && RowGotTo(w, w.rows[id], file, next)
  }

  ghost predicate RowGotTo(w: World, row: Row, file: Path, next: Progress) {
    && row.path == Live(file) && row.status == Pending
    && (next.ColumnsWritten? || next.Sending? ==> row.uploadId == Some(next.uploadId))
    && (next.Sending? ==>
          && w.nextGuid > 0 && row.guid == Some(w.nextGuid - 1) && next.calls <= |w.trace|
          && forall i :: |w.trace| - next.calls <= i < |w.trace| ==> w.trace[i].guid == w.nextGuid - 1)
  }

  /** The run that this setup starts. */
  ghost function RunUnder(setup: Setup, before: World, task: Task, settings: Settings, sniffs: map<Path, Sniff>): Run {
    Run(before, task, Existing(task.files, before.files), if setup.Ready? then setup.reservation.candidates else [],
        if setup.Ready? then Some(setup.rules) else None, settings.validateColumns, sniffs, settings.ChunkLimit(),
        settings.rewriteNames)
  }

  /** A run that stopped here: nothing is done if setup broke; otherwise the slots to mark up
      front are marked when there is a reservation, the first n files have been offered, and
      the next one has got just so far. */
  ghost predicate StoppedAt(task: Task, before: World, w: World, setup: Setup, settings: Settings,
      sniffs: map<Path, Sniff>, marks: seq<Mark>, marks': seq<Mark>, n: nat, next: Progress) {
    var run := RunUnder(setup, before, task, settings, sniffs);
    && (setup.Broken? ==> w == before)
    && marks' == marks + (if setup.Ready? then UpFrontMarks(setup.reservation) else [])
    && (!setup.Broken? ==>
          && (exists held, filled :: Offering(run, w, n, held, filled))
          && (n < |run.listed| ==> GotTo(w, run.listed[n].path, next)))
  }

  /** The switch off, the file keeps its name and CBOS is not asked. On, it is asked once, and
      its answer about the trading day alone decides whether the name is rewritten. */
  ghost predicate NameResolved(settings: Settings, days: seq<Answer<CbosFilename.Reply>>,
      days': seq<Answer<CbosFilename.Reply>>, folderDate: string, name: string, sent: string) {
    && (!settings.rewriteNames ==> days' == days && sent == name)
    && (settings.rewriteNames ==>
          && |days'| == |days| + 1 && days <= days'
          && var answer := days'[|days|];
             if CbosFilename.CbosWantsAnotherDay(true, answer, folderDate)
               && CbosFilename.StampedLate(name, Strip(answer.value.lastTradingDate))
             then CbosFilename.Rewritten(true, answer, folderDate, name, sent)
             else sent == name)
  }

  /** Where CBOS is told that the row's file belongs. */
  function Placing(row: Row): (Option<string>, Option<string>) {
    (row.processId, row.uploadId)
  }

  lemma SelectedIsOffered(fileName: string, rules: seq<UploadRule>, exchange: Option<string>, sniff: Sniff,
      validate: bool, cs: seq<UploadCandidate>)
    requires MatchFile(fileName, rules, exchange, sniff, validate).Matched? && RulesOffered(rules, cs)
    ensures ExpectedSlot(cs, MatchFile(fileName, rules, exchange, sniff, validate).rule.uploadId)
  {
    var rule := MatchFile(fileName, rules, exchange, sniff, validate).rule;
    WinnerIsLongest(fileName, rules, exchange, sniff, validate, rule);
    assert rule in rules;
  }

  /** A skip for this reason is explained, wherever the file lands. */
  lemma SkipExplained(run: Run, p: Path, uploadId: string, reason: SkipReason)
    requires SkipJustified(run, LogEntry(0, p, [], Some(uploadId), None, SkipOutcome(), Some(reason)))
    ensures forall id, dest, guid, w ::
              Explained(run, w, LogEntry(id, p, dest, Some(uploadId), guid, SkipOutcome(), Some(reason)))
  {
  }

  lemma HeldSkips(run: Run, p: Path, uploadId: string)
    requires Placed(run, p, uploadId) && SlotInCbos(run.candidates, uploadId)
    ensures SkipJustified(run, LogEntry(0, p, [], Some(uploadId), None, SkipOutcome(), Some(CbosStatus)))
  {
  }

  lemma EarlierSkips(run: Run, p: Path, uploadId: string, r: nat)
    requires Placed(run, p, uploadId) && !SlotInCbos(run.candidates, uploadId)
    requires r < |run.before.rows| && Completed(run.before.rows[r], KeyOf(run, p, uploadId))
    ensures SkipJustified(run, LogEntry(0, p, [], Some(uploadId), None, SkipOutcome(), Some(EarlierRow(r))))
  {
  }

  lemma MustBeSent(run: Run, p: Path, uploadId: string)
    requires Placed(run, p, uploadId) && !SlotInCbos(run.candidates, uploadId)
    requires !HasCompleted(run.before.rows, KeyOf(run, p, uploadId))
    ensures ToSend(run, p, Some(uploadId))
  {
  }

  lemma RunMayStart(run: Run)
    requires AtRest(run.before) && FlatManifest(run.task.files)
    requires run.listed == Existing(run.task.files, run.before.files)
    ensures RunOk(run)
  {
    ExistingIsFlat(run.task.files, run.before.files);
  }

  /** The first open file is still at intake, under its row. */
  lemma OpenIsThere(run: Run, w: World, all: seq<Attempt>, n: nat, filled: set<string>)
    requires RunOk(run) && Closing(run, w, all, n, filled) && |all| > 0
    ensures TableOk(w.rows) && all[0].row < |w.rows| && w.rows[all[0].row].path == Live(all[0].file)
    ensures Plain(all[0].file) && all[0].file in w.files
  {
    assert AttemptOk(run, w, |run.listed|, all[0]);
  }

  lemma FinishedAtRest(run: Run, w: World, filled: set<string>)
    requires Finished(run, w, filled)
    ensures AtRest(w)
  {
  }

  ghost predicate NewGuid(run: Run, w: World, held: seq<Attempt>, guid: nat) {
    && run.before.nextGuid <= guid < w.nextGuid && guid !in w.store
    && (forall i :: 0 <= i < |w.trace| ==> w.trace[i].guid != guid)
    && forall i :: 0 <= i < |held| ==> held[i].guid != guid
  }

  ghost predicate ChunksUnder(before: seq<Call>, after: seq<Call>, guid: nat) {
    before <= after && forall i :: |before| <= i < |after| ==> after[i].Chunk? && after[i].guid == guid
  }

  lemma ChunksAreNotRegistrations(before: seq<Call>, after: seq<Call>, guid: nat, key: FileKey)
    requires ChunksUnder(before, after, guid) && Unregistered(before, key)
    ensures Unregistered(after, key)
  {
  }

  lemma GuidCompletesNothing(rows: seq<Row>, rows': seq<Row>, id: nat, guid: nat, key: FileKey)
    requires id < |rows| && rows' == rows[id := rows[id].(guid := Some(guid))] && !HasCompleted(rows, key)
    ensures !HasCompleted(rows', key)
  {
    assert forall r :: 0 <= r < |rows'| ==> (Completed(rows'[r], key) <==> Completed(rows[r], key));
  }

  /** Step 5 for this open file went well: all its chunks are in CBOS under a GUID that no
      other open file has, and its row says so. */
  ghost predicate Transferred(run: Run, before: World, w: World, held: seq<Attempt>, id: nat, file: Path, guid: nat,
      sentName: string) {
    && SentAs(run, file, sentName)
    && id < |before.rows| && w.rows == before.rows[id := before.rows[id].(guid := Some(guid))]
    && ChunksUnder(before.trace, w.trace, guid)
    && run.before.nextGuid <= guid < w.nextGuid && (forall i :: 0 <= i < |held| ==> held[i].guid != guid)
    && file in run.before.files && ServerHolds(w.store, guid, sentName, run.before.files[file])
    && !GaveUp(w.trace, guid, run.limit)
  }

  /** Such a file joins the open ones. */
  lemma SentOpens(run: Run, before: World, w: World, k: nat, held: seq<Attempt>, filled: set<string>, a: Attempt)
    requires RunOk(run) && Offering(run, w, k, held, filled) && Offered(run, w, k, a.row)
    requires a.file == run.listed[k].path && Transferred(run, before, w, held, a.row, a.file, a.guid, a.sentName)
    requires before.rows[a.row].uploadId == Some(a.uploadId)
    requires ToSend(run, a.file, Some(a.uploadId)) && ExpectedSlot(run.candidates, a.uploadId)
    requires Unregistered(before.trace, KeyOf(run, a.file, a.uploadId))
    requires !HasCompleted(before.rows, KeyOf(run, a.file, a.uploadId))
    ensures Offering(run, w, k + 1, held + [a], filled)
  {
    hide Offering, RunOk, ToSend, ServerHolds, GaveUp, ExpectedSlot, HasCompleted;
    ChunksAreNotRegistrations(before.trace, w.trace, a.guid, AttemptKey(run.task, a));
    GuidCompletesNothing(before.rows, w.rows, a.row, a.guid, AttemptKey(run.task, a));
    OpenOffered(run, w, k, held, filled, a);
  }

  /** The offered file is still at intake with the bytes it had when the run began. */
  lemma OfferedIsThere(run: Run, w: World, k: nat, held: seq<Attempt>, filled: set<string>, id: nat)
    requires RunOk(run) && Offering(run, w, k, held, filled) && Offered(run, w, k, id)
    ensures k < |run.listed| && id < |w.rows| && |run.listed[k].path| >= 2 && run.listed[k].path in w.files
    ensures run.listed[k].path in run.before.files
    ensures w.files[run.listed[k].path] == run.before.files[run.listed[k].path]
  {
    assert Intake(run.listed[k].path);
  }

  /** The table is in order, and the file to be offered next lies at intake. */
  lemma NextIsAtIntake(run: Run, w: World, k: nat, all: seq<Attempt>, filled: set<string>)
    requires RunOk(run) && Offering(run, w, k, all, filled) && k < |run.listed|
    ensures TableOk(w.rows) && StatusAgrees(w.rows) && Intake(run.listed[k].path)
  {
  }

  /** The generator is ahead of every GUID in use. */
  lemma GuidsBehind(run: Run, w: World, k: nat, held: seq<Attempt>, filled: set<string>)
    requires RunOk(run) && Offering(run, w, k, held, filled)
    ensures run.before.nextGuid <= w.nextGuid && w.nextGuid !in w.store
    ensures forall i :: 0 <= i < |w.trace| ==> w.trace[i].guid < w.nextGuid
    ensures forall i :: 0 <= i < |held| ==> held[i].guid < w.nextGuid
  {
    forall i | 0 <= i < |held| ensures held[i].guid < w.nextGuid {
      assert AttemptOk(run, w, k, held[i]);
    }
  }

  lemma StillOffered(run: Run, w: World, after: World, k: nat, id: nat)
    requires Offered(run, w, k, id) && after.rows == w.rows
    ensures Offered(run, after, k, id)
  {
  }

  /** Under a GUID no earlier call carried, Step 5 gave up exactly when it says so. */
  lemma GaveUpOrNot(before: seq<Call>, after: seq<Call>, guid: nat, limit: nat, n: nat)
    requires forall i :: 0 <= i < |before| ==> before[i].guid != guid
    ensures UnderLimit(before, after, guid, limit, n) ==> !GaveUp(after, guid, limit)
    ensures (exists c: nat :: Refusals(after, guid, c) == Refusals(before, guid, c) + limit) ==>
              GaveUp(after, guid, limit)
  {
    forall c: nat ensures Refusals(before, guid, c) == 0 {
      NoRefusals(before, guid, c);
    }
    hide Refusals;
  }

  /** A failure counts as one more try, and only a file registered by this service is
      stamped. */
  lemma RecordedMeans(row: Row, o: FileOutcome)
    ensures forall r: Row, dest :: r.retryCount == row.retryCount && r.stamped == row.stamped && Produced(o) ==>
              && Recorded(r, dest, o).retryCount == row.retryCount + (if o.status == Failed then 1 else 0)
              && (Recorded(r, dest, o).stamped <==> row.stamped || o.kind in {Confirmed, GateParked})
  {
  }

  lemma VainStays(t: Talk, t': Talk, t'': Talk)
    requires AskedInVain(t, t') && t'.asked <= t''.asked
    ensures AskedInVain(t, t'')
  {
    var i :| |t.asked| <= i < |t'.asked| && t'.asked[i].answer.Raised?;
    assert t''.asked[i] == t'.asked[i];
  }

  lemma SetupOffers(task: Task, t: Talk, t': Talk, setup: Setup, settings: Settings)
    requires SetupOk(task, t, t', setup, settings)
    ensures setup.Ready? ==> RulesOffered(setup.rules, setup.reservation.candidates)
  {
    hide RulesOffered, RulesAsked;
  }

  /** Not completed now, so not completed when the run began. */
  lemma NothingEarlier(run: Run, w: World, k: nat, held: seq<Attempt>, filled: set<string>, key: FileKey)
    requires Offering(run, w, k, held, filled) && !HasCompleted(w.rows, key)
    ensures !HasCompleted(run.before.rows, key)
  {
  }

  lemma KindsJoin(before: seq<LogEntry>, mid: seq<LogEntry>, after: seq<LogEntry>, first: set<Kind>,
      next: set<Kind>)
    requires OnlyKinds(mid, before, first) && OnlyKinds(after, mid, next)
    ensures OnlyKinds(after, before, first + next)
    ensures next <= first ==> OnlyKinds(after, before, first)
  {
  }

  lemma GiveVerdict(run: Run, k: nat, v: Verdict)
    requires k < |run.listed| && run.rules.Some? && v == VerdictOn(run, run.listed[k])
    ensures VerdictGiven(run, run.listed[k].path, v)
  {
  }

  /** A rejection explains the file's failure; a match places it under a slot a file is
      expected in. */
  lemma VerdictMeans(run: Run, k: nat, rules: seq<UploadRule>, cs: seq<UploadCandidate>, v: Verdict)
    requires k < |run.listed| && run.rules == Some(rules) && RulesOffered(rules, cs)
    requires v == VerdictOn(run, run.listed[k])
    ensures v.FileRejected? ==>
              forall w, id, dest, uploadId, guid ::
                Explained(run, w, LogEntry(id, run.listed[k].path, dest, uploadId, guid, RejectedOutcome(), None))
    ensures v.Matched? ==> Placed(run, run.listed[k].path, v.rule.uploadId) && ExpectedSlot(cs, v.rule.uploadId)
  {
    var f := run.listed[k];
    GiveVerdict(run, k, v);
    if v.Matched? {
      SelectedIsOffered(BaseName(f.path), rules, MatchExchange(f), SniffOf(run.sniffs, f.path), run.validate, cs);
    }
    hide MatchFile, RulesOffered, ExpectedSlot;
  }

  class Lane {
    const table: AuditTable
    const disk: Disk
    const cbos: Cbos
    const settings: Settings
    var log: seq<LogEntry>

    constructor (table: AuditTable, disk: Disk, cbos: Cbos, settings: Settings)
      ensures this.table == table && this.disk == disk && this.cbos == cbos && this.settings == settings
      ensures log == []
    {
      this.table, this.disk, this.cbos, this.settings, log := table, disk, cbos, settings, [];
    }

    ghost function Now(): World
      reads this, table, disk, cbos
    {
      World(table.rows, disk.files, cbos.trace, cbos.store, cbos.nextGuid, log)
    }

    /** Move the file where its outcome says and record it: every file ends here. */
    method ApplyOutcome(id: nat, file: Path, o: FileOutcome, skip: Option<SkipReason>) returns (dest: Path)
      requires TableOk(table.rows) && id < |table.rows| && table.rows[id].path == Live(file)
      requires Plain(file) && file in disk.files
      modifies this`log, table, disk
      ensures OutcomeStep(old(Now()), Now(), id, file, o, skip) && TableOk(table.rows)
      ensures OnlyKinds(log, old(log), {o.kind})
      ensures dest == log[|old(log)|].dest
      ensures Produced(o) ==>
                && table.rows[id].retryCount == old(table.rows[id].retryCount) + (if o.status == Failed then 1 else 0)
                && (table.rows[id].stamped <==> old(table.rows[id].stamped) || o.kind in {Confirmed, GateParked})
      ensures table.rows[id]
                == old(table.rows[id]).(path := Live(dest), status := o.status,
                     retryCount := table.rows[id].retryCount, stamped := table.rows[id].stamped)
    {
      hide Moved, TableOk, InFolder, Produced;
      RecordedMeans(table.rows[id], o);
      dest := MoveAway(file, o);
      table.ClaimFilePath(id, dest);
      table.Update(id, Recorded(table.rows[id], dest, o));
      log := log + [LogEntry(id, file, dest, table.rows[id].uploadId, table.rows[id].guid, o, skip)];
    }

    /** The file goes to the folder its outcome calls for, under a free name. */
    method MoveAway(file: Path, o: FileOutcome) returns (dest: Path)
      requires Plain(file) && file in disk.files
      modifies disk
      ensures dest !in old(disk.files) && disk.files == Moved(old(disk.files), file, dest)
      ensures Plain(dest) && |dest| == |file| + 1 && InFolder(dest, Folder(o)) && dest[..|file| - 1] == Parent(file)
    {
      hide Moved, Contents;
      if o.destination == ToUploaded {
        dest := disk.MoveToUploaded(file);
      } else {
        dest := disk.MoveToFailed(file);
      }
      DestinationFacts(old(disk.files), file, Folder(o), dest);
    }

    /** Step 4 once for every distinct file slot of the reservation, in table order. */
    method FetchUploadRules(cs: seq<UploadCandidate>) returns (r: Answer<seq<UploadRule>>, ghost news: seq<RuleAnswer>)
      modifies cbos`asked
      ensures cbos.asked == old(cbos.asked) + news
      ensures r.Ok? ==> RulesFrom(news, cs, r.value) && RulesOffered(r.value, cs)
      ensures r.Raised? ==> news != [] && news[|news| - 1].answer.Raised?
    {
      var rules: seq<UploadRule> := [];
      var seen: set<string> := {};
      news := [];
      assert RulesFrom([], cs[..0], []) && FileSlots(cs[..0]) == [];
      hide RulesFrom, FileSlots;
      for i := 0 to |cs|
        invariant cbos.asked == old(cbos.asked) + news && RulesFrom(news, cs[..i], rules)
        invariant forall u :: u in seen <==> u in FileSlots(cs[..i])
        invariant RulesOffered(rules, cs)
      {
        NextSlot(cs, i);
        if cs[i].ExpectsAFile() && cs[i].uploadId !in seen {
          seen := seen + {cs[i].uploadId};
          var answer := cbos.UploadSettings(cs[i].uploadId);
          ghost var before := news;
          news := news + [RuleAnswer(cs[i].uploadId, answer)];
          if answer.Raised? {
            r := Raised;
            return;
          }
          NextRule(before, cs, i, rules, RuleAnswer(cs[i].uploadId, answer));
          if answer.value.Some? {
            assert ExpectedSlot(cs, answer.value.value.uploadId);
            rules := rules + [answer.value.value];
          }
        } else {
          SameRules(news, cs, i, rules);
        }
      }
      assert cs[..|cs|] == cs;
      r := Ok(rules);
    }

    /** Steps 2 and 4: the supplied reservation, or a bounded retry of our own. */
    method SetUp(task: Task) returns (r: Setup)
      modifies cbos`asked, cbos`lookups, cbos`reserves, cbos`answers
      ensures SetupOk(task, old(cbos.Said()), cbos.Said(), r, settings)
    {
      if Supplies(task).Some? {
        r := SetUpBrought(task);
      } else {
        r := SetUpOwn();
      }
    }

    method SetUpBrought(task: Task) returns (r: Setup)
      requires Brings(task)
      modifies cbos`asked
      ensures SetupOk(task, old(cbos.Said()), cbos.Said(), r, settings)
    {
      hide RulesFrom, RulesOffered;
      var s := task.supplied.value;
      var built := BuildReservation(s.table1, s.table2, Some(s.processId));
      if built.Raised? {
        return Refused;
      }
      var rules, news := FetchUploadRules(built.value.candidates);
      assert rules.Ok? ==> RulesFrom(news, built.value.candidates, rules.value);
      assert rules.Raised? ==> cbos.asked[|cbos.asked| - 1].answer.Raised?;
      r := if rules.Ok? then Ready(built.value, rules.value) else Refused;
    }

    method SetUpOwn() returns (r: Setup)
      modifies cbos`asked, cbos`lookups, cbos`reserves, cbos`answers
      ensures old(cbos.asked) <= cbos.asked && cbos.opens == old(cbos.opens)
      ensures OwnReserved(old(cbos.Said()), cbos.Said(), if settings.maxRetries > 0 then settings.maxRetries else 0, r)
      ensures r.Ready? ==>
                && RulesOffered(r.rules, r.reservation.candidates)
                && RulesAsked(cbos.asked, r.reservation.candidates, r.rules)
    {
      hide RulesAsked, RulesOffered;
      var existing := cbos.FindExistingProcessId();
      var processId := if existing.Some? then existing.value else "0";
      for attempt := 1 to settings.SetupTries() + 1
        invariant attempt > 1 ==> attempt <= settings.maxRetries
        invariant cbos.lookups == old(cbos.lookups) + [existing] && cbos.opens == old(cbos.opens)
        invariant AllReserve(old(cbos.Said()), cbos.Said(), existing) && old(cbos.asked) <= cbos.asked
        invariant |cbos.reserves| - |old(cbos.reserves)| == |cbos.answers| - |old(cbos.answers)| == attempt - 1
        invariant !AskedInVain(old(cbos.Said()), cbos.Said()) ==>
                    forall i :: |old(cbos.answers)| <= i < |cbos.answers| ==> cbos.answers[i].Raised?
      {
        ghost var was := cbos.Said();
        r := Reserve(processId);
        if AskedInVain(old(cbos.Said()), was) {
          VainStays(old(cbos.Said()), was, cbos.Said());
        }
        if r.Ready? || attempt == settings.maxRetries {
          return;
        }
      }
      r := Broken;
    }

    /** One attempt at it: the reservation, and the rules of its slots. */
    method Reserve(processId: string) returns (r: Setup)
      modifies cbos`asked, cbos`reserves, cbos`answers
      ensures old(cbos.asked) <= cbos.asked && cbos.reserves == old(cbos.reserves) + [processId]
      ensures |cbos.answers| == |old(cbos.answers)| + 1 && old(cbos.answers) <= cbos.answers
      ensures r.Ready? ==>
                && cbos.answers[|cbos.answers| - 1] == Ok(r.reservation)
                && RulesOffered(r.rules, r.reservation.candidates)
                && RulesAsked(cbos.asked, r.reservation.candidates, r.rules)
      ensures !r.Ready? ==>
                && r == Refused
                && (|| cbos.answers[|cbos.answers| - 1].Raised?
                    || (|cbos.asked| > |old(cbos.asked)| && cbos.asked[|cbos.asked| - 1].answer.Raised?))
    {
      hide RulesFrom, RulesOffered;
      var reserved := cbos.ReserveProcess(processId);
      if reserved.Raised? {
        return Refused;
      }
      var rules, news := FetchUploadRules(reserved.value.candidates);
      assert cbos.asked == old(cbos.asked) + news;
      r := if rules.Ok? then Ready(reserved.value, rules.value) else Refused;
    }

    /** The audit row for the file now being offered. */
    method Offer(ghost run: Run, ghost k: nat, ghost all: seq<Attempt>, ghost filled: set<string>, task: Task,
        f: ListedFile)
      returns (id: nat)
      requires RunOk(run) && Offering(run, Now(), k, all, filled) && k < |run.listed| && run.listed[k] == f
      requires run.task == task
      modifies table
      ensures Offering(run, Now(), k, all, filled) && Offered(run, Now(), k, id)
      ensures Now() == old(Now()).(rows := table.rows)
      ensures table.rows[id].exchange == f.exchange
      ensures task.batchId.Some? && task.batchId.value != "" ==> table.rows[id].batchId == task.batchId
    {
      hide Offering, RunOk, TableOk;
      ghost var w := Now();
      NextIsAtIntake(run, w, k, all, filled);
      var existing := table.FindByPath(Live(f.path));
      id := table.CreateAuditRecord(f.path, NewRow(task.folderDate, task.segment, f.exchange, task.batchId));
      if existing.Some? {
        assert StatusFits(w.rows[existing.value]);
      }
      RowStepKeepsOffering(run, w, Now(), k, all, filled, id);
    }

    /** Writes columns of the offered file's row. */
    method Annotate(ghost run: Run, ghost k: nat, ghost all: seq<Attempt>, ghost filled: set<string>, id: nat, row: Row)
      requires RunOk(run) && Offering(run, Now(), k, all, filled) && Offered(run, Now(), k, id)
      requires row == table.rows[id].(uploadId := row.uploadId, processId := row.processId, guid := row.guid)
      modifies table
      ensures Offering(run, Now(), k, all, filled) && Offered(run, Now(), k, id)
      ensures Now() == old(Now()).(rows := old(table.rows)[id := row])
    {
      hide Offering, RunOk, TableOk;
      ghost var w := Now();
      NextIsAtIntake(run, w, k, all, filled);
      PendingAtIntake(w, id, run.listed[k].path);
      table.Update(id, row);
      RowStepKeepsOffering(run, w, Now(), k, all, filled, id);
    }

    /** The offered file leaves at once. */
    method Settle(ghost run: Run, ghost k: nat, ghost all: seq<Attempt>, ghost filled: set<string>, id: nat,
        f: ListedFile, o: FileOutcome, skip: Option<SkipReason>)
      requires RunOk(run) && Offering(run, Now(), k, all, filled) && Offered(run, Now(), k, id) && run.listed[k] == f
      requires Produced(o) && o.kind in {Rejected, CallFailed, IdempotentSkip}
      requires forall dest ::
                 Explained(run, Now(),
                   LogEntry(id, f.path, dest, table.rows[id].uploadId, table.rows[id].guid, o, skip))
      modifies this`log, table, disk
      ensures Offering(run, Now(), k + 1, all, FilledBy(o, old(table.rows[id].uploadId), filled))
      ensures OnlyKinds(log, old(log), {o.kind})
      ensures id < |table.rows| && Placing(table.rows[id]) == old(Placing(table.rows[id]))
    {
      ghost var w := Now();
      assert Plain(f.path) && f.path in disk.files && TableOk(table.rows);
      hide Offering, RunOk, TableOk, Explained, OutcomeStep;
      var _ := ApplyOutcome(id, f.path, o, skip);
      SettleOffered(run, w, Now(), k, all, filled, id, o, skip);
    }

    /** Setup failed: every file goes to uploadFailed/. */
    method FailAllFiles(ghost run: Run, task: Task, listed: seq<ListedFile>)
      requires RunOk(run) && run.listed == listed && run.task == task && run.before == Now() && run.rules.None?
      modifies this`log, table, disk
      ensures Finished(run, Now(), {})
      ensures Now() == old(Now()).(rows := table.rows, files := disk.files, log := log)
      ensures OnlyKinds(log, old(log), {CallFailed})
    {
      hide Offering, RunOk, Closing, Finished;
      FailFirst(run, task, listed, |listed|);
      OfferingEnds(run, Now(), [], {});
      RunEnds(run, Now(), {});
    }

    /** The first n of them. */
    method FailFirst(ghost run: Run, task: Task, listed: seq<ListedFile>, n: nat)
      requires RunOk(run) && run.listed == listed && run.task == task && run.before == Now() && run.rules.None?
      requires n <= |listed|
      modifies this`log, table, disk
      ensures Offering(run, Now(), n, [], {})
      ensures Now() == old(Now()).(rows := table.rows, files := disk.files, log := log)
      ensures OnlyKinds(log, old(log), {CallFailed})
    {
      hide Offering, RunOk, Offered, ToSend, RefusedUnder;
      RunStarts(run);
      for k := 0 to n
        invariant Offering(run, Now(), k, [], {})
        invariant OnlyKinds(log, old(log), {CallFailed})
        invariant Now() == old(Now()).(rows := table.rows, files := disk.files, log := log)
      {
        var id := Offer(run, k, [], {}, task, listed[k]);
        Settle(run, k, [], {}, id, listed[k], FailedOutcome(), None);
      }
    }

    /** The same for a report that says so. */
    method FailReported(task: Task, report: Report, ghost allowed: set<string>, ghost sniffs: map<Path, Sniff>)
      requires AtRest(Now()) && FlatManifest(task.files) && report.listed == Existing(task.files, disk.files)
      requires report.exit == SetupFailed && report.reservation.None? && report.filled == {}
      modifies this`log, table, disk
      ensures AtRest(Now()) && LaneDone(old(Now()), Now(), task, report, allowed, settings, sniffs)
    {
      hide AtRest, Finished, RunOk, FlatManifest, Existing;
      ghost var run := report.RunFrom(Now(), task, settings, sniffs);
      RunMayStart(run);
      FailAllFiles(run, task, report.listed);
      FinishedAtRest(run, Now(), {});
    }

    /** The GUID is recorded in the row before the first chunk goes out. */
    method TakeGuid(ghost run: Run, ghost k: nat, ghost held: seq<Attempt>, ghost filled: set<string>, id: nat)
      returns (guid: nat)
      requires RunOk(run) && Offering(run, Now(), k, held, filled) && Offered(run, Now(), k, id)
      modifies table, cbos`nextGuid
      ensures Offering(run, Now(), k, held, filled) && Offered(run, Now(), k, id)
      ensures Now() == old(Now()).(rows := table.rows, nextGuid := guid + 1)
      ensures table.rows == old(table.rows)[id := old(table.rows)[id].(guid := Some(guid))]
      ensures NewGuid(run, Now(), held, guid)
    {
      hide Offering, RunOk, Offered;
      ghost var w := Now();
      GuidsBehind(run, w, k, held, filled);
      guid := cbos.FreshGuid();
      ChunkStepKeepsOffering(run, w, Now(), k, held, filled, guid);
      StillOffered(run, w, Now(), k, id);
      Annotate(run, k, held, filled, id, table.rows[id].(guid := Some(guid)));
    }

    /** The offered file leaves because Step 5 gave up on it. */
    method FailOffered(ghost run: Run, ghost k: nat, ghost held: seq<Attempt>, ghost filled: set<string>, id: nat,
        f: ListedFile)
      requires RunOk(run) && Offering(run, Now(), k, held, filled) && Offered(run, Now(), k, id) && run.listed[k] == f
      requires ToSend(run, f.path, table.rows[id].uploadId) && RefusedUnder(run, Now(), table.rows[id].guid)
      modifies this`log, table, disk
      ensures Offering(run, Now(), k + 1, held, filled)
      ensures OnlyKinds(log, old(log), {CallFailed})
      ensures id < |table.rows| && Placing(table.rows[id]) == old(Placing(table.rows[id]))
    {
      hide RunOk, Offering, ToSend, RefusedUnder;
      Settle(run, k, held, filled, id, f, FailedOutcome(), None);
    }

    /** Step 5's calls under a GUID that no call has carried yet: the whole file is there and
        no chunk was given up, or one was. */
    method SendUnder(guid: nat, name: string, data: Bytes, ghost limit: nat) returns (sent: bool)
      requires limit == settings.ChunkLimit() && guid < cbos.nextGuid && guid !in cbos.store
      requires forall i :: 0 <= i < |cbos.trace| ==> cbos.trace[i].guid != guid
      modifies cbos`trace, cbos`store
      ensures ChunkStep(old(Now()), Now(), guid) && ChunksUnder(old(cbos.trace), cbos.trace, guid)
      ensures Now() == old(Now()).(trace := cbos.trace, store := cbos.store)
      ensures sent ==> ServerHolds(cbos.store, guid, name, data)
      ensures sent <==> !GaveUp(cbos.trace, guid, limit)
    {
      hide TotalChunks, ProgressTo, ServerHolds, Refusals, GaveUp, UnderLimit, EndsInFailures;
      ghost var calls := cbos.trace;
      var progress;
      sent, progress := cbos.UploadFile(data, guid, name, settings.chunkSizeKb, settings.chunkRetryAttempts);
      GaveUpOrNot(calls, cbos.trace, guid, limit, TotalChunks(|data|, Max(1, settings.chunkSizeKb) * 1024));
    }

    /** The name CBOS expects, by what it answers about the trading day. */
    method NameToSend(ghost run: Run, file: Path, folderDate: string) returns (sentName: string)
      requires |file| >= 2 && run.rewrites == settings.rewriteNames && run.task.folderDate == folderDate
      modifies cbos`days
      ensures SentAs(run, file, sentName)
      ensures NameResolved(settings, old(cbos.days), cbos.days, folderDate, Name(file), sentName)
    {
      hide CbosFilename.Rewritten, CbosFilename.CbosWantsAnotherDay, CbosFilename.StampedLate;
      if !settings.rewriteNames {
        return Name(file);
      }
      var answer := cbos.GetExpectedFilename();
      var rewritten;
      sentName, rewritten := CbosFilename.ResolveUploadName(settings.rewriteNames, answer, Name(file), folderDate);
      if rewritten {
        RewriteIsSent(run, file, sentName, answer);
      }
    }

    /** Step 5's calls, under a fresh GUID and the name CBOS expects. */
    method Transfer(ghost run: Run, ghost k: nat, ghost held: seq<Attempt>, ghost filled: set<string>, id: nat,
        f: ListedFile, folderDate: string)
      returns (sent: bool, guid: nat, sentName: string)
      requires RunOk(run) && Offering(run, Now(), k, held, filled) && Offered(run, Now(), k, id) && run.listed[k] == f
      requires run.limit == settings.ChunkLimit() && run.rewrites == settings.rewriteNames
      requires run.task.folderDate == folderDate
      modifies table, cbos`trace, cbos`store, cbos`nextGuid, cbos`days
      ensures Offering(run, Now(), k, held, filled) && Offered(run, Now(), k, id) && log == old(log)
      ensures table.rows == old(table.rows)[id := old(table.rows)[id].(guid := Some(guid))]
      ensures NameResolved(settings, old(cbos.days), cbos.days, folderDate, Name(f.path), sentName)
      ensures sent ==> Transferred(run, old(Now()), Now(), held, id, f.path, guid, sentName)
      ensures !sent ==> RefusedUnder(run, Now(), Some(guid))
    {
      hide NameResolved, ServerHolds, GaveUp, ToSend, AnsweredUnder;
      hide Offering, RunOk, Offered, ChunkStep, ChunksUnder;
      OfferedIsThere(run, Now(), k, held, filled, id);
      guid := TakeGuid(run, k, held, filled, id);
      sentName := NameToSend(run, f.path, folderDate);
      ghost var w := Now();
      sent := SendUnder(guid, sentName, disk.files[f.path], run.limit);
      ChunkStepKeepsOffering(run, w, Now(), k, held, filled, guid);
      StillOffered(run, w, Now(), k, id);
    }

    /** Step 5 for an offered file that is not in CBOS yet. */
    method SendChunks(ghost run: Run, ghost k: nat, held: seq<Attempt>, ghost filled: set<string>, id: nat,
        f: ListedFile, uploadId: string, folderDate: string)
      returns (held': seq<Attempt>)
      requires RunOk(run) && Offering(run, Now(), k, held, filled) && Offered(run, Now(), k, id) && run.listed[k] == f
      requires table.rows[id].uploadId == Some(uploadId) && ExpectedSlot(run.candidates, uploadId)
      requires !HasCompleted(table.rows, KeyOf(run, f.path, uploadId))
      requires ToSend(run, f.path, Some(uploadId)) && run.limit == settings.ChunkLimit()
      requires run.rewrites == settings.rewriteNames && run.task.folderDate == folderDate
      modifies this`log, table, disk, cbos`trace, cbos`store, cbos`nextGuid, cbos`days
      ensures Offering(run, Now(), k + 1, held', filled)
      ensures OnlyKinds(log, old(log), {CallFailed})
      ensures id < |table.rows| && Placing(table.rows[id]) == old(Placing(table.rows[id]))
    {
      hide RunOk, ToSend, RefusedUnder, ExpectedSlot, HasCompleted, Unregistered, Transferred, Offering;
      NotCompletedNotRegistered(run, Now(), k, held, filled, KeyOf(run, f.path, uploadId));
      var sent, guid, sentName := Transfer(run, k, held, filled, id, f, folderDate);
      if sent {
        var a := Attempt(id, f.path, uploadId, guid, sentName);
        held' := held + [a];
        SentOpens(run, old(Now()), Now(), k, held, filled, a);
      } else {
        FailOffered(run, k, held, filled, id, f);
        held' := held;
      }
    }

    /** The offered file leaves because CBOS has it, and its slot counts as filled. */
    method SkipOffered(ghost run: Run, ghost k: nat, ghost held: seq<Attempt>, ghost filled: set<string>, id: nat,
        f: ListedFile, uploadId: string, reason: SkipReason)
      requires RunOk(run) && Offering(run, Now(), k, held, filled) && Offered(run, Now(), k, id) && run.listed[k] == f
      requires table.rows[id].uploadId == Some(uploadId)
      requires SkipJustified(run, LogEntry(0, f.path, [], Some(uploadId), None, SkipOutcome(), Some(reason)))
      modifies this`log, table, disk
      ensures Offering(run, Now(), k + 1, held, filled + {uploadId})
      ensures OnlyKinds(log, old(log), {IdempotentSkip})
      ensures id < |table.rows| && Placing(table.rows[id]) == old(Placing(table.rows[id]))
    {
      hide RunOk, Offering, SkipJustified, Explained;
      SkipExplained(run, f.path, uploadId, reason);
      Settle(run, k, held, filled, id, f, SkipOutcome(), Some(reason));
    }

    /** A file the matcher placed: skipped when CBOS or the audit table already has it,
        sent otherwise. */
    method SkipOrSend(ghost run: Run, ghost k: nat, task: Task, r: Reservation, f: ListedFile, id: nat,
        uploadId: string, held: seq<Attempt>, filled: set<string>)
      returns (held': seq<Attempt>, filled': set<string>)
      requires RunOk(run) && Offering(run, Now(), k, held, filled) && Offered(run, Now(), k, id) && run.listed[k] == f
      requires run.task == task && run.candidates == r.candidates && run.limit == settings.ChunkLimit()
      requires run.rewrites == settings.rewriteNames
      requires table.rows[id].uploadId == Some(uploadId) && ExpectedSlot(run.candidates, uploadId)
      requires Placed(run, f.path, uploadId)
      modifies this`log, table, disk, cbos`trace, cbos`store, cbos`nextGuid, cbos`days
      ensures Offering(run, Now(), k + 1, held', filled')
      ensures OnlyKinds(log, old(log), {CallFailed, IdempotentSkip})
      ensures id < |table.rows| && Placing(table.rows[id]) == old(Placing(table.rows[id]))
    {
      hide Offering, RunOk, Placed, SkipJustified, ToSend, Completed, ExpectedSlot;
      NextIsAtIntake(run, Now(), k, held, filled);
      var key := FileKey(task.segment, task.folderDate, uploadId, Name(f.path));
      assert key == KeyOf(run, f.path, uploadId);
      held', filled' := held, filled;
      var slot := SlotOf(r.candidates, uploadId);
      if slot.Some? && r.candidates[slot.value].AlreadyInCbos() {
        HeldSkips(run, f.path, uploadId);
        SkipOffered(run, k, held, filled, id, f, uploadId, CbosStatus);
        filled' := filled + {uploadId};
        return;
      }
      var earlier := table.FindCompleted(key);
      if earlier.Some? {
        CompletedIsEarlier(run, Now(), k, held, filled, earlier.value, key);
        EarlierSkips(run, f.path, uploadId, earlier.value);
        SkipOffered(run, k, held, filled, id, f, uploadId, EarlierRow(earlier.value));
        filled' := filled + {uploadId};
        return;
      }
      NothingEarlier(run, Now(), k, held, filled, key);
      MustBeSent(run, f.path, uploadId);
      held' := SendChunks(run, k, held, filled, id, f, uploadId, task.folderDate);
    }

    /** One file of the per-file loop: it leaves now, or its chunks are all in CBOS. */
    method OfferFile(ghost run: Run, ghost k: nat, task: Task, r: Reservation, rules: seq<UploadRule>,
        sniffs: map<Path, Sniff>, f: ListedFile, held: seq<Attempt>, filled: set<string>)
      returns (held': seq<Attempt>, filled': set<string>)
      requires RunOk(run) && Offering(run, Now(), k, held, filled) && k < |run.listed| && run.listed[k] == f
      requires run.task == task
      requires run.candidates == r.candidates && RulesOffered(rules, r.candidates)
      requires run.rules == Some(rules) && run.validate == settings.validateColumns && run.sniffs == sniffs
      requires run.limit == settings.ChunkLimit() && run.rewrites == settings.rewriteNames
      modifies this`log, table, disk, cbos`trace, cbos`store, cbos`nextGuid, cbos`days
      ensures Offering(run, Now(), k + 1, held', filled')
      ensures OnlyKinds(log, old(log), {Rejected, CallFailed, IdempotentSkip})
      ensures VerdictOn(run, f).Matched? ==>
                exists id ::
                  && 0 <= id < |table.rows|
                  && Placing(table.rows[id]) == (Some(r.processId), Some(VerdictOn(run, f).rule.uploadId))
    {
      hide Offering, RunOk, Placed, RulesOffered, Explained, ExpectedSlot, MatchFile;
      NextIsAtIntake(run, Now(), k, held, filled);
      var id := Offer(run, k, held, filled, task, f);
      var verdict :=
        MatchFile(Name(f.path), rules, MatchExchange(f), SniffOf(sniffs, f.path), settings.validateColumns);
      VerdictMeans(run, k, rules, r.candidates, verdict);
      if verdict.FileRejected? {
        Settle(run, k, held, filled, id, f, RejectedOutcome(), None);
        return held, filled;
      }
      var uploadId := verdict.rule.uploadId;
      Annotate(run, k, held, filled, id, table.rows[id].(uploadId := Some(uploadId), processId := Some(r.processId)));
      held', filled' := SkipOrSend(run, k, task, r, f, id, uploadId, held, filled);
    }

    /** Step 7 for one file: acknowledged it stays open as sent, refused it leaves. */
    method RegisterOne(ghost run: Run, task: Task, a: Attempt, ghost all: seq<Attempt>, ghost n: nat,
        ghost filled: set<string>)
      returns (ok: bool)
      requires RunOk(run) && Closing(run, Now(), all, n, filled) && run.task == task
      requires n > 0 && all[0] == a
      modifies this`log, table, disk, cbos`trace
      ensures ok ==> Closing(run, Now(), all[1..] + [a], n - 1, filled + {a.uploadId})
      ensures !ok ==> Closing(run, Now(), all[1..], n - 1, filled)
      ensures OnlyKinds(log, old(log), {CallFailed})
    {
      ghost var w := Now();
      OpenIsThere(run, w, all, n, filled);
      hide Closing, RunOk, TableOk, OutcomeStep;
      ok := cbos.RegisterFile(a.guid, a.sentName, a.uploadId, a.file, task.segment, task.folderDate);
      ghost var mid := Now();
      if ok {
        RegisterAcked(run, w, mid, all, n, filled);
      } else {
        var _ := ApplyOutcome(a.row, a.file, FailedOutcome(), None);
        RegisterRefused(run, w, mid, Now(), all, n, filled);
      }
    }

    /** Step 7 for every held file, only once every Step 5 of the batch is done. */
    method RegisterHeld(ghost run: Run, task: Task, held: seq<Attempt>, filled: set<string>)
      returns (sent: seq<Attempt>, filled': set<string>)
      requires RunOk(run) && Closing(run, Now(), held, |held|, filled) && run.task == task
      modifies this`log, table, disk, cbos`trace
      ensures Closing(run, Now(), sent, 0, filled')
      ensures OnlyKinds(log, old(log), {CallFailed})
      ensures filled <= filled' && (sent != [] ==> filled' != {})
    {
      hide Closing, RunOk;
      sent, filled' := [], filled;
      assert held[0..] + sent == held;
      for h := 0 to |held|
        invariant Closing(run, Now(), held[h..] + sent, |held| - h, filled')
        invariant filled <= filled' && (sent != [] ==> filled' != {})
        invariant OnlyKinds(log, old(log), {CallFailed})
      {
        ghost var all := held[h..] + sent;
        assert all[0] == held[h] && all[1..] == held[h + 1..] + sent;
        var ok := RegisterOne(run, task, held[h], all, |held| - h, filled');
        if ok {
          assert all[1..] + [held[h]] == held[h + 1..] + (sent + [held[h]]);
          sent, filled' := sent + [held[h]], filled' + {held[h].uploadId};
        }
      }
      assert held[|held|..] + sent == sent;
    }

    /** The first registered file leaves for uploaded/. */
    method CloseOne(ghost run: Run, a: Attempt, ghost sent: seq<Attempt>, ghost filled: set<string>, o: FileOutcome)
      requires RunOk(run) && Closing(run, Now(), sent, 0, filled) && o in {ConfirmedOutcome(), ParkedOutcome()}
      requires |sent| > 0 && sent[0] == a
      modifies this`log, table, disk
      ensures Closing(run, Now(), sent[1..], 0, filled)
      ensures OnlyKinds(log, old(log), {o.kind})
    {
      ghost var w := Now();
      OpenIsThere(run, w, sent, 0, filled);
      hide Closing, RunOk, TableOk, OutcomeStep;
      var _ := ApplyOutcome(a.row, a.file, o, None);
      SentLeaves(run, w, Now(), sent, filled, o);
    }

    /** Every registered file leaves with the batch's outcome. */
    method CloseSent(ghost run: Run, sent: seq<Attempt>, ghost filled: set<string>, o: FileOutcome)
      requires RunOk(run) && Closing(run, Now(), sent, 0, filled) && o in {ConfirmedOutcome(), ParkedOutcome()}
      modifies this`log, table, disk
      ensures Finished(run, Now(), filled)
      ensures OnlyKinds(log, old(log), {o.kind})
    {
      hide Closing, RunOk, Finished;
      assert sent[0..] == sent;
      for s := 0 to |sent|
        invariant Closing(run, Now(), sent[s..], 0, filled)
        invariant OnlyKinds(log, old(log), {o.kind})
      {
        assert sent[s..][0] == sent[s] && sent[s..][1..] == sent[s + 1..];
        CloseOne(run, sent[s], sent[s..], filled, o);
      }
      assert sent[|sent|..] == [];
      RunEnds(run, Now(), filled);
    }

    /** Step 8 for the slots Table2 excuses and no file is ever expected in, before anything is
        done about a file. */
    method MarkUpFront(ghost run: Run, r: Reservation)
      requires Now() == run.before
      modifies cbos`marks
      ensures cbos.marks == old(cbos.marks) + MarksFor(r.processId, Slots(r.candidates, UpFront(r.candidates)))
    {
      var cs := r.candidates;
      ghost var p := (c: UploadCandidate) => MarkedUpFront(c);
      for i := 0 to |cs|
        invariant cbos.marks == old(cbos.marks) + MarksFor(r.processId, Slots(cs, Positions(cs, p, i)))
      {
        if !cs[i].isOptional || cs[i].ExpectsAFile() || cs[i].stepNo.None? {
          continue;
        }
        var _ := cbos.MarkStepOptional(r.processId, cs[i].stepNo);
        MarksAppend(r.processId, cs, Positions(cs, p, i), i);
      }
    }

    /** Step 8 for the excused file slots that no file filled. */
    method MarkUnfilled(r: Reservation, filled: set<string>)
      modifies cbos`marks
      ensures cbos.marks == old(cbos.marks) + MarksFor(r.processId, Slots(r.candidates, Unfilled(r.candidates, filled)))
    {
      var cs := r.candidates;
      ghost var p := (c: UploadCandidate) => MarkedUnfilled(c, filled);
      for i := 0 to |cs|
        invariant cbos.marks == old(cbos.marks) + MarksFor(r.processId, Slots(cs, Positions(cs, p, i)))
      {
        if !cs[i].isOptional || !cs[i].ExpectsAFile() || cs[i].stepNo.None? || cs[i].uploadId in filled
          || cs[i].AlreadyInCbos() {
          continue;
        }
        var _ := cbos.MarkStepOptional(r.processId, cs[i].stepNo);
        MarksAppend(r.processId, cs, Positions(cs, p, i), i);
      }
    }

    /** Step 8 for every mandatory slot that holds nothing. */
    method MarkEmpty(r: Reservation)
      modifies cbos`marks
      ensures cbos.marks == old(cbos.marks) + MarksFor(r.processId, Slots(r.candidates, Empty(r.candidates)))
    {
      var cs := r.candidates;
      ghost var p := (c: UploadCandidate) => c.NeedsUpload();
      for i := 0 to |cs|
        invariant cbos.marks == old(cbos.marks) + MarksFor(r.processId, Slots(cs, Positions(cs, p, i)))
      {
        if cs[i].NeedsUpload() {
          var _ := cbos.MarkStepOptional(r.processId, cs[i].stepNo);
          MarksAppend(r.processId, cs, Positions(cs, p, i), i);
        }
      }
    }

    /** The per-file loop over the whole batch. */
    method OfferAll(ghost run: Run, task: Task, r: Reservation, rules: seq<UploadRule>, sniffs: map<Path, Sniff>,
        listed: seq<ListedFile>)
      returns (held: seq<Attempt>, filled: set<string>)
      requires RunOk(run)
      requires run == Run(
                 Now(), task, listed, r.candidates, Some(rules), settings.validateColumns, sniffs,
                 settings.ChunkLimit(), settings.rewriteNames)
      requires RulesOffered(rules, r.candidates)
      modifies this`log, table, disk, cbos`trace, cbos`store, cbos`nextGuid, cbos`days
      ensures Closing(run, Now(), held, |held|, filled)
      ensures OnlyKinds(log, old(log), {Rejected, CallFailed, IdempotentSkip})
    {
      hide Offering, RunOk, Closing, RulesOffered;
      held, filled := OfferFirst(run, task, r, rules, sniffs, listed, |listed|);
      OfferingEnds(run, Now(), held, filled);
    }

    /** The loop's first n rounds. */
    method OfferFirst(ghost run: Run, task: Task, r: Reservation, rules: seq<UploadRule>, sniffs: map<Path, Sniff>,
        listed: seq<ListedFile>, n: nat)
      returns (held: seq<Attempt>, filled: set<string>)
      requires RunOk(run) && n <= |listed|
      requires run == Run(
                 Now(), task, listed, r.candidates, Some(rules), settings.validateColumns, sniffs,
                 settings.ChunkLimit(), settings.rewriteNames)
      requires RulesOffered(rules, r.candidates)
      modifies this`log, table, disk, cbos`trace, cbos`store, cbos`nextGuid, cbos`days
      ensures Offering(run, Now(), n, held, filled)
      ensures OnlyKinds(log, old(log), {Rejected, CallFailed, IdempotentSkip})
    {
      hide Offering, RunOk, RulesOffered, VerdictOn, Placing;
      RunStarts(run);
      held, filled := [], {};
      for k := 0 to n
        invariant Offering(run, Now(), k, held, filled)
        invariant OnlyKinds(log, old(log), {Rejected, CallFailed, IdempotentSkip})
      {
        held, filled := OfferFile(run, k, task, r, rules, sniffs, listed[k], held, filled);
      }
    }

    /** The completeness gate: park the batch, or poll once and confirm it. */
    method Conclude(ghost run: Run, r: Reservation, sent: seq<Attempt>, filled: set<string>, allowed: set<string>)
      returns (exit: Exit)
      requires RunOk(run) && Closing(run, Now(), sent, 0, filled)
      modifies this`log, table, disk, cbos`marks, cbos`polls
      ensures Finished(run, Now(), filled)
      ensures exit == if Missing(r.candidates, filled, allowed) != [] then Parked else Complete
      ensures cbos.marks == old(cbos.marks) + MarksFor(r.processId, Slots(r.candidates, Unfilled(r.candidates, filled)))
      ensures cbos.polls == old(cbos.polls) + (if exit == Complete then 1 else 0)
      ensures OnlyKinds(log, old(log), if exit == Complete then {Confirmed} else {GateParked})
    {
      hide Closing, RunOk, Finished;
      MarkUnfilled(r, filled);
      if Missing(r.candidates, filled, allowed) != [] {
        CloseSent(run, sent, filled, ParkedOutcome());
        return Parked;
      }
      var answer := cbos.ConfirmUpload();
      CloseSent(run, sent, filled, FromPollResult(if answer.Ok? then answer.value else POLL_FAILED));
      exit := Complete;
    }

    /** Steps 5 to 9 for a reservation that is ready to take files. */
    method RunLane(ghost run: Run, task: Task, r: Reservation, rules: seq<UploadRule>, sniffs: map<Path, Sniff>,
        listed: seq<ListedFile>, allowed: set<string>)
      returns (exit: Exit, filled: set<string>)
      requires RunOk(run)
      requires run == Run(
                 Now(), task, listed, r.candidates, Some(rules), settings.validateColumns, sniffs,
                 settings.ChunkLimit(), settings.rewriteNames)
      requires RulesOffered(rules, r.candidates)
      modifies this`log, table, disk, cbos`trace, cbos`store, cbos`nextGuid, cbos`days, cbos`marks, cbos`polls
      ensures Finished(run, Now(), filled)
      ensures GateMeans(run, Now(), allowed, exit)
      ensures cbos.marks == old(cbos.marks) + GateMarks(exit, r, filled)
      ensures cbos.polls == old(cbos.polls) + (if exit == Complete then 1 else 0)
      ensures OnlyKinds(log, old(log), KindsOf(exit))
    {
      hide Closing, RunOk, Finished, RulesOffered, GateMeans, OnlyKinds;
      ghost var before := log;
      var held, skipped := OfferAll(run, task, r, rules, sniffs, listed);
      ghost var offered := log;
      var sent;
      sent, filled := RegisterHeld(run, task, held, skipped);
      KindsJoin(before, offered, log, KindsOf(NothingUploaded), {CallFailed});
      ghost var registered := log;
      if task.files != [] && sent == [] && filled == {} {
        RunEnds(run, Now(), filled);
        GateTells(run, Now(), filled, allowed, NothingUploaded);
        return NothingUploaded, filled;
      }
      exit := Conclude(run, r, sent, filled, allowed);
      ghost var closed := if exit == Complete then {Confirmed} else {GateParked};
      KindsJoin(before, registered, log, KindsOf(NothingUploaded), closed);
      assert KindsOf(exit) == KindsOf(NothingUploaded) + closed;
      GateTells(run, Now(), filled, allowed, exit);
    }

    /** A batch whose reservation takes files: the first marks, then Steps 5 to 9. */
    method RunReady(ghost run: Run, task: Task, r: Reservation, rules: seq<UploadRule>, sniffs: map<Path, Sniff>,
        listed: seq<ListedFile>, allowed: set<string>)
      returns (exit: Exit, filled: set<string>)
      requires AtRest(Now()) && FlatManifest(task.files) && listed == Existing(task.files, disk.files)
      requires RulesOffered(rules, r.candidates)
      requires run == Run(
                 Now(), task, listed, r.candidates, Some(rules), settings.validateColumns, sniffs,
                 settings.ChunkLimit(), settings.rewriteNames)
      modifies this`log, table, disk, cbos`trace, cbos`store, cbos`nextGuid, cbos`days, cbos`marks, cbos`polls
      ensures Finished(run, Now(), filled) && AtRest(Now())
      ensures GateMeans(run, Now(), allowed, exit)
      ensures cbos.marks == old(cbos.marks) + UpFrontMarks(r) + GateMarks(exit, r, filled)
      ensures cbos.polls == old(cbos.polls) + (if exit == Complete then 1 else 0)
      ensures OnlyKinds(log, old(log), KindsOf(exit))
    {
      hide AtRest, Finished, RunOk, FlatManifest, Existing, RulesOffered;
      MarkUpFront(run, r);
      RunMayStart(run);
      exit, filled := RunLane(run, task, r, rules, sniffs, listed, allowed);
      FinishedAtRest(run, Now(), filled);
    }

    /** The same, with its report. */
    method RunReported(task: Task, r: Reservation, rules: seq<UploadRule>, sniffs: map<Path, Sniff>,
        listed: seq<ListedFile>, holiday: Option<Answer<bool>>, allowed: set<string>)
      returns (report: Report)
      requires AtRest(Now()) && FlatManifest(task.files) && listed == Existing(task.files, disk.files)
      requires RulesOffered(rules, r.candidates)
      modifies this`log, table, disk, cbos`trace, cbos`store, cbos`nextGuid, cbos`days, cbos`marks, cbos`polls
      ensures AtRest(Now()) && LaneDone(old(Now()), Now(), task, report, allowed, settings, sniffs)
      ensures CallsDone(old(cbos.marks), cbos.marks, old(cbos.polls), cbos.polls, report)
      ensures report == Report(report.exit, listed, holiday, Some(r), rules, report.filled)
      ensures report.exit in {NothingUploaded, Parked, Complete}
    {
      hide AtRest, Finished, FlatManifest, Existing, RulesOffered, NothingReached, OpenSlot, GateMarks, UpFrontMarks,
           OnlyKinds, KindsOf;
      ghost var run := Run(
        Now(), task, listed, r.candidates, Some(rules), settings.validateColumns, sniffs, settings.ChunkLimit(),
          settings.rewriteNames);
      var exit, filled := RunReady(run, task, r, rules, sniffs, listed, allowed);
      report := Report(exit, listed, holiday, Some(r), rules, filled);
    }

    /** A batch whose reservation is resolved, or cannot be, as setup has found. */
    method RunPrepared(task: Task, setup: Setup, sniffs: map<Path, Sniff>, listed: seq<ListedFile>,
        holiday: Option<Answer<bool>>, allowed: set<string>)
      returns (report: Report)
      requires AtRest(Now()) && FlatManifest(task.files) && listed == Existing(task.files, disk.files)
      requires setup.Ready? ==> RulesOffered(setup.rules, setup.reservation.candidates)
      modifies this`log, table, disk, cbos`trace, cbos`store, cbos`nextGuid, cbos`days, cbos`marks, cbos`polls
      ensures AtRest(Now()) && LaneDone(old(Now()), Now(), task, report, allowed, settings, sniffs)
      ensures CallsDone(old(cbos.marks), cbos.marks, old(cbos.polls), cbos.polls, report)
      ensures Led(report, setup) && report.listed == listed && report.holiday == holiday
    {
      hide AtRest, Finished, FlatManifest, Existing, RulesOffered, NothingReached, OpenSlot, GateMarks, UpFrontMarks,
           OnlyKinds, KindsOf;
      match setup
      case Broken =>
        report := Report(Crashed, listed, holiday, None, [], {});
      case Refused =>
        report := Report(SetupFailed, listed, holiday, None, [], {});
        FailReported(task, report, allowed, sniffs);
      case Ready(r, rules) =>
        if r.isRunnable {
          report := RunReported(task, r, rules, sniffs, listed, holiday, allowed);
        } else {
          report := Report(Deferred, listed, holiday, Some(r), rules, {});
        }
    }

    /** Setup, and what follows from it. */
    method RunReserved(task: Task, sniffs: map<Path, Sniff>, listed: seq<ListedFile>, holiday: Option<Answer<bool>>,
        allowed: set<string>)
      returns (report: Report)
      requires AtRest(Now()) && FlatManifest(task.files) && listed == Existing(task.files, disk.files)
      modifies this`log, table, disk
      modifies cbos`trace, cbos`store, cbos`nextGuid, cbos`days, cbos`marks, cbos`polls
      modifies cbos`asked, cbos`lookups, cbos`reserves, cbos`answers
      ensures AtRest(Now()) && LaneDone(old(Now()), Now(), task, report, allowed, settings, sniffs)
      ensures CallsDone(old(cbos.marks), cbos.marks, old(cbos.polls), cbos.polls, report)
      ensures report.holiday == holiday && Led(report, SetupOf(report))
      ensures SetupOk(task, old(cbos.Said()), cbos.Said(), SetupOf(report), settings)
    {
      hide AtRest, FlatManifest, Existing, RulesOffered, LaneDone, CallsDone, SetupOk;
      var setup := SetUp(task);
      SetupOffers(task, old(cbos.Said()), cbos.Said(), setup, settings);
      report := RunPrepared(task, setup, sniffs, listed, holiday, allowed);
    }

    /** _process_batch: the whole upload lane for one queued batch. The column widths the
        listed files show are an input. */
    method ProcessBatch(task: Task, sniffs: map<Path, Sniff>, allowed: set<string>) returns (report: Report)
      requires AtRest(Now()) && FlatManifest(task.files)
      modifies this`log, table, disk, cbos
      ensures AtRest(Now()) && LaneDone(old(Now()), Now(), task, report, allowed, settings, sniffs)
      ensures CallsDone(old(cbos.marks), cbos.marks, old(cbos.polls), cbos.polls, report)
      ensures TalkTold(task, old(Now()), report, old(cbos.Said()), cbos.Said(), settings)
    {
      hide AtRest, FlatManifest, SetupOk;
      var listed := Existing(task.files, disk.files);
      GoneMeans(task, Now());
      if task.files != [] && listed == [] {
        return Report(Superseded, listed, None, None, [], {});
      }
      var holiday := None;
      if task.segment != CORP_ACTION_SEGMENT && Supplies(task).None? {
        var open := cbos.MayBeginUpload();
        holiday := Some(open);
        if open.Ok? && !open.value && settings.holidayCheckEnforced {
          return Report(Deferred, listed, holiday, None, [], {});
        }
      }
      report := RunReserved(task, sniffs, listed, holiday, allowed);
    }

    /** The next file, only as far as the run got with it. */
    method OfferPart(ghost run: Run, ghost k: nat, ghost held: seq<Attempt>, ghost filled: set<string>, task: Task,
        f: ListedFile, next: Progress)
      requires RunOk(run) && Offering(run, Now(), k, held, filled) && k < |run.listed| && run.listed[k] == f
      requires run.task == task
      modifies table, cbos`trace, cbos`store, cbos`nextGuid
      ensures Offering(run, Now(), k, held, filled) && GotTo(Now(), f.path, next)
      ensures next.NotStarted? ==> Now() == old(Now())
    {
      hide RunOk, Offering, ChunkStep;
      if next.NotStarted? {
        return;
      }
      var id := Offer(run, k, held, filled, task, f);
      if next.RowWritten? {
        return;
      }
      Annotate(run, k, held, filled, id, table.rows[id].(uploadId := Some(next.uploadId)));
      if next.ColumnsWritten? {
        return;
      }
      var guid := TakeGuid(run, k, held, filled, id);
      ghost var w := Now();
      SomeChunks(guid, next.calls);
      ChunkStepKeepsOffering(run, w, Now(), k, held, filled, guid);
    }

    /** Any chunk calls under this GUID, with any answers. */
    method SomeChunks(guid: nat, calls: nat)
      requires guid < cbos.nextGuid
      modifies cbos`trace, cbos`store
      ensures ChunkStep(old(Now()), Now(), guid)
      ensures |cbos.trace| == |old(cbos.trace)| + calls && cbos.nextGuid == old(cbos.nextGuid)
      ensures forall i :: |old(cbos.trace)| <= i < |cbos.trace| ==> cbos.trace[i].guid == guid
    {
      for c := 0 to calls
        invariant ChunkStep(old(Now()), Now(), guid)
        invariant |cbos.trace| == |old(cbos.trace)| + c && cbos.nextGuid == old(cbos.nextGuid)
      {
        var name: string, data: Bytes, index: nat, total: nat := *, *, *, *;
        var _ := cbos.UploadChunk(guid, name, data, index, total);
      }
    }

    /** A run that some other error, or the end of the process, cuts off before its first
        Step 7: what it did stays as it is. */
    method CutOff(task: Task, sniffs: map<Path, Sniff>, offered: nat, next: Progress) returns (ghost setup: Setup)
      requires AtRest(Now()) && FlatManifest(task.files)
      modifies this`log, table, disk, cbos
      ensures SetupOk(task, old(cbos.Said()), cbos.Said(), setup, settings)
      ensures AtRest(Now()) && KeepsUploaded(old(table.rows), table.rows)
      ensures var listed := Existing(task.files, old(disk.files));
              StoppedAt(task, old(Now()), Now(), setup, settings, sniffs, old(cbos.marks), cbos.marks,
                if offered < |listed| then offered else |listed|, next)
      ensures old(cbos.trace) <= cbos.trace
      ensures forall i :: |old(cbos.trace)| <= i < |cbos.trace| ==> cbos.trace[i].Chunk?
    {
      var listed := Existing(task.files, disk.files);
      var got := SetUp(task);
      setup := got;
      SetupOffers(task, old(cbos.Said()), cbos.Said(), setup, settings);
      CutOffAfter(task, got, sniffs, listed, if offered < |listed| then offered else |listed|, next);
    }

    /** The same for a setup that is done. */
    method CutOffAfter(task: Task, setup: Setup, sniffs: map<Path, Sniff>, listed: seq<ListedFile>, n: nat,
        next: Progress)
      requires AtRest(Now()) && FlatManifest(task.files) && listed == Existing(task.files, disk.files)
      requires n <= |listed| && (setup.Ready? ==> RulesOffered(setup.rules, setup.reservation.candidates))
      modifies this`log, table, disk, cbos`trace, cbos`store, cbos`nextGuid, cbos`days, cbos`marks
      ensures AtRest(Now()) && KeepsUploaded(old(table.rows), table.rows)
      ensures StoppedAt(task, old(Now()), Now(), setup, settings, sniffs, old(cbos.marks), cbos.marks, n, next)
      ensures old(cbos.trace) <= cbos.trace
      ensures forall i :: |old(cbos.trace)| <= i < |cbos.trace| ==> cbos.trace[i].Chunk?
    {
      hide AtRest, FlatManifest, Existing, RulesOffered, RunOk, Offering, GotTo, MarksFor;
      if setup.Broken? {
        return;
      }
      ghost var run := RunUnder(setup, Now(), task, settings, sniffs);
      RunMayStart(run);
      var held, filled := [], {};
      if setup.Ready? {
        MarkUpFront(run, setup.reservation);
        held, filled := OfferFirst(run, task, setup.reservation, setup.rules, sniffs, listed, n);
      } else {
        FailFirst(run, task, listed, n);
      }
      if n < |listed| {
        OfferPart(run, n, held, filled, task, listed[n], next);
      }
      CutOffWhileOffering(run, Now(), n, held, filled);
    }

    /** _proceed_batch: ops accept that the named slots stay empty. */
    method ProceedBatch(requested: set<string>, allowed: set<string>)
      returns (status: BatchModel.BatchStatus, reread: Option<Reservation>)
      modifies cbos`marks, cbos`polls, cbos`lookups, cbos`reserves, cbos`answers
      ensures exists found ::
                && cbos.lookups == old(cbos.lookups) + [found]
                && (found.None? ==> reread.None? && cbos.Said() == old(cbos.Said()).(lookups := cbos.lookups))
                && (found.Some? ==>
                      && cbos.reserves == old(cbos.reserves) + [found.value]
                      && cbos.answers == old(cbos.answers) + [if reread.Some? then Ok(reread.value) else Raised])
      ensures status == if reread.Some? && MayProceed(reread.value.candidates, requested, allowed)
                        then BatchModel.Confirmed
                        else BatchModel.Incomplete
      ensures status == BatchModel.Confirmed ==>
                cbos.marks == old(cbos.marks)
                  + MarksFor(reread.value.processId, Slots(reread.value.candidates, Empty(reread.value.candidates)))
      ensures status == BatchModel.Incomplete ==> cbos.marks == old(cbos.marks)
      ensures cbos.polls == old(cbos.polls) + (if status == BatchModel.Confirmed then 1 else 0)
    {
      var existing := cbos.FindExistingProcessId();
      if existing.None? {
        return BatchModel.Incomplete, None;
      }
      var answer := cbos.ReserveProcess(existing.value);
      if answer.Raised? {
        return BatchModel.Incomplete, None;
      }
      var cs := answer.value.candidates;
      reread := Some(answer.value);
      if !(requested <= EmptyFileSlots(cs)) {
        return BatchModel.Incomplete, reread;
      }
      if !(EmptyFileSlots(cs) <= allowed + requested) {
        return BatchModel.Incomplete, reread;
      }
      MarkEmpty(answer.value);
      var _ := cbos.ConfirmUpload();
      status := BatchModel.Confirmed;
    }
  }

  /** A crash on an input: no retries, nothing supplied, an empty manifest. */
  method NoRetriesCrash(maxRetries: int) returns (report: Report)
    requires maxRetries <= 0
    ensures report.exit == Crashed
  {
    hide LaneDone, CallsDone, TalkTold;
    var table := new AuditTable();
    var disk := new Disk();
    var cbos := new Cbos();
    var lane := new Lane(table, disk, cbos, Settings(maxRetries, false, 5120, 3, true, true));
    var task := Task("17-08-2026", "EQ", [], None, None);
    ghost var before, said := lane.Now(), cbos.Said();
    report := lane.ProcessBatch(task, map[], {});
    CrashExactly(task, before, report, said, cbos.Said(), lane.settings);
  }
}
