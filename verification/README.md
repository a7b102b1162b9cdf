# Upload service: a verified model

A Dafny model of a service that pushes files into remote, append-only, failure-prone APIs
while it keeps an audit table, a folder tree and a queue in step. The remote sides are
environments: every call may answer anything or raise its client's own error, and a call
that raised may still have taken effect. What is proved are facts about whole runs of the
code around those calls.

Verify everything with `dafny verify dfyconfig.toml`.

## What is modelled

| file | what it is about |
|---|---|
| `Text.dfy`, `Chunking.dfy` | numerals, case folding, key separators; ceiling division and reassembly |
| `FileService.dfy` | moving a file into `uploaded/` or `uploadFailed/` |
| `UploadedFileRepository.dfy` | the audit table with its UNIQUE `file_path` |
| `UploadOutcome.dfy`, `UploadMatching.dfy`, `CbosFilename.dfy` | the outcome table, the file-to-slot matcher, the date-token rewriter |
| `MatchDecision.dfy` | which rule wins, told on the rules and the name |
| `CbosClient.dfy` | Table2 slots, the chunked transfer with retries, the CBOS calls |
| `LaneState.dfy`, `LanePhases.dfy` | the upload lane as a state machine over plain values: its invariant and each step |
| `LaneGate.dfy` | setup, Step 8 and the completeness gate: what each exit of the lane means, told on rows, calls and log |
| `UploadService.dfy` | the lane itself, as a class over table, folders and CBOS; the force-proceed lane |
| `LaneHistory.dfy` | any sequence of batches, force-proceeds and operators moving files about |
| `BatchVerdicts.dfy` | what a confirmed batch row rests on: the lanes' conclusions as the worker's verdicts |
| `BatchModel.dfy`, `BatchQueue.dfy`, `BatchService.dfy` | the batch statuses; queue, guard and worker under every interleaving; intake, rescan, force-proceed and restarts |
| `NsdlStream.dfy`, `NsdlLedger.dfy`, `NsdlSelection.dfy` | the header-stripping streamer, the append-only ledger, the request selection |
| `Settlement.dfy` | the settlement upload with its restart-from-validation retry |

The lane is proved in two layers. `LaneState` and `LanePhases` say what holds between two
steps (`Offering` while chunks go out, `Closing` while files are registered and leave) and
that each step keeps it. The methods of `UploadService.Lane` make those steps on the mutable
table, folder tree and call trace, in the order of the program, and carry the invariant.
`LogEntry` is the line `apply_outcome` logs. The call traces, the log, the lists of what a
remote side was asked and answered (`answers`, `readings`, `steps`, `days`, `partings` and the
like) and the fields `added`/`taken` of the queue machine record what happened and are never read
back: they are there so that a failure can be tied to the answer that caused it.

## Assumptions

- A GUID the service generates was never handed out before.
- The names listed in one manifest differ, and a listed file does not itself lie in
  `uploaded/` or `uploadFailed/`.
- Files do not change while the lane runs; operators move them between runs.
- The column widths a listed file shows are an input of the lane: one value per path, so the
  matcher's verdict on a file is one value too (`VerdictOn`).
- Case folding is ASCII; a digit is an ASCII digit, and white space is ASCII's.
- A completed run of the lane meets only the CBOS client's own error. One that any other error,
  or the end of the process, cuts off is `CutOff`, up to its first Step 7.
- A batch id always comes with the same manifest; its date and segment hold no `|`, and it is
  neither empty nor `scan`.
- NSDL calls for one file follow one another. Errors the service does not catch may end a
  call at any remote step there, but not between an acknowledged finalize and the commit.

## Findings

- A run crashes by itself exactly when setup is reached with `cbos_max_retries` 0 or negative and
  no supplied PROCESSID: no attempt is made and the missing reservation is read (`ProcessBatch`;
  `NoRetriesCrash` runs into it). That is the modelled part: building the client
  (app/services/upload_service.py:356) lies outside every `try` and may raise its own error,
  which is not part of this model.
- `docs/BATCH_HANDOFF_CONTRACT.md:76-77` says a superseded batch ends FAILED and
  `docs/CBOS_HANDOFF_CONTRACT.md:29` that a finished one is reported UNCONFIRMED; the code
  reports UNCONFIRMED for the first and CONFIRMED for the second, whatever Step 9 reads
  (`VerdictStatus`). The code is followed.
- A force-proceed records its slots, but its task joins the queue exactly when no task of the
  batch is held and there is room (`RepeatedProceedIsDropped`). Asked again while one is in
  flight it is answered as queued and its task is dropped (`SecondProceedDropped`); asked
  between the verdict of a proceed that parked the batch again and the release of its guard, it
  is answered as queued and no task is left at all (`LateProceedLost`).
- A run cut off before its first acknowledged Step 7 leaves nothing the next run could trip over.
  Cut off later, it does so exactly while some acknowledged file still waits for its `uploaded`
  row, which is written only when the batch is closed: nothing then says that CBOS has the file
  (`CutOffWhileOffering`, `CutOffIff`).
- A rescan, or a submit, in the moment between a deferring verdict and the release of its guard
  leaves that batch queued by status with nothing to run it. This is the only queued or
  uploading batch it leaves out of hand (`RescanRecovers`, `RescanMissesSettled`).
- Two batches with the same date and segment share a queue key when one has no id and the
  other is called `scan` (`KeyCollisions`).
- The name rewriter replaces the first place the stamp's digits occur at all. If that is
  inside a longer number, the checked stamp stays late (`StampIsReplacedIff`,
  `MisplacedRewrite`), and the new name is rewritten again unless that number has come to read
  as a day (`SettlesIff`). A six-digit stamp asked for a day in 1999 comes out a century late
  (`CenturyRewrite`).
- The lane hands the rewriter its day-first folder date, which never equals the ISO day CBOS
  answers with, so with the default date format no name is ever rewritten
  (`DayFirstNeverMatches`).

## Model

| member | source | states |
|---|---|---|
| `Chunking.ChunksReassemble` | app/clients/cbos_client.py:846-865 | cut by the ceiling count, with at least one chunk for an empty file, the chunks put together are the file |
| `FileService.NumberedInjective` | app/services/file_service.py:53-58 | two counters never give one numbered name, so the search for a free name makes progress |
| `FileService.DestinationUnique` | app/services/file_service.py:45-66 | there is only one path a move may choose: the plain name when free, else the least free number from 2 |
| `FileService.DestinationFacts` | app/services/file_service.py:45-66 | the chosen path is free, lies in the sub-folder beside the source, and is exactly one level deeper |
| `FileService.OccupiedShrinks` | app/services/file_service.py:56-58 | each taken name used up strictly shrinks the set of names still in the way, so the loop ends on every finite folder |
| `FileService.MoveConserves` | app/services/file_service.py:65-66 | a move to a free path keeps the collection of file contents and every other file; only the source path is vacated |
| `FileService.Disk.MoveFile` | app/services/file_service.py:34-66 | always ends, lands on that unique free path and moves exactly one file, overwriting nothing |
| `FileService.Disk.MoveToUploaded` | app/services/file_service.py:26-27 | the same into `uploaded/` |
| `FileService.Disk.MoveToFailed` | app/services/file_service.py:30-31 | the same into `uploadFailed/` |
| `UploadedFileRepository.ColumnTextInjective` | app/repositories/uploaded_file_repository.py:98-141 | live and retired paths that differ are different column texts, whatever the file names contain short of `<` |
| `UploadedFileRepository.ColumnStaysUnique` | app/repositories/uploaded_file_repository.py:98-141 | in a well-kept table two rows hold one column text only when they are the same row |
| `UploadedFileRepository.CreateKeepsTable` | app/repositories/uploaded_file_repository.py:52-96 | get-or-create breaks neither uniqueness nor the depth rule of retired labels |
| `UploadedFileRepository.ClaimKeepsTable` | app/repositories/uploaded_file_repository.py:98-141 | a row that claims a deeper path retires the old owner under a label that cannot exist yet |
| `UploadedFileRepository.PathsStayDistinct` | app/repositories/uploaded_file_repository.py:52-141 | from an empty table, after any operations, the UNIQUE constraint never fires and a path lookup sees at most one row |
| `UploadedFileRepository.AuditTable.FindByPath` | app/repositories/uploaded_file_repository.py:60-66 | the row that claims a path, if any |
| `UploadedFileRepository.AuditTable.CreateAuditRecord` | app/repositories/uploaded_file_repository.py:52-96 | resets the row of a re-dropped file to pending or inserts one, and keeps the table well |
| `UploadedFileRepository.AuditTable.ClaimFilePath` | app/repositories/uploaded_file_repository.py:98-141 | only the row that held the path is retired, only this row takes it |
| `UploadedFileRepository.AuditTable.FindCompleted` | app/repositories/uploaded_file_repository.py:161-177 | finds an `uploaded` row of this segment, date, UploadID and file name exactly when there is one |
| `UploadMatching.MatchOrderIndependent` | app/services/upload_matching.py:272-317 | for any permutation of the rules the verdict is the same: which rule, or which kind of rejection |
| `UploadMatching.WinnerIsLongest` | app/services/upload_matching.py:291-317 | a matched rule is one of the rules, matches the name, and no matching rule has a longer pattern |
| `MatchDecision.SelectedIff` | app/services/upload_matching.py:234-317 | the matched rule is the only finalist: matching, no matching rule longer; among these, with the file's own extension if any has it; if several are left, with the exchange in its name if any has that. No match means that no rule matches; ambiguous means that there are two finalists or more |
| `MatchDecision.MatchIff` | app/services/upload_matching.py:272-395 | the whole verdict: the only finalist's, unless its columns are wrong; otherwise ambiguous or unmatched |
| `MatchDecision.FileVerdictIff` | app/services/upload_service.py:645-653 | the lane asks for that verdict on the file's own name and on its exchange, "NA" being none |
| `MatchDecision.OperatorsMean` | app/services/upload_matching.py:44-85 | each operator, however it is spelled, is equality, prefix, suffix or containment of the lower-cased texts |
| `Text.CaseFolds` | app/services/upload_matching.py:44-85 | folding changes letters only, and folding back the other way changes nothing more: comparing folded texts is comparing without case |
| `Text.StripTakesEnds` | app/services/cbos_filename.py:115-118 | stripping takes white space off both ends, all of it, and nothing else |
| `MatchDecision.NameInTwo` | app/services/upload_matching.py:291-294 | the extension is what follows the last dot, upper-cased, when something stands before and after it |
| `MatchDecision.NameInOne` | app/services/upload_matching.py:291-294 | there is none without a dot, or when the last one opens or ends the name |
| `MatchDecision.NumberedKeepsExtension` | app/services/file_service.py:53-58 | a number put before the suffix keeps the extension, so a numbered copy matches under the same one |
| `UploadMatching.DisambiguatePermutes` | app/services/upload_matching.py:234-269 | breaking a tie does not depend on the order of the tied rules; which of them wins is `MatchDecision.SelectedIff` |
| `UploadMatching.WeakerRulesChangeNothing` | app/services/upload_matching.py:291-317 | adding rules that do not match, or match with a shorter pattern, never changes the verdict once something matches |
| `UploadMatching.CaseIsIgnored` | app/services/upload_matching.py:44-85 | case never decides a match, on either side |
| `UploadMatching.OperatorsNarrowContains` | app/services/upload_matching.py:44-85 | under every operator a match means that the pattern occurs in the name, and an equal name always matches |
| `UploadMatching.EmptyPatternTakesAll` | app/services/upload_matching.py:44-85 | an empty pattern takes every file exactly when the operator is not equality, so only its length keeps it from winning |
| `UploadMatching.ColumnCheckOnEvidence` | app/services/upload_matching.py:319-395 | a file is rejected for its columns iff it was seen, no line has the declared width under any delimiter, and either no line or a real column was seen; as empty iff no line was seen; otherwise the rule stands |
| `CbosClient.BuildReservation` | app/clients/cbos_client.py:372-437 | raises exactly when Table2 is empty or no PROCESSID can be had; a given PROCESSID wins; runnable unless Table1 says no |
| `CbosClient.AllPiecesAreTheFile` | app/clients/cbos_client.py:857-904 | pieces 0 to N-1 under one name, put together by index, are the file |
| `CbosClient.Cbos.SendChunk` | app/clients/cbos_client.py:860-901 | a chunk is acknowledged within the limit and stored under its index, or the last calls are that chunk failing the full limit; exactly the refused calls are counted as refusals of this chunk |
| `CbosClient.Cbos.UploadFile` | app/clients/cbos_client.py:816-906 | if it returns, the server holds exactly indices 0 to N-1 under one GUID and name, they are the file, and no chunk was refused the full limit; progress was (1,N) to (N,N); at most N times the limit calls; it raises only after one chunk was refused exactly the full limit |
| `CbosClient.Cbos.MarkStepOptional` | app/clients/cbos_client.py:995-1019 | a slot without a STEPNO is refused before any call goes out |
| `UploadOutcome.TableAgrees` | app/services/upload_outcome.py:46-168 | every outcome's folder agrees with its status; only a failure counts as a retry, only a file registered by the service is stamped, only a local rejection sets a validation error |
| `LaneState.CompletedStays` | app/repositories/uploaded_file_repository.py:161-177 | the proof that a file was sent survives every later change that keeps `uploaded` rows |
| `LaneState.SlotInCbosIff` | app/services/upload_service.py:661-683 | a file is skipped for its slot iff the last Table2 row of its UploadID says that CBOS holds the file |
| `LaneState.RowStepKeepsBase` | app/services/upload_service.py:626-659 | creating or annotating the offered file's row keeps the run's invariant |
| `LaneState.ChunkStepKeepsBase` | app/services/upload_service.py:702-747 | taking a GUID and sending chunks under it keeps the run's invariant and every earlier upload |
| `LaneState.OutcomeStepKeepsLog` | app/services/upload_service.py:204-250 | apply_outcome moves one file to its folder and gives its row the matching status; no other landed file or row status is disturbed |
| `LaneState.OfferedLeaves` | app/services/upload_service.py:645-700 | a rejected, failed or skipped file is accounted for once and never offered again |
| `LaneState.OpenLeaves` | app/services/upload_service.py:786-792 | so is a file whose registration was refused or whose batch is being closed |
| `LanePhases.NotCompletedNotRegistered` | app/services/upload_service.py:684-687 | no `uploaded` row for a file means that it was never acknowledged, in this run or any before |
| `LanePhases.CompletedIsEarlier` | app/services/upload_service.py:687-700 | a completed row found during the run dates from before it |
| `LanePhases.RegisterAcked` | app/services/upload_service.py:767-785 | an acknowledged Step 7 fills its slot and repeats neither a key nor a GUID |
| `LanePhases.RegisterRefused` | app/services/upload_service.py:786-792 | a refused Step 7 sends the file to `uploadFailed/` and fills nothing |
| `LanePhases.SentLeaves` | app/services/upload_service.py:963-966 | a registered file leaves for `uploaded/` and its row becomes the proof of it |
| `LanePhases.CutOffWhileOffering` | app/services/upload_service.py:626-765 | at every point of the offering phase the state is at rest, with no registration made |
| `LanePhases.CutOffIff` | app/services/upload_service.py:767-966 | in the closing phase it is at rest exactly when no acknowledged file still waits for its `uploaded` row |
| `LanePhases.RunEnds` | app/services/upload_service.py:321-999 | when no file is open the table, ledger and folders are at rest again, all files are routed, and the two phases were kept; each Step 7 carried the GUID and name under which CBOS holds the whole file |
| `LanePhases.EveryFileRouted` | app/services/upload_service.py:626-966 | a completed run moves each listed file exactly once with its bytes: `uploaded/` and an `uploaded` row iff registered in this run or skipped, else `uploadFailed/` and a `failed` row |
| `LanePhases.EveryFateExplained` | app/services/upload_service.py:645-966 | for each listed file, both ways: it ends failed iff the matcher's verdict rejects it, or it was to be sent and one chunk of its upload used up the limit or its Step 7 was refused; it is registered iff it was to be sent and neither happened; it is skipped iff it was matched and its slot or an earlier row said CBOS has it; and its UploadID is the matched rule's |
| `LaneGate.FileSlotsExact` | app/services/upload_matching.py:143-159 | the UploadIDs asked about are those a file is expected under, each once |
| `LaneGate.PositionsExact` | app/services/upload_service.py:552-563 | the slots a filter picks are all and only those that satisfy it, each once, in table order |
| `LaneGate.Step8Restraint` | app/services/upload_service.py:552-843 | the two mark loops touch exactly the slots with a STEPNO that Table2 flags optional and that are zero-UploadID or neither filled nor already in CBOS, each once; never one the gate reports missing |
| `LaneGate.MarksTold` | app/services/upload_service.py:552-843 | over the whole run Step 8 is called once for each slot it is owed to, and for no other: optional with a STEPNO, and either no file is expected there, or the gate was reached and no file of the run filled it |
| `LaneGate.ProceedMarksTold` | app/services/upload_service.py:1080-1092 | a force-proceed marks each mandatory slot with a STEPNO that CBOS does not hold yet, once and in table order |
| `LaneGate.FilledIsInCbos` | app/services/upload_service.py:661-700 | every filled UploadID has a witness: a registration acknowledged in this run, a slot CBOS already holds, or an earlier `uploaded` row |
| `LaneGate.FilledMeansReached` | app/services/upload_service.py:794-803 | no UploadID counts as filled exactly when every line the run logged is a rejection or a failure |
| `LaneGate.GateTells` | app/services/upload_service.py:794-887 | what the gate decides by, told on the run: nothing uploaded iff files were listed and none was registered or skipped; otherwise parked iff some file slot is mandatory, not allowlisted, not held, and no logged file filled it; otherwise complete |
| `LaneGate.SomethingReached` | app/services/upload_service.py:794-803 | a batch with files that is parked or confirmed has a listed file that was registered in this run or skipped as already in CBOS |
| `LaneGate.ConfirmedIsComplete` | app/services/upload_service.py:847-980 | a complete verdict leaves each file slot optional, allowlisted, already held, or with a file that reached CBOS in this run or before |
| `LaneGate.ProceedIsComplete` | app/services/upload_service.py:1033-1077 | force-proceed goes ahead iff every file slot is excused with the named ones, and every named one really was open |
| `LaneGate.FlagsNeverSkipAFile` | app/clients/cbos_client.py:306-314 | however Table2's optional flags are set, the same files are sent and the same ones may be skipped: a flag is no evidence of a file |
| `LaneGate.FlagExcusesItsSlot` | app/services/upload_service.py:847-852 | at the gate a flag excuses its own slot and changes nothing for any other |
| `LaneGate.UsableExact` | app/services/upload_matching.py:160-168 | the rules are the answers that carry one, all of them, in the order they came |
| `LaneGate.CrashExactly` | app/services/upload_service.py:321-520 | a run crashes by itself iff no PROCESSID came with the task, the limit is 0 or less, some listed file is still there or none was listed, and an enforced holiday check did not say no |
| `UploadService.Lane.ApplyOutcome` | app/services/upload_service.py:204-250 | the whole effect of a decision on row, other rows, folder tree and log: the retry count goes up by one for a failure and only then, and a file the service registered is stamped and no other |
| `UploadService.Lane.FetchUploadRules` | app/services/upload_matching.py:126-168 | asks Step 4 once for every distinct file slot in table order and never for a computation step; the rules are exactly the usable answers; raises only on a raised answer |
| `UploadService.Lane.SetUp` | app/services/upload_service.py:466-528 | a supplied reservation is used as it came and no other is reserved; otherwise the reservations and their answers are recorded one by one, under the PROCESSID looked up, at most the limit of them; it is ready with the last answer and the rules asked for it, refused only after every attempt failed, and leaves no reservation iff nothing was supplied and the limit is 0 or less |
| `UploadService.Lane.FailAllFiles` | app/services/upload_service.py:253-274 | setup failure finishes the run with every file failed and no CBOS call made |
| `UploadService.Lane.NameToSend` | app/services/upload_service.py:713-718 | with the switch off the file keeps its name and nothing is asked; with it on CBOS is asked once, and its answer about the trading day alone decides whether the name is rewritten |
| `UploadService.Lane.SendChunks` | app/services/upload_service.py:702-765 | the GUID is recorded first; the file ends up open with its chunks complete in CBOS, or failed |
| `UploadService.Lane.SkipOrSend` | app/services/upload_service.py:661-765 | a skip is justified by the slot's status or an earlier row |
| `UploadService.Lane.OfferFile` | app/services/upload_service.py:626-765 | one round of the per-file loop keeps the offering phase; the row of a matched file says under which PROCESSID and UploadID it belongs |
| `UploadService.Lane.RegisterHeld` | app/services/upload_service.py:767-792 | registers every held file once, after every Step 5 |
| `UploadService.Lane.CloseSent` | app/services/upload_service.py:867-966 | every registered file leaves with the batch's outcome and the run is finished |
| `UploadService.Lane.MarkUpFront` | app/services/upload_service.py:552-563 | marks exactly the optional slots no file is ever expected in, before anything is done about a file |
| `UploadService.Lane.MarkUnfilled` | app/services/upload_service.py:822-843 | marks exactly the optional file slots nothing filled |
| `UploadService.Lane.Conclude` | app/services/upload_service.py:822-983 | parks without a Step 9 call when something is missing, else polls once and confirms whatever the poll says |
| `UploadService.Lane.RunLane` | app/services/upload_service.py:626-983 | the run finishes as nothing uploaded, parked or complete, as the files that reached CBOS and the open slots call for, with the marks and polls of that exit |
| `UploadService.Lane.ProcessBatch` | app/services/upload_service.py:321-999 | a deferring exit changes nothing; any other finishes the run with at-rest state, full routing, explained fates and two-phase calls. Nothing uploaded iff files were listed and every line logged is a rejection or a failure; parked iff something reached CBOS and a slot is open; complete otherwise. Superseded, deferred, crashed and setup-failed exits are told on disk, holiday answer and reservations; marks, polls, Step 1, 2 and 4 calls are exactly those the exit calls for |
| `UploadService.NoRetriesCrash` | app/services/upload_service.py:492-520 | with nothing supplied, an empty manifest crashes the run for every limit of 0 or less |
| `UploadService.Lane.CutOff` | app/services/upload_service.py:626-765 | a run cut off after any number of files, with the next one at any stage before its fate, leaves table, calls and GUIDs at rest, keeps every `uploaded` row, and has made chunk calls only; the files before are dealt with, the next one got just as far as said, and the slots to be marked up front were |
| `UploadService.Lane.ProceedBatch` | app/services/upload_service.py:1002-1114 | the PROCESSID is looked up and its slots re-read; confirmed iff they allow it, only then are slots marked and Step 9 polled; without a PROCESSID or an answer it stays parked |
| `LaneHistory.AtMostOneAck` | app/services/upload_service.py:684-792 | an at-rest trace acknowledges no (segment, date, UploadID, name) twice |
| `LaneHistory.Live` | app/services/upload_service.py:305-318 | over any batches, runs cut off while offering, force-proceeds and operator moves, each doing what the lane promises of it: at most one acknowledged registration per file, its `uploaded` row kept by every later run |
| `LaneHistory.LiveFromScratch` | app/services/upload_service.py:305-318 | the same from an empty table and an untouched CBOS |
| `BatchQueueProtocol.KeyInjective` | app/core/queue.py:60-69 | keys are equal iff date, segment, mode and id text are, for separator-free dates and segments |
| `BatchQueueProtocol.SupersedingIsNotSwallowed` | app/core/queue.py:60-69 | a task with an id of its own shares its key with another iff both name the same date, segment, lane and id, for separator-free dates and segments |
| `BatchQueueProtocol.KeyCollisions` | app/core/queue.py:60-69 | without those conditions keys do collide, on named inputs |
| `BatchQueueProtocol.BatchQueue.Enqueue` | app/core/queue.py:99-123 | seen from its own thread: a duplicate and a full queue leave everything as it was, the guard included |
| `BatchQueueProtocol.BatchQueue.PutNowait` | app/core/queue.py:111-112 | refuses exactly at the bound; 0 or less is unbounded |
| `BatchQueueProtocol.StepKeeps` | app/core/queue.py:99-164 | every atomic step of any thread keeps the guard exact, the bound, and the unfinished count |
| `BatchQueueProtocol.RunKeeps` | app/core/queue.py:99-164 | so it holds under every interleaving of any number of threads, the worker and shutdown |
| `BatchQueueProtocol.InFlightExactly` | app/core/queue.py:99-148 | a key is in flight exactly while it waits, is with the worker until release, or is between guard and put; never in two of these, never queued twice |
| `BatchQueueProtocol.FirstInFirstOut` | app/core/queue.py:129-164 | nothing added is lost, repeated or overtaken; unfinished is 0 exactly when nothing waits or is being worked on |
| `BatchQueueProtocol.WorkerNeverStuck` | app/workers/upload_worker.py:17-44 | task_done is never called once too often |
| `BatchQueueProtocol.StopsForGood` | app/workers/upload_worker.py:9-19 | once the worker has answered the shutdown sentinel it takes nothing more, under every interleaving |
| `BatchQueueProtocol.Run` | app/workers/upload_worker.py:9-44 | however the work on each batch ends (done, raised and recorded as failed, or raised and not even recorded), the loop works on every task once in queue order up to the shutdown sentinel, makes exactly the calls those endings say, marks each done and releases exactly its guard; what still waits stays guarded and counted |
| `BatchQueueProtocol.CallsTell` | app/workers/upload_worker.py:20-44 | over any number of tasks: each is processed once, in order, and a batch is written down as failed exactly where its work raised, right after it |
| `BatchQueueProtocol.WorkOn` | app/workers/upload_worker.py:20-44 | the task is processed once; it is written down as failed, once and right after, iff that raised; both happen under the guard and before task_done, and no ending keeps the task from being counted as done and then let go, in that order; how it ended is told on those calls |
| `BatchQueueProtocol.ShutDown` | app/main.py:54-55 | after a shutdown request the worker, if it is given the time, first finishes every batch that waits, lets go of each, and stops with nothing left in the queue |
| `BatchIntake.BatchService.SubmitManifest` | app/services/batch_service.py:48-125 | all branches of intake, each told on the state before: unreadable, known, checksum mismatch, recorded, full |
| `BatchIntake.SubmittedTells` | app/services/batch_service.py:48-125 | for an id not in the table: a checksum mismatch iff the manifest loads and its checksums fail, with a rejected row and no task; accepted as new iff they hold, with a queued row and one task if there is room; an unreadable manifest changes nothing; a known id gets its own row's status and no new row |
| `BatchIntake.RejectedNeverInHand` | app/services/batch_service.py:81-99 | over any run, a batch whose first submission failed its checksums stays rejected and no task for it is ever in hand |
| `BatchIntake.EveryRowWasSubmitted` | app/services/batch_service.py:81-125 | over any run, every row stems from the first submission of its id, and is rejected iff the checksums failed there: what is queued, or ever got further, passed them |
| `BatchIntake.BatchService.AcknowledgeKnown` | app/services/batch_service.py:128-149 | re-enqueues a known batch only while it is queued or uploading |
| `BatchIntake.BatchService.Rescan` | app/services/batch_service.py:206-221 | submits every manifest in turn, counting the new and the bad ones, and stops at a full queue |
| `BatchIntake.RescanTells` | app/services/batch_service.py:206-221 | a rescan not cut short counts as skipped exactly the manifests it refuses, and names as queued exactly the batches it recorded as such, each once |
| `BatchIntake.BatchService.RequestProceed` | app/services/batch_service.py:224-251 | applies to a parked batch only, records the decision, then enqueues |
| `BatchIntake.ProceedTells` | app/services/batch_service.py:224-251 | which of its answers it gives, and what each does to row and queue, told on the state before |
| `BatchIntake.LaneVerdictsFit` | app/services/upload_service.py:283-983 | every exit of the lane writes a status the batch machine allows |
| `BatchIntake.StepKeeps` | app/services/batch_service.py:48-251 | every intake call, worker step and restart keeps the invariant: each task to be carried out finds its batch in a status its lane starts from |
| `BatchIntake.OthersAreOtherBatches` | app/services/batch_service.py:128-164 | no waiting task is about the batch being worked on |
| `BatchIntake.StatusChangesOnlyInItsLane` | app/services/upload_service.py:77-99 | a step changes a status only by the worker's verdict on that very batch, from a status its lane starts from |
| `BatchIntake.TerminalIsForGood` | app/services/batch_service.py:139-145 | confirmed, unconfirmed, failed and rejected rows never change and are never taken up, over any run with restarts |
| `BatchIntake.ParkedLeavesByProceed` | app/services/batch_service.py:224-251 | a parked batch leaves that status only by the verdict of a proceed task for it |
| `BatchIntake.OneTaskPerBatch` | app/services/batch_service.py:152-164 | no batch has two tasks still to be carried out, of either lane |
| `BatchIntake.GuardMeansHeld` | app/services/batch_service.py:152-164 | a guarded key stands for this very task, waiting or with the worker, never both |
| `BatchIntake.InHandMeans` | app/services/batch_service.py:152-164 | a batch is in hand iff the task its status calls for is held and that task's verdict is still to come |
| `BatchIntake.SubmitRecovers` | app/services/batch_service.py:128-149 | after the next submit a queued or uploading batch is in hand iff it was before, or there is room and the worker is not about to let go of its finished task; the answer is acceptance iff its task is held or there is room |
| `BatchIntake.RescanRecovers` | app/services/batch_service.py:206-221 | a rescan not cut short leaves each queued or uploading batch it saw in hand, except exactly the one whose finished task the worker is about to let go |
| `BatchIntake.RescanMissesSettled` | app/services/batch_service.py:206-221 | a run from the empty service that reaches that exception: the batch stays queued by status with nobody to run it |
| `BatchIntake.RestartRecovers` | app/services/batch_service.py:206-221 | the process may end at any time: the rows are kept, nothing is in hand, and a rescan not cut short then puts every queued or uploading batch it finds in hand, without exception |
| `BatchIntake.OneVerdictEach` | app/workers/upload_worker.py:17-44 | over any run, after a verdict was written, or its write was lost, no status is written by the worker until it has picked up another task |
| `BatchIntake.RepeatedProceedIsDropped` | app/services/batch_service.py:236-251 | the slots are recorded always; a task with them is queued iff none of the batch is held and there is room; the queue is left alone with a "queued" answer iff one is held; no task at all is left behind a "queued" answer iff the worker is about to let go of a finished one; "full" otherwise |
| `BatchIntake.SecondProceedDropped` | app/services/batch_service.py:236-251 | a run in which the second of two proceeds is answered as queued while the one task keeps the first one's slots |
| `BatchIntake.LateProceedLost` | app/services/batch_service.py:236-251 | a run in which a proceed is answered as queued and no task for it exists then or later |
| `BatchIntake.PlayReaches` | app/services/batch_service.py:48-251 | a play of events from the empty service is a run of the machine, so the states above are reachable |
| `BatchVerdicts.ConfirmedMeansComplete` | app/services/upload_service.py:847-1077 | neither lane concludes that a batch is confirmed unless every file slot is accounted for |
| `BatchVerdicts.NothingReachedFails` | app/services/upload_service.py:794-803 | a batch that got past setup is failed iff files were listed and every one was rejected or failed, however its slots look |
| `BatchVerdicts.ConfirmedRestsOnALane` | app/services/upload_service.py:77-99 | over any intake calls, verdicts and restarts, a confirmed row was confirmed by the worker on a task for that very batch, and what the lane did then left no file slot unexplained |
| `BatchVerdicts.CarryOutUpload` | app/services/upload_service.py:283-999 | the upload lane's conclusion is a verdict the batch machine allows, and the run just made is its evidence; unconfirmed iff all its files are gone |
| `BatchVerdicts.CarryOutProceed` | app/services/upload_service.py:1002-1114 | the same for a force-proceed, on the slots its task carries |
| `NsdlStream.ReceiverSeesAll` | app/clients/nsdl_speede_client.py:214-225 | a receiver that drops an unterminated last line loses one exactly when the data does not end with a line feed |
| `NsdlStream.ClosingRestores` | app/clients/nsdl_speede_client.py:392-402 | one added line feed restores it and invents no row |
| `NsdlStream.OffsetIsPastTheHeader` | app/clients/nsdl_speede_client.py:189-211 | the offset is found exactly when the header ends within the scan budget or the file is shorter; behind it lie exactly the data rows |
| `NsdlStream.ReceiverGetsTheRows` | app/clients/nsdl_speede_client.py:386-403 | what is sent is read back as exactly the file's data rows |
| `NsdlStream.WithoutClosingNewline` | app/clients/nsdl_speede_client.py:392-402 | with that setting off it is so exactly when the export is empty of data or ends with a line feed |
| `NsdlStream.HeaderKept` | app/clients/nsdl_speede_client.py:386-386 | with the strip off every line of the file arrives |
| `NsdlStream.DeliveredExactly` | app/clients/nsdl_speede_client.py:368-462 | the chunks of a completed upload, each within the size limit, are read as exactly the data rows; a header-only export sends one empty chunk |
| `NsdlStream.NsdlWire.SendBody` | app/clients/nsdl_speede_client.py:424-459 | chunks go out in order from the first data byte, the terminator on the last; it fails iff some answer was bad, and then that is the last call made |
| `NsdlStream.NsdlWire.UploadChunks` | app/clients/nsdl_speede_client.py:368-462 | on success all chunks of the body went out under one fresh GUID, each was answered well, and the counts reported are true; it fails iff there is no offset or an answer was bad |
| `NsdlStream.NsdlWire.PollStatus` | app/clients/nsdl_speede_client.py:505-526 | the reading reported is that of the last poll's two texts; all readings but the last are in progress; sleeps once less than it polls, within the limit, and reports in-progress only when the limit is used up |
| `NsdlStream.ClassifyExact` | app/clients/nsdl_speede_client.py:159-172 | failed iff either text speaks of a failure, an error, a rejection or something invalid; success iff neither does and both say success; otherwise in progress |
| `NsdlLedger.FinalizeKeeps` | app/services/nsdl_speede_service.py:373-380 | an acknowledged finalize is in the row at once, so the ledger stays conserved |
| `NsdlLedger.ClearKeeps` | app/services/nsdl_speede_service.py:476-491 | a forced clear moves one acknowledged append from the row to the cleared ones |
| `NsdlLedger.FreshChunksKeep` | app/clients/nsdl_speede_client.py:407-459 | chunks under a new GUID, whether or not the upload ends well, leave what went out under every earlier GUID as it was |
| `NsdlLedger.AppendIsTheRows` | app/clients/nsdl_speede_client.py:368-462 | what went out under an append's GUID is read by the receiver as the data rows of its file |
| `NsdlLedger.NsdlService.UploadOne` | app/services/nsdl_speede_service.py:325-385 | at most one append, exactly when finalize was reached, under a GUID never finalized before and only after every chunk of the file went out under it; a finished one holds its TRANID and is settled by the last reading taken; any other failed at the last step it took, and its row says at which |
| `NsdlLedger.NsdlService.RecordLocateFailure` | app/services/nsdl_speede_service.py:388-418 | only the versionless placeholder row changes |
| `NsdlLedger.NsdlService.Repoll` | app/services/nsdl_speede_service.py:492-508 | a file that was sent is only re-polled, and its row is settled by that reading |
| `NsdlLedger.NsdlService.ProcessEntry` | app/services/nsdl_speede_service.py:421-532 | touches this file's rows only; appends only if it was not sent or under force, for this very file, and clears exactly then; every append so far, this one too, followed all chunks of its file under a GUID of its own; success means a TRANID. A finished file is answered from its row with no call; a sent one is polled once; any other goes through settings, validation, chunks, finalize and poll in that order up to the first that fails. Failed by the service's own error, ended by any other, and otherwise the last reading under the TRANID decides; the chunks fail only over a missing header or a bad answer |
| `NsdlLedger.NsdlService.CheckStatus` | app/services/nsdl_speede_service.py:626-645 | changes nothing but that row's status, by one reading under its TRANID, and nothing at all once it is final |
| `NsdlLedger.Locate` | app/services/nsdl_speede_service.py:235-283 | the pinned number when that file is there and nothing else; without a pin the highest number there is; missing only if there is none |
| `NsdlLedger.ProcessRequest` | app/services/nsdl_speede_service.py:421-532 | one request works on the file its account, report and number mean; its verdict is the status its row is settled with; what it appends is that file of the folder; a file not there is failed |
| `NsdlLedger.ProcessUpload` | app/services/nsdl_speede_service.py:535-623 | an unknown selector stops it before anything, a failed category lookup right after; otherwise one file per selected request in order, each reported with the verdict its own row was settled with at that moment, and still is unless a later request names it again; all succeeded, in progress and failed as a whole are each told on those verdicts; overall success means every one of them holds a TRANID; what was appended are files of that day's folder; it breaks off only over an error that is not the service's own |
| `NsdlLedger.StillSettled` | app/services/nsdl_speede_service.py:574-600 | a row stays settled as reported over all later requests that do not name it |
| `NsdlLedger.Serve` | app/services/nsdl_speede_service.py:421-645 | over any calls, each answered as `ProcessUpload` and `CheckStatus` promise: acknowledged appends = forced clears + 1 if the row holds a TRANID; without force never a second append; no GUID is finalized twice; and under each append's GUID the receiver reads exactly the data rows of its file |
| `NsdlLedger.ServeFromScratch` | app/services/nsdl_speede_service.py:421-645 | the same from an empty ledger: without force no file is ever acknowledged twice |
| `NsdlSelection.CategoryShared` | app/services/nsdl_speede_service.py:87-111 | two entries feed one category iff they are the same non-holding report or the same entry |
| `NsdlSelection.NamesFollow` | app/services/nsdl_speede_service.py:73-132 | the category's name spells the account and its holdings, or the margin report alone |
| `NsdlSelection.SelectionIsStableSort` | app/services/nsdl_speede_service.py:160-170 | the selection is a permutation of the requests in catalogue order with each entry's versions in request order |
| `NsdlSelection.ResolveSelection` | app/services/nsdl_speede_service.py:135-170 | no selectors means all twelve; an unknown one refuses the request; otherwise that stable sort |
| `NsdlSelection.NoSelectorsMeansAll` | app/services/nsdl_speede_service.py:143-150 | then each catalogue entry once, at its latest version |
| `NsdlSelection.LookupIff` | app/services/nsdl_speede_service.py:151-158 | a selector names an entry iff it spells its account and report, whatever the case and the white space around |
| `NsdlSelection.Summarise` | app/services/nsdl_speede_service.py:588-600 | counts the verdicts and picks the overall word |
| `NsdlSelection.SummaryTells` | app/services/nsdl_speede_service.py:588-600 | the counts add up; success iff every file succeeded, in progress iff all are, failed iff some failed and none succeeded |
| `Settlement.GuidReadBack` | app/services/settlement_service.py:63-69 | the GUID is read back from the chunked name whatever the file is called |
| `Settlement.GoodAttemptCarriesTheFile` | app/clients/dp_upload_client.py:334-395 | the chunks of a good attempt, each within the size, put together are the file |
| `Settlement.SettlementUpload.UploadChunks` | app/clients/dp_upload_client.py:323-396 | returns a path iff every chunk went out unrefused under one name and the last answer counts them all; the path is that answer's file name, else the name sent; otherwise the last call is the bad one |
| `Settlement.SettlementUpload.RunUploadAttempt` | app/services/settlement_service.py:72-106 | a TRANID comes from one attempt: validated once, all chunks under the GUID generated for this attempt, exactly that upload finalized; it fails iff the last call was refused |
| `Settlement.SettlementUpload.Attempts` | app/services/settlement_service.py:143-168 | validation calls in the trace count the attempts, at most the limit; the retry count is the number of failed ones; the good one used the last GUID generated; no earlier attempt was ever acknowledged |
| `Settlement.SettlementUpload.PollStatus` | app/clients/dp_upload_client.py:433-466 | sleeps once less than it polls; anything but 0, 1, 2 ends it at once; no poll at all with a limit of 0 |
| `Settlement.SettlementUpload.PollAndProcess` | app/services/settlement_service.py:178-242 | polls under the TRANID; processed at most once, last, after a poll that said success; the status is the one the last call calls for |
| `Settlement.SettlementUpload.ProcessUpload` | app/services/settlement_service.py:109-242 | the configuration is asked first, once; the returned TRANID is that of the last good attempt; the attempts are the validation calls made; polls and processing carry that TRANID, processing only after success and only when the configuration requires it; which status, or which failure, follows from the last call, and it raises only over the configuration, a poll or the processing, with the row left saying pending or polling |
| `CbosFilename.OnlyTheTokenChanges` | app/services/cbos_filename.py:145-145 | a rewrite keeps the length and every character but the digits where the stamp's digits first occur, which become the wanted token |
| `CbosFilename.WantedIff` | app/services/cbos_filename.py:92-118 | CBOS wants another day iff the switch is on, it answered, the basis reads T-1 in any case, the day answered for is the trade date's, and the day wanted is eight digits of the calendar |
| `CbosFilename.RenamedIff` | app/services/cbos_filename.py:120-145 | a name is rewritten iff its first calendar stamp, eight digits before six, lies one to three days after the wanted day |
| `CbosFilename.RenamedIsLate` | app/services/cbos_filename.py:120-143 | only a calendar day stamped one to three days after the wanted one is ever rewritten |
| `CbosFilename.StampIsReplacedIff` | app/services/cbos_filename.py:127-145 | the stamp that was checked is the one replaced iff its digits occur nowhere earlier |
| `CbosFilename.SaysWantedDayIff` | app/services/cbos_filename.py:127-145 | the new name says the wanted day at its stamp iff so, and the shape can say the year |
| `CbosFilename.TokenDate` | app/services/cbos_filename.py:78-89 | the token written is a day of the calendar, and the wanted one unless six digits are asked for a year before 2000 |
| `CbosFilename.AsDateIff` | app/services/cbos_filename.py:62-89 | a stamp is eight digits, or six of this century, that say a day of the calendar, day first; anything else is none |
| `CbosFilename.YearStartIs` | app/services/cbos_filename.py:120-143 | the days by which lateness is counted follow the leap rule, centuries and all |
| `CbosFilename.RewriteIsIdempotent` | app/services/cbos_filename.py:124-145 | then the new name resolves to itself, in both shapes |
| `CbosFilename.SettlesIff` | app/services/cbos_filename.py:124-145 | exactly when a rewritten name resolves to itself: the checked stamp was the one replaced, or six digits landed in an eight-digit number that then reads as a calendar day; otherwise it is rewritten again |
| `CbosFilename.NumberIsNotLate` | app/services/cbos_filename.py:120-143 | why that day is never itself rewritten: six digits of the wanted day inside eight never name a day one to three days after it |
| `CbosFilename.MisplacedRewrite` | app/services/cbos_filename.py:145-145 | a name on which the wrong digits are replaced |
| `CbosFilename.MisplacedYetSettled` | app/services/cbos_filename.py:124-145 | a misplaced six-digit rewrite that still settles, so idempotence alone does not tell |
| `CbosFilename.CenturyRewrite` | app/services/cbos_filename.py:78-89 | a six-digit name that comes out a century late |
| `CbosFilename.DayFirstNeverMatches` | app/services/cbos_filename.py:110-118 | a day-first trade date never passes the same-day guard |
| `CbosFilename.ResolveUploadName` | app/services/cbos_filename.py:92-169 | rewritten iff the switch is on, CBOS answered for this very day on a T-1 basis with an eight-digit date, and the name's stamp is a day one to three days after it; then only the stamp's digits change, otherwise the name goes out as it is |

## Left out

- HTTP, multipart, routing, settings loading, logging, correlation ids, redaction, database
  sessions and migrations, the mocks: I/O and library behaviour.
- JSON decoding, manifest schema validation, SHA-256, the CSV sniffing of column widths:
  their results are inputs here.
- Steps 3 and 6 and the reading of Step 9: they are logged and change nothing.
- `post_trade_upload_service`, `safe_path`, the batch and NSDL read endpoints: thin.
- Progress written to the batch row during an upload: the status stays uploading.
- NSDL: crashes between a finalize and the commit that records it, and calls for one file at the
  same time: the code promises nothing there.
- `LaneHistory.Live`: no run in it is cut off after its first Step 7; `CutOffIff` says when that
  would be harmless.
- NSDL: which category and settings a file is sent under and the name made for it: any answer, any
  name; the name is the same in every chunk and in the append.
- Two intake calls racing each other: each is one step in `BatchIntake`, and with a stale
  status read a finished batch can be run again.
- Python's tolerance of signs, spaces, underscores and other scripts' digits in `int()`.
- A malformed `fCount` or status code that `int()` cannot read: it escapes the retry loops.
- The error texts and request logs stored with a row.
- The queue's task and the lane's task are two datatypes here, each with the fields its module
  reads.
- `LaneHistory.AtMostOneAck`: a bound on acknowledged registrations, not on calls; a Step 7 that
  raised may have taken effect and be sent again, because the code does not record it.
- `NsdlLedger.Serve`: the same holds for a finalize that raised.
