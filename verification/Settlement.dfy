/** app/clients/dp_upload_client.py and app/services/settlement_service.py: one settlement
    file, uploaded inside a request: validate, chunk, finalize with a restart from the
    first step on any failure, then poll and process. */
module Settlement {
  import opened Text
  import opened Chunking

  const FILE_UPLOADED := "FileUploaded"
  const CHUNK_FAILED := "Failed"
  const STATUS_SUCCESS := 3
  const STATUS_ERROR := 4
  const POLL_TIMED_OUT := -1

  datatype ChunkReply = ChunkReply(status: string, fCount: int, fileName: string)

  /** Every call made to the DP API, with its answer. */
  datatype DpCall =
    | Configure(required: Answer<bool>)
    | Validate(ok: bool)
    | Chunk(name: string, data: Bytes, index: nat, total: nat, reply: Answer<ChunkReply>)
    | Finalize(path: string, tran: Option<nat>)
    | Poll(of: nat, reading: Answer<int>)
    | Process(of: nat, ok: bool)

  datatype DpSettings = DpSettings(chunkSizeKb: int, maxRetries: int, pollMaxAttempts: int)

  function ChunkSize(s: DpSettings): (n: nat)
    ensures n > 0
  {
    Max(1, s.chunkSizeKb) * 1024
  }

  function MaxAttempts(s: DpSettings): (n: nat)
    ensures n >= 1
  {
    Max(1, s.maxRetries + 1)
  }

  // ---- the chunked name ----

  function ChunkedName(guid: nat, fileName: string): string {
    Dec(guid) + "_" + fileName
  }

  function ExtractGuid(path: string): Option<string> {
    if '_' in path then Some(path[..FirstIndex(path, '_')]) else None
  }

  /** The GUID is read back whatever the file is called. */
  lemma GuidReadBack(guid: nat, fileName: string)
    ensures ExtractGuid(ChunkedName(guid, fileName)) == Some(Dec(guid))
  {
    assert '_' !in Dec(guid);
    HeadEndsAtSeparator(Dec(guid), fileName, '_');
    assert ChunkedName(guid, fileName) == Dec(guid) + ['_'] + fileName;
    assert ChunkedName(guid, fileName)[..|Dec(guid)|] == Dec(guid);
    assert ChunkedName(guid, fileName)[|Dec(guid)|] == '_';
  }

  // ---- one attempt ----

  /** Chunks 0..k-1 of the file, in order under one name, none of them refused. */
  ghost predicate ChunksSent(calls: seq<DpCall>, from: nat, name: string, data: Bytes, s: DpSettings, k: nat) {
    && |calls| == from + k
    && forall i :: from <= i < from + k ==> IsChunk(calls[i], name, data, s, i - from)
  }

  predicate IsChunk(c: DpCall, name: string, data: Bytes, s: DpSettings, i: nat) {
    && c.Chunk? && c.name == name && c.index == i && c.total == TotalChunks(|data|, ChunkSize(s))
    && c.data == ChunkAt(data, ChunkSize(s), i)
    && c.reply.Ok? && c.reply.value.status != CHUNK_FAILED
  }

  ghost predicate Complete(last: DpCall, total: nat) {
    && last.Chunk? && last.reply.Ok?
    && last.reply.value.status == FILE_UPLOADED && last.reply.value.fCount == total
  }

  /** The path the next step registers: what the last answer calls the file, or the name
      the chunks were sent under. */
  function PathOf(last: DpCall): string
    requires last.Chunk? && last.reply.Ok?
  {
    if last.reply.value.fileName != "" then last.reply.value.fileName else last.name
  }

  /** These calls are one whole attempt: validated, every chunk delivered and counted, and
      exactly that upload finalized. */
  ghost predicate GoodAttempt(calls: seq<DpCall>, from: nat, guid: nat, fileName: string, data: Bytes, s: DpSettings,
      tran: nat) {
    var n := TotalChunks(|data|, ChunkSize(s));
    && |calls| == from + n + 2
    && calls[from] == Validate(true)
    && ChunksSent(calls[..from + 1 + n], from + 1, ChunkedName(guid, fileName), data, s, n)
    && Complete(calls[from + n], n)
    && calls[from + n + 1] == Finalize(PathOf(calls[from + n]), Some(tran))
    && var said := calls[from + n].reply.value.fileName;
       calls[from + n + 1].path == if said != "" then said else ChunkedName(guid, fileName)
  }

  lemma WholeAttempt(before: seq<DpCall>, sent: seq<DpCall>, guid: nat, fileName: string, data: Bytes, s: DpSettings,
      tran: nat)
    requires before + [Validate(true)] <= sent
    requires ChunksSent(sent, |before| + 1, ChunkedName(guid, fileName), data, s, TotalChunks(|data|, ChunkSize(s)))
    requires Complete(sent[|sent| - 1], TotalChunks(|data|, ChunkSize(s)))
    ensures GoodAttempt(
              sent + [Finalize(PathOf(sent[|sent| - 1]), Some(tran))], |before|, guid, fileName, data, s, tran)
  {
    hide TotalChunks, ChunkAt, ChunkedName;
    var calls := sent + [Finalize(PathOf(sent[|sent| - 1]), Some(tran))];
    assert sent[|before|] == Validate(true);
    assert calls[..|sent|] == sent;
  }

  function ChunkData(calls: seq<DpCall>): seq<Bytes> {
    seq(|calls|, i requires 0 <= i < |calls| => if calls[i].Chunk? then calls[i].data else [])
  }

  lemma AttemptChunks(calls: seq<DpCall>, from: nat, guid: nat, fileName: string, data: Bytes, s: DpSettings, tran: nat)
    requires GoodAttempt(calls, from, guid, fileName, data, s, tran)
    ensures var n := TotalChunks(|data|, ChunkSize(s));
            && |calls| == from + n + 2
            && forall i ::
                 from < i <= from + n ==> IsChunk(calls[i], ChunkedName(guid, fileName), data, s, i - from - 1)
  {
  }

  /** What a good attempt delivered is the file. */
  lemma GoodAttemptCarriesTheFile(calls: seq<DpCall>, from: nat, guid: nat, fileName: string, data: Bytes,
      s: DpSettings, tran: nat)
    requires GoodAttempt(calls, from, guid, fileName, data, s, tran)
    ensures var n := TotalChunks(|data|, ChunkSize(s));
            && |calls| == from + n + 2
            && Concat(ChunkData(calls[from + 1..from + 1 + n])) == data
            && forall i ::
                 from < i <= from + n ==>
                   calls[i].Chunk? && |calls[i].data| <= (if s.chunkSizeKb < 1 then 1 else s.chunkSizeKb) * 1024
  {
    hide TotalChunks, ChunkAt, Concat, GoodAttempt;
    AttemptChunks(calls, from, guid, fileName, data, s, tran);
    var n := TotalChunks(|data|, ChunkSize(s));
    var mine := calls[from + 1..from + 1 + n];
    forall i | 0 <= i < n ensures ChunkData(mine)[i] == ChunkAt(data, ChunkSize(s), i) {
      assert mine[i] == calls[from + 1 + i];
    }
    assert ChunkData(mine) == Chunks(data, ChunkSize(s), n);
    ChunksReassemble(data, ChunkSize(s));
  }

  /** How many attempts were started: each begins with the one validation call. */
  function Validations(calls: seq<DpCall>): nat {
    if |calls| == 0 then 0 else Validations(calls[..|calls| - 1]) + (if calls[|calls| - 1].Validate? then 1 else 0)
  }

  lemma OneMoreCall(calls: seq<DpCall>, c: DpCall)
    ensures Validations(calls + [c]) == Validations(calls) + (if c.Validate? then 1 else 0)
  {
    assert (calls + [c])[..|calls|] == calls;
  }

  ghost predicate NoneFinalized(calls: seq<DpCall>, from: nat) {
    forall i ::
      from <= i < |calls| ==> !calls[i].Poll? && !calls[i].Process? && (calls[i].Finalize? ==> calls[i].tran.None?)
  }

  // ---- the audit row ----

  datatype Status =
    | Pending | Validating | Uploading | Uploaded | Registered | Polling
    | Processed | Success | InProgress | Failed

  datatype Row = Row(status: Status, retryCount: nat, guid: Option<string>, totalChunks: nat, chunksUploaded: nat,
    tranId: Option<nat>)

  /** The status that the last call calls for; a success that asks for processing never ends
      at the poll. */
  ghost predicate Concluded(last: DpCall, tran: nat, processRequired: bool, status: Status) {
    && (status == Processed <==> last == Process(tran, true))
    && (status == Success <==> last == Poll(tran, Ok(STATUS_SUCCESS)))
    && (status == Success ==> !processRequired)
    && last != Poll(tran, Answer.Raised) && last != Process(tran, false)
    && (status == Failed <==> last == Poll(tran, Ok(STATUS_ERROR)))
    && status in {Processed, Success, Failed, InProgress}
  }

  /** This answer fails the upload: a chunk call that raised or was refused, or a last one
      that does not account for every chunk. */
  ghost predicate BadChunk(c: DpCall, k: nat, total: nat) {
    && c.Chunk?
    && (|| c.reply.Raised? || c.reply.value.status == CHUNK_FAILED
        || (k == total - 1 && (c.reply.value.status != FILE_UPLOADED || c.reply.value.fCount != total)))
  }

  /** This call is why an attempt failed. */
  ghost predicate Refused(last: DpCall, data: Bytes, s: DpSettings) {
    || last == Validate(false)
    || (last.Chunk? && BadChunk(last, last.index, TotalChunks(|data|, ChunkSize(s))))
    || (last.Finalize? && last.tran.None?)
  }

  /** From here on the upload is polled, and processed at most once, last, after a poll that
      said success, and only when that is required. */
  ghost predicate ThenPolled(calls: seq<DpCall>, from: nat, tran: nat, required: bool) {
    forall i ::
      from <= i < |calls| ==>
        || (calls[i].Poll? && calls[i].of == tran)
        || (&& required && calls[i].Process? && calls[i].of == tran && i == |calls| - 1
            && i > 0 && calls[i - 1] == Poll(tran, Ok(STATUS_SUCCESS)))
  }

  datatype Outcome = NotFound | Raised | Done(status: Status, tran: Option<nat>)

  class SettlementUpload {
    const settings: DpSettings
    var calls: seq<DpCall>
    var nextGuid: nat
    var sleeps: nat
    var row: Row

    constructor (settings: DpSettings)
      ensures this.settings == settings && calls == [] && sleeps == 0 && nextGuid == 0
    {
      this.settings, calls, nextGuid, sleeps := settings, [], 0, 0;
      row := Row(Pending, 0, None, 0, 0, None);
    }

    method ValidateFile() returns (ok: bool)
      modifies this`calls
      ensures calls == old(calls) + [Validate(ok)]
    {
      ok := *;
      calls := calls + [Validate(ok)];
    }

    method UploadChunk(name: string, data: Bytes, index: nat, total: nat) returns (reply: Answer<ChunkReply>)
      modifies this`calls
      ensures calls == old(calls) + [Chunk(name, data, index, total, reply)]
    {
      reply := *;
      calls := calls + [Chunk(name, data, index, total, reply)];
    }

    /** Raises, or answers without an id, when there is no TRANID. */
    method FinalizeUpload(path: string) returns (tran: Option<nat>)
      modifies this`calls
      ensures calls == old(calls) + [Finalize(path, tran)]
    {
      tran := *;
      calls := calls + [Finalize(path, tran)];
    }

    /** No row in the answer reads as the timed-out code. */
    method CheckStatusOnce(tran: nat) returns (reading: Answer<int>)
      modifies this`calls
      ensures calls == old(calls) + [Poll(tran, reading)]
    {
      reading := *;
      calls := calls + [Poll(tran, reading)];
    }

    method RunProcess(tran: nat) returns (ok: bool)
      modifies this`calls
      ensures calls == old(calls) + [Process(tran, ok)]
    {
      ok := *;
      calls := calls + [Process(tran, ok)];
    }

    /** Step 4. Only a refused chunk, or a last answer that does not account for every
        chunk, fails it. */
    method UploadChunks(data: Bytes, fileName: string) returns (path: Option<string>)
      modifies this`calls, this`nextGuid
      ensures old(calls) <= calls && NoneFinalized(calls, |old(calls)|) && nextGuid == old(nextGuid) + 1
      ensures Validations(calls) == Validations(old(calls))
      ensures path.Some? ==>
                var n := TotalChunks(|data|, ChunkSize(settings));
                && ChunksSent(calls, |old(calls)|, ChunkedName(old(nextGuid), fileName), data, settings, n)
                && Complete(calls[|calls| - 1], n) && path.value == PathOf(calls[|calls| - 1])
      ensures path.None? ==>
                && |calls| > |old(calls)|
                && var k, last := |calls| - |old(calls)| - 1, calls[|calls| - 1];
                   && ChunksSent(calls[..|calls| - 1], |old(calls)|, ChunkedName(old(nextGuid), fileName), data,
                        settings, k)
                   && last.Chunk? && last.index == k && BadChunk(last, k, TotalChunks(|data|, ChunkSize(settings)))
    {
      hide Validations, ChunkedName;
      var chunkSize := ChunkSize(settings);
      var name := ChunkedName(nextGuid, fileName);
      nextGuid := nextGuid + 1;
      var total := TotalChunks(|data|, chunkSize);
      path := None;
      for current := 0 to total
        invariant nextGuid == old(nextGuid) + 1 && Validations(calls) == Validations(old(calls))
        invariant old(calls) <= calls && NoneFinalized(calls, |old(calls)|)
        invariant ChunksSent(calls, |old(calls)|, name, data, settings, current)
        invariant current == total ==>
                    path.Some? && Complete(calls[|calls| - 1], total) && path.value == PathOf(calls[|calls| - 1])
      {
        NextBoundary(chunkSize, current + 1);
        ChunkStart(|data|, chunkSize, current);
        var start := current * chunkSize;
        var chunk := data[start..Min(start + chunkSize, |data|)];
        assert chunk == ChunkAt(data, chunkSize, current);
        ghost var before := calls;
        var reply := UploadChunk(name, chunk, current, total);
        OneMoreCall(before, DpCall.Chunk(name, chunk, current, total, reply));
        AppendedStays(before, calls, |old(calls)|, name, data, settings, current);
        assert calls[..|calls| - 1] == before;
        if reply.Raised? || reply.value.status == CHUNK_FAILED {
          return None;
        }
        if current == total - 1 {
          if reply.value.status != FILE_UPLOADED || reply.value.fCount != total {
            return None;
          }
          path := Some(if reply.value.fileName != "" then reply.value.fileName else name);
        }
      }
    }

    /** _run_upload_attempt: the TRANID, or None when any step failed. */
    method RunUploadAttempt(data: Bytes, fileName: string) returns (tran: Option<nat>)
      modifies this`calls, this`nextGuid, this`row
      ensures old(calls) <= calls
      ensures tran.Some? ==> GoodAttempt(calls, |old(calls)|, old(nextGuid), fileName, data, settings, tran.value)
      ensures Validations(calls) == Validations(old(calls)) + 1
      ensures old(nextGuid) <= nextGuid && (tran.Some? ==> nextGuid == old(nextGuid) + 1)
      ensures tran.Some? ==> NoneFinalized(calls[..|calls| - 1], |old(calls)|)
      ensures tran.None? ==> NoneFinalized(calls, |old(calls)|)
      ensures tran.None? ==> |calls| > |old(calls)| && Refused(calls[|calls| - 1], data, settings)
      ensures tran.Some? ==>
                && row.status == Registered
                && row.totalChunks == row.chunksUploaded == TotalChunks(|data|, ChunkSize(settings))
                && calls[|calls| - 1].Finalize? && row.guid == ExtractGuid(calls[|calls| - 1].path)
      ensures row.retryCount == old(row.retryCount) && row.tranId == if tran.Some? then tran else old(row.tranId)
    {
      hide TotalChunks, IsChunk, ChunkedName, Complete, PathOf, ExtractGuid, Validations, ChunksSent, GoodAttempt;
      var valid := ValidateFile();
      OneMoreCall(old(calls), Validate(valid));
      if !valid {
        return None;
      }
      row := row.(status := Uploading);
      ghost var guid := nextGuid;
      var path := UploadChunks(data, fileName);
      if path.None? {
        return None;
      }
      var total := TotalChunks(|data|, ChunkSize(settings));
      row := row.(status := Uploaded, guid := ExtractGuid(path.value), totalChunks := total, chunksUploaded := total);
      ghost var sent := calls;
      tran := FinalizeUpload(path.value);
      OneMoreCall(sent, Finalize(path.value, tran));
      if tran.Some? {
        assert calls[..|calls| - 1] == sent;
        WholeAttempt(old(calls), sent, guid, fileName, data, settings, tran.value);
        row := row.(status := Registered, tranId := tran);
      }
    }

    /** The retry loop: each failure restarts from validation. A TRANID comes from the last
        attempt alone, and no earlier attempt was ever acknowledged. */
    method Attempts(data: Bytes, fileName: string) returns (tran: Option<nat>, attempts: nat, ghost from: nat)
      requires row.retryCount == 0 && row.tranId.None?
      modifies this`calls, this`nextGuid, this`row, this`sleeps
      ensures old(calls) <= calls && 1 <= attempts <= MaxAttempts(settings)
      ensures tran.Some? ==> |calls| > |old(calls)| && calls[|calls| - 1].Finalize?
      ensures tran.Some? ==>
                && nextGuid > old(nextGuid) && |old(calls)| <= from
                && GoodAttempt(calls, from, nextGuid - 1, fileName, data, settings, tran.value)
      ensures Validations(calls) == Validations(old(calls)) + attempts && old(nextGuid) <= nextGuid
      ensures tran.Some? ==> NoneFinalized(calls[..|calls| - 1], |old(calls)|)
      ensures tran.None? ==> NoneFinalized(calls, |old(calls)|) && attempts == MaxAttempts(settings)
      ensures tran.None? ==> |calls| > |old(calls)| && Refused(calls[|calls| - 1], data, settings)
      ensures row.retryCount == (if tran.Some? then attempts - 1 else attempts) && row.tranId == tran
      ensures sleeps == old(sleeps) + attempts - 1
    {
      hide Validations, ChunksSent, Complete, PathOf;
      tran, attempts, from := None, 0, |calls|;
      for attempt := 1 to MaxAttempts(settings) + 1
        invariant tran.None? && row.tranId.None? && attempts == attempt - 1 && row.retryCount == attempt - 1
        invariant old(calls) <= calls && NoneFinalized(calls, |old(calls)|)
        invariant attempt > 1 ==> |calls| > |old(calls)| && Refused(calls[|calls| - 1], data, settings)
        invariant Validations(calls) == Validations(old(calls)) + attempt - 1 && old(nextGuid) <= nextGuid
        invariant sleeps == old(sleeps)
                    + (if attempt <= MaxAttempts(settings) then attempt - 1 else MaxAttempts(settings) - 1)
      {
        ghost var before := calls;
        attempts, from := attempt, |calls|;
        tran := RunUploadAttempt(data, fileName);
        if tran.Some? {
          assert calls[..|calls| - 1][..|before|] == before;
          return;
        }
        row := row.(retryCount := attempt);
        if attempt < MaxAttempts(settings) {
          sleeps := sleeps + 1;
        }
      }
    }

    /** Step 6: anything but 0, 1 or 2 ends the polling at once, the timed-out code too. */
    method PollStatus(tran: nat) returns (code: Answer<int>)
      modifies this`calls, this`sleeps
      ensures old(calls) <= calls
      ensures forall i ::
                |old(calls)| <= i < |calls| ==>
                  && calls[i].Poll? && calls[i].of == tran
                  && (i < |calls| - 1 ==> calls[i].reading.Ok? && 0 <= calls[i].reading.value <= 2)
      ensures |calls| - |old(calls)| <= Max(0, settings.pollMaxAttempts)
      ensures settings.pollMaxAttempts <= 0 ==> code == Ok(POLL_TIMED_OUT) && sleeps == old(sleeps)
      ensures settings.pollMaxAttempts > 0 ==>
                && |old(calls)| < |calls| && sleeps - old(sleeps) == |calls| - |old(calls)| - 1
                && var last := calls[|calls| - 1].reading;
                   if last.Ok? && 0 <= last.value <= 2
                   then code == Ok(POLL_TIMED_OUT) && |calls| - |old(calls)| == settings.pollMaxAttempts
                   else code == last
    {
      var limit := Max(0, settings.pollMaxAttempts);
      for attempt := 1 to limit + 1
        invariant old(calls) <= calls && |calls| - |old(calls)| == attempt - 1
        invariant forall i ::
                    |old(calls)| <= i < |calls| ==>
                      calls[i].Poll? && calls[i].of == tran && calls[i].reading.Ok? && 0 <= calls[i].reading.value <= 2
        invariant sleeps - old(sleeps) == if attempt <= limit then attempt - 1 else Max(0, limit - 1)
      {
        code := CheckStatusOnce(tran);
        if code.Raised? || code.value < 0 || code.value > 2 {
          return;
        }
        if attempt < limit {
          sleeps := sleeps + 1;
        }
      }
      code := Ok(POLL_TIMED_OUT);
    }

    /** Steps 6 and 7 for an upload that is registered. */
    method PollAndProcess(tran: nat, required: bool) returns (r: Outcome)
      requires row.tranId == Some(tran) && |calls| > 0 && calls[|calls| - 1].Finalize?
      modifies this`calls, this`row, this`sleeps
      ensures old(calls) <= calls && row == old(row).(status := row.status)
      ensures ThenPolled(calls, |old(calls)|, tran, required)
      ensures r.Done? ==> r == Done(row.status, Some(tran)) && Concluded(calls[|calls| - 1], tran, required, r.status)
      ensures !r.Done? ==>
                && r == Outcome.Raised && row == old(row)
                && (|| (calls[|calls| - 1].Poll? && calls[|calls| - 1].reading.Raised?)
                    || (calls[|calls| - 1].Process? && !calls[|calls| - 1].ok))
    {
      var code := PollStatus(tran);
      if code.Raised? {
        return Outcome.Raised;
      }
      if code.value == STATUS_SUCCESS {
        if required {
          var ok := RunProcess(tran);
          if !ok {
            return Outcome.Raised;
          }
          row := row.(status := Processed);
        } else {
          row := row.(status := Success);
        }
      } else if code.value == STATUS_ERROR {
        row := row.(status := Failed);
      } else {
        row := row.(status := InProgress);
      }
      r := Done(row.status, Some(tran));
    }

    /** What is configured for this upload: whether it is to be processed once it is there. */
    method GetUploadMasterConfig() returns (required: Answer<bool>)
      modifies this`calls
      ensures calls == old(calls) + [Configure(required)] && Validations(calls) == Validations(old(calls))
    {
      required := *;
      OneMoreCall(calls, Configure(required));
      calls := calls + [Configure(required)];
    }

    /** process_upload: the whole request. */
    method ProcessUpload(located: Option<Bytes>, fileName: string)
      returns (r: Outcome, ghost mid: seq<DpCall>, ghost from: nat)
      modifies this`calls, this`nextGuid, this`row, this`sleeps
      ensures old(calls) <= mid <= calls
      ensures r == NotFound <==> located.None?
      ensures located.None? ==> calls == old(calls) && row.status == Failed
      ensures located.Some? ==> |calls| > |old(calls)| && calls[|old(calls)|].Configure?
      ensures r.Done? ==> calls[|old(calls)|].required.Ok?
      ensures located.Some? && r.Done? ==> r.status == row.status && r.tran == row.tranId
      ensures located.Some? && r.Done? && r.tran.None? ==>
                r.status == Failed && row.retryCount == MaxAttempts(settings) && NoneFinalized(calls, |old(calls)|)
      ensures located.Some? && r.Done? && r.tran.None? ==>
                row.retryCount == Validations(calls) - Validations(old(calls))
      ensures r.Done? && r.tran.Some? ==>
                && located.Some? && row.retryCount < MaxAttempts(settings)
                && |mid| > 0 && NoneFinalized(mid[..|mid| - 1], |old(calls)|)
                && nextGuid > old(nextGuid) && |old(calls)| <= from
                && GoodAttempt(mid, from, nextGuid - 1, fileName, located.value, settings, r.tran.value)
                && row.retryCount == Validations(mid) - Validations(old(calls)) - 1
                && ThenPolled(calls, |mid|, r.tran.value, calls[|old(calls)|].required.value)
                && Concluded(calls[|calls| - 1], r.tran.value, calls[|old(calls)|].required.value, r.status)
      ensures r == Outcome.Raised ==>
                || calls == old(calls) + [Configure(Answer.Raised)]
                || (calls[|calls| - 1].Poll? && calls[|calls| - 1].reading.Raised?)
                || (calls[|calls| - 1].Process? && !calls[|calls| - 1].ok)
      ensures r == NotFound ==> row == Row(Failed, 0, None, 0, 0, None)
      ensures r == Outcome.Raised ==>
                if calls[|calls| - 1].Configure? then row == Row(Pending, 0, None, 0, 0, None)
                  else row.status == Polling
      ensures r.Done? && r.tran.None? ==>
                Validations(calls) - Validations(old(calls))
                  == if settings.maxRetries > 0 then settings.maxRetries + 1 else 1
      ensures r.Done? && r.tran.None? ==> |calls| > |old(calls)| && Refused(calls[|calls| - 1], located.value, settings)
    {
      hide GoodAttempt, NoneFinalized, TotalChunks, ChunkSize, Validations;
      mid, from := calls, |calls|;
      row := Row(Pending, 0, None, 0, 0, None);
      if located.None? {
        row := row.(status := Failed);
        return NotFound, mid, from;
      }
      var required := GetUploadMasterConfig();
      mid, from := calls, |calls|;
      if required.Raised? {
        return Outcome.Raised, mid, from;
      }
      row := row.(status := Validating);
      var tran, attempts;
      tran, attempts, from := Attempts(located.value, fileName);
      mid := calls;
      ConfiguredFirst(old(calls), mid);
      if tran.None? {
        row := row.(status := Failed);
        return Done(Failed, None), mid, from;
      }
      row := row.(status := Polling);
      r := PollAndProcess(tran.value, required.value);
    }
  }

  lemma ConfiguredFirst(before: seq<DpCall>, calls: seq<DpCall>)
    requires before <= calls && |calls| > |before| && calls[|before|].Configure?
    ensures NoneFinalized(calls, |before| + 1) ==> NoneFinalized(calls, |before|)
    ensures |calls| > |before| + 1 && NoneFinalized(calls[..|calls| - 1], |before| + 1) ==>
              NoneFinalized(calls[..|calls| - 1], |before|)
  {
  }

  lemma AppendedStays(before: seq<DpCall>, calls: seq<DpCall>, from: nat, name: string, data: Bytes, s: DpSettings,
      k: nat)
    requires |calls| == |before| + 1 && before <= calls && calls[|before|].Chunk? && NoneFinalized(before, from)
    requires ChunksSent(before, from, name, data, s, k)
    ensures NoneFinalized(calls, from)
    ensures IsChunk(calls[|before|], name, data, s, k) ==> ChunksSent(calls, from, name, data, s, k + 1)
  {
  }

  lemma ChunkStart(size: nat, chunkSize: nat, i: nat)
    requires chunkSize > 0 && i < TotalChunks(size, chunkSize)
    ensures 0 <= i * chunkSize <= size
  {
  }
}
