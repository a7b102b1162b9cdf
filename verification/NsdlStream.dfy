/** app/clients/nsdl_speede_client.py: streaming one SPEED-e export. The header line is
    dropped on the way out and the last row is closed, because the receiver discards a
    line that has no terminator. */
module NsdlStream {
  import opened Text
  import opened Chunking

  const LF: Byte := 10
  const BOM: Bytes := [0xEF, 0xBB, 0xBF]
  const HEADER_SCAN := 65536

  datatype StreamSettings = StreamSettings(stripHeader: bool, appendNewline: bool, chunkSizeKb: int)

  // ---- lines, as the receiver and as a reader of the file see them ----

  /** The first line feed at or after `from`, or the length when there is none. */
  function NextLf(bs: Bytes, from: nat): (i: nat)
    requires from <= |bs|
    ensures from <= i <= |bs|
    ensures forall j :: from <= j < i ==> bs[j] != LF
    ensures i < |bs| ==> bs[i] == LF
    decreases |bs| - from
  {
    if from == |bs| || bs[from] == LF then from else NextLf(bs, from + 1)
  }

  /** Every line, the last one too when nothing terminates it. */
  function AllLines(bs: Bytes): seq<Bytes> {
    if |bs| == 0 then []
    else
      var i := NextLf(bs, 0);
      if i == |bs| then [bs] else [bs[..i]] + AllLines(bs[i + 1..])
  }

  /** What the receiver loads: an unterminated last line is dropped. */
  function TerminatedLines(bs: Bytes): seq<Bytes> {
    if |bs| == 0 then []
    else
      var i := NextLf(bs, 0);
      if i == |bs| then [] else [bs[..i]] + TerminatedLines(bs[i + 1..])
  }

  predicate Closed(bs: Bytes) {
    |bs| == 0 || bs[|bs| - 1] == LF
  }

  lemma NextLfUnique(bs: Bytes, i: nat)
    requires i <= |bs| && (forall j :: 0 <= j < i ==> bs[j] != LF) && (i < |bs| ==> bs[i] == LF)
    ensures NextLf(bs, 0) == i
  {
  }

  lemma {:induction false} OneLineMore(bs: Bytes)
    ensures TerminatedLines(bs) <= AllLines(bs)
    ensures |AllLines(bs)| == |TerminatedLines(bs)| + (if Closed(bs) then 0 else 1)
  {
    if |bs| > 0 {
      var i := NextLf(bs, 0);
      if i < |bs| {
        OneLineMore(bs[i + 1..]);
        assert Closed(bs) <==> Closed(bs[i + 1..]);
      }
    }
  }

  /** The receiver loses a line, the last, exactly when the data does not end with a line
      feed. */
  lemma ReceiverSeesAll(bs: Bytes)
    ensures TerminatedLines(bs) == AllLines(bs) <==> Closed(bs)
    ensures !Closed(bs) ==> |AllLines(bs)| > 0 && TerminatedLines(bs) == AllLines(bs)[..|AllLines(bs)| - 1]
  {
    OneLineMore(bs);
    hide TerminatedLines, AllLines, Closed;
  }

  /** Closing the last line restores it, and changes nothing else. */
  lemma {:induction false} ClosingRestores(bs: Bytes)
    requires !Closed(bs)
    ensures TerminatedLines(bs + [LF]) == AllLines(bs)
  {
    var i := NextLf(bs, 0);
    NextLfUnique(bs + [LF], i);
    if i < |bs| {
      assert (bs + [LF])[..i] == bs[..i] && (bs + [LF])[i + 1..] == bs[i + 1..] + [LF];
      ClosingRestores(bs[i + 1..]);
    } else {
      assert (bs + [LF])[..i] == bs && (bs + [LF])[i + 1..] == [];
    }
  }

  // ---- the header ----

  function WithoutBom(file: Bytes): Bytes {
    if BOM <= file then file[3..] else file
  }

  /** Past the BOM and the header line; raises when no line ends within the scan budget. */
  function DataOffset(file: Bytes): (r: Answer<nat>)
    ensures r.Ok? ==> r.value <= |file|
  {
    var head := file[..Min(HEADER_SCAN, |file|)];
    var newline := NextLf(head, Start(head));
    if newline < |head| then Ok(newline + 1)
    else if |head| < HEADER_SCAN then Ok(|file|)
    else Raised
  }

  /** The data rows of an export: all its lines but the header. */
  function DataRows(file: Bytes): seq<Bytes> {
    var lines := AllLines(WithoutBom(file));
    if |lines| == 0 then [] else lines[1..]
  }

  predicate HeaderFound(file: Bytes) {
    || |file| < HEADER_SCAN
    || exists i :: Start(file) <= i < HEADER_SCAN && file[i] == LF
  }

  lemma ShiftedLf(file: Bytes, start: nat)
    requires start <= |file|
    ensures NextLf(file[start..], 0) == NextLf(file, start) - start
  {
  }

  function Start(file: Bytes): (n: nat)
    ensures n <= |file|
  {
    if BOM <= file then 3 else 0
  }

  lemma StartSkipsBom(file: Bytes)
    ensures file[Start(file)..] == WithoutBom(file)
  {
  }

  /** Scanning the first bytes for the header's end finds what scanning the file would. */
  lemma ScanAgrees(file: Bytes)
    ensures var head := file[..Min(HEADER_SCAN, |file|)];
            && Start(head) == Start(file) <= |head|
            && (NextLf(head, Start(file)) < |head| ==> NextLf(file, Start(file)) == NextLf(head, Start(file)))
            && (NextLf(head, Start(file)) < |head| <==> exists i :: Start(file) <= i < |head| && file[i] == LF)
  {
    var head := file[..Min(HEADER_SCAN, |file|)];
    assert BOM <= head <==> BOM <= file by {
      if BOM <= file {
        assert head[..3] == file[..3];
      }
    }
    var i := NextLf(head, Start(file));
    assert forall j :: 0 <= j < |head| ==> head[j] == file[j];
  }

  lemma OffsetOfShort(file: Bytes)
    requires |file| < HEADER_SCAN
    ensures HeaderFound(file)
    ensures DataOffset(file) == Ok(if NextLf(file, Start(file)) < |file| then NextLf(file, Start(file)) + 1 else |file|)
  {
    hide NextLf, Start;
    assert file[..|file|] == file;
  }

  lemma OffsetOfLong(file: Bytes)
    requires |file| >= HEADER_SCAN
    ensures DataOffset(file).Ok? <==> HeaderFound(file)
    ensures DataOffset(file).Ok? ==>
              NextLf(file, Start(file)) < |file| && DataOffset(file) == Ok(NextLf(file, Start(file)) + 1)
  {
    ScanAgrees(file);
    hide NextLf, Start;
  }

  lemma OffsetCases(file: Bytes)
    ensures DataOffset(file).Ok? <==> HeaderFound(file)
    ensures DataOffset(file).Ok? ==>
              var i := NextLf(file, Start(file));
              DataOffset(file).value == if i < |file| then i + 1 else |file|
  {
    hide DataOffset, HeaderFound, NextLf, Start;
    if |file| < HEADER_SCAN {
      OffsetOfShort(file);
    } else {
      OffsetOfLong(file);
    }
  }

  /** The offset is found exactly when the header's end is in reach, and what lies behind it
      is the data rows: BOM and header are removed once, and nothing more. */
  lemma OffsetIsPastTheHeader(file: Bytes)
    ensures DataOffset(file).Ok? <==> HeaderFound(file)
    ensures DataOffset(file).Ok? ==> AllLines(file[DataOffset(file).value..]) == DataRows(file)
  {
    OffsetCases(file);
    StartSkipsBom(file);
    hide DataOffset, HeaderFound, NextLf, WithoutBom, Start;
    var start, body := Start(file), WithoutBom(file);
    ShiftedLf(file, start);
    var i := NextLf(file, start);
    assert i < |file| ==> body[i - start + 1..] == file[i + 1..];
    assert file[|file|..] == [];
  }

  // ---- what goes on the wire ----

  function Offset(file: Bytes, s: StreamSettings): (r: Answer<nat>)
    ensures r.Ok? ==> r.value <= |file|
  {
    if s.stripHeader then DataOffset(file) else Ok(0)
  }

  function Terminator(file: Bytes, offset: nat, s: StreamSettings): Bytes {
    if s.appendNewline && offset < |file| && !Closed(file) then [LF] else []
  }

  function Body(file: Bytes, offset: nat, s: StreamSettings): Bytes
    requires offset <= |file|
  {
    file[offset..] + Terminator(file, offset, s)
  }

  /** The receiver rebuilds exactly the file's data rows: header gone, last row kept, no
      row invented for an export that is nothing but its header. */
  lemma ReceiverGetsTheRows(file: Bytes, s: StreamSettings)
    requires s.stripHeader && s.appendNewline && DataOffset(file).Ok?
    ensures TerminatedLines(Body(file, DataOffset(file).value, s)) == DataRows(file)
  {
    var data := file[DataOffset(file).value..];
    OffsetIsPastTheHeader(file);
    ReceiverSeesAll(data);
    assert Closed(data) ==> data + [] == data;
    if !Closed(data) {
      ClosingRestores(data);
    }
  }

  /** With the closing newline switched off, the rows survive exactly when the export has
      no data or ends with a line feed of its own. */
  lemma WithoutClosingNewline(file: Bytes, s: StreamSettings)
    requires s.stripHeader && !s.appendNewline && DataOffset(file).Ok?
    ensures TerminatedLines(Body(file, DataOffset(file).value, s)) == DataRows(file)
            <==> DataOffset(file).value == |file| || Closed(file)
  {
    var data := file[DataOffset(file).value..];
    OffsetIsPastTheHeader(file);
    ReceiverSeesAll(data);
    assert data + [] == data;
  }

  /** With the header kept, every line of the file arrives, BOM and all. */
  lemma HeaderKept(file: Bytes, s: StreamSettings)
    requires !s.stripHeader && s.appendNewline
    ensures TerminatedLines(Body(file, 0, s)) == AllLines(file)
  {
    assert file[0..] == file && file + [] == file;
    ReceiverSeesAll(file);
    if !Closed(file) {
      ClosingRestores(file);
    }
  }

  // ---- the chunk loop ----

  /** read(chunkSize) at chunk i, plus the terminator on the last chunk, cuts the body
      itself: the terminator never pushes a chunk over the size. */
  lemma ReadIsBodyChunk(data: Bytes, terminator: Bytes, chunkSize: nat, i: nat)
    requires chunkSize > 0 && |terminator| <= 1
    requires i < TotalChunks(|data| + |terminator|, chunkSize)
    ensures i * chunkSize <= |data|
    ensures var n := TotalChunks(|data| + |terminator|, chunkSize);
            var read := data[i * chunkSize..Min(i * chunkSize + chunkSize, |data|)];
            ChunkAt(data + terminator, chunkSize, i) == (if i == n - 1 then read + terminator else read)
  {
    var n, body := TotalChunks(|data| + |terminator|, chunkSize), data + terminator;
    NextBoundary(chunkSize, i + 1);
    if i < n - 1 {
      MultiplesGrow(i + 1, n - 1, chunkSize);
    } else {
      assert body[i * chunkSize..|body|] == data[i * chunkSize..] + terminator;
    }
  }

  datatype Response = Response(status: string, fCount: Option<int>)

  datatype WireChunk = WireChunk(guid: nat, name: string, data: Bytes, current: nat, total: nat)

  function WireChunks(guid: nat, name: string, body: Bytes, chunkSize: nat, total: nat, n: nat): (w: seq<WireChunk>)
    requires chunkSize > 0
    ensures |w| == n
  {
    seq(n, i requires 0 <= i < n => WireChunk(guid, name, ChunkAt(body, chunkSize, i), i, total))
  }

  function Payloads(w: seq<WireChunk>): seq<Bytes> {
    seq(|w|, i requires 0 <= i < |w| => w[i].data)
  }

  datatype Upload = Upload(guid: nat, totalChunks: nat, sentBytes: nat)

  /** The answer that lets the chunk loop go on, or end well after the last chunk. */
  ghost predicate GoodAnswer(a: Answer<Response>, current: nat, total: nat) {
    && a.Ok?
    && (current < total - 1 ==> a.value.status == "ChunkUploaded")
    && (current >= total - 1 ==> a.value.status == "FileUploaded" && a.value.fCount == Some(total))
  }

  /** One answer for each chunk sent: all but the last were good, and the last one was, and
      was to the last chunk, exactly when the upload went well. */
  ghost predicate Answered(news: seq<Answer<Response>>, total: nat, ok: bool) {
    && 1 <= |news| <= total
    && (forall i :: 0 <= i < |news| - 1 ==> GoodAnswer(news[i], i, total))
    && (ok ==> |news| == total)
    && (ok <==> GoodAnswer(news[|news| - 1], |news| - 1, total))
  }

  /** Chunks of this body went out in order under this GUID, one for each answer. */
  ghost predicate Went(sent: seq<WireChunk>, sent': seq<WireChunk>, answers: seq<Answer<Response>>,
      answers': seq<Answer<Response>>, guid: nat, name: string, body: Bytes, chunkSize: nat, total: nat, ok: bool)
    requires chunkSize > 0
  {
    && answers <= answers' && Answered(answers'[|answers|..], total, ok)
    && sent' == sent + WireChunks(guid, name, body, chunkSize, total, |answers'| - |answers|)
  }

  /** One status call: for which TRANID, the two texts it gave if it gave a row, and how they
      were read. */
  datatype Polled = Polled(tran: nat, texts: Option<(string, string)>, reading: Reading)

  class NsdlWire {
    var sent: seq<WireChunk>
    var answers: seq<Answer<Response>>
    var nextGuid: nat
    var readings: seq<Polled>
    var pollsRaised: nat

    constructor ()
      ensures sent == [] && answers == [] && nextGuid == 0 && readings == [] && pollsRaised == 0
    {
      sent, answers, nextGuid, readings, pollsRaised := [], [], 0, [], 0;
    }

    /** One chunk call. NSDL may answer anything, or raise. */
    method UploadChunk(guid: nat, name: string, data: Bytes, current: nat, total: nat) returns (r: Answer<Response>)
      modifies this`sent, this`answers
      ensures sent == old(sent) + [WireChunk(guid, name, data, current, total)]
      ensures answers == old(answers) + [r]
    {
      sent := sent + [WireChunk(guid, name, data, current, total)];
      r := *;
      answers := answers + [r];
    }

    /** The chunk loop: in order from the first data byte, stopping at the first bad answer. */
    method SendBody(file: Bytes, offset: nat, terminator: Bytes, guid: nat, name: string, chunkSize: nat, total: nat)
      returns (ok: bool)
      requires offset <= |file| && |terminator| <= 1 && chunkSize > 0
      requires total == TotalChunks(|file| - offset + |terminator|, chunkSize)
      modifies this`sent, this`answers
      ensures Went(
                old(sent), sent, old(answers), answers, guid, name, file[offset..] + terminator, chunkSize, total, ok)
    {
      hide ChunkAt, WireChunks;
      ghost var body := file[offset..] + terminator;
      ghost var news: seq<Answer<Response>> := [];
      NoWireChunks(guid, name, body, chunkSize, total);
      var position := offset;
      for current := 0 to total
        invariant offset <= position <= |file|
        invariant current < total ==> position == offset + current * chunkSize
        invariant sent == old(sent) + WireChunks(guid, name, body, chunkSize, total, current)
        invariant answers == old(answers) + news && |news| == current
        invariant forall i :: 0 <= i < current ==> GoodAnswer(news[i], i, total)
      {
        var end := Min(position + chunkSize, |file|);
        var chunk := file[position..end];
        FileSlice(file, offset, position, end);
        position := end;
        if current == total - 1 {
          chunk := chunk + terminator;
        }
        NextPosition(file[offset..], terminator, chunkSize, current);
        assert chunk == ChunkAt(body, chunkSize, current);
        NextWireChunk(guid, name, body, chunkSize, total, current);
        var response := UploadChunk(guid, name, chunk, current, total);
        news := news + [response];
        assert sent == old(sent) + WireChunks(guid, name, body, chunkSize, total, current + 1);
        if response.Raised? {
          assert answers[|old(answers)|..] == news && Answered(news, total, false);
          return false;
        }
        var wanted := if current == total - 1 then "FileUploaded" else "ChunkUploaded";
        if response.value.status != wanted || (current == total - 1 && response.value.fCount != Some(total)) {
          assert answers[|old(answers)|..] == news && Answered(news, total, false);
          return false;
        }
      }
      ok := true;
      assert answers[|old(answers)|..] == news && Answered(news, total, true);
    }

    /** Call 3: the whole export under one fresh GUID. */
    method UploadChunks(file: Bytes, name: string, s: StreamSettings) returns (r: Answer<Upload>)
      modifies this`sent, this`answers, this`nextGuid
      ensures Offset(file, s).Raised? ==> r.Raised? && sent == old(sent) && nextGuid == old(nextGuid)
      ensures Offset(file, s).Ok? ==>
                var body, chunkSize := Body(file, Offset(file, s).value, s), Max(1, s.chunkSizeKb) * 1024;
                var n := TotalChunks(|body|, chunkSize);
                && nextGuid == old(nextGuid) + 1
                && (r.Ok? ==> r.value == Upload(old(nextGuid), n, |body|))
                && Went(old(sent), sent, old(answers), answers, old(nextGuid), name, body, chunkSize, n, r.Ok?)
    {
      var found := Offset(file, s);
      if found.Raised? {
        return Raised;
      }
      var offset := found.value;
      var dataBytes := |file| - offset;
      var terminator: Bytes := if s.appendNewline && dataBytes > 0 && file[|file| - 1] != LF then [LF] else [];
      var sendBytes := dataBytes + |terminator|;
      var chunkSize: nat := Max(1, s.chunkSizeKb) * 1024;
      var total := TotalChunks(sendBytes, chunkSize);
      var guid := nextGuid;
      nextGuid := nextGuid + 1;
      var ok := SendBody(file, offset, terminator, guid, name, chunkSize, total);
      r := if ok then Ok(Upload(guid, total, sendBytes)) else Raised;
    }

    /** Call 5: one status reading; no row in the answer reads as still in progress. */
    method CheckStatusOnce(tran: nat) returns (r: Answer<Reading>)
      modifies this`readings, this`pollsRaised
      ensures r.Raised? ==> readings == old(readings)
      ensures pollsRaised == old(pollsRaised) + (if r.Raised? then 1 else 0)
      ensures r.Ok? ==>
                && |readings| == |old(readings)| + 1 && old(readings) <= readings
                && readings[|readings| - 1].tran == tran && readings[|readings| - 1].reading == r.value
                && ReadAs(readings[|readings| - 1].texts, r.value)
    {
      var answered: bool := *;
      if !answered {
        pollsRaised := pollsRaised + 1;
        return Raised;
      }
      var texts: Option<(string, string)> := *;
      if texts.Some? {
        ClassifyExact(texts.value.0, texts.value.1);
      }
      r := Ok(if texts.Some? then Classify(texts.value.0, texts.value.1) else InProgress);
      readings := readings + [Polled(tran, texts, r.value)];
      assert ReadAs(texts, r.value);
    }

    /** Call 5 until it says something final, at most maxAttempts times and at least once. */
    method PollStatus(tran: nat, maxAttempts: int) returns (r: Answer<Reading>, pending: nat, sleeps: nat)
      modifies this`readings, this`pollsRaised
      ensures pollsRaised == old(pollsRaised) + (if r.Raised? then 1 else 0)
      ensures old(readings) <= readings && |readings| == |old(readings)| + pending + (if r.Ok? then 1 else 0)
      ensures forall i :: |old(readings)| <= i < |readings| ==> readings[i].tran == tran
      ensures forall i :: |old(readings)| <= i < |old(readings)| + pending ==> readings[i].reading == InProgress
      ensures r.Ok? ==> readings[|readings| - 1].reading == r.value
      ensures pending < Max(1, maxAttempts) && sleeps == pending
      ensures r.Ok? && r.value == InProgress ==> pending == Max(1, maxAttempts) - 1
    {
      pending, sleeps := 0, 0;
      r := CheckStatusOnce(tran);
      if r.Raised? {
        return;
      }
      for attempt := 2 to Max(1, maxAttempts) + 1
        invariant r.Ok? && pending == sleeps == attempt - 2 && pollsRaised == old(pollsRaised)
        invariant old(readings) <= readings && |readings| == |old(readings)| + pending + 1
        invariant readings[|readings| - 1].reading == r.value
        invariant forall i :: |old(readings)| <= i < |readings| ==> readings[i].tran == tran
        invariant forall i :: |old(readings)| <= i < |old(readings)| + pending ==> readings[i].reading == InProgress
      {
        if r.value != InProgress {
          return;
        }
        sleeps, pending := sleeps + 1, pending + 1;
        r := CheckStatusOnce(tran);
        if r.Raised? {
          return;
        }
      }
    }
  }

  lemma FileSlice(file: Bytes, offset: nat, position: nat, end: nat)
    requires offset <= position <= end <= |file|
    ensures file[position..end] == file[offset..][position - offset..end - offset]
  {
  }

  lemma NextPosition(data: Bytes, terminator: Bytes, chunkSize: nat, i: nat)
    requires chunkSize > 0 && |terminator| <= 1
    requires i < TotalChunks(|data| + |terminator|, chunkSize)
    ensures i * chunkSize <= |data|
    ensures var n := TotalChunks(|data| + |terminator|, chunkSize);
            var end := Min(i * chunkSize + chunkSize, |data|);
            && ChunkAt(data + terminator, chunkSize, i)
                 == (if i == n - 1 then data[i * chunkSize..end] + terminator else data[i * chunkSize..end])
            && (i < n - 1 ==> end == (i + 1) * chunkSize)
  {
    ReadIsBodyChunk(data, terminator, chunkSize, i);
    if i < TotalChunks(|data| + |terminator|, chunkSize) - 1 {
      ReadIsBodyChunk(data, terminator, chunkSize, i + 1);
      NextBoundary(chunkSize, i + 1);
    }
  }

  lemma NoWireChunks(guid: nat, name: string, body: Bytes, chunkSize: nat, total: nat)
    requires chunkSize > 0
    ensures WireChunks(guid, name, body, chunkSize, total, 0) == []
  {
  }

  lemma NextWireChunk(guid: nat, name: string, body: Bytes, chunkSize: nat, total: nat, n: nat)
    requires chunkSize > 0
    ensures WireChunks(guid, name, body, chunkSize, total, n)
              + [WireChunk(guid, name, ChunkAt(body, chunkSize, n), n, total)]
         == WireChunks(guid, name, body, chunkSize, total, n + 1)
  {
  }

  lemma PayloadsAreChunks(guid: nat, name: string, body: Bytes, chunkSize: nat, total: nat, n: nat)
    requires chunkSize > 0
    ensures Payloads(WireChunks(guid, name, body, chunkSize, total, n)) == Chunks(body, chunkSize, n)
  {
  }

  /** The main result: put back together in order, what a completed upload sent is read by
      the receiver as exactly the data rows, and no chunk is over the size. */
  lemma DeliveredExactly(file: Bytes, name: string, s: StreamSettings, guid: nat, chunkSize: nat)
    requires s.stripHeader && s.appendNewline && DataOffset(file).Ok? && chunkSize > 0
    ensures var body := Body(file, DataOffset(file).value, s);
            var n := TotalChunks(|body|, chunkSize);
            var w := WireChunks(guid, name, body, chunkSize, n, n);
            && TerminatedLines(Concat(Payloads(w))) == DataRows(file)
            && |w| >= 1
            && (forall i :: 0 <= i < |w| ==> |w[i].data| <= chunkSize && w[i].current == i && w[i].total == |w|)
            && (DataRows(file) == [] ==> |w| == 1 && w[0].data == [])
  {
    NoRowsNoBody(file, s);
    ReceiverGetsTheRows(file, s);
    hide DataOffset, Body, DataRows, ChunkAt, TotalChunks, TerminatedLines, Concat;
    var body := Body(file, DataOffset(file).value, s);
    var n := TotalChunks(|body|, chunkSize);
    PayloadsAreChunks(guid, name, body, chunkSize, n, n);
    ChunksReassemble(body, chunkSize);
    if body == [] {
      NothingIsOneChunk(chunkSize);
    }
  }

  lemma NothingIsOneChunk(chunkSize: nat)
    requires chunkSize > 0
    ensures TotalChunks(0, chunkSize) == 1 && ChunkAt([], chunkSize, 0) == []
  {
  }

  /** An export that is nothing but its header has nothing to send. */
  lemma NoRowsNoBody(file: Bytes, s: StreamSettings)
    requires DataOffset(file).Ok?
    ensures DataRows(file) == [] ==> Body(file, DataOffset(file).value, s) == []
  {
    OffsetIsPastTheHeader(file);
    hide DataOffset, DataRows;
    assert AllLines(file[DataOffset(file).value..]) == [] ==> file[DataOffset(file).value..] == [];
  }

  // ---- the status poll ----

  datatype Reading = Success | Failure | InProgress

  const FAILURE_MARKERS := ["FAIL", "ERROR", "REJECT", "INVALID"]

  predicate HasFailureMarker(s: string) {
    exists k :: 0 <= k < |FAILURE_MARKERS| && Occurs(FAILURE_MARKERS[k], Upper(s))
  }

  function Classify(uploadStatus: string, processStatus: string): Reading {
    if HasFailureMarker(uploadStatus + " " + processStatus) then Failure
    else if Occurs("SUCCESS", Upper(uploadStatus)) && Occurs("SUCCESS", Upper(processStatus)) then Success
    else InProgress
  }

  /** The text speaks of a failure, an error, a rejection or something invalid. */
  ghost predicate ReadsFailed(s: string) {
    || Occurs("FAIL", Upper(s)) || Occurs("ERROR", Upper(s))
    || Occurs("REJECT", Upper(s)) || Occurs("INVALID", Upper(s))
  }

  lemma MarkersAre(s: string)
    ensures HasFailureMarker(s) <==> ReadsFailed(s)
  {
    assert FAILURE_MARKERS[0] == "FAIL" && FAILURE_MARKERS[1] == "ERROR";
    assert FAILURE_MARKERS[2] == "REJECT" && FAILURE_MARKERS[3] == "INVALID";
  }

  /** How one status row is read, text by text; no row reads as still in progress. */
  ghost predicate ReadAs(texts: Option<(string, string)>, reading: Reading) {
    && (reading == Failure <==> texts.Some? && (ReadsFailed(texts.value.0) || ReadsFailed(texts.value.1)))
    && (reading == Success <==>
          && texts.Some? && !ReadsFailed(texts.value.0) && !ReadsFailed(texts.value.1)
          && Occurs("SUCCESS", Upper(texts.value.0)) && Occurs("SUCCESS", Upper(texts.value.1)))
  }

  lemma OccursMoves(part: string, s: string, i: nat, t: string, k: nat)
    requires OccursAt(part, s, i) && k + |part| <= |t|
    requires forall j :: k <= j < k + |part| ==> t[j] == s[j - k + i]
    ensures OccursAt(part, t, k)
  {
    forall j | 0 <= j < |part| ensures t[k..k + |part|][j] == part[j] {
      assert s[i..i + |part|][j] == part[j] && t[k + j] == s[i + j];
    }
  }

  lemma OccursInPart(marker: string, a: string, b: string)
    requires Occurs(marker, a) || Occurs(marker, b)
    ensures Occurs(marker, a + " " + b)
  {
    var whole := a + " " + b;
    if i :| 0 <= i <= |a| && OccursAt(marker, a, i) {
      OccursMoves(marker, a, i, whole, i);
    } else {
      var i :| 0 <= i <= |b| && OccursAt(marker, b, i);
      OccursMoves(marker, b, i, whole, i + |a| + 1);
    }
  }

  lemma OccursInJoin(marker: string, a: string, b: string)
    requires marker != "" && ' ' !in marker && Occurs(marker, a + " " + b)
    ensures Occurs(marker, a) || Occurs(marker, b)
  {
    var whole := a + " " + b;
    var i :| 0 <= i <= |whole| && OccursAt(marker, whole, i);
    if i + |marker| <= |a| {
      OccursMoves(marker, whole, i, a, i);
    } else if i > |a| {
      OccursMoves(marker, whole, i, b, i - |a| - 1);
    } else {
      CharOfMarker(marker, whole, i, |a|);
    }
  }

  lemma CharOfMarker(marker: string, s: string, i: nat, j: nat)
    requires OccursAt(marker, s, i) && i <= j < i + |marker|
    ensures s[j] in marker
  {
  }

  /** A space-free marker never straddles the space the two texts are joined with. */
  lemma MarkerInOnePart(marker: string, u: string, p: string)
    requires marker != "" && ' ' !in marker
    ensures Occurs(marker, Upper(u + " " + p)) <==> Occurs(marker, Upper(u)) || Occurs(marker, Upper(p))
  {
    assert Upper(u + " " + p) == Upper(u) + " " + Upper(p);
    if Occurs(marker, Upper(u + " " + p)) {
      OccursInJoin(marker, Upper(u), Upper(p));
    }
    if Occurs(marker, Upper(u)) || Occurs(marker, Upper(p)) {
      OccursInPart(marker, Upper(u), Upper(p));
    }
  }

  /** One verdict from two texts: failed when either reads like a failure, success only
      when both do, and anything unknown is still in progress. */
  lemma ClassifyExact(u: string, p: string)
    ensures Classify(u, p) == Failure <==> ReadsFailed(u) || ReadsFailed(p)
    ensures Classify(u, p) == Success <==>
              !ReadsFailed(u) && !ReadsFailed(p) && Occurs("SUCCESS", Upper(u)) && Occurs("SUCCESS", Upper(p))
  {
    hide ReadsFailed;
    MarkersAre(u);
    MarkersAre(p);
    forall k | 0 <= k < |FAILURE_MARKERS|
      ensures Occurs(FAILURE_MARKERS[k], Upper(u + " " + p)) <==>
                Occurs(FAILURE_MARKERS[k], Upper(u)) || Occurs(FAILURE_MARKERS[k], Upper(p))
    {
      MarkerInOnePart(FAILURE_MARKERS[k], u, p);
    }
  }
}
