/** app/clients/cbos_client.py: Table2 slots, the reservation, and the calls to CBOS.
    CBOS is an environment: every call may answer anything or raise, and a chunk whose
    call raised may still have been stored. */
module CbosClient {
  import opened Text
  import opened Chunking
  import opened FileService
  import CbosFilename

  datatype UploadCandidate = UploadCandidate(
    uploadId: string,
    stepNo: Option<string>,
    name: string,
    status: Option<string>,
    statusDesc: Option<string>,
    isOptional: bool)
  {
    predicate ExpectsAFile() {
      uploadId != "0" && uploadId != ""
    }

    predicate AlreadyInCbos() {
      if status.None? then false
      else
        var s := Upper(Strip(status.value));
        if s == "FAILED" then false
        else if s != "PENDING" then true
        else ExpectsAFile() && statusDesc.Some? && !Occurs("UPLOAD FILE PENDING", Upper(Strip(statusDesc.value)))
    }

    predicate NeedsUpload() {
      !isOptional && !AlreadyInCbos()
    }
  }

  datatype Reservation = Reservation(processId: string, isRunnable: bool, candidates: seq<UploadCandidate>)

  datatype Table1 = Table1(processId: Option<string>, isRunnable: Option<bool>)

  /** Raises when no PROCESSID can be determined or Table2 is empty. */
  function BuildReservation(table1: Option<Table1>, table2: seq<UploadCandidate>,
      processId: Option<string>): (r: Answer<Reservation>)
    ensures r.Ok? <==> table2 != [] && (processId.Some? || (table1.Some? && table1.value.processId.Some?))
    ensures r.Ok? ==> r.value.candidates == table2
    ensures r.Ok? ==> r.value.processId == if processId.Some? then processId.value else table1.value.processId.value
    ensures r.Ok? ==> (!r.value.isRunnable <==> table1.Some? && table1.value.isRunnable == Some(false))
  {
    var pid := if processId.Some? then processId else if table1.Some? then table1.value.processId else None;
    if pid.None? || table2 == [] then Raised
    else
      var runnable := if table1.Some? && table1.value.isRunnable.Some? then table1.value.isRunnable.value else true;
      Ok(Reservation(pid.value, runnable, table2))
  }

  datatype UploadRule = UploadRule(
    uploadId: string,
    name: string,
    pattern: string,
    operator: string,
    extension: string,
    columnCount: Option<int>)

  // ---- what CBOS has been told ----

  /** Step 5 and Step 7 calls, in the order they were made. A Step 7 entry also says
      which batch and file it was made for. */
  datatype Call =
    | Chunk(guid: nat, name: string, index: nat, total: nat, ok: bool)
    | Register(guid: nat, name: string, uploadId: string, file: Path, segment: string, folderDate: string, ok: bool)

  datatype RuleAnswer = RuleAnswer(uploadId: string, answer: Answer<Option<UploadRule>>)

  datatype Mark = Mark(processId: string, stepNo: string)

  datatype Piece = Piece(name: string, total: nat, data: Bytes)

  type Store = map<nat, map<nat, Piece>>

  function PiecesUnder(store: Store, guid: nat): map<nat, Piece> {
    if guid in store then store[guid] else map[]
  }

  function Put(store: Store, guid: nat, index: nat, piece: Piece): Store {
    store[guid := PiecesUnder(store, guid)[index := piece]]
  }

  function FirstPieces(data: Bytes, name: string, chunkSize: nat, total: nat, n: nat): map<nat, Piece>
    requires chunkSize > 0
  {
    map i: nat | 0 <= i < n :: Piece(name, total, ChunkAt(data, chunkSize, i))
  }

  function Assembled(pieces: map<nat, Piece>, n: nat): Bytes
    requires forall i: nat :: i < n ==> i in pieces
  {
    if n == 0 then [] else Assembled(pieces, n - 1) + pieces[n - 1].data
  }

  ghost predicate HoldsExactly(pieces: map<nat, Piece>, name: string, data: Bytes, n: nat) {
    && n >= 1
    && (forall i: nat :: i in pieces <==> i < n)
    && (forall i: nat :: i < n ==> pieces[i].name == name && pieces[i].total == n)
    && Assembled(pieces, n) == data
  }

  /** The server holds indices 0..n-1 under this GUID, all under one name, and put
      together by index they are the file. */
  ghost predicate ServerHolds(store: Store, guid: nat, name: string, data: Bytes) {
    guid in store && exists n :: HoldsExactly(store[guid], name, data, n)
  }

  lemma {:induction false} FirstPiecesAssemble(data: Bytes, name: string, chunkSize: nat, total: nat, n: nat, k: nat)
    requires chunkSize > 0 && k <= n
    ensures Assembled(FirstPieces(data, name, chunkSize, total, n), k) == Concat(Chunks(data, chunkSize, k))
  {
    if k > 0 {
      FirstPiecesAssemble(data, name, chunkSize, total, n, k - 1);
      assert Chunks(data, chunkSize, k)[..k - 1] == Chunks(data, chunkSize, k - 1);
    }
  }

  lemma AllPiecesAreTheFile(data: Bytes, name: string, chunkSize: nat)
    requires chunkSize > 0
    ensures var n := TotalChunks(|data|, chunkSize);
            HoldsExactly(FirstPieces(data, name, chunkSize, n, n), name, data, n)
  {
    var n := TotalChunks(|data|, chunkSize);
    FirstPiecesAssemble(data, name, chunkSize, n, n, n);
    ChunksReassemble(data, chunkSize);
  }

  /** The last `limit` calls are all failed attempts at one and the same chunk. */
  ghost predicate EndsInFailures(trace: seq<Call>, guid: nat, name: string, index: nat, total: nat, limit: nat) {
    && limit <= |trace|
    && forall i :: |trace| - limit <= i < |trace| ==> trace[i] == Chunk(guid, name, index, total, false)
  }

  /** How many chunk calls for this piece of this upload were refused. */
  function Refusals(trace: seq<Call>, guid: nat, index: nat): nat {
    if |trace| == 0 then 0
    else
      var last := trace[|trace| - 1];
      Refusals(trace[..|trace| - 1], guid, index)
        + (if last.Chunk? && last.guid == guid && last.index == index && !last.ok then 1 else 0)
  }

  /** Some chunk of this upload used up its full limit of attempts. */
  ghost predicate GaveUp(trace: seq<Call>, guid: nat, limit: nat) {
    exists c: nat :: Refusals(trace, guid, c) >= limit
  }

  lemma RefusalsAfter(trace: seq<Call>, call: Call)
    ensures forall guid, index: nat :: Refusals(trace + [call], guid, index) ==
              Refusals(trace, guid, index)
                + (if call.Chunk? && call.guid == guid && call.index == index && !call.ok then 1 else 0)
  {
    assert (trace + [call])[..|trace|] == trace;
  }

  lemma {:induction false} RefusalsGrow(before: seq<Call>, after: seq<Call>, guid: nat, index: nat)
    requires before <= after
    ensures Refusals(before, guid, index) <= Refusals(after, guid, index)
    ensures (forall i :: |before| <= i < |after| ==> after[i].Register? || after[i].guid != guid) ==>
              Refusals(before, guid, index) == Refusals(after, guid, index)
  {
    if |before| < |after| {
      RefusalsGrow(before, after[..|after| - 1], guid, index);
    } else {
      assert before == after;
    }
  }

  /** The calls from `before` to `after` add k refusals of this piece, and none of another. */
  ghost predicate RefusedMore(before: seq<Call>, after: seq<Call>, guid: nat, index: nat, k: nat) {
    forall c: nat :: Refusals(after, guid, c) == Refusals(before, guid, c) + (if c == index then k else 0)
  }

  lemma OneMoreAttempt(before: seq<Call>, calls: seq<Call>, call: Call, k: nat)
    requires call.Chunk? && RefusedMore(before, calls, call.guid, call.index, k)
    ensures RefusedMore(before, calls + [call], call.guid, call.index, if call.ok then k else k + 1)
  {
    RefusalsAfter(calls, call);
    hide Refusals;
  }

  /** No piece used up the limit, and pieces from n on have not been tried. */
  ghost predicate UnderLimit(before: seq<Call>, after: seq<Call>, guid: nat, limit: nat, n: nat) {
    forall c: nat ::
      && Refusals(after, guid, c) < Refusals(before, guid, c) + limit
      && (c >= n ==> Refusals(after, guid, c) == Refusals(before, guid, c))
  }

  lemma ChunkDone(before: seq<Call>, mid: seq<Call>, after: seq<Call>, guid: nat, limit: nat, n: nat, k: nat)
    requires UnderLimit(before, mid, guid, limit, n) && RefusedMore(mid, after, guid, n, k)
    ensures k < limit ==> UnderLimit(before, after, guid, limit, n + 1)
    ensures Refusals(after, guid, n) == Refusals(before, guid, n) + k
  {
    hide Refusals;
  }

  lemma GaveUpGrows(before: seq<Call>, after: seq<Call>, guid: nat, limit: nat)
    requires before <= after
    ensures GaveUp(before, guid, limit) ==> GaveUp(after, guid, limit)
    ensures (forall i :: |before| <= i < |after| ==> after[i].Register? || after[i].guid != guid) ==>
              (GaveUp(before, guid, limit) <==> GaveUp(after, guid, limit))
  {
    forall c: nat
      ensures Refusals(before, guid, c) <= Refusals(after, guid, c)
      ensures (forall i :: |before| <= i < |after| ==> after[i].Register? || after[i].guid != guid) ==>
                Refusals(before, guid, c) == Refusals(after, guid, c)
    {
      RefusalsGrow(before, after, guid, c);
    }
  }

  lemma {:induction false} NoRefusals(trace: seq<Call>, guid: nat, index: nat)
    requires forall i :: 0 <= i < |trace| ==> trace[i].guid != guid
    ensures Refusals(trace, guid, index) == 0
  {
    if |trace| > 0 {
      NoRefusals(trace[..|trace| - 1], guid, index);
    }
  }

  ghost predicate OnlyChunksOf(trace: seq<Call>, from: nat, guid: nat, name: string) {
    forall i :: from <= i < |trace| ==> trace[i].Chunk? && trace[i].guid == guid && trace[i].name == name
  }

  ghost predicate OthersKept(before: Store, after: Store, guid: nat) {
    forall g :: g != guid ==> (g in after <==> g in before) && (g in after ==> after[g] == before[g])
  }

  lemma ReadsChunk(data: Bytes, chunkSize: nat, i: nat, position: nat)
    requires chunkSize > 0 && position == Min(i * chunkSize, |data|)
    ensures data[position..Min(position + chunkSize, |data|)] == ChunkAt(data, chunkSize, i)
    ensures Min(position + chunkSize, |data|) == Min((i + 1) * chunkSize, |data|)
  {
  }

  lemma MorePieces(data: Bytes, name: string, chunkSize: nat, total: nat, n: nat)
    requires chunkSize > 0
    ensures FirstPieces(data, name, chunkSize, total, n)[n := Piece(name, total, ChunkAt(data, chunkSize, n))]
         == FirstPieces(data, name, chunkSize, total, n + 1)
  {
  }

  /** The progress callback's arguments: (1, n), (2, n), ... */
  function ProgressTo(done: nat, total: nat): seq<(nat, nat)> {
    seq(done, i requires 0 <= i < done => (i + 1, total))
  }

  /** What was said around the files: Steps 1, 2, 4 and the lookup of the day's PROCESSID. */
  datatype Talk = Talk(
    opens: seq<Answer<bool>>,
    lookups: seq<Option<string>>,
    reserves: seq<string>,
    answers: seq<Answer<Reservation>>,
    asked: seq<RuleAnswer>)

  class Cbos {
    var trace: seq<Call>
    var store: Store
    var marks: seq<Mark>
    var polls: nat
    var nextGuid: nat
    var opens: seq<Answer<bool>>
    var lookups: seq<Option<string>>
    var reserves: seq<string>
    var answers: seq<Answer<Reservation>>
    var asked: seq<RuleAnswer>
    var days: seq<Answer<CbosFilename.Reply>>

    constructor ()
      ensures trace == [] && store == map[] && marks == [] && polls == 0 && nextGuid == 0
      ensures opens == [] && lookups == [] && reserves == [] && answers == [] && asked == [] && days == []
    {
      trace, store, marks, polls, nextGuid := [], map[], [], 0, 0;
      opens, lookups, reserves, answers, asked, days := [], [], [], [], [], [];
    }

    ghost function Said(): Talk
      reads this
    {
      Talk(opens, lookups, reserves, answers, asked)
    }

    /** A client-generated GUID: never handed out before. */
    method FreshGuid() returns (guid: nat)
      modifies this`nextGuid
      ensures guid == old(nextGuid) && nextGuid == guid + 1
    {
      guid := nextGuid;
      nextGuid := nextGuid + 1;
    }

    /** Step 5's raw call. */
    method UploadChunk(guid: nat, name: string, data: Bytes, index: nat, total: nat) returns (ok: bool)
      modifies this`trace, this`store
      ensures trace == old(trace) + [Chunk(guid, name, index, total, ok)]
      ensures store == Put(old(store), guid, index, Piece(name, total, data)) || (!ok && store == old(store))
    {
      ok := *;
      var stored: bool := *;
      if ok || stored {
        store := Put(store, guid, index, Piece(name, total, data));
      }
      trace := trace + [Chunk(guid, name, index, total, ok)];
    }

    /** One chunk, retried until it is acknowledged or the limit is reached. */
    method SendChunk(data: Bytes, guid: nat, name: string, index: nat, total: nat, retries: nat)
      returns (sent: bool, ghost refused: nat)
      requires retries > 0
      modifies this`trace, this`store
      ensures old(trace) < trace && |trace| <= |old(trace)| + retries && OnlyChunksOf(trace, |old(trace)|, guid, name)
      ensures OthersKept(old(store), store, guid)
      ensures sent ==>
                && guid in store
                && PiecesUnder(store, guid) == PiecesUnder(old(store), guid)[index := Piece(name, total, data)]
      ensures !sent ==> EndsInFailures(trace, guid, name, index, total, retries) && |trace| == |old(trace)| + retries
      ensures RefusedMore(old(trace), trace, guid, index, refused) && refused <= retries
      ensures refused == retries <==> !sent
    {
      ghost var before, started := PiecesUnder(store, guid), |trace|;
      var attempt := 0;
      sent, refused := false, 0;
      while attempt < retries && !sent
        invariant 0 <= attempt <= retries && (sent ==> attempt > 0)
        invariant old(trace) <= trace && OnlyChunksOf(trace, started, guid, name) && |trace| == started + attempt
        invariant OthersKept(old(store), store, guid)
        invariant RefusedMore(old(trace), trace, guid, index, refused) && refused == attempt - (if sent then 1 else 0)
        invariant !sent ==> forall i :: started <= i < |trace| ==> trace[i] == Chunk(guid, name, index, total, false)
        invariant || PiecesUnder(store, guid) == before
                  || PiecesUnder(store, guid) == before[index := Piece(name, total, data)]
        invariant sent ==> guid in store && PiecesUnder(store, guid) == before[index := Piece(name, total, data)]
      {
        attempt := attempt + 1;
        ghost var calls := trace;
        sent := UploadChunk(guid, name, data, index, total);
        OneMoreAttempt(old(trace), calls, Chunk(guid, name, index, total, sent), refused);
        refused := if sent then refused else refused + 1;
      }
    }

    /** Step 5: stream the file in chunks, each retried up to the limit. */
    method UploadFile(data: Bytes, guid: nat, name: string, chunkSizeKb: int, retryAttempts: int)
      returns (ok: bool, progress: seq<(nat, nat)>)
      requires guid !in store
      modifies this`trace, this`store
      ensures old(trace) <= trace && OnlyChunksOf(trace, |old(trace)|, guid, name)
      ensures OthersKept(old(store), store, guid)
      ensures ok ==> ServerHolds(store, guid, name, data)
      ensures var n := TotalChunks(|data|, Max(1, chunkSizeKb) * 1024);
              && |trace| - |old(trace)| <= n * Max(1, retryAttempts)
              && (ok ==> progress == ProgressTo(n, n))
              && (ok ==> UnderLimit(old(trace), trace, guid, Max(1, retryAttempts), n))
              && (!ok ==>
                    exists c: nat :: Refusals(trace, guid, c) == Refusals(old(trace), guid, c) + Max(1, retryAttempts))
              && (!ok ==> |old(trace)| + Max(1, retryAttempts) <= |trace|)
              && (!ok ==> exists c :: 0 <= c < n && progress == ProgressTo(c, n)
                            && EndsInFailures(trace, guid, name, c, n, Max(1, retryAttempts)))
    {
      hide TotalChunks, ChunkAt, EndsInFailures, Refusals, RefusedMore;
      assert UnderLimit(old(trace), trace, guid, Max(1, retryAttempts), 0);
      hide UnderLimit;
      var chunkSize: nat := Max(1, chunkSizeKb) * 1024;
      var retries: nat := Max(1, retryAttempts);
      var total := TotalChunks(|data|, chunkSize);
      var position := 0;
      progress := [];
      for current := 0 to total
        invariant position == Min(current * chunkSize, |data|)
        invariant old(trace) <= trace && OnlyChunksOf(trace, |old(trace)|, guid, name)
        invariant |trace| - |old(trace)| <= current * retries
        invariant OthersKept(old(store), store, guid)
        invariant PiecesUnder(store, guid) == FirstPieces(data, name, chunkSize, total, current)
        invariant current > 0 ==> guid in store
        invariant UnderLimit(old(trace), trace, guid, retries, current)
        invariant progress == ProgressTo(current, total)
      {
        var chunk := data[position..Min(position + chunkSize, |data|)];
        ReadsChunk(data, chunkSize, current, position);
        position := Min(position + chunkSize, |data|);
        NextBoundary(retries, current + 1);
        ghost var calls := trace;
        var sent, refused := SendChunk(chunk, guid, name, current, total, retries);
        ChunkDone(old(trace), calls, trace, guid, retries, current, refused);
        if !sent {
          MultiplesGrow(current + 1, total, retries);
          return false, progress;
        }
        MorePieces(data, name, chunkSize, total, current);
        progress := progress + [(current + 1, total)];
        assert progress == ProgressTo(current + 1, total);
      }
      AllPiecesAreTheFile(data, name, chunkSize);
      ok := true;
    }

    /** Step 7. The name is the one Step 5 sent. */
    method RegisterFile(guid: nat, name: string, uploadId: string, file: Path, segment: string, folderDate: string)
      returns (ok: bool)
      modifies this`trace
      ensures trace == old(trace) + [Register(guid, name, uploadId, file, segment, folderDate, ok)]
    {
      ok := *;
      trace := trace + [Register(guid, name, uploadId, file, segment, folderDate, ok)];
    }

    /** Step 8. A slot without a STEPNO is refused here, before any call goes out. */
    method MarkStepOptional(processId: string, stepNo: Option<string>) returns (ok: bool)
      modifies this`marks
      ensures stepNo.None? ==> !ok && marks == old(marks)
      ensures stepNo.Some? ==> marks == old(marks) + [Mark(processId, stepNo.value)]
    {
      if stepNo.None? {
        return false;
      }
      ok := *;
      marks := marks + [Mark(processId, stepNo.value)];
    }

    /** Step 9, polled once. */
    method ConfirmUpload() returns (message: Answer<string>)
      modifies this`polls
      ensures polls == old(polls) + 1
    {
      message := *;
      polls := polls + 1;
    }

    /** Step 1. */
    method MayBeginUpload() returns (a: Answer<bool>)
      modifies this`opens
      ensures opens == old(opens) + [a]
    {
      a := *;
      opens := opens + [a];
    }

    /** Step 6's lookup of the day's PROCESSID; an empty one counts as none. */
    method FindExistingProcessId() returns (r: Option<string>)
      modifies this`lookups
      ensures r.Some? ==> r.value != ""
      ensures lookups == old(lookups) + [r]
    {
      r := *;
      if r == Some("") {
        r := None;
      }
      lookups := lookups + [r];
    }

    /** Step 2. */
    method ReserveProcess(processId: string) returns (r: Answer<Reservation>)
      modifies this`reserves, this`answers
      ensures reserves == old(reserves) + [processId] && answers == old(answers) + [r]
      ensures r.Ok? ==> r.value.candidates != []
    {
      reserves := reserves + [processId];
      r := Raised;
      var answered: bool := *;
      if answered {
        var table1: Option<Table1> := *;
        var table2: seq<UploadCandidate> := *;
        r := BuildReservation(table1, table2, None);
      }
      answers := answers + [r];
    }

    /** Step 40: which session's file is expected. */
    method GetExpectedFilename() returns (r: Answer<CbosFilename.Reply>)
      modifies this`days
      ensures days == old(days) + [r]
    {
      r := *;
      days := days + [r];
    }

    /** Step 4 for one slot, decoded; None when the row gives no usable rule. */
    method UploadSettings(uploadId: string) returns (r: Answer<Option<UploadRule>>)
      modifies this`asked
      ensures asked == old(asked) + [RuleAnswer(uploadId, r)]
      ensures r.Ok? && r.value.Some? ==> r.value.value.uploadId == uploadId
    {
      var answered: bool := *;
      var rule: Option<UploadRule> := *;
      r := if !answered then Raised else Ok(if rule.Some? then Some(rule.value.(uploadId := uploadId)) else None);
      asked := asked + [RuleAnswer(uploadId, r)];
    }
  }
}
