/** app/services/nsdl_speede_service.py: the append-only ledger. Finalizing a file appends
    all its rows, and finalizing it twice doubles them, so the stored TRANID is the only
    proof that a file was sent. */
module NsdlLedger {
  import opened Text
  import opened Chunking
  import opened NsdlStream
  import Selection = NsdlSelection

  /** One exact file: a newer version of a report is another file. */
  datatype Key = Key(tradeDate: string, account: string, report: string, version: Option<nat>)

  datatype Status = Pending | Validating | Uploading | Uploaded | Registered | Polling | Settled(v: Selection.Verdict)

  const SUCCEEDED := Settled(Selection.Succeeded)
  const FAILED := Settled(Selection.Failed)

  datatype Row = Row(key: Key, status: Status, tranId: Option<nat>, guid: Option<nat>, retryCount: nat)

  /** A finalize call, with the file it stands for; tran is None when the call raised. */
  datatype Append = Append(key: Key, guid: nat, file: Bytes, name: string, tran: Option<nat>)

  function One(b: bool): nat {
    if b then 1 else 0
  }

  function Acks(appends: seq<Append>, k: Key): nat {
    if |appends| == 0 then 0
    else
      var last := appends[|appends| - 1];
      Acks(appends[..|appends| - 1], k) + One(last.key == k && last.tran.Some?)
  }

  function Times(keys: seq<Key>, k: Key): nat {
    if |keys| == 0 then 0 else Times(keys[..|keys| - 1], k) + One(keys[|keys| - 1] == k)
  }

  ghost predicate HoldsTran(rows: seq<Row>, k: Key) {
    exists i :: 0 <= i < |rows| && rows[i].key == k && rows[i].tranId.Some?
  }

  ghost predicate DistinctKeys(rows: seq<Row>) {
    forall i, j :: 0 <= i < j < |rows| ==> rows[i].key != rows[j].key
  }

  /** Every acknowledged append of a file is either the one its row still names or one a
      forced retry cleared away. */
  ghost predicate Conserved(rows: seq<Row>, appends: seq<Append>, clears: seq<Key>) {
    forall k :: Acks(appends, k) == Times(clears, k) + One(HoldsTran(rows, k))
  }

  ghost predicate SuccessIsBacked(rows: seq<Row>, appends: seq<Append>) {
    forall i :: 0 <= i < |rows| ==>
      && (rows[i].status == SUCCEEDED ==> rows[i].tranId.Some?)
      && (rows[i].tranId.Some? ==>
            exists a :: 0 <= a < |appends| && appends[a].key == rows[i].key && appends[a].tran == rows[i].tranId)
  }

  ghost predicate LedgerOk(rows: seq<Row>, appends: seq<Append>, clears: seq<Key>) {
    DistinctKeys(rows) && Conserved(rows, appends, clears) && SuccessIsBacked(rows, appends)
  }

  // ---- the three ways the ledger moves ----

  lemma LastAck(appends: seq<Append>, a: Append, k: Key)
    ensures Acks(appends + [a], k) == Acks(appends, k) + One(a.key == k && a.tran.Some?)
  {
  }

  lemma LastClear(clears: seq<Key>, c: Key, k: Key)
    ensures Times(clears + [c], k) == Times(clears, k) + One(c == k)
  {
  }

  lemma HoldsTranAt(rows: seq<Row>, i: nat)
    requires DistinctKeys(rows) && i < |rows|
    ensures HoldsTran(rows, rows[i].key) <==> rows[i].tranId.Some?
  {
  }

  /** Columns other than the TRANID, on a row that may call itself a success. */
  lemma NoteKeeps(rows: seq<Row>, appends: seq<Append>, clears: seq<Key>, i: nat, row: Row)
    requires LedgerOk(rows, appends, clears) && i < |rows|
    requires row.key == rows[i].key && row.tranId == rows[i].tranId && (row.status == SUCCEEDED ==> row.tranId.Some?)
    ensures LedgerOk(rows[i := row], appends, clears)
  {
    forall k ensures HoldsTran(rows[i := row], k) == HoldsTran(rows, k) {
      if HoldsTran(rows, k) {
        var j :| 0 <= j < |rows| && rows[j].key == k && rows[j].tranId.Some?;
        assert rows[i := row][j].key == k;
      }
    }
  }

  lemma InsertKeeps(rows: seq<Row>, appends: seq<Append>, clears: seq<Key>, row: Row)
    requires LedgerOk(rows, appends, clears)
    requires row.tranId.None? && row.status != SUCCEEDED && forall i :: 0 <= i < |rows| ==> rows[i].key != row.key
    ensures LedgerOk(rows + [row], appends, clears)
  {
    forall k ensures HoldsTran(rows + [row], k) == HoldsTran(rows, k) {
      if HoldsTran(rows, k) {
        var j :| 0 <= j < |rows| && rows[j].key == k && rows[j].tranId.Some?;
        assert (rows + [row])[j].key == k;
      }
    }
  }

  /** Finalizing a file whose row holds no TRANID. A call that raised appends nothing we
      know of; an acknowledged one is in the row at once. */
  lemma FinalizeKeeps(rows: seq<Row>, appends: seq<Append>, clears: seq<Key>, i: nat, a: Append, row: Row)
    requires LedgerOk(rows, appends, clears) && i < |rows| && rows[i].tranId.None?
    requires a.key == rows[i].key == row.key && row.tranId == a.tran && row.status != SUCCEEDED
    ensures LedgerOk(rows[i := row], appends + [a], clears)
  {
    var after := rows[i := row];
    forall k ensures Acks(appends + [a], k) == Times(clears, k) + One(HoldsTran(after, k)) {
      LastAck(appends, a, k);
      if k == row.key {
        HoldsTranAt(rows, i);
        HoldsTranAt(after, i);
      } else if HoldsTran(rows, k) {
        var j :| 0 <= j < |rows| && rows[j].key == k && rows[j].tranId.Some?;
        assert after[j] == rows[j];
      }
    }
    forall j | 0 <= j < |after| && after[j].tranId.Some?
      ensures exists b ::
                && 0 <= b < |appends + [a]|
                && (appends + [a])[b].key == after[j].key
                && (appends + [a])[b].tran == after[j].tranId
    {
      if j == i {
        assert (appends + [a])[|appends|] == a;
      } else {
        var b :| 0 <= b < |appends| && appends[b].key == rows[j].key && appends[b].tran == rows[j].tranId;
        assert (appends + [a])[b] == appends[b];
      }
    }
  }

  /** force=true on a file that was sent before. */
  lemma ClearKeeps(rows: seq<Row>, appends: seq<Append>, clears: seq<Key>, i: nat, row: Row)
    requires LedgerOk(rows, appends, clears) && i < |rows| && rows[i].tranId.Some?
    requires row.key == rows[i].key && row.tranId.None? && row.status != SUCCEEDED
    ensures LedgerOk(rows[i := row], appends, clears + [row.key])
  {
    var after := rows[i := row];
    forall k ensures Acks(appends, k) == Times(clears + [row.key], k) + One(HoldsTran(after, k)) {
      LastClear(clears, row.key, k);
      if k == row.key {
        HoldsTranAt(rows, i);
        HoldsTranAt(after, i);
      } else if HoldsTran(rows, k) {
        var j :| 0 <= j < |rows| && rows[j].key == k && rows[j].tranId.Some?;
        assert after[j] == rows[j];
      }
    }
  }

  // ---- what the appends stand for on the wire ----

  /** What the receiver holds under one GUID, in the order it came. */
  function Under(sent: seq<WireChunk>, guid: nat): seq<WireChunk> {
    if |sent| == 0 then []
    else
      var last := sent[|sent| - 1];
      Under(sent[..|sent| - 1], guid) + if last.guid == guid then [last] else []
  }

  /** All chunks of the file's body under this GUID, in order. */
  ghost function FileChunks(guid: nat, file: Bytes, name: string, s: StreamSettings): seq<WireChunk>
    requires Offset(file, s).Ok?
  {
    var body, chunkSize := Body(file, Offset(file, s).value, s), Max(1, s.chunkSizeKb) * 1024;
    var n := TotalChunks(|body|, chunkSize);
    WireChunks(guid, name, body, chunkSize, n, n)
  }

  /** The whole file went out under the GUID this append names, and nothing else did. */
  ghost predicate Delivered(sent: seq<WireChunk>, s: StreamSettings, guid: nat, file: Bytes, name: string) {
    Offset(file, s).Ok? && Under(sent, guid) == FileChunks(guid, file, name, s)
  }

  /** No GUID is ahead of the generator, none is finalized twice, and every append was
      preceded by its whole file. */
  ghost predicate WireOk(sent: seq<WireChunk>, nextGuid: nat, appends: seq<Append>, s: StreamSettings) {
    && (forall i :: 0 <= i < |sent| ==> sent[i].guid < nextGuid)
    && (forall i :: 0 <= i < |appends| ==> appends[i].guid < nextGuid)
    && (forall i, j :: 0 <= i < j < |appends| ==> appends[i].guid != appends[j].guid)
    && forall i :: 0 <= i < |appends| ==>
         Delivered(sent, s, appends[i].guid, appends[i].file, appends[i].name)
  }

  lemma {:induction false} UnderNone(sent: seq<WireChunk>, guid: nat)
    requires forall i :: 0 <= i < |sent| ==> sent[i].guid != guid
    ensures Under(sent, guid) == []
  {
    if |sent| > 0 {
      UnderNone(sent[..|sent| - 1], guid);
    }
  }

  lemma {:induction false} UnderMore(sent: seq<WireChunk>, more: seq<WireChunk>, guid: nat, other: nat)
    requires forall i :: 0 <= i < |more| ==> more[i].guid == guid
    ensures Under(sent + more, other) == Under(sent, other) + if other == guid then more else []
  {
    if |more| == 0 {
      assert sent + more == sent;
    } else {
      var last := more[|more| - 1];
      assert (sent + more)[..|sent + more| - 1] == sent + more[..|more| - 1];
      assert (sent + more)[|sent + more| - 1] == last;
      UnderMore(sent, more[..|more| - 1], guid, other);
      assert more == more[..|more| - 1] + [last];
    }
  }

  /** Chunks under a fresh GUID take nothing away from any earlier upload. */
  lemma FreshChunksKeep(sent: seq<WireChunk>, more: seq<WireChunk>, guid: nat, appends: seq<Append>, s: StreamSettings)
    requires WireOk(sent, guid, appends, s)
    requires forall i :: 0 <= i < |more| ==> more[i].guid == guid
    ensures WireOk(sent + more, guid + 1, appends, s)
    ensures Under(sent + more, guid) == more
  {
    hide Offset, FileChunks, Under;
    UnderNone(sent, guid);
    UnderMore(sent, more, guid, guid);
    forall i | 0 <= i < |appends|
      ensures Delivered(sent + more, s, appends[i].guid, appends[i].file, appends[i].name)
    {
      UnderMore(sent, more, guid, appends[i].guid);
    }
  }

  /** Every GUID finalized so far differs from this one. */
  ghost predicate NotFinalized(appends: seq<Append>, guid: nat) {
    forall i :: 0 <= i < |appends| ==> appends[i].guid != guid
  }

  lemma AppendKeepsWire(sent: seq<WireChunk>, nextGuid: nat, appends: seq<Append>, s: StreamSettings, a: Append)
    requires WireOk(sent, nextGuid, appends, s)
    requires a.guid < nextGuid && NotFinalized(appends, a.guid) && Delivered(sent, s, a.guid, a.file, a.name)
    ensures WireOk(sent, nextGuid, appends + [a], s)
  {
  }

  /** Read by the receiver, what went out under the GUID of an append is the data rows of
      the file it stands for. */
  lemma AppendIsTheRows(sent: seq<WireChunk>, s: StreamSettings, guid: nat, file: Bytes, name: string)
    requires s.stripHeader && s.appendNewline && Delivered(sent, s, guid, file, name)
    ensures TerminatedLines(Concat(Payloads(Under(sent, guid)))) == DataRows(file)
  {
    DeliveredExactly(file, name, s, guid, Max(1, s.chunkSizeKb) * 1024);
  }

  // ---- one report ----

  datatype Located = Missing | At(version: nat, file: Bytes)

  /** What a call to the service gives back; Crashed is an error it does not catch. */
  datatype Outcome = Result(v: Selection.Verdict) | Crashed

  datatype Reply = Fine | ClientError | OtherError

  /** The steps of a file whose answer decides how it goes on. */
  datatype Step = Categories | Settings | Validation | Sending | Finalizing | Poll

  datatype Asked = Asked(step: Step, reply: Reply)

  const ORDER := [Settings, Validation, Sending, Finalizing, Poll]

  /** From this step on, each was taken in order and went well up to the last, which answered
      v; all of them were taken when v is fine. */
  ghost predicate Taken(asked: seq<Asked>, asked': seq<Asked>, first: nat, v: Reply) {
    var n := |asked'| - |asked|;
    && asked <= asked' && 0 < n <= |ORDER| - first
    && (forall i :: |asked| <= i < |asked'| ==> asked'[i].step == ORDER[first + i - |asked|])
    && (forall i :: |asked| <= i < |asked'| - 1 ==> asked'[i].reply == Fine)
    && asked'[|asked'| - 1].reply == v && (v == Fine ==> n == |ORDER| - first)
  }

  /** The chunks were not all taken: there is no header to skip, or the last answer to them
      was bad. */
  ghost predicate NotSent(file: Bytes, s: StreamSettings, answers: seq<Answer<Response>>,
      answers': seq<Answer<Response>>) {
    || Offset(file, s).Raised?
    || (answers <= answers'
        && NsdlStream.Answered(answers'[|answers|..],
             TotalChunks(|Body(file, Offset(file, s).value, s)|, Max(1, s.chunkSizeKb) * 1024), false))
  }

  function StatusOf(r: Reading): Status {
    match r
    case Success => SUCCEEDED
    case Failure => FAILED
    case InProgress => Settled(Selection.Running)
  }

  /** A row is settled by the last reading taken: success and failure only on those very
      readings, anything else is still running. */
  predicate SettledBy(s: Status, reading: Reading) {
    && s.Settled?
    && (s.v == Selection.Succeeded <==> reading == Success)
    && (s.v == Selection.Failed <==> reading == Failure)
  }

  /** Status was read since then, always for this row's TRANID, and the last reading settles
      the row. */
  ghost predicate ReadLast(readings: seq<Polled>, readings': seq<Polled>, row: Row) {
    && readings <= readings' && |readings'| > |readings|
    && (forall i :: |readings| <= i < |readings'| ==> row.tranId == Some(readings'[i].tran))
    && SettledBy(row.status, readings'[|readings'| - 1].reading)
  }

  /** Nothing final was read since then. */
  ghost predicate NoneFinal(readings: seq<Polled>, readings': seq<Polled>) {
    readings <= readings' && forall i :: |readings| <= i < |readings'| ==> readings'[i].reading == InProgress
  }

  /** Some row of this file says it succeeded. */
  ghost predicate Finished(rows: seq<Row>, key: Key) {
    exists i :: 0 <= i < |rows| && rows[i].key == key && rows[i].status == SUCCEEDED
  }

  /** What a call for a located file costs: a finished one nothing, one that was sent at most
      one poll; any other has made an append when its verdict is not failed. */
  ghost predicate EntryTold(rows: seq<Row>, rows': seq<Row>, appends: seq<Append>, appends': seq<Append>,
      sent: seq<WireChunk>, sent': seq<WireChunk>, readings: seq<Polled>, readings': seq<Polled>, key: Key, force: bool,
      r: Outcome) {
    var finished, had := Finished(rows, key) && !force, HoldsTran(rows, key) && !force;
    && (finished ==> r == Result(Selection.Succeeded) && rows' == rows && sent' == sent && readings' == readings)
    && (had ==> sent' == sent && appends' == appends && |readings'| <= |readings| + 1)
    && (!had && r.Result? && r.v != Selection.Failed ==> |appends'| == |appends| + 1)
  }

  /** How a file comes to its verdict, told on the steps: a finished one takes none; one that
      was sent is polled, any other goes through the steps in order; the service's own error
      fails it, any other ends the call, and when all is well the last reading decides. */
  ghost predicate Decided(finished: bool, had: bool, asked: seq<Asked>, asked': seq<Asked>, readings: seq<Polled>,
      readings': seq<Polled>, file: Bytes, s: StreamSettings, answers: seq<Answer<Response>>,
        answers': seq<Answer<Response>>,
      pollsRaised: int, r: Outcome) {
    && (finished ==> asked' == asked && r == Result(Selection.Succeeded))
    && (!finished ==>
          && WhyNot(asked, asked', file, s, answers, answers', pollsRaised)
          && var v := asked'[|asked'| - 1].reply;
             && (if had then asked' == asked + [Asked(Poll, v)] else Taken(asked, asked', 0, v))
             && (r == Crashed <==> v == OtherError)
             && (v == ClientError ==> r == Result(Selection.Failed))
             && (v != Fine ==> NoneFinal(readings, readings'))
             && (v == Fine ==>
                   && readings <= readings' && |readings'| > |readings|
                   && r.Result? && VerdictRead(readings'[|readings'| - 1].reading, r.v)))
  }

  ghost predicate VerdictRead(reading: Reading, v: Selection.Verdict) {
    && (v == Selection.Succeeded <==> reading == Success)
    && (v == Selection.Failed <==> reading == Failure)
  }

  ghost predicate IsSettled(rows: seq<Row>, key: Key, v: Selection.Verdict) {
    exists i :: 0 <= i < |rows| && rows[i].key == key && rows[i].status == Settled(v)
  }

  /** Only rows of this file changed or were added. */
  ghost predicate OthersKept(before: seq<Row>, after: seq<Row>, key: Key) {
    && |before| <= |after|
    && (forall i ::
          0 <= i < |before| ==> after[i].key == before[i].key && (before[i].key != key ==> after[i] == before[i]))
    && forall i :: |before| <= i < |after| ==> after[i].key == key
  }

  /** The status that a file is left in when it stops at this step tells where that was. */
  predicate LeftAt(step: Step, status: Status) {
    && (step == Validation ==> status == Validating) && (step == Sending ==> status == Uploading)
    && (step == Finalizing ==> status == Uploaded) && (step == Poll ==> status == Polling)
  }

  /** A row of this file says that it went out under this GUID. */
  ghost predicate HoldsGuid(rows: seq<Row>, key: Key, guid: nat) {
    exists i :: 0 <= i < |rows| && rows[i].key == key && rows[i].guid == Some(guid)
  }

  /** What one call for a located file may do to the ledger: an append for this file only,
      none when it was sent before and force is off, and a clear exactly when it is on. */
  ghost predicate EntryStep(rows: seq<Row>, appends: seq<Append>, clears: seq<Key>, rows': seq<Row>,
      appends': seq<Append>, clears': seq<Key>, key: Key, force: bool, file: Bytes, name: string) {
    var had := HoldsTran(rows, key);
    && OthersKept(rows, rows', key)
    && clears' == clears + (if had && force then [key] else [])
    && (had && !force ==> appends' == appends)
    && (appends' == appends || exists a ::
         && appends' == appends + [a] && a.key == key && a.file == file && a.name == name
         && HoldsGuid(rows', key, a.guid))
  }

  /** The row of a file that was there or was just inserted tells what was known before. */
  lemma RowTells(before: seq<Row>, after: seq<Row>, appends: seq<Append>, clears: seq<Key>, key: Key, id: nat)
    requires LedgerOk(after, appends, clears) && id < |after| && after[id].key == key
    requires after == before || (after == before + [Row(key, Pending, None, None, 0)] && id == |before|)
    requires after != before ==> forall i :: 0 <= i < |before| ==> before[i].key != key
    ensures HoldsTran(before, key) <==> after[id].tranId.Some?
    ensures Finished(before, key) <==> after[id].status == SUCCEEDED
    ensures Finished(before, key) ==> after == before && after[id].tranId.Some?
    ensures OthersKept(before, after, key)
  {
    hide Conserved;
  }

  /** What the row of this file says in the end, said of the table. */
  lemma RowEnds(before: seq<Row>, mid: seq<Row>, after: seq<Row>, key: Key, id: nat)
    requires OthersKept(before, mid, key) && id < |mid| == |after| && mid[id].key == after[id].key == key
    requires forall j :: 0 <= j < |mid| && j != id ==> after[j] == mid[j]
    ensures OthersKept(before, after, key)
    ensures after[id].status.Settled? ==> IsSettled(after, key, after[id].status.v)
    ensures after[id].tranId.Some? ==> HoldsTran(after, key)
    ensures after[id].guid.Some? ==> HoldsGuid(after, key, after[id].guid.value)
  {
  }

  lemma SuccessHolds(rows: seq<Row>, appends: seq<Append>, clears: seq<Key>, id: nat)
    requires LedgerOk(rows, appends, clears) && id < |rows| && rows[id].status == SUCCEEDED
    ensures rows[id].tranId.Some?
  {
    hide Conserved, DistinctKeys;
  }

  /** Why a file is not dealt with, told on the calls: sending failed only over the chunks,
      and polling exactly when a poll raised. */
  ghost predicate WhyNot(asked: seq<Asked>, asked': seq<Asked>, file: Bytes, s: StreamSettings,
      answers: seq<Answer<Response>>, answers': seq<Answer<Response>>, pollsRaised: int) {
    && asked <= asked' && |asked'| > |asked|
    && var last := asked'[|asked'| - 1];
       && (last.step == Sending && last.reply != Fine ==> NotSent(file, s, answers, answers'))
       && pollsRaised == (if last.step == Poll && last.reply != Fine then 1 else 0)
  }

  class NsdlService {
    const wire: NsdlWire
    const settings: StreamSettings
    const pollMaxAttempts: int
    var rows: seq<Row>
    var appends: seq<Append>
    var clears: seq<Key>
    var steps: seq<Asked>

    constructor (wire: NsdlWire, settings: StreamSettings, pollMaxAttempts: int)
      ensures this.wire == wire && this.settings == settings && this.pollMaxAttempts == pollMaxAttempts
      ensures rows == [] && appends == [] && clears == [] && steps == []
    {
      this.wire, this.settings, this.pollMaxAttempts := wire, settings, pollMaxAttempts;
      rows, appends, clears, steps := [], [], [], [];
    }

    ghost predicate Valid()
      reads this, wire`sent, wire`nextGuid
    {
      LedgerOk(rows, appends, clears) && WireOk(wire.sent, wire.nextGuid, appends, settings)
    }

    /** One of the remote steps, with any answer. */
    method Ask(step: Step) returns (v: Reply)
      modifies this`steps
      ensures steps == old(steps) + [Asked(step, v)]
    {
      v := *;
      steps := steps + [Asked(step, v)];
    }

    /** A step that raised: the client's own error or another. */
    method Fail(step: Step) returns (v: Reply)
      modifies this`steps
      ensures v != Fine && steps == old(steps) + [Asked(step, v)]
    {
      var own: bool := *;
      v := if own then ClientError else OtherError;
      steps := steps + [Asked(step, v)];
    }

    method Pass(step: Step)
      modifies this`steps
      ensures steps == old(steps) + [Asked(step, Fine)]
    {
      steps := steps + [Asked(step, Fine)];
    }

    /** Writes columns of a row other than its TRANID. */
    method Note(id: nat, row: Row)
      requires Valid() && id < |rows|
      requires row.key == rows[id].key && row.tranId == rows[id].tranId
      requires row.status == SUCCEEDED ==> row.tranId.Some?
      modifies this`rows
      ensures Valid() && rows == old(rows)[id := row]
    {
      NoteKeeps(rows, appends, clears, id, row);
      rows := rows[id := row];
    }

    method Find(key: Key) returns (r: Option<nat>)
      ensures r.Some? ==> r.value < |rows| && rows[r.value].key == key
      ensures r.None? ==> forall i :: 0 <= i < |rows| ==> rows[i].key != key
    {
      for i := 0 to |rows|
        invariant forall j :: 0 <= j < i ==> rows[j].key != key
      {
        if rows[i].key == key {
          return Some(i);
        }
      }
      r := None;
    }

    /** The row for one exact file, inserted as pending when there is none. */
    method FindOrInsert(key: Key) returns (id: nat)
      requires Valid()
      modifies this`rows
      ensures Valid() && id < |rows| && rows[id].key == key
      ensures rows == old(rows) || (rows == old(rows) + [Row(key, Pending, None, None, 0)] && id == |old(rows)|)
      ensures rows != old(rows) ==> forall i :: 0 <= i < |old(rows)| ==> old(rows)[i].key != key
    {
      var found := Find(key);
      if found.Some? {
        return found.value;
      }
      InsertKeeps(rows, appends, clears, Row(key, Pending, None, None, 0));
      id, rows := |rows|, rows + [Row(key, Pending, None, None, 0)];
    }

    /** Call 4, recorded before anything else can fail. */
    method Finalize(id: nat, guid: nat, file: Bytes, name: string) returns (sent: Reply)
      requires Valid() && id < |rows| && rows[id].tranId.None? && rows[id].status != SUCCEEDED
      requires guid < wire.nextGuid && NotFinalized(appends, guid) && Delivered(wire.sent, settings, guid, file, name)
      modifies this`rows, this`appends, this`steps
      ensures Valid() && |rows| == |old(rows)| && rows[id].key == old(rows)[id].key
      ensures steps == old(steps) + [Asked(Finalizing, sent)]
      ensures exists tran :: appends == old(appends) + [Append(rows[id].key, guid, file, name, tran)]
                && rows == old(rows)[id := old(rows)[id].(
                     tranId := tran, status := if tran.Some? then Registered else old(rows)[id].status)]
                && (sent == Fine <==> tran.Some?)
    {
      sent := Ask(Finalizing);
      var tran: nat := *;
      var a := Append(rows[id].key, guid, file, name, if sent == Fine then Some(tran) else None);
      var row := rows[id].(tranId := a.tran, status := if sent == Fine then Registered else rows[id].status);
      FinalizeKeeps(rows, appends, clears, id, a, row);
      AppendKeepsWire(wire.sent, wire.nextGuid, appends, settings, a);
      rows, appends := rows[id := row], appends + [a];
    }

    /** force=true: the old TRANID is given up. */
    method Clear(id: nat)
      requires Valid() && id < |rows| && rows[id].tranId.Some?
      modifies this`rows, this`clears
      ensures Valid() && clears == old(clears) + [old(rows)[id].key]
      ensures rows == old(rows)[id := old(rows)[id].(tranId := None, guid := None, status := Pending)]
    {
      var row := rows[id].(tranId := None, guid := None, status := Pending);
      ClearKeeps(rows, appends, clears, id, row);
      rows, clears := rows[id := row], clears + [row.key];
    }

    /** Call 3: a file that went out whole is there under one fresh GUID, and no upload
        that was finalized before has lost or gained a chunk. */
    method SendFile(file: Bytes, name: string) returns (r: Answer<nat>)
      requires Valid()
      modifies wire`sent, wire`answers, wire`nextGuid
      ensures Valid() && old(wire.nextGuid) <= wire.nextGuid
      ensures r.Ok? ==> r.value == old(wire.nextGuid) < wire.nextGuid && NotFinalized(appends, r.value)
      ensures r.Ok? ==> Delivered(wire.sent, settings, r.value, file, name)
      ensures r.Raised? ==> NotSent(file, settings, old(wire.answers), wire.answers)
    {
      ghost var sent, guid := wire.sent, wire.nextGuid;
      var chunks := wire.UploadChunks(file, name, settings);
      if Offset(file, settings).Raised? {
        return Raised;
      }
      ghost var more := wire.sent[|sent|..];
      assert wire.sent == sent + more;
      FreshChunksKeep(sent, more, guid, appends, settings);
      r := if chunks.Ok? then Ok(chunks.value.guid) else Raised;
    }

    /** Calls 2 to 5 for a file that has no TRANID. Every refusal before call 4 leaves the
        ledger alone. */
    method UploadOne(id: nat, file: Bytes, name: string) returns (v: Reply)
      requires Valid() && id < |rows| && rows[id].tranId.None? && rows[id].status != SUCCEEDED
      modifies this`rows, this`appends, this`steps, wire
      ensures Valid() && |rows| == |old(rows)| && rows[id].key == old(rows)[id].key
      ensures forall j :: 0 <= j < |rows| && j != id ==> rows[j] == old(rows)[j]
      ensures v == Fine ==> ReadLast(old(wire.readings), wire.readings, rows[id])
      ensures v != Fine ==> NoneFinal(old(wire.readings), wire.readings)
      ensures Taken(old(steps), steps, 1, v)
      ensures v != Fine ==> LeftAt(steps[|steps| - 1].step, rows[id].status)
      ensures |appends| - |old(appends)| == (if steps[|steps| - 1].step in {Finalizing, Poll} then 1 else 0)
      ensures WhyNot(old(steps), steps, file, settings, old(wire.answers), wire.answers,
                wire.pollsRaised - old(wire.pollsRaised))
      ensures old(wire.nextGuid) <= wire.nextGuid
      ensures || appends == old(appends)
              || (exists tran ::
                    && appends == old(appends) + [Append(rows[id].key, old(wire.nextGuid), file, name, tran)]
                    && rows[id].tranId == tran)
      ensures appends != old(appends) ==>
                rows[id].guid == Some(old(wire.nextGuid))
                  && Delivered(wire.sent, settings, old(wire.nextGuid), file, name)
      ensures v == Fine ==> rows[id].status.Settled? && rows[id].tranId.Some? && |appends| == |old(appends)| + 1
      ensures v == ClientError ==> rows[id].status != SUCCEEDED
      ensures rows[id].retryCount == old(rows)[id].retryCount
    {
      hide LedgerOk, WireOk, Delivered, NotFinalized, ReadLast, NotSent;
      Note(id, rows[id].(status := Validating));
      v := Ask(Validation);
      if v != Fine {
        return;
      }
      var guid;
      v, guid := Send(id, file, name);
      if v == Fine {
        v := FinalizeAndPoll(id, guid, file, name);
      }
    }

    /** The row, and then call 3. */
    method Send(id: nat, file: Bytes, name: string) returns (v: Reply, guid: nat)
      requires Valid() && id < |rows|
      modifies this`rows, this`steps, wire`sent, wire`answers, wire`nextGuid
      ensures Valid() && rows == old(rows)[id := old(rows)[id].(status := Uploading)]
      ensures steps == old(steps) + [Asked(Sending, v)] && old(wire.nextGuid) <= wire.nextGuid
      ensures v == Fine ==>
                && guid == old(wire.nextGuid) < wire.nextGuid && NotFinalized(appends, guid)
                && Delivered(wire.sent, settings, guid, file, name)
      ensures v != Fine ==> NotSent(file, settings, old(wire.answers), wire.answers)
    {
      hide LedgerOk, WireOk, Delivered, NotFinalized, NotSent;
      Note(id, rows[id].(status := Uploading));
      var chunks := SendFile(file, name);
      if chunks.Raised? {
        v := Fail(Sending);
        guid := wire.nextGuid;
        return;
      }
      Pass(Sending);
      v, guid := Fine, chunks.value;
    }

    /** Calls 4 and 5 for a file that went out whole. */
    method FinalizeAndPoll(id: nat, guid: nat, file: Bytes, name: string) returns (v: Reply)
      requires Valid() && id < |rows| && rows[id].tranId.None? && rows[id].status != SUCCEEDED
      requires guid < wire.nextGuid && NotFinalized(appends, guid) && Delivered(wire.sent, settings, guid, file, name)
      modifies this`rows, this`appends, this`steps, wire`readings, wire`pollsRaised
      ensures Valid() && |rows| == |old(rows)| && rows[id].key == old(rows)[id].key
      ensures forall j :: 0 <= j < |rows| && j != id ==> rows[j] == old(rows)[j]
      ensures v == Fine ==> ReadLast(old(wire.readings), wire.readings, rows[id])
      ensures v != Fine ==> NoneFinal(old(wire.readings), wire.readings)
      ensures Taken(old(steps), steps, 3, v)
      ensures v != Fine ==> LeftAt(steps[|steps| - 1].step, rows[id].status)
      ensures wire.pollsRaised - old(wire.pollsRaised)
                == (if steps[|steps| - 1].step == Poll && v != Fine then 1 else 0)
      ensures steps[|steps| - 1].step == Finalizing <==> rows[id].tranId.None?
      ensures exists tran ::
                && appends == old(appends) + [Append(rows[id].key, guid, file, name, tran)]
                && rows[id].tranId == tran
      ensures rows[id].guid == Some(guid)
      ensures v == Fine ==> rows[id].status.Settled? && rows[id].tranId.Some?
      ensures v == ClientError ==> rows[id].status != SUCCEEDED
      ensures rows[id].retryCount == old(rows)[id].retryCount
    {
      hide LedgerOk, WireOk, Delivered, NotFinalized;
      Note(id, rows[id].(status := Uploaded, guid := Some(guid)));
      v := Finalize(id, guid, file, name);
      if v != Fine {
        return;
      }
      Note(id, rows[id].(status := Polling));
      var reading, _, _ := wire.PollStatus(rows[id].tranId.value, pollMaxAttempts);
      if reading.Raised? {
        v := Fail(Poll);
        return;
      }
      Pass(Poll);
      Note(id, rows[id].(status := StatusOf(reading.value)));
    }

    /** No file on disk: a placeholder row without a version says so. */
    method RecordLocateFailure(tradeDate: string, account: string, report: string) returns (r: Outcome)
      requires Valid()
      modifies this`rows
      ensures Valid() && r == Result(Selection.Failed)
      ensures OthersKept(old(rows), rows, Key(tradeDate, account, report, None))
      ensures IsSettled(rows, Key(tradeDate, account, report, None), Selection.Failed)
    {
      var id := FindOrInsert(Key(tradeDate, account, report, None));
      Note(id, rows[id].(status := FAILED));
      assert rows[id].status == FAILED;
      r := Result(Selection.Failed);
    }

    /** The re-poll of a file that was sent before: no chunk and no append goes out. */
    method Repoll(id: nat) returns (v: Reply)
      requires Valid() && id < |rows| && rows[id].tranId.Some?
      modifies this`rows, this`steps, wire`readings, wire`pollsRaised
      ensures Valid() && |rows| == |old(rows)|
      ensures v == Fine ==> ReadLast(old(wire.readings), wire.readings, rows[id])
      ensures v != Fine ==> NoneFinal(old(wire.readings), wire.readings)
      ensures |wire.readings| <= |old(wire.readings)| + 1
      ensures v != Fine ==> rows == old(rows)
      ensures steps == old(steps) + [Asked(Poll, v)]
      ensures wire.pollsRaised - old(wire.pollsRaised) == (if v != Fine then 1 else 0)
      ensures exists status ::
                rows == old(rows)[id := old(rows)[id].(status := status)] && (v == Fine ==> status.Settled?)
    {
      hide LedgerOk, WireOk;
      var reading := wire.CheckStatusOnce(rows[id].tranId.value);
      if reading.Raised? {
        assert rows == old(rows)[id := old(rows)[id].(status := old(rows)[id].status)];
        v := Fail(Poll);
        return;
      }
      Note(id, rows[id].(status := StatusOf(reading.value)));
      Pass(Poll);
      v := Fine;
    }

    /** One more try for a file that has no TRANID: the settings of its category, then calls
        2 to 5. */
    method Start(id: nat, file: Bytes, name: string) returns (v: Reply)
      requires Valid() && id < |rows| && rows[id].tranId.None? && rows[id].status != SUCCEEDED
      modifies this`rows, this`appends, this`steps, wire
      ensures Valid() && |rows| == |old(rows)| && rows[id].key == old(rows)[id].key
      ensures forall j :: 0 <= j < |rows| && j != id ==> rows[j] == old(rows)[j]
      ensures rows[id].retryCount == old(rows)[id].retryCount + 1
      ensures v == Fine ==> rows[id].status.Settled? && rows[id].tranId.Some?
      ensures v == ClientError ==> rows[id].status != SUCCEEDED
      ensures || appends == old(appends)
              || (exists a ::
                    && appends == old(appends) + [a] && a.key == rows[id].key && a.file == file && a.name == name
                    && rows[id].guid == Some(a.guid))
      ensures v == Fine ==> ReadLast(old(wire.readings), wire.readings, rows[id])
      ensures v != Fine ==> NoneFinal(old(wire.readings), wire.readings)
      ensures Taken(old(steps), steps, 0, v)
      ensures v != Fine ==>
                if steps[|steps| - 1].step == Settings then rows[id].status == old(rows)[id].status
                else LeftAt(steps[|steps| - 1].step, rows[id].status)
      ensures |appends| - |old(appends)| == (if steps[|steps| - 1].step in {Finalizing, Poll} then 1 else 0)
      ensures WhyNot(old(steps), steps, file, settings, old(wire.answers), wire.answers,
                wire.pollsRaised - old(wire.pollsRaised))
    {
      hide LedgerOk, WireOk, Delivered, ReadLast, NotSent;
      Note(id, rows[id].(retryCount := rows[id].retryCount + 1));
      v := Ask(Settings);
      if v == Fine {
        v := UploadOne(id, file, name);
      }
    }

    /** A file that is not finished: re-polled when it was sent, sent when it was not, and
        sent again only under force. */
    method Attempt(id: nat, file: Bytes, force: bool, name: string) returns (v: Reply)
      requires Valid() && id < |rows| && (rows[id].status == SUCCEEDED ==> force)
      modifies this`rows, this`appends, this`clears, this`steps, wire
      ensures Valid() && |rows| == |old(rows)| && rows[id].key == old(rows)[id].key
      ensures forall j :: 0 <= j < |rows| && j != id ==> rows[j] == old(rows)[j]
      ensures clears == old(clears) + (if old(rows)[id].tranId.Some? && force then [rows[id].key] else [])
      ensures old(rows)[id].tranId.Some? && !force ==>
                appends == old(appends) && wire.sent == old(wire.sent) && |wire.readings| <= |old(wire.readings)| + 1
      ensures rows[id].retryCount
                == old(rows)[id].retryCount + (if old(rows)[id].tranId.Some? && !force then 0 else 1)
      ensures v == Fine && !(old(rows)[id].tranId.Some? && !force) ==> |appends| == |old(appends)| + 1
      ensures || appends == old(appends)
              || (exists a ::
                    && appends == old(appends) + [a] && a.key == rows[id].key && a.file == file && a.name == name
                    && rows[id].guid == Some(a.guid))
      ensures v == Fine ==> ReadLast(old(wire.readings), wire.readings, rows[id])
      ensures v != Fine ==> NoneFinal(old(wire.readings), wire.readings)
      ensures old(steps) <= steps && |steps| > |old(steps)| && steps[|steps| - 1].reply == v
      ensures if old(rows)[id].tranId.Some? && !force then steps == old(steps) + [Asked(Poll, v)]
              else
                && Taken(old(steps), steps, 0, v)
                && (v != Fine && steps[|steps| - 1].step != Settings ==>
                      LeftAt(steps[|steps| - 1].step, rows[id].status))
                && |appends| - |old(appends)| == (if steps[|steps| - 1].step in {Finalizing, Poll} then 1 else 0)
      ensures WhyNot(old(steps), steps, file, settings, old(wire.answers), wire.answers,
                wire.pollsRaised - old(wire.pollsRaised))
    {
      hide Conserved, DistinctKeys, WireOk, Delivered, ReadLast, NotSent;
      if rows[id].tranId.Some? && !force {
        v := Repoll(id);
        return;
      }
      if rows[id].tranId.Some? {
        Clear(id);
      }
      v := Start(id, file, name);
    }

    /** A report whose file is there: nothing is done for one that is finished, unless under
        force. */
    method ProcessFile(key: Key, file: Bytes, force: bool, name: string) returns (r: Outcome)
      requires Valid()
      modifies this`rows, this`appends, this`clears, this`steps, wire
      ensures Valid()
      ensures EntryStep(old(rows), old(appends), old(clears), rows, appends, clears, key, force, file, name)
      ensures EntryTold(old(rows), rows, old(appends), appends, old(wire.sent), wire.sent, old(wire.readings),
                wire.readings, key, force, r)
      ensures Decided(Finished(old(rows), key) && !force, HoldsTran(old(rows), key) && !force, old(steps), steps,
                old(wire.readings), wire.readings, file, settings, old(wire.answers), wire.answers,
                wire.pollsRaised - old(wire.pollsRaised), r)
      ensures r.Result? ==> IsSettled(rows, key, r.v)
      ensures r == Result(Selection.Succeeded) ==> HoldsTran(rows, key)
    {
      hide WireOk, LedgerOk, Taken, WhyNot, HoldsGuid, HoldsTran, Finished, OthersKept, IsSettled;
      var id := FindOrInsert(key);
      ghost var mid := rows;
      RowTells(old(rows), rows, appends, clears, key, id);
      RowEnds(old(rows), rows, rows, key, id);
      if rows[id].status == SUCCEEDED && !force {
        return Result(Selection.Succeeded);
      }
      var v := Attempt(id, file, force, name);
      if v == ClientError {
        Note(id, rows[id].(status := FAILED));
      }
      RowEnds(old(rows), mid, rows, key, id);
      if v == OtherError {
        return Crashed;
      }
      if rows[id].status == SUCCEEDED {
        SuccessHolds(rows, appends, clears, id);
      }
      r := Result(rows[id].status.v);
    }

    /** _process_entry: one report end to end; the client's own errors become its verdict.
        An append is for this very file, which went out whole under the append's own GUID. */
    method ProcessEntry(tradeDate: string, account: string, report: string, located: Located, force: bool, name: string)
      returns (r: Outcome)
      requires Valid()
      modifies this`rows, this`appends, this`clears, this`steps, wire
      ensures Valid()
      ensures located.Missing? ==> r == Result(Selection.Failed) && appends == old(appends) && clears == old(clears)
      ensures located.Missing? ==> OthersKept(old(rows), rows, Key(tradeDate, account, report, None))
      ensures located.At? ==>
                EntryStep(old(rows), old(appends), old(clears), rows, appends, clears,
                  Key(tradeDate, account, report, Some(located.version)), force, located.file, name)
      ensures WireOk(wire.sent, wire.nextGuid, appends, settings)
      ensures located.At? ==>
                EntryTold(old(rows), rows, old(appends), appends, old(wire.sent), wire.sent, old(wire.readings),
                  wire.readings, Key(tradeDate, account, report, Some(located.version)), force, r)
      ensures located.At? ==>
                var key := Key(tradeDate, account, report, Some(located.version));
                Decided(Finished(old(rows), key) && !force, HoldsTran(old(rows), key) && !force, old(steps), steps,
                  old(wire.readings), wire.readings, located.file, settings, old(wire.answers), wire.answers,
                  wire.pollsRaised - old(wire.pollsRaised), r)
      ensures located.Missing? ==> steps == old(steps)
      ensures r.Result? ==>
                IsSettled(rows, Key(tradeDate, account, report, if located.At? then Some(located.version) else None),
                  r.v)
      ensures located.At? && r == Result(Selection.Succeeded) ==>
                HoldsTran(rows, Key(tradeDate, account, report, Some(located.version)))
    {
      hide WireOk, LedgerOk, EntryStep, EntryTold, Decided, OthersKept, HoldsTran, IsSettled, Finished;
      if located.Missing? {
        r := RecordLocateFailure(tradeDate, account, report);
      } else {
        r := ProcessFile(Key(tradeDate, account, report, Some(located.version)), located.file, force, name);
      }
    }

    /** GET by id: the way a file that is still running is settled. Nothing is sent. */
    method CheckStatus(id: nat) returns (r: Option<Status>)
      requires Valid()
      modifies this`rows, this`steps, wire`readings, wire`pollsRaised
      ensures r.Some? ==> id < |rows| && r.value == rows[id].status
      ensures Valid() && (id < |rows| <== r.Some?)
      ensures |rows| == |old(rows)|
      ensures forall i ::
                0 <= i < |rows| ==>
                  rows[i] == old(rows)[i].(status := rows[i].status) && (i != id ==> rows[i] == old(rows)[i])
      ensures id < |old(rows)| && old(rows)[id].status in {SUCCEEDED, FAILED} ==> rows == old(rows)
      ensures id < |old(rows)| && (old(rows)[id].status in {SUCCEEDED, FAILED} || old(rows)[id].tranId.None?) ==>
                r.Some? && rows == old(rows) && wire.readings == old(wire.readings)
      ensures id < |old(rows)| && old(rows)[id].status !in {SUCCEEDED, FAILED} && old(rows)[id].tranId.Some? ==>
                (r.Some? ==>
                   && |wire.readings| == |old(wire.readings)| + 1
                   && ReadLast(old(wire.readings), wire.readings, rows[id]))
                && wire.pollsRaised - old(wire.pollsRaised) == (if r.None? then 1 else 0)
      ensures id >= |old(rows)| ==> r.None? && rows == old(rows) && wire.readings == old(wire.readings)
    {
      if id >= |rows| {
        return None;
      }
      if rows[id].tranId.Some? && rows[id].status != SUCCEEDED && rows[id].status != FAILED {
        var v := Repoll(id);
        if v != Fine {
          return None;
        }
      }
      r := Some(rows[id].status);
    }
  }

  // ---- one request, and any number of them ----

  datatype Answered = Answered(keys: seq<Key>, results: seq<Selection.Verdict>, overall: Selection.Overall)

  /** The numbered files of each report in the folder of the day. */
  type Folder = map<Selection.Entry, map<nat, Bytes>>

  function FilesOf(folder: Folder, e: Selection.Entry): map<nat, Bytes> {
    if e in folder then folder[e] else map[]
  }

  /** The number a request means: the pinned one when that file is there, else the highest. */
  ghost predicate Picked(found: map<nat, Bytes>, pinned: Option<nat>, version: Option<nat>) {
    && (version.Some? ==> version.value in found)
    && (pinned.Some? ==> (version == pinned <==> pinned.value in found) && (version.Some? ==> version == pinned))
    && (pinned.None? ==>
          && (version.None? <==> found == map[])
          && (version.Some? ==> forall v :: v in found ==> v <= version.value))
  }

  method Locate(found: map<nat, Bytes>, pinned: Option<nat>) returns (r: Located)
    ensures Picked(found, pinned, if r.At? then Some(r.version) else None)
    ensures r.At? ==> r.file == found[r.version]
  {
    if pinned.Some? {
      return if pinned.value in found then At(pinned.value, found[pinned.value]) else Missing;
    }
    r := Missing;
    var rest := found.Keys;
    while rest != {}
      invariant rest <= found.Keys && (r.Missing? <==> rest == found.Keys)
      invariant r.At? ==>
                  && r.version in found && r.file == found[r.version]
                  && forall v :: v in found ==> v in rest || v <= r.version
      decreases |rest|
    {
      var v :| v in rest;
      rest := rest - {v};
      if r.Missing? || v > r.version {
        r := At(v, found[v]);
      }
    }
  }

  predicate AllSucceeded(results: seq<Selection.Verdict>) {
    forall i :: 0 <= i < |results| ==> results[i] == Selection.Succeeded
  }

  /** The file of one request: its account and report, and the number it means. */
  ghost predicate KeyFor(tradeDate: string, folder: Folder, q: Selection.Request, k: Key) {
    && k.tradeDate == tradeDate
    && k.account == Selection.ACCOUNTS[Selection.AccountOf(q.entry)]
    && k.report == Selection.REPORTS[Selection.ReportOf(q.entry)]
    && Picked(FilesOf(folder, q.entry), q.version, k.version)
  }

  /** One file per request, in order. */
  ghost predicate KeysFor(tradeDate: string, folder: Folder, requests: seq<Selection.Request>, keys: seq<Key>) {
    |keys| == |requests| && forall i :: 0 <= i < |keys| ==> KeyFor(tradeDate, folder, requests[i], keys[i])
  }

  /** What was appended is the file of that number in the folder. */
  ghost predicate FromFolder(tradeDate: string, folder: Folder, a: Append) {
    exists e: Selection.Entry ::
      && a.key.tradeDate == tradeDate
      && a.key.account == Selection.ACCOUNTS[Selection.AccountOf(e)]
      && a.key.report == Selection.REPORTS[Selection.ReportOf(e)]
      && a.key.version.Some? && a.key.version.value in FilesOf(folder, e)
      && a.file == FilesOf(folder, e)[a.key.version.value]
  }

  ghost predicate AllFromFolder(tradeDate: string, folder: Folder, appends: seq<Append>, appends': seq<Append>) {
    && appends <= appends'
    && forall i :: |appends| <= i < |appends'| ==> FromFolder(tradeDate, folder, appends'[i])
  }

  lemma OneMoreSucceeded(results: seq<Selection.Verdict>, v: Selection.Verdict)
    ensures AllSucceeded(results + [v]) <==> AllSucceeded(results) && v == Selection.Succeeded
  {
    if AllSucceeded(results + [v]) {
      assert (results + [v])[|results|] == v && forall i :: 0 <= i < |results| ==> results[i] == (results + [v])[i];
    }
  }

  ghost predicate AllHold(rows: seq<Row>, keys: seq<Key>) {
    forall i :: 0 <= i < |keys| ==> HoldsTran(rows, keys[i])
  }

  lemma AllHoldAfter(rows: seq<Row>, rows': seq<Row>, keys: seq<Key>, key: Key)
    requires AllHold(rows, keys) && OthersKept(rows, rows', key) && HoldsTran(rows', key)
    ensures AllHold(rows', keys + [key])
  {
  }

  /** One answer after another: each file's own row is settled with the verdict reported for
      it, and a report whose file is not there is failed; `after` says how the rows stood
      once each request was done. */
  ghost predicate Reported(before: seq<Row>, after: seq<seq<Row>>, keys: seq<Key>, results: seq<Selection.Verdict>) {
    && |after| == |keys| == |results|
    && forall i :: 0 <= i < |keys| ==> ReportedAt(before, after, keys, results, i)
  }

  ghost predicate ReportedAt(before: seq<Row>, after: seq<seq<Row>>, keys: seq<Key>, results: seq<Selection.Verdict>,
      i: int)
    requires 0 <= i < |after| && i < |keys| && i < |results|
  {
    && OthersKept(if i == 0 then before else after[i - 1], after[i], keys[i])
    && IsSettled(after[i], keys[i], results[i])
    && (keys[i].version.None? ==> results[i] == Selection.Failed)
  }

  function Latest(before: seq<Row>, after: seq<seq<Row>>): seq<Row> {
    if after == [] then before else after[|after| - 1]
  }

  lemma OthersSettled(rows: seq<Row>, rows': seq<Row>, key: Key, other: Key, v: Selection.Verdict)
    requires OthersKept(rows, rows', key) && IsSettled(rows, other, v) && other != key
    ensures IsSettled(rows', other, v)
  {
    var i :| 0 <= i < |rows| && rows[i].key == other && rows[i].status == Settled(v);
    assert rows'[i] == rows[i];
  }

  /** A file that no later request names is still settled as it was reported. */
  lemma {:induction false} StillSettled(before: seq<Row>, after: seq<seq<Row>>, keys: seq<Key>,
      results: seq<Selection.Verdict>, i: nat, n: nat)
    requires Reported(before, after, keys, results) && i < n <= |keys|
    requires forall j :: i < j < n ==> keys[j] != keys[i]
    ensures IsSettled(after[n - 1], keys[i], results[i])
  {
    hide IsSettled, OthersKept;
    assert ReportedAt(before, after, keys, results, n - 1);
    if i < n - 1 {
      StillSettled(before, after, keys, results, i, n - 1);
      OthersSettled(after[n - 2], after[n - 1], keys[n - 1], keys[i], results[i]);
    }
  }

  /** The word for the whole call, told on the files. */
  ghost predicate OverallTold(results: seq<Selection.Verdict>, overall: Selection.Overall) {
    && (overall == Selection.AllSucceeded <==> forall i :: 0 <= i < |results| ==> results[i] == Selection.Succeeded)
    && (overall == Selection.InProgress <==> forall i :: 0 <= i < |results| ==> results[i] == Selection.Running)
    && (overall == Selection.AllFailed <==> Selection.Failed in results && Selection.Succeeded !in results)
  }

  /** One request of a call. */
  method ProcessRequest(s: NsdlService, tradeDate: string, folder: Folder, q: Selection.Request, force: bool)
    returns (outcome: Outcome, key: Key)
    requires s.Valid()
    modifies s, s.wire
    ensures s.Valid() && (!force ==> s.clears == old(s.clears))
    ensures KeyFor(tradeDate, folder, q, key) && OthersKept(old(s.rows), s.rows, key)
    ensures AllFromFolder(tradeDate, folder, old(s.appends), s.appends)
    ensures outcome == Result(Selection.Succeeded) ==> HoldsTran(s.rows, key)
    ensures outcome.Result? ==> IsSettled(s.rows, key, outcome.v)
    ensures key.version.None? ==> outcome == Result(Selection.Failed) && s.steps == old(s.steps)
    ensures key.version.Some? ==>
              && key.version.value in FilesOf(folder, q.entry)
              && Decided(Finished(old(s.rows), key) && !force, HoldsTran(old(s.rows), key) && !force, old(s.steps),
                   s.steps, old(s.wire.readings), s.wire.readings, FilesOf(folder, q.entry)[key.version.value],
                     s.settings,
                   old(s.wire.answers), s.wire.answers, s.wire.pollsRaised - old(s.wire.pollsRaised), outcome)
    ensures old(s.steps) <= s.steps
    ensures outcome.Crashed? ==> s.steps != [] && s.steps[|s.steps| - 1].reply == OtherError
  {
    hide EntryTold, Finished, Picked, IsSettled, HoldsTran, OthersKept, LedgerOk, WireOk;
    var account, report :=
      Selection.ACCOUNTS[Selection.AccountOf(q.entry)], Selection.REPORTS[Selection.ReportOf(q.entry)];
    var located := Locate(FilesOf(folder, q.entry), q.version);
    var name: string := *;
    outcome := s.ProcessEntry(tradeDate, account, report, located, force, name);
    key := Key(tradeDate, account, report, if located.At? then Some(located.version) else None);
    PickedIsThere(FilesOf(folder, q.entry), q.version, key.version);
    if |s.appends| > |old(s.appends)| {
      assert FromFolder(tradeDate, folder, s.appends[|s.appends| - 1]);
    }
  }

  lemma PickedIsThere(found: map<nat, Bytes>, pinned: Option<nat>, version: Option<nat>)
    requires Picked(found, pinned, version)
    ensures version.Some? ==> version.value in found
  {
  }

  /** When an upload call takes no step, and when it gives no answer: over an unknown selector,
      over the category lookup, or over an error that is not the service's own. */
  ghost predicate BrokenOff(asked: seq<Asked>, asked': seq<Asked>, selectors: seq<Selection.Selector>, none: bool) {
    && (!Selection.AllKnown(selectors) ==> asked' == asked && none)
    && (Selection.AllKnown(selectors) ==>
          && |asked'| > |asked| && asked <= asked' && asked'[|asked|].step == Categories
          && (asked'[|asked|].reply != Fine ==> none && |asked'| == |asked| + 1)
          && (asked'[|asked|].reply == Fine && none ==> asked'[|asked'| - 1].reply == OtherError))
  }

  /** process_upload: the selected files one after another, each attempted whatever became
      of the others; None when it raised. When every file is reported as succeeded, every one
      of them holds a TRANID. */
  method ProcessUpload(s: NsdlService, tradeDate: string, folder: Folder, selectors: seq<Selection.Selector>,
      force: bool)
    returns (r: Option<Answered>, ghost after: seq<seq<Row>>)
    requires s.Valid()
    modifies s, s.wire
    ensures s.Valid()
    ensures !force ==> s.clears == old(s.clears)
    ensures r.Some? ==>
              && Reported(old(s.rows), after, r.value.keys, r.value.results) && s.rows == Latest(old(s.rows), after)
              && OverallTold(r.value.results, r.value.overall)
    ensures r.Some? ==>
              forall i ::
                && 0 <= i < |r.value.keys|
                && (forall j :: i < j < |r.value.keys| ==> r.value.keys[j] != r.value.keys[i]) ==>
                IsSettled(s.rows, r.value.keys[i], r.value.results[i])
    ensures r.Some? && r.value.overall == Selection.AllSucceeded ==> AllHold(s.rows, r.value.keys)
    ensures !Selection.AllKnown(selectors) ==> r.None? && s.rows == old(s.rows) && s.appends == old(s.appends)
    ensures r.Some? ==>
              Selection.AllKnown(selectors) && KeysFor(tradeDate, folder, Selection.Selected(selectors), r.value.keys)
    ensures AllFromFolder(tradeDate, folder, old(s.appends), s.appends)
    ensures BrokenOff(old(s.steps), s.steps, selectors, r.None?)
  {
    hide KeyFor, HoldsTran, OthersKept, IsSettled, LedgerOk, WireOk, Selection.Selected, Selection.OverallOf,
         OverallTold, Decided, Finished;
    after := [];
    var requests := Selection.ResolveSelection(selectors);
    if requests.None? {
      return None, after;
    }
    var categories := s.Ask(Categories);
    if categories != Fine {
      return None, after;
    }
    var keys: seq<Key> := [];
    var results: seq<Selection.Verdict> := [];
    for i := 0 to |requests.value|
      invariant s.Valid() && (!force ==> s.clears == old(s.clears))
      invariant |keys| == |results| == i
      invariant old(s.steps) + [Asked(Categories, Fine)] <= s.steps
      invariant forall j :: 0 <= j < i ==> KeyFor(tradeDate, folder, requests.value[j], keys[j])
      invariant AllFromFolder(tradeDate, folder, old(s.appends), s.appends)
      invariant AllSucceeded(results) ==> AllHold(s.rows, keys)
      invariant Reported(old(s.rows), after, keys, results) && s.rows == Latest(old(s.rows), after)
    {
      ghost var rows := s.rows;
      var outcome, key := ProcessRequest(s, tradeDate, folder, requests.value[i], force);
      if outcome.Crashed? {
        return None, after;
      }
      OneMoreSucceeded(results, outcome.v);
      if AllSucceeded(results) && outcome.v == Selection.Succeeded {
        AllHoldAfter(rows, s.rows, keys, key);
      }
      OneMoreReported(old(s.rows), after, s.rows, keys, results, key, outcome.v);
      keys, results, after := keys + [key], results + [outcome.v], after + [s.rows];
    }
    var _, _, _, overall := Selection.Summarise(results);
    Selection.SelectedSome(selectors);
    OverallTells(results);
    forall i | 0 <= i < |keys| && forall j :: i < j < |keys| ==> keys[j] != keys[i]
      ensures IsSettled(s.rows, keys[i], results[i])
    {
      StillSettled(old(s.rows), after, keys, results, i, |keys|);
    }
    r := Some(Answered(keys, results, overall));
  }

  lemma OverallTells(results: seq<Selection.Verdict>)
    requires results != []
    ensures OverallTold(results, Selection.OverallOf(results))
    ensures Selection.OverallOf(results) == Selection.AllSucceeded ==> AllSucceeded(results)
  {
    Selection.CountMeans(results, Selection.Succeeded);
    Selection.CountMeans(results, Selection.Running);
    Selection.CountMeans(results, Selection.Failed);
  }

  lemma OneMoreReported(before: seq<Row>, after: seq<seq<Row>>, rows: seq<Row>, keys: seq<Key>,
      results: seq<Selection.Verdict>, key: Key, v: Selection.Verdict)
    requires Reported(before, after, keys, results) && OthersKept(Latest(before, after), rows, key)
    requires IsSettled(rows, key, v) && (key.version.None? ==> v == Selection.Failed)
    ensures Reported(before, after + [rows], keys + [key], results + [v])
  {
    hide OthersKept, IsSettled;
    var all, ks, vs := after + [rows], keys + [key], results + [v];
    forall i | 0 <= i < |ks| ensures ReportedAt(before, all, ks, vs, i) {
      assert i < |keys| ==> ReportedAt(before, after, keys, results, i);
    }
  }

  /** Under the GUID of each append the receiver reads the data rows of its file. */
  ghost predicate RowsDelivered(sent: seq<WireChunk>, appends: seq<Append>) {
    forall i :: 0 <= i < |appends| ==>
      TerminatedLines(Concat(Payloads(Under(sent, appends[i].guid)))) == DataRows(appends[i].file)
  }

  lemma AllRowsDelivered(sent: seq<WireChunk>, nextGuid: nat, appends: seq<Append>, s: StreamSettings)
    requires WireOk(sent, nextGuid, appends, s) && s.stripHeader && s.appendNewline
    ensures RowsDelivered(sent, appends)
  {
    forall i | 0 <= i < |appends|
      ensures TerminatedLines(Concat(Payloads(Under(sent, appends[i].guid)))) == DataRows(appends[i].file)
    {
      AppendIsTheRows(sent, s, appends[i].guid, appends[i].file, appends[i].name);
    }
  }

  datatype Call =
    | Upload(tradeDate: string, folder: Folder, selectors: seq<Selection.Selector>, force: bool)
    | Check(id: nat)

  datatype Ledger = Ledger(rows: seq<Row>, appends: seq<Append>, clears: seq<Key>, steps: seq<Asked>)

  ghost function LedgerOf(s: NsdlService): Ledger
    reads s
  {
    Ledger(s.rows, s.appends, s.clears, s.steps)
  }

  /** What one call does and answers. An upload: what it appends are files of its folder, and
      each file it answers for is settled as reported. A status check: one row's status. */
  ghost predicate CallTold(c: Call, r: Option<Answered>, before: Ledger, after: Ledger) {
    match c
    case Upload(tradeDate, folder, selectors, force) =>
      && (!force ==> after.clears == before.clears)
      && BrokenOff(before.steps, after.steps, selectors, r.None?)
      && AllFromFolder(tradeDate, folder, before.appends, after.appends)
      && (r.Some? ==>
            && Selection.AllKnown(selectors)
            && KeysFor(tradeDate, folder, Selection.Selected(selectors), r.value.keys)
            && OverallTold(r.value.results, r.value.overall)
            && exists steps ::
                 && Reported(before.rows, steps, r.value.keys, r.value.results)
                 && after.rows == Latest(before.rows, steps))
    case Check(id) =>
      && after.appends == before.appends && after.clears == before.clears && |after.rows| == |before.rows|
      && forall i ::
           0 <= i < |after.rows| ==>
             && after.rows[i] == before.rows[i].(status := after.rows[i].status)
             && (i != id ==> after.rows[i] == before.rows[i])
  }

  /** One call. */
  method TakeCall(s: NsdlService, c: Call) returns (r: Option<Answered>)
    requires s.Valid()
    modifies s, s.wire
    ensures s.Valid()
    ensures CallTold(c, r, old(LedgerOf(s)), LedgerOf(s))
  {
    hide BrokenOff, LedgerOk, WireOk, Reported, KeysFor, OverallTold, AllFromFolder, Latest, IsSettled, ReadLast,
         Selection.Selected;
    r := None;
    match c
    case Upload(tradeDate, folder, selectors, force) =>
      ghost var steps;
      r, steps := ProcessUpload(s, tradeDate, folder, selectors, force);
    case Check(id) =>
      var _ := s.CheckStatus(id);
  }

  /** The calls one after another, ledger by ledger. */
  ghost predicate Served(calls: seq<Call>, answers: seq<Option<Answered>>, ledgers: seq<Ledger>) {
    && |answers| == |calls| && |ledgers| == |calls| + 1
    && forall i :: 0 <= i < |calls| ==> CallTold(calls[i], answers[i], ledgers[i], ledgers[i + 1])
  }

  lemma ServedOn(calls: seq<Call>, answers: seq<Option<Answered>>, ledgers: seq<Ledger>, c: Call,
      r: Option<Answered>, after: Ledger)
    requires Served(calls, answers, ledgers) && CallTold(c, r, ledgers[|calls|], after)
    ensures Served(calls + [c], answers + [r], ledgers + [after])
  {
    hide CallTold;
  }

  /** Over any calls with any answers, refusals and raised errors: every acknowledged append
      of a file is accounted for by its row or by a forced clear, so without force no file
      is ever appended twice. No GUID is finalized twice either, and what went out
      under the GUID of an append is, to the receiver, the data rows of its file. */
  method Serve(s: NsdlService, calls: seq<Call>) returns (answers: seq<Option<Answered>>, ghost ledgers: seq<Ledger>)
    requires s.Valid()
    modifies s, s.wire
    ensures s.Valid()
    ensures Served(calls, answers, ledgers) && ledgers[0] == old(LedgerOf(s))
    ensures ledgers[|calls|] == LedgerOf(s)
    ensures forall k :: Acks(s.appends, k) == Times(s.clears, k) + One(HoldsTran(s.rows, k))
    ensures (forall i :: 0 <= i < |calls| && calls[i].Upload? ==> !calls[i].force) ==>
              s.clears == old(s.clears) && forall k :: Times(old(s.clears), k) == 0 ==> Acks(s.appends, k) <= 1
    ensures forall i, j :: 0 <= i < j < |s.appends| ==> s.appends[i].guid != s.appends[j].guid
    ensures forall i :: 0 <= i < |s.appends| ==>
              Delivered(s.wire.sent, s.settings, s.appends[i].guid, s.appends[i].file, s.appends[i].name)
    ensures s.settings.stripHeader && s.settings.appendNewline ==> RowsDelivered(s.wire.sent, s.appends)
  {
    answers, ledgers := [], [LedgerOf(s)];
    for i := 0 to |calls|
      invariant s.Valid()
      invariant Served(calls[..i], answers, ledgers) && ledgers[0] == old(LedgerOf(s))
      invariant ledgers[i] == LedgerOf(s)
      invariant (forall j :: 0 <= j < i && calls[j].Upload? ==> !calls[j].force) ==> s.clears == old(s.clears)
    {
      var r := TakeCall(s, calls[i]);
      ServedOn(calls[..i], answers, ledgers, calls[i], r, LedgerOf(s));
      assert calls[..i] + [calls[i]] == calls[..i + 1];
      answers, ledgers := answers + [r], ledgers + [LedgerOf(s)];
    }
    assert calls[..|calls|] == calls;
    if s.settings.stripHeader && s.settings.appendNewline {
      AllRowsDelivered(s.wire.sent, s.wire.nextGuid, s.appends, s.settings);
    }
  }

  /** The same from an empty ledger and an untouched API. */
  method ServeFromScratch(settings: StreamSettings, pollMaxAttempts: int, calls: seq<Call>)
    returns (rows: seq<Row>, appends: seq<Append>, clears: seq<Key>, sent: seq<WireChunk>,
      answers: seq<Option<Answered>>, ghost ledgers: seq<Ledger>)
    ensures Served(calls, answers, ledgers) && ledgers[0] == Ledger([], [], [], [])
    ensures ledgers[|calls|].rows == rows && ledgers[|calls|].appends == appends && ledgers[|calls|].clears == clears
    ensures forall k :: Acks(appends, k) == Times(clears, k) + One(HoldsTran(rows, k))
    ensures (forall i :: 0 <= i < |calls| && calls[i].Upload? ==> !calls[i].force) ==>
              clears == [] && forall k :: Acks(appends, k) <= 1
    ensures settings.stripHeader && settings.appendNewline ==> RowsDelivered(sent, appends)
  {
    hide LedgerOk, WireOk, Delivered, HoldsTran;
    var wire := new NsdlWire();
    var s := new NsdlService(wire, settings, pollMaxAttempts);
    NothingYet(wire.nextGuid, settings);
    answers, ledgers := Serve(s, calls);
    assert forall k :: Times([], k) == 0;
    rows, appends, clears, sent := s.rows, s.appends, s.clears, wire.sent;
  }

  lemma NothingYet(nextGuid: nat, settings: StreamSettings)
    ensures LedgerOk([], [], []) && WireOk([], nextGuid, [], settings)
  {
  }
}
