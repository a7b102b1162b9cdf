/** app/repositories/uploaded_file_repository.py: the uploaded_files audit table,
    whose file_path column is UNIQUE and whose 'uploaded' rows are the proof that a
    file must not be sent again. */
module UploadedFileRepository {
  import opened Text
  import opened FileService
  import opened UploadOutcome

  /** The file_path column: a location, or a location with a superseded marker. */
  datatype FilePath = Live(p: Path) | Retired(p: Path, claimant: nat)

  const SUPERSEDED_MARKER := " <superseded by row "

  /** What the column really holds. */
  function ColumnText(fp: FilePath): Path
    requires |fp.p| >= 2
  {
    match fp
    case Live(p) => p
    case Retired(p, claimant) => InDir(Parent(p), Label(Name(p), claimant))
  }

  function Label(name: string, id: nat): string {
    name + SUPERSEDED_MARKER + Dec(id) + ">"
  }

  datatype FileKey = FileKey(segment: string, folderDate: string, uploadId: string, fileName: string)

  /** A row's id is its index: rows are inserted at the end and never deleted. */
  datatype Row = Row(
    fileName: string,
    path: FilePath,
    folderDate: string,
    segment: string,
    exchange: string,
    status: RowStatus,
    uploadId: Option<string>,
    processId: Option<string>,
    guid: Option<nat>,
    retryCount: nat,
    stamped: bool,
    batchId: Option<string>)

  predicate Completed(row: Row, key: FileKey) {
    && row.status == Uploaded
    && row.segment == key.segment && row.folderDate == key.folderDate
    && row.uploadId == Some(key.uploadId) && row.fileName == key.fileName
  }

  // ---- what the table keeps, whatever happens around it ----

  /** The UNIQUE constraint: no two rows claim one path. */
  ghost predicate DistinctPaths(rows: seq<Row>) {
    forall i, j :: 0 <= i < j < |rows| ==> rows[i].path != rows[j].path
  }

  /** A label naming row r was written when r claimed that location, and a row only
      ever gets deeper, so r is at least as deep as every label that names it. */
  ghost predicate WellLabelled(rows: seq<Row>) {
    forall i :: 0 <= i < |rows| ==>
      && Plain(rows[i].path.p)
      && (rows[i].path.Retired? ==>
            rows[i].path.claimant < |rows| && |rows[rows[i].path.claimant].path.p| >= |rows[i].path.p|)
  }

  ghost predicate TableOk(rows: seq<Row>) {
    DistinctPaths(rows) && WellLabelled(rows)
  }

  lemma LabelParts(x: string, m: nat)
    ensures Label(x, m) == (x + " ") + ['<'] + ("superseded by row " + Dec(m) + ">")
    ensures '<' in Label(x, m)
  {
    hide Dec;
    assert Label(x, m)[|x| + 1] == '<';
  }

  lemma LabelInjective(x: string, m: nat, y: string, n: nat)
    requires '<' !in x && '<' !in y && Label(x, m) == Label(y, n)
    ensures x == y && m == n
  {
    var u, v := "superseded by row " + Dec(m) + ">", "superseded by row " + Dec(n) + ">";
    LabelParts(x, m);
    LabelParts(y, n);
    SplitUnique(x + " ", u, y + " ", v, '<');
    assert x == (x + " ")[..|x|] && y == (y + " ")[..|y|];
    assert Dec(m) == u[18..|u| - 1] && Dec(n) == v[18..|v| - 1];
    DecInjective(m, n);
  }

  function LastText(fp: FilePath): string
    requires |fp.p| >= 2
  {
    if fp.Live? then Name(fp.p) else Label(Name(fp.p), fp.claimant)
  }

  lemma ColumnTextParts(a: FilePath, b: FilePath)
    requires |a.p| >= 2 && |b.p| >= 2 && ColumnText(a) == ColumnText(b)
    ensures Parent(a.p) == Parent(b.p) && LastText(a) == LastText(b)
  {
    var s, t := ColumnText(a), ColumnText(b);
    assert s[|s| - 1] == LastText(a) && t[|t| - 1] == LastText(b);
    assert s[..|s| - 1] == Parent(a.p) && t[..|t| - 1] == Parent(b.p);
  }

  /** Distinct labels are distinct texts, so DistinctPaths is the column constraint. */
  lemma ColumnTextInjective(a: FilePath, b: FilePath)
    requires Plain(a.p) && Plain(b.p)
    ensures ColumnText(a) == ColumnText(b) <==> a == b
  {
    hide ColumnText, LastText, Label, Parent, Plain;
    PlainIsLong(a.p);
    PlainIsLong(b.p);
    if ColumnText(a) == ColumnText(b) {
      ColumnTextParts(a, b);
      LastTextInjective(a, b);
      SamePath(a.p, b.p);
    }
  }

  lemma PlainIsLong(p: Path)
    requires Plain(p)
    ensures |p| >= 2 && '<' !in Name(p)
  {
  }

  lemma SamePath(p: Path, q: Path)
    requires |p| >= 2 && |q| >= 2 && Parent(p) == Parent(q) && Name(p) == Name(q)
    ensures p == q
  {
    assert p == Parent(p) + [Name(p)] && q == Parent(q) + [Name(q)];
  }

  /** A live name has no '<' and a label has one, so the kinds never meet. */
  lemma LastTextInjective(a: FilePath, b: FilePath)
    requires |a.p| >= 2 && |b.p| >= 2 && '<' !in Name(a.p) && '<' !in Name(b.p) && LastText(a) == LastText(b)
    ensures Name(a.p) == Name(b.p) && a.Live? == b.Live? && (a.Retired? ==> a.claimant == b.claimant)
  {
    hide Label;
    if a.Retired? {
      LabelParts(Name(a.p), a.claimant);
    }
    if b.Retired? {
      LabelParts(Name(b.p), b.claimant);
    }
    if a.Retired? && b.Retired? {
      LabelInjective(Name(a.p), a.claimant, Name(b.p), b.claimant);
    }
  }

  /** So a path lookup can never see two rows and no insert or claim breaks UNIQUE. */
  lemma ColumnStaysUnique(rows: seq<Row>, i: nat, j: nat)
    requires TableOk(rows) && i < |rows| && j < |rows|
    ensures ColumnText(rows[i].path) == ColumnText(rows[j].path) <==> i == j
  {
    ColumnTextInjective(rows[i].path, rows[j].path);
  }

  // ---- the operations as functions of the table ----

  function RowAt(rows: seq<Row>, fp: FilePath): (r: Option<nat>)
    ensures r.Some? ==> r.value < |rows| && rows[r.value].path == fp
    ensures r.None? ==> forall i :: 0 <= i < |rows| ==> rows[i].path != fp
  {
    if |rows| == 0 then None
    else if rows[|rows| - 1].path == fp then Some(|rows| - 1)
    else RowAt(rows[..|rows| - 1], fp)
  }

  datatype NewRow = NewRow(folderDate: string, segment: string, exchange: string, batchId: Option<string>)

  function Reset(row: Row, n: NewRow): Row {
    row.(status := Pending, folderDate := n.folderDate, segment := n.segment, exchange := n.exchange,
    batchId := if n.batchId.Some? && n.batchId.value != "" then n.batchId else row.batchId)
  }

  function Fresh(file: Path, n: NewRow): Row
    requires |file| >= 2
  {
    Row(Name(file), Live(file), n.folderDate, n.segment, n.exchange, Pending, None, None, None, 0, false, n.batchId)
  }

  function Created(rows: seq<Row>, file: Path, n: NewRow): (seq<Row>, nat)
    requires |file| >= 2
  {
    match RowAt(rows, Live(file))
    case Some(i) => (rows[i := Reset(rows[i], n)], i)
    case None => (rows + [Fresh(file, n)], |rows|)
  }

  /** The row at this path is pending again for this batch with its history kept, or a blank
      pending row for it is the last one; no other row changes. */
  ghost predicate CreatedTold(rows: seq<Row>, rows': seq<Row>, id: nat, file: Path, n: NewRow)
    requires |file| >= 2
  {
    && |rows| <= |rows'| <= |rows| + 1 && id < |rows'|
    && (forall j :: 0 <= j < |rows| && j != id ==> rows'[j] == rows[j])
    && var row := rows'[id];
       && row.path == Live(file) && row.status == Pending
       && row.folderDate == n.folderDate && row.segment == n.segment && row.exchange == n.exchange
       && (id < |rows| ==>
             && |rows'| == |rows| && rows[id].path == Live(file)
             && row.fileName == rows[id].fileName && row.uploadId == rows[id].uploadId && row.guid == rows[id].guid
             && row.processId == rows[id].processId
             && row.retryCount == rows[id].retryCount && row.stamped == rows[id].stamped
             && row.batchId == if n.batchId in {None, Some("")} then rows[id].batchId else n.batchId)
       && (id == |rows| ==>
             && (forall j :: 0 <= j < |rows| ==> rows[j].path != Live(file))
             && row.fileName == Name(file) && row.batchId == n.batchId
             && row.uploadId.None? && row.guid.None? && row.processId.None? && row.retryCount == 0 && !row.stamped)
  }

  /** The row takes the path and nothing else of it changes; a row that held the path is
      retired under a label that names the taker, and no other row changes at all. */
  ghost predicate ClaimedTold(rows: seq<Row>, rows': seq<Row>, id: nat, newPath: Path) {
    && |rows'| == |rows| && id < |rows|
    && rows'[id] == rows[id].(path := Live(newPath))
    && forall j :: 0 <= j < |rows| && j != id ==>
         rows'[j] == if rows[j].path == Live(newPath) then rows[j].(path := Retired(newPath, id)) else rows[j]
  }

  /** How a claim of newPath by row id changes another row. */
  function Released(row: Row, newPath: Path, id: nat): Row {
    if row.path == Live(newPath) then row.(path := Retired(newPath, id)) else row
  }

  function Claimed(rows: seq<Row>, id: nat, newPath: Path): (r: seq<Row>)
    requires id < |rows|
    ensures |r| == |rows|
  {
    seq(|rows|, i requires 0 <= i < |rows| =>
      if i == id then rows[i].(path := Live(newPath)) else Released(rows[i], newPath, id))
  }

  lemma CreateKeepsTable(rows: seq<Row>, file: Path, n: NewRow)
    requires TableOk(rows) && Plain(file)
    ensures TableOk(Created(rows, file, n).0)
  {
  }

  /** A row claims only deeper paths, so its superseded label cannot exist yet. */
  lemma ClaimKeepsTable(rows: seq<Row>, id: nat, newPath: Path)
    requires TableOk(rows) && id < |rows| && Plain(newPath)
    requires |newPath| > |rows[id].path.p|
    ensures TableOk(Claimed(rows, id, newPath))
  {
    var after := Claimed(rows, id, newPath);
    forall k | 0 <= k < |rows| ensures rows[k].path != Retired(newPath, id) {
      if rows[k].path == Retired(newPath, id) {
        assert false;
      }
    }
  }

  // ---- any sequence of table operations ----

  datatype TableOp =
    | Create(file: Path, n: NewRow)
    | Claim(id: nat, newPath: Path)
    | Update(id: nat, row: Row)

  /** What the service asks of an operation: a real location, a claim below the row's
      own path, and an update that leaves the path alone. */
  predicate Allowed(rows: seq<Row>, op: TableOp) {
    match op
    case Create(file, _) => Plain(file)
    case Claim(id, newPath) => id < |rows| && Plain(newPath) && |newPath| > |rows[id].path.p|
    case Update(id, row) => id < |rows| && row.path == rows[id].path
  }

  function Perform(rows: seq<Row>, op: TableOp): seq<Row>
    requires Allowed(rows, op)
  {
    match op
    case Create(file, n) => Created(rows, file, n).0
    case Claim(id, newPath) => Claimed(rows, id, newPath)
    case Update(id, row) => rows[id := row]
  }

  ghost predicate Runs(history: seq<seq<Row>>, ops: seq<TableOp>) {
    && |history| == |ops| + 1 && history[0] == []
    && forall i :: 0 <= i < |ops| ==> Allowed(history[i], ops[i]) && history[i + 1] == Perform(history[i], ops[i])
  }

  /** From an empty table, cut off after any operation, no two rows ever hold one text. */
  lemma {:induction false} PathsStayDistinct(history: seq<seq<Row>>, ops: seq<TableOp>, t: nat, i: nat, j: nat)
    requires Runs(history, ops) && t < |history|
    requires i < |history[t]| && j < |history[t]|
    ensures TableOk(history[t])
    ensures ColumnText(history[t][i].path) == ColumnText(history[t][j].path) <==> i == j
  {
    TableStaysOk(history, ops, t);
    ColumnStaysUnique(history[t], i, j);
  }

  lemma {:induction false} TableStaysOk(history: seq<seq<Row>>, ops: seq<TableOp>, t: nat)
    requires Runs(history, ops) && t < |history|
    ensures TableOk(history[t])
  {
    if t > 0 {
      TableStaysOk(history, ops, t - 1);
      var rows := history[t - 1];
      match ops[t - 1]
      case Create(file, n) => CreateKeepsTable(rows, file, n);
      case Claim(id, newPath) => ClaimKeepsTable(rows, id, newPath);
      case Update(id, row) =>
    }
  }

  class AuditTable {
    var rows: seq<Row>

    constructor ()
      ensures rows == []
    {
      rows := [];
    }

    method FindByPath(fp: FilePath) returns (r: Option<nat>)
      ensures r == RowAt(rows, fp)
    {
      var i := |rows|;
      assert rows[..i] == rows;
      while i > 0
        invariant 0 <= i <= |rows|
        invariant RowAt(rows, fp) == RowAt(rows[..i], fp)
      {
        if rows[i - 1].path == fp {
          return Some(i - 1);
        }
        i := i - 1;
        assert rows[..i + 1][..i] == rows[..i];
      }
      r := None;
    }

    /** Get-or-create the row for this source path, reset to pending. */
    method CreateAuditRecord(file: Path, n: NewRow) returns (id: nat)
      requires TableOk(rows) && Plain(file)
      modifies this
      ensures (rows, id) == Created(old(rows), file, n)
      ensures CreatedTold(old(rows), rows, id, file, n)
      ensures TableOk(rows)
    {
      CreateKeepsTable(rows, file, n);
      var existing := FindByPath(Live(file));
      if existing.Some? {
        id := existing.value;
        rows := rows[id := Reset(rows[id], n)];
      } else {
        id := |rows|;
        rows := rows + [Fresh(file, n)];
      }
    }

    /** Point row id at newPath, first retiring any other row that still claims it. */
    method ClaimFilePath(id: nat, newPath: Path)
      requires TableOk(rows) && id < |rows| && Plain(newPath)
      requires |newPath| > |rows[id].path.p|
      modifies this
      ensures rows == Claimed(old(rows), id, newPath)
      ensures ClaimedTold(old(rows), rows, id, newPath)
      ensures TableOk(rows)
    {
      ClaimKeepsTable(rows, id, newPath);
      ghost var before := rows;
      var stale := FindByPath(Live(newPath));
      if stale.Some? {
        rows := rows[stale.value := rows[stale.value].(path := Retired(newPath, id))];
      }
      rows := rows[id := rows[id].(path := Live(newPath))];
      assert rows == Claimed(before, id, newPath);
    }

    /** Writes columns other than the path. */
    method Update(id: nat, row: Row)
      requires TableOk(rows) && id < |rows| && row.path == rows[id].path
      modifies this
      ensures rows == old(rows)[id := row]
      ensures TableOk(rows)
    {
      rows := rows[id := row];
    }

    /** A row that already reached 'uploaded' for this key, if there is one. */
    method FindCompleted(key: FileKey) returns (r: Option<nat>)
      ensures r.Some? ==> r.value < |rows| && Completed(rows[r.value], key)
      ensures r.None? ==> forall i :: 0 <= i < |rows| ==> !Completed(rows[i], key)
    {
      for i := 0 to |rows|
        invariant forall k :: 0 <= k < i ==> !Completed(rows[k], key)
      {
        if Completed(rows[i], key) {
          return Some(i);
        }
      }
      r := None;
    }
  }
}
