/**
 The split blob/index archive refines a store that keeps every file's bytes inline and lets the
 first write of a (task, non-empty filename) win.
 */
module ArchiveProofs {
  import opened Prelude
  import opened Content

  /** The naive store: rows with their bytes. */
  datatype Inline = Inline(rows: seq<ArchiveRow>, next: int, failing: nat)

  datatype Op = Add(row: ArchiveRow) | ByTask(task: int) | ByID(id: int) | FailNext(n: nat)

  datatype Answer = Stored(id: Option<int>) | Rows(rows: seq<ArchiveRow>) | Row(row: Option<ArchiveRow>) | Nothing

  function InlineAdd(n: Inline, row: ArchiveRow): (Inline, Option<int>)
  {
    if n.failing > 0 then (n.(failing := n.failing - 1), None)
    else
      var i := FirstIndex(n.rows, (r: ArchiveRow) => SameFile(r, row));
      if i < |n.rows| then (n, Some(n.rows[i].id))
      else (Inline(n.rows + [row.(id := n.next + 1)], n.next + 1, 0), Some(n.next + 1))
  }

  function Filter(rows: seq<ArchiveRow>, task: int): seq<ArchiveRow>
  {
    if rows == [] then []
    else Filter(rows[..|rows| - 1], task) + if rows[|rows| - 1].task == task then [rows[|rows| - 1]] else []
  }

  /** The naive store's answer. It records the true hash beside the bytes. */
  function InlineStep(n: Inline, op: Op, hash: Bytes -> string): (Inline, Answer)
  {
    match op
    case Add(row) => var (n', id) := InlineAdd(n, row.(sha256 := hash(row.bytes))); (n', Stored(id))
    case ByTask(t) => (n, Rows(Filter(n.rows, t)))
    case ByID(id) =>
      var i := FirstIndex(n.rows, (r: ArchiveRow) => r.id == id);
      (n, Row(if i < |n.rows| then Some(n.rows[i]) else None))
    case FailNext(k) => (n.(failing := n.failing + k), Nothing)
  }

  function SplitStep(a: Archive, op: Op, hash: Bytes -> string): (Archive, Answer)
  {
    match op
    case Add(row) => var (a', id) := AddArchive(a, row, hash); (a', Stored(id))
    case ByTask(t) => (a, Rows(ArchiveByTask(a, t)))
    case ByID(id) => (a, Row(ArchiveByID(a, id)))
    case FailNext(k) => (a.(failing := a.failing + k), Nothing)
  }

  function InlineRun(n: Inline, ops: seq<Op>, hash: Bytes -> string): (Inline, seq<Answer>)
  {
    if ops == [] then (n, [])
    else
      var (m, before) := InlineRun(n, ops[..|ops| - 1], hash);
      var (m', answer) := InlineStep(m, ops[|ops| - 1], hash);
      (m', before + [answer])
  }

  function SplitRun(a: Archive, ops: seq<Op>, hash: Bytes -> string): (Archive, seq<Answer>)
  {
    if ops == [] then (a, [])
    else
      var (b, before) := SplitRun(a, ops[..|ops| - 1], hash);
      var (b', answer) := SplitStep(b, ops[|ops| - 1], hash);
      (b', before + [answer])
  }

  /** Collision-free, and never the empty string that asks the store to hash for itself. */
  ghost predicate GoodHash(hash: Bytes -> string)
  {
    && (forall b: Bytes :: hash(b) != "")
    && (forall b: Bytes, c: Bytes :: hash(b) == hash(c) ==> b == c)
  }

  /** Callers may leave the hash out, but do not lie about it. */
  ghost predicate Truthful(op: Op, hash: Bytes -> string)
  {
    op.Add? ==> op.row.sha256 == "" || op.row.sha256 == hash(op.row.bytes)
  }

  /** Every index hash resolves, every blob sits under its own hash, and no row carries bytes. */
  ghost predicate ArchiveOK(a: Archive, hash: Bytes -> string)
  {
    && a.next == |a.rows|
    && (forall i :: 0 <= i < |a.rows| ==> a.rows[i].sha256 in a.blobs && a.rows[i].bytes == [] && a.rows[i].id == i + 1)
    && (forall k :: k in a.blobs ==> hash(a.blobs[k]) == k)
  }

  /** The naive store is the split one with every row's bytes put back. */
  ghost predicate Refines(a: Archive, n: Inline)
  {
    && a.next == n.next && a.failing == n.failing && |a.rows| == |n.rows|
    && forall i :: 0 <= i < |a.rows| ==> n.rows[i] == Reconstitute(a, a.rows[i])
  }

  /** More blobs change no reconstituted row. */
  lemma BlobsGrow(a: Archive, n: Inline, blobs: map<string, Bytes>, hash: Bytes -> string)
    requires ArchiveOK(a, hash) && Refines(a, n)
    requires forall k :: k in a.blobs ==> k in blobs && blobs[k] == a.blobs[k]
    requires forall k :: k in blobs ==> hash(blobs[k]) == k
    ensures ArchiveOK(a.(blobs := blobs), hash) && Refines(a.(blobs := blobs), n)
  {
  }

  lemma RowAdded(a: Archive, n: Inline, full: ArchiveRow, hash: Bytes -> string)
    requires ArchiveOK(a, hash) && Refines(a, n) && full.sha256 in a.blobs && a.blobs[full.sha256] == full.bytes
    ensures var a' := a.(rows := a.rows + [full.(id := a.next + 1, bytes := [])], next := a.next + 1);
      ArchiveOK(a', hash) && Refines(a', n.(rows := n.rows + [full.(id := n.next + 1)], next := n.next + 1))
  {
  }

  lemma AddRefines(a: Archive, n: Inline, row: ArchiveRow, hash: Bytes -> string)
    requires GoodHash(hash) && Truthful(Add(row), hash) && ArchiveOK(a, hash) && Refines(a, n)
    ensures var (a', x) := AddArchive(a, row, hash); var (n', y) := InlineAdd(n, row.(sha256 := hash(row.bytes)));
      ArchiveOK(a', hash) && Refines(a', n') && x == y
  {
    if a.failing == 0 {
      var full := row.(sha256 := hash(row.bytes));
      SameFirst(a.rows, n.rows, (r: ArchiveRow) => SameFile(r, full));
      var b := a.(blobs := if full.sha256 in a.blobs then a.blobs else a.blobs[full.sha256 := full.bytes]);
      BlobsGrow(a, n, b.blobs, hash);
      RowAdded(b, n, full, hash);
    }
  }

  lemma {:induction false} FilterRefines(a: Archive, rows: seq<ArchiveRow>, inline: seq<ArchiveRow>, task: int)
    requires |rows| == |inline| && forall i :: 0 <= i < |rows| ==> inline[i] == Reconstitute(a, rows[i])
    ensures ByTaskFrom(a, rows, task) == Filter(inline, task)
  {
    if rows != [] {
      FilterRefines(a, rows[..|rows| - 1], inline[..|rows| - 1], task);
    }
  }

  lemma StepRefines(a: Archive, n: Inline, op: Op, hash: Bytes -> string)
    requires GoodHash(hash) && Truthful(op, hash) && ArchiveOK(a, hash) && Refines(a, n)
    ensures var (a', x) := SplitStep(a, op, hash); var (n', y) := InlineStep(n, op, hash);
      ArchiveOK(a', hash) && Refines(a', n') && x == y
  {
    match op
    case Add(row) => AddRefines(a, n, row, hash);
    case ByTask(t) => FilterRefines(a, a.rows, n.rows, t);
    case ByID(id) =>
      SameFirst(a.rows, n.rows, (r: ArchiveRow) => r.id == id);
    case FailNext(k) =>
  }

  /**
   For every sequence of operations, scripted failures included, the split archive answers exactly
   as the naive store: same ids, same rows, same bytes; and every index hash resolves.
   */
  lemma {:induction false} ArchiveRefinesInline(ops: seq<Op>, hash: Bytes -> string)
    requires GoodHash(hash) && forall i :: 0 <= i < |ops| ==> Truthful(ops[i], hash)
    ensures var (a, xs) := SplitRun(Archive([], 0, map[], 0), ops, hash);
      var (n, ys) := InlineRun(Inline([], 0, 0), ops, hash);
      xs == ys && ArchiveOK(a, hash) && Refines(a, n)
  {
    if ops != [] {
      ArchiveRefinesInline(ops[..|ops| - 1], hash);
      StepRefines(SplitRun(Archive([], 0, map[], 0), ops[..|ops| - 1], hash).0,
                  InlineRun(Inline([], 0, 0), ops[..|ops| - 1], hash).0, ops[|ops| - 1], hash);
    }
  }

  /** Each distinct content is stored once: two blobs under different hashes differ. */
  lemma StoredOnce(ops: seq<Op>, hash: Bytes -> string, k1: string, k2: string)
    requires GoodHash(hash) && forall i :: 0 <= i < |ops| ==> Truthful(ops[i], hash)
    requires var a := SplitRun(Archive([], 0, map[], 0), ops, hash).0; k1 in a.blobs && k2 in a.blobs && k1 != k2
    ensures var a := SplitRun(Archive([], 0, map[], 0), ops, hash).0; a.blobs[k1] != a.blobs[k2]
  {
    ArchiveRefinesInline(ops, hash);
  }

  /** No file of this name is indexed for the task yet. */
  ghost predicate NewFile(a: Archive, row: ArchiveRow)
  {
    row.filename != "" && forall i :: 0 <= i < |a.rows| ==> a.rows[i].task == row.task ==>
      a.rows[i].filename != row.filename
  }

  /** A file that is new for its task is listed from then on, with its own bytes. */
  lemma AddedIsListed(a: Archive, row: ArchiveRow, hash: Bytes -> string)
    requires GoodHash(hash) && ArchiveOK(a, hash) && Truthful(Add(row), hash) && a.failing == 0 && NewFile(a, row)
    ensures var a' := AddArchive(a, row, hash).0;
      && row.(id := a.next + 1, sha256 := hash(row.bytes)) in ArchiveByTask(a', row.task)
      && a'.rows == a.rows + [row.(id := a.next + 1, sha256 := hash(row.bytes), bytes := [])]
  {
    var full := row.(sha256 := hash(row.bytes));
    assert FirstIndex(a.rows, (r: ArchiveRow) => SameFile(r, full)) == |a.rows|;
    var a' := AddArchive(a, row, hash).0;
    var x := full.(id := a.next + 1, bytes := []);
    assert a'.rows == a.rows + [x] && a'.rows[..|a.rows|] == a.rows;
    assert a'.blobs[full.sha256] == row.bytes;
    assert Reconstitute(a', x) == full.(id := a.next + 1);
    LastIsListed(a', row.task);
  }

  lemma LastIsListed(a: Archive, task: int)
    requires a.rows != [] && a.rows[|a.rows| - 1].task == task
    ensures Reconstitute(a, a.rows[|a.rows| - 1]) in ArchiveByTask(a, task)
  {
    var q := ArchiveByTask(a, task);
    assert q[|q| - 1] == Reconstitute(a, a.rows[|a.rows| - 1]);
  }

  ghost predicate Ascending(rows: seq<ArchiveRow>)
  {
    forall i, j :: 0 <= i < j < |rows| ==> rows[i].id < rows[j].id
  }

  /** A per-task listing is already in id order, so sorting it by id changes nothing. */
  lemma {:induction false} ListingAscends(a: Archive, rows: seq<ArchiveRow>, task: int)
    requires Ascending(rows)
    ensures var q := ByTaskFrom(a, rows, task);
      Ascending(q) && forall i :: 0 <= i < |q| ==> exists j :: 0 <= j < |rows| && q[i].id == rows[j].id
  {
    if rows != [] {
      ListingAscends(a, rows[..|rows| - 1], task);
      var q := ByTaskFrom(a, rows[..|rows| - 1], task);
      forall i | 0 <= i < |q| ensures q[i].id < rows[|rows| - 1].id {
        var j :| 0 <= j < |rows| - 1 && q[i].id == rows[..|rows| - 1][j].id;
        assert rows[..|rows| - 1][j] == rows[j];
      }
      forall i | 0 <= i < |q| ensures exists j :: 0 <= j < |rows| && q[i].id == rows[j].id {
        var j :| 0 <= j < |rows| - 1 && q[i].id == rows[..|rows| - 1][j].id;
        assert rows[..|rows| - 1][j] == rows[j];
      }
    }
  }
}
