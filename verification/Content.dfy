/**
 The content store (store/content_memory.go): the outbox table, and the content-addressed archive
 that keeps an index of files per task and each distinct byte string once.
 */
module Content {
  import opened Prelude

  newtype byte = x: int | 0 <= x < 256
  type Bytes = seq<byte>

  // ---------------------------------------------------------------- outbox

  datatype Part = Part(filename: string, bytes: Bytes)

  /** An assembled reply. Encoding to MIME bytes is the identity here. */
  datatype Mail = Mail(from: string, messageID: string, inReplyTo: string, references: seq<string>, body: string,
    attachments: seq<Part>)

  datatype OutboxRow = OutboxRow(id: int, task: int, messageID: string, raw: Mail, sent: bool)

  datatype Outbox = Outbox(rows: seq<OutboxRow>, next: int)

  /** Queueing is idempotent on a non-empty Message-ID: a known one returns its row's id. */
  function AddOutbox(o: Outbox, row: OutboxRow): (Outbox, int)
  {
    var i := FirstIndex(o.rows, (r: OutboxRow) => row.messageID != "" && r.messageID == row.messageID);
    if i < |o.rows| then (o, o.rows[i].id)
    else (Outbox(o.rows + [row.(id := o.next + 1)], o.next + 1), o.next + 1)
  }

  function FindOutbox(o: Outbox, id: int): Option<OutboxRow>
  {
    var i := FirstIndex(o.rows, (r: OutboxRow) => r.id == id);
    if i < |o.rows| then Some(o.rows[i]) else None
  }

  function MarkOutboxSent(o: Outbox, id: int): Option<Outbox>
  {
    var i := FirstIndex(o.rows, (r: OutboxRow) => r.id == id);
    if i < |o.rows| then Some(o.(rows := o.rows[i := o.rows[i].(sent := true)])) else None
  }

  /** Ids count up from 1, so they are unique; Message-IDs are unique too. */
  ghost predicate OutboxOK(o: Outbox)
  {
    && o.next == |o.rows|
    && (forall i :: 0 <= i < |o.rows| ==> o.rows[i].id == i + 1 && o.rows[i].messageID != "")
    && (forall i :: 0 <= i < |o.rows| ==> o.rows[i].raw.messageID == o.rows[i].messageID)
    && (forall i, j :: 0 <= i < j < |o.rows| ==> o.rows[i].messageID != o.rows[j].messageID)
  }

  /** Row `id` carries Message-ID `mid` and mail `raw`. */
  ghost predicate HasRow(o: Outbox, id: int, mid: string, raw: Mail)
  {
    exists i :: 0 <= i < |o.rows| && o.rows[i].id == id && o.rows[i].messageID == mid && o.rows[i].raw == raw
  }

  /** Queueing a well-formed row keeps the table well-formed, keeps every row, and yields a row for its Message-ID. */
  lemma AddOutboxKeeps(o: Outbox, row: OutboxRow)
    requires OutboxOK(o) && row.messageID != "" && row.raw.messageID == row.messageID
    ensures var (o', id) := AddOutbox(o, row);
      && OutboxOK(o') && o.rows <= o'.rows
      && (exists raw :: HasRow(o', id, row.messageID, raw))
  {
    var (o', id) := AddOutbox(o, row);
    var i := FirstIndex(o.rows, (r: OutboxRow) => row.messageID != "" && r.messageID == row.messageID);
    assert o'.rows[i].id == id && o'.rows[i].messageID == row.messageID;
    assert HasRow(o', id, row.messageID, o'.rows[i].raw);
  }

  lemma FindOutboxIs(o: Outbox, id: int, mid: string, raw: Mail)
    requires OutboxOK(o) && HasRow(o, id, mid, raw)
    ensures FindOutbox(o, id).Some? && FindOutbox(o, id).value.messageID == mid && FindOutbox(o, id).value.raw == raw
  {
  }

  /** Marking makes the row of that id sent and changes nothing else of the table; it fails without such a row. */
  lemma MarkedIsSent(o: Outbox, id: int)
    requires OutboxOK(o)
    ensures MarkOutboxSent(o, id).Some? <==> 1 <= id <= |o.rows|
    ensures MarkOutboxSent(o, id).Some? ==> var rows := MarkOutboxSent(o, id).value.rows;
      && MarkOutboxSent(o, id).value.next == o.next && |rows| == |o.rows|
      && rows[id - 1] == o.rows[id - 1].(sent := true)
      && forall i :: 0 <= i < |rows| && i != id - 1 ==> rows[i] == o.rows[i]
  {
    if 1 <= id <= |o.rows| {
      assert o.rows[id - 1].id == id;
    }
  }

  // ---------------------------------------------------------------- archive

  /** A file to archive. An empty `sha256` is computed by the store. */
  datatype ArchiveRow = ArchiveRow(id: int, task: int, run: int, kind: string, filename: string, contentType: string,
    sha256: string, bytes: Bytes)

  /** The index of archived files, without bytes, and the deduplicated bytes by hash. */
  datatype Archive = Archive(rows: seq<ArchiveRow>, next: int, blobs: map<string, Bytes>, failing: nat)

  /** Only a transcript's name starts this way; everything else lives in a box. */
  predicate NamedTranscript(filename: string)
  {
    |filename| >= 11 && filename[..11] == "transcript-"
  }

  predicate SameFile(r: ArchiveRow, row: ArchiveRow)
  {
    row.filename != "" && r.task == row.task && r.filename == row.filename
  }

  /** None is the scripted failure; otherwise the id of the row that now stands for the file. */
  function AddArchive(a: Archive, row0: ArchiveRow, hash: Bytes -> string): (Archive, Option<int>)
  {
    if a.failing > 0 then (a.(failing := a.failing - 1), None)
    else
      var row := if row0.sha256 == "" then row0.(sha256 := hash(row0.bytes)) else row0;
      var blobs := if row.sha256 in a.blobs then a.blobs else a.blobs[row.sha256 := row.bytes];
      var i := FirstIndex(a.rows, (r: ArchiveRow) => SameFile(r, row));
      if i < |a.rows| then (a.(blobs := blobs), Some(a.rows[i].id))
      else (Archive(a.rows + [row.(id := a.next + 1, bytes := [])], a.next + 1, blobs, 0), Some(a.next + 1))
  }

  /** A row as readers see it: the bytes put back from the blob store, none when absent. */
  function Reconstitute(a: Archive, r: ArchiveRow): ArchiveRow
  {
    r.(bytes := if r.sha256 in a.blobs then a.blobs[r.sha256] else [])
  }

  function ArchiveByTask(a: Archive, task: int): seq<ArchiveRow>
  {
    ByTaskFrom(a, a.rows, task)
  }

  function ByTaskFrom(a: Archive, rows: seq<ArchiveRow>, task: int): seq<ArchiveRow>
  {
    if rows == [] then []
    else
      var r := rows[|rows| - 1];
      ByTaskFrom(a, rows[..|rows| - 1], task) + if r.task == task then [Reconstitute(a, r)] else []
  }

  function ArchiveByID(a: Archive, id: int): Option<ArchiveRow>
  {
    var i := FirstIndex(a.rows, (r: ArchiveRow) => r.id == id);
    if i < |a.rows| then Some(Reconstitute(a, a.rows[i])) else None
  }
}
