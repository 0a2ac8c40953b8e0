/** The in-memory content store (store/content_memory.go): tables changed in place, proved against Content. */
module ContentStore {
  import opened Prelude
  import opened Content

  class MemoryContent {
    var outbox: seq<OutboxRow>
    var nextOutbox: int
    var archive: seq<ArchiveRow>
    var nextArch: int
    var blobs: map<string, Bytes>
    var failAddArchive: nat
    const hash: Bytes -> string

    ghost function OutboxValue(): Outbox
      reads this
    {
      Outbox(outbox, nextOutbox)
    }

    ghost function ArchiveValue(): Archive
      reads this
    {
      Archive(archive, nextArch, blobs, failAddArchive)
    }

    constructor (hash: Bytes -> string)
      ensures OutboxValue() == Outbox([], 0) && ArchiveValue() == Archive([], 0, map[], 0)
      ensures this.hash == hash
    {
      outbox, nextOutbox := [], 0;
      archive, nextArch, blobs, failAddArchive := [], 0, map[], 0;
      this.hash := hash;
    }

    method AddOutbox(row: OutboxRow) returns (id: int)
      modifies this
      ensures (OutboxValue(), id) == Content.AddOutbox(old(OutboxValue()), row)
      ensures ArchiveValue() == old(ArchiveValue())
    {
      ghost var f := (r: OutboxRow) => row.messageID != "" && r.messageID == row.messageID;
      if row.messageID != "" {
        var i := 0;
        while i < |outbox|
          invariant 0 <= i <= |outbox|
          invariant forall j :: 0 <= j < i ==> outbox[j].messageID != row.messageID
        {
          if outbox[i].messageID == row.messageID {
            assert FirstIndex(outbox, f) == i;
            return outbox[i].id;
          }
          i := i + 1;
        }
      }
      assert FirstIndex(outbox, f) == |outbox|;
      nextOutbox := nextOutbox + 1;
      outbox := outbox + [row.(id := nextOutbox)];
      return nextOutbox;
    }

    method FindRow(id: int) returns (row: Option<OutboxRow>)
      ensures row == FindOutbox(OutboxValue(), id)
    {
      var i := 0;
      while i < |outbox|
        invariant 0 <= i <= |outbox|
        invariant forall j :: 0 <= j < i ==> outbox[j].id != id
      {
        if outbox[i].id == id {
          assert FirstIndex(outbox, (r: OutboxRow) => r.id == id) == i;
          return Some(outbox[i]);
        }
        i := i + 1;
      }
      assert FirstIndex(outbox, (r: OutboxRow) => r.id == id) == |outbox|;
      return None;
    }

    method MarkOutboxSent(id: int) returns (ok: bool)
      modifies this
      ensures ok == Content.MarkOutboxSent(old(OutboxValue()), id).Some?
      ensures OutboxValue() == if ok then Content.MarkOutboxSent(old(OutboxValue()), id).value else old(OutboxValue())
      ensures ArchiveValue() == old(ArchiveValue())
    {
      var i := 0;
      while i < |outbox|
        invariant 0 <= i <= |outbox|
        invariant forall j :: 0 <= j < i ==> outbox[j].id != id
      {
        if outbox[i].id == id {
          assert FirstIndex(outbox, (r: OutboxRow) => r.id == id) == i;
          outbox := outbox[i := outbox[i].(sent := true)];
          return true;
        }
        i := i + 1;
      }
      assert FirstIndex(outbox, (r: OutboxRow) => r.id == id) == |outbox|;
      return false;
    }

    method AddArchive(row0: ArchiveRow) returns (id: Option<int>)
      modifies this
      ensures (ArchiveValue(), id) == Content.AddArchive(old(ArchiveValue()), row0, hash)
      ensures OutboxValue() == old(OutboxValue())
    {
      if failAddArchive > 0 {
        failAddArchive := failAddArchive - 1;
        return None;
      }
      var row := row0;
      if row.sha256 == "" {
        row := row.(sha256 := hash(row.bytes));
      }
      if row.sha256 !in blobs {
        blobs := blobs[row.sha256 := row.bytes];
      }
      ghost var f := (r: ArchiveRow) => SameFile(r, row);
      if row.filename != "" {
        var i := 0;
        while i < |archive|
          invariant 0 <= i <= |archive|
          invariant forall j :: 0 <= j < i ==> !SameFile(archive[j], row)
        {
          if archive[i].task == row.task && archive[i].filename == row.filename {
            assert FirstIndex(archive, f) == i;
            return Some(archive[i].id);
          }
          i := i + 1;
        }
      }
      assert FirstIndex(archive, f) == |archive|;
      nextArch := nextArch + 1;
      archive := archive + [row.(id := nextArch, bytes := [])];
      return Some(nextArch);
    }

    method ArchiveByTask(task: int) returns (rows: seq<ArchiveRow>)
      ensures rows == Content.ArchiveByTask(ArchiveValue(), task)
    {
      rows := [];
      var i := 0;
      while i < |archive|
        invariant 0 <= i <= |archive|
        invariant rows == ByTaskFrom(ArchiveValue(), archive[..i], task)
      {
        assert archive[..i + 1][..i] == archive[..i];
        var r := archive[i];
        if r.task == task {
          r := r.(bytes := if r.sha256 in blobs then blobs[r.sha256] else []);
          rows := rows + [r];
        }
        i := i + 1;
      }
      assert archive[..|archive|] == archive;
    }
  }
}
