/**
 Archive, then delete (tasks/command_archive_task.go): the effect over a workspace that agents may
 go on writing while it works, and exactly what is safe when it deletes.
 */
module ArchiveTask {
  import opened Prelude
  import opened Content
  import opened ContentStore
  import opened ArchiveProofs
  import opened Workspace

  /** The bytes are in the blob store, under their hash. */
  ghost predicate Stored(blobs: map<string, Bytes>, b: Bytes, hash: Bytes -> string)
  {
    hash(b) in blobs && blobs[hash(b)] == b
  }

  lemma NamedTranscriptIs(t: Tree, part: Part)
    requires Holds(t, part)
    ensures NamedTranscript(part.filename) <==> IsTranscript(t.transcripts, part)
  {
    assert NamedTranscript(part.filename) ==> part.filename[..11][0] == part.filename[0] == 't';
    if IsTranscript(t.transcripts, part) {
      var run :| run in t.transcripts && part == Part(TranscriptName(run), t.transcripts[run]);
      assert TranscriptName(run)[..11] == "transcript-";
    } else {
      assert part.filename[0] != 't';
    }
  }

  /** Adding a file that does not lie about its hash: its bytes are stored, nothing else is touched. */
  lemma AddStores(a: Archive, row: ArchiveRow, hash: Bytes -> string)
    requires GoodHash(hash) && ArchiveOK(a, hash) && Truthful(Add(row), hash)
    ensures var (a', id) := AddArchive(a, row, hash);
      && ArchiveOK(a', hash)
      && a'.blobs == if id.None? || hash(row.bytes) in a.blobs then a.blobs else a.blobs[hash(row.bytes) := row.bytes]
  {
  }

  /** A listed file has this hash. */
  ghost predicate Seen(done: seq<Part>, k: string, hash: Bytes -> string)
  {
    exists i :: 0 <= i < |done| && hash(done[i].bytes) == k
  }

  /** A listed file that is not a transcript has this hash. */
  ghost predicate SeenFile(done: seq<Part>, k: string, hash: Bytes -> string)
  {
    exists i :: 0 <= i < |done| && !NamedTranscript(done[i].filename) && hash(done[i].bytes) == k
  }

  lemma SeenGrows(done: seq<Part>, part: Part, k: string, hash: Bytes -> string)
    ensures Seen(done + [part], k, hash) <==> Seen(done, k, hash) || hash(part.bytes) == k
    ensures SeenFile(done + [part], k, hash) <==>
      SeenFile(done, k, hash) || (!NamedTranscript(part.filename) && hash(part.bytes) == k)
  {
    var more := done + [part];
    assert more[|done|] == part;
    if Seen(done, k, hash) {
      var i :| 0 <= i < |done| && hash(done[i].bytes) == k;
      assert more[i] == done[i];
    }
    if SeenFile(done, k, hash) {
      var i :| 0 <= i < |done| && !NamedTranscript(done[i].filename) && hash(done[i].bytes) == k;
      assert more[i] == done[i];
    }
  }

  /** What the archiving loop has done: the files listed so far, and the hashes it takes as covered. */
  ghost predicate Covers(covered: set<string>, start: Archive, now: Archive, task: int, done: seq<Part>,
      hash: Bytes -> string)
  {
    && (forall k :: k in start.blobs ==> k in now.blobs && now.blobs[k] == start.blobs[k])
    && (forall k :: k in now.blobs && k !in start.blobs ==> SeenFile(done, k, hash))
    && (forall k :: SeenFile(done, k, hash) ==> k in now.blobs)
    && (forall k :: k in covered <==> IndexedFor(start.rows, task, k) || Seen(done, k, hash))
  }

  /** Some row of the task's index carries this hash. */
  ghost predicate IndexedFor(rows: seq<ArchiveRow>, task: int, k: string)
  {
    exists i :: 0 <= i < |rows| && rows[i].task == task && rows[i].sha256 == k
  }

  lemma CoverOneMore(covered: set<string>, start: Archive, now: Archive, now': Archive, task: int, done: seq<Part>,
      part: Part, hash: Bytes -> string)
    requires Covers(covered, start, now, task, done, hash)
    requires now'.blobs == if NamedTranscript(part.filename) || hash(part.bytes) in now.blobs then now.blobs
      else now.blobs[hash(part.bytes) := part.bytes]
    ensures Covers(covered + {hash(part.bytes)}, start, now', task, done + [part], hash)
  {
    forall k
      ensures Seen(done + [part], k, hash) <==> Seen(done, k, hash) || hash(part.bytes) == k
      ensures SeenFile(done + [part], k, hash) <==>
        SeenFile(done, k, hash) || (!NamedTranscript(part.filename) && hash(part.bytes) == k)
    {
      SeenGrows(done, part, k, hash);
    }
  }

  // ---------------------------------------------------------------- the index

  /** The task's index has a row of this name. */
  ghost predicate Named(rows: seq<ArchiveRow>, task: int, filename: string)
  {
    exists i :: 0 <= i < |rows| && rows[i].task == task && rows[i].filename == filename
  }

  /** The row a file gets: under its task and name, with its hash, an artifact exactly if it came from the out/ box. */
  ghost predicate IsRowOf(row: ArchiveRow, task: int, f: Part, hash: Bytes -> string)
  {
    && row.task == task && row.run == 0 && row.filename == f.filename
    && row.sha256 == hash(f.bytes) && row.bytes == []
    && row.kind == if "out/" <= f.filename then "artifact" else "attachment"
  }

  /** The row is that of some listed file that is not a transcript. */
  ghost predicate RowOfListed(row: ArchiveRow, task: int, done: seq<Part>, hash: Bytes -> string)
  {
    exists f :: f in done && !NamedTranscript(f.filename) && IsRowOf(row, task, f, hash)
  }

  /** Row `i` is the listed file's, and the first of its name. */
  ghost predicate NewRow(rows: seq<ArchiveRow>, i: nat, task: int, done: seq<Part>, hash: Bytes -> string)
    requires i < |rows|
  {
    RowOfListed(rows[i], task, done, hash) && (rows[i].filename != "" ==> !Named(rows[..i], task, rows[i].filename))
  }

  /** What the archiving loop has done to the index: rows for the files listed so far, each name once, nothing else. */
  ghost predicate Filed(was: seq<ArchiveRow>, rows: seq<ArchiveRow>, task: int, done: seq<Part>, hash: Bytes -> string)
  {
    && was <= rows
    && (forall i :: |was| <= i < |rows| ==> NewRow(rows, i, task, done, hash))
    && (forall f :: f in done && !NamedTranscript(f.filename) ==> Named(rows, task, f.filename))
  }

  /** One file more: nothing for a transcript or a name already there, otherwise its row at the end. */
  ghost predicate FiledOne(was: seq<ArchiveRow>, rows: seq<ArchiveRow>, task: int, f: Part, hash: Bytes -> string)
  {
    if NamedTranscript(f.filename) || (f.filename != "" && Named(was, task, f.filename)) then rows == was
    else rows != [] && rows[..|rows| - 1] == was && IsRowOf(rows[|rows| - 1], task, f, hash)
  }

  lemma AddFiles(a: Archive, row: ArchiveRow, hash: Bytes -> string)
    requires a.failing == 0 && row.sha256 != ""
    ensures var rows := AddArchive(a, row, hash).0.rows;
      rows == if row.filename != "" && Named(a.rows, row.task, row.filename) then a.rows
        else a.rows + [row.(id := a.next + 1, bytes := [])]
  {
    var i := FirstIndex(a.rows, (r: ArchiveRow) => SameFile(r, row));
    if row.filename != "" && Named(a.rows, row.task, row.filename) {
      var j :| 0 <= j < |a.rows| && a.rows[j].task == row.task && a.rows[j].filename == row.filename;
      assert SameFile(a.rows[j], row);
    } else {
      assert i < |a.rows| ==> SameFile(a.rows[i], row);
    }
  }

  lemma NamedGrows(rows: seq<ArchiveRow>, more: seq<ArchiveRow>, task: int, filename: string)
    requires rows <= more && Named(rows, task, filename)
    ensures Named(more, task, filename)
  {
    var i :| 0 <= i < |rows| && rows[i].task == task && rows[i].filename == filename;
    assert more[i] == rows[i];
  }

  lemma FileOneMore(was: seq<ArchiveRow>, rows: seq<ArchiveRow>, rows': seq<ArchiveRow>, task: int, done: seq<Part>,
      f: Part, hash: Bytes -> string)
    requires Filed(was, rows, task, done, hash) && FiledOne(rows, rows', task, f, hash)
    ensures Filed(was, rows', task, done + [f], hash)
  {
    var more := done + [f];
    assert more[|done|] == f;
    if rows' != rows {
      assert rows' == rows + [rows'[|rows|]];
    }
    forall i | |was| <= i < |rows'| ensures NewRow(rows', i, task, more, hash) {
      assert i <= |rows| && rows'[..i] == rows[..i];
      if i < |rows| {
        assert NewRow(rows, i, task, done, hash);
      }
    }
    forall g | g in more && !NamedTranscript(g.filename) ensures Named(rows', task, g.filename) {
      if g in done {
        NamedGrows(rows, rows', task, g.filename);
      }
    }
  }

  lemma NothingFiled(was: seq<ArchiveRow>, rows: seq<ArchiveRow>, task: int, hash: Bytes -> string)
    requires Filed(was, rows, task, [], hash)
    ensures rows == was
  {
    SomethingFiled(was, rows, task, [], hash);
  }

  lemma SomethingFiled(was: seq<ArchiveRow>, rows: seq<ArchiveRow>, task: int, done: seq<Part>, hash: Bytes -> string)
    requires Filed(was, rows, task, done, hash)
    ensures rows == was || done != []
  {
    if |was| < |rows| { assert NewRow(rows, |was|, task, done, hash); }
  }

  /** No other listed file has this one's name. */
  ghost predicate OnlyOne(files: seq<Part>, f: Part)
  {
    forall g :: g in files && g.filename == f.filename ==> g == f
  }

  /** Readers of the task's listing find this file, with its own bytes. */
  ghost predicate ReadsBack(a: Archive, task: int, f: Part)
  {
    exists i :: 0 <= i < |a.rows| && a.rows[i].task == task && a.rows[i].filename == f.filename &&
      Reconstitute(a, a.rows[i]).bytes == f.bytes
  }

  /** The index already had a row of the file's name, with these bytes. */
  ghost predicate HadSame(rows: seq<ArchiveRow>, task: int, f: Part, hash: Bytes -> string)
  {
    exists i :: 0 <= i < |rows| && rows[i].task == task && rows[i].filename == f.filename &&
      rows[i].sha256 == hash(f.bytes)
  }

  /**
   A file that is not a transcript can be read back from the task's listing exactly if its name was not
   in the index before, or was there with the same bytes: the first row of a name stays what it is.
   */
  lemma ReadsBackIff(start: Archive, now: Archive, task: int, files: seq<Part>, f: Part, hash: Bytes -> string)
    requires GoodHash(hash) && ArchiveOK(now, hash) && Filed(start.rows, now.rows, task, files, hash)
    requires OnlyOne(files, f) && f in files && f.filename != "" && !NamedTranscript(f.filename)
    ensures ReadsBack(now, task, f) <==> !Named(start.rows, task, f.filename) || HadSame(start.rows, task, f, hash)
  {
    if ReadsBack(now, task, f) {
      var i :| 0 <= i < |now.rows| && now.rows[i].task == task && now.rows[i].filename == f.filename &&
        Reconstitute(now, now.rows[i]).bytes == f.bytes;
      if i < |start.rows| {
        assert start.rows[i] == now.rows[i] && now.rows[i].sha256 == hash(f.bytes);
      } else {
        assert NewRow(now.rows, i, task, files, hash);
        assert start.rows <= now.rows[..i];
        if Named(start.rows, task, f.filename) { NamedGrows(start.rows, now.rows[..i], task, f.filename); }
      }
    }
    if HadSame(start.rows, task, f, hash) {
      var i :| 0 <= i < |start.rows| && start.rows[i].task == task && start.rows[i].filename == f.filename &&
        start.rows[i].sha256 == hash(f.bytes);
      assert now.rows[i] == start.rows[i];
      BytesOf(now, i, f, hash);
    } else if !Named(start.rows, task, f.filename) {
      var i :| 0 <= i < |now.rows| && now.rows[i].task == task && now.rows[i].filename == f.filename;
      assert now.rows[..|start.rows|] == start.rows;
      assert NewRow(now.rows, i, task, files, hash);
      BytesOf(now, i, f, hash);
    }
  }

  lemma BytesOf(a: Archive, i: nat, f: Part, hash: Bytes -> string)
    requires GoodHash(hash) && ArchiveOK(a, hash) && i < |a.rows| && a.rows[i].sha256 == hash(f.bytes)
    ensures Reconstitute(a, a.rows[i]).bytes == f.bytes
  {
  }

  method HashesOf(rows: seq<ArchiveRow>) returns (hashes: set<string>)
    ensures forall k :: k in hashes <==> HasHash(rows, k)
  {
    hashes := {};
    for i := 0 to |rows|
      invariant forall k :: k in hashes <==> exists j :: 0 <= j < i && rows[j].sha256 == k
    {
      hashes := hashes + {rows[i].sha256};
    }
  }

  /** One listed file: a transcript is only noted as covered, any other file is archived. */
  method ArchiveFile(content: MemoryContent, task: int, f: Part) returns (ok: bool, sha: string)
    requires GoodHash(content.hash) && ArchiveOK(content.ArchiveValue(), content.hash)
    modifies content
    ensures ArchiveOK(content.ArchiveValue(), content.hash) && content.OutboxValue() == old(content.OutboxValue())
    ensures sha == content.hash(f.bytes) && ok == (NamedTranscript(f.filename) || old(content.failAddArchive) == 0)
    ensures ok ==> content.failAddArchive == old(content.failAddArchive)
    ensures content.blobs == if !ok || NamedTranscript(f.filename) || sha in old(content.blobs) then old(content.blobs)
      else old(content.blobs)[sha := f.bytes]
    ensures !ok ==> content.archive == old(content.archive)
    ensures ok ==> FiledOne(old(content.archive), content.archive, task, f, content.hash)
  {
    sha := content.hash(f.bytes);
    if NamedTranscript(f.filename) {
      return true, sha;
    }
    var kind := if |f.filename| >= 4 && f.filename[..4] == "out/" then "artifact" else "attachment";
    var row := ArchiveRow(0, task, 0, kind, f.filename, "", sha, f.bytes);
    AddStores(content.ArchiveValue(), row, content.hash);
    if content.failAddArchive == 0 { AddFiles(content.ArchiveValue(), row, content.hash); }
    var id := content.AddArchive(row);
    ok := id.Some?;
  }

  /** A file of the task's tree has this hash. */
  ghost predicate HeldHash(trees: map<int, Tree>, task: int, k: string, hash: Bytes -> string)
  {
    task in trees && exists p :: Holds(trees[task], p) && hash(p.bytes) == k
  }

  lemma HashesHeld(trees: map<int, Tree>, task: int, files: seq<Part>, hash: Bytes -> string)
    requires task in trees ==> forall p :: p in files <==> Holds(trees[task], p)
    requires task !in trees ==> files == []
    ensures forall k :: Seen(files, k, hash) <==> HeldHash(trees, task, k, hash)
  {
    forall k ensures Seen(files, k, hash) <==> HeldHash(trees, task, k, hash) {
      if Seen(files, k, hash) {
        var i :| 0 <= i < |files| && hash(files[i].bytes) == k;
        assert files[i] in files;
      }
      if HeldHash(trees, task, k, hash) {
        var p :| Holds(trees[task], p) && hash(p.bytes) == k;
        var i :| 0 <= i < |files| && files[i] == p;
      }
    }
  }

  lemma NothingDone(covered: set<string>, start: Archive, task: int, hash: Bytes -> string)
    requires forall k :: k in covered <==> HasHash(Content.ArchiveByTask(start, task), k)
    ensures Covers(covered, start, start, task, [], hash)
  {
    ListingHashes(start, start.rows, task);
  }

  /** Go through the listing, stopping at the first archive write that fails. */
  method ArchiveAll(content: MemoryContent, task: int, parts: seq<Part>, known: set<string>, ghost start: Archive)
      returns (ok: bool, covered: set<string>)
    requires
      && GoodHash(content.hash)
      && ArchiveOK(content.ArchiveValue(), content.hash)
      && start == content.ArchiveValue()
    requires Covers(known, start, start, task, [], content.hash)
    modifies content
    ensures ArchiveOK(content.ArchiveValue(), content.hash) && content.OutboxValue() == old(content.OutboxValue())
    ensures ok ==> Covers(covered, start, content.ArchiveValue(), task, parts, content.hash)
    ensures ok ==> Filed(start.rows, content.archive, task, parts, content.hash)
    ensures ok ==> content.failAddArchive == start.failing
    ensures !ok ==> start.failing > 0
  {
    covered := known;
    for i := 0 to |parts|
      invariant ArchiveOK(content.ArchiveValue(), content.hash) && content.OutboxValue() == old(content.OutboxValue())
      invariant content.failAddArchive == start.failing
      invariant Covers(covered, start, content.ArchiveValue(), task, parts[..i], content.hash)
      invariant Filed(start.rows, content.archive, task, parts[..i], content.hash)
    {
      assert parts[..i + 1] == parts[..i] + [parts[i]];
      ghost var now := content.ArchiveValue();
      var stored, sha := ArchiveFile(content, task, parts[i]);
      if !stored {
        return false, covered;
      }
      CoverOneMore(covered, start, now, content.ArchiveValue(), task, parts[..i], parts[i], content.hash);
      FileOneMore(start.rows, now.rows, content.archive, task, parts[..i], parts[i], content.hash);
      covered := covered + {sha};
    }
    assert parts[..|parts|] == parts;
    ok := true;
  }

  /** The first half of the effect: list, archive, collect the hashes that count as covered. */
  method ArchiveListed(content: MemoryContent, work: Memory, task: int)
      returns (ok: bool, covered: set<string>, ghost files: seq<Part>)
    requires GoodHash(content.hash) && ArchiveOK(content.ArchiveValue(), content.hash)
    modifies content
    ensures ArchiveOK(content.ArchiveValue(), content.hash) && content.OutboxValue() == old(content.OutboxValue())
    ensures task in work.trees ==> forall p :: p in files <==> Holds(work.trees[task], p)
    ensures task !in work.trees ==> files == []
    ensures ok ==> Covers(covered, old(content.ArchiveValue()), content.ArchiveValue(), task, files, content.hash)
    ensures ok ==> Filed(old(content.archive), content.archive, task, files, content.hash)
    ensures ok ==> content.failAddArchive == old(content.failAddArchive)
    ensures !ok ==> old(content.failAddArchive) > 0
  {
    var existing := content.ArchiveByTask(task);
    var known := HashesOf(existing);
    var listed := work.Files(task);
    var parts := if listed.Some? then listed.value else [];
    files := parts;
    NothingDone(known, content.ArchiveValue(), task, content.hash);
    ok, covered := ArchiveAll(content, task, parts, known, content.ArchiveValue());
  }

  ghost predicate HasHash(rows: seq<ArchiveRow>, k: string)
  {
    exists j :: 0 <= j < |rows| && rows[j].sha256 == k
  }

  /** The listing of a task carries the hashes of its index rows. */
  lemma {:induction false} ListingHashes(a: Archive, rows: seq<ArchiveRow>, task: int)
    ensures forall k :: HasHash(ByTaskFrom(a, rows, task), k) <==> IndexedFor(rows, task, k)
  {
    if rows != [] {
      var front, last := rows[..|rows| - 1], rows[|rows| - 1];
      ListingHashes(a, front, task);
      var q := ByTaskFrom(a, front, task);
      assert rows == front + [last];
      assert ByTaskFrom(a, rows, task) == if last.task == task then q + [Reconstitute(a, last)] else q;
      forall k
        ensures IndexedFor(rows, task, k) <==>
          IndexedFor(front, task, k) || (last.task == task && last.sha256 == k)
      {
        IndexGrows(front, last, task, k);
      }
      forall k ensures HasHash(q + [Reconstitute(a, last)], k) <==> HasHash(q, k) || last.sha256 == k {
        ListGrows(q, Reconstitute(a, last), k);
      }
    }
  }

  lemma IndexGrows(rows: seq<ArchiveRow>, row: ArchiveRow, task: int, k: string)
    ensures IndexedFor(rows + [row], task, k) <==> IndexedFor(rows, task, k) || (row.task == task && row.sha256 == k)
  {
    var more := rows + [row];
    assert more[|rows|] == row;
    if IndexedFor(rows, task, k) {
      var i :| 0 <= i < |rows| && rows[i].task == task && rows[i].sha256 == k;
      assert more[i] == rows[i];
    }
  }

  lemma ListGrows(rows: seq<ArchiveRow>, row: ArchiveRow, k: string)
    ensures HasHash(rows + [row], k) <==> HasHash(rows, k) || row.sha256 == k
  {
    var more := rows + [row];
    assert more[|rows|] == row;
    if HasHash(rows, k) {
      var i :| 0 <= i < |rows| && rows[i].sha256 == k;
      assert more[i] == rows[i];
    }
  }

  // ---------------------------------------------------------------- what deletion destroys

  /** These bytes are the transcript of some run in the tree. */
  ghost predicate TranscriptBytes(trees: map<int, Tree>, task: int, b: Bytes)
  {
    task in trees && exists run :: run in trees[task].transcripts && trees[task].transcripts[run] == b
  }

  lemma NamesAreOnce(t: Tree, f: Part, g: Part)
    requires Holds(t, f) && Holds(t, g) && f.filename == g.filename && !NamedTranscript(f.filename)
    ensures f == g
  {
    NamedTranscriptIs(t, f);
    NamedTranscriptIs(t, g);
    InOneBox(t, f);
    InOneBox(t, g);
  }

  /** A name tells its box, and the rest of it the file. */
  lemma InOneBox(t: Tree, f: Part)
    requires Holds(t, f) && !IsTranscript(t.transcripts, f)
    ensures if "in/" <= f.filename then f.filename[3..] in t.inBox && t.inBox[f.filename[3..]] == f.bytes
      else if "out/" <= f.filename then f.filename[4..] in t.out && t.out[f.filename[4..]] == f.bytes
      else |f.filename| >= 15 && f.filename[15..] in t.skills && t.skills[f.filename[15..]] == f.bytes
  {
    if n :| n in t.inBox && f == Part("in/" + n, t.inBox[n]) {
      assert f.filename[3..] == n;
    } else if n :| n in t.out && f == Part("out/" + n, t.out[n]) {
      assert f.filename[4..] == n && f.filename[0] == 'o';
    } else {
      var n :| n in t.skills && f == Part(".claude/skills/" + n, t.skills[n]);
      assert f.filename[15..] == n && f.filename[0] == '.';
    }
  }

  /**
   The index after archiving a tree: the earlier rows first, then only rows of the tree's files, and each
   file but transcripts can be read back exactly if its name was new or stood for the same bytes already.
   */
  ghost predicate FilesOf(start: Archive, now: Archive, task: int, t: Tree, hash: Bytes -> string)
  {
    && start.rows <= now.rows
    && (forall i :: |start.rows| <= i < |now.rows| ==> RowOfTree(now.rows[i], task, t, hash))
    && (forall f :: Holds(t, f) && !NamedTranscript(f.filename) ==>
          (ReadsBack(now, task, f) <==> !Named(start.rows, task, f.filename) || HadSame(start.rows, task, f, hash)))
  }

  ghost predicate RowOfTree(row: ArchiveRow, task: int, t: Tree, hash: Bytes -> string)
  {
    exists f :: Holds(t, f) && !NamedTranscript(f.filename) && IsRowOf(row, task, f, hash)
  }

  lemma ListedFiles(start: Archive, now: Archive, task: int, t: Tree, files: seq<Part>, hash: Bytes -> string)
    requires GoodHash(hash) && ArchiveOK(now, hash) && Filed(start.rows, now.rows, task, files, hash)
    requires forall p :: p in files <==> Holds(t, p)
    ensures FilesOf(start, now, task, t, hash)
  {
    forall i | |start.rows| <= i < |now.rows| ensures RowOfTree(now.rows[i], task, t, hash) {
      assert NewRow(now.rows, i, task, files, hash);
    }
    forall f | Holds(t, f) && !NamedTranscript(f.filename)
      ensures ReadsBack(now, task, f) <==> !Named(start.rows, task, f.filename) || HadSame(start.rows, task, f, hash) {
      forall g | g in files && g.filename == f.filename ensures g == f {
        NamesAreOnce(t, f, g);
      }
      ReadsBackIff(start, now, task, files, f, hash);
    }
  }

  /** A covered hash is that of stored bytes, or of a transcript listed at the start. */
  lemma CoveredMeansSafe(covered: set<string>, start: Archive, now: Archive, task: int, trees: map<int, Tree>,
      files: seq<Part>, b: Bytes, hash: Bytes -> string)
    requires GoodHash(hash) && ArchiveOK(start, hash) && ArchiveOK(now, hash)
    requires Covers(covered, start, now, task, files, hash) && hash(b) in covered
    requires task in trees ==> forall p :: p in files <==> Holds(trees[task], p)
    requires task !in trees ==> files == []
    ensures Stored(now.blobs, b, hash) || TranscriptBytes(trees, task, b)
  {
    if IndexedFor(start.rows, task, hash(b)) {
      assert hash(b) in now.blobs;
    } else {
      var i :| 0 <= i < |files| && hash(files[i].bytes) == hash(b);
      assert files[i] in files;
      if NamedTranscript(files[i].filename) {
        NamedTranscriptIs(trees[task], files[i]);
        var run :| run in trees[task].transcripts &&
          files[i] == Part(TranscriptName(run), trees[task].transcripts[run]);
        assert trees[task].transcripts[run] == b;
      }
    }
  }

  /**
   The whole effect. `meanwhile` is what the workspaces have become by the time the deletion looks
   at them. If it deletes, every byte string it destroys is in the blob store or equals a transcript
   that was there when it listed; it deletes exactly when every hash then present is covered.
   */
  method ArchiveThenDelete(content: MemoryContent, work: Memory, task: int, meanwhile: map<int, Tree>)
      returns (ok: bool, ghost covered: set<string>)
    requires GoodHash(content.hash) && ArchiveOK(content.ArchiveValue(), content.hash)
    modifies content, work
    ensures ArchiveOK(content.ArchiveValue(), content.hash)
    ensures ok ==> work.trees == meanwhile - {task}
    ensures !ok ==> work.trees == old(work.trees) || work.trees == meanwhile
    ensures ok && task in meanwhile ==> forall p :: Holds(meanwhile[task], p) ==>
      Stored(content.blobs, p.bytes, content.hash) || TranscriptBytes(old(work.trees), task, p.bytes)
    ensures old(content.failAddArchive) == 0 ==>
      (ok <==> task in meanwhile ==> forall p :: Holds(meanwhile[task], p) ==> content.hash(p.bytes) in covered)
    ensures old(content.failAddArchive) == 0 ==> forall k :: k in covered <==>
      IndexedFor(old(content.archive), task, k) || HeldHash(old(work.trees), task, k, content.hash)
    ensures old(content.failAddArchive) == 0 && meanwhile == old(work.trees) ==> ok
    ensures (ok || old(content.failAddArchive) == 0) && task in old(work.trees) ==>
      FilesOf(old(content.ArchiveValue()), content.ArchiveValue(), task, old(work.trees)[task], content.hash)
    ensures (ok || old(content.failAddArchive) == 0) && task !in old(work.trees) ==>
      content.archive == old(content.archive)
    ensures old(content.failAddArchive) == 0 ==> content.failAddArchive == 0
    ensures ok && meanwhile == old(work.trees) && task in meanwhile ==>
      ((forall p :: Holds(meanwhile[task], p) ==> Stored(content.blobs, p.bytes, content.hash)) <==>
       (forall run :: run in meanwhile[task].transcripts ==>
         Kept(old(content.ArchiveValue()), meanwhile[task], run, content.hash)))
  {
    ghost var start, trees := content.ArchiveValue(), work.trees;
    var listed, hashes, files := ArchiveListed(content, work, task);
    covered := hashes;
    if !listed {
      return false, covered;
    }
    HashesHeld(trees, task, files, content.hash);
    if task in trees {
      ListedFiles(start, content.ArchiveValue(), task, trees[task], files, content.hash);
    } else {
      NothingFiled(start.rows, content.archive, task, content.hash);
    }
    work.trees := meanwhile;
    ok := work.Delete(task, hashes, content.hash);
    ghost var now := content.ArchiveValue();
    if meanwhile == trees && task in trees {
      forall p | Holds(trees[task], p) ensures content.hash(p.bytes) in covered {
        var i :| 0 <= i < |files| && files[i] == p;
      }
    }
    if ok && task in meanwhile {
      forall p | Holds(meanwhile[task], p) ensures Stored(now.blobs, p.bytes, content.hash) ||
        TranscriptBytes(trees, task, p.bytes) {
        CoveredMeansSafe(covered, start, now, task, trees, files, p.bytes, content.hash);
      }
      if meanwhile == trees {
        TranscriptsAreTheGap(covered, start, now, task, meanwhile[task], files, content.hash);
      }
    }
  }

  /** A run's transcript outlives the deletion: archived before, or also present under another name. */
  ghost predicate Kept(a: Archive, t: Tree, run: int, hash: Bytes -> string)
    requires run in t.transcripts
  {
    Stored(a.blobs, t.transcripts[run], hash) ||
    exists p :: Holds(t, p) && !NamedTranscript(p.filename) && p.bytes == t.transcripts[run]
  }

  /**
   Undisturbed, the deletion destroys nothing that is not archived exactly when every transcript was
   archived before the effect began or is also some other file of the task: the loop skips transcripts.
   */
  lemma TranscriptsAreTheGap(covered: set<string>, start: Archive, now: Archive, task: int, t: Tree, files: seq<Part>,
      hash: Bytes -> string)
    requires GoodHash(hash) && ArchiveOK(start, hash) && ArchiveOK(now, hash)
    requires Covers(covered, start, now, task, files, hash) && forall p :: p in files <==> Holds(t, p)
    ensures (forall p :: Holds(t, p) ==> Stored(now.blobs, p.bytes, hash)) <==>
      (forall run :: run in t.transcripts ==> Kept(start, t, run, hash))
  {
    if forall run :: run in t.transcripts ==> Kept(start, t, run, hash) {
      forall p | Holds(t, p) ensures Stored(now.blobs, p.bytes, hash) {
        AllKept(covered, start, now, task, t, files, p, hash);
      }
    }
    if forall p :: Holds(t, p) ==> Stored(now.blobs, p.bytes, hash) {
      forall run | run in t.transcripts ensures Kept(start, t, run, hash) {
        var p := Part(TranscriptName(run), t.transcripts[run]);
        assert IsTranscript(t.transcripts, p) && Holds(t, p);
        StoredWasKept(covered, start, now, task, t, files, run, hash);
      }
    }
  }

  lemma AllKept(covered: set<string>, start: Archive, now: Archive, task: int, t: Tree, files: seq<Part>, p: Part,
      hash: Bytes -> string)
    requires GoodHash(hash) && ArchiveOK(now, hash) && Covers(covered, start, now, task, files, hash)
    requires forall q :: q in files <==> Holds(t, q)
    requires Holds(t, p) && forall run :: run in t.transcripts ==> Kept(start, t, run, hash)
    ensures Stored(now.blobs, p.bytes, hash)
  {
    NamedTranscriptIs(t, p);
    var q := p;
    if NamedTranscript(p.filename) {
      var run :| run in t.transcripts && p == Part(TranscriptName(run), t.transcripts[run]);
      if !Stored(start.blobs, p.bytes, hash) {
        q :| Holds(t, q) && !NamedTranscript(q.filename) && q.bytes == p.bytes;
      }
    }
    assert q in files;
    if !NamedTranscript(q.filename) {
      var i :| 0 <= i < |files| && files[i] == q;
      assert SeenFile(files, hash(q.bytes), hash);
    }
  }

  lemma StoredWasKept(covered: set<string>, start: Archive, now: Archive, task: int, t: Tree, files: seq<Part>,
      run: int, hash: Bytes -> string)
    requires GoodHash(hash) && ArchiveOK(start, hash) && Covers(covered, start, now, task, files, hash)
    requires forall q :: q in files <==> Holds(t, q)
    requires run in t.transcripts && Stored(now.blobs, t.transcripts[run], hash)
    ensures Kept(start, t, run, hash)
  {
    var k := hash(t.transcripts[run]);
    if k !in start.blobs {
      var i :| 0 <= i < |files| && !NamedTranscript(files[i].filename) && hash(files[i].bytes) == k;
      assert files[i] in files && files[i].bytes == t.transcripts[run];
    }
  }

  /**
   The gap is real: a workspace holding nothing but one transcript that was never captured is deleted,
   and the transcript is gone.
   */
  method UncapturedTranscriptIsLost(content: MemoryContent, work: Memory, b: Bytes) returns (ok: bool)
    requires GoodHash(content.hash) && content.ArchiveValue() == Archive([], 0, map[], 0)
    requires work.trees == map[7 := EMPTY.(transcripts := map[8 := b])]
    modifies content, work
    ensures ok && work.trees == map[] && !Stored(content.blobs, b, content.hash)
  {
    ghost var t := work.trees[7];
    ghost var covered: set<string>;
    ok, covered := ArchiveThenDelete(content, work, 7, work.trees);
    assert !Kept(Archive([], 0, map[], 0), t, 8, content.hash);
    OnlyTranscript(b);
  }

  /**
   An archived file keeps its first row: when a first attempt is stopped by a file that appeared
   meanwhile, and out/a has been rewritten by the second, the workspace goes and no listing has the new bytes.
   */
  method RewrittenFileIsUnlisted(content: MemoryContent, work: Memory, b: Bytes, c: Bytes, late: Bytes)
      returns (first: bool, second: bool)
    requires GoodHash(content.hash) && content.ArchiveValue() == Archive([], 0, map[], 0)
    requires work.trees == map[7 := OutOnly(map["a" := b])] && b != c && late != b
    modifies content, work
    ensures !first && second && work.trees == map[]
    ensures !ReadsBack(content.ArchiveValue(), 7, Part("out/a", c)) && Stored(content.blobs, c, content.hash)
  {
    first := StoppedByLateFile(content, work, b, late);
    work.trees := map[7 := OutOnly(map["a" := c])];
    ghost var covered: set<string>;
    ghost var start := content.ArchiveValue();
    second, covered := ArchiveThenDelete(content, work, 7, work.trees);
    OutHolds(map["a" := c], "a");
    OldNameOnly(start.rows, b, c, content.hash);
  }

  /** The bytes have one row, named out/a. */
  ghost predicate OneRow(rows: seq<ArchiveRow>, b: Bytes, hash: Bytes -> string)
  {
    Named(rows, 7, "out/a") && forall i :: 0 <= i < |rows| ==> rows[i].sha256 == hash(b)
  }

  lemma OldNameOnly(rows: seq<ArchiveRow>, b: Bytes, c: Bytes, hash: Bytes -> string)
    requires GoodHash(hash) && OneRow(rows, b, hash) && b != c
    ensures Named(rows, 7, "out/a") && !HadSame(rows, 7, Part("out/a", c), hash)
  {
  }

  method StoppedByLateFile(content: MemoryContent, work: Memory, b: Bytes, late: Bytes) returns (ok: bool)
    requires GoodHash(content.hash) && content.ArchiveValue() == Archive([], 0, map[], 0)
    requires work.trees == map[7 := OutOnly(map["a" := b])] && late != b
    modifies content, work
    ensures !ok && ArchiveOK(content.ArchiveValue(), content.hash) && content.failAddArchive == 0
    ensures OneRow(content.archive, b, content.hash)
  {
    ghost var covered: set<string>;
    var disturbed := map[7 := OutOnly(map["a" := b, "b" := late])];
    ok, covered := ArchiveThenDelete(content, work, 7, disturbed);
    OneFileOneRow(content.ArchiveValue(), b, content.hash);
    OutHolds(map["a" := b], "a");
    OutHolds(map["a" := b, "b" := late], "b");
  }

  lemma OneFileOneRow(now: Archive, b: Bytes, hash: Bytes -> string)
    requires GoodHash(hash) && FilesOf(Archive([], 0, map[], 0), now, 7, OutOnly(map["a" := b]), hash)
    ensures OneRow(now.rows, b, hash)
  {
    OutHolds(map["a" := b], "a");
    assert ReadsBack(now, 7, Part("out/a", b));
    forall i | 0 <= i < |now.rows| ensures now.rows[i].sha256 == hash(b) {
      assert RowOfTree(now.rows[i], 7, OutOnly(map["a" := b]), hash);
    }
  }

  function OutOnly(box: map<string, Bytes>): Tree
  {
    EMPTY.(out := box)
  }

  lemma OutHolds(box: map<string, Bytes>, n: string)
    requires n in box
    ensures Holds(OutOnly(box), Part("out/" + n, box[n])) && !NamedTranscript("out/" + n)
    ensures forall p :: Holds(OutOnly(box), p) ==> exists m :: m in box && p == Part("out/" + m, box[m])
  {
    assert ("out/" + n)[0] == 'o';
  }

  lemma OnlyTranscript(b: Bytes)
    ensures forall p :: Holds(EMPTY.(transcripts := map[8 := b]), p) ==> p == Part(TranscriptName(8), b)
  {
  }
}
