/**
 The memory harvest (tasks/command_capture_memory.go): what one drive over a finished run's workspace
 does to the collection, as set algebra over maps.
 */
module MemoryHarvest {
  import opened Prelude
  import opened Runtime
  import opened Content
  import opened Messages
  import opened Memories
  import opened Strings
  import opened Workspace
  import Kasi

  // ---------------------------------------------------------------- the collection

  /** Names are unique. */
  ghost predicate Distinct(notes: seq<Note>)
  {
    forall i, j :: 0 <= i < j < |notes| ==> notes[i].name != notes[j].name
  }

  ghost predicate AllValid(notes: seq<Note>)
  {
    forall i :: 0 <= i < |notes| ==> ValidName(notes[i].name)
  }

  lemma {:induction false} AsMapHas(notes: seq<Note>, name: string)
    ensures name in AsMap(notes) <==> FindName(notes, name) < |notes|
  {
    if notes != [] {
      AsMapHas(notes[..|notes| - 1], name);
    }
  }

  lemma {:induction false} AsMapFound(notes: seq<Note>, i: nat)
    requires Distinct(notes) && i < |notes|
    ensures notes[i].name in AsMap(notes) && AsMap(notes)[notes[i].name] == notes[i].content
  {
    if i < |notes| - 1 {
      AsMapFound(notes[..|notes| - 1], i);
    }
  }

  lemma {:induction false} AsMapUpdate(notes: seq<Note>, i: nat, content: Bytes)
    requires Distinct(notes) && i < |notes|
    ensures AsMap(notes[i := Note(notes[i].name, content)]) == AsMap(notes)[notes[i].name := content]
  {
    var n, after := |notes| - 1, notes[i := Note(notes[i].name, content)];
    if i < n {
      AsMapUpdate(notes[..n], i, content);
      assert after[..n] == notes[..n][i := Note(notes[i].name, content)];
    } else {
      assert after[..n] == notes[..n];
    }
  }

  lemma AsMapAppend(notes: seq<Note>, last: Note)
    ensures AsMap(notes + [last]) == AsMap(notes)[last.name := last.content]
  {
    assert (notes + [last])[..|notes|] == notes;
  }

  lemma LastStays(notes: seq<Note>, i: nat)
    requires i < |notes| - 1
    ensures var front, n := notes[..|notes| - 1], |notes| - 1;
      notes[..i] + notes[i + 1..] == (front[..i] + front[i + 1..]) + [notes[n]]
  {
  }

  lemma RemoveBeside(m: map<string, Bytes>, name: string, content: Bytes, gone: string)
    requires name != gone
    ensures (m - {gone})[name := content] == m[name := content] - {gone}
  {
  }

  lemma {:induction false} AsMapRemove(notes: seq<Note>, i: nat)
    requires Distinct(notes) && i < |notes|
    ensures AsMap(notes[..i] + notes[i + 1..]) == AsMap(notes) - {notes[i].name}
  {
    var front, last := notes[..|notes| - 1], notes[|notes| - 1];
    if i < |notes| - 1 {
      AsMapRemove(front, i);
      LastStays(notes, i);
      AsMapAppend(front[..i] + front[i + 1..], last);
      RemoveBeside(AsMap(front), last.name, last.content, notes[i].name);
    } else {
      assert notes[..i] + notes[i + 1..] == front;
      AsMapHas(front, last.name);
    }
  }

  /** What one message means for the collection as a map. */
  function DigestMap(m: map<string, Bytes>, msg: Msg): map<string, Bytes>
  {
    match msg
    case Remember(name, content) => if ValidName(name) then m[name := content] else m
    case Forget(name) => m - {name}
    case _ => m
  }

  lemma UpdateDistinct(notes: seq<Note>, i: nat, content: Bytes)
    requires Distinct(notes) && i < |notes|
    ensures Distinct(notes[i := Note(notes[i].name, content)])
  {
  }

  lemma AppendDistinct(notes: seq<Note>, last: Note)
    requires Distinct(notes) && FindName(notes, last.name) == |notes|
    ensures Distinct(notes + [last])
    ensures AsMap(notes + [last]) == AsMap(notes)[last.name := last.content]
  {
    assert (notes + [last])[..|notes|] == notes;
  }

  lemma RememberIs(notes: seq<Note>, name: string, content: Bytes)
    requires Distinct(notes) && ValidName(name)
    ensures Distinct(HandleRemember(notes, name, content))
    ensures AsMap(HandleRemember(notes, name, content)) == AsMap(notes)[name := content]
  {
    var i := FindName(notes, name);
    if i < |notes| {
      AsMapUpdate(notes, i, content);
      UpdateDistinct(notes, i, content);
    } else {
      AppendDistinct(notes, Note(name, content));
    }
  }

  lemma RemoveDistinct(notes: seq<Note>, i: nat)
    requires Distinct(notes) && i < |notes|
    ensures Distinct(notes[..i] + notes[i + 1..])
  {
    var after := notes[..i] + notes[i + 1..];
    assert forall j :: 0 <= j < |after| ==> after[j] == notes[if j < i then j else j + 1];
  }

  lemma ForgetIs(notes: seq<Note>, name: string)
    requires Distinct(notes)
    ensures Distinct(HandleForget(notes, name))
    ensures AsMap(HandleForget(notes, name)) == AsMap(notes) - {name}
  {
    var i := FindName(notes, name);
    AsMapHas(notes, name);
    if i < |notes| {
      AsMapRemove(notes, i);
      RemoveDistinct(notes, i);
    } else {
      assert AsMap(notes) == AsMap(notes) - {name};
    }
  }

  /** The reducer's upsert and removal on a list with unique names are update and removal on the map. */
  lemma DigestIs(notes: seq<Note>, msg: Msg)
    requires Distinct(notes)
    ensures Distinct(Digest(notes, msg))
    ensures AsMap(Digest(notes, msg)) == DigestMap(AsMap(notes), msg)
  {
    if msg.Remember? && ValidName(msg.name) {
      RememberIs(notes, msg.name, msg.content);
    } else if msg.Forget? {
      ForgetIs(notes, msg.name);
    }
  }

  /** Names stay valid: the reducer guards the one place a name enters. */
  lemma DigestKeepsValid(notes: seq<Note>, msg: Msg)
    requires AllValid(notes)
    ensures AllValid(Digest(notes, msg))
  {
    if msg.Remember? {
      var after := HandleRemember(notes, msg.name, msg.content);
      assert forall i :: 0 <= i < |after| ==> after[i].name == msg.name || (i < |notes| && after[i] == notes[i]);
    }
  }

  /** Remembering what is already known, or forgetting what is not, changes nothing at all. */
  lemma Redundant(notes: seq<Note>, name: string)
    requires Distinct(notes)
    ensures name in AsMap(notes) ==> HandleRemember(notes, name, AsMap(notes)[name]) == notes
    ensures name !in AsMap(notes) ==> HandleForget(notes, name) == notes
  {
    AsMapHas(notes, name);
    var i := FindName(notes, name);
    if i < |notes| {
      AsMapFound(notes, i);
      assert notes[i] == Note(name, AsMap(notes)[name]);
    }
  }

  // ---------------------------------------------------------------- one drive

  /** The memory a path under `prefix` stands for: one flat segment, `.md`, a valid name. */
  function MemoryFileName(path: string, prefix: string): Option<string>
  {
    match CutPrefix(path, prefix)
    case None => None
    case Some(rel) =>
      if '/' in rel then None
      else
        match CutSuffix(rel, ".md")
        case None => None
        case Some(name) => if name == "" || !ValidName(name) then None else Some(name)
  }

  const OUT_PREFIX := "out/memory/"
  const IN_PREFIX := "in/memory/"

  function NamesUnder(files: seq<Part>, prefix: string): set<string>
  {
    if files == [] then {}
    else
      var name := MemoryFileName(files[|files| - 1].filename, prefix);
      NamesUnder(files[..|files| - 1], prefix) + if name.Some? then {name.value} else {}
  }

  function Remembers(files: seq<Part>): seq<Msg>
  {
    if files == [] then []
    else
      var f := files[|files| - 1];
      var name := MemoryFileName(f.filename, OUT_PREFIX);
      var before := Remembers(files[..|files| - 1]);
      if name.Some? then before + [Remember(name.value, f.bytes)] else before
  }

  function Forgets(provisioned: seq<string>, kept: set<string>): seq<Msg>
  {
    if provisioned == [] then []
    else
      var name := provisioned[|provisioned| - 1];
      var before := Forgets(provisioned[..|provisioned| - 1], kept);
      if name in kept then before else before + [Forget(name)]
  }

  /** Everything a drive emits, in order. */
  function Directives(files: seq<Part>, provisioned: seq<string>): seq<Msg>
  {
    Remembers(files) + Forgets(provisioned, NamesUnder(files, IN_PREFIX) + NamesUnder(files, OUT_PREFIX))
  }

  method CollectNames(files: seq<Part>, prefix: string) returns (names: set<string>)
    ensures names == NamesUnder(files, prefix)
  {
    names := {};
    for i := 0 to |files|
      invariant names == NamesUnder(files[..i], prefix)
    {
      assert files[..i + 1][..i] == files[..i];
      var name := MemoryFileName(files[i].filename, prefix);
      if name.None? {
        continue;
      }
      names := names + {name.value};
    }
    assert files[..|files|] == files;
  }

  method CollectRemembers(files: seq<Part>) returns (rewritten: set<string>, remembers: seq<Msg>)
    ensures rewritten == NamesUnder(files, OUT_PREFIX) && remembers == Remembers(files)
  {
    rewritten, remembers := {}, [];
    for i := 0 to |files|
      invariant rewritten == NamesUnder(files[..i], OUT_PREFIX) && remembers == Remembers(files[..i])
    {
      assert files[..i + 1][..i] == files[..i];
      var name := MemoryFileName(files[i].filename, OUT_PREFIX);
      if name.None? {
        continue;
      }
      rewritten := rewritten + {name.value};
      remembers := remembers + [Remember(name.value, files[i].bytes)];
    }
    assert files[..|files|] == files;
  }

  /**
   The effect: nothing at all is emitted unless both the listing and the provisioned set were read,
   and the job is discharged last. What it does is one move of the machine's edge relation.
   */
  method CaptureMemory(ghost c: Kasi.Config, ghost w: Kasi.World, work: Memory, task: int, run: int)
      returns (emits: seq<Msg>, ghost files: seq<Part>)
    modifies work
    ensures work.trees == old(work.trees)
    ensures task !in work.trees || old(work.failProvisioned) > 0 ==> emits == []
    ensures task in work.trees && old(work.failProvisioned) == 0 ==>
      && (forall p :: p in files <==> Holds(work.trees[task], p))
      && emits == Directives(files, work.trees[task].provisioned) + [MarkHarvested(run, HarvestKind.Memory)]
      && Kasi.Edge(c, w, CapturingMemory(task, run), false, w, Emitting(emits), None)
  {
    var listed := work.Files(task);
    files := [];
    if listed.None? {
      return [], files;
    }
    files := listed.value;
    var rewritten, remembers := CollectRemembers(listed.value);
    var survivors := CollectNames(listed.value, IN_PREFIX);
    var provisioned := work.ProvisionedMemory(task);
    if provisioned.None? {
      return [], files;
    }
    emits := remembers;
    for i := 0 to |provisioned.value|
      invariant emits == remembers + Forgets(provisioned.value[..i], survivors + rewritten)
    {
      assert provisioned.value[..i + 1][..i] == provisioned.value[..i];
      var name := provisioned.value[i];
      if name in survivors || name in rewritten {
        continue;
      }
      emits := emits + [Forget(name)];
    }
    assert provisioned.value[..|provisioned.value|] == provisioned.value;
    ghost var ms := Directives(files, work.trees[task].provisioned);
    DirectivesOnly(files, work.trees[task].provisioned);
    emits := emits + [MarkHarvested(run, HarvestKind.Memory)];
    assert emits == ms + [MarkHarvested(run, HarvestKind.Memory)];
  }

  lemma {:induction false} RemembersOnly(files: seq<Part>)
    ensures forall i :: 0 <= i < |Remembers(files)| ==> Remembers(files)[i].Remember?
  {
    if files != [] {
      RemembersOnly(files[..|files| - 1]);
    }
  }

  lemma {:induction false} ForgetsOnly(provisioned: seq<string>, kept: set<string>)
    ensures forall i :: 0 <= i < |Forgets(provisioned, kept)| ==> Forgets(provisioned, kept)[i].Forget?
  {
    if provisioned != [] {
      ForgetsOnly(provisioned[..|provisioned| - 1], kept);
    }
  }

  lemma DirectivesOnly(files: seq<Part>, provisioned: seq<string>)
    ensures var ms := Directives(files, provisioned); forall i :: 0 <= i < |ms| ==> Kasi.MemoryDirective(ms[i])
  {
    RemembersOnly(files);
    ForgetsOnly(provisioned, NamesUnder(files, IN_PREFIX) + NamesUnder(files, OUT_PREFIX));
  }

  // ---------------------------------------------------------------- what the reducer makes of it

  function Digest(notes: seq<Note>, m: Msg): seq<Note>
  {
    match m
    case Remember(name, content) => HandleRemember(notes, name, content)
    case Forget(name) => HandleForget(notes, name)
    case _ => notes
  }

  /** The collection after a list of messages, one after another. */
  function Drive(notes: seq<Note>, ms: seq<Msg>): seq<Note>
  {
    if ms == [] then notes else Digest(Drive(notes, ms[..|ms| - 1]), ms[|ms| - 1])
  }

  lemma {:induction false} DriveConcat(notes: seq<Note>, a: seq<Msg>, b: seq<Msg>)
    ensures Drive(notes, a + b) == Drive(Drive(notes, a), b)
  {
    if b == [] {
      assert a + b == a;
    } else {
      DriveConcat(notes, a, b[..|b| - 1]);
      assert (a + b)[..|a + b| - 1] == a + b[..|b| - 1];
    }
  }

  function RememberedMap(files: seq<Part>): map<string, Bytes>
  {
    if files == [] then map[]
    else
      var f := files[|files| - 1];
      var name := MemoryFileName(f.filename, OUT_PREFIX);
      if name.Some? then RememberedMap(files[..|files| - 1])[name.value := f.bytes]
        else RememberedMap(files[..|files| - 1])
  }

  function DriveMap(m: map<string, Bytes>, ms: seq<Msg>): map<string, Bytes>
  {
    if ms == [] then m else DigestMap(DriveMap(m, ms[..|ms| - 1]), ms[|ms| - 1])
  }

  lemma {:induction false} DriveIs(notes: seq<Note>, ms: seq<Msg>)
    requires Distinct(notes)
    ensures Distinct(Drive(notes, ms)) && AsMap(Drive(notes, ms)) == DriveMap(AsMap(notes), ms)
  {
    if ms != [] {
      DriveIs(notes, ms[..|ms| - 1]);
      DigestIs(Drive(notes, ms[..|ms| - 1]), ms[|ms| - 1]);
    }
  }

  lemma DriveAppend(notes: seq<Note>, m: map<string, Bytes>, ms: seq<Msg>, last: Msg)
    ensures Drive(notes, ms + [last]) == Digest(Drive(notes, ms), last)
    ensures DriveMap(m, ms + [last]) == DigestMap(DriveMap(m, ms), last)
  {
    assert (ms + [last])[..|ms|] == ms;
  }

  lemma {:induction false} DriveRemembers(m: map<string, Bytes>, files: seq<Part>)
    ensures DriveMap(m, Remembers(files)) == m + RememberedMap(files)
  {
    if files != [] {
      var front, f := files[..|files| - 1], files[|files| - 1];
      DriveRemembers(m, front);
      var name := MemoryFileName(f.filename, OUT_PREFIX);
      if name.Some? {
        DriveAppend([], m, Remembers(front), Remember(name.value, f.bytes));
        assert ValidName(name.value);
      }
    }
  }

  lemma LoseOneMore(m: map<string, Bytes>, names: set<string>, kept: set<string>, name: string)
    ensures m - ((names + {name}) - kept) == if name in kept then m - (names - kept) else m - (names - kept) - {name}
  {
    assert (names + {name}) - kept == if name in kept then names - kept else names - kept + {name};
  }

  lemma {:induction false} DriveForgets(m: map<string, Bytes>, provisioned: seq<string>, kept: set<string>)
    ensures DriveMap(m, Forgets(provisioned, kept)) == m - (ToSet(provisioned) - kept)
  {
    if provisioned != [] {
      var front, name := provisioned[..|provisioned| - 1], provisioned[|provisioned| - 1];
      DriveForgets(m, front, kept);
      assert ToSet(provisioned) == ToSet(front) + {name};
      LoseOneMore(m, ToSet(front), kept, name);
      if name !in kept {
        DriveAppend([], m, Forgets(front, kept), Forget(name));
      }
    }
  }

  function ToSet(names: seq<string>): set<string>
  {
    set name | name in names
  }

  // ---------------------------------------------------------------- in terms of the workspace

  /** The valid notes in a box, by name. */
  function NotesIn(box: map<string, Bytes>): map<string, Bytes>
  {
    map name | name in NoteNames(box) :: box[NoteKey(name)]
  }

  function NoteNames(box: map<string, Bytes>): (names: set<string>)
    ensures forall name :: name in names ==> NoteKey(name) in box
  {
    set key | key in box && NoteName(key).Some? && ValidName(NoteName(key).value) && KeyOf(key) :: NoteName(key).value
  }

  predicate KeyOf(key: string)
    requires NoteName(key).Some?
    ensures KeyOf(key)
  {
    NoteNameInverts("", key);
    key == NoteKey(NoteName(key).value)
  }

  lemma NoteNamesAre(box: map<string, Bytes>, name: string)
    ensures name in NoteNames(box) <==> ValidName(name) && NoteKey(name) in box
  {
    if ValidName(name) {
      assert '/' !in name;
      NoteNameInverts(name, NoteKey(name));
      assert KeyOf(NoteKey(name));
    }
  }

  /** What the run deleted and did not rewrite. */
  function Forgotten(t: Tree): set<string>
  {
    ToSet(t.provisioned) - NoteNames(t.inBox) - NoteNames(t.out)
  }

  lemma CutTwice(box: string, dir: string, key: string)
    ensures CutPrefix(box + key, box + dir) == CutPrefix(key, dir)
  {
    if |dir| <= |key| {
      assert (box + key)[..|box + dir|] == box + key[..|dir|];
      assert (box + key)[|box + dir|..] == key[|dir|..];
      assert box + key[..|dir|] == box + dir <==> key[..|dir|] == dir by {
        assert (box + dir)[|box|..] == dir && (box + key[..|dir|])[|box|..] == key[..|dir|];
      }
    }
  }

  /** A listed file is a note under a box's prefix exactly when its path in that box is a valid note's. */
  lemma ListedNote(t: Tree, p: Part, box: string, name: string)
    requires Holds(t, p) && (box == "in/" || box == "out/")
    ensures MemoryFileName(p.filename, box + "memory/") == Some(name) ==>
      ValidName(name) && InBox(box, if box == "in/" then t.inBox else t.out, p) && p.filename == box + NoteKey(name)
  {
    if MemoryFileName(p.filename, box + "memory/") == Some(name) {
      assert p.filename[..|box + "memory/"|][0] == p.filename[0] == box[0];
      OtherBoxes(t, p, box);
      var files := if box == "in/" then t.inBox else t.out;
      var n :| n in files && p == Part(box + n, files[n]);
      CutTwice(box, "memory/", n);
      NoteNameInverts(name, n);
    }
  }

  lemma OtherBoxes(t: Tree, p: Part, box: string)
    requires Holds(t, p) && (box == "in/" || box == "out/") && p.filename != "" && p.filename[0] == box[0]
    ensures InBox(box, if box == "in/" then t.inBox else t.out, p)
  {
    if IsTranscript(t.transcripts, p) {
      TranscriptStarts(t.transcripts, p);
      assert false;
    }
  }

  lemma TranscriptStarts(transcripts: map<int, Bytes>, p: Part)
    requires IsTranscript(transcripts, p)
    ensures p.filename != "" && p.filename[0] == 't'
  {
    var run :| run in transcripts && p == Part(TranscriptName(run), transcripts[run]);
    assert TranscriptName(run)[0] == "transcript-"[0];
  }

  /** The converse: a valid note in a box is listed under that box's prefix. */
  lemma NoteIsListed(t: Tree, box: string, name: string)
    requires box == "in/" || box == "out/"
    requires var files := if box == "in/" then t.inBox else t.out; ValidName(name) && NoteKey(name) in files
    ensures var files := if box == "in/" then t.inBox else t.out;
      var p := Part(box + NoteKey(name), files[NoteKey(name)]);
      Holds(t, p) && MemoryFileName(p.filename, box + "memory/") == Some(name)
  {
    var files := if box == "in/" then t.inBox else t.out;
    var p := Part(box + NoteKey(name), files[NoteKey(name)]);
    assert InBox(box, files, p);
    CutTwice(box, "memory/", NoteKey(name));
    assert '/' !in name;
    NoteNameInverts(name, "");
  }

  lemma {:induction false} NamesUnderAre(files: seq<Part>, prefix: string)
    ensures forall name :: name in NamesUnder(files, prefix) <==>
      exists i :: 0 <= i < |files| && MemoryFileName(files[i].filename, prefix) == Some(name)
  {
    if files != [] {
      var front, n := files[..|files| - 1], |files| - 1;
      NamesUnderAre(front, prefix);
      forall name | exists i :: 0 <= i < |files| && MemoryFileName(files[i].filename, prefix) == Some(name)
        ensures name in NamesUnder(files, prefix)
      {
        var i :| 0 <= i < |files| && MemoryFileName(files[i].filename, prefix) == Some(name);
        if i < n { assert front[i] == files[i]; }
      }
      forall name | name in NamesUnder(files, prefix) ensures
        exists i :: 0 <= i < |files| && MemoryFileName(files[i].filename, prefix) == Some(name) {
        if name in NamesUnder(front, prefix) {
          var i :| 0 <= i < |front| && MemoryFileName(front[i].filename, prefix) == Some(name);
          assert files[i] == front[i];
        } else {
          assert MemoryFileName(files[n].filename, prefix) == Some(name);
        }
      }
    }
  }

  lemma NamesInBox(t: Tree, files: seq<Part>, box: string)
    requires box == "in/" || box == "out/"
    requires forall p :: p in files <==> Holds(t, p)
    ensures NamesUnder(files, box + "memory/") == NoteNames(if box == "in/" then t.inBox else t.out)
  {
    var b := if box == "in/" then t.inBox else t.out;
    NamesUnderAre(files, box + "memory/");
    forall name ensures name in NamesUnder(files, box + "memory/") <==> name in NoteNames(b) {
      NoteNamesAre(b, name);
      if name in NamesUnder(files, box + "memory/") {
        var i :| 0 <= i < |files| && MemoryFileName(files[i].filename, box + "memory/") == Some(name);
        assert files[i] in files;
        ListedNote(t, files[i], box, name);
        FromBox(box, b, files[i], NoteKey(name));
      }
      if name in NoteNames(b) {
        NoteIsListed(t, box, name);
        var p := Part(box + NoteKey(name), b[NoteKey(name)]);
        assert p in files;
        var i :| 0 <= i < |files| && files[i] == p;
      }
    }
  }

  lemma FromBox(prefix: string, box: map<string, Bytes>, p: Part, key: string)
    requires InBox(prefix, box, p) && p.filename == prefix + key
    ensures key in box && p.bytes == box[key]
  {
    var n :| n in box && p == Part(prefix + n, box[n]);
    assert (prefix + n)[|prefix|..] == n && (prefix + key)[|prefix|..] == key;
  }

  lemma {:induction false} RememberedAre(files: seq<Part>)
    ensures RememberedMap(files).Keys == NamesUnder(files, OUT_PREFIX)
    ensures forall name :: name in RememberedMap(files) ==>
      exists i :: 0 <= i < |files| && MemoryFileName(files[i].filename, OUT_PREFIX) == Some(name) &&
        RememberedMap(files)[name] == files[i].bytes
  {
    if files != [] {
      var front, n := files[..|files| - 1], |files| - 1;
      RememberedAre(front);
      forall name | name in RememberedMap(files)
        ensures exists i ::
          && 0 <= i < |files| && MemoryFileName(files[i].filename, OUT_PREFIX) == Some(name)
          && RememberedMap(files)[name] == files[i].bytes
      {
        if MemoryFileName(files[n].filename, OUT_PREFIX) != Some(name) {
          var i :| 0 <= i < |front| && MemoryFileName(front[i].filename, OUT_PREFIX) == Some(name) &&
            RememberedMap(front)[name] == front[i].bytes;
          assert files[i] == front[i];
        }
      }
    }
  }

  lemma RememberedIsOut(t: Tree, files: seq<Part>)
    requires forall p :: p in files <==> Holds(t, p)
    ensures RememberedMap(files) == NotesIn(t.out)
  {
    RememberedAre(files);
    NamesInBox(t, files, "out/");
    assert "out/" + "memory/" == OUT_PREFIX;
    forall name | name in NoteNames(t.out) ensures RememberedMap(files)[name] == t.out[NoteKey(name)] {
      var i :| 0 <= i < |files| && MemoryFileName(files[i].filename, OUT_PREFIX) == Some(name) &&
        RememberedMap(files)[name] == files[i].bytes;
      assert files[i] in files;
      ListedNote(t, files[i], "out/", name);
      FromBox("out/", t.out, files[i], NoteKey(name));
    }
  }

  /** The listing, read as sets and maps of note names. */
  ghost predicate Reads(t: Tree, files: seq<Part>)
  {
    NamesUnder(files, IN_PREFIX) == NoteNames(t.inBox) && NamesUnder(files, OUT_PREFIX) == NoteNames(t.out) &&
      RememberedMap(files) == NotesIn(t.out)
  }

  lemma ListingReads(t: Tree, files: seq<Part>)
    requires forall p :: p in files <==> Holds(t, p)
    ensures Reads(t, files)
  {
    NamesInBox(t, files, "in/");
    NamesInBox(t, files, "out/");
    RememberedIsOut(t, files);
    assert "in/" + "memory/" == IN_PREFIX && "out/" + "memory/" == OUT_PREFIX;
  }

  // ---------------------------------------------------------------- the theorems

  lemma DriveOverReading(notes: seq<Note>, t: Tree, files: seq<Part>)
    requires Distinct(notes) && Reads(t, files)
    ensures Distinct(Drive(notes, Directives(files, t.provisioned)))
    ensures AsMap(Drive(notes, Directives(files, t.provisioned))) == (AsMap(notes) - Forgotten(t)) + NotesIn(t.out)
  {
    var kept := NamesUnder(files, IN_PREFIX) + NamesUnder(files, OUT_PREFIX);
    DriveConcat(notes, Remembers(files), Forgets(t.provisioned, kept));
    DriveIs(notes, Remembers(files));
    DriveIs(Drive(notes, Remembers(files)), Forgets(t.provisioned, kept));
    DriveRemembers(AsMap(notes), files);
    DriveForgets(AsMap(notes) + RememberedMap(files), t.provisioned, kept);
    assert ToSet(t.provisioned) - kept == Forgotten(t);
    assert NotesIn(t.out).Keys == NoteNames(t.out);
    LoseThenOverride(AsMap(notes), NotesIn(t.out), Forgotten(t));
  }

  lemma LoseThenOverride(m: map<string, Bytes>, written: map<string, Bytes>, gone: set<string>)
    requires written.Keys !! gone
    ensures (m + written) - gone == (m - gone) + written
  {
  }

  /**
   One drive is the set algebra it claims: the collection loses what the run was given, neither left
   in place nor rewrote, and is overridden by what the run wrote.
   */
  lemma DriveIsSetAlgebra(notes: seq<Note>, t: Tree, files: seq<Part>)
    requires Distinct(notes) && forall p :: p in files <==> Holds(t, p)
    ensures Distinct(Drive(notes, Directives(files, t.provisioned)))
    ensures AsMap(Drive(notes, Directives(files, t.provisioned))) == (AsMap(notes) - Forgotten(t)) + NotesIn(t.out)
  {
    ListingReads(t, files);
    DriveOverReading(notes, t, files);
  }

  lemma {:induction false} KnownRemembers(notes: seq<Note>, files: seq<Part>)
    requires Distinct(notes) && forall name :: name in RememberedMap(files) ==> name in AsMap(notes)
    requires forall i :: 0 <= i < |files| ==> var name := MemoryFileName(files[i].filename, OUT_PREFIX);
      name.Some? && name.value in AsMap(notes) ==> AsMap(notes)[name.value] == files[i].bytes
    ensures Drive(notes, Remembers(files)) == notes
  {
    if files != [] {
      var front, f := files[..|files| - 1], files[|files| - 1];
      forall name | name in RememberedMap(front) ensures name in AsMap(notes) {
        assert name in RememberedMap(files);
      }
      assert forall i :: 0 <= i < |front| ==> front[i] == files[i];
      KnownRemembers(notes, front);
      var name := MemoryFileName(f.filename, OUT_PREFIX);
      if name.Some? {
        DriveAppend(notes, map[], Remembers(front), Remember(name.value, f.bytes));
        assert name.value in RememberedMap(files);
        Redundant(notes, name.value);
      }
    }
  }

  lemma {:induction false} AbsentForgets(notes: seq<Note>, provisioned: seq<string>, kept: set<string>)
    requires Distinct(notes) && forall name :: name in provisioned && name !in kept ==> name !in AsMap(notes)
    ensures Drive(notes, Forgets(provisioned, kept)) == notes
  {
    if provisioned != [] {
      var front, name := provisioned[..|provisioned| - 1], provisioned[|provisioned| - 1];
      assert forall x :: x in front ==> x in provisioned;
      AbsentForgets(notes, front, kept);
      assert name in provisioned;
      if name !in kept {
        DriveAppend(notes, map[], Forgets(front, kept), Forget(name));
        Redundant(notes, name);
      }
    }
  }

  /** In a listing, a note in the outbox always carries that note's bytes. */
  lemma ListedBytes(t: Tree, files: seq<Part>, i: nat)
    requires
      && (forall p :: p in files <==> Holds(t, p))
      && i < |files|
      && MemoryFileName(files[i].filename, OUT_PREFIX).Some?
    ensures var name := MemoryFileName(files[i].filename, OUT_PREFIX).value;
      name in NotesIn(t.out) && NotesIn(t.out)[name] == files[i].bytes
  {
    var name := MemoryFileName(files[i].filename, OUT_PREFIX).value;
    assert files[i] in files && "out/" + "memory/" == OUT_PREFIX;
    ListedNote(t, files[i], "out/", name);
    FromBox("out/", t.out, files[i], NoteKey(name));
    NoteNamesAre(t.out, name);
  }

  /** Driving the same workspace again, with no other memory message in between, changes nothing: not even the order. */
  lemma RedriveChangesNothing(notes: seq<Note>, t: Tree, files: seq<Part>, again: seq<Part>)
    requires Distinct(notes)
    requires forall p :: p in files <==> Holds(t, p)
    requires forall p :: p in again <==> Holds(t, p)
    ensures var once := Drive(notes, Directives(files, t.provisioned));
      Drive(once, Directives(again, t.provisioned)) == once
  {
    var once := Drive(notes, Directives(files, t.provisioned));
    DriveIsSetAlgebra(notes, t, files);
    ListingReads(t, again);
    forall i | 0 <= i < |again| && MemoryFileName(again[i].filename, OUT_PREFIX).Some?
      ensures var name := MemoryFileName(again[i].filename, OUT_PREFIX).value;
        name in NotesIn(t.out) && NotesIn(t.out)[name] == again[i].bytes
    {
      ListedBytes(t, again, i);
    }
    RedriveOverReading(once, t, again);
  }

  lemma RedriveOverReading(once: seq<Note>, t: Tree, again: seq<Part>)
    requires Distinct(once) && Reads(t, again)
    requires forall name :: name in NotesIn(t.out) ==> name in AsMap(once) && AsMap(once)[name] == NotesIn(t.out)[name]
    requires forall name :: name in Forgotten(t) ==> name !in AsMap(once)
    requires forall i :: 0 <= i < |again| ==> var name := MemoryFileName(again[i].filename, OUT_PREFIX);
      name.Some? ==> name.value in NotesIn(t.out) && NotesIn(t.out)[name.value] == again[i].bytes
    ensures Drive(once, Directives(again, t.provisioned)) == once
  {
    var kept := NamesUnder(again, IN_PREFIX) + NamesUnder(again, OUT_PREFIX);
    DriveConcat(once, Remembers(again), Forgets(t.provisioned, kept));
    KnownRemembers(once, again);
    assert forall name :: name in t.provisioned && name !in kept ==> name in Forgotten(t);
    AbsentForgets(once, t.provisioned, kept);
  }

  /** The message is about a note this run wrote or lost. */
  predicate Within(msg: Msg, written: set<string>, gone: set<string>)
  {
    match msg
    case Remember(name, _) => name in written
    case Forget(name) => name in gone
    case _ => false
  }

  lemma {:induction false} RemembersWithin(files: seq<Part>, gone: set<string>)
    ensures forall i :: 0 <= i < |Remembers(files)| ==> Within(Remembers(files)[i], NamesUnder(files, OUT_PREFIX), gone)
  {
    if files != [] {
      RemembersWithin(files[..|files| - 1], gone);
    }
  }

  lemma {:induction false} ForgetsWithin(provisioned: seq<string>, kept: set<string>, written: set<string>)
    ensures forall i :: 0 <= i < |Forgets(provisioned, kept)| ==>
      Within(Forgets(provisioned, kept)[i], written, ToSet(provisioned) - kept)
  {
    if provisioned != [] {
      var front := provisioned[..|provisioned| - 1];
      ForgetsWithin(front, kept, written);
      assert forall name :: name in front ==> name in provisioned;
    }
  }

  lemma DirectivesWithin(t: Tree, files: seq<Part>, msg: Msg)
    requires Reads(t, files) && msg in Directives(files, t.provisioned)
    ensures Within(msg, NoteNames(t.out), Forgotten(t))
  {
    var kept := NamesUnder(files, IN_PREFIX) + NamesUnder(files, OUT_PREFIX);
    RemembersWithin(files, Forgotten(t));
    ForgetsWithin(t.provisioned, kept, NoteNames(t.out));
    assert ToSet(t.provisioned) - kept == Forgotten(t);
  }

  /** Whatever messages about those notes are digested first, losing and overriding them gives the same. */
  lemma {:induction false} WithinMakesNoOdds(m: map<string, Bytes>, ms: seq<Msg>, written: map<string, Bytes>,
      gone: set<string>)
    requires forall i :: 0 <= i < |ms| ==> Within(ms[i], written.Keys, gone)
    ensures (DriveMap(m, ms) - gone) + written == (m - gone) + written
  {
    if ms != [] {
      WithinMakesNoOdds(m, ms[..|ms| - 1], written, gone);
      OneMakesNoOdds(DriveMap(m, ms[..|ms| - 1]), ms[|ms| - 1], written, gone);
    }
  }

  lemma OneMakesNoOdds(m: map<string, Bytes>, msg: Msg, written: map<string, Bytes>, gone: set<string>)
    requires Within(msg, written.Keys, gone)
    ensures (DigestMap(m, msg) - gone) + written == (m - gone) + written
  {
  }

  /**
   A drive that was cut short does no harm. Whatever of its directives were logged before, in whatever
   order and however often (by one crashed drive or by many), driving the workspace again ends in the
   collection that one whole drive would have given.
   */
  lemma CutShortDrivesConverge(notes: seq<Note>, t: Tree, files: seq<Part>, logged: seq<Msg>, again: seq<Part>)
    requires Distinct(notes)
    requires forall p :: p in files <==> Holds(t, p)
    requires forall p :: p in again <==> Holds(t, p)
    requires forall i :: 0 <= i < |logged| ==> logged[i] in Directives(files, t.provisioned)
    ensures AsMap(Drive(Drive(notes, logged), Directives(again, t.provisioned))) ==
      AsMap(Drive(notes, Directives(files, t.provisioned)))
  {
    ListingReads(t, files);
    forall i | 0 <= i < |logged| ensures Within(logged[i], NotesIn(t.out).Keys, Forgotten(t)) {
      DirectivesWithin(t, files, logged[i]);
    }
    DriveIs(notes, logged);
    WithinMakesNoOdds(AsMap(notes), logged, NotesIn(t.out), Forgotten(t));
    DriveIsSetAlgebra(Drive(notes, logged), t, again);
    DriveIsSetAlgebra(notes, t, files);
  }

  /** A crash after any number of the directives, and a drive after the restart. */
  lemma CrashedDriveConverges(notes: seq<Note>, t: Tree, files: seq<Part>, k: nat, again: seq<Part>)
    requires Distinct(notes) && k <= |Directives(files, t.provisioned)|
    requires forall p :: p in files <==> Holds(t, p)
    requires forall p :: p in again <==> Holds(t, p)
    ensures var ds := Directives(files, t.provisioned);
      AsMap(Drive(Drive(notes, ds[..k]), Directives(again, t.provisioned))) == AsMap(Drive(notes, ds))
  {
    var ds := Directives(files, t.provisioned);
    assert forall i :: 0 <= i < k ==> ds[..k][i] == ds[i];
    CutShortDrivesConverge(notes, t, files, ds[..k], again);
  }

  /** A name the run was not given is never forgotten, whatever the run did. */
  lemma StrangersAreSafe(notes: seq<Note>, t: Tree, files: seq<Part>, name: string)
    requires Distinct(notes) && (forall p :: p in files <==> Holds(t, p))
    requires name in AsMap(notes) && name !in t.provisioned
    ensures var after := AsMap(Drive(notes, Directives(files, t.provisioned)));
      name in after && after[name] == if name in NotesIn(t.out) then NotesIn(t.out)[name] else AsMap(notes)[name]
  {
    DriveIsSetAlgebra(notes, t, files);
  }

  lemma {:induction false} NothingToForget(provisioned: seq<string>, kept: set<string>)
    requires forall name :: name in provisioned ==> name in kept
    ensures Forgets(provisioned, kept) == []
  {
    if provisioned != [] {
      assert provisioned[|provisioned| - 1] in provisioned;
      NothingToForget(provisioned[..|provisioned| - 1], kept);
    }
  }

  lemma {:induction false} NothingToRemember(files: seq<Part>)
    requires NamesUnder(files, OUT_PREFIX) == {}
    ensures Remembers(files) == []
  {
    if files != [] {
      NothingToRemember(files[..|files| - 1]);
    }
  }

  /** The run was given the collection: its in/ box and its recorded names are the collection's. */
  ghost predicate Given(notes: seq<Note>, before: map<string, Bytes>, t: Tree)
  {
    Provisioned(before, t.inBox, Provisionable(notes)) && t.provisioned == Names(Provisionable(notes))
  }

  /**
   A run that is given the collection and touches no note leaves a workspace whose harvest emits no
   directive: it forgets nothing and rewrites nothing.
   */
  lemma UntouchedForgetsNothing(notes: seq<Note>, before: map<string, Bytes>, t: Tree, files: seq<Part>)
    requires AllValid(notes) && Given(notes, before, t)
    requires NoteNames(t.out) == {} && forall p :: p in files <==> Holds(t, p)
    ensures Directives(files, t.provisioned) == []
  {
    GivenSurvive(notes, before, t);
    ListingReads(t, files);
    NothingToRemember(files);
    NothingToForget(t.provisioned, NamesUnder(files, IN_PREFIX) + NamesUnder(files, OUT_PREFIX));
  }

  lemma ValidIsSafe(notes: seq<Note>)
    requires AllValid(notes)
    ensures forall i :: 0 <= i < |notes| ==> Safe(notes[i].name)
  {
    forall i | 0 <= i < |notes| ensures Safe(notes[i].name) {
      ValidMeansSafe(notes[i].name);
    }
  }

  /** Right after provisioning, the notes in the in/ box are exactly the names recorded: the collection's. */
  lemma GivenSurvive(notes: seq<Note>, before: map<string, Bytes>, t: Tree)
    requires AllValid(notes) && Given(notes, before, t)
    ensures NoteNames(t.inBox) == ToSet(t.provisioned) && ToSet(t.provisioned) == AsMap(notes).Keys
  {
    ValidIsSafe(notes);
    ProvisionableAllSafe(notes);
    AsMapKeys(notes);
    forall name ensures name in NoteNames(t.inBox) <==> name in AsMap(notes) {
      NoteNamesAre(t.inBox, name);
      GivenName(notes, before, t.inBox, name);
    }
  }

  lemma GivenName(notes: seq<Note>, before: map<string, Bytes>, box: map<string, Bytes>, name: string)
    requires AllValid(notes) && Provisioned(before, box, notes)
    ensures ValidName(name) && NoteKey(name) in box <==> name in AsMap(notes)
  {
    AsMapHas(notes, name);
    if ValidName(name) {
      ValidMeansSafe(name);
    }
  }

  lemma ValidMeansSafe(name: string)
    requires ValidName(name)
    ensures '/' !in name && Safe(name)
  {
  }

  /** Deleting notes from the in/ box takes exactly their names out of it. */
  lemma NamesAfterDeleting(box: map<string, Bytes>, gone: set<string>)
    ensures NoteNames(box - (set name | name in gone :: NoteKey(name))) == NoteNames(box) - gone
  {
    var rest := box - (set name | name in gone :: NoteKey(name));
    forall name ensures name in NoteNames(rest) <==> name in NoteNames(box) && name !in gone {
      NoteNamesAre(rest, name);
      NoteNamesAre(box, name);
      forall other | other in gone && NoteKey(other) == NoteKey(name) ensures other == name {
        NoteKeysDiffer(other, name);
      }
    }
  }

  /**
   From provisioning to harvest: an agent that deletes the notes `gone` and leaves `out` in its
   outbox makes the collection lose exactly what it deleted and did not rewrite.
   */
  lemma DeletedMeansForgotten(notes: seq<Note>, before: map<string, Bytes>, t: Tree, gone: set<string>,
      out: map<string, Bytes>, files: seq<Part>)
    requires Distinct(notes) && AllValid(notes) && Given(notes, before, t)
    requires var t' := t.(inBox := t.inBox - (set name | name in gone :: NoteKey(name)), out := out);
      forall p :: p in files <==> Holds(t', p)
    ensures AsMap(Drive(notes, Directives(files, t.provisioned))) == (AsMap(notes) - (gone - NoteNames(out))) +
      NotesIn(out)
  {
    var t' := t.(inBox := t.inBox - (set name | name in gone :: NoteKey(name)), out := out);
    GivenSurvive(notes, before, t);
    NamesAfterDeleting(t.inBox, gone);
    DriveIsSetAlgebra(notes, t', files);
    GoneIsForgotten(AsMap(notes), t', gone);
  }

  lemma GoneIsForgotten(m: map<string, Bytes>, t: Tree, gone: set<string>)
    requires ToSet(t.provisioned) == m.Keys && NoteNames(t.inBox) == m.Keys - gone
    ensures m - Forgotten(t) == m - (gone - NoteNames(t.out))
  {
  }

  /** In the assembled system only the two memory messages touch the collection. */
  lemma NotesFollow(m: Kasi.Model, msg: Msg, offset: int)
    ensures Kasi.ApplyOne(m, msg, offset).0.notes == Digest(m.notes, msg)
  {
  }

  /** Whatever has been logged, the collection's names are unique and valid. */
  lemma {:induction false} NamesStayUnique(c: Kasi.Config, log: seq<Envelope<Msg>>)
    ensures var notes := Fold(Kasi.System(c), log).notes; Distinct(notes) && AllValid(notes)
  {
    if log != [] {
      var front, e := log[..|log| - 1], log[|log| - 1];
      NamesStayUnique(c, front);
      var m := Fold(Kasi.System(c), front);
      Kasi.ApplyIs(c, m, e.msg, |log|);
      NotesFollow(m, e.msg, |log|);
      DigestIs(m.notes, e.msg);
      DigestKeepsValid(m.notes, e.msg);
    }
  }
}
