/**
 The workspace (workspace/workspace_memory.go): one tree of boxes per task, changed in place, with the
 set of memory names each run was given. Listings are stated up to order.
 */
module Workspace {
  import opened Prelude
  import opened Content
  import opened Memories
  import opened Strings
  import R = ReplyId

  /** One task directory; `provisioned` is kept apart from its files. */
  datatype Tree = Tree(inBox: map<string, Bytes>, out: map<string, Bytes>, skills: map<string, Bytes>,
    transcripts: map<int, Bytes>, provisioned: seq<string>)

  const EMPTY := Tree(map[], map[], map[], map[], [])

  function TranscriptName(run: int): string
  {
    "transcript-" + (R.ItoaOf(run) + ".jsonl")
  }

  ghost predicate InBox(prefix: string, box: map<string, Bytes>, part: Part)
  {
    exists n :: n in box && part == Part(prefix + n, box[n])
  }

  ghost predicate IsTranscript(transcripts: map<int, Bytes>, part: Part)
  {
    exists run :: run in transcripts && part == Part(TranscriptName(run), transcripts[run])
  }

  /** The files of a tree, named relative to the task directory. */
  ghost predicate Holds(t: Tree, part: Part)
  {
    InBox("in/", t.inBox, part) || InBox("out/", t.out, part) || InBox(".claude/skills/", t.skills, part) ||
      IsTranscript(t.transcripts, part)
  }

  // ---------------------------------------------------------------- memory notes in the in/ box

  function NoteKey(name: string): string
  {
    "memory/" + name + ".md"
  }

  /** The note a path in the in/ box stands for, if it is a note. */
  function NoteName(key: string): Option<string>
  {
    match CutPrefix(key, "memory/")
    case None => None
    case Some(rel) => if '/' in rel then None else CutSuffix(rel, ".md")
  }

  /** A note's path names that note and no other. */
  lemma NoteNameInverts(name: string, key: string)
    ensures '/' !in name ==> NoteName(NoteKey(name)) == Some(name)
    ensures NoteName(key).Some? ==> key == NoteKey(NoteName(key).value)
  {
    assert NoteKey(name)[..7] == "memory/" && NoteKey(name)[7..] == name + ".md";
    assert (name + ".md")[|name|..] == ".md" && (name + ".md")[..|name|] == name;
    if NoteName(key).Some? {
      var rel := key[7..];
      assert key == key[..7] + rel;
      assert rel == rel[..|rel| - 3] + rel[|rel| - 3..];
    }
  }

  const INDEX := "MEMORY.md"

  /** A name that stays one segment inside the box; cleaning its path changes nothing. */
  predicate Safe(name: string)
  {
    name != "" && '/' !in name
  }

  function Provisionable(notes: seq<Note>): seq<Note>
  {
    if notes == [] then []
    else Provisionable(notes[..|notes| - 1]) + if Safe(notes[|notes| - 1].name) then [notes[|notes| - 1]] else []
  }

  function Names(notes: seq<Note>): seq<string>
  {
    if notes == [] then [] else Names(notes[..|notes| - 1]) + [notes[|notes| - 1].name]
  }

  /** The collection as a map; a later note overrides an earlier one of the same name. */
  function AsMap(notes: seq<Note>): map<string, Bytes>
  {
    if notes == [] then map[] else AsMap(notes[..|notes| - 1])[notes[|notes| - 1].name := notes[|notes| - 1].content]
  }

  lemma {:induction false} AsMapKeys(notes: seq<Note>)
    ensures forall name :: name in AsMap(notes) <==> name in Names(notes)
    ensures forall i :: 0 <= i < |notes| ==> notes[i].name in AsMap(notes)
  {
    if notes != [] {
      AsMapKeys(notes[..|notes| - 1]);
    }
  }

  lemma {:induction false} ProvisionableAllSafe(notes: seq<Note>)
    ensures forall i :: 0 <= i < |Provisionable(notes)| ==> Safe(Provisionable(notes)[i].name)
    ensures (forall i :: 0 <= i < |notes| ==> Safe(notes[i].name)) ==> Provisionable(notes) == notes
  {
    if notes != [] {
      ProvisionableAllSafe(notes[..|notes| - 1]);
    }
  }

  /** What provisioning does to one path of the in/ box: notes are the collection's, the rest is left alone. */
  ghost predicate Provisioned(before: map<string, Bytes>, after: map<string, Bytes>, notes: seq<Note>)
  {
    && (forall name :: '/' !in name ==> (NoteKey(name) in after <==> name in AsMap(notes)))
    && (forall name :: name in AsMap(notes) ==> NoteKey(name) in after && after[NoteKey(name)] == AsMap(notes)[name])
    && (INDEX in after <==> notes != [])
    && (forall key :: NoteName(key).None? && key != INDEX ==>
          (key in after <==> key in before) && (key in before ==> after[key] == before[key]))
  }

  class Memory {
    var trees: map<int, Tree>
    var failProvisioned: nat

    constructor ()
      ensures trees == map[] && failProvisioned == 0
    {
      trees, failProvisioned := map[], 0;
    }

    /** The task's tree, created empty when it is absent. */
    method Ensure(task: int) returns (t: Tree)
      modifies `trees
      ensures task in trees && t == trees[task]
      ensures trees == if task in old(trees) then old(trees) else old(trees)[task := EMPTY]
    {
      if task !in trees {
        trees := trees[task := EMPTY];
      }
      t := trees[task];
    }

    method ListBox(prefix: string, box: map<string, Bytes>) returns (parts: seq<Part>)
      ensures forall p :: p in parts <==> InBox(prefix, box, p)
    {
      parts := [];
      var todo := box.Keys;
      while todo != {}
        invariant todo <= box.Keys
        invariant forall p :: p in parts <==> exists n :: n in box.Keys - todo && p == Part(prefix + n, box[n])
        decreases todo
      {
        var n := Pick(todo);
        todo := todo - {n};
        parts := parts + [Part(prefix + n, box[n])];
      }
      assert box.Keys - todo == box.Keys;
    }

    method ListTranscripts(transcripts: map<int, Bytes>) returns (parts: seq<Part>)
      ensures forall p :: p in parts <==> IsTranscript(transcripts, p)
    {
      parts := [];
      var todo := transcripts.Keys;
      while todo != {}
        invariant todo <= transcripts.Keys
        invariant forall p :: p in parts <==>
          exists run :: run in transcripts.Keys - todo && p == Part(TranscriptName(run), transcripts[run])
        decreases todo
      {
        var run := Pick(todo);
        todo := todo - {run};
        parts := parts + [Part(TranscriptName(run), transcripts[run])];
      }
      assert transcripts.Keys - todo == transcripts.Keys;
    }

    method ListTree(t: Tree) returns (parts: seq<Part>)
      ensures forall p :: p in parts <==> Holds(t, p)
    {
      var a := ListBox("in/", t.inBox);
      var b := ListBox("out/", t.out);
      var c := ListBox(".claude/skills/", t.skills);
      var d := ListTranscripts(t.transcripts);
      parts := a + b + c + d;
    }

    /** Every file of a task, or None when it has no workspace. */
    method Files(task: int) returns (parts: Option<seq<Part>>)
      ensures parts.Some? <==> task in trees
      ensures parts.Some? ==> forall p :: p in parts.value <==> Holds(trees[task], p)
    {
      if task !in trees {
        return None;
      }
      var q := ListTree(trees[task]);
      parts := Some(q);
    }

    /** Remove a task's tree unless some file's hash is missing from `archived`. */
    method Delete(task: int, archived: set<string>, hash: Bytes -> string) returns (ok: bool)
      modifies `trees
      ensures ok <==> task in old(trees) ==> forall p :: Holds(old(trees)[task], p) ==> hash(p.bytes) in archived
      ensures trees == if ok then old(trees) - {task} else old(trees)
    {
      if task !in trees {
        assert trees - {task} == trees;
        return true;
      }
      var parts := ListTree(trees[task]);
      for i := 0 to |parts|
        invariant forall j :: 0 <= j < i ==> hash(parts[j].bytes) in archived
      {
        if hash(parts[i].bytes) !in archived {
          assert Holds(trees[task], parts[i]);
          return false;
        }
      }
      trees := trees - {task};
      return true;
    }

    /** Lay the collection into the in/ box, dropping stale notes, and record the names laid. */
    method WriteMemory(task: int, all: seq<Note>)
      modifies `trees
      ensures trees.Keys == old(trees).Keys + {task}
      ensures var t := if task in old(trees) then old(trees)[task] else EMPTY;
        && trees[task] == t.(inBox := trees[task].inBox, provisioned := Names(Provisionable(all)))
        && Provisioned(t.inBox, trees[task].inBox, Provisionable(all))
      ensures forall other :: other in old(trees) && other != task ==> trees[other] == old(trees)[other]
    {
      var notes := KeepSafe(all);
      var t := Ensure(task);
      var keep := AsMap(notes).Keys;
      var box := PruneNotes(t.inBox, keep);
      if notes == [] {
        box := box - {INDEX};
      } else {
        box := LayNotes(box, notes);
        box := box[INDEX := Index(notes)];
      }
      LaidMeansProvisioned(all, notes, t.inBox, box);
      trees := trees[task := t.(inBox := box, provisioned := Names(notes))];
    }

    method KeepSafe(all: seq<Note>) returns (notes: seq<Note>)
      ensures notes == Provisionable(all)
    {
      notes := [];
      for i := 0 to |all|
        invariant notes == Provisionable(all[..i])
      {
        assert all[..i + 1][..i] == all[..i];
        if !Safe(all[i].name) {
          continue;
        }
        notes := notes + [all[i]];
      }
      assert all[..|all|] == all;
    }

    /** Drop every note that is not to be kept. */
    method PruneNotes(before: map<string, Bytes>, keep: set<string>) returns (box: map<string, Bytes>)
      ensures box == Pruned(before, keep)
    {
      box := before;
      var todo := before.Keys;
      while todo != {}
        invariant todo <= before.Keys && box.Keys <= before.Keys
        invariant forall key :: key in before ==> (key in box <==> key in todo || !Stale(key, keep))
        invariant forall key :: key in box ==> box[key] == before[key]
        decreases todo
      {
        var key := Pick(todo);
        todo := todo - {key};
        var name := NoteName(key);
        if name.None? || name.value in keep {
          continue;
        }
        box := box - {key};
      }
    }

    method LayNotes(before: map<string, Bytes>, notes: seq<Note>) returns (box: map<string, Bytes>)
      ensures box == Laid(before, notes)
    {
      box := before;
      for i := 0 to |notes|
        invariant box == Laid(before, notes[..i])
      {
        assert notes[..i + 1][..i] == notes[..i];
        box := box[NoteKey(notes[i].name) := notes[i].content];
      }
      assert notes[..|notes|] == notes;
    }

    /** The names the task's run was given, unless the read is scripted to fail. */
    method ProvisionedMemory(task: int) returns (names: Option<seq<string>>)
      modifies `failProvisioned
      ensures names == if old(failProvisioned) > 0 then None
        else Some(if task in trees then trees[task].provisioned else [])
      ensures failProvisioned == if names.None? then old(failProvisioned) - 1 else old(failProvisioned)
    {
      if failProvisioned > 0 {
        failProvisioned := failProvisioned - 1;
        return None;
      }
      return Some(if task in trees then trees[task].provisioned else []);
    }
  }

  // ---------------------------------------------------------------- what the loops compute

  predicate Stale(key: string, keep: set<string>)
  {
    NoteName(key).Some? && NoteName(key).value !in keep
  }

  function Pruned(box: map<string, Bytes>, keep: set<string>): map<string, Bytes>
  {
    map key | key in box && !Stale(key, keep) :: box[key]
  }

  function Laid(box: map<string, Bytes>, notes: seq<Note>): map<string, Bytes>
  {
    if notes == [] then box
    else Laid(box, notes[..|notes| - 1])[NoteKey(notes[|notes| - 1].name) := notes[|notes| - 1].content]
  }

  /** The index text; what it says about each note does not matter here. */
  function Index(notes: seq<Note>): Bytes
  {
    if notes == [] then [] else Index(notes[..|notes| - 1]) + [45]
  }

  lemma NoteKeysDiffer(a: string, b: string)
    requires NoteKey(a) == NoteKey(b)
    ensures a == b
  {
    assert NoteKey(a)[7..|NoteKey(a)| - 3] == a && NoteKey(b)[7..|NoteKey(b)| - 3] == b;
  }

  lemma {:induction false} LaidIs(box: map<string, Bytes>, notes: seq<Note>)
    ensures forall name :: name in AsMap(notes) ==>
      NoteKey(name) in Laid(box, notes) && Laid(box, notes)[NoteKey(name)] == AsMap(notes)[name]
    ensures forall name :: name !in AsMap(notes) ==> (NoteKey(name) in Laid(box, notes) <==> NoteKey(name) in box)
    ensures forall key :: (forall name :: key != NoteKey(name)) ==>
      (key in Laid(box, notes) <==> key in box) && (key in box ==> Laid(box, notes)[key] == box[key])
  {
    if notes != [] {
      var front, last := notes[..|notes| - 1], notes[|notes| - 1];
      LaidIs(box, front);
      forall name | name != last.name ensures NoteKey(name) != NoteKey(last.name) {
        if NoteKey(name) == NoteKey(last.name) { NoteKeysDiffer(name, last.name); }
      }
    }
  }

  lemma IndexIsNoNote(name: string)
    ensures NoteKey(name) != INDEX && NoteName(INDEX).None?
  {
    assert NoteKey(name)[0] == 'm' && INDEX[0] == 'M';
  }

  lemma LaidMeansProvisioned(all: seq<Note>, notes: seq<Note>, before: map<string, Bytes>, after: map<string, Bytes>)
    requires notes == Provisionable(all)
    requires var box := Pruned(before, AsMap(notes).Keys);
      after == if notes == [] then box - {INDEX} else Laid(box, notes)[INDEX := Index(notes)]
    ensures Provisioned(before, after, notes)
  {
    var box := Pruned(before, AsMap(notes).Keys);
    LaidIs(box, notes);
    forall name | '/' !in name ensures NoteKey(name) in after <==> name in AsMap(notes) {
      NoteNameInverts(name, "");
      IndexIsNoNote(name);
    }
    forall name | name in AsMap(notes) ensures NoteKey(name) in after && after[NoteKey(name)] == AsMap(notes)[name] {
      IndexIsNoNote(name);
    }
    forall key | NoteName(key).None? && key != INDEX ensures (key in after <==> key in before) &&
      (key in before ==> after[key] == before[key]) {
      OnlySafeKeys(all, notes, key);
    }
  }

  /** A path that is no note is not the path of any provisioned note. */
  lemma OnlySafeKeys(all: seq<Note>, notes: seq<Note>, key: string)
    requires notes == Provisionable(all) && NoteName(key).None?
    ensures forall name :: name in AsMap(notes) ==> key != NoteKey(name)
    ensures forall box :: key in Laid(box, notes) <==> key in box
    ensures forall box :: key in box ==> key in Laid(box, notes) && Laid(box, notes)[key] == box[key]
  {
    ProvisionableAllSafe(all);
    SafeKeys(notes, key);
  }

  lemma {:induction false} SafeKeys(notes: seq<Note>, key: string)
    requires NoteName(key).None? && forall i :: 0 <= i < |notes| ==> Safe(notes[i].name)
    ensures forall name :: name in AsMap(notes) ==> key != NoteKey(name)
    ensures forall box :: key in Laid(box, notes) <==> key in box
    ensures forall box :: key in box ==> key in Laid(box, notes) && Laid(box, notes)[key] == box[key]
  {
    if notes != [] {
      SafeKeys(notes[..|notes| - 1], key);
      NoteNameInverts(notes[|notes| - 1].name, key);
    }
  }
}
