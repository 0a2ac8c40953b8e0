/**
 The archive holds the transcripts themselves: once a run's transcript job is discharged, the archive has a
 file named for that run whose bytes are what the workspace held for the run in some earlier state.
 */
module KasiTranscripts {
  import opened Prelude
  import opened Runtime
  import opened RuntimeProofs
  import opened Messages
  import opened Content
  import opened ArchiveProofs
  import opened Kasi
  import opened KasiFacts
  import opened KasiInv
  import opened KasiReplies
  import L = Ledger
  import R = ReplyId

  // ---------------------------------------------------------------- names

  function FileName(r: int): string
  {
    "transcript-" + (R.ItoaOf(r) + ".jsonl")
  }

  lemma NameIs(t: int, r: int, bytes: Bytes)
    ensures TranscriptRow(t, r, bytes).filename == FileName(r) && NamedTranscript(FileName(r))
  {
    assert FileName(r)[..11] == "transcript-";
  }

  lemma NamesDiffer(r: int, r': int)
    requires FileName(r) == FileName(r')
    ensures r == r'
  {
    DropPrefix("transcript-", R.ItoaOf(r) + ".jsonl", R.ItoaOf(r') + ".jsonl");
    var a, b := R.ItoaOf(r), R.ItoaOf(r');
    assert |a + ".jsonl"| == |b + ".jsonl"|;
    assert a == (a + ".jsonl")[..|a|] && b == (b + ".jsonl")[..|b|];
    R.ItoaInjective(r, r');
  }

  // ---------------------------------------------------------------- what the archive holds

  /** In some state up to `i` the workspace of task `t` held these bytes as the transcript of run `r`. */
  ghost predicate Was(states: seq<KState>, i: nat, t: int, r: int, bytes: Bytes)
    requires i < |states|
  {
    exists k :: 0 <= k <= i && (t, r) in states[k].world.transcripts && states[k].world.transcripts[(t, r)] == bytes
  }

  /** The file is the transcript of run `r`: so marked, and with bytes the workspace once held for it. */
  ghost predicate IsTranscriptOf(a: Archive, row: ArchiveRow, states: seq<KState>, i: nat, r: int)
    requires i < |states|
  {
    && row.filename == FileName(r) && row.run == r && row.kind == "transcript"
    && row.sha256 in a.blobs && Was(states, i, row.task, r, a.blobs[row.sha256])
  }

  ghost predicate RowTrue(a: Archive, row: ArchiveRow, states: seq<KState>, i: nat)
    requires i < |states|
  {
    NamedTranscript(row.filename) ==> exists r :: IsTranscriptOf(a, row, states, i, r)
  }

  ghost predicate ArchiveTrue(a: Archive, states: seq<KState>, i: nat)
    requires i < |states|
  {
    forall k :: 0 <= k < |a.rows| ==> RowTrue(a, a.rows[k], states, i)
  }

  /** A capture under way carries what the workspace once held. */
  ghost predicate CaptureTrue(x: Slot<SourceId, Msg, Loc>, states: seq<KState>, i: nat)
    requires i < |states|
  {
    x.run.Some? && x.run.value.Captured? ==> Was(states, i, x.run.value.task, x.run.value.run, x.run.value.bytes)
  }

  ghost predicate CapturesTrue(slots: seq<Slot<SourceId, Msg, Loc>>, states: seq<KState>, i: nat)
    requires i < |states|
  {
    forall k :: 0 <= k < |slots| ==> CaptureTrue(slots[k], states, i)
  }

  ghost predicate TranscriptsTrue(c: Config, states: seq<KState>, i: nat)
    requires i < |states|
  {
    && ArchiveOK(states[i].world.archive, c.hash) && ArchiveTrue(states[i].world.archive, states, i)
    && CapturesTrue(states[i].slots, states, i)
  }

  // ---------------------------------------------------------------- adding a file

  lemma WasStays(states: seq<KState>, i: nat, i': nat, t: int, r: int, bytes: Bytes)
    requires i <= i' < |states| && Was(states, i, t, r, bytes)
    ensures Was(states, i', t, r, bytes)
  {
  }

  lemma RowStaysTrue(a: Archive, a': Archive, row: ArchiveRow, states: seq<KState>, i: nat, i': nat)
    requires i <= i' < |states| && RowTrue(a, row, states, i)
    requires forall k :: k in a.blobs ==> k in a'.blobs && a'.blobs[k] == a.blobs[k]
    ensures RowTrue(a', row, states, i')
  {
    if NamedTranscript(row.filename) {
      var r :| IsTranscriptOf(a, row, states, i, r);
      WasStays(states, i, i', row.task, r, a.blobs[row.sha256]);
      assert IsTranscriptOf(a', row, states, i', r);
    }
  }

  lemma TrueStays(a: Archive, a': Archive, states: seq<KState>, i: nat, i': nat)
    requires i <= i' < |states| && ArchiveTrue(a, states, i) && a'.rows == a.rows
    requires forall k :: k in a.blobs ==> k in a'.blobs && a'.blobs[k] == a.blobs[k]
    ensures ArchiveTrue(a', states, i')
  {
    forall k | 0 <= k < |a'.rows| ensures RowTrue(a', a'.rows[k], states, i') {
      assert RowTrue(a, a.rows[k], states, i);
      RowStaysTrue(a, a', a.rows[k], states, i, i');
    }
  }

  /** The store after adding a file with its true hash: more blobs, and at most one row more, the file's own. */
  lemma Added(a: Archive, row: ArchiveRow, hash: Bytes -> string)
    requires GoodHash(hash) && ArchiveOK(a, hash) && Truthful(Add(row), hash)
    ensures var a' := AddArchive(a, row, hash).0;
      && ArchiveOK(a', hash)
      && (forall k :: k in a.blobs ==> k in a'.blobs && a'.blobs[k] == a.blobs[k])
      && (a'.rows == a.rows ||
          (a'.rows == a.rows + [row.(id := a.next + 1, sha256 := hash(row.bytes), bytes := [])]
            && hash(row.bytes) in a'.blobs && a'.blobs[hash(row.bytes)] == row.bytes))
  {
  }

  lemma AddKeepsTrue(a: Archive, row: ArchiveRow, hash: Bytes -> string, states: seq<KState>, i: nat)
    requires i < |states| && ArchiveTrue(a, states, i)
    requires GoodHash(hash) && ArchiveOK(a, hash) && Truthful(Add(row), hash)
    requires NamedTranscript(row.filename) ==> exists r ::
      row.filename == FileName(r) && row.run == r && row.kind == "transcript" && Was(states, i, row.task, r, row.bytes)
    ensures ArchiveTrue(AddArchive(a, row, hash).0, states, i)
  {
    var a' := AddArchive(a, row, hash).0;
    Added(a, row, hash);
    forall k | 0 <= k < |a'.rows| ensures RowTrue(a', a'.rows[k], states, i) {
      if k < |a.rows| {
        assert a'.rows[k] == a.rows[k] && RowTrue(a, a.rows[k], states, i);
        RowStaysTrue(a, a', a.rows[k], states, i, i);
      } else if NamedTranscript(row.filename) {
        var r :| row.filename == FileName(r) && row.run == r && row.kind == "transcript"
          && Was(states, i, row.task, r, row.bytes);
        assert IsTranscriptOf(a', a'.rows[k], states, i, r);
      }
    }
  }

  // ---------------------------------------------------------------- one move of edge code

  lemma CapturedAdds(c: Config, w: World, l: Loc, states: seq<KState>, i: nat)
    requires i < |states| && GoodHash(c.hash) && ArchiveOK(w.archive, c.hash) && ArchiveTrue(w.archive, states, i)
    requires l.Captured? && Was(states, i, l.task, l.run, l.bytes)
    ensures var a' := AddArchive(w.archive, TranscriptRow(l.task, l.run, l.bytes), c.hash).0;
      ArchiveOK(a', c.hash) && ArchiveTrue(a', states, i)
  {
    var row := TranscriptRow(l.task, l.run, l.bytes);
    NameIs(l.task, l.run, l.bytes);
    Added(w.archive, row, c.hash);
    AddKeepsTrue(w.archive, row, c.hash, states, i);
  }

  lemma EdgeKeepsTrue(c: Config, w: World, l: Loc, cancelled: bool, w': World, l': Loc, emit: Option<Msg>,
      states: seq<KState>, i: nat)
    requires i < |states| && GoodHash(c.hash) && ArchiveOK(w.archive, c.hash) && ArchiveTrue(w.archive, states, i)
    requires w.transcripts == states[i].world.transcripts
    requires l.Captured? ==> Was(states, i, l.task, l.run, l.bytes)
    requires Edge(c, w, l, cancelled, w', l', emit)
    ensures ArchiveOK(w'.archive, c.hash) && ArchiveTrue(w'.archive, states, i)
    ensures l'.Captured? ==> Was(states, i, l'.task, l'.run, l'.bytes)
  {
    if l.Captured? {
      CapturedAdds(c, w, l, states, i);
    } else if l.Archiving? {
      var row: ArchiveRow :| TaskFile(row, l.task, c.hash) && w' == w.(archive := AddArchive(w.archive, row, c.hash).0);
      Added(w.archive, row, c.hash);
      AddKeepsTrue(w.archive, row, c.hash, states, i);
    } else {
      assert w'.archive == w.archive;
    }
  }

  // ---------------------------------------------------------------- every step

  /** No goroutine begins with captured bytes, and only edge code gets there. */
  lemma SlotsKept(c: Config, s: KState, t: KStep)
    requires Inv(System(c), s) && Enabled(System(c), s, t) && !t.Act? && !t.Crash?
    ensures var a, b := s.slots, Next(System(c), s, t).slots;
      && |a| <= |b|
      && (forall k :: 0 <= k < |a| ==> b[k].run == a[k].run || b[k].run.None?)
      && (forall k :: |a| <= k < |b| && b[k].run.Some? ==> !b[k].run.value.Captured?)
  {
    if t.Diff? || t.BootDiff? {
      NoneBornCaptured(c, s, t);
    } else if GoroutineStep(t) && !t.Call? {
      GoroutineStepShape(System(c), s, t);
    }
  }

  lemma NoneBornCaptured(c: Config, s: KState, t: KStep)
    requires Inv(System(c), s) && Enabled(System(c), s, t) && (t.Diff? || t.BootDiff?)
    ensures var a, b := s.slots, Next(System(c), s, t).slots;
      && |a| <= |b|
      && (forall k :: 0 <= k < |a| ==> b[k].run == a[k].run)
      && (forall k :: |a| <= k < |b| && b[k].run.Some? ==> !b[k].run.value.Captured?)
  {
    NewSlotsStart(c, s, t);
  }

  lemma NewSlotsStart(c: Config, s: KState, t: KStep)
    requires Inv(System(c), s) && Enabled(System(c), s, t) && (t.Diff? || t.BootDiff?)
    ensures L.CarriedOver(s.slots, Next(System(c), s, t).slots, (l: Loc) => !l.Captured?)
  {
    forall id | id in System(c).sources(s.model) ensures !System(c).sources(s.model)[id].start.Captured? {
      StartsAtBody(s.model, id);
    }
    L.SourcesComeFresh(System(c), s, t, (l: Loc) => !l.Captured?);
  }

  lemma CapturesStay(a: seq<Slot<SourceId, Msg, Loc>>, b: seq<Slot<SourceId, Msg, Loc>>, states: seq<KState>, i: nat,
      i': nat)
    requires i <= i' < |states| && CapturesTrue(a, states, i) && |a| <= |b|
    requires forall k :: 0 <= k < |a| ==> b[k].run == a[k].run || b[k].run.None?
    requires forall k :: |a| <= k < |b| && b[k].run.Some? ==> !b[k].run.value.Captured?
    ensures CapturesTrue(b, states, i')
  {
    forall k | 0 <= k < |b| ensures CaptureTrue(b[k], states, i') {
      if k < |a| && b[k].run.Some? && b[k].run.value.Captured? {
        assert CaptureTrue(a[k], states, i);
        WasStays(states, i, i', b[k].run.value.task, b[k].run.value.run, b[k].run.value.bytes);
      }
    }
  }

  lemma MovedCaptures(a: seq<Slot<SourceId, Msg, Loc>>, k: nat, x: Slot<SourceId, Msg, Loc>, states: seq<KState>,
      i: nat, i': nat)
    requires i <= i' < |states| && k < |a| && CapturesTrue(a, states, i) && CaptureTrue(x, states, i')
    ensures CapturesTrue(a[k := x], states, i')
  {
    var b := a[k := x];
    forall j | 0 <= j < |b| ensures CaptureTrue(b[j], states, i') {
      assert CaptureTrue(a[j], states, i);
      CaptureStays(a[j], states, i, i');
    }
  }

  /** What the move does to the archive and to the goroutine that moved. */
  lemma ActMoves(c: Config, s: KState, t: KStep, states: seq<KState>, i: nat)
    requires GoodHash(c.hash) && i < |states| && TranscriptsTrue(c, states, i) && s == states[i]
    requires Inv(System(c), s) && Enabled(System(c), s, t) && t.Act?
    ensures ArchiveOK(t.world.archive, c.hash) && ArchiveTrue(t.world.archive, states, i)
    ensures t.local.Captured? ==> Was(states, i, t.local.task, t.local.run, t.local.bytes)
  {
    assert CaptureTrue(s.slots[t.k], states, i);
    EdgeKeepsTrue(c, s.world, s.slots[t.k].run.value, Cancelled(s, t.k), t.world, t.local, t.emit, states, i);
  }

  lemma ActShape(c: Config, s: KState, t: KStep)
    requires Inv(System(c), s) && Enabled(System(c), s, t) && t.Act?
    ensures var r := Next(System(c), s, t);
      && r.world == t.world && t.k < |s.slots| && t.k < |r.slots|
      && r.slots == s.slots[t.k := r.slots[t.k]] && r.slots[t.k].run == Some(t.local)
  {
    GoroutineStepShape(System(c), s, t);
  }

  lemma ActKeepsTrue(c: Config, states: seq<KState>, i: nat, t: KStep)
    requires GoodHash(c.hash) && 0 < i < |states| && TranscriptsTrue(c, states, i - 1)
    requires Inv(System(c), states[i - 1]) && Enabled(System(c), states[i - 1], t) && t.Act?
    requires states[i] == Next(System(c), states[i - 1], t)
    ensures TranscriptsTrue(c, states, i)
  {
    ActMoves(c, states[i - 1], t, states, i - 1);
    ActShape(c, states[i - 1], t);
    ActCarries(c, states, i, t.k, t.local);
  }

  lemma ActCarries(c: Config, states: seq<KState>, i: nat, k: nat, l: Loc)
    requires 0 < i < |states| && CapturesTrue(states[i - 1].slots, states, i - 1)
    requires ArchiveOK(states[i].world.archive, c.hash) && ArchiveTrue(states[i].world.archive, states, i - 1)
    requires k < |states[i - 1].slots| && k < |states[i].slots|
    requires states[i].slots == states[i - 1].slots[k := states[i].slots[k]] && states[i].slots[k].run == Some(l)
    requires l.Captured? ==> Was(states, i - 1, l.task, l.run, l.bytes)
    ensures TranscriptsTrue(c, states, i)
  {
    TrueStays(states[i].world.archive, states[i].world.archive, states, i - 1, i);
    if l.Captured? { WasStays(states, i - 1, i, l.task, l.run, l.bytes); }
    MovedCaptures(states[i - 1].slots, k, states[i].slots[k], states, i - 1, i);
  }

  lemma CaptureStays(x: Slot<SourceId, Msg, Loc>, states: seq<KState>, i: nat, i': nat)
    requires i <= i' < |states| && CaptureTrue(x, states, i)
    ensures CaptureTrue(x, states, i')
  {
    if x.run.Some? && x.run.value.Captured? {
      WasStays(states, i, i', x.run.value.task, x.run.value.run, x.run.value.bytes);
    }
  }

  lemma OtherKeepsTrue(c: Config, states: seq<KState>, i: nat, t: KStep)
    requires 0 < i < |states| && TranscriptsTrue(c, states, i - 1)
    requires Inv(System(c), states[i - 1]) && Enabled(System(c), states[i - 1], t) && !t.Act?
    requires states[i] == Next(System(c), states[i - 1], t)
    ensures TranscriptsTrue(c, states, i)
  {
    var s, r := states[i - 1], states[i];
    SameArchive(c, s, t);
    TrueStays(s.world.archive, r.world.archive, states, i - 1, i);
    if !t.Crash? {
      SlotsKept(c, s, t);
      CapturesStay(s.slots, r.slots, states, i - 1, i);
    }
  }

  lemma SameArchive(c: Config, s: KState, t: KStep)
    requires Inv(System(c), s) && Enabled(System(c), s, t) && !t.Act?
    ensures var a, b := s.world.archive, Next(System(c), s, t).world.archive; b == a.(failing := b.failing)
  {
    if !t.Outside? { OnlyEdgesTouchTheWorld(c, s, t); }
  }

  lemma TrueOverStep(c: Config, states: seq<KState>, steps: seq<KStep>, i: nat)
    requires KRun(c, states, steps) && GoodHash(c.hash) && 0 < i < |states| && TranscriptsTrue(c, states, i - 1)
    ensures TranscriptsTrue(c, states, i)
  {
    RunStep(c, states, steps, i);
    if steps[i - 1].Act? {
      ActKeepsTrue(c, states, i, steps[i - 1]);
    } else {
      OtherKeepsTrue(c, states, i, steps[i - 1]);
    }
  }

  lemma {:induction false} RunKeepsTrue(c: Config, states: seq<KState>, steps: seq<KStep>, i: nat)
    requires KRun(c, states, steps) && GoodHash(c.hash) && ArchiveOK(states[0].world.archive, c.hash) && i < |states|
    ensures TranscriptsTrue(c, states, i)
  {
    if i > 0 {
      RunKeepsTrue(c, states, steps, i - 1);
      TrueOverStep(c, states, steps, i);
    }
  }

  /**
   Once a transcript job is logged as discharged, the archive lists a file of that run's task, named and marked
   for the run, and its bytes are what the workspace held as the run's transcript in some earlier state.
   */
  lemma DischargedTranscriptIsTrue(c: Config, states: seq<KState>, steps: seq<KStep>, i: nat, j: nat)
    requires KRun(c, states, steps) && GoodHash(c.hash) && ArchiveOK(states[0].world.archive, c.hash)
    requires i < |states| && j < |states[i].log|
    requires states[i].log[j].msg.MarkHarvested? && states[i].log[j].msg.kind == Transcript
    ensures var run, a := states[i].log[j].msg.run, states[i].world.archive;
      exists t, k :: RunOf(Fold(System(c), Folded(states[i])), t, run)
        && 0 <= k < |a.rows| && a.rows[k].task == t && IsTranscriptOf(a, a.rows[k], states, i, run)
  {
    DischargedTranscriptIsArchived(c, states, steps, i, j);
    RunKeepsTrue(c, states, steps, i);
    var run, a := states[i].log[j].msg.run, states[i].world.archive;
    var t :| RunOf(Fold(System(c), Folded(states[i])), t, run) && HasTranscript(states[i].world, t, run);
    var k :| 0 <= k < |a.rows| && a.rows[k].task == t && a.rows[k].filename == TranscriptRow(t, run, []).filename;
    NameIs(t, run, []);
    assert RowTrue(a, a.rows[k], states, i);
    var r :| IsTranscriptOf(a, a.rows[k], states, i, r);
    NamesDiffer(r, run);
  }
}
