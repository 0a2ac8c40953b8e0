/** The invariant of the assembled system and its preservation by every step. */
module KasiInv {
  import opened Prelude
  import opened Runtime
  import opened RuntimeProofs
  import opened Ledger
  import opened Messages
  import opened Content
  import opened ReplyBody
  import opened Kasi
  import opened KasiFacts
  import opened KasiApply
  import opened KasiSources

  /** The model the log denotes, up to the message being applied. */
  ghost function Denotes(c: Config, s: KState): Model
  {
    Fold(System(c), Folded(s))
  }

  ghost predicate KInv(c: Config, s: KState)
  {
    && Inv(System(c), s)
    && WorldOK(s.world)
    && ModelOK(c, s.world, Denotes(c, s), |Folded(s)|)
    && Carries(s, Goods(c, s.world, Denotes(c, s)))
  }

  // ---------------------------------------------------------------- edge code

  /** Rows keep their identity and bytes, sent mail and archive rows are only added. */
  ghost predicate TablesGrow(w: World, w': World)
  {
    && |w.outbox.rows| <= |w'.outbox.rows|
    && (forall i :: 0 <= i < |w.outbox.rows| ==> w'.outbox.rows[i] == w.outbox.rows[i].(sent := w'.outbox.rows[i].sent))
    && w.sent <= w'.sent
    && w.archive.rows <= w'.archive.rows
  }

  lemma TablesMeanGrowth(w: World, w': World)
    requires TablesGrow(w, w')
    ensures WorldGrows(w, w')
  {
    forall x, mid, raw | HasRow(w.outbox, x, mid, raw) ensures HasRow(w'.outbox, x, mid, raw) {
      var i :| 0 <= i < |w.outbox.rows| && w.outbox.rows[i].id == x && w.outbox.rows[i].messageID == mid &&
        w.outbox.rows[i].raw == raw;
      assert w'.outbox.rows[i] == w.outbox.rows[i].(sent := w'.outbox.rows[i].sent);
    }
    forall t, r | HasTranscript(w, t, r) ensures HasTranscript(w', t, r) {
      var i :| 0 <= i < |w.archive.rows| && w.archive.rows[i].task == t &&
        w.archive.rows[i].filename == TranscriptRow(t, r, []).filename;
      assert w'.archive.rows[i] == w.archive.rows[i];
    }
  }

  /** Mail sent before stays backed by its row. */
  lemma SentStaysBacked(w: World, w': World)
    requires WorldOK(w) && WorldGrows(w, w') && OutboxOK(w'.outbox)
    requires forall i :: |w.sent| <= i < |w'.sent| ==> Backed(w', w'.sent[i])
    ensures WorldOK(w')
  {
    forall i | 0 <= i < |w'.sent| ensures Backed(w', w'.sent[i]) {
      if i < |w.sent| {
        assert w'.sent[i] == w.sent[i] && Backed(w, w.sent[i]);
        var x :| HasRow(w.outbox, x, w.sent[i].messageID, w.sent[i]);
        assert HasRow(w'.outbox, x, w'.sent[i].messageID, w'.sent[i]);
      }
    }
  }

  /** What one atomic step of edge code guarantees. */
  ghost predicate EdgeKeeps(c: Config, w: World, m: Model, w': World, l': Loc, emit: Option<Msg>)
  {
    WorldOK(w') && WorldGrows(w, w') && LocOK(c, w', m, l') && (emit.Some? ==> MsgOK(c, w', m, emit.value))
  }

  /** Queueing the reply: the row is there, under the reply's Message-ID, before anything is announced. */
  lemma QueueRow(c: Config, w: World, m: Model, l: Loc, row: OutboxRow)
    requires WorldOK(w) && LocOK(c, w, m, l) && l.Assembling?
    requires row.messageID == row.raw.messageID == ReplyID(c, l.task, l.run)
    ensures var (o, id) := AddOutbox(w.outbox, row);
      EdgeKeeps(c, w, m, w.(outbox := o), Queueing(l.task, l.run, id, row.messageID), None)
  {
    var (o, id) := AddOutbox(w.outbox, row);
    var w' := w.(outbox := o);
    AddOutboxKeeps(w.outbox, row);
    assert forall i :: 0 <= i < |w.outbox.rows| ==> w'.outbox.rows[i] == w.outbox.rows[i];
    TablesMeanGrowth(w, w');
    SentStaysBacked(w, w');
    assert Row(w', id, row.messageID);
  }

  lemma AssembleStep(c: Config, w: World, m: Model, l: Loc, cancelled: bool, w': World, l': Loc, emit: Option<Msg>)
    requires WorldOK(w) && LocOK(c, w, m, l) && Edge(c, w, l, cancelled, w', l', emit) && l.Assembling?
    ensures EdgeKeeps(c, w, m, w', l', emit)
  {
    var text: string, url: string, attachments: seq<Part> :|
      var row := ReplyRow(l.task, l.run, l.from, l.inReplyTo, l.references, text + Footer(url, l.requestLink),
        attachments);
      var (o, id) := AddOutbox(w.outbox, row);
      emit == None && w' == w.(outbox := o) && l' == Queueing(l.task, l.run, id, row.messageID);
    var body := text + Footer(url, l.requestLink);
    QueueRow(c, w, m, l, ReplyRow(l.task, l.run, l.from, l.inReplyTo, l.references, body, attachments));
  }

  lemma SubmitStep(c: Config, w: World, m: Model, l: Loc, cancelled: bool, w': World, l': Loc, emit: Option<Msg>)
    requires WorldOK(w) && LocOK(c, w, m, l) && Edge(c, w, l, cancelled, w', l', emit) && l.Sending?
    ensures EdgeKeeps(c, w, m, w', l', emit)
    ensures |w'.sent| == |w.sent| + 1 && w.sent <= w'.sent && w'.sent[|w.sent|].messageID == l.messageID
  {
    var raw :| HasRow(w.outbox, l.outboxID, l.messageID, raw);
    FindOutboxIs(w.outbox, l.outboxID, l.messageID, raw);
    TablesMeanGrowth(w, w');
    assert w'.sent[|w.sent|] == raw && HasRow(w'.outbox, l.outboxID, l.messageID, w'.sent[|w.sent|]);
    assert Backed(w', raw);
    SentStaysBacked(w, w');
    assert Row(w', l.outboxID, l.messageID);
    assert WasSubmitted(w', l.messageID);
  }

  lemma MarkedOutboxOK(o: Outbox, x: int)
    requires OutboxOK(o) && MarkOutboxSent(o, x).Some?
    ensures var o' := MarkOutboxSent(o, x).value;
      && OutboxOK(o') && |o'.rows| == |o.rows|
      && forall i :: 0 <= i < |o.rows| ==> o'.rows[i] == o.rows[i].(sent := o'.rows[i].sent)
  {
    var o' := MarkOutboxSent(o, x).value;
    forall i, j | 0 <= i < j < |o'.rows| ensures o'.rows[i].messageID != o'.rows[j].messageID {
      assert o.rows[i].messageID != o.rows[j].messageID;
    }
  }

  lemma MarkedWorld(w: World, x: int)
    requires WorldOK(w) && MarkOutboxSent(w.outbox, x).Some?
    ensures var w' := w.(outbox := MarkOutboxSent(w.outbox, x).value); WorldOK(w') && WorldGrows(w, w')
  {
    var w' := w.(outbox := MarkOutboxSent(w.outbox, x).value);
    MarkedOutboxOK(w.outbox, x);
    TablesMeanGrowth(w, w');
    SentStaysBacked(w, w');
  }

  lemma MarkStep(c: Config, w: World, m: Model, l: Loc, cancelled: bool, w': World, l': Loc, emit: Option<Msg>)
    requires WorldOK(w) && LocOK(c, w, m, l) && Edge(c, w, l, cancelled, w', l', emit) && l.Submitted?
    ensures EdgeKeeps(c, w, m, w', l', emit)
  {
    MarkedWorld(w, l.outboxID);
    RowGrows(w, w', l.outboxID, l.messageID);
    assert MsgOK(c, w', m, MarkEmailSent(l.outboxID));
  }

  /** Archiving adds rows only, and an archived transcript is there before it is announced. */
  lemma ArchiveStep(c: Config, w: World, m: Model, l: Loc, cancelled: bool, w': World, l': Loc, emit: Option<Msg>)
    requires WorldOK(w) && LocOK(c, w, m, l) && Edge(c, w, l, cancelled, w', l', emit) && (l.Captured? || l.Archiving?)
    ensures EdgeKeeps(c, w, m, w', l', emit)
  {
    ArchivedWorld(w, w'.archive);
    if l.Captured? {
      TranscriptArchived(c, w, l.task, l.run, l.bytes);
      assert RunOf(m, l.task, l.run) && HasTranscript(w', l.task, l.run);
    }
  }

  lemma ArchivedWorld(w: World, a: Archive)
    requires WorldOK(w) && w.archive.rows <= a.rows
    ensures WorldOK(w.(archive := a)) && WorldGrows(w, w.(archive := a))
  {
    TablesMeanGrowth(w, w.(archive := a));
    SentStaysBacked(w, w.(archive := a));
  }

  lemma TranscriptArchived(c: Config, w: World, t: int, r: int, bytes: Bytes)
    ensures var (a, id) := AddArchive(w.archive, TranscriptRow(t, r, bytes), c.hash);
      id.Some? ==> HasTranscript(w.(archive := a), t, r)
  {
    var row := TranscriptRow(t, r, bytes);
    var (a, id) := AddArchive(w.archive, row, c.hash);
    var i := FirstIndex(w.archive.rows, (x: ArchiveRow) => SameFile(x, row.(sha256 := c.hash(row.bytes))));
    if id.Some? {
      assert a.rows[i].task == t && a.rows[i].filename == row.filename;
    }
  }

  lemma QuietStep(c: Config, w: World, m: Model, l: Loc, cancelled: bool, w': World, l': Loc, emit: Option<Msg>)
    requires WorldOK(w) && LocOK(c, w, m, l) && Edge(c, w, l, cancelled, w', l', emit)
    requires !l.Assembling? && !l.Sending? && !l.Submitted? && !l.Captured? && !l.Archiving?
    ensures w' == w && LocOK(c, w, m, l') && (emit.Some? ==> MsgOK(c, w, m, emit.value))
  {
  }

  lemma EdgeStep(c: Config, w: World, m: Model, l: Loc, cancelled: bool, w': World, l': Loc, emit: Option<Msg>)
    requires WorldOK(w) && LocOK(c, w, m, l) && Edge(c, w, l, cancelled, w', l', emit)
    ensures EdgeKeeps(c, w, m, w', l', emit)
  {
    if l.Assembling? {
      AssembleStep(c, w, m, l, cancelled, w', l', emit);
    } else if l.Sending? {
      SubmitStep(c, w, m, l, cancelled, w', l', emit);
    } else if l.Submitted? {
      MarkStep(c, w, m, l, cancelled, w', l', emit);
    } else if l.Captured? || l.Archiving? {
      ArchiveStep(c, w, m, l, cancelled, w', l', emit);
    } else {
      QuietStep(c, w, m, l, cancelled, w', l', emit);
      TablesMeanGrowth(w, w);
    }
  }

  // ---------------------------------------------------------------- declared sources

  lemma DeclaredOK(c: Config, w: World, m: Model, n: nat, id: SourceId)
    requires ModelOK(c, w, m, n) && id in Sources(m)
    ensures LocOK(c, w, m, Sources(m)[id].start)
  {
    match id
    case HarvestKey(kind, r) =>
      HarvestDeclared(m, kind, r);
      var i :| 0 <= i < |m.tasks.pending| && JobSource(m.tasks.pending[i], id, Sources(m)[id]);
      assert JobOK(c, m, m.tasks.pending[i]);
    case SendKey(x) =>
      SendDeclared(m, x);
      var i :| 0 <= i < |m.outbox| && EntrySource(m.outbox[i], id, Sources(m)[id]);
      assert EntryOK(w, m, m.outbox[i]);
    case _ =>
      RunDeclared(m, id);
      var i :| 0 <= i < |m.agents.runs| && RunSource(m.agents.runs[i], ActiveOf(m), id, Sources(m)[id]);
      assert RunOf(m, m.agents.runs[i].task, m.agents.runs[i].id);
  }

  // ---------------------------------------------------------------- steps

  lemma OnlyEdgesTouchTheWorld(c: Config, s: KState, t: KStep)
    requires Inv(System(c), s) && Enabled(System(c), s, t) && !t.Act? && !t.Outside?
    ensures Next(System(c), s, t).world == s.world
  {
    if t.Diff? || t.BootDiff? {
      ReconcileMeansDeclared(System(c), s, t.gone, t.added);
    }
  }

  /** Rows stay, sent mail stays. */
  lemma StepWorld(c: Config, s: KState, t: KStep)
    requires KInv(c, s) && Enabled(System(c), s, t)
    ensures var r := Next(System(c), s, t); WorldOK(r.world) && WorldGrows(s.world, r.world)
  {
    var m := Denotes(c, s);
    if t.Act? {
      assert SlotGood(s.slots[t.k], Goods(c, s.world, m));
      EdgeStep(c, s.world, m, s.slots[t.k].run.value, Cancelled(s, t.k), t.world, t.local, t.emit);
    } else if t.Outside? {
      TablesMeanGrowth(s.world, t.world);
      SentStaysBacked(s.world, t.world);
    } else {
      TablesMeanGrowth(s.world, s.world);
      OnlyEdgesTouchTheWorld(c, s, t);
    }
  }

  /** Steps that complete the turn in hand; every other step leaves the denoted model alone. */
  predicate Completes(s: KState, t: KStep)
  {
    t.Apply? || (t.Crash? && s.phase.Applying?)
  }

  lemma StepDenotes(c: Config, s: KState, t: KStep)
    requires Inv(System(c), s) && Enabled(System(c), s, t)
    ensures var r := Next(System(c), s, t); Folded(r) == if Completes(s, t) then s.log else Folded(s)
  {
    if t.Append? {
      AppendFolds(System(c), s, t);
    } else if t.Apply? {
      ApplyFolds(System(c), s, t);
    } else if ReducerStep(t) {
      TurnFolds(System(c), s, t);
    } else if t.Diff? || t.BootDiff? {
      ReconcileMeansDeclared(System(c), s, t.gone, t.added);
    } else if GoroutineStep(t) {
      GoroutineStepFolds(System(c), s, t);
    }
  }

  /** The world and the denoted model only grow, and both stay well-formed. */
  lemma StepGrows(c: Config, s: KState, t: KStep)
    requires KInv(c, s) && Enabled(System(c), s, t)
    ensures var r := Next(System(c), s, t);
      && WorldOK(r.world) && WorldGrows(s.world, r.world)
      && ModelGrows(Denotes(c, s), Denotes(c, r))
      && ModelOK(c, r.world, Denotes(c, r), |Folded(r)|)
  {
    var r := Next(System(c), s, t);
    StepWorld(c, s, t);
    StepDenotes(c, s, t);
    SameFacts(Denotes(c, s), Denotes(c, s));
    if Completes(s, t) { ApplyGrows(c, s); }
    ModelSurvives(c, s.world, r.world, Denotes(c, r), |Folded(r)|);
  }

  lemma DenotesApply(c: Config, s: KState)
    requires Inv(System(c), s) && s.live && s.phase.Applying?
    ensures |s.log| == |Folded(s)| + 1
    ensures Fold(System(c), s.log) == ApplyOne(Denotes(c, s), s.phase.env.msg, |s.log|).0
  {
    FoldAppend(System(c), Folded(s), s.phase.env);
    assert s.log == Folded(s) + [s.phase.env];
    ApplyIs(c, Denotes(c, s), s.phase.env.msg, |s.log|);
  }

  /** Applying the message in hand: the denoted model becomes the fold of the whole log. */
  lemma ApplyGrows(c: Config, s: KState)
    requires KInv(c, s) && s.live && s.phase.Applying?
    ensures var m, m' := Denotes(c, s), Fold(System(c), s.log);
      && ModelGrows(m, m') && ModelOK(c, s.world, m', |s.log|)
      && m' == ApplyOne(m, s.phase.env.msg, |s.log|).0
      && OutsGood(ApplyOne(m, s.phase.env.msg, |s.log|).1, Goods(c, s.world, m'))
  {
    DenotesApply(c, s);
    assert PhaseGood(s.phase, Goods(c, s.world, Denotes(c, s)));
    ApplyKeeps(c, s.world, Denotes(c, s), s.phase.env.msg, |Folded(s)|);
    assert Applied(c, s.world, Denotes(c, s), s.phase.env.msg, |Folded(s)|);
  }

  lemma ApplyProduces(c: Config, s: KState)
    requires KInv(c, s) && s.live && s.phase.Applying?
    ensures Produces(System(c), s, Apply, Goods(c, s.world, Fold(System(c), s.log)))
  {
    ApplyGrows(c, s);
    ApplyIs(c, s.model, s.phase.env.msg, |s.log|);
  }

  lemma ActProduces(c: Config, s: KState, t: KStep)
    requires KInv(c, s) && Enabled(System(c), s, t) && t.Act?
    ensures Produces(System(c), s, t, Goods(c, t.world, Denotes(c, s)))
  {
    assert SlotGood(s.slots[t.k], Goods(c, s.world, Denotes(c, s)));
    EdgeStep(c, s.world, Denotes(c, s), s.slots[t.k].run.value, Cancelled(s, t.k), t.world, t.local, t.emit);
  }

  lemma DiffProduces(c: Config, s: KState, t: KStep)
    requires KInv(c, s) && Enabled(System(c), s, t) && (t.Diff? || t.BootDiff?)
    ensures Produces(System(c), s, t, Goods(c, s.world, Denotes(c, s)))
  {
    forall id | id in t.added ensures LocOK(c, s.world, Denotes(c, s), Sources(s.model)[id].start) {
      DeclaredOK(c, s.world, Denotes(c, s), |Folded(s)|, id);
    }
  }

  lemma ReducerProduces(c: Config, s: KState, t: KStep)
    requires KInv(c, s) && Enabled(System(c), s, t) && !t.Apply? && !t.Act? && !t.Diff? && !t.BootDiff?
    ensures Produces(System(c), s, t, Goods(c, s.world, Denotes(c, s)))
  {
    if t.Interpret? { assert OutGood(s.phase.todo[0], Goods(c, s.world, Denotes(c, s))); }
  }

  /** Whatever a step puts into flight is well-formed against the world and the model after it. */
  lemma StepProduces(c: Config, s: KState, t: KStep)
    requires KInv(c, s) && Enabled(System(c), s, t)
    ensures var r := Next(System(c), s, t); Produces(System(c), s, t, Goods(c, r.world, Denotes(c, r)))
  {
    StepDenotes(c, s, t);
    if t.Apply? {
      ApplyProduces(c, s);
    } else if !t.Crash? {
      SameModelProduces(c, s, t);
    }
  }

  lemma SameModelProduces(c: Config, s: KState, t: KStep)
    requires KInv(c, s) && Enabled(System(c), s, t) && !t.Apply? && !t.Crash?
    ensures Produces(System(c), s, t, Goods(c, Next(System(c), s, t).world, Denotes(c, s)))
  {
    if t.Act? {
      ActProduces(c, s, t);
    } else if t.Diff? || t.BootDiff? {
      OnlyEdgesTouchTheWorld(c, s, t);
      DiffProduces(c, s, t);
    } else {
      ReducerProduces(c, s, t);
    }
  }

  lemma KStepKeeps(c: Config, s: KState, t: KStep)
    requires KInv(c, s) && Enabled(System(c), s, t)
    ensures KInv(c, Next(System(c), s, t))
  {
    var r := Next(System(c), s, t);
    StepKeeps(System(c), s, t);
    StepGrows(c, s, t);
    CarriesGrow(c, s, s.world, Denotes(c, s), r.world, Denotes(c, r));
    StepProduces(c, s, t);
    GoodKept(System(c), s, t, Goods(c, r.world, Denotes(c, r)));
  }

  lemma SettingsInitial(c: Config)
    requires ConfigOK(c)
    ensures SettingsOK(c, Zero(c))
  {
    DomainOfRoute("");
  }

  lemma KInitial(c: Config, w: World)
    requires ConfigOK(c) && EmptyWorld(w)
    ensures KInv(c, Initial(System(c), w))
  {
    SettingsInitial(c);
    var s: KState := Initial(System(c), w);
    assert Denotes(c, s) == Zero(c);
    assert WorldOK(w);
    assert ModelOK(c, w, Zero(c), 0);
  }

  /** The invariant holds in every state of every run of the system, crashes and restarts included. */
  lemma {:induction false} KRunKeeps(c: Config, states: seq<KState>, steps: seq<KStep>, i: nat)
    requires KRun(c, states, steps) && i < |states|
    ensures KInv(c, states[i])
  {
    if i == 0 {
      KInitial(c, states[0].world);
    } else {
      KRunKeeps(c, states, steps, i - 1);
      KeepsOverStep(c, states, steps, i);
    }
  }

  lemma {:induction false} KeepsOverStep(c: Config, states: seq<KState>, steps: seq<KStep>, i: nat)
    requires KRun(c, states, steps) && 0 < i < |states| && KInv(c, states[i - 1])
    ensures KInv(c, states[i])
  {
    assert Takes(System(c), states, steps, i - 1);
    KStepKeeps(c, states[i - 1], steps[i - 1]);
  }

  /** One step of a run, with everything known before it. */
  lemma {:induction false} RunStep(c: Config, states: seq<KState>, steps: seq<KStep>, i: nat)
    requires KRun(c, states, steps) && 0 < i < |states|
    ensures KInv(c, states[i - 1]) && Enabled(System(c), states[i - 1], steps[i - 1])
    ensures states[i] == Next(System(c), states[i - 1], steps[i - 1])
  {
    var before := i - 1;
    KRunKeeps(c, states, steps, before);
    RunTakes(c, states, steps, i);
  }

  lemma {:induction false} RunTakes(c: Config, states: seq<KState>, steps: seq<KStep>, i: nat)
    requires KRun(c, states, steps) && 0 < i < |states|
    ensures Enabled(System(c), states[i - 1], steps[i - 1])
    ensures states[i] == Next(System(c), states[i - 1], steps[i - 1])
  {
    assert Takes(System(c), states, steps, i - 1);
  }
}
