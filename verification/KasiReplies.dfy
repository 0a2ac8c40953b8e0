/**
 No reply is lost: over every interleaving of steps, effect failures, crashes and restarts, a reply
 job that was ever recorded is still pending, or its reply is queued exactly once and is pending or
 was submitted.
 */
module KasiReplies {
  import opened Prelude
  import opened Runtime
  import opened RuntimeProofs
  import opened Ledger
  import opened Messages
  import opened Kasi
  import opened KasiFacts
  import opened KasiApply
  import opened KasiInv
  import Tasks
  import Email
  import S = KasiSources

  // ---------------------------------------------------------------- queue before discharge

  ghost predicate QueuedAt(c: Config, m: Model, e: Envelope<Msg>, r: int)
  {
    e.msg.MarkReplyQueued? && RunOf(m, e.msg.task, r) && e.msg.messageID == ReplyID(c, e.msg.task, r)
  }

  /** The reply of run `r` has been announced as queued somewhere in the stream. */
  ghost predicate Queued(c: Config, m: Model, stream: seq<Envelope<Msg>>, r: int)
  {
    exists j :: 0 <= j < |stream| && QueuedAt(c, m, stream[j], r)
  }

  /** Everywhere in the stream, a discharged reply job was queued before. */
  ghost predicate StreamOrdered(c: Config, m: Model, stream: seq<Envelope<Msg>>)
  {
    forall i :: 0 <= i < |stream| && DischargesReply(stream[i].msg) ==> Queued(c, m, stream[..i], stream[i].msg.run)
  }

  ghost predicate SlotOrdered(c: Config, m: Model, stream: seq<Envelope<Msg>>, x: Slot<SourceId, Msg, Loc>)
  {
    && (x.run.Some? && x.run.value.Discharging? ==>
          || (x.transit.Some? && QueuedAt(c, m, x.transit.value, x.run.value.run))
          || Queued(c, m, stream, x.run.value.run))
    && (x.transit.Some? && DischargesReply(x.transit.value.msg) ==> Queued(c, m, stream, x.transit.value.msg.run))
  }

  /** The reducer itself never sends a discharge. */
  predicate PhaseOrdered(ph: Phase<Msg, Cmd>)
  {
    ph.Interpreting? ==>
      && (forall i :: 0 <= i < |ph.todo| && ph.todo[i].Send? ==> !DischargesReply(ph.todo[i].msg))
      && (ph.own.Some? ==> !DischargesReply(ph.own.value.msg))
  }

  ghost predicate Ordered(c: Config, s: KState)
  {
    && StreamOrdered(c, Denotes(c, s), Stream(s))
    && (forall k :: 0 <= k < |s.slots| ==> SlotOrdered(c, Denotes(c, s), Stream(s), s.slots[k]))
    && PhaseOrdered(s.phase)
  }

  lemma QueuedGrows(c: Config, m: Model, m': Model, a: seq<Envelope<Msg>>, b: seq<Envelope<Msg>>, r: int)
    requires ModelGrows(m, m') && a <= b && Queued(c, m, a, r)
    ensures Queued(c, m', b, r)
  {
    var j :| 0 <= j < |a| && QueuedAt(c, m, a[j], r);
    assert b[j] == a[j] && QueuedAt(c, m', b[j], r);
  }

  lemma StreamGrows(c: Config, m: Model, m': Model, stream: seq<Envelope<Msg>>)
    requires ModelGrows(m, m') && StreamOrdered(c, m, stream)
    ensures StreamOrdered(c, m', stream)
  {
    forall i | 0 <= i < |stream| &&
      DischargesReply(stream[i].msg) ensures Queued(c, m', stream[..i], stream[i].msg.run) {
      QueuedGrows(c, m, m', stream[..i], stream[..i], stream[i].msg.run);
    }
  }

  lemma StreamPrefix(c: Config, m: Model, a: seq<Envelope<Msg>>, b: seq<Envelope<Msg>>)
    requires StreamOrdered(c, m, b) && a <= b
    ensures StreamOrdered(c, m, a)
  {
    forall i | 0 <= i < |a| && DischargesReply(a[i].msg) ensures Queued(c, m, a[..i], a[i].msg.run) {
      assert a[..i] == b[..i] && a[i] == b[i];
    }
  }

  lemma StreamExtended(c: Config, m: Model, stream: seq<Envelope<Msg>>, e: Envelope<Msg>)
    requires StreamOrdered(c, m, stream)
    requires DischargesReply(e.msg) ==> Queued(c, m, stream, e.msg.run)
    ensures StreamOrdered(c, m, stream + [e])
  {
    var b := stream + [e];
    forall i | 0 <= i < |b| && DischargesReply(b[i].msg) ensures Queued(c, m, b[..i], b[i].msg.run) {
      assert b[..i] == stream[..i];
      if i == |stream| { assert stream[..i] == stream; }
    }
  }

  lemma SlotGrows(c: Config, m: Model, m': Model, a: seq<Envelope<Msg>>, b: seq<Envelope<Msg>>,
      x: Slot<SourceId, Msg, Loc>)
    requires ModelGrows(m, m') && a <= b && SlotOrdered(c, m, a, x)
    ensures SlotOrdered(c, m', b, x)
  {
    if x.run.Some? && x.run.value.Discharging? && Queued(c, m, a, x.run.value.run) {
      QueuedGrows(c, m, m', a, b, x.run.value.run);
    }
    if x.transit.Some? && DischargesReply(x.transit.value.msg) {
      QueuedGrows(c, m, m', a, b, x.transit.value.msg.run);
    }
  }

  /** Delivering what a goroutine announced: queue first, then discharge. */
  lemma DeliverOrdered(c: Config, m: Model, stream: seq<Envelope<Msg>>, x: Slot<SourceId, Msg, Loc>)
    requires StreamOrdered(c, m, stream) && SlotOrdered(c, m, stream, x) && x.transit.Some?
    ensures StreamOrdered(c, m, stream + [x.transit.value])
    ensures SlotOrdered(c, m, stream + [x.transit.value], x.(transit := None))
  {
    var e := x.transit.value;
    var b := stream + [e];
    StreamExtended(c, m, stream, e);
    if x.run.Some? && x.run.value.Discharging? {
      var r := x.run.value.run;
      if QueuedAt(c, m, e, r) {
        assert b[|stream|] == e;
      } else {
        var j :| 0 <= j < |stream| && QueuedAt(c, m, stream[j], r);
        assert b[j] == stream[j];
      }
    }
  }

  lemma ActOrdered(c: Config, w: World, m: Model, stream: seq<Envelope<Msg>>, x: Slot<SourceId, Msg, Loc>,
      cancelled: bool, w': World, l': Loc, emit: Option<Msg>)
    requires SlotOrdered(c, m, stream, x) && x.run.Some? && x.transit.None?
    requires LocOK(c, w, m, x.run.value) && Edge(c, w, x.run.value, cancelled, w', l', emit)
    ensures SlotOrdered(c, m, stream,
      x.(run := Some(l'), transit := if emit.Some? then Some(Envelope(emit.value, CauseOf(x.kind))) else None))
  {
  }

  lemma SendsNothingDischarging(m: Model, msg: Msg, offset: int)
    ensures var outs := ApplyOne(m, msg, offset).1;
      forall i :: 0 <= i < |outs| && outs[i].Send? ==> !DischargesReply(outs[i].msg)
  {
  }

  lemma OrderedStep(c: Config, s: KState, t: KStep)
    requires KInv(c, s) && Ordered(c, s) && Enabled(System(c), s, t)
    ensures Ordered(c, Next(System(c), s, t))
  {
    StreamStaysOrdered(c, s, t);
    if !t.Crash? {
      SlotsStayOrdered(c, s, t);
      PhaseStaysOrdered(c, s, t);
    }
  }

  lemma StreamStaysOrdered(c: Config, s: KState, t: KStep)
    requires KInv(c, s) && Ordered(c, s) && Enabled(System(c), s, t)
    ensures StreamOrdered(c, Denotes(c, Next(System(c), s, t)), Stream(Next(System(c), s, t)))
  {
    var r := Next(System(c), s, t);
    var m, m' := Denotes(c, s), Denotes(c, r);
    StepGrows(c, s, t);
    StreamStep(System(c), s, t);
    StreamGrows(c, m, m', Stream(s));
    if t.Crash? {
      StreamPrefix(c, m', Stream(r), Stream(s));
    } else if t.Deliver? {
      DeliveryStaysOrdered(c, s, t);
      StreamGrows(c, m, m', Stream(r));
    } else if t.DeliverOwn? {
      StreamExtended(c, m', Stream(s), s.phase.own.value);
    }
  }

  lemma DeliveryStaysOrdered(c: Config, s: KState, t: KStep)
    requires Ordered(c, s) && Enabled(System(c), s, t) && t.Deliver?
    ensures StreamOrdered(c, Denotes(c, s), Stream(s) + [s.slots[t.k].transit.value])
  {
    DeliverOrdered(c, Denotes(c, s), Stream(s), s.slots[t.k]);
  }

  lemma PhaseStaysOrdered(c: Config, s: KState, t: KStep)
    requires Inv(System(c), s) && Ordered(c, s) && Enabled(System(c), s, t)
    ensures PhaseOrdered(Next(System(c), s, t).phase)
  {
    if t.Apply? {
      SendsNothingDischarging(s.model, s.phase.env.msg, |s.log|);
      ApplyIs(c, s.model, s.phase.env.msg, |s.log|);
    } else if t.Diff? || t.BootDiff? {
      ReconcileMeansDeclared(System(c), s, t.gone, t.added);
    } else if GoroutineStep(t) && !t.Call? {
      GoroutineStepShape(System(c), s, t);
    } else if t.Interpret? {
      InterpretOrdered(c, s);
    }
  }

  lemma InterpretOrdered(c: Config, s: KState)
    requires PhaseOrdered(s.phase) && s.phase.Interpreting? && s.phase.todo != []
    ensures PhaseOrdered(InterpretOne(System(c), s).phase)
  {
    var rest := s.phase.todo[1..];
    assert forall i :: 0 <= i < |rest| ==> rest[i] == s.phase.todo[i + 1];
  }

  lemma SlotsStayOrdered(c: Config, s: KState, t: KStep)
    requires KInv(c, s) && Ordered(c, s) && Enabled(System(c), s, t) && !t.Crash?
    ensures var r := Next(System(c), s, t);
      forall k :: 0 <= k < |r.slots| ==> SlotOrdered(c, Denotes(c, r), Stream(r), r.slots[k])
  {
    if GoroutineStep(t) {
      StepDenotes(c, s, t);
      GoroutineSlotsOrdered(c, s, t);
    } else {
      RestSlotsOrdered(c, s, t);
    }
  }

  lemma RestSlotsOrdered(c: Config, s: KState, t: KStep)
    requires KInv(c, s) && Ordered(c, s) && Enabled(System(c), s, t) && !t.Crash? && !GoroutineStep(t)
    ensures var r := Next(System(c), s, t);
      forall k :: 0 <= k < |r.slots| ==> SlotOrdered(c, Denotes(c, r), Stream(r), r.slots[k])
  {
    var p, r := System(c), Next(System(c), s, t);
    var m, m' := Denotes(c, s), Denotes(c, r);
    StepGrows(c, s, t);
    StreamStep(p, s, t);
    NewSlots(c, s, t);
    forall k | 0 <= k < |r.slots| ensures SlotOrdered(c, m', Stream(r), r.slots[k]) {
      if k < |s.slots| {
        SlotGrows(c, m, m', Stream(s), Stream(r), s.slots[k]);
        assert SlotOrdered(c, m', Stream(r), s.slots[k]);
      }
    }
  }

  /** Outside goroutine steps nothing moves inside a slot, and no slot starts at a discharge. */
  lemma NewSlots(c: Config, s: KState, t: KStep)
    requires Inv(System(c), s) && Enabled(System(c), s, t) && !GoroutineStep(t) && !t.Crash?
    ensures CarriedOver(s.slots, Next(System(c), s, t).slots, (l: Loc) => !l.Discharging?)
  {
    forall id | id in System(c).sources(s.model) ensures !System(c).sources(s.model)[id].start.Discharging? {
      StartsAtBody(s.model, id);
    }
    GoroutinesCarryOver(System(c), s, t, (l: Loc) => !l.Discharging?);
  }

  lemma StartsAtBody(m: Model, id: SourceId)
    requires id in Sources(m)
    ensures var l := Sources(m)[id].start; l.HarvestBody? || l.SendBody? || l.LaunchBody? || l.WatchBody?
  {
    match id
    case HarvestKey(kind, r) => S.HarvestDeclared(m, kind, r);
    case SendKey(x) => S.SendDeclared(m, x);
    case _ => S.RunDeclared(m, id);
  }

  /** The goroutine that moved is still in order. */
  lemma MovedSlotOrdered(c: Config, s: KState, t: KStep)
    requires KInv(c, s) && Ordered(c, s) && Enabled(System(c), s, t) && GoroutineStep(t) && !t.Call?
    ensures var r := Next(System(c), s, t); t.k < |r.slots| && SlotOrdered(c, Denotes(c, s), Stream(r), r.slots[t.k])
  {
    var p, m := System(c), Denotes(c, s);
    StreamStep(p, s, t);
    GoroutineStepShape(p, s, t);
    if t.Deliver? {
      DeliverOrdered(c, m, Stream(s), s.slots[t.k]);
    } else if t.Act? {
      assert SlotGood(s.slots[t.k], Goods(c, s.world, m));
      ActOrdered(c, s.world, m, Stream(s), s.slots[t.k], Cancelled(s, t.k), t.world, t.local, t.emit);
    }
  }

  lemma GoroutineSlotsOrdered(c: Config, s: KState, t: KStep)
    requires KInv(c, s) && Ordered(c, s) && Enabled(System(c), s, t) && GoroutineStep(t)
    ensures var r := Next(System(c), s, t);
      forall k :: 0 <= k < |r.slots| ==> SlotOrdered(c, Denotes(c, s), Stream(r), r.slots[k])
  {
    if !t.Call? {
      MovedSlotOrdered(c, s, t);
    }
    OtherSlotsOrdered(c, s, t);
  }

  /** The goroutines that did not move see the stream grow and nothing else. */
  lemma OtherSlotsOrdered(c: Config, s: KState, t: KStep)
    requires Inv(System(c), s) && Ordered(c, s) && Enabled(System(c), s, t) && GoroutineStep(t)
    ensures var r := Next(System(c), s, t);
      forall k :: 0 <= k < |r.slots| && (t.Call? || k != t.k) ==> SlotOrdered(c, Denotes(c, s), Stream(r), r.slots[k])
  {
    var p, r, m := System(c), Next(System(c), s, t), Denotes(c, s);
    StreamStep(p, s, t);
    SameFacts(m, m);
    if !t.Call? {
      GoroutineStepShape(p, s, t);
    }
    forall k | 0 <= k < |r.slots| && (t.Call? || k != t.k) ensures SlotOrdered(c, m, Stream(r), r.slots[k]) {
      if k < |s.slots| {
        SlotGrows(c, m, m, Stream(s), Stream(r), s.slots[k]);
      } else {
        assert !DischargesReply(t.msg);
      }
    }
  }

  // ---------------------------------------------------------------- what the log has recorded

  ghost predicate HasEntry(m: Model, mid: string)
  {
    exists i :: 0 <= i < |m.outbox| && m.outbox[i].messageID == mid
  }

  /** Some prefix of the log denotes a model that owes this reply. */
  ghost predicate EverOwed(c: Config, log: seq<Envelope<Msg>>, t: int, r: int)
  {
    exists k :: 0 <= k <= |log| && Tasks.HarvestJob(t, r, Reply) in Fold(System(c), log[..k]).tasks.pending
  }

  ghost predicate DischargedIn(log: seq<Envelope<Msg>>, r: int)
  {
    exists j :: 0 <= j < |log| && DischargesReply(log[j].msg) && log[j].msg.run == r
  }

  ghost predicate Remembered(c: Config, s: KState)
  {
    var m, log := Denotes(c, s), Folded(s);
    && (forall j :: 0 <= j < |log| && log[j].msg.MarkReplyQueued? ==> HasEntry(m, log[j].msg.messageID))
    && (forall t, r :: EverOwed(c, log, t, r) ==>
         RunOf(m, t, r) && (Tasks.HarvestJob(t, r, Reply) in m.tasks.pending || DischargedIn(log, r)))
  }

  /** Entries are never dropped or renamed, and sent never becomes pending again. */
  ghost predicate OutboxKept(a: seq<Email.OutboxEntry>, b: seq<Email.OutboxEntry>)
  {
    && |a| <= |b|
    && forall i :: 0 <= i < |a| ==> b[i] == a[i].(sent := b[i].sent) && (a[i].sent ==> b[i].sent)
  }

  lemma EntriesPersist(m: Model, msg: Msg, offset: int)
    ensures OutboxKept(m.outbox, ApplyOne(m, msg, offset).0.outbox)
  {
  }

  lemma JobsOfKeep(jobs: seq<Tasks.HarvestJob>, t: int, r: int, res: RunResult)
    ensures forall j :: j in jobs ==> j in Tasks.JobsOf(jobs, t, r, res)
  {
  }

  /** A pending reply job disappears only by its own mark-harvested. */
  lemma ReplyJobPersists(m: Model, msg: Msg, offset: int, j: Tasks.HarvestJob)
    requires j in m.tasks.pending && j.kind == Reply
    ensures j in ApplyOne(m, msg, offset).0.tasks.pending || (DischargesReply(msg) && msg.run == j.run)
  {
    match msg
    case MarkHarvested(r, k) => Tasks.DischargedIs(m.tasks.pending, r, k);
    case RegisterUIRequest(t, r, _) => Tasks.DischargedIs(m.tasks.pending, r, Request);
    case AgentRunFinished(t, r, res) => JobsOfKeep(m.tasks.pending, t, r, res);
    case _ =>
  }

  lemma QueuedHasEntry(c: Config, w: World, m: Model, msg: Msg, n: nat)
    requires WorldOK(w) && ModelOK(c, w, m, n) && MsgOK(c, w, m, msg) && msg.MarkReplyQueued?
    ensures HasEntry(ApplyOne(m, msg, n + 1).0, msg.messageID)
  {
    var m' := ApplyOne(m, msg, n + 1).0;
    if i :| 0 <= i < |m.outbox| && Email.SameReply(m.outbox[i], msg.outboxID, msg.messageID) {
      assert EntryOK(w, m, m.outbox[i]);
      RowsAgree(w, msg.outboxID, msg.messageID, m.outbox[i].outboxID, m.outbox[i].messageID);
      assert m'.outbox[i].messageID == msg.messageID;
    } else {
      assert m'.outbox[|m.outbox|].messageID == msg.messageID;
    }
  }

  /** A job owed before this message is owed after it, unless this message discharges it. */
  lemma OldJob(c: Config, s: KState, t: int, u: int)
    requires Remembered(c, s) && s.phase.Applying? && s.log == Folded(s) + [s.phase.env]
    requires EverOwed(c, Folded(s), t, u)
    ensures Tasks.HarvestJob(t, u, Reply) in ApplyOne(Denotes(c, s), s.phase.env.msg, |s.log|).0.tasks.pending ||
      DischargedIn(s.log, u)
  {
    var m, log := Denotes(c, s), Folded(s);
    if Tasks.HarvestJob(t, u, Reply) in m.tasks.pending {
      ReplyJobPersists(m, s.phase.env.msg, |s.log|, Tasks.HarvestJob(t, u, Reply));
      assert s.log[|log|] == s.phase.env;
    } else {
      var i :| 0 <= i < |log| && DischargesReply(log[i].msg) && log[i].msg.run == u;
      assert s.log[i] == log[i];
    }
  }

  lemma OwedJobOK(c: Config, m: Model, t: int, u: int)
    requires JobsOK(c, m, m.tasks.pending) && Tasks.HarvestJob(t, u, Reply) in m.tasks.pending
    ensures RunOf(m, t, u)
  {
    var i :| 0 <= i < |m.tasks.pending| && m.tasks.pending[i] == Tasks.HarvestJob(t, u, Reply);
    assert JobOK(c, m, m.tasks.pending[i]);
  }

  lemma OwedNowOrBefore(c: Config, log: seq<Envelope<Msg>>, e: Envelope<Msg>, t: int, u: int)
    requires EverOwed(c, log + [e], t, u)
    ensures EverOwed(c, log, t, u) || Tasks.HarvestJob(t, u, Reply) in Fold(System(c), log + [e]).tasks.pending
  {
    var all := log + [e];
    var k :| 0 <= k <= |all| && Tasks.HarvestJob(t, u, Reply) in Fold(System(c), all[..k]).tasks.pending;
    if k == |all| {
      assert all[..k] == all;
    } else {
      assert log[..k] == all[..k];
    }
  }

  lemma RememberedJob(c: Config, s: KState, m': Model, t: int, u: int)
    requires Remembered(c, s) && s.phase.Applying? && s.log == Folded(s) + [s.phase.env]
    requires m' == ApplyOne(Denotes(c, s), s.phase.env.msg, |s.log|).0 == Fold(System(c), s.log)
    requires ModelGrows(Denotes(c, s), m') && JobsOK(c, m', m'.tasks.pending)
    requires EverOwed(c, s.log, t, u)
    ensures RunOf(m', t, u) && (Tasks.HarvestJob(t, u, Reply) in m'.tasks.pending || DischargedIn(s.log, u))
  {
    OwedNowOrBefore(c, Folded(s), s.phase.env, t, u);
    if EverOwed(c, Folded(s), t, u) {
      OldJob(c, s, t, u);
    } else {
      OwedJobOK(c, m', t, u);
    }
  }

  lemma RememberedEntry(c: Config, s: KState, m': Model, j: nat)
    requires Remembered(c, s) && s.phase.Applying? && s.log == Folded(s) + [s.phase.env]
    requires m' == ApplyOne(Denotes(c, s), s.phase.env.msg, |s.log|).0
    requires
      && WorldOK(s.world)
      && ModelOK(c, s.world, Denotes(c, s), |Folded(s)|)
      && MsgOK(c, s.world, Denotes(c, s), s.phase.env.msg)
    requires j < |s.log| && s.log[j].msg.MarkReplyQueued?
    ensures HasEntry(m', s.log[j].msg.messageID)
  {
    var m, log := Denotes(c, s), Folded(s);
    if j < |log| {
      assert s.log[j] == log[j];
      EntriesPersist(m, s.phase.env.msg, |s.log|);
      var i :| 0 <= i < |m.outbox| && m.outbox[i].messageID == log[j].msg.messageID;
      assert m'.outbox[i].messageID == m.outbox[i].messageID;
    } else {
      QueuedHasEntry(c, s.world, m, s.phase.env.msg, |log|);
    }
  }

  /** The model after the message in hand, and everything known about that message. */
  ghost predicate Completing(c: Config, s: KState, m': Model)
  {
    && s.phase.Applying? && s.log == Folded(s) + [s.phase.env]
    && m' == ApplyOne(Denotes(c, s), s.phase.env.msg, |s.log|).0 == Fold(System(c), s.log)
    && WorldOK(s.world) && ModelOK(c, s.world, Denotes(c, s), |Folded(s)|) &&
         MsgOK(c, s.world, Denotes(c, s), s.phase.env.msg)
    && ModelGrows(Denotes(c, s), m') && JobsOK(c, m', m'.tasks.pending)
  }

  lemma CompletingIs(c: Config, s: KState)
    requires KInv(c, s) && s.live && s.phase.Applying?
    ensures Completing(c, s, Fold(System(c), s.log))
  {
    ApplyGrows(c, s);
    EnvelopeInHand(c, s);
  }

  lemma EnvelopeInHand(c: Config, s: KState)
    requires KInv(c, s) && s.live && s.phase.Applying?
    ensures s.log == Folded(s) + [s.phase.env] && MsgOK(c, s.world, Denotes(c, s), s.phase.env.msg)
  {
    assert PhaseGood(s.phase, Goods(c, s.world, Denotes(c, s)));
  }

  lemma RememberedApply(c: Config, s: KState, r: KState)
    requires Remembered(c, s) && Folded(r) == s.log && Completing(c, s, Denotes(c, r))
    ensures Remembered(c, r)
  {
    var m' := Denotes(c, r);
    forall j | 0 <= j < |s.log| && s.log[j].msg.MarkReplyQueued? ensures HasEntry(m', s.log[j].msg.messageID) {
      RememberedEntry(c, s, m', j);
    }
    forall t, u | EverOwed(c, s.log, t, u)
      ensures RunOf(m', t, u) && (Tasks.HarvestJob(t, u, Reply) in m'.tasks.pending || DischargedIn(s.log, u))
    {
      RememberedJob(c, s, m', t, u);
    }
  }

  lemma RememberedStep(c: Config, s: KState, t: KStep)
    requires KInv(c, s) && Remembered(c, s) && Enabled(System(c), s, t)
    ensures Remembered(c, Next(System(c), s, t))
  {
    StepDenotes(c, s, t);
    if Completes(s, t) {
      CompletingIs(c, s);
      RememberedApply(c, s, Next(System(c), s, t));
    }
  }

  lemma InitialRemembers(c: Config, w: World)
    ensures var s: KState := Initial(System(c), w); Ordered(c, s) && Remembered(c, s)
  {
  }

  lemma {:induction false} RunRemembers(c: Config, states: seq<KState>, steps: seq<KStep>, i: nat)
    requires KRun(c, states, steps) && i < |states|
    ensures Ordered(c, states[i]) && Remembered(c, states[i])
  {
    if i == 0 {
      InitialRemembers(c, states[0].world);
    } else {
      RunRemembers(c, states, steps, i - 1);
      RemembersOverStep(c, states, steps, i);
    }
  }

  lemma RemembersOverStep(c: Config, states: seq<KState>, steps: seq<KStep>, i: nat)
    requires KRun(c, states, steps) && 0 < i < |states| && Ordered(c, states[i - 1]) && Remembered(c, states[i - 1])
    ensures Ordered(c, states[i]) && Remembered(c, states[i])
  {
    RunStep(c, states, steps, i);
    OrderedStep(c, states[i - 1], steps[i - 1]);
    RememberedStep(c, states[i - 1], steps[i - 1]);
  }

  // ---------------------------------------------------------------- the theorem

  /** The reply of run `r` is queued: exactly one entry, backed by a row, pending or submitted. */
  ghost predicate QueuedOnce(c: Config, w: World, m: Model, t: int, r: int)
  {
    exists i :: 0 <= i < |m.outbox| && m.outbox[i].messageID == ReplyID(c, t, r)
      && Row(w, m.outbox[i].outboxID, ReplyID(c, t, r))
      && (!m.outbox[i].sent || WasSubmitted(w, ReplyID(c, t, r)))
      && forall j :: 0 <= j < |m.outbox| && m.outbox[j].messageID == ReplyID(c, t, r) ==> j == i
  }

  lemma SameTask(m: Model, n: nat, t: int, t': int, r: int)
    requires RunsOK(m.agents.runs, n) && RunOf(m, t, r) && RunOf(m, t', r)
    ensures t == t'
  {
  }

  /** A logged discharge was preceded in the log by the queueing of that run's reply. */
  lemma DischargeWasQueued(c: Config, m: Model, log: seq<Envelope<Msg>>, r: int) returns (q: nat)
    requires StreamOrdered(c, m, log) && DischargedIn(log, r)
    ensures q < |log| && QueuedAt(c, m, log[q], r)
  {
    var j :| 0 <= j < |log| && DischargesReply(log[j].msg) && log[j].msg.run == r;
    var i :| 0 <= i < |log[..j]| && QueuedAt(c, m, log[..j][i], r);
    assert log[i] == log[..j][i];
    q := i;
  }

  lemma EntryIsOnce(c: Config, w: World, m: Model, t: int, r: int)
    requires EntriesOK(w, m) && HasEntry(m, ReplyID(c, t, r))
    ensures QueuedOnce(c, w, m, t, r)
  {
    var i :| 0 <= i < |m.outbox| && m.outbox[i].messageID == ReplyID(c, t, r);
    assert EntryOK(w, m, m.outbox[i]);
  }

  lemma SettledReply(c: Config, s: KState, t: int, r: int)
    requires KInv(c, s) && Ordered(c, s) && Remembered(c, s) && Folded(s) == s.log
    requires EverOwed(c, s.log, t, r)
    ensures var m := Fold(System(c), s.log);
      Tasks.HarvestJob(t, r, Reply) in m.tasks.pending || QueuedOnce(c, s.world, m, t, r)
  {
    var m := Denotes(c, s);
    if Tasks.HarvestJob(t, r, Reply) !in m.tasks.pending {
      StreamPrefix(c, m, s.log, Stream(s));
      var q := DischargeWasQueued(c, m, s.log, r);
      SameTask(m, |s.log|, t, s.log[q].msg.task, r);
      EntryIsOnce(c, s.world, m, t, r);
    }
  }

  /**
   No reply is lost: in every state of every run, every reply job any prefix of the log ever owed
   is owed by the logged model still, or is queued exactly once and pending or submitted.
   */
  lemma NoReplyLost(c: Config, states: seq<KState>, steps: seq<KStep>, i: nat, t: int, r: int)
    requires KRun(c, states, steps) && i < |states|
    requires EverOwed(c, states[i].log, t, r)
    ensures var m := Fold(System(c), states[i].log);
      Tasks.HarvestJob(t, r, Reply) in m.tasks.pending || QueuedOnce(c, states[i].world, m, t, r)
  {
    KRunKeeps(c, states, steps, i);
    RunRemembers(c, states, steps, i);
    var s := states[i];
    if s.live {
      var down := Next(System(c), s, Crash);
      KStepKeeps(c, s, Crash);
      OrderedStep(c, s, Crash);
      RememberedStep(c, s, Crash);
      SettledReply(c, down, t, r);
    } else {
      SettledReply(c, s, t, r);
    }
  }

  /** Every entry of the outbox has its Message-ID among its task's references: the answer threads back. */
  lemma QueuedRepliesThread(c: Config, states: seq<KState>, steps: seq<KStep>, i: nat, k: nat)
    requires KRun(c, states, steps) && i < |states|
    requires k < |Fold(System(c), Folded(states[i])).outbox|
    ensures var m := Fold(System(c), Folded(states[i])); HasRef(m, m.outbox[k].task, m.outbox[k].messageID)
  {
    KRunKeeps(c, states, steps, i);
    assert EntryOK(states[i].world, Denotes(c, states[i]), Denotes(c, states[i]).outbox[k]);
  }

  /** A discharged transcript job means an archive row for that run's transcript exists. */
  lemma DischargedTranscriptIsArchived(c: Config, states: seq<KState>, steps: seq<KStep>, i: nat, j: nat)
    requires KRun(c, states, steps) && i < |states| && j < |states[i].log|
    requires states[i].log[j].msg.MarkHarvested? && states[i].log[j].msg.kind == Transcript
    ensures var run := states[i].log[j].msg.run;
      exists t :: RunOf(Fold(System(c), Folded(states[i])), t, run) && HasTranscript(states[i].world, t, run)
  {
    KRunKeeps(c, states, steps, i);
    assert QueueGood(states[i].log, Goods(c, states[i].world, Denotes(c, states[i])));
  }
}
