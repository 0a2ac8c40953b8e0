/**
 The reconcilers keep their promise: in every boot that reaches quiescence, everything the model still
 owes and every mail it has not sent was driven again, by a message logged in that boot.
 */
module KasiDrives {
  import opened Prelude
  import opened Runtime
  import opened RuntimeProofs
  import opened Ledger
  import opened Messages
  import opened Kasi
  import opened KasiInv
  import S = KasiSources
  import Tasks

  // ---------------------------------------------------------------- the token

  /** This message is what source `id` is there to emit. */
  predicate Drives(msg: Msg, id: SourceId)
  {
    match id
    case HarvestKey(kind, r) => msg.RunHarvest? && msg.run == r && msg.kind == kind
    case SendKey(x) => msg.SendOutbox? && msg.outboxID == x
    case _ => false
  }

  /** The body of source `id` before it has emitted. */
  predicate Driver(l: Loc, id: SourceId)
  {
    match id
    case HarvestKey(kind, r) => l.HarvestBody? && l.run == r && l.kind == kind
    case SendKey(x) => l.SendBody? && l.outboxID == x
    case _ => false
  }

  function One(b: bool): nat
  {
    if b then 1 else 0
  }

  /** One unit per driving message of `id` that is still to be applied. */
  ghost function Token(id: SourceId): Weight<Msg, Cmd, Loc>
  {
    Weight((m: Msg) => One(Drives(m, id)), (c: Cmd) => 0, (l: Loc) => One(Driver(l, id)))
  }

  /** How many messages from index `from` on drive `id`. */
  function Logged(log: seq<Envelope<Msg>>, from: nat, id: SourceId): nat
  {
    if |log| <= from then 0 else Logged(log[..|log| - 1], from, id) + One(Drives(log[|log| - 1].msg, id))
  }

  /** Driven since index `from`: logged and applied, or still under way. */
  ghost function Driven(s: KState, from: nat, id: SourceId): nat
  {
    Tok(s, Token(id)) + Logged(Folded(s), from, id)
  }

  /** Every running source that drives something has driven it in this boot. */
  ghost predicate AllDriven(s: KState, from: nat)
  {
    forall id :: id in s.running && (id.HarvestKey? || id.SendKey?) ==> Driven(s, from, id) >= 1
  }

  // ---------------------------------------------------------------- no step loses a drive

  lemma EdgeDrives(c: Config, w: World, l: Loc, cancelled: bool, w': World, l': Loc, emit: Option<Msg>, id: SourceId)
    requires Edge(c, w, l, cancelled, w', l', emit)
    ensures One(Driver(l, id)) <= One(Driver(l', id)) + if emit.Some? then One(Drives(emit.value, id)) else 0
  {
  }

  /** Only applying a message takes it out of flight, and a driving body does not return unheard. */
  lemma NothingDropped(c: Config, s: KState, t: KStep, id: SourceId)
    requires Enabled(System(c), s, t) && !t.Crash? && !t.Apply?
    ensures Change(System(c), s, t, Token(id)) >= 0
  {
    if t.Act? {
      EdgeDrives(c, s.world, s.slots[t.k].run.value, Cancelled(s, t.k), t.world, t.local, t.emit, id);
    }
  }

  lemma LoggedAppend(log: seq<Envelope<Msg>>, e: Envelope<Msg>, from: nat, id: SourceId)
    requires from <= |log|
    ensures Logged(log + [e], from, id) == Logged(log, from, id) + One(Drives(e.msg, id))
  {
    assert (log + [e])[..|log|] == log;
  }

  lemma DrivenStep(c: Config, s: KState, t: KStep, from: nat, id: SourceId)
    requires Inv(System(c), s) && Enabled(System(c), s, t) && !t.Crash? && from <= |Folded(s)|
    ensures var r := Next(System(c), s, t); from <= |Folded(r)| && Driven(s, from, id) <= Driven(r, from, id)
  {
    LedgerIsExact(System(c), s, t, Token(id));
    StepDenotes(c, s, t);
    if t.Apply? {
      assert s.log == Folded(s) + [s.phase.env];
      LoggedAppend(Folded(s), s.phase.env, from, id);
    } else {
      NothingDropped(c, s, t, id);
    }
  }

  /** A source that is started begins with its drive ahead of it. */
  lemma StartsDriving(m: Model, added: seq<SourceId>, id: SourceId)
    requires id in added && id in Sources(m) && (id.HarvestKey? || id.SendKey?)
    ensures StartsTok(added, Sources(m), Token(id)) >= 1
  {
    match id {
      case HarvestKey(kind, r) => S.HarvestDeclared(m, kind, r);
      case SendKey(x) => S.SendDeclared(m, x);
    }
    var i :| 0 <= i < |added| && added[i] == id;
    assert StartTok(id, Sources(m), Token(id)) == 1;
    SumBound(added, i, (x: SourceId) => StartTok(x, Sources(m), Token(id)));
  }

  lemma DiffDrives(c: Config, s: KState, t: KStep, from: nat)
    requires Inv(System(c), s) && AllDriven(s, from) && Enabled(System(c), s, t) && (t.Diff? || t.BootDiff?)
    requires from <= |Folded(s)|
    ensures AllDriven(Next(System(c), s, t), from)
  {
    var r := Next(System(c), s, t);
    ReconcileMeansDeclared(System(c), s, t.gone, t.added);
    forall id | id in r.running && (id.HarvestKey? || id.SendKey?) ensures Driven(r, from, id) >= 1 {
      DrivenStep(c, s, t, from, id);
      if id !in s.running {
        LedgerIsExact(System(c), s, t, Token(id));
        StartsDriving(s.model, t.added, id);
      }
    }
  }

  /** Only a reconcile pass changes what is running, within one boot. */
  lemma RunningKept(c: Config, s: KState, t: KStep)
    requires Enabled(System(c), s, t) && !t.Crash? && !t.Diff? && !t.BootDiff?
    ensures Next(System(c), s, t).running == s.running
  {
    if Plumbing(t) || t.Act? || t.Outside? { NothingReconciled(System(c), s, t); }
  }

  lemma AllDrivenStep(c: Config, s: KState, t: KStep, from: nat)
    requires Inv(System(c), s) && AllDriven(s, from) && Enabled(System(c), s, t) && !t.Crash?
    requires from <= |Folded(s)|
    ensures AllDriven(Next(System(c), s, t), from)
  {
    if t.Diff? || t.BootDiff? {
      DiffDrives(c, s, t, from);
    } else {
      RunningKept(c, s, t);
      forall id | id in s.running && (id.HarvestKey? || id.SendKey?)
        ensures Driven(Next(System(c), s, t), from, id) >= 1
      {
        DrivenStep(c, s, t, from, id);
      }
    }
  }

  // ---------------------------------------------------------------- quiescence waits for every driver

  predicate IsDriver(l: Loc)
  {
    l.HarvestBody? || l.SendBody?
  }

  /** A goroutine that has a drive ahead of it counts as pending work. */
  predicate Awaits(x: Slot<SourceId, Msg, Loc>)
  {
    x.run.Some? && IsDriver(x.run.value) ==> x.kind.Body? && x.kind.await
  }

  predicate Awaited(slots: seq<Slot<SourceId, Msg, Loc>>)
  {
    forall k :: 0 <= k < |slots| ==> Awaits(slots[k])
  }

  lemma EdgeLeaves(c: Config, w: World, l: Loc, cancelled: bool, w': World, l': Loc, emit: Option<Msg>)
    requires Edge(c, w, l, cancelled, w', l', emit)
    ensures !IsDriver(l')
  {
  }

  lemma BornAwaited(m: Model, id: SourceId)
    requires id in Sources(m)
    ensures Awaits(Born(id, Sources(m)[id]))
  {
    match id
    case HarvestKey(kind, r) => S.HarvestDeclared(m, kind, r);
    case SendKey(x) => S.SendDeclared(m, x);
    case _ => S.RunDeclared(m, id);
  }

  lemma BornAllAwaited(m: Model, old': seq<Slot<SourceId, Msg, Loc>>, new': seq<Slot<SourceId, Msg, Loc>>,
      added: seq<SourceId>)
    requires Awaited(old') && BornInOrder(new', |old'|, added, Sources(m))
    requires forall k :: 0 <= k < |old'| ==> new'[k] == old'[k].(waiter := new'[k].waiter)
    ensures Awaited(new')
  {
    forall k | 0 <= k < |new'| ensures Awaits(new'[k]) {
      if k < |old'| {
        assert Awaits(old'[k]);
      } else {
        var i := k - |old'|;
        BornAwaited(m, added[i]);
        assert new'[|old'| + i] == Born(added[i], Sources(m)[added[i]]);
      }
    }
  }

  lemma DiffAwaits(c: Config, s: KState, t: KStep)
    requires Inv(System(c), s) && Awaited(s.slots) && Enabled(System(c), s, t) && (t.Diff? || t.BootDiff?)
    ensures Awaited(Next(System(c), s, t).slots)
  {
    ReconcileMeansDeclared(System(c), s, t.gone, t.added);
    BornAllAwaited(s.model, s.slots, Next(System(c), s, t).slots, t.added);
  }

  /** The goroutine that moved has no new drive ahead of it. */
  lemma MovedAwaits(c: Config, s: KState, t: KStep)
    requires Inv(System(c), s) && Awaited(s.slots) && Enabled(System(c), s, t) && GoroutineStep(t) && !t.Call?
    ensures t.k < |s.slots| && Awaits(Next(System(c), s, t).slots[t.k])
    ensures Next(System(c), s, t).slots == s.slots[t.k := Next(System(c), s, t).slots[t.k]]
  {
    GoroutineStepShape(System(c), s, t);
    assert Awaits(s.slots[t.k]);
    if t.Act? {
      EdgeLeaves(c, s.world, s.slots[t.k].run.value, Cancelled(s, t.k), t.world, t.local, t.emit);
    }
  }

  lemma InterpretAwaits(c: Config, s: KState)
    requires Awaited(s.slots) && s.phase.Interpreting? && s.phase.todo != []
    ensures Awaited(InterpretOne(System(c), s).slots)
  {
    if s.phase.todo[0].Do? {
      assert !IsDriver(Begin(s.phase.todo[0].cmd));
    }
  }

  lemma AwaitedStep(c: Config, s: KState, t: KStep)
    requires Inv(System(c), s) && Awaited(s.slots) && Enabled(System(c), s, t)
    ensures Awaited(Next(System(c), s, t).slots)
  {
    if t.Diff? || t.BootDiff? {
      DiffAwaits(c, s, t);
    } else if GoroutineStep(t) && !t.Call? {
      MovedAwaits(c, s, t);
    } else if t.Interpret? {
      InterpretAwaits(c, s);
    }
  }

  /** In a settled state nothing is left to drive. */
  lemma SettledIsEmpty(c: Config, s: KState, id: SourceId)
    requires Inv(System(c), s) && Awaited(s.slots) && s.pending == 0
    ensures Tok(s, Token(id)) == 0 && Folded(s) == s.log && !s.phase.Interpreting?
  {
    PendingZeroIffQuiet(System(c), s);
    forall k | 0 <= k < |s.slots| ensures SlotTok(s.slots[k], Token(id)) == 0 {
      assert Awaits(s.slots[k]);
    }
    SumZero(s.slots, (x: Slot<SourceId, Msg, Loc>) => SlotTok(x, Token(id)));
  }

  // ---------------------------------------------------------------- one boot

  ghost predicate BootInv(c: Config, s: KState, from: nat)
  {
    s.live && Inv(System(c), s) && from <= |Folded(s)| && AllDriven(s, from) && Awaited(s.slots)
  }

  lemma BootStarts(c: Config, s: KState)
    requires Inv(System(c), s) && !s.live
    ensures BootInv(c, Next(System(c), s, Restart), |s.log|)
  {
    StepKeeps(System(c), s, Restart);
  }

  lemma BootStep(c: Config, s: KState, t: KStep, from: nat)
    requires BootInv(c, s, from) && Enabled(System(c), s, t) && !t.Crash?
    ensures BootInv(c, Next(System(c), s, t), from)
  {
    StepKeeps(System(c), s, t);
    StaysLive(System(c), s, t);
    AllDrivenStep(c, s, t, from);
    AwaitedStep(c, s, t);
    DrivenStep(c, s, t, from, LaunchKey(0));
  }

  lemma BootOverStep(c: Config, states: seq<KState>, steps: seq<KStep>, i: nat, from: nat)
    requires KRun(c, states, steps) && 0 < i < |states| && !steps[i - 1].Crash? && BootInv(c, states[i - 1], from)
    ensures BootInv(c, states[i], from)
  {
    RunStep(c, states, steps, i);
    BootStep(c, states[i - 1], steps[i - 1], from);
  }

  lemma BootBegins(c: Config, states: seq<KState>, steps: seq<KStep>, b: nat)
    requires KRun(c, states, steps) && 0 < b < |states| && steps[b - 1].Restart?
    ensures BootInv(c, states[b], |states[b].log|)
  {
    RunStep(c, states, steps, b);
    BootStarts(c, states[b - 1]);
  }

  lemma {:induction false} BootKeeps(c: Config, states: seq<KState>, steps: seq<KStep>, b: nat, i: nat)
    requires KRun(c, states, steps) && i < |states| && Boot(steps, b, i)
    ensures BootInv(c, states[i], |states[b].log|)
    decreases i
  {
    if i == b {
      BootBegins(c, states, steps, b);
    } else {
      BootKeeps(c, states, steps, b, i - 1);
      BootOverStep(c, states, steps, i, |states[b].log|);
    }
  }

  ghost predicate DrivenSince(log: seq<Envelope<Msg>>, from: nat, id: SourceId)
  {
    exists n :: from <= n < |log| && Drives(log[n].msg, id)
  }

  lemma {:induction false} LoggedIsDriven(log: seq<Envelope<Msg>>, from: nat, id: SourceId)
    requires Logged(log, from, id) >= 1
    ensures DrivenSince(log, from, id)
  {
    var front, n := log[..|log| - 1], |log| - 1;
    if Drives(log[n].msg, id) {
      assert from <= n;
    } else {
      LoggedIsDriven(front, from, id);
      var i :| from <= i < |front| && Drives(front[i].msg, id);
      assert log[i] == front[i];
    }
  }

  /**
   Whenever a boot has settled, every (run, kind) still owed has a run-harvest and every mail not sent
   has a send-outbox that was logged since that boot: whatever failed or was lost in earlier boots was
   tried again in this one.
   */
  lemma SettledMeansDriven(c: Config, states: seq<KState>, steps: seq<KStep>, b: nat, i: nat)
    requires KRun(c, states, steps) && i < |states| && Boot(steps, b, i)
    requires !states[i].booting && states[i].pending == 0
    ensures var log, from := states[i].log, |states[b].log|;
      var m := Fold(System(c), log);
      && (forall r, kind :: Tasks.Owes(m.tasks.pending, r, kind) ==> DrivenSince(log, from, HarvestKey(kind, r)))
      && (forall e :: 0 <= e < |m.outbox| && !m.outbox[e].sent ==>
           DrivenSince(log, from, SendKey(m.outbox[e].outboxID)))
  {
    BootKeeps(c, states, steps, b, i);
    var s, from := states[i], |states[b].log|;
    forall id | id in Sources(s.model) && (id.HarvestKey? || id.SendKey?) ensures DrivenSince(s.log, from, id) {
      SettledIsEmpty(c, s, id);
      assert Driven(s, from, id) >= 1;
      LoggedIsDriven(s.log, from, id);
    }
    SettledIsEmpty(c, s, LaunchKey(0));
    var m := Fold(System(c), s.log);
    forall r, kind | Tasks.Owes(m.tasks.pending, r, kind) ensures DrivenSince(s.log, from, HarvestKey(kind, r)) {
      S.HarvestDeclared(m, kind, r);
    }
    forall e | 0 <= e < |m.outbox| && !m.outbox[e].sent
      ensures DrivenSince(s.log, from, SendKey(m.outbox[e].outboxID))
    {
      S.SendDeclared(m, m.outbox[e].outboxID);
    }
  }
}
