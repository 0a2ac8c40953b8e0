/**
 A run finishes at most once. The watcher of a run is started at most once per boot, its
 announcement is logged at most once over all boots, and a run that has left `running` never
 returns to it. The cap is fixed by the configuration.
 */
module KasiFinish {
  import opened Prelude
  import opened Runtime
  import opened RuntimeProofs
  import opened Ledger
  import opened Messages
  import opened Kasi
  import opened KasiFacts
  import opened KasiApply
  import opened KasiInv
  import opened KasiReplies
  import S = KasiSources
  import Sch = Scheduler
  import Agents

  // ---------------------------------------------------------------- the token

  function DoneMsg(msg: Msg, r: int): nat
  {
    if msg.FinishAgentRun? && msg.run == r then 1 else 0
  }

  function DoneLoc(l: Loc, r: int): nat
  {
    match l
    case WatchBody(_, x) => if x == r then 1 else 0
    case Emitting(ms) => DoneMsgs(ms, r)
    case _ => 0
  }

  function DoneMsgs(ms: seq<Msg>, r: int): nat
  {
    if ms == [] then 0 else DoneMsg(ms[0], r) + DoneMsgs(ms[1..], r)
  }

  /** One unit per finish-agent-run for run `r` that is still to be applied. */
  ghost function Token(r: int): Weight<Msg, Cmd, Loc>
  {
    Weight((m: Msg) => DoneMsg(m, r), (c: Cmd) => 0, (l: Loc) => DoneLoc(l, r))
  }

  /** How many finish-agent-run messages for run `r` a log holds. */
  function Finishes(log: seq<Envelope<Msg>>, r: int): nat
  {
    if log == [] then 0 else Finishes(log[..|log| - 1], r) + DoneMsg(log[|log| - 1].msg, r)
  }

  /** Run `r` exists and is not running. */
  ghost predicate Left(m: Model, r: int)
  {
    exists i :: 0 <= i < |m.agents.runs| && m.agents.runs[i].id == r && m.agents.runs[i].status != Agents.Running
  }

  /** The watcher of `r` may still be started in this boot. */
  ghost predicate Unwatched(s: KState, r: int)
  {
    WatchKey(r) !in s.running && !Left(s.model, r)
  }

  ghost function Budget(s: KState, r: int): nat
  {
    Tok(s, Token(r)) + if Unwatched(s, r) then 1 else 0
  }

  /** A running watcher watches an active run, or one that has left `running` and awaits its cancel. */
  ghost predicate WatchersKnown(s: KState)
  {
    forall r :: WatchKey(r) in s.running ==> Sch.IsActive(s.model.agents, r) || Left(s.model, r)
  }

  ghost predicate FinishInv(c: Config, s: KState)
  {
    && WatchersKnown(s)
    && (s.live ==> forall r :: Finishes(Folded(s), r) + Budget(s, r) <= 1)
    && (forall r :: Finishes(Folded(s), r) <= 1)
    && (forall r :: Finishes(Folded(s), r) > 0 ==> Left(Denotes(c, s), r))
  }

  // ---------------------------------------------------------------- handlers

  lemma ApplyFinishesNothingNew(m: Model, msg: Msg, offset: int, r: int)
    ensures OutsTok(ApplyOne(m, msg, offset).1, Token(r)) == 0
  {
    HandlersAnswer(m, msg, offset);
    OutsTokNone(ApplyOne(m, msg, offset).1, Token(r));
  }

  /** A run that has left `running` never becomes running again. */
  lemma LeftStays(m: Model, msg: Msg, offset: int, r: int)
    requires Left(m, r)
    ensures Left(ApplyOne(m, msg, offset).0, r)
  {
    var a, b := m.agents.runs, ApplyOne(m, msg, offset).0.agents.runs;
    var i :| 0 <= i < |a| && a[i].id == r && a[i].status != Agents.Running;
    Sch.RunsPersist(m.agents, msg, offset);
    assert b[i].id == r && b[i].status != Agents.Running;
  }

  lemma FinishLeaves(c: Config, w: World, m: Model, msg: Msg, n: nat)
    requires ModelOK(c, w, m, n) && MsgOK(c, w, m, msg) && msg.FinishAgentRun?
    ensures Left(ApplyOne(m, msg, n + 1).0, msg.run)
  {
    var i := Agents.FindRun(m.agents, msg.run);
    var ag := Agents.HandleFinishAgentRun(m.agents, msg.task, msg.run, msg.result).0;
    assert i < |m.agents.runs|;
    assert ag.runs[i].id == msg.run && ag.runs[i].status != Agents.Running;
    assert ApplyOne(m, msg, n + 1).0.agents == ag;
  }

  lemma AgentsOnly(m: Model, msg: Msg, offset: int)
    ensures ApplyOne(m, msg, offset).0.agents == Sch.Handle(m.agents, msg, offset)
  {
  }

  // ---------------------------------------------------------------- steps

  lemma ApplyBudget(c: Config, s: KState, r: int)
    requires Inv(System(c), s) && s.live && s.phase.Applying?
    ensures Budget(Next(System(c), s, Apply), r) + DoneMsg(s.phase.env.msg, r) <= Budget(s, r)
  {
    LedgerIsExact(System(c), s, Apply, Token(r));
    ApplyIs(c, s.model, s.phase.env.msg, |s.log|);
    ApplyFinishesNothingNew(s.model, s.phase.env.msg, |s.log|, r);
    if Left(s.model, r) {
      LeftStays(s.model, s.phase.env.msg, |s.log|, r);
    }
  }

  lemma EdgePasses(c: Config, w: World, l: Loc, cancelled: bool, w': World, l': Loc, emit: Option<Msg>, r: int)
    requires Edge(c, w, l, cancelled, w', l', emit)
    ensures DoneLoc(l', r) + (if emit.Some? then DoneMsg(emit.value, r) else 0) <= DoneLoc(l, r)
  {
    if l.CapturingMemory? {
      var ms: seq<Msg> :| l' == Emitting(ms + [MarkHarvested(l.run, Memory)]) && forall i :: 0 <= i < |ms| ==>
        MemoryDirective(ms[i]);
      NothingDone(l'.msgs, r);
    } else if l'.Emitting? && !l.Emitting? {
      NothingDone(l'.msgs, r);
    }
  }

  lemma {:induction false} NothingDone(ms: seq<Msg>, r: int)
    requires forall i :: 0 <= i < |ms| ==> !ms[i].FinishAgentRun?
    ensures DoneMsgs(ms, r) == 0
  {
    if ms != [] {
      NothingDone(ms[1..], r);
    }
  }

  lemma ActBudget(c: Config, s: KState, t: KStep, r: int)
    requires Inv(System(c), s) && Enabled(System(c), s, t) && t.Act?
    ensures Budget(Next(System(c), s, t), r) <= Budget(s, r)
  {
    LedgerIsExact(System(c), s, t, Token(r));
    EdgePasses(c, s.world, s.slots[t.k].run.value, Cancelled(s, t.k), t.world, t.local, t.emit, r);
  }

  lemma BringsWatcher(m: Model, id: SourceId, r: int)
    requires StartTok(id, Sources(m), Token(r)) != 0
    ensures id == WatchKey(r) && id in Sources(m)
    ensures StartTok(id, Sources(m), Token(r)) == 1
  {
    StartsAtBody(m, id);
    match id
    case HarvestKey(kind, x) => S.HarvestDeclared(m, kind, x);
    case SendKey(x) => S.SendDeclared(m, x);
    case _ => S.RunDeclared(m, id);
  }

  /** The watcher of `r` is started at most once in one pass, and only if it is listed. */
  lemma {:induction false} StartsCarry(m: Model, added: seq<SourceId>, r: int)
    requires forall i, j :: 0 <= i < j < |added| ==> added[i] != added[j]
    ensures StartsTok(added, Sources(m), Token(r)) <= if WatchKey(r) in added then 1 else 0
  {
    if added != [] {
      var front, id := added[..|added| - 1], added[|added| - 1];
      StartsCarry(m, front, r);
      assert StartsTok(added, Sources(m), Token(r)) == StartsTok(front, Sources(m), Token(r)) +
        StartTok(id, Sources(m), Token(r));
      assert forall i :: 0 <= i < |front| ==> added[i] == front[i];
      assert id !in front;
      if StartTok(id, Sources(m), Token(r)) != 0 {
        BringsWatcher(m, id, r);
      }
    }
  }

  lemma WatchDeclared(m: Model, n: nat, r: int)
    requires RunsOK(m.agents.runs, n) && WatchKey(r) in Sources(m)
    ensures Sch.IsActive(m.agents, r) && !Left(m, r)
  {
    S.RunDeclared(m, WatchKey(r));
  }

  lemma DiffBudget(c: Config, s: KState, t: KStep, r: int)
    requires KInv(c, s) && WatchersKnown(s) && Enabled(System(c), s, t) && (t.Diff? || t.BootDiff?)
    ensures Budget(Next(System(c), s, t), r) <= Budget(s, r)
  {
    ReconcileMeansDeclared(System(c), s, t.gone, t.added);
    LedgerIsExact(System(c), s, t, Token(r));
    WatchersTurnOver(c, s.model, |Folded(s)|, t.added, s.running, Next(System(c), s, t).running, r);
  }

  /** A pass over the sources spends the right to start a watcher on the watcher it starts. */
  lemma WatchersTurnOver(c: Config, m: Model, n: nat, added: seq<SourceId>, running: map<SourceId, nat>,
      running': map<SourceId, nat>, r: int)
    requires RunsOK(m.agents.runs, n) && running'.Keys == Sources(m).Keys
    requires WatchKey(r) in running ==> Sch.IsActive(m.agents, r) || Left(m, r)
    requires forall i, j :: 0 <= i < j < |added| ==> added[i] != added[j]
    requires forall id :: id in added <==> id in Sources(m).Keys - running.Keys
    ensures StartsTok(added, Sources(m), Token(r)) + (if WatchKey(r) !in running' && !Left(m, r) then 1 else 0)
         <= if WatchKey(r) !in running && !Left(m, r) then 1 else 0
  {
    StartsCarry(m, added, r);
    WatchTurnover(c, m, n, added, running, running', r);
  }

  /** A watcher leaves the running set only when its run has left `running`. */
  lemma WatchTurnover(c: Config, m: Model, n: nat, added: seq<SourceId>, running: map<SourceId, nat>,
      running': map<SourceId, nat>, r: int)
    requires RunsOK(m.agents.runs, n) && running'.Keys == Sources(m).Keys
    requires WatchKey(r) in running ==> Sch.IsActive(m.agents, r) || Left(m, r)
    requires forall id :: id in added ==> id in Sources(m) && id !in running
    ensures WatchKey(r) in added ==> WatchKey(r) !in running && !Left(m, r) && WatchKey(r) in running'
    ensures WatchKey(r) in running && WatchKey(r) !in running' ==> Left(m, r)
  {
    if WatchKey(r) in added { WatchDeclared(m, n, r); }
    if WatchKey(r) in running && !Left(m, r) {
      Sch.ActiveIsWatched(m, r);
    }
  }

  lemma PlumbingChange(c: Config, s: KState, t: KStep, r: int)
    requires Enabled(System(c), s, t) && Plumbing(t)
    ensures Change(System(c), s, t, Token(r)) <= 0
  {
    if t.Interpret? && s.phase.todo[0].Do? {
      assert DoneLoc(Begin(s.phase.todo[0].cmd), r) == 0;
    }
  }

  lemma PlumbingBudget(c: Config, s: KState, t: KStep, r: int)
    requires Inv(System(c), s) && Enabled(System(c), s, t) && (Plumbing(t) || t.Outside?)
    ensures Budget(Next(System(c), s, t), r) <= Budget(s, r)
  {
    LedgerIsExact(System(c), s, t, Token(r));
    if Plumbing(t) {
      PlumbingShape(System(c), s, t);
      PlumbingChange(c, s, t, r);
    }
  }

  // ---------------------------------------------------------------- the invariant

  lemma FinishesAppend(log: seq<Envelope<Msg>>, e: Envelope<Msg>, r: int)
    ensures Finishes(log + [e], r) == Finishes(log, r) + DoneMsg(e.msg, r)
  {
    assert (log + [e])[..|log|] == log;
  }

  lemma WatchersKnownStep(c: Config, s: KState, t: KStep)
    requires KInv(c, s) && WatchersKnown(s) && Enabled(System(c), s, t)
    ensures WatchersKnown(Next(System(c), s, t))
  {
    if t.Diff? || t.BootDiff? {
      WatchersKnownDiff(c, s, t);
    } else if t.Apply? {
      WatchersKnownApply(c, s);
    } else if !t.Crash? && !t.Restart? {
      NothingReconciled(System(c), s, t);
    }
  }

  lemma WatchersKnownDiff(c: Config, s: KState, t: KStep)
    requires KInv(c, s) && Enabled(System(c), s, t) && (t.Diff? || t.BootDiff?)
    ensures WatchersKnown(Next(System(c), s, t))
  {
    ReconcileMeansDeclared(System(c), s, t.gone, t.added);
    forall r | WatchKey(r) in Next(System(c), s, t).running ensures Sch.IsActive(s.model.agents, r) {
      WatchDeclared(s.model, |Folded(s)|, r);
    }
  }

  lemma RunsDistinct(m: Model, n: nat)
    requires RunsOK(m.agents.runs, n)
    ensures Sch.DistinctIds(m.agents.runs)
  {
  }

  lemma WatcherSurvives(m: Model, m': Model, n: nat, msg: Msg, r: int)
    requires RunsOK(m.agents.runs, n) && RunsOK(m'.agents.runs, n + 1) && m' == ApplyOne(m, msg, n + 1).0
    requires Sch.IsActive(m.agents, r) || Left(m, r)
    ensures Sch.IsActive(m'.agents, r) || Left(m', r)
  {
    AgentsOnly(m, msg, n + 1);
    RunsDistinct(m, n);
    RunsDistinct(m', n + 1);
    if Left(m, r) {
      LeftStays(m, msg, n + 1, r);
    } else {
      Sch.ActiveStays(m.agents, msg, n + 1, r);
      Sch.RunsPersist(m.agents, msg, n + 1);
    }
  }

  lemma WatchersKnownApply(c: Config, s: KState)
    requires KInv(c, s) && WatchersKnown(s) && s.live && s.phase.Applying?
    ensures WatchersKnown(Next(System(c), s, Apply))
  {
    ApplyGrows(c, s);
    DenotesApply(c, s);
    ApplyIs(c, s.model, s.phase.env.msg, |s.log|);
    var m' := ApplyOne(s.model, s.phase.env.msg, |s.log|).0;
    assert Enabled(System(c), s, Apply);
    var s' := Next(System(c), s, Apply);
    assert s'.model == m' && s'.running == s.running;
    forall r | WatchKey(r) in s.running ensures Sch.IsActive(m'.agents, r) || Left(m', r) {
      WatcherSurvives(s.model, m', |Folded(s)|, s.phase.env.msg, r);
    }
  }

  /** What one message does to the finish count, seen from the log. */
  lemma CompletingFinish(c: Config, s: KState, r: int)
    requires Completing(c, s, Fold(System(c), s.log))
    requires Finishes(Folded(s), r) > 0 ==> Left(Denotes(c, s), r)
    ensures Finishes(s.log, r) == Finishes(Folded(s), r) + DoneMsg(s.phase.env.msg, r)
    ensures Finishes(s.log, r) > 0 ==> Left(Fold(System(c), s.log), r)
  {
    FinishesAppend(Folded(s), s.phase.env, r);
    if Left(Denotes(c, s), r) {
      LeftStays(Denotes(c, s), s.phase.env.msg, |s.log|, r);
    }
    if DoneMsg(s.phase.env.msg, r) > 0 {
      FinishLeaves(c, s.world, Denotes(c, s), s.phase.env.msg, |Folded(s)|);
    }
  }

  /** The message in hand is still part of the budget. */
  lemma InHandCounts(s: KState, r: int)
    requires s.phase.Applying?
    ensures DoneMsg(s.phase.env.msg, r) <= Budget(s, r)
  {
    InFlightCounts(s, Token(r));
  }

  lemma FinishInvStep(c: Config, s: KState, t: KStep)
    requires KInv(c, s) && FinishInv(c, s) && Enabled(System(c), s, t)
    ensures FinishInv(c, Next(System(c), s, t))
  {
    var s' := Next(System(c), s, t);
    WatchersKnownStep(c, s, t);
    StepDenotes(c, s, t);
    if Completes(s, t) {
      CompletingIs(c, s);
    }
    forall r
      ensures Finishes(Folded(s'), r) <= 1 && (Finishes(Folded(s'), r) > 0 ==> Left(Denotes(c, s'), r))
      ensures s'.live ==> Finishes(Folded(s'), r) + Budget(s', r) <= 1
    {
      FinishInvAt(c, s, t, r);
    }
  }

  lemma FinishInvAt(c: Config, s: KState, t: KStep, r: int)
    requires KInv(c, s) && FinishInv(c, s) && Enabled(System(c), s, t)
    requires var s' := Next(System(c), s, t); Folded(s') == if Completes(s, t) then s.log else Folded(s)
    requires Completes(s, t) ==> Completing(c, s, Fold(System(c), s.log))
    ensures var s' := Next(System(c), s, t);
      && Finishes(Folded(s'), r) <= 1 && (Finishes(Folded(s'), r) > 0 ==> Left(Denotes(c, s'), r))
      && (s'.live ==> Finishes(Folded(s'), r) + Budget(s', r) <= 1)
  {
    if Completes(s, t) {
      CompletingFinish(c, s, r);
      InHandCounts(s, r);
      if t.Apply? { ApplyBudget(c, s, r); }
    } else if t.Act? {
      ActBudget(c, s, t, r);
    } else if t.Diff? || t.BootDiff? {
      DiffBudget(c, s, t, r);
    } else if Plumbing(t) || (t.Outside? && s.live) {
      PlumbingBudget(c, s, t, r);
    } else if t.Restart? {
      RestartBudget(c, s, r);
    }
  }

  lemma RestartBudget(c: Config, s: KState, r: int)
    requires Inv(System(c), s) && !s.live
    ensures var s' := Next(System(c), s, Restart); Budget(s', r) == if Left(Denotes(c, s), r) then 0 else 1
  {
    DeadIsEmpty(System(c), s, Token(r));
    LedgerIsExact(System(c), s, Restart, Token(r));
  }

  lemma FinishInvInitial(c: Config, w: World)
    ensures var s: KState := Initial(System(c), w); FinishInv(c, s)
  {
  }

  lemma {:induction false} RunFinishes(c: Config, states: seq<KState>, steps: seq<KStep>, i: nat)
    requires KRun(c, states, steps) && i < |states|
    ensures FinishInv(c, states[i])
  {
    if i == 0 {
      FinishInvInitial(c, states[0].world);
    } else {
      RunFinishes(c, states, steps, i - 1);
      FinishOverStep(c, states, steps, i);
    }
  }

  lemma FinishOverStep(c: Config, states: seq<KState>, steps: seq<KStep>, i: nat)
    requires KRun(c, states, steps) && 0 < i < |states| && FinishInv(c, states[i - 1])
    ensures FinishInv(c, states[i])
  {
    RunStep(c, states, steps, i);
    FinishInvStep(c, states[i - 1], steps[i - 1]);
  }

  /** With a fixed cap, the log never holds two finish-agent-run messages for one run. */
  lemma FinishedAtMostOnce(c: Config, states: seq<KState>, steps: seq<KStep>, i: nat, r: int)
    requires KRun(c, states, steps) && i < |states|
    ensures Finishes(states[i].log, r) <= 1
  {
    RunFinishes(c, states, steps, i);
    KRunKeeps(c, states, steps, i);
    var s := states[i];
    if s.live {
      FinishInvStep(c, s, Crash);
      StepDenotes(c, s, Crash);
    }
  }

  /** Having left means that no entry of the list is that run, running. */
  lemma LeftMeansNotRunning(m: Model, n: nat, r: int)
    requires RunsOK(m.agents.runs, n) && Left(m, r)
    ensures !Sch.StillRunning(m.agents, r)
  {
  }

  /** The model state `s` stands for says that run `r` has left `running`. */
  ghost predicate HasLeft(c: Config, s: KState, r: int)
  {
    Left(Denotes(c, s), r)
  }

  lemma {:induction false} LeftForever(c: Config, states: seq<KState>, steps: seq<KStep>, i: nat, j: nat, r: int)
    requires KRun(c, states, steps) && i <= j < |states|
    requires HasLeft(c, states[i], r)
    ensures HasLeft(c, states[j], r)
    decreases j - i
  {
    if i < j {
      LeftForever(c, states, steps, i, j - 1, r);
      LeftOverStep(c, states, steps, j, r);
    }
  }

  /** A run that has left `running` in some reached model is not running in any later one. */
  lemma NeverRunsAgain(c: Config, states: seq<KState>, steps: seq<KStep>, i: nat, j: nat, r: int)
    requires KRun(c, states, steps) && i <= j < |states|
    requires Left(Fold(System(c), Folded(states[i])), r)
    ensures !Sch.StillRunning(Fold(System(c), Folded(states[j])).agents, r)
  {
    LeftForever(c, states, steps, i, j, r);
    KRunKeeps(c, states, steps, j);
    LeftMeansNotRunning(Denotes(c, states[j]), |Folded(states[j])|, r);
  }

  lemma LeftStep(c: Config, s: KState, t: KStep, r: int)
    requires Inv(System(c), s) && Enabled(System(c), s, t) && HasLeft(c, s, r)
    ensures HasLeft(c, Next(System(c), s, t), r)
  {
    StepDenotes(c, s, t);
    if Completes(s, t) {
      DenotesApply(c, s);
      LeftStays(Denotes(c, s), s.phase.env.msg, |s.log|, r);
    }
  }

  lemma LeftOverStep(c: Config, states: seq<KState>, steps: seq<KStep>, j: nat, r: int)
    requires KRun(c, states, steps) && 0 < j < |states|
    requires HasLeft(c, states[j - 1], r)
    ensures HasLeft(c, states[j], r)
  {
    RunStep(c, states, steps, j);
    LeftStep(c, states[j - 1], steps[j - 1], r);
  }

  /** One task, one harness: in every logged model a resumed run keeps the pin of its task's earlier runs. */
  lemma {:induction false} PinsHold(c: Config, log: seq<Envelope<Msg>>)
    ensures Sch.Pinned(Fold(System(c), log).agents.runs)
  {
    if log != [] {
      var front, e := log[..|log| - 1], log[|log| - 1];
      PinsHold(c, front);
      FoldAppend(System(c), front, e);
      assert log == front + [e];
      var m := Fold(System(c), front);
      ApplyIs(c, m, e.msg, |log|);
      AgentsOnly(m, e.msg, |log|);
      Sch.PinsPersist(m.agents, e.msg, |log|);
    }
  }
}
