/**
 The one window in which a crash loses a run's result. A finish-agent-run answers with an
 agent-run-finished that is only in memory until it is logged itself. Within a boot every finish is
 matched by an end, logged or under way; a crash forgets exactly the ends under way, and what is
 forgotten stays forgotten, since no run finishes twice.
 */
module KasiEnds {
  import opened Prelude
  import opened Runtime
  import opened RuntimeProofs
  import opened Ledger
  import opened Messages
  import opened Kasi
  import opened KasiFacts
  import opened KasiApply
  import opened KasiInv
  import opened KasiRequests
  import F = KasiFinish
  import Tasks

  /** Finishes of run `r` whose end is neither logged nor under way. */
  ghost function Missing(s: KState, r: int): int
  {
    F.Finishes(Folded(s), r) - Ends(Folded(s), r) - Tok(s, EndToken(r))
  }

  // ---------------------------------------------------------------- within a boot nothing goes missing

  lemma {:induction false} AnnouncedEndsNothing(ms: seq<Msg>, r: int)
    requires forall i :: 0 <= i < |ms| ==> Announceable(ms[i])
    ensures EndMsgs(ms, r) == 0
  {
    if ms != [] {
      AnnouncedEndsNothing(ms[1..], r);
    }
  }

  /** No goroutine holds the end of a run: only the reducer sends one. */
  lemma EndsNotInCode(c: Config, w: World, m: Model, l: Loc, r: int)
    requires LocOK(c, w, m, l)
    ensures EndLoc(l, r) == 0
  {
    if l.Emitting? { AnnouncedEndsNothing(l.msgs, r); }
  }

  lemma SlotHoldsNoEnd(c: Config, s: KState, k: nat, r: int)
    requires Carries(s, Goods(c, s.world, Denotes(c, s))) && k < |s.slots| && s.slots[k].run.Some?
    ensures LocOK(c, s.world, Denotes(c, s), s.slots[k].run.value) && EndLoc(s.slots[k].run.value, r) == 0
  {
    assert SlotGood(s.slots[k], Goods(c, s.world, Denotes(c, s)));
    EndsNotInCode(c, s.world, Denotes(c, s), s.slots[k].run.value, r);
  }

  lemma ActKeepsEnds(c: Config, s: KState, t: KStep, r: int)
    requires KInv(c, s) && Enabled(System(c), s, t) && t.Act?
    ensures Change(System(c), s, t, EndToken(r)) == 0
  {
    var l := s.slots[t.k].run.value;
    SlotHoldsNoEnd(c, s, t.k, r);
    EdgeEndsNothing(c, s.world, l, Cancelled(s, t.k), t.world, t.local, t.emit, r);
  }

  /** A finish is answered by exactly one end, and nothing else is. */
  lemma FinishEndsOnce(m: Model, msg: Msg, offset: int, r: int)
    ensures OutsTok(ApplyOne(m, msg, offset).1, EndToken(r)) == F.DoneMsg(msg, r)
  {
    var outs := ApplyOne(m, msg, offset).1;
    if msg.FinishAgentRun? {
      OutsTokOne(outs, EndToken(r));
    } else {
      HandlersAnswer(m, msg, offset);
      OutsTokNone(outs, EndToken(r));
    }
  }

  lemma ReturnKeepsEnds(c: Config, s: KState, t: KStep, r: int)
    requires KInv(c, s) && Enabled(System(c), s, t) && t.Return?
    ensures Change(System(c), s, t, EndToken(r)) == 0
  {
    SlotHoldsNoEnd(c, s, t.k, r);
  }

  lemma PlumbingKeepsEnds(c: Config, s: KState, t: KStep, r: int)
    requires Enabled(System(c), s, t) && (Plumbing(t) || t.Outside? || t.Restart?) && !t.Return?
    ensures Change(System(c), s, t, EndToken(r)) == 0
  {
    if t.Interpret? && s.phase.todo[0].Do? {
      assert EndLoc(Begin(s.phase.todo[0].cmd), r) == 0;
    }
  }

  /** Every step but applying and crashing leaves the ends under way as they are. */
  lemma EndsUnchanged(c: Config, s: KState, t: KStep, r: int)
    requires KInv(c, s) && Enabled(System(c), s, t) && !t.Crash? && !t.Apply?
    ensures Change(System(c), s, t, EndToken(r)) == 0
  {
    if t.Act? {
      ActKeepsEnds(c, s, t, r);
    } else if t.Return? {
      ReturnKeepsEnds(c, s, t, r);
    } else if t.Diff? || t.BootDiff? {
      StartsEndNothing(s.model, t.added, r);
    } else {
      PlumbingKeepsEnds(c, s, t, r);
    }
  }

  lemma ApplyBalances(c: Config, s: KState, r: int)
    requires KInv(c, s) && s.live && s.phase.Applying?
    ensures Tok(Next(System(c), s, Apply), EndToken(r)) ==
      Tok(s, EndToken(r)) - EndMsg(s.phase.env.msg, r) + F.DoneMsg(s.phase.env.msg, r)
  {
    LedgerIsExact(System(c), s, Apply, EndToken(r));
    ApplyIs(c, s.model, s.phase.env.msg, |s.log|);
    FinishEndsOnce(s.model, s.phase.env.msg, |s.log|, r);
  }

  lemma LogBalances(s: KState, r: int)
    requires s.phase.Applying? && s.log == Folded(s) + [s.phase.env]
    ensures Ends(s.log, r) == Ends(Folded(s), r) + EndMsg(s.phase.env.msg, r)
    ensures F.Finishes(s.log, r) == F.Finishes(Folded(s), r) + F.DoneMsg(s.phase.env.msg, r)
  {
    EndsAppend(Folded(s), s.phase.env, r);
    F.FinishesAppend(Folded(s), s.phase.env, r);
  }

  lemma MissingStep(c: Config, s: KState, t: KStep, r: int)
    requires KInv(c, s) && Enabled(System(c), s, t) && !t.Crash?
    ensures Missing(Next(System(c), s, t), r) == Missing(s, r)
  {
    StepDenotes(c, s, t);
    if t.Apply? {
      EnvelopeLogged(c, s);
      LogBalances(s, r);
      ApplyBalances(c, s, r);
    } else {
      LedgerIsExact(System(c), s, t, EndToken(r));
      EndsUnchanged(c, s, t, r);
    }
  }

  lemma EnvelopeLogged(c: Config, s: KState)
    requires Inv(System(c), s) && s.live && s.phase.Applying?
    ensures s.log == Folded(s) + [s.phase.env]
  {
  }

  // ---------------------------------------------------------------- what a crash takes

  /** The ends of run `r` that exist only in memory, the one a logged finish is about to send included. */
  ghost function InMemory(s: KState, r: int): int
  {
    Tok(s, EndToken(r)) +
    if s.phase.Applying? then F.DoneMsg(s.phase.env.msg, r) - EndMsg(s.phase.env.msg, r) else 0
  }

  /** A crash loses exactly what was only in memory. */
  lemma CrashLoses(c: Config, s: KState, r: int)
    requires KInv(c, s) && s.live
    ensures Missing(Next(System(c), s, Crash), r) == Missing(s, r) + InMemory(s, r) && InMemory(s, r) >= 0
  {
    StepDenotes(c, s, Crash);
    LedgerIsExact(System(c), s, Crash, EndToken(r));
    InFlightCounts(s, EndToken(r));
    if s.phase.Applying? {
      EnvelopeLogged(c, s);
      LogBalances(s, r);
    }
  }

  // ---------------------------------------------------------------- over runs

  lemma MissingOverStep(c: Config, states: seq<KState>, steps: seq<KStep>, j: nat, r: int)
    requires KRun(c, states, steps) && 0 < j < |states|
    ensures Missing(states[j], r) ==
      Missing(states[j - 1], r) + if steps[j - 1].Crash? then InMemory(states[j - 1], r) else 0
    ensures Missing(states[j], r) >= Missing(states[j - 1], r)
  {
    RunStep(c, states, steps, j);
    if steps[j - 1].Crash? {
      CrashLoses(c, states[j - 1], r);
    } else {
      MissingStep(c, states[j - 1], steps[j - 1], r);
    }
  }

  /** Over any stretch without a crash, every finish is matched by an end, logged or under way. */
  lemma {:induction false} NothingMissingWithoutCrash(c: Config, states: seq<KState>, steps: seq<KStep>, i: nat, j: nat,
      r: int)
    requires KRun(c, states, steps) && i <= j < |states| && NoCrash(steps, i, j)
    ensures Missing(states[j], r) == Missing(states[i], r)
    decreases j - i
  {
    if i < j {
      NothingMissingWithoutCrash(c, states, steps, i, j - 1, r);
      MissingOverStep(c, states, steps, j, r);
    }
  }

  lemma {:induction false} MissingGrows(c: Config, states: seq<KState>, steps: seq<KStep>, i: nat, j: nat, r: int)
    requires KRun(c, states, steps) && i <= j < |states|
    ensures Missing(states[i], r) <= Missing(states[j], r)
    decreases j - i
  {
    if i < j {
      MissingGrows(c, states, steps, i, j - 1, r);
      MissingOverStep(c, states, steps, j, r);
    }
  }

  lemma NoneMissingAtFirst(c: Config, states: seq<KState>, steps: seq<KStep>, r: int)
    requires KRun(c, states, steps)
    ensures Missing(states[0], r) == 0
  {
  }

  /** Step `k` is a crash that takes the end of run `r` with it. */
  ghost predicate TakenAt(states: seq<KState>, steps: seq<KStep>, k: nat, r: int)
    requires |states| == |steps| + 1 && k < |steps|
  {
    steps[k].Crash? && InMemory(states[k], r) >= 1
  }

  lemma TakenOverStep(c: Config, states: seq<KState>, steps: seq<KStep>, j: nat, r: int)
    requires KRun(c, states, steps) && 0 < j < |states|
    ensures Missing(states[j], r) >= Missing(states[j - 1], r)
    ensures Missing(states[j], r) > Missing(states[j - 1], r) <==> TakenAt(states, steps, j - 1, r)
  {
    MissingOverStep(c, states, steps, j, r);
  }

  /** The end of a run is missing exactly if some crash hit while it was only in memory. */
  lemma {:induction false} MissingIffTaken(c: Config, states: seq<KState>, steps: seq<KStep>, i: nat, r: int)
    requires KRun(c, states, steps) && i < |states|
    ensures Missing(states[i], r) >= 0
    ensures Missing(states[i], r) >= 1 <==> exists k :: 0 <= k < i && TakenAt(states, steps, k, r)
  {
    if i == 0 {
      NoneMissingAtFirst(c, states, steps, r);
    } else {
      MissingIffTaken(c, states, steps, i - 1, r);
      TakenOverStep(c, states, steps, i, r);
    }
  }

  // ---------------------------------------------------------------- nothing is owed for a run that has not ended

  /** Every job is for a run whose end is logged. */
  ghost predicate JobsEnded(m: Model, log: seq<Envelope<Msg>>)
  {
    forall r, kind :: Tasks.Owes(m.tasks.pending, r, kind) ==> Ends(log, r) >= 1
  }

  lemma OwedByMessage(m: Model, msg: Msg, offset: int, r: int, kind: HarvestKind)
    requires Tasks.Owes(ApplyOne(m, msg, offset).0.tasks.pending, r, kind)
    ensures Tasks.Owes(m.tasks.pending, r, kind) || EndMsg(msg, r) == 1 || RegistersNow(m, msg, r)
  {
    match msg
    case AgentRunFinished(t, x, res) => Tasks.JobsRecorded(m.tasks.pending, t, x, res, r, kind);
    case MarkHarvested(x, k) => Tasks.DischargedOwes(m.tasks.pending, x, k, r, kind);
    case RegisterUIRequest(t, x, _) =>
      Tasks.DischargedOwes(m.tasks.pending, x, Request, r, kind);
      Tasks.WithPendingOwes(Tasks.Discharged(m.tasks.pending, x, Request), Tasks.HarvestJob(t, x, Reply), r, kind);
    case _ =>
  }

  /** A registration is for a run that raised a request, and so has ended. */
  lemma RegisteredEnded(c: Config, log: seq<Envelope<Msg>>, e: Envelope<Msg>, r: int)
    requires RegistersNow(Fold(System(c), log), e.msg, r)
    requires ExactlyOne(c, Fold(System(c), log + [e]), log + [e], r)
    ensures Ends(log + [e], r) >= 1
  {
    FoldAppend(System(c), log, e);
    ApplyIs(c, Fold(System(c), log), e.msg, |log| + 1);
    RegisteredAfter(Fold(System(c), log), e.msg, |log| + 1, r);
    RaisedEnds(c, log + [e], r);
  }

  lemma JobsEndedAfter(c: Config, log: seq<Envelope<Msg>>, e: Envelope<Msg>)
    requires JobsEnded(Fold(System(c), log), log)
    requires forall r :: ExactlyOne(c, Fold(System(c), log + [e]), log + [e], r)
    ensures JobsEnded(Fold(System(c), log + [e]), log + [e])
  {
    var m, m' := Fold(System(c), log), Fold(System(c), log + [e]);
    FoldAppend(System(c), log, e);
    ApplyIs(c, m, e.msg, |log| + 1);
    forall r, kind | Tasks.Owes(m'.tasks.pending, r, kind) ensures Ends(log + [e], r) >= 1 {
      OwedByMessage(m, e.msg, |log| + 1, r, kind);
      EndsAppend(log, e, r);
      if RegistersNow(m, e.msg, r) { RegisteredEnded(c, log, e, r); }
    }
  }

  lemma EndedAfter(c: Config, log: seq<Envelope<Msg>>, after: seq<Envelope<Msg>>)
    requires JobsEnded(Fold(System(c), log), log)
    requires after == log || (after != [] && after[..|after| - 1] == log)
    requires forall r :: ExactlyOne(c, Fold(System(c), after), after, r)
    ensures JobsEnded(Fold(System(c), after), after)
  {
    if after != log {
      assert after == log + [after[|after| - 1]];
      JobsEndedAfter(c, log, after[|after| - 1]);
    }
  }

  ghost predicate Ended(c: Config, s: KState)
  {
    JobsEnded(Denotes(c, s), Folded(s))
  }

  lemma FoldedStep(c: Config, s: KState, t: KStep)
    requires Inv(System(c), s) && Enabled(System(c), s, t)
    ensures var after := Folded(Next(System(c), s, t));
      after == Folded(s) || (after != [] && after[..|after| - 1] == Folded(s))
  {
    StepDenotes(c, s, t);
    if Completes(s, t) { EnvelopeLogged(c, s); }
  }

  lemma EndedOverStep(c: Config, states: seq<KState>, steps: seq<KStep>, j: nat)
    requires KRun(c, states, steps) && 0 < j < |states| && Ended(c, states[j - 1])
    ensures Ended(c, states[j])
  {
    RunStep(c, states, steps, j);
    FoldedStep(c, states[j - 1], steps[j - 1]);
    RunRequests(c, states, steps, j);
    forall r ensures ExactlyOne(c, Fold(System(c), Folded(states[j])), Folded(states[j]), r) {
      assert ExactlyOne(c, Denotes(c, states[j]), Folded(states[j]), r);
    }
    EndedAfter(c, Folded(states[j - 1]), Folded(states[j]));
  }

  /** In every reachable state, work is owed only for runs whose agent-run-finished is logged. */
  lemma {:induction false} OwedMeansEnded(c: Config, states: seq<KState>, steps: seq<KStep>, i: nat)
    requires KRun(c, states, steps) && i < |states|
    ensures Ended(c, states[i])
  {
    if i > 0 {
      OwedMeansEnded(c, states, steps, i - 1);
      EndedOverStep(c, states, steps, i);
    }
  }

  // ---------------------------------------------------------------- lost for good

  /**
   Once the end of a run is missing it never comes: in every later state no agent-run-finished for the
   run is logged or under way, and neither its reply, nor its request, nor its transcript is ever owed.
   */
  lemma LostForGood(c: Config, states: seq<KState>, steps: seq<KStep>, i: nat, j: nat, r: int)
    requires KRun(c, states, steps) && i <= j < |states| && Missing(states[i], r) >= 1
    ensures Ends(Folded(states[j]), r) == 0 && Tok(states[j], EndToken(r)) == 0
    ensures forall kind :: !Tasks.Owes(Fold(System(c), Folded(states[j])).tasks.pending, r, kind)
  {
    MissingGrows(c, states, steps, i, j, r);
    F.RunFinishes(c, states, steps, j);
    OwedMeansEnded(c, states, steps, j);
  }

  /** A settled state has logged an end for every logged finish exactly if no crash took one. */
  lemma SettledMeansEnded(c: Config, states: seq<KState>, steps: seq<KStep>, i: nat, r: int)
    requires KRun(c, states, steps) && i < |states| && states[i].pending == 0
    ensures Ends(states[i].log, r) == F.Finishes(states[i].log, r) <==>
      forall k :: 0 <= k < i ==> !TakenAt(states, steps, k, r)
  {
    MissingIffTaken(c, states, steps, i, r);
    KRunKeeps(c, states, steps, i);
    SettledHoldsNoEnd(c, states[i], r);
  }

  lemma SettledHoldsNoEnd(c: Config, s: KState, r: int)
    requires KInv(c, s) && s.pending == 0
    ensures Tok(s, EndToken(r)) == 0 && Folded(s) == s.log
  {
    PendingZeroIffQuiet(System(c), s);
    forall k | 0 <= k < |s.slots| ensures SlotTok(s.slots[k], EndToken(r)) == 0 {
      if s.slots[k].run.Some? { SlotHoldsNoEnd(c, s, k, r); }
    }
    SumZero(s.slots, (x: Slot<SourceId, Msg, Loc>) => SlotTok(x, EndToken(r)));
  }
}
