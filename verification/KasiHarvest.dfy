/**
 A harvest job is served by the right effect: the run-harvest of a run and kind is answered by exactly one
 command, and whatever moves that effect then makes, the job it discharges is that one and no other.
 */
module KasiHarvest {
  import opened Prelude
  import opened Runtime
  import opened RuntimeProofs
  import opened Performed
  import opened Messages
  import opened Kasi
  import opened KasiFacts
  import opened KasiInv
  import opened KasiReplies
  import opened KasiCauses
  import opened KasiDrives
  import opened Chains
  import Tasks

  // ---------------------------------------------------------------- the answer

  /** Where an effect begins. */
  predicate IsStart(l: Loc)
  {
    l.Capturing? || l.CapturingMemory? || l.StoringSkill? || l.Assembling? || l.Minting? || l.Sending?
  }

  /** The one command that serves this message, given what it found. */
  ghost predicate Serves(m: Model, n: nat, msg: Msg, outs: seq<Out<Msg, Cmd>>)
  {
    |outs| == 1 && outs[0].Do? && IsStart(Begin(outs[0].cmd)) && Started(m, n, msg, Begin(outs[0].cmd))
  }

  /** Every kind of job is answered by one command, which starts that kind's effect for that run. */
  lemma HarvestIsServed(m: Model, n: nat, t: int, r: int, kind: HarvestKind)
    requires kind == Reply ==> HasTask(m, t)
    ensures Serves(m, n, RunHarvest(t, r, kind), ApplyOne(m, RunHarvest(t, r, kind), n).1)
  {
    HandlersAccount(m, n, RunHarvest(t, r, kind));
    assert AllAccount(m, n, RunHarvest(t, r, kind), ApplyOne(m, RunHarvest(t, r, kind), n).1);
    var outs := ApplyOne(m, RunHarvest(t, r, kind), n).1;
    if kind == Reply { TaskFound(m, t); }
    assert |outs| == 1 && Accounts(m, n, RunHarvest(t, r, kind), outs[0]);
  }

  lemma OutboxIsServed(m: Model, n: nat, x: int, mid: string)
    ensures Serves(m, n, SendOutbox(x, mid), ApplyOne(m, SendOutbox(x, mid), n).1)
  {
  }

  // ---------------------------------------------------------------- what its effect discharges

  /** Messages that take a job off the list. */
  predicate TakesOff(msg: Msg)
  {
    msg.MarkHarvested? || msg.RegisterUIRequest?
  }

  /** The message that takes the job (r, kind) of task `t` off the list. */
  predicate TakesOffJob(msg: Msg, t: int, r: int, kind: HarvestKind)
  {
    if kind == Request then msg.RegisterUIRequest? && msg.task == t && msg.run == r else msg == MarkHarvested(r, kind)
  }

  predicate LastTakesOff(ms: seq<Msg>, t: int, r: int, kind: HarvestKind)
  {
    && ms != [] && TakesOffJob(ms[|ms| - 1], t, r, kind)
    && forall i :: 0 <= i < |ms| - 1 ==> !TakesOff(ms[i])
  }

  /** The effect of job (r, kind) on task `t`, with the discharge still ahead of it. */
  predicate OnTheWay(l: Loc, t: int, r: int, kind: HarvestKind)
  {
    match l
    case Capturing(t', r') => t' == t && r' == r && kind == Transcript
    case Captured(t', r', _) => t' == t && r' == r && kind == Transcript
    case CapturingMemory(t', r') => t' == t && r' == r && kind == Memory
    case StoringSkill(t', r') => t' == t && r' == r && kind == Skill
    case Minting(t', r') => t' == t && r' == r && kind == Request
    case Assembling(t', r', _, _, _, _) => t' == t && r' == r && kind == Reply
    case Queueing(t', r', _, _) => t' == t && r' == r && kind == Reply
    case Discharging(t', r', _, _) => t' == t && r' == r && kind == Reply
    case Emitting(ms) => LastTakesOff(ms, t, r, kind)
    case _ => false
  }

  /** The effect has nothing left to do. */
  predicate Finished(l: Loc)
  {
    l == Inert || l == Emitting([])
  }

  /** One move: on the way still, having discharged nothing, or finished with the discharge of this job. */
  lemma OneMove(c: Config, w: World, l: Loc, move: Move, t: int, r: int, kind: HarvestKind)
    requires OnTheWay(l, t, r, kind) && Edge(c, w, l, false, move.world, move.loc, move.emit)
    ensures
      || (OnTheWay(move.loc, t, r, kind) && (move.emit.Some? ==> !TakesOff(move.emit.value)))
      || (Finished(move.loc) && move.emit.Some? && TakesOffJob(move.emit.value, t, r, kind))
  {
    if l.Emitting? {
      var ms := l.msgs;
      assert forall i :: 0 <= i < |ms| - 1 ==> ms[1..][i] == ms[i + 1];
      if |ms| > 1 { assert ms[1..][|ms| - 2] == ms[|ms| - 1] && !TakesOff(ms[0]); }
    } else if l.CapturingMemory? {
      var ms: seq<Msg> :| move.loc == Emitting(ms + [MarkHarvested(l.run, Memory)]) && OnlyDirectives(ms);
      forall i | 0 <= i < |ms| ensures !TakesOff((ms + [MarkHarvested(l.run, Memory)])[i]) {
        assert MemoryDirective(ms[i]);
      }
    }
  }

  lemma NoMoreMoves(c: Config, w: World, l: Loc, moves: seq<Move>)
    requires Finished(l) && Moves(c, w, l, moves)
    ensures moves == []
  {
  }

  function LastLoc(l: Loc, moves: seq<Move>): Loc
  {
    if moves == [] then l else moves[|moves| - 1].loc
  }

  /**
   Any moves of the effect of job (r, kind), however far it gets: it discharges nothing but that job; and
   once it has nothing left to do, the last thing it emitted is that job's discharge.
   */
  lemma {:induction false} EffectDischargesItsJob(c: Config, w: World, l: Loc, moves: seq<Move>, t: int, r: int,
      kind: HarvestKind)
    requires OnTheWay(l, t, r, kind) && Moves(c, w, l, moves)
    ensures forall i :: 0 <= i < |Emitted(moves)| && TakesOff(Emitted(moves)[i]) ==>
      TakesOffJob(Emitted(moves)[i], t, r, kind) && i == |Emitted(moves)| - 1
    ensures Finished(LastLoc(l, moves)) ==>
      Emitted(moves) != [] && TakesOffJob(Emitted(moves)[|Emitted(moves)| - 1], t, r, kind)
    decreases |moves|
  {
    if moves != [] {
      OneMove(c, w, l, moves[0], t, r, kind);
      var rest := moves[1..];
      assert Emitted(moves) == Heard(moves[0]) + Emitted(rest);
      if OnTheWay(moves[0].loc, t, r, kind) {
        EffectDischargesItsJob(c, moves[0].world, moves[0].loc, rest, t, r, kind);
        assert LastLoc(moves[0].loc, rest) == LastLoc(l, moves);
      } else {
        NoMoreMoves(c, moves[0].world, moves[0].loc, rest);
      }
    }
  }

  /** From a logged run-harvest to the discharge: what its answer begins is on the way to that job. */
  lemma ServedIsOnTheWay(m: Model, n: nat, t: int, r: int, kind: HarvestKind, l: Loc)
    requires IsStart(l) && Started(m, n, RunHarvest(t, r, kind), l)
    ensures OnTheWay(l, t, r, kind)
  {
  }

  // ---------------------------------------------------------------- every boot starts it

  /** The effect that serves the message at index `n` was started between states `b` and `i`. */
  ghost predicate ServedSince(c: Config, states: seq<KState>, b: nat, i: nat, n: nat)
    requires i < |states| && n < |states[i].log|
  {
    exists l: Loc :: IsStart(l) && StartedAt(states, b, i, n + 1, l) &&
      Started(Fold(System(c), states[i].log[..n]), n + 1, states[i].log[n].msg, l)
  }

  lemma DriveIsServed(c: Config, states: seq<KState>, steps: seq<KStep>, b: nat, i: nat, n: nat, id: SourceId)
    requires KRun(c, states, steps) && i < |states| && Boot(steps, b, i) && states[i].pending == 0
    requires |states[b].log| <= n < |states[i].log| && Drives(states[i].log[n].msg, id)
    requires states[i].log[n].msg.RunHarvest? && states[i].log[n].msg.kind == Reply ==>
      HasTask(Fold(System(c), states[i].log[..n]), states[i].log[n].msg.task)
    ensures ServedSince(c, states, b, i, n)
  {
    var m, msg := Fold(System(c), states[i].log[..n]), states[i].log[n].msg;
    ApplyIs(c, m, msg, n + 1);
    if msg.RunHarvest? {
      HarvestIsServed(m, n + 1, msg.task, msg.run, msg.kind);
    } else {
      OutboxIsServed(m, n + 1, msg.outboxID, msg.messageID);
    }
    assert AnswerTo(System(c), states[i].log, n) == ApplyOne(m, msg, n + 1).1;
    SettledMeansPerformed(System(c), states, steps, b, i, n, 0);
  }

  // ---------------------------------------------------------------- a driven reply finds its task

  /** When a reply's run-harvest was applied, its task existed. */
  ghost predicate FoundTask(c: Config, log: seq<Envelope<Msg>>, n: nat)
    requires n < |log|
  {
    log[n].msg.RunHarvest? && log[n].msg.kind == Reply ==> HasTask(Fold(System(c), log[..n]), log[n].msg.task)
  }

  ghost predicate FoundTasks(c: Config, log: seq<Envelope<Msg>>)
  {
    forall n :: 0 <= n < |log| ==> FoundTask(c, log, n)
  }

  lemma FoundTasksAfter(c: Config, log: seq<Envelope<Msg>>, e: Envelope<Msg>)
    requires FoundTasks(c, log)
    requires e.msg.RunHarvest? ==> HasTask(Fold(System(c), log), e.msg.task)
    ensures FoundTasks(c, log + [e])
  {
    var more := log + [e];
    forall n | 0 <= n < |more| ensures FoundTask(c, more, n) {
      if n < |log| {
        assert FoundTask(c, log, n) && more[..n] == log[..n] && more[n] == log[n];
      } else {
        assert more[..n] == log;
      }
    }
  }

  lemma FoundOverStep(c: Config, states: seq<KState>, steps: seq<KStep>, i: nat)
    requires KRun(c, states, steps) && 0 < i < |states| && FoundTasks(c, Folded(states[i - 1]))
    ensures FoundTasks(c, Folded(states[i]))
  {
    RunStep(c, states, steps, i);
    FoundStep(c, states[i - 1], steps[i - 1]);
  }

  lemma FoundStep(c: Config, s: KState, t: KStep)
    requires KInv(c, s) && Enabled(System(c), s, t) && FoundTasks(c, Folded(s))
    ensures FoundTasks(c, Folded(Next(System(c), s, t)))
  {
    StepDenotes(c, s, t);
    if Completes(s, t) {
      EnvelopeInHand(c, s);
      FoundTasksAfter(c, Folded(s), s.phase.env);
    }
  }

  lemma NothingFoundAtFirst(c: Config, w: World)
    ensures FoundTasks(c, Folded(Initial(System(c), w)))
  {
  }

  lemma {:induction false} RunFoundTasks(c: Config, states: seq<KState>, steps: seq<KStep>, i: nat)
    requires KRun(c, states, steps) && i < |states|
    ensures FoundTasks(c, Folded(states[i]))
  {
    if i == 0 {
      NothingFoundAtFirst(c, states[0].world);
    } else {
      RunFoundTasks(c, states, steps, i - 1);
      FoundOverStep(c, states, steps, i);
    }
  }

  // ---------------------------------------------------------------- the theorem

  /** In this boot a message drove `id`, and the effect that serves it was started. */
  ghost predicate DrivenAndServed(c: Config, states: seq<KState>, b: nat, i: nat, id: SourceId)
    requires b < |states| && i < |states|
  {
    exists n: nat :: |states[b].log| <= n < |states[i].log| && Drives(states[i].log[n].msg, id) &&
      ServedSince(c, states, b, i, n)
  }

  lemma SinceIsServed(c: Config, states: seq<KState>, steps: seq<KStep>, b: nat, i: nat, id: SourceId)
    requires KRun(c, states, steps) && i < |states| && Boot(steps, b, i) && states[i].pending == 0
    requires DrivenSince(states[i].log, |states[b].log|, id)
    ensures DrivenAndServed(c, states, b, i, id)
  {
    var n: nat :| |states[b].log| <= n < |states[i].log| && Drives(states[i].log[n].msg, id);
    RunFoundTasks(c, states, steps, i);
    SettledFolded(c, states, steps, i);
    assert FoundTask(c, states[i].log, n);
    DriveIsServed(c, states, steps, b, i, n, id);
  }

  lemma SettledFolded(c: Config, states: seq<KState>, steps: seq<KStep>, i: nat)
    requires KRun(c, states, steps) && i < |states| && states[i].pending == 0
    ensures Folded(states[i]) == states[i].log
  {
    KRunKeeps(c, states, steps, i);
    PendingZeroIffQuiet(System(c), states[i]);
  }

  lemma PendingIsDriven(c: Config, states: seq<KState>, steps: seq<KStep>, b: nat, i: nat, e: nat)
    requires KRun(c, states, steps) && i < |states| && Boot(steps, b, i)
    requires !states[i].booting && states[i].pending == 0
    requires var m := Fold(System(c), states[i].log); e < |m.outbox| && !m.outbox[e].sent
    ensures var m := Fold(System(c), states[i].log);
      DrivenSince(states[i].log, |states[b].log|, SendKey(m.outbox[e].outboxID))
  {
    SettledMeansDriven(c, states, steps, b, i);
    var entry := Fold(System(c), states[i].log).outbox[e];
    assert !entry.sent;
  }

  /**
   Whenever a boot has settled, the effect of every job still owed and of every mail not sent was started in
   this boot: for a reply from the task as it was then, its identity, last message, references and request.
   */
  lemma SettledMeansServed(c: Config, states: seq<KState>, steps: seq<KStep>, b: nat, i: nat)
    requires KRun(c, states, steps) && i < |states| && Boot(steps, b, i)
    requires !states[i].booting && states[i].pending == 0
    ensures var m := Fold(System(c), states[i].log);
      && (forall r, kind :: Tasks.Owes(m.tasks.pending, r, kind) ==>
           DrivenAndServed(c, states, b, i, HarvestKey(kind, r)))
      && (forall e :: 0 <= e < |m.outbox| && !m.outbox[e].sent ==>
           DrivenAndServed(c, states, b, i, SendKey(m.outbox[e].outboxID)))
  {
    SettledMeansDriven(c, states, steps, b, i);
    var m := Fold(System(c), states[i].log);
    forall r, kind | Tasks.Owes(m.tasks.pending, r, kind)
      ensures DrivenAndServed(c, states, b, i, HarvestKey(kind, r))
    {
      SinceIsServed(c, states, steps, b, i, HarvestKey(kind, r));
    }
    forall e | 0 <= e < |m.outbox| && !m.outbox[e].sent
      ensures DrivenAndServed(c, states, b, i, SendKey(m.outbox[e].outboxID))
    {
      PendingIsDriven(c, states, steps, b, i, e);
      SinceIsServed(c, states, steps, b, i, SendKey(m.outbox[e].outboxID));
    }
  }
}
