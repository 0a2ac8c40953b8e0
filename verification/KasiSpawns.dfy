/**
 The loop breaker: every spawn issued for a task is accounted for by its turns or by an answered
 request, the turns never exceed the guard, and no more runs exist than were issued.
 */
module KasiSpawns {
  import opened Prelude
  import opened Runtime
  import opened RuntimeProofs
  import opened Ledger
  import opened Messages
  import opened Kasi
  import opened KasiFacts
  import opened KasiApply
  import opened KasiInv
  import opened KasiReplies
  import Tasks
  import Agents

  // ---------------------------------------------------------------- accounting over a log

  function SpawnMsg(msg: Msg, t: int): nat
  {
    if msg.SpawnAgentRun? && msg.task == t then 1 else 0
  }

  function SpawnOut(o: Out<Msg, Cmd>, t: int): nat
  {
    if o.Send? then SpawnMsg(o.msg, t) else 0
  }

  function SpawnOuts(outs: seq<Out<Msg, Cmd>>, t: int): nat
  {
    if outs == [] then 0 else SpawnOut(outs[0], t) + SpawnOuts(outs[1..], t)
  }

  lemma TwoOuts(outs: seq<Out<Msg, Cmd>>, t: int)
    requires |outs| == 2
    ensures SpawnOuts(outs, t) == SpawnOut(outs[0], t) + SpawnOut(outs[1], t)
  {
    assert SpawnOuts(outs[1..], t) == SpawnOut(outs[1], t) + SpawnOuts(outs[1..][1..], t);
  }

  /** Spawns the handlers issued for task `t` while the log was folded. */
  ghost function Issued(c: Config, log: seq<Envelope<Msg>>, t: int): nat
  {
    if log == [] then 0
    else
      var front := log[..|log| - 1];
      Issued(c, front, t) + SpawnOuts(ApplyOne(Fold(System(c), front), log[|log| - 1].msg, |log|).1, t)
  }

  predicate AnswersFor(m: Model, msg: Msg, t: int)
  {
    msg.AnswerUIRequest? && msg.task == t && Tasks.FindRequest(m.tasks, msg.run) < |m.tasks.requests|
  }

  /** Answers to recorded requests that named task `t`. */
  ghost function Answered(c: Config, log: seq<Envelope<Msg>>, t: int): nat
  {
    if log == [] then 0
    else
      var front := log[..|log| - 1];
      Answered(c, front, t) + if AnswersFor(Fold(System(c), front), log[|log| - 1].msg, t) then 1 else 0
  }

  function Turns(m: Model, t: int): int
  {
    var i := Tasks.Find(m.tasks, t);
    if i < |m.tasks.tasks| then m.tasks.tasks[i].turns else 0
  }

  // ---------------------------------------------------------------- one message

  ghost predicate SameIds(a: seq<Tasks.Task>, b: seq<Tasks.Task>)
  {
    |a| == |b| && forall i :: 0 <= i < |a| ==> b[i].id == a[i].id
  }

  lemma FindSameIds(a: Tasks.Model, b: Tasks.Model, t: int)
    requires SameIds(a.tasks, b.tasks)
    ensures Tasks.Find(a, t) == Tasks.Find(b, t)
  {
    var i, j := Tasks.Find(a, t), Tasks.Find(b, t);
    assert i < |a.tasks| ==> b.tasks[i].id == t;
    assert j < |b.tasks| ==> a.tasks[j].id == t;
  }

  /** Messages that touch no task's turns. */
  lemma OtherTurns(m: Model, msg: Msg, offset: int, t: int)
    requires !msg.CreateTask? && !msg.AppendToTask?
    ensures var m' := ApplyOne(m, msg, offset).0; Turns(m', t) == Turns(m, t) && SameIds(m.tasks.tasks, m'.tasks.tasks)
  {
    var m' := ApplyOne(m, msg, offset).0;
    assert SameIds(m.tasks.tasks, m'.tasks.tasks);
    FindSameIds(m.tasks, m'.tasks, t);
    assert forall i :: 0 <= i < |m.tasks.tasks| ==> m'.tasks.tasks[i].turns == m.tasks.tasks[i].turns;
  }

  lemma CreateTurns(m: Model, msg: Msg, n: nat, t: int)
    requires msg.CreateTask? && TaskIdsOK(m.tasks.tasks, n)
    ensures var (m', outs) := ApplyOne(m, msg, n + 1);
      && Turns(m', t) == Turns(m, t) + SpawnOuts(outs, t)
      && TaskIdsOK(m'.tasks.tasks, n + 1)
  {
    var (m', outs) := ApplyOne(m, msg, n + 1);
    var a, b := m.tasks.tasks, m'.tasks.tasks;
    TwoOuts(outs, t);
    assert b == a + [b[|a|]];
    var i, j := Tasks.Find(m.tasks, t), Tasks.Find(m'.tasks, t);
    if i < |a| { assert b[i].id == t; }
    if j < |a| { assert a[j].id == t; }
    if t == n + 1 { assert b[|a|].id == t; }
  }

  lemma AppendTurns(m: Model, msg: Msg, offset: int, t: int)
    requires msg.AppendToTask?
    ensures var (m', outs) := ApplyOne(m, msg, offset);
      && Turns(m', t) == Turns(m, t) + SpawnOuts(outs, t)
      && SameIds(m.tasks.tasks, m'.tasks.tasks)
  {
    var (m', outs) := ApplyOne(m, msg, offset);
    FindSameIds(m.tasks, m'.tasks, t);
    if outs != [] {
      TwoOuts(outs, t);
    }
    var i := Tasks.Find(m.tasks, t);
    if i < |m.tasks.tasks| && t != msg.task {
      assert m'.tasks.tasks[i] == m.tasks.tasks[i];
    }
  }

  lemma {:induction false} NoSpawns(outs: seq<Out<Msg, Cmd>>, t: int)
    requires forall i :: 0 <= i < |outs| ==> SpawnOut(outs[i], t) == 0
    ensures SpawnOuts(outs, t) == 0
  {
    if outs != [] {
      NoSpawns(outs[1..], t);
    }
  }

  lemma OtherSpawns(m: Model, msg: Msg, offset: int, t: int)
    requires !msg.CreateTask? && !msg.AppendToTask?
    ensures SpawnOuts(ApplyOne(m, msg, offset).1, t) == if AnswersFor(m, msg, t) then 1 else 0
  {
    var outs := ApplyOne(m, msg, offset).1;
    if msg.AnswerUIRequest? {
      if outs != [] {
        TwoOuts(outs, t);
      }
    } else {
      HandlersAnswer(m, msg, offset);
      NoSpawns(outs, t);
    }
  }

  lemma IdsStay(a: seq<Tasks.Task>, b: seq<Tasks.Task>, n: nat)
    requires TaskIdsOK(a, n) && SameIds(a, b)
    ensures TaskIdsOK(b, n + 1)
  {
  }

  /** One message: spawns issued are turns taken plus requests answered; ids stay fresh. */
  lemma OneMessage(m: Model, msg: Msg, n: nat, t: int)
    requires TaskIdsOK(m.tasks.tasks, n)
    ensures var (m', outs) := ApplyOne(m, msg, n + 1);
      && TaskIdsOK(m'.tasks.tasks, n + 1)
      && SpawnOuts(outs, t) == Turns(m', t) - Turns(m, t) + if AnswersFor(m, msg, t) then 1 else 0
  {
    var m' := ApplyOne(m, msg, n + 1).0;
    if msg.CreateTask? {
      CreateTurns(m, msg, n, t);
    } else if msg.AppendToTask? {
      AppendTurns(m, msg, n + 1, t);
      IdsStay(m.tasks.tasks, m'.tasks.tasks, n);
    } else {
      OtherTurns(m, msg, n + 1, t);
      OtherSpawns(m, msg, n + 1, t);
      IdsStay(m.tasks.tasks, m'.tasks.tasks, n);
    }
  }

  /** For every log: the spawns issued for a task equal its turns plus its answered requests. */
  lemma {:induction false} SpawnConservation(c: Config, log: seq<Envelope<Msg>>, t: int)
    ensures Issued(c, log, t) == Turns(Fold(System(c), log), t) + Answered(c, log, t)
    ensures TaskIdsOK(Fold(System(c), log).tasks.tasks, |log|)
  {
    if log != [] {
      var front := log[..|log| - 1];
      SpawnConservation(c, front, t);
      FoldLast(c, log, log[..|log| - 1], log[|log| - 1]);
      OneMessage(Fold(System(c), front), log[|log| - 1].msg, |front|, t);
    }
  }

  // ---------------------------------------------------------------- the guard

  ghost predicate Guarded(m: Model, g: int)
  {
    m.tasks.loopGuard == g && (g > 0 ==> forall i :: 0 <= i < |m.tasks.tasks| ==> m.tasks.tasks[i].turns <= g)
  }

  lemma GuardStep(m: Model, msg: Msg, offset: int, g: int)
    requires Guarded(m, g)
    ensures Guarded(ApplyOne(m, msg, offset).0, g)
  {
  }

  /** With a constant guard G > 0 no task ever takes more than G turns, whatever its status does. */
  lemma {:induction false} LoopBound(c: Config, log: seq<Envelope<Msg>>, t: int)
    requires c.loopGuard > 0
    ensures Guarded(Fold(System(c), log), c.loopGuard)
    ensures Turns(Fold(System(c), log), t) <= c.loopGuard
  {
    if log != [] {
      LoopBound(c, log[..|log| - 1], t);
      FoldLast(c, log, log[..|log| - 1], log[|log| - 1]);
      GuardStep(Fold(System(c), log[..|log| - 1]), log[|log| - 1].msg, |log|, c.loopGuard);
    }
  }

  // ---------------------------------------------------------------- what a pause keeps

  predicate PausedTask(m: Model, t: int)
  {
    var i := Tasks.Find(m.tasks, t);
    i < |m.tasks.tasks| && m.tasks.tasks[i].status == Tasks.Paused
  }

  /** The messages that give a paused task another status: it is finished, ends a run, asks, or is answered. */
  predicate Unpauses(m: Model, msg: Msg, t: int)
  {
    || ((msg.FinishTask? || msg.AgentRunFinished? || msg.RegisterUIRequest?) && msg.task == t)
    || AnswersFor(m, msg, t)
  }

  lemma CreatedBeside(m: Model, msg: Msg, offset: int, t: int)
    requires msg.CreateTask? && PausedTask(m, t)
    ensures PausedTask(ApplyOne(m, msg, offset).0, t)
  {
    var m' := ApplyOne(m, msg, offset).0;
    var i, j := Tasks.Find(m.tasks, t), Tasks.Find(m'.tasks, t);
    assert m'.tasks.tasks[i] == m.tasks.tasks[i];
    assert j < |m.tasks.tasks| ==> m.tasks.tasks[j].id == t;
  }

  /** A paused task stays paused through a message exactly if the message is none of those four. */
  lemma PausedStaysIff(m: Model, msg: Msg, offset: int, t: int)
    requires PausedTask(m, t)
    ensures PausedTask(ApplyOne(m, msg, offset).0, t) <==> !Unpauses(m, msg, t)
  {
    if msg.CreateTask? {
      CreatedBeside(m, msg, offset, t);
    } else {
      OldTaskPaused(m, msg, offset, t);
    }
  }

  lemma SameTasksPaused(m: Model, m': Model, t: int)
    requires SameIds(m.tasks.tasks, m'.tasks.tasks) && PausedTask(m, t)
    ensures PausedTask(m', t) <==> m'.tasks.tasks[Tasks.Find(m.tasks, t)].status == Tasks.Paused
  {
    FindSameIds(m.tasks, m'.tasks, t);
  }

  /** The five messages that touch a task that exists. */
  predicate TouchesTask(msg: Msg)
  {
    msg.AppendToTask? || msg.FinishTask? || msg.AgentRunFinished? || msg.RegisterUIRequest? || msg.AnswerUIRequest?
  }

  lemma TouchedTaskPaused(m: Model, msg: Msg, offset: int, t: int)
    requires PausedTask(m, t) && TouchesTask(msg)
    ensures PausedTask(ApplyOne(m, msg, offset).0, t) <==> !Unpauses(m, msg, t)
  {
    if msg.AppendToTask? {
      AppendedPaused(m, msg, offset, t);
    } else {
      SameTasksPaused(m, ApplyOne(m, msg, offset).0, t);
    }
  }

  lemma AppendedPaused(m: Model, msg: Msg, offset: int, t: int)
    requires PausedTask(m, t) && msg.AppendToTask?
    ensures PausedTask(ApplyOne(m, msg, offset).0, t)
  {
    SameTasksPaused(m, ApplyOne(m, msg, offset).0, t);
  }

  lemma UntouchedTasks(m: Model, msg: Msg, offset: int)
    requires !TouchesTask(msg) && !msg.CreateTask?
    ensures ApplyOne(m, msg, offset).0.tasks.tasks == m.tasks.tasks
  {
  }

  lemma OldTaskPaused(m: Model, msg: Msg, offset: int, t: int)
    requires PausedTask(m, t) && !msg.CreateTask?
    ensures PausedTask(ApplyOne(m, msg, offset).0, t) <==> !Unpauses(m, msg, t)
  {
    if TouchesTask(msg) {
      TouchedTaskPaused(m, msg, offset, t);
    } else {
      UntouchedTasks(m, msg, offset);
    }
  }

  /** Only tasks at the guard are ever paused. */
  ghost predicate PausesAtGuard(m: Model, g: int)
  {
    m.tasks.loopGuard == g && forall i :: 0 <= i < |m.tasks.tasks| && m.tasks.tasks[i].status == Tasks.Paused ==>
      0 < g <= m.tasks.tasks[i].turns
  }

  lemma PauseStep(m: Model, msg: Msg, offset: int, g: int)
    requires PausesAtGuard(m, g)
    ensures PausesAtGuard(ApplyOne(m, msg, offset).0, g)
  {
  }

  lemma {:induction false} PausedAtGuard(c: Config, log: seq<Envelope<Msg>>, t: int)
    ensures PausesAtGuard(Fold(System(c), log), c.loopGuard)
    ensures PausedTask(Fold(System(c), log), t) ==> 0 < c.loopGuard == Turns(Fold(System(c), log), t)
  {
    if log != [] {
      PausedAtGuard(c, log[..|log| - 1], t);
      FoldLast(c, log, log[..|log| - 1], log[|log| - 1]);
      PauseStep(Fold(System(c), log[..|log| - 1]), log[|log| - 1].msg, |log|, c.loopGuard);
    }
    if c.loopGuard > 0 { LoopBound(c, log, t); }
  }

  lemma TurnsGrow(m: Model, msg: Msg, n: nat, t: int)
    requires TaskIdsOK(m.tasks.tasks, n)
    ensures Turns(m, t) <= Turns(ApplyOne(m, msg, n + 1).0, t)
  {
    if msg.CreateTask? {
      CreateTurns(m, msg, n, t);
    } else if msg.AppendToTask? {
      AppendTurns(m, msg, n + 1, t);
    } else {
      OtherTurns(m, msg, n + 1, t);
    }
  }

  lemma TurnsGrowLast(c: Config, front: seq<Envelope<Msg>>, e: Envelope<Msg>, t: int)
    ensures Turns(Fold(System(c), front), t) <= Turns(Fold(System(c), front + [e]), t)
  {
    SpawnConservation(c, front, t);
    FoldOneMore(c, front, e);
    TurnsGrow(Fold(System(c), front), e.msg, |front|, t);
  }

  lemma {:induction false} TurnsGrowOver(c: Config, log: seq<Envelope<Msg>>, n: nat, t: int)
    requires n <= |log|
    ensures Turns(Fold(System(c), log[..n]), t) <= Turns(Fold(System(c), log), t)
    decreases |log|
  {
    if n == |log| {
      assert log[..n] == log;
    } else {
      var front := log[..|log| - 1];
      TurnsGrowOver(c, front, n, t);
      assert front[..n] == log[..n] && front + [log[|log| - 1]] == log;
      TurnsGrowLast(c, front, log[|log| - 1], t);
    }
  }

  /** From when a task has taken as many turns as the guard allows, the spawns issued for it are the answers to it. */
  lemma SpawnsSinceAreAnswers(c: Config, log: seq<Envelope<Msg>>, n: nat, t: int)
    requires c.loopGuard > 0 && n <= |log| && Turns(Fold(System(c), log[..n]), t) == c.loopGuard
    ensures Issued(c, log, t) - Issued(c, log[..n], t) == Answered(c, log, t) - Answered(c, log[..n], t)
  {
    SpawnConservation(c, log, t);
    SpawnConservation(c, log[..n], t);
    LoopBound(c, log, t);
    TurnsGrowOver(c, log, n, t);
  }

  /** Message `k` of the log answers a recorded request, naming task `t`. */
  ghost predicate AnswersAt(c: Config, log: seq<Envelope<Msg>>, k: nat, t: int)
    requires k < |log|
  {
    AnswersFor(Fold(System(c), log[..k]), log[k].msg, t)
  }

  lemma AnsweredLast(c: Config, log: seq<Envelope<Msg>>, t: int)
    requires log != []
    ensures Answered(c, log, t) ==
      Answered(c, log[..|log| - 1], t) + if AnswersAt(c, log, |log| - 1, t) then 1 else 0
  {
  }

  lemma AnswersEarlier(c: Config, log: seq<Envelope<Msg>>, k: nat, t: int)
    requires k < |log| - 1
    ensures AnswersAt(c, log[..|log| - 1], k, t) <==> AnswersAt(c, log, k, t)
  {
    assert log[..|log| - 1][..k] == log[..k];
  }

  lemma {:induction false} AnsweredGrows(c: Config, log: seq<Envelope<Msg>>, n: nat, t: int)
    requires n <= |log|
    ensures Answered(c, log[..n], t) <= Answered(c, log, t)
  {
    if n < |log| {
      AnsweredLast(c, log, t);
      AnsweredGrows(c, log[..|log| - 1], n, t);
      assert log[..|log| - 1][..n] == log[..n];
    } else {
      assert log[..n] == log;
    }
  }

  lemma {:induction false} AnswerCounts(c: Config, log: seq<Envelope<Msg>>, n: nat, k: nat, t: int)
    requires n <= k < |log| && AnswersAt(c, log, k, t)
    ensures Answered(c, log[..n], t) < Answered(c, log, t)
  {
    var front := log[..|log| - 1];
    AnsweredLast(c, log, t);
    assert front[..n] == log[..n];
    if k < |log| - 1 {
      AnswersEarlier(c, log, k, t);
      AnswerCounts(c, front, n, k, t);
    } else {
      AnsweredGrows(c, front, n, t);
    }
  }

  lemma {:induction false} NoAnswerCounts(c: Config, log: seq<Envelope<Msg>>, n: nat, t: int)
    requires n <= |log| && forall k :: n <= k < |log| ==> !AnswersAt(c, log, k, t)
    ensures Answered(c, log[..n], t) == Answered(c, log, t)
  {
    if n < |log| {
      var front := log[..|log| - 1];
      AnsweredLast(c, log, t);
      assert front[..n] == log[..n];
      forall k | n <= k < |front| ensures !AnswersAt(c, front, k, t) {
        AnswersEarlier(c, log, k, t);
      }
      NoAnswerCounts(c, front, n, t);
    } else {
      assert log[..n] == log;
    }
  }

  /**
   When a paused task never spawns again: over any continuation of a log that has paused it, no run is
   spawned for it exactly if no answer to a recorded request names it, whatever becomes of its status.
   */
  lemma PausedNeverSpawnsIff(c: Config, log: seq<Envelope<Msg>>, n: nat, t: int)
    requires n <= |log| && PausedTask(Fold(System(c), log[..n]), t)
    ensures Issued(c, log, t) == Issued(c, log[..n], t) <==> forall k :: n <= k < |log| ==> !AnswersAt(c, log, k, t)
  {
    PausedAtGuard(c, log[..n], t);
    SpawnsSinceAreAnswers(c, log, n, t);
    if k :| n <= k < |log| && AnswersAt(c, log, k, t) {
      AnswerCounts(c, log, n, k, t);
    } else {
      NoAnswerCounts(c, log, n, t);
    }
  }

  // ---------------------------------------------------------------- a paused task that spawns

  const ASKED := RunResult(0, false, ["request.json"])

  /** A task whose run asks something, a mail that pauses the task, and the answer. */
  const STORY: seq<Msg> := [CreateTask("route", "mail"), SpawnAgentRun(1, false), FinishAgentRun(1, 2, ASKED),
    AgentRunFinished(1, 2, ASKED), RegisterUIRequest(1, 2, "link"), AppendToTask(1, "again"), AnswerUIRequest(1, 2)]

  function StoryLog(): (log: seq<Envelope<Msg>>)
    ensures |log| == |STORY| && forall k :: 0 <= k < |STORY| ==> log[k].msg == STORY[k]
  {
    seq(|STORY|, k requires 0 <= k < |STORY| => Envelope(STORY[k], 0))
  }

  function StatusAfter(k: nat): Tasks.Status
  {
    if k <= 3 then Tasks.AwaitingAgent else if k <= 5 then Tasks.AwaitingUser else Tasks.Paused
  }

  /** After `k` messages: task 1 and nothing else, and once registered, run 2's request. */
  predicate Tells(m: Model, k: nat)
  {
    && |m.tasks.tasks| == 1 && m.tasks.loopGuard == 1
    && m.tasks.tasks[0].id == 1 && m.tasks.tasks[0].status == StatusAfter(k) && m.tasks.tasks[0].turns == 1
    && (if k >= 5 then |m.tasks.requests| == 1 && m.tasks.requests[0].run == 2 else m.tasks.requests == [])
  }

  lemma OneTaskFound(m: Model, k: nat)
    requires Tells(m, k)
    ensures Tasks.Find(m.tasks, 1) == 0 && (k >= 5 ==> Tasks.FindRequest(m.tasks, 2) == 0)
  {
  }

  lemma TellsNext(m: Model, k: nat)
    requires 1 <= k < 6 && Tells(m, k)
    ensures Tells(ApplyOne(m, STORY[k], k + 1).0, k + 1)
  {
    OneTaskFound(m, k);
    if k < 3 {
      assert ApplyOne(m, STORY[k], k + 1).0.tasks == m.tasks;
    } else if k == 3 {
      assert ApplyOne(m, STORY[k], k + 1).0.tasks == Tasks.HandleAgentRunFinished(m.tasks, 1, 2, ASKED);
    } else if k == 4 {
      assert ApplyOne(m, STORY[k], k + 1).0.tasks == Tasks.HandleRegisterUIRequest(m.tasks, 1, 2, "link");
    } else {
      assert ApplyOne(m, STORY[k], k + 1).0.tasks == Tasks.HandleAppendToTask(m.tasks, 1, "again").0;
    }
  }

  lemma StoryStep(c: Config, k: nat)
    requires k < |STORY|
    ensures Fold(System(c), StoryLog()[..k + 1]) == ApplyOne(Fold(System(c), StoryLog()[..k]), STORY[k], k + 1).0
  {
    var log := StoryLog()[..k + 1];
    assert log[..k] == StoryLog()[..k] && log[k].msg == STORY[k];
    FoldLast(c, log, log[..|log| - 1], log[|log| - 1]);
  }

  lemma {:induction false} StoryTells(c: Config, k: nat)
    requires c.loopGuard == 1 && 1 <= k <= 6
    ensures Tells(Fold(System(c), StoryLog()[..k]), k)
  {
    StoryStep(c, k - 1);
    if k == 1 {
      assert Fold(System(c), StoryLog()[..0]) == Zero(c);
    } else {
      StoryTells(c, k - 1);
      TellsNext(Fold(System(c), StoryLog()[..k - 1]), k - 1);
    }
  }

  /** The mail pauses the task without a spawn, and the answer spawns a run for it all the same. */
  lemma PausedTaskSpawns(c: Config)
    requires c.loopGuard == 1
    ensures var log := StoryLog();
      && PausedTask(Fold(System(c), log[..6]), 1) && !PausedTask(Fold(System(c), log), 1)
      && Issued(c, log, 1) == Issued(c, log[..6], 1) + 1
  {
    var log := StoryLog();
    var m := Fold(System(c), log[..6]);
    StoryTells(c, 6);
    OneTaskFound(m, 6);
    StoryStep(c, 6);
    assert log[..7] == log && log[..|log| - 1] == log[..6] && AnswersFor(m, log[6].msg, 1);
    SpawnsSinceAreAnswers(c, log, 6, 1);
    PausedStaysIff(m, STORY[6], 7, 1);
  }

  // ---------------------------------------------------------------- the running system

  ghost function Token(t: int): Weight<Msg, Cmd, Loc>
  {
    Weight((m: Msg) => SpawnMsg(m, t), (c: Cmd) => 0, (l: Loc) => SpawnLoc(l, t))
  }

  function SpawnLoc(l: Loc, t: int): nat
  {
    if l.Emitting? then SpawnMsgs(l.msgs, t) else 0
  }

  function SpawnMsgs(ms: seq<Msg>, t: int): nat
  {
    if ms == [] then 0 else SpawnMsg(ms[0], t) + SpawnMsgs(ms[1..], t)
  }

  /** How many runs a model holds for task `t`. */
  function RunsFor(runs: seq<Agents.AgentRun>, t: int): nat
  {
    if runs == [] then 0 else RunsFor(runs[..|runs| - 1], t) + if runs[|runs| - 1].task == t then 1 else 0
  }

  lemma {:induction false} RunsForSame(a: seq<Agents.AgentRun>, b: seq<Agents.AgentRun>, t: int)
    requires |a| == |b| && forall i :: 0 <= i < |a| ==> b[i].task == a[i].task
    ensures RunsFor(b, t) == RunsFor(a, t)
  {
    if a != [] {
      RunsForSame(a[..|a| - 1], b[..|b| - 1], t);
    }
  }

  lemma RunsAfter(m: Model, msg: Msg, offset: int, t: int)
    ensures RunsFor(ApplyOne(m, msg, offset).0.agents.runs, t) == RunsFor(m.agents.runs, t) + SpawnMsg(msg, t)
  {
    var a, b := m.agents.runs, ApplyOne(m, msg, offset).0.agents.runs;
    if msg.SpawnAgentRun? {
      assert b[..|a|] == a;
    } else {
      RunsForSame(a, b, t);
    }
  }

  lemma {:induction false} SpawnOutsTok(outs: seq<Out<Msg, Cmd>>, t: int)
    ensures OutsTok(outs, Token(t)) == SpawnOuts(outs, t)
  {
    if outs != [] {
      SumTail(outs, (o: Out<Msg, Cmd>) => OutTok(o, Token(t)));
      SpawnOutsTok(outs[1..], t);
    }
  }

  lemma {:induction false} NothingSpawned(ms: seq<Msg>, t: int)
    requires forall i :: 0 <= i < |ms| ==> !ms[i].SpawnAgentRun?
    ensures SpawnMsgs(ms, t) == 0
  {
    if ms != [] {
      NothingSpawned(ms[1..], t);
    }
  }

  lemma EdgeSpawnsNothing(c: Config, w: World, l: Loc, cancelled: bool, w': World, l': Loc, emit: Option<Msg>, t: int)
    requires Edge(c, w, l, cancelled, w', l', emit)
    ensures SpawnLoc(l', t) + (if emit.Some? then SpawnMsg(emit.value, t) else 0) <= SpawnLoc(l, t)
  {
    if l.CapturingMemory? {
      var ms: seq<Msg> :| l' == Emitting(ms + [MarkHarvested(l.run, Memory)]) && forall i :: 0 <= i < |ms| ==>
        MemoryDirective(ms[i]);
      NothingSpawned(l'.msgs, t);
    } else if l'.Emitting? && !l.Emitting? {
      NothingSpawned(l'.msgs, t);
    }
  }

  lemma {:induction false} StartsSpawnNothing(m: Model, added: seq<SourceId>, t: int)
    ensures StartsTok(added, Sources(m), Token(t)) == 0
  {
    if added != [] {
      StartsSpawnNothing(m, added[..|added| - 1], t);
      if added[|added| - 1] in Sources(m) { StartsAtBody(m, added[|added| - 1]); }
    }
  }

  lemma PlumbingSpawns(c: Config, s: KState, t: KStep, task: int)
    requires Enabled(System(c), s, t) && (Plumbing(t) || t.Outside? || t.Restart?)
    ensures Change(System(c), s, t, Token(task)) <= 0
  {
    if t.Interpret? && s.phase.todo[0].Do? {
      assert SpawnLoc(Begin(s.phase.todo[0].cmd), task) == 0;
    }
  }

  lemma StepSpawns(c: Config, s: KState, t: KStep, task: int)
    requires Inv(System(c), s) && Enabled(System(c), s, t) && !t.Crash? && !t.Apply?
    ensures Tok(Next(System(c), s, t), Token(task)) <= Tok(s, Token(task))
  {
    LedgerIsExact(System(c), s, t, Token(task));
    if t.Act? {
      EdgeSpawnsNothing(c, s.world, s.slots[t.k].run.value, Cancelled(s, t.k), t.world, t.local, t.emit, task);
    } else if t.Diff? || t.BootDiff? {
      StartsSpawnNothing(s.model, t.added, task);
    } else {
      PlumbingSpawns(c, s, t, task);
    }
  }

  lemma ApplySpawns(c: Config, s: KState, task: int)
    requires Inv(System(c), s) && s.live && s.phase.Applying?
    ensures Tok(Next(System(c), s, Apply), Token(task)) == Tok(s, Token(task)) - SpawnMsg(s.phase.env.msg, task) +
      SpawnOuts(ApplyOne(s.model, s.phase.env.msg, |s.log|).1, task)
  {
    LedgerIsExact(System(c), s, Apply, Token(task));
    ApplyIs(c, s.model, s.phase.env.msg, |s.log|);
    SpawnOutsTok(ApplyOne(s.model, s.phase.env.msg, |s.log|).1, task);
  }

  /** Runs that exist and spawns still travelling never outnumber the spawns issued. */
  ghost predicate SpawnsBounded(c: Config, s: KState, t: int)
  {
    RunsFor(Denotes(c, s).agents.runs, t) + Tok(s, Token(t)) <= Issued(c, Folded(s), t)
  }

  lemma IssuedAppend(c: Config, log: seq<Envelope<Msg>>, e: Envelope<Msg>, t: int)
    ensures Issued(c, log + [e], t) == Issued(c, log, t) +
      SpawnOuts(ApplyOne(Fold(System(c), log), e.msg, |log| + 1).1, t)
  {
    assert (log + [e])[..|log|] == log;
  }

  lemma SpawnsStep(c: Config, s: KState, t: KStep, task: int)
    requires KInv(c, s) && SpawnsBounded(c, s, task) && Enabled(System(c), s, t)
    ensures SpawnsBounded(c, Next(System(c), s, t), task)
  {
    StepDenotes(c, s, t);
    if Completes(s, t) {
      EnvelopeInHand(c, s);
      SpawnsComplete(c, s, task);
      if t.Crash? { LedgerIsExact(System(c), s, t, Token(task)); }
    } else if t.Crash? {
      LedgerIsExact(System(c), s, t, Token(task));
    } else {
      StepSpawns(c, s, t, task);
    }
  }

  lemma SpawnsComplete(c: Config, s: KState, task: int)
    requires
      && Inv(System(c), s)
      && SpawnsBounded(c, s, task)
      && s.live
      && s.phase.Applying?
      && s.log == Folded(s) + [s.phase.env]
    ensures RunsFor(Fold(System(c), s.log).agents.runs, task) +
      Tok(Next(System(c), s, Apply), Token(task)) <= Issued(c, s.log, task)
  {
    DenotesApply(c, s);
    ApplySpawns(c, s, task);
    IssuedAppend(c, Folded(s), s.phase.env, task);
    RunsAfter(Denotes(c, s), s.phase.env.msg, |s.log|, task);
  }

  lemma {:induction false} RunSpawns(c: Config, states: seq<KState>, steps: seq<KStep>, i: nat, t: int)
    requires KRun(c, states, steps) && i < |states|
    ensures SpawnsBounded(c, states[i], t)
  {
    if i == 0 {
      SpawnsInitial(c, states[0].world, t);
    } else {
      RunSpawns(c, states, steps, i - 1, t);
      SpawnsOverStep(c, states, steps, i, t);
    }
  }

  lemma SpawnsInitial(c: Config, w: World, t: int)
    ensures SpawnsBounded(c, Initial(System(c), w), t)
  {
  }

  lemma SpawnsOverStep(c: Config, states: seq<KState>, steps: seq<KStep>, i: nat, t: int)
    requires KRun(c, states, steps) && 0 < i < |states| && SpawnsBounded(c, states[i - 1], t)
    ensures SpawnsBounded(c, states[i], t)
  {
    RunStep(c, states, steps, i);
    SpawnsStep(c, states[i - 1], steps[i - 1], t);
  }

  /** In every reachable state a task has at most G runs plus one per answered request naming it. */
  lemma RunsNeverExceedGuard(c: Config, states: seq<KState>, steps: seq<KStep>, i: nat, t: int)
    requires KRun(c, states, steps) && i < |states| && c.loopGuard > 0
    ensures RunsFor(Fold(System(c), Folded(states[i])).agents.runs, t) <= c.loopGuard +
      Answered(c, Folded(states[i]), t)
  {
    RunSpawns(c, states, steps, i, t);
    SpawnConservation(c, Folded(states[i]), t);
    LoopBound(c, Folded(states[i]), t);
  }
}
