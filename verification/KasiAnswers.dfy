/**
 What each message is answered with, and that in a boot that settles nothing of it is missing: accepted mail
 is laid in and spawns its run, a launch starts the run with the harness it is pinned to, a finish is
 followed by the end it caused.
 */
module KasiAnswers {
  import opened Runtime
  import opened RuntimeProofs
  import opened Performed
  import opened Lost
  import opened Messages
  import opened Kasi
  import opened KasiCauses
  import Tasks

  /** The task takes mail to the agent: neither paused nor at the guard. */
  predicate Accepts(m: Model, task: Tasks.Task)
  {
    task.status != Tasks.Paused && (m.tasks.loopGuard > 0 ==> task.turns < m.tasks.loopGuard)
  }

  /** This mail or answer hands task `t` to the agent. */
  ghost predicate HandsOver(m: Model, n: nat, msg: Msg, t: int)
  {
    match msg
    case CreateTask(_, _) => t == n
    case AppendToTask(t', _) =>
      t' == t && exists i :: TaskAt(m, t, i) && Accepts(m, m.tasks.tasks[i])
    case AnswerUIRequest(t', r) => t' == t && exists q :: RequestAt(m, r, q)
    case _ => false
  }

  /** It is laid in the workspace, and one run is spawned: a new session for a new task, a resume otherwise. */
  lemma MailIsAnswered(m: Model, n: nat, msg: Msg, t: int)
    requires HandsOver(m, n, msg, t)
    ensures ApplyOne(m, msg, n).1 == [Do(LayIn(t)), Send(SpawnAgentRun(t, !msg.CreateTask?))]
  {
    if msg.AppendToTask? { TaskFound(m, t); }
    if msg.AnswerUIRequest? { RequestFound(m, msg.run); }
  }

  /** A launch of a recorded run starts it once, as it was recorded. */
  lemma LaunchIsAnswered(m: Model, n: nat, t: int, r: int, i: nat)
    requires RunAt(m, r, i)
    ensures var run := m.agents.runs[i];
      ApplyOne(m, LaunchAgentRun(t, r), n).1 == [Do(StartAgentRun(t, r, run.resume, run.harness))]
  {
    RunFound(m, r);
  }

  /** A stop of a recorded run signals it once, through the harness it is pinned to. */
  lemma StopIsAnswered(m: Model, n: nat, r: int, i: nat)
    requires RunAt(m, r, i)
    ensures ApplyOne(m, StopAgentRun(r), n).1 == [Do(SignalAgentRun(r, m.agents.runs[i].harness))]
  {
    RunFound(m, r);
  }

  /** Finishing a known task archives it. */
  lemma FinishIsAnswered(m: Model, n: nat, t: int, i: nat)
    requires TaskAt(m, t, i)
    ensures ApplyOne(m, FinishTask(t), n).1 == [Do(ArchiveTask(t))]
  {
    TaskFound(m, t);
  }

  /** The message is about a task, a run or a request that is not there. */
  ghost predicate Misses(m: Model, msg: Msg)
  {
    match msg
    case AppendToTask(t, _) => forall i :: !TaskAt(m, t, i)
    case FinishTask(t) => forall i :: !TaskAt(m, t, i)
    case AgentRunFinished(t, _, _) => forall i :: !TaskAt(m, t, i)
    case RegisterUIRequest(t, _, _) => forall i :: !TaskAt(m, t, i)
    case RunHarvest(t, _, kind) => kind == Reply && forall i :: !TaskAt(m, t, i)
    case AnswerUIRequest(_, r) => forall i :: !RequestAt(m, r, i)
    case StopAgentRun(r) => forall i :: !RunAt(m, r, i)
    case LaunchAgentRun(_, r) => forall i :: !RunAt(m, r, i)
    case _ => false
  }

  /** Such a message changes nothing and is not answered. */
  lemma MissesAreIgnored(m: Model, n: nat, msg: Msg)
    requires Misses(m, msg)
    ensures ApplyOne(m, msg, n) == (m, [])
  {
    if msg.AnswerUIRequest? {
      RequestFound(m, msg.run);
    } else if msg.StopAgentRun? || msg.LaunchAgentRun? {
      RunFound(m, msg.run);
    } else {
      TaskFound(m, msg.task);
    }
  }

  // ---------------------------------------------------------------- in a boot that settles

  /** The message at index `n` was applied in this boot, and the boot has settled. */
  ghost predicate SettledWith(c: Config, states: seq<KState>, steps: seq<KStep>, b: nat, i: nat, n: nat)
  {
    && KRun(c, states, steps) && i < |states| && Boot(steps, b, i) && states[i].pending == 0
    && |states[b].log| <= n < |states[i].log|
  }

  lemma AnswerIs(c: Config, log: seq<Envelope<Msg>>, n: nat)
    requires n < |log|
    ensures AnswerTo(System(c), log, n) == ApplyOne(Fold(System(c), log[..n]), log[n].msg, n + 1).1
  {
    ApplyIs(c, Fold(System(c), log[..n]), log[n].msg, n + 1);
  }

  /** Accepted mail: laid in by a goroutine of its own, and the spawn it caused is logged. */
  lemma MailSpawns(c: Config, states: seq<KState>, steps: seq<KStep>, b: nat, i: nat, n: nat, t: int)
    requires SettledWith(c, states, steps, b, i, n)
    requires HandsOver(Fold(System(c), states[i].log[..n]), n + 1, states[i].log[n].msg, t)
    ensures StartedAt(states, b, i, n + 1, Doing(LayIn(t)))
    ensures Envelope(SpawnAgentRun(t, !states[i].log[n].msg.CreateTask?), n + 1) in states[i].log
  {
    AnswerIs(c, states[i].log, n);
    MailIsAnswered(Fold(System(c), states[i].log[..n]), n + 1, states[i].log[n].msg, t);
    SettledMeansPerformed(System(c), states, steps, b, i, n, 0);
    SettledMeansPerformed(System(c), states, steps, b, i, n, 1);
  }

  /** A launched run was started with the harness and the session mode it was recorded with. */
  lemma LaunchStarts(c: Config, states: seq<KState>, steps: seq<KStep>, b: nat, i: nat, n: nat, k: nat)
    requires SettledWith(c, states, steps, b, i, n) && states[i].log[n].msg.LaunchAgentRun?
    requires RunAt(Fold(System(c), states[i].log[..n]), states[i].log[n].msg.run, k)
    ensures var msg, run := states[i].log[n].msg, Fold(System(c), states[i].log[..n]).agents.runs[k];
      StartedAt(states, b, i, n + 1, Doing(StartAgentRun(msg.task, msg.run, run.resume, run.harness)))
  {
    AnswerIs(c, states[i].log, n);
    var msg := states[i].log[n].msg;
    LaunchIsAnswered(Fold(System(c), states[i].log[..n]), n + 1, msg.task, msg.run, k);
    SettledMeansPerformed(System(c), states, steps, b, i, n, 0);
  }

  /** A finished task's archiving was started. */
  lemma FinishArchives(c: Config, states: seq<KState>, steps: seq<KStep>, b: nat, i: nat, n: nat, k: nat)
    requires SettledWith(c, states, steps, b, i, n) && states[i].log[n].msg.FinishTask?
    requires TaskAt(Fold(System(c), states[i].log[..n]), states[i].log[n].msg.task, k)
    ensures StartedAt(states, b, i, n + 1, Archiving(states[i].log[n].msg.task))
  {
    AnswerIs(c, states[i].log, n);
    FinishIsAnswered(Fold(System(c), states[i].log[..n]), n + 1, states[i].log[n].msg.task, k);
    SettledMeansPerformed(System(c), states, steps, b, i, n, 0);
  }

  /** Message `j` is the end of the run that message `n` finishes, and says so. */
  predicate EndCausedBy(log: seq<Envelope<Msg>>, n: nat, j: nat)
    requires n < j < |log|
  {
    && log[n].msg.FinishAgentRun? && log[j].msg.AgentRunFinished? && log[j].cause == n + 1
    && log[j].msg.run == log[n].msg.run && log[j].msg.task == log[n].msg.task
  }

  /** A finish logged in this boot is followed by the end it caused, in the log. */
  lemma FinishIsFollowed(c: Config, states: seq<KState>, steps: seq<KStep>, b: nat, i: nat, n: nat)
    requires SettledWith(c, states, steps, b, i, n) && states[i].log[n].msg.FinishAgentRun?
    ensures exists j :: n < j < |states[i].log| && EndCausedBy(states[i].log, n, j)
  {
    var log := states[i].log;
    AnswerIs(c, log, n);
    var outs := AnswerTo(System(c), log, n);
    assert |outs| == 1 && outs[0].Send?;
    SettledMeansPerformed(System(c), states, steps, b, i, n, 0);
    var j :| 0 <= j < |log| && log[j] == Envelope(outs[0].msg, n + 1);
    CausesPrecede(System(c), states, steps, i, j + 1);
    assert EndCausedBy(log, n, j);
  }

  // ---------------------------------------------------------------- over any number of boots

  /**
   The spawn of accepted mail is in the log of a settled state exactly if no crash hit after the mail was
   logged and before the spawn was.
   */
  lemma SpawnLoggedIff(c: Config, states: seq<KState>, steps: seq<KStep>, i: nat, n: nat, t: int)
    requires KRun(c, states, steps) && i < |states| && states[i].live && states[i].pending == 0
    requires n < |states[i].log| && HandsOver(Fold(System(c), states[i].log[..n]), n + 1, states[i].log[n].msg, t)
    ensures var e := Envelope(SpawnAgentRun(t, !states[i].log[n].msg.CreateTask?), n + 1);
      e in states[i].log <==> forall k :: 0 <= k < i ==> !CutOff(states, steps, k, e)
  {
    AnswerIs(c, states[i].log, n);
    MailIsAnswered(Fold(System(c), states[i].log[..n]), n + 1, states[i].log[n].msg, t);
    AnswerLoggedIff(System(c), states, steps, i, n, 1);
  }
}
