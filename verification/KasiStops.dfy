/**
 How a run ends. The model is the authority on whether a run was stopped: over every log its status, its exit
 code and the result handed on follow from the stops and the finish logged for it, and a stopped run is
 never owed more than its transcript.
 */
module KasiStops {
  import opened Runtime
  import opened RuntimeProofs
  import opened Messages
  import opened Kasi
  import opened KasiInv
  import opened KasiRequests
  import opened KasiCauses
  import E = KasiEnds
  import F = KasiFinish
  import Tasks
  import Agents

  ghost predicate Recorded(m: Model, r: int)
  {
    exists i :: RunAt(m, r, i)
  }

  /** Message `k` told run `r` to stop, and the run was recorded. */
  ghost predicate StopAt(c: Config, log: seq<Envelope<Msg>>, k: nat, r: int)
    requires k < |log|
  {
    log[k].msg == StopAgentRun(r) && Recorded(Fold(System(c), log[..k]), r)
  }

  /** Run `r` was told to stop between messages `from` and the end of the log. */
  ghost predicate StoppedIn(c: Config, log: seq<Envelope<Msg>>, from: nat, r: int)
  {
    exists k :: from <= k < |log| && StopAt(c, log, k, r)
  }

  // ---------------------------------------------------------------- one message

  /** The status a run takes from one message. */
  function Turned(status: Agents.RunStatus, msg: Msg, r: int): Agents.RunStatus
  {
    if msg == StopAgentRun(r) then Agents.Stopping
    else if msg.FinishAgentRun? && msg.run == r then
      if msg.result.stopped || status == Agents.Stopping then Agents.Stopped else Agents.Finished
    else status
  }

  lemma RunMessage(m: Model, msg: Msg, offset: int, r: int, i: nat)
    requires RunAt(m, r, i)
    ensures var m' := ApplyOne(m, msg, offset).0;
      && RunAt(m', r, i) && m'.agents.runs[i].status == Turned(m.agents.runs[i].status, msg, r)
      && m'.agents.runs[i].exit ==
           if msg.FinishAgentRun? && msg.run == r then msg.result.exit else m.agents.runs[i].exit
  {
    F.AgentsOnly(m, msg, offset);
    if msg.StopAgentRun? || msg.FinishAgentRun? { RunFound(m, msg.run); }
  }

  /** Only a spawn records a run, under its own offset, running. */
  lemma NewRun(m: Model, msg: Msg, offset: int, r: int)
    requires !Recorded(m, r) && Recorded(ApplyOne(m, msg, offset).0, r)
    ensures msg.SpawnAgentRun? && r == offset
    ensures var m' := ApplyOne(m, msg, offset).0;
      RunAt(m', r, |m.agents.runs|) && m'.agents.runs[|m.agents.runs|].status == Agents.Running
  {
    var a, b := m.agents.runs, ApplyOne(m, msg, offset).0.agents.runs;
    F.AgentsOnly(m, msg, offset);
    assert forall i :: 0 <= i < |a| ==> b[i].id == a[i].id;
    NotRecordedNowhere(m, r);
    var i :| RunAt(ApplyOne(m, msg, offset).0, r, i);
    assert i >= |a|;
  }

  lemma {:induction false} NotRecordedNowhere(m: Model, r: int)
    requires !Recorded(m, r)
    ensures forall i :: 0 <= i < |m.agents.runs| ==> m.agents.runs[i].id != r
  {
    RunFound(m, r);
  }

  // ---------------------------------------------------------------- one message more in a log

  lemma StopsEarlier(c: Config, log: seq<Envelope<Msg>>, e: Envelope<Msg>, k: nat, r: int)
    requires k < |log|
    ensures StopAt(c, log + [e], k, r) <==> StopAt(c, log, k, r)
  {
    assert (log + [e])[..k] == log[..k];
  }

  lemma StopsOneMore(c: Config, log: seq<Envelope<Msg>>, e: Envelope<Msg>, from: nat, r: int)
    requires from <= |log|
    ensures StoppedIn(c, log + [e], from, r) <==>
      StoppedIn(c, log, from, r) || (e.msg == StopAgentRun(r) && Recorded(Fold(System(c), log), r))
  {
    var more := log + [e];
    assert more[..|log|] == log && more[|log|] == e;
    forall k | 0 <= k < |log| ensures StopAt(c, more, k, r) <==> StopAt(c, log, k, r) {
      StopsEarlier(c, log, e, k, r);
    }
    assert StopAt(c, more, |log|, r) <==> e.msg == StopAgentRun(r) && Recorded(Fold(System(c), log), r);
  }

  // ---------------------------------------------------------------- before the finish

  /** Unless it has finished, a recorded run is stopping if it was told to stop, and running otherwise. */
  ghost predicate Going(c: Config, log: seq<Envelope<Msg>>, r: int)
  {
    var m := Fold(System(c), log);
    F.Finishes(log, r) == 0 ==>
      && (StoppedIn(c, log, 0, r) ==> Recorded(m, r))
      && forall i :: RunAt(m, r, i) ==>
           m.agents.runs[i].status == if StoppedIn(c, log, 0, r) then Agents.Stopping else Agents.Running
  }

  lemma GoingOneMore(c: Config, log: seq<Envelope<Msg>>, e: Envelope<Msg>, r: int)
    requires Going(c, log, r)
    ensures Going(c, log + [e], r)
  {
    var m, m' := Fold(System(c), log), Fold(System(c), log + [e]);
    FoldOneMore(c, log, e);
    F.FinishesAppend(log, e, r);
    StopsOneMore(c, log, e, 0, r);
    if F.Finishes(log + [e], r) == 0 {
      forall i | RunAt(m', r, i)
        ensures m'.agents.runs[i].status ==
          if StoppedIn(c, log + [e], 0, r) then Agents.Stopping else Agents.Running
      {
        GoingAt(c, m, m', log, e, r, i);
      }
      if StoppedIn(c, log + [e], 0, r) {
        var i :| RunAt(m, r, i);
        RunMessage(m, e.msg, |log| + 1, r, i);
      }
    }
  }

  lemma GoingAt(c: Config, m: Model, m': Model, log: seq<Envelope<Msg>>, e: Envelope<Msg>, r: int, i: nat)
    requires Going(c, log, r) && m == Fold(System(c), log) && m' == ApplyOne(m, e.msg, |log| + 1).0
    requires F.Finishes(log, r) == 0 && !(e.msg.FinishAgentRun? && e.msg.run == r) && RunAt(m', r, i)
    ensures m'.agents.runs[i].status ==
      if StoppedIn(c, log, 0, r) || (e.msg == StopAgentRun(r) && Recorded(m, r)) then Agents.Stopping
      else Agents.Running
  {
    if Recorded(m, r) {
      var k :| RunAt(m, r, k);
      RunMessage(m, e.msg, |log| + 1, r, k);
    } else {
      NewRun(m, e.msg, |log| + 1, r);
    }
  }

  lemma {:induction false} RunIsGoing(c: Config, log: seq<Envelope<Msg>>, r: int)
    ensures Going(c, log, r)
  {
    if log != [] {
      RunIsGoing(c, log[..|log| - 1], r);
      GoingOneMore(c, log[..|log| - 1], log[|log| - 1], r);
      assert log == log[..|log| - 1] + [log[|log| - 1]];
    }
  }

  // ---------------------------------------------------------------- the finish, and after it

  /** Message `j` is the only finish of run `r` in this log, and the run was recorded. */
  ghost predicate FinishesAt(c: Config, log: seq<Envelope<Msg>>, j: nat, r: int)
  {
    && j < |log| && log[j].msg.FinishAgentRun? && log[j].msg.run == r
    && F.Finishes(log[..j], r) == 0 && F.Finishes(log, r) == 1
    && Recorded(Fold(System(c), log[..j]), r)
  }

  /** How the run stands once it has finished at message `j`. */
  ghost predicate StandsAt(c: Config, log: seq<Envelope<Msg>>, j: nat, r: int, run: Agents.AgentRun)
    requires j < |log| && log[j].msg.FinishAgentRun?
  {
    var res := log[j].msg.result;
    && run.exit == res.exit
    && run.status ==
         if StoppedIn(c, log, j + 1, r) then Agents.Stopping
         else if res.stopped || StoppedIn(c, log[..j], 0, r) then Agents.Stopped
         else Agents.Finished
  }

  lemma FinishDecides(c: Config, log: seq<Envelope<Msg>>, j: nat, r: int, i: nat)
    requires FinishesAt(c, log, j, r) && j == |log| - 1 && RunAt(Fold(System(c), log), r, i)
    ensures StandsAt(c, log, j, r, Fold(System(c), log).agents.runs[i])
  {
    var m := Fold(System(c), log[..j]);
    FoldLast(c, log, log[..j], log[j]);
    RunIsGoing(c, log[..j], r);
    var k :| RunAt(m, r, k);
    RunMessage(m, log[j].msg, |log|, r, k);
  }

  lemma LaterStands(c: Config, log: seq<Envelope<Msg>>, e: Envelope<Msg>, j: nat, r: int, i: nat)
    requires FinishesAt(c, log, j, r) && F.Finishes(log + [e], r) == 1 && RunAt(Fold(System(c), log), r, i)
    requires StandsAt(c, log, j, r, Fold(System(c), log).agents.runs[i])
    ensures RunAt(Fold(System(c), log + [e]), r, i)
    ensures StandsAt(c, log + [e], j, r, Fold(System(c), log + [e]).agents.runs[i])
  {
    FoldOneMore(c, log, e);
    F.FinishesAppend(log, e, r);
    StopsOneMore(c, log, e, j + 1, r);
    assert (log + [e])[..j] == log[..j];
    RunMessage(Fold(System(c), log), e.msg, |log| + 1, r, i);
  }

  /**
   Over every log: a run that has finished once has the exit code it reported. It is stopped if it reported
   so or had been told to stop before, and finished otherwise; but a stop that came after the finish has made
   it stopping, and nothing takes it out of that.
   */
  lemma {:induction false} HowARunEnds(c: Config, log: seq<Envelope<Msg>>, j: nat, r: int, i: nat)
    requires FinishesAt(c, log, j, r) && RunAt(Fold(System(c), log), r, i)
    ensures StandsAt(c, log, j, r, Fold(System(c), log).agents.runs[i])
    decreases |log|
  {
    if j == |log| - 1 {
      FinishDecides(c, log, j, r, i);
    } else {
      var front, e := log[..|log| - 1], log[|log| - 1];
      assert log == front + [e] && front[..j] == log[..j] && front[j] == log[j];
      FrontFinishes(c, log, j, r);
      var k := StillRecorded(c, front, j, r);
      HowARunEnds(c, front, j, r, k);
      LaterStands(c, front, e, j, r, k);
    }
  }

  lemma {:induction false} FinishesGrow(log: seq<Envelope<Msg>>, n: nat, r: int)
    requires n <= |log|
    ensures F.Finishes(log[..n], r) <= F.Finishes(log, r)
  {
    if n < |log| {
      var front := log[..|log| - 1];
      FinishesGrow(front, n, r);
      assert front[..n] == log[..n];
    } else {
      assert log[..n] == log;
    }
  }

  lemma FrontFinishes(c: Config, log: seq<Envelope<Msg>>, j: nat, r: int)
    requires FinishesAt(c, log, j, r) && j < |log| - 1
    ensures FinishesAt(c, log[..|log| - 1], j, r)
  {
    var front := log[..|log| - 1];
    assert front[..j] == log[..j] && front[j] == log[j];
    FinishesGrow(log, |front|, r);
    FinishesGrow(front, j + 1, r);
    assert front[..j + 1][..j] == front[..j];
  }

  /** A run recorded when it finished is recorded ever after. */
  lemma {:induction false} StillRecorded(c: Config, log: seq<Envelope<Msg>>, n: nat, r: int) returns (i: nat)
    requires n <= |log| && Recorded(Fold(System(c), log[..n]), r)
    ensures RunAt(Fold(System(c), log), r, i)
    decreases |log|
  {
    if n == |log| {
      assert log[..n] == log;
      i :| RunAt(Fold(System(c), log), r, i);
    } else {
      var front, e := log[..|log| - 1], log[|log| - 1];
      assert front[..n] == log[..n];
      i := StillRecorded(c, front, n, r);
      FoldLast(c, log, front, e);
      RunMessage(Fold(System(c), front), e.msg, |log|, r, i);
    }
  }

  /** The log of a run that ends by itself, whatever it reports, before the stop meant for it arrives. */
  function LateStop(res: RunResult): seq<Envelope<Msg>>
  {
    [Envelope(CreateTask("route", "mail"), 0), Envelope(SpawnAgentRun(1, false), 1),
      Envelope(FinishAgentRun(1, 2, res), 0), Envelope(StopAgentRun(2), 0)]
  }

  lemma OneRunRunning(c: Config, res: RunResult)
    ensures var m := Fold(System(c), LateStop(res)[..2]);
      RunAt(m, 2, 0) && m.agents.runs[0].status == Agents.Running
  {
    var log := LateStop(res)[..2];
    assert log == [log[0]] + [log[1]] && [] + [log[0]] == [log[0]];
    FoldOneMore(c, [], log[0]);
    FoldOneMore(c, [log[0]], log[1]);
  }

  /** Its process has exited, and the run is stopping. */
  lemma LateStopSticks(c: Config, res: RunResult)
    ensures var m := Fold(System(c), LateStop(res));
      RunAt(m, 2, 0) && m.agents.runs[0].status == Agents.Stopping
  {
    var log := LateStop(res);
    OneRunRunning(c, res);
    assert log[..3] == log[..2] + [log[2]] && log == log[..3] + [log[3]];
    FoldOneMore(c, log[..2], log[2]);
    RunMessage(Fold(System(c), log[..2]), log[2].msg, 3, 2, 0);
    FoldOneMore(c, log[..3], log[3]);
    RunMessage(Fold(System(c), log[..3]), log[3].msg, 4, 2, 0);
  }

  // ---------------------------------------------------------------- what a finished run hands on

  /** In this model the run is stopping exactly if it was told to stop before. */
  lemma StoppingIsStopped(c: Config, log: seq<Envelope<Msg>>, r: int)
    requires F.Finishes(log, r) == 0
    ensures IsStopping(Fold(System(c), log), r) <==> StoppedIn(c, log, 0, r)
  {
    RunIsGoing(c, log, r);
    if StoppedIn(c, log, 0, r) {
      var i :| RunAt(Fold(System(c), log), r, i);
    }
  }

  lemma NoFinishBefore(c: Config, states: seq<KState>, steps: seq<KStep>, i: nat, j: nat, r: int)
    requires KRun(c, states, steps) && i < |states| && j < |states[i].log|
    requires states[i].log[j].msg.FinishAgentRun? && states[i].log[j].msg.run == r
    ensures F.Finishes(states[i].log[..j], r) == 0
  {
    var log := states[i].log;
    F.FinishedAtMostOnce(c, states, steps, i, r);
    FinishesGrow(log, j + 1, r);
    assert log[..j + 1][..j] == log[..j];
  }

  /** Message `j` ends run `r` with what the finish at message `k` reported, stopped if the run had been told to. */
  ghost predicate HandsOn(c: Config, log: seq<Envelope<Msg>>, k: nat, j: nat)
    requires k < j < |log|
  {
    var from, end := log[k].msg, log[j].msg;
    && from.FinishAgentRun? && end.AgentRunFinished? && from.run == end.run && from.task == end.task
    && end.result.exit == from.result.exit && end.result.manifest == from.result.manifest
    && (end.result.stopped <==> from.result.stopped || StoppedIn(c, log[..k], 0, from.run))
  }

  /** Every logged end of a run follows its one finish and says whether the run was stopped. */
  lemma EndsSayStopped(c: Config, states: seq<KState>, steps: seq<KStep>, i: nat, j: nat) returns (k: nat)
    requires KRun(c, states, steps) && i < |states| && j < |states[i].log| && states[i].log[j].msg.AgentRunFinished?
    ensures k < j && HandsOn(c, states[i].log, k, j)
  {
    var log, e := states[i].log, states[i].log[j];
    CausesTell(c, states, steps, i, j);
    k := e.cause - 1;
    NoFinishBefore(c, states, steps, i, k, e.msg.run);
    StoppingIsStopped(c, log[..k], e.msg.run);
    assert k != j;
  }

  // ---------------------------------------------------------------- what is owed

  /** Run `r` ended with success at message `j`. */
  predicate SucceededAt(log: seq<Envelope<Msg>>, j: nat, r: int)
    requires j < |log|
  {
    log[j].msg.AgentRunFinished? && log[j].msg.run == r && !log[j].msg.result.stopped && log[j].msg.result.exit == 0
  }

  ghost predicate Succeeded(log: seq<Envelope<Msg>>, r: int)
  {
    exists j :: 0 <= j < |log| && SucceededAt(log, j, r)
  }

  /** More than a transcript is owed only for runs that ended with success. */
  ghost predicate JobsEarned(m: Model, log: seq<Envelope<Msg>>)
  {
    forall r, kind :: Tasks.Owes(m.tasks.pending, r, kind) && kind != Transcript ==> Succeeded(log, r)
  }

  lemma SucceededGrows(log: seq<Envelope<Msg>>, e: Envelope<Msg>, r: int)
    requires Succeeded(log, r)
    ensures Succeeded(log + [e], r)
  {
    var j :| 0 <= j < |log| && SucceededAt(log, j, r);
    assert SucceededAt(log + [e], j, r);
  }

  lemma RegisteredSucceeded(c: Config, log: seq<Envelope<Msg>>, e: Envelope<Msg>, r: int)
    requires RegistersNow(Fold(System(c), log), e.msg, r)
    requires ExactlyOne(c, Fold(System(c), log + [e]), log + [e], r)
    ensures Succeeded(log + [e], r)
  {
    FoldOneMore(c, log, e);
    RegisteredAfter(Fold(System(c), log), e.msg, |log| + 1, r);
    var j :| 0 <= j < |log + [e]| && RaisesAt(c, log + [e], j, r);
    assert SucceededAt(log + [e], j, r);
  }

  /** A message that makes more than a transcript owed is a successful end, or registers a request. */
  lemma EarnedByMessage(m: Model, msg: Msg, offset: int, r: int, kind: HarvestKind)
    requires Tasks.Owes(ApplyOne(m, msg, offset).0.tasks.pending, r, kind) && kind != Transcript
    ensures Tasks.Owes(m.tasks.pending, r, kind) || RegistersNow(m, msg, r) || SucceededAt([Envelope(msg, 0)], 0, r)
  {
    E.OwedByMessage(m, msg, offset, r, kind);
    if msg.AgentRunFinished? {
      Tasks.JobsRecorded(m.tasks.pending, msg.task, msg.run, msg.result, r, kind);
    }
  }

  lemma EarnedAfter(c: Config, log: seq<Envelope<Msg>>, e: Envelope<Msg>)
    requires JobsEarned(Fold(System(c), log), log)
    requires forall r :: ExactlyOne(c, Fold(System(c), log + [e]), log + [e], r)
    ensures JobsEarned(Fold(System(c), log + [e]), log + [e])
  {
    var m, m' := Fold(System(c), log), Fold(System(c), log + [e]);
    FoldOneMore(c, log, e);
    forall r, kind | Tasks.Owes(m'.tasks.pending, r, kind) && kind != Transcript ensures Succeeded(log + [e], r) {
      EarnedByMessage(m, e.msg, |log| + 1, r, kind);
      if Tasks.Owes(m.tasks.pending, r, kind) {
        SucceededGrows(log, e, r);
      } else if RegistersNow(m, e.msg, r) {
        RegisteredSucceeded(c, log, e, r);
      } else {
        assert SucceededAt(log + [e], |log|, r);
      }
    }
  }

  ghost predicate Earned(c: Config, s: KState)
  {
    JobsEarned(Denotes(c, s), Folded(s))
  }

  lemma EarnedMoves(c: Config, log: seq<Envelope<Msg>>, after: seq<Envelope<Msg>>)
    requires JobsEarned(Fold(System(c), log), log)
    requires after == log || (after != [] && after[..|after| - 1] == log)
    requires forall r :: ExactlyOne(c, Fold(System(c), after), after, r)
    ensures JobsEarned(Fold(System(c), after), after)
  {
    if after != log {
      assert after == log + [after[|after| - 1]];
      EarnedAfter(c, log, after[|after| - 1]);
    }
  }

  lemma EarnedOverStep(c: Config, states: seq<KState>, steps: seq<KStep>, j: nat)
    requires KRun(c, states, steps) && 0 < j < |states| && Earned(c, states[j - 1])
    ensures Earned(c, states[j])
  {
    RunStep(c, states, steps, j);
    E.FoldedStep(c, states[j - 1], steps[j - 1]);
    RunRequests(c, states, steps, j);
    forall r ensures ExactlyOne(c, Fold(System(c), Folded(states[j])), Folded(states[j]), r) {
      assert ExactlyOne(c, Denotes(c, states[j]), Folded(states[j]), r);
    }
    EarnedMoves(c, Folded(states[j - 1]), Folded(states[j]));
  }

  /** In every reachable state, more than a transcript is owed only for a run whose logged end was a success. */
  lemma {:induction false} OwedMeansEarned(c: Config, states: seq<KState>, steps: seq<KStep>, i: nat)
    requires KRun(c, states, steps) && i < |states|
    ensures Earned(c, states[i])
  {
    if i > 0 {
      OwedMeansEarned(c, states, steps, i - 1);
      EarnedOverStep(c, states, steps, i);
    }
  }

  /** A finish counts in every longer prefix. */
  lemma LaterCounts(log: seq<Envelope<Msg>>, k: nat, n: nat, r: int)
    requires k < n <= |log| && log[k].msg.FinishAgentRun? && log[k].msg.run == r
    ensures F.Finishes(log[..n], r) >= 1
  {
    FinishesGrow(log[..n], k + 1, r);
    assert log[..n][..k + 1] == log[..k + 1] && log[..k + 1][..k] == log[..k];
  }

  /** A run has at most one finish in the log. */
  lemma OneFinish(c: Config, states: seq<KState>, steps: seq<KStep>, i: nat, k: nat, k': nat, r: int)
    requires KRun(c, states, steps) && i < |states| && k < |states[i].log| && k' < |states[i].log|
    requires states[i].log[k].msg.FinishAgentRun? && states[i].log[k].msg.run == r
    requires states[i].log[k'].msg.FinishAgentRun? && states[i].log[k'].msg.run == r
    ensures k == k'
  {
    NoFinishBefore(c, states, steps, i, k, r);
    NoFinishBefore(c, states, steps, i, k', r);
    if k < k' {
      LaterCounts(states[i].log, k, k', r);
    } else if k' < k {
      LaterCounts(states[i].log, k', k, r);
    }
  }

  /** A run that was told to stop before it finished: every logged end of it says stopped. */
  lemma StoppedEndsSayIt(c: Config, states: seq<KState>, steps: seq<KStep>, i: nat, k: nat, j: nat, r: int)
    requires KRun(c, states, steps) && i < |states| && k < |states[i].log| && j < |states[i].log|
    requires states[i].log[k].msg.FinishAgentRun? && states[i].log[k].msg.run == r
    requires StoppedIn(c, states[i].log[..k], 0, r)
    requires states[i].log[j].msg.AgentRunFinished? && states[i].log[j].msg.run == r
    ensures states[i].log[j].msg.result.stopped
  {
    var k' := EndsSayStopped(c, states, steps, i, j);
    OneFinish(c, states, steps, i, k, k', r);
  }

  /**
   And in every reachable state no more than its transcript is owed: no reply, no request, no skill, no memory.
   */
  lemma StoppedOwesTranscriptOnly(c: Config, states: seq<KState>, steps: seq<KStep>, i: nat, k: nat, r: int)
    requires KRun(c, states, steps) && i < |states| && k < |states[i].log|
    requires states[i].log[k].msg.FinishAgentRun? && states[i].log[k].msg.run == r
    requires StoppedIn(c, states[i].log[..k], 0, r)
    ensures forall kind :: kind != Transcript ==>
      !Tasks.Owes(Fold(System(c), Folded(states[i])).tasks.pending, r, kind)
  {
    var folded := Folded(states[i]);
    OwedMeansEarned(c, states, steps, i);
    forall j | 0 <= j < |folded| ensures !SucceededAt(folded, j, r) {
      assert folded[j] == states[i].log[j];
      if folded[j].msg.AgentRunFinished? && folded[j].msg.run == r {
        StoppedEndsSayIt(c, states, steps, i, k, j, r);
      }
    }
  }
}
