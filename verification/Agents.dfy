/** The agents domain: runs, the concurrency cap, the sole launcher and the watcher (agents/). */
module Agents {
  import opened Prelude
  import opened Runtime
  import opened Messages

  datatype RunStatus = Running | Stopping | Stopped | Finished

  datatype AgentRun = AgentRun(id: int, task: int, status: RunStatus, exit: int, resume: bool, harness: string)

  datatype Model = Model(runs: seq<AgentRun>, maxConcurrent: int, workerHarness: string)

  function FindRun(s: Model, id: int): nat
  {
    FirstIndex(s.runs, (r: AgentRun) => r.id == id)
  }

  /** A resume inherits the harness of the task's most recent run; a new session takes the setting. */
  function PinHarness(runs: seq<AgentRun>, workerHarness: string, task: int, resume: bool): string
  {
    if !resume || runs == [] then workerHarness
    else if runs[|runs| - 1].task == task then runs[|runs| - 1].harness
    else PinHarness(runs[..|runs| - 1], workerHarness, task, resume)
  }

  function HandleSpawnAgentRun(s: Model, task: int, resume: bool, offset: int): Model
  {
    s.(runs := s.runs + [AgentRun(offset, task, Running, 0, resume, PinHarness(s.runs, s.workerHarness, task, resume))])
  }

  function HandleStopAgentRun(s: Model, run: int): (Model, seq<Out<Msg, Cmd>>)
  {
    var i := FindRun(s, run);
    if i == |s.runs| then (s, [])
    else (s.(runs := s.runs[i := s.runs[i].(status := Stopping)]), [Do(SignalAgentRun(run, s.runs[i].harness))])
  }

  function HandleFinishAgentRun(s: Model, task: int, run: int, result: RunResult): (Model, seq<Out<Msg, Cmd>>)
  {
    var i := FindRun(s, run);
    var stopped := result.stopped || (i < |s.runs| && s.runs[i].status == Stopping);
    var s' := if i == |s.runs| then s
              else s.(runs := s.runs[i := s.runs[i].(status := if stopped then Stopped
                else Finished, exit := result.exit)]);
    (s', [Send(AgentRunFinished(task, run, result.(stopped := stopped)))])
  }

  function HandleLaunchAgentRun(s: Model, task: int, run: int): seq<Out<Msg, Cmd>>
  {
    var i := FindRun(s, run);
    if i == |s.runs| then [] else [Do(StartAgentRun(task, run, s.runs[i].resume, s.runs[i].harness))]
  }

  /** The ids of the runs that may hold a process: running ones, oldest first, up to the cap. */
  function ActiveRuns(runs: seq<AgentRun>, cap: int): seq<int>
  {
    if runs == [] then []
    else
      var front, run := ActiveRuns(runs[..|runs| - 1], cap), runs[|runs| - 1];
      if run.status == Running && (cap <= 0 || |front| < cap) then front + [run.id] else front
  }

  lemma {:induction false} ActiveFull(runs: seq<AgentRun>, n: nat, cap: int)
    requires n <= |runs| && cap > 0 && |ActiveRuns(runs[..n], cap)| >= cap
    ensures ActiveRuns(runs, cap) == ActiveRuns(runs[..n], cap)
  {
    if n == |runs| {
      assert runs[..n] == runs;
    } else {
      assert runs[..|runs| - 1][..n] == runs[..n];
      ActiveFull(runs[..|runs| - 1], n, cap);
    }
  }

  /** The counting loop with its early break. */
  method ActiveRunsLoop(s: Model) returns (active: set<int>)
    ensures active == set id | id in ActiveRuns(s.runs, s.maxConcurrent)
  {
    active := {};
    var n := 0;
    for i := 0 to |s.runs|
      invariant n == |ActiveRuns(s.runs[..i], s.maxConcurrent)|
      invariant active == set id | id in ActiveRuns(s.runs[..i], s.maxConcurrent)
    {
      assert s.runs[..i + 1][..i] == s.runs[..i];
      var run := s.runs[i];
      if run.status != Running {
        continue;
      }
      if s.maxConcurrent > 0 && n >= s.maxConcurrent {
        ActiveFull(s.runs, i, s.maxConcurrent);
        return;
      }
      active := active + {run.id};
      n := n + 1;
    }
    assert s.runs[..|s.runs|] == s.runs;
  }

  /** Two sources per active running run: an Await launcher and a long-lived watcher. */
  function WatchSources(runs: seq<AgentRun>, active: seq<int>): map<SourceId, Source<Loc>>
  {
    if runs == [] then map[]
    else
      var front, run := WatchSources(runs[..|runs| - 1], active), runs[|runs| - 1];
      if run.status == Running && run.id in active then
        front[LaunchKey(run.id) := Source(true, LaunchBody(run.task, run.id))][WatchKey(run.id) :=
          Source(false, WatchBody(run.task, run.id))]
      else front
  }
}
