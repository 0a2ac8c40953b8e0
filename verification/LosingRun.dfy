/**
 A run of the whole system, step by step, in which a crash loses a run's result: a task is created, its
 agent run starts and finishes, and the process dies after the finish is logged and before it is applied.
 */
module LosingRun {
  import opened Prelude
  import opened Runtime
  import opened Messages
  import opened Kasi
  import opened KasiEnds
  import opened App
  import R = KasiRequests
  import F = KasiFinish
  import Tasks
  import Agents

  ghost predicate EndsIn(c: Config, states: seq<KState>, steps: seq<KStep>, s: KState)
  {
    KRun(c, states, steps) && states[|steps|] == s
  }

  /** Some run of the system gets to this state. */
  ghost predicate Reachable(c: Config, s: KState)
  {
    exists states, steps :: EndsIn(c, states, steps, s)
  }

  lemma Goes(c: Config, s: KState, t: KStep, s': KState)
    requires Reachable(c, s) && Enabled(System(c), s, t) && Next(System(c), s, t) == s'
    ensures Reachable(c, s')
  {
    var states, steps :| EndsIn(c, states, steps, s);
    var longer, more := states + [s'], steps + [t];
    OneStepLonger(System(c), states, steps, t, longer);
    assert EndsIn(c, longer, more, s');
  }

  // ---------------------------------------------------------------- the way there

  const CREATED := Envelope(CreateTask("route", "mail"), 0)
  const SPAWNED := Envelope(SpawnAgentRun(1, false), 1)
  const SPENT: Slot<SourceId, Msg, Loc> := Slot(Caller, None, None, false)
  const LAID_IN: Slot<SourceId, Msg, Loc> := Slot(Effect(1), Some(Doing(LayIn(1))), None, false)
  const LAUNCHER: Slot<SourceId, Msg, Loc> := Slot(Body(LaunchKey(2), true), Some(LaunchBody(1, 2)), None, false)
  const WATCHER: Slot<SourceId, Msg, Loc> := Slot(Body(WatchKey(2), false), Some(WatchBody(1, 2)), None, false)

  /** The process is up, over an empty log. */
  function Up(c: Config, w: World): KState
  {
    State([], w, true, false, Zero(c), Idle, [], [], map[], 0, 1)
  }

  function WithTask(c: Config): Model
  {
    var ts := Zero(c).tasks;
    Zero(c).(tasks := ts.(tasks := [Tasks.Task(1, Tasks.AwaitingAgent, "route", ["mail"], "mail", [], 1)]))
  }

  function WithRun(c: Config): Model
  {
    var ag := Zero(c).agents;
    WithTask(c).(agents := ag.(runs := [Agents.AgentRun(2, 1, Agents.Running, 0, false, "")]))
  }

  /** The task is created and its spawn is queued. */
  function Created(c: Config, w: World): KState
  {
    State([CREATED], w, true, false, WithTask(c), Idle, [SPAWNED], [SPENT, LAID_IN], map[], 2, 1)
  }

  /** The run is recorded, its launcher and watcher are running. */
  function Watched(c: Config, w: World): KState
  {
    State([CREATED, SPAWNED], w, true, false, WithRun(c), Idle, [], [SPENT, LAID_IN, LAUNCHER, WATCHER],
      map[LaunchKey(2) := 2, WatchKey(2) := 3], 2, 1)
  }

  function FinishOf(res: RunResult): Envelope<Msg>
  {
    Envelope(FinishAgentRun(1, 2, res), 0)
  }

  /** The finish is logged and about to be applied. */
  function Finishing(c: Config, w: World, res: RunResult): KState
  {
    Watched(c, w).(log := [CREATED, SPAWNED, FinishOf(res)], phase := Applying(FinishOf(res)),
      slots := [SPENT, LAID_IN, LAUNCHER, WATCHER.(run := Some(Inert))], pending := 3)
  }

  lemma Boots(c: Config, w: World)
    requires ConfigOK(c) && EmptyWorld(w)
    ensures Reachable(c, Up(c, w))
  {
    var s: KState := Initial(System(c), w);
    assert EndsIn(c, [s], [], s);
    var up := Up(c, w).(booting := true);
    Goes(c, s, Restart, up);
    Goes(c, up, BootDiff([], []), Up(c, w));
  }

  lemma Arrives(c: Config, w: World)
    requires Reachable(c, Up(c, w))
    ensures Reachable(c, Up(c, w).(log := [CREATED], phase := Applying(CREATED), slots := [SPENT], pending := 1))
  {
    var s := Up(c, w);
    var s1 := s.(slots := [SPENT.(transit := Some(CREATED))], pending := 1);
    Goes(c, s, Call(CREATED.msg), s1);
    var s2 := s1.(inbox := [CREATED], slots := [SPENT]);
    Goes(c, s1, Deliver(0), s2);
    var s3 := s2.(inbox := [], phase := Taken(CREATED));
    Goes(c, s2, Take, s3);
    Goes(c, s3, Append, s3.(log := [CREATED], phase := Applying(CREATED)));
  }

  lemma TaskHandled(c: Config)
    ensures ApplyMsg(System(c), Zero(c), CREATED.msg, 1) == (WithTask(c), [Do(LayIn(1)), Send(SPAWNED.msg)])
  {
    var task := Tasks.Task(1, Tasks.AwaitingAgent, "route", ["mail"], "mail", [], 1);
    assert Zero(c).tasks.tasks + [task] == [task];
  }

  lemma RunHandled(c: Config)
    ensures ApplyMsg(System(c), WithTask(c), SPAWNED.msg, 2) == (WithRun(c), [])
  {
    var run := Agents.AgentRun(2, 1, Agents.Running, 0, false, "");
    assert WithTask(c).agents.runs + [run] == [run];
  }

  lemma Creates(c: Config, w: World)
    requires Reachable(c, Up(c, w).(log := [CREATED], phase := Applying(CREATED), slots := [SPENT], pending := 1))
    ensures Reachable(c, Up(c, w).(log := [CREATED], model := WithTask(c), phase := Interpreting(1, [], Some(SPAWNED)),
      slots := [SPENT, LAID_IN], pending := 3))
  {
    var s := Up(c, w).(log := [CREATED], phase := Applying(CREATED), slots := [SPENT], pending := 1);
    var outs: seq<Out<Msg, Cmd>> := [Do(LayIn(1)), Send(SPAWNED.msg)];
    var s1 := s.(model := WithTask(c), phase := Interpreting(1, outs, None));
    TaskHandled(c);
    Goes(c, s, Apply, s1);
    assert outs[1..] == [Send(SPAWNED.msg)];
    var s2 := s1.(phase := Interpreting(1, outs[1..], None), slots := [SPENT, LAID_IN], pending := 2);
    Goes(c, s1, Interpret, s2);
    Goes(c, s2, Interpret, s2.(phase := Interpreting(1, [], Some(SPAWNED)), pending := 3));
  }

  lemma Queues(c: Config, w: World)
    requires Reachable(c, Up(c, w).(log := [CREATED], model := WithTask(c),
      phase := Interpreting(1, [], Some(SPAWNED)), slots := [SPENT, LAID_IN], pending := 3))
    ensures Reachable(c, Created(c, w))
  {
    var s := Created(c, w).(inbox := [], phase := Interpreting(1, [], Some(SPAWNED)), pending := 3);
    var s1 := s.(inbox := [SPAWNED], phase := Interpreting(1, [], None));
    Goes(c, s, DeliverOwn, s1);
    assert Sources(WithTask(c)) == map[];
    Goes(c, s1, Diff([], []), s1.(phase := Settling));
    Goes(c, s1.(phase := Settling), Settle, Created(c, w));
  }

  lemma Spawns(c: Config, w: World)
    requires Reachable(c, Created(c, w))
    ensures Reachable(c, Created(c, w).(log := [CREATED, SPAWNED], inbox := [], model := WithRun(c),
      phase := Interpreting(2, [], None)))
  {
    var s := Created(c, w);
    var s1 := s.(inbox := [], phase := Taken(SPAWNED));
    Goes(c, s, Take, s1);
    var s2 := s1.(log := [CREATED, SPAWNED], phase := Applying(SPAWNED));
    Goes(c, s1, Append, s2);
    RunHandled(c);
    Goes(c, s2, Apply, s2.(model := WithRun(c), phase := Interpreting(2, [], None)));
  }

  lemma OneRunDeclares(c: Config)
    ensures Sources(WithRun(c)) ==
      map[LaunchKey(2) := Source(true, LaunchBody(1, 2)), WatchKey(2) := Source(false, WatchBody(1, 2))]
  {
    var runs := WithRun(c).agents.runs;
    assert runs[..0] == [];
    assert Agents.ActiveRuns(runs[..0], c.maxConcurrent) == [];
    assert Agents.ActiveRuns(runs, c.maxConcurrent) == [2];
    assert Agents.WatchSources(runs[..0], [2]) == map[];
  }

  lemma BothStart(s: KState, declared: map<SourceId, Source<Loc>>)
    requires declared == map[LaunchKey(2) := Source(true, LaunchBody(1, 2)),
                             WatchKey(2) := Source(false, WatchBody(1, 2))]
    requires |s.slots| == 2 && s.running == map[]
    ensures StartAll(s, [LaunchKey(2), WatchKey(2)], declared) == s.(slots := s.slots + [LAUNCHER, WATCHER],
      running := map[LaunchKey(2) := 2, WatchKey(2) := 3], pending := s.pending + 1)
  {
    var added := [LaunchKey(2), WatchKey(2)];
    assert added[..1] == [LaunchKey(2)] && added[..1][..0] == [];
    assert StartAll(s, added[..1], declared) == Start(s, LaunchKey(2), declared[LaunchKey(2)]);
  }

  lemma SpawnSettles(c: Config, w: World)
    requires Reachable(c, Watched(c, w).(phase := Settling, pending := 3))
    ensures Reachable(c, Watched(c, w))
  {
    Goes(c, Watched(c, w).(phase := Settling, pending := 3), Settle, Watched(c, w));
  }

  lemma Watches(c: Config, w: World)
    requires Reachable(c, Created(c, w).(log := [CREATED, SPAWNED], inbox := [], model := WithRun(c),
      phase := Interpreting(2, [], None)))
    ensures Reachable(c, Watched(c, w))
  {
    var s := Created(c, w).(log := [CREATED, SPAWNED], inbox := [], model := WithRun(c),
      phase := Interpreting(2, [], None));
    OneRunDeclares(c);
    BothStart(s, Sources(s.model));
    var s1 := Watched(c, w).(phase := Settling, pending := 3);
    Goes(c, s, Diff([], [LaunchKey(2), WatchKey(2)]), s1);
    SpawnSettles(c, w);
  }

  lemma Finishes(c: Config, w: World, res: RunResult)
    requires Reachable(c, Watched(c, w))
    ensures Reachable(c, Finishing(c, w, res))
  {
    var s, e := Watched(c, w), FinishOf(res);
    var slots := Finishing(c, w, res).slots;
    var s1 := s.(slots := slots[3 := slots[3].(transit := Some(e))], pending := 3);
    assert Edge(c, w, WatchBody(1, 2), Cancelled(s, 3), w, Inert, Some(e.msg));
    Goes(c, s, Act(3, w, Inert, Some(e.msg)), s1);
    var s2 := s1.(slots := slots, inbox := [e]);
    Goes(c, s1, Deliver(3), s2);
    var s3 := s2.(inbox := [], phase := Taken(e));
    Goes(c, s2, Take, s3);
    Goes(c, s3, Append, Finishing(c, w, res));
  }

  /** Counted in the log: one finish, no end. */
  lemma FinishWithoutEnd(res: RunResult)
    ensures var log := [CREATED, SPAWNED, FinishOf(res)]; F.Finishes(log, 2) == 1 && R.Ends(log, 2) == 0
  {
    var one, two := [CREATED], [CREATED, SPAWNED];
    assert [CREATED, SPAWNED, FinishOf(res)][..2] == two && two[..1] == one && one[..0] == [];
    assert F.Finishes(one, 2) == 0 && R.Ends(one, 2) == 0;
    assert F.Finishes(two, 2) == 0 && R.Ends(two, 2) == 0;
  }

  /**
   Under every configuration, from every empty world, and whatever the run left behind: a reachable state
   has logged its finish, has no end for it anywhere, and by `LostForGood` never will.
   */
  lemma ACrashLosesTheResult(c: Config, w: World, res: RunResult) returns (s: KState)
    requires ConfigOK(c) && EmptyWorld(w)
    ensures Reachable(c, s) && s.log == [CREATED, SPAWNED, FinishOf(res)]
    ensures F.Finishes(s.log, 2) == 1 && R.Ends(s.log, 2) == 0 && Missing(s, 2) == 1
  {
    Boots(c, w);
    Arrives(c, w);
    Creates(c, w);
    Queues(c, w);
    Spawns(c, w);
    Watches(c, w);
    Finishes(c, w, res);
    s := Dead(System(c), Finishing(c, w, res));
    Goes(c, Finishing(c, w, res), Crash, s);
    FinishWithoutEnd(res);
  }

  /** The same a step earlier: a task whose mail is logged, and whose spawn is not and, once cut off, never will be. */
  lemma ACrashLosesTheSpawn(c: Config, w: World) returns (s: KState)
    requires ConfigOK(c) && EmptyWorld(w)
    ensures Reachable(c, s) && s.log == [CREATED] && !s.live
    ensures ApplyMsg(System(c), Zero(c), CREATED.msg, 1).1 == [Do(LayIn(1)), Send(SPAWNED.msg)]
  {
    Boots(c, w);
    Arrives(c, w);
    Creates(c, w);
    Queues(c, w);
    TaskHandled(c);
    s := Dead(System(c), Created(c, w));
    Goes(c, Created(c, w), Crash, s);
  }
}
