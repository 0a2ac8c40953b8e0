/**
 The concurrency cap as a scheduling rule: who is active, that nobody active is ever preempted
 while the cap is fixed, and that nobody ever overtakes.
 */
module Scheduler {
  import opened Messages
  import Kasi
  import S = KasiSources
  import A = Agents

  /** What a message does to the agents slice. */
  function Handle(m: A.Model, msg: Msg, offset: int): A.Model
  {
    match msg
    case SetWorkerHarness(h) => m.(workerHarness := h)
    case SpawnAgentRun(t, resume) => A.HandleSpawnAgentRun(m, t, resume, offset)
    case StopAgentRun(r) => A.HandleStopAgentRun(m, r).0
    case FinishAgentRun(t, r, res) => A.HandleFinishAgentRun(m, t, r, res).0
    case _ => m
  }

  /** The ids of the running runs, oldest first. */
  function RunningIds(runs: seq<A.AgentRun>): seq<int>
  {
    if runs == [] then []
    else RunningIds(runs[..|runs| - 1]) + if runs[|runs| - 1].status == A.Running then [runs[|runs| - 1].id] else []
  }

  ghost predicate IsActive(m: A.Model, r: int)
  {
    r in A.ActiveRuns(m.runs, m.maxConcurrent)
  }

  function Min(a: int, b: int): int
  {
    if a <= b then a else b
  }

  /** The active runs are exactly the first min(cap, #running) running runs; all of them without a cap. */
  lemma {:induction false} ActiveIsPrefix(runs: seq<A.AgentRun>, cap: int)
    ensures cap <= 0 ==> A.ActiveRuns(runs, cap) == RunningIds(runs)
    ensures cap > 0 ==> A.ActiveRuns(runs, cap) == RunningIds(runs)[..Min(cap, |RunningIds(runs)|)]
  {
    if runs != [] {
      ActiveIsPrefix(runs[..|runs| - 1], cap);
    }
  }

  /** Running run `r` holds place `k` in the queue. */
  ghost predicate Place(runs: seq<A.AgentRun>, r: int, k: nat)
  {
    k < |RunningIds(runs)| && RunningIds(runs)[k] == r
  }

  lemma ActiveByPlace(m: A.Model, r: int, k: nat)
    requires Place(m.runs, r, k) && (m.maxConcurrent <= 0 || k < m.maxConcurrent)
    ensures IsActive(m, r)
  {
    ActiveIsPrefix(m.runs, m.maxConcurrent);
    assert A.ActiveRuns(m.runs, m.maxConcurrent)[k] == r;
  }

  lemma PlaceOfActive(m: A.Model, r: int) returns (k: nat)
    requires IsActive(m, r)
    ensures Place(m.runs, r, k) && (m.maxConcurrent <= 0 || k < m.maxConcurrent)
  {
    ActiveIsPrefix(m.runs, m.maxConcurrent);
    var i :| 0 <= i < |A.ActiveRuns(m.runs, m.maxConcurrent)| && A.ActiveRuns(m.runs, m.maxConcurrent)[i] == r;
    k := i;
  }

  /** A run as it is now and as it was: same identity, and running only if it was. */
  predicate SameRun(a: A.AgentRun, b: A.AgentRun)
  {
    && b.id == a.id && b.task == a.task && b.harness == a.harness && b.resume == a.resume
    && (b.status == A.Running ==> a.status == A.Running)
  }

  /** Runs keep their place in the list, and none returns to running. */
  ghost predicate Persist(a: seq<A.AgentRun>, b: seq<A.AgentRun>)
  {
    && |a| <= |b|
    && forall i :: 0 <= i < |a| ==> SameRun(a[i], b[i])
  }

  lemma RunsPersist(m: A.Model, msg: Msg, offset: int)
    ensures Persist(m.runs, Handle(m, msg, offset).runs)
    ensures Handle(m, msg, offset).maxConcurrent == m.maxConcurrent
  {
  }

  lemma {:induction false} RunningIdsAre(runs: seq<A.AgentRun>, r: int)
    ensures r in RunningIds(runs) <==> exists i :: 0 <= i < |runs| && runs[i].id == r && runs[i].status == A.Running
  {
    if runs != [] {
      var front := runs[..|runs| - 1];
      RunningIdsAre(front, r);
      assert forall i :: 0 <= i < |front| ==> front[i] == runs[i];
      if i :| 0 <= i < |runs| && runs[i].id == r && runs[i].status == A.Running {
        if i < |front| { assert front[i].id == r && front[i].status == A.Running; }
      }
    }
  }

  /** The running runs after a message, among those there before, are some of those running before, in order. */
  lemma {:induction false} PlaceImproves(a: seq<A.AgentRun>, b: seq<A.AgentRun>, r: int, k: nat) returns (k': nat)
    requires Persist(a, b) && Place(a, r, k)
    requires forall i, j :: 0 <= i < j < |a| ==> a[i].id != a[j].id
    requires exists i :: 0 <= i < |b| && i < |a| && b[i].id == r && b[i].status == A.Running
    ensures k' <= k && Place(b, r, k')
    decreases |b|
  {
    var i :| 0 <= i < |b| && i < |a| && b[i].id == r && b[i].status == A.Running;
    if |b| > |a| {
      k' := PlaceImproves(a, b[..|b| - 1], r, k);
    } else {
      var n := |a| - 1;
      var fa, fb := RunningIds(a[..n]), RunningIds(b[..n]);
      if i == n {
        RunningIdsAre(a[..n], r);
        assert r !in fa;
        assert k == |fa|;
        FewerRunning(a[..n], b[..n]);
        k' := |fb|;
      } else {
        assert a[n].id != a[i].id && k < |fa|;
        assert Place(a[..n], r, k);
        assert b[..n][i].id == r;
        k' := PlaceImproves(a[..n], b[..n], r, k);
      }
    }
  }

  lemma {:induction false} FewerRunning(a: seq<A.AgentRun>, b: seq<A.AgentRun>)
    requires Persist(a, b) && |a| == |b|
    ensures |RunningIds(b)| <= |RunningIds(a)|
  {
    if a != [] {
      FewerRunning(a[..|a| - 1], b[..|b| - 1]);
    }
  }

  ghost predicate StillRunning(m: A.Model, r: int)
  {
    exists i :: 0 <= i < |m.runs| && m.runs[i].id == r && m.runs[i].status == A.Running
  }

  ghost predicate DistinctIds(runs: seq<A.AgentRun>)
  {
    forall i, j :: 0 <= i < j < |runs| ==> runs[i].id != runs[j].id
  }

  /** Nobody overtakes: while a run stays running, the number of running runs ahead of it never increases. */
  lemma NeverOvertaken(m: A.Model, msg: Msg, offset: int, r: int, k: nat) returns (k': nat)
    requires DistinctIds(m.runs) && DistinctIds(Handle(m, msg, offset).runs)
    requires Place(m.runs, r, k) && StillRunning(Handle(m, msg, offset), r)
    ensures k' <= k && Place(Handle(m, msg, offset).runs, r, k')
  {
    var b := Handle(m, msg, offset).runs;
    RunsPersist(m, msg, offset);
    RunningIdsAre(m.runs, r);
    var i :| 0 <= i < |m.runs| && m.runs[i].id == r && m.runs[i].status == A.Running;
    var j :| 0 <= j < |b| && b[j].id == r && b[j].status == A.Running;
    assert SameRun(m.runs[i], b[i]);
    assert i == j;
    k' := PlaceImproves(m.runs, b, r, k);
  }

  /** No preemption: an active run stays active until it leaves `running`. */
  lemma ActiveStays(m: A.Model, msg: Msg, offset: int, r: int)
    requires DistinctIds(m.runs) && DistinctIds(Handle(m, msg, offset).runs)
    requires IsActive(m, r)
    ensures var runs := Handle(m, msg, offset).runs;
      || IsActive(Handle(m, msg, offset), r)
      || exists i :: 0 <= i < |m.runs| && runs[i].id == r && runs[i].status != A.Running
  {
    var b := Handle(m, msg, offset);
    RunsPersist(m, msg, offset);
    var k := PlaceOfActive(m, r);
    RunningIdsAre(m.runs, r);
    var i :| 0 <= i < |m.runs| && m.runs[i].id == r && m.runs[i].status == A.Running;
    assert SameRun(m.runs[i], b.runs[i]);
    if b.runs[i].status == A.Running {
      assert StillRunning(b, r);
      var k' := NeverOvertaken(m, msg, offset, r, k);
      ActiveByPlace(b, r, k');
    }
  }

  /** An active run is running, so its watcher is declared. */
  lemma ActiveIsWatched(m: Kasi.Model, r: int)
    requires IsActive(m.agents, r)
    ensures WatchKey(r) in Kasi.Sources(m)
  {
    var k := PlaceOfActive(m.agents, r);
    RunningIdsAre(m.agents.runs, r);
    var i :| 0 <= i < |m.agents.runs| && m.agents.runs[i].id == r && m.agents.runs[i].status == A.Running;
    assert S.Declares(m.agents.runs[i], S.ActiveOf(m));
    S.RunDeclared(m, WatchKey(r));
  }

  // ---------------------------------------------------------------- one task, one harness

  /** Every run of this task after index i, up to j, is a resume. */
  ghost predicate Resumed(runs: seq<A.AgentRun>, i: nat, j: nat)
    requires j < |runs|
  {
    forall k :: i < k <= j && runs[k].task == runs[j].task ==> runs[k].resume
  }

  /** A resumed run carries the harness of the earlier runs of its task. */
  ghost predicate Pinned(runs: seq<A.AgentRun>)
  {
    forall i, j :: 0 <= i < j < |runs| && runs[i].task == runs[j].task && Resumed(runs, i, j) ==>
      runs[i].harness == runs[j].harness
  }

  lemma {:induction false} PinIsLatest(runs: seq<A.AgentRun>, workerHarness: string, task: int, i: nat)
    requires i < |runs| && runs[i].task == task && forall k :: i < k < |runs| ==> runs[k].task != task
    ensures A.PinHarness(runs, workerHarness, task, true) == runs[i].harness
  {
    if i < |runs| - 1 {
      PinIsLatest(runs[..|runs| - 1], workerHarness, task, i);
    }
  }

  lemma {:induction false} LatestOf(runs: seq<A.AgentRun>, task: int, i: nat) returns (l: nat)
    requires i < |runs| && runs[i].task == task
    ensures i <= l < |runs| && runs[l].task == task && forall k :: l < k < |runs| ==> runs[k].task != task
  {
    var n := |runs| - 1;
    if runs[n].task == task {
      l := n;
    } else {
      l := LatestOf(runs[..n], task, i);
    }
  }

  /** The newest run's pin, when it is a resume. */
  lemma NewestPinned(a: seq<A.AgentRun>, x: A.AgentRun, workerHarness: string, i: nat)
    requires Pinned(a) && i < |a| && a[i].task == x.task
    requires x.harness == A.PinHarness(a, workerHarness, x.task, x.resume) && Resumed(a + [x], i, |a|)
    ensures a[i].harness == x.harness
  {
    var b := a + [x];
    assert b[|a|].resume;
    var l := LatestOf(a, x.task, i);
    PinIsLatest(a, workerHarness, x.task, l);
    if i < l {
      forall k | i < k <= l && a[k].task == a[l].task ensures a[k].resume {
        assert b[k] == a[k];
      }
      assert Resumed(a, i, l);
    }
  }

  /** A task cannot switch harness between turns: resumes keep the pin, whatever the setting says. */
  lemma SpawnKeepsPins(a: seq<A.AgentRun>, x: A.AgentRun, workerHarness: string)
    requires Pinned(a) && x.harness == A.PinHarness(a, workerHarness, x.task, x.resume)
    ensures Pinned(a + [x])
  {
    var b := a + [x];
    forall i, j | 0 <= i < j < |b| && b[i].task == b[j].task && Resumed(b, i, j) ensures b[i].harness == b[j].harness {
      if j < |a| {
        forall k | i < k <= j && a[k].task == a[j].task ensures a[k].resume {
          assert b[k] == a[k];
        }
        assert Resumed(a, i, j);
      } else {
        NewestPinned(a, x, workerHarness, i);
      }
    }
  }

  lemma PinsPersist(m: A.Model, msg: Msg, offset: int)
    requires Pinned(m.runs)
    ensures Pinned(Handle(m, msg, offset).runs)
  {
    var a, b := m.runs, Handle(m, msg, offset).runs;
    if msg.SpawnAgentRun? {
      SpawnKeepsPins(a, b[|a|], m.workerHarness);
    } else {
      RunsPersist(m, msg, offset);
      assert |a| == |b|;
      forall i, j | 0 <= i < j < |b| && b[i].task == b[j].task &&
        Resumed(b, i, j) ensures b[i].harness == b[j].harness {
        assert SameRun(a[i], b[i]) && SameRun(a[j], b[j]);
        forall k | i < k <= j && a[k].task == a[j].task ensures a[k].resume {
          assert SameRun(a[k], b[k]);
        }
        assert Resumed(a, i, j);
      }
    }
  }
}
