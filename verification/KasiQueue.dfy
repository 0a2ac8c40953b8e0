/**
 The concurrency cap over whole runs: a run that is active stays active for as long as it is running,
 and as long as it is running the runs ahead of it only become fewer, whatever else happens, crashes
 and restarts included. The cap is fixed by the configuration.
 */
module KasiQueue {
  import opened Runtime
  import opened RuntimeProofs
  import opened Messages
  import opened Kasi
  import opened KasiFacts
  import opened KasiInv
  import F = KasiFinish
  import Sch = Scheduler
  import Agents

  /** Run `r` has at most `k` running runs ahead of it, or has left `running`. */
  ghost predicate Ahead(m: Model, r: int, k: nat)
  {
    F.Left(m, r) || exists k' :: 0 <= k' <= k && Sch.Place(m.agents.runs, r, k')
  }

  lemma AheadAfter(m: Model, m': Model, n: nat, msg: Msg, r: int, k: nat)
    requires RunsOK(m.agents.runs, n) && RunsOK(m'.agents.runs, n + 1) && m' == ApplyOne(m, msg, n + 1).0
    requires Ahead(m, r, k)
    ensures Ahead(m', r, k)
  {
    F.AgentsOnly(m, msg, n + 1);
    F.RunsDistinct(m, n);
    F.RunsDistinct(m', n + 1);
    if F.Left(m, r) {
      F.LeftStays(m, msg, n + 1, r);
    } else {
      var k' :| 0 <= k' <= k && Sch.Place(m.agents.runs, r, k');
      if Sch.StillRunning(m'.agents, r) {
        var _ := Sch.NeverOvertaken(m.agents, msg, n + 1, r, k');
      } else {
        PlacedLeaves(m, m', msg, n + 1, r, k');
      }
    }
  }

  /** A placed run that is no longer running has left `running`. */
  lemma PlacedLeaves(m: Model, m': Model, msg: Msg, offset: int, r: int, k: nat)
    requires m'.agents == Sch.Handle(m.agents, msg, offset)
    requires Sch.Place(m.agents.runs, r, k) && !Sch.StillRunning(m'.agents, r)
    ensures F.Left(m', r)
  {
    Sch.RunsPersist(m.agents, msg, offset);
    Sch.RunningIdsAre(m.agents.runs, r);
    assert r in Sch.RunningIds(m.agents.runs);
    var i :| 0 <= i < |m.agents.runs| && m.agents.runs[i].id == r && m.agents.runs[i].status == Agents.Running;
    assert Sch.SameRun(m.agents.runs[i], m'.agents.runs[i]);
  }

  /** The same, of the model a state stands for. */
  ghost predicate HoldsPlace(c: Config, s: KState, r: int, k: nat)
  {
    Ahead(Denotes(c, s), r, k)
  }

  lemma PlaceStep(c: Config, s: KState, t: KStep, r: int, k: nat)
    requires KInv(c, s) && Enabled(System(c), s, t) && KInv(c, Next(System(c), s, t)) && HoldsPlace(c, s, r, k)
    ensures HoldsPlace(c, Next(System(c), s, t), r, k)
  {
    StepDenotes(c, s, t);
    if Completes(s, t) {
      DenotesApply(c, s);
      AheadAfter(Denotes(c, s), Fold(System(c), s.log), |Folded(s)|, s.phase.env.msg, r, k);
    }
  }

  lemma PlaceOverStep(c: Config, states: seq<KState>, steps: seq<KStep>, j: nat, r: int, k: nat)
    requires KRun(c, states, steps) && 0 < j < |states| && HoldsPlace(c, states[j - 1], r, k)
    ensures HoldsPlace(c, states[j], r, k)
  {
    RunStep(c, states, steps, j);
    KRunKeeps(c, states, steps, j);
    PlaceStep(c, states[j - 1], steps[j - 1], r, k);
  }

  lemma {:induction false} PlaceKept(c: Config, states: seq<KState>, steps: seq<KStep>, i: nat, j: nat, r: int, k: nat)
    requires KRun(c, states, steps) && i <= j < |states| && HoldsPlace(c, states[i], r, k)
    ensures HoldsPlace(c, states[j], r, k)
    decreases j - i
  {
    if i < j {
      PlaceKept(c, states, steps, i, j - 1, r, k);
      PlaceOverStep(c, states, steps, j, r, k);
    }
  }

  /** Nobody overtakes: a run still running has no more running runs ahead of it than it ever had. */
  lemma NeverOvertakenInRun(c: Config, states: seq<KState>, steps: seq<KStep>, i: nat, j: nat, r: int, k: nat)
    returns (k': nat)
    requires KRun(c, states, steps) && i <= j < |states|
    requires Sch.Place(Fold(System(c), Folded(states[i])).agents.runs, r, k)
    requires Sch.StillRunning(Fold(System(c), Folded(states[j])).agents, r)
    ensures k' <= k && Sch.Place(Fold(System(c), Folded(states[j])).agents.runs, r, k')
  {
    PlaceKept(c, states, steps, i, j, r, k);
    KRunKeeps(c, states, steps, j);
    var m := Denotes(c, states[j]);
    StillPlaced(m, |Folded(states[j])|, r, k);
    k' :| 0 <= k' <= k && Sch.Place(m.agents.runs, r, k');
  }

  lemma StillPlaced(m: Model, n: nat, r: int, k: nat)
    requires RunsOK(m.agents.runs, n) && Ahead(m, r, k) && Sch.StillRunning(m.agents, r)
    ensures exists k' :: 0 <= k' <= k && Sch.Place(m.agents.runs, r, k')
  {
    if F.Left(m, r) {
      F.LeftMeansNotRunning(m, n, r);
      assert false;
    }
  }

  /** No preemption: a run that is active and is still running later is still active then. */
  lemma NeverPreempted(c: Config, states: seq<KState>, steps: seq<KStep>, i: nat, j: nat, r: int)
    requires KRun(c, states, steps) && i <= j < |states|
    requires Sch.IsActive(Fold(System(c), Folded(states[i])).agents, r)
    requires Sch.StillRunning(Fold(System(c), Folded(states[j])).agents, r)
    ensures Sch.IsActive(Fold(System(c), Folded(states[j])).agents, r)
  {
    var k := Sch.PlaceOfActive(Denotes(c, states[i]).agents, r);
    var k' := NeverOvertakenInRun(c, states, steps, i, j, r, k);
    CapIsFixed(c, states, steps, i);
    CapIsFixed(c, states, steps, j);
    Sch.ActiveByPlace(Denotes(c, states[j]).agents, r, k');
  }

  lemma CapIsFixed(c: Config, states: seq<KState>, steps: seq<KStep>, i: nat)
    requires KRun(c, states, steps) && i < |states|
    ensures Denotes(c, states[i]).agents.maxConcurrent == c.maxConcurrent
  {
    KRunKeeps(c, states, steps, i);
  }
}
