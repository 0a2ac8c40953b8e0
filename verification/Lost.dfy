/**
 What a crash loses, exactly, for an arbitrary program: a message that a handler sent is in the log of a
 settled state if and only if no crash hit after its cause was logged and before it was logged itself.
 */
module Lost {
  import opened Prelude
  import opened Runtime
  import opened RuntimeProofs
  import opened Performed

  // ---------------------------------------------------------------- after a crash

  /** Nothing, or something logged after the first `n` messages. */
  predicate Later(cause: nat, n: nat)
  {
    cause == 0 || cause > n
  }

  ghost predicate SlotLater<Id, Msg, Loc>(x: Slot<Id, Msg, Loc>, n: nat)
  {
    (x.transit.Some? ==> Later(x.transit.value.cause, n)) && (x.kind.Effect? && x.run.Some? ==> x.kind.cause > n)
  }

  /** Since the log had `n` messages nothing has been caused by any of those: not in flight, and not logged since. */
  ghost predicate CausedLater<M, Id, Msg, Cmd, Loc, W>(s: State<M, Id, Msg, Cmd, Loc, W>, n: nat)
  {
    && n <= |s.log|
    && (forall q :: n <= q < |s.log| ==> Later(s.log[q].cause, n))
    && (forall i :: 0 <= i < |s.inbox| ==> Later(s.inbox[i].cause, n))
    && (forall k :: 0 <= k < |s.slots| ==> SlotLater(s.slots[k], n))
    && (s.phase.Taken? ==> Later(s.phase.env.cause, n))
    && (s.phase.Applying? ==> |s.log| > n)
    && (s.phase.Interpreting? ==> s.phase.offset > n && (s.phase.own.Some? ==> s.phase.own.value.cause > n))
  }

  lemma BornLater<Id(!new), Msg, Loc>(a: seq<Slot<Id, Msg, Loc>>, b: seq<Slot<Id, Msg, Loc>>, added: seq<Id>,
      declared: map<Id, Source<Loc>>, n: nat)
    requires BornInOrder(b, |a|, added, declared) && forall k :: 0 <= k < |a| ==> SlotLater(a[k], n)
    requires forall k :: 0 <= k < |a| ==> b[k] == a[k].(waiter := b[k].waiter)
    ensures forall k :: 0 <= k < |b| ==> SlotLater(b[k], n)
  {
    forall k | 0 <= k < |b| ensures SlotLater(b[k], n) {
      if k >= |a| {
        var i := k - |a|;
        assert b[|a| + i] == Born(added[i], declared[added[i]]);
      }
    }
  }

  lemma GoroutineLater<M, Id(!new), Msg, Cmd, Loc, W>(p: Program<M, Id, Msg, Cmd, Loc, W>,
      s: State<M, Id, Msg, Cmd, Loc, W>, t: Step<Id, Msg, Loc, W>, n: nat)
    requires Inv(p, s) && Enabled(p, s, t) && CausedLater(s, n) && GoroutineStep(t)
    ensures CausedLater(Next(p, s, t), n)
  {
    if t.Call? {
      CallLater(p, s, t, n);
    } else {
      assert SlotLater(s.slots[t.k], n);
      GoroutineStepShape(p, s, t);
    }
  }

  lemma CallLater<M, Id(!new), Msg, Cmd, Loc, W>(p: Program<M, Id, Msg, Cmd, Loc, W>,
      s: State<M, Id, Msg, Cmd, Loc, W>, t: Step<Id, Msg, Loc, W>, n: nat)
    requires Enabled(p, s, t) && CausedLater(s, n) && t.Call?
    ensures CausedLater(Next(p, s, t), n)
  {
  }

  lemma ReducerLater<M, Id(!new), Msg, Cmd, Loc, W>(p: Program<M, Id, Msg, Cmd, Loc, W>,
      s: State<M, Id, Msg, Cmd, Loc, W>, t: Step<Id, Msg, Loc, W>, n: nat)
    requires Inv(p, s) && Enabled(p, s, t) && CausedLater(s, n) && ReducerStep(t)
    ensures CausedLater(Next(p, s, t), n)
  {
  }

  lemma StepLater<M, Id(!new), Msg, Cmd, Loc, W>(p: Program<M, Id, Msg, Cmd, Loc, W>,
      s: State<M, Id, Msg, Cmd, Loc, W>, t: Step<Id, Msg, Loc, W>, n: nat)
    requires Inv(p, s) && Enabled(p, s, t) && CausedLater(s, n)
    ensures CausedLater(Next(p, s, t), n)
  {
    if t.Diff? || t.BootDiff? {
      ReconcileMeansDeclared(p, s, t.gone, t.added);
      BornLater(s.slots, Next(p, s, t).slots, t.added, p.sources(s.model), n);
    } else if GoroutineStep(t) {
      GoroutineLater(p, s, t, n);
    } else if ReducerStep(t) {
      ReducerLater(p, s, t, n);
    }
  }

  /** Once the process has crashed, nothing that was logged before causes anything any more. */
  lemma {:induction false} AfterCrash<M, Id(!new), Msg, Cmd, Loc, W>(p: Program<M, Id, Msg, Cmd, Loc, W>,
      states: seq<State<M, Id, Msg, Cmd, Loc, W>>, steps: seq<Step<Id, Msg, Loc, W>>, k: nat, i: nat)
    requires IsRun(p, states, steps) && k < i < |states| && steps[k].Crash?
    ensures CausedLater(states[i], |states[k].log|)
    decreases i
  {
    RunKeeps(p, states, steps, i - 1);
    assert Takes(p, states, steps, i - 1);
    if i > k + 1 {
      AfterCrash(p, states, steps, k, i - 1);
      StepLater(p, states[i - 1], steps[i - 1], |states[k].log|);
    }
  }

  // ---------------------------------------------------------------- which boot a state is in

  /** The process is up: it was started, and has not crashed since. */
  lemma {:induction false} CurrentBoot<M, Id(!new), Msg, Cmd, Loc, W>(p: Program<M, Id, Msg, Cmd, Loc, W>,
      states: seq<State<M, Id, Msg, Cmd, Loc, W>>, steps: seq<Step<Id, Msg, Loc, W>>, i: nat) returns (b: nat)
    requires IsRun(p, states, steps) && i < |states| && states[i].live
    ensures Boot(steps, b, i)
    decreases i
  {
    RunKeeps(p, states, steps, i - 1);
    assert Takes(p, states, steps, i - 1);
    if steps[i - 1].Restart? {
      b := i;
    } else {
      LiveBefore(p, states[i - 1], steps[i - 1]);
      b := CurrentBoot(p, states, steps, i - 1);
    }
  }

  lemma LiveBefore<M, Id(!new), Msg, Cmd, Loc, W>(p: Program<M, Id, Msg, Cmd, Loc, W>,
      s: State<M, Id, Msg, Cmd, Loc, W>, t: Step<Id, Msg, Loc, W>)
    requires Inv(p, s) && Enabled(p, s, t) && Next(p, s, t).live && !t.Restart?
    ensures s.live && !t.Crash?
  {
  }

  /** A process that is down has the log it crashed with, or never wrote one. */
  lemma {:induction false} DownSince<M, Id(!new), Msg, Cmd, Loc, W>(p: Program<M, Id, Msg, Cmd, Loc, W>,
      states: seq<State<M, Id, Msg, Cmd, Loc, W>>, steps: seq<Step<Id, Msg, Loc, W>>, i: nat)
    requires IsRun(p, states, steps) && i < |states| && !states[i].live
    ensures states[i].log == [] || exists k :: 0 <= k < i && steps[k].Crash? && states[k].log == states[i].log
  {
    if i > 0 {
      RunKeeps(p, states, steps, i - 1);
      assert Takes(p, states, steps, i - 1);
      if !steps[i - 1].Crash? {
        DownStays(p, states[i - 1], steps[i - 1]);
        DownSince(p, states, steps, i - 1);
      }
    }
  }

  lemma DownStays<M, Id(!new), Msg, Cmd, Loc, W>(p: Program<M, Id, Msg, Cmd, Loc, W>,
      s: State<M, Id, Msg, Cmd, Loc, W>, t: Step<Id, Msg, Loc, W>)
    requires Inv(p, s) && Enabled(p, s, t) && !Next(p, s, t).live && !t.Crash?
    ensures !s.live && Next(p, s, t).log == s.log
  {
    if s.live { StaysLive(p, s, t); }
  }

  // ---------------------------------------------------------------- the theorem

  /** A crash at step `k` found the cause logged and this envelope not. */
  ghost predicate CutOff<M, Id, Msg, Cmd, Loc, W>(states: seq<State<M, Id, Msg, Cmd, Loc, W>>,
      steps: seq<Step<Id, Msg, Loc, W>>, k: nat, e: Envelope<Msg>)
    requires |states| == |steps| + 1 && k < |steps|
  {
    steps[k].Crash? && e.cause <= |states[k].log| && e !in states[k].log
  }

  /** A crash between a cause and its logging loses the envelope for good. */
  lemma CutOffIsLost<M, Id(!new), Msg, Cmd, Loc, W>(p: Program<M, Id, Msg, Cmd, Loc, W>,
      states: seq<State<M, Id, Msg, Cmd, Loc, W>>, steps: seq<Step<Id, Msg, Loc, W>>, k: nat, i: nat, e: Envelope<Msg>)
    requires IsRun(p, states, steps) && k < i < |states| && 0 < e.cause && CutOff(states, steps, k, e)
    ensures e !in states[i].log
  {
    AfterCrash(p, states, steps, k, i);
    LogIsAppendOnly(p, states, steps, k, i);
    forall q | 0 <= q < |states[i].log| ensures states[i].log[q] != e {
      if q < |states[k].log| { assert states[i].log[q] == states[k].log[q]; }
    }
  }

  /** What was logged at a crash, or has been applied since the last start, has its answer in the log. */
  lemma LoggedUnlessCutOff<M, Id(!new), Msg, Cmd, Loc, W>(p: Program<M, Id, Msg, Cmd, Loc, W>,
      states: seq<State<M, Id, Msg, Cmd, Loc, W>>, steps: seq<Step<Id, Msg, Loc, W>>, i: nat, n: nat, j: nat)
    requires IsRun(p, states, steps) && i < |states| && states[i].live && states[i].pending == 0
    requires n < |states[i].log| && j < |AnswerTo(p, states[i].log, n)| && AnswerTo(p, states[i].log, n)[j].Send?
    requires var e := Envelope(AnswerTo(p, states[i].log, n)[j].msg, n + 1);
      forall k :: 0 <= k < i ==> !CutOff(states, steps, k, e)
    ensures Envelope(AnswerTo(p, states[i].log, n)[j].msg, n + 1) in states[i].log
  {
    var e := Envelope(AnswerTo(p, states[i].log, n)[j].msg, n + 1);
    var b := CurrentBoot(p, states, steps, i);
    if |states[b].log| <= n {
      SettledMeansPerformed(p, states, steps, b, i, n, j);
    } else {
      LoggedBefore(p, states, steps, b, i, e);
    }
  }

  /** The boot began with the cause in the log, so a crash had found the envelope there too. */
  lemma LoggedBefore<M, Id(!new), Msg, Cmd, Loc, W>(p: Program<M, Id, Msg, Cmd, Loc, W>,
      states: seq<State<M, Id, Msg, Cmd, Loc, W>>, steps: seq<Step<Id, Msg, Loc, W>>, b: nat, i: nat, e: Envelope<Msg>)
    requires IsRun(p, states, steps) && i < |states| && Boot(steps, b, i) && 0 < e.cause <= |states[b].log|
    requires forall k :: 0 <= k < i ==> !CutOff(states, steps, k, e)
    ensures e in states[i].log
  {
    RunKeeps(p, states, steps, b - 1);
    assert Takes(p, states, steps, b - 1);
    DownSince(p, states, steps, b - 1);
    var k :| 0 <= k < b - 1 && steps[k].Crash? && states[k].log == states[b - 1].log;
    assert !CutOff(states, steps, k, e);
    LogIsAppendOnly(p, states, steps, k, i);
  }

  /**
   A message that the answer to message `n` sent is in the log of a settled state exactly if no crash found its
   cause logged and it not.
   */
  lemma AnswerLoggedIff<M, Id(!new), Msg, Cmd, Loc, W>(p: Program<M, Id, Msg, Cmd, Loc, W>,
      states: seq<State<M, Id, Msg, Cmd, Loc, W>>, steps: seq<Step<Id, Msg, Loc, W>>, i: nat, n: nat, j: nat)
    requires IsRun(p, states, steps) && i < |states| && states[i].live && states[i].pending == 0
    requires n < |states[i].log| && j < |AnswerTo(p, states[i].log, n)| && AnswerTo(p, states[i].log, n)[j].Send?
    ensures var e := Envelope(AnswerTo(p, states[i].log, n)[j].msg, n + 1);
      e in states[i].log <==> forall k :: 0 <= k < i ==> !CutOff(states, steps, k, e)
  {
    var e := Envelope(AnswerTo(p, states[i].log, n)[j].msg, n + 1);
    if k :| 0 <= k < i && CutOff(states, steps, k, e) {
      CutOffIsLost(p, states, steps, k, i, e);
    } else {
      LoggedUnlessCutOff(p, states, steps, i, n, j);
    }
  }
}
