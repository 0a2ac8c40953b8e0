/**
 Nothing a handler asks for is dropped, for an arbitrary program: once a boot has settled, every send
 returned for a message applied in that boot is in the log, naming that message as its cause, and every
 command was started in a goroutine of its own. Only a crash forgets an answer.
 */
module Performed {
  import opened Prelude
  import opened Runtime
  import opened RuntimeProofs

  /** What the message at index `n` was answered with. */
  function AnswerTo<M, Id, Msg, Cmd, Loc, W>(p: Program<M, Id, Msg, Cmd, Loc, W>, log: seq<Envelope<Msg>>,
      n: nat): seq<Out<Msg, Cmd>>
    requires n < |log|
  {
    ApplyMsg(p, Fold(p, log[..n]), log[n].msg, n + 1).1
  }

  /** The envelope is logged, in the reducer's hands, or queued. */
  ghost predicate Arrived<M, Id, Msg, Cmd, Loc, W>(s: State<M, Id, Msg, Cmd, Loc, W>, e: Envelope<Msg>)
  {
    || e in s.log || e in s.inbox
    || (s.phase.Taken? && s.phase.env == e)
    || (s.phase.Interpreting? && s.phase.own == Some(e))
  }

  /** Between states `b` and `i` a goroutine was started at `l` for the message with offset `n`. */
  ghost predicate StartedAt<M, Id, Msg, Cmd, Loc, W>(states: seq<State<M, Id, Msg, Cmd, Loc, W>>, b: nat, i: nat,
      n: nat, l: Loc)
    requires i < |states|
  {
    exists j: nat, q: nat {:trigger states[j].slots[q]} :: b < j <= i && q < |states[j].slots| &&
      states[j].slots[q] == Slot(Effect(n), Some(l), None, false)
  }

  /** One item of the answer to the message with offset `n` has been carried out. */
  ghost predicate Done<M, Id, Msg, Cmd, Loc, W>(p: Program<M, Id, Msg, Cmd, Loc, W>,
      states: seq<State<M, Id, Msg, Cmd, Loc, W>>, b: nat, i: nat, n: nat, out: Out<Msg, Cmd>)
    requires i < |states|
  {
    match out
    case Send(x) => Arrived(states[i], Envelope(x, n))
    case Do(cmd) => p.begin(cmd).Some? ==> StartedAt(states, b, i, n, p.begin(cmd).value)
  }

  /** The first `k` items of the answer have been carried out. */
  ghost predicate DoneUpTo<M, Id, Msg, Cmd, Loc, W>(p: Program<M, Id, Msg, Cmd, Loc, W>,
      states: seq<State<M, Id, Msg, Cmd, Loc, W>>, b: nat, i: nat, n: nat, outs: seq<Out<Msg, Cmd>>, k: nat)
    requires i < |states| && k <= |outs|
  {
    forall j :: 0 <= j < k ==> Done(p, states, b, i, n, outs[j])
  }

  /** So far `k` items of the answer to the message at index `n` have been carried out, the others are to come. */
  ghost predicate Halfway<M, Id, Msg, Cmd, Loc, W>(p: Program<M, Id, Msg, Cmd, Loc, W>,
      states: seq<State<M, Id, Msg, Cmd, Loc, W>>, b: nat, i: nat, n: nat, outs: seq<Out<Msg, Cmd>>,
      todo: seq<Out<Msg, Cmd>>, k: nat)
    requires i < |states|
  {
    k <= |outs| && todo == outs[k..] && DoneUpTo(p, states, b, i, n + 1, outs, k)
  }

  /** The answer to the message at index `n`: carried out, or being interpreted and carried out so far. */
  ghost predicate Underway<M, Id, Msg, Cmd, Loc, W>(p: Program<M, Id, Msg, Cmd, Loc, W>,
      states: seq<State<M, Id, Msg, Cmd, Loc, W>>, b: nat, i: nat, n: nat)
    requires i < |states| && n < |states[i].log|
  {
    var s, outs := states[i], AnswerTo(p, states[i].log, n);
    if s.phase.Interpreting? && n == |s.log| - 1 then
      exists k: nat :: Halfway(p, states, b, i, n, outs, s.phase.todo, k)
    else DoneUpTo(p, states, b, i, n + 1, outs, |outs|)
  }

  ghost predicate AllUnderway<M, Id, Msg, Cmd, Loc, W>(p: Program<M, Id, Msg, Cmd, Loc, W>,
      states: seq<State<M, Id, Msg, Cmd, Loc, W>>, b: nat, i: nat, from: nat)
    requires i < |states|
  {
    && from <= |Folded(states[i])| <= |states[i].log| && (states[i].phase.Interpreting? ==> from < |states[i].log|)
    && forall n: nat :: from <= n < |Folded(states[i])| ==> Underway(p, states, b, i, n)
  }

  // ---------------------------------------------------------------- what is done stays done

  lemma ArrivedStays<M, Id(!new), Msg, Cmd, Loc, W>(p: Program<M, Id, Msg, Cmd, Loc, W>,
      s: State<M, Id, Msg, Cmd, Loc, W>, t: Step<Id, Msg, Loc, W>, e: Envelope<Msg>)
    requires Inv(p, s) && Enabled(p, s, t) && !t.Crash? && Arrived(s, e)
    ensures Arrived(Next(p, s, t), e)
  {
    if t.Diff? || t.BootDiff? {
      ReconcileMeansDeclared(p, s, t.gone, t.added);
    } else if t.Take? {
      assert s.inbox == [s.inbox[0]] + s.inbox[1..];
    }
  }

  lemma StartedStays<M, Id, Msg, Cmd, Loc, W>(states: seq<State<M, Id, Msg, Cmd, Loc, W>>, b: nat, i: nat, i': nat,
      n: nat, l: Loc)
    requires i <= i' < |states| && StartedAt(states, b, i, n, l)
    ensures StartedAt(states, b, i', n, l)
  {
  }

  lemma DoneStays<M, Id(!new), Msg, Cmd, Loc, W>(p: Program<M, Id, Msg, Cmd, Loc, W>,
      states: seq<State<M, Id, Msg, Cmd, Loc, W>>, steps: seq<Step<Id, Msg, Loc, W>>, b: nat, i: nat, n: nat,
      outs: seq<Out<Msg, Cmd>>, k: nat)
    requires |states| == |steps| + 1 && 0 < i < |states| && k <= |outs| && Takes(p, states, steps, i - 1)
    requires Inv(p, states[i - 1]) && !steps[i - 1].Crash? && DoneUpTo(p, states, b, i - 1, n, outs, k)
    ensures DoneUpTo(p, states, b, i, n, outs, k)
  {
    forall j | 0 <= j < k ensures Done(p, states, b, i, n, outs[j]) {
      assert Done(p, states, b, i - 1, n, outs[j]);
      match outs[j]
      case Send(x) => ArrivedStays(p, states[i - 1], steps[i - 1], Envelope(x, n));
      case Do(cmd) => if p.begin(cmd).Some? { StartedStays(states, b, i - 1, i, n, p.begin(cmd).value); }
    }
  }

  /** Interpreting the next item carries it out. */
  lemma InterpretDoes<M, Id(!new), Msg, Cmd, Loc, W>(p: Program<M, Id, Msg, Cmd, Loc, W>,
      states: seq<State<M, Id, Msg, Cmd, Loc, W>>, steps: seq<Step<Id, Msg, Loc, W>>, b: nat, i: nat)
    requires |states| == |steps| + 1 && b < i < |states| && Takes(p, states, steps, i - 1) && steps[i - 1].Interpret?
    ensures var s := states[i - 1]; Done(p, states, b, i, s.phase.offset, s.phase.todo[0])
  {
    var s, r := states[i - 1], states[i];
    var out := s.phase.todo[0];
    if out.Do? && p.begin(out.cmd).Some? {
      assert r.slots[|s.slots|] == Slot(Effect(s.phase.offset), Some(p.begin(out.cmd).value), None, false);
    }
  }

  // ---------------------------------------------------------------- each step

  lemma AnswerStays<M, Id, Msg, Cmd, Loc, W>(p: Program<M, Id, Msg, Cmd, Loc, W>, log: seq<Envelope<Msg>>,
      more: seq<Envelope<Msg>>, n: nat)
    requires log <= more && n < |log|
    ensures AnswerTo(p, more, n) == AnswerTo(p, log, n)
  {
    assert more[..n] == log[..n];
  }

  lemma InterpretUnderway<M, Id(!new), Msg, Cmd, Loc, W>(p: Program<M, Id, Msg, Cmd, Loc, W>,
      states: seq<State<M, Id, Msg, Cmd, Loc, W>>, steps: seq<Step<Id, Msg, Loc, W>>, b: nat, i: nat)
    requires |states| == |steps| + 1 && b < i < |states| && Takes(p, states, steps, i - 1) && steps[i - 1].Interpret?
    requires Inv(p, states[i - 1]) && states[i - 1].log != []
    requires Underway(p, states, b, i - 1, |states[i - 1].log| - 1)
    ensures states[i].log == states[i - 1].log && Underway(p, states, b, i, |states[i].log| - 1)
  {
    var s, r, n := states[i - 1], states[i], |states[i].log| - 1;
    var outs := AnswerTo(p, s.log, n);
    var k: nat :| Halfway(p, states, b, i - 1, n, outs, s.phase.todo, k);
    DoneStays(p, states, steps, b, i, n + 1, outs, k);
    InterpretDoes(p, states, steps, b, i);
    InterpretMoves(p, s);
    OneMoreDone(p, states, b, i, n, outs, s.phase.todo, k);
    assert r.phase.todo == s.phase.todo[1..];
  }

  lemma OneMoreDone<M, Id, Msg, Cmd, Loc, W>(p: Program<M, Id, Msg, Cmd, Loc, W>,
      states: seq<State<M, Id, Msg, Cmd, Loc, W>>, b: nat, i: nat, n: nat, outs: seq<Out<Msg, Cmd>>,
      todo: seq<Out<Msg, Cmd>>, k: nat)
    requires i < |states| && todo != [] && Halfway(p, states, b, i, n, outs, todo, k)
    requires Done(p, states, b, i, n + 1, todo[0])
    ensures Halfway(p, states, b, i, n, outs, todo[1..], k + 1)
  {
    assert outs[k] == todo[0] && outs[k + 1..] == todo[1..];
  }

  lemma InterpretMoves<M, Id(!new), Msg, Cmd, Loc, W>(p: Program<M, Id, Msg, Cmd, Loc, W>,
      s: State<M, Id, Msg, Cmd, Loc, W>)
    requires Enabled(p, s, Interpret)
    ensures var r := Next(p, s, Interpret); r.log == s.log && r.phase.Interpreting? && r.phase.todo == s.phase.todo[1..]
  {
  }

  /** Applying starts an answer, reconciling ends it. */
  lemma ApplyUnderway<M, Id(!new), Msg, Cmd, Loc, W>(p: Program<M, Id, Msg, Cmd, Loc, W>,
      states: seq<State<M, Id, Msg, Cmd, Loc, W>>, steps: seq<Step<Id, Msg, Loc, W>>, b: nat, i: nat)
    requires |states| == |steps| + 1 && b < i < |states| && Takes(p, states, steps, i - 1) && steps[i - 1].Apply?
    requires Inv(p, states[i - 1])
    ensures states[i].log == states[i - 1].log && Underway(p, states, b, i, |states[i].log| - 1)
  {
    var s, n := states[i - 1], |states[i - 1].log| - 1;
    var outs := AnswerTo(p, s.log, n);
    assert s.model == Fold(p, s.log[..n]) && s.log[n] == s.phase.env;
    assert states[i].phase.todo == outs[0..];
    assert Halfway(p, states, b, i, n, outs, states[i].phase.todo, 0);
  }

  lemma DiffUnderway<M, Id(!new), Msg, Cmd, Loc, W>(p: Program<M, Id, Msg, Cmd, Loc, W>,
      states: seq<State<M, Id, Msg, Cmd, Loc, W>>, steps: seq<Step<Id, Msg, Loc, W>>, b: nat, i: nat)
    requires |states| == |steps| + 1 && b < i < |states| && Takes(p, states, steps, i - 1) && steps[i - 1].Diff?
    requires Inv(p, states[i - 1]) && states[i - 1].log != []
    requires Underway(p, states, b, i - 1, |states[i - 1].log| - 1)
    ensures states[i].log == states[i - 1].log && Underway(p, states, b, i, |states[i].log| - 1)
  {
    var s, n := states[i - 1], |states[i - 1].log| - 1;
    var outs := AnswerTo(p, s.log, n);
    ReconcileMeansDeclared(p, s, steps[i - 1].gone, steps[i - 1].added);
    var k: nat :| Halfway(p, states, b, i - 1, n, outs, s.phase.todo, k);
    DoneStays(p, states, steps, b, i, n + 1, outs, k);
    assert k == |outs|;
  }

  /** A finished answer stays finished. */
  lemma FinishedUnderway<M, Id(!new), Msg, Cmd, Loc, W>(p: Program<M, Id, Msg, Cmd, Loc, W>,
      states: seq<State<M, Id, Msg, Cmd, Loc, W>>, steps: seq<Step<Id, Msg, Loc, W>>, b: nat, i: nat, n: nat)
    requires |states| == |steps| + 1 && b < i < |states| && Takes(p, states, steps, i - 1)
    requires Inv(p, states[i - 1]) && !steps[i - 1].Crash? && states[i - 1].log <= states[i].log
    requires n < |states[i - 1].log| && Underway(p, states, b, i - 1, n)
    requires !(states[i - 1].phase.Interpreting? && n == |states[i - 1].log| - 1)
    requires !(states[i].phase.Interpreting? && n == |states[i].log| - 1)
    ensures Underway(p, states, b, i, n)
  {
    var outs := AnswerTo(p, states[i - 1].log, n);
    AnswerStays(p, states[i - 1].log, states[i].log, n);
    DoneStays(p, states, steps, b, i, n + 1, outs, |outs|);
  }

  /** An answer being interpreted is left as it is by every step that does not interpret it. */
  lemma SameUnderway<M, Id(!new), Msg, Cmd, Loc, W>(p: Program<M, Id, Msg, Cmd, Loc, W>,
      states: seq<State<M, Id, Msg, Cmd, Loc, W>>, steps: seq<Step<Id, Msg, Loc, W>>, b: nat, i: nat)
    requires |states| == |steps| + 1 && b < i < |states| && Takes(p, states, steps, i - 1)
    requires Inv(p, states[i - 1]) && !steps[i - 1].Crash?
    requires states[i - 1].log != [] && states[i].log == states[i - 1].log
    requires states[i - 1].phase.Interpreting? && states[i].phase.Interpreting?
    requires states[i].phase.todo == states[i - 1].phase.todo
    requires Underway(p, states, b, i - 1, |states[i].log| - 1)
    ensures Underway(p, states, b, i, |states[i].log| - 1)
  {
    var s, n := states[i - 1], |states[i - 1].log| - 1;
    var outs := AnswerTo(p, s.log, n);
    var k: nat :| Halfway(p, states, b, i - 1, n, outs, s.phase.todo, k);
    DoneStays(p, states, steps, b, i, n + 1, outs, k);
    assert Halfway(p, states, b, i, n, outs, states[i].phase.todo, k);
  }

  /** How log and phase move within a boot. */
  lemma PhaseMoves<M, Id(!new), Msg, Cmd, Loc, W>(p: Program<M, Id, Msg, Cmd, Loc, W>,
      s: State<M, Id, Msg, Cmd, Loc, W>, t: Step<Id, Msg, Loc, W>)
    requires Inv(p, s) && s.live && Enabled(p, s, t) && !t.Crash?
    ensures var r := Next(p, s, t);
      && s.log <= r.log && |Folded(r)| <= |r.log|
      && |Folded(r)| == (if t.Apply? then |Folded(s)| + 1 else |Folded(s)|)
      && (s.phase.Interpreting? ==> |Folded(s)| == |s.log| && r.log == s.log)
      && (s.phase.Interpreting? && !t.Interpret? && !t.Diff? ==> r.phase.Interpreting? && r.phase.todo == s.phase.todo)
      && (r.phase.Interpreting? ==> |Folded(r)| == |r.log| && (s.phase.Interpreting? || t.Apply?))
  {
    if t.Diff? || t.BootDiff? {
      ReconcileMeansDeclared(p, s, t.gone, t.added);
    } else if GoroutineStep(t) && !t.Call? {
      GoroutineStepShape(p, s, t);
    }
  }

  lemma StepUnderway<M, Id(!new), Msg, Cmd, Loc, W>(p: Program<M, Id, Msg, Cmd, Loc, W>,
      states: seq<State<M, Id, Msg, Cmd, Loc, W>>, steps: seq<Step<Id, Msg, Loc, W>>, b: nat, i: nat, from: nat, n: nat)
    requires |states| == |steps| + 1 && b < i < |states| && Takes(p, states, steps, i - 1)
    requires Inv(p, states[i - 1]) && states[i - 1].live && !steps[i - 1].Crash?
    requires AllUnderway(p, states, b, i - 1, from) && from <= n < |Folded(states[i])| <= |states[i].log|
    ensures Underway(p, states, b, i, n)
  {
    var s, t := states[i - 1], steps[i - 1];
    PhaseMoves(p, s, t);
    if t.Apply? && n == |s.log| - 1 {
      ApplyUnderway(p, states, steps, b, i);
    } else if s.phase.Interpreting? && n == |s.log| - 1 {
      assert Underway(p, states, b, i - 1, n);
      if t.Interpret? {
        InterpretUnderway(p, states, steps, b, i);
      } else if t.Diff? {
        DiffUnderway(p, states, steps, b, i);
      } else {
        SameUnderway(p, states, steps, b, i);
      }
    } else {
      assert Underway(p, states, b, i - 1, n);
      FinishedUnderway(p, states, steps, b, i, n);
    }
  }

  lemma UnderwayOverStep<M, Id(!new), Msg, Cmd, Loc, W>(p: Program<M, Id, Msg, Cmd, Loc, W>,
      states: seq<State<M, Id, Msg, Cmd, Loc, W>>, steps: seq<Step<Id, Msg, Loc, W>>, b: nat, i: nat, from: nat)
    requires |states| == |steps| + 1 && b < i < |states| && Takes(p, states, steps, i - 1)
    requires Inv(p, states[i - 1]) && states[i - 1].live && !steps[i - 1].Crash?
    requires AllUnderway(p, states, b, i - 1, from)
    ensures AllUnderway(p, states, b, i, from)
  {
    PhaseMoves(p, states[i - 1], steps[i - 1]);
    forall n: nat | from <= n < |Folded(states[i])| ensures Underway(p, states, b, i, n) {
      StepUnderway(p, states, steps, b, i, from, n);
    }
  }

  // ---------------------------------------------------------------- one boot

  lemma {:induction false} BootUnderway<M, Id(!new), Msg, Cmd, Loc, W>(p: Program<M, Id, Msg, Cmd, Loc, W>,
      states: seq<State<M, Id, Msg, Cmd, Loc, W>>, steps: seq<Step<Id, Msg, Loc, W>>, b: nat, i: nat)
    requires IsRun(p, states, steps) && i < |states| && Boot(steps, b, i)
    ensures states[i].live && AllUnderway(p, states, b, i, |states[b].log|)
    decreases i
  {
    RunKeeps(p, states, steps, i - 1);
    assert Takes(p, states, steps, i - 1);
    if i > b {
      BootUnderway(p, states, steps, b, i - 1);
      StaysLive(p, states[i - 1], steps[i - 1]);
      UnderwayOverStep(p, states, steps, b, i, |states[b].log|);
    }
  }

  /**
   In a settled state every item of every answer given in this boot has been carried out: what was sent
   is logged with the offset of the message that sent it, and what was commanded was started.
   */
  lemma SettledMeansPerformed<M, Id(!new), Msg, Cmd, Loc, W>(p: Program<M, Id, Msg, Cmd, Loc, W>,
      states: seq<State<M, Id, Msg, Cmd, Loc, W>>, steps: seq<Step<Id, Msg, Loc, W>>, b: nat, i: nat, n: nat, k: nat)
    requires IsRun(p, states, steps) && i < |states| && Boot(steps, b, i) && states[i].pending == 0
    requires |states[b].log| <= n < |states[i].log| && k < |AnswerTo(p, states[i].log, n)|
    ensures var out := AnswerTo(p, states[i].log, n)[k];
      && (out.Send? ==> Envelope(out.msg, n + 1) in states[i].log)
      && (out.Do? && p.begin(out.cmd).Some? ==> StartedAt(states, b, i, n + 1, p.begin(out.cmd).value))
  {
    BootUnderway(p, states, steps, b, i);
    RunKeeps(p, states, steps, i);
    PendingZeroIffQuiet(p, states[i]);
    assert Underway(p, states, b, i, n);
    assert Done(p, states, b, i, n + 1, AnswerTo(p, states[i].log, n)[k]);
  }
}
