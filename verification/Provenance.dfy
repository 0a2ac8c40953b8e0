/**
 Where every message comes from, for an arbitrary program. An envelope's cause is the offset of the
 message whose handler or effect produced it, and 0 for what a source or a caller sent. A protocol says
 which message may produce which, in which model; the step machine keeps it true of every envelope and
 every goroutine.
 */
module Provenance {
  import opened Prelude
  import opened Runtime
  import opened RuntimeProofs

  /**
   What may come from where. The model is the one a message found, the number its offset.
     sends    a message may send this one, by its handler or by an effect it started
     starts   an effect it started may be here
     bodies   a source's body may be here
     free     a source or a caller may send this one
   */
  datatype Origin<!M, !Msg, !Loc> = Origin(
    sends: (M, nat, Msg, Msg) -> bool,
    starts: (M, nat, Msg, Loc) -> bool,
    bodies: Loc -> bool,
    free: Msg -> bool)

  ghost predicate OutTraced<M, Id, Msg, Cmd, Loc, W>(p: Program<M, Id, Msg, Cmd, Loc, W>, o: Origin<M, Msg, Loc>, m: M,
      n: nat, msg: Msg, out: Out<Msg, Cmd>)
  {
    match out
    case Send(x) => o.sends(m, n, msg, x)
    case Do(cmd) => p.begin(cmd).Some? ==> o.starts(m, n, msg, p.begin(cmd).value)
  }

  ghost predicate OutsTraced<M, Id, Msg, Cmd, Loc, W>(p: Program<M, Id, Msg, Cmd, Loc, W>, o: Origin<M, Msg, Loc>,
      m: M, n: nat, msg: Msg, outs: seq<Out<Msg, Cmd>>)
  {
    forall i :: 0 <= i < |outs| ==> OutTraced(p, o, m, n, msg, outs[i])
  }

  /** One step of edge code goes where its origin allows, and emits what its origin allows. */
  ghost predicate EdgeTraced<M(!new), Msg(!new), Loc>(o: Origin<M, Msg, Loc>, l: Loc, l': Loc, emit: Option<Msg>)
  {
    && (forall m, n: nat, msg :: o.starts(m, n, msg, l) ==>
          o.starts(m, n, msg, l') && (emit.Some? ==> o.sends(m, n, msg, emit.value)))
    && (o.bodies(l) ==> o.bodies(l') && (emit.Some? ==> o.free(emit.value)))
  }

  ghost predicate SourcesTraced<M, Id(!new), Msg, Cmd, Loc, W>(p: Program<M, Id, Msg, Cmd, Loc, W>,
      o: Origin<M, Msg, Loc>, m: M)
  {
    forall id :: id in p.sources(m) ==> o.bodies(p.sources(m)[id].start)
  }

  /** The program keeps to the origin: its handlers, its edge code, its sources and its front door. */
  ghost predicate Respects<M(!new), Id(!new), Msg(!new), Cmd, Loc(!new), W(!new)>(
      p: Program<M, Id, Msg, Cmd, Loc, W>, o: Origin<M, Msg, Loc>)
  {
    && (forall m, n: nat, msg :: OutsTraced(p, o, m, n, msg, ApplyMsg(p, m, msg, n).1))
    && (forall w, l, cancelled, w', l', emit :: p.edge(w, l, cancelled, w', l', emit) ==> EdgeTraced(o, l, l', emit))
    && (forall m :: SourcesTraced(p, o, m))
    && (forall msg :: p.front(msg) ==> o.free(msg))
  }

  // ---------------------------------------------------------------- what is traced in a state

  ghost predicate EnvTraced<M, Id, Msg, Cmd, Loc, W>(p: Program<M, Id, Msg, Cmd, Loc, W>, o: Origin<M, Msg, Loc>,
      log: seq<Envelope<Msg>>, e: Envelope<Msg>)
  {
    if e.cause == 0 then o.free(e.msg)
    else e.cause <= |log| && o.sends(Fold(p, log[..e.cause - 1]), e.cause, log[e.cause - 1].msg, e.msg)
  }

  ghost predicate QueueTraced<M, Id, Msg, Cmd, Loc, W>(p: Program<M, Id, Msg, Cmd, Loc, W>, o: Origin<M, Msg, Loc>,
      log: seq<Envelope<Msg>>, q: seq<Envelope<Msg>>)
  {
    forall i :: 0 <= i < |q| ==> EnvTraced(p, o, log, q[i])
  }

  ghost predicate SlotTraced<M, Id, Msg, Cmd, Loc, W>(p: Program<M, Id, Msg, Cmd, Loc, W>, o: Origin<M, Msg, Loc>,
      log: seq<Envelope<Msg>>, x: Slot<Id, Msg, Loc>)
  {
    && (x.transit.Some? ==> EnvTraced(p, o, log, x.transit.value))
    && (x.run.Some? ==>
         match x.kind
         case Effect(n) => 0 < n <= |log| && o.starts(Fold(p, log[..n - 1]), n, log[n - 1].msg, x.run.value)
         case Body(_, _) => o.bodies(x.run.value)
         case Caller => true)
  }

  ghost predicate SlotsTraced<M, Id, Msg, Cmd, Loc, W>(p: Program<M, Id, Msg, Cmd, Loc, W>, o: Origin<M, Msg, Loc>,
      log: seq<Envelope<Msg>>, slots: seq<Slot<Id, Msg, Loc>>)
  {
    forall k :: 0 <= k < |slots| ==> SlotTraced(p, o, log, slots[k])
  }

  ghost predicate PhaseTraced<M, Id, Msg, Cmd, Loc, W>(p: Program<M, Id, Msg, Cmd, Loc, W>, o: Origin<M, Msg, Loc>,
      log: seq<Envelope<Msg>>, ph: Phase<Msg, Cmd>)
  {
    match ph
    case Taken(e) => EnvTraced(p, o, log, e)
    case Interpreting(n, todo, own) =>
      && 0 < n <= |log| && OutsTraced(p, o, Fold(p, log[..n - 1]), n, log[n - 1].msg, todo)
      && (own.Some? ==> EnvTraced(p, o, log, own.value))
    case _ => true
  }

  /** Every logged, queued and travelling message, and every goroutine, is where its origin says. */
  ghost predicate Traced<M, Id, Msg, Cmd, Loc, W>(p: Program<M, Id, Msg, Cmd, Loc, W>, o: Origin<M, Msg, Loc>,
      s: State<M, Id, Msg, Cmd, Loc, W>)
  {
    && QueueTraced(p, o, s.log, s.log) && QueueTraced(p, o, s.log, s.inbox)
    && SlotsTraced(p, o, s.log, s.slots) && PhaseTraced(p, o, s.log, s.phase)
  }

  // ---------------------------------------------------------------- the log only grows

  lemma EnvOutlives<M, Id, Msg, Cmd, Loc, W>(p: Program<M, Id, Msg, Cmd, Loc, W>, o: Origin<M, Msg, Loc>,
      log: seq<Envelope<Msg>>, more: seq<Envelope<Msg>>, e: Envelope<Msg>)
    requires log <= more && EnvTraced(p, o, log, e)
    ensures EnvTraced(p, o, more, e)
  {
    if e.cause != 0 {
      assert more[..e.cause - 1] == log[..e.cause - 1] && more[e.cause - 1] == log[e.cause - 1];
    }
  }

  lemma SlotOutlives<M, Id, Msg, Cmd, Loc, W>(p: Program<M, Id, Msg, Cmd, Loc, W>, o: Origin<M, Msg, Loc>,
      log: seq<Envelope<Msg>>, more: seq<Envelope<Msg>>, x: Slot<Id, Msg, Loc>)
    requires log <= more && SlotTraced(p, o, log, x)
    ensures SlotTraced(p, o, more, x)
  {
    if x.transit.Some? { EnvOutlives(p, o, log, more, x.transit.value); }
    if x.run.Some? && x.kind.Effect? {
      assert more[..x.kind.cause - 1] == log[..x.kind.cause - 1] && more[x.kind.cause - 1] == log[x.kind.cause - 1];
    }
  }

  /** A taken envelope is logged: everything traced before stays traced, and so is it. */
  lemma AppendTraced<M, Id(!new), Msg, Cmd, Loc, W>(p: Program<M, Id, Msg, Cmd, Loc, W>, o: Origin<M, Msg, Loc>,
      s: State<M, Id, Msg, Cmd, Loc, W>)
    requires Traced(p, o, s) && Enabled(p, s, Append)
    ensures Traced(p, o, Next(p, s, Append))
  {
    var more := s.log + [s.phase.env];
    EnvOutlives(p, o, s.log, more, s.phase.env);
    forall i | 0 <= i < |more| ensures EnvTraced(p, o, more, more[i]) {
      if i < |s.log| { EnvOutlives(p, o, s.log, more, s.log[i]); }
    }
    forall i | 0 <= i < |s.inbox| ensures EnvTraced(p, o, more, s.inbox[i]) {
      EnvOutlives(p, o, s.log, more, s.inbox[i]);
    }
    forall k | 0 <= k < |s.slots| ensures SlotTraced(p, o, more, s.slots[k]) {
      SlotOutlives(p, o, s.log, more, s.slots[k]);
    }
  }

  // ---------------------------------------------------------------- each step

  lemma ApplyTraced<M(!new), Id(!new), Msg(!new), Cmd, Loc(!new), W(!new)>(p: Program<M, Id, Msg, Cmd, Loc, W>,
      o: Origin<M, Msg, Loc>, s: State<M, Id, Msg, Cmd, Loc, W>)
    requires Respects(p, o) && Inv(p, s) && Traced(p, o, s) && Enabled(p, s, Apply)
    ensures Traced(p, o, Next(p, s, Apply))
  {
    var n := |s.log|;
    assert s.model == Fold(p, s.log[..n - 1]) && s.log[n - 1] == s.phase.env;
    assert OutsTraced(p, o, s.model, n, s.phase.env.msg, ApplyMsg(p, s.model, s.phase.env.msg, n).1);
  }

  lemma InterpretTraced<M, Id(!new), Msg, Cmd, Loc, W>(p: Program<M, Id, Msg, Cmd, Loc, W>,
      o: Origin<M, Msg, Loc>, s: State<M, Id, Msg, Cmd, Loc, W>)
    requires Traced(p, o, s) && Enabled(p, s, Interpret)
    ensures Traced(p, o, Next(p, s, Interpret))
  {
    var n, rest, r := s.phase.offset, s.phase.todo[1..], Next(p, s, Interpret);
    assert OutTraced(p, o, Fold(p, s.log[..n - 1]), n, s.log[n - 1].msg, s.phase.todo[0]);
    assert forall i :: 0 <= i < |rest| ==> rest[i] == s.phase.todo[i + 1];
    assert PhaseTraced(p, o, s.log, r.phase);
    if s.phase.todo[0].Do? && p.begin(s.phase.todo[0].cmd).Some? {
      SpawnTraced(p, o, s.log, s.slots, n, p.begin(s.phase.todo[0].cmd).value);
    }
  }

  lemma SpawnTraced<M, Id, Msg, Cmd, Loc, W>(p: Program<M, Id, Msg, Cmd, Loc, W>, o: Origin<M, Msg, Loc>,
      log: seq<Envelope<Msg>>, slots: seq<Slot<Id, Msg, Loc>>, n: nat, l: Loc)
    requires SlotsTraced(p, o, log, slots) && 0 < n <= |log| && o.starts(Fold(p, log[..n - 1]), n, log[n - 1].msg, l)
    ensures SlotsTraced(p, o, log, slots + [Slot(Effect(n), Some(l), None, false)])
  {
  }

  lemma ActTraced<M(!new), Id(!new), Msg(!new), Cmd, Loc(!new), W(!new)>(p: Program<M, Id, Msg, Cmd, Loc, W>,
      o: Origin<M, Msg, Loc>, s: State<M, Id, Msg, Cmd, Loc, W>, t: Step<Id, Msg, Loc, W>)
    requires Respects(p, o) && Inv(p, s) && Traced(p, o, s) && Enabled(p, s, t) && t.Act?
    ensures Traced(p, o, Next(p, s, t))
  {
    var x := s.slots[t.k];
    assert SlotOK(s.slots, s.running, |s.log|, t.k) && SlotTraced(p, o, s.log, x);
    assert EdgeTraced(o, x.run.value, t.local, t.emit);
  }

  lemma BornTraced<M, Id(!new), Msg, Cmd, Loc, W>(p: Program<M, Id, Msg, Cmd, Loc, W>, o: Origin<M, Msg, Loc>, m: M,
      log: seq<Envelope<Msg>>, a: seq<Slot<Id, Msg, Loc>>, b: seq<Slot<Id, Msg, Loc>>, added: seq<Id>)
    requires SlotsTraced(p, o, log, a) && BornInOrder(b, |a|, added, p.sources(m)) && SourcesTraced(p, o, m)
    requires forall k :: 0 <= k < |a| ==> b[k] == a[k].(waiter := b[k].waiter)
    ensures SlotsTraced(p, o, log, b)
  {
    forall k | 0 <= k < |b| ensures SlotTraced(p, o, log, b[k]) {
      if k < |a| {
        assert SlotTraced(p, o, log, a[k]);
      } else {
        var i := k - |a|;
        assert b[|a| + i] == Born(added[i], p.sources(m)[added[i]]);
      }
    }
  }

  lemma DiffTraced<M(!new), Id(!new), Msg(!new), Cmd, Loc(!new), W(!new)>(p: Program<M, Id, Msg, Cmd, Loc, W>,
      o: Origin<M, Msg, Loc>, s: State<M, Id, Msg, Cmd, Loc, W>, t: Step<Id, Msg, Loc, W>)
    requires Respects(p, o) && Inv(p, s) && Traced(p, o, s) && Enabled(p, s, t) && (t.Diff? || t.BootDiff?)
    ensures Traced(p, o, Next(p, s, t))
  {
    ReconcileMeansDeclared(p, s, t.gone, t.added);
    BornTraced(p, o, s.model, s.log, s.slots, Next(p, s, t).slots, t.added);
  }

  /** A goroutine hands over its envelope or returns, a caller comes: nothing new is in flight. */
  lemma HandOverTraced<M(!new), Id(!new), Msg(!new), Cmd, Loc(!new), W(!new)>(p: Program<M, Id, Msg, Cmd, Loc, W>,
      o: Origin<M, Msg, Loc>, s: State<M, Id, Msg, Cmd, Loc, W>, t: Step<Id, Msg, Loc, W>)
    requires Respects(p, o) && Traced(p, o, s) && Enabled(p, s, t)
    requires t.Call? || t.Deliver? || t.Return? || t.Unwait?
    ensures Traced(p, o, Next(p, s, t))
  {
    if !t.Call? {
      assert SlotTraced(p, o, s.log, s.slots[t.k]);
    }
  }

  /** The reducer takes, passes on its own envelope, or settles. */
  lemma TurnTraced<M, Id(!new), Msg, Cmd, Loc, W>(p: Program<M, Id, Msg, Cmd, Loc, W>,
      o: Origin<M, Msg, Loc>, s: State<M, Id, Msg, Cmd, Loc, W>, t: Step<Id, Msg, Loc, W>)
    requires Traced(p, o, s) && Enabled(p, s, t) && (t.Take? || t.DeliverOwn? || t.Settle?)
    ensures Traced(p, o, Next(p, s, t))
  {
  }

  lemma StepTraced<M(!new), Id(!new), Msg(!new), Cmd, Loc(!new), W(!new)>(p: Program<M, Id, Msg, Cmd, Loc, W>,
      o: Origin<M, Msg, Loc>, s: State<M, Id, Msg, Cmd, Loc, W>, t: Step<Id, Msg, Loc, W>)
    requires Respects(p, o) && Inv(p, s) && Traced(p, o, s) && Enabled(p, s, t)
    ensures Traced(p, o, Next(p, s, t))
  {
    if t.Append? {
      AppendTraced(p, o, s);
    } else if t.Apply? {
      ApplyTraced(p, o, s);
    } else if t.Interpret? {
      InterpretTraced(p, o, s);
    } else if t.Act? {
      ActTraced(p, o, s, t);
    } else if t.Diff? || t.BootDiff? {
      DiffTraced(p, o, s, t);
    } else if GoroutineStep(t) {
      HandOverTraced(p, o, s, t);
    } else if ReducerStep(t) {
      TurnTraced(p, o, s, t);
    }
  }

  /** In every state of every run of a program that keeps to an origin, everything is traced. */
  lemma {:induction false} RunTraced<M(!new), Id(!new), Msg(!new), Cmd, Loc(!new), W(!new)>(
      p: Program<M, Id, Msg, Cmd, Loc, W>, o: Origin<M, Msg, Loc>, states: seq<State<M, Id, Msg, Cmd, Loc, W>>,
      steps: seq<Step<Id, Msg, Loc, W>>, i: nat)
    requires Respects(p, o) && IsRun(p, states, steps) && i < |states|
    ensures Traced(p, o, states[i])
  {
    if i > 0 {
      RunTraced(p, o, states, steps, i - 1);
      TracedOverStep(p, o, states, steps, i);
    }
  }

  lemma TracedOverStep<M(!new), Id(!new), Msg(!new), Cmd, Loc(!new), W(!new)>(
      p: Program<M, Id, Msg, Cmd, Loc, W>, o: Origin<M, Msg, Loc>, states: seq<State<M, Id, Msg, Cmd, Loc, W>>,
      steps: seq<Step<Id, Msg, Loc, W>>, i: nat)
    requires Respects(p, o) && IsRun(p, states, steps) && 0 < i < |states| && Traced(p, o, states[i - 1])
    ensures Traced(p, o, states[i])
  {
    RunKeeps(p, states, steps, i - 1);
    assert Takes(p, states, steps, i - 1);
    StepTraced(p, o, states[i - 1], steps[i - 1]);
  }
}
