/**
 The reducer as the code runs it (runtime/loop.go): fields updated step by step, loops over maps in
 whatever order they yield. Every method is shown to take steps of the machine in Runtime and no
 others, so whatever RuntimeProofs proves of runs holds of it.
 */
module App {
  import opened Prelude
  import opened Runtime
  import opened RuntimeProofs
  import opened MessageLog

  // ---------------------------------------------------------------- several steps at once

  /** Where a list of partial steps leads; None when one of them cannot be taken. */
  function Chain<S, T>(f: (S, T) -> Option<S>, s: S, steps: seq<T>): Option<S>
  {
    if steps == [] then Some(s)
    else
      match Chain(f, s, steps[..|steps| - 1])
      case None => None
      case Some(mid) => f(mid, steps[|steps| - 1])
  }

  lemma {:induction false} ChainJoins<S, T>(f: (S, T) -> Option<S>, s: S, steps: seq<T>, mid: S, more: seq<T>)
    requires Chain(f, s, steps) == Some(mid)
    ensures Chain(f, s, steps + more) == Chain(f, mid, more)
  {
    if more == [] {
      assert steps + more == steps;
    } else {
      ChainJoins(f, s, steps, mid, more[..|more| - 1]);
      assert (steps + more)[..|steps + more| - 1] == steps + more[..|more| - 1];
    }
  }

  /** The machine's step as a partial function. */
  ghost function Stepper<M, Id(!new), Msg, Cmd, Loc, W>(p: Program<M, Id, Msg, Cmd, Loc, W>):
    (State<M, Id, Msg, Cmd, Loc, W>, Step<Id, Msg, Loc, W>) -> Option<State<M, Id, Msg, Cmd, Loc, W>>
  {
    (s: State<M, Id, Msg, Cmd, Loc, W>, t: Step<Id, Msg, Loc, W>) => if Enabled(p, s, t) then Some(Next(p, s, t))
      else None
  }

  /** Where a list of machine steps leads. */
  ghost function Exec<M, Id(!new), Msg, Cmd, Loc, W>(p: Program<M, Id, Msg, Cmd, Loc, W>,
      s: State<M, Id, Msg, Cmd, Loc, W>, steps: seq<Step<Id, Msg, Loc, W>>): Option<State<M, Id, Msg, Cmd, Loc, W>>
  {
    Chain(Stepper(p), s, steps)
  }

  lemma ExecOne<M, Id(!new), Msg, Cmd, Loc, W>(p: Program<M, Id, Msg, Cmd, Loc, W>, s: State<M, Id, Msg, Cmd, Loc, W>,
      steps: seq<Step<Id, Msg, Loc, W>>, mid: State<M, Id, Msg, Cmd, Loc, W>, t: Step<Id, Msg, Loc, W>)
    requires Exec(p, s, steps) == Some(mid) && Enabled(p, mid, t)
    ensures Exec(p, s, steps + [t]) == Some(Next(p, mid, t))
  {
    assert (steps + [t])[..|steps|] == steps;
  }

  lemma ExecJoins<M, Id(!new), Msg, Cmd, Loc, W>(p: Program<M, Id, Msg, Cmd, Loc, W>,
      s: State<M, Id, Msg, Cmd, Loc, W>, steps: seq<Step<Id, Msg, Loc, W>>, mid: State<M, Id, Msg, Cmd, Loc, W>,
      more: seq<Step<Id, Msg, Loc, W>>)
    requires Exec(p, s, steps) == Some(mid)
    ensures Exec(p, s, steps + more) == Exec(p, mid, more)
  {
    ChainJoins(Stepper(p), s, steps, mid, more);
  }

  /** Whatever the code does from a state that satisfies the invariant, the invariant holds after it. */
  lemma {:induction false} ExecKeeps<M, Id(!new), Msg, Cmd, Loc, W>(p: Program<M, Id, Msg, Cmd, Loc, W>,
      s: State<M, Id, Msg, Cmd, Loc, W>, steps: seq<Step<Id, Msg, Loc, W>>)
    requires Inv(p, s) && Exec(p, s, steps).Some?
    ensures Inv(p, Exec(p, s, steps).value)
  {
    if steps != [] {
      ExecKeeps(p, s, steps[..|steps| - 1]);
      StepKeeps(p, Exec(p, s, steps[..|steps| - 1]).value, steps[|steps| - 1]);
    }
  }

  lemma OneStepLonger<M, Id(!new), Msg, Cmd, Loc, W>(p: Program<M, Id, Msg, Cmd, Loc, W>,
      states: seq<State<M, Id, Msg, Cmd, Loc, W>>, steps: seq<Step<Id, Msg, Loc, W>>, t: Step<Id, Msg, Loc, W>,
      longer: seq<State<M, Id, Msg, Cmd, Loc, W>>)
    requires IsRun(p, states, steps) && Enabled(p, states[|steps|], t)
    requires longer == states + [Next(p, states[|steps|], t)]
    ensures IsRun(p, longer, steps + [t])
  {
    var more := steps + [t];
    forall i | 0 <= i < |more| ensures Takes(p, longer, more, i) {
      if i < |steps| {
        assert Takes(p, states, steps, i);
        assert longer[i] == states[i] && longer[i + 1] == states[i + 1] && more[i] == steps[i];
      }
    }
  }

  /** Whatever the code does at the end of a run prolongs that run. */
  lemma {:induction false} ExecProlongsRun<M, Id(!new), Msg, Cmd, Loc, W>(p: Program<M, Id, Msg, Cmd, Loc, W>,
      states: seq<State<M, Id, Msg, Cmd, Loc, W>>, before: seq<Step<Id, Msg, Loc, W>>,
      steps: seq<Step<Id, Msg, Loc, W>>)
    returns (longer: seq<State<M, Id, Msg, Cmd, Loc, W>>)
    requires IsRun(p, states, before) && Exec(p, states[|before|], steps).Some?
    ensures IsRun(p, longer, before + steps) && states <= longer
    ensures longer[|before + steps|] == Exec(p, states[|before|], steps).value
  {
    if steps == [] {
      longer := states;
      assert before + steps == before;
    } else {
      var front, t := steps[..|steps| - 1], steps[|steps| - 1];
      var most := ExecProlongsRun(p, states, before, front);
      assert before + steps == (before + front) + [t];
      longer := most + [Next(p, most[|before + front|], t)];
      OneStepLonger(p, most, before + front, t, longer);
    }
  }

  /** `q` was built by visiting the elements of `S` one after another. */
  ghost predicate Visits<T(!new)>(q: seq<T>, S: set<T>)
  {
    if q == [] then S == {}
    else q[|q| - 1] in S && Visits(q[..|q| - 1], S - {q[|q| - 1]})
  }

  lemma VisitsOneMore<T(!new)>(q: seq<T>, S: set<T>, x: T)
    requires Visits(q, S) && x !in S
    ensures Visits(q + [x], S + {x})
  {
    assert (q + [x])[..|q|] == q && S + {x} - {x} == S;
  }

  lemma {:induction false} VisitsLists<T(!new)>(q: seq<T>, S: set<T>)
    requires Visits(q, S)
    ensures Lists(q, S)
  {
    if q != [] {
      var front, x := q[..|q| - 1], q[|q| - 1];
      VisitsLists(front, S - {x});
      assert q == front + [x];
      assert x !in front;
    }
  }

  /** Set bookkeeping for one visit: `seen` are the visited elements outside `skipped`. */
  lemma Visited<T>(all: set<T>, todo: set<T>, skipped: set<T>, seen: set<T>, x: T)
    requires x in todo && todo <= all && seen == all - todo - skipped
    ensures x !in seen && todo - {x} <= all
    ensures x in skipped ==> seen == all - (todo - {x}) - skipped
    ensures x !in skipped ==> seen + {x} == all - (todo - {x}) - skipped
    ensures all - seen - {x} == all - (seen + {x}) && skipped + seen + {x} == skipped + (seen + {x})
  {
  }

  lemma CancelOneMore<M, Id, Msg, Cmd, Loc, W>(s: State<M, Id, Msg, Cmd, Loc, W>, gone: seq<Id>, id: Id)
    ensures CancelAll(s, gone + [id]) == Cancel(CancelAll(s, gone), id)
  {
    assert (gone + [id])[..|gone|] == gone;
  }

  lemma StartOneMore<M, Id, Msg, Cmd, Loc, W>(s: State<M, Id, Msg, Cmd, Loc, W>, added: seq<Id>, id: Id,
      declared: map<Id, Source<Loc>>)
    requires id in declared && forall x :: x in added ==> x in declared
    ensures forall x :: x in added + [id] ==> x in declared
    ensures StartAll(s, added + [id], declared) == Start(StartAll(s, added, declared), id, declared[id])
  {
    assert (added + [id])[..|added|] == added;
  }

  lemma ForwardSteps<M, Id(!new), Msg, Cmd, Loc, W>(p: Program<M, Id, Msg, Cmd, Loc, W>,
      s: State<M, Id, Msg, Cmd, Loc, W>)
    requires s.live && s.phase.Interpreting? && s.phase.own.None? && s.phase.todo != [] && s.phase.todo[0].Send?
    ensures Exec(p, s, [] + [Interpret] + [DeliverOwn]) == Some(s.(
      pending := s.pending + 1,
      inbox := s.inbox + [Envelope(s.phase.todo[0].msg, s.phase.offset)],
      phase := Interpreting(s.phase.offset, s.phase.todo[1..], None)))
  {
    ExecOne(p, s, [], s, Interpret);
    ExecOne(p, s, [] + [Interpret], Next(p, s, Interpret), DeliverOwn);
  }

  lemma LaunchSteps<M, Id(!new), Msg, Cmd, Loc, W>(p: Program<M, Id, Msg, Cmd, Loc, W>,
      s: State<M, Id, Msg, Cmd, Loc, W>)
    requires s.live && s.phase.Interpreting? && s.phase.own.None? && s.phase.todo != []
    ensures Exec(p, s, [] + [Interpret]) == Some(InterpretOne(p, s))
  {
    ExecOne(p, s, [], s, Interpret);
  }

  lemma EmitSteps<M, Id(!new), Msg, Cmd, Loc, W>(p: Program<M, Id, Msg, Cmd, Loc, W>,
      s: State<M, Id, Msg, Cmd, Loc, W>, k: nat, msg: Msg, local: Loc, w: W)
    requires Enabled(p, s, Act(k, w, local, Some(msg)))
    ensures Exec(p, s, [] + [Act(k, w, local, Some(msg))] + [Deliver(k)]) == Some(s.(
      world := w,
      pending := s.pending + 1,
      slots := s.slots[k := s.slots[k].(run := Some(local))],
      inbox := s.inbox + [Envelope(msg, CauseOf(s.slots[k].kind))]))
  {
    var t := Step<Id, Msg, Loc, W>.Act(k, w, local, Some(msg));
    ExecOne(p, s, [], s, t);
    ExecOne(p, s, [] + [t], Next(p, s, t), Deliver(k));
    var slots := Next(p, s, t).slots;
    assert slots[k := slots[k].(transit := None)] == s.slots[k := s.slots[k].(run := Some(local))];
  }

  // ---------------------------------------------------------------- the application object

  class App<M, Id(==,!new), Msg, Cmd, Loc, W> {
    const handle: (M, Msg, nat) -> Option<(M, seq<Out<Msg, Cmd>>)>
    const sources: M -> map<Id, Source<Loc>>
    const begin: Cmd -> Option<Loc>
    const log: MemoryLog<Msg>
    ghost const p: Program<M, Id, Msg, Cmd, Loc, W>

    var model: M
    var pending: int
    var running: map<Id, nat>
    var inbox: seq<Envelope<Msg>>
    var goroutines: seq<Slot<Id, Msg, Loc>>
    var live: bool
    var trace: seq<Out<Msg, Cmd>>
    var deadSends: seq<Msg>
    var failures: seq<Cmd>

    ghost var booting: bool
    ghost var phase: Phase<Msg, Cmd>
    ghost var world: W
    ghost var boots: nat

    /** Every running source has a goroutine. */
    ghost predicate Tracked()
      reads `running, `goroutines
    {
      forall id :: id in running ==> running[id] < |goroutines|
    }

    ghost predicate Valid()
      reads this, log
    {
      p.handle == handle && p.sources == sources && p.begin == begin && log.Valid() && Tracked()
    }

    /** The machine state this object stands for. */
    ghost function Abs(): State<M, Id, Msg, Cmd, Loc, W>
      reads this, log
    {
      State(log.Contents(), world, live, booting, model, phase, inbox, goroutines, running, pending, boots)
    }

    /** A process about to start over a log and a world that outlived the last one. */
    constructor (ghost p: Program<M, Id, Msg, Cmd, Loc, W>, zero: M,
        handle: (M, Msg, nat) -> Option<(M, seq<Out<Msg, Cmd>>)>, sources: M -> map<Id, Source<Loc>>,
        begin: Cmd -> Option<Loc>, log: MemoryLog<Msg>, ghost world: W, ghost boots: nat)
      requires p.zero == zero && p.handle == handle && p.sources == sources && p.begin == begin && log.Valid()
      ensures Valid() && this.p == p && this.log == log
      ensures Abs() == State(log.Contents(), world, false, false, p.zero, Idle, [], [], map[], 0, boots)
    {
      this.handle, this.sources, this.begin, this.log, this.p := handle, sources, begin, log, p;
      model, pending, running, inbox, goroutines, live := zero, 0, map[], [], [], false;
      trace, deadSends, failures := [], [], [];
      booting, phase, this.world, this.boots := false, Idle, world, boots;
    }

    /** The fold: one message through its owning handler, live or replaying. */
    method Apply(msg: Msg, offset: nat) returns (cmds: seq<Out<Msg, Cmd>>)
      requires Valid()
      modifies `model, `trace, `deadSends
      ensures (model, cmds) == ApplyMsg(p, old(model), msg, offset)
      ensures trace == old(trace) + if live then cmds else []
      ensures deadSends == old(deadSends) + if handle(old(model), msg, offset).None? then [msg] else []
    {
      var r := handle(model, msg, offset);
      if r.None? {
        deadSends := deadSends + [msg];
        return [];
      }
      model, cmds := r.value.0, r.value.1;
      if live {
        trace := trace + cmds;
      }
    }

    /** The front door: count the message as pending, then hand it to the inbox. */
    method Send(msg: Msg)
      requires Valid() && live && p.front(msg)
      modifies `pending, `inbox, `goroutines
      ensures Valid()
      ensures Exec(p, old(Abs()), [Call(msg), Deliver(|old(goroutines)|)]) == Some(Abs())
      ensures pending == old(pending) + 1 && inbox == old(inbox) + [Envelope(msg, 0)]
    {
      ghost var s0, k := Abs(), |goroutines|;
      pending := pending + 1;
      goroutines := goroutines + [Slot(Caller, None, Some(Envelope(msg, 0)), false)];
      ExecOne(p, s0, [], s0, Call(msg));
      assert [] + [Step<Id, Msg, Loc, W>.Call(msg)] == [Call(msg)];
      assert Abs() == Next(p, s0, Call(msg));
      ExecOne(p, s0, [Call(msg)], Abs(), Deliver(k));
      assert [Step<Id, Msg, Loc, W>.Call(msg)] + [Deliver(k)] == [Call(msg), Deliver(k)];
      ghost var s1 := Abs();
      inbox := inbox + [goroutines[|goroutines| - 1].transit.value];
      goroutines := goroutines[|goroutines| - 1 := goroutines[|goroutines| - 1].(transit := None)];
      assert Abs() == Next(p, s1, Deliver(k));
    }

    /** Cancel one running source; a waiter holds quiescence until its body has returned. */
    method CancelSource(id: Id)
      requires Tracked() && id in running
      modifies `pending, `running, `goroutines
      ensures Tracked() && Abs() == Cancel(old(Abs()), id)
      ensures running.Keys == old(running.Keys) - {id}
    {
      var k := running[id];
      goroutines := goroutines[k := goroutines[k].(waiter := true)];
      pending := pending + 1;
      running := running - {id};
    }

    /** Start one declared source in a goroutine of its own. */
    method StartSource(id: Id, src: Source<Loc>)
      requires Tracked() && id !in running
      modifies `pending, `running, `goroutines
      ensures Tracked() && Abs() == Runtime.Start(old(Abs()), id, src)
      ensures running.Keys == old(running.Keys) + {id}
    {
      running := running[id := |goroutines|];
      if src.await {
        pending := pending + 1;
      }
      goroutines := goroutines + [Slot(Body(id, src.await), Some(src.start), None, false)];
    }

    /** The first loop of a reconciliation: stop every running source that is no longer declared. */
    method StopUndeclared(desired: map<Id, Source<Loc>>) returns (ghost gone: seq<Id>)
      requires Tracked()
      modifies `pending, `running, `goroutines
      ensures Tracked() && Visits(gone, old(running.Keys) - desired.Keys)
      ensures Abs() == CancelAll(old(Abs()), gone) && running.Keys == old(running.Keys) * desired.Keys
    {
      gone := [];
      var todo := running.Keys;
      ghost var s0, all, seen := Abs(), todo, {};
      while todo != {}
        invariant Tracked() && todo <= all
        invariant running.Keys == all - seen && seen == all - todo - desired.Keys
        invariant Visits(gone, seen) && Abs() == CancelAll(s0, gone)
        decreases todo
      {
        var id := Pick(todo);
        Visited(all, todo, desired.Keys, seen, id);
        todo := todo - {id};
        if id !in desired {
          CancelSource(id);
          VisitsOneMore(gone, seen, id);
          CancelOneMore(s0, gone, id);
          gone, seen := gone + [id], seen + {id};
        }
      }
      assert seen == all - desired.Keys;
    }

    /** The second loop: start every declared source that is not running. */
    method StartDeclared(desired: map<Id, Source<Loc>>) returns (ghost added: seq<Id>)
      requires Tracked()
      modifies `pending, `running, `goroutines
      ensures
        && Tracked()
        && Visits(added, desired.Keys - old(running.Keys))
        && (forall id :: id in added ==> id in desired)
      ensures Abs() == StartAll(old(Abs()), added, desired) && running.Keys == old(running.Keys) + desired.Keys
    {
      added := [];
      var todo := desired.Keys;
      ghost var s0, all, seen, before := Abs(), todo, {}, running.Keys;
      while todo != {}
        invariant Tracked() && todo <= all
        invariant running.Keys == before + seen && seen == all - todo - before
        invariant Visits(added, seen) && (forall id :: id in added ==> id in desired)
        invariant Abs() == StartAll(s0, added, desired)
        decreases todo
      {
        var id := Pick(todo);
        Visited(all, todo, before, seen, id);
        todo := todo - {id};
        if id in running {
          continue;
        }
        VisitsOneMore(added, seen, id);
        StartOneMore(s0, added, id, desired);
        added, seen := added + [id], seen + {id};
        StartSource(id, desired[id]);
      }
      assert seen == all - before;
    }

    /** Reconcile declared sources against running ones: stop what is gone, start what is new. */
    method DiffSubscriptions() returns (ghost gone: seq<Id>, ghost added: seq<Id>)
      requires Valid()
      modifies `pending, `running, `goroutines
      ensures Valid() && DiffOrder(p, old(Abs()), gone, added)
      ensures Abs() == Reconcile(p, old(Abs()), gone, added)
      ensures running.Keys == sources(model).Keys
    {
      var desired := sources(model);
      gone := StopUndeclared(desired);
      added := StartDeclared(desired);
      assert desired.Keys - old(running.Keys) * desired.Keys == desired.Keys - old(running.Keys);
      VisitsLists(gone, old(running.Keys) - desired.Keys);
      VisitsLists(added, desired.Keys - old(running.Keys));
    }

    /** Hand one envelope to the inbox from the reducer itself. */
    method Enqueue(e: Envelope<Msg>)
      modifies `pending, `inbox
      ensures pending == old(pending) + 1 && inbox == old(inbox) + [e]
    {
      pending := pending + 1;
      inbox := inbox + [e];
    }

    method SettleOne()
      modifies `pending
      ensures pending == old(pending) - 1
    {
      pending := pending - 1;
    }

    /** A `send` goes back to the inbox, stamped with the message that caused it. */
    method Forward(ghost cmds: seq<Out<Msg, Cmd>>, msg: Msg, offset: nat)
        returns (ghost steps: seq<Step<Id, Msg, Loc, W>>)
      requires Valid() && live && cmds != [] && cmds[0] == Out.Send(msg) && phase == Interpreting(offset, cmds, None)
      modifies `pending, `inbox, `phase
      ensures Valid() && phase == Interpreting(offset, cmds[1..], None)
      ensures Exec(p, old(Abs()), steps) == Some(Abs())
    {
      ForwardSteps(p, Abs());
      steps := [] + [Interpret] + [DeliverOwn];
      Enqueue(Envelope(msg, offset));
      phase := Interpreting(offset, cmds[1..], None);
    }

    /** An owned command gets a goroutine of its own, an unowned one is recorded. */
    method Launch(ghost cmds: seq<Out<Msg, Cmd>>, cmd: Cmd, offset: nat)
        returns (ghost steps: seq<Step<Id, Msg, Loc, W>>)
      requires Valid() && live && cmds != [] && cmds[0] == Out.Do(cmd) && phase == Interpreting(offset, cmds, None)
      modifies `pending, `goroutines, `failures, `phase
      ensures Valid() && phase == Interpreting(offset, cmds[1..], None)
      ensures Exec(p, old(Abs()), steps) == Some(Abs())
      ensures failures == old(failures) + if begin(cmd).None? then [cmd] else []
    {
      LaunchSteps(p, Abs());
      steps := [] + [Interpret];
      var start := begin(cmd);
      phase := Interpreting(offset, cmds[1..], None);
      if start.None? {
        failures := failures + [cmd];
      } else {
        pending := pending + 1;
        goroutines := goroutines + [Slot(Effect(offset), start, None, false)];
      }
    }

    /** Perform the next command. */
    method InterpretNext(out: Out<Msg, Cmd>, ghost cmds: seq<Out<Msg, Cmd>>, offset: nat)
        returns (ghost steps: seq<Step<Id, Msg, Loc, W>>)
      requires Valid() && live && cmds != [] && cmds[0] == out && phase == Interpreting(offset, cmds, None)
      modifies `pending, `inbox, `goroutines, `failures, `phase
      ensures Valid() && phase == Interpreting(offset, cmds[1..], None)
      ensures Exec(p, old(Abs()), steps) == Some(Abs())
    {
      match out {
        case Send(msg) => steps := Forward(cmds, msg, offset);
        case Do(cmd) => steps := Launch(cmds, cmd, offset);
      }
    }

    /** Perform every command in order, then reconcile the sources. */
    method InterpretAll(cmds: seq<Out<Msg, Cmd>>, offset: nat) returns (ghost steps: seq<Step<Id, Msg, Loc, W>>)
      requires Valid() && live && phase == Interpreting(offset, cmds, None)
      modifies `pending, `inbox, `goroutines, `failures, `phase, `running
      ensures Valid() && phase == Settling && running.Keys == sources(model).Keys
      ensures Exec(p, old(Abs()), steps) == Some(Abs())
    {
      steps := [];
      for i := 0 to |cmds|
        invariant Valid() && phase == Interpreting(offset, cmds[i..], None)
        invariant Exec(p, old(Abs()), steps) == Some(Abs())
      {
        ghost var mid := Abs();
        ghost var more := InterpretNext(cmds[i], cmds[i..], offset);
        ExecJoins(p, old(Abs()), steps, mid, more);
        steps := steps + more;
      }
      ghost var s0 := Abs();
      ghost var gone, added := DiffSubscriptions();
      ExecOne(p, old(Abs()), steps, s0, Diff(gone, added));
      steps := steps + [Step<Id, Msg, Loc, W>.Diff(gone, added)];
      phase := Settling;
    }

    /** Log one message and fold it into the model. */
    method Absorb(e: Envelope<Msg>)
        returns (cmds: seq<Out<Msg, Cmd>>, offset: nat, ghost steps: seq<Step<Id, Msg, Loc, W>>)
      requires Valid() && live && phase == Taken(e)
      modifies `model, `trace, `deadSends, `phase, log
      ensures Valid() && phase == Interpreting(offset, cmds, None)
      ensures Exec(p, old(Abs()), steps) == Some(Abs())
      ensures log.Contents() == old(log.Contents()) + [e]
      ensures model == ApplyMsg(p, old(model), e.msg, |log.Contents()|).0
    {
      ghost var s0 := Abs();
      var meta := log.Append(e.msg, e.cause);
      phase := Applying(e);
      ghost var s1 := Abs();
      ExecOne(p, s0, [], s0, Append);
      offset := meta.offset;
      cmds := Apply(e.msg, offset);
      phase := Interpreting(offset, cmds, None);
      ExecOne(p, s0, [] + [Append], s1, Step.Apply);
      steps := [] + [Append] + [Step.Apply];
    }

    /** Receive from the inbox. */
    method Receive() returns (e: Envelope<Msg>, ghost steps: seq<Step<Id, Msg, Loc, W>>)
      requires Valid() && live && phase == Idle && inbox != []
      modifies `inbox, `phase
      ensures Valid() && phase == Taken(e) && e == old(inbox[0])
      ensures Exec(p, old(Abs()), steps) == Some(Abs())
    {
      ghost var s0 := Abs();
      e := inbox[0];
      inbox := inbox[1..];
      phase := Taken(e);
      ExecOne(p, s0, [], s0, Take);
      steps := [] + [Take];
    }

    /** The last act of a turn: the message is no longer pending. */
    method Finish() returns (ghost steps: seq<Step<Id, Msg, Loc, W>>)
      requires Valid() && live && phase == Settling
      modifies `pending, `phase
      ensures Valid() && phase == Idle
      ensures Exec(p, old(Abs()), steps) == Some(Abs())
    {
      ghost var s0 := Abs();
      SettleOne();
      phase := Idle;
      ExecOne(p, s0, [], s0, Settle);
      steps := [] + [Settle];
    }

    /**
     One turn of the reducer loop, from taking an envelope to settling it: it logs the message,
     leaves the model the fold of one message more, and leaves running exactly what is declared.
     */
    method Turn() returns (ghost steps: seq<Step<Id, Msg, Loc, W>>)
      requires Valid() && live && phase == Idle && inbox != []
      modifies this, log
      ensures Valid() && live && phase == Idle && running.Keys == sources(model).Keys
      ensures Exec(p, old(Abs()), steps) == Some(Abs())
      ensures log.Contents() == old(log.Contents()) + [old(inbox[0])]
      ensures model == ApplyMsg(p, old(model), old(inbox[0]).msg, |log.Contents()|).0
    {
      ghost var s0 := Abs();
      var e, taken := Receive();
      ghost var s1 := Abs();
      var cmds, offset, absorbed := Absorb(e);
      ghost var s2 := Abs();
      ghost var done := InterpretAll(cmds, offset);
      ghost var s3 := Abs();
      ghost var settled := Finish();
      steps := taken + absorbed + done + settled;
      ExecJoins(p, s0, taken, s1, absorbed);
      ExecJoins(p, s0, taken + absorbed, s2, done);
      ExecJoins(p, s0, taken + absorbed + done, s3, settled);
    }

    /** A goroutine emits: the message is pending before it is in the inbox. */
    method Emit(k: nat, msg: Msg, local: Loc, ghost w: W)
      requires Valid() && Enabled(p, Abs(), Act(k, w, local, Some(msg)))
      modifies `pending, `inbox, `goroutines, `world
      ensures
        && Valid()
        && inbox == old(inbox) + [Envelope(msg, CauseOf(old(goroutines)[k].kind))]
        && pending == old(pending) + 1
      ensures Exec(p, old(Abs()), [] + [Act(k, w, local, Some(msg))] + [Deliver(k)]) == Some(Abs())
    {
      EmitSteps(p, Abs(), k, msg, local, w);
      goroutines := goroutines[k := goroutines[k].(run := Some(local))];
      world := w;
      Enqueue(Envelope(msg, CauseOf(goroutines[k].kind)));
    }

    /** An effect or a source body has returned; only work that was counted is settled. */
    method Returned(k: nat)
      requires Valid() && Enabled(p, Abs(), Return(k))
      modifies `pending, `goroutines
      ensures Valid() && pending == old(pending) - if Counted(old(goroutines)[k].kind) then 1 else 0
      ensures Exec(p, old(Abs()), [] + [Return(k)]) == Some(Abs())
    {
      ExecOne(p, Abs(), [], Abs(), Return(k));
      goroutines := goroutines[k := goroutines[k].(run := None)];
      if Counted(goroutines[k].kind) {
        SettleOne();
      }
    }

    /** A cancel-waiter sees that its source's body has returned. */
    method Unwaited(k: nat)
      requires Valid() && Enabled(p, Abs(), Unwait(k))
      modifies `pending, `goroutines
      ensures Valid() && pending == old(pending) - 1
      ensures Exec(p, old(Abs()), [] + [Unwait(k)]) == Some(Abs())
    {
      ExecOne(p, Abs(), [], Abs(), Unwait(k));
      goroutines := goroutines[k := goroutines[k].(waiter := false)];
      SettleOne();
    }

    /** Fold the whole log into the model: no effects, no sources, no trace. */
    method Replay()
      requires Valid() && !live && model == p.zero
      modifies `model, `trace, `deadSends
      ensures model == Fold(p, log.Contents()) && trace == old(trace)
    {
      ghost var all := log.Contents();
      SaidAt(log.entries);
      for i := 0 to |log.entries|
        invariant model == Fold(p, all[..i]) && trace == old(trace)
      {
        assert all[..i + 1][..i] == all[..i];
        var _ := Apply(log.entries[i].msg, log.entries[i].meta.offset);
      }
      assert all[..|all|] == all;
    }

    /** Replay, then switch live: from here on messages arrive, but no source runs yet. */
    method GoLive() returns (ghost steps: seq<Step<Id, Msg, Loc, W>>)
      requires Valid() && Abs() == Dead(p, Abs())
      modifies `model, `trace, `deadSends, `live, `booting, `boots
      ensures Valid() && live && booting && model == Fold(p, log.Contents())
      ensures Exec(p, old(Abs()), steps) == Some(Abs())
    {
      ghost var s0 := Abs();
      Replay();
      live := true;
      booting, boots := true, boots + 1;
      ExecOne(p, s0, [], s0, Restart);
      steps := [] + [Restart];
    }

    /** Rebuild the model from the log, go live, and start what it declares. */
    method Start() returns (ghost steps: seq<Step<Id, Msg, Loc, W>>)
      requires Valid() && Abs() == Dead(p, Abs())
      modifies this
      ensures Valid() && live && !booting && model == Fold(p, log.Contents()) && running.Keys == sources(model).Keys
      ensures Exec(p, old(Abs()), steps) == Some(Abs())
    {
      ghost var s0 := Abs();
      ghost var restarted := GoLive();
      ghost var s1 := Abs();
      ghost var gone, added := DiffSubscriptions();
      ExecOne(p, s0, restarted, s1, BootDiff(gone, added));
      steps := restarted + [BootDiff(gone, added)];
      booting := false;
    }
  }
}
