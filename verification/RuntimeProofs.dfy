/**
 What every run of the step machine keeps: exact quiescence accounting, a model that is always
 the fold of the log, sources that are exactly the declared ones, and causes that precede effects.
 Every statement is for an arbitrary program, so it holds for any assembly of modules.
 */
module RuntimeProofs {
  import opened Prelude
  import opened Runtime

  // ---------------------------------------------------------------- quiescence accounting

  /** The pending work one goroutine stands for. */
  function Busy<Id, Msg, Loc>(x: Slot<Id, Msg, Loc>): nat
  {
    (if x.transit.Some? then 1 else 0) + (if x.waiter then 1 else 0) +
    (if x.run.Some? && Counted(x.kind) then 1 else 0)
  }

  function SlotLoad<Id, Msg, Loc>(slots: seq<Slot<Id, Msg, Loc>>): nat
  {
    Sum(slots, (x: Slot<Id, Msg, Loc>) => Busy(x))
  }

  /** The reducer's own turn, plus the envelope it is itself enqueueing. */
  function PhaseLoad<Msg, Cmd>(ph: Phase<Msg, Cmd>): nat
  {
    match ph
    case Idle => 0
    case Interpreting(_, _, own) => 1 + if own.Some? then 1 else 0
    case _ => 1
  }

  /** Envelopes in transit and queued, the turn in progress, effects, awaited bodies, cancel-waiters. */
  function Load<M, Id, Msg, Cmd, Loc, W>(s: State<M, Id, Msg, Cmd, Loc, W>): nat
  {
    SlotLoad(s.slots) + |s.inbox| + PhaseLoad(s.phase)
  }

  // ---------------------------------------------------------------- the invariant

  /** Goroutine `k` among `slots`, with `n` messages logged: a source not in `running` is waited for. */
  ghost predicate SlotOK<Id(!new), Msg, Loc>(slots: seq<Slot<Id, Msg, Loc>>, running: map<Id, nat>, n: nat, k: nat)
    requires k < |slots|
  {
    var x := slots[k];
    && (x.kind.Body? && x.run.Some? && !(x.kind.id in running && running[x.kind.id] == k) ==> x.waiter)
    && (x.run.None? && !x.kind.Caller? ==> x.transit.None?)
    && (x.kind.Caller? ==> x.run.None?)
    && (!x.kind.Body? ==> !x.waiter)
    && (x.transit.Some? ==> x.transit.value.cause <= n)
    && (x.kind.Effect? ==> x.kind.cause <= n)
  }

  /** A running source owns a goroutine of its own that no cancel-waiter watches. */
  ghost predicate RunningOK<Id(!new), Msg, Loc>(slots: seq<Slot<Id, Msg, Loc>>, running: map<Id, nat>, id: Id)
    requires id in running
  {
    var k := running[id];
    k < |slots| && slots[k].kind.Body? && slots[k].kind.id == id && !slots[k].waiter
  }

  ghost predicate SlotsOK<Id(!new), Msg, Loc>(slots: seq<Slot<Id, Msg, Loc>>, running: map<Id, nat>, n: nat)
  {
    && (forall id :: id in running ==> RunningOK(slots, running, id))
    && (forall k :: 0 <= k < |slots| ==> SlotOK(slots, running, n, k))
  }

  ghost predicate CausesOK<M, Id(!new), Msg, Cmd, Loc, W>(s: State<M, Id, Msg, Cmd, Loc, W>)
  {
    && (forall i :: 0 <= i < |s.log| ==> s.log[i].cause <= i)
    && (forall i :: 0 <= i < |s.inbox| ==> s.inbox[i].cause <= |s.log|)
    && (s.phase.Taken? ==> s.phase.env.cause <= |s.log|)
    && (s.phase.Applying? ==> s.log != [] && s.log[|s.log| - 1] == s.phase.env)
    && (s.phase.Interpreting? ==> s.phase.offset == |s.log|)
    && (s.phase.Interpreting? && s.phase.own.Some? ==> s.phase.own.value.cause <= |s.log|)
  }

  /** The prefix of the log that the model in memory stands for. */
  function Folded<M, Id, Msg, Cmd, Loc, W>(s: State<M, Id, Msg, Cmd, Loc, W>): seq<Envelope<Msg>>
  {
    if s.phase.Applying? && s.log != [] then s.log[..|s.log| - 1] else s.log
  }

  /** Sources are reconciled everywhere except while commands are being interpreted. */
  ghost predicate Reconciled<M, Id(!new), Msg, Cmd, Loc, W>(p: Program<M, Id, Msg, Cmd, Loc, W>,
      s: State<M, Id, Msg, Cmd, Loc, W>)
  {
    !s.booting && !s.phase.Interpreting? ==> s.running.Keys == p.sources(s.model).Keys
  }

  ghost predicate Inv<M, Id(!new), Msg, Cmd, Loc, W>(p: Program<M, Id, Msg, Cmd, Loc, W>,
      s: State<M, Id, Msg, Cmd, Loc, W>)
  {
    && SlotsOK(s.slots, s.running, |s.log|)
    && CausesOK(s)
    && s.pending == Load(s)
    && (if s.live then s.model == Fold(p, Folded(s)) && Reconciled(p, s) else s == Dead(p, s))
  }

  // ---------------------------------------------------------------- goroutines one at a time

  /** Replacing one goroutine by a well-formed continuation of itself keeps them all well-formed. */
  lemma SlotReplaced<Id(!new), Msg, Loc>(slots: seq<Slot<Id, Msg, Loc>>, running: map<Id, nat>, n: nat, k: nat,
      x: Slot<Id, Msg, Loc>)
    requires SlotsOK(slots, running, n) && k < |slots|
    requires x.kind == slots[k].kind && (x.waiter ==> slots[k].waiter)
    requires SlotOK(slots[k := x], running, n, k)
    ensures SlotsOK(slots[k := x], running, n)
    ensures SlotLoad(slots[k := x]) == SlotLoad(slots) - Busy(slots[k]) + Busy(x)
  {
    var r := slots[k := x];
    SumUpdate(slots, k, x, (y: Slot<Id, Msg, Loc>) => Busy(y));
    forall j | 0 <= j < |r| ensures SlotOK(r, running, n, j) {
      assert SlotOK(slots, running, n, j);
    }
    forall id | id in running ensures RunningOK(r, running, id) {
      assert RunningOK(slots, running, id);
    }
  }

  lemma SlotAdded<Id(!new), Msg, Loc>(slots: seq<Slot<Id, Msg, Loc>>, running: map<Id, nat>, n: nat,
      x: Slot<Id, Msg, Loc>)
    requires SlotsOK(slots, running, n) && !x.kind.Body?
    requires SlotOK(slots + [x], running, n, |slots|)
    ensures SlotsOK(slots + [x], running, n)
    ensures SlotLoad(slots + [x]) == SlotLoad(slots) + Busy(x)
  {
    var r := slots + [x];
    SumAppend(slots, x, (y: Slot<Id, Msg, Loc>) => Busy(y));
    forall j | 0 <= j < |r| ensures SlotOK(r, running, n, j) {
      if j < |slots| { assert SlotOK(slots, running, n, j); }
    }
    forall id | id in running ensures RunningOK(r, running, id) {
      assert RunningOK(slots, running, id);
    }
  }

  lemma SlotsOutliveAppend<Id(!new), Msg, Loc>(slots: seq<Slot<Id, Msg, Loc>>, running: map<Id, nat>, n: nat, m: nat)
    requires SlotsOK(slots, running, n) && n <= m
    ensures SlotsOK(slots, running, m)
  {
    forall j | 0 <= j < |slots| ensures SlotOK(slots, running, m, j) {
      assert SlotOK(slots, running, n, j);
    }
  }

  // ---------------------------------------------------------------- one reconcile pass

  /** Only goroutines, the running set and the counter differ. */
  ghost predicate SameElsewhere<M, Id(!new), Msg, Cmd, Loc, W>(s: State<M, Id, Msg, Cmd, Loc, W>,
      r: State<M, Id, Msg, Cmd, Loc, W>)
  {
    && r.log == s.log && r.world == s.world && r.live == s.live && r.booting == s.booting
    && r.model == s.model && r.phase == s.phase && r.inbox == s.inbox && r.boots == s.boots
  }

  ghost predicate Accounted<M, Id(!new), Msg, Cmd, Loc, W>(s: State<M, Id, Msg, Cmd, Loc, W>)
  {
    SlotsOK(s.slots, s.running, |s.log|) && s.pending == Load(s)
  }

  lemma CancelKeeps<M, Id(!new), Msg, Cmd, Loc, W>(s: State<M, Id, Msg, Cmd, Loc, W>, id: Id)
    requires Accounted(s) && id in s.running
    ensures var r := Cancel(s, id);
      && Accounted(r) && SameElsewhere(s, r)
      && r.running == s.running - {id}
      && |r.slots| == |s.slots|
      && (forall k :: 0 <= k < |s.slots| ==> r.slots[k] == s.slots[k].(waiter := r.slots[k].waiter))
  {
    assert RunningOK(s.slots, s.running, id);
    var r, k, n := Cancel(s, id), s.running[id], |s.log|;
    SumUpdate(s.slots, k, s.slots[k].(waiter := true), (x: Slot<Id, Msg, Loc>) => Busy(x));
    forall j | 0 <= j < |r.slots| ensures SlotOK(r.slots, r.running, n, j) {
      assert SlotOK(s.slots, s.running, n, j);
    }
    forall i | i in r.running ensures RunningOK(r.slots, r.running, i) {
      assert RunningOK(s.slots, s.running, i);
    }
  }

  lemma StartKeeps<M, Id(!new), Msg, Cmd, Loc, W>(s: State<M, Id, Msg, Cmd, Loc, W>, id: Id, src: Source<Loc>)
    requires Accounted(s) && id !in s.running
    ensures var r := Start(s, id, src);
      Accounted(r) && SameElsewhere(s, r) && r.running.Keys == s.running.Keys + {id}
  {
    var r, n := Start(s, id, src), |s.log|;
    SumAppend(s.slots, Slot(Body(id, src.await), Some(src.start), None, false), (x: Slot<Id, Msg, Loc>) => Busy(x));
    forall j | 0 <= j < |r.slots| ensures SlotOK(r.slots, r.running, n, j) {
      if j < |s.slots| { assert SlotOK(s.slots, s.running, n, j); }
    }
    forall i | i in r.running ensures RunningOK(r.slots, r.running, i) {
      if i != id { assert RunningOK(s.slots, s.running, i); }
    }
  }

  /** The cancel loop stops exactly the listed sources and touches nothing else. */
  lemma {:induction false} CancelAllKeeps<M, Id(!new), Msg, Cmd, Loc, W>(s: State<M, Id, Msg, Cmd, Loc, W>,
      gone: seq<Id>)
    requires Accounted(s)
    requires forall i, j :: 0 <= i < j < |gone| ==> gone[i] != gone[j]
    requires forall id :: id in gone ==> id in s.running
    ensures var r := CancelAll(s, gone);
      && Accounted(r) && SameElsewhere(s, r)
      && (forall id :: id in r.running <==> id in s.running && id !in gone)
      && (forall id :: id in r.running ==> r.running[id] == s.running[id])
      && |r.slots| == |s.slots|
      && (forall k :: 0 <= k < |s.slots| ==> r.slots[k] == s.slots[k].(waiter := r.slots[k].waiter))
    decreases |gone|
  {
    if gone != [] {
      var front, id := gone[..|gone| - 1], gone[|gone| - 1];
      assert forall x :: x in gone <==> x in front || x == id;
      CancelAllKeeps(s, front);
      assert id !in front;
      CancelKeeps(CancelAll(s, front), id);
    }
  }

  /** The goroutine a declared source starts as. */
  function Born<Id, Msg, Loc>(id: Id, src: Source<Loc>): Slot<Id, Msg, Loc>
  {
    Slot(Body(id, src.await), Some(src.start), None, false)
  }

  /** The goroutines `added` brings, in order. */
  ghost predicate BornInOrder<Id(!new), Msg, Loc>(slots: seq<Slot<Id, Msg, Loc>>, from: nat, added: seq<Id>,
      declared: map<Id, Source<Loc>>)
  {
    && |slots| == from + |added|
    && forall i :: 0 <= i < |added| ==> added[i] in declared && slots[from + i] == Born(added[i], declared[added[i]])
  }

  /** The start loop keeps the accounting exact and leaves the running sources alone. */
  lemma {:induction false} StartAllKeeps<M, Id(!new), Msg, Cmd, Loc, W>(s: State<M, Id, Msg, Cmd, Loc, W>,
      added: seq<Id>, declared: map<Id, Source<Loc>>)
    requires Accounted(s)
    requires forall i, j :: 0 <= i < j < |added| ==> added[i] != added[j]
    requires forall id :: id in added ==> id in declared && id !in s.running
    ensures var r := StartAll(s, added, declared);
      && Accounted(r) && SameElsewhere(s, r)
      && (forall id :: id in r.running <==> id in s.running || id in added)
    decreases |added|
  {
    if added != [] {
      var front, id := added[..|added| - 1], added[|added| - 1];
      assert forall x :: x in added <==> x in front || x == id;
      StartAllKeeps(s, front, declared);
      assert id !in front;
      StartKeeps(StartAll(s, front, declared), id, declared[id]);
    }
  }

  /** The start loop adds one goroutine per listed source, in order, and touches no other. */
  lemma {:induction false} StartAllInOrder<M, Id(!new), Msg, Cmd, Loc, W>(s: State<M, Id, Msg, Cmd, Loc, W>,
      added: seq<Id>, declared: map<Id, Source<Loc>>)
    requires forall id :: id in added ==> id in declared && id !in s.running
    ensures var r := StartAll(s, added, declared);
      && (forall id :: id in s.running ==> id in r.running && r.running[id] == s.running[id])
      && s.slots <= r.slots && BornInOrder(r.slots, |s.slots|, added, declared)
    decreases |added|
  {
    if added != [] {
      var front, id := added[..|added| - 1], added[|added| - 1];
      assert id in added;
      forall x | x in front ensures x in added {}
      StartAllInOrder(s, front, declared);
      var c, r := StartAll(s, front, declared), StartAll(s, added, declared);
      assert r == Start(c, id, declared[id]);
      assert r.slots == c.slots + [Born(id, declared[id])];
      forall i | 0 <= i < |added| ensures added[i] in declared &&
        r.slots[|s.slots| + i] == Born(added[i], declared[added[i]]) {
        if i < |front| {
          assert added[i] == front[i] && c.slots[|s.slots| + i] == Born(front[i], declared[front[i]]);
        }
      }
    }
  }

  /**
   One reconcile pass ends with exactly the declared sources running; a source that was running
   and still is declared keeps its goroutine, and no goroutine's local state or envelope changes.
   */
  lemma ReconcileMeansDeclared<M, Id(!new), Msg, Cmd, Loc, W>(p: Program<M, Id, Msg, Cmd, Loc, W>,
      s: State<M, Id, Msg, Cmd, Loc, W>, gone: seq<Id>, added: seq<Id>)
    requires Accounted(s) && DiffOrder(p, s, gone, added)
    ensures var r := Reconcile(p, s, gone, added);
      && Accounted(r) && SameElsewhere(s, r)
      && r.running.Keys == p.sources(s.model).Keys
      && (forall id :: id in s.running && id in r.running ==> r.running[id] == s.running[id])
      && BornInOrder(r.slots, |s.slots|, added, p.sources(s.model))
      && (forall k :: 0 <= k < |s.slots| ==> r.slots[k] == s.slots[k].(waiter := r.slots[k].waiter))
  {
    CancelAllKeeps(s, gone);
    var c, r := CancelAll(s, gone), Reconcile(p, s, gone, added);
    StartAllKeeps(c, added, p.sources(s.model));
    StartAllInOrder(c, added, p.sources(s.model));
    forall k | 0 <= k < |s.slots| ensures r.slots[k] == s.slots[k].(waiter := r.slots[k].waiter) {
      assert r.slots[k] == c.slots[k];
    }
  }

  // ---------------------------------------------------------------- preservation

  predicate GoroutineStep<Id, Msg, Loc, W>(t: Step<Id, Msg, Loc, W>)
  {
    t.Call? || t.Deliver? || t.Act? || t.Return? || t.Unwait?
  }

  predicate ReducerStep<Id, Msg, Loc, W>(t: Step<Id, Msg, Loc, W>)
  {
    t.Take? || t.Append? || t.Apply? || t.Interpret? || t.DeliverOwn? || t.Settle?
  }

  /** A goroutine step changes one goroutine, and the counter exactly as that goroutine's load. */
  lemma GoroutineStepShape<M, Id(!new), Msg, Cmd, Loc, W>(p: Program<M, Id, Msg, Cmd, Loc, W>,
      s: State<M, Id, Msg, Cmd, Loc, W>, t: Step<Id, Msg, Loc, W>)
    requires Inv(p, s) && Enabled(p, s, t) && GoroutineStep(t) && !t.Call?
    ensures var r := Next(p, s, t);
      && t.k < |s.slots| && t.k < |r.slots| && r.slots == s.slots[t.k := r.slots[t.k]]
      && r.running == s.running && r.log == s.log && r.phase == s.phase
      && r.slots[t.k].kind == s.slots[t.k].kind && (r.slots[t.k].waiter ==> s.slots[t.k].waiter)
      && SlotOK(r.slots, r.running, |r.log|, t.k)
      && r.pending - s.pending == (|r.inbox| + Busy(r.slots[t.k])) - (|s.inbox| + Busy(s.slots[t.k]))
  {
    assert SlotOK(s.slots, s.running, |s.log|, t.k);
  }

  /** A step of the goroutines keeps the accounting exact. */
  lemma GoroutineStepKeeps<M, Id(!new), Msg, Cmd, Loc, W>(p: Program<M, Id, Msg, Cmd, Loc, W>,
      s: State<M, Id, Msg, Cmd, Loc, W>, t: Step<Id, Msg, Loc, W>)
    requires Inv(p, s) && Enabled(p, s, t) && GoroutineStep(t)
    ensures Accounted(Next(p, s, t))
  {
    if t.Call? {
      SlotAdded(s.slots, s.running, |s.log|, Slot(Caller, None, Some(Envelope(t.msg, 0)), false));
    } else {
      GoroutineStepShape(p, s, t);
      SlotReplaced(s.slots, s.running, |s.log|, t.k, Next(p, s, t).slots[t.k]);
    }
  }

  /** What a goroutine hands to the inbox is caused by nothing or by something already logged. */
  lemma GoroutineStepCauses<M, Id(!new), Msg, Cmd, Loc, W>(p: Program<M, Id, Msg, Cmd, Loc, W>,
      s: State<M, Id, Msg, Cmd, Loc, W>, t: Step<Id, Msg, Loc, W>)
    requires Inv(p, s) && Enabled(p, s, t) && GoroutineStep(t)
    ensures CausesOK(Next(p, s, t))
  {
    if t.Deliver? {
      assert SlotOK(s.slots, s.running, |s.log|, t.k);
    }
  }

  /** Steps inside a turn that start no goroutine and log nothing. */
  lemma TurnAccounts<M, Id(!new), Msg, Cmd, Loc, W>(p: Program<M, Id, Msg, Cmd, Loc, W>,
      s: State<M, Id, Msg, Cmd, Loc, W>, t: Step<Id, Msg, Loc, W>)
    requires Inv(p, s) && Enabled(p, s, t) && (t.Take? || t.Apply? || t.DeliverOwn? || t.Settle?)
    ensures var r := Next(p, s, t);
      r.slots == s.slots && r.running == s.running && r.log == s.log && r.pending == Load(r)
  {
  }

  lemma AppendAccounts<M, Id(!new), Msg, Cmd, Loc, W>(p: Program<M, Id, Msg, Cmd, Loc, W>,
      s: State<M, Id, Msg, Cmd, Loc, W>, t: Step<Id, Msg, Loc, W>)
    requires Inv(p, s) && Enabled(p, s, t) && t.Append?
    ensures Accounted(Next(p, s, t))
  {
    SlotsOutliveAppend(s.slots, s.running, |s.log|, |s.log| + 1);
  }

  lemma InterpretAccounts<M, Id(!new), Msg, Cmd, Loc, W>(p: Program<M, Id, Msg, Cmd, Loc, W>,
      s: State<M, Id, Msg, Cmd, Loc, W>, t: Step<Id, Msg, Loc, W>)
    requires Inv(p, s) && Enabled(p, s, t) && t.Interpret?
    ensures Accounted(Next(p, s, t))
  {
    var o := s.phase.todo[0];
    if o.Do? && p.begin(o.cmd).Some? {
      SlotAdded(s.slots, s.running, |s.log|, Slot(Effect(s.phase.offset), Some(p.begin(o.cmd).value), None, false));
    }
  }

  lemma ReducerCauses<M, Id(!new), Msg, Cmd, Loc, W>(p: Program<M, Id, Msg, Cmd, Loc, W>,
      s: State<M, Id, Msg, Cmd, Loc, W>, t: Step<Id, Msg, Loc, W>)
    requires Inv(p, s) && Enabled(p, s, t) && ReducerStep(t)
    ensures CausesOK(Next(p, s, t))
  {
  }

  /** A step of the reducer keeps the accounting exact. */
  lemma ReducerStepKeeps<M, Id(!new), Msg, Cmd, Loc, W>(p: Program<M, Id, Msg, Cmd, Loc, W>,
      s: State<M, Id, Msg, Cmd, Loc, W>, t: Step<Id, Msg, Loc, W>)
    requires Inv(p, s) && Enabled(p, s, t) && ReducerStep(t)
    ensures Accounted(Next(p, s, t)) && CausesOK(Next(p, s, t))
  {
    ReducerCauses(p, s, t);
    if t.Append? {
      AppendAccounts(p, s, t);
    } else if t.Interpret? {
      InterpretAccounts(p, s, t);
    } else {
      TurnAccounts(p, s, t);
    }
  }

  /** Between append and apply the model lags the log by exactly the message in hand. */
  lemma AppendFolds<M, Id(!new), Msg, Cmd, Loc, W>(p: Program<M, Id, Msg, Cmd, Loc, W>,
      s: State<M, Id, Msg, Cmd, Loc, W>, t: Step<Id, Msg, Loc, W>)
    requires Inv(p, s) && Enabled(p, s, t) && t.Append?
    ensures var r := Next(p, s, t); Folded(r) == Folded(s) == s.log && r.model == s.model && r.running == s.running
  {
    assert Next(p, s, t).log[..|s.log|] == s.log;
  }

  lemma ApplyFolds<M, Id(!new), Msg, Cmd, Loc, W>(p: Program<M, Id, Msg, Cmd, Loc, W>,
      s: State<M, Id, Msg, Cmd, Loc, W>, t: Step<Id, Msg, Loc, W>)
    requires Inv(p, s) && Enabled(p, s, t) && t.Apply?
    ensures var r := Next(p, s, t); Folded(r) == s.log && r.model == Fold(p, s.log)
  {
    FoldAppend(p, Folded(s), s.phase.env);
    assert s.log == Folded(s) + [s.phase.env];
  }

  /** The rest of a turn leaves log, model and sources alone. */
  lemma TurnFolds<M, Id(!new), Msg, Cmd, Loc, W>(p: Program<M, Id, Msg, Cmd, Loc, W>,
      s: State<M, Id, Msg, Cmd, Loc, W>, t: Step<Id, Msg, Loc, W>)
    requires Inv(p, s) && Enabled(p, s, t) && ReducerStep(t) && !t.Append? && !t.Apply?
    ensures var r := Next(p, s, t);
      && Folded(r) == Folded(s) == s.log && r.model == s.model && r.running == s.running && r.live &&
           r.booting == s.booting
      && (r.phase.Interpreting? <==> s.phase.Interpreting?)
  {
  }

  /** The model in memory follows the log through every turn. */
  lemma ReducerStepFolds<M, Id(!new), Msg, Cmd, Loc, W>(p: Program<M, Id, Msg, Cmd, Loc, W>,
      s: State<M, Id, Msg, Cmd, Loc, W>, t: Step<Id, Msg, Loc, W>)
    requires Inv(p, s) && Enabled(p, s, t) && ReducerStep(t)
    ensures var r := Next(p, s, t); r.live && r.model == Fold(p, Folded(r)) && Reconciled(p, r)
  {
    if t.Append? {
      AppendFolds(p, s, t);
    } else if t.Apply? {
      ApplyFolds(p, s, t);
    } else {
      TurnFolds(p, s, t);
    }
  }

  lemma ReconcileStepKeeps<M, Id(!new), Msg, Cmd, Loc, W>(p: Program<M, Id, Msg, Cmd, Loc, W>,
      s: State<M, Id, Msg, Cmd, Loc, W>, t: Step<Id, Msg, Loc, W>)
    requires Inv(p, s) && Enabled(p, s, t) && (t.Diff? || t.BootDiff?)
    ensures Inv(p, Next(p, s, t))
  {
    ReconcileMeansDeclared(p, s, t.gone, t.added);
  }

  lemma GoroutineStepFolds<M, Id(!new), Msg, Cmd, Loc, W>(p: Program<M, Id, Msg, Cmd, Loc, W>,
      s: State<M, Id, Msg, Cmd, Loc, W>, t: Step<Id, Msg, Loc, W>)
    requires Inv(p, s) && Enabled(p, s, t) && GoroutineStep(t)
    ensures var r := Next(p, s, t); r.live && Folded(r) == Folded(s) && r.model == s.model && Reconciled(p, r)
  {
  }

  lemma ProcessStepKeeps<M, Id(!new), Msg, Cmd, Loc, W>(p: Program<M, Id, Msg, Cmd, Loc, W>,
      s: State<M, Id, Msg, Cmd, Loc, W>, t: Step<Id, Msg, Loc, W>)
    requires Inv(p, s) && Enabled(p, s, t) && (t.Outside? || t.Crash? || t.Restart?)
    ensures Inv(p, Next(p, s, t))
  {
  }

  /** Every enabled step keeps the invariant, crash and restart included. */
  lemma StepKeeps<M, Id(!new), Msg, Cmd, Loc, W>(p: Program<M, Id, Msg, Cmd, Loc, W>,
      s: State<M, Id, Msg, Cmd, Loc, W>, t: Step<Id, Msg, Loc, W>)
    requires Inv(p, s) && Enabled(p, s, t)
    ensures Inv(p, Next(p, s, t))
  {
    if t.Diff? || t.BootDiff? {
      ReconcileStepKeeps(p, s, t);
    } else if GoroutineStep(t) {
      GoroutineStepKeeps(p, s, t);
      GoroutineStepCauses(p, s, t);
      GoroutineStepFolds(p, s, t);
    } else if ReducerStep(t) {
      ReducerStepKeeps(p, s, t);
      ReducerStepFolds(p, s, t);
    } else {
      ProcessStepKeeps(p, s, t);
    }
  }

  lemma StaysLive<M, Id(!new), Msg, Cmd, Loc, W>(p: Program<M, Id, Msg, Cmd, Loc, W>,
      s: State<M, Id, Msg, Cmd, Loc, W>, t: Step<Id, Msg, Loc, W>)
    requires Inv(p, s) && Enabled(p, s, t) && s.live && !t.Crash?
    ensures Next(p, s, t).live
  {
    if t.Diff? || t.BootDiff? {
      ReconcileMeansDeclared(p, s, t.gone, t.added);
    }
  }

  // ---------------------------------------------------------------- whole runs

  /** The process does not crash from state `i` to state `j`. */
  ghost predicate NoCrash<Id, Msg, Loc, W>(steps: seq<Step<Id, Msg, Loc, W>>, i: nat, j: nat)
    requires j <= |steps|
  {
    forall k :: i <= k < j ==> !steps[k].Crash?
  }

  /** `b` is the state right after a restart, and no crash has happened since. */
  ghost predicate Boot<Id, Msg, Loc, W>(steps: seq<Step<Id, Msg, Loc, W>>, b: nat, i: nat)
    requires i <= |steps|
  {
    0 < b <= i && steps[b - 1].Restart? && NoCrash(steps, b, i)
  }

  /** The invariant holds in every state of every run. */
  lemma {:induction false} RunKeeps<M, Id(!new), Msg, Cmd, Loc, W>(p: Program<M, Id, Msg, Cmd, Loc, W>,
      states: seq<State<M, Id, Msg, Cmd, Loc, W>>, steps: seq<Step<Id, Msg, Loc, W>>, i: nat)
    requires IsRun(p, states, steps) && i < |states|
    ensures Inv(p, states[i])
  {
    if i > 0 {
      RunKeeps(p, states, steps, i - 1);
      assert Takes(p, states, steps, i - 1);
      StepKeeps(p, states[i - 1], steps[i - 1]);
    }
  }

  /** Nothing is left to happen by itself: no queued message, no turn, no awaited work. */
  ghost predicate Quiet<M, Id(!new), Msg, Cmd, Loc, W>(s: State<M, Id, Msg, Cmd, Loc, W>)
  {
    && s.phase.Idle? && s.inbox == []
    && forall k :: 0 <= k < |s.slots| ==>
         && s.slots[k].transit.None? && !s.slots[k].waiter
         && (s.slots[k].run.Some? ==> s.slots[k].kind.Body? && !s.slots[k].kind.await && !Cancelled(s, k))
  }

  /** Settle's condition is exact: pending is zero if and only if the instance is quiet. */
  lemma PendingZeroIffQuiet<M, Id(!new), Msg, Cmd, Loc, W>(p: Program<M, Id, Msg, Cmd, Loc, W>,
      s: State<M, Id, Msg, Cmd, Loc, W>)
    requires Inv(p, s)
    ensures s.pending >= 0
    ensures s.pending == 0 <==> Quiet(s)
  {
    var f := (x: Slot<Id, Msg, Loc>) => Busy(x);
    if s.pending == 0 {
      forall k | 0 <= k < |s.slots|
        ensures s.slots[k].transit.None? && !s.slots[k].waiter
        ensures s.slots[k].run.Some? ==> s.slots[k].kind.Body? && !s.slots[k].kind.await && !Cancelled(s, k)
      {
        SumBound(s.slots, k, f);
        assert SlotOK(s.slots, s.running, |s.log|, k);
      }
    }
    if Quiet(s) {
      forall k | 0 <= k < |s.slots| ensures f(s.slots[k]) == 0 {
        assert SlotOK(s.slots, s.running, |s.log|, k);
      }
      SumZero(s.slots, f);
    }
  }

  /**
   After Settle, only a Send through the front door or a live, long-lived source can cause
   another message: every other step of a settled instance leaves it settled, log unchanged.
   */
  lemma SettledStaysSettled<M, Id(!new), Msg, Cmd, Loc, W>(p: Program<M, Id, Msg, Cmd, Loc, W>,
      s: State<M, Id, Msg, Cmd, Loc, W>, t: Step<Id, Msg, Loc, W>)
    requires Inv(p, s) && s.live && !s.booting && s.pending == 0 && Enabled(p, s, t)
    ensures var r := Next(p, s, t);
      || t.Call? || t.Crash?
      || (t.Act? && t.emit.Some? && s.slots[t.k].kind.Body? && !s.slots[t.k].kind.await && !Cancelled(s, t.k))
      || (r.live && r.pending == 0 && r.log == s.log && r.model == s.model && r.inbox == [])
  {
    PendingZeroIffQuiet(p, s);
  }

  /**
   Convergence: at every reducer boundary the model is the fold of the log and the running
   sources are the declared ones, and crashing there and restarting rebuilds that same model.
   */
  lemma BoundaryConverges<M, Id(!new), Msg, Cmd, Loc, W>(p: Program<M, Id, Msg, Cmd, Loc, W>,
      states: seq<State<M, Id, Msg, Cmd, Loc, W>>, steps: seq<Step<Id, Msg, Loc, W>>, i: nat)
    requires IsRun(p, states, steps) && i < |states| && states[i].live && !states[i].booting
    requires states[i].phase.Idle? || states[i].phase.Taken? || states[i].phase.Settling?
    ensures states[i].model == Fold(p, states[i].log)
    ensures states[i].running.Keys == p.sources(states[i].model).Keys
    ensures var down := Next(p, states[i], Crash); Next(p, down, Restart).model == states[i].model
  {
    RunKeeps(p, states, steps, i);
  }

  /** A crash between append and apply: the restart applies the message the process did not. */
  lemma CrashMidTurn<M, Id(!new), Msg, Cmd, Loc, W>(p: Program<M, Id, Msg, Cmd, Loc, W>,
      s: State<M, Id, Msg, Cmd, Loc, W>)
    requires Inv(p, s) && s.live && s.phase.Applying?
    ensures Fold(p, s.log) == Next(p, s, Apply).model
  {
    ApplyFolds(p, s, Apply);
  }

  /** A crash anywhere, even between append and apply, loses no logged message. */
  lemma CrashAnywhereConverges<M, Id(!new), Msg, Cmd, Loc, W>(p: Program<M, Id, Msg, Cmd, Loc, W>,
      states: seq<State<M, Id, Msg, Cmd, Loc, W>>, steps: seq<Step<Id, Msg, Loc, W>>, i: nat)
    requires IsRun(p, states, steps) && i < |states| && states[i].live
    ensures var up := Next(p, Next(p, states[i], Crash), Restart);
      && up.log == states[i].log && up.world == states[i].world
      && up.model == (if states[i].phase.Applying? then Next(p, states[i], Apply).model else states[i].model)
  {
    RunKeeps(p, states, steps, i);
    if states[i].phase.Applying? { CrashMidTurn(p, states[i]); }
  }

  /** Offsets are contiguous from 1 and every cause is 0 or a strictly smaller offset. */
  lemma CausesPrecede<M, Id(!new), Msg, Cmd, Loc, W>(p: Program<M, Id, Msg, Cmd, Loc, W>,
      states: seq<State<M, Id, Msg, Cmd, Loc, W>>, steps: seq<Step<Id, Msg, Loc, W>>, i: nat, offset: nat)
    requires IsRun(p, states, steps) && i < |states| && 1 <= offset <= |states[i].log|
    ensures states[i].log[offset - 1].cause < offset
  {
    RunKeeps(p, states, steps, i);
  }

  /** The log only grows, and only by the message the reducer has taken. */
  lemma {:induction false} LogIsAppendOnly<M, Id(!new), Msg, Cmd, Loc, W>(p: Program<M, Id, Msg, Cmd, Loc, W>,
      states: seq<State<M, Id, Msg, Cmd, Loc, W>>, steps: seq<Step<Id, Msg, Loc, W>>, i: nat, j: nat)
    requires IsRun(p, states, steps) && i <= j < |states|
    ensures states[i].log <= states[j].log
    decreases j
  {
    if i < j {
      LogIsAppendOnly(p, states, steps, i, j - 1);
      RunKeeps(p, states, steps, j - 1);
      assert Takes(p, states, steps, j - 1);
      LogStep(p, states[j - 1], steps[j - 1]);
    }
  }

  lemma LogStep<M, Id(!new), Msg, Cmd, Loc, W>(p: Program<M, Id, Msg, Cmd, Loc, W>, s: State<M, Id, Msg, Cmd, Loc, W>,
      t: Step<Id, Msg, Loc, W>)
    requires Inv(p, s) && Enabled(p, s, t)
    ensures var r := Next(p, s, t); r.log == s.log || (t.Append? && r.log == s.log + [s.phase.env])
  {
    if t.Diff? || t.BootDiff? {
      ReconcileMeansDeclared(p, s, t.gone, t.added);
    }
  }

  lemma SurvivorStep<M, Id(!new), Msg, Cmd, Loc, W>(p: Program<M, Id, Msg, Cmd, Loc, W>,
      s: State<M, Id, Msg, Cmd, Loc, W>, t: Step<Id, Msg, Loc, W>, id: Id)
    requires Inv(p, s) && Enabled(p, s, t) && id in s.running && id in Next(p, s, t).running
    ensures Next(p, s, t).running[id] == s.running[id]
  {
    if t.Diff? || t.BootDiff? {
      ReconcileMeansDeclared(p, s, t.gone, t.added);
    }
  }

  /** A source that stays declared within one boot is never restarted: it keeps its goroutine. */
  lemma {:induction false} SurvivorsNeverRestart<M, Id(!new), Msg, Cmd, Loc, W>(p: Program<M, Id, Msg, Cmd, Loc, W>,
      states: seq<State<M, Id, Msg, Cmd, Loc, W>>, steps: seq<Step<Id, Msg, Loc, W>>, i: nat, j: nat, id: Id)
    requires IsRun(p, states, steps) && i <= j < |states|
    requires forall k :: i <= k <= j ==> id in states[k].running
    ensures states[j].running[id] == states[i].running[id]
    decreases j
  {
    if i < j {
      SurvivorsNeverRestart(p, states, steps, i, j - 1, id);
      RunKeeps(p, states, steps, j - 1);
      var s, t := states[j - 1], steps[j - 1];
      assert Takes(p, states, steps, j - 1);
      assert id in s.running && id in states[j].running;
      SurvivorStep(p, s, t, id);
    }
  }
}
