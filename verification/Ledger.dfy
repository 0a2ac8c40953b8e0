/**
 Bookkeeping over everything in flight, for an arbitrary program: what a step can create, move or
 lose. A protocol proof picks a weight per message, command and local state and reads off, step by
 step, how the total changes.
 */
module Ledger {
  import opened Prelude
  import opened Runtime
  import opened RuntimeProofs

  /** How much of some resource a message, a command or an edge-code state stands for. */
  datatype Weight<!Msg, !Cmd, !Loc> = Weight(msg: Msg -> nat, cmd: Cmd -> nat, loc: Loc -> nat)

  function SlotTok<Id, Msg, Cmd, Loc>(x: Slot<Id, Msg, Loc>, w: Weight<Msg, Cmd, Loc>): nat
  {
    (if x.run.Some? then w.loc(x.run.value) else 0) + (if x.transit.Some? then w.msg(x.transit.value.msg) else 0)
  }

  function OutTok<Msg, Cmd, Loc>(o: Out<Msg, Cmd>, w: Weight<Msg, Cmd, Loc>): nat
  {
    match o
    case Send(m) => w.msg(m)
    case Do(c) => w.cmd(c)
  }

  function SlotsTok<Id, Msg, Cmd, Loc>(slots: seq<Slot<Id, Msg, Loc>>, w: Weight<Msg, Cmd, Loc>): nat
  {
    Sum(slots, (x: Slot<Id, Msg, Loc>) => SlotTok(x, w))
  }

  function QueueTok<Msg, Cmd, Loc>(q: seq<Envelope<Msg>>, w: Weight<Msg, Cmd, Loc>): nat
  {
    Sum(q, (e: Envelope<Msg>) => w.msg(e.msg))
  }

  function OutsTok<Msg, Cmd, Loc>(outs: seq<Out<Msg, Cmd>>, w: Weight<Msg, Cmd, Loc>): nat
  {
    Sum(outs, (o: Out<Msg, Cmd>) => OutTok(o, w))
  }

  /** An envelope the reducer has logged but not applied still counts: its effects are to come. */
  function PhaseTok<Msg, Cmd, Loc>(ph: Phase<Msg, Cmd>, w: Weight<Msg, Cmd, Loc>): nat
  {
    match ph
    case Idle => 0
    case Taken(e) => w.msg(e.msg)
    case Applying(e) => w.msg(e.msg)
    case Interpreting(_, todo, own) => OutsTok(todo, w) + if own.Some? then w.msg(own.value.msg) else 0
    case Settling => 0
  }

  /** The total in flight. */
  function Tok<M, Id, Msg, Cmd, Loc, W>(s: State<M, Id, Msg, Cmd, Loc, W>, w: Weight<Msg, Cmd, Loc>): nat
  {
    SlotsTok(s.slots, w) + QueueTok(s.inbox, w) + PhaseTok(s.phase, w)
  }

  /** Commands that stand for nothing add nothing. */
  lemma OutsTokNone<Msg, Cmd, Loc>(outs: seq<Out<Msg, Cmd>>, w: Weight<Msg, Cmd, Loc>)
    requires forall i :: 0 <= i < |outs| ==> OutTok(outs[i], w) == 0
    ensures OutsTok(outs, w) == 0
  {
    SumZero(outs, (o: Out<Msg, Cmd>) => OutTok(o, w));
  }

  /** A single command adds its own weight. */
  lemma OutsTokOne<Msg, Cmd, Loc>(outs: seq<Out<Msg, Cmd>>, w: Weight<Msg, Cmd, Loc>)
    requires |outs| == 1
    ensures OutsTok(outs, w) == OutTok(outs[0], w)
  {
    assert outs == [] + [outs[0]];
    SumAppend([], outs[0], (o: Out<Msg, Cmd>) => OutTok(o, w));
  }

  /** What a source that is about to start brings along. */
  function StartTok<Id, Msg, Cmd, Loc>(id: Id, declared: map<Id, Source<Loc>>, w: Weight<Msg, Cmd, Loc>): nat
  {
    if id in declared then w.loc(declared[id].start) else 0
  }

  function StartsTok<Id, Msg, Cmd, Loc>(added: seq<Id>, declared: map<Id, Source<Loc>>, w: Weight<Msg, Cmd, Loc>): nat
  {
    Sum(added, (id: Id) => StartTok(id, declared, w))
  }

  /** How one step changes the total. */
  ghost function Change<M, Id(!new), Msg, Cmd, Loc, W>(p: Program<M, Id, Msg, Cmd, Loc, W>,
      s: State<M, Id, Msg, Cmd, Loc, W>, t: Step<Id, Msg, Loc, W>, w: Weight<Msg, Cmd, Loc>): int
    requires Enabled(p, s, t)
  {
    match t
    case Call(msg) => w.msg(msg)
    case Apply => OutsTok(ApplyMsg(p, s.model, s.phase.env.msg, |s.log|).1, w) - w.msg(s.phase.env.msg)
    case Interpret =>
      var o := s.phase.todo[0];
      if o.Send? then 0
      else (if p.begin(o.cmd).Some? then w.loc(p.begin(o.cmd).value) else 0) - w.cmd(o.cmd)
    case Diff(_, added) => StartsTok(added, p.sources(s.model), w)
    case BootDiff(_, added) => StartsTok(added, p.sources(s.model), w)
    case Act(k, _, local, emit) =>
      w.loc(local) + (if emit.Some? then w.msg(emit.value) else 0) - w.loc(s.slots[k].run.value)
    case Return(k) => 0 - w.loc(s.slots[k].run.value)
    case Crash => 0 - Tok(s, w)
    case _ => 0
  }

  lemma {:induction false} BornTok<Id(!new), Msg, Cmd, Loc>(slots: seq<Slot<Id, Msg, Loc>>, from: nat, added: seq<Id>,
      declared: map<Id, Source<Loc>>, w: Weight<Msg, Cmd, Loc>)
    requires from <= |slots| && BornInOrder(slots, from, added, declared)
    ensures SlotsTok(slots, w) == SlotsTok(slots[..from], w) + StartsTok(added, declared, w)
    decreases |added|
  {
    if added == [] {
      assert slots[..from] == slots;
    } else {
      var n := |slots| - 1;
      var front := added[..|added| - 1];
      assert slots[n] == slots[from + |front|] == Born(added[|front|], declared[added[|front|]]);
      forall i | 0 <= i < |front| ensures front[i] in declared &&
        slots[..n][from + i] == Born(front[i], declared[front[i]]) {
        assert added[i] == front[i] && slots[from + i] == Born(added[i], declared[added[i]]);
      }
      BornTok(slots[..n], from, front, declared, w);
      assert slots[..n][..from] == slots[..from];
    }
  }

  lemma ReconcileTok<M, Id(!new), Msg, Cmd, Loc, W>(p: Program<M, Id, Msg, Cmd, Loc, W>,
      s: State<M, Id, Msg, Cmd, Loc, W>, gone: seq<Id>, added: seq<Id>, w: Weight<Msg, Cmd, Loc>)
    requires Accounted(s) && DiffOrder(p, s, gone, added)
    ensures SlotsTok(Reconcile(p, s, gone, added).slots, w) == SlotsTok(s.slots, w) +
      StartsTok(added, p.sources(s.model), w)
  {
    ReconcileMeansDeclared(p, s, gone, added);
    var r := Reconcile(p, s, gone, added);
    BornTok(r.slots, |s.slots|, added, p.sources(s.model), w);
    SameTok(r.slots[..|s.slots|], s.slots, w);
  }

  lemma {:induction false} SameTok<Id(!new), Msg, Cmd, Loc>(a: seq<Slot<Id, Msg, Loc>>, b: seq<Slot<Id, Msg, Loc>>,
      w: Weight<Msg, Cmd, Loc>)
    requires |a| == |b| && forall k :: 0 <= k < |a| ==> a[k].run == b[k].run && a[k].transit == b[k].transit
    ensures SlotsTok(a, w) == SlotsTok(b, w)
  {
    if a != [] {
      SameTok(a[..|a| - 1], b[..|b| - 1], w);
    }
  }

  lemma CallTok<M, Id(!new), Msg, Cmd, Loc, W>(p: Program<M, Id, Msg, Cmd, Loc, W>,
      s: State<M, Id, Msg, Cmd, Loc, W>, t: Step<Id, Msg, Loc, W>, w: Weight<Msg, Cmd, Loc>)
    requires Enabled(p, s, t) && t.Call?
    ensures Tok(Next(p, s, t), w) == Tok(s, w) + w.msg(t.msg)
  {
    SumAppend(s.slots, Slot(Caller, None, Some(Envelope(t.msg, 0)), false), (x: Slot<Id, Msg, Loc>) => SlotTok(x, w));
  }

  /** One goroutine changed: the goroutines' total changes as its own weight does. */
  lemma MovedTok<M, Id(!new), Msg, Cmd, Loc, W>(p: Program<M, Id, Msg, Cmd, Loc, W>,
      s: State<M, Id, Msg, Cmd, Loc, W>, t: Step<Id, Msg, Loc, W>, w: Weight<Msg, Cmd, Loc>)
    requires Inv(p, s) && Enabled(p, s, t) && GoroutineStep(t) && !t.Call?
    ensures var r := Next(p, s, t);
      && t.k < |s.slots| && t.k < |r.slots| && r.phase == s.phase
      && SlotsTok(r.slots, w) == SlotsTok(s.slots, w) - SlotTok(s.slots[t.k], w) + SlotTok(r.slots[t.k], w)
  {
    GoroutineStepShape(p, s, t);
    SumUpdate(s.slots, t.k, Next(p, s, t).slots[t.k], (x: Slot<Id, Msg, Loc>) => SlotTok(x, w));
  }

  lemma DeliverTok<M, Id(!new), Msg, Cmd, Loc, W>(p: Program<M, Id, Msg, Cmd, Loc, W>,
      s: State<M, Id, Msg, Cmd, Loc, W>, t: Step<Id, Msg, Loc, W>, w: Weight<Msg, Cmd, Loc>)
    requires Inv(p, s) && Enabled(p, s, t) && t.Deliver?
    ensures Tok(Next(p, s, t), w) == Tok(s, w)
  {
    MovedTok(p, s, t, w);
    SumAppend(s.inbox, s.slots[t.k].transit.value, (e: Envelope<Msg>) => w.msg(e.msg));
  }

  lemma GoroutineTok<M, Id(!new), Msg, Cmd, Loc, W>(p: Program<M, Id, Msg, Cmd, Loc, W>,
      s: State<M, Id, Msg, Cmd, Loc, W>, t: Step<Id, Msg, Loc, W>, w: Weight<Msg, Cmd, Loc>)
    requires Inv(p, s) && Enabled(p, s, t) && GoroutineStep(t)
    ensures Tok(Next(p, s, t), w) == Tok(s, w) + Change(p, s, t, w)
  {
    if t.Call? {
      CallTok(p, s, t, w);
    } else if t.Deliver? {
      DeliverTok(p, s, t, w);
    } else {
      MovedTok(p, s, t, w);
    }
  }

  lemma TakeTok<M, Id(!new), Msg, Cmd, Loc, W>(p: Program<M, Id, Msg, Cmd, Loc, W>, s: State<M, Id, Msg, Cmd, Loc, W>,
      t: Step<Id, Msg, Loc, W>, w: Weight<Msg, Cmd, Loc>)
    requires Inv(p, s) && Enabled(p, s, t) && (t.Take? || t.DeliverOwn?)
    ensures Tok(Next(p, s, t), w) == Tok(s, w)
  {
    if t.Take? {
      SumTail(s.inbox, (e: Envelope<Msg>) => w.msg(e.msg));
    } else {
      SumAppend(s.inbox, s.phase.own.value, (e: Envelope<Msg>) => w.msg(e.msg));
    }
  }

  /** Interpreting takes the next command off the list: a send is then the envelope in transit. */
  lemma TodoTok<M, Id(!new), Msg, Cmd, Loc, W>(p: Program<M, Id, Msg, Cmd, Loc, W>, s: State<M, Id, Msg, Cmd, Loc, W>,
      t: Step<Id, Msg, Loc, W>, w: Weight<Msg, Cmd, Loc>)
    requires Inv(p, s) && Enabled(p, s, t) && t.Interpret?
    ensures var o := s.phase.todo[0];
      PhaseTok(Next(p, s, t).phase, w) == PhaseTok(s.phase, w) - (if o.Do? then w.cmd(o.cmd) else 0)
  {
    SumTail(s.phase.todo, (o: Out<Msg, Cmd>) => OutTok(o, w));
  }

  lemma SpawnTok<Id(!new), Msg, Cmd, Loc>(slots: seq<Slot<Id, Msg, Loc>>, cause: nat, l: Loc, w: Weight<Msg, Cmd, Loc>)
    ensures SlotsTok(slots + [Slot(Effect(cause), Some(l), None, false)], w) == SlotsTok(slots, w) + w.loc(l)
  {
    SumAppend(slots, Slot(Effect(cause), Some(l), None, false), (x: Slot<Id, Msg, Loc>) => SlotTok(x, w));
  }

  lemma InterpretTok<M, Id(!new), Msg, Cmd, Loc, W>(p: Program<M, Id, Msg, Cmd, Loc, W>,
      s: State<M, Id, Msg, Cmd, Loc, W>, t: Step<Id, Msg, Loc, W>, w: Weight<Msg, Cmd, Loc>)
    requires Inv(p, s) && Enabled(p, s, t) && t.Interpret?
    ensures Tok(Next(p, s, t), w) == Tok(s, w) + Change(p, s, t, w)
  {
    TodoTok(p, s, t, w);
    var o := s.phase.todo[0];
    if o.Do? && p.begin(o.cmd).Some? {
      SpawnTok(s.slots, s.phase.offset, p.begin(o.cmd).value, w);
    }
  }

  lemma ReducerTok<M, Id(!new), Msg, Cmd, Loc, W>(p: Program<M, Id, Msg, Cmd, Loc, W>,
      s: State<M, Id, Msg, Cmd, Loc, W>, t: Step<Id, Msg, Loc, W>, w: Weight<Msg, Cmd, Loc>)
    requires Inv(p, s) && Enabled(p, s, t) && ReducerStep(t)
    ensures Tok(Next(p, s, t), w) == Tok(s, w) + Change(p, s, t, w)
  {
    if t.Interpret? {
      InterpretTok(p, s, t, w);
    } else if t.Take? || t.DeliverOwn? {
      TakeTok(p, s, t, w);
    }
  }

  /** The ledger is exact: every step changes the total in flight by precisely `Change`. */
  lemma LedgerIsExact<M, Id(!new), Msg, Cmd, Loc, W>(p: Program<M, Id, Msg, Cmd, Loc, W>,
      s: State<M, Id, Msg, Cmd, Loc, W>, t: Step<Id, Msg, Loc, W>, w: Weight<Msg, Cmd, Loc>)
    requires Inv(p, s) && Enabled(p, s, t)
    ensures Tok(Next(p, s, t), w) == Tok(s, w) + Change(p, s, t, w)
  {
    if t.Diff? || t.BootDiff? {
      ReconcileMeansDeclared(p, s, t.gone, t.added);
      ReconcileTok(p, s, t.gone, t.added, w);
    } else if GoroutineStep(t) {
      GoroutineTok(p, s, t, w);
    } else if ReducerStep(t) {
      ReducerTok(p, s, t, w);
    }
  }

  lemma DeadIsEmpty<M, Id(!new), Msg, Cmd, Loc, W>(p: Program<M, Id, Msg, Cmd, Loc, W>,
      s: State<M, Id, Msg, Cmd, Loc, W>, w: Weight<Msg, Cmd, Loc>)
    requires Inv(p, s) && !s.live
    ensures Tok(s, w) == 0
  {
  }

  /** Anything in flight is a lower bound of the total. */
  lemma InFlightCounts<M, Id(!new), Msg, Cmd, Loc, W>(s: State<M, Id, Msg, Cmd, Loc, W>, w: Weight<Msg, Cmd, Loc>)
    ensures forall k :: 0 <= k < |s.slots| ==> SlotTok(s.slots[k], w) <= Tok(s, w)
    ensures PhaseTok(s.phase, w) <= Tok(s, w)
  {
    forall k | 0 <= k < |s.slots| ensures SlotTok(s.slots[k], w) <= Tok(s, w) {
      SumBound(s.slots, k, (x: Slot<Id, Msg, Loc>) => SlotTok(x, w));
    }
  }

  // ---------------------------------------------------------------- properties of what is in flight

  /** What every message, command and edge-code state in flight must satisfy. */
  datatype Good<!Msg, !Cmd, !Loc> = Good(msg: Msg -> bool, cmd: Cmd -> bool, loc: Loc -> bool)

  ghost predicate SlotGood<Id, Msg, Cmd, Loc>(x: Slot<Id, Msg, Loc>, g: Good<Msg, Cmd, Loc>)
  {
    (x.run.Some? ==> g.loc(x.run.value)) && (x.transit.Some? ==> g.msg(x.transit.value.msg))
  }

  ghost predicate OutGood<Msg, Cmd, Loc>(o: Out<Msg, Cmd>, g: Good<Msg, Cmd, Loc>)
  {
    match o
    case Send(m) => g.msg(m)
    case Do(c) => g.cmd(c)
  }

  ghost predicate OutsGood<Msg, Cmd, Loc>(outs: seq<Out<Msg, Cmd>>, g: Good<Msg, Cmd, Loc>)
  {
    forall i :: 0 <= i < |outs| ==> OutGood(outs[i], g)
  }

  ghost predicate PhaseGood<Msg, Cmd, Loc>(ph: Phase<Msg, Cmd>, g: Good<Msg, Cmd, Loc>)
  {
    match ph
    case Taken(e) => g.msg(e.msg)
    case Applying(e) => g.msg(e.msg)
    case Interpreting(_, todo, own) => OutsGood(todo, g) && (own.Some? ==> g.msg(own.value.msg))
    case _ => true
  }

  ghost predicate QueueGood<Msg, Cmd, Loc>(q: seq<Envelope<Msg>>, g: Good<Msg, Cmd, Loc>)
  {
    forall i :: 0 <= i < |q| ==> g.msg(q[i].msg)
  }

  ghost predicate Carries<M, Id, Msg, Cmd, Loc, W>(s: State<M, Id, Msg, Cmd, Loc, W>, g: Good<Msg, Cmd, Loc>)
  {
    && (forall k :: 0 <= k < |s.slots| ==> SlotGood(s.slots[k], g))
    && QueueGood(s.inbox, g) && QueueGood(s.log, g) && PhaseGood(s.phase, g)
  }

  /** A step puts only good things in flight. */
  ghost predicate Produces<M, Id(!new), Msg, Cmd, Loc, W>(p: Program<M, Id, Msg, Cmd, Loc, W>,
      s: State<M, Id, Msg, Cmd, Loc, W>, t: Step<Id, Msg, Loc, W>, g: Good<Msg, Cmd, Loc>)
    requires Enabled(p, s, t)
  {
    match t
    case Call(msg) => g.msg(msg)
    case Apply => OutsGood(ApplyMsg(p, s.model, s.phase.env.msg, |s.log|).1, g)
    case Interpret =>
      var o := s.phase.todo[0];
      o.Do? && p.begin(o.cmd).Some? ==> g.loc(p.begin(o.cmd).value)
    case Diff(_, added) => forall id :: id in added ==> g.loc(p.sources(s.model)[id].start)
    case BootDiff(_, added) => forall id :: id in added ==> g.loc(p.sources(s.model)[id].start)
    case Act(_, _, local, emit) => g.loc(local) && (emit.Some? ==> g.msg(emit.value))
    case _ => true
  }

  lemma GoodReconcile<M, Id(!new), Msg, Cmd, Loc, W>(p: Program<M, Id, Msg, Cmd, Loc, W>,
      s: State<M, Id, Msg, Cmd, Loc, W>, t: Step<Id, Msg, Loc, W>, g: Good<Msg, Cmd, Loc>)
    requires Inv(p, s) && Enabled(p, s, t) && Carries(s, g) && Produces(p, s, t, g) && (t.Diff? || t.BootDiff?)
    ensures Carries(Next(p, s, t), g)
  {
    ReconcileMeansDeclared(p, s, t.gone, t.added);
    GoodBorn(s.slots, Next(p, s, t).slots, t.added, p.sources(s.model), g);
  }

  lemma GoodBorn<Id(!new), Msg, Cmd, Loc>(old': seq<Slot<Id, Msg, Loc>>, new': seq<Slot<Id, Msg, Loc>>, added: seq<Id>,
      declared: map<Id, Source<Loc>>, g: Good<Msg, Cmd, Loc>)
    requires forall k :: 0 <= k < |old'| ==> SlotGood(old'[k], g)
    requires BornInOrder(new', |old'|, added, declared)
    requires forall k :: 0 <= k < |old'| ==> new'[k] == old'[k].(waiter := new'[k].waiter)
    requires forall id :: id in added && id in declared ==> g.loc(declared[id].start)
    ensures forall k :: 0 <= k < |new'| ==> SlotGood(new'[k], g)
  {
    forall k | 0 <= k < |new'| ensures SlotGood(new'[k], g) {
      if k < |old'| {
        assert SlotGood(old'[k], g);
      } else {
        var i := k - |old'|;
        assert added[i] in added && new'[|old'| + i] == Born(added[i], declared[added[i]]);
      }
    }
  }

  lemma GoodKept<M, Id(!new), Msg, Cmd, Loc, W>(p: Program<M, Id, Msg, Cmd, Loc, W>, s: State<M, Id, Msg, Cmd, Loc, W>,
      t: Step<Id, Msg, Loc, W>, g: Good<Msg, Cmd, Loc>)
    requires Inv(p, s) && Enabled(p, s, t) && Carries(s, g) && Produces(p, s, t, g)
    ensures Carries(Next(p, s, t), g)
  {
    if t.Diff? || t.BootDiff? {
      GoodReconcile(p, s, t, g);
    } else if GoroutineStep(t) {
      GoodGoroutine(p, s, t, g);
    } else if ReducerStep(t) {
      GoodReducer(p, s, t, g);
    }
  }

  lemma GoodGoroutine<M, Id(!new), Msg, Cmd, Loc, W>(p: Program<M, Id, Msg, Cmd, Loc, W>,
      s: State<M, Id, Msg, Cmd, Loc, W>, t: Step<Id, Msg, Loc, W>, g: Good<Msg, Cmd, Loc>)
    requires Inv(p, s) && Enabled(p, s, t) && Carries(s, g) && Produces(p, s, t, g) && GoroutineStep(t)
    ensures Carries(Next(p, s, t), g)
  {
    if !t.Call? {
      GoroutineStepShape(p, s, t);
      assert SlotGood(s.slots[t.k], g);
    }
  }

  lemma GoodReducer<M, Id(!new), Msg, Cmd, Loc, W>(p: Program<M, Id, Msg, Cmd, Loc, W>,
      s: State<M, Id, Msg, Cmd, Loc, W>, t: Step<Id, Msg, Loc, W>, g: Good<Msg, Cmd, Loc>)
    requires Inv(p, s) && Enabled(p, s, t) && Carries(s, g) && Produces(p, s, t, g) && ReducerStep(t)
    ensures Carries(Next(p, s, t), g)
  {
    if t.Interpret? {
      assert OutGood(s.phase.todo[0], g);
    }
  }

  // ---------------------------------------------------------------- goroutines come and stay

  /** Goroutines keep their code and envelope; new ones start somewhere `f` admits, with nothing in transit. */
  ghost predicate CarriedOver<Id(!new), Msg, Loc>(a: seq<Slot<Id, Msg, Loc>>, b: seq<Slot<Id, Msg, Loc>>,
      f: Loc -> bool)
  {
    && |a| <= |b|
    && (forall k :: 0 <= k < |a| ==> b[k].run == a[k].run && b[k].transit == a[k].transit)
    && (forall k :: |a| <= k < |b| ==> b[k].transit.None? && b[k].run.Some? && f(b[k].run.value))
  }

  lemma BornWhereAdmitted<Id(!new), Msg, Loc>(a: seq<Slot<Id, Msg, Loc>>, b: seq<Slot<Id, Msg, Loc>>, added: seq<Id>,
      declared: map<Id, Source<Loc>>, f: Loc -> bool)
    requires BornInOrder(b, |a|, added, declared)
    requires forall k :: 0 <= k < |a| ==> b[k] == a[k].(waiter := b[k].waiter)
    requires forall id :: id in declared ==> f(declared[id].start)
    ensures CarriedOver(a, b, f)
  {
    forall k | |a| <= k < |b| ensures b[k].transit.None? && b[k].run.Some? && f(b[k].run.value) {
      var i := k - |a|;
      assert added[i] in declared && b[|a| + i] == Born(added[i], declared[added[i]]);
    }
  }

  lemma SourcesComeFresh<M, Id(!new), Msg, Cmd, Loc, W>(p: Program<M, Id, Msg, Cmd, Loc, W>,
      s: State<M, Id, Msg, Cmd, Loc, W>, t: Step<Id, Msg, Loc, W>, f: Loc -> bool)
    requires Inv(p, s) && Enabled(p, s, t) && (t.Diff? || t.BootDiff?)
    requires forall id :: id in p.sources(s.model) ==> f(p.sources(s.model)[id].start)
    ensures CarriedOver(s.slots, Next(p, s, t).slots, f)
  {
    ReconcileMeansDeclared(p, s, t.gone, t.added);
    BornWhereAdmitted(s.slots, Next(p, s, t).slots, t.added, p.sources(s.model), f);
  }

  /** Outside goroutine steps nothing moves inside a goroutine. */
  lemma GoroutinesCarryOver<M, Id(!new), Msg, Cmd(!new), Loc, W>(p: Program<M, Id, Msg, Cmd, Loc, W>,
      s: State<M, Id, Msg, Cmd, Loc, W>, t: Step<Id, Msg, Loc, W>, f: Loc -> bool)
    requires Inv(p, s) && Enabled(p, s, t) && !GoroutineStep(t) && !t.Crash?
    requires forall id :: id in p.sources(s.model) ==> f(p.sources(s.model)[id].start)
    requires forall cmd :: p.begin(cmd).Some? ==> f(p.begin(cmd).value)
    ensures CarriedOver(s.slots, Next(p, s, t).slots, f)
  {
    if t.Diff? || t.BootDiff? {
      SourcesComeFresh(p, s, t, f);
    }
  }

  /** Steps that neither change the model, nor the sources, nor the world: plumbing and returns. */
  predicate Plumbing<Id, Msg, Loc, W>(t: Step<Id, Msg, Loc, W>)
  {
    t.Call? || t.Deliver? || t.Take? || t.Append? || t.Interpret? || t.DeliverOwn? || t.Settle? || t.Return? ||
      t.Unwait?
  }

  lemma PlumbingShape<M, Id(!new), Msg, Cmd, Loc, W>(p: Program<M, Id, Msg, Cmd, Loc, W>,
      s: State<M, Id, Msg, Cmd, Loc, W>, t: Step<Id, Msg, Loc, W>)
    requires Inv(p, s) && Enabled(p, s, t) && Plumbing(t)
    ensures var r := Next(p, s, t);
      r.world == s.world && r.model == s.model && r.running == s.running && r.live && s.live && r.boots == s.boots
  {
  }

  /** Within a boot only applying changes the model and only reconciling the running sources. */
  lemma NothingReconciled<M, Id(!new), Msg, Cmd, Loc, W>(p: Program<M, Id, Msg, Cmd, Loc, W>,
      s: State<M, Id, Msg, Cmd, Loc, W>, t: Step<Id, Msg, Loc, W>)
    requires Enabled(p, s, t) && (Plumbing(t) || t.Act? || t.Outside?)
    ensures var r := Next(p, s, t); r.model == s.model && r.running == s.running && r.live == s.live
  {
  }

  /** A pass over the sources starts only what was not running, and ends with what is declared. */
  lemma ReconcileShape<M, Id(!new), Msg, Cmd, Loc, W>(p: Program<M, Id, Msg, Cmd, Loc, W>,
      s: State<M, Id, Msg, Cmd, Loc, W>, t: Step<Id, Msg, Loc, W>)
    requires Inv(p, s) && Enabled(p, s, t) && (t.Diff? || t.BootDiff?)
    ensures var r := Next(p, s, t);
      && r.model == s.model && r.live == s.live && r.running.Keys == p.sources(s.model).Keys
      && (forall i, j :: 0 <= i < j < |t.added| ==> t.added[i] != t.added[j])
      && (forall id :: id in t.added <==> id in r.running && id !in s.running)
  {
    ReconcileMeansDeclared(p, s, t.gone, t.added);
  }

  // ---------------------------------------------------------------- the order of messages

  /** Every message in the order it is, or will be, applied: the log, the one taken, the inbox. */
  function Stream<M, Id, Msg, Cmd, Loc, W>(s: State<M, Id, Msg, Cmd, Loc, W>): seq<Envelope<Msg>>
  {
    s.log + (if s.phase.Taken? then [s.phase.env] else []) + s.inbox
  }

  lemma TakeStream<M, Id(!new), Msg, Cmd, Loc, W>(p: Program<M, Id, Msg, Cmd, Loc, W>,
      s: State<M, Id, Msg, Cmd, Loc, W>, t: Step<Id, Msg, Loc, W>)
    requires Enabled(p, s, t) && t.Take?
    ensures Stream(Next(p, s, t)) == Stream(s)
  {
    assert s.inbox == [s.inbox[0]] + s.inbox[1..];
  }

  lemma ReducerStream<M, Id(!new), Msg, Cmd, Loc, W>(p: Program<M, Id, Msg, Cmd, Loc, W>,
      s: State<M, Id, Msg, Cmd, Loc, W>, t: Step<Id, Msg, Loc, W>)
    requires Inv(p, s) && Enabled(p, s, t) && ReducerStep(t)
    ensures var r := Next(p, s, t);
      Stream(r) == if t.DeliverOwn? then Stream(s) + [s.phase.own.value] else Stream(s)
  {
    if t.Take? { TakeStream(p, s, t); }
  }

  /** A step extends the stream by one delivered envelope or leaves it; a crash cuts it back to the log. */
  lemma StreamStep<M, Id(!new), Msg, Cmd, Loc, W>(p: Program<M, Id, Msg, Cmd, Loc, W>,
      s: State<M, Id, Msg, Cmd, Loc, W>, t: Step<Id, Msg, Loc, W>)
    requires Inv(p, s) && Enabled(p, s, t)
    ensures var r := Next(p, s, t);
      match t
      case Deliver(k) => Stream(r) == Stream(s) + [s.slots[k].transit.value]
      case DeliverOwn => Stream(r) == Stream(s) + [s.phase.own.value]
      case Crash => Stream(r) == s.log && s.log <= Stream(s)
      case _ => Stream(r) == Stream(s)
  {
    if t.Diff? || t.BootDiff? {
      ReconcileMeansDeclared(p, s, t.gone, t.added);
    } else if ReducerStep(t) {
      ReducerStream(p, s, t);
    }
  }
}
