/**
 The runtime as a step machine: one reducer, its inbox, the goroutines that run effects and
 sources, the pending counter, and the crash/restart cycle (runtime/loop.go).

 A Program is what the assembled modules contribute. The machine knows nothing of any domain.
 */
module Runtime {
  import opened Prelude

  /** A message on its way to the reducer, with the offset of the message that caused it. */
  datatype Envelope<+Msg> = Envelope(msg: Msg, cause: nat)

  /** What a handler returns: the built-in `send`, or a command owned by some module. */
  datatype Out<+Msg, +Cmd> = Send(msg: Msg) | Do(cmd: Cmd)

  /** A declared source: whether quiescence awaits it, and where its body starts. */
  datatype Source<+Loc> = Source(await: bool, start: Loc)

  /**
   The assembled modules.
     handle    the owning handler; None when no module owns the tag
     sources   every declared subscription of a model, by id
     begin     where an effect starts; None when no module owns the command
     edge      one atomic step of edge code (world, local, cancelled, world', local', emitted)
     mayReturn where edge code may return, by finishing or by failing
     outside   what the outside world may do to the durable world by itself
     front     the messages that may arrive through the front door
   */
  datatype Program<!M, !Id, !Msg, !Cmd, !Loc, !W> = Program(
    zero: M,
    handle: (M, Msg, nat) -> Option<(M, seq<Out<Msg, Cmd>>)>,
    sources: M -> map<Id, Source<Loc>>,
    begin: Cmd -> Option<Loc>,
    edge: (W, Loc, bool, W, Loc, Option<Msg>) -> bool,
    mayReturn: Loc -> bool,
    outside: (W, W) -> bool,
    front: Msg -> bool)

  /** Where the reducer is inside one turn of its loop. */
  datatype Phase<+Msg, +Cmd> =
    | Idle
    | Taken(env: Envelope<Msg>)
    | Applying(env: Envelope<Msg>)
    | Interpreting(offset: nat, todo: seq<Out<Msg, Cmd>>, own: Option<Envelope<Msg>>)
    | Settling

  datatype Kind<+Id> = Effect(cause: nat) | Body(id: Id, await: bool) | Caller

  /**
   One goroutine. `run` is its edge code's local state while it runs, `transit` the envelope
   it is blocked on handing to the inbox, `waiter` whether a cancel-waiter still watches it.
   */
  datatype Slot<+Id, +Msg, +Loc> = Slot(kind: Kind<Id>, run: Option<Loc>, transit: Option<Envelope<Msg>>, waiter: bool)

  /** `log` and `world` are durable, the rest dies with the process; `boots` counts restarts. */
  datatype State<M, Id, Msg, Cmd, Loc, W> = State(
    log: seq<Envelope<Msg>>,
    world: W,
    live: bool,
    booting: bool,
    model: M,
    phase: Phase<Msg, Cmd>,
    inbox: seq<Envelope<Msg>>,
    slots: seq<Slot<Id, Msg, Loc>>,
    running: map<Id, nat>,
    pending: int,
    boots: nat)

  datatype Step<Id, Msg, Loc, W> =
    | Call(msg: Msg)
    | Deliver(k: nat)
    | Take
    | Append
    | Apply
    | Interpret
    | DeliverOwn
    | Diff(gone: seq<Id>, added: seq<Id>)
    | Settle
    | BootDiff(gone: seq<Id>, added: seq<Id>)
    | Act(k: nat, world: W, local: Loc, emit: Option<Msg>)
    | Return(k: nat)
    | Unwait(k: nat)
    | Outside(world: W)
    | Crash
    | Restart

  // ---------------------------------------------------------------- the fold

  /** One message through its owning handler; a message nobody owns changes nothing. */
  function ApplyMsg<M, Id, Msg, Cmd, Loc, W>(p: Program<M, Id, Msg, Cmd, Loc, W>, m: M, msg: Msg, offset: nat): (M,
      seq<Out<Msg, Cmd>>)
  {
    match p.handle(m, msg, offset)
    case Some(r) => r
    case None => (m, [])
  }

  /** The model a log denotes. The entry at index i has offset i + 1. */
  function Fold<M, Id, Msg, Cmd, Loc, W>(p: Program<M, Id, Msg, Cmd, Loc, W>, log: seq<Envelope<Msg>>): M
  {
    if log == [] then p.zero
    else ApplyMsg(p, Fold(p, log[..|log| - 1]), log[|log| - 1].msg, |log|).0
  }

  lemma {:induction false} FoldAppend<M, Id, Msg, Cmd, Loc, W>(p: Program<M, Id, Msg, Cmd, Loc, W>,
      log: seq<Envelope<Msg>>, e: Envelope<Msg>)
    ensures Fold(p, log + [e]) == ApplyMsg(p, Fold(p, log), e.msg, |log| + 1).0
  {
    assert (log + [e])[..|log|] == log;
  }

  // ---------------------------------------------------------------- reconciling sources

  /** Cancel one running source: drop it, and hold quiescence until its body has returned. */
  function Cancel<M, Id, Msg, Cmd, Loc, W>(s: State<M, Id, Msg, Cmd, Loc, W>, id: Id): State<M, Id, Msg, Cmd, Loc, W>
  {
    if id in s.running && s.running[id] < |s.slots| then
      var k := s.running[id];
      s.(slots := s.slots[k := s.slots[k].(waiter := true)], running := s.running - {id}, pending := s.pending + 1)
    else s
  }

  /** Start one declared source in a goroutine of its own. */
  function Start<M, Id, Msg, Cmd, Loc, W>(s: State<M, Id, Msg, Cmd, Loc, W>, id: Id,
      src: Source<Loc>): State<M, Id, Msg, Cmd, Loc, W>
  {
    s.(slots := s.slots + [Slot(Body(id, src.await), Some(src.start), None, false)],
       running := s.running[id := |s.slots|],
       pending := s.pending + if src.await then 1 else 0)
  }

  function CancelAll<M, Id, Msg, Cmd, Loc, W>(s: State<M, Id, Msg, Cmd, Loc, W>,
      gone: seq<Id>): State<M, Id, Msg, Cmd, Loc, W>
    decreases |gone|
  {
    if gone == [] then s
    else Cancel(CancelAll(s, gone[..|gone| - 1]), gone[|gone| - 1])
  }

  function StartAll<M, Id, Msg, Cmd, Loc, W>(s: State<M, Id, Msg, Cmd, Loc, W>, added: seq<Id>,
      declared: map<Id, Source<Loc>>): State<M, Id, Msg, Cmd, Loc, W>
    requires forall id :: id in added ==> id in declared
    decreases |added|
  {
    if added == [] then s
    else
      var id := added[|added| - 1];
      assert id in added;
      Start(StartAll(s, added[..|added| - 1], declared), id, declared[id])
  }

  /** One pass over the declared and the running sources, in the order the maps happen to yield. */
  function Reconcile<M, Id, Msg, Cmd, Loc, W>(p: Program<M, Id, Msg, Cmd, Loc, W>, s: State<M, Id, Msg, Cmd, Loc, W>,
      gone: seq<Id>, added: seq<Id>): State<M, Id, Msg, Cmd, Loc, W>
    requires forall id :: id in added ==> id in p.sources(s.model)
  {
    StartAll(CancelAll(s, gone), added, p.sources(s.model))
  }

  ghost predicate DiffOrder<M, Id(!new), Msg, Cmd, Loc, W>(p: Program<M, Id, Msg, Cmd, Loc, W>,
      s: State<M, Id, Msg, Cmd, Loc, W>, gone: seq<Id>, added: seq<Id>)
  {
    && Lists(gone, s.running.Keys - p.sources(s.model).Keys)
    && Lists(added, p.sources(s.model).Keys - s.running.Keys)
  }

  // ---------------------------------------------------------------- steps

  /** Whether a goroutine counts as pending work until it returns. */
  predicate Counted<Id>(k: Kind<Id>)
  {
    k.Effect? || (k.Body? && k.await)
  }

  /** Whether goroutine `k` runs a source that has been cancelled. */
  predicate Cancelled<M, Id, Msg, Cmd, Loc, W>(s: State<M, Id, Msg, Cmd, Loc, W>, k: nat)
    requires k < |s.slots|
  {
    var kind := s.slots[k].kind;
    kind.Body? && !(kind.id in s.running && s.running[kind.id] == k)
  }

  /** Effects stamp their own cause; a source's or a caller's emission has none. */
  function CauseOf<Id>(k: Kind<Id>): nat
  {
    if k.Effect? then k.cause else 0
  }

  ghost predicate Enabled<M, Id(!new), Msg, Cmd, Loc, W>(p: Program<M, Id, Msg, Cmd, Loc, W>,
      s: State<M, Id, Msg, Cmd, Loc, W>, t: Step<Id, Msg, Loc, W>)
  {
    match t
    case Call(msg) => s.live && p.front(msg)
    case Deliver(k) => s.live && k < |s.slots| && s.slots[k].transit.Some?
    case Take => s.live && s.phase.Idle? && s.inbox != []
    case Append => s.live && s.phase.Taken?
    case Apply => s.live && s.phase.Applying?
    case Interpret => s.live && s.phase.Interpreting? && s.phase.own.None? && s.phase.todo != []
    case DeliverOwn => s.live && s.phase.Interpreting? && s.phase.own.Some?
    case Diff(gone, added) => s.live && s.phase.Interpreting? && s.phase.own.None? && s.phase.todo == [] &&
      DiffOrder(p, s, gone, added)
    case Settle => s.live && s.phase.Settling?
    case BootDiff(gone, added) => s.live && s.booting && DiffOrder(p, s, gone, added)
    case Act(k, world, local, emit) =>
      && s.live && k < |s.slots| && s.slots[k].run.Some? && s.slots[k].transit.None?
      && p.edge(s.world, s.slots[k].run.value, Cancelled(s, k), world, local, emit)
    case Return(k) =>
      && s.live && k < |s.slots| && s.slots[k].run.Some? && s.slots[k].transit.None?
      && p.mayReturn(s.slots[k].run.value)
    case Unwait(k) => s.live && k < |s.slots| && s.slots[k].waiter && s.slots[k].run.None?
    case Outside(world) => p.outside(s.world, world)
    case Crash => s.live
    case Restart => !s.live
  }

  /** The state after a step; a step that is not enabled changes nothing. */
  ghost function Next<M, Id(!new), Msg, Cmd, Loc, W>(p: Program<M, Id, Msg, Cmd, Loc, W>,
      s: State<M, Id, Msg, Cmd, Loc, W>, t: Step<Id, Msg, Loc, W>): State<M, Id, Msg, Cmd, Loc, W>
  {
    if !Enabled(p, s, t) then s else
    match t
    case Call(msg) => s.(pending := s.pending + 1,
      slots := s.slots + [Slot(Caller, None, Some(Envelope(msg, 0)), false)])
    case Deliver(k) =>
      s.(inbox := s.inbox + [s.slots[k].transit.value], slots := s.slots[k := s.slots[k].(transit := None)])
    case Take => s.(phase := Taken(s.inbox[0]), inbox := s.inbox[1..])
    case Append => s.(log := s.log + [s.phase.env], phase := Applying(s.phase.env))
    case Apply =>
      var (m, outs) := ApplyMsg(p, s.model, s.phase.env.msg, |s.log|);
      s.(model := m, phase := Interpreting(|s.log|, outs, None))
    case Interpret => InterpretOne(p, s)
    case DeliverOwn =>
      s.(inbox := s.inbox + [s.phase.own.value], phase := s.phase.(own := None))
    case Diff(gone, added) => Reconcile(p, s, gone, added).(phase := Settling)
    case Settle => s.(phase := Idle, pending := s.pending - 1)
    case BootDiff(gone, added) => Reconcile(p, s, gone, added).(booting := false)
    case Act(k, world, local, emit) =>
      var slot := s.slots[k];
      if emit.Some? then
        var env := Envelope(emit.value, CauseOf(slot.kind));
        s.(world := world, pending := s.pending + 1,
          slots := s.slots[k := slot.(run := Some(local), transit := Some(env))])
      else
        s.(world := world, slots := s.slots[k := slot.(run := Some(local))])
    case Return(k) =>
      s.(pending := s.pending - if Counted(s.slots[k].kind) then 1
        else 0, slots := s.slots[k := s.slots[k].(run := None)])
    case Unwait(k) => s.(pending := s.pending - 1, slots := s.slots[k := s.slots[k].(waiter := false)])
    case Outside(world) => s.(world := world)
    case Crash => Dead(p, s)
    case Restart => s.(live := true, booting := true, model := Fold(p, s.log), boots := s.boots + 1)
  }

  /** Interpret the next command: a send is enqueued, an owned command gets a goroutine. */
  function InterpretOne<M, Id, Msg, Cmd, Loc, W>(p: Program<M, Id, Msg, Cmd, Loc, W>,
      s: State<M, Id, Msg, Cmd, Loc, W>): State<M, Id, Msg, Cmd, Loc, W>
    requires s.phase.Interpreting? && s.phase.todo != []
  {
    var offset, rest := s.phase.offset, s.phase.todo[1..];
    match s.phase.todo[0]
    case Send(msg) => s.(pending := s.pending + 1, phase := Interpreting(offset, rest, Some(Envelope(msg, offset))))
    case Do(cmd) =>
      match p.begin(cmd)
      case None => s.(phase := Interpreting(offset, rest, None))
      case Some(local) =>
        s.(pending := s.pending + 1,
           phase := Interpreting(offset, rest, None),
           slots := s.slots + [Slot(Effect(offset), Some(local), None, false)])
  }

  /** Everything volatile gone. */
  function Dead<M, Id, Msg, Cmd, Loc, W>(p: Program<M, Id, Msg, Cmd, Loc, W>,
      s: State<M, Id, Msg, Cmd, Loc, W>): State<M, Id, Msg, Cmd, Loc, W>
  {
    State(s.log, s.world, false, false, p.zero, Idle, [], [], map[], 0, s.boots)
  }

  /** A fresh deployment over some world, not yet started. */
  function Initial<M, Id, Msg, Cmd, Loc, W>(p: Program<M, Id, Msg, Cmd, Loc, W>,
      world: W): State<M, Id, Msg, Cmd, Loc, W>
  {
    State([], world, false, false, p.zero, Idle, [], [], map[], 0, 0)
  }

  /** Step `i` is enabled and leads from state `i` to the next. */
  ghost predicate Takes<M, Id(!new), Msg, Cmd, Loc, W>(p: Program<M, Id, Msg, Cmd, Loc, W>,
      states: seq<State<M, Id, Msg, Cmd, Loc, W>>, steps: seq<Step<Id, Msg, Loc, W>>, i: nat)
    requires |states| == |steps| + 1 && i < |steps|
  {
    Enabled(p, states[i], steps[i]) && states[i + 1] == Next(p, states[i], steps[i])
  }

  /** A run: consecutive states related by enabled steps, starting from a fresh deployment. */
  ghost predicate IsRun<M, Id(!new), Msg, Cmd, Loc, W>(p: Program<M, Id, Msg, Cmd, Loc, W>,
      states: seq<State<M, Id, Msg, Cmd, Loc, W>>, steps: seq<Step<Id, Msg, Loc, W>>)
  {
    && |states| == |steps| + 1
    && states[0] == Initial(p, states[0].world)
    && forall i :: 0 <= i < |steps| ==> Takes(p, states, steps, i)
  }
}
