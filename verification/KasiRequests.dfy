/**
 A raised request is registered exactly once: in every reachable state its mint is still owed and
 nothing is registered, or exactly one request is registered and nothing is owed.
 */
module KasiRequests {
  import opened Prelude
  import opened Runtime
  import opened RuntimeProofs
  import opened Ledger
  import opened Messages
  import opened Kasi
  import opened KasiFacts
  import opened KasiApply
  import opened KasiInv
  import opened KasiReplies
  import F = KasiFinish
  import S = KasiSources
  import Tasks

  // ---------------------------------------------------------------- one agent-run-finished per run

  function EndMsg(msg: Msg, r: int): nat
  {
    if msg.AgentRunFinished? && msg.run == r then 1 else 0
  }

  function EndMsgs(ms: seq<Msg>, r: int): nat
  {
    if ms == [] then 0 else EndMsg(ms[0], r) + EndMsgs(ms[1..], r)
  }

  function EndLoc(l: Loc, r: int): nat
  {
    if l.Emitting? then EndMsgs(l.msgs, r) else 0
  }

  ghost function EndToken(r: int): Weight<Msg, Cmd, Loc>
  {
    Weight((m: Msg) => EndMsg(m, r), (c: Cmd) => 0, (l: Loc) => EndLoc(l, r))
  }

  /** How many agent-run-finished messages for run `r` a log holds. */
  function Ends(log: seq<Envelope<Msg>>, r: int): nat
  {
    if log == [] then 0 else Ends(log[..|log| - 1], r) + EndMsg(log[|log| - 1].msg, r)
  }

  lemma {:induction false} NothingEnds(ms: seq<Msg>, r: int)
    requires forall i :: 0 <= i < |ms| ==> !ms[i].AgentRunFinished?
    ensures EndMsgs(ms, r) == 0
  {
    if ms != [] {
      NothingEnds(ms[1..], r);
    }
  }

  lemma EdgeEndsNothing(c: Config, w: World, l: Loc, cancelled: bool, w': World, l': Loc, emit: Option<Msg>, r: int)
    requires Edge(c, w, l, cancelled, w', l', emit)
    ensures EndLoc(l', r) + (if emit.Some? then EndMsg(emit.value, r) else 0) <= EndLoc(l, r)
  {
    if l.CapturingMemory? {
      var ms: seq<Msg> :| l' == Emitting(ms + [MarkHarvested(l.run, Memory)]) && forall i :: 0 <= i < |ms| ==>
        MemoryDirective(ms[i]);
      NothingEnds(l'.msgs, r);
    } else if l'.Emitting? && !l.Emitting? {
      NothingEnds(l'.msgs, r);
    }
  }

  lemma EndsFollowFinish(m: Model, msg: Msg, offset: int, r: int)
    ensures OutsTok(ApplyOne(m, msg, offset).1, EndToken(r)) <= F.DoneMsg(msg, r)
  {
    HandlersAnswer(m, msg, offset);
    var outs := ApplyOne(m, msg, offset).1;
    if msg.FinishAgentRun? && |outs| == 1 {
      OutsTokOne(outs, EndToken(r));
    } else {
      OutsTokNone(outs, EndToken(r));
    }
  }

  lemma NoSourceEnds(m: Model, id: SourceId, r: int)
    ensures StartTok(id, Sources(m), EndToken(r)) == 0
  {
    if id in Sources(m) { StartsAtBody(m, id); }
  }

  lemma {:induction false} StartsEndNothing(m: Model, added: seq<SourceId>, r: int)
    ensures StartsTok(added, Sources(m), EndToken(r)) == 0
  {
    if added != [] {
      StartsEndNothing(m, added[..|added| - 1], r);
      NoSourceEnds(m, added[|added| - 1], r);
    }
  }

  /** Logged and still travelling, the ends of a run never outnumber its finishes. */
  ghost predicate EndsBoundedAt(s: KState, r: int)
  {
    Ends(Folded(s), r) + Tok(s, EndToken(r)) <= F.Finishes(Folded(s), r)
  }

  ghost predicate EndsBounded(s: KState)
  {
    forall r :: EndsBoundedAt(s, r)
  }

  lemma EndsChange(c: Config, s: KState, t: KStep, r: int)
    requires Inv(System(c), s) && Enabled(System(c), s, t) && !t.Crash? && !t.Apply?
    ensures Tok(Next(System(c), s, t), EndToken(r)) <= Tok(s, EndToken(r))
  {
    LedgerIsExact(System(c), s, t, EndToken(r));
    if t.Act? {
      EdgeEndsNothing(c, s.world, s.slots[t.k].run.value, Cancelled(s, t.k), t.world, t.local, t.emit, r);
    } else if t.Diff? || t.BootDiff? {
      StartsEndNothing(s.model, t.added, r);
    } else {
      EndsPlumbing(c, s, t, r);
    }
  }

  lemma EndsPlumbing(c: Config, s: KState, t: KStep, r: int)
    requires Enabled(System(c), s, t) && (Plumbing(t) || t.Outside? || t.Restart?)
    ensures Change(System(c), s, t, EndToken(r)) <= 0
  {
    if t.Interpret? && s.phase.todo[0].Do? {
      assert EndLoc(Begin(s.phase.todo[0].cmd), r) == 0;
    }
  }

  lemma EndsAppend(log: seq<Envelope<Msg>>, e: Envelope<Msg>, r: int)
    ensures Ends(log + [e], r) == Ends(log, r) + EndMsg(e.msg, r)
  {
    assert (log + [e])[..|log|] == log;
  }

  lemma EndsTokApply(c: Config, s: KState, r: int)
    requires Inv(System(c), s) && s.live && s.phase.Applying?
    ensures Tok(Next(System(c), s, Apply), EndToken(r)) <= Tok(s, EndToken(r)) - EndMsg(s.phase.env.msg, r) +
      F.DoneMsg(s.phase.env.msg, r)
  {
    LedgerIsExact(System(c), s, Apply, EndToken(r));
    ApplyIs(c, s.model, s.phase.env.msg, |s.log|);
    EndsFollowFinish(s.model, s.phase.env.msg, |s.log|, r);
  }

  lemma EndsApply(c: Config, s: KState, r: int)
    requires Inv(System(c), s) && s.live && s.phase.Applying? && s.log == Folded(s) + [s.phase.env]
    requires Ends(Folded(s), r) + Tok(s, EndToken(r)) <= F.Finishes(Folded(s), r)
    ensures Ends(s.log, r) + Tok(Next(System(c), s, Apply), EndToken(r)) <= F.Finishes(s.log, r)
    ensures Ends(s.log, r) <= F.Finishes(s.log, r)
  {
    EndsTokApply(c, s, r);
    EndsAppend(Folded(s), s.phase.env, r);
    F.FinishesAppend(Folded(s), s.phase.env, r);
  }

  lemma EndsStep(c: Config, s: KState, t: KStep)
    requires KInv(c, s) && EndsBounded(s) && Enabled(System(c), s, t)
    ensures EndsBounded(Next(System(c), s, t))
  {
    if Completes(s, t) { EnvelopeInHand(c, s); }
    forall r ensures EndsBoundedAt(Next(System(c), s, t), r) {
      EndsStepAt(c, s, t, r);
    }
  }

  lemma EndsStepAt(c: Config, s: KState, t: KStep, r: int)
    requires Inv(System(c), s) && EndsBoundedAt(s, r) && Enabled(System(c), s, t)
    requires Completes(s, t) ==> s.log == Folded(s) + [s.phase.env]
    ensures EndsBoundedAt(Next(System(c), s, t), r)
  {
    StepDenotes(c, s, t);
    if Completes(s, t) {
      EndsApply(c, s, r);
    }
    if t.Crash? {
      LedgerIsExact(System(c), s, t, EndToken(r));
    } else if !t.Apply? {
      EndsChange(c, s, t, r);
    }
  }

  // ---------------------------------------------------------------- the mint token

  function MintMsg(msg: Msg, r: int): nat
  {
    match msg
    case RunHarvest(_, x, k) => if x == r && k == Request then 1 else 0
    case RegisterUIRequest(_, x, _) => if x == r then 1 else 0
    case _ => 0
  }

  function MintMsgs(ms: seq<Msg>, r: int): nat
  {
    if ms == [] then 0 else MintMsg(ms[0], r) + MintMsgs(ms[1..], r)
  }

  function MintCmd(cmd: Cmd, r: int): nat
  {
    if cmd.MintUIRequest? && cmd.run == r then 1 else 0
  }

  function MintLoc(l: Loc, r: int): nat
  {
    match l
    case HarvestBody(_, x, k) => if x == r && k == Request then 1 else 0
    case Minting(_, x) => if x == r then 1 else 0
    case Emitting(ms) => MintMsgs(ms, r)
    case _ => 0
  }

  /** One unit per registration of a request of run `r` that is still to come. */
  ghost function Token(r: int): Weight<Msg, Cmd, Loc>
  {
    Weight((m: Msg) => MintMsg(m, r), (c: Cmd) => MintCmd(c, r), (l: Loc) => MintLoc(l, r))
  }

  predicate Owed(m: Model, r: int)
  {
    Tasks.Owes(m.tasks.pending, r, Request)
  }

  function Registered(requests: seq<Tasks.UIRequest>, r: int): nat
  {
    if requests == [] then 0 else Registered(requests[..|requests| - 1], r) + if requests[|requests| - 1].run == r
      then 1 else 0
  }

  /** A mint is under way only while it is owed, and never twice; otherwise its source may still start. */
  ghost predicate MintBounded(s: KState, r: int)
  {
    Tok(s, Token(r)) + (if Owed(s.model, r) && HarvestKey(Request, r) !in s.running then 1
      else 0) <= if Owed(s.model, r) then 1 else 0
  }

  lemma {:induction false} NoMints(ms: seq<Msg>, r: int)
    requires forall i :: 0 <= i < |ms| ==> !ms[i].RegisterUIRequest? && !ms[i].RunHarvest?
    ensures MintMsgs(ms, r) == 0
  {
    if ms != [] {
      NoMints(ms[1..], r);
    }
  }

  lemma OneMint(ms: seq<Msg>, r: int)
    requires |ms| == 1
    ensures MintMsgs(ms, r) == MintMsg(ms[0], r)
  {
    assert ms[1..] == [];
  }

  lemma EdgeMints(c: Config, w: World, l: Loc, cancelled: bool, w': World, l': Loc, emit: Option<Msg>, r: int)
    requires Edge(c, w, l, cancelled, w', l', emit)
    ensures MintLoc(l', r) + (if emit.Some? then MintMsg(emit.value, r) else 0) <= MintLoc(l, r)
  {
    if l.CapturingMemory? {
      var ms: seq<Msg> :| l' == Emitting(ms + [MarkHarvested(l.run, Memory)]) && forall i :: 0 <= i < |ms| ==>
        MemoryDirective(ms[i]);
      NoMints(l'.msgs, r);
    } else if l.Minting? {
      OneMint(l'.msgs, r);
    } else if l'.Emitting? && !l.Emitting? {
      NoMints(l'.msgs, r);
    }
  }

  lemma HandlersMint(m: Model, msg: Msg, offset: int, r: int)
    ensures OutsTok(ApplyOne(m, msg, offset).1, Token(r)) <= if msg.RunHarvest? then MintMsg(msg, r) else 0
  {
    HandlersAnswer(m, msg, offset);
    var outs := ApplyOne(m, msg, offset).1;
    if msg.RunHarvest? && |outs| == 1 {
      OutsTokOne(outs, Token(r));
    } else {
      OutsTokNone(outs, Token(r));
    }
  }

  lemma BringsMint(m: Model, id: SourceId, r: int)
    requires StartTok(id, Sources(m), Token(r)) != 0
    ensures id == HarvestKey(Request, r) && StartTok(id, Sources(m), Token(r)) == 1 && Owed(m, r)
  {
    match id
    case HarvestKey(kind, x) => S.HarvestDeclared(m, kind, x);
    case SendKey(x) => S.SendDeclared(m, x);
    case _ => S.RunDeclared(m, id);
  }

  lemma {:induction false} StartsMint(m: Model, added: seq<SourceId>, r: int)
    requires forall i, j :: 0 <= i < j < |added| ==> added[i] != added[j]
    ensures StartsTok(added, Sources(m), Token(r)) <= if HarvestKey(Request, r) in added then 1 else 0
  {
    if added != [] {
      var front, id := added[..|added| - 1], added[|added| - 1];
      StartsMint(m, front, r);
      assert StartsTok(added, Sources(m), Token(r)) == StartsTok(front, Sources(m), Token(r)) +
        StartTok(id, Sources(m), Token(r));
      assert forall i :: 0 <= i < |front| ==> added[i] == front[i];
      assert id !in front;
      if StartTok(id, Sources(m), Token(r)) != 0 {
        BringsMint(m, id, r);
      }
    }
  }

  lemma DiffMints(c: Config, s: KState, t: KStep, r: int)
    requires Inv(System(c), s) && MintBounded(s, r) && Enabled(System(c), s, t) && (t.Diff? || t.BootDiff?)
    ensures MintBounded(Next(System(c), s, t), r)
  {
    ReconcileMeansDeclared(System(c), s, t.gone, t.added);
    LedgerIsExact(System(c), s, t, Token(r));
    StartsMint(s.model, t.added, r);
    S.HarvestDeclared(s.model, Request, r);
    var s' := Next(System(c), s, t);
    assert HarvestKey(Request, r) in t.added ==> HarvestKey(Request, r) !in s.running && Owed(s.model, r);
    assert Owed(s.model, r) ==> HarvestKey(Request, r) in s'.running.Keys;
  }

  lemma ActMints(c: Config, s: KState, t: KStep, r: int)
    requires Inv(System(c), s) && MintBounded(s, r) && Enabled(System(c), s, t) && t.Act?
    ensures MintBounded(Next(System(c), s, t), r)
  {
    LedgerIsExact(System(c), s, t, Token(r));
    EdgeMints(c, s.world, s.slots[t.k].run.value, Cancelled(s, t.k), t.world, t.local, t.emit, r);
  }

  lemma PlumbingMints(c: Config, s: KState, t: KStep, r: int)
    requires Inv(System(c), s) && MintBounded(s, r) && Enabled(System(c), s, t) && (Plumbing(t) || t.Outside?)
    ensures MintBounded(Next(System(c), s, t), r)
  {
    LedgerIsExact(System(c), s, t, Token(r));
    if Plumbing(t) {
      PlumbingShape(System(c), s, t);
      PlumbingMintChange(c, s, t, r);
    }
  }

  lemma PlumbingMintChange(c: Config, s: KState, t: KStep, r: int)
    requires Enabled(System(c), s, t) && Plumbing(t)
    ensures Change(System(c), s, t, Token(r)) <= 0
  {
    if t.Interpret? && s.phase.todo[0].Do? {
      assert MintLoc(Begin(s.phase.todo[0].cmd), r) == MintCmd(s.phase.todo[0].cmd, r);
    }
  }

  // ---------------------------------------------------------------- what a message does to a request

  /** Some logged agent-run-finished raised the request of run `r` on an existing task. */
  ghost predicate Raised(c: Config, log: seq<Envelope<Msg>>, r: int)
  {
    exists j :: 0 <= j < |log| && RaisesAt(c, log, j, r)
  }

  ghost predicate RaisesAt(c: Config, log: seq<Envelope<Msg>>, j: nat, r: int)
    requires j < |log|
  {
    var msg := log[j].msg;
    msg.AgentRunFinished? && msg.run == r && Tasks.RaisesRequest(msg.result) &&
      HasTask(Fold(System(c), log[..j]), msg.task)
  }

  predicate RaisesNow(m: Model, msg: Msg, r: int)
  {
    msg.AgentRunFinished? && msg.run == r && Tasks.RaisesRequest(msg.result) &&
      Tasks.Find(m.tasks, msg.task) < |m.tasks.tasks|
  }

  predicate RegistersNow(m: Model, msg: Msg, r: int)
  {
    msg.RegisterUIRequest? && msg.run == r && Tasks.Find(m.tasks, msg.task) < |m.tasks.tasks|
  }

  lemma RegisteredOwes(m: Model, msg: Msg, offset: int, r: int)
    requires msg.RegisterUIRequest?
    ensures Owed(ApplyOne(m, msg, offset).0, r) <==> Owed(m, r) && !RegistersNow(m, msg, r)
  {
    Tasks.DischargedOwes(m.tasks.pending, msg.run, Request, r, Request);
    Tasks.WithPendingOwes(Tasks.Discharged(m.tasks.pending, msg.run, Request),
      Tasks.HarvestJob(msg.task, msg.run, Reply), r, Request);
  }

  /** Which message makes a request owed, and which discharges it. */
  lemma OwedAfter(m: Model, msg: Msg, offset: int, r: int)
    requires msg.MarkHarvested? ==> msg.kind != Request
    ensures Owed(ApplyOne(m, msg, offset).0, r) <==> RaisesNow(m, msg, r) || (Owed(m, r) && !RegistersNow(m, msg, r))
  {
    match msg
    case AgentRunFinished(t, x, res) => Tasks.JobsRecorded(m.tasks.pending, t, x, res, r, Request);
    case MarkHarvested(x, k) => Tasks.DischargedOwes(m.tasks.pending, x, k, r, Request);
    case RegisterUIRequest(_, _, _) => RegisteredOwes(m, msg, offset, r);
    case _ =>
  }

  lemma {:induction false} AnsweredKeepsCount(a: seq<Tasks.UIRequest>, i: nat, r: int)
    requires i < |a|
    ensures Registered(a[i := a[i].(answered := true)], r) == Registered(a, r)
  {
    var b := a[i := a[i].(answered := true)];
    var n := |a| - 1;
    if i < n {
      AnsweredKeepsCount(a[..n], i, r);
      assert b[..n] == a[..n][i := a[i].(answered := true)];
    } else {
      assert b[..n] == a[..n];
    }
  }

  /** Only registering adds a request. */
  lemma RegisteredAfter(m: Model, msg: Msg, offset: int, r: int)
    ensures Registered(ApplyOne(m, msg, offset).0.tasks.requests, r) == Registered(m.tasks.requests, r) +
      if RegistersNow(m, msg, r) then 1 else 0
  {
    if msg.RegisterUIRequest? {
      RegisteredOnce(m, msg, offset, r);
    } else if msg.AnswerUIRequest? {
      AnswerRegistersNothing(m, msg, offset, r);
    } else {
      assert ApplyOne(m, msg, offset).0.tasks.requests == m.tasks.requests;
    }
  }

  lemma RegisteredOnce(m: Model, msg: Msg, offset: int, r: int)
    requires msg.RegisterUIRequest?
    ensures Registered(ApplyOne(m, msg, offset).0.tasks.requests, r) == Registered(m.tasks.requests, r) +
      if RegistersNow(m, msg, r) then 1 else 0
  {
    var a := m.tasks.requests;
    assert (a + [Tasks.UIRequest(msg.run, msg.task, msg.link, false)])[..|a|] == a;
  }

  lemma AnswerRegistersNothing(m: Model, msg: Msg, offset: int, r: int)
    requires msg.AnswerUIRequest?
    ensures Registered(ApplyOne(m, msg, offset).0.tasks.requests, r) == Registered(m.tasks.requests, r)
  {
    var i := Tasks.FindRequest(m.tasks, msg.run);
    if i < |m.tasks.requests| { AnsweredKeepsCount(m.tasks.requests, i, r); }
  }

  // ---------------------------------------------------------------- the invariant

  /** Owed and unregistered, or registered once and not owed; neither before it was raised. */
  ghost predicate ExactlyOne(c: Config, m: Model, log: seq<Envelope<Msg>>, r: int)
  {
    Registered(m.tasks.requests, r) + (if Owed(m, r) then 1 else 0) == if Raised(c, log, r) then 1 else 0
  }

  ghost predicate RequestInv(c: Config, s: KState)
  {
    && EndsBounded(s)
    && (forall r :: ExactlyOne(c, Denotes(c, s), Folded(s), r))
    && (s.live ==> forall r :: MintBounded(s, r))
  }

  lemma {:induction false} RaisedEnds(c: Config, log: seq<Envelope<Msg>>, r: int)
    requires Raised(c, log, r)
    ensures Ends(log, r) >= 1
  {
    var j :| 0 <= j < |log| && RaisesAt(c, log, j, r);
    if j < |log| - 1 {
      var front := log[..|log| - 1];
      assert front[..j] == log[..j] && front[j] == log[j];
      assert RaisesAt(c, front, j, r);
      RaisedEnds(c, front, r);
    }
  }

  lemma RaisesEarlier(c: Config, log: seq<Envelope<Msg>>, e: Envelope<Msg>, j: nat, r: int)
    requires j < |log|
    ensures RaisesAt(c, log + [e], j, r) <==> RaisesAt(c, log, j, r)
  {
    assert (log + [e])[..j] == log[..j];
  }

  lemma RaisesLast(c: Config, log: seq<Envelope<Msg>>, e: Envelope<Msg>, r: int)
    ensures RaisesAt(c, log + [e], |log|, r) <==> RaisesNow(Fold(System(c), log), e.msg, r)
  {
    assert (log + [e])[..|log|] == log;
    var m := Fold(System(c), log);
    if e.msg.AgentRunFinished? && HasTask(m, e.msg.task) { FindsTask(m, e.msg.task); }
  }

  lemma RaisedAppend(c: Config, log: seq<Envelope<Msg>>, e: Envelope<Msg>, r: int)
    ensures Raised(c, log + [e], r) <==> Raised(c, log, r) || RaisesNow(Fold(System(c), log), e.msg, r)
  {
    RaisesLast(c, log, e, r);
    forall j | 0 <= j < |log| ensures RaisesAt(c, log + [e], j, r) <==> RaisesAt(c, log, j, r) {
      RaisesEarlier(c, log, e, j, r);
    }
  }

  /** One message keeps the alternative: it is raised once, and registered only while owed. */
  lemma ExactlyOneApply(c: Config, s: KState, r: int)
    requires Completing(c, s, Fold(System(c), s.log))
    requires ExactlyOne(c, Denotes(c, s), Folded(s), r)
    requires Ends(s.log, r) <= 1
    requires s.phase.env.msg.RegisterUIRequest? && s.phase.env.msg.run == r ==> Owed(Denotes(c, s), r)
    ensures ExactlyOne(c, Fold(System(c), s.log), s.log, r)
  {
    var m, msg := Denotes(c, s), s.phase.env.msg;
    RaisedAppend(c, Folded(s), s.phase.env, r);
    OwedAfter(m, msg, |s.log|, r);
    RegisteredAfter(m, msg, |s.log|, r);
    if RaisesNow(m, msg, r) {
      EndsAppend(Folded(s), s.phase.env, r);
      if Raised(c, Folded(s), r) { RaisedEnds(c, Folded(s), r); }
    }
    if msg.RegisterUIRequest? {
      FindsTask(m, msg.task);
    }
  }

  lemma MintInHand(s: KState, r: int)
    requires s.phase.Applying? && MintBounded(s, r)
    ensures MintMsg(s.phase.env.msg, r) > 0 ==> Owed(s.model, r)
  {
    InFlightCounts(s, Token(r));
  }

  /** Applying passes the mint on, registers it, or leaves it where it was. */
  lemma ApplyMints(c: Config, s: KState, r: int)
    requires Inv(System(c), s) && MintBounded(s, r) && s.live && s.phase.Applying?
    requires Completing(c, s, Fold(System(c), s.log))
    ensures MintBounded(Next(System(c), s, Apply), r)
  {
    ApplyMintTok(c, s, r);
    InFlightCounts(s, Token(r));
    OwedAfterApply(c, s, r);
  }

  lemma OwedAfterApply(c: Config, s: KState, r: int)
    requires Inv(System(c), s) && s.live && s.phase.Applying? && Completing(c, s, Fold(System(c), s.log))
    ensures var msg := s.phase.env.msg;
      && (Owed(s.model, r) && !(msg.RegisterUIRequest? && msg.run == r) ==>
           Owed(ApplyOne(s.model, msg, |s.log|).0, r))
      && (msg.RegisterUIRequest? && msg.run == r ==> !Owed(ApplyOne(s.model, msg, |s.log|).0, r))
  {
    OwedAfter(s.model, s.phase.env.msg, |s.log|, r);
    if s.phase.env.msg.RegisterUIRequest? { FindsTask(s.model, s.phase.env.msg.task); }
  }

  lemma ApplyMintTok(c: Config, s: KState, r: int)
    requires Inv(System(c), s) && s.live && s.phase.Applying?
    ensures var s', msg := Next(System(c), s, Apply), s.phase.env.msg;
      && Tok(s', Token(r)) <= Tok(s, Token(r)) - (if msg.RunHarvest? then 0 else MintMsg(msg, r))
      && s'.running == s.running && s'.model == ApplyOne(s.model, msg, |s.log|).0
  {
    LedgerIsExact(System(c), s, Apply, Token(r));
    ApplyIs(c, s.model, s.phase.env.msg, |s.log|);
    HandlersMint(s.model, s.phase.env.msg, |s.log|, r);
  }

  /** Seen from the log alone: `after` is the folded prefix once a step has been taken. */
  lemma ExactlyOneAfter(c: Config, s: KState, after: seq<Envelope<Msg>>, completes: bool, r: int)
    requires after == if completes then s.log else Folded(s)
    requires ExactlyOne(c, Denotes(c, s), Folded(s), r)
    requires completes ==>
      Completing(c, s, Fold(System(c), s.log)) && Ends(s.log, r) <= 1 && s.model == Denotes(c, s) && MintBounded(s, r)
    ensures ExactlyOne(c, Fold(System(c), after), after, r)
  {
    if completes {
      MintInHand(s, r);
      ExactlyOneApply(c, s, r);
    }
  }

  /** A run ends at most once: its ends follow its finishes, and it finishes at most once. */
  lemma EndsOnce(c: Config, s: KState, t: KStep, r: int)
    requires KInv(c, s) && F.FinishInv(c, s) && EndsBounded(s) && Enabled(System(c), s, t)
    ensures Ends(Folded(Next(System(c), s, t)), r) <= 1
  {
    EndsStep(c, s, t);
    F.FinishInvStep(c, s, t);
    assert EndsBoundedAt(Next(System(c), s, t), r);
  }

  lemma RequestInvStep(c: Config, s: KState, t: KStep)
    requires KInv(c, s) && F.FinishInv(c, s) && RequestInv(c, s) && Enabled(System(c), s, t)
    ensures RequestInv(c, Next(System(c), s, t))
  {
    var s' := Next(System(c), s, t);
    EndsStep(c, s, t);
    StepDenotes(c, s, t);
    if Completes(s, t) { CompletingIs(c, s); }
    forall r ensures ExactlyOne(c, Denotes(c, s'), Folded(s'), r) {
      EndsOnce(c, s, t, r);
      ExactlyOneAfter(c, s, Folded(s'), Completes(s, t), r);
    }
    forall r ensures s'.live ==> MintBounded(s', r) {
      if s'.live { MintStep(c, s, t, r); }
    }
  }

  lemma MintStep(c: Config, s: KState, t: KStep, r: int)
    requires
      && Inv(System(c), s)
      && (s.live ==> MintBounded(s, r))
      && Enabled(System(c), s, t)
      && Next(System(c), s, t).live
    requires Completes(s, t) ==> Completing(c, s, Fold(System(c), s.log))
    ensures MintBounded(Next(System(c), s, t), r)
  {
    if t.Apply? {
      ApplyMints(c, s, r);
    } else if t.Act? {
      ActMints(c, s, t, r);
    } else if t.Diff? || t.BootDiff? {
      DiffMints(c, s, t, r);
    } else if t.Restart? {
      DeadIsEmpty(System(c), s, Token(r));
      LedgerIsExact(System(c), s, t, Token(r));
    } else {
      PlumbingMints(c, s, t, r);
    }
  }

  lemma RequestInvInitial(c: Config, w: World)
    ensures var s: KState := Initial(System(c), w); RequestInv(c, s)
  {
  }

  lemma {:induction false} RunRequests(c: Config, states: seq<KState>, steps: seq<KStep>, i: nat)
    requires KRun(c, states, steps) && i < |states|
    ensures RequestInv(c, states[i])
  {
    if i == 0 {
      RequestInvInitial(c, states[0].world);
    } else {
      RunRequests(c, states, steps, i - 1);
      RequestsOverStep(c, states, steps, i);
    }
  }

  lemma RequestsOverStep(c: Config, states: seq<KState>, steps: seq<KStep>, i: nat)
    requires KRun(c, states, steps) && 0 < i < |states| && RequestInv(c, states[i - 1])
    ensures RequestInv(c, states[i])
  {
    var before := i - 1;
    RunStep(c, states, steps, i);
    F.RunFinishes(c, states, steps, before);
    RequestInvStep(c, states[before], steps[before]);
  }

  /**
   For every run whose logged end raised a request, exactly one holds in every reachable state: the
   mint is owed and nothing is registered, or exactly one request is registered and nothing is owed.
   A run that raised none has neither.
   */
  lemma RequestRegisteredExactlyOnce(c: Config, states: seq<KState>, steps: seq<KStep>, i: nat, r: int)
    requires KRun(c, states, steps) && i < |states|
    ensures var log := Folded(states[i]); var m := Fold(System(c), log);
      && (Raised(c, log, r) ==> Owed(m, r) != (Registered(m.tasks.requests, r) == 1))
      && Registered(m.tasks.requests, r) <= 1
      && (!Raised(c, log, r) ==> !Owed(m, r) && Registered(m.tasks.requests, r) == 0)
  {
    RunRequests(c, states, steps, i);
    assert ExactlyOne(c, Denotes(c, states[i]), Folded(states[i]), r);
  }
}
