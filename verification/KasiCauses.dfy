/**
 What caused what: in every reachable state the cause a message carries is the offset of the message
 that led to it, and says which: a sent mail was driven by its send-outbox, a discharge by the
 run-harvest of that run and kind, the end of a run by its finish. What a source or a caller sent has none.
 */
module KasiCauses {
  import opened Prelude
  import opened Runtime
  import opened RuntimeProofs
  import opened Provenance
  import opened Messages
  import opened Kasi
  import opened KasiReplies
  import R = ReplyId
  import Tasks
  import Agents

  // ---------------------------------------------------------------- facts of a model, read off its lists

  /** Task `t` is entry `i`: the first with that id. */
  predicate TaskAt(m: Model, t: int, i: int)
  {
    0 <= i < |m.tasks.tasks| && m.tasks.tasks[i].id == t && forall j :: 0 <= j < i ==> m.tasks.tasks[j].id != t
  }

  /** Run `r` is entry `i`: the first with that id. */
  predicate RunAt(m: Model, r: int, i: int)
  {
    0 <= i < |m.agents.runs| && m.agents.runs[i].id == r && forall j :: 0 <= j < i ==> m.agents.runs[j].id != r
  }

  /** The request of run `r` is entry `i`: the first for that run. */
  predicate RequestAt(m: Model, r: int, i: int)
  {
    && 0 <= i < |m.tasks.requests| && m.tasks.requests[i].run == r
    && forall j :: 0 <= j < i ==> m.tasks.requests[j].run != r
  }

  /** The run has been told to stop and has not ended since. */
  ghost predicate IsStopping(m: Model, r: int)
  {
    exists i :: RunAt(m, r, i) && m.agents.runs[i].status == Agents.Stopping
  }

  /** The address replies on this route come from: the configured one, or the route's own. */
  function Sender(m: Model, route: string): string
  {
    if m.tasks.replyFrom == "" then route + "@kasi.test" else m.tasks.replyFrom
  }

  /** The link of the run's request if it waits for an answer, none otherwise. */
  ghost predicate AsksFor(m: Model, r: int, link: string)
  {
    && (forall q :: RequestAt(m, r, q) ==>
          link == if m.tasks.requests[q].answered then "" else m.tasks.requests[q].link)
    && ((forall q :: 0 <= q < |m.tasks.requests| ==> m.tasks.requests[q].run != r) ==> link == "")
  }

  /** What a reply of run `r` on task `t` is made from in this model. */
  ghost predicate ReplyFacts(m: Model, t: int, r: int, from: string, irt: string, refs: seq<string>, link: string)
  {
    exists i :: TaskAt(m, t, i)
      && from == Sender(m, m.tasks.tasks[i].route) && irt == m.tasks.tasks[i].lastMessageID
      && refs == m.tasks.tasks[i].references && AsksFor(m, r, link)
  }

  /** The Message-ID of a reply of run `r` on task `t`, sent as this model says. */
  ghost predicate ReplyNamed(m: Model, t: int, r: int, mid: string)
  {
    exists i :: TaskAt(m, t, i) && mid == R.ReplyMessageID(t, r, Tasks.Domain(Sender(m, m.tasks.tasks[i].route)))
  }

  // ---------------------------------------------------------------- what may come from what

  /** Message `msg`, at offset `n`, found model `m` and led to message `x`. */
  ghost predicate LedTo(m: Model, n: nat, msg: Msg, x: Msg)
  {
    match x
    case SpawnAgentRun(t, resume) =>
      || (msg.CreateTask? && t == n && !resume)
      || (msg.AppendToTask? && msg.task == t && resume && exists i :: TaskAt(m, t, i))
      || (msg.AnswerUIRequest? && msg.task == t && resume && exists i :: RequestAt(m, msg.run, i))
    case AgentRunFinished(t, r, res) =>
      && msg.FinishAgentRun? && msg.task == t && msg.run == r
      && res.exit == msg.result.exit && res.manifest == msg.result.manifest
      && (res.stopped <==> msg.result.stopped || IsStopping(m, r))
    case MarkHarvested(r, k) => msg.RunHarvest? && msg.run == r && msg.kind == k && k != Request
    case RegisterUIRequest(t, r, _) => msg == RunHarvest(t, r, Request)
    case MarkReplyQueued(t, _, mid) =>
      msg.RunHarvest? && msg.task == t && msg.kind == Reply && ReplyNamed(m, t, msg.run, mid)
    case MarkEmailSent(x) => msg.SendOutbox? && msg.outboxID == x
    case Remember(_, _) => msg.RunHarvest? && msg.kind == Memory
    case Forget(_) => msg.RunHarvest? && msg.kind == Memory
    case _ => false
  }

  /** An effect that message started may be here. */
  ghost predicate Started(m: Model, n: nat, msg: Msg, l: Loc)
  {
    match l
    case Capturing(t, r) => msg == RunHarvest(t, r, Transcript)
    case Captured(t, r, _) => msg == RunHarvest(t, r, Transcript)
    case CapturingMemory(t, r) => msg == RunHarvest(t, r, Memory)
    case StoringSkill(t, r) => msg == RunHarvest(t, r, Skill)
    case Minting(t, r) => msg == RunHarvest(t, r, Request)
    case Assembling(t, r, from, irt, refs, link) =>
      msg == RunHarvest(t, r, Reply) && ReplyFacts(m, t, r, from, irt, refs, link)
    case Queueing(t, r, _, mid) => msg == RunHarvest(t, r, Reply) && ReplyNamed(m, t, r, mid)
    case Discharging(t, r, _, mid) => msg == RunHarvest(t, r, Reply) && ReplyNamed(m, t, r, mid)
    case Sending(x, mid) => msg == SendOutbox(x, mid)
    case Submitted(x, mid) => msg == SendOutbox(x, mid)
    case Emitting(ms) => forall i :: 0 <= i < |ms| ==> LedTo(m, n, msg, ms[i])
    case Archiving(t) => msg == FinishTask(t)
    case Doing(cmd) => DoneFor(m, n, msg, cmd)
    case Inert => true
    case _ => false
  }

  /** Effects that leave nothing durable: laying mail in, starting and signalling a process. */
  ghost predicate DoneFor(m: Model, n: nat, msg: Msg, cmd: Cmd)
  {
    match cmd
    case LayIn(t) =>
      (msg.CreateTask? && t == n) || ((msg.AppendToTask? || msg.AnswerUIRequest?) && msg.task == t)
    case StartAgentRun(t, r, resume, harness) =>
      && msg == LaunchAgentRun(t, r)
      && (exists i :: RunAt(m, r, i) && m.agents.runs[i].resume == resume && m.agents.runs[i].harness == harness)
    case SignalAgentRun(r, harness) =>
      msg == StopAgentRun(r) && exists i :: RunAt(m, r, i) && m.agents.runs[i].harness == harness
    case _ => false
  }

  predicate IsBody(l: Loc)
  {
    l.HarvestBody? || l.SendBody? || l.LaunchBody? || l.WatchBody? || l.Inert?
  }

  /** What comes through the front door or from a source. */
  predicate Uncaused(c: Config, msg: Msg)
  {
    Front(c, msg) || msg.RunHarvest? || msg.SendOutbox? || msg.LaunchAgentRun? || msg.FinishAgentRun?
  }

  ghost function Causes(c: Config): Origin<Model, Msg, Loc>
  {
    Origin((m: Model, n: nat, msg: Msg, x: Msg) => LedTo(m, n, msg, x),
           (m: Model, n: nat, msg: Msg, l: Loc) => Started(m, n, msg, l),
           (l: Loc) => IsBody(l),
           (msg: Msg) => Uncaused(c, msg))
  }

  // ---------------------------------------------------------------- the handlers keep to it

  /** What a handler's answer may start or send. */
  ghost predicate Accounts(m: Model, n: nat, msg: Msg, out: Out<Msg, Cmd>)
  {
    match out
    case Send(x) => LedTo(m, n, msg, x)
    case Do(cmd) => Started(m, n, msg, Begin(cmd))
  }

  ghost predicate AllAccount(m: Model, n: nat, msg: Msg, outs: seq<Out<Msg, Cmd>>)
  {
    forall i :: 0 <= i < |outs| ==> Accounts(m, n, msg, outs[i])
  }

  lemma TaskFound(m: Model, t: int)
    ensures var i := Tasks.Find(m.tasks, t);
      (i < |m.tasks.tasks| ==> TaskAt(m, t, i)) && (i == |m.tasks.tasks| ==> forall j :: !TaskAt(m, t, j))
  {
  }

  lemma RunFound(m: Model, r: int)
    ensures var i := Agents.FindRun(m.agents, r);
      (i < |m.agents.runs| ==> RunAt(m, r, i)) && (i == |m.agents.runs| ==> forall j :: !RunAt(m, r, j))
  {
  }

  lemma RequestFound(m: Model, r: int)
    ensures var i := Tasks.FindRequest(m.tasks, r);
      && (i < |m.tasks.requests| ==> RequestAt(m, r, i))
      && (i == |m.tasks.requests| ==> forall j :: 0 <= j < |m.tasks.requests| ==> m.tasks.requests[j].run != r)
  {
  }

  lemma LinkFound(m: Model, r: int)
    ensures AsksFor(m, r, Tasks.RequestLink(m.tasks, r))
  {
    RequestFound(m, r);
    var i := Tasks.FindRequest(m.tasks, r);
    forall q | RequestAt(m, r, q) ensures q == i && i < |m.tasks.requests| {
    }
  }

  lemma ReplyAccounts(m: Model, n: nat, t: int, r: int)
    ensures AllAccount(m, n, RunHarvest(t, r, Reply), Tasks.ReplyCmds(m.tasks, t, r))
  {
    TaskFound(m, t);
    LinkFound(m, r);
    var i := Tasks.Find(m.tasks, t);
    if i < |m.tasks.tasks| {
      var task := m.tasks.tasks[i];
      assert task.route + "@" + Tasks.ROUTE_DOMAIN == task.route + "@kasi.test";
      assert Tasks.FromOf(m.tasks.replyFrom, task.route) == Sender(m, task.route);
    }
  }

  lemma TaskMessagesAccount(m: Model, n: nat, msg: Msg)
    requires msg.CreateTask? || msg.AppendToTask? || msg.FinishTask? || msg.AnswerUIRequest?
    ensures AllAccount(m, n, msg, ApplyOne(m, msg, n).1)
  {
    if msg.AppendToTask? { TaskFound(m, msg.task); }
    if msg.AnswerUIRequest? { RequestFound(m, msg.run); }
  }

  lemma RunMessagesAccount(m: Model, n: nat, msg: Msg)
    requires msg.StopAgentRun? || msg.LaunchAgentRun? || msg.FinishAgentRun?
    ensures AllAccount(m, n, msg, ApplyOne(m, msg, n).1)
  {
    RunFound(m, msg.run);
    if msg.FinishAgentRun? {
      FinishAccounts(m, n, msg);
    }
  }

  lemma FinishAccounts(m: Model, n: nat, msg: Msg)
    requires msg.FinishAgentRun?
    ensures AllAccount(m, n, msg, ApplyOne(m, msg, n).1)
  {
    RunFound(m, msg.run);
    var i := Agents.FindRun(m.agents, msg.run);
    assert forall j :: RunAt(m, msg.run, j) ==> j == i;
  }

  lemma HarvestAccounts(m: Model, n: nat, msg: Msg)
    requires msg.RunHarvest?
    ensures AllAccount(m, n, msg, ApplyOne(m, msg, n).1)
  {
    if msg.kind == Reply {
      ReplyAccounts(m, n, msg.task, msg.run);
      assert ApplyOne(m, msg, n).1 == Tasks.ReplyCmds(m.tasks, msg.task, msg.run);
    }
  }

  lemma HandlersAccount(m: Model, n: nat, msg: Msg)
    ensures AllAccount(m, n, msg, ApplyOne(m, msg, n).1)
  {
    if msg.RunHarvest? {
      HarvestAccounts(m, n, msg);
    } else if msg.CreateTask? || msg.AppendToTask? || msg.FinishTask? || msg.AnswerUIRequest? {
      TaskMessagesAccount(m, n, msg);
    } else if msg.StopAgentRun? || msg.LaunchAgentRun? || msg.FinishAgentRun? {
      RunMessagesAccount(m, n, msg);
    } else if msg.SendOutbox? {
      assert ApplyOne(m, msg, n).1 == [Do(SendEmail(msg.outboxID, msg.messageID))];
    } else {
      assert ApplyOne(m, msg, n).1 == [];
    }
  }

  // ---------------------------------------------------------------- the effects keep to it

  lemma MemoryKeepsTo(m: Model, n: nat, msg: Msg, l: Loc, l': Loc, ms: seq<Msg>)
    requires Started(m, n, msg, l) && l.CapturingMemory? && OnlyDirectives(ms)
    requires l' == Emitting(ms + [MarkHarvested(l.run, Memory)])
    ensures Started(m, n, msg, l')
  {
    forall i | 0 <= i < |l'.msgs| ensures LedTo(m, n, msg, l'.msgs[i]) {
      if i < |ms| { assert MemoryDirective(ms[i]); }
    }
  }

  lemma AssemblingKeepsTo(c: Config, m: Model, n: nat, msg: Msg, w: World, l: Loc, w': World, l': Loc,
      emit: Option<Msg>)
    requires Started(m, n, msg, l) && l.Assembling? && Edge(c, w, l, false, w', l', emit)
    ensures Started(m, n, msg, l') && emit.None?
  {
    var i :| TaskAt(m, l.task, i) && l.from == Sender(m, m.tasks.tasks[i].route)
      && l.inReplyTo == m.tasks.tasks[i].lastMessageID && l.references == m.tasks.tasks[i].references
      && AsksFor(m, l.run, l.requestLink);
    assert l'.Queueing? && l'.messageID == R.ReplyMessageID(l.task, l.run, Tasks.Domain(l.from));
  }

  lemma EffectKeepsTo(c: Config, m: Model, n: nat, msg: Msg, w: World, l: Loc, w': World, l': Loc, emit: Option<Msg>)
    requires Started(m, n, msg, l) && Edge(c, w, l, false, w', l', emit)
    ensures Started(m, n, msg, l') && (emit.Some? ==> LedTo(m, n, msg, emit.value))
  {
    if l.Assembling? {
      AssemblingKeepsTo(c, m, n, msg, w, l, w', l', emit);
    } else if l.CapturingMemory? {
      var ms: seq<Msg> :| l' == Emitting(ms + [MarkHarvested(l.run, Memory)]) && OnlyDirectives(ms);
      MemoryKeepsTo(m, n, msg, l, l', ms);
    } else if l.Emitting? {
      EmittingKeepsTo(m, n, msg, l, l');
    } else if l.Sending? || l.Submitted? || l.Archiving? {
      MailKeepsTo(c, m, n, msg, w, l, w', l', emit);
    }
  }

  lemma MailKeepsTo(c: Config, m: Model, n: nat, msg: Msg, w: World, l: Loc, w': World, l': Loc, emit: Option<Msg>)
    requires Started(m, n, msg, l) && Edge(c, w, l, false, w', l', emit)
    requires l.Sending? || l.Submitted? || l.Archiving?
    ensures Started(m, n, msg, l') && emit.None?
  {
  }

  lemma EmittingKeepsTo(m: Model, n: nat, msg: Msg, l: Loc, l': Loc)
    requires l.Emitting? && l.msgs != [] && l' == Emitting(l.msgs[1..]) && Started(m, n, msg, l)
    ensures Started(m, n, msg, l') && LedTo(m, n, msg, l.msgs[0])
  {
    assert forall i :: 0 <= i < |l'.msgs| ==> l'.msgs[i] == l.msgs[i + 1];
  }

  lemma EdgeKeepsTo(c: Config, w: World, l: Loc, cancelled: bool, w': World, l': Loc, emit: Option<Msg>)
    requires Edge(c, w, l, cancelled, w', l', emit)
    ensures EdgeTraced(Causes(c), l, l', emit)
  {
    forall m, n: nat, msg | Started(m, n, msg, l)
      ensures Started(m, n, msg, l') && (emit.Some? ==> LedTo(m, n, msg, emit.value))
    {
      EffectKeepsTo(c, m, n, msg, w, l, w', l', emit);
    }
  }

  lemma KeepsToCauses(c: Config)
    ensures Respects(System(c), Causes(c))
  {
    var p, o := System(c), Causes(c);
    forall m, n: nat, msg ensures OutsTraced(p, o, m, n, msg, ApplyMsg(p, m, msg, n).1) {
      HandlersAccountFor(c, m, n, msg);
    }
    forall w, l, cancelled, w', l', emit | p.edge(w, l, cancelled, w', l', emit) ensures EdgeTraced(o, l, l', emit) {
      EdgeKeepsTo(c, w, l, cancelled, w', l', emit);
    }
    forall m ensures SourcesTraced(p, o, m) {
      BodiesStart(c, m);
    }
  }

  lemma HandlersAccountFor(c: Config, m: Model, n: nat, msg: Msg)
    ensures OutsTraced(System(c), Causes(c), m, n, msg, ApplyMsg(System(c), m, msg, n).1)
  {
    ApplyIs(c, m, msg, n);
    HandlersAccount(m, n, msg);
    var outs := ApplyOne(m, msg, n).1;
    forall i | 0 <= i < |outs| ensures OutTraced(System(c), Causes(c), m, n, msg, outs[i]) {
      assert Accounts(m, n, msg, outs[i]);
    }
  }

  lemma BodiesStart(c: Config, m: Model)
    ensures SourcesTraced(System(c), Causes(c), m)
  {
    forall id | id in Sources(m) ensures IsBody(Sources(m)[id].start) {
      StartsAtBody(m, id);
    }
  }

  // ---------------------------------------------------------------- the theorem

  /**
   The cause of every logged message, in every state of every run: 0 exactly for what came through the
   front door or from a source, and otherwise the offset of the message that led to it.
   */
  lemma CausesTell(c: Config, states: seq<KState>, steps: seq<KStep>, i: nat, j: nat)
    requires KRun(c, states, steps) && i < |states| && j < |states[i].log|
    ensures var log, e := states[i].log, states[i].log[j];
      if e.cause == 0 then Uncaused(c, e.msg)
      else e.cause <= j && LedTo(Fold(System(c), log[..e.cause - 1]), e.cause, log[e.cause - 1].msg, e.msg)
  {
    KeepsToCauses(c);
    RunTraced(System(c), Causes(c), states, steps, i);
    CausesPrecede(System(c), states, steps, i, j + 1);
    assert EnvTraced(System(c), Causes(c), states[i].log, states[i].log[j]);
  }

  /** What only handlers and effects send. */
  predicate SentInside(msg: Msg)
  {
    || msg.MarkEmailSent? || msg.MarkHarvested? || msg.MarkReplyQueued? || msg.RegisterUIRequest?
    || msg.AgentRunFinished? || msg.SpawnAgentRun?
  }

  /** What only sources and callers send. */
  predicate SentOutside(msg: Msg)
  {
    || msg.RunHarvest? || msg.SendOutbox? || msg.LaunchAgentRun? || msg.FinishAgentRun? || msg.CreateTask?
    || msg.AppendToTask? || msg.FinishTask? || msg.AnswerUIRequest? || msg.StopAgentRun? || msg.SetReplyFrom?
    || msg.SetWorkerHarness?
  }

  /** What only an effect or a handler sends always has a cause, and what a source or a caller sends never has one. */
  lemma EffectsHaveCauses(c: Config, states: seq<KState>, steps: seq<KStep>, i: nat, j: nat)
    requires KRun(c, states, steps) && i < |states| && j < |states[i].log|
    ensures var e := states[i].log[j];
      (SentInside(e.msg) ==> 0 < e.cause <= j) && (SentOutside(e.msg) ==> e.cause == 0)
  {
    CausesTell(c, states, steps, i, j);
  }

  /** The message is answered in the log by the right one: a sent mail, a discharge, a queued reply, a request. */
  predicate Follows(cause: Msg, msg: Msg)
  {
    match msg
    case MarkEmailSent(x) => cause.SendOutbox? && cause.outboxID == x
    case MarkHarvested(r, k) => cause.RunHarvest? && cause.run == r && cause.kind == k
    case MarkReplyQueued(t, _, _) => cause.RunHarvest? && cause.task == t && cause.kind == Reply
    case RegisterUIRequest(t, r, _) => cause == RunHarvest(t, r, Request)
    case AgentRunFinished(t, r, _) => cause.FinishAgentRun? && cause.task == t && cause.run == r
    case _ => true
  }

  /** The causes a reader of the log follows. */
  lemma WhoCausedIt(c: Config, states: seq<KState>, steps: seq<KStep>, i: nat, j: nat)
    requires KRun(c, states, steps) && i < |states| && j < |states[i].log|
    ensures var log, e := states[i].log, states[i].log[j];
      SentInside(e.msg) ==> 0 < e.cause <= j && Follows(log[e.cause - 1].msg, e.msg)
  {
    CausesTell(c, states, steps, i, j);
  }
}
