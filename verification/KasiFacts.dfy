/**
 What the model, the durable world and everything in flight satisfy together: ids are fresh, every
 message about a run names that run's task, every outbox message is backed by a content row, and
 what is announced as done has been done.
 */
module KasiFacts {
  import opened Runtime
  import opened Ledger
  import opened Messages
  import opened Content
  import opened Kasi
  import Tasks
  import Email
  import Agents
  import R = ReplyId

  // ---------------------------------------------------------------- facts that only grow

  ghost predicate RunOf(m: Model, t: int, r: int)
  {
    exists i :: 0 <= i < |m.agents.runs| && m.agents.runs[i].id == r && m.agents.runs[i].task == t
  }

  ghost predicate HasTask(m: Model, t: int)
  {
    exists i :: 0 <= i < |m.tasks.tasks| && m.tasks.tasks[i].id == t
  }

  ghost predicate HasRef(m: Model, t: int, mid: string)
  {
    exists i :: 0 <= i < |m.tasks.tasks| && m.tasks.tasks[i].id == t && mid in m.tasks.tasks[i].references
  }

  ghost predicate Row(w: World, x: int, mid: string)
  {
    exists raw :: HasRow(w.outbox, x, mid, raw)
  }

  /** The bytes of the row with this Message-ID were handed to the mail edge and accepted. */
  ghost predicate WasSubmitted(w: World, mid: string)
  {
    exists i, x :: 0 <= i < |w.sent| && HasRow(w.outbox, x, mid, w.sent[i])
  }

  ghost predicate HasTranscript(w: World, t: int, r: int)
  {
    exists i :: 0 <= i < |w.archive.rows| && w.archive.rows[i].task == t &&
      w.archive.rows[i].filename == TranscriptRow(t, r, []).filename
  }

  function ReplyID(c: Config, t: int, r: int): string
  {
    R.ReplyMessageID(t, r, c.domain)
  }

  // ---------------------------------------------------------------- everything in flight

  ghost predicate MsgOK(c: Config, w: World, m: Model, msg: Msg)
  {
    match msg
    case SetReplyFrom(a) => a != "" && Tasks.Domain(a) == c.domain
    case LaunchAgentRun(t, r) => RunOf(m, t, r)
    case FinishAgentRun(t, r, _) => RunOf(m, t, r)
    case AgentRunFinished(t, r, _) => RunOf(m, t, r)
    case RunHarvest(t, r, k) => RunOf(m, t, r) && HasTask(m, t) && (k == Reply ==> HasRef(m, t, ReplyID(c, t, r)))
    case RegisterUIRequest(t, r, _) => RunOf(m, t, r) && HasTask(m, t)
    case MarkReplyQueued(t, x, mid) => Row(w, x, mid) && HasRef(m, t, mid)
    case SendOutbox(x, mid) => Row(w, x, mid)
    case MarkEmailSent(x) => exists mid :: Row(w, x, mid) && WasSubmitted(w, mid)
    case MarkHarvested(r, k) => k != Request &&
      (k == Transcript ==> exists t :: RunOf(m, t, r) && HasTranscript(w, t, r))
    case _ => true
  }

  ghost predicate LocOK(c: Config, w: World, m: Model, l: Loc)
  {
    match l
    case HarvestBody(t, r, k) => MsgOK(c, w, m, RunHarvest(t, r, k))
    case SendBody(x, mid) => Row(w, x, mid)
    case LaunchBody(t, r) => RunOf(m, t, r)
    case WatchBody(t, r) => RunOf(m, t, r)
    case Capturing(t, r) => RunOf(m, t, r)
    case Captured(t, r, _) => RunOf(m, t, r)
    case Assembling(t, r, from, _, _, _) => RunOf(m, t, r) && HasRef(m, t, ReplyID(c, t, r)) &&
      Tasks.Domain(from) == c.domain
    case Queueing(t, r, x, mid) => RunOf(m, t, r) && HasRef(m, t, mid) && Row(w, x, mid) && mid == ReplyID(c, t, r)
    case Discharging(t, r, x, mid) => RunOf(m, t, r) && HasRef(m, t, mid) && Row(w, x, mid) && mid == ReplyID(c, t, r)
    case Minting(t, r) => RunOf(m, t, r) && HasTask(m, t)
    case Sending(x, mid) => Row(w, x, mid)
    case Submitted(x, mid) => Row(w, x, mid) && WasSubmitted(w, mid)
    case Emitting(ms) => forall i :: 0 <= i < |ms| ==> MsgOK(c, w, m, ms[i]) && Announceable(ms[i])
    case _ => true
  }

  predicate DischargesReply(msg: Msg)
  {
    msg.MarkHarvested? && msg.kind == Reply
  }

  /** What a general effect may have left to announce: neither a discharged reply nor the end of a run. */
  predicate Announceable(msg: Msg)
  {
    !DischargesReply(msg) && !msg.AgentRunFinished?
  }

  ghost predicate CmdOK(c: Config, w: World, m: Model, cmd: Cmd)
  {
    LocOK(c, w, m, Begin(cmd))
  }

  ghost function Goods(c: Config, w: World, m: Model): Good<Msg, Cmd, Loc>
  {
    Good((msg: Msg) => MsgOK(c, w, m, msg), (cmd: Cmd) => CmdOK(c, w, m, cmd), (l: Loc) => LocOK(c, w, m, l))
  }

  // ---------------------------------------------------------------- growth

  ghost predicate ModelGrows(m: Model, m': Model)
  {
    && (forall t, r :: RunOf(m, t, r) ==> RunOf(m', t, r))
    && (forall t :: HasTask(m, t) ==> HasTask(m', t))
    && (forall t, mid :: HasRef(m, t, mid) ==> HasRef(m', t, mid))
  }

  ghost predicate WorldGrows(w: World, w': World)
  {
    && (forall x, mid, raw :: HasRow(w.outbox, x, mid, raw) ==> HasRow(w'.outbox, x, mid, raw))
    && w.sent <= w'.sent
    && (forall t, r :: HasTranscript(w, t, r) ==> HasTranscript(w', t, r))
  }

  lemma RowGrows(w: World, w': World, x: int, mid: string)
    requires WorldGrows(w, w')
    ensures Row(w, x, mid) ==> Row(w', x, mid)
    ensures WasSubmitted(w, mid) ==> WasSubmitted(w', mid)
  {
    if WasSubmitted(w, mid) {
      var i, y :| 0 <= i < |w.sent| && HasRow(w.outbox, y, mid, w.sent[i]);
      assert w'.sent[i] == w.sent[i];
    }
  }

  lemma MsgGrows(c: Config, w: World, m: Model, w': World, m': Model, msg: Msg)
    requires WorldGrows(w, w') && ModelGrows(m, m') && MsgOK(c, w, m, msg)
    ensures MsgOK(c, w', m', msg)
  {
    match msg
    case MarkReplyQueued(t, x, mid) => RowGrows(w, w', x, mid);
    case SendOutbox(x, mid) => RowGrows(w, w', x, mid);
    case MarkEmailSent(x) =>
      var mid :| Row(w, x, mid) && WasSubmitted(w, mid);
      RowGrows(w, w', x, mid);
    case _ =>
  }

  lemma LocGrows(c: Config, w: World, m: Model, w': World, m': Model, l: Loc)
    requires WorldGrows(w, w') && ModelGrows(m, m') && LocOK(c, w, m, l)
    ensures LocOK(c, w', m', l)
  {
    match l
    case HarvestBody(t, r, k) => MsgGrows(c, w, m, w', m', RunHarvest(t, r, k));
    case SendBody(x, mid) => RowGrows(w, w', x, mid);
    case Queueing(t, r, x, mid) => RowGrows(w, w', x, mid);
    case Discharging(t, r, x, mid) => RowGrows(w, w', x, mid);
    case Sending(x, mid) => RowGrows(w, w', x, mid);
    case Submitted(x, mid) => RowGrows(w, w', x, mid);
    case Emitting(ms) =>
      forall i | 0 <= i < |ms| ensures MsgOK(c, w', m', ms[i]) {
        MsgGrows(c, w, m, w', m', ms[i]);
      }
    case _ =>
  }

  lemma OutsGrow(c: Config, w: World, m: Model, w': World, m': Model, outs: seq<Out<Msg, Cmd>>)
    requires WorldGrows(w, w') && ModelGrows(m, m') && OutsGood(outs, Goods(c, w, m))
    ensures OutsGood(outs, Goods(c, w', m'))
  {
    forall i | 0 <= i < |outs| ensures OutGood(outs[i], Goods(c, w', m')) {
      assert OutGood(outs[i], Goods(c, w, m));
      match outs[i]
      case Send(msg) => MsgGrows(c, w, m, w', m', msg);
      case Do(cmd) => LocGrows(c, w, m, w', m', Begin(cmd));
    }
  }

  /** What is in flight stays good as the model and the world grow. */
  lemma CarriesGrow(c: Config, s: KState, w: World, m: Model, w': World, m': Model)
    requires WorldGrows(w, w') && ModelGrows(m, m') && Carries(s, Goods(c, w, m))
    ensures Carries(s, Goods(c, w', m'))
  {
    forall k | 0 <= k < |s.slots| ensures SlotGood(s.slots[k], Goods(c, w', m')) {
      var x := s.slots[k];
      assert SlotGood(x, Goods(c, w, m));
      if x.run.Some? { LocGrows(c, w, m, w', m', x.run.value); }
      if x.transit.Some? { MsgGrows(c, w, m, w', m', x.transit.value.msg); }
    }
    forall i | 0 <= i < |s.inbox| ensures MsgOK(c, w', m', s.inbox[i].msg) {
      MsgGrows(c, w, m, w', m', s.inbox[i].msg);
    }
    forall i | 0 <= i < |s.log| ensures MsgOK(c, w', m', s.log[i].msg) {
      MsgGrows(c, w, m, w', m', s.log[i].msg);
    }
    match s.phase
    case Taken(e) => MsgGrows(c, w, m, w', m', e.msg);
    case Applying(e) => MsgGrows(c, w, m, w', m', e.msg);
    case Interpreting(_, todo, own) =>
      OutsGrow(c, w, m, w', m', todo);
      if own.Some? { MsgGrows(c, w, m, w', m', own.value.msg); }
    case _ =>
  }

  // ---------------------------------------------------------------- the model

  ghost predicate RunsOK(runs: seq<Agents.AgentRun>, n: nat)
  {
    && (forall i :: 0 <= i < |runs| ==> 1 <= runs[i].id <= n)
    && (forall i, j :: 0 <= i < j < |runs| ==> runs[i].id < runs[j].id)
  }

  ghost predicate TaskIdsOK(tasks: seq<Tasks.Task>, n: nat)
  {
    && (forall i :: 0 <= i < |tasks| ==> 1 <= tasks[i].id <= n)
    && (forall i, j :: 0 <= i < j < |tasks| ==> tasks[i].id < tasks[j].id)
  }

  ghost predicate JobOK(c: Config, m: Model, j: Tasks.HarvestJob)
  {
    RunOf(m, j.task, j.run) && HasTask(m, j.task) && (j.kind == Reply ==> HasRef(m, j.task, ReplyID(c, j.task, j.run)))
  }

  ghost predicate JobsOK(c: Config, m: Model, jobs: seq<Tasks.HarvestJob>)
  {
    forall i :: 0 <= i < |jobs| ==> JobOK(c, m, jobs[i])
  }

  ghost predicate EntryOK(w: World, m: Model, e: Email.OutboxEntry)
  {
    Row(w, e.outboxID, e.messageID) && HasRef(m, e.task, e.messageID) && (e.sent ==> WasSubmitted(w, e.messageID))
  }

  ghost predicate EntriesOK(w: World, m: Model)
  {
    && (forall i :: 0 <= i < |m.outbox| ==> EntryOK(w, m, m.outbox[i]))
    && (forall i, j :: 0 <= i < j < |m.outbox| ==>
        m.outbox[i].outboxID != m.outbox[j].outboxID && m.outbox[i].messageID != m.outbox[j].messageID)
  }

  predicate SettingsOK(c: Config, m: Model)
  {
    && m.agents.maxConcurrent == c.maxConcurrent && m.tasks.loopGuard == c.loopGuard
    && (if m.tasks.replyFrom == "" then c.domain == Tasks.ROUTE_DOMAIN else Tasks.Domain(m.tasks.replyFrom) == c.domain)
  }

  /** The model after `n` messages. */
  ghost predicate ModelOK(c: Config, w: World, m: Model, n: nat)
  {
    && RunsOK(m.agents.runs, n) && TaskIdsOK(m.tasks.tasks, n)
    && JobsOK(c, m, m.tasks.pending) && EntriesOK(w, m) && SettingsOK(c, m)
  }

  ghost predicate Backed(w: World, mail: Mail)
  {
    exists x :: HasRow(w.outbox, x, mail.messageID, mail)
  }

  /** Ids and Message-IDs are in one-to-one correspondence, and only queued mail was ever sent. */
  ghost predicate WorldOK(w: World)
  {
    && OutboxOK(w.outbox)
    && forall i :: 0 <= i < |w.sent| ==> Backed(w, w.sent[i])
  }

  lemma RowsAgree(w: World, x: int, mid: string, x': int, mid': string)
    requires OutboxOK(w.outbox) && Row(w, x, mid) && Row(w, x', mid')
    ensures x == x' <==> mid == mid'
    ensures mid != ""
  {
  }

  lemma {:induction false} DomainOfRoute(route: string)
    ensures Tasks.Domain(Tasks.RouteAddr(route)) == Tasks.ROUTE_DOMAIN
    decreases |route|
  {
    var a := Tasks.RouteAddr(route);
    if route == [] {
      assert a[1..] == Tasks.ROUTE_DOMAIN;
    } else {
      DomainOfRoute(route[1..]);
      assert a[1..] == Tasks.RouteAddr(route[1..]);
      assert a[|route|] == '@' && a[1..][|route| - 1] == '@';
    }
  }

  /** Whichever identity a reply is sent as, its Message-ID takes the configured domain. */
  lemma FromDomain(c: Config, m: Model, route: string)
    requires SettingsOK(c, m)
    ensures Tasks.Domain(Tasks.FromOf(m.tasks.replyFrom, route)) == c.domain
  {
    DomainOfRoute(route);
  }

  lemma ModelSurvives(c: Config, w: World, w': World, m: Model, n: nat)
    requires ModelOK(c, w, m, n) && WorldGrows(w, w')
    ensures ModelOK(c, w', m, n)
  {
    forall i | 0 <= i < |m.outbox| ensures EntryOK(w', m, m.outbox[i]) {
      assert EntryOK(w, m, m.outbox[i]);
      RowGrows(w, w', m.outbox[i].outboxID, m.outbox[i].messageID);
    }
  }
}
