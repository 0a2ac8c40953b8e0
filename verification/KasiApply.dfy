/** One applied message keeps the model well-formed and returns only well-formed commands. */
module KasiApply {
  import opened Runtime
  import opened Ledger
  import opened Messages
  import opened Kasi
  import opened KasiFacts
  import Tasks
  import Email
  import Agents

  // ---------------------------------------------------------------- growth of one slice

  lemma JobGrows(c: Config, m: Model, m': Model, j: Tasks.HarvestJob)
    requires ModelGrows(m, m') && JobOK(c, m, j)
    ensures JobOK(c, m', j)
  {
  }

  lemma JobsGrow(c: Config, m: Model, m': Model, jobs: seq<Tasks.HarvestJob>)
    requires ModelGrows(m, m') && JobsOK(c, m, jobs)
    ensures JobsOK(c, m', jobs)
  {
    forall i | 0 <= i < |jobs| ensures JobOK(c, m', jobs[i]) {
      JobGrows(c, m, m', jobs[i]);
    }
  }

  lemma EntriesGrow(w: World, m: Model, m': Model)
    requires ModelGrows(m, m') && EntriesOK(w, m) && m'.outbox == m.outbox
    ensures EntriesOK(w, m')
  {
    forall i | 0 <= i < |m.outbox| ensures EntryOK(w, m', m'.outbox[i]) {
      assert EntryOK(w, m, m.outbox[i]);
    }
  }

  /** Replacing a task by one with the same id and no fewer references forgets nothing. */
  lemma TaskReplaced(m: Model, i: nat, t: Tasks.Task)
    requires i < |m.tasks.tasks| && t.id == m.tasks.tasks[i].id && m.tasks.tasks[i].references <= t.references
    ensures ModelGrows(m, m.(tasks := m.tasks.(tasks := m.tasks.tasks[i := t])))
    ensures forall mid :: mid in t.references ==>
      HasRef(m.(tasks := m.tasks.(tasks := m.tasks.tasks[i := t])), t.id, mid)
  {
    var old', new' := m.tasks.tasks, m.tasks.tasks[i := t];
    var m' := m.(tasks := m.tasks.(tasks := new'));
    assert m'.agents == m.agents;
    forall r, u | RunOf(m, u, r) ensures RunOf(m', u, r) {
    }
    forall u | HasTask(m, u) ensures HasTask(m', u) {
      var k :| 0 <= k < |old'| && old'[k].id == u;
      assert new'[k].id == u;
    }
    forall u, mid | HasRef(m, u, mid) ensures HasRef(m', u, mid) {
      var k :| 0 <= k < |old'| && old'[k].id == u && mid in old'[k].references;
      assert new'[k].id == u && mid in new'[k].references;
    }
    assert new'[i] == t;
  }

  lemma TaskAdded(m: Model, t: Tasks.Task)
    ensures ModelGrows(m, m.(tasks := m.tasks.(tasks := m.tasks.tasks + [t])))
  {
    var old', new' := m.tasks.tasks, m.tasks.tasks + [t];
    var m' := m.(tasks := m.tasks.(tasks := new'));
    assert m'.agents == m.agents;
    forall u | HasTask(m, u) ensures HasTask(m', u) {
      var k :| 0 <= k < |old'| && old'[k].id == u;
      assert new'[k].id == u;
    }
    forall u, mid | HasRef(m, u, mid) ensures HasRef(m', u, mid) {
      var k :| 0 <= k < |old'| && old'[k].id == u && mid in old'[k].references;
      assert new'[k].id == u && mid in new'[k].references;
    }
  }

  /** A model that differs in nothing the facts speak of. */
  lemma SameFacts(m: Model, m': Model)
    requires m'.tasks.tasks == m.tasks.tasks && m'.agents.runs == m.agents.runs
    ensures ModelGrows(m, m')
  {
    assert forall t, r :: RunOf(m, t, r) == RunOf(m', t, r);
    assert forall t :: HasTask(m, t) == HasTask(m', t);
    assert forall t, mid :: HasRef(m, t, mid) == HasRef(m', t, mid);
  }

  lemma GrowsTransitive(a: Model, b: Model, d: Model)
    requires ModelGrows(a, b) && ModelGrows(b, d)
    ensures ModelGrows(a, d)
  {
  }

  // ---------------------------------------------------------------- jobs

  lemma WithJobOK(c: Config, m: Model, jobs: seq<Tasks.HarvestJob>, j: Tasks.HarvestJob)
    requires JobsOK(c, m, jobs) && JobOK(c, m, j)
    ensures JobsOK(c, m, Tasks.WithHarvestPending(jobs, j))
  {
  }

  lemma DischargedOK(c: Config, m: Model, jobs: seq<Tasks.HarvestJob>, run: int, kind: HarvestKind)
    requires JobsOK(c, m, jobs)
    ensures JobsOK(c, m, Tasks.Discharged(jobs, run, kind))
  {
    Tasks.DischargedIs(jobs, run, kind);
    var d := Tasks.Discharged(jobs, run, kind);
    forall i | 0 <= i < |d| ensures JobOK(c, m, d[i]) {
      assert d[i] in d;
      var k :| 0 <= k < |jobs| && jobs[k] == d[i];
    }
  }

  lemma JobsOfOK(c: Config, m: Model, jobs: seq<Tasks.HarvestJob>, t: int, r: int, res: RunResult)
    requires JobsOK(c, m, jobs) && RunOf(m, t, r) && HasTask(m, t)
    requires Tasks.RepliesDirectly(res) ==> HasRef(m, t, ReplyID(c, t, r))
    ensures JobsOK(c, m, Tasks.JobsOf(jobs, t, r, res))
  {
    var p0 := Tasks.WithHarvestPending(jobs, Tasks.HarvestJob(t, r, Transcript));
    WithJobOK(c, m, jobs, Tasks.HarvestJob(t, r, Transcript));
    WithJobOK(c, m, p0, Tasks.HarvestJob(t, r, Skill));
    var p1 := if Tasks.HasSkill(res.manifest) then Tasks.WithHarvestPending(p0, Tasks.HarvestJob(t, r, Skill)) else p0;
    WithJobOK(c, m, p1, Tasks.HarvestJob(t, r, Memory));
    var p2 := Tasks.WithHarvestPending(p1, Tasks.HarvestJob(t, r, Memory));
    WithJobOK(c, m, p2, Tasks.HarvestJob(t, r, Request));
    if Tasks.RepliesDirectly(res) {
      WithJobOK(c, m, p2, Tasks.HarvestJob(t, r, Reply));
    }
  }

  // ---------------------------------------------------------------- per handler

  ghost predicate Applied(c: Config, w: World, m: Model, msg: Msg, n: nat)
  {
    var (m', outs) := ApplyOne(m, msg, n + 1);
    ModelGrows(m, m') && ModelOK(c, w, m', n + 1) && OutsGood(outs, Goods(c, w, m'))
  }

  /** What is left to show when only the tasks slice changed. */
  lemma TasksApplied(c: Config, w: World, m: Model, ts: Tasks.Model, n: nat)
    requires ModelOK(c, w, m, n) && ModelGrows(m, m.(tasks := ts))
    requires TaskIdsOK(ts.tasks, n + 1) && JobsOK(c, m.(tasks := ts), ts.pending)
    requires SettingsOK(c, m.(tasks := ts))
    ensures ModelOK(c, w, m.(tasks := ts), n + 1)
  {
    EntriesGrow(w, m, m.(tasks := ts));
  }

  /** What is left to show when only the agents slice changed. */
  lemma AgentsApplied(c: Config, w: World, m: Model, ag: Agents.Model, n: nat)
    requires ModelOK(c, w, m, n) && ModelGrows(m, m.(agents := ag))
    requires RunsOK(ag.runs, n + 1) && SettingsOK(c, m.(agents := ag))
    ensures ModelOK(c, w, m.(agents := ag), n + 1)
  {
    JobsGrow(c, m, m.(agents := ag), m.tasks.pending);
    EntriesGrow(w, m, m.(agents := ag));
  }

  /** One task replaced by a continuation of itself, the jobs as they were. */
  lemma OneTask(c: Config, w: World, m: Model, i: nat, t: Tasks.Task, n: nat)
    requires ModelOK(c, w, m, n) && i < |m.tasks.tasks|
    requires t.id == m.tasks.tasks[i].id && m.tasks.tasks[i].references <= t.references
    ensures var m' := m.(tasks := m.tasks.(tasks := m.tasks.tasks[i := t]));
      && ModelGrows(m, m') && ModelOK(c, w, m', n + 1)
      && forall mid :: mid in t.references ==> HasRef(m', t.id, mid)
  {
    TaskReplaced(m, i, t);
    var ts := m.tasks.(tasks := m.tasks.tasks[i := t]);
    JobsGrow(c, m, m.(tasks := ts), m.tasks.pending);
    TasksApplied(c, w, m, ts, n);
  }

  lemma AppendMessage(c: Config, w: World, m: Model, msg: Msg, n: nat)
    requires ModelOK(c, w, m, n) && msg.AppendToTask?
    ensures Applied(c, w, m, msg, n)
  {
    var (ts, outs) := Tasks.HandleAppendToTask(m.tasks, msg.task, msg.messageID);
    var i := Tasks.Find(m.tasks, msg.task);
    SameFacts(m, m);
    if i < |m.tasks.tasks| && ts != m.tasks {
      OneTask(c, w, m, i, ts.tasks[i], n);
      assert ts == m.tasks.(tasks := m.tasks.tasks[i := ts.tasks[i]]);
    }
    assert ApplyOne(m, msg, n + 1) == (m.(tasks := ts), outs);
  }

  lemma FinishTaskMessage(c: Config, w: World, m: Model, msg: Msg, n: nat)
    requires ModelOK(c, w, m, n) && msg.FinishTask?
    ensures Applied(c, w, m, msg, n)
  {
    var (ts, outs) := Tasks.HandleFinishTask(m.tasks, msg.task);
    var i := Tasks.Find(m.tasks, msg.task);
    SameFacts(m, m);
    if i < |m.tasks.tasks| {
      OneTask(c, w, m, i, ts.tasks[i], n);
    }
    assert ApplyOne(m, msg, n + 1) == (m.(tasks := ts), outs);
  }

  lemma CreateMessage(c: Config, w: World, m: Model, msg: Msg, n: nat)
    requires ModelOK(c, w, m, n) && msg.CreateTask?
    ensures Applied(c, w, m, msg, n)
  {
    var m' := Handle(m, msg, n + 1).value.0;
    TaskAdded(m, m'.tasks.tasks[|m.tasks.tasks|]);
    JobsGrow(c, m, m', m.tasks.pending);
    EntriesGrow(w, m, m');
  }

  lemma AnswerMessage(c: Config, w: World, m: Model, msg: Msg, n: nat)
    requires ModelOK(c, w, m, n) && msg.AnswerUIRequest?
    ensures Applied(c, w, m, msg, n)
  {
    var m' := Handle(m, msg, n + 1).value.0;
    var k := Tasks.FindRequest(m.tasks, msg.run);
    var i := Tasks.Find(m.tasks, msg.task);
    SameFacts(m, m);
    if k < |m.tasks.requests| {
      var mid := m.(tasks := m.tasks.(requests := m'.tasks.requests));
      SameFacts(m, mid);
      if i < |m.tasks.tasks| {
        TaskReplaced(mid, i, m'.tasks.tasks[i]);
        assert m' == mid.(tasks := mid.tasks.(tasks := mid.tasks.tasks[i := m'.tasks.tasks[i]]));
      }
    }
    JobsGrow(c, m, m', m.tasks.pending);
    EntriesGrow(w, m, m');
  }

  lemma SettingMessage(c: Config, w: World, m: Model, msg: Msg, n: nat)
    requires ModelOK(c, w, m, n) && MsgOK(c, w, m, msg)
    requires msg.SetReplyFrom? || msg.SetWorkerHarness? || msg.Remember? || msg.Forget? || msg.Unowned?
    ensures Applied(c, w, m, msg, n)
  {
    var m' := if msg.Unowned? then m else Handle(m, msg, n + 1).value.0;
    SameFacts(m, m');
    JobsGrow(c, m, m', m.tasks.pending);
    EntriesGrow(w, m, m');
  }

  lemma SpawnMessage(c: Config, w: World, m: Model, msg: Msg, n: nat)
    requires ModelOK(c, w, m, n) && msg.SpawnAgentRun?
    ensures Applied(c, w, m, msg, n)
    ensures RunOf(Handle(m, msg, n + 1).value.0, msg.task, n + 1)
  {
    var m' := Handle(m, msg, n + 1).value.0;
    var a, b := m.agents.runs, m'.agents.runs;
    forall t, r | RunOf(m, t, r) ensures RunOf(m', t, r) {
      var i :| 0 <= i < |a| && a[i].id == r && a[i].task == t;
      assert b[i] == a[i];
    }
    assert forall t :: HasTask(m, t) == HasTask(m', t);
    assert forall t, mid :: HasRef(m, t, mid) == HasRef(m', t, mid);
    assert b[|a|].id == n + 1 && b[|a|].task == msg.task;
    JobsGrow(c, m, m', m.tasks.pending);
    EntriesGrow(w, m, m');
  }

  /** A run may change its status, never its identity. */
  lemma RunReplaced(m: Model, i: nat, x: Agents.AgentRun)
    requires i < |m.agents.runs| && x.id == m.agents.runs[i].id && x.task == m.agents.runs[i].task
    ensures ModelGrows(m, m.(agents := m.agents.(runs := m.agents.runs[i := x])))
  {
    var m' := m.(agents := m.agents.(runs := m.agents.runs[i := x]));
    forall t, r | RunOf(m, t, r) ensures RunOf(m', t, r) {
      var k :| 0 <= k < |m.agents.runs| && m.agents.runs[k].id == r && m.agents.runs[k].task == t;
      assert m'.agents.runs[k].id == r && m'.agents.runs[k].task == t;
    }
    assert forall t :: HasTask(m, t) == HasTask(m', t);
    assert forall t, mid :: HasRef(m, t, mid) == HasRef(m', t, mid);
  }

  lemma OneRun(c: Config, w: World, m: Model, i: nat, x: Agents.AgentRun, n: nat)
    requires ModelOK(c, w, m, n) && i < |m.agents.runs|
    requires x.id == m.agents.runs[i].id && x.task == m.agents.runs[i].task
    ensures var m' := m.(agents := m.agents.(runs := m.agents.runs[i := x]));
      ModelGrows(m, m') && ModelOK(c, w, m', n + 1)
  {
    RunReplaced(m, i, x);
    AgentsApplied(c, w, m, m.agents.(runs := m.agents.runs[i := x]), n);
  }

  lemma StopMessage(c: Config, w: World, m: Model, msg: Msg, n: nat)
    requires ModelOK(c, w, m, n) && MsgOK(c, w, m, msg) && (msg.StopAgentRun? || msg.LaunchAgentRun?)
    ensures Applied(c, w, m, msg, n)
  {
    var i := Agents.FindRun(m.agents, msg.run);
    if msg.LaunchAgentRun? {
      LaunchMessage(c, w, m, msg, n);
    } else if i < |m.agents.runs| {
      OneRun(c, w, m, i, m.agents.runs[i].(status := Agents.Stopping), n);
    } else {
      SameFacts(m, m);
    }
  }

  lemma LaunchMessage(c: Config, w: World, m: Model, msg: Msg, n: nat)
    requires ModelOK(c, w, m, n) && MsgOK(c, w, m, msg) && msg.LaunchAgentRun?
    ensures Applied(c, w, m, msg, n)
  {
    SameFacts(m, m);
    assert ApplyOne(m, msg, n + 1) == (m, Agents.HandleLaunchAgentRun(m.agents, msg.task, msg.run));
  }

  lemma FinishMessage(c: Config, w: World, m: Model, msg: Msg, n: nat)
    requires ModelOK(c, w, m, n) && MsgOK(c, w, m, msg) && msg.FinishAgentRun?
    ensures Applied(c, w, m, msg, n)
  {
    var (ag, outs) := Agents.HandleFinishAgentRun(m.agents, msg.task, msg.run, msg.result);
    var i := Agents.FindRun(m.agents, msg.run);
    SameFacts(m, m);
    if i < |m.agents.runs| {
      OneRun(c, w, m, i, ag.runs[i], n);
      assert ag == m.agents.(runs := m.agents.runs[i := ag.runs[i]]);
    }
    assert MsgOK(c, w, m.(agents := ag), outs[0].msg);
    assert ApplyOne(m, msg, n + 1) == (m.(agents := ag), outs);
  }

  lemma FindsTask(m: Model, t: int)
    requires HasTask(m, t)
    ensures Tasks.Find(m.tasks, t) < |m.tasks.tasks| && m.tasks.tasks[Tasks.Find(m.tasks, t)].id == t
  {
  }

  lemma RunFinishedMessage(c: Config, w: World, m: Model, msg: Msg, n: nat)
    requires ModelOK(c, w, m, n) && MsgOK(c, w, m, msg) && msg.AgentRunFinished?
    ensures Applied(c, w, m, msg, n)
  {
    var ts := Tasks.HandleAgentRunFinished(m.tasks, msg.task, msg.run, msg.result);
    var i := Tasks.Find(m.tasks, msg.task);
    SameFacts(m, m);
    if i < |m.tasks.tasks| {
      FromDomain(c, m, m.tasks.tasks[i].route);
      OneTask(c, w, m, i, ts.tasks[i], n);
      var mid := m.(tasks := m.tasks.(tasks := m.tasks.tasks[i := ts.tasks[i]]));
      SameFacts(mid, m.(tasks := ts));
      GrowsTransitive(m, mid, m.(tasks := ts));
      JobsGrow(c, m, m.(tasks := ts), m.tasks.pending);
      assert HasTask(m, msg.task);
      JobsOfOK(c, m.(tasks := ts), m.tasks.pending, msg.task, msg.run, msg.result);
      TasksApplied(c, w, m, ts, n);
    }
    assert ApplyOne(m, msg, n + 1) == (m.(tasks := ts), []);
  }

  lemma RegisterMessage(c: Config, w: World, m: Model, msg: Msg, n: nat)
    requires ModelOK(c, w, m, n) && MsgOK(c, w, m, msg) && msg.RegisterUIRequest?
    ensures Applied(c, w, m, msg, n)
  {
    FindsTask(m, msg.task);
    var i := Tasks.Find(m.tasks, msg.task);
    var ts := Tasks.HandleRegisterUIRequest(m.tasks, msg.task, msg.run, msg.link);
    FromDomain(c, m, m.tasks.tasks[i].route);
    OneTask(c, w, m, i, ts.tasks[i], n);
    var mid := m.(tasks := m.tasks.(tasks := m.tasks.tasks[i := ts.tasks[i]]));
    SameFacts(mid, m.(tasks := ts));
    GrowsTransitive(m, mid, m.(tasks := ts));
    RegisterJobs(c, mid, m.(tasks := ts), msg.task, msg.run);
    TasksApplied(c, w, m, ts, n);
    assert ApplyOne(m, msg, n + 1) == (m.(tasks := ts), []);
  }

  lemma RegisterJobs(c: Config, m: Model, m': Model, t: int, r: int)
    requires JobsOK(c, m, m.tasks.pending) && ModelGrows(m, m')
    requires RunOf(m', t, r) && HasRef(m, t, ReplyID(c, t, r))
    ensures JobsOK(c, m',
      Tasks.WithHarvestPending(Tasks.Discharged(m.tasks.pending, r, Request), Tasks.HarvestJob(t, r, Reply)))
  {
    JobsGrow(c, m, m', m.tasks.pending);
    DischargedOK(c, m', m.tasks.pending, r, Request);
    assert HasTask(m', t);
    WithJobOK(c, m', Tasks.Discharged(m.tasks.pending, r, Request), Tasks.HarvestJob(t, r, Reply));
  }

  lemma DischargeMessage(c: Config, w: World, m: Model, msg: Msg, n: nat)
    requires ModelOK(c, w, m, n) && msg.MarkHarvested?
    ensures Applied(c, w, m, msg, n)
  {
    var ts := Tasks.HandleMarkHarvested(m.tasks, msg.run, msg.kind);
    SameFacts(m, m.(tasks := ts));
    DischargedOK(c, m, m.tasks.pending, msg.run, msg.kind);
    JobsGrow(c, m, m.(tasks := ts), ts.pending);
    TasksApplied(c, w, m, ts, n);
    assert ApplyOne(m, msg, n + 1) == (m.(tasks := ts), []);
  }

  /** The rebuilt reply payload is for this run and as the configured identity. */
  lemma ReplyCmdsGood(c: Config, w: World, m: Model, t: int, r: int)
    requires SettingsOK(c, m) && RunOf(m, t, r) && HasRef(m, t, ReplyID(c, t, r))
    ensures OutsGood(Tasks.ReplyCmds(m.tasks, t, r), Goods(c, w, m))
  {
    var i := Tasks.Find(m.tasks, t);
    if i < |m.tasks.tasks| {
      var task := m.tasks.tasks[i];
      var from := Tasks.FromOf(m.tasks.replyFrom, task.route);
      FromDomain(c, m, task.route);
      var cmd := AssembleReply(t, r, from, task.lastMessageID, task.references, Tasks.RequestLink(m.tasks, r));
      assert LocOK(c, w, m, Begin(cmd));
      assert OutGood(Do(cmd), Goods(c, w, m));
    }
  }

  lemma HarvestMessage(c: Config, w: World, m: Model, msg: Msg, n: nat)
    requires ModelOK(c, w, m, n) && MsgOK(c, w, m, msg) && msg.RunHarvest?
    ensures Applied(c, w, m, msg, n)
  {
    var outs := Tasks.HandleRunHarvest(m.tasks, msg.task, msg.run, msg.kind).1;
    SameFacts(m, m);
    if msg.kind == Reply {
      ReplyCmdsGood(c, w, m, msg.task, msg.run);
    } else {
      assert |outs| == 1 && OutGood(outs[0], Goods(c, w, m));
    }
    assert ApplyOne(m, msg, n + 1) == (m, outs);
  }

  lemma QueuedMessage(c: Config, w: World, m: Model, msg: Msg, n: nat)
    requires WorldOK(w) && ModelOK(c, w, m, n) && MsgOK(c, w, m, msg) && msg.MarkReplyQueued?
    ensures Applied(c, w, m, msg, n)
  {
    var m' := Handle(m, msg, n + 1).value.0;
    SameFacts(m, m');
    JobsGrow(c, m, m', m.tasks.pending);
    EntriesGrow(w, m, m'.(outbox := m.outbox));
    RowsAgree(w, msg.outboxID, msg.messageID, msg.outboxID, msg.messageID);
    forall i | 0 <= i < |m'.outbox| ensures EntryOK(w, m', m'.outbox[i]) {
      if i < |m.outbox| { assert EntryOK(w, m, m.outbox[i]); }
    }
  }

  lemma SentEntry(w: World, m: Model, e: Email.OutboxEntry, x: int)
    requires WorldOK(w) && EntryOK(w, m, e) && exists mid :: Row(w, x, mid) && WasSubmitted(w, mid)
    ensures EntryOK(w, m, Email.MarkSent(e, x))
  {
    var mid :| Row(w, x, mid) && WasSubmitted(w, mid);
    RowsAgree(w, x, mid, e.outboxID, e.messageID);
  }

  lemma SentStaysDistinct(w: World, m: Model, x: int)
    requires EntriesOK(w, m)
    ensures var box := Email.HandleMarkEmailSent(m.outbox, x);
      forall i, j :: 0 <= i < j < |box| ==> box[i].outboxID != box[j].outboxID && box[i].messageID != box[j].messageID
  {
    var box := Email.HandleMarkEmailSent(m.outbox, x);
    forall i, j | 0 <= i < j < |box| ensures box[i].outboxID != box[j].outboxID &&
      box[i].messageID != box[j].messageID {
      assert m.outbox[i].outboxID != m.outbox[j].outboxID && m.outbox[i].messageID != m.outbox[j].messageID;
    }
  }

  lemma SentEntries(w: World, m: Model, x: int)
    requires WorldOK(w) && EntriesOK(w, m) && exists mid :: Row(w, x, mid) && WasSubmitted(w, mid)
    ensures EntriesOK(w, m.(outbox := Email.HandleMarkEmailSent(m.outbox, x)))
  {
    var m' := m.(outbox := Email.HandleMarkEmailSent(m.outbox, x));
    SameFacts(m, m');
    SentStaysDistinct(w, m, x);
    forall i | 0 <= i < |m'.outbox| ensures EntryOK(w, m', m'.outbox[i]) {
      SentEntry(w, m, m.outbox[i], x);
      assert EntryOK(w, m, m'.outbox[i]);
    }
  }

  /** What is left to show when only the outbox changed. */
  lemma OutboxApplied(c: Config, w: World, m: Model, outbox: seq<Email.OutboxEntry>, n: nat)
    requires ModelOK(c, w, m, n) && EntriesOK(w, m.(outbox := outbox))
    ensures ModelGrows(m, m.(outbox := outbox)) && ModelOK(c, w, m.(outbox := outbox), n + 1)
  {
    SameFacts(m, m.(outbox := outbox));
    JobsGrow(c, m, m.(outbox := outbox), m.tasks.pending);
  }

  lemma SentMessage(c: Config, w: World, m: Model, msg: Msg, n: nat)
    requires WorldOK(w) && ModelOK(c, w, m, n) && MsgOK(c, w, m, msg) && msg.MarkEmailSent?
    ensures Applied(c, w, m, msg, n)
  {
    var outbox := Email.HandleMarkEmailSent(m.outbox, msg.outboxID);
    SentEntries(w, m, msg.outboxID);
    OutboxApplied(c, w, m, outbox, n);
    assert ApplyOne(m, msg, n + 1) == (m.(outbox := outbox), []);
  }

  lemma OutboxMessage(c: Config, w: World, m: Model, msg: Msg, n: nat)
    requires WorldOK(w) && ModelOK(c, w, m, n) && MsgOK(c, w, m, msg)
    requires msg.MarkReplyQueued? || msg.SendOutbox? || msg.MarkEmailSent?
    ensures Applied(c, w, m, msg, n)
  {
    if msg.MarkReplyQueued? {
      QueuedMessage(c, w, m, msg, n);
    } else if msg.MarkEmailSent? {
      SentMessage(c, w, m, msg, n);
    } else {
      SameFacts(m, m);
    }
  }

  /** What a handler may return in answer to a message: which send, which tracked command, for which ids. */
  predicate Answers(msg: Msg, o: Out<Msg, Cmd>)
  {
    match o
    case Send(SpawnAgentRun(_, _)) => msg.CreateTask? || msg.AppendToTask? || msg.AnswerUIRequest?
    case Send(AgentRunFinished(t, r, _)) => msg.FinishAgentRun? && msg.task == t && msg.run == r
    case Send(_) => false
    case Do(SendEmail(x, mid)) => msg == SendOutbox(x, mid)
    case Do(MintUIRequest(t, r)) => msg == RunHarvest(t, r, Request)
    case Do(_) => true
  }

  lemma TasksAnswer(m: Model, msg: Msg, offset: int)
    requires msg.CreateTask? || msg.AppendToTask? || msg.FinishTask? || msg.AnswerUIRequest? || msg.RunHarvest?
    ensures var outs := ApplyOne(m, msg, offset).1;
      (forall i :: 0 <= i < |outs| ==> Answers(msg, outs[i])) && (msg.RunHarvest? ==> |outs| <= 1)
  {
  }

  /** Handlers answer only as `Answers` says, and the bridging messages with at most one command. */
  lemma HandlersAnswer(m: Model, msg: Msg, offset: int)
    ensures var outs := ApplyOne(m, msg, offset).1;
      && (forall i :: 0 <= i < |outs| ==> Answers(msg, outs[i]))
      && (msg.RunHarvest? || msg.SendOutbox? || msg.FinishAgentRun? ==> |outs| <= 1)
  {
    if msg.CreateTask? || msg.AppendToTask? || msg.FinishTask? || msg.AnswerUIRequest? || msg.RunHarvest? {
      TasksAnswer(m, msg, offset);
    }
  }

  lemma ApplyKeeps(c: Config, w: World, m: Model, msg: Msg, n: nat)
    requires WorldOK(w) && ModelOK(c, w, m, n) && MsgOK(c, w, m, msg)
    ensures Applied(c, w, m, msg, n)
  {
    match msg
    case CreateTask(_, _) => CreateMessage(c, w, m, msg, n);
    case AppendToTask(_, _) => AppendMessage(c, w, m, msg, n);
    case FinishTask(_) => FinishTaskMessage(c, w, m, msg, n);
    case AnswerUIRequest(_, _) => AnswerMessage(c, w, m, msg, n);
    case SpawnAgentRun(_, _) => SpawnMessage(c, w, m, msg, n);
    case StopAgentRun(_) => StopMessage(c, w, m, msg, n);
    case LaunchAgentRun(_, _) => StopMessage(c, w, m, msg, n);
    case FinishAgentRun(_, _, _) => FinishMessage(c, w, m, msg, n);
    case AgentRunFinished(_, _, _) => RunFinishedMessage(c, w, m, msg, n);
    case RunHarvest(_, _, _) => HarvestMessage(c, w, m, msg, n);
    case MarkHarvested(_, _) => DischargeMessage(c, w, m, msg, n);
    case RegisterUIRequest(_, _, _) => RegisterMessage(c, w, m, msg, n);
    case MarkReplyQueued(_, _, _) => OutboxMessage(c, w, m, msg, n);
    case SendOutbox(_, _) => OutboxMessage(c, w, m, msg, n);
    case MarkEmailSent(_) => OutboxMessage(c, w, m, msg, n);
    case _ => SettingMessage(c, w, m, msg, n);
  }
}
