/**
 What the log says the model holds. Over every log, reachable or not: the settings are the last ones set,
 the runs are the spawns in order with the harness they were due, and a task's record is its mail, its
 replies and its ended runs in the order the log has them.
 */
module KasiHistories {
  import opened Runtime
  import opened Messages
  import opened Kasi
  import opened KasiFacts
  import opened KasiCauses
  import KasiSpawns
  import R = ReplyId
  import Sch = Scheduler
  import Email
  import Tasks
  import Agents

  // ---------------------------------------------------------------- settings

  /** The reply identity last set, or the configured one. */
  function LastReplyFrom(c: Config, log: seq<Envelope<Msg>>): string
  {
    if log == [] then c.replyFrom
    else if log[|log| - 1].msg.SetReplyFrom? then log[|log| - 1].msg.address
    else LastReplyFrom(c, log[..|log| - 1])
  }

  /** The harness last chosen, or none. */
  function LastHarness(log: seq<Envelope<Msg>>): string
  {
    if log == [] then ""
    else if log[|log| - 1].msg.SetWorkerHarness? then log[|log| - 1].msg.name
    else LastHarness(log[..|log| - 1])
  }

  lemma SettingsMessage(m: Model, msg: Msg, offset: int)
    ensures var m' := ApplyOne(m, msg, offset).0;
      && m'.tasks.replyFrom == (if msg.SetReplyFrom? then msg.address else m.tasks.replyFrom)
      && m'.agents.workerHarness == (if msg.SetWorkerHarness? then msg.name else m.agents.workerHarness)
      && m'.tasks.loopGuard == m.tasks.loopGuard && m'.agents.maxConcurrent == m.agents.maxConcurrent
  {
  }

  /** The settings in force are the ones last set; the guard and the cap never change. */
  lemma {:induction false} SettingsAreTheLast(c: Config, log: seq<Envelope<Msg>>)
    ensures var m := Fold(System(c), log);
      && m.tasks.replyFrom == LastReplyFrom(c, log) && m.agents.workerHarness == LastHarness(log)
      && m.tasks.loopGuard == c.loopGuard && m.agents.maxConcurrent == c.maxConcurrent
  {
    if log != [] {
      var front, e := log[..|log| - 1], log[|log| - 1];
      SettingsAreTheLast(c, front);
      FoldLast(c, log, front, e);
      SettingsMessage(Fold(System(c), front), e.msg, |log|);
    }
  }

  // ---------------------------------------------------------------- runs

  /** What identifies a run: its id, its task, and whether it resumes. */
  datatype Spawned = Spawned(id: int, task: int, resume: bool)

  function SpawnsOf(log: seq<Envelope<Msg>>): seq<Spawned>
  {
    if log == [] then []
    else
      var msg := log[|log| - 1].msg;
      SpawnsOf(log[..|log| - 1]) + if msg.SpawnAgentRun? then [Spawned(|log|, msg.task, msg.resume)] else []
  }

  /** The runs of the model are these spawns. */
  ghost predicate RunsAre(runs: seq<Agents.AgentRun>, spawns: seq<Spawned>)
  {
    && |runs| == |spawns|
    && forall i :: 0 <= i < |runs| ==> Spawned(runs[i].id, runs[i].task, runs[i].resume) == spawns[i]
  }

  lemma RunsMessage(m: Model, msg: Msg, offset: int, spawns: seq<Spawned>)
    requires RunsAre(m.agents.runs, spawns)
    ensures RunsAre(ApplyOne(m, msg, offset).0.agents.runs,
      spawns + if msg.SpawnAgentRun? then [Spawned(offset, msg.task, msg.resume)] else [])
  {
  }

  /** The runs are the logged spawns, in order, each under the offset of its message. */
  lemma {:induction false} RunsAreSpawns(c: Config, log: seq<Envelope<Msg>>)
    ensures RunsAre(Fold(System(c), log).agents.runs, SpawnsOf(log))
  {
    if log != [] {
      var front, e := log[..|log| - 1], log[|log| - 1];
      RunsAreSpawns(c, front);
      FoldLast(c, log, front, e);
      RunsMessage(Fold(System(c), front), e.msg, |log|, SpawnsOf(front));
    }
  }

  lemma {:induction false} NoneToInherit(runs: seq<Agents.AgentRun>, setting: string, task: int, resume: bool)
    requires resume ==> forall i :: 0 <= i < |runs| ==> runs[i].task != task
    ensures Agents.PinHarness(runs, setting, task, resume) == setting
  {
    if resume && runs != [] {
      NoneToInherit(runs[..|runs| - 1], setting, task, resume);
    }
  }

  /**
   A spawn takes the harness it is due: the setting in force for a new session or where there is nothing to
   inherit, and otherwise the harness of the task's newest run.
   */
  lemma SpawnTakesItsHarness(c: Config, log: seq<Envelope<Msg>>, e: Envelope<Msg>, i: nat)
    requires e.msg.SpawnAgentRun?
    ensures var runs, runs' := Fold(System(c), log).agents.runs, Fold(System(c), log + [e]).agents.runs;
      && |runs'| == |runs| + 1
      && (!e.msg.resume || NoRunOf(runs, e.msg.task) ==> runs'[|runs|].harness == LastHarness(log))
      && (e.msg.resume && NewestOf(runs, e.msg.task, i) ==> runs'[|runs|].harness == runs[i].harness)
  {
    var m := Fold(System(c), log);
    SettingsAreTheLast(c, log);
    FoldOneMore(c, log, e);
    if !e.msg.resume || NoRunOf(m.agents.runs, e.msg.task) {
      NoneToInherit(m.agents.runs, m.agents.workerHarness, e.msg.task, e.msg.resume);
    }
    if e.msg.resume && NewestOf(m.agents.runs, e.msg.task, i) {
      Sch.PinIsLatest(m.agents.runs, m.agents.workerHarness, e.msg.task, i);
    }
  }

  predicate NoRunOf(runs: seq<Agents.AgentRun>, task: int)
  {
    forall j :: 0 <= j < |runs| ==> runs[j].task != task
  }

  /** Run `i` is the last of this task. */
  predicate NewestOf(runs: seq<Agents.AgentRun>, task: int, i: nat)
  {
    i < |runs| && runs[i].task == task && forall j :: i < j < |runs| ==> runs[j].task != task
  }

  // ---------------------------------------------------------------- tasks

  /** The Message-ID of a reply of run `r` on this task, with the identity in force. */
  function PromisedID(m: Model, task: Tasks.Task, r: int): string
  {
    R.ReplyMessageID(task.id, r, Tasks.Domain(Sender(m, task.route)))
  }

  /** The Message-IDs a message adds to the thread of a task: accepted mail, and replies promised. */
  function Threads(m: Model, msg: Msg, task: Tasks.Task): seq<string>
  {
    match msg
    case AppendToTask(t, mid) => if t == task.id && task.status != Tasks.Paused then [mid] else []
    case AgentRunFinished(t, r, res) =>
      if t == task.id && Tasks.OwedBy(res, Reply) then [PromisedID(m, task, r)] else []
    case RegisterUIRequest(t, r, _) => if t == task.id then [PromisedID(m, task, r)] else []
    case _ => []
  }

  /** What a message makes of a task's status. */
  function StatusAfter(m: Model, msg: Msg, task: Tasks.Task): Tasks.Status
  {
    match msg
    case FinishTask(t) => if t == task.id then Tasks.Done else task.status
    case AgentRunFinished(t, _, _) => if t == task.id then Tasks.AwaitingUser else task.status
    case RegisterUIRequest(t, _, _) => if t == task.id then Tasks.AwaitingUser else task.status
    case AnswerUIRequest(t, r) =>
      if t == task.id && exists q :: 0 <= q < |m.tasks.requests| && m.tasks.requests[q].run == r then
        Tasks.AwaitingAgent
      else task.status
    case AppendToTask(t, _) =>
      if t != task.id || task.status == Tasks.Paused then task.status
      else if m.tasks.loopGuard > 0 && task.turns >= m.tasks.loopGuard then Tasks.Paused
      else Tasks.AwaitingAgent
    case _ => task.status
  }

  /** One message, one task: every field of its record. */
  ghost predicate Follows(m: Model, msg: Msg, task: Tasks.Task, task': Tasks.Task)
  {
    && task'.id == task.id && task'.route == task.route
    && task'.references == task.references + Threads(m, msg, task)
    && task'.status == StatusAfter(m, msg, task)
    && task'.lastMessageID ==
         (if msg.AppendToTask? && msg.task == task.id && task.status != Tasks.Paused then msg.messageID
          else task.lastMessageID)
    && task'.runs == task.runs + if msg.AgentRunFinished? && msg.task == task.id then [msg.run] else []
  }

  lemma RepliesAreOwed(res: RunResult)
    ensures Tasks.RepliesDirectly(res) <==> Tasks.OwedBy(res, Reply)
  {
  }

  lemma MailFollows(m: Model, msg: Msg, offset: int, i: nat)
    requires i < |m.tasks.tasks| && TaskAt(m, m.tasks.tasks[i].id, i)
    requires msg.AppendToTask? || msg.FinishTask? || msg.AnswerUIRequest?
    ensures var m' := ApplyOne(m, msg, offset).0;
      TaskAt(m', m.tasks.tasks[i].id, i) && Follows(m, msg, m.tasks.tasks[i], m'.tasks.tasks[i])
  {
    TaskFound(m, msg.task);
    if msg.AnswerUIRequest? { RequestFound(m, msg.run); }
  }

  lemma RunFollows(m: Model, msg: Msg, offset: int, i: nat)
    requires i < |m.tasks.tasks| && TaskAt(m, m.tasks.tasks[i].id, i)
    requires msg.AgentRunFinished? || msg.RegisterUIRequest?
    ensures var m' := ApplyOne(m, msg, offset).0;
      TaskAt(m', m.tasks.tasks[i].id, i) && Follows(m, msg, m.tasks.tasks[i], m'.tasks.tasks[i])
  {
    TaskFound(m, msg.task);
    if msg.AgentRunFinished? { RepliesAreOwed(msg.result); }
    var k := Tasks.Find(m.tasks, msg.task);
    if k < |m.tasks.tasks| {
      IdentityIs(m, m.tasks.tasks[k]);
    }
  }

  lemma IdentityIs(m: Model, task: Tasks.Task)
    ensures Tasks.FromOf(m.tasks.replyFrom, task.route) == Sender(m, task.route)
  {
    assert task.route + "@" + Tasks.ROUTE_DOMAIN == task.route + "@kasi.test";
  }

  /** What one message does to the record of a task that exists. */
  lemma TaskFollows(m: Model, msg: Msg, offset: int, i: nat)
    requires i < |m.tasks.tasks| && TaskAt(m, m.tasks.tasks[i].id, i)
    ensures var m' := ApplyOne(m, msg, offset).0;
      TaskAt(m', m.tasks.tasks[i].id, i) && Follows(m, msg, m.tasks.tasks[i], m'.tasks.tasks[i])
  {
    if msg.AppendToTask? || msg.FinishTask? || msg.AnswerUIRequest? {
      MailFollows(m, msg, offset, i);
    } else if msg.AgentRunFinished? || msg.RegisterUIRequest? {
      RunFollows(m, msg, offset, i);
    } else {
      assert m.tasks.tasks <= ApplyOne(m, msg, offset).0.tasks.tasks;
    }
  }

  lemma TaskCreated(m: Model, msg: Msg, n: nat)
    requires msg.CreateTask? && TaskIdsOK(m.tasks.tasks, n)
    ensures var m', i := ApplyOne(m, msg, n + 1).0, |m.tasks.tasks|;
      && TaskAt(m', n + 1, i) && m'.tasks.tasks[i].route == msg.route
      && m'.tasks.tasks[i].references == [msg.messageID] && m'.tasks.tasks[i].lastMessageID == msg.messageID
      && m'.tasks.tasks[i].runs == [] && m'.tasks.tasks[i].status == Tasks.AwaitingAgent
  {
  }

  /** What a message adds to the thread of task `t`. */
  function ThreadsTo(m: Model, msg: Msg, t: int): seq<string>
  {
    var i := Tasks.Find(m.tasks, t);
    if i < |m.tasks.tasks| then Threads(m, msg, m.tasks.tasks[i]) else []
  }

  /** The thread of task `t` by the log: the mail it was created with, then what each message added. */
  ghost function ThreadOf(c: Config, log: seq<Envelope<Msg>>, t: nat): seq<string>
  {
    if |log| < t || log == [] then []
    else if |log| == t then (if log[t - 1].msg.CreateTask? then [log[t - 1].msg.messageID] else [])
    else
      var front := log[..|log| - 1];
      ThreadOf(c, front, t) + ThreadsTo(Fold(System(c), front), log[|log| - 1].msg, t)
  }

  /** The runs of task `t` that ended, by the log since its creation. */
  function EndedRuns(log: seq<Envelope<Msg>>, t: nat): seq<int>
  {
    if |log| <= t then []
    else
      var msg := log[|log| - 1].msg;
      EndedRuns(log[..|log| - 1], t) + if msg.AgentRunFinished? && msg.task == t then [msg.run] else []
  }

  /** The message at the task's id created it, for its route. */
  ghost predicate BornAt(log: seq<Envelope<Msg>>, m: Model, i: nat)
    requires i < |m.tasks.tasks|
  {
    var task := m.tasks.tasks[i];
    && 1 <= task.id <= |log| && TaskAt(m, task.id, i)
    && log[task.id - 1].msg.CreateTask? && task.route == log[task.id - 1].msg.route
  }

  /** Its references and its runs are what the log says of it. */
  ghost predicate Accounted(c: Config, log: seq<Envelope<Msg>>, task: Tasks.Task)
  {
    task.id >= 0 && task.references == ThreadOf(c, log, task.id) && task.runs == EndedRuns(log, task.id)
  }

  ghost predicate TaskTells(c: Config, log: seq<Envelope<Msg>>, m: Model, i: nat)
    requires i < |m.tasks.tasks|
  {
    BornAt(log, m, i) && Accounted(c, log, m.tasks.tasks[i])
  }

  ghost predicate TasksTell(c: Config, log: seq<Envelope<Msg>>, m: Model)
  {
    forall i :: 0 <= i < |m.tasks.tasks| ==> TaskTells(c, log, m, i)
  }

  lemma {:induction false} OldTaskTells(c: Config, log: seq<Envelope<Msg>>, e: Envelope<Msg>, m: Model, i: nat)
    requires m == Fold(System(c), log) && i < |m.tasks.tasks| && TaskTells(c, log, m, i)
    ensures var m' := ApplyOne(m, e.msg, |log| + 1).0; i < |m'.tasks.tasks| && TaskTells(c, log + [e], m', i)
  {
    var m' := ApplyOne(m, e.msg, |log| + 1).0;
    TaskFollows(m, e.msg, |log| + 1, i);
    StillBorn(log, e, m, m', i);
    StillAccounted(c, log, e, m, m.tasks.tasks[i], m'.tasks.tasks[i], i);
  }

  lemma StillBorn(log: seq<Envelope<Msg>>, e: Envelope<Msg>, m: Model, m': Model, i: nat)
    requires i < |m.tasks.tasks| && i < |m'.tasks.tasks| && BornAt(log, m, i)
    requires TaskAt(m', m.tasks.tasks[i].id, i) && Follows(m, e.msg, m.tasks.tasks[i], m'.tasks.tasks[i])
    ensures BornAt(log + [e], m', i)
  {
  }

  /** The record and the log's account of it take the same step. */
  lemma {:induction false} StillAccounted(c: Config, log: seq<Envelope<Msg>>, e: Envelope<Msg>, m: Model,
      task: Tasks.Task, task': Tasks.Task, i: nat)
    requires m == Fold(System(c), log) && i < |m.tasks.tasks| && m.tasks.tasks[i] == task && TaskAt(m, task.id, i)
    requires 1 <= task.id <= |log| && Accounted(c, log, task) && Follows(m, e.msg, task, task')
    ensures Accounted(c, log + [e], task')
  {
    ThreadsToAt(m, e.msg, i);
    OneMoreMessage(c, log, e, task.id);
  }

  lemma ThreadsToAt(m: Model, msg: Msg, i: nat)
    requires i < |m.tasks.tasks| && TaskAt(m, m.tasks.tasks[i].id, i)
    ensures ThreadsTo(m, msg, m.tasks.tasks[i].id) == Threads(m, msg, m.tasks.tasks[i])
  {
    TaskFound(m, m.tasks.tasks[i].id);
  }

  /** What one message adds to the log's account of a task. */
  lemma OneMoreMessage(c: Config, log: seq<Envelope<Msg>>, e: Envelope<Msg>, t: nat)
    requires 1 <= t <= |log|
    ensures (log + [e])[t - 1] == log[t - 1]
    ensures ThreadOf(c, log + [e], t) == ThreadOf(c, log, t) + ThreadsTo(Fold(System(c), log), e.msg, t)
    ensures EndedRuns(log + [e], t) ==
      EndedRuns(log, t) + if e.msg.AgentRunFinished? && e.msg.task == t then [e.msg.run] else []
  {
    assert (log + [e])[..|log|] == log;
  }

  lemma {:induction false} NewTaskTells(c: Config, log: seq<Envelope<Msg>>, e: Envelope<Msg>, m: Model, i: nat)
    requires |m.tasks.tasks| <= i < |ApplyOne(m, e.msg, |log| + 1).0.tasks.tasks| && TaskIdsOK(m.tasks.tasks, |log|)
    ensures TaskTells(c, log + [e], ApplyOne(m, e.msg, |log| + 1).0, i)
  {
    OnlyCreated(m, e.msg, |log| + 1);
    TaskCreated(m, e.msg, |log|);
  }

  lemma OnlyCreated(m: Model, msg: Msg, offset: int)
    ensures |ApplyOne(m, msg, offset).0.tasks.tasks| == |m.tasks.tasks| + if msg.CreateTask? then 1 else 0
  {
  }

  lemma {:induction false} TellOneMore(c: Config, log: seq<Envelope<Msg>>, e: Envelope<Msg>, m: Model)
    requires m == Fold(System(c), log) && TasksTell(c, log, m) && TaskIdsOK(m.tasks.tasks, |log|)
    ensures TasksTell(c, log + [e], ApplyOne(m, e.msg, |log| + 1).0)
  {
    var m' := ApplyOne(m, e.msg, |log| + 1).0;
    forall i | 0 <= i < |m'.tasks.tasks| ensures TaskTells(c, log + [e], m', i) {
      if i < |m.tasks.tasks| {
        OldTaskTells(c, log, e, m, i);
      } else {
        NewTaskTells(c, log, e, m, i);
      }
    }
  }

  /**
   Over every log: a task was created by the message at its id, for that route; its references are the mail
   it accepted and the replies it promised, and its runs the ones that ended, each in the order of the log.
   */
  lemma {:induction false} TasksAreTheirLog(c: Config, log: seq<Envelope<Msg>>)
    ensures TasksTell(c, log, Fold(System(c), log))
  {
    if log != [] {
      var front, e := log[..|log| - 1], log[|log| - 1];
      TasksAreTheirLog(c, front);
      KasiSpawns.SpawnConservation(c, front, 0);
      TellOneMore(c, front, e, Fold(System(c), front));
      FoldLast(c, log, front, e);
    }
  }

  // ---------------------------------------------------------------- mail to a paused task

  /** Mail to a task is added to its thread exactly if the task is not paused; otherwise nothing changes at all. */
  lemma MailIsThreadedIff(m: Model, t: int, mid: string, offset: int, i: nat)
    requires TaskAt(m, t, i)
    ensures var m' := ApplyOne(m, AppendToTask(t, mid), offset).0;
      && i < |m'.tasks.tasks|
      && (m'.tasks.tasks[i].references == m.tasks.tasks[i].references + [mid] <==>
           m.tasks.tasks[i].status != Tasks.Paused)
      && (m.tasks.tasks[i].status == Tasks.Paused ==> m' == m)
  {
    TaskFollows(m, AppendToTask(t, mid), offset, i);
    TaskFound(m, t);
  }

  /** A log of seven messages whose last is mail to a paused task: the model is as if it had not come. */
  lemma MailToPausedIsDropped(c: Config)
    requires c.loopGuard == 1
    ensures var log := KasiSpawns.StoryLog()[..6];
      Fold(System(c), log + [Envelope(AppendToTask(1, "third"), 0)]) == Fold(System(c), log)
  {
    var log := KasiSpawns.StoryLog()[..6];
    KasiSpawns.StoryTells(c, 6);
    FoldOneMore(c, log, Envelope(AppendToTask(1, "third"), 0));
    MailIsThreadedIff(Fold(System(c), log), 1, "third", 7, 0);
  }

  // ---------------------------------------------------------------- requests

  /** One message, one request: answered exactly by an answer naming its run. */
  lemma RequestFollows(m: Model, msg: Msg, offset: int, r: int, i: nat)
    requires RequestAt(m, r, i)
    ensures var m' := ApplyOne(m, msg, offset).0;
      && RequestAt(m', r, i)
      && m'.tasks.requests[i] == m.tasks.requests[i].(answered :=
           m.tasks.requests[i].answered || (msg.AnswerUIRequest? && msg.run == r))
  {
    if msg.AnswerUIRequest? { RequestFound(m, msg.run); }
  }

  /** A registration on a known task records its run, its task and its link, unanswered. */
  lemma RequestRecorded(m: Model, msg: Msg, offset: int)
    requires msg.RegisterUIRequest? && exists i :: TaskAt(m, msg.task, i)
    ensures ApplyOne(m, msg, offset).0.tasks.requests ==
      m.tasks.requests + [Tasks.UIRequest(msg.run, msg.task, msg.link, false)]
  {
    TaskFound(m, msg.task);
  }

  /** Some message after message `k` answers run `r`. */
  ghost predicate AnsweredSince(log: seq<Envelope<Msg>>, k: nat, r: int)
  {
    exists j :: k <= j < |log| && log[j].msg.AnswerUIRequest? && log[j].msg.run == r
  }

  lemma AnsweredOneMore(log: seq<Envelope<Msg>>, e: Envelope<Msg>, k: nat, r: int)
    requires k <= |log|
    ensures AnsweredSince(log + [e], k, r) <==>
      AnsweredSince(log, k, r) || (e.msg.AnswerUIRequest? && e.msg.run == r)
  {
    var more := log + [e];
    assert more[|log|] == e;
    if AnsweredSince(log, k, r) {
      var j :| k <= j < |log| && log[j].msg.AnswerUIRequest? && log[j].msg.run == r;
      assert more[j] == log[j];
    }
  }

  /** The request of a run is answered exactly if an answer naming the run came after it was recorded. */
  lemma {:induction false} AnsweredByTheLog(c: Config, log: seq<Envelope<Msg>>, k: nat, r: int, i: nat)
    requires k <= |log| && RequestAt(Fold(System(c), log[..k]), r, i)
    requires !Fold(System(c), log[..k]).tasks.requests[i].answered
    ensures var m := Fold(System(c), log);
      && RequestAt(m, r, i) && m.tasks.requests[i].link == Fold(System(c), log[..k]).tasks.requests[i].link
      && (m.tasks.requests[i].answered <==> AnsweredSince(log, k, r))
    decreases |log|
  {
    if k == |log| {
      assert log[..k] == log;
    } else {
      var front, e := log[..|log| - 1], log[|log| - 1];
      assert front[..k] == log[..k] && log == front + [e];
      AnsweredByTheLog(c, front, k, r, i);
      FoldLast(c, log, front, e);
      RequestFollows(Fold(System(c), front), e.msg, |log|, r, i);
      AnsweredOneMore(front, e, k, r);
    }
  }

  // ---------------------------------------------------------------- the outbox

  /** A mail of this row was announced as sent after message `j`. */
  ghost predicate SentSince(log: seq<Envelope<Msg>>, j: int, x: int)
  {
    exists k :: j < k < |log| && 0 <= k && log[k].msg == MarkEmailSent(x)
  }

  /** The entry is what message `j` queued, sent exactly if that was announced since. */
  ghost predicate QueuedAt(log: seq<Envelope<Msg>>, e: Email.OutboxEntry, j: int)
  {
    && 0 <= j < |log| && log[j].msg == MarkReplyQueued(e.task, e.outboxID, e.messageID)
    && (e.sent <==> SentSince(log, j, e.outboxID))
  }

  ghost predicate Queued(log: seq<Envelope<Msg>>, e: Email.OutboxEntry)
  {
    exists j :: QueuedAt(log, e, j)
  }

  /** The same mail: one row, or one non-empty Message-ID. */
  predicate OneMail(e: Email.OutboxEntry, x: int, mid: string)
  {
    e.outboxID == x || (e.messageID == mid && mid != "")
  }

  /** No two entries are the same mail. */
  ghost predicate NoneTwice(outbox: seq<Email.OutboxEntry>)
  {
    forall i, k :: 0 <= i < k < |outbox| ==> !OneMail(outbox[i], outbox[k].outboxID, outbox[k].messageID)
  }

  /** No queued mail is without an entry. */
  ghost predicate NoneMissing(log: seq<Envelope<Msg>>, outbox: seq<Email.OutboxEntry>)
  {
    forall j :: 0 <= j < |log| && log[j].msg.MarkReplyQueued? ==> HasMail(outbox, log[j].msg)
  }

  /** Every entry was queued by some message. */
  ghost predicate AllQueued(log: seq<Envelope<Msg>>, outbox: seq<Email.OutboxEntry>)
  {
    forall i :: 0 <= i < |outbox| ==> Queued(log, outbox[i])
  }

  ghost predicate HasMail(outbox: seq<Email.OutboxEntry>, msg: Msg)
    requires msg.MarkReplyQueued?
  {
    exists i :: 0 <= i < |outbox| && OneMail(outbox[i], msg.outboxID, msg.messageID)
  }

  /** An entry after one more message, which may announce it as sent. */
  function EntryAfter(e: Email.OutboxEntry, msg: Msg): Email.OutboxEntry
  {
    if msg == MarkEmailSent(e.outboxID) then e.(sent := true) else e
  }

  lemma QueuedOneMore(log: seq<Envelope<Msg>>, env: Envelope<Msg>, e: Email.OutboxEntry, j: int)
    requires QueuedAt(log, e, j)
    ensures QueuedAt(log + [env], EntryAfter(e, env.msg), j)
  {
    var more := log + [env];
    assert more[|log|] == env && forall k :: 0 <= k < |log| ==> more[k] == log[k];
    if SentSince(log, j, e.outboxID) {
      var k :| j < k < |log| && 0 <= k && log[k].msg == MarkEmailSent(e.outboxID);
      assert more[k].msg == MarkEmailSent(e.outboxID);
    }
  }

  /** One message's work on the outbox: queued mail that is new comes last, the rest stays in its place. */
  ghost predicate OutboxGrows(a: seq<Email.OutboxEntry>, b: seq<Email.OutboxEntry>, msg: Msg)
  {
    && |a| <= |b| <= |a| + 1 && (forall i :: 0 <= i < |a| ==> b[i] == EntryAfter(a[i], msg))
    && (|a| < |b| <==> msg.MarkReplyQueued? && !HasMail(a, msg))
    && (|a| < |b| ==> b[|a|] == Email.OutboxEntry(msg.outboxID, msg.task, msg.messageID, false))
  }

  lemma OutboxFollows(m: Model, msg: Msg, offset: int)
    ensures OutboxGrows(m.outbox, ApplyOne(m, msg, offset).0.outbox, msg)
  {
  }

  lemma EntriesQueued(log: seq<Envelope<Msg>>, e: Envelope<Msg>, a: seq<Email.OutboxEntry>, b: seq<Email.OutboxEntry>)
    requires AllQueued(log, a) && OutboxGrows(a, b, e.msg)
    ensures AllQueued(log + [e], b)
  {
    forall i | 0 <= i < |b| ensures Queued(log + [e], b[i]) {
      if i < |a| {
        assert Queued(log, a[i]);
        var j :| QueuedAt(log, a[i], j);
        QueuedOneMore(log, e, a[i], j);
      } else {
        assert (log + [e])[|log|] == e;
        assert QueuedAt(log + [e], b[i], |log|);
      }
    }
  }

  lemma MailKeepsEntry(a: seq<Email.OutboxEntry>, b: seq<Email.OutboxEntry>, msg: Msg, queued: Msg)
    requires queued.MarkReplyQueued? && OutboxGrows(a, b, msg) && (HasMail(a, queued) || queued == msg)
    ensures HasMail(b, queued)
  {
    if HasMail(a, queued) {
      var i :| 0 <= i < |a| && OneMail(a[i], queued.outboxID, queued.messageID);
      assert OneMail(b[i], queued.outboxID, queued.messageID);
    } else {
      assert OneMail(b[|a|], queued.outboxID, queued.messageID);
    }
  }

  lemma MailListed(log: seq<Envelope<Msg>>, e: Envelope<Msg>, a: seq<Email.OutboxEntry>, b: seq<Email.OutboxEntry>)
    requires NoneMissing(log, a) && OutboxGrows(a, b, e.msg)
    ensures NoneMissing(log + [e], b)
  {
    var more := log + [e];
    forall j | 0 <= j < |more| && more[j].msg.MarkReplyQueued? ensures HasMail(b, more[j].msg) {
      if j < |log| { assert more[j] == log[j] && HasMail(a, log[j].msg); }
      MailKeepsEntry(a, b, e.msg, more[j].msg);
    }
  }

  lemma StillNoneTwice(a: seq<Email.OutboxEntry>, b: seq<Email.OutboxEntry>, msg: Msg)
    requires NoneTwice(a) && OutboxGrows(a, b, msg)
    ensures NoneTwice(b)
  {
    forall i, k | 0 <= i < k < |b| ensures !OneMail(b[i], b[k].outboxID, b[k].messageID) {
      if k == |a| {
        assert !HasMail(a, msg) && !OneMail(a[i], msg.outboxID, msg.messageID);
      } else {
        assert !OneMail(a[i], a[k].outboxID, a[k].messageID);
      }
    }
  }

  /**
   Over every log the outbox is the queued mail of the log: each mail once, by row and by Message-ID, marked
   as sent exactly if that was announced after it was queued.
   */
  lemma {:induction false} OutboxIsTheLog(c: Config, log: seq<Envelope<Msg>>)
    ensures var outbox := Fold(System(c), log).outbox;
      AllQueued(log, outbox) && NoneTwice(outbox) && NoneMissing(log, outbox)
  {
    if log != [] {
      var front, e := log[..|log| - 1], log[|log| - 1];
      assert log == front + [e];
      OutboxIsTheLog(c, front);
      FoldOneMore(c, front, e);
      OutboxFollows(Fold(System(c), front), e.msg, |log|);
      var a, b := Fold(System(c), front).outbox, Fold(System(c), log).outbox;
      EntriesQueued(front, e, a, b);
      StillNoneTwice(a, b, e.msg);
      MailListed(front, e, a, b);
    }
  }

  // ---------------------------------------------------------------- domains

  /** The domain of an address is what follows its last `@`, and nothing without one. */
  lemma {:induction false} DomainIs(a: string, b: string)
    requires '@' !in b
    ensures Tasks.Domain(b) == "" && Tasks.Domain(a + "@" + b) == b
    decreases |a|
  {
    var s := a + "@" + b;
    assert s[|a|] == '@';
    if a == "" {
      assert s[1..] == b;
    } else {
      DomainIs(a[1..], b);
      assert s[1..] == a[1..] + "@" + b;
      assert s[1..][|a| - 1] == '@';
    }
  }
}
