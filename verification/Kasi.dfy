/**
 The assembly: one model of four slices, the handlers by tag, the declared sources, and what every
 piece of edge code may do to the durable world, one atomic step at a time.
 */
module Kasi {
  import opened Prelude
  import opened Runtime
  import opened Messages
  import opened Content
  import opened ReplyBody
  import Tasks
  import Email
  import Agents
  import Memories
  import R = ReplyId

  /** What the deployment fixes: the reply identity, the loop guard, the cap, and the hash. */
  datatype Config = Config(replyFrom: string, domain: string, loopGuard: int, maxConcurrent: int, hash: Bytes -> string)

  datatype Model = Model(tasks: Tasks.Model, outbox: seq<Email.OutboxEntry>, agents: Agents.Model,
    notes: seq<Memories.Note>)

  /** Durable and outside: the content store, the transmitted mail, the workspaces' transcripts. */
  datatype World = World(outbox: Outbox, archive: Archive, sent: seq<Mail>, transcripts: map<(int, int), Bytes>)

  function Zero(c: Config): Model
  {
    Model(Tasks.Model([], [], c.replyFrom, c.loopGuard, []), [], Agents.Model([], c.maxConcurrent, ""), [])
  }

  function ByTasks(m: Model, r: (Tasks.Model, seq<Out<Msg, Cmd>>)): Option<(Model, seq<Out<Msg, Cmd>>)>
  {
    Some((m.(tasks := r.0), r.1))
  }

  function ByAgents(m: Model, r: (Agents.Model, seq<Out<Msg, Cmd>>)): Option<(Model, seq<Out<Msg, Cmd>>)>
  {
    Some((m.(agents := r.0), r.1))
  }

  /** The owning handler of a message, None when no module owns the tag. */
  function Handle(m: Model, msg: Msg, offset: int): Option<(Model, seq<Out<Msg, Cmd>>)>
  {
    match msg
    case CreateTask(route, mid) => ByTasks(m, Tasks.HandleCreateTask(m.tasks, route, mid, offset))
    case AppendToTask(t, mid) => ByTasks(m, Tasks.HandleAppendToTask(m.tasks, t, mid))
    case FinishTask(t) => ByTasks(m, Tasks.HandleFinishTask(m.tasks, t))
    case AnswerUIRequest(t, r) => ByTasks(m, Tasks.HandleAnswerUIRequest(m.tasks, t, r))
    case SetReplyFrom(a) => ByTasks(m, (m.tasks.(replyFrom := a), []))
    case SetWorkerHarness(h) => ByAgents(m, (m.agents.(workerHarness := h), []))
    case SpawnAgentRun(t, resume) => ByAgents(m, (Agents.HandleSpawnAgentRun(m.agents, t, resume, offset), []))
    case StopAgentRun(r) => ByAgents(m, Agents.HandleStopAgentRun(m.agents, r))
    case LaunchAgentRun(t, r) => Some((m, Agents.HandleLaunchAgentRun(m.agents, t, r)))
    case FinishAgentRun(t, r, res) => ByAgents(m, Agents.HandleFinishAgentRun(m.agents, t, r, res))
    case AgentRunFinished(t, r, res) => ByTasks(m, (Tasks.HandleAgentRunFinished(m.tasks, t, r, res), []))
    case RunHarvest(t, r, k) => ByTasks(m, Tasks.HandleRunHarvest(m.tasks, t, r, k))
    case MarkHarvested(r, k) => ByTasks(m, (Tasks.HandleMarkHarvested(m.tasks, r, k), []))
    case RegisterUIRequest(t, r, link) => ByTasks(m, (Tasks.HandleRegisterUIRequest(m.tasks, t, r, link), []))
    case MarkReplyQueued(t, x, mid) => Some((m.(outbox := Email.HandleMarkReplyQueued(m.outbox, t, x, mid)), []))
    case SendOutbox(x, mid) => Some((m, [Do(SendEmail(x, mid))]))
    case MarkEmailSent(x) => Some((m.(outbox := Email.HandleMarkEmailSent(m.outbox, x)), []))
    case Remember(name, content) => Some((m.(notes := Memories.HandleRemember(m.notes, name, content)), []))
    case Forget(name) => Some((m.(notes := Memories.HandleForget(m.notes, name)), []))
    case Unowned(_) => None
  }

  function Sources(m: Model): map<SourceId, Source<Loc>>
  {
    Tasks.HarvestSources(m.tasks.pending) + Email.SendSources(m.outbox) +
    Agents.WatchSources(m.agents.runs, Agents.ActiveRuns(m.agents.runs, m.agents.maxConcurrent))
  }

  function Begin(c: Cmd): Loc
  {
    match c
    case CaptureTranscript(t, r) => Capturing(t, r)
    case CaptureMemory(t, r) => CapturingMemory(t, r)
    case StoreSkill(t, r) => StoringSkill(t, r)
    case AssembleReply(t, r, from, irt, refs, link) => Assembling(t, r, from, irt, refs, link)
    case MintUIRequest(t, r) => Minting(t, r)
    case SendEmail(x, mid) => Sending(x, mid)
    case ArchiveTask(t) => Archiving(t)
    case _ => Doing(c)
  }

  /** The row assemble-reply queues, from the harvested body and attachments. */
  function ReplyRow(task: int, run: int, from: string, inReplyTo: string, references: seq<string>, body: string,
      attachments: seq<Part>): OutboxRow
  {
    var mid := R.ReplyMessageID(task, run, Tasks.Domain(from));
    OutboxRow(0, task, mid, Mail(from, mid, inReplyTo, references, body, attachments), false)
  }

  function TranscriptRow(task: int, run: int, bytes: Bytes): ArchiveRow
  {
    ArchiveRow(0, task, run, "transcript", "transcript-" + R.ItoaOf(run) + ".jsonl", "application/jsonl", "", bytes)
  }

  /** A file archive-task stores: under its true hash, for its task, and never a transcript. */
  predicate TaskFile(row: ArchiveRow, task: int, hash: Bytes -> string)
  {
    row.task == task && row.sha256 == hash(row.bytes) && !NamedTranscript(row.filename)
  }

  ghost predicate MemoryDirective(m: Msg)
  {
    m.Remember? || m.Forget?
  }

  ghost predicate OnlyDirectives(ms: seq<Msg>)
  {
    forall i :: 0 <= i < |ms| ==> MemoryDirective(ms[i])
  }

  /**
   One atomic step of edge code. An effect may also return at any moment, which is how it fails (`MayReturn`);
   what it reads from a workspace is arbitrary.
   */
  ghost predicate Edge(c: Config, w: World, l: Loc, cancelled: bool, w': World, l': Loc, emit: Option<Msg>)
  {
    match l
    case HarvestBody(t, r, k) => w' == w && l' == Inert && emit == Some(RunHarvest(t, r, k))
    case SendBody(x, mid) => w' == w && l' == Inert && emit == Some(SendOutbox(x, mid))
    case LaunchBody(t, r) => w' == w && l' == Inert && emit == Some(LaunchAgentRun(t, r))
    case WatchBody(t, r) => w' == w && l' == Inert && exists res: RunResult :: emit == Some(FinishAgentRun(t, r, res))
    case Capturing(t, r) => w' == w && emit == None && (t, r) in w.transcripts &&
      l' == Captured(t, r, w.transcripts[(t, r)])
    case Captured(t, r, bytes) =>
      var (a, id) := AddArchive(w.archive, TranscriptRow(t, r, bytes), c.hash);
      emit == None && id.Some? && w' == w.(archive := a) && l' == Emitting([MarkHarvested(r, Transcript)])
    case CapturingMemory(t, r) =>
      w' == w && emit == None &&
        exists ms: seq<Msg> :: l' == Emitting(ms + [MarkHarvested(r, Memory)]) && OnlyDirectives(ms)
    case StoringSkill(t, r) => w' == w && emit == None && l' == Emitting([MarkHarvested(r, Skill)])
    case Assembling(t, r, from, irt, refs, link) =>
      exists text: string, url: string, attachments: seq<Part> ::
        var row := ReplyRow(t, r, from, irt, refs, text + Footer(url, link), attachments);
        var (o, id) := AddOutbox(w.outbox, row);
        emit == None && w' == w.(outbox := o) && l' == Queueing(t, r, id, row.messageID)
    case Queueing(t, r, x, mid) => w' == w && l' == Discharging(t, r, x, mid) &&
      emit == Some(MarkReplyQueued(t, x, mid))
    case Discharging(t, r, x, mid) => w' == w && l' == Inert && emit == Some(MarkHarvested(r, Reply))
    case Minting(t, r) => w' == w && emit == None && exists link: string ::
      l' == Emitting([RegisterUIRequest(t, r, link)])
    case Sending(x, mid) =>
      var row := FindOutbox(w.outbox, x);
      row.Some? && emit == None && w' == w.(sent := w.sent + [row.value.raw]) && l' == Submitted(x, mid)
    case Submitted(x, mid) =>
      var o := MarkOutboxSent(w.outbox, x);
      o.Some? && emit == None && w' == w.(outbox := o.value) && l' == Emitting([MarkEmailSent(x)])
    case Emitting(ms) => w' == w && ms != [] && emit == Some(ms[0]) && l' == Emitting(ms[1..])
    case Archiving(t) =>
      exists row: ArchiveRow :: TaskFile(row, t, c.hash) && emit == None && l' == l &&
        w' == w.(archive := AddArchive(w.archive, row, c.hash).0)
    case Doing(_) => false
    case Inert => false
  }

  /** The bodies that drive a harvest, a send or a watch return only once they have emitted. */
  predicate MayReturn(l: Loc)
  {
    !l.HarvestBody? && !l.SendBody? && !l.WatchBody?
  }

  /** Outside käsi: agents write workspaces, and failures are scripted; nothing durable is undone. */
  ghost predicate OutsideStep(w: World, w': World)
  {
    && w'.outbox == w.outbox && w'.sent == w.sent
    && w'.archive == w.archive.(failing := w'.archive.failing)
  }

  /** The front door: internal messages are not injected, and the reply identity keeps its domain. */
  predicate Front(c: Config, m: Msg)
  {
    match m
    case CreateTask(_, _) => true
    case AppendToTask(_, _) => true
    case FinishTask(_) => true
    case AnswerUIRequest(_, _) => true
    case SetReplyFrom(a) => a != "" && Tasks.Domain(a) == c.domain
    case SetWorkerHarness(_) => true
    case StopAgentRun(_) => true
    case Remember(_, _) => true
    case Forget(_) => true
    case Unowned(_) => true
    case _ => false
  }

  ghost function System(c: Config): Runtime.Program<Model, SourceId, Msg, Cmd, Loc, World>
  {
    Runtime.Program(
      Zero(c),
      (m: Model, msg: Msg, offset: nat) => Handle(m, msg, offset),
      (m: Model) => Sources(m),
      (cmd: Cmd) => Some(Begin(cmd)),
      (w: World, l: Loc, cancelled: bool, w': World, l': Loc, emit: Option<Msg>) => Edge(c, w, l, cancelled, w', l',
        emit),
      (l: Loc) => MayReturn(l),
      (w: World, w': World) => OutsideStep(w, w'),
      (m: Msg) => Front(c, m))
  }

  /** One message through its owning handler. */
  function ApplyOne(m: Model, msg: Msg, offset: int): (Model, seq<Out<Msg, Cmd>>)
  {
    var r := Handle(m, msg, offset);
    if r.Some? then r.value else (m, [])
  }

  lemma ApplyIs(c: Config, m: Model, msg: Msg, offset: nat)
    ensures ApplyMsg(System(c), m, msg, offset) == ApplyOne(m, msg, offset)
  {
  }

  lemma FoldLast(c: Config, log: seq<Envelope<Msg>>, front: seq<Envelope<Msg>>, e: Envelope<Msg>)
    requires log == front + [e]
    ensures Runtime.Fold(System(c), log) == ApplyOne(Runtime.Fold(System(c), front), e.msg, |log|).0
  {
    FoldOneMore(c, front, e);
  }

  lemma FoldOneMore(c: Config, log: seq<Envelope<Msg>>, e: Envelope<Msg>)
    ensures Runtime.Fold(System(c), log + [e]) == ApplyOne(Runtime.Fold(System(c), log), e.msg, |log| + 1).0
  {
    Runtime.FoldAppend(System(c), log, e);
    ApplyIs(c, Runtime.Fold(System(c), log), e.msg, |log| + 1);
  }

  type KState = State<Model, SourceId, Msg, Cmd, Loc, World>
  type KStep = Step<SourceId, Msg, Loc, World>

  /** The configured identity has the configured domain. */
  ghost predicate ConfigOK(c: Config)
  {
    c.domain == Tasks.Domain(Tasks.FromOf(c.replyFrom, ""))
  }

  /** A fresh deployment's world: nothing queued, nothing sent. */
  ghost predicate EmptyWorld(w: World)
  {
    w.outbox == Outbox([], 0) && w.sent == [] && w.archive.rows == [] && w.archive.next == 0
  }

  ghost predicate KRun(c: Config, states: seq<KState>, steps: seq<KStep>)
  {
    ConfigOK(c) && IsRun(System(c), states, steps) && EmptyWorld(states[0].world)
  }
}
