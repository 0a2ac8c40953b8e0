/** The vocabulary of the modelled domains: messages, commands, source ids and edge-code states. */
module Messages {
  import opened Content
  import opened ReplyId

  /** The kinds of durable work a finished run owes. */
  datatype HarvestKind = Transcript | Memory | Skill | Request | Reply

  /** What a completed turn leaves behind. */
  datatype RunResult = RunResult(exit: int, stopped: bool, manifest: seq<string>)

  datatype Msg =
    | CreateTask(route: string, messageID: string)
    | AppendToTask(task: int, messageID: string)
    | FinishTask(task: int)
    | AnswerUIRequest(task: int, run: int)
    | SetReplyFrom(address: string)
    | SetWorkerHarness(name: string)
    | SpawnAgentRun(task: int, resume: bool)
    | StopAgentRun(run: int)
    | LaunchAgentRun(task: int, run: int)
    | FinishAgentRun(task: int, run: int, result: RunResult)
    | AgentRunFinished(task: int, run: int, result: RunResult)
    | RunHarvest(task: int, run: int, kind: HarvestKind)
    | MarkHarvested(run: int, kind: HarvestKind)
    | RegisterUIRequest(task: int, run: int, link: string)
    | MarkReplyQueued(task: int, outboxID: int, messageID: string)
    | SendOutbox(outboxID: int, messageID: string)
    | MarkEmailSent(outboxID: int)
    | Remember(name: string, content: Bytes)
    | Forget(name: string)
    | Unowned(tag: string)

  datatype Cmd =
    | CaptureTranscript(task: int, run: int)
    | CaptureMemory(task: int, run: int)
    | StoreSkill(task: int, run: int)
    | AssembleReply(task: int, run: int, from: string, inReplyTo: string, references: seq<string>, requestLink: string)
    | MintUIRequest(task: int, run: int)
    | SendEmail(outboxID: int, messageID: string)
    | StartAgentRun(task: int, run: int, resume: bool, harness: string)
    | SignalAgentRun(run: int, harness: string)
    | LayIn(task: int)
    | ArchiveTask(task: int)

  /** A subscription's identity. */
  datatype SourceId =
    | HarvestKey(kind: HarvestKind, run: int)
    | SendKey(outboxID: int)
    | LaunchKey(run: int)
    | WatchKey(run: int)

  /**
   Where a goroutine is in its edge code: source bodies first, then effects step by step. `Doing` is an
   effect that changes nothing durable here.
   */
  datatype Loc =
    | HarvestBody(task: int, run: int, kind: HarvestKind)
    | SendBody(outboxID: int, messageID: string)
    | LaunchBody(task: int, run: int)
    | WatchBody(task: int, run: int)
    | Capturing(task: int, run: int)
    | Captured(task: int, run: int, bytes: Bytes)
    | CapturingMemory(task: int, run: int)
    | StoringSkill(task: int, run: int)
    | Assembling(task: int, run: int, from: string, inReplyTo: string, references: seq<string>, requestLink: string)
    | Queueing(task: int, run: int, outboxID: int, messageID: string)
    | Discharging(task: int, run: int, outboxID: int, messageID: string)
    | Minting(task: int, run: int)
    | Sending(outboxID: int, messageID: string)
    | Submitted(outboxID: int, messageID: string)
    | Emitting(msgs: seq<Msg>)
    | Archiving(task: int)
    | Doing(cmd: Cmd)
    | Inert

  function KindName(k: HarvestKind): string
  {
    match k
    case Transcript => "transcript"
    case Memory => "memory"
    case Skill => "skill"
    case Request => "request"
    case Reply => "reply"
  }

  /** The text a source is identified by at run time. */
  function Render(id: SourceId): string
  {
    match id
    case HarvestKey(k, run) => "harvest:" + (KindName(k) + (":" + ItoaOf(run)))
    case SendKey(x) => "send-email:" + ItoaOf(x)
    case LaunchKey(run) => "agent-launch:" + ItoaOf(run)
    case WatchKey(run) => "agent-watch:" + ItoaOf(run)
  }

  lemma DropPrefix(p: string, a: string, b: string)
    requires p + a == p + b
    ensures a == b
  {
    assert a == (p + a)[|p|..];
    assert b == (p + b)[|p|..];
  }

  lemma HarvestKeysDiffer(k: HarvestKind, run: int, k': HarvestKind, run': int)
    requires Render(HarvestKey(k, run)) == Render(HarvestKey(k', run'))
    ensures k == k' && run == run'
  {
    var x, y := KindName(k) + (":" + ItoaOf(run)), KindName(k') + (":" + ItoaOf(run'));
    DropPrefix("harvest:", x, y);
    assert x[0] == y[0] && x[2] == y[2];
    DropPrefix(KindName(k), ":" + ItoaOf(run), ":" + ItoaOf(run'));
    DropPrefix(":", ItoaOf(run), ItoaOf(run'));
    ItoaInjective(run, run');
  }

  lemma PrefixedNumbersDiffer(p: string, x: int, y: int)
    requires p + ItoaOf(x) == p + ItoaOf(y)
    ensures x == y
  {
    DropPrefix(p, ItoaOf(x), ItoaOf(y));
    ItoaInjective(x, y);
  }

  /** The seventh letter tells the kinds of source apart. */
  lemma RenderedKind(id: SourceId)
    ensures |Render(id)| > 6
    ensures (Render(id)[0], Render(id)[6]) == match id case HarvestKey(_, _) => ('h', 't')
      case SendKey(_) => ('s', 'm') case LaunchKey(_) => ('a', 'l') case WatchKey(_) => ('a', 'w')
  {
  }

  /** No two sources, of whatever module, share a run-time id. */
  lemma RenderInjective(a: SourceId, b: SourceId)
    requires Render(a) == Render(b)
    ensures a == b
  {
    RenderedKind(a);
    RenderedKind(b);
    match a
    case HarvestKey(k, run) => HarvestKeysDiffer(k, run, b.kind, b.run);
    case SendKey(x) => PrefixedNumbersDiffer("send-email:", x, b.outboxID);
    case LaunchKey(run) => PrefixedNumbersDiffer("agent-launch:", run, b.run);
    case WatchKey(run) => PrefixedNumbersDiffer("agent-watch:", run, b.run);
  }
}
