/** The tasks domain: handlers over copied slices (tasks/). */
module Tasks {
  import opened Prelude
  import opened Runtime
  import opened Messages
  import opened ReplyId

  datatype Status = Open | AwaitingAgent | AwaitingUser | Done | Paused

  datatype Task = Task(id: int, status: Status, route: string, references: seq<string>, lastMessageID: string,
    runs: seq<int>, turns: int)

  datatype UIRequest = UIRequest(run: int, task: int, link: string, answered: bool)

  /** One kind of work a finished run still owes; its identity is (run, kind). */
  datatype HarvestJob = HarvestJob(task: int, run: int, kind: HarvestKind)

  datatype Model = Model(tasks: seq<Task>, requests: seq<UIRequest>, replyFrom: string, loopGuard: int,
    pending: seq<HarvestJob>)

  function Find(s: Model, id: int): nat
  {
    FirstIndex(s.tasks, (t: Task) => t.id == id)
  }

  function FindRequest(s: Model, run: int): nat
  {
    FirstIndex(s.requests, (r: UIRequest) => r.run == run)
  }

  // ---------------------------------------------------------------- pending jobs

  predicate Owes(pending: seq<HarvestJob>, run: int, kind: HarvestKind)
  {
    exists i :: 0 <= i < |pending| && pending[i].run == run && pending[i].kind == kind
  }

  function WithHarvestPending(pending: seq<HarvestJob>, job: HarvestJob): seq<HarvestJob>
  {
    if Owes(pending, job.run, job.kind) then pending else pending + [job]
  }

  function Discharged(pending: seq<HarvestJob>, run: int, kind: HarvestKind): seq<HarvestJob>
  {
    if pending == [] then []
    else
      var j := pending[|pending| - 1];
      Discharged(pending[..|pending| - 1], run, kind) + if j.run == run && j.kind == kind then [] else [j]
  }

  /** The copying loop that drops one (run, kind). */
  method WithoutHarvestPending(pending: seq<HarvestJob>, run: int, kind: HarvestKind) returns (out: seq<HarvestJob>)
    ensures out == Discharged(pending, run, kind)
    ensures forall j :: j in out <==> j in pending && !(j.run == run && j.kind == kind)
  {
    out := [];
    for i := 0 to |pending|
      invariant out == Discharged(pending[..i], run, kind)
    {
      assert pending[..i + 1][..i] == pending[..i];
      var j := pending[i];
      if j.run == run && j.kind == kind {
        continue;
      }
      out := out + [j];
    }
    assert pending[..|pending|] == pending;
    DischargedIs(pending, run, kind);
  }

  /** Discharging removes that job and nothing else. */
  lemma {:induction false} DischargedIs(pending: seq<HarvestJob>, run: int, kind: HarvestKind)
    ensures forall j :: j in Discharged(pending, run, kind) <==> j in pending && !(j.run == run && j.kind == kind)
  {
    if pending != [] {
      DischargedIs(pending[..|pending| - 1], run, kind);
      assert pending == pending[..|pending| - 1] + [pending[|pending| - 1]];
    }
  }

  // ---------------------------------------------------------------- the reply identity

  const ROUTE_DOMAIN := "kasi.test"

  function RouteAddr(route: string): string
  {
    route + "@" + ROUTE_DOMAIN
  }

  /** The part of an address after its last `@`; addresses are bare. */
  function Domain(address: string): string
  {
    if address == [] || '@' !in address then ""
    else if address[0] == '@' && '@' !in address[1..] then address[1..]
    else Domain(address[1..])
  }

  /** The configured identity, or the route's placeholder when none is configured. */
  function FromOf(replyFrom: string, route: string): string
  {
    if replyFrom == "" then RouteAddr(route) else replyFrom
  }

  // ---------------------------------------------------------------- manifests

  predicate HasReply(manifest: seq<string>)
  {
    "reply.txt" in manifest
  }

  predicate HasRequest(manifest: seq<string>)
  {
    "request.json" in manifest
  }

  /** A path of the form skills/<non-empty name>/SKILL.md. */
  predicate IsSkillPath(path: string)
  {
    && |path| > |"skills/"| + |"/SKILL.md"|
    && path[..7] == "skills/" && path[|path| - 9..] == "/SKILL.md"
    && '/' !in path[7..|path| - 9]
  }

  predicate HasSkill(manifest: seq<string>)
  {
    exists i :: 0 <= i < |manifest| && IsSkillPath(manifest[i])
  }

  /** Its three segments: the skills folder, a name, the required file. */
  lemma SkillPathIs(path: string)
    ensures IsSkillPath(path) <==>
      exists name :: name != "" && '/' !in name && path == "skills/" + name + "/SKILL.md"
  {
    if IsSkillPath(path) {
      var name := path[7..|path| - 9];
      assert path == path[..7] + name + path[|path| - 9..];
    }
    if name :| name != "" && '/' !in name && path == "skills/" + name + "/SKILL.md" {
      assert path[..7] == "skills/" && path[7..|path| - 9] == name && path[|path| - 9..] == "/SKILL.md";
    }
  }

  // ---------------------------------------------------------------- handlers

  function HandleCreateTask(s: Model, route: string, messageID: string, offset: int): (Model, seq<Out<Msg, Cmd>>)
  {
    var t := Task(offset, AwaitingAgent, route, [messageID], messageID, [], 1);
    (s.(tasks := s.tasks + [t]), [Do(LayIn(offset)), Send(SpawnAgentRun(offset, false))])
  }

  function HandleAppendToTask(s: Model, task: int, messageID: string): (Model, seq<Out<Msg, Cmd>>)
  {
    var i := Find(s, task);
    if i == |s.tasks| then (s, [])
    else
      var t := s.tasks[i];
      if t.status == Paused then (s, [])
      else if s.loopGuard > 0 && t.turns >= s.loopGuard then
        var t' := t.(status := Paused, references := t.references + [messageID], lastMessageID := messageID);
        (s.(tasks := s.tasks[i := t']), [])
      else
        var t' := t.(status := AwaitingAgent, references := t.references + [messageID], lastMessageID := messageID,
          turns := t.turns + 1);
        (s.(tasks := s.tasks[i := t']), [Do(LayIn(task)), Send(SpawnAgentRun(task, true))])
  }

  function HandleFinishTask(s: Model, task: int): (Model, seq<Out<Msg, Cmd>>)
  {
    var i := Find(s, task);
    if i == |s.tasks| then (s, [])
    else (s.(tasks := s.tasks[i := s.tasks[i].(status := Done)]), [Do(ArchiveTask(task))])
  }

  function HandleAnswerUIRequest(s: Model, task: int, run: int): (Model, seq<Out<Msg, Cmd>>)
  {
    var i := FindRequest(s, run);
    if i == |s.requests| then (s, [])
    else
      var s1 := s.(requests := s.requests[i := s.requests[i].(answered := true)]);
      var ti := Find(s, task);
      var s2 := if ti < |s.tasks| then s1.(tasks := s1.tasks[ti := s1.tasks[ti].(status := AwaitingAgent)]) else s1;
      (s2, [Do(LayIn(task)), Send(SpawnAgentRun(task, true))])
  }

  function ReplyIdFor(s: Model, t: Task, run: int): string
  {
    ReplyMessageID(t.id, run, Domain(FromOf(s.replyFrom, t.route)))
  }

  /** The jobs a finished run is recorded to owe, in order. */
  function JobsOf(pending: seq<HarvestJob>, task: int, run: int, result: RunResult): seq<HarvestJob>
  {
    var p0 := WithHarvestPending(pending, HarvestJob(task, run, Transcript));
    if result.stopped || result.exit != 0 then p0
    else
      var p1 := if HasSkill(result.manifest) then WithHarvestPending(p0, HarvestJob(task, run, Skill)) else p0;
      var p2 := WithHarvestPending(p1, HarvestJob(task, run, Memory));
      if HasRequest(result.manifest) then WithHarvestPending(p2, HarvestJob(task, run, Request))
      else if !HasReply(result.manifest) then p2
      else WithHarvestPending(p2, HarvestJob(task, run, Reply))
  }

  /** Whether a result leads to a reply without a request in between. */
  predicate RepliesDirectly(result: RunResult)
  {
    !result.stopped && result.exit == 0 && !HasRequest(result.manifest) && HasReply(result.manifest)
  }

  predicate RaisesRequest(result: RunResult)
  {
    !result.stopped && result.exit == 0 && HasRequest(result.manifest)
  }

  /** What a run with this result owes: a transcript always, the rest only after a success, and a reply only when no
  request goes first. */
  predicate OwedBy(result: RunResult, kind: HarvestKind)
  {
    var success := !result.stopped && result.exit == 0;
    match kind
    case Transcript => true
    case Memory => success
    case Skill => success && HasSkill(result.manifest)
    case Request => success && HasRequest(result.manifest)
    case Reply => success && HasReply(result.manifest) && !HasRequest(result.manifest)
  }

  lemma OwesIn(jobs: seq<HarvestJob>, run: int, kind: HarvestKind)
    ensures Owes(jobs, run, kind) <==> exists j :: j in jobs && j.run == run && j.kind == kind
  {
    if Owes(jobs, run, kind) {
      var i :| 0 <= i < |jobs| && jobs[i].run == run && jobs[i].kind == kind;
      assert jobs[i] in jobs;
    }
  }

  /** Adding a job makes exactly its (run, kind) owed. */
  lemma WithPendingOwes(jobs: seq<HarvestJob>, j: HarvestJob, run: int, kind: HarvestKind)
    ensures Owes(WithHarvestPending(jobs, j), run, kind) <==> Owes(jobs, run, kind) || (j.run == run && j.kind == kind)
  {
    var q := WithHarvestPending(jobs, j);
    OwesIn(jobs, run, kind);
    OwesIn(q, run, kind);
    assert forall x :: x in q ==> x in jobs || x == j;
    assert forall x :: x in jobs ==> x in q;
    if j.run == run && j.kind == kind && !Owes(jobs, run, kind) {
      assert q[|jobs|] == j;
    }
  }

  /** Discharging a (run, kind) makes exactly that one no longer owed. */
  lemma DischargedOwes(jobs: seq<HarvestJob>, run: int, kind: HarvestKind, r: int, k: HarvestKind)
    ensures Owes(Discharged(jobs, run, kind), r, k) <==> Owes(jobs, r, k) && !(run == r && kind == k)
  {
    DischargedIs(jobs, run, kind);
    OwesIn(jobs, r, k);
    OwesIn(Discharged(jobs, run, kind), r, k);
  }

  /** A finished run is recorded to owe exactly what its result says, beside what was owed before. */
  lemma JobsRecorded(jobs: seq<HarvestJob>, task: int, run: int, result: RunResult, r: int, kind: HarvestKind)
    ensures Owes(JobsOf(jobs, task, run, result), r, kind) <==>
      Owes(jobs, r, kind) || (run == r && OwedBy(result, kind))
  {
    var p0 := WithHarvestPending(jobs, HarvestJob(task, run, Transcript));
    WithPendingOwes(jobs, HarvestJob(task, run, Transcript), r, kind);
    WithPendingOwes(p0, HarvestJob(task, run, Skill), r, kind);
    var p1 := if HasSkill(result.manifest) then WithHarvestPending(p0, HarvestJob(task, run, Skill)) else p0;
    WithPendingOwes(p1, HarvestJob(task, run, Memory), r, kind);
    var p2 := WithHarvestPending(p1, HarvestJob(task, run, Memory));
    WithPendingOwes(p2, HarvestJob(task, run, Request), r, kind);
    WithPendingOwes(p2, HarvestJob(task, run, Reply), r, kind);
  }

  function HandleAgentRunFinished(s: Model, task: int, run: int, result: RunResult): Model
  {
    var i := Find(s, task);
    if i == |s.tasks| then s
    else
      var t := s.tasks[i].(runs := s.tasks[i].runs + [run], status := AwaitingUser);
      var t' := if RepliesDirectly(result) then t.(references := t.references + [ReplyIdFor(s, t, run)]) else t;
      s.(tasks := s.tasks[i := t'], pending := JobsOf(s.pending, task, run, result))
  }

  function HandleRunHarvest(s: Model, task: int, run: int, kind: HarvestKind): (Model, seq<Out<Msg, Cmd>>)
  {
    match kind
    case Transcript => (s, [Do(CaptureTranscript(task, run))])
    case Memory => (s, [Do(CaptureMemory(task, run))])
    case Skill => (s, [Do(StoreSkill(task, run))])
    case Reply => (s, ReplyCmds(s, task, run))
    case Request => (s, [Do(MintUIRequest(task, run))])
  }

  /** The link of the run's request while it waits for an answer. */
  function RequestLink(s: Model, run: int): string
  {
    var i := FindRequest(s, run);
    if i < |s.requests| && !s.requests[i].answered then s.requests[i].link else ""
  }

  /** The reply payload, rebuilt from logged model state. */
  function ReplyCmds(s: Model, task: int, run: int): seq<Out<Msg, Cmd>>
  {
    var i := Find(s, task);
    if i == |s.tasks| then []
    else
      var t := s.tasks[i];
      [Do(AssembleReply(task, run, FromOf(s.replyFrom, t.route), t.lastMessageID, t.references, RequestLink(s, run)))]
  }

  function HandleRegisterUIRequest(s: Model, task: int, run: int, link: string): Model
  {
    var i := Find(s, task);
    if i == |s.tasks| then s
    else
      var t := s.tasks[i];
      var t' := t.(status := AwaitingUser, references := t.references + [ReplyIdFor(s, t, run)]);
      s.(requests := s.requests + [UIRequest(run, task, link, false)],
         tasks := s.tasks[i := t'],
         pending := WithHarvestPending(Discharged(s.pending, run, Request), HarvestJob(task, run, Reply)))
  }

  function HandleMarkHarvested(s: Model, run: int, kind: HarvestKind): Model
  {
    s.(pending := Discharged(s.pending, run, kind))
  }

  /** One Await source per pending job; a later job with the same id would overwrite. */
  function HarvestSources(pending: seq<HarvestJob>): map<SourceId, Source<Loc>>
  {
    if pending == [] then map[]
    else
      var j := pending[|pending| - 1];
      HarvestSources(pending[..|pending| - 1])[HarvestKey(j.kind, j.run) :=
        Source(true, HarvestBody(j.task, j.run, j.kind))]
  }
}
