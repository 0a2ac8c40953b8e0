/** Which sources a model declares, slice by slice. */
module KasiSources {
  import opened Runtime
  import opened Messages
  import opened Kasi
  import Tasks
  import Email
  import Agents

  function JobKey(j: Tasks.HarvestJob): SourceId
  {
    HarvestKey(j.kind, j.run)
  }

  /** `k` with source `src` is what a pending job declares. */
  predicate JobSource(j: Tasks.HarvestJob, k: SourceId, src: Source<Loc>)
  {
    k == JobKey(j) && src == Source(true, HarvestBody(j.task, j.run, j.kind))
  }

  /** Every declared source of the family comes from an element that declares it. */
  lemma {:induction false} HarvestSourceFrom(jobs: seq<Tasks.HarvestJob>, k: SourceId)
    requires k in Tasks.HarvestSources(jobs)
    ensures exists i :: 0 <= i < |jobs| && JobSource(jobs[i], k, Tasks.HarvestSources(jobs)[k])
  {
    var n := |jobs| - 1;
    var front := jobs[..n];
    if k == JobKey(jobs[n]) {
      assert JobSource(jobs[n], k, Tasks.HarvestSources(jobs)[k]);
    } else {
      HarvestSourceFrom(front, k);
      var i :| 0 <= i < n && JobSource(front[i], k, Tasks.HarvestSources(front)[k]);
      assert JobSource(jobs[i], k, Tasks.HarvestSources(jobs)[k]);
    }
  }

  lemma {:induction false} HarvestSourceOf(jobs: seq<Tasks.HarvestJob>, i: nat)
    requires i < |jobs|
    ensures JobKey(jobs[i]) in Tasks.HarvestSources(jobs)
  {
    if i < |jobs| - 1 {
      HarvestSourceOf(jobs[..|jobs| - 1], i);
    }
  }

  function EntryKey(e: Email.OutboxEntry): SourceId
  {
    SendKey(e.outboxID)
  }

  /** `k` with source `src` is what a pending outbox entry declares. */
  predicate EntrySource(e: Email.OutboxEntry, k: SourceId, src: Source<Loc>)
  {
    !e.sent && k == EntryKey(e) && src == Source(true, SendBody(e.outboxID, e.messageID))
  }

  /** Every declared source of the family comes from an element that declares it. */
  lemma {:induction false} SendSourceFrom(outbox: seq<Email.OutboxEntry>, k: SourceId)
    requires k in Email.SendSources(outbox)
    ensures exists i :: 0 <= i < |outbox| && EntrySource(outbox[i], k, Email.SendSources(outbox)[k])
  {
    var n := |outbox| - 1;
    var front := outbox[..n];
    if !outbox[n].sent && k == EntryKey(outbox[n]) {
      assert EntrySource(outbox[n], k, Email.SendSources(outbox)[k]);
    } else {
      SendSourceFrom(front, k);
      var i :| 0 <= i < n && EntrySource(front[i], k, Email.SendSources(front)[k]);
      assert EntrySource(outbox[i], k, Email.SendSources(outbox)[k]);
    }
  }

  lemma {:induction false} SendSourceOf(outbox: seq<Email.OutboxEntry>, i: nat)
    requires i < |outbox| && !outbox[i].sent
    ensures EntryKey(outbox[i]) in Email.SendSources(outbox)
  {
    if i < |outbox| - 1 {
      SendSourceOf(outbox[..|outbox| - 1], i);
    }
  }

  /** `k` with source `src` is one of the two sources of an active running run. */
  predicate RunSource(x: Agents.AgentRun, active: seq<int>, k: SourceId, src: Source<Loc>)
  {
    && x.status == Agents.Running && x.id in active
    && ((k == LaunchKey(x.id) && src == Source(true, LaunchBody(x.task, x.id))) ||
        (k == WatchKey(x.id) && src == Source(false, WatchBody(x.task, x.id))))
  }

  predicate Declares(x: Agents.AgentRun, active: seq<int>)
  {
    x.status == Agents.Running && x.id in active
  }

  /** Every declared source of the family comes from an element that declares it. */
  lemma {:induction false} WatchSourceFrom(runs: seq<Agents.AgentRun>, active: seq<int>, k: SourceId)
    requires k in Agents.WatchSources(runs, active)
    ensures exists i :: 0 <= i < |runs| && RunSource(runs[i], active, k, Agents.WatchSources(runs, active)[k])
  {
    var n := |runs| - 1;
    var front := runs[..n];
    if Declares(runs[n], active) && (k == LaunchKey(runs[n].id) || k == WatchKey(runs[n].id)) {
      assert RunSource(runs[n], active, k, Agents.WatchSources(runs, active)[k]);
    } else {
      WatchSourceFrom(front, active, k);
      var i :| 0 <= i < n && RunSource(front[i], active, k, Agents.WatchSources(front, active)[k]);
      assert RunSource(runs[i], active, k, Agents.WatchSources(runs, active)[k]);
    }
  }

  lemma {:induction false} WatchSourceOf(runs: seq<Agents.AgentRun>, active: seq<int>, i: nat)
    requires i < |runs| && Declares(runs[i], active)
    ensures WatchKey(runs[i].id) in Agents.WatchSources(runs, active)
  {
    if i < |runs| - 1 {
      WatchSourceOf(runs[..|runs| - 1], active, i);
    }
  }

  function ActiveOf(m: Model): seq<int>
  {
    Agents.ActiveRuns(m.agents.runs, m.agents.maxConcurrent)
  }

  /** No family of sources shadows another. */
  lemma Families(m: Model, k: SourceId)
    ensures var h, e, a := Tasks.HarvestSources(m.tasks.pending), Email.SendSources(m.outbox),
      Agents.WatchSources(m.agents.runs, ActiveOf(m));
      && (k.HarvestKey? ==> (k in Sources(m) <==> k in h) && (k in h ==> Sources(m)[k] == h[k]))
      && (k.SendKey? ==> (k in Sources(m) <==> k in e) && (k in e ==> Sources(m)[k] == e[k]))
      && (k.LaunchKey? || k.WatchKey? ==> (k in Sources(m) <==> k in a) && (k in a ==> Sources(m)[k] == a[k]))
  {
    var h, e, a := Tasks.HarvestSources(m.tasks.pending), Email.SendSources(m.outbox),
      Agents.WatchSources(m.agents.runs, ActiveOf(m));
    assert k in h ==> k.HarvestKey? by { if k in h { HarvestSourceFrom(m.tasks.pending, k); } }
    assert k in e ==> k.SendKey? by { if k in e { SendSourceFrom(m.outbox, k); } }
    assert k in a ==> k.LaunchKey? || k.WatchKey? by { if k in a { WatchSourceFrom(m.agents.runs, ActiveOf(m), k); } }
  }

  /** A harvest source is declared exactly while its (run, kind) is owed. */
  lemma HarvestDeclared(m: Model, kind: HarvestKind, r: int)
    ensures var k := HarvestKey(kind, r);
      && (k in Sources(m) <==> Tasks.Owes(m.tasks.pending, r, kind))
      && (k in Sources(m) ==> exists i :: 0 <= i < |m.tasks.pending| && JobSource(m.tasks.pending[i], k, Sources(m)[k]))
  {
    var k := HarvestKey(kind, r);
    Families(m, k);
    if k in Sources(m) { HarvestSourceFrom(m.tasks.pending, k); }
    if Tasks.Owes(m.tasks.pending, r, kind) {
      var i :| 0 <= i < |m.tasks.pending| && m.tasks.pending[i].run == r && m.tasks.pending[i].kind == kind;
      HarvestSourceOf(m.tasks.pending, i);
    }
  }

  /** A send source is declared exactly while some entry with its row id is pending. */
  lemma SendDeclared(m: Model, x: int)
    ensures var k := SendKey(x);
      && (k in Sources(m) <==> exists i :: 0 <= i < |m.outbox| && !m.outbox[i].sent && m.outbox[i].outboxID == x)
      && (k in Sources(m) ==> exists i :: 0 <= i < |m.outbox| && EntrySource(m.outbox[i], k, Sources(m)[k]))
  {
    var k := SendKey(x);
    Families(m, k);
    if k in Sources(m) { SendSourceFrom(m.outbox, k); }
    if i :| 0 <= i < |m.outbox| && !m.outbox[i].sent && m.outbox[i].outboxID == x {
      SendSourceOf(m.outbox, i);
    }
  }

  /** A launcher or watcher is declared only for an active running run, a watcher for each of them. */
  lemma RunDeclared(m: Model, k: SourceId)
    requires k.LaunchKey? || k.WatchKey?
    ensures k in Sources(m) ==>
      exists i :: 0 <= i < |m.agents.runs| && RunSource(m.agents.runs[i], ActiveOf(m), k, Sources(m)[k])
    ensures forall i :: 0 <= i < |m.agents.runs| ==>
      k.WatchKey? && m.agents.runs[i].id == k.run && Declares(m.agents.runs[i], ActiveOf(m)) ==> k in Sources(m)
  {
    Families(m, k);
    if k in Sources(m) { WatchSourceFrom(m.agents.runs, ActiveOf(m), k); }
    if i :| 0 <= i < |m.agents.runs| && m.agents.runs[i].id == k.run && Declares(m.agents.runs[i], ActiveOf(m)) {
      WatchSourceOf(m.agents.runs, ActiveOf(m), i);
    }
  }
}
