/**
 What is owed, by the log alone. Over every log a job is owed exactly if some message raised it and no
 message since has discharged it: the end of a run raises what its result earned, a registered request the
 reply that carries its link.
 */
module KasiJobs {
  import opened Runtime
  import opened Messages
  import opened Kasi
  import opened KasiCauses
  import Tasks

  ghost predicate KnownTask(m: Model, t: int)
  {
    exists i :: TaskAt(m, t, i)
  }

  /** This message makes the job (r, kind) owed. */
  ghost predicate Raises(m: Model, msg: Msg, r: int, kind: HarvestKind)
  {
    match msg
    case AgentRunFinished(t, x, res) => x == r && KnownTask(m, t) && Tasks.OwedBy(res, kind)
    case RegisterUIRequest(t, x, _) => x == r && KnownTask(m, t) && kind == Reply
    case _ => false
  }

  /** This message takes it off the list. */
  ghost predicate Clears(m: Model, msg: Msg, r: int, kind: HarvestKind)
  {
    match msg
    case MarkHarvested(x, k) => x == r && k == kind
    case RegisterUIRequest(t, x, _) => x == r && KnownTask(m, t) && kind == Request
    case _ => false
  }

  lemma RegisteredJobs(m: Model, msg: Msg, offset: int, r: int, kind: HarvestKind)
    requires msg.RegisterUIRequest?
    ensures Tasks.Owes(ApplyOne(m, msg, offset).0.tasks.pending, r, kind) <==>
      Raises(m, msg, r, kind) || (Tasks.Owes(m.tasks.pending, r, kind) && !Clears(m, msg, r, kind))
  {
    TaskFound(m, msg.task);
    Tasks.DischargedOwes(m.tasks.pending, msg.run, Request, r, kind);
    Tasks.WithPendingOwes(Tasks.Discharged(m.tasks.pending, msg.run, Request),
      Tasks.HarvestJob(msg.task, msg.run, Reply), r, kind);
  }

  lemma EndedJobs(m: Model, msg: Msg, offset: int, r: int, kind: HarvestKind)
    requires msg.AgentRunFinished?
    ensures Tasks.Owes(ApplyOne(m, msg, offset).0.tasks.pending, r, kind) <==>
      Raises(m, msg, r, kind) || Tasks.Owes(m.tasks.pending, r, kind)
  {
    TaskFound(m, msg.task);
    Tasks.JobsRecorded(m.tasks.pending, msg.task, msg.run, msg.result, r, kind);
  }

  /** One message: a job is owed afterwards exactly if the message raises it, or it was owed and is not cleared. */
  lemma JobFollows(m: Model, msg: Msg, offset: int, r: int, kind: HarvestKind)
    ensures Tasks.Owes(ApplyOne(m, msg, offset).0.tasks.pending, r, kind) <==>
      Raises(m, msg, r, kind) || (Tasks.Owes(m.tasks.pending, r, kind) && !Clears(m, msg, r, kind))
  {
    match msg
    case AgentRunFinished(_, _, _) => EndedJobs(m, msg, offset, r, kind);
    case MarkHarvested(x, k) => Tasks.DischargedOwes(m.tasks.pending, x, k, r, kind);
    case RegisterUIRequest(_, _, _) => RegisteredJobs(m, msg, offset, r, kind);
    case _ =>
  }

  ghost predicate RaisedAt(c: Config, log: seq<Envelope<Msg>>, j: nat, r: int, kind: HarvestKind)
    requires j < |log|
  {
    Raises(Fold(System(c), log[..j]), log[j].msg, r, kind)
  }

  ghost predicate ClearedAt(c: Config, log: seq<Envelope<Msg>>, k: nat, r: int, kind: HarvestKind)
    requires k < |log|
  {
    Clears(Fold(System(c), log[..k]), log[k].msg, r, kind)
  }

  /** Raised by message `j`, and not cleared by any later one. */
  ghost predicate OpenSince(c: Config, log: seq<Envelope<Msg>>, j: int, r: int, kind: HarvestKind)
  {
    0 <= j < |log| && RaisedAt(c, log, j, r, kind) && Untouched(c, log, j, r, kind)
  }

  ghost predicate Untouched(c: Config, log: seq<Envelope<Msg>>, j: nat, r: int, kind: HarvestKind)
  {
    forall k :: j < k < |log| ==> !ClearedAt(c, log, k, r, kind)
  }

  lemma SameBefore(c: Config, log: seq<Envelope<Msg>>, e: Envelope<Msg>, j: nat, r: int, kind: HarvestKind)
    requires j < |log|
    ensures RaisedAt(c, log + [e], j, r, kind) <==> RaisedAt(c, log, j, r, kind)
    ensures ClearedAt(c, log + [e], j, r, kind) <==> ClearedAt(c, log, j, r, kind)
  {
    assert (log + [e])[..j] == log[..j];
  }

  lemma UntouchedOneMore(c: Config, log: seq<Envelope<Msg>>, e: Envelope<Msg>, j: nat, r: int, kind: HarvestKind)
    requires j < |log|
    ensures Untouched(c, log + [e], j, r, kind) <==>
      Untouched(c, log, j, r, kind) && !ClearedAt(c, log + [e], |log|, r, kind)
  {
    forall k | 0 <= k < |log| ensures ClearedAt(c, log + [e], k, r, kind) <==> ClearedAt(c, log, k, r, kind) {
      SameBefore(c, log, e, k, r, kind);
    }
  }

  /** What the last message does. */
  lemma LastMessage(c: Config, log: seq<Envelope<Msg>>, e: Envelope<Msg>, r: int, kind: HarvestKind)
    ensures var m := Fold(System(c), log);
      && (RaisedAt(c, log + [e], |log|, r, kind) <==> Raises(m, e.msg, r, kind))
      && (ClearedAt(c, log + [e], |log|, r, kind) <==> Clears(m, e.msg, r, kind))
  {
    assert (log + [e])[..|log|] == log;
  }

  ghost predicate Open(c: Config, log: seq<Envelope<Msg>>, r: int, kind: HarvestKind)
  {
    exists j :: OpenSince(c, log, j, r, kind)
  }

  lemma OpenAfter(c: Config, log: seq<Envelope<Msg>>, e: Envelope<Msg>, r: int, kind: HarvestKind)
    ensures Open(c, log + [e], r, kind) <==>
      RaisedAt(c, log + [e], |log|, r, kind) ||
      (Open(c, log, r, kind) && !ClearedAt(c, log + [e], |log|, r, kind))
  {
    var more := log + [e];
    assert OpenSince(c, more, |log|, r, kind) <==> RaisedAt(c, more, |log|, r, kind);
    forall j | 0 <= j < |log|
      ensures OpenSince(c, more, j, r, kind) <==>
        OpenSince(c, log, j, r, kind) && !ClearedAt(c, more, |log|, r, kind) {
      SameBefore(c, log, e, j, r, kind);
      UntouchedOneMore(c, log, e, j, r, kind);
    }
  }

  /** Over every log: a job is owed exactly if a message raised it and none since has cleared it. */
  lemma {:induction false} OwedIsTheLog(c: Config, log: seq<Envelope<Msg>>, r: int, kind: HarvestKind)
    ensures Tasks.Owes(Fold(System(c), log).tasks.pending, r, kind) <==> Open(c, log, r, kind)
  {
    if log != [] {
      var front, e := log[..|log| - 1], log[|log| - 1];
      assert log == front + [e];
      OwedIsTheLog(c, front, r, kind);
      FoldOneMore(c, front, e);
      JobFollows(Fold(System(c), front), e.msg, |log|, r, kind);
      LastMessage(c, front, e, r, kind);
      OpenAfter(c, front, e, r, kind);
    }
  }
}
