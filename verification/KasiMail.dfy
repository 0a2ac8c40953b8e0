/**
 What queued and sent mail says. Every row of the outbox, in every reachable state, was built for a logged
 run-harvest from the task as that message found it: the sender the configuration or the route gives, the
 last message as In-Reply-To, the task's references, and under the text the link of a request that waits.
 */
module KasiMail {
  import opened Prelude
  import opened Runtime
  import opened RuntimeProofs
  import opened Provenance
  import opened Messages
  import opened Content
  import opened ReplyBody
  import opened Kasi
  import opened KasiFacts
  import opened KasiInv
  import opened KasiCauses
  import R = ReplyId
  import Tasks

  /** The mail is a reply of run `r` on task `t` as this model has them. */
  ghost predicate ReplyMail(m: Model, t: int, r: int, mail: Mail)
  {
    exists i, link: string, text: string, url: string :: TaskAt(m, t, i) && AsksFor(m, r, link)
      && mail == ReplyFrom(m.tasks.tasks[i], r, Sender(m, m.tasks.tasks[i].route), text + Footer(url, link),
           mail.attachments)
  }

  /** A reply with these contents on this task. */
  function ReplyFrom(task: Tasks.Task, r: int, from: string, body: string, attachments: seq<Part>): Mail
  {
    Mail(from := from, messageID := R.ReplyMessageID(task.id, r, Tasks.Domain(from)),
         inReplyTo := task.lastMessageID, references := task.references, body := body, attachments := attachments)
  }

  /** The row was queued for the run-harvest at offset `n`. */
  ghost predicate QueuedFor(c: Config, log: seq<Envelope<Msg>>, row: OutboxRow, n: nat)
    requires 0 < n <= |log|
  {
    var msg := log[n - 1].msg;
    && msg.RunHarvest? && msg.kind == Reply && msg.task == row.task && row.messageID == row.raw.messageID
    && ReplyMail(Fold(System(c), log[..n - 1]), msg.task, msg.run, row.raw)
  }

  ghost predicate Explained(c: Config, log: seq<Envelope<Msg>>, row: OutboxRow)
  {
    exists n :: 0 < n <= |log| && QueuedFor(c, log, row, n)
  }

  ghost predicate RowsExplained(c: Config, log: seq<Envelope<Msg>>, o: Outbox)
  {
    forall i :: 0 <= i < |o.rows| ==> Explained(c, log, o.rows[i])
  }

  // ---------------------------------------------------------------- one move of edge code

  lemma ExplainedOutlives(c: Config, log: seq<Envelope<Msg>>, more: seq<Envelope<Msg>>, row: OutboxRow)
    requires log <= more && Explained(c, log, row)
    ensures Explained(c, more, row)
  {
    var n :| 0 < n <= |log| && QueuedFor(c, log, row, n);
    assert more[..n - 1] == log[..n - 1] && more[n - 1] == log[n - 1];
    assert QueuedFor(c, more, row, n);
  }

  /** Neither its number nor its mark is part of what a row says. */
  lemma SameRowExplained(c: Config, log: seq<Envelope<Msg>>, row: OutboxRow, row': OutboxRow)
    requires Explained(c, log, row) && row' == row.(id := row'.id, sent := row'.sent)
    ensures Explained(c, log, row')
  {
    var n :| 0 < n <= |log| && QueuedFor(c, log, row, n);
    assert QueuedFor(c, log, row', n);
  }

  /** The row an assembling effect adds is explained by the message that started it. */
  lemma AssembledIsExplained(c: Config, log: seq<Envelope<Msg>>, n: nat, l: Loc, text: string, url: string,
      attachments: seq<Part>)
    requires 0 < n <= |log| && l.Assembling?
    requires Started(Fold(System(c), log[..n - 1]), n, log[n - 1].msg, l)
    ensures Explained(c, log,
      ReplyRow(l.task, l.run, l.from, l.inReplyTo, l.references, text + Footer(url, l.requestLink), attachments))
  {
    var m := Fold(System(c), log[..n - 1]);
    var row :=
      ReplyRow(l.task, l.run, l.from, l.inReplyTo, l.references, text + Footer(url, l.requestLink), attachments);
    var i :| TaskAt(m, l.task, i) && l.from == Sender(m, m.tasks.tasks[i].route)
      && l.inReplyTo == m.tasks.tasks[i].lastMessageID && l.references == m.tasks.tasks[i].references
      && AsksFor(m, l.run, l.requestLink);
    assert row.raw == ReplyFrom(m.tasks.tasks[i], l.run, Sender(m, m.tasks.tasks[i].route),
      text + Footer(url, l.requestLink), row.raw.attachments);
    assert QueuedFor(c, log, row, n);
  }

  lemma AddedExplained(c: Config, log: seq<Envelope<Msg>>, o: Outbox, row: OutboxRow)
    requires RowsExplained(c, log, o) && Explained(c, log, row)
    ensures RowsExplained(c, log, AddOutbox(o, row).0)
  {
    var o' := AddOutbox(o, row).0;
    forall i | 0 <= i < |o'.rows| ensures Explained(c, log, o'.rows[i]) {
      if i < |o.rows| {
        assert o'.rows[i] == o.rows[i];
      } else {
        SameRowExplained(c, log, row, o'.rows[i]);
      }
    }
  }

  lemma MarkedExplained(c: Config, log: seq<Envelope<Msg>>, o: Outbox, x: int)
    requires RowsExplained(c, log, o) && MarkOutboxSent(o, x).Some?
    ensures RowsExplained(c, log, MarkOutboxSent(o, x).value)
  {
    var o' := MarkOutboxSent(o, x).value;
    forall i | 0 <= i < |o'.rows| ensures Explained(c, log, o'.rows[i]) {
      SameRowExplained(c, log, o.rows[i], o'.rows[i]);
    }
  }

  lemma EdgeExplained(c: Config, log: seq<Envelope<Msg>>, n: nat, w: World, l: Loc, cancelled: bool, w': World,
      l': Loc, emit: Option<Msg>)
    requires RowsExplained(c, log, w.outbox) && Edge(c, w, l, cancelled, w', l', emit)
    requires l.Assembling? ==> 0 < n <= |log| && Started(Fold(System(c), log[..n - 1]), n, log[n - 1].msg, l)
    ensures RowsExplained(c, log, w'.outbox)
  {
    if l.Assembling? {
      var text: string, url: string, attachments: seq<Part> :|
        var row := ReplyRow(l.task, l.run, l.from, l.inReplyTo, l.references, text + Footer(url, l.requestLink),
          attachments);
        var (o, id) := AddOutbox(w.outbox, row);
        emit == None && w' == w.(outbox := o) && l' == Queueing(l.task, l.run, id, row.messageID);
      AssembledIsExplained(c, log, n, l, text, url, attachments);
      AddedExplained(c, log, w.outbox,
        ReplyRow(l.task, l.run, l.from, l.inReplyTo, l.references, text + Footer(url, l.requestLink), attachments));
    } else if l.Submitted? {
      MarkedExplained(c, log, w.outbox, l.outboxID);
    } else {
      assert w'.outbox == w.outbox;
    }
  }

  // ---------------------------------------------------------------- every step

  lemma ActExplained(c: Config, s: KState, t: KStep)
    requires Inv(System(c), s) && Traced(System(c), Causes(c), s) && Enabled(System(c), s, t) && t.Act?
    requires RowsExplained(c, s.log, s.world.outbox)
    ensures RowsExplained(c, s.log, t.world.outbox)
  {
    var x := s.slots[t.k];
    assert SlotOK(s.slots, s.running, |s.log|, t.k) && SlotTraced(System(c), Causes(c), s.log, x);
    var n := if x.kind.Effect? then x.kind.cause else 0;
    EdgeExplained(c, s.log, n, s.world, x.run.value, Cancelled(s, t.k), t.world, t.local, t.emit);
  }

  lemma WorldKept(c: Config, s: KState, t: KStep)
    requires Inv(System(c), s) && Enabled(System(c), s, t)
    ensures var r := Next(System(c), s, t);
      s.log <= r.log && r.world.outbox == if t.Act? then t.world.outbox else s.world.outbox
  {
    LogStep(System(c), s, t);
    if !t.Act? && !t.Outside? { OnlyEdgesTouchTheWorld(c, s, t); }
  }

  lemma ExplainedStep(c: Config, s: KState, t: KStep)
    requires Inv(System(c), s) && Traced(System(c), Causes(c), s) && Enabled(System(c), s, t)
    requires RowsExplained(c, s.log, s.world.outbox)
    ensures var r := Next(System(c), s, t); RowsExplained(c, r.log, r.world.outbox)
  {
    var r := Next(System(c), s, t);
    WorldKept(c, s, t);
    if t.Act? { ActExplained(c, s, t); }
    forall i | 0 <= i < |r.world.outbox.rows| ensures Explained(c, r.log, r.world.outbox.rows[i]) {
      ExplainedOutlives(c, s.log, r.log, r.world.outbox.rows[i]);
    }
  }

  lemma ExplainedOverStep(c: Config, states: seq<KState>, steps: seq<KStep>, i: nat)
    requires KRun(c, states, steps) && 0 < i < |states|
    requires RowsExplained(c, states[i - 1].log, states[i - 1].world.outbox)
    ensures RowsExplained(c, states[i].log, states[i].world.outbox)
  {
    RunStep(c, states, steps, i);
    var before := i - 1;
    KeepsToCauses(c);
    RunTraced(System(c), Causes(c), states, steps, before);
    ExplainedStep(c, states[before], steps[before]);
  }

  /** Every row of the outbox, in every state of every run, was queued for a logged run-harvest and says its task. */
  lemma {:induction false} EveryRowIsExplained(c: Config, states: seq<KState>, steps: seq<KStep>, i: nat)
    requires KRun(c, states, steps) && i < |states|
    ensures RowsExplained(c, states[i].log, states[i].world.outbox)
  {
    if i > 0 {
      EveryRowIsExplained(c, states, steps, i - 1);
      ExplainedOverStep(c, states, steps, i);
    }
  }

  /** And so was everything that was ever sent. */
  lemma EverySentMailIsExplained(c: Config, states: seq<KState>, steps: seq<KStep>, i: nat, k: nat)
    requires KRun(c, states, steps) && i < |states| && k < |states[i].world.sent|
    ensures exists row: OutboxRow :: row.raw == states[i].world.sent[k] && Explained(c, states[i].log, row)
  {
    KRunKeeps(c, states, steps, i);
    EveryRowIsExplained(c, states, steps, i);
    var w := states[i].world;
    assert Backed(w, w.sent[k]);
    var x :| HasRow(w.outbox, x, w.sent[k].messageID, w.sent[k]);
    var j :| 0 <= j < |w.outbox.rows| && w.outbox.rows[j].id == x && w.outbox.rows[j].raw == w.sent[k];
    assert Explained(c, states[i].log, w.outbox.rows[j]);
  }
}
