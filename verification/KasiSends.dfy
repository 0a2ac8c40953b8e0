/**
 A reply is submitted at most once per boot: while the process lives, the source that drives a
 submission is started once, and everything downstream of it passes a single token along.
 */
module KasiSends {
  import opened Prelude
  import opened Runtime
  import opened RuntimeProofs
  import opened Ledger
  import opened Messages
  import opened Content
  import opened Kasi
  import opened KasiFacts
  import opened KasiApply
  import opened KasiInv
  import opened KasiReplies
  import S = KasiSources

  // ---------------------------------------------------------------- the token

  function SendMsg(msg: Msg, mid: string): nat
  {
    if msg.SendOutbox? && msg.messageID == mid then 1 else 0
  }

  function SendCmd(cmd: Cmd, mid: string): nat
  {
    if cmd.SendEmail? && cmd.messageID == mid then 1 else 0
  }

  function SendLoc(l: Loc, mid: string): nat
  {
    match l
    case SendBody(_, x) => if x == mid then 1 else 0
    case Sending(_, x) => if x == mid then 1 else 0
    case Emitting(ms) => SendMsgs(ms, mid)
    case _ => 0
  }

  function SendMsgs(ms: seq<Msg>, mid: string): nat
  {
    if ms == [] then 0 else SendMsg(ms[0], mid) + SendMsgs(ms[1..], mid)
  }

  /** One unit per submission of the mail with this Message-ID that is still to come. */
  ghost function Token(mid: string): Weight<Msg, Cmd, Loc>
  {
    Weight((m: Msg) => SendMsg(m, mid), (c: Cmd) => SendCmd(c, mid), (l: Loc) => SendLoc(l, mid))
  }

  /** How often mail with this Message-ID was handed to the mail edge and accepted. */
  function Count(sent: seq<Mail>, mid: string): nat
  {
    if sent == [] then 0 else Count(sent[..|sent| - 1], mid) + if sent[|sent| - 1].messageID == mid then 1 else 0
  }

  /** This boot has already started the source for `mid`, or the reply is known to be sent. */
  ghost predicate Started(m: Model, running: map<SourceId, nat>, mid: string)
  {
    exists i :: 0 <= i < |m.outbox| && m.outbox[i].messageID == mid &&
      (m.outbox[i].sent || SendKey(m.outbox[i].outboxID) in running)
  }

  /** What may still be submitted in this boot. */
  ghost function Budget(s: KState, mid: string): nat
  {
    Tok(s, Token(mid)) + if Started(s.model, s.running, mid) then 0 else 1
  }

  /** What was and what may still be submitted together do not grow. */
  ghost predicate Spends(s: KState, r: KState, mid: string)
  {
    Count(r.world.sent, mid) + Budget(r, mid) <= Count(s.world.sent, mid) + Budget(s, mid)
  }

  /** Every running send source belongs to an entry. */
  ghost predicate SendersKnown(s: KState)
  {
    forall x :: SendKey(x) in s.running ==> KnownRow(s.model, x)
  }

  // ---------------------------------------------------------------- steps other than reconciling

  lemma ApplyPassesToken(m: Model, msg: Msg, offset: int, mid: string)
    ensures OutsTok(ApplyOne(m, msg, offset).1, Token(mid)) <= SendMsg(msg, mid)
  {
    HandlersAnswer(m, msg, offset);
    var outs := ApplyOne(m, msg, offset).1;
    if msg.SendOutbox? && |outs| == 1 {
      OutsTokOne(outs, Token(mid));
    } else {
      OutsTokNone(outs, Token(mid));
    }
  }

  lemma StartedStays(m: Model, msg: Msg, offset: int, running: map<SourceId, nat>, mid: string)
    requires Started(m, running, mid)
    ensures Started(ApplyOne(m, msg, offset).0, running, mid)
  {
    EntriesPersist(m, msg, offset);
    var m' := ApplyOne(m, msg, offset).0;
    var i :| 0 <= i < |m.outbox| && m.outbox[i].messageID == mid &&
      (m.outbox[i].sent || SendKey(m.outbox[i].outboxID) in running);
    assert m'.outbox[i].messageID == mid;
  }

  lemma ApplyBudget(c: Config, s: KState, mid: string)
    requires Inv(System(c), s) && s.live && s.phase.Applying?
    ensures Budget(Next(System(c), s, Apply), mid) <= Budget(s, mid)
  {
    LedgerIsExact(System(c), s, Apply, Token(mid));
    ApplyIs(c, s.model, s.phase.env.msg, |s.log|);
    ApplyPassesToken(s.model, s.phase.env.msg, |s.log|, mid);
    if Started(s.model, s.running, mid) {
      StartedStays(s.model, s.phase.env.msg, |s.log|, s.running, mid);
    }
  }

  /** A step of edge code either passes the token on or spends it on one submission. */
  lemma EdgeSpends(c: Config, w: World, m: Model, l: Loc, cancelled: bool, w': World, l': Loc, emit: Option<Msg>,
      mid: string)
    requires WorldOK(w) && LocOK(c, w, m, l) && Edge(c, w, l, cancelled, w', l', emit)
    ensures SendLoc(l', mid) + (if emit.Some? then SendMsg(emit.value, mid) else 0) +
      Count(w'.sent, mid) <= SendLoc(l, mid) + Count(w.sent, mid)
  {
    if l.Sending? {
      SubmitSpends(c, w, m, l, cancelled, w', l', emit, mid);
    } else if l.CapturingMemory? {
      DirectivesSendNothing(c, w, l, cancelled, w', l', emit, mid);
    } else {
      EdgePasses(c, w, l, cancelled, w', l', emit, mid);
    }
  }

  lemma DirectivesSendNothing(c: Config, w: World, l: Loc, cancelled: bool, w': World, l': Loc, emit: Option<Msg>,
      mid: string)
    requires Edge(c, w, l, cancelled, w', l', emit) && l.CapturingMemory?
    ensures w' == w && emit == None && SendLoc(l', mid) == 0
  {
    var ms: seq<Msg> :| l' == Emitting(ms + [MarkHarvested(l.run, Memory)]) && forall i :: 0 <= i < |ms| ==>
      MemoryDirective(ms[i]);
    NoSends(l'.msgs, mid);
  }

  lemma SubmitSpends(c: Config, w: World, m: Model, l: Loc, cancelled: bool, w': World, l': Loc, emit: Option<Msg>,
      mid: string)
    requires WorldOK(w) && LocOK(c, w, m, l) && Edge(c, w, l, cancelled, w', l', emit) && l.Sending?
    ensures l' == Submitted(l.outboxID, l.messageID) && emit == None
    ensures Count(w'.sent, mid) == Count(w.sent, mid) + (if l.messageID == mid then 1 else 0)
  {
    SubmitStep(c, w, m, l, cancelled, w', l', emit);
    assert w'.sent[..|w.sent|] == w.sent;
  }

  lemma EdgePasses(c: Config, w: World, l: Loc, cancelled: bool, w': World, l': Loc, emit: Option<Msg>, mid: string)
    requires Edge(c, w, l, cancelled, w', l', emit) && !l.Sending? && !l.CapturingMemory?
    ensures w'.sent == w.sent
    ensures SendLoc(l', mid) + (if emit.Some? then SendMsg(emit.value, mid) else 0) <= SendLoc(l, mid)
  {
    if l'.Emitting? && !l.Emitting? {
      NoSends(l'.msgs, mid);
    }
  }

  lemma {:induction false} NoSends(ms: seq<Msg>, mid: string)
    requires forall i :: 0 <= i < |ms| ==> !ms[i].SendOutbox?
    ensures SendMsgs(ms, mid) == 0
  {
    if ms != [] {
      NoSends(ms[1..], mid);
    }
  }

  lemma ActBudget(c: Config, s: KState, t: KStep, mid: string)
    requires KInv(c, s) && Enabled(System(c), s, t) && t.Act?
    ensures Spends(s, Next(System(c), s, t), mid)
  {
    LedgerIsExact(System(c), s, t, Token(mid));
    ActSpends(c, s, t, mid);
    NothingReconciled(System(c), s, t);
  }

  lemma ActSpends(c: Config, s: KState, t: KStep, mid: string)
    requires KInv(c, s) && Enabled(System(c), s, t) && t.Act?
    ensures Change(System(c), s, t, Token(mid)) + Count(t.world.sent, mid) <= Count(s.world.sent, mid)
  {
    assert SlotGood(s.slots[t.k], Goods(c, s.world, Denotes(c, s)));
    EdgeSpends(c, s.world, Denotes(c, s), s.slots[t.k].run.value, Cancelled(s, t.k), t.world, t.local, t.emit, mid);
  }

  // ---------------------------------------------------------------- reconciling

  /** Starting sources brings a token for `mid` only if this boot had not started it before. */
  lemma DiffBudget(c: Config, s: KState, t: KStep, mid: string)
    requires KInv(c, s) && SendersKnown(s) && Enabled(System(c), s, t) && (t.Diff? || t.BootDiff?)
    ensures Budget(Next(System(c), s, t), mid) <= Budget(s, mid)
  {
    ReconcileShape(System(c), s, t);
    LedgerIsExact(System(c), s, t, Token(mid));
    var r := Next(System(c), s, t);
    StartsAgainstStarted(c, s.world, s.model, |Folded(s)|, t.added, s.running, r.running, mid);
  }

  lemma StartsAgainstStarted(c: Config, w: World, m: Model, n: nat, added: seq<SourceId>, running: map<SourceId, nat>,
      running': map<SourceId, nat>, mid: string)
    requires ModelOK(c, w, m, n) && running'.Keys == Sources(m).Keys
    requires forall i, j :: 0 <= i < j < |added| ==> added[i] != added[j]
    requires forall id :: id in added ==> id in running' && id !in running
    ensures StartsTok(added, Sources(m), Token(mid)) + (if Started(m, running', mid) then 0
      else 1) <= if Started(m, running, mid) then 0 else 1
  {
    StartsCarry(c, w, m, n, added, mid);
    if StartsTok(added, Sources(m), Token(mid)) == 1 {
      var i :| 0 <= i < |added| && StartTok(added[i], Sources(m), Token(mid)) == 1;
      assert added[i] in added;
      BringsEntry(c, w, m, n, added[i], mid);
      StartsUnstarted(c, w, m, n, running, added[i], mid);
    } else if Started(m, running, mid) {
      StartedSurvives(c, w, m, n, running, running', mid);
    }
  }

  /** A started source brings the token exactly when it sends `mid`. */
  lemma BringsEntry(c: Config, w: World, m: Model, n: nat, id: SourceId, mid: string)
    requires ModelOK(c, w, m, n) && StartTok(id, Sources(m), Token(mid)) != 0
    ensures id.SendKey? && id in Sources(m)
    ensures exists i ::
      && 0 <= i < |m.outbox| && m.outbox[i].messageID == mid
      && m.outbox[i].outboxID == id.outboxID && !m.outbox[i].sent
  {
    StartsAtBody(m, id);
    match id
    case HarvestKey(kind, r) => S.HarvestDeclared(m, kind, r);
    case SendKey(x) =>
      S.SendDeclared(m, x);
      var i :| 0 <= i < |m.outbox| && S.EntrySource(m.outbox[i], id, Sources(m)[id]);
      assert m.outbox[i].messageID == mid;
    case _ => S.RunDeclared(m, id);
  }

  lemma StartsUnstarted(c: Config, w: World, m: Model, n: nat, running: map<SourceId, nat>, id: SourceId, mid: string)
    requires ModelOK(c, w, m, n) && StartTok(id, Sources(m), Token(mid)) != 0 && id !in running
    ensures !Started(m, running, mid)
  {
    BringsEntry(c, w, m, n, id, mid);
  }

  lemma SameSender(c: Config, w: World, m: Model, n: nat, a: SourceId, b: SourceId, mid: string)
    requires ModelOK(c, w, m, n) && StartTok(a, Sources(m), Token(mid)) != 0 && StartTok(b, Sources(m), Token(mid)) != 0
    ensures a == b
  {
    BringsEntry(c, w, m, n, a, mid);
    BringsEntry(c, w, m, n, b, mid);
  }

  /** At most one of the added sources brings the token. */
  lemma {:induction false} StartsCarry(c: Config, w: World, m: Model, n: nat, added: seq<SourceId>, mid: string)
    requires ModelOK(c, w, m, n)
    requires forall i, j :: 0 <= i < j < |added| ==> added[i] != added[j]
    ensures StartsTok(added, Sources(m), Token(mid)) <= 1
    ensures StartsTok(added, Sources(m), Token(mid)) == 1 ==>
      exists i :: 0 <= i < |added| && StartTok(added[i], Sources(m), Token(mid)) == 1
  {
    if added != [] {
      var front, id := added[..|added| - 1], added[|added| - 1];
      assert forall i :: 0 <= i < |front| ==> added[i] == front[i];
      StartsCarry(c, w, m, n, front, mid);
      assert StartsTok(added, Sources(m), Token(mid)) == StartsTok(front, Sources(m), Token(mid)) +
        StartTok(id, Sources(m), Token(mid));
      if StartTok(id, Sources(m), Token(mid)) != 0 {
        BringsEntry(c, w, m, n, id, mid);
        StartsAtBody(m, id);
        if StartsTok(front, Sources(m), Token(mid)) == 1 {
          var i :| 0 <= i < |front| && StartTok(front[i], Sources(m), Token(mid)) == 1;
          BringsEntry(c, w, m, n, front[i], mid);
          SameSender(c, w, m, n, id, front[i], mid);
        }
      }
    }
  }

  /** A send source leaves the running set only when its entry is sent. */
  lemma StartedSurvives(c: Config, w: World, m: Model, n: nat, running: map<SourceId, nat>,
      running': map<SourceId, nat>, mid: string)
    requires ModelOK(c, w, m, n) && Started(m, running, mid) && running'.Keys == Sources(m).Keys
    ensures Started(m, running', mid)
  {
    var i :| 0 <= i < |m.outbox| && m.outbox[i].messageID == mid &&
      (m.outbox[i].sent || SendKey(m.outbox[i].outboxID) in running);
    if !m.outbox[i].sent {
      S.SendDeclared(m, m.outbox[i].outboxID);
      assert SendKey(m.outbox[i].outboxID) in running'.Keys;
    }
  }

  // ---------------------------------------------------------------- every step

  lemma BudgetStep(c: Config, s: KState, t: KStep, mid: string)
    requires KInv(c, s) && SendersKnown(s) && Enabled(System(c), s, t) && !t.Crash? && !t.Restart?
    ensures Spends(s, Next(System(c), s, t), mid)
  {
    if t.Act? {
      ActBudget(c, s, t, mid);
    } else if t.Apply? {
      ApplyBudget(c, s, mid);
    } else if t.Diff? || t.BootDiff? {
      ReconcileMeansDeclared(System(c), s, t.gone, t.added);
      DiffBudget(c, s, t, mid);
    } else {
      IdleBudget(c, s, t, mid);
    }
  }

  lemma PlumbingChange(c: Config, s: KState, t: KStep, mid: string)
    requires Enabled(System(c), s, t) && Plumbing(t)
    ensures Change(System(c), s, t, Token(mid)) <= 0
  {
    if t.Interpret? && s.phase.todo[0].Do? {
      assert SendLoc(Begin(s.phase.todo[0].cmd), mid) == SendCmd(s.phase.todo[0].cmd, mid);
    }
  }

  /** Steps that carry no token anywhere: the front door, plumbing, returns, the outside. */
  lemma IdleBudget(c: Config, s: KState, t: KStep, mid: string)
    requires Inv(System(c), s) && Enabled(System(c), s, t) && (Plumbing(t) || t.Outside?)
    ensures var r := Next(System(c), s, t); r.world.sent == s.world.sent && Budget(r, mid) <= Budget(s, mid)
  {
    LedgerIsExact(System(c), s, t, Token(mid));
    if Plumbing(t) {
      PlumbingShape(System(c), s, t);
      PlumbingChange(c, s, t, mid);
    }
  }

  ghost predicate KnownRow(m: Model, x: int)
  {
    exists i :: 0 <= i < |m.outbox| && m.outbox[i].outboxID == x
  }

  lemma KnownRowStays(m: Model, msg: Msg, offset: int, x: int)
    requires KnownRow(m, x)
    ensures KnownRow(ApplyOne(m, msg, offset).0, x)
  {
    EntriesPersist(m, msg, offset);
    var i :| 0 <= i < |m.outbox| && m.outbox[i].outboxID == x;
    assert ApplyOne(m, msg, offset).0.outbox[i].outboxID == x;
  }

  lemma SendersKnownApply(c: Config, s: KState)
    requires SendersKnown(s) && s.live && s.phase.Applying?
    ensures SendersKnown(Next(System(c), s, Apply))
  {
    ApplyIs(c, s.model, s.phase.env.msg, |s.log|);
    forall x | SendKey(x) in s.running ensures KnownRow(ApplyOne(s.model, s.phase.env.msg, |s.log|).0, x) {
      KnownRowStays(s.model, s.phase.env.msg, |s.log|, x);
    }
  }

  lemma SendersKnownDiff(c: Config, s: KState, t: KStep)
    requires Inv(System(c), s) && Enabled(System(c), s, t) && (t.Diff? || t.BootDiff?)
    ensures SendersKnown(Next(System(c), s, t))
  {
    ReconcileMeansDeclared(System(c), s, t.gone, t.added);
    var r := Next(System(c), s, t);
    forall x | SendKey(x) in r.running ensures KnownRow(r.model, x) {
      S.SendDeclared(s.model, x);
    }
  }

  lemma SendersKnownStep(c: Config, s: KState, t: KStep)
    requires Inv(System(c), s) && SendersKnown(s) && Enabled(System(c), s, t)
    ensures SendersKnown(Next(System(c), s, t))
  {
    if t.Diff? || t.BootDiff? {
      SendersKnownDiff(c, s, t);
    } else if t.Apply? {
      SendersKnownApply(c, s);
    } else if Plumbing(t) {
      PlumbingShape(System(c), s, t);
    }
  }

  /** Per boot at most one submission is left; over all boots, no more than boots. */
  ghost predicate SendInv(s: KState)
  {
    && SendersKnown(s)
    && (s.live ==> forall mid :: Budget(s, mid) <= 1)
    && (forall mid :: Count(s.world.sent, mid) + (if s.live then Budget(s, mid) else 0) <= s.boots)
  }

  lemma SendInvStep(c: Config, s: KState, t: KStep)
    requires KInv(c, s) && SendInv(s) && Enabled(System(c), s, t)
    ensures SendInv(Next(System(c), s, t))
  {
    var r := Next(System(c), s, t);
    SendersKnownStep(c, s, t);
    BootsStep(c, s, t);
    forall mid ensures r.live ==> Budget(r, mid) <= 1
      ensures Count(r.world.sent, mid) + (if r.live then Budget(r, mid) else 0) <= r.boots
    {
      if t.Restart? {
        DeadIsEmpty(System(c), s, Token(mid));
        LedgerIsExact(System(c), s, t, Token(mid));
      } else if !t.Crash? && s.live {
        BudgetStep(c, s, t, mid);
        SentGrows(c, s, t, mid);
      }
    }
  }

  /** Only a restart counts as a boot, and only a crash or a restart changes liveness. */
  lemma BootsStep(c: Config, s: KState, t: KStep)
    requires Inv(System(c), s) && Enabled(System(c), s, t)
    ensures var r := Next(System(c), s, t);
      && r.boots == s.boots + (if t.Restart? then 1 else 0)
      && (t.Crash? ==> !r.live && r.world == s.world) && (t.Restart? ==> r.live && !s.live && r.world == s.world)
      && (!t.Crash? && !t.Restart? ==> r.live == s.live)
      && (t.Outside? ==> r.world.sent == s.world.sent)
      && (!s.live ==> t.Restart? || t.Outside?)
  {
    if t.Diff? || t.BootDiff? {
      ReconcileMeansDeclared(System(c), s, t.gone, t.added);
    }
  }

  lemma {:induction false} CountGrows(a: seq<Mail>, b: seq<Mail>, mid: string)
    requires a <= b
    ensures Count(a, mid) <= Count(b, mid)
  {
    if a != b {
      assert a <= b[..|b| - 1];
      CountGrows(a, b[..|b| - 1], mid);
    }
  }

  lemma SentGrows(c: Config, s: KState, t: KStep, mid: string)
    requires KInv(c, s) && Enabled(System(c), s, t)
    ensures Count(s.world.sent, mid) <= Count(Next(System(c), s, t).world.sent, mid)
  {
    StepWorld(c, s, t);
    CountGrows(s.world.sent, Next(System(c), s, t).world.sent, mid);
  }

  lemma {:induction false} RunSends(c: Config, states: seq<KState>, steps: seq<KStep>, i: nat)
    requires KRun(c, states, steps) && i < |states|
    ensures SendInv(states[i])
  {
    if i > 0 {
      RunSends(c, states, steps, i - 1);
      SendsOverStep(c, states, steps, i);
    }
  }

  lemma RunKnowsSenders(c: Config, states: seq<KState>, steps: seq<KStep>, i: nat)
    requires KRun(c, states, steps) && i < |states|
    ensures SendersKnown(states[i])
  {
    RunSends(c, states, steps, i);
  }

  lemma SendsOverStep(c: Config, states: seq<KState>, steps: seq<KStep>, i: nat)
    requires KRun(c, states, steps) && 0 < i < |states| && SendInv(states[i - 1])
    ensures SendInv(states[i])
  {
    RunStep(c, states, steps, i);
    SendInvStep(c, states[i - 1], steps[i - 1]);
  }

  /** In total a reply is submitted at most once per boot: no more than 1 + restarts times. */
  lemma SubmissionsBoundedByBoots(c: Config, states: seq<KState>, steps: seq<KStep>, i: nat, mid: string)
    requires KRun(c, states, steps) && i < |states|
    ensures Count(states[i].world.sent, mid) <= states[i].boots
  {
    RunSends(c, states, steps, i);
  }

  lemma {:induction false} BudgetOverBoot(c: Config, states: seq<KState>, steps: seq<KStep>, i: nat, j: nat,
      mid: string)
    requires KRun(c, states, steps) && i <= j < |states| && states[i].live
    requires NoCrash(steps, i, j)
    ensures states[j].live && Spends(states[i], states[j], mid)
    decreases j
  {
    if i < j {
      BudgetOverBoot(c, states, steps, i, j - 1, mid);
      BudgetOverStep(c, states, steps, j, mid);
    }
  }

  lemma BudgetWithinBoot(c: Config, s: KState, t: KStep, r: KState, mid: string)
    requires KInv(c, s) && SendersKnown(s) && Enabled(System(c), s, t) && r == Next(System(c), s, t)
    requires s.live && !t.Crash?
    ensures r.live && Spends(s, r, mid)
  {
    BootsStep(c, s, t);
    BudgetStep(c, s, t, mid);
  }

  lemma {:induction false} BudgetOverStep(c: Config, states: seq<KState>, steps: seq<KStep>, j: nat, mid: string)
    requires KRun(c, states, steps) && 0 < j < |states| && states[j - 1].live && !steps[j - 1].Crash?
    ensures states[j].live && Spends(states[j - 1], states[j], mid)
  {
    var before := j - 1;
    RunKnowsSenders(c, states, steps, before);
    RunStep(c, states, steps, j);
    BudgetWithinBoot(c, states[before], steps[before], states[j], mid);
  }

  /** Between two crashes the mail with a given Message-ID is submitted at most once. */
  lemma AtMostOncePerBoot(c: Config, states: seq<KState>, steps: seq<KStep>, i: nat, j: nat, mid: string)
    requires KRun(c, states, steps) && i <= j < |states| && states[i].live
    requires NoCrash(steps, i, j)
    ensures Count(states[j].world.sent, mid) <= Count(states[i].world.sent, mid) + 1
  {
    BudgetOverBoot(c, states, steps, i, j, mid);
    RunSends(c, states, steps, i);
  }
}
