/**
 The effects of the reply chain as the code runs them: loops, writes and emissions in order. Each is
 shown to make exactly the moves the machine's edge relation allows, in the order it allows them.
 */
module Effects {
  import opened Prelude
  import opened Messages
  import opened Content
  import opened ContentStore
  import opened SimMail
  import opened ReplyBody
  import opened ArchiveProofs
  import opened Kasi
  import opened Chains
  import R = ReplyId
  import Tasks

  // ---------------------------------------------------------------- the world the effects work on

  /** The durable world these objects make up. */
  ghost function WorldOf(content: MemoryContent, mail: Transmitter, transcripts: map<(int, int), Bytes>): World
    reads content, mail
  {
    World(content.OutboxValue(), content.ArchiveValue(), mail.sent, transcripts)
  }

  // ---------------------------------------------------------------- assemble-reply

  /** Split what was harvested into the body and the attachments. */
  method SortParts(parts: seq<Part>) returns (body: string, attachments: seq<Part>)
    ensures body == ReplyText(parts) && attachments == Riders(parts)
    ensures IsReply(parts, body) && InOrder(parts, attachments)
  {
    body, attachments := "", [];
    for i := 0 to |parts|
      invariant body == ReplyText(parts[..i]) && attachments == Riders(parts[..i])
    {
      assert parts[..i + 1][..i] == parts[..i];
      var part := parts[i];
      if part.filename == "reply.txt" {
        body := Text(part.bytes);
        continue;
      }
      if part.filename == "request.json" {
        continue;
      }
      if '/' in part.filename {
        continue;
      }
      attachments := attachments + [part];
    }
    assert parts[..|parts|] == parts;
    ReplyTextIs(parts);
    ghost var at := RidersInOrder(parts);
  }

  method WithFooter(text: string, completionURL: string, requestLink: string) returns (body: string)
    ensures body == text + Footer(completionURL, requestLink)
  {
    body := text + (DONE_MARK + (completionURL + "\n"));
    if requestLink != "" {
      body := body + (ASK_MARK + (requestLink + "\n"));
    }
    FooterInParts(text, completionURL, Asking(requestLink));
  }

  /** The mail says what the agent wrote, with the links under it, and carries the files that ride along. */
  ghost predicate Says(mail: Mail, parts: seq<Part>, completionURL: string, requestLink: string)
  {
    && (exists text :: IsReply(parts, text) && mail.body == text + Footer(completionURL, requestLink))
    && InOrder(parts, mail.attachments)
  }

  /** Row `id` is the reply's: there before under its Message-ID, or added now, from and for whom it should be. */
  ghost predicate QueuesReply(o: Outbox, o': Outbox, id: int, task: int, run: int, from: string, inReplyTo: string,
      references: seq<string>, parts: seq<Part>, completionURL: string, requestLink: string)
  {
    var messageID := R.ReplyMessageID(task, run, Tasks.Domain(from));
    if exists i :: 0 <= i < |o.rows| && o.rows[i].messageID == messageID then
      o' == o && exists i :: 0 <= i < |o.rows| && o.rows[i].messageID == messageID && o.rows[i].id == id
    else
      && |o'.rows| == |o.rows| + 1 && o.rows <= o'.rows
      && var row := o'.rows[|o.rows|];
      && row.id == id && row.task == task && row.messageID == messageID && !row.sent
      && row.raw.from == from && row.raw.messageID == messageID && row.raw.inReplyTo == inReplyTo
      && row.raw.references == references && Says(row.raw, parts, completionURL, requestLink)
  }

  lemma AddedRowSays(o: Outbox, task: int, run: int, from: string, inReplyTo: string, references: seq<string>,
      parts: seq<Part>, completionURL: string, requestLink: string)
    ensures var row := ReplyRow(task, run, from, inReplyTo, references,
        ReplyText(parts) + Footer(completionURL, requestLink), Riders(parts));
      var (o', id) := AddOutbox(o, row);
      QueuesReply(o, o', id, task, run, from, inReplyTo, references, parts, completionURL, requestLink)
  {
    ReplyTextIs(parts);
    var at := RidersInOrder(parts);
    var row := ReplyRow(task, run, from, inReplyTo, references,
      ReplyText(parts) + Footer(completionURL, requestLink), Riders(parts));
    assert row.messageID[0] == '<';
    assert Says(row.raw, parts, completionURL, requestLink);
  }

  /**
   Queue the reply, then announce it, then discharge the job. A failed harvest or link leaves
   everything as it was and emits nothing.
   */
  method AssembleReply(ghost c: Config, content: MemoryContent, ghost mail: Transmitter,
      ghost transcripts: map<(int, int), Bytes>,
                       parts: Option<seq<Part>>, task: int, run: int, from: string, inReplyTo: string,
                         references: seq<string>,
                       completionURL: Option<string>, requestLink: string)
    returns (emits: seq<Msg>, ghost moves: seq<Move>)
    modifies content
    ensures parts.None? || completionURL.None? ==>
      emits == [] && WorldOf(content, mail, transcripts) == old(WorldOf(content, mail, transcripts))
    ensures parts.Some? && completionURL.Some? ==>
      && Moves(c, old(WorldOf(content, mail, transcripts)),
           Assembling(task, run, from, inReplyTo, references, requestLink), moves)
      && |moves| == 3 && moves[2].world == WorldOf(content, mail, transcripts) && moves[2].loc == Inert &&
           emits == Emitted(moves)
    ensures parts.Some? && completionURL.Some? ==>
      && |emits| == 2 && emits[0].MarkReplyQueued? && emits[0].task == task
      && emits[0].messageID == R.ReplyMessageID(task, run, Tasks.Domain(from)) && emits[1] == MarkHarvested(run, Reply)
      && QueuesReply(old(content.OutboxValue()), content.OutboxValue(), emits[0].outboxID, task, run, from, inReplyTo,
           references, parts.value, completionURL.value, requestLink)
  {
    moves := [];
    if parts.None? {
      return [], moves;
    }
    var body, attachments := SortParts(parts.value);
    if completionURL.None? {
      return [], moves;
    }
    ghost var text := body;
    body := WithFooter(body, completionURL.value, requestLink);
    ghost var w := WorldOf(content, mail, transcripts);
    var id, messageID := QueueReply(content, parts.value, task, run, from, inReplyTo, references, body, attachments,
      completionURL.value, requestLink);
    emits := [MarkReplyQueued(task, id, messageID)];
    emits := emits + [MarkHarvested(run, Reply)];
    moves := QueueingMoves(c, w, WorldOf(content, mail, transcripts),
      Assembling(task, run, from, inReplyTo, references, requestLink), text, completionURL.value, attachments, id);
  }

  /** Write the outbox row under the reply's Message-ID. */
  method QueueReply(content: MemoryContent, ghost parts: seq<Part>, task: int, run: int, from: string,
      inReplyTo: string, references: seq<string>, body: string, attachments: seq<Part>, ghost completionURL: string,
      ghost requestLink: string)
    returns (id: int, messageID: string)
    requires body == ReplyText(parts) + Footer(completionURL, requestLink) && attachments == Riders(parts)
    modifies content
    ensures messageID == R.ReplyMessageID(task, run, Tasks.Domain(from))
    ensures (content.OutboxValue(), id) ==
      AddOutbox(old(content.OutboxValue()), ReplyRow(task, run, from, inReplyTo, references, body, attachments))
    ensures content.ArchiveValue() == old(content.ArchiveValue())
    ensures QueuesReply(old(content.OutboxValue()), content.OutboxValue(), id, task, run, from, inReplyTo, references,
      parts, completionURL, requestLink)
  {
    messageID := R.ReplyMessageID(task, run, Tasks.Domain(from));
    var row := OutboxRow(0, task, messageID, Mail(from, messageID, inReplyTo, references, body, attachments), false);
    AddedRowSays(content.OutboxValue(), task, run, from, inReplyTo, references, parts, completionURL, requestLink);
    id := content.AddOutbox(row);
  }

  /** Queue, announce, discharge: the moves of an assembled reply. */
  lemma QueueingMoves(c: Config, w: World, w': World, l: Loc, text: string, url: string, attachments: seq<Part>,
      id: int) returns (moves: seq<Move>)
    requires l.Assembling?
    requires var row := ReplyRow(l.task, l.run, l.from, l.inReplyTo, l.references, text + Footer(url, l.requestLink),
        attachments);
      (w'.outbox, id) == AddOutbox(w.outbox, row) && w' == w.(outbox := w'.outbox)
    ensures Moves(c, w, l, moves) && |moves| == 3 && moves[2].world == w' && moves[2].loc == Inert
    ensures Emitted(moves) ==
      [MarkReplyQueued(l.task, id, R.ReplyMessageID(l.task, l.run, Tasks.Domain(l.from))), MarkHarvested(l.run, Reply)]
  {
    var messageID := R.ReplyMessageID(l.task, l.run, Tasks.Domain(l.from));
    moves := [Move(w', Queueing(l.task, l.run, id, messageID), None),
              Move(w', Discharging(l.task, l.run, id, messageID), Some(MarkReplyQueued(l.task, id, messageID))),
              Move(w', Inert, Some(MarkHarvested(l.run, Reply)))];
    assert Edge(c, w, l, false, w', moves[0].loc, None);
    ThreeMoves(c, w, l, moves);
  }

  /** The manifest names these files. */
  ghost predicate Names(manifest: seq<string>, parts: seq<Part>)
  {
    |manifest| == |parts| && forall i :: 0 <= i < |parts| ==> manifest[i] == parts[i].filename
  }

  /**
   A manifest promises a reply exactly if assembling finds a body, and a request exactly if minting finds a form
   spec: neither effect is driven in vain.
   */
  lemma ManifestPromises(manifest: seq<string>, parts: seq<Part>)
    requires Names(manifest, parts)
    ensures Tasks.HasReply(manifest) <==> exists i :: LastReply(parts, i)
    ensures Tasks.HasRequest(manifest) <==> exists i :: 0 <= i < |parts| && parts[i].filename == "request.json"
  {
    if Tasks.HasReply(manifest) {
      var i := LastReplyFound(parts);
    }
  }

  lemma {:induction false} LastReplyFound(parts: seq<Part>) returns (i: int)
    requires exists j :: 0 <= j < |parts| && parts[j].filename == "reply.txt"
    ensures LastReply(parts, i)
  {
    var n := |parts| - 1;
    if parts[n].filename == "reply.txt" {
      i := n;
    } else {
      i := LastReplyFound(parts[..n]);
    }
  }

  // ---------------------------------------------------------------- send-email

  /** Submit the row's bytes, mark the row, announce it. A failed send leaves the row for the next boot. */
  method SendEmail(ghost c: Config, content: MemoryContent, mail: Transmitter, ghost transcripts: map<(int, int),
      Bytes>,
                   known: bool, outboxID: int, messageID: string)
    returns (emits: seq<Msg>, ghost moves: seq<Move>)
    modifies content, mail
    ensures var row := FindOutbox(old(content.OutboxValue()), outboxID);
      if row.Some? && known && old(mail.failSend) <= 0 then
        && emits == [MarkEmailSent(outboxID)] && mail.sent == old(mail.sent) + [row.value.raw]
        && MarkOutboxSent(old(content.OutboxValue()), outboxID) == Some(content.OutboxValue())
        && Moves(c, old(WorldOf(content, mail, transcripts)), Sending(outboxID, messageID), moves)
        && |moves| == 3 && moves[2].world == WorldOf(content, mail, transcripts) && Emitted(moves) == emits
      else
        emits == [] && WorldOf(content, mail, transcripts) == old(WorldOf(content, mail, transcripts))
  {
    moves := [];
    var row := content.FindRow(outboxID);
    if row.None? || !known {
      return [], moves;
    }
    ghost var w := WorldOf(content, mail, transcripts);
    var submitted := mail.Submit(row.value.raw);
    if !submitted {
      return [], moves;
    }
    ghost var w1 := WorldOf(content, mail, transcripts);
    var marked := content.MarkOutboxSent(outboxID);
    if !marked {
      assert false;
      return [], moves;
    }
    emits := [MarkEmailSent(outboxID)];
    ghost var w2 := WorldOf(content, mail, transcripts);
    moves := [Move(w1, Submitted(outboxID, messageID), None),
              Move(w2, Emitting([MarkEmailSent(outboxID)]), None),
              Move(w2, Emitting([]), Some(MarkEmailSent(outboxID)))];
    ThreeMoves(c, w, Sending(outboxID, messageID), moves);
  }

  // ---------------------------------------------------------------- capture-transcript

  /** The listing has this run's transcript, with these bytes. */
  ghost predicate ListsTranscript(rows: seq<ArchiveRow>, task: int, run: int, bytes: Bytes)
  {
    exists row ::
      && row in rows && row.task == task && row.run == run && row.kind == "transcript"
      && row.filename == "transcript-" + R.ItoaOf(run) + ".jsonl" && row.bytes == bytes
  }

  /** Storing a transcript nobody stored before makes the task's listing show it. */
  lemma StoredTranscriptListed(a: Archive, task: int, run: int, bytes: Bytes, hash: Bytes -> string)
    requires GoodHash(hash) && ArchiveOK(a, hash) && a.failing == 0 && NewFile(a, TranscriptRow(task, run, bytes))
    ensures var a' := AddArchive(a, TranscriptRow(task, run, bytes), hash).0;
      ListsTranscript(ArchiveByTask(a', task), task, run, bytes)
  {
    AddedIsListed(a, TranscriptRow(task, run, bytes), hash);
  }

  /** Archive the transcript, and only then discharge the job. */
  method CaptureTranscript(ghost c: Config, content: MemoryContent, ghost mail: Transmitter,
      ghost transcripts: map<(int, int), Bytes>, transcript: Option<Bytes>, task: int, run: int)
    returns (emits: seq<Msg>, ghost moves: seq<Move>)
    requires content.hash == c.hash
    requires transcript == if (task, run) in transcripts then Some(transcripts[(task, run)]) else None
    modifies content
    ensures transcript.None? ==>
      emits == [] && WorldOf(content, mail, transcripts) == old(WorldOf(content, mail, transcripts))
    ensures transcript.Some? && old(content.failAddArchive) > 0 ==>
      emits == [] && OutsideStep(old(WorldOf(content, mail, transcripts)), WorldOf(content, mail, transcripts))
    ensures transcript.Some? && old(content.failAddArchive) == 0 ==>
      && emits == [MarkHarvested(run, Transcript)]
      && Moves(c, old(WorldOf(content, mail, transcripts)), Capturing(task, run), moves)
      && |moves| == 3 && moves[2].world == WorldOf(content, mail, transcripts) && Emitted(moves) == emits
    ensures transcript.Some? && old(content.failAddArchive) == 0 ==>
      GoodHash(c.hash) && ArchiveOK(old(content.ArchiveValue()), c.hash) &&
      NewFile(old(content.ArchiveValue()), TranscriptRow(task, run, transcript.value)) ==>
        ListsTranscript(ArchiveByTask(content.ArchiveValue(), task), task, run, transcript.value)
  {
    moves := [];
    if transcript.None? {
      return [], moves;
    }
    ghost var w := WorldOf(content, mail, transcripts);
    var id := content.AddArchive(TranscriptRow(task, run, transcript.value));
    if id.None? {
      return [], moves;
    }
    emits := [MarkHarvested(run, Transcript)];
    if GoodHash(c.hash) && ArchiveOK(w.archive, c.hash) &&
      NewFile(w.archive, TranscriptRow(task, run, transcript.value)) {
      StoredTranscriptListed(w.archive, task, run, transcript.value, c.hash);
    }
    moves := CapturingMoves(c, w, WorldOf(content, mail, transcripts), task, run);
  }

  lemma CapturingMoves(c: Config, w: World, w': World, task: int, run: int) returns (moves: seq<Move>)
    requires (task, run) in w.transcripts && w.archive.failing == 0
    requires w' == w.(archive := AddArchive(w.archive, TranscriptRow(task, run, w.transcripts[(task, run)]), c.hash).0)
    ensures Moves(c, w, Capturing(task, run), moves) && |moves| == 3 && moves[2].world == w'
    ensures Emitted(moves) == [MarkHarvested(run, Transcript)]
  {
    moves := [Move(w, Captured(task, run, w.transcripts[(task, run)]), None),
              Move(w', Emitting([MarkHarvested(run, Transcript)]), None),
              Move(w', Emitting([]), Some(MarkHarvested(run, Transcript)))];
    ThreeMoves(c, w, Capturing(task, run), moves);
  }

  // ---------------------------------------------------------------- mint-ui-request

  /** Find the form spec; without one there is nothing to mint. */
  method MintUIRequest(ghost c: Config, ghost w: World, parts: Option<seq<Part>>, task: int, run: int,
      link: Option<string>)
    returns (emits: seq<Msg>, spec: Bytes, ghost moves: seq<Move>)
    ensures emits != [] <==>
      parts.Some? && link.Some? && exists i :: 0 <= i < |parts.value| && parts.value[i].filename == "request.json"
    ensures emits != [] ==>
      var i := FirstIndex(parts.value, (p: Part) => p.filename == "request.json");
      && i < |parts.value| && spec == parts.value[i].bytes && emits == [RegisterUIRequest(task, run, link.value)]
      && Moves(c, w, Minting(task, run), moves) && Emitted(moves) == emits
  {
    moves, spec := [], [];
    if parts.None? {
      return [], spec, moves;
    }
    ghost var isSpec := (p: Part) => p.filename == "request.json";
    var found := false;
    for i := 0 to |parts.value|
      invariant !found && forall j :: 0 <= j < i ==> parts.value[j].filename != "request.json"
    {
      if parts.value[i].filename == "request.json" {
        spec, found := parts.value[i].bytes, true;
        assert FirstIndex(parts.value, isSpec) == i;
        break;
      }
    }
    if !found || link.None? {
      return [], spec, moves;
    }
    emits := [RegisterUIRequest(task, run, link.value)];
    moves := [Move(w, Emitting(emits), None), Move(w, Emitting([]), Some(RegisterUIRequest(task, run, link.value)))];
    assert moves[1..] == [moves[1]] && moves[1..][1..] == [];
    assert Moves(c, w, Emitting(emits), moves[1..]);
    assert Emitted(moves[1..]) == emits;
  }
}
