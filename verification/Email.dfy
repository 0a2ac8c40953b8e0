/** The email domain's view of the outbox (email/). */
module Email {
  import opened Runtime
  import opened Messages

  datatype OutboxEntry = OutboxEntry(outboxID: int, task: int, messageID: string, sent: bool)

  /** The entry stands for this row, or for a reply with this non-empty Message-ID. */
  predicate SameReply(e: OutboxEntry, outboxID: int, messageID: string)
  {
    e.outboxID == outboxID || (messageID != "" && e.messageID == messageID)
  }

  function HandleMarkReplyQueued(outbox: seq<OutboxEntry>, task: int, outboxID: int,
      messageID: string): seq<OutboxEntry>
  {
    if exists i :: 0 <= i < |outbox| && SameReply(outbox[i], outboxID, messageID) then outbox
    else outbox + [OutboxEntry(outboxID, task, messageID, false)]
  }

  function MarkSent(e: OutboxEntry, outboxID: int): OutboxEntry
  {
    if e.outboxID == outboxID then e.(sent := true) else e
  }

  function HandleMarkEmailSent(outbox: seq<OutboxEntry>, outboxID: int): (r: seq<OutboxEntry>)
    ensures |r| == |outbox|
    ensures forall i :: 0 <= i < |r| ==> r[i] == MarkSent(outbox[i], outboxID)
  {
    if outbox == [] then []
    else HandleMarkEmailSent(outbox[..|outbox| - 1], outboxID) + [MarkSent(outbox[|outbox| - 1], outboxID)]
  }

  /** The loop over a copy of the outbox. */
  method MarkEmailSentLoop(outbox: seq<OutboxEntry>, outboxID: int) returns (next: seq<OutboxEntry>)
    ensures next == HandleMarkEmailSent(outbox, outboxID)
  {
    next := outbox;
    for i := 0 to |next|
      invariant |next| == |outbox|
      invariant forall j :: 0 <= j < i ==> next[j] == MarkSent(outbox[j], outboxID)
      invariant forall j :: i <= j < |next| ==> next[j] == outbox[j]
    {
      if next[i].outboxID == outboxID {
        next := next[i := next[i].(sent := true)];
      }
    }
  }

  /** One Await source per pending entry. */
  function SendSources(outbox: seq<OutboxEntry>): map<SourceId, Source<Loc>>
  {
    if outbox == [] then map[]
    else
      var front, e := SendSources(outbox[..|outbox| - 1]), outbox[|outbox| - 1];
      if e.sent then front else front[SendKey(e.outboxID) := Source(true, SendBody(e.outboxID, e.messageID))]
  }
}
