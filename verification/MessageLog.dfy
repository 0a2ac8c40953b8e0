/** The in-memory message log (store/log_memory.go): append-only, with contiguous offsets from 1. */
module MessageLog {
  import opened Runtime

  datatype Meta = Meta(offset: nat, cause: nat)

  datatype LogEntry<+Msg> = LogEntry(msg: Msg, meta: Meta)

  /** What a log says, without the positions. */
  function Said<Msg>(entries: seq<LogEntry<Msg>>): seq<Envelope<Msg>>
  {
    if entries == [] then []
    else
      var e := entries[|entries| - 1];
      Said(entries[..|entries| - 1]) + [Envelope(e.msg, e.meta.cause)]
  }

  lemma {:induction false} SaidAt<Msg>(entries: seq<LogEntry<Msg>>)
    ensures |Said(entries)| == |entries|
    ensures forall i :: 0 <= i < |entries| ==> Said(entries)[i] == Envelope(entries[i].msg, entries[i].meta.cause)
  {
    if entries != [] {
      SaidAt(entries[..|entries| - 1]);
    }
  }

  class MemoryLog<Msg> {
    var entries: seq<LogEntry<Msg>>

    /** Every entry carries its own position. */
    ghost predicate Valid()
      reads this
    {
      forall i :: 0 <= i < |entries| ==> entries[i].meta.offset == i + 1
    }

    ghost function Contents(): seq<Envelope<Msg>>
      reads this
    {
      Said(entries)
    }

    constructor ()
      ensures Valid() && Contents() == []
    {
      entries := [];
    }

    method Append(msg: Msg, cause: nat) returns (meta: Meta)
      requires Valid()
      modifies this
      ensures Valid()
      ensures Contents() == old(Contents()) + [Envelope(msg, cause)]
      ensures meta == Meta(|Contents()|, cause) && |Contents()| == |entries|
      ensures old(entries) <= entries
    {
      meta := Meta(|entries| + 1, cause);
      SaidAt(entries);
      assert (entries + [LogEntry(msg, meta)])[..|entries|] == entries;
      entries := entries + [LogEntry(msg, meta)];
    }
  }
}
