/**
 The IMAP poll cursor (email/imap.go) over an abstract mailbox: what the text of a cursor keeps, and
 exactly-once delivery over any interleaving of polls, arrivals and expunges.
 */
module Imap {
  import opened Prelude
  import opened ReplyId
  import opened Strings

  const UINT64 := 0x1_0000_0000_0000_0000

  // ---------------------------------------------------------------- the text of a cursor

  function FormatCursor(validity: nat, uidNext: nat): string
  {
    Digits(validity) + "/" + Digits(uidNext)
  }

  /** A decimal number that fits 64 bits: digits only, at least one. */
  function ParseUint(s: string): Option<nat>
  {
    if s == "" || exists i :: 0 <= i < |s| && !('0' <= s[i] <= '9') then None
    else if Value(s) < UINT64 then Some(Value(s)) else None
  }

  /** What is before and after the first slash. */
  function CutSlash(s: string): Option<(string, string)>
  {
    if s == "" then None
    else if s[0] == '/' then Some(("", s[1..]))
    else
      match CutSlash(s[1..])
      case None => None
      case Some(r) => Some(([s[0]] + r.0, r.1))
  }

  function ParseCursor(s: string): Option<(nat, nat)>
  {
    match CutSlash(s)
    case None => None
    case Some(r) =>
      var va, vb := ParseUint(TrimSpace(r.0)), ParseUint(TrimSpace(r.1));
      if va.None? || vb.None? then None else Some((va.value, vb.value))
  }

  lemma {:induction false} CutAtSlash(a: string, b: string)
    requires '/' !in a
    ensures CutSlash(a + "/" + b) == Some((a, b))
  {
    var s := a + "/" + b;
    if a == "" {
      assert s[1..] == b;
    } else {
      CutAtSlash(a[1..], b);
      assert s[1..] == a[1..] + "/" + b;
      assert [a[0]] + a[1..] == a;
    }
  }

  lemma ParseDigits(n: nat)
    requires n < UINT64
    ensures ParseUint(TrimSpace(Digits(n))) == Some(n)
  {
    var s := Digits(n);
    assert !Blank(s[0]) && !Blank(s[|s| - 1]);
    DigitsRoundTrip(n);
  }

  /** Cursors survive the log: every pair of 64-bit numbers is read back as it was written. */
  lemma CursorRoundTrips(validity: nat, uidNext: nat)
    requires validity < UINT64 && uidNext < UINT64
    ensures ParseCursor(FormatCursor(validity, uidNext)) == Some((validity, uidNext))
  {
    var a := Digits(validity);
    assert '/' !in a;
    CutAtSlash(a, Digits(uidNext));
    ParseDigits(validity);
    ParseDigits(uidNext);
  }

  // ---------------------------------------------------------------- one poll

  /** One line of the answer to UID FETCH; None is a line that is no message. */
  type Line<Raw> = Option<(nat, Raw)>

  /** The lines that are messages at or past the boundary. */
  function NewMessages<Raw>(storedNext: nat, lines: seq<Line<Raw>>): seq<(nat, Raw)>
  {
    if lines == [] then []
    else
      var before, last := NewMessages(storedNext, lines[..|lines| - 1]), lines[|lines| - 1];
      if last.Some? && last.value.0 >= storedNext then before + [last.value] else before
  }

  /** The largest of the announced UIDNEXT and one past each new message, in 64-bit arithmetic. */
  function Boundary<Raw>(storedNext: nat, uidNext: nat, lines: seq<Line<Raw>>): nat
  {
    if lines == [] then uidNext
    else
      var before, last := Boundary(storedNext, uidNext, lines[..|lines| - 1]), lines[|lines| - 1];
      if last.Some? && last.value.0 >= storedNext && (last.value.0 + 1) % UINT64 > before
        then (last.value.0 + 1) % UINT64 else before
  }

  /** Whether a poll asks the server for messages at all. */
  predicate Asks(cursor: string, validity: nat, uidNext: nat)
  {
    var c := ParseCursor(cursor);
    c.Some? && c.value.0 == validity && c.value.1 < uidNext
  }

  /** What a poll returns: the new messages and the next cursor. */
  function Poll<Raw>(cursor: string, validity: nat, uidNext: nat, lines: seq<Line<Raw>>): (seq<(nat, Raw)>, string)
  {
    if !Asks(cursor, validity, uidNext) then ([], FormatCursor(validity, uidNext))
    else
      var n := ParseCursor(cursor).value.1;
      (NewMessages(n, lines), FormatCursor(validity, Boundary(n, uidNext, lines)))
  }

  /** The poll as the code runs it, from the SELECT answer on; `lines` is what UID FETCH answers if it is asked. */
  method Fetch<Raw>(cursor: string, validity: Option<nat>, uidNext: Option<nat>, lines: seq<Line<Raw>>)
    returns (result: Option<(seq<(nat, Raw)>, string)>)
    ensures result == if validity.None? || uidNext.None? then None
      else Some(Poll(cursor, validity.value, uidNext.value, lines))
  {
    if validity.None? {
      return None;
    }
    if uidNext.None? {
      return None;
    }
    var stored := ParseCursor(cursor);
    if stored.None? || stored.value.0 != validity.value {
      return Some(([], FormatCursor(validity.value, uidNext.value)));
    }
    var storedNext := stored.value.1;
    if storedNext >= uidNext.value {
      return Some(([], FormatCursor(validity.value, uidNext.value)));
    }
    var msgs, nextUID := [], uidNext.value;
    for i := 0 to |lines|
      invariant
        && msgs == NewMessages(storedNext, lines[..i])
        && nextUID == Boundary(storedNext, uidNext.value, lines[..i])
    {
      assert lines[..i + 1][..i] == lines[..i];
      var ln := lines[i];
      if ln.None? || ln.value.0 < storedNext {
        continue;
      }
      if (ln.value.0 + 1) % UINT64 > nextUID {
        nextUID := (ln.value.0 + 1) % UINT64;
      }
      msgs := msgs + [ln.value];
    }
    assert lines[..|lines|] == lines;
    return Some((msgs, FormatCursor(validity.value, nextUID)));
  }

  // ---------------------------------------------------------------- the server

  /** A mailbox: messages by UID, and the UID the next arrival will get. */
  datatype Mailbox<Raw> = Mailbox(validity: nat, uidNext: nat, present: map<nat, Raw>)

  /** UIDs are 32-bit and every one in use is below UIDNEXT. */
  ghost predicate MailboxOK<Raw>(b: Mailbox<Raw>)
  {
    b.validity < 0x1_0000_0000 && b.uidNext <= 0x1_0000_0000 && forall u :: u in b.present ==> u < b.uidNext
  }

  /**
   The answer to `UID FETCH n:*` (section 6.4.8 of RFC 3501): every message from n on, each once, and
   the highest one even if it is below n; other untagged lines may be mixed in.
   */
  ghost predicate Answers<Raw>(b: Mailbox<Raw>, n: nat, lines: seq<Line<Raw>>)
  {
    && (forall i :: 0 <= i < |lines| && lines[i].Some? ==>
        lines[i].value.0 in b.present && b.present[lines[i].value.0] == lines[i].value.1)
    && (forall i, j :: 0 <= i < j < |lines| && lines[i].Some? && lines[j].Some? ==>
         lines[i].value.0 != lines[j].value.0)
    && (forall u :: u in b.present && (u >= n || forall v :: v in b.present ==> v <= u) ==>
         exists i :: 0 <= i < |lines| && lines[i].Some? && lines[i].value.0 == u)
    && (forall i :: 0 <= i < |lines| && lines[i].Some? && lines[i].value.0 < n ==> forall v :: v in b.present ==>
         v <= lines[i].value.0)
  }

  // ---------------------------------------------------------------- many polls

  /**
   The mailbox, the last logged cursor, the poll in progress (the UIDNEXT its SELECT reported) and what
   has been delivered. For the statements only: everything that ever arrived, and the UIDNEXT the first
   poll anchored to.
   */
  datatype World<Raw> = World(box: Mailbox<Raw>, cursor: string, session: Option<nat>, got: seq<(nat, Raw)>,
    arrived: map<nat, Raw>, anchor: nat)

  datatype Event<Raw> = Arrive(raw: Raw) | Expunge(uid: nat) | Select | Finish(lines: seq<Line<Raw>>) | Fail

  ghost predicate Allowed<Raw>(w: World<Raw>, e: Event<Raw>)
  {
    match e
    case Arrive(_) => w.box.uidNext < 0x1_0000_0000
    case Expunge(_) => true
    case Select => w.session.None?
    case Finish(lines) =>
      w.session.Some? && (Asks(w.cursor, w.box.validity, w.session.value) ==>
        Answers(w.box, ParseCursor(w.cursor).value.1, lines))
    case Fail => w.session.Some?
  }

  function After<Raw>(w: World<Raw>, e: Event<Raw>): World<Raw>
  {
    match e
    case Arrive(raw) =>
      w.(box := w.box.(uidNext := w.box.uidNext + 1, present := w.box.present[w.box.uidNext := raw]),
        arrived := w.arrived[w.box.uidNext := raw])
    case Expunge(uid) => w.(box := w.box.(present := w.box.present - {uid}))
    case Select => w.(session := Some(w.box.uidNext))
    case Finish(lines) =>
      if w.session.None? then w
      else
        var (msgs, next) := Poll(w.cursor, w.box.validity, w.session.value, lines);
        w.(cursor := next, session := None, got := w.got + msgs, anchor := if w.cursor == "" then w.session.value
          else w.anchor)
    case Fail => w.(session := None)
  }

  ghost predicate History<Raw>(ws: seq<World<Raw>>, es: seq<Event<Raw>>)
  {
    && |ws| == |es| + 1
    && MailboxOK(ws[0].box) && ws[0].cursor == "" && ws[0].session.None? && ws[0].got == [] &&
         ws[0].arrived == ws[0].box.present
    && forall i :: 0 <= i < |es| ==> Allowed(ws[i], es[i]) && ws[i + 1] == After(ws[i], es[i])
  }

  ghost predicate Delivered<Raw>(got: seq<(nat, Raw)>, u: nat)
  {
    exists i :: 0 <= i < |got| && got[i].0 == u
  }

  ghost predicate NoneTwice<Raw>(got: seq<(nat, Raw)>)
  {
    forall i, j :: 0 <= i < j < |got| ==> got[i].0 != got[j].0
  }

  /** The boundary a cursor stands for; 0 before the first poll. */
  function NextOf(cursor: string): nat
  {
    match ParseCursor(cursor)
    case None => 0
    case Some(c) => c.1
  }

  /** Everything the cursor has passed since the anchor was delivered once, and nothing else was. */
  ghost predicate UpTo<Raw>(w: World<Raw>, n: nat)
  {
    && w.anchor <= n <= w.box.uidNext && NoneTwice(w.got)
    && (forall i :: 0 <= i < |w.got| ==> w.anchor <= w.got[i].0 < n)
    && (forall u :: u in w.box.present && w.anchor <= u < n ==> Delivered(w.got, u))
  }

  /** Messages keep their UID and their bytes for as long as anyone remembers them. */
  ghost predicate Remembered<Raw>(w: World<Raw>)
  {
    && (forall u :: u in w.arrived ==> u < w.box.uidNext)
    && (forall u :: u in w.box.present ==> u in w.arrived && w.arrived[u] == w.box.present[u])
    && (forall i :: 0 <= i < |w.got| ==> w.got[i].0 in w.arrived && w.arrived[w.got[i].0] == w.got[i].1)
  }

  ghost predicate PollInv<Raw>(w: World<Raw>)
  {
    && MailboxOK(w.box) && Remembered(w)
    && (w.session.Some? ==> NextOf(w.cursor) <= w.session.value <= w.box.uidNext)
    && (w.cursor == "" ==> w.got == [])
    && (w.cursor != "" ==>
          ParseCursor(w.cursor) == Some((w.box.validity, NextOf(w.cursor))) && UpTo(w, NextOf(w.cursor)))
  }

  // ---------------------------------------------------------------- what one answer yields

  lemma {:induction false} NewFromLines<Raw>(n: nat, lines: seq<Line<Raw>>, k: nat)
    requires k < |NewMessages(n, lines)|
    ensures NewMessages(n, lines)[k].0 >= n && Some(NewMessages(n, lines)[k]) in lines
  {
    var front := lines[..|lines| - 1];
    if k < |NewMessages(n, front)| {
      NewFromLines(n, front, k);
    }
  }

  lemma {:induction false} LinesDelivered<Raw>(n: nat, lines: seq<Line<Raw>>, i: nat)
    requires i < |lines| && lines[i].Some? && lines[i].value.0 >= n
    ensures Delivered(NewMessages(n, lines), lines[i].value.0)
  {
    var front, r := lines[..|lines| - 1], NewMessages(n, lines);
    if i < |lines| - 1 {
      LinesDelivered(n, front, i);
      var k :| 0 <= k < |NewMessages(n, front)| && NewMessages(n, front)[k].0 == lines[i].value.0;
      assert r[k].0 == lines[i].value.0;
    } else {
      assert r[|r| - 1].0 == lines[i].value.0;
    }
  }

  ghost predicate DistinctLines<Raw>(lines: seq<Line<Raw>>)
  {
    forall i, j :: 0 <= i < j < |lines| && lines[i].Some? && lines[j].Some? ==> lines[i].value.0 != lines[j].value.0
  }

  lemma {:induction false} NewOnce<Raw>(n: nat, lines: seq<Line<Raw>>)
    requires DistinctLines(lines)
    ensures NoneTwice(NewMessages(n, lines))
  {
    if lines != [] {
      var front, last := lines[..|lines| - 1], lines[|lines| - 1];
      NewOnce(n, front);
      if last.Some? {
        forall k | 0 <= k < |NewMessages(n, front)| ensures NewMessages(n, front)[k].0 != last.value.0 {
          NewFromLines(n, front, k);
          var i :| 0 <= i < |front| && front[i] == Some(NewMessages(n, front)[k]);
          assert lines[i] == front[i];
        }
      }
    }
  }

  /** The boundary is past the announced UIDNEXT and every new message, and no further than the mailbox. */
  lemma {:induction false} BoundaryIs<Raw>(n: nat, uidNext: nat, lines: seq<Line<Raw>>, limit: nat)
    requires uidNext <= limit < UINT64
    requires forall i :: 0 <= i < |lines| && lines[i].Some? ==> lines[i].value.0 < limit
    ensures uidNext <= Boundary(n, uidNext, lines) <= limit
    ensures forall i :: 0 <= i < |lines| && lines[i].Some? && lines[i].value.0 >= n ==>
      lines[i].value.0 < Boundary(n, uidNext, lines)
  {
    if lines != [] {
      BoundaryIs(n, uidNext, lines[..|lines| - 1], limit);
    }
  }

  // ---------------------------------------------------------------- each event

  /** A poll that asked: it takes the cursor to the boundary and delivers what lies between. */
  lemma AskedKeeps<Raw>(w: World<Raw>, lines: seq<Line<Raw>>)
    requires PollInv(w) && Allowed(w, Finish(lines)) && Asks(w.cursor, w.box.validity, w.session.value)
    ensures var n := Boundary(NextOf(w.cursor), w.session.value, lines);
      && UpTo(After(w, Finish(lines)), n) && w.session.value <= n <= w.box.uidNext
      && Remembered(After(w, Finish(lines))) && After(w, Finish(lines)).cursor == FormatCursor(w.box.validity, n)
  {
    var n, w' := NextOf(w.cursor), After(w, Finish(lines));
    var news, n' := NewMessages(n, lines), Boundary(n, w.session.value, lines);
    BoundaryIs(n, w.session.value, lines, w.box.uidNext);
    NewOnce(n, lines);
    forall k | 0 <= k < |news| ensures n <= news[k].0 < n' && news[k].0 in w.box.present &&
      w.box.present[news[k].0] == news[k].1 {
      NewFromLines(n, lines, k);
    }
    assert w'.got == w.got + news;
    forall u | u in w.box.present && w.anchor <= u < n' ensures Delivered(w'.got, u) {
      if u >= n { AnsweredIsDelivered(w.box, n, lines, u); }
      DeliveredInEither(w.got, news, u);
    }
  }

  lemma DeliveredInEither<Raw>(got: seq<(nat, Raw)>, more: seq<(nat, Raw)>, u: nat)
    requires Delivered(got, u) || Delivered(more, u)
    ensures Delivered(got + more, u)
  {
    if Delivered(got, u) {
      var i :| 0 <= i < |got| && got[i].0 == u;
      assert (got + more)[i].0 == u;
    } else {
      var k :| 0 <= k < |more| && more[k].0 == u;
      assert (got + more)[|got| + k].0 == u;
    }
  }

  lemma AnsweredIsDelivered<Raw>(b: Mailbox<Raw>, n: nat, lines: seq<Line<Raw>>, u: nat)
    requires Answers(b, n, lines) && u in b.present && u >= n
    ensures Delivered(NewMessages(n, lines), u)
  {
    var i :| 0 <= i < |lines| && lines[i].Some? && lines[i].value.0 == u;
    LinesDelivered(n, lines, i);
  }

  lemma FormattedNext(validity: nat, n: nat)
    requires validity < UINT64 && n < UINT64
    ensures FormatCursor(validity, n) != "" && NextOf(FormatCursor(validity, n)) == n
    ensures ParseCursor(FormatCursor(validity, n)) == Some((validity, n))
  {
    CursorRoundTrips(validity, n);
  }

  lemma FinishKeeps<Raw>(w: World<Raw>, lines: seq<Line<Raw>>)
    requires PollInv(w) && Allowed(w, Finish(lines))
    ensures PollInv(After(w, Finish(lines)))
    ensures w.session.value <= NextOf(After(w, Finish(lines)).cursor) && After(w, Finish(lines)).cursor != ""
  {
    if Asks(w.cursor, w.box.validity, w.session.value) {
      AskedKeeps(w, lines);
      FormattedNext(w.box.validity, Boundary(NextOf(w.cursor), w.session.value, lines));
    } else {
      FormattedNext(w.box.validity, w.session.value);
      assert After(w, Finish(lines)).got == w.got;
    }
  }

  lemma EventKeeps<Raw>(w: World<Raw>, e: Event<Raw>)
    requires PollInv(w) && Allowed(w, e)
    ensures
      && PollInv(After(w, e))
      && NextOf(w.cursor) <= NextOf(After(w, e).cursor)
      && (w.cursor != "" ==> After(w, e).cursor != "" && After(w, e).anchor == w.anchor)
  {
    match e
    case Finish(lines) => FinishKeeps(w, lines);
    case _ =>
  }

  // ---------------------------------------------------------------- the theorems

  lemma {:induction false} HistoryKeeps<Raw>(ws: seq<World<Raw>>, es: seq<Event<Raw>>, i: nat)
    requires History(ws, es) && i < |ws|
    ensures PollInv(ws[i])
  {
    if i > 0 {
      HistoryKeeps(ws, es, i - 1);
      EventKeeps(ws[i - 1], es[i - 1]);
    }
  }

  /** No message is ever returned twice, none from before the anchor, and each with the bytes it arrived with. */
  lemma NothingTwice<Raw>(ws: seq<World<Raw>>, es: seq<Event<Raw>>, i: nat)
    requires History(ws, es) && i < |ws|
    ensures NoneTwice(ws[i].got)
    ensures forall k :: 0 <= k < |ws[i].got| ==> var (u, raw) := ws[i].got[k];
      ws[i].anchor <= u && u in ws[i].arrived && ws[i].arrived[u] == raw
  {
    HistoryKeeps(ws, es, i);
  }

  /**
   When a poll finishes, every message that arrived after the anchor and before that poll's SELECT, and
   is still there, has been returned.
   */
  lemma NothingMissed<Raw>(ws: seq<World<Raw>>, es: seq<Event<Raw>>, i: nat, u: nat)
    requires History(ws, es) && i < |es| && es[i].Finish? && ws[i].cursor != ""
    requires u in ws[i + 1].box.present && ws[i].anchor <= u < ws[i].session.value
    ensures Delivered(ws[i + 1].got, u)
  {
    HistoryKeeps(ws, es, i);
    FinishKeeps(ws[i], es[i].lines);
    EventKeeps(ws[i], es[i]);
  }

  lemma CursorOverEvent<Raw>(ws: seq<World<Raw>>, es: seq<Event<Raw>>, j: nat)
    requires History(ws, es) && 0 < j < |ws|
    ensures NextOf(ws[j - 1].cursor) <= NextOf(ws[j].cursor)
    ensures ws[j - 1].cursor != "" ==> ws[j].cursor != "" && ws[j].anchor == ws[j - 1].anchor
  {
    HistoryKeeps(ws, es, j - 1);
    EventKeeps(ws[j - 1], es[j - 1]);
  }

  /** The cursor never goes back. */
  lemma {:induction false} CursorNeverDecreases<Raw>(ws: seq<World<Raw>>, es: seq<Event<Raw>>, i: nat, j: nat)
    requires History(ws, es) && i <= j < |ws|
    ensures NextOf(ws[i].cursor) <= NextOf(ws[j].cursor)
    ensures ws[i].cursor != "" ==> ws[j].cursor != "" && ws[j].anchor == ws[i].anchor
    decreases j - i
  {
    if i < j {
      CursorNeverDecreases(ws, es, i, j - 1);
      CursorOverEvent(ws, es, j);
    }
  }

  /** A mailbox reset: under another UIDVALIDITY a poll returns nothing and starts over from now. */
  lemma ResetAnchorsToNow<Raw>(validity: nat, stored: nat, current: nat, uidNext: nat, lines: seq<Line<Raw>>)
    requires validity < UINT64 && stored < UINT64 && current != validity
    ensures Poll(FormatCursor(validity, stored), current, uidNext, lines) == ([], FormatCursor(current, uidNext))
  {
    CursorRoundTrips(validity, stored);
  }
}
