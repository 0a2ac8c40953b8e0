/**
 What a reply says (email/command_assemble_reply.go): the agent's text, the files that ride along, and
 the links under the text.
 */
module ReplyBody {
  import opened Content
  import opened Messages

  // ---------------------------------------------------------------- text and attachments

  function Text(b: Bytes): string
  {
    if b == [] then "" else Text(b[..|b| - 1]) + [b[|b| - 1] as int as char]
  }

  /** The last reply.txt is the body. */
  function ReplyText(parts: seq<Part>): string
  {
    if parts == [] then ""
    else if parts[|parts| - 1].filename == "reply.txt" then Text(parts[|parts| - 1].bytes)
    else ReplyText(parts[..|parts| - 1])
  }

  /** Only top-level files other than the body and the form spec ride along. */
  predicate Rides(part: Part)
  {
    part.filename != "reply.txt" && part.filename != "request.json" && '/' !in part.filename
  }

  function Riders(parts: seq<Part>): seq<Part>
  {
    if parts == [] then []
    else Riders(parts[..|parts| - 1]) + if Rides(parts[|parts| - 1]) then [parts[|parts| - 1]] else []
  }

  /** The attachments are the riding files, none left out and none added. */
  lemma {:induction false} RidersAre(parts: seq<Part>, part: Part)
    ensures part in Riders(parts) <==> part in parts && Rides(part)
  {
    if parts != [] {
      RidersAre(parts[..|parts| - 1], part);
      assert parts == parts[..|parts| - 1] + [parts[|parts| - 1]];
    }
  }

  // ---------------------------------------------------------------- what they mean

  /** Part `i` is the last one with the reply's name. */
  ghost predicate LastReply(parts: seq<Part>, i: int)
  {
    && 0 <= i < |parts| && parts[i].filename == "reply.txt"
    && forall j :: i < j < |parts| ==> parts[j].filename != "reply.txt"
  }

  /** The text has these bytes, one by one. */
  ghost predicate Spells(text: string, bytes: Bytes)
  {
    |text| == |bytes| && forall k :: 0 <= k < |text| ==> text[k] as int == bytes[k] as int
  }

  /** The text of the reply: the bytes of the last reply file, or nothing when there is none. */
  ghost predicate IsReply(parts: seq<Part>, text: string)
  {
    && (forall i :: LastReply(parts, i) ==> Spells(text, parts[i].bytes))
    && ((forall i :: 0 <= i < |parts| ==> parts[i].filename != "reply.txt") ==> text == "")
  }

  lemma {:induction false} TextSpells(b: Bytes)
    ensures Spells(Text(b), b)
  {
    if b != [] {
      TextSpells(b[..|b| - 1]);
    }
  }

  lemma {:induction false} ReplyTextIs(parts: seq<Part>)
    ensures IsReply(parts, ReplyText(parts))
  {
    if parts != [] {
      var front, n := parts[..|parts| - 1], |parts| - 1;
      if parts[n].filename == "reply.txt" {
        TextSpells(parts[n].bytes);
        ReplyReplaced(front, parts[n], ReplyText(parts));
      } else {
        ReplyTextIs(front);
        ReplyStands(front, parts[n], ReplyText(front));
      }
      assert parts == front + [parts[n]];
    }
  }

  /** Another file does not change what the reply is. */
  lemma ReplyStands(parts: seq<Part>, part: Part, text: string)
    requires IsReply(parts, text) && part.filename != "reply.txt"
    ensures IsReply(parts + [part], text)
  {
    var more := parts + [part];
    assert forall i :: 0 <= i < |parts| ==> more[i] == parts[i];
    forall i | LastReply(more, i) ensures Spells(text, more[i].bytes) {
      assert more[|parts|] == part && i < |parts|;
      forall j | i < j < |parts| ensures parts[j].filename != "reply.txt" {
        assert more[j] == parts[j];
      }
      assert LastReply(parts, i);
    }
  }

  /** A later reply file replaces an earlier one. */
  lemma ReplyReplaced(parts: seq<Part>, part: Part, text: string)
    requires part.filename == "reply.txt" && Spells(text, part.bytes)
    ensures IsReply(parts + [part], text)
  {
    var more, n := parts + [part], |parts|;
    assert more[n] == part;
    forall i | LastReply(more, i) ensures i == n {
    }
  }

  /** These are the files at the listed positions, in order, and every position that rides is listed. */
  ghost predicate Picked(parts: seq<Part>, at: seq<nat>, riders: seq<Part>)
  {
    && |at| == |riders|
    && (forall j :: 0 <= j < |at| ==> at[j] < |parts| && riders[j] == parts[at[j]])
    && (forall j, k :: 0 <= j < k < |at| ==> at[j] < at[k])
    && (forall i :: 0 <= i < |parts| ==> (i in at <==> Rides(parts[i])))
  }

  /** The attachments are the riding files in the order of the parts, each as often as it was there. */
  ghost predicate InOrder(parts: seq<Part>, riders: seq<Part>)
  {
    exists at: seq<nat> :: Picked(parts, at, riders)
  }

  lemma PickedOneMore(parts: seq<Part>, at: seq<nat>, riders: seq<Part>, part: Part)
    requires Picked(parts, at, riders)
    ensures Rides(part) ==> Picked(parts + [part], at + [|parts|], riders + [part])
    ensures !Rides(part) ==> Picked(parts + [part], at, riders)
  {
    var more := parts + [part];
    assert forall i :: 0 <= i < |parts| ==> more[i] == parts[i];
    assert forall i :: i in at ==> i < |parts|;
  }

  lemma {:induction false} RidersInOrder(parts: seq<Part>) returns (at: seq<nat>)
    ensures Picked(parts, at, Riders(parts))
  {
    at := [];
    if parts != [] {
      var front, part := parts[..|parts| - 1], parts[|parts| - 1];
      var before := RidersInOrder(front);
      PickedOneMore(front, before, Riders(front), part);
      assert front + [part] == parts;
      if Rides(part) {
        at := before + [|front|];
      } else {
        at := before;
      }
    }
  }

  // ---------------------------------------------------------------- the links

  const DONE_MARK := "\n\n\U{2014} mark this task done: "
  const ASK_MARK := "\n\U{2014} provide the requested input: "

  function Asking(requestLink: string): string
  {
    if requestLink == "" then "" else ASK_MARK + (requestLink + "\n")
  }

  function Footer(completionURL: string, requestLink: string): string
  {
    DONE_MARK + (completionURL + ("\n" + Asking(requestLink)))
  }

  /** `part` stands somewhere in `text`. */
  ghost predicate Contains(text: string, part: string)
  {
    exists a, b :: text == a + part + b
  }

  lemma ContainsMiddle(a: string, part: string, b: string)
    ensures Contains(a + (part + b), part)
  {
    assert a + (part + b) == a + part + b;
  }

  lemma CarriesRequest(completionURL: string, requestLink: string)
    requires requestLink != ""
    ensures Contains(Footer(completionURL, requestLink), requestLink)
  {
    var before, rest := DONE_MARK + (completionURL + "\n"), requestLink + "\n";
    FooterInParts("", completionURL, Asking(requestLink));
    assert Footer(completionURL, requestLink) == before + (ASK_MARK + rest) == (before + ASK_MARK) + rest;
    ContainsMiddle(before + ASK_MARK, requestLink, "\n");
  }

  /**
   What the reader of a reply can rely on: the completion link is under the text, the request link is
   there if there is one, and otherwise nothing is asked for.
   */
  lemma FooterCarriesLinks(completionURL: string, requestLink: string)
    ensures var footer := Footer(completionURL, requestLink);
      && Contains(footer, completionURL)
      && (requestLink != "" ==> Contains(footer, requestLink))
      && (footer == Footer(completionURL, "") <==> requestLink == "")
  {
    ContainsMiddle(DONE_MARK, completionURL, "\n" + Asking(requestLink));
    if requestLink != "" {
      CarriesRequest(completionURL, requestLink);
      assert |Footer(completionURL, requestLink)| > |Footer(completionURL, "")|;
    }
  }

  /** What precedes the first newline is determined by the text. */
  lemma {:induction false} FirstLine(a: string, x: string, a': string, x': string)
    requires '\n' !in a && '\n' !in a' && a + ("\n" + x) == a' + ("\n" + x')
    ensures a == a' && x == x'
  {
    var s := a + ("\n" + x);
    assert s[0] == (if a == "" then '\n' else a[0]) && s[0] == (if a' == "" then '\n' else a'[0]);
    if a == "" {
      assert s[1..] == x && s[1..] == x';
    } else {
      assert s[1..] == a[1..] + ("\n" + x) && s[1..] == a'[1..] + ("\n" + x');
      FirstLine(a[1..], x, a'[1..], x');
    }
  }

  lemma SameAsked(link: string, link': string)
    requires Asking(link) == Asking(link')
    ensures link == link'
  {
    if link != "" && link' != "" {
      DropPrefix(ASK_MARK, link + "\n", link' + "\n");
      assert link == (link + "\n")[..|link|] && link' == (link' + "\n")[..|link'|];
    }
  }

  /** The links read back: two bodies with the same text agree only if both links do. */
  lemma LinksReadBack(text: string, url: string, link: string, url': string, link': string)
    requires '\n' !in url && '\n' !in url'
    requires text + Footer(url, link) == text + Footer(url', link')
    ensures url == url' && link == link'
  {
    DropPrefix(text, Footer(url, link), Footer(url', link'));
    DropPrefix(DONE_MARK, url + ("\n" + Asking(link)), url' + ("\n" + Asking(link')));
    FirstLine(url, Asking(link), url', Asking(link'));
    SameAsked(link, link');
  }

  lemma FooterInParts(text: string, completionURL: string, asking: string)
    ensures (text + (DONE_MARK + (completionURL + "\n"))) + asking ==
      text + (DONE_MARK + (completionURL + ("\n" + asking)))
  {
    assert (completionURL + "\n") + asking == completionURL + ("\n" + asking);
    assert (DONE_MARK + (completionURL + "\n")) + asking == DONE_MARK + ((completionURL + "\n") + asking);
  }
}
