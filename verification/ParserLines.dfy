/**
 The lines the parser reports. Every command it returns, at any depth of nesting, carries the line of
 the position it was read from, the commands of a list were read one after another, and a rejected
 script is rejected with the line of the position where reading stopped.
 */
module ParserLines {
  import opened Prelude
  import opened Parser

  // ---------------------------------------------------------------- where things are

  /** The line of a position: one more than the newlines before it. */
  function LineAt(src: string, p: nat): int
    requires p <= |src|
  {
    1 + Newlines(src[..p])
  }

  function Total(src: string): int
  {
    1 + Newlines(src)
  }

  /** Past blanks, empty commands and comments: what a list of commands goes on with. */
  function Resume(s: string): (r: string)
    ensures |r| <= |s|
    decreases |s|
  {
    var t := SkipBlank(s);
    if t != "" && t[0] == '#' then Resume(t[|TakeLine(t)|..]) else t
  }

  ghost predicate EndOf(src: string, s: string)
  {
    |s| <= |src| && src[|src| - |s|..] == s
  }

  /** The position at which this rest of the script begins; a rest is never longer than the script. */
  function At(src: string, rest: string): (p: nat)
    ensures p <= |src|
  {
    if |rest| <= |src| then |src| - |rest| else 0
  }

  /**
   These commands, and no others, lie one after another from `lo` to `hi`: each starts where the one
   before it ended, blanks and comments aside, is what reading words from there yields, and carries
   the line of that position. `hi` is where the next command would start.
   */
  ghost predicate Located(src: string, nested: bool, cmds: seq<Command>, lo: nat, hi: nat)
    requires lo <= |src|
    decreases cmds, 0
  {
    var p := At(src, Resume(src[lo..]));
    if cmds == [] then p == hi
    else
      var r := WordsOf(Total(src), src[p..], nested, []);
      && cmds[0].line == LineAt(src, p)
      && r.Took? && r.value == cmds[0].words && EndOf(src, r.rest) && p < At(src, r.rest)
      && WordsIn(src, nested, cmds[0].words, p, At(src, r.rest))
      && Located(src, nested, cmds[1..], At(src, r.rest), hi)
  }

  /** These words were read one after another between `lo` and `hi`. */
  ghost predicate WordsIn(src: string, nested: bool, words: seq<Word>, lo: nat, hi: nat)
    requires lo <= |src|
    decreases words
  {
    if words == [] then lo <= hi
    else
      var w := At(src, SkipSpaces(src[lo..]));
      && w < |src| && !EndsWord(src[w], nested)
      && var r := WordOf(Total(src), src[w..], nested);
      && r.Took? && r.value == words[0] && EndOf(src, r.rest)
      && SubsIn(src, words[0].segs, w, At(src, r.rest))
      && WordsIn(src, nested, words[1..], At(src, r.rest), hi)
  }

  /** The substitutions among these segments lie one after another between `lo` and `hi`. */
  ghost predicate SubsIn(src: string, segs: seq<Seg>, lo: nat, hi: nat)
    decreases segs
  {
    if segs == [] then lo <= hi
    else if segs[0].sub == [] then SubsIn(src, segs[1..], lo, hi)
    else exists i, j :: lo <= i < j <= hi && SubAt(src, segs[0].sub, i, j) && SubsIn(src, segs[1..], j, hi)
  }

  /** A substitution: its brackets at `i` and before `j`, its commands located between them. */
  ghost predicate SubAt(src: string, sub: seq<Command>, i: nat, j: nat)
    decreases sub, 1
  {
    && i + 1 < j <= |src| && src[i] == '[' && src[j - 1] == ']'
    && CommandsOf(Total(src), src[i + 1..], true, [], "") == Took(sub, src[j..])
    && Located(src, true, sub, i + 1, j - 1)
  }

  // ---------------------------------------------------------------- small steps

  lemma EndOfEnd(src: string, s: string, n: nat)
    requires EndOf(src, s) && n <= |s|
    ensures EndOf(src, s[n..])
  {
    assert src[|src| - |s|..][n..] == src[|src| - |s| + n..];
  }

  lemma {:induction false} SpacesEnd(src: string, s: string)
    requires EndOf(src, s)
    ensures EndOf(src, SkipSpaces(s))
  {
    if s != "" && (s[0] == ' ' || s[0] == '\t') {
      EndOfEnd(src, s, 1);
      SpacesEnd(src, s[1..]);
    }
  }

  lemma {:induction false} BlanksEnd(src: string, s: string)
    requires EndOf(src, s)
    ensures EndOf(src, SkipBlank(s))
  {
    if s != "" && BlankOrEnd(s[0]) {
      EndOfEnd(src, s, 1);
      BlanksEnd(src, s[1..]);
    }
  }

  /** Only what a list goes on with matters for where its commands are. */
  lemma SameResume(src: string, nested: bool, cmds: seq<Command>, lo: nat, lo': nat, hi: nat)
    requires lo <= |src| && lo' <= |src| && Resume(src[lo..]) == Resume(src[lo'..])
    requires Located(src, nested, cmds, lo, hi)
    ensures Located(src, nested, cmds, lo', hi)
  {
  }

  lemma {:induction false} SubsWiden(src: string, segs: seq<Seg>, lo: nat, lo': nat, hi: nat)
    requires SubsIn(src, segs, lo, hi) && lo' <= lo
    ensures SubsIn(src, segs, lo', hi)
  {
    if segs != [] && segs[0].sub == [] {
      SubsWiden(src, segs[1..], lo, lo', hi);
    }
  }

  /** A literal or a variable holds no commands. */
  lemma SubsBehind(src: string, g: Seg, rest: seq<Seg>, lo: nat, lo': nat, hi: nat)
    requires SubsIn(src, rest, lo, hi) && lo' <= lo && g.sub == []
    ensures SubsIn(src, [g] + rest, lo', hi)
  {
    SubsWiden(src, rest, lo, lo', hi);
    assert ([g] + rest)[1..] == rest;
  }

  lemma SubsAfter(src: string, sub: seq<Command>, rest: seq<Seg>, i: nat, j: nat, hi: nat)
    requires SubAt(src, sub, i, j) && SubsIn(src, rest, j, hi) && j <= hi
    ensures SubsIn(src, [Sub(sub)] + rest, i, hi)
  {
    assert ([Sub(sub)] + rest)[1..] == rest;
    if sub == [] { SubsWiden(src, rest, j, i, hi); }
  }

  /** The pending literal in front of what was read later. */
  lemma FlushBehind(src: string, segs: seq<Seg>, lit: string, rest: seq<Seg>, lo: nat, hi: nat)
    requires SubsIn(src, rest, lo, hi)
    ensures SubsIn(src, Flush([], lit) + rest, lo, hi)
    ensures Flush(segs, lit) + rest == segs + (Flush([], lit) + rest)
  {
    if lit == "" {
      assert Flush([], lit) + rest == rest;
    } else {
      assert [] + [Lit(lit)] == [Lit(lit)];
      SubsBehind(src, Lit(lit), rest, lo, lo, hi);
    }
  }

  lemma Prepend<T>(acc: seq<T>, first: T, rest: seq<T>)
    ensures acc + [first] + rest == acc + ([first] + rest)
    ensures ([first] + rest)[1..] == rest && ([first] + rest)[0] == first
  {
  }

  /** What a list needs to start with a command at `p` that ends at `e`. */
  lemma LocatedCons(src: string, nested: bool, cmd: Command, rest: seq<Command>, lo: nat, p: nat, e: nat, hi: nat)
    requires lo <= |src| && p == At(src, Resume(src[lo..])) && p < e <= |src| && cmd.line == LineAt(src, p)
    requires WordsOf(Total(src), src[p..], nested, []) == Took(cmd.words, src[e..])
    requires WordsIn(src, nested, cmd.words, p, e) && Located(src, nested, rest, e, hi)
    ensures Located(src, nested, [cmd] + rest, lo, hi)
  {
    Prepend([], cmd, rest);
    assert At(src, src[e..]) == e;
  }

  // ---------------------------------------------------------------- commands that were read

  /** Where the commands of a list end: at its closing bracket, or with the script. */
  function ListEnd(src: string, nested: bool, rest: string): nat
  {
    if nested && At(src, rest) > 0 then At(src, rest) - 1 else |src|
  }

  /** What reading a list from `lo` has added, and where it is. */
  ghost predicate Listed(src: string, nested: bool, lo: nat, r: Parsed<seq<Command>>, acc: seq<Command>,
      news: seq<Command>)
    requires lo <= |src|
  {
    r.Took? ==>
      && r.value == acc + news && EndOf(src, r.rest)
      && (nested ==> lo < At(src, r.rest) && src[At(src, r.rest) - 1] == ']')
      && Located(src, nested, news, lo, ListEnd(src, nested, r.rest))
  }

  /** How reading a list goes on past blanks and comments. */
  lemma CommandsGoOn(total: int, s: string, nested: bool, acc: seq<Command>, narration: string)
    requires var t := SkipBlank(s); t != "" && !(nested && t[0] == ']') && t[0] != '#'
    ensures var t := SkipBlank(s); var r := WordsOf(total, t, nested, []);
      CommandsOf(total, s, nested, acc, narration) ==
        match r
        case Fail(line, problem) => Parsed.Fail(line, problem)
        case Took(words, rest) =>
          CommandsOf(total, rest, nested, if words == [] then acc
            else acc + [Command(LineOf(total, t), narration, words)], narration)
  {
  }

  /** A list ends at its closing bracket or with the script. */
  lemma ListDone(src: string, lo: nat, nested: bool, acc: seq<Command>, narration: string)
    requires lo <= |src| && var t := SkipBlank(src[lo..]); t == "" || (nested && t[0] == ']')
    ensures Listed(src, nested, lo, CommandsOf(Total(src), src[lo..], nested, acc, narration), acc, [])
  {
    var t := SkipBlank(src[lo..]);
    BlanksEnd(src, src[lo..]);
    assert acc + [] == acc;
    if t != "" { EndOfEnd(src, t, 1); }
  }

  /** A comment is stepped over; it only changes the narration. */
  lemma CommentSkipped(src: string, lo: nat, nested: bool, acc: seq<Command>, narration: string) returns (lo': nat)
    requires lo <= |src| && var t := SkipBlank(src[lo..]); t != "" && t[0] == '#'
    ensures var t := SkipBlank(src[lo..]);
      && lo < lo' <= |src| && Resume(src[lo..]) == Resume(src[lo'..])
      && CommandsOf(Total(src), src[lo..], nested, acc, narration) ==
           CommandsOf(Total(src), src[lo'..], nested, acc, Narrate(TakeLine(t)))
  {
    var t := SkipBlank(src[lo..]);
    BlanksEnd(src, src[lo..]);
    lo' := At(src, t) + |TakeLine(t)|;
    assert t[|TakeLine(t)|..] == src[lo'..];
  }

  lemma ListedEarlier(src: string, nested: bool, lo: nat, lo': nat, r: Parsed<seq<Command>>, acc: seq<Command>,
      news: seq<Command>)
    requires lo < lo' <= |src| && Resume(src[lo..]) == Resume(src[lo'..]) && Listed(src, nested, lo', r, acc, news)
    ensures Listed(src, nested, lo, r, acc, news)
  {
    if r.Took? {
      SameResume(src, nested, news, lo', lo, ListEnd(src, nested, r.rest));
    }
  }

  lemma {:induction false} LocateCommands(src: string, lo: nat, nested: bool, acc: seq<Command>, narration: string)
    returns (news: seq<Command>)
    requires lo <= |src|
    ensures Listed(src, nested, lo, CommandsOf(Total(src), src[lo..], nested, acc, narration), acc, news)
    decreases |src| - lo, 5
  {
    var t := SkipBlank(src[lo..]);
    if t == "" || (nested && t[0] == ']') {
      ListDone(src, lo, nested, acc, narration);
      news := [];
    } else if t[0] == '#' {
      var lo' := CommentSkipped(src, lo, nested, acc, narration);
      news := LocateCommands(src, lo', nested, acc, Narrate(TakeLine(t)));
      ListedEarlier(src, nested, lo, lo', CommandsOf(Total(src), src[lo..], nested, acc, narration), acc, news);
    } else {
      CommandsGoOn(Total(src), src[lo..], nested, acc, narration);
      BlanksEnd(src, src[lo..]);
      news := LocateNext(src, lo, At(src, t), nested, acc, narration);
    }
  }

  /** The command at `p`, and what is read after it. */
  lemma ListedCons(src: string, nested: bool, lo: nat, p: nat, e: nat, cmd: Command, r: Parsed<seq<Command>>,
      acc: seq<Command>, rest: seq<Command>)
    requires lo <= p < e <= |src| && p == At(src, Resume(src[lo..])) && cmd.line == LineAt(src, p)
    requires
      && WordsOf(Total(src), src[p..], nested, []) == Took(cmd.words, src[e..])
      && WordsIn(src, nested, cmd.words, p, e)
    requires Listed(src, nested, e, r, acc + [cmd], rest)
    ensures Listed(src, nested, lo, r, acc, [cmd] + rest)
  {
    if r.Took? {
      LocatedCons(src, nested, cmd, rest, lo, p, e, ListEnd(src, nested, r.rest));
      Prepend(acc, cmd, rest);
    }
  }

  lemma ResumesHere(src: string, lo: nat, p: nat)
    requires lo <= p < |src| && src[p..] == SkipBlank(src[lo..]) && src[p] != '#'
    ensures p == At(src, Resume(src[lo..]))
  {
  }

  /** The list goes on with a command at `p`. */
  lemma {:induction false} LocateNext(src: string, lo: nat, p: nat, nested: bool, acc: seq<Command>, narration: string)
    returns (news: seq<Command>)
    requires lo <= p < |src| && src[p..] == SkipBlank(src[lo..]) && src[p] != '#' && !EndsWord(src[p], nested)
    ensures var r := WordsOf(Total(src), src[p..], nested, []); r.Took? ==>
      var more := if r.value == [] then acc else acc + [Command(LineOf(Total(src), src[p..]), narration, r.value)];
      Listed(src, nested, lo, CommandsOf(Total(src), r.rest, nested, more, narration), acc, news)
    decreases |src| - p, 4
  {
    news := [];
    var words := LocateWords(src, p, nested, []);
    var r := WordsOf(Total(src), src[p..], nested, []);
    if r.Took? {
      WordsFromNothing(src, nested, p, r, words);
      ResumesHere(src, lo, p);
      LineIsTrue(src, p);
      var cmd, e := Command(LineOf(Total(src), src[p..]), narration, words), At(src, r.rest);
      var rest := LocateCommands(src, e, nested, acc + [cmd], narration);
      ListedCons(src, nested, lo, p, e, cmd, CommandsOf(Total(src), src[e..], nested, acc + [cmd], narration), acc,
        rest);
      news := [cmd] + rest;
    }
  }

  /** What reading words from `lo` has added, and where they are; where a word starts, there is one. */
  ghost predicate WordsListed(src: string, nested: bool, lo: nat, r: Parsed<seq<Word>>, acc: seq<Word>, news: seq<Word>)
    requires lo <= |src|
  {
    r.Took? ==>
      && r.value == acc + news && EndOf(src, r.rest) && WordsIn(src, nested, news, lo, At(src, r.rest))
      && (lo < |src| && !EndsWord(src[lo], nested) && src[lo] != '#' ==> news != [] && lo < At(src, r.rest))
  }

  lemma WordsFromNothing(src: string, nested: bool, lo: nat, r: Parsed<seq<Word>>, news: seq<Word>)
    requires
      && lo < |src|
      && !EndsWord(src[lo], nested)
      && src[lo] != '#'
      && r.Took?
      && WordsListed(src, nested, lo, r, [], news)
    ensures r == Took(news, src[At(src, r.rest)..]) && news != [] && lo < At(src, r.rest)
    ensures WordsIn(src, nested, news, lo, At(src, r.rest))
  {
    assert [] + news == news;
  }

  lemma WordsInCons(src: string, nested: bool, lo: nat, w: nat, e: nat, word: Word, rest: seq<Word>, hi: nat)
    requires lo <= w < e <= |src| && src[w..] == SkipSpaces(src[lo..]) && !EndsWord(src[w], nested)
    requires WordOf(Total(src), src[w..], nested) == Took(word, src[e..]) && SubsIn(src, word.segs, w, e)
    requires WordsIn(src, nested, rest, e, hi)
    ensures WordsIn(src, nested, [word] + rest, lo, hi)
  {
    Prepend([], word, rest);
    assert At(src, src[e..]) == e && At(src, src[w..]) == w;
  }

  lemma WordsListedCons(src: string, nested: bool, lo: nat, w: nat, e: nat, word: Word, r: Parsed<seq<Word>>,
      acc: seq<Word>, rest: seq<Word>)
    requires lo <= w < e <= |src| && src[w..] == SkipSpaces(src[lo..]) && !EndsWord(src[w], nested)
    requires WordOf(Total(src), src[w..], nested) == Took(word, src[e..]) && SubsIn(src, word.segs, w, e)
    requires WordsListed(src, nested, e, r, acc + [word], rest)
    ensures WordsListed(src, nested, lo, r, acc, [word] + rest)
  {
    if r.Took? {
      Prepend(acc, word, rest);
      WordsAdvance(src, nested, rest, e, At(src, r.rest));
      WordsInCons(src, nested, lo, w, e, word, rest, At(src, r.rest));
    }
  }

  lemma {:induction false} WordsAdvance(src: string, nested: bool, words: seq<Word>, lo: nat, hi: nat)
    requires lo <= |src| && WordsIn(src, nested, words, lo, hi)
    ensures lo <= hi
  {
    if words != [] {
      var w := At(src, SkipSpaces(src[lo..]));
      var r := WordOf(Total(src), src[w..], nested);
      WordsAdvance(src, nested, words[1..], At(src, r.rest), hi);
    }
  }

  lemma {:induction false} LocateWords(src: string, lo: nat, nested: bool, acc: seq<Word>) returns (news: seq<Word>)
    requires lo <= |src|
    ensures WordsListed(src, nested, lo, WordsOf(Total(src), src[lo..], nested, acc), acc, news)
    decreases |src| - lo, 3
  {
    news := [];
    var t := SkipSpaces(src[lo..]);
    SpacesEnd(src, src[lo..]);
    var w := At(src, t);
    assert acc + [] == acc;
    if t != "" && (t[0] == '\n' || t[0] == ';') {
      EndOfEnd(src, t, 1);
    } else if t != "" && !EndsWord(t[0], nested) && t[0] != '#' {
      LocateWord(src, w, nested);
      var r := WordOf(Total(src), t, nested);
      if r.Took? {
        var rest := LocateWords(src, At(src, r.rest), nested, acc + [r.value]);
        WordsListedCons(src, nested, lo, w, At(src, r.rest), r.value,
          WordsOf(Total(src), r.rest, nested, acc + [r.value]), acc, rest);
        news := [r.value] + rest;
      }
    }
  }

  lemma {:induction false} LocateWord(src: string, w: nat, nested: bool)
    requires w < |src| && !EndsWord(src[w], nested)
    ensures var r := WordOf(Total(src), src[w..], nested);
      r.Took? ==> EndOf(src, r.rest) && SubsIn(src, r.value.segs, w, At(src, r.rest))
    decreases |src| - w, 2
  {
    assert src[w..][1..] == src[w + 1..];
    if src[w] == '{' {
      var n := CloseBrace(src[w + 1..], 1);
      if n.Some? { EndOfEnd(src, src[w + 1..], n.value + 1); }
    } else if src[w] == '"' {
      var news := LocateQuoted(src, w + 1, [], "");
      var r := QuotedOf(Total(src), src[w + 1..], [], "");
      if r.Took? {
        assert [] + news == news;
        SubsWiden(src, news, w + 1, w, At(src, r.rest));
      }
    } else {
      var news := LocateBare(src, w, nested, [], "");
      assert [] + news == news;
    }
  }

  /** What reading segments from `lo` has added, and where their substitutions are. */
  ghost predicate SegsListed(src: string, lo: nat, r: Parsed<Word>, segs: seq<Seg>, news: seq<Seg>)
  {
    r.Took? ==>
      && r.value.segs == segs + news && EndOf(src, r.rest)
      && lo <= At(src, r.rest) && SubsIn(src, news, lo, At(src, r.rest))
  }

  /** Past a `$` and the name after it. */
  lemma PastName(src: string, lo: nat) returns (next: nat)
    requires lo < |src|
    ensures var name := TakeName(src[lo + 1..]);
      && src[lo..][1..] == src[lo + 1..] && next == lo + 1 + |name| <= |src| && src[lo + 1..][|name|..] == src[next..]
  {
    next := lo + 1 + |TakeName(src[lo + 1..])|;
  }

  lemma CharRead(src: string, lo: nat, r: Parsed<Word>, segs: seq<Seg>, news: seq<Seg>)
    requires SegsListed(src, lo + 1, r, segs, news)
    ensures SegsListed(src, lo, r, segs, news)
  {
    if r.Took? { SubsWiden(src, news, lo + 1, lo, At(src, r.rest)); }
  }

  lemma VarRead(src: string, segs: seq<Seg>, lit: string, name: string, lo: nat, next: nat, r: Parsed<Word>,
      rest: seq<Seg>)
    returns (news: seq<Seg>)
    requires lo <= next && SegsListed(src, next, r, Flush(segs, lit) + [Var(name)], rest)
    ensures SegsListed(src, lo, r, segs, news)
  {
    news := Flush([], lit) + ([Var(name)] + rest);
    if r.Took? {
      SubsBehind(src, Var(name), rest, next, lo, At(src, r.rest));
      FlushBehind(src, segs, lit, [Var(name)] + rest, lo, At(src, r.rest));
      Prepend(Flush(segs, lit), Var(name), rest);
    }
  }

  lemma SubsRead(src: string, segs: seq<Seg>, lit: string, sub: seq<Command>, lo: nat, next: nat, r: Parsed<Word>,
      rest: seq<Seg>)
    returns (news: seq<Seg>)
    requires SubAt(src, sub, lo, next) && SegsListed(src, next, r, Flush(segs, lit) + [Sub(sub)], rest)
    ensures SegsListed(src, lo, r, segs, news)
  {
    news := Flush([], lit) + ([Sub(sub)] + rest);
    if r.Took? {
      SubsAfter(src, sub, rest, lo, next, At(src, r.rest));
      FlushBehind(src, segs, lit, [Sub(sub)] + rest, lo, At(src, r.rest));
      Prepend(Flush(segs, lit), Sub(sub), rest);
    }
  }

  lemma BareDone(src: string, lo: nat, nested: bool, segs: seq<Seg>, lit: string) returns (news: seq<Seg>)
    requires lo <= |src| && (lo < |src| ==> EndsWord(src[lo], nested))
    ensures SegsListed(src, lo, BareOf(Total(src), src[lo..], nested, segs, lit), segs, news)
  {
    FlushBehind(src, segs, lit, [], lo, lo);
    news := Flush([], lit) + [];
    assert Flush(segs, lit) + [] == Flush(segs, lit);
  }

  lemma {:induction false} LocateBare(src: string, lo: nat, nested: bool, segs: seq<Seg>, lit: string)
      returns (news: seq<Seg>)
    requires lo <= |src|
    ensures SegsListed(src, lo, BareOf(Total(src), src[lo..], nested, segs, lit), segs, news)
    decreases |src| - lo, 1
  {
    news := [];
    if lo == |src| || EndsWord(src[lo], nested) {
      news := BareDone(src, lo, nested, segs, lit);
    } else {
      var next := PastName(src, lo);
      var r := BareOf(Total(src), src[lo..], nested, segs, lit);
      if src[lo] == '$' {
        var name := TakeName(src[lo + 1..]);
        var rest := LocateBare(src, next, nested, Flush(segs, lit) + [Var(name)], "");
        news := VarRead(src, segs, lit, name, lo, next, r, rest);
      } else if src[lo] == '[' {
        var c := CommandsOf(Total(src), src[lo + 1..], true, [], "");
        if c.Took? {
          SubRead(src, lo);
          var rest := LocateBare(src, At(src, c.rest), nested, Flush(segs, lit) + [Sub(c.value)], "");
          news := SubsRead(src, segs, lit, c.value, lo, At(src, c.rest), r, rest);
        }
      } else {
        news := LocateBare(src, lo + 1, nested, segs, lit + [src[lo]]);
        CharRead(src, lo, r, segs, news);
      }
    }
  }

  lemma {:induction false} LocateQuoted(src: string, lo: nat, segs: seq<Seg>, lit: string) returns (news: seq<Seg>)
    requires lo <= |src|
    ensures SegsListed(src, lo, QuotedOf(Total(src), src[lo..], segs, lit), segs, news)
    decreases |src| - lo, 1
  {
    news := [];
    if lo < |src| && src[lo] != '\n' {
      var next := PastName(src, lo);
      var r := QuotedOf(Total(src), src[lo..], segs, lit);
      if src[lo] == '"' {
        news := QuoteClosed(src, segs, lit, lo);
      } else if src[lo] == '$' {
        var name := TakeName(src[lo + 1..]);
        var rest := LocateQuoted(src, next, Flush(segs, lit) + [Var(name)], "");
        news := VarRead(src, segs, lit, name, lo, next, r, rest);
      } else if src[lo] == '[' {
        var c := CommandsOf(Total(src), src[lo + 1..], true, [], "");
        if c.Took? {
          SubRead(src, lo);
          var rest := LocateQuoted(src, At(src, c.rest), Flush(segs, lit) + [Sub(c.value)], "");
          news := SubsRead(src, segs, lit, c.value, lo, At(src, c.rest), r, rest);
        }
      } else {
        news := LocateQuoted(src, lo + 1, segs, lit + [src[lo]]);
        CharRead(src, lo, r, segs, news);
      }
    }
  }

  /** At the closing quote: an empty word holds one empty literal. */
  lemma QuoteClosed(src: string, segs: seq<Seg>, lit: string, lo: nat) returns (news: seq<Seg>)
    requires lo < |src| && src[lo] == '"'
    ensures SegsListed(src, lo, QuotedOf(Total(src), src[lo..], segs, lit), segs, news)
  {
    assert src[lo..][1..] == src[lo + 1..];
    if Flush(segs, lit) == [] {
      news := [Lit("")];
      SubsBehind(src, Lit(""), [], lo, lo, lo + 1);
      assert [Lit("")] + [] == [Lit("")];
    } else {
      FlushBehind(src, segs, lit, [], lo, lo + 1);
      news := Flush([], lit) + [];
      assert Flush(segs, lit) + [] == Flush(segs, lit);
    }
  }

  /** The substitution whose bracket opens at `lo`. */
  lemma {:induction false} SubRead(src: string, lo: nat)
    requires lo < |src| && src[lo] == '['
    ensures var c := CommandsOf(Total(src), src[lo + 1..], true, [], "");
      c.Took? ==> EndOf(src, c.rest) && SubAt(src, c.value, lo, At(src, c.rest))
    decreases |src| - lo, 0
  {
    var news := LocateCommands(src, lo + 1, true, [], "");
    assert [] + news == news;
  }

  lemma ListedFromNothing(src: string, r: Parsed<seq<Command>>, news: seq<Command>)
    requires r.Took? && Listed(src, false, 0, r, [], news)
    ensures Located(src, false, r.value, 0, |src|)
  {
    assert [] + news == news;
  }

  /** The script read as one list, and where its commands are. */
  lemma WholeScript(src: string) returns (r: Parsed<seq<Command>>, news: seq<Command>)
    ensures Listed(src, false, 0, r, [], news)
    ensures ParseOf(src).Ok? ==> r.Took? && ParseOf(src).value == r.value
  {
    assert src[0..] == src;
    r := CommandsOf(Total(src), src, false, [], "");
    news := LocateCommands(src, 0, false, [], "");
  }

  /** Every command of a parsed script, at whatever depth, is where its line says, in order, and none is missing. */
  lemma LinesAreTrue(src: string)
    ensures ParseOf(src).Ok? ==> Located(src, false, ParseOf(src).value, 0, |src|)
  {
    var r, news := WholeScript(src);
    if ParseOf(src).Ok? {
      ListedFromNothing(src, r, news);
    }
  }

  /** Read off a located list: where its commands start, strictly later each time, on the lines they carry. */
  lemma {:induction false} StartsIncrease(src: string, nested: bool, cmds: seq<Command>, lo: nat, hi: nat)
      returns (starts: seq<nat>)
    requires lo <= |src| && Located(src, nested, cmds, lo, hi)
    ensures |starts| == |cmds| && (forall i, j :: 0 <= i < j < |starts| ==> starts[i] < starts[j])
    ensures forall i :: 0 <= i < |starts| ==>
      && lo <= starts[i] < |src| && cmds[i].line == LineAt(src, starts[i])
      && var r := WordsOf(Total(src), src[starts[i]..], nested, []); r.Took? && r.value == cmds[i].words
  {
    starts := [];
    if cmds != [] {
      var p := At(src, Resume(src[lo..]));
      var r := WordsOf(Total(src), src[p..], nested, []);
      var rest := StartsIncrease(src, nested, cmds[1..], At(src, r.rest), hi);
      starts := [p] + rest;
    }
  }

  // ---------------------------------------------------------------- scripts that are rejected

  /** Reading a list of commands from `lo` stops for good at `p`. */
  ghost predicate CommandsStop(src: string, nested: bool, lo: nat, p: nat, problem: Problem)
    requires lo <= |src|
    decreases |src| - lo, 4
  {
    var q := At(src, Resume(src[lo..]));
    if q == |src| then nested && p == |src| && problem == MissingBracket
    else if nested && src[q] == ']' then false
    else
      match WordsOf(Total(src), src[q..], nested, [])
      case Fail(_, _) => WordsStop(src, nested, q, p, problem)
      case Took(_, rest) => lo < At(src, rest) && CommandsStop(src, nested, At(src, rest), p, problem)
  }

  ghost predicate WordsStop(src: string, nested: bool, lo: nat, p: nat, problem: Problem)
    requires lo <= |src|
    decreases |src| - lo, 3
  {
    var w := At(src, SkipSpaces(src[lo..]));
    w < |src| && !EndsWord(src[w], nested) &&
    match WordOf(Total(src), src[w..], nested)
    case Fail(_, _) => WordStops(src, nested, w, p, problem)
    case Took(_, rest) => lo < At(src, rest) && WordsStop(src, nested, At(src, rest), p, problem)
  }

  /** An opening brace that is never closed, or a word inside which reading stops. */
  ghost predicate WordStops(src: string, nested: bool, w: nat, p: nat, problem: Problem)
    requires w < |src|
    decreases |src| - w, 2
  {
    if src[w] == '{' then CloseBrace(src[w + 1..], 1) == None && p == w && problem == MissingBrace
    else if src[w] == '"' then QuotedStops(src, w + 1, p, problem)
    else BareStops(src, nested, w, p, problem)
  }

  /** A quote runs into the end of its line or of the script, or a substitution inside it stops. */
  ghost predicate QuotedStops(src: string, lo: nat, p: nat, problem: Problem)
    requires lo <= |src|
    decreases |src| - lo, 1
  {
    if lo == |src| || src[lo] == '\n' then p == lo && problem == MissingQuote
    else if src[lo] == '"' then false
    else if src[lo] == '$' then QuotedStops(src, lo + 1 + |TakeName(src[lo + 1..])|, p, problem)
    else if src[lo] == '[' then
      match CommandsOf(Total(src), src[lo + 1..], true, [], "")
      case Fail(_, _) => CommandsStop(src, true, lo + 1, p, problem)
      case Took(_, rest) => lo < At(src, rest) && QuotedStops(src, At(src, rest), p, problem)
    else QuotedStops(src, lo + 1, p, problem)
  }

  ghost predicate BareStops(src: string, nested: bool, lo: nat, p: nat, problem: Problem)
    requires lo <= |src|
    decreases |src| - lo, 1
  {
    if lo == |src| || EndsWord(src[lo], nested) then false
    else if src[lo] == '$' then BareStops(src, nested, lo + 1 + |TakeName(src[lo + 1..])|, p, problem)
    else if src[lo] == '[' then
      match CommandsOf(Total(src), src[lo + 1..], true, [], "")
      case Fail(_, _) => CommandsStop(src, true, lo + 1, p, problem)
      case Took(_, rest) => lo < At(src, rest) && BareStops(src, nested, At(src, rest), p, problem)
    else BareStops(src, nested, lo + 1, p, problem)
  }

  /** Where reading stopped, and the line reported for it. */
  ghost predicate Blames<T>(src: string, r: Parsed<T>, p: nat)
  {
    r.Fail? ==> p <= |src| && r.line == LineAt(src, p)
  }

  lemma {:induction false} StopCommands(src: string, lo: nat, nested: bool, acc: seq<Command>, narration: string)
      returns (p: nat)
    requires lo <= |src|
    ensures var r := CommandsOf(Total(src), src[lo..], nested, acc, narration);
      Blames(src, r, p) && (r.Fail? ==> CommandsStop(src, nested, lo, p, r.problem))
    decreases |src| - lo, 5
  {
    var s := src[lo..];
    var t := SkipBlank(s);
    BlanksEnd(src, s);
    var q := At(src, t);
    p := |src|;
    LineIsTrue(src, |src|);
    if t == "" || (nested && t[0] == ']') {
    } else if t[0] == '#' {
      var lo' := q + |TakeLine(t)|;
      assert t[|TakeLine(t)|..] == src[lo'..];
      p := StopCommands(src, lo', nested, acc, Narrate(TakeLine(t)));
      var r := CommandsOf(Total(src), s, nested, acc, narration);
      if r.Fail? { SameStop(src, nested, lo', lo, p, r.problem); }
    } else {
      CommandsGoOn(Total(src), s, nested, acc, narration);
      p := StopNext(src, lo, q, nested, acc, narration);
    }
  }

  lemma SameStop(src: string, nested: bool, lo: nat, lo': nat, p: nat, problem: Problem)
    requires lo' <= lo <= |src| && Resume(src[lo..]) == Resume(src[lo'..]) && CommandsStop(src, nested, lo, p, problem)
    ensures CommandsStop(src, nested, lo', p, problem)
  {
  }

  lemma {:induction false} StopNext(src: string, lo: nat, q: nat, nested: bool, acc: seq<Command>, narration: string)
      returns (p: nat)
    requires lo <= q < |src| && src[q..] == SkipBlank(src[lo..]) && src[q] != '#' && !EndsWord(src[q], nested)
    ensures var w := WordsOf(Total(src), src[q..], nested, []);
      && Blames(src, w, p) && (w.Fail? ==> CommandsStop(src, nested, lo, p, w.problem))
      && (w.Took? ==>
            var more := if w.value == [] then acc
              else acc + [Command(LineOf(Total(src), src[q..]), narration, w.value)];
            var r := CommandsOf(Total(src), w.rest, nested, more, narration);
            Blames(src, r, p) && (r.Fail? ==> CommandsStop(src, nested, lo, p, r.problem)))
    decreases |src| - q, 4
  {
    p := StopWords(src, q, nested, []);
    var _ := LocateWords(src, q, nested, []);
    var w := WordsOf(Total(src), src[q..], nested, []);
    if w.Fail? {
      StopsInWords(src, nested, lo, q, p, w.problem);
    } else {
      var more := if w.value == [] then acc else acc + [Command(LineOf(Total(src), src[q..]), narration, w.value)];
      var e := At(src, w.rest);
      p := StopCommands(src, e, nested, more, narration);
      var r := CommandsOf(Total(src), w.rest, nested, more, narration);
      if r.Fail? { StopsLater(src, nested, lo, q, e, p, r.problem); }
    }
  }

  lemma StopsInWords(src: string, nested: bool, lo: nat, q: nat, p: nat, problem: Problem)
    requires lo <= |src| && q == At(src, Resume(src[lo..])) && q < |src| && !(nested && src[q] == ']')
    requires WordsOf(Total(src), src[q..], nested, []).Fail? && WordsStop(src, nested, q, p, problem)
    ensures CommandsStop(src, nested, lo, p, problem)
  {
  }

  lemma StopsLater(src: string, nested: bool, lo: nat, q: nat, e: nat, p: nat, problem: Problem)
    requires lo <= |src| && q == At(src, Resume(src[lo..])) && lo <= q < e <= |src| && !(nested && src[q] == ']')
    requires var w := WordsOf(Total(src), src[q..], nested, []); w.Took? && w.rest == src[e..]
    requires CommandsStop(src, nested, e, p, problem)
    ensures CommandsStop(src, nested, lo, p, problem)
  {
    assert At(src, src[e..]) == e;
  }

  lemma {:induction false} StopWords(src: string, lo: nat, nested: bool, acc: seq<Word>) returns (p: nat)
    requires lo <= |src|
    ensures var r := WordsOf(Total(src), src[lo..], nested, acc);
      Blames(src, r, p) && (r.Fail? ==> WordsStop(src, nested, lo, p, r.problem))
    decreases |src| - lo, 3
  {
    p := 0;
    var t := SkipSpaces(src[lo..]);
    SpacesEnd(src, src[lo..]);
    var w := At(src, t);
    if t != "" && !EndsWord(t[0], nested) && t[0] != '#' {
      p := StopWord(src, w, nested);
      LocateWord(src, w, nested);
      var r := WordOf(Total(src), t, nested);
      if r.Took? { p := StopWords(src, At(src, r.rest), nested, acc + [r.value]); }
    }
  }

  lemma {:induction false} StopWord(src: string, w: nat, nested: bool) returns (p: nat)
    requires w < |src| && !EndsWord(src[w], nested)
    ensures var r := WordOf(Total(src), src[w..], nested);
      Blames(src, r, p) && (r.Fail? ==> WordStops(src, nested, w, p, r.problem))
    decreases |src| - w, 2
  {
    assert src[w..][1..] == src[w + 1..];
    p := w;
    if src[w] == '{' {
      LineIsTrue(src, w);
    } else if src[w] == '"' {
      p := StopQuoted(src, w + 1, [], "");
    } else {
      p := StopBare(src, w, nested, [], "");
    }
  }

  lemma {:induction false} StopBare(src: string, lo: nat, nested: bool, segs: seq<Seg>, lit: string) returns (p: nat)
    requires lo <= |src|
    ensures var r := BareOf(Total(src), src[lo..], nested, segs, lit);
      Blames(src, r, p) && (r.Fail? ==> BareStops(src, nested, lo, p, r.problem))
    decreases |src| - lo, 1
  {
    p := 0;
    if lo < |src| && !EndsWord(src[lo], nested) {
      var next := PastName(src, lo);
      if src[lo] == '$' {
        p := StopBare(src, next, nested, Flush(segs, lit) + [Var(TakeName(src[lo + 1..]))], "");
      } else if src[lo] == '[' {
        p := StopCommands(src, lo + 1, true, [], "");
        SubRead(src, lo);
        var c := CommandsOf(Total(src), src[lo + 1..], true, [], "");
        if c.Took? { p := StopBare(src, At(src, c.rest), nested, Flush(segs, lit) + [Sub(c.value)], ""); }
      } else {
        p := StopBare(src, lo + 1, nested, segs, lit + [src[lo]]);
      }
    }
  }

  lemma {:induction false} StopQuoted(src: string, lo: nat, segs: seq<Seg>, lit: string) returns (p: nat)
    requires lo <= |src|
    ensures var r := QuotedOf(Total(src), src[lo..], segs, lit);
      Blames(src, r, p) && (r.Fail? ==> QuotedStops(src, lo, p, r.problem))
    decreases |src| - lo, 1
  {
    p := lo;
    if lo == |src| || src[lo] == '\n' {
      LineIsTrue(src, lo);
    } else if src[lo] != '"' {
      var next := PastName(src, lo);
      if src[lo] == '$' {
        p := StopQuoted(src, next, Flush(segs, lit) + [Var(TakeName(src[lo + 1..]))], "");
      } else if src[lo] == '[' {
        p := StopCommands(src, lo + 1, true, [], "");
        SubRead(src, lo);
        var c := CommandsOf(Total(src), src[lo + 1..], true, [], "");
        if c.Took? { p := StopQuoted(src, At(src, c.rest), Flush(segs, lit) + [Sub(c.value)], ""); }
      } else {
        p := StopQuoted(src, lo + 1, segs, lit + [src[lo]]);
      }
    }
  }

  /** A rejected script is blamed on the line of the position where reading stopped. */
  lemma ErrorLinesAreTrue(src: string) returns (p: nat)
    ensures var r := ParseOf(src);
      r.Err? ==> p <= |src| && r.line == LineAt(src, p) && CommandsStop(src, false, 0, p, r.problem)
  {
    assert src[0..] == src;
    p := StopCommands(src, 0, false, [], "");
  }

  /** There is only one such position. */
  lemma {:induction false} StopIsUnique(src: string, nested: bool, lo: nat, p: nat, problem: Problem, p': nat,
      problem': Problem)
    requires lo <= |src| && CommandsStop(src, nested, lo, p, problem) && CommandsStop(src, nested, lo, p', problem')
    ensures p == p' && problem == problem'
    decreases |src| - lo, 4
  {
    var q := At(src, Resume(src[lo..]));
    if q < |src| && !(nested && src[q] == ']') {
      match WordsOf(Total(src), src[q..], nested, [])
      case Fail(_, _) => WordsStopIsUnique(src, nested, q, p, problem, p', problem');
      case Took(_, rest) => StopIsUnique(src, nested, At(src, rest), p, problem, p', problem');
    }
  }

  lemma {:induction false} WordsStopIsUnique(src: string, nested: bool, lo: nat, p: nat, problem: Problem, p': nat,
      problem': Problem)
    requires lo <= |src| && WordsStop(src, nested, lo, p, problem) && WordsStop(src, nested, lo, p', problem')
    ensures p == p' && problem == problem'
    decreases |src| - lo, 3
  {
    var w := At(src, SkipSpaces(src[lo..]));
    match WordOf(Total(src), src[w..], nested)
    case Fail(_, _) =>
      if src[w] == '"' {
        QuotedStopIsUnique(src, w + 1, p, problem, p', problem');
      } else if src[w] != '{' {
        BareStopIsUnique(src, nested, w, p, problem, p', problem');
      }
    case Took(_, rest) => WordsStopIsUnique(src, nested, At(src, rest), p, problem, p', problem');
  }

  lemma {:induction false} QuotedStopIsUnique(src: string, lo: nat, p: nat, problem: Problem, p': nat,
      problem': Problem)
    requires lo <= |src| && QuotedStops(src, lo, p, problem) && QuotedStops(src, lo, p', problem')
    ensures p == p' && problem == problem'
    decreases |src| - lo, 1
  {
    if lo < |src| && src[lo] != '\n' && src[lo] != '"' {
      if src[lo] == '$' {
        QuotedStopIsUnique(src, lo + 1 + |TakeName(src[lo + 1..])|, p, problem, p', problem');
      } else if src[lo] == '[' {
        match CommandsOf(Total(src), src[lo + 1..], true, [], "")
        case Fail(_, _) => StopIsUnique(src, true, lo + 1, p, problem, p', problem');
        case Took(_, rest) => QuotedStopIsUnique(src, At(src, rest), p, problem, p', problem');
      } else {
        QuotedStopIsUnique(src, lo + 1, p, problem, p', problem');
      }
    }
  }

  lemma {:induction false} BareStopIsUnique(src: string, nested: bool, lo: nat, p: nat, problem: Problem, p': nat,
      problem': Problem)
    requires lo <= |src| && BareStops(src, nested, lo, p, problem) && BareStops(src, nested, lo, p', problem')
    ensures p == p' && problem == problem'
    decreases |src| - lo, 1
  {
    if src[lo] == '$' {
      BareStopIsUnique(src, nested, lo + 1 + |TakeName(src[lo + 1..])|, p, problem, p', problem');
    } else if src[lo] == '[' {
      match CommandsOf(Total(src), src[lo + 1..], true, [], "")
      case Fail(_, _) => StopIsUnique(src, true, lo + 1, p, problem, p', problem');
      case Took(_, rest) => BareStopIsUnique(src, nested, At(src, rest), p, problem, p', problem');
    } else {
      BareStopIsUnique(src, nested, lo + 1, p, problem, p', problem');
    }
  }
}
