/**
 What the parser is for: it undoes printing, exactly for the trees in which no literal that begins like
 a name follows a variable.
 */
module ParserProofs {
  import opened Prelude
  import opened Strings
  import opened Parser

  // ---------------------------------------------------------------- printing

  /** Each command on its own line, below the comment that narrates it. */
  function PrintCommands(cmds: seq<Command>): string
  {
    if cmds == [] then "" else PrintNarration(cmds[0].narration) + PrintCommand(cmds[0], PrintCommands(cmds[1..]))
  }

  function PrintNarration(narration: string): string
  {
    "#" + (narration + "\n")
  }

  function PrintCommand(c: Command, more: string): string
  {
    PrintWords(c.words) + ("\n" + more)
  }

  function PrintWords(words: seq<Word>): string
  {
    if words == [] then "" else PrintWord(words[0]) + (" " + PrintWords(words[1..]))
  }

  function PrintWord(w: Word): string
  {
    if w.braced then "{" + ((if w.segs == [] then "" else w.segs[0].lit) + "}")
    else "\"" + (PrintSegs(w.segs) + "\"")
  }

  function PrintSegs(segs: seq<Seg>): string
  {
    if segs == [] then "" else PrintSeg(segs[0]) + PrintSegs(segs[1..])
  }

  function PrintSeg(g: Seg): string
  {
    if g.sub != [] then "[" + (PrintCommands(g.sub) + "]")
    else if g.name != "" then "$" + g.name
    else g.lit
  }

  // ---------------------------------------------------------------- canonical trees

  predicate IsLit(g: Seg)
  {
    g.name == "" && g.sub == []
  }

  /** Characters that stand for themselves inside quotes. */
  predicate Plain(text: string)
  {
    forall i :: 0 <= i < |text| ==> text[i] != '"' && text[i] != '$' && text[i] != '[' && text[i] != '\n'
  }

  predicate GoodName(name: string)
  {
    forall i :: 0 <= i < |name| ==> NameChar(name[i])
  }

  /** Exactly one of a plain literal, a name and a non-empty substitution. */
  predicate CanonicalSeg(g: Seg)
  {
    if g.sub != [] then g.lit == "" && g.name == "" && CanonicalCommands(g.sub)
    else if g.name != "" then g.lit == "" && GoodName(g.name)
    else g.lit != "" && Plain(g.lit)
  }

  /** No literal follows a literal, and none that begins like a name follows a variable: no text would say so. */
  predicate CanonicalSegs(segs: seq<Seg>)
  {
    segs == [] ||
    (CanonicalSeg(segs[0]) && CanonicalSegs(segs[1..]) &&
     (|segs| > 1 && IsLit(segs[1]) ==>
       !IsLit(segs[0]) && (segs[0].name != "" && segs[1].lit != "" ==> !NameChar(segs[1].lit[0]))))
  }

  predicate Balanced(text: string, depth: nat)
  {
    if text == "" then depth == 0
    else if text[0] == '{' then Balanced(text[1..], depth + 1)
    else if text[0] == '}' then depth > 0 && Balanced(text[1..], depth - 1)
    else Balanced(text[1..], depth)
  }

  predicate CanonicalWord(w: Word)
  {
    if w.braced then |w.segs| == 1 && IsLit(w.segs[0]) && Balanced(w.segs[0].lit, 0)
    else w.segs == [Lit("")] || (w.segs != [] && CanonicalSegs(w.segs))
  }

  predicate CanonicalWords(words: seq<Word>)
  {
    words == [] || (CanonicalWord(words[0]) && CanonicalWords(words[1..]))
  }

  /** One line of text without blanks at its ends. */
  predicate OneLine(narration: string)
  {
    TrimSpace(narration) == narration && '\n' !in narration
  }

  predicate CanonicalCommands(cmds: seq<Command>)
  {
    cmds == [] || (cmds[0].words != [] && CanonicalWords(cmds[0].words) && OneLine(cmds[0].narration) &&
      CanonicalCommands(cmds[1..]))
  }

  // ---------------------------------------------------------------- up to lines

  function Erase(cmds: seq<Command>): seq<Command>
  {
    if cmds == [] then [] else [Command(0, cmds[0].narration, EraseWords(cmds[0].words))] + Erase(cmds[1..])
  }

  function EraseWords(words: seq<Word>): seq<Word>
  {
    if words == [] then [] else [Word(words[0].braced, EraseSegs(words[0].segs))] + EraseWords(words[1..])
  }

  function EraseSegs(segs: seq<Seg>): seq<Seg>
  {
    if segs == [] then [] else [Seg(segs[0].lit, segs[0].name, Erase(segs[0].sub))] + EraseSegs(segs[1..])
  }

  // ---------------------------------------------------------------- scanning what was printed

  lemma {:induction false} NameTaken(name: string, more: string)
    requires GoodName(name) && (more != "" ==> !NameChar(more[0]))
    ensures TakeName(name + more) == name
  {
    if name == "" {
      assert name + more == more;
    } else {
      assert (name + more)[1..] == name[1..] + more;
      NameTaken(name[1..], more);
    }
  }

  lemma {:induction false} BraceFound(text: string, depth: nat, more: string)
    requires depth > 0 && Balanced(text, depth - 1)
    ensures CloseBrace(text + ("}" + more), depth) == Some(|text|)
  {
    var s := text + ("}" + more);
    if text == "" {
      assert s[0] == '}';
    } else {
      assert s[1..] == text[1..] + ("}" + more);
      BraceFound(text[1..], if text[0] == '{' then depth + 1 else if text[0] == '}' then depth - 1 else depth, more);
    }
  }

  /** Plain text is collected into the pending literal. */
  lemma {:induction false} PlainCollected(total: int, text: string, more: string, segs: seq<Seg>, lit: string)
    requires Plain(text)
    ensures QuotedOf(total, text + more, segs, lit) == QuotedOf(total, more, segs, lit + text)
  {
    if text == "" {
      assert text + more == more && lit + text == lit;
    } else {
      assert (text + more)[1..] == text[1..] + more;
      PlainCollected(total, text[1..], more, segs, lit + [text[0]]);
      assert lit + [text[0]] + text[1..] == lit + text;
    }
  }

  // ---------------------------------------------------------------- reading back, level by level

  /** What a printed list of segments begins with, before `more`. */
  lemma PrintedStart(segs: seq<Seg>, more: string)
    requires CanonicalSegs(segs) && segs != []
    ensures var s := PrintSegs(segs) + more;
      && s != "" && (segs[0].sub != [] ==> s[0] == '[') && (segs[0].sub == [] && segs[0].name != "" ==> s[0] == '$')
      && (IsLit(segs[0]) ==> segs[0].lit != "" && s[0] == segs[0].lit[0])
  {
  }

  /** After a variable comes nothing that could prolong its name. */
  lemma NameEnds(segs: seq<Seg>, more: string)
    requires CanonicalSegs(segs) && segs != [] && segs[0].name != "" && more != "" && more[0] == '"'
    ensures var tail := PrintSegs(segs[1..]) + more; tail != "" && !NameChar(tail[0])
  {
    if |segs| > 1 {
      PrintedStart(segs[1..], more);
    } else {
      assert PrintSegs(segs[1..]) + more == more;
    }
  }

  lemma FirstPrinted(segs: seq<Seg>, more: string)
    requires segs != []
    ensures PrintSegs(segs) + more == PrintSeg(segs[0]) + (PrintSegs(segs[1..]) + more)
  {
  }

  lemma VarStep(total: int, name: string, tail: string, acc: seq<Seg>, lit: string)
    requires GoodName(name) && tail != "" && !NameChar(tail[0])
    ensures QuotedOf(total, "$" + name + tail, acc, lit) == QuotedOf(total, tail, Flush(acc, lit) + [Var(name)], "")
  {
    var s := "$" + name + tail;
    assert s[1..] == name + tail;
    NameTaken(name, tail);
    assert s[1..][|name|..] == tail;
  }

  lemma SubStep(total: int, body: string, tail: string, cmds: seq<Command>, acc: seq<Seg>, lit: string)
    requires CommandsOf(total, body + ("]" + tail), true, [], "") == Took(cmds, tail)
    ensures QuotedOf(total, "[" + (body + "]") + tail, acc, lit) ==
      QuotedOf(total, tail, Flush(acc, lit) + [Sub(cmds)], "")
  {
    var s := "[" + (body + "]") + tail;
    assert s[1..] == body + ("]" + tail);
  }

  lemma LitStep(total: int, text: string, tail: string, acc: seq<Seg>)
    requires Plain(text)
    ensures QuotedOf(total, text + tail, acc, "") == QuotedOf(total, tail, acc, text)
  {
    PlainCollected(total, text, tail, acc, "");
    assert "" + text == text;
  }

  lemma Prepend<T>(acc: seq<T>, first: T, rest: seq<T>)
    ensures acc + [first] + rest == acc + ([first] + rest)
  {
  }

  /** A word as read from these segments; an empty one holds an empty literal. */
  function WordFrom(all: seq<Seg>): Word
  {
    Word(false, if all == [] then [Lit("")] else all)
  }

  lemma {:induction false} ReadSegs(total: int, segs: seq<Seg>, more: string, acc: seq<Seg>, lit: string)
      returns (read: seq<Seg>)
    requires CanonicalSegs(segs) && (lit != "" && segs != [] ==> !IsLit(segs[0]))
    requires more != "" && more[0] == '"'
    ensures QuotedOf(total, PrintSegs(segs) + more, acc, lit) == Took(WordFrom(Flush(acc, lit) + read), more[1..])
    ensures EraseSegs(read) == EraseSegs(segs)
    decreases segs, 1
  {
    if segs == [] {
      read := [];
      assert PrintSegs(segs) + more == more;
      assert Flush(acc, lit) + [] == Flush(acc, lit);
    } else {
      var g, tail := segs[0], PrintSegs(segs[1..]) + more;
      FirstPrinted(segs, more);
      var first, rest := g, [];
      if IsLit(g) {
        LitStep(total, g.lit, tail, acc);
        rest := ReadSegs(total, segs[1..], more, acc, g.lit);
        Prepend(acc, g, rest);
      } else {
        if g.name != "" { NameEnds(segs, more); }
        first := ReadSeg(total, g, tail, acc, lit);
        rest := ReadSegs(total, segs[1..], more, Flush(acc, lit) + [first], "");
        Prepend(Flush(acc, lit), first, rest);
      }
      read := [first] + rest;
      EraseSegsCons(first, rest, segs);
    }
  }

  lemma EraseSegsCons(g: Seg, rest: seq<Seg>, segs: seq<Seg>)
    requires segs != [] && g.lit == segs[0].lit && g.name == segs[0].name && Erase(g.sub) == Erase(segs[0].sub)
    requires EraseSegs(rest) == EraseSegs(segs[1..])
    ensures EraseSegs([g] + rest) == EraseSegs(segs)
  {
    assert ([g] + rest)[1..] == rest;
  }

  /** One variable or substitution. */
  lemma {:induction false} ReadSeg(total: int, g: Seg, tail: string, acc: seq<Seg>, lit: string) returns (read: Seg)
    requires CanonicalSeg(g) && !IsLit(g)
    requires g.name != "" ==> tail != "" && !NameChar(tail[0])
    ensures QuotedOf(total, PrintSeg(g) + tail, acc, lit) == QuotedOf(total, tail, Flush(acc, lit) + [read], "")
    ensures read.lit == g.lit && read.name == g.name && Erase(read.sub) == Erase(g.sub)
    decreases g, 0
  {
    if g.name != "" {
      VarStep(total, g.name, tail, acc, lit);
      read := Var(g.name);
    } else {
      var cmds := ReadCommands(total, g.sub, "]" + tail, true, [], "");
      assert ("]" + tail)[1..] == tail && [] + cmds == cmds;
      SubStep(total, PrintCommands(g.sub), tail, cmds, acc, lit);
      read := Sub(cmds);
    }
  }

  lemma {:induction false} ReadWord(total: int, w: Word, more: string, nested: bool) returns (read: Word)
    requires CanonicalWord(w)
    ensures var s := PrintWord(w) + more;
      s != "" && !EndsWord(s[0], nested) && s[0] != '#' && WordOf(total, s, nested) == Took(read, more)
    ensures EraseWords([read]) == EraseWords([w])
    decreases w, 1
  {
    var s := PrintWord(w) + more;
    if w.braced {
      var text := w.segs[0].lit;
      read := Word(true, [Lit(text)]);
      assert s[1..] == text + ("}" + more);
      BraceFound(text, 1, more);
      assert s[1..][..|text|] == text && s[1..][|text| + 1..] == more;
      assert w.segs == [w.segs[0]];
    } else {
      assert s[1..] == PrintSegs(w.segs) + ("\"" + more);
      assert ("\"" + more)[1..] == more;
      if w.segs == [Lit("")] {
        assert s[1..] == "\"" + more;
        read := w;
      } else {
        var segs := ReadSegs(total, w.segs, "\"" + more, [], "");
        assert [] + segs == segs;
        assert EraseSegs(segs) != [];
        read := Word(false, segs);
      }
    }
  }

  /** Reading words appends them to those read before, and the newline ends the command. */
  lemma {:induction false} ReadWords(total: int, words: seq<Word>, more: string, nested: bool, acc: seq<Word>)
      returns (read: seq<Word>)
    requires CanonicalWords(words)
    ensures WordsOf(total, PrintWords(words) + ("\n" + more), nested, acc) == Took(acc + read, more)
    ensures WordsOf(total, " " + (PrintWords(words) + ("\n" + more)), nested, acc) == Took(acc + read, more)
    ensures EraseWords(read) == EraseWords(words)
    decreases words, 2
  {
    var s := PrintWords(words) + ("\n" + more);
    assert (" " + s)[1..] == s;
    if words == [] {
      read := [];
      assert s == "\n" + more && s[1..] == more;
      assert acc + read == acc;
    } else {
      var tail := " " + (PrintWords(words[1..]) + ("\n" + more));
      assert s == PrintWord(words[0]) + tail;
      var w := ReadWord(total, words[0], tail, nested);
      var rest := ReadWords(total, words[1..], more, nested, acc + [w]);
      read := [w] + rest;
      assert acc + [w] + rest == acc + read;
      assert SkipSpaces(s) == s;
      EraseWordsCons(w, rest, words);
    }
  }

  lemma EraseWordsCons(w: Word, rest: seq<Word>, words: seq<Word>)
    requires words != [] && EraseWords([w]) == EraseWords([words[0]]) && EraseWords(rest) == EraseWords(words[1..])
    ensures EraseWords([w] + rest) == EraseWords(words)
  {
    assert ([w] + rest)[1..] == rest;
    assert EraseWords([w]) == [Word(w.braced, EraseSegs(w.segs))] + EraseWords([]);
    assert EraseWords([words[0]])[0] == Word(words[0].braced, EraseSegs(words[0].segs));
  }

  lemma {:induction false} ReadCommands(total: int, cmds: seq<Command>, more: string, nested: bool, acc: seq<Command>,
      narration: string) returns (read: seq<Command>)
    requires CanonicalCommands(cmds)
    requires if nested then more != "" && more[0] == ']' else more == ""
    ensures CommandsOf(total, PrintCommands(cmds) + more, nested, acc, narration) == Took(acc + read, if nested
      then more[1..] else "")
    ensures Erase(read) == Erase(cmds)
    decreases cmds, 3
  {
    var s := PrintCommands(cmds) + more;
    if cmds == [] {
      read := [];
      assert s == more && acc + read == acc;
    } else {
      var tail := PrintCommands(cmds[1..]) + more;
      var n, t := cmds[0].narration, PrintWords(cmds[0].words) + ("\n" + tail);
      assert PrintCommand(cmds[0], PrintCommands(cmds[1..])) + more == t;
      assert s == PrintNarration(n) + t;
      var words := ReadWords(total, cmds[0].words, tail, nested, []);
      assert [] + words == words;
      PrintedWordStarts(cmds[0].words, "\n" + tail);
      assert EraseWords(words) != [];
      CommentStep(total, n, t, nested, acc, narration);
      CommandStep(total, t, nested, acc, n, words, tail);
      var cmd := Command(LineOf(total, t), n, words);
      var rest := ReadCommands(total, cmds[1..], more, nested, acc + [cmd], n);
      Prepend(acc, cmd, rest);
      read := [cmd] + rest;
      assert read[1..] == rest;
    }
  }

  lemma {:induction false} LineTaken(text: string, more: string)
    requires '\n' !in text
    ensures TakeLine(text + ("\n" + more)) == text
  {
    var s := text + ("\n" + more);
    if text == "" {
      assert s[0] == '\n';
    } else {
      assert s[1..] == text[1..] + ("\n" + more);
      LineTaken(text[1..], more);
    }
  }

  lemma CommentStep(total: int, n: string, t: string, nested: bool, acc: seq<Command>, narration: string)
    requires OneLine(n)
    ensures CommandsOf(total, PrintNarration(n) + t, nested, acc, narration) == CommandsOf(total, t, nested, acc, n)
  {
    var s := PrintNarration(n) + t;
    assert s == ("#" + n) + ("\n" + t) && s[0] == '#';
    LineTaken("#" + n, t);
    assert s[|"#" + n|..] == "\n" + t && ("#" + n)[1..] == n;
    assert SkipBlank(s) == s && ("\n" + t)[1..] == t && SkipBlank("\n" + t) == SkipBlank(t);
  }

  lemma CommandStep(total: int, s: string, nested: bool, acc: seq<Command>, narration: string, words: seq<Word>,
      tail: string)
    requires
      && s != ""
      && (s[0] == '{' || s[0] == '"')
      && words != []
      && WordsOf(total, s, nested, []) == Took(words, tail)
    ensures CommandsOf(total, s, nested, acc, narration) ==
      CommandsOf(total, tail, nested, acc + [Command(LineOf(total, s), narration, words)], narration)
  {
    assert SkipBlank(s) == s;
  }

  lemma PrintedWordStarts(words: seq<Word>, more: string)
    requires words != []
    ensures var s := PrintWords(words) + more; s != "" && (s[0] == '{' || s[0] == '"')
  {
    var w := PrintWord(words[0]);
    assert (PrintWords(words) + more)[0] == w[0];
  }

  /** Parsing undoes printing, narration included, up to line numbers. */
  lemma ParseUndoesPrint(cmds: seq<Command>)
    requires CanonicalCommands(cmds)
    ensures ParseOf(PrintCommands(cmds)).Ok? && Erase(ParseOf(PrintCommands(cmds)).value) == Erase(cmds)
  {
    var src := PrintCommands(cmds);
    assert src + "" == src;
    var read := ReadCommands(1 + Newlines(src), cmds, "", false, [], "");
    assert [] + read == read;
  }

  // ---------------------------------------------------------------- exactly when

  /** Canonical but for what may follow a variable. */
  predicate PrintableSeg(g: Seg)
  {
    if g.sub != [] then g.lit == "" && g.name == "" && PrintableCommands(g.sub)
    else if g.name != "" then g.lit == "" && GoodName(g.name)
    else g.lit != "" && Plain(g.lit)
  }

  predicate PrintableSegs(segs: seq<Seg>)
  {
    segs == [] ||
    (PrintableSeg(segs[0]) && PrintableSegs(segs[1..]) && (|segs| > 1 && IsLit(segs[1]) ==> !IsLit(segs[0])))
  }

  predicate PrintableWord(w: Word)
  {
    if w.braced then |w.segs| == 1 && IsLit(w.segs[0]) && Balanced(w.segs[0].lit, 0)
    else w.segs == [Lit("")] || (w.segs != [] && PrintableSegs(w.segs))
  }

  predicate PrintableWords(words: seq<Word>)
  {
    words == [] || (PrintableWord(words[0]) && PrintableWords(words[1..]))
  }

  predicate PrintableCommands(cmds: seq<Command>)
  {
    cmds == [] || (cmds[0].words != [] && PrintableWords(cmds[0].words) && OneLine(cmds[0].narration) &&
      PrintableCommands(cmds[1..]))
  }

  /** This segment does not begin in a way that would have prolonged the name before it. */
  predicate Apart(a: Seg, b: Seg)
  {
    a.name != "" && IsLit(b) && b.lit != "" ==> !NameChar(b.lit[0])
  }

  /** Nowhere in the tree does a literal that begins like a name follow a variable. */
  predicate NameSafe(cmds: seq<Command>)
  {
    forall i :: 0 <= i < |cmds| ==> NameSafeWords(cmds[i].words)
  }

  predicate NameSafeWords(words: seq<Word>)
  {
    forall i :: 0 <= i < |words| ==> NameSafeSegs(words[i].segs)
  }

  predicate NameSafeSegs(segs: seq<Seg>)
  {
    && (forall i :: 0 <= i < |segs| ==> NameSafe(segs[i].sub))
    && (forall i :: 0 <= i < |segs| - 1 ==> Apart(segs[i], segs[i + 1]))
  }

  lemma {:induction false} CanonicalSegsIff(segs: seq<Seg>)
    ensures CanonicalSegs(segs) <==> PrintableSegs(segs) && NameSafeSegs(segs)
    decreases segs
  {
    if segs != [] {
      var g, rest := segs[0], segs[1..];
      CanonicalIff(g.sub);
      CanonicalSegsIff(rest);
      assert segs == [g] + rest;
      NameSafeCons(g, rest);
    }
  }

  lemma NameSafeCons(g: Seg, rest: seq<Seg>)
    ensures NameSafeSegs([g] + rest) <==> NameSafe(g.sub) && NameSafeSegs(rest) && (rest != [] ==> Apart(g, rest[0]))
  {
    var all := [g] + rest;
    assert forall i :: 0 <= i < |rest| ==> all[i + 1] == rest[i];
    if NameSafeSegs(all) {
      assert all[0] == g;
      assert rest != [] ==> Apart(all[0], all[1]);
      forall i | 0 <= i < |rest| ensures NameSafe(rest[i].sub) {
        assert NameSafe(all[i + 1].sub);
      }
      forall i | 0 <= i < |rest| - 1 ensures Apart(rest[i], rest[i + 1]) {
        assert Apart(all[i + 1], all[i + 2]);
      }
    }
    if NameSafe(g.sub) && NameSafeSegs(rest) && (rest != [] ==> Apart(g, rest[0])) {
      forall i | 0 <= i < |all| ensures NameSafe(all[i].sub) {
        if i > 0 { assert all[i] == rest[i - 1]; }
      }
      forall i | 0 <= i < |all| - 1 ensures Apart(all[i], all[i + 1]) {
        if i > 0 { assert Apart(rest[i - 1], rest[i]); }
      }
    }
  }

  lemma NameSafeWordsCons(w: Word, rest: seq<Word>)
    ensures NameSafeWords([w] + rest) <==> NameSafeSegs(w.segs) && NameSafeWords(rest)
  {
    var all := [w] + rest;
    assert all[0] == w && forall i :: 0 <= i < |rest| ==> all[i + 1] == rest[i];
    if NameSafeWords(all) {
      forall i | 0 <= i < |rest| ensures NameSafeSegs(rest[i].segs) {
        assert NameSafeSegs(all[i + 1].segs);
      }
    }
  }

  lemma NameSafeCommandsCons(c: Command, rest: seq<Command>)
    ensures NameSafe([c] + rest) <==> NameSafeWords(c.words) && NameSafe(rest)
  {
    var all := [c] + rest;
    assert all[0] == c && forall i :: 0 <= i < |rest| ==> all[i + 1] == rest[i];
    if NameSafe(all) {
      forall i | 0 <= i < |rest| ensures NameSafeWords(rest[i].words) {
        assert NameSafeWords(all[i + 1].words);
      }
    }
  }

  lemma {:induction false} CanonicalWordsIff(words: seq<Word>)
    ensures CanonicalWords(words) <==> PrintableWords(words) && NameSafeWords(words)
    decreases words
  {
    if words != [] {
      CanonicalSegsIff(words[0].segs);
      CanonicalWordsIff(words[1..]);
      assert words == [words[0]] + words[1..];
      NameSafeWordsCons(words[0], words[1..]);
    }
  }

  /** Canonical is printable with every literal kept apart from the name before it. */
  lemma {:induction false} CanonicalIff(cmds: seq<Command>)
    ensures CanonicalCommands(cmds) <==> PrintableCommands(cmds) && NameSafe(cmds)
    decreases cmds
  {
    if cmds != [] {
      CanonicalWordsIff(cmds[0].words);
      CanonicalIff(cmds[1..]);
      assert cmds == [cmds[0]] + cmds[1..];
      NameSafeCommandsCons(cmds[0], cmds[1..]);
    }
  }

  /** Forgetting lines forgets nothing about segments. */
  lemma {:induction false} EraseKeepsSafety(cmds: seq<Command>)
    ensures NameSafe(Erase(cmds)) <==> NameSafe(cmds)
    decreases cmds
  {
    if cmds != [] {
      EraseWordsKeepSafety(cmds[0].words);
      EraseKeepsSafety(cmds[1..]);
      assert cmds == [cmds[0]] + cmds[1..];
      NameSafeCommandsCons(cmds[0], cmds[1..]);
      NameSafeCommandsCons(Command(0, cmds[0].narration, EraseWords(cmds[0].words)), Erase(cmds[1..]));
    }
  }

  lemma {:induction false} EraseWordsKeepSafety(words: seq<Word>)
    ensures NameSafeWords(EraseWords(words)) <==> NameSafeWords(words)
    decreases words
  {
    if words != [] {
      EraseSegsKeepSafety(words[0].segs);
      EraseWordsKeepSafety(words[1..]);
      assert words == [words[0]] + words[1..];
      NameSafeWordsCons(words[0], words[1..]);
      NameSafeWordsCons(Word(words[0].braced, EraseSegs(words[0].segs)), EraseWords(words[1..]));
    }
  }

  lemma {:induction false} EraseSegsKeepSafety(segs: seq<Seg>)
    ensures NameSafeSegs(EraseSegs(segs)) <==> NameSafeSegs(segs)
    ensures |EraseSegs(segs)| == |segs|
    decreases segs
  {
    if segs != [] {
      var g, rest := segs[0], segs[1..];
      EraseKeepsSafety(g.sub);
      EraseSegsKeepSafety(rest);
      assert segs == [g] + rest;
      NameSafeCons(g, rest);
      var e := Seg(g.lit, g.name, Erase(g.sub));
      assert EraseSegs(segs) == [e] + EraseSegs(rest);
      NameSafeCons(e, EraseSegs(rest));
      assert Erase(g.sub) == [] <==> g.sub == [];
      if rest != [] {
        assert EraseSegs(rest)[0] == Seg(rest[0].lit, rest[0].name, Erase(rest[0].sub));
        assert Erase(rest[0].sub) == [] <==> rest[0].sub == [];
      }
    }
  }

  // ---------------------------------------------------------------- what a parser can say at all

  lemma {:induction false} NameStops(s: string)
    ensures var rest := s[|TakeName(s)|..]; rest == "" || !NameChar(rest[0])
  {
    if s != "" && NameChar(s[0]) {
      NameStops(s[1..]);
      assert s[|TakeName(s)|..] == s[1..][|TakeName(s[1..])|..];
    }
  }

  /** While a word is being read: a name just read is not prolonged by what is pending or comes next. */
  predicate Pending(segs: seq<Seg>, lit: string, s: string)
  {
    segs != [] && segs[|segs| - 1].name != "" ==>
      var next := if lit != "" then lit else s;
      next == "" || !NameChar(next[0])
  }

  lemma SafeFlush(segs: seq<Seg>, lit: string, s: string)
    requires NameSafeSegs(segs) && Pending(segs, lit, s)
    ensures NameSafeSegs(Flush(segs, lit))
  {
  }

  lemma SafeStep(segs: seq<Seg>, lit: string, s: string, g: Seg)
    requires NameSafeSegs(segs) && Pending(segs, lit, s) && NameSafe(g.sub) && (g.lit == "" || !IsLit(g))
    ensures NameSafeSegs(Flush(segs, lit) + [g])
  {
    SafeFlush(segs, lit, s);
    var q := Flush(segs, lit);
    forall i | 0 <= i < |q + [g]| - 1 ensures Apart((q + [g])[i], (q + [g])[i + 1]) {
      if i < |q| - 1 { assert Apart(q[i], q[i + 1]); }
    }
  }

  lemma {:induction false} SafeCommands(total: int, s0: string, nested: bool, acc: seq<Command>, narration: string)
    requires NameSafe(acc)
    ensures var r := CommandsOf(total, s0, nested, acc, narration); r.Took? ==> NameSafe(r.value)
    decreases |s0|, 4
  {
    var s := SkipBlank(s0);
    if s == "" || (nested && s[0] == ']') {
    } else if s[0] == '#' {
      SafeCommands(total, s[|TakeLine(s)|..], nested, acc, Narrate(TakeLine(s)));
    } else {
      SafeWords(total, s, nested, []);
      var r := WordsOf(total, s, nested, []);
      if r.Took? {
        var more := if r.value == [] then acc else acc + [Command(LineOf(total, s), narration, r.value)];
        SafeCommands(total, r.rest, nested, more, narration);
      }
    }
  }

  lemma {:induction false} SafeWords(total: int, s0: string, nested: bool, acc: seq<Word>)
    requires NameSafeWords(acc)
    ensures var r := WordsOf(total, s0, nested, acc); r.Took? ==> NameSafeWords(r.value)
    decreases |s0|, 3
  {
    var s := SkipSpaces(s0);
    if s != "" && !EndsWord(s[0], nested) && s[0] != '#' {
      SafeWord(total, s, nested);
      var w := WordOf(total, s, nested);
      if w.Took? { SafeWords(total, w.rest, nested, acc + [w.value]); }
    }
  }

  lemma {:induction false} SafeWord(total: int, s: string, nested: bool)
    requires s != "" && !EndsWord(s[0], nested)
    ensures var r := WordOf(total, s, nested); r.Took? ==> NameSafeSegs(r.value.segs)
    decreases |s|, 2
  {
    if s[0] == '"' {
      SafeQuoted(total, s[1..], [], "");
    } else if s[0] != '{' {
      SafeBare(total, s, nested, [], "");
    }
  }

  lemma {:induction false} SafeBare(total: int, s: string, nested: bool, segs: seq<Seg>, lit: string)
    requires NameSafeSegs(segs) && Pending(segs, lit, s)
    ensures var r := BareOf(total, s, nested, segs, lit); r.Took? ==> NameSafeSegs(r.value.segs)
    decreases |s|, 1
  {
    SafeFlush(segs, lit, s);
    if s != "" && !EndsWord(s[0], nested) {
      if s[0] == '$' {
        var name := TakeName(s[1..]);
        NameStops(s[1..]);
        SafeStep(segs, lit, s, Var(name));
        SafeBare(total, s[1..][|name|..], nested, Flush(segs, lit) + [Var(name)], "");
      } else if s[0] == '[' {
        SafeCommands(total, s[1..], true, [], "");
        var c := CommandsOf(total, s[1..], true, [], "");
        if c.Took? {
          SafeStep(segs, lit, s, Sub(c.value));
          SafeBare(total, c.rest, nested, Flush(segs, lit) + [Sub(c.value)], "");
        }
      } else {
        SafeBare(total, s[1..], nested, segs, lit + [s[0]]);
      }
    }
  }

  lemma {:induction false} SafeQuoted(total: int, s: string, segs: seq<Seg>, lit: string)
    requires NameSafeSegs(segs) && Pending(segs, lit, s)
    ensures var r := QuotedOf(total, s, segs, lit); r.Took? ==> NameSafeSegs(r.value.segs)
    decreases |s|, 1
  {
    SafeFlush(segs, lit, s);
    if s != "" && s[0] != '\n' && s[0] != '"' {
      if s[0] == '$' {
        var name := TakeName(s[1..]);
        NameStops(s[1..]);
        SafeStep(segs, lit, s, Var(name));
        SafeQuoted(total, s[1..][|name|..], Flush(segs, lit) + [Var(name)], "");
      } else if s[0] == '[' {
        SafeCommands(total, s[1..], true, [], "");
        var c := CommandsOf(total, s[1..], true, [], "");
        if c.Took? {
          SafeStep(segs, lit, s, Sub(c.value));
          SafeQuoted(total, c.rest, Flush(segs, lit) + [Sub(c.value)], "");
        }
      } else {
        SafeQuoted(total, s[1..], segs, lit + [s[0]]);
      }
    }
  }

  /** No script at all says that a literal which begins like a name follows a variable. */
  lemma ParsedIsNameSafe(src: string)
    ensures ParseOf(src).Ok? ==> NameSafe(ParseOf(src).value)
  {
    SafeCommands(1 + Newlines(src), src, false, [], "");
  }

  /** Reading the printed text gives the tree back. */
  predicate ComesBack(cmds: seq<Command>)
  {
    var r := ParseOf(PrintCommands(cmds));
    r.Ok? && Erase(r.value) == Erase(cmds)
  }

  /**
   Exactly when parsing undoes printing: of the printable trees those come back in which no literal
   that begins like a name follows a variable, at any depth.
   */
  lemma ParseUndoesPrintIff(cmds: seq<Command>)
    requires PrintableCommands(cmds)
    ensures ComesBack(cmds) <==> NameSafe(cmds)
    ensures ComesBack(cmds) <==> CanonicalCommands(cmds)
  {
    CanonicalIff(cmds);
    if CanonicalCommands(cmds) {
      ParseUndoesPrint(cmds);
    }
    if ComesBack(cmds) {
      ParsedIsNameSafe(PrintCommands(cmds));
      EraseKeepsSafety(ParseOf(PrintCommands(cmds)).value);
      EraseKeepsSafety(cmds);
    }
  }

  function OneWord(segs: seq<Seg>): seq<Command>
  {
    [Command(0, "", [Word(false, segs)])]
  }

  lemma {:induction false} FlatErased(segs: seq<Seg>)
    requires forall i :: 0 <= i < |segs| ==> segs[i].sub == []
    ensures EraseSegs(segs) == segs
  {
    if segs != [] {
      FlatErased(segs[1..]);
      assert segs == [segs[0]] + segs[1..];
    }
  }

  lemma OneWordErased(segs: seq<Seg>)
    requires EraseSegs(segs) == segs
    ensures Erase(OneWord(segs)) == OneWord(segs)
  {
    var w, c := Word(false, segs), OneWord(segs)[0];
    assert [w][1..] == [] && [c][1..] == [];
    assert EraseWords([w]) == [Word(false, EraseSegs(segs))] + EraseWords([w][1..]);
    assert EraseWords([w]) == [w];
    assert Erase([c]) == [Command(0, c.narration, EraseWords(c.words))] + Erase([c][1..]);
    assert OneWord(segs) == [c];
  }

  lemma OneWordPrinted(segs: seq<Seg>)
    ensures PrintCommands(OneWord(segs)) == "#\n" + "\"" + (PrintSegs(segs) + "\"") + " " + "\n"
  {
    var w := Word(false, segs);
    assert [w][1..] == [] && OneWord(segs)[1..] == [];
    assert PrintWords([w]) == PrintWord(w) + (" " + PrintWords([w][1..]));
    assert PrintCommands(OneWord(segs)) ==
      PrintNarration("") + PrintCommand(OneWord(segs)[0], PrintCommands(OneWord(segs)[1..]));
  }

  lemma OneWordCanonical(segs: seq<Seg>)
    requires segs != [] && segs != [Lit("")]
    ensures CanonicalCommands(OneWord(segs)) <==> CanonicalSegs(segs)
  {
    var w := Word(false, segs);
    assert [w][1..] == [] && OneWord(segs)[1..] == [];
    assert CanonicalWords([w]) <==> CanonicalWord(w) && CanonicalWords([w][1..]);
  }

  lemma OneWordPrintable(segs: seq<Seg>)
    requires segs != [] && segs != [Lit("")]
    ensures PrintableCommands(OneWord(segs)) <==> PrintableSegs(segs)
  {
    var w, c := Word(false, segs), OneWord(segs)[0];
    assert [w][1..] == [] && [c][1..] == [];
    assert PrintableWords([w]) == PrintableWord(w);
    assert PrintableCommands([c]) == (c.words != [] && PrintableWords(c.words) && OneLine("") &&
      PrintableCommands([c][1..]));
    assert OneWord(segs) == [c];
  }

  /** The word `"$ab"` below an empty comment: printed from the variable a and the literal b, read as a variable ab. */
  lemma VariableSwallowsLiteral()
    ensures PrintCommands(OneWord([Var("a"), Lit("b")])) == "#\n\"$ab\" \n"
    ensures ParseOf("#\n\"$ab\" \n").Ok? && Erase(ParseOf("#\n\"$ab\" \n").value) == OneWord([Var("ab")])
    ensures PrintableCommands(OneWord([Var("a"), Lit("b")])) && !ComesBack(OneWord([Var("a"), Lit("b")]))
  {
    SplitPrints();
    MergedPrints();
    OneWordCanonical([Var("ab")]);
    ParseUndoesPrint(OneWord([Var("ab")]));
    FlatErased([Var("ab")]);
    OneWordErased([Var("ab")]);
    FlatErased([Var("a"), Lit("b")]);
    OneWordErased([Var("a"), Lit("b")]);
    OneWordPrintable([Var("a"), Lit("b")]);
    assert OneWord([Var("ab")])[0].words[0].segs != OneWord([Var("a"), Lit("b")])[0].words[0].segs;
  }

  lemma SplitPrints()
    ensures PrintCommands(OneWord([Var("a"), Lit("b")])) == "#\n\"$ab\" \n" && PrintableSegs([Var("a"), Lit("b")])
  {
    var split := [Var("a"), Lit("b")];
    assert split[1..] == [Lit("b")] && [Lit("b")][1..] == [];
    assert PrintSegs([Lit("b")]) == "b" + PrintSegs([Lit("b")][1..]);
    assert PrintSegs(split) == "$ab";
    OneWordPrinted(split);
    assert PrintableSeg(Lit("b")) && PrintableSegs([Lit("b")]);
  }

  lemma MergedPrints()
    ensures PrintCommands(OneWord([Var("ab")])) == "#\n\"$ab\" \n" && CanonicalSegs([Var("ab")])
  {
    var merged := [Var("ab")];
    assert merged[1..] == [];
    assert PrintSegs(merged) == "$ab" + PrintSegs(merged[1..]);
    OneWordPrinted(merged);
    assert CanonicalSeg(merged[0]) && CanonicalSegs(merged[1..]);
  }
}
