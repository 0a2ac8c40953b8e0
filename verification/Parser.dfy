/**
 The test language's parser (testlang/parser.go): an object with a position and a line counter, proved
 against a parser over what is left of the input in which every line number is computed afresh.
 */
module Parser {
  import opened Prelude
  import opened Strings

  /** One of: a literal, a variable, a substitution; the unused parts are empty. */
  datatype Seg = Seg(lit: string, name: string, sub: seq<Command>)

  datatype Word = Word(braced: bool, segs: seq<Seg>)

  datatype Command = Command(line: int, narration: string, words: seq<Word>)

  datatype Problem = MissingBracket | MissingQuote | MissingBrace

  datatype Result<T> = Ok(value: T) | Err(line: int, problem: Problem)

  /** A result together with the input left after it. */
  datatype Parsed<T> = Took(value: T, rest: string) | Fail(line: int, problem: Problem)

  function Lit(text: string): Seg { Seg(text, "", []) }
  function Var(name: string): Seg { Seg("", name, []) }
  function Sub(cmds: seq<Command>): Seg { Seg("", "", cmds) }

  // ---------------------------------------------------------------- lines

  function Newlines(s: string): nat
  {
    if s == "" then 0 else (if s[0] == '\n' then 1 else 0) + Newlines(s[1..])
  }

  lemma {:induction false} NewlinesConcat(a: string, b: string)
    ensures Newlines(a + b) == Newlines(a) + Newlines(b)
  {
    if a == "" {
      assert a + b == b;
    } else {
      NewlinesConcat(a[1..], b);
      assert (a + b)[1..] == a[1..] + b;
    }
  }

  /** The line of the first character left, given that the whole input has `total` lines. */
  function LineOf(total: int, rest: string): int
  {
    total - Newlines(rest)
  }

  /** That is one more than the newlines before it. */
  lemma LineIsTrue(src: string, pos: nat)
    requires pos <= |src|
    ensures LineOf(1 + Newlines(src), src[pos..]) == 1 + Newlines(src[..pos])
  {
    assert src == src[..pos] + src[pos..];
    NewlinesConcat(src[..pos], src[pos..]);
  }

  // ---------------------------------------------------------------- scanning

  predicate NameChar(c: char)
  {
    'a' <= c <= 'z' || 'A' <= c <= 'Z' || '0' <= c <= '9' || c == '_'
  }

  function TakeName(s: string): (name: string)
    ensures |name| <= |s| && name == s[..|name|]
  {
    if s != "" && NameChar(s[0]) then [s[0]] + TakeName(s[1..]) else ""
  }

  function TakeLine(s: string): (text: string)
    ensures |text| <= |s| && text == s[..|text|]
    ensures s != "" && s[0] != '\n' ==> text != ""
  {
    if s != "" && s[0] != '\n' then [s[0]] + TakeLine(s[1..]) else ""
  }

  function SkipSpaces(s: string): (r: string)
    ensures |r| <= |s|
    ensures r != "" ==> r[0] != ' ' && r[0] != '\t'
  {
    if s != "" && (s[0] == ' ' || s[0] == '\t') then SkipSpaces(s[1..]) else s
  }

  predicate BlankOrEnd(c: char)
  {
    c == ' ' || c == '\t' || c == ';' || c == '\n'
  }

  function SkipBlank(s: string): (r: string)
    ensures |r| <= |s|
    ensures r != "" ==> !BlankOrEnd(r[0])
  {
    if s != "" && BlankOrEnd(s[0]) then SkipBlank(s[1..]) else s
  }

  /** How far the brace that closes `depth` open ones is. */
  function CloseBrace(s: string, depth: nat): (n: Option<nat>)
    requires depth > 0
    ensures n.Some? ==> n.value < |s| && s[n.value] == '}'
  {
    if s == "" then None
    else if s[0] == '}' && depth == 1 then Some(0)
    else
      var d := if s[0] == '{' then depth + 1 else if s[0] == '}' then depth - 1 else depth;
      match CloseBrace(s[1..], d)
      case None => None
      case Some(n) => Some(n + 1)
  }

  function Narrate(text: string): string
  {
    TrimSpace(if text != "" && text[0] == '#' then text[1..] else text)
  }

  function Flush(segs: seq<Seg>, lit: string): seq<Seg>
  {
    if lit == "" then segs else segs + [Lit(lit)]
  }

  // ---------------------------------------------------------------- the reference parser

  predicate EndsWord(c: char, nested: bool)
  {
    c == ' ' || c == '\t' || c == '\n' || c == ';' || (c == ']' && nested)
  }

  function CommandsOf(total: int, s0: string, nested: bool, acc: seq<Command>,
      narration: string): (r: Parsed<seq<Command>>)
    ensures r.Took? ==> |r.rest| <= |s0|
    decreases |s0|, 4
  {
    var s := SkipBlank(s0);
    if s == "" then
      if nested then Fail(LineOf(total, s), MissingBracket) else Took(acc, s)
    else if nested && s[0] == ']' then Took(acc, s[1..])
    else if s[0] == '#' then
      var text := TakeLine(s);
      CommandsOf(total, s[|text|..], nested, acc, Narrate(text))
    else
      match WordsOf(total, s, nested, [])
      case Fail(line, problem) => Fail(line, problem)
      case Took(words, rest) =>
        CommandsOf(total, rest, nested, if words == [] then acc
          else acc + [Command(LineOf(total, s), narration, words)], narration)
  }

  function WordsOf(total: int, s0: string, nested: bool, acc: seq<Word>): (r: Parsed<seq<Word>>)
    ensures r.Took? ==> |r.rest| <= |s0|
    ensures r.Took? && s0 != "" && !EndsWord(s0[0], nested) && s0[0] != '#' ==> |r.rest| < |s0|
    decreases |s0|, 3
  {
    var s := SkipSpaces(s0);
    if s == "" then Took(acc, s)
    else if s[0] == '\n' || s[0] == ';' then Took(acc, s[1..])
    else if (s[0] == ']' && nested) || s[0] == '#' then Took(acc, s)
    else
      match WordOf(total, s, nested)
      case Fail(line, problem) => Fail(line, problem)
      case Took(w, rest) => WordsOf(total, rest, nested, acc + [w])
  }

  function WordOf(total: int, s: string, nested: bool): (r: Parsed<Word>)
    requires s != "" && !EndsWord(s[0], nested)
    ensures r.Took? ==> |r.rest| < |s|
    decreases |s|, 2
  {
    if s[0] == '{' then
      match CloseBrace(s[1..], 1)
      case None => Fail(LineOf(total, s), MissingBrace)
      case Some(n) => Took(Word(true, [Lit(s[1..][..n])]), s[1..][n + 1..])
    else if s[0] == '"' then QuotedOf(total, s[1..], [], "")
    else BareOf(total, s, nested, [], "")
  }

  function BareOf(total: int, s: string, nested: bool, segs: seq<Seg>, lit: string): (r: Parsed<Word>)
    ensures r.Took? ==> |r.rest| <= |s|
    ensures r.Took? && s != "" && !EndsWord(s[0], nested) ==> |r.rest| < |s|
    decreases |s|, 1
  {
    if s == "" || EndsWord(s[0], nested) then Took(Word(false, Flush(segs, lit)), s)
    else if s[0] == '$' then
      var name := TakeName(s[1..]);
      BareOf(total, s[1..][|name|..], nested, Flush(segs, lit) + [Var(name)], "")
    else if s[0] == '[' then
      match CommandsOf(total, s[1..], true, [], "")
      case Fail(line, problem) => Fail(line, problem)
      case Took(cmds, rest) => BareOf(total, rest, nested, Flush(segs, lit) + [Sub(cmds)], "")
    else BareOf(total, s[1..], nested, segs, lit + [s[0]])
  }

  function QuotedOf(total: int, s: string, segs: seq<Seg>, lit: string): (r: Parsed<Word>)
    ensures r.Took? ==> |r.rest| <= |s|
    decreases |s|, 1
  {
    if s == "" || s[0] == '\n' then Fail(LineOf(total, s), MissingQuote)
    else if s[0] == '"' then
      var all := Flush(segs, lit);
      Took(Word(false, if all == [] then [Lit("")] else all), s[1..])
    else if s[0] == '$' then
      var name := TakeName(s[1..]);
      QuotedOf(total, s[1..][|name|..], Flush(segs, lit) + [Var(name)], "")
    else if s[0] == '[' then
      match CommandsOf(total, s[1..], true, [], "")
      case Fail(line, problem) => Fail(line, problem)
      case Took(cmds, rest) => QuotedOf(total, rest, Flush(segs, lit) + [Sub(cmds)], "")
    else QuotedOf(total, s[1..], segs, lit + [s[0]])
  }

  /** The whole input, as a script. */
  function ParseOf(src: string): Result<seq<Command>>
  {
    match CommandsOf(1 + Newlines(src), src, false, [], "")
    case Fail(line, problem) => Err(line, problem)
    case Took(cmds, _) => Ok(cmds)
  }

  lemma {:induction false} TakeNameIs(s: string, n: nat)
    requires n <= |s| && (forall k :: 0 <= k < n ==> NameChar(s[k])) && (n < |s| ==> !NameChar(s[n]))
    ensures TakeName(s) == s[..n]
  {
    if n > 0 {
      TakeNameIs(s[1..], n - 1);
    }
  }

  lemma {:induction false} TakeLineIs(s: string, n: nat)
    requires n <= |s| && (forall k :: 0 <= k < n ==> s[k] != '\n') && (n < |s| ==> s[n] == '\n')
    ensures TakeLine(s) == s[..n]
  {
    if n > 0 {
      TakeLineIs(s[1..], n - 1);
    }
  }

  lemma {:induction false} NoNewlines(s: string)
    requires forall k :: 0 <= k < |s| ==> s[k] != '\n'
    ensures Newlines(s) == 0
  {
    if s != "" {
      NoNewlines(s[1..]);
    }
  }

  /** Passing over characters that are no newlines stays on the line. */
  lemma LinesPassed(src: string, a: nat, b: nat)
    requires a <= b <= |src| && forall k :: a <= k < b ==> src[k] != '\n'
    ensures Newlines(src[a..]) == Newlines(src[b..])
    ensures src[a..][..b - a] == src[a..b] && src[a..][b - a..] == src[b..]
  {
    assert src[a..] == src[a..b] + src[b..];
    NewlinesConcat(src[a..b], src[b..]);
    NoNewlines(src[a..b]);
  }

  /** One character closer to the brace. */
  lemma CloseStep(s: string, at: nat, depth: nat)
    requires at < |s| && depth > 0 && !(s[at] == '}' && depth == 1)
    ensures var d := if s[at] == '{' then depth + 1 else if s[at] == '}' then depth - 1 else depth;
      Ahead(CloseBrace(s[at..], depth), CloseBrace(s[at + 1..], d), 1)
  {
    assert s[at..][1..] == s[at + 1..];
  }

  /** Stepping over a braced text at once: what it took, what is left, and the newlines it passed. */
  lemma BraceCloses(src: string, opening: nat, pos: nat)
    requires opening < pos < |src| && src[opening] == '{' && src[pos] == '}'
    ensures CloseBrace(src[pos..], 1) == Some(0)
    ensures src[opening..][1..] == src[opening + 1..]
    ensures
      && src[opening + 1..][..pos - opening - 1] == src[opening + 1..pos]
      && src[opening + 1..][pos - opening..] == src[pos + 1..]
    ensures
      forall total :: LineOf(total, src[opening..]) + Newlines(src[opening + 1..pos]) == LineOf(total, src[pos + 1..])
  {
    assert src[opening..][1..] == src[opening + 1..] && src[pos..][1..] == src[pos + 1..];
    assert src[opening + 1..] == src[opening + 1..pos] + src[pos..];
    NewlinesConcat(src[opening + 1..pos], src[pos..]);
  }

  // ---------------------------------------------------------------- the parser object

  class Parser {
    const src: string
    var pos: nat
    var line: int

    constructor (src: string)
      ensures this.src == src && Valid() && Left() == src
    {
      this.src := src;
      pos, line := 0, 1;
    }

    ghost function Total(): int
    {
      1 + Newlines(src)
    }

    /** What has not been read. */
    ghost function Left(): string
      reads this
      requires pos <= |src|
    {
      src[pos..]
    }

    /** The line counter is the line of the position: one more than the newlines before it. */
    ghost predicate Valid()
      reads this
    {
      pos <= |src| && line == LineOf(Total(), Left())
    }

    /** A method did what the reference parser says. */
    ghost predicate Agrees<T(!new)>(want: Parsed<T>, got: Result<T>)
      reads this
    {
      match want
      case Took(value, rest) => got == Ok(value) && Valid() && Left() == rest
      case Fail(at, problem) => got == Err(at, problem)
    }

    predicate Done()
      reads this
    {
      pos >= |src|
    }

    method SkipSpace()
      requires Valid()
      modifies `pos
      ensures Valid() && pos >= old(pos) && Left() == SkipSpaces(old(Left()))
    {
      while !Done() && (src[pos] == ' ' || src[pos] == '\t')
        invariant Valid() && pos >= old(pos) && SkipSpaces(Left()) == SkipSpaces(old(Left()))
        decreases |src| - pos
      {
        assert src[pos..][1..] == src[pos + 1..];
        pos := pos + 1;
      }
    }

    method SkipBlanks()
      requires Valid()
      modifies `pos, `line
      ensures Valid() && pos >= old(pos) && Left() == SkipBlank(old(Left()))
    {
      while !Done()
        invariant Valid() && pos >= old(pos) && SkipBlank(Left()) == SkipBlank(old(Left()))
        decreases |src| - pos
      {
        assert src[pos..][1..] == src[pos + 1..];
        var c := src[pos];
        if c == ' ' || c == '\t' || c == ';' {
          pos := pos + 1;
        } else if c == '\n' {
          pos := pos + 1;
          line := line + 1;
        } else {
          return;
        }
      }
    }

    method ReadName() returns (name: string)
      requires Valid()
      modifies `pos
      ensures Valid() && pos >= old(pos)
      ensures name == TakeName(old(Left())) && Left() == old(Left())[|name|..]
    {
      var start := pos;
      while !Done()
        invariant start <= pos <= |src| && forall k :: start <= k < pos ==> NameChar(src[k])
        decreases |src| - pos
      {
        if !NameChar(src[pos]) {
          break;
        }
        pos := pos + 1;
      }
      TakeNameIs(src[start..], pos - start);
      LinesPassed(src, start, pos);
      name := src[start..pos];
    }

    method ReadComment() returns (narration: string)
      requires Valid()
      modifies `pos
      ensures Valid() && pos >= old(pos)
      ensures narration == Narrate(TakeLine(old(Left()))) && Left() == old(Left())[|TakeLine(old(Left()))|..]
    {
      var start := pos;
      while !Done() && src[pos] != '\n'
        invariant start <= pos <= |src| && forall k :: start <= k < pos ==> src[k] != '\n'
        decreases |src| - pos
      {
        pos := pos + 1;
      }
      TakeLineIs(src[start..], pos - start);
      LinesPassed(src, start, pos);
      narration := Narrate(src[start..pos]);
    }

    /** Newlines inside braces are counted when the brace closes, so an error reports the opening line. */
    method ReadBraced() returns (r: Result<string>)
      requires Valid() && !Done() && src[pos] == '{'
      modifies `pos, `line
      ensures pos > old(pos)
      ensures match CloseBrace(old(Left())[1..], 1)
        case None => r == Err(old(line), MissingBrace)
        case Some(n) => r == Ok(old(Left())[1..][..n]) && Valid() && Left() == old(Left())[1..][n + 1..]
    {
      ghost var opening := pos;
      pos := pos + 1;
      var start := pos;
      var closed := FindClose(src, start);
      if closed.None? {
        pos := |src|;
        assert src[opening..][1..] == src[start..];
        return Err(line, MissingBrace);
      }
      pos := closed.value;
      var body := src[start..pos];
      BraceCloses(src, opening, pos);
      pos := pos + 1;
      line := line + Newlines(body);
      return Ok(body);
    }

    /** Step over one character that is no newline. */
    method Step()
      requires Valid() && !Done() && src[pos] != '\n'
      modifies `pos
      ensures Valid() && pos == old(pos) + 1 && Left() == old(Left())[1..]
    {
      assert src[pos..][1..] == src[pos + 1..];
      pos := pos + 1;
    }

    method ReadCommands(nested: bool) returns (r: Result<seq<Command>>)
      requires Valid()
      modifies `pos, `line
      ensures Agrees(CommandsOf(Total(), old(Left()), nested, [], ""), r)
      decreases |src| - pos, 4
    {
      ghost var want := CommandsOf(Total(), Left(), nested, [], "");
      var cmds, narration := [], "";
      while true
        invariant Valid() && pos >= old(pos)
        invariant CommandsOf(Total(), Left(), nested, cmds, narration) == want
        decreases |src| - pos
      {
        SkipBlanks();
        if Done() {
          if nested {
            return Err(line, MissingBracket);
          }
          return Ok(cmds);
        }
        if nested && src[pos] == ']' {
          Step();
          return Ok(cmds);
        }
        if src[pos] == '#' {
          narration := ReadComment();
          continue;
        }
        var at := line;
        var cmd := ReadCommand(nested);
        if cmd.Err? {
          return Err(cmd.line, cmd.problem);
        }
        if cmd.value != [] {
          cmds := cmds + [Command(at, narration, cmd.value)];
        }
      }
    }

    method ReadCommand(nested: bool) returns (r: Result<seq<Word>>)
      requires Valid()
      modifies `pos, `line
      ensures Agrees(WordsOf(Total(), old(Left()), nested, []), r)
      decreases |src| - pos, 3
    {
      ghost var want := WordsOf(Total(), Left(), nested, []);
      var words := [];
      while true
        invariant Valid() && pos >= old(pos)
        invariant WordsOf(Total(), Left(), nested, words) == want
        decreases |src| - pos
      {
        SkipSpace();
        if Done() {
          return Ok(words);
        }
        var c := src[pos];
        if c == '\n' {
          assert src[pos..][1..] == src[pos + 1..];
          pos := pos + 1;
          line := line + 1;
          return Ok(words);
        } else if c == ';' {
          Step();
          return Ok(words);
        } else if c == ']' && nested {
          return Ok(words);
        } else if c == '#' {
          return Ok(words);
        }
        var w := ReadWord(nested);
        if w.Err? {
          return Err(w.line, w.problem);
        }
        words := words + [w.value];
      }
    }

    method ReadWord(nested: bool) returns (r: Result<Word>)
      requires Valid() && !Done() && !EndsWord(src[pos], nested)
      modifies `pos, `line
      ensures Agrees(WordOf(Total(), old(Left()), nested), r)
      decreases |src| - pos, 2
    {
      if src[pos] == '{' {
        var lit := ReadBraced();
        if lit.Err? {
          return Err(lit.line, lit.problem);
        }
        return Ok(Word(true, [Lit(lit.value)]));
      }
      if src[pos] == '"' {
        r := ReadQuoted();
        return;
      }
      r := ReadBare(nested);
    }

    method ReadBare(nested: bool) returns (r: Result<Word>)
      requires Valid()
      modifies `pos, `line
      ensures Agrees(BareOf(Total(), old(Left()), nested, [], ""), r)
      decreases |src| - pos, 1
    {
      ghost var want := BareOf(Total(), Left(), nested, [], "");
      var segs, lit := [], "";
      while !Done()
        invariant Valid() && pos >= old(pos)
        invariant BareOf(Total(), Left(), nested, segs, lit) == want
        decreases |src| - pos
      {
        var c := src[pos];
        if EndsWord(c, nested) {
          break;
        }
        if c == '$' {
          segs, lit := Flush(segs, lit), "";
          Step();
          var name := ReadName();
          segs := segs + [Var(name)];
        } else if c == '[' {
          segs, lit := Flush(segs, lit), "";
          Step();
          var sub := ReadCommands(true);
          if sub.Err? {
            return Err(sub.line, sub.problem);
          }
          segs := segs + [Sub(sub.value)];
        } else {
          lit := lit + [c];
          Step();
        }
      }
      return Ok(Word(false, Flush(segs, lit)));
    }

    method ReadQuoted() returns (r: Result<Word>)
      requires Valid() && !Done() && src[pos] == '"'
      modifies `pos, `line
      ensures Agrees(QuotedOf(Total(), old(Left())[1..], [], ""), r)
      decreases |src| - pos, 1
    {
      Step();
      ghost var want := QuotedOf(Total(), Left(), [], "");
      var segs, lit := [], "";
      while true
        invariant Valid() && pos > old(pos)
        invariant QuotedOf(Total(), Left(), segs, lit) == want
        decreases |src| - pos
      {
        if Done() {
          return Err(line, MissingQuote);
        }
        var c := src[pos];
        if c == '"' {
          Step();
          segs := Flush(segs, lit);
          return Ok(Word(false, if segs == [] then [Lit("")] else segs));
        } else if c == '$' {
          segs, lit := Flush(segs, lit), "";
          Step();
          var name := ReadName();
          segs := segs + [Var(name)];
        } else if c == '[' {
          segs, lit := Flush(segs, lit), "";
          Step();
          var sub := ReadCommands(true);
          if sub.Err? {
            return Err(sub.line, sub.problem);
          }
          segs := segs + [Sub(sub.value)];
        } else if c == '\n' {
          return Err(line, MissingQuote);
        } else {
          lit := lit + [c];
          Step();
        }
      }
    }
  }

  /** The entry point: a fresh parser over the whole script. */
  method Parse(src: string) returns (r: Result<seq<Command>>)
    ensures r == ParseOf(src)
  {
    var p := new Parser(src);
    r := p.ReadCommands(false);
  }

  /** Scan for the brace that closes the one before `start`. */
  method FindClose(src: string, start: nat) returns (r: Option<nat>)
    requires start <= |src|
    ensures match CloseBrace(src[start..], 1)
      case None => r == None
      case Some(n) => r == Some(start + n) && start + n < |src| && src[start + n] == '}'
  {
    var pos, depth := start, 1;
    while pos < |src|
      invariant start <= pos <= |src| && depth > 0
      invariant Ahead(CloseBrace(src[start..], 1), CloseBrace(src[pos..], depth), pos - start)
    {
      ghost var before := depth;
      if src[pos] == '{' {
        depth := depth + 1;
      } else if src[pos] == '}' {
        depth := depth - 1;
        if depth == 0 {
          return Some(pos);
        }
      }
      CloseStep(src, pos, before);
      pos := pos + 1;
    }
    return None;
  }

  /** The same brace, seen from `gap` characters earlier. */
  predicate Ahead(from: Option<nat>, here: Option<nat>, gap: nat)
  {
    match here
    case None => from == None
    case Some(n) => from == Some(gap + n)
  }
}
