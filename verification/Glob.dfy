/** The test language's glob (cmd/kasi/runner.go): greedy leftmost matching of the pieces between stars. */
module Glob {

  // ---------------------------------------------------------------- what a glob means

  /** A character matches itself, a star any run of characters. */
  ghost predicate Matches(pattern: string, s: string)
    decreases |pattern|
  {
    if pattern == "" then s == ""
    else if pattern[0] == '*' then exists k :: 0 <= k <= |s| && Matches(pattern[1..], s[k..])
    else s != "" && s[0] == pattern[0] && Matches(pattern[1..], s[1..])
  }

  /** The pieces between stars; one more than there are stars. */
  function Split(pattern: string): (segs: seq<string>)
    ensures segs != []
  {
    if pattern == "" then [""]
    else
      var rest := Split(pattern[1..]);
      if pattern[0] == '*' then [""] + rest else [[pattern[0]] + rest[0]] + rest[1..]
  }

  /** seg0 w1 seg1 w2 ... wn segn. */
  function Woven(segs: seq<string>, ws: seq<string>): string
    requires segs != [] && |ws| == |segs| - 1
    decreases |segs|
  {
    if |segs| == 1 then segs[0] else segs[0] + (ws[0] + Woven(segs[1..], ws[1..]))
  }

  ghost predicate Weaves(segs: seq<string>, s: string)
    requires segs != []
  {
    exists ws :: |ws| == |segs| - 1 && s == Woven(segs, ws)
  }

  // ---------------------------------------------------------------- the tail of a match

  predicate At(s: string, i: nat, seg: string)
  {
    i + |seg| <= |s| && s[i..i + |seg|] == seg
  }

  /** Something, then each piece in turn with anything between, the last one at the very end. */
  ghost predicate Tail(segs: seq<string>, s: string)
    requires segs != []
    decreases |segs|
  {
    if |segs| == 1 then |segs[0]| <= |s| && s[|s| - |segs[0]|..] == segs[0]
    else exists k :: 0 <= k <= |s| && At(s, k, segs[0]) && Tail(segs[1..], s[k + |segs[0]|..])
  }

  /** More text in front never breaks a tail. */
  lemma TailPadded(segs: seq<string>, x: string, s: string)
    requires segs != [] && Tail(segs, s)
    ensures Tail(segs, x + s)
  {
    if |segs| == 1 {
      assert (x + s)[|x + s| - |segs[0]|..] == s[|s| - |segs[0]|..];
    } else {
      var k :| 0 <= k <= |s| && At(s, k, segs[0]) && Tail(segs[1..], s[k + |segs[0]|..]);
      assert (x + s)[|x| + k..|x| + k + |segs[0]|] == s[k..k + |segs[0]|];
      assert (x + s)[|x| + k + |segs[0]|..] == s[k + |segs[0]|..];
      assert At(x + s, |x| + k, segs[0]);
    }
  }

  /** Greed is safe: taking the first occurrence of a piece leaves at least as much to match with. */
  lemma FirstIsBest(segs: seq<string>, s: string, i: nat)
    requires |segs| > 1 && At(s, i, segs[0]) && forall j :: 0 <= j < i ==> !At(s, j, segs[0])
    ensures Tail(segs, s) <==> Tail(segs[1..], s[i + |segs[0]|..])
  {
    if Tail(segs, s) {
      var k :| 0 <= k <= |s| && At(s, k, segs[0]) && Tail(segs[1..], s[k + |segs[0]|..]);
      assert i <= k;
      TailPadded(segs[1..], s[i + |segs[0]|..k + |segs[0]|], s[k + |segs[0]|..]);
      assert s[i + |segs[0]|..] == s[i + |segs[0]|..k + |segs[0]|] + s[k + |segs[0]|..];
    }
  }

  // ---------------------------------------------------------------- the matcher

  /** The first occurrence of `seg`, or -1. */
  method Index(s: string, seg: string) returns (i: int)
    ensures -1 <= i
    ensures i >= 0 ==> At(s, i, seg) && forall j :: 0 <= j < i ==> !At(s, j, seg)
    ensures i < 0 ==> forall j :: 0 <= j ==> !At(s, j, seg)
  {
    i := 0;
    while i + |seg| <= |s|
      invariant 0 <= i && forall j :: 0 <= j < i ==> !At(s, j, seg)
    {
      if s[i..i + |seg|] == seg {
        return;
      }
      i := i + 1;
    }
    i := -1;
  }

  method GlobMatch(pattern: string, s0: string) returns (ok: bool)
    ensures ok <==> Weaves(Split(pattern), s0)
    ensures ok <==> Matches(pattern, s0)
  {
    WeavesMatches(pattern, s0);
    var segs := Split(pattern);
    if |segs| == 1 {
      UnsplitOne(pattern);
      assert Woven(segs, []) == pattern;
      return pattern == s0;
    }
    if !(|segs[0]| <= |s0| && s0[..|segs[0]|] == segs[0]) {
      if Weaves(segs, s0) { PrefixNeeded(segs, s0); }
      return false;
    }
    PrefixTaken(segs, s0);
    ok := MatchTail(segs, s0[|segs[0]|..]);
  }

  /** The pieces after the first: leftmost each time, the last one anchored at the end. */
  method MatchTail(segs: seq<string>, s0: string) returns (ok: bool)
    requires |segs| > 1
    ensures ok <==> Tail(segs[1..], s0)
  {
    var s, n := s0, 1;
    while n < |segs| - 1
      invariant 1 <= n <= |segs| - 1
      invariant Tail(segs[1..], s0) <==> Tail(segs[n..], s)
    {
      var seg := segs[n];
      var i := Index(s, seg);
      assert segs[n..][0] == seg && segs[n..][1..] == segs[n + 1..];
      if i < 0 {
        return false;
      }
      FirstIsBest(segs[n..], s, i);
      s := s[i + |seg|..];
      n := n + 1;
    }
    var last := segs[|segs| - 1];
    assert segs[n..] == [last];
    ok := |last| <= |s| && s[|s| - |last|..] == last;
  }

  // ---------------------------------------------------------------- the three readings agree

  lemma PrefixNeeded(segs: seq<string>, s: string)
    requires |segs| > 1 && Weaves(segs, s)
    ensures |segs[0]| <= |s| && s[..|segs[0]|] == segs[0]
  {
  }

  /** After the anchored first piece, the rest is a tail. */
  lemma PrefixTaken(segs: seq<string>, s: string)
    requires |segs| > 1 && |segs[0]| <= |s| && s[..|segs[0]|] == segs[0]
    ensures Weaves(segs, s) <==> Tail(segs[1..], s[|segs[0]|..])
  {
    var rest := s[|segs[0]|..];
    if Weaves(segs, s) {
      var ws :| |ws| == |segs| - 1 && s == Woven(segs, ws);
      assert rest == ws[0] + Woven(segs[1..], ws[1..]);
      WovenTail(segs[1..], ws[0], ws[1..]);
    }
    if Tail(segs[1..], rest) {
      var ws := TailWoven(segs[1..], rest);
      assert s == segs[0] + rest;
      assert s == Woven(segs, ws);
    }
  }

  lemma {:induction false} WovenTail(segs: seq<string>, w: string, ws: seq<string>)
    requires segs != [] && |ws| == |segs| - 1
    ensures Tail(segs, w + Woven(segs, ws))
    decreases |segs|
  {
    var s := w + Woven(segs, ws);
    if |segs| == 1 {
      assert s[|s| - |segs[0]|..] == segs[0];
    } else {
      WovenTail(segs[1..], ws[0], ws[1..]);
      assert s[|w|..|w| + |segs[0]|] == segs[0];
      assert s[|w| + |segs[0]|..] == ws[0] + Woven(segs[1..], ws[1..]);
      assert At(s, |w|, segs[0]);
    }
  }

  lemma {:induction false} TailWoven(segs: seq<string>, s: string) returns (ws: seq<string>)
    requires segs != [] && Tail(segs, s)
    ensures |ws| == |segs| && s == ws[0] + Woven(segs, ws[1..])
    decreases |segs|
  {
    if |segs| == 1 {
      ws := [s[..|s| - |segs[0]|]];
      assert s == s[..|s| - |segs[0]|] + s[|s| - |segs[0]|..];
    } else {
      var k :| 0 <= k <= |s| && At(s, k, segs[0]) && Tail(segs[1..], s[k + |segs[0]|..]);
      var more := TailWoven(segs[1..], s[k + |segs[0]|..]);
      ws := [s[..k]] + more;
      assert ws[1..] == more;
      assert s == s[..k] + (s[k..k + |segs[0]|] + s[k + |segs[0]|..]);
    }
  }

  lemma {:induction false} UnsplitOne(pattern: string)
    requires |Split(pattern)| == 1
    ensures Split(pattern)[0] == pattern
  {
    if pattern != "" {
      UnsplitOne(pattern[1..]);
      assert pattern == [pattern[0]] + pattern[1..];
    }
  }

  lemma WovenStar(rest: seq<string>, ws: seq<string>)
    requires rest != [] && |ws| == |rest|
    ensures Woven([""] + rest, ws) == ws[0] + Woven(rest, ws[1..])
  {
    assert ([""] + rest)[1..] == rest;
    assert "" + (ws[0] + Woven(rest, ws[1..])) == ws[0] + Woven(rest, ws[1..]);
  }

  lemma StarSplits(rest: seq<string>, s: string)
    requires rest != [] && Weaves([""] + rest, s)
    ensures exists k :: 0 <= k <= |s| && Weaves(rest, s[k..])
  {
    var ws :| |ws| == |rest| && s == Woven([""] + rest, ws);
    WovenStar(rest, ws);
    assert s[|ws[0]|..] == Woven(rest, ws[1..]);
    assert Weaves(rest, s[|ws[0]|..]);
  }

  lemma StarCovers(rest: seq<string>, s: string, k: nat)
    requires rest != [] && k <= |s| && Weaves(rest, s[k..])
    ensures Weaves([""] + rest, s)
  {
    var ws :| |ws| == |rest| - 1 && s[k..] == Woven(rest, ws);
    CoveredBy(rest, s, k, ws);
  }

  lemma CoveredBy(rest: seq<string>, s: string, k: nat, ws: seq<string>)
    requires rest != [] && k <= |s| && |ws| == |rest| - 1 && s[k..] == Woven(rest, ws)
    ensures s == Woven([""] + rest, [s[..k]] + ws)
  {
    var more := [s[..k]] + ws;
    WovenStar(rest, more);
    assert more[1..] == ws && s == s[..k] + s[k..];
  }

  /** A leading star matches any prefix. */
  lemma StarWeaves(rest: seq<string>, s: string)
    requires rest != []
    ensures Weaves([""] + rest, s) <==> exists k :: 0 <= k <= |s| && Weaves(rest, s[k..])
  {
    if Weaves([""] + rest, s) {
      StarSplits(rest, s);
    }
    if k :| 0 <= k <= |s| && Weaves(rest, s[k..]) {
      StarCovers(rest, s, k);
    }
  }

  lemma WovenChar(c: char, rest: seq<string>, ws: seq<string>)
    requires rest != [] && |ws| == |rest| - 1
    ensures Woven([[c] + rest[0]] + rest[1..], ws) == [c] + Woven(rest, ws)
  {
    var segs := [[c] + rest[0]] + rest[1..];
    assert segs[1..] == rest[1..];
    if |rest| > 1 {
      var tail := ws[0] + Woven(rest[1..], ws[1..]);
      assert ([c] + rest[0]) + tail == [c] + (rest[0] + tail);
    }
  }

  /** Any other leading character matches itself. */
  lemma CharWeaves(c: char, rest: seq<string>, s: string)
    requires rest != []
    ensures Weaves([[c] + rest[0]] + rest[1..], s) <==> s != "" && s[0] == c && Weaves(rest, s[1..])
  {
    var segs := [[c] + rest[0]] + rest[1..];
    if Weaves(segs, s) {
      var ws :| |ws| == |segs| - 1 && s == Woven(segs, ws);
      WovenChar(c, rest, ws);
      assert s[1..] == Woven(rest, ws);
    }
    if s != "" && s[0] == c && Weaves(rest, s[1..]) {
      var ws :| |ws| == |rest| - 1 && s[1..] == Woven(rest, ws);
      WovenChar(c, rest, ws);
      assert s == [s[0]] + s[1..];
    }
  }

  /** Splitting at stars and matching character by character say the same. */
  lemma {:induction false} WeavesMatches(pattern: string, s: string)
    ensures Weaves(Split(pattern), s) <==> Matches(pattern, s)
    decreases |pattern|
  {
    if pattern == "" {
      if s == "" { assert s == Woven([""], []); }
    } else if pattern[0] == '*' {
      StarWeaves(Split(pattern[1..]), s);
      forall k | 0 <= k <= |s| ensures Weaves(Split(pattern[1..]), s[k..]) <==> Matches(pattern[1..], s[k..]) {
        WeavesMatches(pattern[1..], s[k..]);
      }
    } else {
      CharWeaves(pattern[0], Split(pattern[1..]), s);
      if s != "" { WeavesMatches(pattern[1..], s[1..]); }
    }
  }
}
