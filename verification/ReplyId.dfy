/**
 The deterministic Message-ID of a reply and the hand-written decimal renderer it uses
 (email/msg/reply_id.go).
 */
module ReplyId {

  const MIN_INT64 := -0x8000_0000_0000_0000
  const MAX_INT64 := 0x7FFF_FFFF_FFFF_FFFF

  function DigitChar(d: nat): (c: char)
    requires d < 10
    ensures '0' <= c <= '9' && c as int - '0' as int == d
  {
    ('0' as int + d) as char
  }

  /** The decimal numeral of a natural number. */
  function Digits(n: nat): (s: string)
    ensures |s| > 0
    ensures forall i :: 0 <= i < |s| ==> '0' <= s[i] <= '9'
  {
    if n < 10 then [DigitChar(n)] else Digits(n / 10) + [DigitChar(n % 10)]
  }

  function Numeral(n: int): string
  {
    if n < 0 then "-" + Digits(-n) else Digits(n)
  }

  /** The number a digit string denotes. */
  function Value(s: string): nat
    requires forall i :: 0 <= i < |s| ==> '0' <= s[i] <= '9'
  {
    if s == [] then 0 else Value(s[..|s| - 1]) * 10 + (s[|s| - 1] as int - '0' as int)
  }

  /** Reading a numeral gives the number back. */
  lemma {:induction false} DigitsRoundTrip(n: nat)
    ensures Value(Digits(n)) == n
  {
    if n >= 10 {
      DigitsRoundTrip(n / 10);
      assert Digits(n)[..|Digits(n)| - 1] == Digits(n / 10);
    } else {
      assert Digits(n)[..0] == [];
    }
  }

  function Pow10(k: nat): nat
  {
    if k == 0 then 1 else 10 * Pow10(k - 1)
  }

  lemma {:induction false} DigitsLength(n: nat, k: nat)
    requires 0 < k && n < Pow10(k)
    ensures |Digits(n)| <= k
  {
    if n >= 10 {
      assert Pow10(1) == 10 * Pow10(0) && k != 1;
      DigitsLength(n / 10, k - 1);
    }
  }

  /** What the renderer returns on every 64-bit integer: negating the least one overflows. */
  function ItoaOf(n: int): string
  {
    if n == MIN_INT64 then "-" else Numeral(n)
  }

  /** Two's complement negation of a 64-bit integer. */
  function Negate64(n: int): (r: int)
    requires MIN_INT64 <= n <= MAX_INT64
    ensures MIN_INT64 <= r <= MAX_INT64
    ensures n != MIN_INT64 ==> r == -n
  {
    if n == MIN_INT64 then n else -n
  }

  /** The digits still to be written when `n` is left of the number. */
  function Rest(n: int): string
  {
    if n <= 0 then [] else Rest(n / 10) + [DigitChar(n % 10)]
  }

  lemma {:induction false} RestIsDigits(n: nat)
    requires n > 0
    ensures Rest(n) == Digits(n)
  {
    if n >= 10 {
      RestIsDigits(n / 10);
    } else {
      assert Rest(n / 10) == [];
    }
  }

  /** A positive 64-bit integer has at most 19 digits. */
  lemma AtMostNineteenDigits(n: int)
    requires 0 <= n <= MAX_INT64 + 1
    ensures |Rest(n)| <= 19
  {
    Pow10Nineteen();
    if n > 0 {
      RestIsDigits(n);
      DigitsLength(n, 19);
    }
  }

  lemma ItoaParts(n: int)
    requires MIN_INT64 <= n <= MAX_INT64
    ensures ItoaOf(0) == "0"
    ensures n < 0 ==> ItoaOf(n) == "-" + Rest(Negate64(n)) && |Rest(Negate64(n))| <= 19
    ensures n > 0 ==> ItoaOf(n) == Rest(n) && |Rest(n)| <= 19
  {
    if n > 0 {
      AtMostNineteenDigits(n);
      RestIsDigits(n);
    } else if MIN_INT64 < n < 0 {
      AtMostNineteenDigits(-n);
      RestIsDigits(-n);
    }
  }

  /** The digit loop: fill the buffer backwards, never running off the front of it. */
  method FillDigits(buf: array<char>, n0: int) returns (i: nat)
    requires buf.Length == 20 && |Rest(n0)| <= 19
    modifies buf
    ensures 1 <= i <= 20 && buf[i..] == Rest(n0)
  {
    var n := n0;
    i := 20;
    while n > 0
      invariant i <= 20
      invariant Rest(n) + buf[i..] == Rest(n0)
    {
      var d := DigitChar(n % 10);
      ghost var done := buf[i..];
      assert Rest(n) == Rest(n / 10) + [d];
      i := i - 1;
      buf[i] := d;
      assert buf[i..] == [d] + done;
      n := n / 10;
    }
  }

  /** The renderer over its 20-byte buffer: there is room for the sign of every negative number. */
  method Itoa(n0: int) returns (s: string)
    requires MIN_INT64 <= n0 <= MAX_INT64
    ensures s == ItoaOf(n0)
  {
    ItoaParts(n0);
    if n0 == 0 {
      return "0";
    }
    var n := n0;
    var neg := n < 0;
    if neg {
      n := Negate64(n);
    }
    var buf := new char[20];
    var i := FillDigits(buf, n);
    if neg {
      ghost var done := buf[i..];
      i := i - 1;
      buf[i] := '-';
      assert buf[i..] == "-" + done;
    }
    s := buf[i..];
  }

  lemma Pow10Nineteen()
    ensures Pow10(19) == 10_000_000_000_000_000_000
  {
    assert Pow10(4) == 10_000 by { assert Pow10(2) == 100; }
    assert Pow10(8) == 100_000_000 by { assert Pow10(6) == 1_000_000; }
    assert Pow10(12) == 1_000_000_000_000 by { assert Pow10(10) == 10_000_000_000; }
    assert Pow10(16) == 10_000_000_000_000_000 by { assert Pow10(14) == 100_000_000_000_000; }
    assert Pow10(18) == 1_000_000_000_000_000_000;
  }

  /** The renderer is the decimal numeral exactly when its argument is not the least 64-bit integer. */
  lemma ItoaIsNumeralIff(n: int)
    requires MIN_INT64 <= n <= MAX_INT64
    ensures ItoaOf(n) == Numeral(n) <==> n != MIN_INT64
  {
    assert |Numeral(MIN_INT64)| > 1;
  }

  /** The sign can be read off the first character, and the digits follow it. */
  lemma SignShows(n: int)
    ensures Numeral(n) != [] && (Numeral(n)[0] == '-' <==> n < 0)
    ensures n < 0 ==> Numeral(n)[1..] == Digits(-n)
  {
  }

  lemma DigitsInjective(a: nat, b: nat)
    requires Digits(a) == Digits(b)
    ensures a == b
  {
    DigitsRoundTrip(a);
    DigitsRoundTrip(b);
  }

  lemma NumeralInjective(a: int, b: int)
    requires Numeral(a) == Numeral(b)
    ensures a == b
  {
    SignShows(a);
    SignShows(b);
    if a < 0 {
      DigitsInjective(-a, -b);
    } else {
      DigitsInjective(a, b);
    }
  }

  /** An optional minus sign, then digits: never a separator after the first character. */
  ghost predicate NumeralShape(s: string)
  {
    && |s| > 0 && ('0' <= s[0] <= '9' || s[0] == '-')
    && forall i :: 1 <= i < |s| ==> '0' <= s[i] <= '9'
  }

  lemma ItoaShape(n: int)
    ensures NumeralShape(ItoaOf(n))
  {
  }

  lemma ItoaInjective(a: int, b: int)
    requires ItoaOf(a) == ItoaOf(b)
    ensures a == b
  {
    assert |Numeral(a)| == 1 && Numeral(a)[0] == '-' ==> false by {
      assert a < 0 ==> |Digits(-a)| > 0;
    }
    assert |Numeral(b)| == 1 && Numeral(b)[0] == '-' ==> false by {
      assert b < 0 ==> |Digits(-b)| > 0;
    }
    if a != MIN_INT64 && b != MIN_INT64 {
      NumeralInjective(a, b);
    }
  }

  /** A numeral followed by a separator is read back unambiguously. */
  lemma SplitAtSeparator(a: string, b: string, c: char, x: string, y: string)
    requires NumeralShape(a) && NumeralShape(b) && (c == '-' || c == '@')
    requires a + [c] + x == b + [c] + y
    ensures a == b && x == y
  {
    var s := a + [c] + x;
    assert s[|a|] == c && s[|b|] == c;
    assert forall i :: 0 <= i < |a| ==> s[i] == a[i];
    assert forall i :: 0 <= i < |b| ==> s[i] == b[i];
    assert |a| == |b|;
    assert a == s[..|a|] == b;
    assert x == s[|a| + 1..] == y;
  }

  function ReplyMessageID(task: int, run: int, domain: string): string
  {
    "<reply-" + (ItoaOf(task) + "-" + (ItoaOf(run) + "@" + (domain + ">")))
  }

  /** A digit string that denotes this number. */
  ghost predicate Denotes(s: string, n: int)
  {
    s != [] && (forall i :: 0 <= i < |s| ==> '0' <= s[i] <= '9') && Value(s) == n
  }

  /** Between the brackets: the task's number, the run's number, and the domain, in this order. */
  lemma ReplyMessageIDReads(task: nat, run: nat, domain: string) returns (a: string, b: string)
    ensures Denotes(a, task) && Denotes(b, run)
    ensures ReplyMessageID(task, run, domain) == "<reply-" + a + "-" + b + "@" + domain + ">"
  {
    a, b := Digits(task), Digits(run);
    DigitsRoundTrip(task);
    DigitsRoundTrip(run);
    var last := b + "@" + domain + ">";
    assert b + ("@" + (domain + ">")) == last;
    assert a + "-" + last == a + ("-" + last);
  }

  /** A reply's Message-ID determines its task, its run and its domain. */
  lemma ReplyMessageIDInjective(t: int, r: int, d: string, t': int, r': int, d': string)
    requires ReplyMessageID(t, r, d) == ReplyMessageID(t', r', d')
    ensures t == t' && r == r' && d == d'
  {
    var rest, rest' := ItoaOf(r) + "@" + (d + ">"), ItoaOf(r') + "@" + (d' + ">");
    var body, body' := ItoaOf(t) + "-" + rest, ItoaOf(t') + "-" + rest';
    assert body == ReplyMessageID(t, r, d)[7..] && body' == ReplyMessageID(t', r', d')[7..];
    ItoaShape(t); ItoaShape(t'); ItoaShape(r); ItoaShape(r');
    SplitAtSeparator(ItoaOf(t), ItoaOf(t'), '-', rest, rest');
    SplitAtSeparator(ItoaOf(r), ItoaOf(r'), '@', d + ">", d' + ">");
    assert d == (d + ">")[..|d|] && d' == (d' + ">")[..|d'|];
    ItoaInjective(t, t');
    ItoaInjective(r, r');
  }
}
