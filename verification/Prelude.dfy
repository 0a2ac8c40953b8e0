/** Small shared vocabulary: options, sums over sequences and duplicate-free listings. */
module Prelude {

  datatype Option<+T> = None | Some(value: T)

  /** The sum of `f` over a sequence. */
  function Sum<T>(s: seq<T>, f: T -> nat): nat
  {
    if s == [] then 0 else Sum(s[..|s| - 1], f) + f(s[|s| - 1])
  }

  lemma {:induction false} SumAppend<T>(s: seq<T>, x: T, f: T -> nat)
    ensures Sum(s + [x], f) == Sum(s, f) + f(x)
  {
    assert (s + [x])[..|s|] == s;
  }

  lemma {:induction false} SumConcat<T>(s: seq<T>, t: seq<T>, f: T -> nat)
    ensures Sum(s + t, f) == Sum(s, f) + Sum(t, f)
  {
    if t == [] {
      assert s + t == s;
    } else {
      var front := t[..|t| - 1];
      SumConcat(s, front, f);
      assert s + t == (s + front) + [t[|t| - 1]];
      SumAppend(s + front, t[|t| - 1], f);
    }
  }

  lemma {:induction false} SumTail<T>(s: seq<T>, f: T -> nat)
    requires s != []
    ensures Sum(s, f) == f(s[0]) + Sum(s[1..], f)
  {
    assert s == [s[0]] + s[1..];
    SumConcat([s[0]], s[1..], f);
    assert [s[0]][..0] == [];
  }

  lemma {:induction false} SumUpdate<T>(s: seq<T>, i: nat, x: T, f: T -> nat)
    requires i < |s|
    ensures Sum(s[i := x], f) == Sum(s, f) - f(s[i]) + f(x)
  {
    var n := |s| - 1;
    if i < n {
      SumUpdate(s[..n], i, x, f);
      assert s[i := x][..n] == s[..n][i := x];
    } else {
      assert s[i := x][..n] == s[..n];
    }
  }

  lemma {:induction false} SumBound<T>(s: seq<T>, i: nat, f: T -> nat)
    requires i < |s|
    ensures f(s[i]) <= Sum(s, f)
  {
    if i < |s| - 1 {
      SumBound(s[..|s| - 1], i, f);
    }
  }

  lemma {:induction false} SumZero<T>(s: seq<T>, f: T -> nat)
    requires forall i :: 0 <= i < |s| ==> f(s[i]) == 0
    ensures Sum(s, f) == 0
  {
    if s != [] {
      SumZero(s[..|s| - 1], f);
    }
  }

  lemma {:induction false} SumPointwise<T>(s: seq<T>, f: T -> nat, g: T -> nat)
    requires forall i :: 0 <= i < |s| ==> f(s[i]) == g(s[i])
    ensures Sum(s, f) == Sum(s, g)
  {
    if s != [] {
      SumPointwise(s[..|s| - 1], f, g);
    }
  }

  /** The index of the first element that satisfies `f`, or the length when there is none. */
  function FirstIndex<T>(rows: seq<T>, f: T -> bool): (i: nat)
    ensures i <= |rows|
    ensures i < |rows| ==> f(rows[i])
    ensures forall j :: 0 <= j < i ==> !f(rows[j])
  {
    if rows == [] then 0
    else
      var i := FirstIndex(rows[..|rows| - 1], f);
      if i < |rows| - 1 then i else if f(rows[|rows| - 1]) then |rows| - 1 else |rows|
  }

  lemma {:induction false} SameFirst<T>(a: seq<T>, b: seq<T>, f: T -> bool)
    requires |a| == |b| && forall i :: 0 <= i < |a| ==> f(a[i]) == f(b[i])
    ensures FirstIndex(a, f) == FirstIndex(b, f)
  {
    if a != [] {
      SameFirst(a[..|a| - 1], b[..|b| - 1], f);
    }
  }

  /** `q` lists the set `S`, each element once. */
  ghost predicate Lists<T(!new)>(q: seq<T>, S: set<T>)
  {
    && (forall i, j :: 0 <= i < j < |q| ==> q[i] != q[j])
    && (forall x :: x in q <==> x in S)
  }

  /** Some element, as iterating over a map yields its keys. */
  method Pick<T>(s: set<T>) returns (x: T)
    requires s != {}
    ensures x in s
  {
    x :| x in s;
  }
}
