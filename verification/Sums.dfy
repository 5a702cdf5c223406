/** Sums over sequences of anything, and how they move when an element is added, replaced or removed. */
module Sums {

  function Sum<T>(s: seq<T>, f: T -> real): real {
    if s == [] then 0.0 else Sum(s[..|s| - 1], f) + f(s[|s| - 1])
  }

  function Remove<T>(s: seq<T>, i: nat): seq<T>
    requires i < |s|
  {
    s[..i] + s[i + 1..]
  }

  lemma SumAppend<T>(s: seq<T>, x: T, f: T -> real)
    ensures Sum(s + [x], f) == Sum(s, f) + f(x)
  {
    assert (s + [x])[..|s|] == s;
  }

  lemma {:induction false} SumConcat<T>(a: seq<T>, b: seq<T>, f: T -> real)
    ensures Sum(a + b, f) == Sum(a, f) + Sum(b, f)
    decreases |b|
  {
    if b == [] {
      assert a + b == a;
    } else {
      assert (a + b)[..|a + b| - 1] == a + b[..|b| - 1];
      SumConcat(a, b[..|b| - 1], f);
    }
  }

  lemma RemoveBeforeLast<T>(s: seq<T>, i: nat)
    requires i < |s| - 1
    ensures Remove(s, i) == Remove(s[..|s| - 1], i) + [s[|s| - 1]]
  {}

  lemma {:induction false} SumRemove<T>(s: seq<T>, i: nat, f: T -> real)
    requires i < |s|
    ensures Sum(s, f) == Sum(Remove(s, i), f) + f(s[i])
  {
    var n := |s| - 1;
    if i == n {
      assert Remove(s, i) == s[..n];
    } else {
      SumRemove(s[..n], i, f);
      RemoveBeforeLast(s, i);
      SumAppend(Remove(s[..n], i), s[n], f);
    }
  }

  lemma SumReplace<T>(s: seq<T>, i: nat, x: T, f: T -> real)
    requires i < |s|
    ensures Sum(s[i := x], f) == Sum(s, f) - f(s[i]) + f(x)
  {
    SumRemove(s, i, f);
    SumRemove(s[i := x], i, f);
    assert Remove(s[i := x], i) == Remove(s, i);
  }

  lemma {:induction false} SumOfEqual<T>(s: seq<T>, f: T -> real, g: T -> real)
    requires forall i :: 0 <= i < |s| ==> f(s[i]) == g(s[i])
    ensures Sum(s, f) == Sum(s, g)
  {
    if s != [] {
      SumOfEqual(s[..|s| - 1], f, g);
    }
  }

  lemma {:induction false} SumOfZeros<T>(s: seq<T>, f: T -> real)
    requires forall i :: 0 <= i < |s| ==> f(s[i]) == 0.0
    ensures Sum(s, f) == 0.0
  {
    if s != [] {
      SumOfZeros(s[..|s| - 1], f);
    }
  }

  lemma {:induction false} SumOfPairs<T>(s: seq<T>, t: seq<T>, f: T -> real)
    requires |s| == |t| && forall i :: 0 <= i < |s| ==> f(s[i]) == f(t[i])
    ensures Sum(s, f) == Sum(t, f)
  {
    if s != [] {
      SumOfPairs(s[..|s| - 1], t[..|t| - 1], f);
    }
  }
}
