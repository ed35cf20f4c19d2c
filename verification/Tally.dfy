/** Sums over a list of goroutines. */
module Tally {

  function Sum<T>(s: seq<T>, f: T -> nat): nat {
    if |s| == 0 then 0 else Sum(s[..|s| - 1], f) + f(s[|s| - 1])
  }

  lemma {:induction false} SumUpdate<T>(s: seq<T>, f: T -> nat, i: nat, x: T)
    requires i < |s|
    ensures Sum(s[i := x], f) + f(s[i]) == Sum(s, f) + f(x)
  {
    var n := |s| - 1;
    if i == n {
      assert s[i := x][..n] == s[..n];
    } else {
      assert s[i := x][..n] == s[..n][i := x];
      SumUpdate(s[..n], f, i, x);
    }
  }

  lemma {:induction false} SumAtMost<T>(s: seq<T>, f: T -> nat, g: T -> nat)
    requires forall x :: x in s ==> f(x) <= g(x)
    ensures Sum(s, f) <= Sum(s, g)
  {
    if |s| > 0 { SumAtMost(s[..|s| - 1], f, g); }
  }

  lemma {:induction false} SumConstant<T>(s: seq<T>, f: T -> nat, c: nat)
    requires forall x :: x in s ==> f(x) == c
    ensures Sum(s, f) == c * |s|
  {
    if |s| > 0 { SumConstant(s[..|s| - 1], f, c); }
  }

  /** Each term is part of the sum, and two different terms together are too. */
  lemma {:induction false} SumCovers<T>(s: seq<T>, f: T -> nat, i: nat)
    requires i < |s|
    ensures f(s[i]) <= Sum(s, f)
    ensures forall j :: 0 <= j < |s| && j != i ==> f(s[i]) + f(s[j]) <= Sum(s, f)
  {
    var n := |s| - 1;
    if i < n {
      SumCovers(s[..n], f, i);
      forall j | 0 <= j < |s| && j != i ensures f(s[i]) + f(s[j]) <= Sum(s, f) {
        if j < n { assert s[..n][j] == s[j]; }
      }
    } else {
      forall j | 0 <= j < n ensures f(s[j]) <= Sum(s[..n], f) {
        SumCovers(s[..n], f, j);
        assert s[..n][j] == s[j];
      }
    }
  }

  /** A positive sum has a positive term. */
  lemma {:induction false} SumWitness<T>(s: seq<T>, f: T -> nat) returns (i: nat)
    requires Sum(s, f) > 0
    ensures i < |s| && f(s[i]) > 0
  {
    var n := |s| - 1;
    if f(s[n]) > 0 {
      i := n;
    } else {
      i := SumWitness(s[..n], f);
    }
  }

  /** A sum of zeros and ones that misses a term leaves room. */
  lemma {:induction false} SumLeavesRoom<T>(s: seq<T>, f: T -> nat, i: nat)
    requires i < |s| && f(s[i]) == 0
    requires forall x :: x in s ==> f(x) <= 1
    ensures Sum(s, f) < |s|
  {
    var n := |s| - 1;
    if i < n {
      SumLeavesRoom(s[..n], f, i);
    } else {
      SumAtMostLength(s[..n], f);
    }
  }

  lemma {:induction false} SumAtMostLength<T>(s: seq<T>, f: T -> nat)
    requires forall x :: x in s ==> f(x) <= 1
    ensures Sum(s, f) <= |s|
  {
    if |s| > 0 { SumAtMostLength(s[..|s| - 1], f); }
  }
}
