/** Weighted sums over a sequence of threads: how many hold a token, how many steps remain. */
module Sums {

  ghost function Sum<T>(s: seq<T>, w: T -> nat): nat {
    if s == [] then 0 else w(s[0]) + Sum(s[1..], w)
  }

  /** Changing one thread changes the sum by that thread's weights alone. */
  lemma {:induction false} SumUpdate<T>(s: seq<T>, i: nat, x: T, w: T -> nat)
    requires i < |s|
    ensures Sum(s[i := x], w) + w(s[i]) == Sum(s, w) + w(x)
  {
    if i == 0 {
      assert s[i := x][1..] == s[1..];
    } else {
      assert s[i := x][1..] == s[1..][i - 1 := x];
      SumUpdate(s[1..], i - 1, x, w);
    }
  }

  lemma {:induction false} SumAtLeast<T>(s: seq<T>, i: nat, w: T -> nat)
    requires i < |s|
    ensures w(s[i]) <= Sum(s, w)
  {
    if i > 0 {
      SumAtLeast(s[1..], i - 1, w);
    }
  }

  lemma {:induction false} SumZero<T>(s: seq<T>, w: T -> nat)
    requires forall i :: 0 <= i < |s| ==> w(s[i]) == 0
    ensures Sum(s, w) == 0
  {
    if s != [] {
      SumZero(s[1..], w);
    }
  }

  lemma {:induction false} SumConstant<T>(s: seq<T>, w: T -> nat)
    requires forall i :: 0 <= i < |s| ==> w(s[i]) == 1
    ensures Sum(s, w) == |s|
  {
    if s != [] {
      SumConstant(s[1..], w);
    }
  }

  lemma {:induction false} SumWitness<T>(s: seq<T>, w: T -> nat) returns (i: nat)
    requires Sum(s, w) > 0
    ensures i < |s| && w(s[i]) > 0
  {
    if w(s[0]) > 0 {
      i := 0;
    } else {
      i := SumWitness(s[1..], w);
      i := i + 1;
    }
  }

  lemma {:induction false} SumAtMost<T>(s: seq<T>, w: T -> nat, bound: nat)
    requires forall i :: 0 <= i < |s| ==> w(s[i]) <= bound
    ensures Sum(s, w) <= bound * |s|
  {
    if s != [] {
      SumAtMost(s[1..], w, bound);
    }
  }

  lemma {:induction false} SumSplit<T>(s: seq<T>, w: T -> nat, u: T -> nat, v: T -> nat)
    requires forall i :: 0 <= i < |s| ==> w(s[i]) == u(s[i]) + v(s[i])
    ensures Sum(s, w) == Sum(s, u) + Sum(s, v)
  {
    if s != [] {
      SumSplit(s[1..], w, u, v);
    }
  }

  lemma SumSingle<T>(s: seq<T>, i: nat, w: T -> nat)
    requires i < |s| && w(s[i]) == 1
    requires forall k :: 0 <= k < |s| && k != i ==> w(s[k]) == 0
    ensures Sum(s, w) == 1
    decreases |s|
  {
    if i == 0 {
      SumZero(s[1..], w);
    } else {
      SumSingle(s[1..], i - 1, w);
    }
  }
}
