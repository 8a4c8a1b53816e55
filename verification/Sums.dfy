/** Sums over the threads of a pool: what changes when one thread takes a step. */
module Sums {

  function Sum<T>(xs: seq<T>, f: T -> nat): nat {
    if xs == [] then 0 else f(xs[0]) + Sum(xs[1..], f)
  }

  function Bag<T, E>(xs: seq<T>, f: T -> seq<E>): multiset<E> {
    if xs == [] then multiset{} else multiset(f(xs[0])) + Bag(xs[1..], f)
  }

  lemma {:induction false} SumUpdate<T>(xs: seq<T>, f: T -> nat, i: nat, x: T)
    requires i < |xs|
    ensures Sum(xs[i := x], f) + f(xs[i]) == Sum(xs, f) + f(x)
  {
    if i == 0 {
      assert xs[i := x][1..] == xs[1..];
    } else {
      assert xs[i := x][1..] == xs[1..][i - 1 := x];
      SumUpdate(xs[1..], f, i - 1, x);
    }
  }

  lemma {:induction false} BagUpdate<T, E>(xs: seq<T>, f: T -> seq<E>, i: nat, x: T)
    requires i < |xs|
    ensures Bag(xs[i := x], f) + multiset(f(xs[i])) == Bag(xs, f) + multiset(f(x))
  {
    if i == 0 {
      assert xs[i := x][1..] == xs[1..];
    } else {
      assert xs[i := x][1..] == xs[1..][i - 1 := x];
      BagUpdate(xs[1..], f, i - 1, x);
      var head, ys := multiset(f(xs[0])), xs[1..];
      assert (head + Bag(ys[i - 1 := x], f)) + multiset(f(ys[i - 1]))
          == head + (Bag(ys[i - 1 := x], f) + multiset(f(ys[i - 1])));
      assert (head + Bag(ys, f)) + multiset(f(x)) == head + (Bag(ys, f) + multiset(f(x)));
    }
  }

  lemma {:induction false} SumZero<T>(xs: seq<T>, f: T -> nat)
    requires forall i :: 0 <= i < |xs| ==> f(xs[i]) == 0
    ensures Sum(xs, f) == 0
  {
    if xs != [] { SumZero(xs[1..], f); }
  }

  lemma {:induction false} SumPositive<T>(xs: seq<T>, f: T -> nat) returns (i: nat)
    requires Sum(xs, f) > 0
    ensures i < |xs| && f(xs[i]) > 0
  {
    if f(xs[0]) > 0 { i := 0; } else { i := SumPositive(xs[1..], f); i := i + 1; }
  }

  lemma {:induction false} SumAtLeast<T>(xs: seq<T>, f: T -> nat, i: nat)
    requires i < |xs|
    ensures Sum(xs, f) >= f(xs[i])
  {
    if i > 0 { SumAtLeast(xs[1..], f, i - 1); }
  }

  lemma {:induction false} SumAtMost<T>(xs: seq<T>, f: T -> nat)
    requires forall i :: 0 <= i < |xs| ==> f(xs[i]) <= 1
    ensures Sum(xs, f) <= |xs|
  {
    if xs != [] { SumAtMost(xs[1..], f); }
  }

  lemma {:induction false} BagSize<T, E>(xs: seq<T>, f: T -> seq<E>, size: T -> nat)
    requires forall x :: size(x) == |f(x)|
    ensures |Bag(xs, f)| == Sum(xs, size)
  {
    if xs != [] { BagSize(xs[1..], f, size); }
  }
}
