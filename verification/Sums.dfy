/** Sums over sequences, used for weights and for counting who carries what. */
module Sums {

  function Sum<A>(s: seq<A>, f: A -> nat): nat {
    if s == [] then 0 else f(s[0]) + Sum(s[1..], f)
  }

  lemma {:induction false} SumAppend<A>(a: seq<A>, b: seq<A>, f: A -> nat)
    ensures Sum(a + b, f) == Sum(a, f) + Sum(b, f)
  {
    if a == [] {
      assert a + b == b;
    } else {
      assert (a + b)[1..] == a[1..] + b;
      SumAppend(a[1..], b, f);
    }
  }

  lemma SumOne<A>(x: A, f: A -> nat)
    ensures Sum([x], f) == f(x)
  {
    assert |[x][1..]| == 0;
  }

  lemma SumTwo<A>(x: A, y: A, f: A -> nat)
    ensures Sum([x, y], f) == f(x) + f(y)
  {
    assert [x, y][1..] == [y];
    SumOne(y, f);
  }

  lemma {:induction false} SumUpdate<A>(a: seq<A>, i: nat, x: A, f: A -> nat)
    requires i < |a|
    ensures Sum(a[i := x], f) + f(a[i]) == Sum(a, f) + f(x)
  {
    var b := a[i := x];
    if i == 0 {
      assert b[1..] == a[1..];
    } else {
      assert b[1..] == a[1..][i - 1 := x];
      SumUpdate(a[1..], i - 1, x, f);
    }
  }

  lemma {:induction false} SumAtLeast<A>(a: seq<A>, i: nat, f: A -> nat)
    requires i < |a|
    ensures Sum(a, f) >= f(a[i])
  {
    if i > 0 {
      SumAtLeast(a[1..], i - 1, f);
    }
  }

  lemma {:induction false} SumZero<A>(a: seq<A>, f: A -> nat)
    requires forall i :: 0 <= i < |a| ==> f(a[i]) == 0
    ensures Sum(a, f) == 0
  {
    if a != [] {
      SumZero(a[1..], f);
    }
  }

  /** Two distinct positions contribute separately. */
  lemma {:induction false} SumApart<A>(a: seq<A>, i: nat, j: nat, f: A -> nat)
    requires i < j < |a|
    ensures Sum(a, f) >= f(a[i]) + f(a[j])
  {
    if i == 0 {
      SumAtLeast(a[1..], j - 1, f);
    } else {
      SumApart(a[1..], i - 1, j - 1, f);
    }
  }

  /** A positive sum has a positive term. */
  lemma {:induction false} SumPositive<A>(a: seq<A>, f: A -> nat) returns (i: nat)
    requires Sum(a, f) > 0
    ensures i < |a| && f(a[i]) > 0
  {
    if f(a[0]) > 0 {
      i := 0;
    } else {
      var j := SumPositive(a[1..], f);
      i := j + 1;
    }
  }
}
