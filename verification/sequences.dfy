/** Lists without repetition, and lists with some of their members taken out. */
module Sequences {

  ghost predicate Distinct<T>(q: seq<T>) {
    forall i, j :: 0 <= i < j < |q| ==> q[i] != q[j]
  }

  // The list without some of its members, the others in the same order.
  function Drop<T(==)>(q: seq<T>, gone: set<T>): (r: seq<T>) {
    if q == [] then [] else (if q[0] in gone then [] else [q[0]]) + Drop(q[1..], gone)
  }

  lemma {:induction false} DropIs<T>(q: seq<T>, gone: set<T>)
    ensures forall x :: x in Drop(q, gone) <==> x in q && x !in gone
    ensures Distinct(q) ==> Distinct(Drop(q, gone))
    ensures |Drop(q, gone)| <= |q| && (q != [] && q[0] in gone ==> |Drop(q, gone)| < |q|)
  {
    if q != [] {
      DropIs(q[1..], gone);
      var r := Drop(q[1..], gone);
      forall x ensures x in Drop(q, gone) <==> x in q && x !in gone {}
      if Distinct(q) {
        assert q[0] !in q[1..];
        assert Distinct(q[1..]) by { assert forall i :: 0 <= i < |q| - 1 ==> q[1..][i] == q[i + 1]; }
      }
    }
  }

  lemma {:induction false} DropNone<T>(q: seq<T>, gone: set<T>)
    requires forall x :: x in q ==> x !in gone
    ensures Drop(q, gone) == q
  {
    if q != [] { DropNone(q[1..], gone); }
  }

  lemma {:induction false} DropTwice<T>(q: seq<T>, a: set<T>, b: set<T>)
    ensures Drop(Drop(q, a), b) == Drop(q, a + b)
  {
    if q != [] {
      DropTwice(q[1..], a, b);
      var r := Drop(q[1..], a);
      assert ([q[0]] + r)[1..] == r;
      assert [] + r == r;
    }
  }

  // The list without the first link to x.
  function Without<T(==)>(q: seq<T>, x: T): (r: seq<T>) {
    if q == [] then [] else if q[0] == x then q[1..] else [q[0]] + Without(q[1..], x)
  }

  lemma {:induction false} WithoutIs<T>(q: seq<T>, x: T)
    requires Distinct(q)
    ensures Distinct(Without(q, x)) && forall y :: y in Without(q, x) <==> y in q && y != x
    ensures |Without(q, x)| == if x in q then |q| - 1 else |q|
  {
    if q != [] {
      assert forall i, j :: 0 <= i < j < |q[1..]| ==> q[1..][i] == q[i + 1] && q[1..][j] == q[j + 1];
      assert q[0] !in q[1..];
      WithoutIs(q[1..], x);
      var r := Without(q[1..], x);
      forall y ensures y in Without(q, x) <==> y in q && y != x {}
    }
  }

  lemma {:induction false} WithoutNone<T>(q: seq<T>, x: T)
    requires x !in q
    ensures Without(q, x) == q
  {
    if q != [] { WithoutNone(q[1..], x); }
  }

  lemma {:induction false} WithoutAt<T>(q: seq<T>, x: T, i: nat)
    requires i < |q| && q[i] == x && x !in q[..i]
    ensures Without(q, x) == q[..i] + q[i + 1..]
  {
    if i > 0 {
      assert q[0] == q[..i][0] && q[..i][1..] == q[1..][..i - 1];
      WithoutAt(q[1..], x, i - 1);
      assert q[..i] == [q[0]] + q[1..][..i - 1];
    }
  }
}
