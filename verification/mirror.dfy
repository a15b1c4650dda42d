/** Links held on two sides: every link of a left list has its counterpart on a right list. */
module Mirror {
  import opened Sequences

  // The loop over the links with the address of the pointer to the current one.
  method Unlink<T(==)>(q: seq<T>, x: T) returns (r: seq<T>)
    ensures r == Without(q, x)
  {
    var i := 0;
    while i < |q| && q[i] != x
      invariant 0 <= i <= |q| && x !in q[..i]
    {
      assert q[..i + 1] == q[..i] + [q[i]];
      i := i + 1;
    }
    if i == |q| {
      assert q[..i] == q;
      WithoutNone(q, x);
      return q;
    }
    WithoutAt(q, x, i);
    r := q[..i] + q[i + 1..];
  }

  // ---- both sides

  ghost predicate In<L, R>(a: map<L, seq<R>>, l: L, r: R) {
    l in a && r in a[l]
  }

  ghost predicate AllDistinct<L, R>(a: map<L, seq<R>>) {
    forall l :: l in a ==> Distinct(a[l])
  }

  /** Each link is on both sides, once. */
  ghost predicate Mirrored<L(!new), R(!new)>(a: map<L, seq<R>>, b: map<R, seq<L>>) {
    AllDistinct(a) && AllDistinct(b) && forall l, r :: In(a, l, r) <==> In(b, r, l)
  }

  lemma UpdateIn<L, R>(a: map<L, seq<R>>, l: L, q: seq<R>, x: L, y: R)
    ensures In(a[l := q], x, y) <==> if x == l then y in q else In(a, x, y)
  {
  }

  lemma UpdateDistinct<L, R>(a: map<L, seq<R>>, l: L, q: seq<R>)
    requires AllDistinct(a) && Distinct(q)
    ensures AllDistinct(a[l := q])
  {
    hide Distinct;
  }

  // Taking the link between l and r off both lists.
  lemma Unlinked<L(!new), R(!new)>(a: map<L, seq<R>>, b: map<R, seq<L>>, l: L, r: R)
    requires Mirrored(a, b) && l in a && r in b
    ensures Mirrored(a[l := Without(a[l], r)], b[r := Without(b[r], l)])
  {
    WithoutIs(a[l], r);
    WithoutIs(b[r], l);
    hide Distinct, Without, In;
    UpdateDistinct(a, l, Without(a[l], r));
    UpdateDistinct(b, r, Without(b[r], l));
    var c, d := a[l := Without(a[l], r)], b[r := Without(b[r], l)];
    forall x, y ensures In(c, x, y) <==> In(d, y, x) {
      UpdateIn(a, l, Without(a[l], r), x, y);
      UpdateIn(b, r, Without(b[r], l), y, x);
      InIs(a, l, y);
      InIs(b, r, x);
    }
  }

  lemma InIs<L, R>(a: map<L, seq<R>>, l: L, r: R)
    requires l in a
    ensures In(a, l, r) <==> r in a[l]
  {
  }

  // Putting a link between l and r on both, where there was none.
  lemma Linked<L(!new), R(!new)>(a: map<L, seq<R>>, b: map<R, seq<L>>, l: L, r: R, q: seq<R>, p: seq<L>)
    requires Mirrored(a, b) && l in a && r in b && Distinct(q) && Distinct(p)
    requires (forall y :: y in q <==> y in a[l] || y == r) && (forall x :: x in p <==> x in b[r] || x == l)
    ensures Mirrored(a[l := q], b[r := p])
  {
    hide Distinct, In;
    UpdateDistinct(a, l, q);
    UpdateDistinct(b, r, p);
    var c, d := a[l := q], b[r := p];
    forall x, y ensures In(c, x, y) <==> In(d, y, x) {
      UpdateIn(a, l, q, x, y);
      UpdateIn(b, r, p, y, x);
      InIs(a, l, y);
      InIs(b, r, x);
    }
  }

  // A link at the head of one list and one at the head or the tail of the other.
  lemma Prepended<T>(q: seq<T>, x: T)
    requires Distinct(q) && x !in q
    ensures Distinct([x] + q) && (forall y :: y in [x] + q <==> y in q || y == x)
    ensures Distinct(q + [x]) && (forall y :: y in q + [x] <==> y in q || y == x)
  {
  }

  // All the links of b without those to l.
  function Cleared<L(==), R>(b: map<R, seq<L>>, l: L): (c: map<R, seq<L>>) {
    map r | r in b :: Without(b[r], l)
  }

  // Taking l away, with every link to it.
  lemma Dropped<L(!new), R(!new)>(a: map<L, seq<R>>, b: map<R, seq<L>>, l: L)
    requires Mirrored(a, b)
    ensures Mirrored(a - {l}, Cleared(b, l))
  {
    forall r | r in b ensures Distinct(Without(b[r], l)) && forall x :: x in Without(b[r], l) <==> x in b[r] && x != l {
      WithoutIs(b[r], l);
    }
    hide Distinct, Without;
    var c, d := a - {l}, Cleared(b, l);
    forall x, y ensures In(c, x, y) <==> In(d, y, x) {
      assert In(a, x, y) <==> In(b, y, x);
    }
  }

  // A list with no links more.
  lemma Empty<L(!new), R(!new)>(a: map<L, seq<R>>, b: map<R, seq<L>>, l: L)
    requires Mirrored(a, b) && l !in a
    ensures Mirrored(a[l := []], b) && Mirrored(b, a[l := []])
  {
    hide In;
    UpdateDistinct(a, l, []);
    var c := a[l := []];
    forall x, y ensures In(c, x, y) <==> In(b, y, x) {
      UpdateIn(a, l, [], x, y);
      AbsentIn(a, l, y);
    }
  }

  lemma AbsentIn<L, R>(a: map<L, seq<R>>, l: L, r: R)
    requires l !in a
    ensures !In(a, l, r)
  {
  }
}
