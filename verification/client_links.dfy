/** Doubly linked lists of clients, as what their two links and the head pointer say. */
module ClientLinks {
  import opened Sequences
  import opened Text

  type Id = nat
  type Ptr = Option<Id>
  type Links = map<Id, Ptr>

  // Where a pointer to this place in the list points.
  function At(q: seq<Id>, i: int): Ptr {
    if 0 <= i < |q| then Some(q[i]) else None
  }

  // One client's two links, when it is at this place.
  predicate Placed(nx: Links, pv: Links, q: seq<Id>, i: nat)
    requires i < |q|
  {
    q[i] in nx && q[i] in pv && nx[q[i]] == At(q, i + 1) && pv[q[i]] == At(q, i - 1)
  }

  /** Read from the head along the next links, or from the end along the others, this is the list. */
  ghost predicate Chain(nx: Links, pv: Links, head: Ptr, q: seq<Id>) {
    Distinct(q) && head == At(q, 0) && forall i :: 0 <= i < |q| ==> Placed(nx, pv, q, i)
  }

  // ---- reading the list

  // The clients met along the next links, at most so many.
  function Walk(nx: Links, from: Ptr, steps: nat): seq<Id>
    decreases steps
  {
    if steps == 0 || from == None || from.value !in nx then []
    else [from.value] + Walk(nx, nx[from.value], steps - 1)
  }

  lemma {:induction false} WalkFrom(nx: Links, pv: Links, head: Ptr, q: seq<Id>, i: nat, steps: nat)
    requires Chain(nx, pv, head, q) && i <= |q| && |q| - i <= steps
    ensures Walk(nx, At(q, i), steps) == q[i..]
    decreases steps
  {
    if i < |q| {
      assert Placed(nx, pv, q, i);
      WalkFrom(nx, pv, head, q, i + 1, steps - 1);
    }
  }

  /** A walk along the next links meets exactly the list, and no list but one answers to the same links. */
  lemma ReadsBack(nx: Links, pv: Links, head: Ptr, q: seq<Id>, steps: nat)
    requires Chain(nx, pv, head, q) && |q| <= steps
    ensures Walk(nx, head, steps) == q
  {
    WalkFrom(nx, pv, head, q, 0, steps);
  }

  // ---- who is on the list

  /** A client on the list has no links at all exactly when it is alone there. */
  lemma NoLinks(nx: Links, pv: Links, head: Ptr, q: seq<Id>, c: Id)
    requires Chain(nx, pv, head, q) && c in q
    ensures c in nx && c in pv && (nx[c] == None && pv[c] == None <==> q == [c])
  {
    var i :| 0 <= i < |q| && q[i] == c;
    assert Placed(nx, pv, q, i);
    if |q| == 1 {
      assert q == [c];
    }
  }

  // The test add_client_to_llist makes.
  predicate LooksFree(nx: Links, pv: Links, c: Id)
    requires c in nx && c in pv
  {
    nx[c] == None && pv[c] == None
  }

  /** For a client on this list or on none, the test tells the truth exactly when it is not alone on the list. */
  lemma TestTellsTruth(nx: Links, pv: Links, head: Ptr, q: seq<Id>, c: Id)
    requires Chain(nx, pv, head, q) && c in nx && c in pv && (c !in q ==> LooksFree(nx, pv, c))
    ensures (LooksFree(nx, pv, c) <==> c !in q) <==> q != [c]
  {
    if c in q {
      NoLinks(nx, pv, head, q, c);
    }
  }

  // ---- taking a client out

  function Set(m: Links, at: Ptr, to: Ptr): Links {
    if at.Some? then m[at.value := to] else m
  }

  // A client's neighbours linked to each other, and its own links cleared.
  function NextsWithout(nx: Links, pv: Links, c: Id): Links
    requires c in nx && c in pv
  {
    Set(nx, pv[c], nx[c])[c := None]
  }

  function PrevsWithout(nx: Links, pv: Links, c: Id): Links
    requires c in nx && c in pv
  {
    Set(pv, nx[c], pv[c])[c := None]
  }

  function HeadWithout(nx: Links, pv: Links, head: Ptr, c: Id): Ptr
    requires c in nx && c in pv
  {
    if pv[c].Some? then head else nx[c]
  }

  lemma DropAt(q: seq<Id>, k: nat)
    requires Distinct(q) && k < |q|
    ensures Drop(q, {q[k]}) == q[..k] + q[k + 1..]
    decreases k
  {
    if k == 0 {
      DropNone(q[1..], {q[0]});
    } else {
      var r := q[1..];
      assert q[0] != q[k] && r[k - 1] == q[k];
      assert forall i :: 0 <= i < |r| ==> r[i] == q[i + 1];
      DropAt(r, k - 1);
      assert q[..k] == [q[0]] + r[..k - 1] && r[k - 1 + 1..] == q[k + 1..];
    }
  }

  lemma PlacedWithout(nx: Links, pv: Links, q: seq<Id>, k: nat, r: seq<Id>, i: nat)
    requires Distinct(q) && k < |q| && r == q[..k] + q[k + 1..] && i < |r|
    requires forall j :: 0 <= j < |q| ==> Placed(nx, pv, q, j)
    ensures q[k] in nx && q[k] in pv
    ensures Placed(NextsWithout(nx, pv, q[k]), PrevsWithout(nx, pv, q[k]), r, i)
  {
    assert Placed(nx, pv, q, k);
    var j := if i < k then i else i + 1;
    assert r[i] == q[j] && Placed(nx, pv, q, j);
    if i + 1 < |r| {
      assert r[i + 1] == q[if i + 1 < k then i + 1 else i + 2];
    }
    if i > 0 {
      assert r[i - 1] == q[if i - 1 < k then i - 1 else i];
    }
  }

  /** Taken out, a client leaves the list without it, the others in the same order. */
  lemma TakeOut(nx: Links, pv: Links, head: Ptr, q: seq<Id>, c: Id)
    requires Chain(nx, pv, head, q) && c in q
    ensures c in nx && c in pv
    ensures Chain(NextsWithout(nx, pv, c), PrevsWithout(nx, pv, c), HeadWithout(nx, pv, head, c), Drop(q, {c}))
  {
    hide NextsWithout, PrevsWithout;
    var k :| 0 <= k < |q| && q[k] == c;
    assert Placed(nx, pv, q, k);
    var r := q[..k] + q[k + 1..];
    DropAt(q, k);
    DropIs(q, {c});
    var ny, pw := NextsWithout(nx, pv, c), PrevsWithout(nx, pv, c);
    forall i | 0 <= i < |r| ensures Placed(ny, pw, r, i) {
      PlacedWithout(nx, pv, q, k, r, i);
    }
  }

  // The head when the client goes: it moves on only if the client is first.
  function HeadPast(nx: Links, pv: Links, head: Ptr, c: Id): Ptr
    requires c in nx && c in pv
  {
    if pv[c] == None && head == Some(c) then nx[c] else head
  }

  // A client not on a list, nor linked to one that is.
  predicate Aside(nx: Links, pv: Links, q: seq<Id>, c: Id) {
    && c in nx && c in pv && c !in q
    && (nx[c].Some? ==> nx[c].value !in q) && (pv[c].Some? ==> pv[c].value !in q)
  }

  lemma FirstIsHead(nx: Links, pv: Links, head: Ptr, q: seq<Id>, c: Id)
    requires Chain(nx, pv, head, q) && c in q
    ensures c in pv && (pv[c] == None ==> head == Some(c))
  {
    var i :| 0 <= i < |q| && q[i] == c;
    assert Placed(nx, pv, q, i);
  }

  /** Taken off any list, a client leaves one it was on without it, and one it has nothing to do with as it was. */
  lemma TakeOff(nx: Links, pv: Links, head: Ptr, q: seq<Id>, c: Id)
    requires Chain(nx, pv, head, q) && (c in q || Aside(nx, pv, q, c))
    ensures c in nx && c in pv
    ensures Chain(NextsWithout(nx, pv, c), PrevsWithout(nx, pv, c), HeadPast(nx, pv, head, c), Drop(q, {c}))
  {
    if c in q {
      TakeOut(nx, pv, head, q, c);
      FirstIsHead(nx, pv, head, q, c);
    } else {
      hide Chain;
      DropNone(q, {c});
      HeadIn(nx, pv, head, q);
      Elsewhere(nx, pv, NextsWithout(nx, pv, c), PrevsWithout(nx, pv, c), head, q);
    }
  }

  // ---- putting a client first

  function PrevsBehind(pv: Links, head: Ptr, c: Id): Links {
    Set(pv, head, Some(c))
  }

  /** A client put first is followed by the rest, in the same order. */
  lemma PutFirst(nx: Links, pv: Links, head: Ptr, q: seq<Id>, c: Id)
    requires Chain(nx, pv, head, q) && c !in q && c in nx && c in pv && pv[c] == None
    ensures Chain(nx[c := head], PrevsBehind(pv, head, c), Some(c), [c] + q)
  {
    var r, ny, pw := [c] + q, nx[c := head], PrevsBehind(pv, head, c);
    forall i | 0 <= i < |r| ensures Placed(ny, pw, r, i) {
      if i > 0 {
        assert Placed(nx, pv, q, i - 1);
      }
    }
  }

  /** Put first when it is already alone on the list, a client comes after itself, and the list never ends. */
  lemma PutTwice(nx: Links, pv: Links, head: Ptr, c: Id, steps: nat)
    requires Chain(nx, pv, head, [c])
    ensures c in nx && c in pv && LooksFree(nx, pv, c)
    ensures |Walk(nx[c := head], Some(c), steps)| == steps
  {
    assert Placed(nx, pv, [c], 0);
    Circle(nx[c := head], c, steps);
  }

  lemma {:induction false} Circle(nx: Links, c: Id, steps: nat)
    requires c in nx && nx[c] == Some(c)
    ensures |Walk(nx, Some(c), steps)| == steps
  {
    if steps > 0 {
      Circle(nx, c, steps - 1);
    }
  }

  // ---- links elsewhere

  /** A list answers to its own members' links only. */
  lemma Elsewhere(nx: Links, pv: Links, ny: Links, pw: Links, head: Ptr, q: seq<Id>)
    requires Chain(nx, pv, head, q)
    requires forall x :: x in q && x in nx && x in pv ==> x in ny && x in pw && ny[x] == nx[x] && pw[x] == pv[x]
    ensures Chain(ny, pw, head, q)
  {
    forall i | 0 <= i < |q| ensures Placed(ny, pw, q, i) {
      assert Placed(nx, pv, q, i);
    }
  }

  lemma Neighbours(nx: Links, pv: Links, head: Ptr, q: seq<Id>, c: Id)
    requires Chain(nx, pv, head, q) && c in q
    ensures c in nx && (nx[c].Some? ==> nx[c].value in q)
    ensures c in pv && (pv[c].Some? ==> pv[c].value in q)
  {
    var i :| 0 <= i < |q| && q[i] == c;
    assert Placed(nx, pv, q, i);
  }

  lemma HeadIn(nx: Links, pv: Links, head: Ptr, q: seq<Id>)
    requires Chain(nx, pv, head, q)
    ensures head.Some? ==> head.value in q
  {
  }
}
