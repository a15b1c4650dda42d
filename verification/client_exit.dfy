/** What the exits of a server's dependants come to, on the tree of clients and the counts. */
module ClientExit {
  import opened Text
  import opened Sequences
  import opened ClientTree

  lemma NotListed(t: Table, p: Id, c: Id, k: Kind)
    requires Family(t) && p in t && c in t && (t[c].servptr != Some(p) || t[c].kind != k)
    ensures Drop(Children(t[p], k), {c}) == Children(t[p], k)
  {
    forall x | x in Children(t[p], k) ensures x != c { assert ChildOf(t, p, x, k); }
    DropNone(Children(t[p], k), {c});
  }

  lemma OneKind(t: Table, c: Id)
    requires c in t
    ensures forall k :: |OfKind(t, {c}, k)| == if Counts(t[c], k) then 1 else 0
  {
    forall k ensures |OfKind(t, {c}, k)| == if Counts(t[c], k) then 1 else 0 {
      assert OfKind(t, {c}, k) == if Counts(t[c], k) then {c} else {};
    }
  }

  lemma Childless(t: Table, c: Id)
    requires Family(t) && c in t && t[c].servers == [] && t[c].users == []
    ensures Closed(t, {c}) && Below(t, c) == {}
  {
    forall r | r in t ensures t[r].servptr != Some(c) {
      assert t[r].servptr.Some? ==> Listed(t, t[r].servptr.value, r, t[r].kind);
    }
    forall r | r in t && r != c ensures !Under(t, c, r) { NotUnder(t, c, r); }
  }

  lemma {:induction false} NotUnder(t: Table, c: Id, r: Id)
    requires r != c && forall x :: x in t ==> t[x].servptr != Some(c)
    ensures !Under(t, c, r)
    decreases r
  {
    if r in t && t[r].servptr.Some? && t[r].servptr.value < r { NotUnder(t, c, t[r].servptr.value); }
  }

  // The world after these clients have exited in this order.
  ghost function Exited(w: World, gone: set<Id>, order: seq<Id>): World {
    Removed(w, gone).(exits := w.exits + order)
  }

  lemma ExitedTwice(w: World, a: set<Id>, x: seq<Id>, b: set<Id>, y: seq<Id>)
    requires a !! b
    ensures Exited(Exited(w, a, x), b, y) == Exited(w, a + b, x + y)
  {
    RemovedTwice(w, a, b);
    Without(Removed(w, a), w.exits + x, b);
    assert w.exits + x + y == w.exits + (x + y);
    hide Removed;
  }

  // The exits play no part in a removal.
  lemma Without(w: World, e: seq<Id>, gone: set<Id>)
    ensures Removed(w.(exits := e), gone) == Removed(w, gone).(exits := e)
  {
  }

  lemma ExitedGood(w: World, gone: set<Id>, order: seq<Id>)
    requires Good(w) && Closed(w.clients, gone)
    ensures Good(Exited(w, gone, order))
  {
    RemovedGood(w, gone);
    hide Removed, Family;
  }

  lemma ExitedNone(w: World)
    ensures Exited(w, {}, []) == w
  {
    RemovedNone(w);
    assert w.exits + [] == w.exits;
    hide Removed;
  }

  // With both lists empty, nobody is left who depends on q.
  lemma AllGone(w: World, q: Id, gone: set<Id>, order: seq<Id>)
    requires Good(w) && PartOf(w, q, gone, order) && q in w.clients
    requires forall c :: c in w.clients && w.clients[c].servptr == Some(q) ==> c in gone
    ensures gone == Below(w.clients, q)
  {
    forall r | r in Below(w.clients, q) ensures r in gone { PathGone(w.clients, q, gone, r); }
  }

  lemma {:induction false} PathGone(t: Table, q: Id, gone: set<Id>, r: Id)
    requires Closed(t, gone) && r in Below(t, q)
    requires forall c :: c in t && t[c].servptr == Some(q) ==> c in gone
    ensures r in gone
    decreases r
  {
    var p := t[r].servptr.value;
    assert Under(t, q, p);
    if p != q { PathGone(t, q, gone, p); }
  }

  lemma NoneLeft(w: World, u: World, q: Id, gone: set<Id>, order: seq<Id>)
    requires u == Exited(w, gone, order) && Good(u) && q in u.clients && u.clients[q].servers == []
    requires u.clients[q].users == []
    ensures forall c :: c in w.clients && w.clients[c].servptr == Some(q) ==> c in gone
  {
    hide Drop;
    forall c | c in w.clients && w.clients[c].servptr == Some(q) ensures c in gone {
      if c !in gone { Orphan(u.clients, q, c); }
    }
  }

  lemma Orphan(t: Table, q: Id, c: Id)
    requires Family(t) && q in t && t[q].servers == [] && t[q].users == [] && c in t
    ensures t[c].servptr != Some(q)
  {
    assert t[c].servptr.Some? ==> Listed(t, t[c].servptr.value, c, t[c].kind);
  }

  // One more child of q has exited, after those that depend on it.
  lemma OneMore(w: World, u: World, q: Id, gone: set<Id>, order: seq<Id>, c: Id, next: seq<Id>)
    requires Good(w) && PartOf(w, q, gone, order) && u == Exited(w, gone, order) && Good(u)
    requires c in u.clients && u.clients[c].servptr == Some(q) && q in u.clients && q < c
    requires ChildFirst(u.clients, next, Below(u.clients, c))
    ensures var more := Below(u.clients, c) + {c};
      && gone !! more && PartOf(w, q, gone + more, order + (next + [c])) && q !in more
      && Exited(Exited(u, Below(u.clients, c), next), {c}, [c]) == Exited(w, gone + more, order + (next + [c]))
      && Good(Exited(u, Below(u.clients, c), next)) && Good(Exited(w, gone + more, order + (next + [c])))
  {
    var more := Below(u.clients, c) + {c};
    hide Drop, ChildFirst, Under;
    BelowIsClosed(u.clients, c);
    MoreBelow(w.clients, u.clients, q, c);
    MoreClosed(w.clients, u.clients, gone, more);
    OrderLast(u.clients, next, c);
    OrderMore(w.clients, u.clients, gone, order, more, next + [c]);
    hide Exited, Good;
    ExitedTwice(u, Below(u.clients, c), next, {c}, [c]);
    ExitedTwice(w, gone, order, more, next + [c]);
    ExitedGood(u, Below(u.clients, c), next);
    ExitedGood(w, gone + more, order + (next + [c]));
  }

  lemma NoneYet(w: World, q: Id)
    ensures PartOf(w, q, {}, [])
  {
  }

  lemma OrderIs(w: World, q: Id, gone: set<Id>, order: seq<Id>)
    requires PartOf(w, q, gone, order)
    ensures ChildFirst(w.clients, order, gone)
  {
  }

  lemma FirstOf(u: World, q: Id, c: Id, k: Kind)
    requires Good(u) && q in u.clients && Children(u.clients[q], k) != [] && c == Children(u.clients[q], k)[0]
    ensures c in u.clients && u.clients[c].servptr == Some(q) && q < c && u.clients[c].kind == k
  {
    assert ChildOf(u.clients, q, c, k);
  }

  // A user has nobody depending on it.
  lemma UserAlone(u: World, c: Id)
    requires Good(u) && c in u.clients && u.clients[c].kind == Person
    ensures Below(u.clients, c) == {} && ChildFirst(u.clients, [], Below(u.clients, c))
    ensures Exited(u, {}, []) == u
  {
    Childless(u.clients, c);
    ExitedNone(u);
  }

  // Once a child's own dependants are gone it has none, and after it the list it was on is shorter.
  lemma AfterOne(u: World, q: Id, c: Id, next: seq<Id>, me: Id)
    requires Good(u) && q in u.clients && c in u.clients && u.clients[c].servptr == Some(q) && q < c
    requires Children(u.clients[q], u.clients[c].kind) != [] && c == Children(u.clients[q], u.clients[c].kind)[0]
    requires me in u.clients && u.clients[me].servptr == None
    ensures var v := Exited(u, Below(u.clients, c), next);
      && c in v.clients && me in v.clients && c != me && v.clients[c].servers == [] && v.clients[c].users == []
    ensures var more := Below(u.clients, c) + {c};
      var z := Exited(u, more, next + [c]);
      && q in z.clients && me in z.clients && z.clients[me].servptr == None
      && |Children(z.clients[q], u.clients[c].kind)| < |Children(u.clients[q], u.clients[c].kind)|
      && (u.clients[q].servers == [] ==> z.clients[q].servers == [])
      && forall r :: r in z.clients ==> r in u.clients
  {
    var b := Below(u.clients, c);
    AllBelow(u.clients, c);
    if q in b { UnderIsYounger(u.clients, c, q); }
    assert !Under(u.clients, c, me);
    DropIs(Children(u.clients[q], u.clients[c].kind), b + {c});
    DropIs(u.clients[q].servers, b + {c});
    hide Good, Under;
  }

  lemma BothExit(u: World, c: Id, next: seq<Id>)
    ensures Exited(Exited(u, Below(u.clients, c), next), {c}, [c]) == Exited(u, Below(u.clients, c) + {c}, next + [c])
  {
    hide Exited, Under;
    ExitedTwice(u, Below(u.clients, c), next, {c}, [c]);
  }

  lemma AllBelow(t: Table, q: Id)
    requires Family(t) && q in t
    ensures Drop(t[q].servers, Below(t, q)) == [] && Drop(t[q].users, Below(t, q)) == []
  {
    AllOfKind(t, q, ClientTree.Server);
    AllOfKind(t, q, ClientTree.Person);
  }

  lemma {:induction false} DropAll(q: seq<Id>, gone: set<Id>)
    requires forall x :: x in q ==> x in gone
    ensures Drop(q, gone) == []
  {
    if q != [] { DropAll(q[1..], gone); }
  }

  lemma AllOfKind(t: Table, q: Id, k: Kind)
    requires Family(t) && q in t
    ensures Drop(Children(t[q], k), Below(t, q)) == []
  {
    forall c | c in Children(t[q], k) ensures c in Below(t, q) {
      assert ChildOf(t, q, c, k);
      ChildIsUnder(t, q, c);
    }
    DropAll(Children(t[q], k), Below(t, q));
  }
}
