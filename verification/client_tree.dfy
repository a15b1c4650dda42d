/** The tree of servers and users, and the removal of everything that depends on a server. */
module ClientTree {
  import opened Sequences
  import opened Text

  // A client's address; a client is introduced after the server it is on.
  type Id = nat

  datatype Kind = Server | Person

  datatype Client = Client(kind: Kind, servptr: Option<Id>, servers: seq<Id>, users: seq<Id>)

  type Table = map<Id, Client>

  // GlobalClientList, Count.server, Count.total and the clients exited so far
  datatype World = World(clients: Table, list: seq<Id>, servers: int, total: int, exits: seq<Id>)

  // ---- the tree

  // The list of its uplink that a client is on.
  function Children(x: Client, kind: Kind): seq<Id> {
    if kind == Server then x.servers else x.users
  }

  ghost predicate ChildOf(t: Table, p: Id, c: Id, kind: Kind) {
    c in t && t[c].servptr == Some(p) && t[c].kind == kind && p < c
  }

  ghost predicate Family(t: Table) {
    && (forall p, k :: p in t ==> Distinct(Children(t[p], k)))
    && (forall p, c, k :: p in t && c in Children(t[p], k) ==> ChildOf(t, p, c, k))
    && (forall c :: c in t && t[c].servptr.Some? ==> Listed(t, t[c].servptr.value, c, t[c].kind))
    && forall c :: c in t && t[c].kind == Person ==> t[c].servers == [] && t[c].users == []
  }

  ghost predicate Listed(t: Table, p: Id, c: Id, kind: Kind) {
    p in t && c in Children(t[p], kind)
  }

  // Servers are counted, and users once they are on a server.
  predicate Counts(x: Client, kind: Kind) {
    x.kind == kind && (kind == Server || x.servptr.Some?)
  }

  ghost function OfKind(t: Table, gone: set<Id>, kind: Kind): set<Id> {
    set r | r in gone && r in t && Counts(t[r], kind)
  }

  /** Every client is on the list once, and on its uplink's list of servers or users once. */
  ghost predicate Good(w: World) {
    && Family(w.clients)
    && Distinct(w.list) && (forall x :: x in w.list <==> x in w.clients)
  }

  // r is q, or depends on it.
  ghost predicate Under(t: Table, q: Id, r: Id)
    decreases r
  {
    r == q || (r in t && t[r].servptr.Some? && t[r].servptr.value < r && Under(t, q, t[r].servptr.value))
  }

  ghost function Below(t: Table, q: Id): (b: set<Id>) {
    set r | r in t && r != q && Under(t, q, r)
  }

  // Clients gone from the list and from every uplink, and taken off the counts.
  ghost function Removed(w: World, gone: set<Id>): World {
    World(map r | r in w.clients && r !in gone ::
            w.clients[r].(servers := Drop(w.clients[r].servers, gone), users := Drop(w.clients[r].users, gone)),
          Drop(w.list, gone), w.servers - |OfKind(w.clients, gone, Server)|, w.total - |OfKind(w.clients, gone,
            Person)|, w.exits)
  }

  // With a client go those that depend on it.
  ghost predicate Closed(t: Table, gone: set<Id>) {
    forall r :: r in t && t[r].servptr.Some? && t[r].servptr.value in gone ==> r in gone
  }

  // Exactly these clients exit, each before the server it is on.
  ghost predicate ChildFirst(t: Table, order: seq<Id>, gone: set<Id>) {
    && Distinct(order) && (forall x :: x in order <==> x in gone)
    && forall i, j :: 0 <= i <= j < |order| && order[j] in t ==> t[order[j]].servptr != Some(order[i])
  }

  // ---- what removal keeps

  lemma RemovedFamily(w: World, gone: set<Id>)
    requires Family(w.clients) && Closed(w.clients, gone)
    ensures Family(Removed(w, gone).clients)
  {
    hide Distinct, Drop;
    var t, u := w.clients, Removed(w, gone).clients;
    forall p, k | p in u
      ensures Distinct(Children(u[p], k))
      ensures forall c :: c in Children(u[p], k) <==> c in Children(t[p], k) && c !in gone
    {
      DropIs(Children(t[p], k), gone);
    }
    forall c | c in t && t[c].kind == Person
      ensures Drop(t[c].servers, gone) == [] && Drop(t[c].users, gone) == []
    {
      DropIs([], gone);
    }
  }

  lemma RemovedGood(w: World, gone: set<Id>)
    requires Good(w) && Closed(w.clients, gone)
    ensures Good(Removed(w, gone))
  {
    RemovedFamily(w, gone);
    DropIs(w.list, gone);
    hide Family, Distinct, Drop;
  }

  lemma ParentIsOlder(t: Table, r: Id)
    requires Family(t) && r in t && t[r].servptr.Some?
    ensures var p := t[r].servptr.value; p in t && p < r && r in Children(t[p], t[r].kind)
  {
    assert Listed(t, t[r].servptr.value, r, t[r].kind);
    assert ChildOf(t, t[r].servptr.value, r, t[r].kind);
  }

  lemma {:induction false} UnderIsYounger(t: Table, q: Id, r: Id)
    requires Under(t, q, r)
    ensures q <= r
    decreases r
  {
    if r != q { UnderIsYounger(t, q, t[r].servptr.value); }
  }

  lemma ChildIsUnder(t: Table, q: Id, r: Id)
    requires Family(t) && r in t && t[r].servptr.Some? && Under(t, q, t[r].servptr.value)
    ensures Under(t, q, r) && q < r
  {
    ParentIsOlder(t, r);
    UnderIsYounger(t, q, t[r].servptr.value);
  }

  lemma BelowIsClosed(t: Table, q: Id)
    requires Family(t)
    ensures Closed(t, Below(t, q)) && Closed(t, Below(t, q) + {q})
  {
    forall r | r in t && t[r].servptr.Some? && t[r].servptr.value in Below(t, q) + {q} ensures r in Below(t, q) {
      assert Under(t, q, t[r].servptr.value);
      ChildIsUnder(t, q, r);
    }
  }

  lemma KindsAdd(t: Table, a: set<Id>, b: set<Id>, kind: Kind)
    requires a !! b
    ensures |OfKind(t, a + b, kind)| == |OfKind(t, a, kind)| + |OfKind(t, b, kind)|
  {
    assert OfKind(t, a + b, kind) == OfKind(t, a, kind) + OfKind(t, b, kind);
    assert OfKind(t, a, kind) !! OfKind(t, b, kind);
  }

  lemma RemovedTwice(w: World, a: set<Id>, b: set<Id>)
    requires a !! b
    ensures Removed(Removed(w, a), b) == Removed(w, a + b)
  {
    var u := Removed(w, a);
    KindsAdd(w.clients, a, b, Server);
    KindsAdd(w.clients, a, b, Person);
    assert OfKind(u.clients, b, Server) == OfKind(w.clients, b, Server);
    assert OfKind(u.clients, b, Person) == OfKind(w.clients, b, Person);
    DropTwice(w.list, a, b);
    RemovedTables(w, a, b);
    hide Drop, OfKind;
  }

  lemma RemovedTables(w: World, a: set<Id>, b: set<Id>)
    ensures Removed(Removed(w, a), b).clients == Removed(w, a + b).clients
  {
    var t, u := Removed(Removed(w, a), b).clients, Removed(w, a + b).clients;
    assert t.Keys == u.Keys;
    forall r | r in t ensures t[r] == u[r] {
      DropTwice(w.clients[r].servers, a, b);
      DropTwice(w.clients[r].users, a, b);
    }
    hide Drop;
    assert t == u;
  }

  lemma RemovedNone(w: World)
    ensures Removed(w, {}) == w
  {
    assert OfKind(w.clients, {}, Server) == {} && OfKind(w.clients, {}, Person) == {};
    DropNone(w.list, {});
    forall r | r in w.clients ensures Drop(w.clients[r].servers, {}) == w.clients[r].servers
      && Drop(w.clients[r].users, {}) == w.clients[r].users {
      DropNone(w.clients[r].servers, {});
      DropNone(w.clients[r].users, {});
    }
    hide Drop, OfKind;
    assert Removed(w, {}).clients == w.clients;
  }

  // ---- a new client

  // A client first on the list and first on its uplink's, and counted.
  function Introduced(w: World, id: Id, kind: Kind, p: Id): World
    requires p in w.clients
  {
    var x := w.clients[p];
    var y := if kind == Server then x.(servers := [id] + x.servers) else x.(users := [id] + x.users);
    World(w.clients[id := Client(kind, Some(p), [], [])][p := y], [id] + w.list,
          w.servers + (if kind == Server then 1 else 0), w.total + (if kind == Person then 1 else 0), w.exits)
  }

  lemma IntroducedGood(w: World, id: Id, kind: Kind, p: Id)
    requires Good(w) && p in w.clients && w.clients[p].kind == Server && p < id && id !in w.clients
    ensures Good(Introduced(w, id, kind, p))
  {
    IntroducedFamily(w, id, kind, p);
    hide Family;
  }

  lemma IntroducedFamily(w: World, id: Id, kind: Kind, p: Id)
    requires Family(w.clients) && p in w.clients && w.clients[p].kind == Server && p < id && id !in w.clients
    ensures Family(Introduced(w, id, kind, p).clients)
  {
    var t, u := w.clients, Introduced(w, id, kind, p).clients;
    IntroducedIs(w, id, kind, p);
    forall q, k | q in u ensures Distinct(Children(u[q], k)) {
      assert q in t && id in Children(t[q], k) ==> ChildOf(t, q, id, k);
    }
    forall q, c, k | q in u && c in Children(u[q], k) ensures ChildOf(u, q, c, k) {
      if c != id {
        assert ChildOf(t, q, c, k);
      }
    }
    hide Distinct;
    forall c | c in u && u[c].servptr.Some? ensures Listed(u, u[c].servptr.value, c, u[c].kind) {
      if c != id {
        assert Listed(t, t[c].servptr.value, c, t[c].kind);
      }
    }
  }

  // Only the uplink's one list has changed.
  lemma IntroducedIs(w: World, id: Id, kind: Kind, p: Id)
    requires p in w.clients && p != id
    ensures var t, u := w.clients, Introduced(w, id, kind, p).clients;
            && u.Keys == t.Keys + {id} && u[id] == Client(kind, Some(p), [], [])
            && (forall x :: x in t && x != id ==> u[x].servptr == t[x].servptr && u[x].kind == t[x].kind)
            && Children(u[p], kind) == [id] + Children(t[p], kind)
            && forall x, k :: x in t && x != id && (x != p || k != kind) ==> Children(u[x], k) == Children(t[x], k)
  {
  }

  // ---- one more dependant

  // Some of q's dependants, each with all of its own, have exited in this order.
  ghost predicate PartOf(w: World, q: Id, gone: set<Id>, order: seq<Id>) {
    gone <= Below(w.clients, q) && Closed(w.clients, gone) && ChildFirst(w.clients, order, gone)
  }

  ghost predicate SameParents(s: Table, t: Table) {
    t.Keys <= s.Keys && forall r :: r in t ==> t[r].servptr == s[r].servptr
  }

  lemma {:induction false} UnderBefore(s: Table, t: Table, a: Id, r: Id)
    requires SameParents(s, t) && Under(t, a, r)
    ensures Under(s, a, r)
    decreases r
  {
    if r != a { UnderBefore(s, t, a, t[r].servptr.value); }
  }

  lemma {:induction false} UnderBoth(t: Table, a: Id, q: Id, r: Id)
    requires Under(t, a, q) && Under(t, q, r)
    ensures Under(t, a, r)
    decreases r
  {
    if r != q { UnderBoth(t, a, q, t[r].servptr.value); }
  }

  lemma MoreBelow(s: Table, t: Table, q: Id, c: Id)
    requires SameParents(s, t) && c in t && t[c].servptr == Some(q) && q < c
    ensures Below(t, c) + {c} <= Below(s, q) && q !in Below(t, c) + {c} && Below(t, c) + {c} <= t.Keys
  {
    forall r | r in Below(t, c) + {c} ensures r in Below(s, q) && r != q {
      assert Under(t, c, r);
      UnderBefore(s, t, c, r);
      assert Under(s, q, c);
      UnderBoth(s, q, c, r);
      UnderIsYounger(s, c, r);
    }
  }

  lemma MoreClosed(s: Table, t: Table, gone: set<Id>, more: set<Id>)
    requires Closed(s, gone) && Closed(t, more)
    requires forall r :: r in s && r !in gone ==> r in t && t[r].servptr == s[r].servptr
    ensures Closed(s, gone + more)
  {
  }

  // The order in which a child with its own dependants exits, after those gone before.
  lemma OrderMore(s: Table, t: Table, gone: set<Id>, order: seq<Id>, more: set<Id>, next: seq<Id>)
    requires ChildFirst(s, order, gone) && ChildFirst(t, next, more) && gone !! more && Closed(s, gone)
    requires more <= t.Keys <= s.Keys && forall r :: r in t ==> t[r].servptr == s[r].servptr
    ensures ChildFirst(s, order + next, gone + more)
  {
    var all := order + next;
    forall i, j | 0 <= i <= j < |all| && all[j] in s ensures s[all[j]].servptr != Some(all[i]) {
      if i < |order| <= j {
        assert all[i] in gone && next[j - |order|] in more;
      } else if |order| <= i {
        assert next[j - |order|] in more;
      }
    }
    assert forall i :: 0 <= i < |order| ==> all[i] == order[i] && order[i] in gone;
    assert forall i :: |order| <= i < |all| ==> all[i] == next[i - |order|] && next[i - |order|] in more;
  }

  // A child exits after its dependants.
  lemma OrderLast(t: Table, order: seq<Id>, c: Id)
    requires ChildFirst(t, order, Below(t, c)) && c in t && t[c].servptr != Some(c)
    requires t[c].servptr.Some? ==> t[c].servptr.value < c
    ensures ChildFirst(t, order + [c], Below(t, c) + {c})
  {
    var all := order + [c];
    assert c !in order;
    forall i, j | 0 <= i <= j < |all| && all[j] in t ensures t[all[j]].servptr != Some(all[i]) {
      if j == |order| && i < |order| {
        assert order[i] in Below(t, c);
        UnderIsYounger(t, c, order[i]);
      }
    }
    assert forall i :: 0 <= i < |order| ==> all[i] == order[i];
    assert forall x :: x in all <==> x in order || x == c;
  }
}
