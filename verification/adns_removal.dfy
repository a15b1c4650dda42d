/** Removing a family one child at a time. */
module AdnsRemoval {
  import opened Text
  import opened Sequences
  import opened AdnsState
  import opened AdnsFinish
  import opened AdnsEffects

  lemma RemovedTwice(s: State, a: set<Ref>, b: set<Ref>)
    ensures Removed(Removed(s, a), b) == Removed(s, a + b)
  {
    DropTwice(s.udpw, a, b);
    DropTwice(s.childw, a, b);
    DropTwice(s.output, a, b);
    var t, u := Removed(Removed(s, a), b).queries, Removed(s, a + b).queries;
    assert t.Keys == u.Keys;
    forall r | r in t ensures t[r] == u[r] { DropTwice(s.queries[r].children, a, b); }
    hide Drop;
    assert t == u;
  }

  lemma {:induction false} DropEmpty(q: seq<Ref>)
    ensures Drop(q, {}) == q
  {
    DropNone(q, {});
  }

  // Some of q's descendants, each with all of its own.
  ghost predicate PartOf(s: State, q: Ref, gone: set<Ref>) {
    gone <= Below(s.queries, q) && Closed(s.queries, gone)
  }

  lemma NoneGone(s: State)
    ensures Removed(s, {}) == s && forall q :: PartOf(s, q, {})
  {
    DropEmpty(s.udpw);
    DropEmpty(s.childw);
    DropEmpty(s.output);
    forall r | r in s.queries
      ensures Drop(s.queries[r].children, {}) == s.queries[r].children
    {
      DropEmpty(s.queries[r].children);
    }
    hide Drop;
    assert Removed(s, {}).queries == s.queries;
  }

  lemma FirstChild(s: State, off: set<Ref>, q: Ref)
    requires Good(s, off) && q in off && q in s.queries && s.queries[q].children != []
    ensures var c := s.queries[q].children[0];
      c in s.queries && s.queries[c].parent == Some(q) && q < c < s.next
  {
    assert ChildOf(s.queries, q, s.queries[q].children[0]);
    hide Queues, Phases, Kinds, Settled, Ranged;
  }

  lemma MoreBelow(s: Table, t: Table, q: Ref, c: Ref)
    requires SameParents(s, t) && c in t && t[c].parent == Some(q) && q < c
    ensures Below(t, c) + {c} <= Below(s, q) && q !in Below(t, c) + {c}
  {
    forall r | r in Below(t, c) + {c} ensures r in Below(s, q) && r != q {
      assert Under(t, c, r);
      UnderBefore(s, t, c, r);
      assert Under(s, q, c);
      UnderBoth(s, q, c, r);
      UnderIsYounger(s, c, r);
    }
  }

  lemma MoreClosed(s: Table, t: Table, gone: set<Ref>, more: set<Ref>)
    requires Closed(s, gone) && Closed(t, more)
    requires forall r :: r in s && r !in gone ==> r in t && t[r].parent == s[r].parent
    ensures Closed(s, gone + more)
  {
  }

  // One more child, with its descendants.
  lemma MoreGone(s: State, t: State, off: set<Ref>, q: Ref, c: Ref, gone: set<Ref>)
    requires t == Removed(s, gone) && PartOf(s, q, gone) && Good(t, off) && q in t.queries && q in off
    requires c in t.queries && t.queries[c].parent == Some(q) && q < c
    ensures var more := Below(t.queries, c) + {c};
      PartOf(s, q, gone + more) && Removed(t, more) == Removed(s, gone + more) && q !in more
  {
    var more := Below(t.queries, c) + {c};
    RemovedTwice(s, gone, more);
    FamilyIn(t, off);
    BelowAllIsClosed(t.queries, off, c);
    hide Good, Drop, Closed, Below, Spares;
    MoreBelow(s.queries, t.queries, q, c);
    MoreClosed(s.queries, t.queries, gone, more);
  }

  lemma {:induction false} DropShrinks(q: seq<Ref>, gone: set<Ref>)
    requires q != [] && q[0] in gone
    ensures |Drop(q, gone)| < |q|
  {
    DropIs(q[1..], gone);
  }

  // The parent's list gets shorter.
  lemma FewerLeft(t: State, q: Ref, more: set<Ref>)
    requires q in t.queries && q !in more && t.queries[q].children != [] && t.queries[q].children[0] in more
    ensures q in Removed(t, more).queries && |Removed(t, more).queries[q].children| < |t.queries[q].children|
  {
    DropShrinks(t.queries[q].children, more);
    hide Drop;
  }

  // With an empty list, no child is left.
  lemma ChildrenGone(s: State, t: State, off: set<Ref>, q: Ref, gone: set<Ref>)
    requires t == Removed(s, gone) && Good(t, off) && q in t.queries && t.queries[q].children == []
    ensures forall c :: c in s.queries && s.queries[c].parent == Some(q) ==> c in gone
  {
    FamilyIn(t, off);
    hide Good, Drop, Family;
    forall c | c in s.queries && s.queries[c].parent == Some(q) ensures c in gone {
      if c !in gone { NoChildOf(t.queries, q, c); }
    }
  }

  lemma NoChildOf(t: Table, q: Ref, c: Ref)
    requires Family(t) && q in t && t[q].children == [] && c in t
    ensures t[c].parent != Some(q)
  {
    assert t[c].parent.Some? ==> Listed(t, t[c].parent.value, c);
  }

  lemma FamilyIn(s: State, off: set<Ref>)
    requires Good(s, off)
    ensures Family(s.queries)
  {
  }

  // With no child left, all the descendants have gone.
  lemma AllGone(s: State, q: Ref, gone: set<Ref>)
    requires PartOf(s, q, gone) && Family(s.queries) && q in s.queries
    requires forall c :: c in s.queries && s.queries[c].parent == Some(q) ==> c in gone
    ensures gone == Below(s.queries, q)
  {
    forall r | r in Below(s.queries, q) ensures r in gone { PathGone(s, q, gone, r); }
  }

  lemma {:induction false} PathGone(s: State, q: Ref, gone: set<Ref>, r: Ref)
    requires Closed(s.queries, gone) && r in Below(s.queries, q)
    requires forall c :: c in s.queries && s.queries[c].parent == Some(q) ==> c in gone
    ensures r in gone
    decreases r
  {
    var p := s.queries[r].parent.value;
    assert Under(s.queries, q, p);
    if p != q { PathGone(s, q, gone, p); }
  }

  // ---- taking one query out by hand

  // A query is on one queue at most.
  lemma OneQueue(s: State, off: set<Ref>, q: Ref)
    requires Good(s, off) && q in s.queries
    ensures Unlinked(s, q) == match s.queries[q].phase
      case ToSend => s.(udpw := Drop(s.udpw, {q}))
      case ChildW => s.(childw := Drop(s.childw, {q}))
      case Done => s.(output := Drop(s.output, {q}))
  {
    assert Queue(s, off, ToSend) && Queue(s, off, ChildW) && Queue(s, off, Done);
    hide Ranges, Family, Phases, Kinds, Distinct, Drop;
    if !s.queries[q].phase.ToSend? { DropNone(s.udpw, {q}); }
    if !s.queries[q].phase.ChildW? { DropNone(s.childw, {q}); }
    if !s.queries[q].phase.Done? { DropNone(s.output, {q}); }
  }

  // The query out of its parent's list and out of the table.
  function Orphaned(t: Table, q: Ref): Table
    requires q in t
  {
    (if t[q].parent.Some? && t[q].parent.value in t then
       var p := t[q].parent.value;
       t[p := t[p].(children := Drop(t[p].children, {q}))]
     else t) - {q}
  }

  lemma CancelledIs(s: State, off: set<Ref>, q: Ref)
    requires Good(s, off) && q in s.queries
    ensures var v := CancelBelow(Unlinked(s, q), q);
      Removed(s, Below(s.queries, q) + {q}) == v.(queries := Orphaned(v.queries, q))
  {
    hide Good, Under, Drop, Orphaned;
    var b := Below(s.queries, q);
    DropTwice(s.udpw, {q}, b);
    DropTwice(s.childw, {q}, b);
    DropTwice(s.output, {q}, b);
    assert {q} + b == b + {q};
    FamilyIn(s, off);
    if s.queries[q].parent.Some? {
      ParentIsOlder(s.queries, q);
      NotBelow(s.queries, q, s.queries[q].parent.value);
    }
    OrphanedIs(s.queries, q, b);
  }

  lemma NotBelow(t: Table, q: Ref, p: Ref)
    requires p < q
    ensures p !in Below(t, q)
  {
    if p in Below(t, q) { UnderIsYounger(t, q, p); }
  }

  function Without(t: Table, gone: set<Ref>): Table {
    map r | r in t && r !in gone :: t[r].(children := Drop(t[r].children, gone))
  }

  lemma OrphanedOne(t: Table, q: Ref, b: set<Ref>, r: Ref)
    requires Family(t) && q in t && r in t
    ensures Drop(t[r].children, b + {q}) == Drop(Drop(t[r].children, b), {q})
    ensures t[q].parent != Some(r) ==> Drop(t[r].children, b + {q}) == Drop(t[r].children, b)
  {
    DropTwice(t[r].children, b, {q});
    DropIs(t[r].children, b);
    hide Drop;
    if t[q].parent != Some(r) {
      forall c | c in Drop(t[r].children, b) ensures c != q { assert ChildOf(t, r, c); }
      DropNone(Drop(t[r].children, b), {q});
    }
  }

  lemma OrphanedIs(t: Table, q: Ref, b: set<Ref>)
    requires Family(t) && q in t && q !in b && (t[q].parent.Some? ==> t[q].parent.value !in b && t[q].parent.value != q)
    ensures Orphaned(Without(t, b), q) == Without(t, b + {q})
  {
    hide Drop, Family;
    var x, y := Orphaned(Without(t, b), q), Without(t, b + {q});
    assert x.Keys == y.Keys;
    forall r | r in y ensures x[r] == y[r] { OrphanedOne(t, q, b, r); }
  }

  lemma PartedBy(s: State, p: Ref, q: Ref)
    requires Good(s, {q}) && q in s.queries && p in s.queries && p < q && s.queries[q].parent == Some(p)
    requires s.queries[q].children == []
    ensures var u := Unlinked(s, p); Parted(s, p, q) == u.(queries := Orphaned(u.queries, q))
  {
    var u := Unlinked(s, p);
    NotQueued(s, q);
    hide Good, Under, Drop, Orphaned, Family;
    FamilyIn(s, {q});
    DropTwice(s.udpw, {p}, {q});
    DropTwice(s.childw, {p}, {q});
    DropTwice(s.output, {p}, {q});
    DropIsNone(s.udpw, p, q);
    DropIsNone(s.childw, p, q);
    DropIsNone(s.output, p, q);
    OrphanedIs(s.queries, q, {});
    TableWithoutNone(s.queries);
    assert {} + {q} == {q};
  }

  lemma TableWithoutNone(t: Table)
    ensures Without(t, {}) == t
  {
    forall r | r in t ensures Drop(t[r].children, {}) == t[r].children { DropEmpty(t[r].children); }
    hide Drop;
    assert Without(t, {}).Keys == t.Keys;
  }

  lemma NotQueued(s: State, q: Ref)
    requires Good(s, {q})
    ensures q !in s.udpw && q !in s.childw && q !in s.output
  {
    assert Queue(s, {q}, ToSend) && Queue(s, {q}, ChildW) && Queue(s, {q}, Done);
  }

  lemma DropIsNone(w: seq<Ref>, p: Ref, q: Ref)
    requires q !in w
    ensures Drop(Drop(w, {p}), {q}) == Drop(w, {p})
  {
    DropIs(w, {p});
    DropNone(Drop(w, {p}), {q});
  }
}
