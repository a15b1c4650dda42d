/** How a query ends: its children go, its parent is told, and what that leads to. */
module AdnsFinish {
  import opened Text
  import opened Sequences
  import opened AdnsState

  // cancel_children
  ghost function CancelBelow(s: State, q: Ref): (t: State)
    requires q in s.queries
    ensures q in t.queries && t.queries.Keys <= s.queries.Keys
  {
    Removed(s, Below(s.queries, q))
  }

  // The child leaves its parent's list and the table, the parent its queue.
  function Parted(s: State, p: Ref, q: Ref): (t: State)
    requires p in s.queries && p != q
    ensures p in t.queries
  {
    Removed(Unlinked(s, p), {q})
  }

  function Over(x: Query): Query {
    x.(phase := Done, id := -1)
  }

  // adns__query_done
  ghost function Finish(s: State, q: Ref): State
    requires q in s.queries
    decreases q, 0
  {
    var t := CancelBelow(s, q);
    var x := t.queries[q];
    match x.parent
    case None => Linked(With(t, q, Over(x)), q)
    case Some(p) => if p < q && p in t.queries then Callback(Parted(t, p, q), p, x.kind, x.answer) else t
  }

  // What adns__reset_preserved leaves of an answer.
  function Reset(x: Query): Query {
    x.(answer := x.answer.(addrs := [], hosts := []))
  }

  // adns__query_fail
  ghost function Fail(s: State, q: Ref, status: int): State
    requires q in s.queries
    decreases q, 1
  {
    var t := CancelBelow(s, q);
    var x := Reset(t.queries[q]);
    Finish(With(t, q, x.(answer := x.answer.(status := status))), q)
  }

  // The parent waits for its other children, or is done.
  ghost function Resume(s: State, p: Ref): State
    requires p in s.queries
    decreases p, 2
  {
    if s.queries[p].children != [] then Linked(s, p) else Finish(s, p)
  }

  // What icb_hostaddr writes for a child's answer.
  function HostOf(a: Answer): Host {
    Host(a.status, if 0 < a.status <= S_MAX_TEMPFAIL then -1 else |a.addrs|, a.addrs)
  }

  function SetHost(x: Query, slot: nat, h: Host): Query {
    if slot < |x.answer.hosts| then x.(answer := x.answer.(hosts := x.answer.hosts[slot := h])) else x
  }

  // What icb_ptr makes of a child's answer: the status its parent fails with, or none.
  function PtrVerdict(x: Query, a: Answer): Option<int> {
    if a.status == S_NXDOMAIN || a.status == S_NODATA then Some(S_INCONSISTENT)
    else if a.status != S_OK then Some(a.status)
    else if x.answer.expected.Some? && x.answer.expected.value in a.addrs then None
    else Some(S_INCONSISTENT)
  }

  // The child's callback, on its parent.
  ghost function Callback(s: State, p: Ref, kind: Kind, a: Answer): State
    requires p in s.queries
    decreases p, 3
  {
    match kind
    case External => s
    case ForPtr =>
      (match PtrVerdict(s.queries[p], a)
       case Some(status) => Fail(s, p, status)
       case None => Resume(s, p))
    case ForHost(slot) => Resume(With(s, p, SetHost(s.queries[p], slot, HostOf(a))), p)
  }

  // ---- the invariant is kept

  lemma CancelGood(s: State, off: set<Ref>, q: Ref)
    requires Good(s, off) && q in off && q in s.queries
    ensures Good(CancelBelow(s, q), off)
    ensures var x := CancelBelow(s, q).queries[q]; x == s.queries[q].(children := [])
  {
    BelowIsClosed(s.queries, off, q);
    hide Ranges, Queues, Phases, Kinds;
    RemovedGood(s, off, Below(s.queries, q));
    AllBelow(s.queries, q);
  }

  lemma AllBelow(t: Table, q: Ref)
    requires Family(t) && q in t
    ensures Drop(t[q].children, Below(t, q)) == []
  {
    DropIs(t[q].children, Below(t, q));
    var d := Drop(t[q].children, Below(t, q));
    if d != [] {
      assert ChildOf(t, q, d[0]);
      ChildIsUnder(t, q, d[0]);
    }
  }

  lemma OverGood(s: State, off: set<Ref>, q: Ref)
    requires Good(s, off) && q in off && q in s.queries && s.queries[q].parent == None && s.queries[q].children == []
    ensures Good(With(s, q, Over(s.queries[q])), off)
  {
    hide Distinct, Settled, Ranged;
    var t := With(s, q, Over(s.queries[q]));
    assert Ranged(s.nservers, s.nsearch, t.queries[q]) by { RangedOver(s.nservers, s.nsearch, s.queries[q]); }
    OverFamily(s, q);
    OverQueues(s, off, q);
    hide Family, Queues;
  }

  lemma RangedOver(nservers: nat, nsearch: nat, x: Query)
    requires Ranged(nservers, nsearch, x)
    ensures Ranged(nservers, nsearch, Over(x))
  {
  }

  lemma OverFamily(s: State, q: Ref)
    requires Family(s.queries) && q in s.queries && s.queries[q].parent == None
    ensures Family(With(s, q, Over(s.queries[q])).queries)
  {
    hide Distinct;
  }

  lemma OverQueues(s: State, off: set<Ref>, q: Ref)
    requires Queues(s, off) && q in off && q in s.queries
    ensures Queues(With(s, q, Over(s.queries[q])), off)
  {
    hide Distinct;
  }

  // A query with no children may lose what its children would have filled.
  lemma AloneGood(s: State, off: set<Ref>, q: Ref, x: Query)
    requires Good(s, off) && q in off && q in s.queries && s.queries[q].children == []
    requires x.parent == s.queries[q].parent && x.children == [] && x.kind == s.queries[q].kind
    requires x.phase == s.queries[q].phase
    requires Ranged(s.nservers, s.nsearch, x)
    ensures Good(With(s, q, x), off)
  {
    WithQueues(s, off, q, x);
    AloneFamily(s, q, x);
    AloneKinds(s, q, x);
    hide Queues, Family, Kinds, Settled;
  }

  lemma AloneFamily(s: State, q: Ref, x: Query)
    requires Family(s.queries) && q in s.queries
    requires x.parent == s.queries[q].parent && x.children == s.queries[q].children && x.phase == s.queries[q].phase
    ensures Family(With(s, q, x).queries)
  {
    hide Distinct;
  }

  lemma AloneKinds(s: State, q: Ref, x: Query)
    requires Family(s.queries) && Kinds(s.queries) && q in s.queries && s.queries[q].children == []
    requires x.parent == s.queries[q].parent && x.kind == s.queries[q].kind
    ensures Kinds(With(s, q, x).queries)
  {
    hide Distinct;
    forall r | r in s.queries && s.queries[r].parent.Some?
      ensures s.queries[r].parent.value != q
    {
      ParentIsOlder(s.queries, r);
    }
  }

  lemma OffGone(s: State, off: set<Ref>, q: Ref)
    requires Good(s, off) && q !in s.queries
    ensures Good(s, off - {q})
  {
    hide Distinct, Settled, Ranges, Family, Kinds;
  }

  lemma PartedGood(s: State, p: Ref, q: Ref)
    requires Good(s, {q}) && q in s.queries && s.queries[q].children == [] && s.queries[q].parent == Some(p)
    ensures p in s.queries && p < q && Good(Parted(s, p, q), {p})
    ensures var x, y := s.queries[p], Parted(s, p, q).queries[p];
      y == x.(children := Drop(x.children, {q})) && y.phase == ChildW && y.id >= 0
  {
    ParentIsOlder(s.queries, q);
    assert Settled(s.queries[p]);
    UnlinkedGood(s, {q}, p);
    var u := Unlinked(s, p);
    forall r | r in u.queries && u.queries[r].parent.Some?
      ensures u.queries[r].parent.value != q
    {
      ParentIsOlder(u.queries, r);
    }
    hide Family, Queues, Ranges, Phases, Kinds;
    RemovedGood(u, {q} + {p}, {q});
    OffGone(Parted(s, p, q), {q} + {p}, q);
    assert {q} + {p} - {q} == {p};
  }

  // A query that can go on waiting: it has been sent and answered.
  ghost predicate Waiting(s: State, p: Ref) {
    p in s.queries && s.queries[p].phase == ChildW && s.queries[p].id >= 0
  }

  ghost predicate Serves(x: Query, kind: Kind) {
    match kind
    case External => false
    case ForPtr => x.answer.expected.Some?
    case ForHost(slot) => slot < |x.answer.hosts|
  }

  // The last step of a query that is the caller's own.
  lemma LastGood(t: State, q: Ref)
    requires Good(t, {q}) && q in t.queries && t.queries[q].parent == None && t.queries[q].children == []
    ensures Good(Linked(With(t, q, Over(t.queries[q])), q), {})
  {
    OverGood(t, {q}, q);
    LinkedGood(With(t, q, Over(t.queries[q])), {q}, q);
    assert {q} - {q} == {};
  }

  // What a child hands its parent.
  lemma HandsOver(t: State, p: Ref, q: Ref)
    requires Good(t, {q}) && q in t.queries && t.queries[q].parent == Some(p) && t.queries[q].children == []
    ensures p in t.queries && p < q
    ensures var u := Parted(t, p, q); Good(u, {p}) && Waiting(u, p) && Serves(u.queries[p], t.queries[q].kind)
  {
    assert Served(t.queries, t.queries[q]);
    hide Good;
    PartedGood(t, p, q);
  }

  /** A query being processed, when done, leaves every query on the queue of its state. */
  lemma {:induction false} FinishGood(s: State, q: Ref)
    requires Good(s, {q}) && q in s.queries
    ensures Good(Finish(s, q), {})
    decreases q, 0
  {
    hide Good, CancelBelow, Parted, Linked, With, Callback, Waiting, Serves;
    CancelGood(s, {q}, q);
    var t := CancelBelow(s, q);
    var x := t.queries[q];
    match x.parent {
      case None =>
        LastGood(t, q);
      case Some(p) =>
        HandsOver(t, p, q);
        CallbackGood(Parted(t, p, q), p, x.kind, x.answer);
    }
  }

  lemma {:induction false} FailGood(s: State, q: Ref, status: int)
    requires Good(s, {q}) && q in s.queries
    ensures Good(Fail(s, q, status), {})
    decreases q, 1
  {
    CancelGood(s, {q}, q);
    var t := CancelBelow(s, q);
    var x := Reset(t.queries[q]);
    var y := x.(answer := x.answer.(status := status));
    AloneGood(t, {q}, q, y);
    FinishGood(With(t, q, y), q);
  }

  lemma {:induction false} ResumeGood(s: State, p: Ref)
    requires Good(s, {p}) && Waiting(s, p)
    ensures Good(Resume(s, p), {})
    decreases p, 2
  {
    if s.queries[p].children != [] {
      LinkedGood(s, {p}, p);
      assert {p} - {p} == {};
    } else {
      FinishGood(s, p);
    }
  }

  lemma {:induction false} CallbackGood(s: State, p: Ref, kind: Kind, a: Answer)
    requires Good(s, {p}) && Waiting(s, p) && Serves(s.queries[p], kind)
    ensures Good(Callback(s, p, kind, a), {})
    decreases p, 3
  {
    match kind {
      case ForPtr =>
        if PtrVerdict(s.queries[p], a).Some? {
          FailGood(s, p, PtrVerdict(s.queries[p], a).value);
        } else {
          ResumeGood(s, p);
        }
      case ForHost(slot) =>
        var x := SetHost(s.queries[p], slot, HostOf(a));
        WithGood(s, {p}, p, x);
        ResumeGood(With(s, p, x), p);
    }
  }
}
