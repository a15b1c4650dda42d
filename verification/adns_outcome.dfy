/** What a child's answer does to its parent. */
module AdnsOutcome {
  import opened Text
  import opened Sequences
  import opened AdnsState
  import opened AdnsFinish
  import opened AdnsEffects
  import opened AdnsSweep

  /** A query of the caller's, when done, is the last answer to collect, and everything made for it is gone. */
  lemma FinishRoot(s: State, q: Ref)
    requires Good(s, {q}) && q in s.queries && s.queries[q].parent == None
    ensures var t := Finish(s, q);
      && t.output == s.output + [q] && t.queries.Keys == s.queries.Keys - Below(s.queries, q)
      && q in t.queries && t.queries[q].answer == s.queries[q].answer && t.queries[q].phase == Done
         && t.queries[q].id == -1
  {
    hide Good, Under;
    CancelGood(s, {q}, q);
    FamilyOf(s, {q});
    RootIs(s.queries, q);
    SelfUnder(s.queries, q);
    CancelAffects(s, {q}, q, q);
  }

  lemma SelfUnder(t: Table, q: Ref)
    ensures Under(t, q, q)
  {
  }

  // The query as it is when it fails, with its children gone.
  lemma FailMarks(s: State, q: Ref, status: int) returns (u: State)
    requires Good(s, {q}) && q in s.queries && s.queries[q].parent == None
    ensures q in u.queries && Fail(s, q, status) == Finish(u, q) && Good(u, {q}) && u.output == s.output
    ensures u.queries[q] == s.queries[q].(children := [], answer := s.queries[q].answer.(status := status,
      addrs := [], hosts := []))
    ensures u.queries.Keys == s.queries.Keys - Below(s.queries, q)
  {
    hide Good, Under, Finish;
    CancelGood(s, {q}, q);
    SelfUnder(s.queries, q);
    CancelAffects(s, {q}, q, q);
    var t := CancelBelow(s, q);
    var x := Reset(t.queries[q]);
    var y := x.(answer := x.answer.(status := status));
    ResetRanged(s, q, y);
    AloneGood(t, {q}, q, y);
    u := With(t, q, y);
  }

  lemma ResetRanged(s: State, q: Ref, y: Query)
    requires Good(s, {q}) && q in s.queries && y.nextServer == s.queries[q].nextServer
    requires y.sentTo == s.queries[q].sentTo
    requires y.search == s.queries[q].search && y.retries == s.queries[q].retries
    ensures Ranged(s.nservers, s.nsearch, y)
  {
    assert Ranged(s.nservers, s.nsearch, s.queries[q]);
    hide Queues, Family, Phases, Kinds;
  }

  /** Failing, it has that status and no records. */
  lemma FailRoot(s: State, q: Ref, status: int)
    requires Good(s, {q}) && q in s.queries && s.queries[q].parent == None
    ensures var t := Fail(s, q, status);
      && t.output == s.output + [q] && t.queries.Keys == s.queries.Keys - Below(s.queries, q)
      && q in t.queries && t.queries[q].answer == s.queries[q].answer.(status := status, addrs := [], hosts := [])
      && t.queries[q].phase == Done && t.queries[q].id == -1
  {
    hide Good, Under, Finish, Fail;
    var u := FailMarks(s, q, status);
    FinishRoot(u, q);
    FamilyOf(u, {q});
    NothingBelow(u.queries, q);
  }

  lemma NothingBelow(t: Table, q: Ref)
    requires Family(t) && q in t && t[q].children == []
    ensures Below(t, q) == {}
  {
    forall r | r in t && r != q ensures !Under(t, q, r) { NotUnder(t, q, r); }
  }

  lemma {:induction false} NotUnder(t: Table, q: Ref, r: Ref)
    requires Family(t) && q in t && t[q].children == [] && r in t && r != q
    ensures !Under(t, q, r)
    decreases r
  {
    if t[r].parent.Some? {
      ParentIsOlder(t, r);
      if t[r].parent.value != q { NotUnder(t, q, t[r].parent.value); }
    }
  }

  // With its own children gone, the query's parent is as it was.
  lemma ParentStays(s: State, p: Ref, q: Ref)
    requires Good(s, {q}) && q in s.queries && s.queries[q].parent == Some(p)
    ensures p in s.queries && p < q
    ensures var t := CancelBelow(s, q);
      && p in t.queries && t.queries[p] == s.queries[p] && t.output == s.output && Good(t, {q})
      && t.queries[q] == s.queries[q].(children := [])
  {
    FamilyOf(s, {q});
    hide Good, Under, CancelBelow;
    CancelGood(s, {q}, q);
    SelfUnder(s.queries, q);
    CancelAffects(s, {q}, q, q);
    ParentIsOlder(s.queries, q);
    NotAbove(s.queries, p, q);
  }

  // The state in which a child's callback finds its parent: as it was, without that child.
  lemma Meets(s: State, p: Ref, q: Ref) returns (u: State)
    requires Good(s, {q}) && q in s.queries && s.queries[q].parent == Some(p)
    ensures p in s.queries && p in u.queries && Finish(s, q) == Callback(u, p, s.queries[q].kind, s.queries[q].answer)
    ensures Good(u, {p}) && Waiting(u, p) && Serves(u.queries[p], s.queries[q].kind)
    ensures u.queries[p] == s.queries[p].(children := Drop(s.queries[p].children, {q}))
    ensures q !in u.queries && u.output == s.output
  {
    hide Good, Under, Callback, CancelBelow, Drop, Waiting, Serves;
    ParentStays(s, p, q);
    var t := CancelBelow(s, q);
    u := Leaves(t, p, q);
  }

  lemma Leaves(t: State, p: Ref, q: Ref) returns (u: State)
    requires Good(t, {q}) && q in t.queries && t.queries[q].parent == Some(p) && t.queries[q].children == []
    ensures p in t.queries && p < q && u == Parted(t, p, q) && p in u.queries && q !in u.queries && u.output == t.output
    ensures Good(u, {p}) && Waiting(u, p) && Serves(u.queries[p], t.queries[q].kind)
    ensures u.queries[p] == t.queries[p].(children := Drop(t.queries[p].children, {q}))
  {
    hide Good, Under, Drop, Waiting, Serves, Affects;
    FamilyOf(t, {q});
    HandsOver(t, p, q);
    PartedGood(t, p, q);
    u := Parted(t, p, q);
    SelfUnder(t.queries, p);
    ChildIsUnder(t.queries, p, q);
    ParentWaits(t, p, q, p);
    UnlinkAffects(t, {q}, p, q);
    UnlinkedGood(t, {q}, p);
    NoneDone(Unlinked(t, p), {q} + {p}, {q});
  }

  lemma NotAbove(t: Table, p: Ref, q: Ref)
    requires p < q
    ensures !Under(t, q, p)
  {
    if Under(t, q, p) { UnderIsYounger(t, q, p); }
  }

  // What is left of a parent's children.
  ghost function LeftOf(s: State, p: Ref, q: Ref): seq<Ref>
    requires p in s.queries
  {
    Drop(s.queries[p].children, {q})
  }

  lemma ResumeRoot(u: State, p: Ref)
    requires Good(u, {p}) && Waiting(u, p) && u.queries[p].parent == None
    ensures var t := Resume(u, p);
      && p in t.queries && t.queries[p].answer == u.queries[p].answer
      && (u.queries[p].children != [] ==> p in t.childw && t.queries[p] == u.queries[p] && t.output == u.output)
      && (u.queries[p].children == [] ==> t.output == u.output + [p] && t.queries[p].phase == Done)
  {
    hide Good, Finish;
    if u.queries[p].children == [] {
      FinishRoot(u, p);
    } else {
      assert p in (u.childw + [p]);
    }
  }

  /**
   * A reverse lookup's answer stands only if every name found has an address record with the address asked for: the
   * first name without ends it, with the name's own failure or as inconsistent; the last name with ends it well.
   */
  lemma PtrOutcome(s: State, p: Ref, q: Ref)
    requires Good(s, {q}) && q in s.queries && s.queries[q].parent == Some(p) && s.queries[q].kind == ForPtr
    requires p in s.queries && s.queries[p].parent == None
    ensures var t, x, a := Finish(s, q), s.queries[p], s.queries[q].answer;
      && q !in t.queries && p in t.queries
      && if a.status == S_OK && x.answer.expected.Some? && x.answer.expected.value in a.addrs then
           && t.queries[p].answer == x.answer
           && (LeftOf(s, p, q) != [] ==>
               p in t.childw && t.queries[p].children == LeftOf(s, p, q) && t.output == s.output)
           && (LeftOf(s, p, q) == [] ==> t.output == s.output + [p])
         else
           var status := if a.status in {S_OK, S_NXDOMAIN, S_NODATA} then S_INCONSISTENT else a.status;
           t.output == s.output + [p] && t.queries[p].answer == x.answer.(status := status, addrs := [], hosts := [])
  {
    hide Good, Finish, Resume, Fail, Drop;
    FinishGood(s, q);
    var u := Meets(s, p, q);
    if PtrVerdict(s.queries[p], s.queries[q].answer).Some? {
      FailRoot(u, p, PtrVerdict(s.queries[p], s.queries[q].answer).value);
    } else {
      ResumeRoot(u, p);
      ResumeKeys(u, p);
    }
  }

  lemma ResumeKeys(u: State, p: Ref)
    requires Good(u, {p}) && Waiting(u, p) && u.queries[p].parent == None
    ensures Resume(u, p).queries.Keys <= u.queries.Keys
  {
    hide Good, Finish;
    if u.queries[p].children == [] { FinishRoot(u, p); }
  }

  /**
   * A host's addresses are filled in from the child's answer, marked unknown on a temporary failure; the record's
   * owner is answered when the last child has been, whatever they said.
   */
  lemma HostOutcome(s: State, p: Ref, q: Ref, slot: nat)
    requires Good(s, {q}) && q in s.queries && s.queries[q].parent == Some(p) && s.queries[q].kind == ForHost(slot)
    requires p in s.queries && s.queries[p].parent == None
    ensures slot < |s.queries[p].answer.hosts|
    ensures var t, x, a := Finish(s, q), s.queries[p], s.queries[q].answer;
      && q !in t.queries && p in t.queries
      && (var n := if 0 < a.status <= S_MAX_TEMPFAIL then -1 else |a.addrs|;
          t.queries[p].answer == x.answer.(hosts := x.answer.hosts[slot := Host(a.status, n, a.addrs)]))
      && (LeftOf(s, p, q) != [] ==> p in t.childw && t.queries[p].children == LeftOf(s, p, q) && t.output == s.output)
      && (LeftOf(s, p, q) == [] ==> t.output == s.output + [p])
  {
    hide Good, Finish, Resume, Drop;
    var u := Meets(s, p, q);
    var x := SetHost(u.queries[p], slot, HostOf(s.queries[q].answer));
    HostRanged(u, p, x);
    WithGood(u, {p}, p, x);
    ResumeRoot(With(u, p, x), p);
    ResumeKeys(With(u, p, x), p);
  }

  lemma HostRanged(u: State, p: Ref, x: Query)
    requires Good(u, {p}) && p in u.queries && x == u.queries[p].(answer := x.answer)
    ensures Ranged(u.nservers, u.nsearch, x)
  {
    assert Ranged(u.nservers, u.nsearch, u.queries[p]);
    hide Queues, Family, Phases, Kinds;
  }
}
