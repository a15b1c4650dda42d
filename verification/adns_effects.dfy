/** What ending a query changes: its own family, and at most one more answer for the caller. */
module AdnsEffects {
  import opened Text
  import opened Sequences
  import opened AdnsState
  import opened AdnsFinish

  ghost function Lost(s: State, t: State): set<Ref> {
    s.queries.Keys - t.queries.Keys
  }

  // The same parents and the same next servers, for the queries that are left.
  ghost predicate SameParents(s: Table, t: Table) {
    && t.Keys <= s.Keys
    && forall r :: r in t ==>
         t[r].parent == s[r].parent && t[r].kind == s[r].kind && t[r].nextServer == s[r].nextServer
  }

  // Outside the family of a, nothing has changed.
  ghost predicate Untouched(s: Table, t: Table, a: Ref) {
    forall r :: r in s && !Under(s, a, r) ==> r in t && t[r] == s[r]
  }

  // The caller's own queries are all there.
  ghost predicate OwnStay(s: Table, t: Table) {
    forall r :: r in s && s[r].parent == None ==> r in t
  }

  // The queries waiting for replies are those that waited before and are left, unchanged and in the same order.
  ghost predicate WaitOn(s: State, t: State) {
    t.udpw == Drop(s.udpw, Lost(s, t)) && forall r :: r in t.udpw ==>
        r in s.queries && r in t.queries && t.queries[r] == s.queries[r]
  }

  ghost predicate Affects(s: State, t: State, a: Ref) {
    && t.next == s.next && t.sent == s.sent && t.nservers == s.nservers && t.nsearch == s.nsearch
    && SameParents(s.queries, t.queries) && Untouched(s.queries, t.queries, a) && OwnStay(s.queries, t.queries)
    && WaitOn(s, t)
  }

  lemma {:induction false} UnderBefore(s: Table, t: Table, a: Ref, r: Ref)
    requires SameParents(s, t) && Under(t, a, r)
    ensures Under(s, a, r)
    decreases r
  {
    if r != a { UnderBefore(s, t, a, t[r].parent.value); }
  }

  lemma UntouchedTwice(s: Table, t: Table, u: Table, a: Ref)
    requires SameParents(s, t) && Untouched(s, t, a) && Untouched(t, u, a)
    ensures Untouched(s, u, a)
  {
    forall r | r in s && !Under(s, a, r) ensures r in u && u[r] == s[r] {
      if Under(t, a, r) { UnderBefore(s, t, a, r); }
    }
  }

  lemma WaitOnTwice(s: State, t: State, u: State)
    requires t.queries.Keys <= s.queries.Keys && u.queries.Keys <= t.queries.Keys && WaitOn(s, t) && WaitOn(t, u)
    ensures WaitOn(s, u)
  {
    DropTwice(s.udpw, Lost(s, t), Lost(t, u));
    assert Lost(s, t) + Lost(t, u) == Lost(s, u);
    DropIs(t.udpw, Lost(t, u));
  }

  lemma AffectsTwice(s: State, t: State, u: State, a: Ref)
    requires Affects(s, t, a) && Affects(t, u, a)
    ensures Affects(s, u, a)
  {
    UntouchedTwice(s.queries, t.queries, u.queries, a);
    WaitOnTwice(s, t, u);
    hide Untouched, WaitOn;
  }

  lemma {:induction false} DropSame(q: seq<Ref>, a: set<Ref>, b: set<Ref>)
    requires forall x :: x in q ==> (x in a <==> x in b)
    ensures Drop(q, a) == Drop(q, b)
  {
    if q != [] { DropSame(q[1..], a, b); }
  }

  // A query that waits for a reply has no children to lose.
  lemma WaiterAlone(s: State, off: set<Ref>, r: Ref)
    requires Good(s, off) && r in s.udpw
    ensures r in s.queries && r !in off && s.queries[r].children == []
  {
    hide Ranges, Family, Kinds, Distinct;
    assert Queue(s, off, ToSend);
    assert Settled(s.queries[r]);
  }

  lemma RemovedWaitOn(s: State, off: set<Ref>, gone: set<Ref>)
    requires Good(s, off)
    ensures WaitOn(s, Removed(s, gone))
  {
    hide Good;
    var t := Removed(s, gone);
    forall r | r in s.udpw ensures r in s.queries && s.queries[r].children == [] { WaiterAlone(s, off, r); }
    DropSame(s.udpw, gone, Lost(s, t));
    DropIs(s.udpw, gone);
    forall r | r in t.udpw ensures r in s.queries && r in t.queries && t.queries[r] == s.queries[r] {
      assert Drop([], gone) == [];
    }
  }

  // Removing queries of a's family that are not the caller's own.
  lemma RemovedAffects(s: State, off: set<Ref>, gone: set<Ref>, a: Ref)
    requires Good(s, off)
    requires forall r :: r in gone ==> r in s.queries && Under(s.queries, a, r) && r != a && s.queries[r].parent.Some?
    ensures Affects(s, Removed(s, gone), a)
  {
    RemovedWaitOn(s, off, gone);
    RemovedUntouched(s, gone, a);
    hide Ranges, Queues, Family, Phases, Kinds, WaitOn, Untouched;
  }

  lemma RemovedUntouched(s: State, gone: set<Ref>, a: Ref)
    requires Family(s.queries) && forall r :: r in gone ==> r in s.queries && Under(s.queries, a, r) && r != a
    ensures Untouched(s.queries, Removed(s, gone).queries, a)
  {
    var t := Removed(s, gone);
    forall r | r in s.queries && !Under(s.queries, a, r) ensures r in t.queries && t.queries[r] == s.queries[r] {
      forall c | c in s.queries[r].children ensures c !in gone {
        assert ChildOf(s.queries, r, c);
        assert Under(s.queries, a, c) && c != a ==> Under(s.queries, a, r);
      }
      DropNone(s.queries[r].children, gone);
    }
  }

  lemma {:induction false} UnderBoth(t: Table, a: Ref, q: Ref, r: Ref)
    requires Under(t, a, q) && Under(t, q, r)
    ensures Under(t, a, r)
    decreases r
  {
    if r != q { UnderBoth(t, a, q, t[r].parent.value); }
  }

  lemma CancelAffects(s: State, off: set<Ref>, q: Ref, a: Ref)
    requires Good(s, off) && q in s.queries && Under(s.queries, a, q)
    ensures Affects(s, CancelBelow(s, q), a)
    ensures CancelBelow(s, q).output == s.output
  {
    var b := Below(s.queries, q);
    forall r | r in b ensures Under(s.queries, a, r) && r != a && s.queries[r].parent.Some? {
      UnderBoth(s.queries, a, q, r);
      UnderIsYounger(s.queries, q, r);
      UnderIsYounger(s.queries, a, q);
    }
    RemovedAffects(s, off, b, a);
    NoneDone(s, off, b);
  }

  // Queries with a parent are not in the output.
  lemma NoneDone(s: State, off: set<Ref>, gone: set<Ref>)
    requires Good(s, off) && forall r :: r in gone && r in s.queries ==> s.queries[r].parent.Some?
    ensures Drop(s.output, gone) == s.output
  {
    hide Ranges, Family, Kinds, Distinct;
    assert Queue(s, off, Done);
    forall r | r in s.output ensures r !in gone { assert Settled(s.queries[r]); }
    DropNone(s.output, gone);
  }

  lemma WithWaitOn(s: State, off: set<Ref>, q: Ref, x: Query)
    requires Good(s, off) && q in off && q in s.queries
    ensures WaitOn(s, With(s, q, x))
  {
    hide Good;
    forall r | r in s.udpw ensures r in s.queries && r != q { WaiterAlone(s, off, r); }
    assert Lost(s, With(s, q, x)) == {};
    DropNone(s.udpw, {});
  }

  // Changing a query that is on no queue, within the family.
  lemma WithAffects(s: State, off: set<Ref>, q: Ref, x: Query, a: Ref)
    requires Good(s, off) && q in off && q in s.queries && Under(s.queries, a, q)
    requires x.parent == s.queries[q].parent && x.kind == s.queries[q].kind
    requires x.nextServer == s.queries[q].nextServer
    ensures Affects(s, With(s, q, x), a) && With(s, q, x).output == s.output
  {
    hide Good, Under, WaitOn;
    WithWaitOn(s, off, q, x);
  }

  // Taking a query in waiting for its children off its queue.
  lemma UnlinkAffects(s: State, off: set<Ref>, p: Ref, a: Ref)
    requires Good(s, off) && p in s.queries && !s.queries[p].phase.ToSend? && !s.queries[p].phase.Done?
    ensures Affects(s, Unlinked(s, p), a) && Unlinked(s, p).output == s.output
  {
    var t := Unlinked(s, p);
    WaiterNot(s, off, p);
    forall r | r in s.udpw ensures r in s.queries { WaiterAlone(s, off, r); }
    hide Good, Under;
    DropNone(s.udpw, {p});
    DropNone(s.output, {p});
    assert Lost(s, t) == {};
    DropNone(s.udpw, {});
  }

  lemma WaiterNot(s: State, off: set<Ref>, p: Ref)
    requires Good(s, off) && p in s.queries && !s.queries[p].phase.ToSend? && !s.queries[p].phase.Done?
    ensures p !in s.udpw && p !in s.output
  {
    hide Ranges, Family, Kinds, Phases, Distinct;
    assert Queue(s, off, ToSend) && Queue(s, off, Done);
  }

  lemma LinkAffects(s: State, off: set<Ref>, q: Ref, a: Ref)
    requires Good(s, off) && q in s.queries && !s.queries[q].phase.ToSend?
    ensures Affects(s, Linked(s, q), a)
    ensures Linked(s, q).output == if s.queries[q].phase.Done? then s.output + [q] else s.output
  {
    hide Good, Under, Distinct, Drop;
    var t := Linked(s, q);
    forall r | r in s.udpw ensures r in s.queries { WaiterAlone(s, off, r); }
    assert Lost(s, t) == {};
    DropNone(s.udpw, {});
  }

  // ---- ending a query

  // The answers for the caller: as before, or one more.
  ghost predicate Answers(s: State, t: State, a: Ref) {
    t.output == s.output || t.output == s.output + [a]
  }

  // What ending one of a's family may do.
  ghost predicate Ends(s: State, t: State, a: Ref) {
    Affects(s, t, a) && Answers(s, t, a)
  }

  lemma EndsAfter(s: State, t: State, u: State, a: Ref)
    requires Affects(s, t, a) && t.output == s.output && Ends(t, u, a)
    ensures Ends(s, u, a)
  {
    hide Affects;
    AffectsTwice(s, t, u, a);
  }

  lemma EndsRoot(t: State, q: Ref, a: Ref)
    requires Good(t, {q}) && q in t.queries && t.queries[q].parent == None && t.queries[q].children == []
    requires Under(t.queries, a, q)
    ensures Ends(t, Linked(With(t, q, Over(t.queries[q])), q), a) && q == a
  {
    var u := With(t, q, Over(t.queries[q]));
    OverGood(t, {q}, q);
    WithAffects(t, {q}, q, Over(t.queries[q]), a);
    LinkAffects(u, {q}, q, a);
    hide Good, Affects;
    AffectsTwice(t, u, Linked(u, q), a);
  }

  lemma ParentWaits(t: State, p: Ref, q: Ref, a: Ref)
    requires Good(t, {q}) && q in t.queries && t.queries[q].parent == Some(p) && Under(t.queries, a, q) && q != a
    ensures p in t.queries && p < q && t.queries[p].phase == ChildW && Under(t.queries, a, p)
  {
    ParentIsOlder(t.queries, q);
    assert Settled(t.queries[p]);
    hide Ranges, Queues, Family, Kinds;
  }

  lemma PartedAffects(t: State, p: Ref, q: Ref, a: Ref)
    requires Good(t, {q}) && q in t.queries && t.queries[q].children == [] && t.queries[q].parent == Some(p)
    requires Under(t.queries, a, q) && q != a
    ensures p in t.queries && p < q
    ensures Affects(t, Parted(t, p, q), a) && Parted(t, p, q).output == t.output && Under(Parted(t, p, q).queries, a, p)
  {
    hide Good, Affects, Under, Drop;
    ParentWaits(t, p, q, a);
    var u := Unlinked(t, p);
    UnlinkAffects(t, {q}, p, a);
    UnlinkedGood(t, {q}, p);
    RemovedAffects(u, {q} + {p}, {q}, a);
    NoneDone(u, {q} + {p}, {q});
    AffectsTwice(t, u, Parted(t, p, q), a);
    StillUnder(t.queries, {q}, a, p);
  }

  // Ancestors older than everything removed are still ancestors.
  lemma {:induction false} StillUnder(t: Table, gone: set<Ref>, a: Ref, p: Ref)
    requires Under(t, a, p) && forall r :: r in gone ==> r > p
    ensures Under(map r | r in t && r !in gone :: t[r].(children := Drop(t[r].children, gone)), a, p)
    decreases p
  {
    if p != a { StillUnder(t, gone, a, t[p].parent.value); }
  }

  lemma CancelStillUnder(s: State, q: Ref, a: Ref)
    requires q in s.queries && Under(s.queries, a, q)
    ensures Under(CancelBelow(s, q).queries, a, q)
  {
    forall r | r in Below(s.queries, q) ensures r > q { UnderIsYounger(s.queries, q, r); }
    StillUnder(s.queries, Below(s.queries, q), a, q);
  }

  /** Ending a query of a's family changes no other query, loses none of the caller's own, and answers at most a. */
  lemma {:induction false} FinishEnds(s: State, q: Ref, a: Ref)
    requires Good(s, {q}) && q in s.queries && Under(s.queries, a, q) && a in s.queries && s.queries[a].parent == None
    ensures Ends(s, Finish(s, q), a)
    decreases q, 0
  {
    hide Good, Affects, Under, CancelBelow, Parted, Linked, With, Callback, Waiting, Serves, Answers;
    var t := CancelBelow(s, q);
    CancelGood(s, {q}, q);
    CancelAffects(s, {q}, q, a);
    CancelStillUnder(s, q, a);
    var x := t.queries[q];
    match x.parent {
      case None =>
        EndsRoot(t, q, a);
        EndsAfter(s, t, Finish(s, q), a);
      case Some(p) =>
        HandsOver(t, p, q);
        PartedAffects(t, p, q, a);
        var u := Parted(t, p, q);
        RootStays(s, t, a);
        RootStays(t, u, a);
        CallbackEnds(u, p, x.kind, x.answer, a);
        EndsAfter(t, u, Finish(s, q), a);
        EndsAfter(s, t, Finish(s, q), a);
    }
  }

  lemma RootStays(s: State, t: State, a: Ref)
    requires Affects(s, t, a) && a in s.queries && s.queries[a].parent == None
    ensures a in t.queries && t.queries[a].parent == None
  {
  }

  lemma {:induction false} FailEnds(s: State, q: Ref, status: int, a: Ref)
    requires Good(s, {q}) && q in s.queries && Under(s.queries, a, q) && a in s.queries && s.queries[a].parent == None
    ensures Ends(s, Fail(s, q, status), a)
    decreases q, 1
  {
    hide Good, Affects, Under, CancelBelow, With, Ends;
    var t := CancelBelow(s, q);
    CancelGood(s, {q}, q);
    CancelAffects(s, {q}, q, a);
    CancelStillUnder(s, q, a);
    RootStays(s, t, a);
    FailAffects(t, q, status, a);
    var x := Reset(t.queries[q]);
    var u := With(t, q, x.(answer := x.answer.(status := status)));
    FinishEnds(u, q, a);
    EndsAfter(t, u, Finish(u, q), a);
    EndsAfter(s, t, Finish(u, q), a);
  }

  lemma FailAffects(t: State, q: Ref, status: int, a: Ref)
    requires Good(t, {q}) && q in t.queries && t.queries[q].children == []
    requires Under(t.queries, a, q) && a in t.queries && t.queries[a].parent == None
    ensures var x := Reset(t.queries[q]);
      var u := With(t, q, x.(answer := x.answer.(status := status)));
      q in u.queries && Good(u, {q}) && Affects(t, u, a) && u.output == t.output && Under(u.queries, a, q)
        && a in u.queries && u.queries[a].parent == None
  {
    var x := Reset(t.queries[q]);
    var y := x.(answer := x.answer.(status := status));
    AloneGood(t, {q}, q, y);
    WithAffects(t, {q}, q, y, a);
    WithStillUnder(t.queries, q, y, a, q);
    hide Good, Affects, Under;
    RootStays(t, With(t, q, y), a);
  }

  lemma {:induction false} WithStillUnder(t: Table, q: Ref, x: Query, a: Ref, r: Ref)
    requires q in t && x.parent == t[q].parent && Under(t, a, r)
    ensures Under(t[q := x], a, r)
    decreases r
  {
    if r != a { WithStillUnder(t, q, x, a, t[r].parent.value); }
  }

  lemma {:induction false} ResumeEnds(s: State, p: Ref, a: Ref)
    requires Good(s, {p}) && Waiting(s, p) && Under(s.queries, a, p) && a in s.queries && s.queries[a].parent == None
    ensures Ends(s, Resume(s, p), a)
    decreases p, 2
  {
    if s.queries[p].children != [] {
      hide Good, Affects, Under;
      LinkAffects(s, {p}, p, a);
    } else {
      FinishEnds(s, p, a);
    }
  }

  lemma {:induction false} CallbackEnds(s: State, p: Ref, kind: Kind, ans: Answer, a: Ref)
    requires Good(s, {p}) && Waiting(s, p) && Serves(s.queries[p], kind)
    requires Under(s.queries, a, p) && a in s.queries && s.queries[a].parent == None
    ensures Ends(s, Callback(s, p, kind, ans), a)
    decreases p, 3
  {
    hide Good, Affects, Under, Ends, Fail, Resume, With;
    match kind {
      case ForPtr =>
        if PtrVerdict(s.queries[p], ans).Some? {
          FailEnds(s, p, PtrVerdict(s.queries[p], ans).value, a);
        } else {
          ResumeEnds(s, p, a);
        }
      case ForHost(slot) =>
        HostAffects(s, p, slot, ans, a);
        var u := With(s, p, SetHost(s.queries[p], slot, HostOf(ans)));
        ResumeEnds(u, p, a);
        EndsAfter(s, u, Resume(u, p), a);
    }
  }

  lemma HostAffects(s: State, p: Ref, slot: nat, ans: Answer, a: Ref)
    requires Good(s, {p}) && Waiting(s, p) && Under(s.queries, a, p) && a in s.queries && s.queries[a].parent == None
    ensures var u := With(s, p, SetHost(s.queries[p], slot, HostOf(ans)));
      Good(u, {p}) && Waiting(u, p) && Affects(s, u, a) && u.output == s.output && Under(u.queries, a, p)
        && a in u.queries && u.queries[a].parent == None
  {
    var x := SetHost(s.queries[p], slot, HostOf(ans));
    WithGood(s, {p}, p, x);
    WithAffects(s, {p}, p, x, a);
    WithStillUnder(s.queries, p, x, a, p);
    hide Good, Affects, Under;
    RootStays(s, With(s, p, x), a);
  }
}
