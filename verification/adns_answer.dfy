/** What a reply makes of the query it answers, and a request of a new one, in every reachable state. */
module AdnsAnswer {
  import opened Text
  import opened Sequences
  import opened AdnsState
  import opened AdnsFinish
  import opened AdnsEffects
  import opened AdnsOps
  import opened AdnsSweep
  import opened AdnsReply
  import opened AdnsRuns
  import opened AdnsOutcome
  import opened AdnsRounds
  import opened AdnsUnanswered

  // ---- no query fails before it ends

  ghost predicate Clean(t: Table, but: set<Ref>) {
    forall r :: r in t && r !in but ==> t[r].phase.Done? || t[r].answer.status == S_OK
  }

  lemma RemovedClean(s: State, gone: set<Ref>, but: set<Ref>)
    requires Clean(s.queries, but)
    ensures Clean(Removed(s, gone).queries, but)
  {
    hide Drop;
  }

  lemma {:induction false} FinishClean(s: State, q: Ref)
    requires Good(s, {q}) && q in s.queries && Clean(s.queries, {q})
    ensures Clean(Finish(s, q).queries, {})
    decreases q, 0
  {
    hide Good, CancelBelow, Callback, Waiting, Serves;
    CancelGood(s, {q}, q);
    CancelClean(s, q);
    var t := CancelBelow(s, q);
    var x := t.queries[q];
    if x.parent.Some? {
      var p := x.parent.value;
      HandsOver(t, p, q);
      PartedClean(t, p, q);
      CallbackClean(Parted(t, p, q), p, x.kind, x.answer);
    }
  }

  lemma CancelClean(s: State, q: Ref)
    requires q in s.queries && Clean(s.queries, {q})
    ensures Clean(CancelBelow(s, q).queries, {q})
  {
    RemovedClean(s, Below(s.queries, q), {q});
  }

  lemma PartedClean(t: State, p: Ref, q: Ref)
    requires p in t.queries && p != q && Clean(t.queries, {q})
    ensures Clean(Parted(t, p, q).queries, {})
  {
    hide Drop;
  }

  lemma {:induction false} FailClean(s: State, q: Ref, status: int)
    requires Good(s, {q}) && q in s.queries && Clean(s.queries, {q})
    ensures Clean(Fail(s, q, status).queries, {})
    decreases q, 1
  {
    hide Finish, Ranged;
    CancelGood(s, {q}, q);
    CancelClean(s, q);
    GoodHas(s, {q}, q);
    CancelSizes(s, q);
    hide Good, CancelBelow;
    var t := CancelBelow(s, q);
    var y := Reset(t.queries[q]).(answer := Reset(t.queries[q]).answer.(status := status));
    ResetIs(s.nservers, s.nsearch, s.queries[q], y);
    AloneGood(t, {q}, q, y);
    FinishClean(With(t, q, y), q);
  }

  lemma {:induction false} ResumeClean(s: State, p: Ref)
    requires Good(s, {p}) && Waiting(s, p) && Clean(s.queries, {})
    ensures Clean(Resume(s, p).queries, {})
    decreases p, 2
  {
    hide Good, Finish;
    if s.queries[p].children == [] { FinishClean(s, p); }
  }

  lemma {:induction false} CallbackClean(s: State, p: Ref, kind: Kind, a: Answer)
    requires Good(s, {p}) && Waiting(s, p) && Serves(s.queries[p], kind) && Clean(s.queries, {})
    ensures Clean(Callback(s, p, kind, a).queries, {})
    decreases p, 3
  {
    hide Good, Fail, Resume;
    match kind {
      case ForPtr =>
        if PtrVerdict(s.queries[p], a).Some? {
          FailClean(s, p, PtrVerdict(s.queries[p], a).value);
        } else {
          ResumeClean(s, p);
        }
      case ForHost(slot) =>
        var x := SetHost(s.queries[p], slot, HostOf(a));
        HostRanged(s, p, x);
        WithGood(s, {p}, p, x);
        ResumeClean(With(s, p, x), p);
    }
  }

  lemma DispatchClean(s: State, q: Ref, now: int)
    requires Good(s, {q}) && Sendable(s, q) && Clean(s.queries, {})
    ensures s.nservers > 0 && Clean(Dispatch(s, q, now).queries, {})
  {
    GoodHas(s, {q}, q);
    hide Good, Fail;
    if s.queries[q].retries >= UDPMAXRETRIES { FailClean(s, q, S_TIMEOUT); }
  }

  lemma {:induction false} TryClean(s: State, q: Ref, c: Candidate, now: int, mk: Candidate -> Made)
    requires Good(s, {q}) && Idle(s, q) && Clean(s.queries, {})
    ensures s.nservers > 0 && Clean(Try(s, q, c, now, mk).queries, {})
    decreases Left(s.queries[q].search, s.nsearch), 1
  {
    GoodHas(s, {q}, q);
    hide Good, Dispatch, Fail, SearchNext, Ranged;
    match mk(c) {
      case Made(id, question) =>
        var y := s.queries[q].(id := id, question := question);
        MadeRanged(s.nservers, s.nsearch, s.queries[q], y);
        AloneGood(s, {q}, q, y);
        DispatchClean(With(s, q, y), q, now);
      case Unmade(status) =>
        if status == S_QUERYDOMAINTOOLONG && s.queries[q].search.on {
          SearchClean(s, q, now, mk);
        } else {
          FailClean(s, q, status);
        }
    }
  }

  lemma {:induction false} SearchClean(s: State, q: Ref, now: int, mk: Candidate -> Made)
    requires Good(s, {q}) && Idle(s, q) && Clean(s.queries, {})
    ensures s.nservers > 0 && Clean(SearchNext(s, q, now, mk).queries, {})
    decreases Left(s.queries[q].search, s.nsearch), 0
  {
    GoodHas(s, {q}, q);
    hide Good, Try, Fail, Ranged, SearchNext, Candidates, Tried, Left;
    var x := s.queries[q];
    SearchOrder(s, q, now, mk);
    var c := Candidates(x.search, s.nsearch);
    if c == [] {
      FailClean(s, q, S_NXDOMAIN);
    } else {
      TriedFits(x, s.nservers, s.nsearch);
      var y := x.(search := Tried(x.search, s.nsearch));
      AloneGood(s, {q}, q, y);
      TryClean(With(s, q, y), q, c[0], now, mk);
    }
  }

  lemma SubmitClean(s: State, req: Request, now: int, mk: Candidate -> Made)
    requires Good(s, {}) && Clean(s.queries, {})
    ensures s.nservers > 0 && Clean(Submit(s, req, now, mk).queries, {})
  {
    assert s.nservers > 0;
    hide Good, Fail, Try, SearchNext;
    var x := Fresh(req);
    AllocatedGood(s, {}, x);
    assert {} + {s.next} == {s.next};
    match req {
      case Refused(status) => FailClean(Allocated(s, x), s.next, status);
      case Plain => TryClean(Allocated(s, x), s.next, None, now, mk);
      case Searching(_) => SearchClean(Allocated(s, x), s.next, now, mk);
    }
  }

  lemma {:induction false} SweepClean(s: State, now: int)
    requires Good(s, {}) && Clean(s.queries, {})
    ensures Clean(Sweep(s, now).queries, {})
    decreases DueNow(s, now)
  {
    hide Good, Resent, Clean;
    WaitersKnown(s, {});
    var i := FirstDue(s.queries, s.udpw, now);
    if i < |s.udpw| {
      var p := s.udpw[i];
      ResentGood(s, p, now);
      ResentDue(s, p, now);
      ResentClean(s, p, now);
      SweepClean(Resent(s, p, now), now);
    }
  }

  lemma ResentClean(s: State, p: Ref, now: int)
    requires Good(s, {}) && p in s.udpw && Clean(s.queries, {})
    ensures p in s.queries && s.nservers > 0 && Clean(Resent(s, p, now).queries, {})
  {
    hide Good, Dispatch;
    WaiterIs(s, p);
    DispatchClean(Unlinked(s, p), p, now);
  }

  lemma {:induction false} AddKidsClean(s: State, q: Ref, kids: seq<Kid>, now: int)
    requires q in s.queries && s.nservers > 0 && Clean(s.queries, {})
    ensures Clean(AddKids(s, q, kids, now).queries, {})
    decreases |kids|
  {
    if kids != [] { AddKidsClean(AddKid(s, q, kids[0], now), q, kids[1..], now); }
  }

  lemma AgainClean(s: State, q: Ref, x: Query, now: int)
    requires Good(s, {q}) && Sendable(s, q) && x == Restarted(s.queries[q].(id := x.id, question := x.question))
    requires x.id >= 0 && Clean(s.queries, {})
    ensures s.nservers > 0 && Clean(Dispatch(With(s, q, x), q, now).queries, {})
  {
    GoodHas(s, {q}, q);
    AgainRanged(s.nservers, s.nsearch, s.queries[q], x);
    hide Good, Dispatch, Ranged;
    AloneGood(s, {q}, q, x);
    DispatchClean(With(s, q, x), q, now);
  }

  lemma SettleClean(s: State, q: Ref, trouble: Option<int>)
    requires Good(s, {q}) && q in s.queries && s.queries[q].phase == ToSend && Clean(s.queries, {})
    ensures Clean(Settle(s, q, trouble).queries, {})
  {
    hide Good, Fail, Finish;
    if trouble.Some? {
      FailClean(s, q, trouble.value);
    } else if s.queries[q].children == [] {
      FinishClean(s, q);
    }
  }

  // The query with what was found in its answer, and the children for the rest.
  lemma FoundGood(s: State, q: Ref, v: Verdict, now: int)
    requires Good(s, {q}) && Sendable(s, q) && v.Found? && Readable(s.queries[q], v)
    ensures s.nservers > 0
    ensures var t := AddKids(With(s, q, Answer0(s.queries[q], v)), q, v.kids, now);
      Good(t, {q}) && t.queries[q].phase == ToSend && t.queries[q].parent == s.queries[q].parent
  {
    GoodHas(s, {q}, q);
    var y := Answer0(s.queries[q], v);
    AnswerRanged(s.nservers, s.nsearch, s.queries[q], v);
    hide Good, AddKids, Ranged;
    AloneGood(s, {q}, q, y);
    AddKidsGood(With(s, q, y), q, v.kids, now);
  }

  lemma FoundClean(s: State, q: Ref, v: Verdict, now: int)
    requires Good(s, {q}) && Sendable(s, q) && v.Found? && Readable(s.queries[q], v) && Clean(s.queries, {})
    ensures s.nservers > 0
    ensures Clean(Settle(AddKids(With(s, q, Answer0(s.queries[q], v)), q, v.kids, now), q, v.trouble).queries, {})
  {
    hide Good, Settle, AddKids;
    FoundGood(s, q, v, now);
    var t := With(s, q, Answer0(s.queries[q], v));
    assert Clean(t.queries, {});
    AddKidsClean(t, q, v.kids, now);
    SettleClean(AddKids(t, q, v.kids, now), q, v.trouble);
  }

  lemma AnsweredClean(s: State, q: Ref, v: Verdict, now: int, mk: Candidate -> Made)
    requires Good(s, {q}) && Sendable(s, q) && Readable(s.queries[q], v) && Clean(s.queries, {})
    ensures s.nservers > 0 && Clean(Answered(s, q, v, now, mk).queries, {})
  {
    GoodHas(s, {q}, q);
    hide Good, Dispatch, Fail, SearchNext, Settle, AddKids, Ranged;
    var x := s.queries[q];
    match v {
      case Failed(status) => FailClean(s, q, status);
      case NoName => if x.search.on { SearchClean(s, q, now, mk); } else { FailClean(s, q, S_NXDOMAIN); }
      case Again(None) => AgainClean(s, q, Restarted(x), now);
      case Again(Some(Made(id, question))) => AgainClean(s, q, Restarted(x.(id := id, question := question)), now);
      case Again(Some(Unmade(status))) => FailClean(s, q, status);
      case Found(_, _, _, _, _) => FoundClean(s, q, v, now);
    }
  }

  lemma StepClean(s: State, e: Event)
    requires Good(s, {}) && Allowed(s, e) && Clean(s.queries, {})
    ensures Clean(Step(s, e).queries, {})
  {
    hide Good, Submit, Answered, Sweep, Readable, Clean;
    match e {
      case Submitted(req, at, mk) => SubmitClean(s, req, at, mk);
      case Replied(serv, questions, id, body, v, at, mk) =>
        WaitersKnown(s, {});
        var i := FirstAnswered(s.queries, s.udpw, serv, id, body);
        if questions == 1 && i < |s.udpw| {
          WaiterIs(s, s.udpw[i]);
          AnsweredClean(Unlinked(s, s.udpw[i]), s.udpw[i], v, at, mk);
        }
      case TimedOut(at) => SweepClean(s, at);
      case Cancelled(q) => CancelIs(s, q); RemovedClean(s, Below(s.queries, q) + {q}, {});
      case Took(q) => RemovedClean(s, {q}, {});
    }
  }

  /** In every run, a query that has not ended has no failure. */
  lemma {:induction false} RunsAreClean(nservers: nat, nsearch: nat, events: seq<Event>, s: State, own: set<Ref>)
    requires nservers > 0 && Reached(nservers, nsearch, events, s, own)
    ensures forall r :: r in s.queries && !s.queries[r].phase.Done? ==> s.queries[r].answer.status == S_OK
    ensures Clean(s.queries, {})
    decreases |events|
  {
    if events != [] {
      hide Good, Step, Allowed, Ledger;
      var e := events[|events| - 1];
      var t, o :| Reached(nservers, nsearch, events[..|events| - 1], t, o) && Good(t, {}) && Allowed(t, e)
        && s == Step(t, e) && own == Ledger(o, t.next, e);
      RunsAreClean(nservers, nsearch, events[..|events| - 1], t, o);
      StepClean(t, e);
    }
  }

  // ---- the query a reply answers

  /**
   * A reply with one question answers the first query waiting that has its id, whose question it quotes, and that was
   * sent to the server it comes from: the i-th in the queue.
   */
  ghost predicate Identifies(s: State, e: Event, i: nat) {
    && e.Replied? && e.questions == 1 && i < |s.udpw|
    && (forall r :: r in s.udpw ==> r in s.queries)
    && (var x := s.queries[s.udpw[i]]; x.id == e.id && x.question <= e.body && e.serv in x.sentTo)
    && forall j :: 0 <= j < i ==>
         var y := s.queries[s.udpw[j]]; !(y.id == e.id && y.question <= e.body && e.serv in y.sentTo)
  }

  lemma ReplyIs(s: State, e: Event, i: nat)
    requires Good(s, {}) && Allowed(s, e) && Identifies(s, e, i)
    ensures var q := s.udpw[i]; var u := Unlinked(s, q);
      && s.nservers > 0 && q < s.next && Good(u, {q}) && Sendable(u, q) && Readable(s.queries[q], e.verdict)
      && Step(s, e) == Answered(u, q, e.verdict, e.at, e.mk)
      && u.output == s.output && u.childw == s.childw && u.queries == s.queries
  {
    WaitersKnown(s, {});
    var q := s.udpw[i];
    WaiterIs(s, q);
    KeysBelow(s, {});
    NotElsewhere(s, q);
    hide Good, Answered, Readable, Drop;
    FirstIs(s.queries, s.udpw, e.serv, e.id, e.body, i);
  }

  lemma FirstIs(t: Table, w: seq<Ref>, serv: nat, id: int, body: Bytes, i: nat)
    requires (forall r :: r in w ==> r in t) && i < |w|
    requires var x := t[w[i]]; x.id == id && x.question <= body && serv in x.sentTo
    requires forall j :: 0 <= j < i ==>
               var y := t[w[j]]; !(y.id == id && y.question <= body && serv in y.sentTo)
    ensures FirstAnswered(t, w, serv, id, body) == i
  {
  }

  lemma NotElsewhere(s: State, q: Ref)
    requires Good(s, {}) && q in s.udpw
    ensures Drop(s.output, {q}) == s.output && Drop(s.childw, {q}) == s.childw
  {
    assert Queue(s, {}, ToSend) && Queue(s, {}, ChildW) && Queue(s, {}, Done);
    hide Distinct, Ranges, Family, Phases, Kinds;
    DropNone(s.output, {q});
    DropNone(s.childw, {q});
  }

  // ---- the children made

  function Numbered(n: nat, m: nat): (q: seq<Ref>) {
    seq(m, k => n + k)
  }

  function Datagrams(n: nat, kids: seq<Kid>): (d: seq<Sent>) {
    seq(|kids|, k requires 0 <= k < |kids| => Sent(n + k, 0, kids[k].id, kids[k].question))
  }

  lemma OneNumbered(n: nat, kids: seq<Kid>)
    requires kids != []
    ensures Numbered(n, |kids|) == [n] + Numbered(n + 1, |kids| - 1)
    ensures Datagrams(n, kids) == [Sent(n, 0, kids[0].id, kids[0].question)] + Datagrams(n + 1, kids[1..])
  {
  }

  lemma KidMade(s: State, q: Ref, kid: Kid, now: int)
    requires q in s.queries && s.nservers > 0 && q < s.next
    ensures var t, x := AddKid(s, q, kid, now), s.queries[q];
      && t.queries == s.queries[s.next := SentKid(q, kid, now, s.nservers)][q := x.(children := x.children + [s.next])]
      && t.udpw == s.udpw + [s.next] && t.sent == s.sent + [Sent(s.next, 0, kid.id, kid.question)]
      && t.next == s.next + 1 && t.output == s.output && t.childw == s.childw && t.nservers == s.nservers
  {
    assert {} + {0} == {0};
  }

  // A child as it has been sent: once, to the first server.
  function SentKid(q: Ref, kid: Kid, now: int, nservers: nat): Query
    requires nservers > 0
  {
    Query(ToSend, Some(q), [], kid.kind, kid.id, kid.question, 1, 1 % nservers, {0}, now + 1500000,
          Search(false, 0, 0), Answer(S_OK, [], [], None))
  }

  // What the children of one reply leave in the table.
  ghost predicate Added(s: State, t: State, q: Ref, kids: seq<Kid>, now: int)
    requires s.nservers > 0
  {
    && q in s.queries && q in t.queries
    && (forall r :: r in t.queries <==> r in s.queries || s.next <= r < s.next + |kids|)
    && (forall r :: r in s.queries && r != q ==> t.queries[r] == s.queries[r])
    && (forall c :: s.next <= c < s.next + |kids| ==> t.queries[c] == SentKid(q, kids[c - s.next], now, s.nservers))
    && t.queries[q] == s.queries[q].(children := s.queries[q].children + Numbered(s.next, |kids|))
  }

  lemma AddedMore(s: State, t: State, u: State, q: Ref, kids: seq<Kid>, now: int)
    requires kids != [] && s.nservers > 0 && q in s.queries && q < s.next
    requires t.next == s.next + 1 && t.nservers == s.nservers
    requires t.queries == s.queries[s.next := SentKid(q, kids[0], now, s.nservers)]
                                   [q := s.queries[q].(children := s.queries[q].children + [s.next])]
    requires Added(t, u, q, kids[1..], now) && forall r :: r in s.queries ==> r < s.next
    ensures Added(s, u, q, kids, now)
  {
    hide SentKid;
    OneNumbered(s.next, kids);
    hide Numbered;
    forall c | s.next <= c < s.next + |kids| ensures u.queries[c] == SentKid(q, kids[c - s.next], now, s.nservers) {
      if c > s.next { assert kids[1..][c - t.next] == kids[c - s.next]; }
    }
    Regroup(s.queries[q].children, [s.next], Numbered(s.next + 1, |kids| - 1));
  }

  lemma {:induction false} KidsMade(s: State, q: Ref, kids: seq<Kid>, now: int)
    requires q in s.queries && s.nservers > 0 && forall r :: r in s.queries ==> r < s.next
    ensures var t := AddKids(s, q, kids, now);
      && Added(s, t, q, kids, now)
      && t.udpw == s.udpw + Numbered(s.next, |kids|) && t.sent == s.sent + Datagrams(s.next, kids)
      && t.output == s.output && t.childw == s.childw && t.nservers == s.nservers
    decreases |kids|
  {
    hide AddKid, SentKid, Added, Numbered, Datagrams;
    if kids == [] {
      NoKids(s, q, now);
    } else {
      KidMade(s, q, kids[0], now);
      var t := AddKid(s, q, kids[0], now);
      KidsMade(t, q, kids[1..], now);
      AddedMore(s, t, AddKids(t, q, kids[1..], now), q, kids, now);
      OneNumbered(s.next, kids);
      Regroup(s.udpw, [s.next], Numbered(t.next, |kids| - 1));
      Regroup(s.sent, [Sent(s.next, 0, kids[0].id, kids[0].question)], Datagrams(t.next, kids[1..]));
    }
  }

  lemma NoKids(s: State, q: Ref, now: int)
    requires q in s.queries && s.nservers > 0
    ensures Added(s, s, q, [], now)
    ensures s.udpw + Numbered(s.next, 0) == s.udpw && s.sent + Datagrams(s.next, []) == s.sent
  {
    assert s.queries[q].children + [] == s.queries[q].children;
  }

  lemma Regroup<T>(a: seq<T>, b: seq<T>, c: seq<T>)
    ensures a + b + c == a + (b + c)
  {
  }

  // ---- what becomes of it

  // The query once its children are made, if it is to wait for them.
  lemma WaitsFor(s: State, u: State, q: Ref, kids: seq<Kid>, now: int)
    requires s.nservers > 0 && Added(s, u, q, kids, now) && kids != [] && s.queries[q].children == [] && q < s.next
    ensures u.queries[q] == s.queries[q].(children := Numbered(s.next, |kids|)) && u.queries[q].children != []
    ensures forall c :: s.next <= c < s.next + |kids| ==>
              c in u.queries && c != q && u.queries[c] == SentKid(q, kids[c - s.next], now, s.nservers)
  {
    hide SentKid;
    assert [] + Numbered(s.next, |kids|) == Numbered(s.next, |kids|);
  }

  lemma SettledWaits(u: State, q: Ref)
    requires q in u.queries && u.queries[q].children != []
    ensures var t := Settle(u, q, None);
      && t.queries == u.queries[q := u.queries[q].(phase := ChildW)] && t.childw == u.childw + [q]
      && t.output == u.output && t.udpw == u.udpw && t.sent == u.sent
  {
    hide Fail, Finish;
  }

  lemma {:induction false} UnderBefore(s: State, u: State, q: Ref, kids: seq<Kid>, now: int, r: Ref)
    requires s.nservers > 0 && Added(s, u, q, kids, now) && Good(s, {q}) && r in s.queries && Under(u.queries, q, r)
    ensures Under(s.queries, q, r)
    decreases r
  {
    if r != q {
      FamilyOf(s, {q});
      ParentIsOlder(s.queries, r);
      UnderBefore(s, u, q, kids, now, s.queries[r].parent.value);
    }
  }

  // What is below the query then are its children.
  lemma KidsBelow(s: State, u: State, q: Ref, kids: seq<Kid>, now: int)
    requires s.nservers > 0 && Added(s, u, q, kids, now) && Good(s, {q}) && s.queries[q].children == [] && q < s.next
    ensures forall r :: r in Below(u.queries, q) <==> s.next <= r < s.next + |kids|
    ensures forall r :: r in s.queries ==> r < s.next
  {
    FamilyOf(s, {q});
    KeysBelow(s, {q});
    forall r | r in Below(u.queries, q) ensures s.next <= r < s.next + |kids| {
      if r in s.queries {
        UnderBefore(s, u, q, kids, now, r);
        NotUnder(s.queries, q, r);
      }
    }
    forall r | s.next <= r < s.next + |kids| ensures r in Below(u.queries, q) {
      KidBelow(s, u, q, kids, now, r);
    }
  }

  lemma KidBelow(s: State, u: State, q: Ref, kids: seq<Kid>, now: int, r: Ref)
    requires s.nservers > 0 && Added(s, u, q, kids, now) && q < s.next <= r < s.next + |kids|
    ensures r in Below(u.queries, q)
  {
    assert u.queries[r].parent == Some(q);
    SelfUnder(u.queries, q);
  }

  // The query with its answer, before its children.
  lemma AnswerIn(s: State, q: Ref, v: Verdict)
    requires Good(s, {q}) && Sendable(s, q) && v.Found? && Clean(s.queries, {})
    ensures var x, t := s.queries[q], With(s, q, Answer0(s.queries[q], v));
      && Good(t, {q}) && s.nservers > 0 && q < s.next && t.queries[q].children == [] && t.queries[q].parent == x.parent
      && (forall r :: r in t.queries ==> r < t.next)
      && t.queries[q] == x.(answer :=
           Answer(S_OK, v.addrs, v.hosts, if x.answer.expected.Some? then x.answer.expected else v.expected))
      && t.output == s.output && t.childw == s.childw && t.udpw == s.udpw && t.sent == s.sent && t.next == s.next
      && t.nservers == s.nservers && t.queries.Keys == s.queries.Keys
  {
    GoodHas(s, {q}, q);
    KeysBelow(s, {q});
    AnswerRanged(s.nservers, s.nsearch, s.queries[q], v);
    hide Good, Ranged;
    AloneGood(s, {q}, q, Answer0(s.queries[q], v));
  }

  // Found, with nothing more to ask or to complain of.
  lemma FoundWhole(s: State, q: Ref, v: Verdict, now: int, mk: Candidate -> Made)
    requires Good(s, {q}) && Sendable(s, q) && v.Found? && Clean(s.queries, {})
    requires v.kids == [] && v.trouble == None && s.queries[q].parent == None
    ensures s.nservers > 0
    ensures var x, t := s.queries[q], Answered(s, q, v, now, mk);
      && t.output == s.output + [q] && q in t.queries
      && t.queries[q].answer
         == Answer(S_OK, v.addrs, v.hosts, if x.answer.expected.Some? then x.answer.expected else v.expected)
  {
    hide Good, Answer0, Finish, With;
    AnswerIn(s, q, v);
    FinishRoot(With(s, q, Answer0(s.queries[q], v)), q);
  }

  // Its children made and the query failed, nothing of them is left.
  lemma MadeAndFailed(t: State, q: Ref, kids: seq<Kid>, status: int, now: int)
    requires Good(t, {q}) && q in t.queries && t.queries[q].parent == None && t.queries[q].children == []
    requires q < t.next && t.nservers > 0 && Good(AddKids(t, q, kids, now), {q})
    ensures var u := Fail(AddKids(t, q, kids, now), q, status);
      && u.output == t.output + [q] && q in u.queries && u.queries.Keys == t.queries.Keys
      && u.queries[q].answer == t.queries[q].answer.(status := status, addrs := [], hosts := [])
  {
    KeysBelow(t, {q});
    hide Good, Fail, AddKids, Added;
    var u := AddKids(t, q, kids, now);
    KidsMade(t, q, kids, now);
    KidsBelow(t, u, q, kids, now);
    AddedKeys(t, u, q, kids, now, Below(u.queries, q));
    FailRoot(u, q, status);
  }

  lemma AddedKeys(s: State, u: State, q: Ref, kids: seq<Kid>, now: int, below: set<Ref>)
    requires s.nservers > 0 && Added(s, u, q, kids, now) && forall r :: r in s.queries ==> r < s.next
    requires forall r :: r in below <==> s.next <= r < s.next + |kids|
    ensures u.queries.Keys - below == s.queries.Keys
    ensures u.queries[q].answer == s.queries[q].answer && u.queries[q].parent == s.queries[q].parent
  {
    hide SentKid;
  }

  // Found, with a record that cannot be read.
  lemma FoundTrouble(s: State, q: Ref, v: Verdict, now: int, mk: Candidate -> Made)
    requires Good(s, {q}) && Sendable(s, q) && v.Found? && Readable(s.queries[q], v) && Clean(s.queries, {})
    requires v.trouble.Some? && s.queries[q].parent == None
    ensures s.nservers > 0
    ensures var x, t := s.queries[q], Answered(s, q, v, now, mk);
      && t.output == s.output + [q] && q in t.queries && t.queries.Keys == s.queries.Keys
      && t.queries[q].answer
         == Answer(v.trouble.value, [], [], if x.answer.expected.Some? then x.answer.expected else v.expected)
  {
    hide Good, Answer0, Fail, AddKids, With;
    AnswerIn(s, q, v);
    FoundGood(s, q, v, now);
    MadeAndFailed(With(s, q, Answer0(s.queries[q], v)), q, v.kids, v.trouble.value, now);
  }

  // Its children made, the query waits for them.
  lemma MadeAndWaits(t: State, q: Ref, kids: seq<Kid>, now: int)
    requires q in t.queries && t.queries[q].children == [] && q < t.next && t.nservers > 0 && kids != []
    requires forall r :: r in t.queries ==> r < t.next
    ensures var u := Settle(AddKids(t, q, kids, now), q, None);
      && u.output == t.output && u.childw == t.childw + [q] && q in u.queries
      && u.queries[q] == t.queries[q].(phase := ChildW, children := Numbered(t.next, |kids|))
      && u.udpw == t.udpw + Numbered(t.next, |kids|) && u.sent == t.sent + Datagrams(t.next, kids)
      && forall c :: t.next <= c < t.next + |kids| ==>
           c in u.queries && u.queries[c] == SentKid(q, kids[c - t.next], now, t.nservers)
  {
    hide AddKids, SentKid, Numbered, Datagrams, Settle, Added;
    var u := AddKids(t, q, kids, now);
    KidsMade(t, q, kids, now);
    WaitsFor(t, u, q, kids, now);
    SettledWaits(u, q);
  }

  // Found, with queries of their own for some of the records.
  lemma FoundMore(s: State, q: Ref, v: Verdict, now: int, mk: Candidate -> Made)
    requires Good(s, {q}) && Sendable(s, q) && v.Found? && Clean(s.queries, {}) && v.trouble == None && v.kids != []
    ensures s.nservers > 0
    ensures var x, t := s.queries[q], Answered(s, q, v, now, mk);
      && t.output == s.output && t.childw == s.childw + [q] && q in t.queries
      && t.queries[q] == x.(phase := ChildW, children := Numbered(s.next, |v.kids|), answer :=
           Answer(S_OK, v.addrs, v.hosts, if x.answer.expected.Some? then x.answer.expected else v.expected))
      && t.udpw == s.udpw + Numbered(s.next, |v.kids|) && t.sent == s.sent + Datagrams(s.next, v.kids)
      && forall c :: s.next <= c < s.next + |v.kids| ==>
           c in t.queries && t.queries[c] == SentKid(q, v.kids[c - s.next], now, s.nservers)
  {
    hide Good, Answer0, AddKids, SentKid, Numbered, Datagrams, Settle, With;
    AnswerIn(s, q, v);
    MadeAndWaits(With(s, q, Answer0(s.queries[q], v)), q, v.kids, now);
  }

  // ---- the answers, in every run

  // The new queries, one for each of these, are q's children: each sent once, to the first server, waits.
  ghost predicate ChildrenSent(s: State, t: State, q: Ref, kids: seq<Kid>, now: int)
    requires s.nservers > 0 && q in t.queries
  {
    var c := t.queries[q].children;
    && |c| == |kids| && t.udpw == Drop(s.udpw, {q}) + c && |t.sent| == |s.sent| + |c|
    && forall k :: 0 <= k < |c| ==>
         && c[k] == s.next + k && c[k] in t.queries
         && t.queries[c[k]] == Query(ToSend, Some(q), [], kids[k].kind, kids[k].id, kids[k].question, 1,
                                     1 % s.nservers, {0}, now + 1500000, Search(false, 0, 0),
                                     Answer(S_OK, [], [], None))
         && t.sent[|s.sent| + k] == Sent(c[k], 0, kids[k].id, kids[k].question)
  }

  lemma OneByOne(s: State, t: State, q: Ref, kids: seq<Kid>, now: int)
    requires s.nservers > 0 && q in t.queries && t.queries[q].children == Numbered(s.next, |kids|)
    requires t.udpw == Drop(s.udpw, {q}) + Numbered(s.next, |kids|) && t.sent == s.sent + Datagrams(s.next, kids)
    requires forall c :: s.next <= c < s.next + |kids| ==>
               c in t.queries && t.queries[c] == SentKid(q, kids[c - s.next], now, s.nservers)
    ensures ChildrenSent(s, t, q, kids, now)
  {
    hide Drop;
  }

  /** Records found in a reply that needs nothing more: a query of the caller's is the last answer to collect, and has
      exactly these records. */
  lemma ReplyFound(nservers: nat, nsearch: nat, before: seq<Event>, s: State, own: set<Ref>, e: Event, i: nat)
    requires nservers > 0 && Reached(nservers, nsearch, before, s, own) && Good(s, {}) && Allowed(s, e)
    requires Identifies(s, e, i) && e.verdict.Found?
    requires e.verdict.trouble == None && e.verdict.kids == [] && s.queries[s.udpw[i]].parent == None
    ensures var t, q, v := Step(s, e), s.udpw[i], e.verdict;
      var x := s.queries[q].answer;
      && t.output == s.output + [q] && q in t.queries
      && t.queries[q].answer
         == Answer(S_OK, v.addrs, v.hosts, if x.expected.Some? then x.expected else v.expected)
  {
    hide Good, Answered, Allowed, Step, Reached, Sendable, Readable, Identifies, Clean, Drop;
    RunsAreClean(nservers, nsearch, before, s, own);
    IdentifiesOne(s, e, i);
    ReplyIs(s, e, i);
    FoundWhole(Unlinked(s, s.udpw[i]), s.udpw[i], e.verdict, e.at, e.mk);
  }

  /** Records some of which need queries of their own: the query waits, with these records, for as many new queries,
      one for each, sent to the first server. */
  lemma ReplyNeedsMore(nservers: nat, nsearch: nat, before: seq<Event>, s: State, own: set<Ref>, e: Event, i: nat)
    requires nservers > 0 && Reached(nservers, nsearch, before, s, own) && Good(s, {}) && Allowed(s, e)
    requires Identifies(s, e, i) && e.verdict.Found?
    requires e.verdict.trouble == None && e.verdict.kids != []
    ensures var t, q, v := Step(s, e), s.udpw[i], e.verdict;
      var x := s.queries[q];
      && t.output == s.output && t.childw == s.childw + [q] && q in t.queries
      && t.queries[q].answer
         == Answer(S_OK, v.addrs, v.hosts, if x.answer.expected.Some? then x.answer.expected else v.expected)
      && t.queries[q].phase == ChildW && t.queries[q].parent == x.parent
      && s.nservers > 0 && ChildrenSent(s, t, q, v.kids, e.at)
  {
    hide Good, Answered, Allowed, Step, Reached, Sendable, Readable, Identifies, Clean, Drop,
         Numbered, Datagrams, SentKid, ChildrenSent;
    RunsAreClean(nservers, nsearch, before, s, own);
    IdentifiesOne(s, e, i);
    ReplyIs(s, e, i);
    FoundMore(Unlinked(s, s.udpw[i]), s.udpw[i], e.verdict, e.at, e.mk);
    OneByOne(s, Step(s, e), s.udpw[i], e.verdict.kids, e.at);
  }

  /** Records of which one cannot be read: a query of the caller's has that failure and no records, and no query made
      for it is left. */
  lemma ReplyUnreadable(nservers: nat, nsearch: nat, before: seq<Event>, s: State, own: set<Ref>, e: Event, i: nat)
    requires nservers > 0 && Reached(nservers, nsearch, before, s, own) && Good(s, {}) && Allowed(s, e)
    requires Identifies(s, e, i) && e.verdict.Found?
    requires e.verdict.trouble.Some? && s.queries[s.udpw[i]].parent == None
    ensures var t, q, v := Step(s, e), s.udpw[i], e.verdict;
      var x := s.queries[q].answer;
      && t.output == s.output + [q] && q in t.queries && t.queries.Keys == s.queries.Keys
      && t.queries[q].answer
         == Answer(v.trouble.value, [], [], if x.expected.Some? then x.expected else v.expected)
  {
    hide Good, Answered, Allowed, Step, Reached, Sendable, Readable, Identifies, Clean, Drop;
    RunsAreClean(nservers, nsearch, before, s, own);
    IdentifiesOne(s, e, i);
    ReplyIs(s, e, i);
    FoundTrouble(Unlinked(s, s.udpw[i]), s.udpw[i], e.verdict, e.at, e.mk);
  }

  lemma IdentifiesOne(s: State, e: Event, i: nat)
    requires Identifies(s, e, i)
    ensures e.Replied? && i < |s.udpw| && s.udpw[i] in s.queries
  {
  }

  /** A reply that says the query has failed ends a query of the caller's with that status and no records. */
  lemma ReplyFails(s: State, e: Event, i: nat, status: int)
    requires Good(s, {}) && Allowed(s, e) && Identifies(s, e, i) && s.queries[s.udpw[i]].parent == None
    requires || e.verdict == Failed(status)
             || (e.verdict == NoName && !s.queries[s.udpw[i]].search.on && status == S_NXDOMAIN)
             || e.verdict == Again(Some(Unmade(status)))
    ensures var t, q := Step(s, e), s.udpw[i];
      && t.output == s.output + [q] && q in t.queries
      && t.queries[q].answer == s.queries[q].answer.(status := status, addrs := [], hosts := [])
  {
    hide Good, Fail, Allowed, Step;
    ReplyIs(s, e, i);
    FailRoot(Unlinked(s, s.udpw[i]), s.udpw[i], status);
  }

  /**
   * A reply that has the query made again, as it is or for a canonical name: it has lost its records, counts its
   * datagrams from one again, and the next of them has gone to the server whose turn it was.
   */
  lemma ReplyAgain(s: State, e: Event, i: nat, id: int, question: Bytes)
    requires Good(s, {}) && Allowed(s, e) && Identifies(s, e, i)
    requires var x := s.queries[s.udpw[i]];
      || (e.verdict == Again(None) && id == x.id && question == x.question)
      || (id >= 0 && e.verdict == Again(Some(Made(id, question))))
    ensures s.nservers > 0
    ensures var t, q := Step(s, e), s.udpw[i];
      var x := s.queries[q];
      && t.output == s.output && t.childw == s.childw && t.udpw == Drop(s.udpw, {q}) + [q]
      && t.queries == s.queries[q := x.(
           id := id, question := question, retries := 1, timeout := e.at + 1500000, sentTo := x.sentTo + {x.nextServer},
           nextServer := (x.nextServer + 1) % s.nservers, answer := x.answer.(addrs := [], hosts := []))]
      && t.sent == s.sent + [Sent(q, x.nextServer, id, question)]
  {
    hide Good, Fail, Allowed, Step, Drop;
    ReplyIs(s, e, i);
  }

  /** A reply that has not one question, or that no query waiting is answered by, changes nothing. */
  lemma ReplyIgnored(s: State, e: Event)
    requires Good(s, {}) && Allowed(s, e) && e.Replied?
    requires e.questions != 1 || forall r :: r in s.udpw && r in s.queries ==>
               var y := s.queries[r]; !(y.id == e.id && y.question <= e.body && e.serv in y.sentTo)
    ensures Step(s, e) == s
  {
    WaitersKnown(s, {});
    hide Good, Answered, Readable;
  }

  // ---- the query a request makes

  // It waits, sent once, to the first server.
  ghost predicate SentFirst(s: State, t: State, search: Search, id: int, question: Bytes, now: int)
    requires s.nservers > 0
  {
    && t.queries == s.queries[s.next := Query(ToSend, None, [], External, id, question, 1, 1 % s.nservers, {0},
                                              now + 1500000, search, Answer(S_OK, [], [], None))]
    && t.udpw == s.udpw + [s.next] && t.sent == s.sent + [Sent(s.next, 0, id, question)]
    && t.output == s.output && t.childw == s.childw && t.next == s.next + 1
  }

  // It has ended, without having been sent.
  ghost predicate EndedFirst(s: State, t: State, status: int) {
    && t.output == s.output + [s.next] && s.next in t.queries
    && t.queries[s.next].answer == Answer(status, [], [], None) && t.sent == s.sent
  }

  lemma FreshFails(s: State, t: State, status: int)
    requires Good(t, {s.next}) && s.next in t.queries && t.queries[s.next].parent == None
    requires t.queries[s.next].answer == Answer(S_OK, [], [], None) && t.output == s.output && t.sent == s.sent
    ensures EndedFirst(s, Fail(t, s.next, status), status)
  {
    FamilyOf(t, {s.next});
    hide Good, Fail;
    RootIs(t.queries, s.next);
    SelfUnder(t.queries, s.next);
    FailRoot(t, s.next, status);
    FailSends(t, s.next, status);
  }

  lemma FailSends(t: State, q: Ref, status: int)
    requires Good(t, {q}) && q in t.queries && t.queries[q].parent == None
    ensures Fail(t, q, status).sent == t.sent
  {
    hide Good, Fail, Affects;
    SelfUnder(t.queries, q);
    FailEnds(t, q, status, q);
    AffectsSends(t, Fail(t, q, status), q);
  }

  lemma AffectsSends(s: State, t: State, a: Ref)
    requires Affects(s, t, a)
    ensures t.sent == s.sent
  {
  }

  lemma FreshSent(s: State, t: State, search: Search, id: nat, question: Bytes, now: int)
    requires s.nservers > 0 && t.nservers == s.nservers && t.next == s.next + 1
    requires t.queries == s.queries[s.next := Query(ToSend, None, [], External, id, question, 0, 0, {}, 0, search,
                                                    Answer(S_OK, [], [], None))]
    requires t.output == s.output && t.childw == s.childw && t.udpw == s.udpw && t.sent == s.sent
    ensures SentFirst(s, Dispatch(t, s.next, now), search, id, question, now)
  {
    hide Fail;
    assert {} + {0} == {0};
  }

  lemma TryFresh(s: State, t: State, search: Search, c: Candidate, now: int, mk: Candidate -> Made)
    requires s.nservers > 0 && t.nservers == s.nservers && t.next == s.next + 1 && Good(t, {s.next})
    requires t.queries == s.queries[s.next := Query(ToSend, None, [], External, -2, [], 0, 0, {}, 0, search,
                                                    Answer(S_OK, [], [], None))]
    requires t.output == s.output && t.childw == s.childw && t.udpw == s.udpw && t.sent == s.sent
    ensures var u := Try(t, s.next, c, now, mk);
      match mk(c)
      case Made(id, question) => SentFirst(s, u, search, id, question, now)
      case Unmade(status) => (status == S_QUERYDOMAINTOOLONG && search.on) || EndedFirst(s, u, status)
  {
    hide Good, Fail, Dispatch, SearchNext, SentFirst, EndedFirst;
    var x := t.queries[s.next];
    match mk(c) {
      case Made(id, question) =>
        FreshSent(s, With(t, s.next, x.(id := id, question := question)), search, id, question, now);
      case Unmade(status) => FreshFails(s, t, status);
    }
  }

  // A query of the caller's that is new and has been told where its search stands.
  ghost predicate FreshAt(s: State, t: State, search: Search) {
    && s.nservers > 0 && t.nservers == s.nservers && t.nsearch == s.nsearch && t.next == s.next + 1
    && search.on && search.pos <= s.nsearch
    && t.queries == s.queries[s.next := Query(ToSend, None, [], External, -2, [], 0, 0, {}, 0, search,
                                              Answer(S_OK, [], [], None))]
    && t.output == s.output && t.childw == s.childw && t.udpw == s.udpw && t.sent == s.sent
  }

  // What trying the k-th of the names comes to.
  ghost predicate TriedAt(s: State, u: State, c: seq<Candidate>, k: nat, now: int, mk: Candidate -> Made)
    requires s.nservers > 0 && k <= |c|
  {
    if k == |c| then EndedFirst(s, u, S_NXDOMAIN)
    else
      match mk(c[k])
      case Made(id, question) =>
        exists search: Search :: search.on && Candidates(search, s.nsearch) == c[k + 1..]
                         && SentFirst(s, u, search, id, question, now)
      case Unmade(status) => status == S_QUERYDOMAINTOOLONG || EndedFirst(s, u, status)
  }

  lemma FreshTried(s: State, t: State, search: Search)
    requires FreshAt(s, t, search) && Good(t, {s.next}) && Candidates(search, s.nsearch) != []
    ensures var y := t.queries[s.next].(search := Tried(search, s.nsearch));
      FreshAt(s, With(t, s.next, y), y.search) && Good(With(t, s.next, y), {s.next})
      && Left(y.search, s.nsearch) < Left(search, s.nsearch)
  {
    GoodHas(t, {s.next}, s.next);
    TriedFits(t.queries[s.next], s.nservers, s.nsearch);
    hide Good;
    AloneGood(t, {s.next}, s.next, t.queries[s.next].(search := Tried(search, s.nsearch)));
  }

  lemma {:induction false} SearchSends(s: State, t: State, search: Search, k: nat, now: int, mk: Candidate -> Made)
    requires FreshAt(s, t, search) && Good(t, {s.next}) && k <= |Candidates(search, s.nsearch)|
    requires forall j :: 0 <= j < k ==> mk(Candidates(search, s.nsearch)[j]) == Unmade(S_QUERYDOMAINTOOLONG)
    ensures TriedAt(s, SearchNext(t, s.next, now, mk), Candidates(search, s.nsearch), k, now, mk)
    decreases Left(search, s.nsearch)
  {
    hide Good, Fail, SearchNext, Candidates, Tried, Left, SentFirst, EndedFirst, With, Dispatch;
    SearchOrder(t, s.next, now, mk);
    var c := Candidates(search, s.nsearch);
    if c == [] {
      FreshFails(s, t, S_NXDOMAIN);
    } else {
      FreshTried(s, t, search);
      var y := t.queries[s.next].(search := Tried(search, s.nsearch));
      TryFresh(s, With(t, s.next, y), y.search, c[0], now, mk);
      if k > 0 {
        SearchSends(s, With(t, s.next, y), y.search, k - 1, now, mk);
      }
    }
  }

  /**
   * A request: refused, it is answered with its status; for a name as it stands, the query is sent, or answered with
   * what is wrong with the name; with the search list, that goes for the first name to try that is not too long, the
   * names behind it being left for later, and without such a name there is no such name.
   */
  lemma Requested(s: State, e: Event)
    requires Good(s, {}) && e.Submitted?
    ensures s.nservers > 0
    ensures var t := Step(s, e);
      match e.req
      case Refused(status) => EndedFirst(s, t, status)
      case Plain =>
        (match e.mk(None)
         case Made(id, question) => SentFirst(s, t, Search(false, 0, 0), id, question, e.at)
         case Unmade(status) => EndedFirst(s, t, status))
      case Searching(absFirst) =>
        var c := Candidates(Search(true, 0, if absFirst then -1 else 0), s.nsearch);
        forall k :: 0 <= k <= |c| && (forall j :: 0 <= j < k ==> e.mk(c[j]) == Unmade(S_QUERYDOMAINTOOLONG)) ==>
          TriedAt(s, t, c, k, e.at, e.mk)
  {
    assert s.nservers > 0;
    hide Good, Fail, Try, SentFirst, EndedFirst;
    var x := Fresh(e.req);
    var t := Allocated(s, x);
    AllocatedGood(s, {}, x);
    assert {} + {s.next} == {s.next};
    match e.req {
      case Refused(status) => FreshFails(s, t, status);
      case Plain => TryFresh(s, t, x.search, None, e.at, e.mk);
      case Searching(absFirst) =>
        var c := Candidates(x.search, s.nsearch);
        forall k | 0 <= k <= |c| && (forall j :: 0 <= j < k ==> e.mk(c[j]) == Unmade(S_QUERYDOMAINTOOLONG))
          ensures TriedAt(s, SearchNext(t, s.next, e.at, e.mk), c, k, e.at, e.mk)
        {
          SearchSends(s, t, x.search, k, e.at, e.mk);
        }
    }
  }
}
