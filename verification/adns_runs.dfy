/** Whole runs of the resolver: consistency, no query lost, and answers kept. */
module AdnsRuns {
  import opened Text
  import opened Sequences
  import opened AdnsState
  import opened AdnsFinish
  import opened AdnsEffects
  import opened AdnsOps
  import opened AdnsSweep
  import opened AdnsReply

  // ---- the caller's own queries

  ghost function Own(t: Table): (o: set<Ref>) {
    set r | r in t && t[r].parent == None
  }

  // The caller's own queries are the same, and the answers that were there are there.
  ghost predicate Keeps(s: State, t: State) {
    Own(t.queries) == Own(s.queries) && forall r :: r in s.output ==>
        r in t.output && r in s.queries && r in t.queries && t.queries[r] == s.queries[r]
  }

  lemma KeepsTwice(s: State, t: State, u: State)
    requires Keeps(s, t) && Keeps(t, u)
    ensures Keeps(s, u)
  {
  }

  // A query that is done serves and is served by nobody.
  lemma DoneApart(s: State, off: set<Ref>, q: Ref, r: Ref)
    requires Good(s, off) && q in off && q in s.queries && r in s.output
    ensures r in s.queries && r != Root(s.queries, q) && !Under(s.queries, Root(s.queries, q), r)
  {
    assert Queue(s, off, Done) && Settled(s.queries[r]);
    hide Ranges, Queues, Phases, Kinds, Distinct;
    RootIs(s.queries, q);
    if r == Root(s.queries, q) { NoneUnder(s.queries, r, q); }
  }

  lemma {:induction false} NoneUnder(t: Table, r: Ref, q: Ref)
    requires Family(t) && r in t && t[r].children == [] && q in t && q != r
    ensures !Under(t, r, q)
    decreases q
  {
    if t[q].parent.Some? {
      ParentIsOlder(t, q);
      if t[q].parent.value != r { NoneUnder(t, r, t[q].parent.value); }
    }
  }

  lemma OwnSame(s: Table, t: Table)
    requires SameParents(s, t) && OwnStay(s, t)
    ensures Own(t) == Own(s)
  {
  }

  lemma EndsKeeps(s: State, t: State, q: Ref)
    requires Good(s, {q}) && q in s.queries && Ends(s, t, Root(s.queries, q))
    ensures Keeps(s, t)
  {
    hide Good, Under, Root, WaitOn, Own;
    forall r | r in s.output
      ensures r in s.queries && !Under(s.queries, Root(s.queries, q), r)
    {
      DoneApart(s, {q}, q, r);
    }
    OwnSame(s.queries, t.queries);
  }

  lemma FailKeeps(s: State, q: Ref, status: int)
    requires Good(s, {q}) && q in s.queries
    ensures Keeps(s, Fail(s, q, status))
  {
    FamilyOf(s, {q});
    hide Good, Fail, Ends;
    RootIs(s.queries, q);
    FailEnds(s, q, status, Root(s.queries, q));
    EndsKeeps(s, Fail(s, q, status), q);
  }

  lemma FinishKeeps(s: State, q: Ref)
    requires Good(s, {q}) && q in s.queries
    ensures Keeps(s, Finish(s, q))
  {
    FamilyOf(s, {q});
    hide Good, Finish, Ends;
    RootIs(s.queries, q);
    FinishEnds(s, q, Root(s.queries, q));
    EndsKeeps(s, Finish(s, q), q);
  }

  lemma OutputIs(s: State, off: set<Ref>)
    requires Good(s, off)
    ensures forall r :: r in s.output ==>
               r in s.queries && r !in off && s.queries[r].phase == Done && s.queries[r].parent == None
  {
    assert Queue(s, off, Done);
    forall r | r in s.output ensures r in s.queries && s.queries[r].parent == None { assert Settled(s.queries[r]); }
    hide Ranges, Family, Kinds, Distinct;
  }

  // Changing and queueing a query being processed.
  lemma WithKeeps(s: State, q: Ref, x: Query)
    requires Good(s, {q}) && q in s.queries && x.parent == s.queries[q].parent
    ensures Keeps(s, With(s, q, x)) && (x.phase != Done ==> Keeps(s, Linked(With(s, q, x), q)))
  {
    hide Good;
    OutputIs(s, {q});
    WithOwn(s.queries, q, x);
    hide Own;
  }

  lemma WithOwn(t: Table, q: Ref, x: Query)
    requires q in t && x.parent == t[q].parent
    ensures Own(t[q := x]) == Own(t)
  {
  }

  lemma DispatchKeeps(s: State, q: Ref, now: int)
    requires Good(s, {q}) && Sendable(s, q)
    ensures s.nservers > 0 && Keeps(s, Dispatch(s, q, now))
  {
    GoodHas(s, {q}, q);
    hide Good, Fail;
    if s.queries[q].retries >= UDPMAXRETRIES {
      FailKeeps(s, q, S_TIMEOUT);
    } else {
      MailedGood(s, {q}, q);
      WithKeeps(Mailed(s, q), q, Posted(s.queries[q], now, s.nservers));
    }
  }

  lemma {:induction false} TryKeeps(s: State, q: Ref, c: Candidate, now: int, mk: Candidate -> Made)
    requires Good(s, {q}) && Idle(s, q)
    ensures s.nservers > 0 && Keeps(s, Try(s, q, c, now, mk))
    decreases Left(s.queries[q].search, s.nsearch), 1
  {
    GoodHas(s, {q}, q);
    hide Good, Dispatch, Fail, SearchNext, Keeps, Ranged;
    match mk(c) {
      case Made(id, question) =>
        var y := s.queries[q].(id := id, question := question);
        MadeRanged(s.nservers, s.nsearch, s.queries[q], y);
        AloneGood(s, {q}, q, y);
        WithKeeps(s, q, y);
        DispatchKeeps(With(s, q, y), q, now);
        KeepsTwice(s, With(s, q, y), Dispatch(With(s, q, y), q, now));
      case Unmade(status) =>
        if status == S_QUERYDOMAINTOOLONG && s.queries[q].search.on {
          SearchKeeps(s, q, now, mk);
        } else {
          FailKeeps(s, q, status);
        }
    }
  }

  lemma MadeRanged(nservers: nat, nsearch: nat, x: Query, y: Query)
    requires Ranged(nservers, nsearch, x) && y == x.(id := y.id, question := y.question)
    ensures Ranged(nservers, nsearch, y)
  {
  }

  lemma {:induction false} SearchKeeps(s: State, q: Ref, now: int, mk: Candidate -> Made)
    requires Good(s, {q}) && Idle(s, q)
    ensures s.nservers > 0 && Keeps(s, SearchNext(s, q, now, mk))
    decreases Left(s.queries[q].search, s.nsearch), 0
  {
    GoodHas(s, {q}, q);
    hide Good, Try, Fail, Ranged, SearchNext, Candidates, Tried, Left, Keeps;
    var x := s.queries[q];
    SearchOrder(s, q, now, mk);
    var c := Candidates(x.search, s.nsearch);
    if c == [] {
      FailKeeps(s, q, S_NXDOMAIN);
    } else {
      TriedFits(x, s.nservers, s.nsearch);
      var y := x.(search := Tried(x.search, s.nsearch));
      AloneGood(s, {q}, q, y);
      WithKeeps(s, q, y);
      TryKeeps(With(s, q, y), q, c[0], now, mk);
      KeepsTwice(s, With(s, q, y), Try(With(s, q, y), q, c[0], now, mk));
    }
  }

  /** Submitting adds one query of the caller's, the one returned, and changes no answer. */
  lemma SubmitAdds(s: State, req: Request, now: int, mk: Candidate -> Made)
    requires Good(s, {})
    ensures s.nservers > 0 && s.next !in s.queries
    ensures var t := Submit(s, req, now, mk);
      && Own(t.queries) == Own(s.queries) + {s.next}
      && forall r :: r in s.output ==> r in t.output && r in s.queries && r in t.queries && t.queries[r] == s.queries[r]
  {
    assert s.nservers > 0;
    OutputIs(s, {});
    hide Good, Fail, Try, SearchNext;
    var x := Fresh(req);
    AllocatedGood(s, {}, x);
    assert {} + {s.next} == {s.next};
    assert Own(Allocated(s, x).queries) == Own(s.queries) + {s.next};
    match req {
      case Refused(status) => FailKeeps(Allocated(s, x), s.next, status);
      case Plain => TryKeeps(Allocated(s, x), s.next, None, now, mk);
      case Searching(absFirst) => SearchKeeps(Allocated(s, x), s.next, now, mk);
    }
  }

  lemma UnlinkedKeeps(s: State, q: Ref)
    requires Good(s, {}) && q in s.udpw
    ensures Keeps(s, Unlinked(s, q))
  {
    OutputIs(s, {});
    WaiterIs(s, q);
    DropIs(s.output, {q});
    hide Good;
  }

  lemma ResentKeeps(s: State, q: Ref, now: int)
    requires Good(s, {}) && q in s.udpw
    ensures q in s.queries && s.nservers > 0 && Keeps(s, Resent(s, q, now))
  {
    hide Good, Dispatch, Keeps;
    WaiterIs(s, q);
    UnlinkedKeeps(s, q);
    DispatchKeeps(Unlinked(s, q), q, now);
    KeepsTwice(s, Unlinked(s, q), Resent(s, q, now));
  }

  /** The sweep loses no query of the caller's and changes no answer. */
  lemma {:induction false} SweepKeeps(s: State, now: int)
    requires Good(s, {})
    ensures Keeps(s, Sweep(s, now))
    decreases DueNow(s, now)
  {
    OutputIs(s, {});
    hide Good, Resent;
    WaitersKnown(s, {});
    var i := FirstDue(s.queries, s.udpw, now);
    if i < |s.udpw| {
      var t := Resent(s, s.udpw[i], now);
      ResentGood(s, s.udpw[i], now);
      ResentDue(s, s.udpw[i], now);
      ResentKeeps(s, s.udpw[i], now);
      SweepKeeps(t, now);
      KeepsTwice(s, t, Sweep(t, now));
    }
  }

  lemma AddKidKeeps(s: State, q: Ref, kid: Kid, now: int)
    requires Good(s, {q}) && q in s.queries && s.nservers > 0
    ensures Keeps(s, AddKid(s, q, kid, now))
  {
    hide Good, Child;
    ChildIs(q, kid, now, s.nservers, s.nsearch);
    OutputIs(s, {q});
    NextIsNew(s, {q});
  }

  lemma NextIsNew(s: State, off: set<Ref>)
    requires Good(s, off)
    ensures s.next !in s.queries
  {
  }

  lemma {:induction false} AddKidsKeeps(s: State, q: Ref, kids: seq<Kid>, now: int)
    requires Good(s, {q}) && q in s.queries && s.nservers > 0 && forall k :: k in kids ==> Serves(s.queries[q], k.kind)
    ensures Keeps(s, AddKids(s, q, kids, now))
    decreases |kids|
  {
    OutputIs(s, {q});
    hide Good, AddKid;
    if kids != [] {
      var t := AddKid(s, q, kids[0], now);
      AddKidKeeps(s, q, kids[0], now);
      AddKidGood(s, q, kids[0], now);
      AddKidsKeeps(t, q, kids[1..], now);
      KeepsTwice(s, t, AddKids(t, q, kids[1..], now));
    }
  }

  lemma SettleKeeps(s: State, q: Ref, trouble: Option<int>)
    requires Good(s, {q}) && q in s.queries
    ensures Keeps(s, Settle(s, q, trouble))
  {
    hide Good, Fail, Finish, Linked, Keeps;
    if trouble.Some? {
      FailKeeps(s, q, trouble.value);
    } else if s.queries[q].children != [] {
      WithKeeps(s, q, Waits(s.queries[q]));
    } else {
      FinishKeeps(s, q);
    }
  }

  lemma AgainKeeps(s: State, q: Ref, x: Query, now: int)
    requires Good(s, {q}) && Sendable(s, q) && x == Restarted(s.queries[q].(id := x.id, question := x.question))
    requires x.id >= 0
    ensures s.nservers > 0 && Keeps(s, Dispatch(With(s, q, x), q, now))
  {
    GoodHas(s, {q}, q);
    AgainRanged(s.nservers, s.nsearch, s.queries[q], x);
    hide Good, Dispatch, Keeps, Ranged;
    AloneGood(s, {q}, q, x);
    WithKeeps(s, q, x);
    DispatchKeeps(With(s, q, x), q, now);
    KeepsTwice(s, With(s, q, x), Dispatch(With(s, q, x), q, now));
  }

  lemma AgainRanged(nservers: nat, nsearch: nat, x: Query, y: Query)
    requires Ranged(nservers, nsearch, x) && y == Restarted(x.(id := y.id, question := y.question))
    ensures Ranged(nservers, nsearch, y)
  {
  }

  lemma AnsweredKeeps(s: State, q: Ref, v: Verdict, now: int, mk: Candidate -> Made)
    requires Good(s, {q}) && Sendable(s, q) && Readable(s.queries[q], v)
    ensures s.nservers > 0 && Keeps(s, Answered(s, q, v, now, mk))
  {
    GoodHas(s, {q}, q);
    hide Good, Dispatch, Fail, SearchNext, Settle, AddKids, Ranged, Keeps;
    var x := s.queries[q];
    match v {
      case Failed(status) => FailKeeps(s, q, status);
      case NoName => if x.search.on { SearchKeeps(s, q, now, mk); } else { FailKeeps(s, q, S_NXDOMAIN); }
      case Again(None) => AgainKeeps(s, q, Restarted(x), now);
      case Again(Some(Made(id, question))) => AgainKeeps(s, q, Restarted(x.(id := id, question := question)), now);
      case Again(Some(Unmade(status))) => FailKeeps(s, q, status);
      case Found(_, _, _, kids, trouble) =>
        var y := Answer0(x, v);
        var t := With(s, q, y);
        var u := AddKids(t, q, kids, now);
        AnswerRanged(s.nservers, s.nsearch, x, v);
        AloneGood(s, {q}, q, y);
        WithKeeps(s, q, y);
        AddKidsGood(t, q, kids, now);
        AddKidsKeeps(t, q, kids, now);
        SettleKeeps(u, q, trouble);
        KeepsTwice(s, t, u);
        KeepsTwice(s, u, Settle(u, q, trouble));
    }
  }

  /** A reply loses no query of the caller's and changes no answer. */
  lemma ReplyKeeps(s: State, serv: nat, questions: nat, id: int, body: Bytes, v: Verdict, now: int,
                   mk: Candidate -> Made)
    requires Good(s, {}) && forall r :: r in s.queries ==> Readable(s.queries[r], v)
    ensures Keeps(s, Reply(s, serv, questions, id, body, v, now, mk))
  {
    OutputIs(s, {});
    WaitersKnown(s, {});
    hide Good, Answered, Readable;
    var i := FirstAnswered(s.queries, s.udpw, serv, id, body);
    if questions == 1 && i < |s.udpw| {
      var q := s.udpw[i];
      WaiterIs(s, q);
      UnlinkedKeeps(s, q);
      AnsweredKeeps(Unlinked(s, q), q, v, now, mk);
      KeepsTwice(s, Unlinked(s, q), Answered(Unlinked(s, q), q, v, now, mk));
    }
  }

  // ---- runs

  datatype Event =
    | Submitted(req: Request, at: int, mk: Candidate -> Made)
    | Replied(serv: nat, questions: nat, id: int, body: Bytes, verdict: Verdict, at: int, mk: Candidate -> Made)
    | TimedOut(at: int)
    | Cancelled(q: Ref)
    | Took(q: Ref)

  // The caller names its own queries, and takes only answers that are there.
  ghost predicate Allowed(s: State, e: Event) {
    match e
    case Replied(_, _, _, _, v, _, _) => forall r :: r in s.queries ==> Readable(s.queries[r], v)
    case Cancelled(q) => q in Own(s.queries)
    case Took(q) => q in s.queries && s.queries[q].id < 0
    case _ => true
  }

  ghost function Step(s: State, e: Event): State
    requires Good(s, {}) && Allowed(s, e)
  {
    assert s.nservers > 0;
    match e
    case Submitted(req, at, mk) => Submit(s, req, at, mk)
    case Replied(serv, questions, id, body, v, at, mk) => Reply(s, serv, questions, id, body, v, at, mk)
    case TimedOut(at) => Sweep(s, at)
    case Cancelled(q) => Cancel(s, q)
    case Took(q) => Taken(s, q)
  }

  // The caller's own queries after an event.
  ghost function Ledger(own: set<Ref>, next: Ref, e: Event): set<Ref> {
    match e
    case Submitted(_, _, _) => own + {next}
    case Cancelled(q) => own - {q}
    case Took(q) => own - {q}
    case _ => own
  }

  // The query whose answer an event takes away, if any.
  predicate Takes(e: Event, r: Ref) {
    e == Cancelled(r) || e == Took(r)
  }

  lemma StepGood(s: State, e: Event)
    requires Good(s, {}) && Allowed(s, e)
    ensures Good(Step(s, e), {})
  {
    hide Good, Submit, Reply, Sweep, Cancel, Taken, Readable;
    match e {
      case Submitted(req, at, mk) => SubmitGood(s, req, at, mk);
      case Replied(serv, questions, id, body, v, at, mk) => ReplyGood(s, serv, questions, id, body, v, at, mk);
      case TimedOut(at) => SweepSettles(s, at);
      case Cancelled(q) => CancelKeeps(s, q);
      case Took(q) => CollectKeeps(s, q);
    }
  }

  lemma CancelOwn(s: State, q: Ref)
    requires Good(s, {}) && q in Own(s.queries)
    ensures Own(Cancel(s, q).queries) == Own(s.queries) - {q}
    ensures var t := Cancel(s, q);
            forall r :: r in s.output && r != q ==>
              r in t.output && r in s.queries && r in t.queries && t.queries[r] == s.queries[r]
  {
    var gone := Below(s.queries, q) + {q};
    OutputIs(s, {});
    forall r | r in s.queries && s.queries[r].parent == None && r != q ensures r !in gone {}
    DropIs(s.output, gone);
    DoneChildless(s);
    hide Good, Under;
    assert Drop([], gone) == [];
  }

  lemma DoneChildless(s: State)
    requires Good(s, {})
    ensures forall r :: r in s.output ==> r in s.queries && s.queries[r].children == []
  {
    OutputIs(s, {});
    forall r | r in s.output ensures s.queries[r].children == [] { assert Settled(s.queries[r]); }
    hide Ranges, Queues, Family, Kinds;
  }

  lemma TakeOwn(s: State, q: Ref)
    requires Good(s, {}) && q in s.queries && s.queries[q].id < 0
    ensures Own(Taken(s, q).queries) == Own(s.queries) - {q}
    ensures var t := Taken(s, q);
            forall r :: r in s.output && r != q ==>
              r in t.output && r in s.queries && r in t.queries && t.queries[r] == s.queries[r]
  {
    OutputIs(s, {});
    DropIs(s.output, {q});
    DoneChildless(s);
    hide Good;
    assert Drop([], {q}) == [];
  }

  /** No event loses a query of the caller's, and an answer stays as it is until it is taken or cancelled. */
  lemma StepKeeps(s: State, e: Event)
    requires Good(s, {}) && Allowed(s, e)
    ensures Own(Step(s, e).queries) == Ledger(Own(s.queries), s.next, e)
    ensures var t := Step(s, e);
      forall r :: r in s.output && !Takes(e, r) ==>
          r in t.output && r in s.queries && r in t.queries && t.queries[r] == s.queries[r]
  {
    hide Good, Submit, Reply, Sweep, Cancel, Taken, Readable, Own;
    match e {
      case Submitted(req, at, mk) => SubmitAdds(s, req, at, mk);
      case Replied(serv, questions, id, body, v, at, mk) => ReplyKeeps(s, serv, questions, id, body, v, at, mk);
      case TimedOut(at) => SweepKeeps(s, at);
      case Cancelled(q) => CancelOwn(s, q);
      case Took(q) => TakeOwn(s, q);
    }
  }

  function Initial(nservers: nat, nsearch: nat): State {
    State(map[], [], [], [], 0, [], nservers, nsearch)
  }

  // s is reached from the start by these events, own being the caller's queries not yet cancelled or taken.
  ghost predicate Reached(nservers: nat, nsearch: nat, events: seq<Event>, s: State, own: set<Ref>)
    requires nservers > 0
    decreases |events|
  {
    if events == [] then s == Initial(nservers, nsearch) && own == {}
    else
      var e := events[|events| - 1];
      exists t, o :: Reached(nservers, nsearch, events[..|events| - 1], t, o) && Good(t, {}) && Allowed(t, e)
        && s == Step(t, e) && own == Ledger(o, t.next, e)
  }

  /**
   * In every run: all queries on the queues of their states, and the caller's are those submitted and not taken
   * or cancelled.
   */
  lemma {:induction false} RunsAreGood(nservers: nat, nsearch: nat, events: seq<Event>, s: State, own: set<Ref>)
    requires nservers > 0 && Reached(nservers, nsearch, events, s, own)
    ensures Good(s, {}) && Own(s.queries) == own
    decreases |events|
  {
    if events == [] {
      assert Good(Initial(nservers, nsearch), {});
    } else {
      hide Good, Step, Allowed, Own, Ledger;
      var e := events[|events| - 1];
      var t, o :| Reached(nservers, nsearch, events[..|events| - 1], t, o) && Good(t, {}) && Allowed(t, e)
        && s == Step(t, e) && own == Ledger(o, t.next, e);
      RunsAreGood(nservers, nsearch, events[..|events| - 1], t, o);
      StepGood(t, e);
      StepKeeps(t, e);
    }
  }
}
