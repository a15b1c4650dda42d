/** Who is asked, run after run: the servers in turn, and a query nobody answers up to a timeout. */
module AdnsRounds {
  import opened Arithmetic
  import opened Text
  import opened Sequences
  import opened AdnsState
  import opened AdnsFinish
  import opened AdnsEffects
  import opened AdnsOps
  import opened AdnsSweep
  import opened AdnsReply
  import opened AdnsRuns
  import opened AdnsOutcome

  // The datagrams sent for a query, in order.
  ghost function Posts(sent: seq<Sent>, q: Ref): (p: seq<Sent>) {
    if sent == [] then []
    else
      var n := |sent| - 1;
      Posts(sent[..n], q) + (if sent[n].query == q then [sent[n]] else [])
  }

  lemma PostsMore(sent: seq<Sent>, m: Sent, q: Ref)
    ensures Posts(sent + [m], q) == if m.query == q then Posts(sent, q) + [m] else Posts(sent, q)
  {
    assert (sent + [m])[..|sent|] == sent;
  }

  // ---- bystanders

  // A query that was there has been sent nothing and keeps its turn, and if it was waiting for a reply it waits on
  // as it was, unless it is gone; one yet to come has been sent nothing.
  ghost predicate Spared(s: State, t: State, q: Ref) {
    && s.next <= t.next && t.nservers == s.nservers
    && (q < s.next || q >= t.next ==> Posts(t.sent, q) == Posts(s.sent, q))
    && (q < s.next && q in t.queries ==> q in s.queries && t.queries[q].nextServer == s.queries[q].nextServer)
    && (q < s.next && q in t.queries && q in s.udpw ==> q in t.udpw && t.queries[q] == s.queries[q])
    && (q < s.next && q in t.udpw ==> q in s.udpw)
  }

  lemma SparedTwice(s: State, t: State, u: State, q: Ref)
    requires Spared(s, t, q) && Spared(t, u, q)
    ensures Spared(s, u, q)
  {
    hide Posts, Turns;
  }

  lemma EndsSpared(s: State, t: State, a: Ref, q: Ref)
    requires Ends(s, t, a)
    ensures Spared(s, t, q)
  {
    hide Posts, Turns, Under, Untouched, OwnStay;
    DropIs(s.udpw, Lost(s, t));
  }

  lemma FailSpared(s: State, p: Ref, status: int, q: Ref)
    requires Good(s, {p}) && p in s.queries
    ensures Spared(s, Fail(s, p, status), q)
  {
    FamilyOf(s, {p});
    hide Good, Fail, Ends, Spared;
    RootIs(s.queries, p);
    FailEnds(s, p, status, Root(s.queries, p));
    EndsSpared(s, Fail(s, p, status), Root(s.queries, p), q);
  }

  lemma FinishSpared(s: State, p: Ref, q: Ref)
    requires Good(s, {p}) && p in s.queries
    ensures Spared(s, Finish(s, p), q)
  {
    FamilyOf(s, {p});
    hide Good, Finish, Ends, Spared;
    RootIs(s.queries, p);
    FinishEnds(s, p, Root(s.queries, p));
    EndsSpared(s, Finish(s, p), Root(s.queries, p), q);
  }

  // Changing, queueing and sending another query.
  lemma OtherSpared(s: State, p: Ref, x: Query, q: Ref)
    requires p in s.queries && q != p
    ensures Spared(s, With(s, p, x), q) && Spared(s, Mailed(s, p), q) && Spared(s, Linked(s, p), q)
    ensures Spared(s, Unlinked(s, p), q)
  {
    hide Posts, Turns, Drop;
    var m := Mailed(s, p);
    PostsMore(s.sent, m.sent[|s.sent|], q);
    DropIs(s.udpw, {p});
  }

  lemma DispatchSpared(s: State, p: Ref, now: int, q: Ref)
    requires Good(s, {p}) && p in s.queries && q != p
    ensures s.nservers > 0 && Spared(s, Dispatch(s, p, now), q)
  {
    GoodHas(s, {p}, p);
    hide Good, Fail, Spared, Linked, With, Mailed, Posted;
    if s.queries[p].retries >= UDPMAXRETRIES {
      FailSpared(s, p, S_TIMEOUT, q);
    } else {
      PostSpared(s, p, Posted(s.queries[p], now, s.nservers), q);
    }
  }

  lemma PostSpared(s: State, p: Ref, x: Query, q: Ref)
    requires p in s.queries && q != p
    ensures p in Mailed(s, p).queries && p in With(Mailed(s, p), p, x).queries
    ensures Spared(s, Linked(With(Mailed(s, p), p, x), p), q)
  {
    hide Spared;
    var t := Mailed(s, p);
    OtherSpared(s, p, x, q);
    OtherSpared(t, p, x, q);
    OtherSpared(With(t, p, x), p, x, q);
    SparedTwice(s, t, With(t, p, x), q);
    SparedTwice(s, With(t, p, x), Linked(With(t, p, x), p), q);
  }

  lemma {:induction false} TrySpared(s: State, p: Ref, c: Candidate, now: int, mk: Candidate -> Made, q: Ref)
    requires Good(s, {p}) && Idle(s, p) && q != p
    ensures s.nservers > 0 && Spared(s, Try(s, p, c, now, mk), q)
    decreases Left(s.queries[p].search, s.nsearch), 1
  {
    GoodHas(s, {p}, p);
    hide Good, Dispatch, Fail, SearchNext, Spared, Ranged;
    match mk(c) {
      case Made(id, question) =>
        var y := s.queries[p].(id := id, question := question);
        MadeRanged(s.nservers, s.nsearch, s.queries[p], y);
        AloneGood(s, {p}, p, y);
        OtherSpared(s, p, y, q);
        DispatchSpared(With(s, p, y), p, now, q);
        SparedTwice(s, With(s, p, y), Dispatch(With(s, p, y), p, now), q);
      case Unmade(status) =>
        if status == S_QUERYDOMAINTOOLONG && s.queries[p].search.on {
          SearchSpared(s, p, now, mk, q);
        } else {
          FailSpared(s, p, status, q);
        }
    }
  }

  lemma {:induction false} SearchSpared(s: State, p: Ref, now: int, mk: Candidate -> Made, q: Ref)
    requires Good(s, {p}) && Idle(s, p) && q != p
    ensures s.nservers > 0 && Spared(s, SearchNext(s, p, now, mk), q)
    decreases Left(s.queries[p].search, s.nsearch), 0
  {
    hide Good, Try, Fail, Ranged, SearchNext, Candidates, Tried, Left, Spared;
    GoodHas(s, {p}, p);
    var x := s.queries[p];
    SearchOrder(s, p, now, mk);
    var c := Candidates(x.search, s.nsearch);
    if c == [] {
      FailSpared(s, p, S_NXDOMAIN, q);
    } else {
      TriedFits(x, s.nservers, s.nsearch);
      var y := x.(search := Tried(x.search, s.nsearch));
      AloneGood(s, {p}, p, y);
      OtherSpared(s, p, y, q);
      TrySpared(With(s, p, y), p, c[0], now, mk, q);
      SparedTwice(s, With(s, p, y), Try(With(s, p, y), p, c[0], now, mk), q);
    }
  }

  lemma KidSpared(s: State, p: Ref, kid: Kid, now: int, q: Ref)
    requires p in s.queries && s.nservers > 0 && q != p
    ensures Spared(s, AddKid(s, p, kid, now), q)
  {
    hide Posts, Turns, Child;
    PostsMore(s.sent, Sent(s.next, 0, kid.id, kid.question), q);
  }

  lemma {:induction false} KidsSpared(s: State, p: Ref, kids: seq<Kid>, now: int, q: Ref)
    requires p in s.queries && s.nservers > 0 && q != p
    ensures Spared(s, AddKids(s, p, kids, now), q)
    decreases |kids|
  {
    hide Posts, Turns;
    if kids == [] {
      } else {
      hide Spared, AddKid;
      var t := AddKid(s, p, kids[0], now);
      KidSpared(s, p, kids[0], now, q);
      KidsSpared(t, p, kids[1..], now, q);
      SparedTwice(s, t, AddKids(t, p, kids[1..], now), q);
    }
  }

  lemma SettleSpared(s: State, p: Ref, trouble: Option<int>, q: Ref)
    requires Good(s, {p}) && p in s.queries && q != p
    ensures Spared(s, Settle(s, p, trouble), q)
  {
    hide Good, Fail, Finish, Linked, Spared;
    if trouble.Some? {
      FailSpared(s, p, trouble.value, q);
    } else if s.queries[p].children != [] {
      var t := With(s, p, Waits(s.queries[p]));
      OtherSpared(s, p, Waits(s.queries[p]), q);
      OtherSpared(t, p, t.queries[p], q);
      SparedTwice(s, t, Linked(t, p), q);
    } else {
      FinishSpared(s, p, q);
    }
  }

  lemma AgainSpared(s: State, p: Ref, x: Query, now: int, q: Ref)
    requires Good(s, {p}) && Sendable(s, p) && q != p
    requires x == Restarted(s.queries[p].(id := x.id, question := x.question)) && x.id >= 0
    ensures s.nservers > 0 && Spared(s, Dispatch(With(s, p, x), p, now), q)
  {
    GoodHas(s, {p}, p);
    AgainRanged(s.nservers, s.nsearch, s.queries[p], x);
    hide Good, Dispatch, Spared, Ranged;
    AloneGood(s, {p}, p, x);
    OtherSpared(s, p, x, q);
    DispatchSpared(With(s, p, x), p, now, q);
    SparedTwice(s, With(s, p, x), Dispatch(With(s, p, x), p, now), q);
  }

  lemma AnsweredSpared(s: State, p: Ref, v: Verdict, now: int, mk: Candidate -> Made, q: Ref)
    requires Good(s, {p}) && Sendable(s, p) && Readable(s.queries[p], v) && q != p
    ensures s.nservers > 0 && Spared(s, Answered(s, p, v, now, mk), q)
  {
    GoodHas(s, {p}, p);
    hide Good, Dispatch, Fail, SearchNext, Settle, AddKids, Ranged, Spared;
    var x := s.queries[p];
    match v {
      case Failed(status) => FailSpared(s, p, status, q);
      case NoName => if x.search.on { SearchSpared(s, p, now, mk, q); } else { FailSpared(s, p, S_NXDOMAIN, q); }
      case Again(None) => AgainSpared(s, p, Restarted(x), now, q);
      case Again(Some(Made(id, question))) => AgainSpared(s, p, Restarted(x.(id := id, question := question)), now, q);
      case Again(Some(Unmade(status))) => FailSpared(s, p, status, q);
      case Found(_, _, _, kids, trouble) =>
        var y := Answer0(x, v);
        var t := With(s, p, y);
        var u := AddKids(t, p, kids, now);
        AnswerRanged(s.nservers, s.nsearch, x, v);
        AloneGood(s, {p}, p, y);
        OtherSpared(s, p, y, q);
        AddKidsGood(t, p, kids, now);
        KidsSpared(t, p, kids, now, q);
        SettleSpared(u, p, trouble, q);
        SparedTwice(s, t, u, q);
        SparedTwice(s, u, Settle(u, p, trouble), q);
    }
  }

  // The query a reply is taken to answer.
  ghost function Target(s: State, serv: nat, questions: nat, id: int, body: Bytes): Option<Ref>
    requires Good(s, {})
  {
    WaitersKnown(s, {});
    var i := FirstAnswered(s.queries, s.udpw, serv, id, body);
    if questions != 1 || i == |s.udpw| then None else Some(s.udpw[i])
  }

  lemma ReplySpared(s: State, serv: nat, questions: nat, id: int, body: Bytes, v: Verdict, now: int,
                    mk: Candidate -> Made, q: Ref)
    requires Good(s, {}) && forall r :: r in s.queries ==> Readable(s.queries[r], v)
    requires Target(s, serv, questions, id, body) != Some(q)
    ensures Spared(s, Reply(s, serv, questions, id, body, v, now, mk), q)
  {
    WaitersKnown(s, {});
    KeysBelow(s, {});
    hide Good, Answered, Readable, Posts;
    if Target(s, serv, questions, id, body).Some? {
      hide Spared;
      var p := Target(s, serv, questions, id, body).value;
      WaiterIs(s, p);
      OtherSpared(s, p, s.queries[p], q);
      AnsweredSpared(Unlinked(s, p), p, v, now, mk, q);
      SparedTwice(s, Unlinked(s, p), Answered(Unlinked(s, p), p, v, now, mk), q);
    }
  }

  lemma KeysBelow(s: State, off: set<Ref>)
    requires Good(s, off)
    ensures forall r :: r in s.queries ==> r < s.next
  {
  }

  lemma SubmitSpared(s: State, req: Request, now: int, mk: Candidate -> Made, q: Ref)
    requires Good(s, {}) && q != s.next
    ensures s.nservers > 0 && Spared(s, Submit(s, req, now, mk), q)
  {
    assert s.nservers > 0;
    hide Good, Fail, Try, SearchNext, Spared;
    var x := Fresh(req);
    var t := Allocated(s, x);
    FreshRanged(s, req);
    AllocatedGood(s, {}, x);
    assert {} + {s.next} == {s.next};
    AllocatedSpared(s, x, q);
    match req {
      case Refused(status) => FailSpared(t, s.next, status, q);
      case Plain => TrySpared(t, s.next, None, now, mk, q);
      case Searching(absFirst) => SearchSpared(t, s.next, now, mk, q);
    }
    SparedTwice(s, t, Submit(s, req, now, mk), q);
  }

  lemma FreshRanged(s: State, req: Request)
    requires Good(s, {})
    ensures Ranged(s.nservers, s.nsearch, Fresh(req))
  {
  }

  lemma AllocatedSpared(s: State, x: Query, q: Ref)
    requires q != s.next
    ensures Spared(s, Allocated(s, x), q)
  {
    hide Posts, Turns;
  }

  lemma RemovedSpared(s: State, gone: set<Ref>, q: Ref)
    requires Good(s, {})
    ensures Spared(s, Removed(s, gone), q)
  {
    RemovedWaitOn(s, {}, gone);
    DropIs(s.udpw, Lost(s, Removed(s, gone)));
    hide Good, Posts, Drop;
  }

  lemma ResentSpared(s: State, p: Ref, now: int, q: Ref)
    requires Good(s, {}) && p in s.udpw && q != p
    ensures p in s.queries && s.nservers > 0 && Spared(s, Resent(s, p, now), q)
  {
    WaiterIs(s, p);
    hide Good, Dispatch, Spared, Unlinked;
    OtherSpared(s, p, s.queries[p], q);
    DispatchSpared(Unlinked(s, p), p, now, q);
    SparedTwice(s, Unlinked(s, p), Dispatch(Unlinked(s, p), p, now), q);
  }

  // ---- a query's own turn

  // the server of the k-th datagram
  function Turn(k: nat, nservers: nat): nat
    requires nservers > 0
  {
    k % nservers
  }

  ghost predicate Turns(p: seq<Sent>, nservers: nat)
    requires nservers > 0
  {
    forall k :: 0 <= k < |p| ==> p[k].server == Turn(k, nservers)
  }

  lemma TurnsMore(p: seq<Sent>, m: Sent, nservers: nat)
    requires nservers > 0 && Turns(p, nservers) && m.server == Turn(|p|, nservers)
    ensures Turns(p + [m], nservers) && (m.server + 1) % nservers == Turn(|p + [m]|, nservers)
  {
    NextRemainder(|p|, nservers);
  }

  // The k-th datagram went to server k mod nservers, and the next will.
  ghost predicate InTurn(s: State, q: Ref) {
    && s.nservers > 0
    && Turns(Posts(s.sent, q), s.nservers)
    && (q in s.queries ==> s.queries[q].nextServer == Turn(|Posts(s.sent, q)|, s.nservers))
    && (q >= s.next ==> Posts(s.sent, q) == [])
  }

  lemma SparedInTurn(s: State, t: State, q: Ref)
    requires Spared(s, t, q) && InTurn(s, q) && Good(t, {}) && (q < s.next || q >= t.next)
    ensures InTurn(t, q)
  {
    hide Posts, Turns, Good, Turn;
    KeysBelow(t, {});
  }

  // The datagrams of n sends, the servers in turn, the first to server k.
  function Round(q: Ref, id: int, question: Bytes, nservers: nat, k: nat, n: nat): (d: seq<Sent>)
    requires nservers > 0
    ensures |d| == n
  {
    seq(n, i requires 0 <= i < n => Sent(q, Turn(k + i, nservers), id, question))
  }

  lemma RoundOne(q: Ref, id: int, question: Bytes, nservers: nat, k: nat)
    requires nservers > 0
    ensures Round(q, id, question, nservers, k, 1) == [Sent(q, Turn(k, nservers), id, question)]
  {
    hide Turn;
  }

  lemma RoundMore(q: Ref, id: int, question: Bytes, nservers: nat, k: nat, n: nat)
    requires nservers > 0
    ensures Round(q, id, question, nservers, k, n + 1)
            == Round(q, id, question, nservers, k, n) + [Sent(q, Turn(k + n, nservers), id, question)]
  {
    hide Turn;
  }

  // One send.
  lemma PostedInTurn(s: State, p: Ref, now: int)
    requires InTurn(s, p) && p in s.queries && p < s.next
    ensures var t := Linked(With(Mailed(s, p), p, Posted(s.queries[p], now, s.nservers)), p);
            t.next == s.next && InTurn(t, p)
  {
    hide Posts, Turns, Turn;
    var m := Mailed(s, p).sent[|s.sent|];
    PostsMore(s.sent, m, p);
    TurnsMore(Posts(s.sent, p), m, s.nservers);
  }

  lemma FailInTurn(s: State, p: Ref, status: int, q: Ref)
    requires Good(s, {p}) && p in s.queries && InTurn(s, q)
    ensures Fail(s, p, status).next == s.next && InTurn(Fail(s, p, status), q)
  {
    FailSpared(s, p, status, q);
    FailGood(s, p, status);
    FailNext(s, p, status);
    hide Fail, Good, InTurn, Spared;
    SparedInTurn(s, Fail(s, p, status), q);
  }

  lemma FailNext(s: State, p: Ref, status: int)
    requires Good(s, {p}) && p in s.queries
    ensures Fail(s, p, status).next == s.next
  {
    FamilyOf(s, {p});
    hide Good, Fail;
    RootIs(s.queries, p);
    FailEnds(s, p, status, Root(s.queries, p));
  }

  lemma FinishInTurn(s: State, p: Ref, q: Ref)
    requires Good(s, {p}) && p in s.queries && InTurn(s, q)
    ensures Finish(s, p).next == s.next && InTurn(Finish(s, p), q)
  {
    FamilyOf(s, {p});
    FinishSpared(s, p, q);
    FinishGood(s, p);
    hide Good, Finish, InTurn, Spared;
    RootIs(s.queries, p);
    FinishEnds(s, p, Root(s.queries, p));
    SparedInTurn(s, Finish(s, p), q);
  }

  lemma DispatchInTurn(s: State, p: Ref, now: int)
    requires Good(s, {p}) && p in s.queries && InTurn(s, p)
    ensures s.nservers > 0 && Dispatch(s, p, now).next == s.next && InTurn(Dispatch(s, p, now), p)
  {
    GoodHas(s, {p}, p);
    hide Good, Fail, InTurn, Linked, With, Mailed, Posted;
    if s.queries[p].retries >= UDPMAXRETRIES {
      FailInTurn(s, p, S_TIMEOUT, p);
    } else {
      PostedInTurn(s, p, now);
    }
  }

  lemma WithInTurn(s: State, p: Ref, x: Query)
    requires p in s.queries && InTurn(s, p) && x.nextServer == s.queries[p].nextServer
    ensures InTurn(With(s, p, x), p)
  {
    hide Posts, Turns, Turn;
  }

  lemma {:induction false} TryInTurn(s: State, p: Ref, c: Candidate, now: int, mk: Candidate -> Made)
    requires Good(s, {p}) && Idle(s, p) && InTurn(s, p)
    ensures s.nservers > 0 && Try(s, p, c, now, mk).next == s.next && InTurn(Try(s, p, c, now, mk), p)
    decreases Left(s.queries[p].search, s.nsearch), 1
  {
    GoodHas(s, {p}, p);
    hide Good, Dispatch, Fail, SearchNext, InTurn, Ranged;
    match mk(c) {
      case Made(id, question) =>
        var y := s.queries[p].(id := id, question := question);
        MadeRanged(s.nservers, s.nsearch, s.queries[p], y);
        AloneGood(s, {p}, p, y);
        WithInTurn(s, p, y);
        DispatchInTurn(With(s, p, y), p, now);
      case Unmade(status) =>
        if status == S_QUERYDOMAINTOOLONG && s.queries[p].search.on {
          SearchInTurn(s, p, now, mk);
        } else {
          FailInTurn(s, p, status, p);
        }
    }
  }

  lemma {:induction false} SearchInTurn(s: State, p: Ref, now: int, mk: Candidate -> Made)
    requires Good(s, {p}) && Idle(s, p) && InTurn(s, p)
    ensures s.nservers > 0 && SearchNext(s, p, now, mk).next == s.next && InTurn(SearchNext(s, p, now, mk), p)
    decreases Left(s.queries[p].search, s.nsearch), 0
  {
    hide Good, Try, Fail, Ranged, SearchNext, Candidates, Tried, Left, InTurn;
    GoodHas(s, {p}, p);
    var x := s.queries[p];
    SearchOrder(s, p, now, mk);
    var c := Candidates(x.search, s.nsearch);
    if c == [] {
      FailInTurn(s, p, S_NXDOMAIN, p);
    } else {
      TriedFits(x, s.nservers, s.nsearch);
      var y := x.(search := Tried(x.search, s.nsearch));
      AloneGood(s, {p}, p, y);
      WithInTurn(s, p, y);
      TryInTurn(With(s, p, y), p, c[0], now, mk);
    }
  }

  // A query waits for a reply after n datagrams, all alike, to the servers in turn, behind those of base, which have
  // used up so many sends.
  ghost predicate Asked(s: State, q: Ref, base: seq<Sent>, spent: nat, n: nat, id: int, question: Bytes) {
    && q in s.udpw && q in s.queries && s.nservers > 0 && 1 <= n && spent + n <= UDPMAXRETRIES
    && s.queries[q].retries == spent + n && s.queries[q].nextServer == Turn(|base| + n, s.nservers)
    && s.queries[q].id == id && s.queries[q].question == question
    && Posts(s.sent, q) == base + Round(q, id, question, s.nservers, |base|, n)
  }

  // A query waits after one more datagram.
  ghost predicate AskedOnce(s: State, q: Ref, base: seq<Sent>, spent: nat) {
    q in s.queries && Asked(s, q, base, spent, 1, s.queries[q].id, s.queries[q].question)
  }

  // A query waits after its first datagram.
  ghost predicate FirstAsked(s: State, q: Ref) {
    AskedOnce(s, q, [], 0)
  }

  lemma KidAsked(s: State, p: Ref, kid: Kid, now: int)
    requires p in s.queries && InTurn(s, s.next) && p != s.next
    ensures s.nservers > 0 && FirstAsked(AddKid(s, p, kid, now), s.next) && InTurn(AddKid(s, p, kid, now), s.next)
  {
    hide Posts, Turns, Round, Turn;
    PostsMore(s.sent, Sent(s.next, 0, kid.id, kid.question), s.next);
    NoRemainder(s.nservers);
    RoundOne(s.next, kid.id, kid.question, s.nservers, 0);
    var t := AddKid(s, p, kid, now);
    assert Posts(t.sent, s.next) == [] + [Sent(s.next, 0, kid.id, kid.question)];
    TurnsMore([], Sent(s.next, 0, kid.id, kid.question), s.nservers);
    KidIs(s, p, kid, now);
  }

  lemma NoRemainder(n: nat)
    requires n > 0
    ensures Turn(0, n) == 0
  {
    Rest(0, n, 0, 0);
  }

  lemma KidIs(s: State, p: Ref, kid: Kid, now: int)
    requires p in s.queries && s.nservers > 0 && p != s.next
    ensures var t := AddKid(s, p, kid, now);
            && s.next in t.udpw && s.next in t.queries && t.next == s.next + 1 && t.nservers == s.nservers
            && t.queries[s.next].retries == 1 && t.queries[s.next].nextServer == Turn(1, s.nservers)
            && t.queries[s.next].id == kid.id && t.queries[s.next].question == kid.question
  {
  }

  lemma KidInTurn(s: State, p: Ref, kid: Kid, now: int, q: Ref)
    requires p in s.queries && s.nservers > 0 && q != s.next && InTurn(s, q)
    ensures InTurn(AddKid(s, p, kid, now), q)
  {
    hide Posts, Turns, Child, Turn;
    PostsMore(s.sent, Sent(s.next, 0, kid.id, kid.question), q);
  }

  lemma SparedAsked(s: State, t: State, q: Ref)
    requires Spared(s, t, q) && q < s.next && FirstAsked(s, q) && q in t.queries
    ensures FirstAsked(t, q)
  {
    hide Posts, Turns, Turn;
  }

  ghost predicate AllInTurn(s: State) {
    forall q :: InTurn(s, q)
  }

  lemma {:induction false} KidsAsked(s: State, p: Ref, kids: seq<Kid>, now: int, q: Ref)
    requires p in s.queries && p < s.next && AllInTurn(s)
    ensures s.nservers > 0 && AllInTurn(AddKids(s, p, kids, now))
    ensures s.next <= q < AddKids(s, p, kids, now).next ==> FirstAsked(AddKids(s, p, kids, now), q)
    ensures AddKids(s, p, kids, now).queries.Keys >= s.queries.Keys
    decreases |kids|
  {
    assert InTurn(s, s.next);
    if kids != [] {
      var t := AddKid(s, p, kids[0], now);
      KidAsked(s, p, kids[0], now);
      forall r ensures InTurn(t, r) {
        assert InTurn(s, r);
        if r != s.next {
          KidInTurn(s, p, kids[0], now, r);
        }
      }
      KidKnown(s, p, kids[0], now);
      hide InTurn, AddKid, FirstAsked, Spared;
      KidsAsked(t, p, kids[1..], now, q);
      if q == s.next {
        KidsSpared(t, p, kids[1..], now, q);
        SparedAsked(t, AddKids(t, p, kids[1..], now), q);
      }
    }
  }

  lemma KidKnown(s: State, p: Ref, kid: Kid, now: int)
    requires p in s.queries && s.nservers > 0
    ensures var t := AddKid(s, p, kid, now); t.next == s.next + 1 && t.queries.Keys >= s.queries.Keys + {s.next}
  {
  }

  // ---- a reply

  lemma SettleInTurn(s: State, p: Ref, trouble: Option<int>, q: Ref)
    requires Good(s, {p}) && p in s.queries && InTurn(s, q)
    ensures Settle(s, p, trouble).next == s.next && InTurn(Settle(s, p, trouble), q)
  {
    hide Good, Fail, Finish, InTurn;
    if trouble.Some? {
      FailInTurn(s, p, trouble.value, q);
    } else if s.queries[p].children != [] {
      WaitsInTurn(s, p, q);
    } else {
      FinishInTurn(s, p, q);
    }
  }

  lemma WaitsInTurn(s: State, p: Ref, q: Ref)
    requires p in s.queries && InTurn(s, q)
    ensures var t := Linked(With(s, p, Waits(s.queries[p])), p); t.next == s.next && InTurn(t, q)
  {
    hide Posts, Turns, Turn;
  }

  // The query answered.
  lemma AnsweredInTurn(s: State, p: Ref, v: Verdict, now: int, mk: Candidate -> Made)
    requires Good(s, {p}) && Sendable(s, p) && Readable(s.queries[p], v) && AllInTurn(s)
    ensures s.nservers > 0 && InTurn(Answered(s, p, v, now, mk), p)
    ensures !v.Found? ==> Answered(s, p, v, now, mk).next == s.next
  {
    GoodHas(s, {p}, p);
    assert InTurn(s, p);
    hide Good, Dispatch, Fail, SearchNext, Settle, AddKids, Ranged, InTurn, AllInTurn;
    var x := s.queries[p];
    match v {
      case Failed(status) => FailInTurn(s, p, status, p);
      case NoName => if x.search.on { SearchInTurn(s, p, now, mk); } else { FailInTurn(s, p, S_NXDOMAIN, p); }
      case Again(None) => AgainInTurn(s, p, Restarted(x), now);
      case Again(Some(Made(id, question))) => AgainInTurn(s, p, Restarted(x.(id := id, question := question)), now);
      case Again(Some(Unmade(status))) => FailInTurn(s, p, status, p);
      case Found(_, _, _, kids, trouble) =>
        FoundInTurn(s, p, v, now, p);
        assert InTurn(Settle(AddKids(With(s, p, Answer0(x, v)), p, kids, now), p, trouble), p);
    }
  }

  lemma AgainInTurn(s: State, p: Ref, x: Query, now: int)
    requires Good(s, {p}) && Sendable(s, p) && InTurn(s, p)
    requires x == Restarted(s.queries[p].(id := x.id, question := x.question)) && x.id >= 0
    ensures s.nservers > 0 && InTurn(Dispatch(With(s, p, x), p, now), p)
    ensures Dispatch(With(s, p, x), p, now).next == s.next
  {
    GoodHas(s, {p}, p);
    AgainRanged(s.nservers, s.nsearch, s.queries[p], x);
    hide Good, Dispatch, InTurn, Ranged;
    AloneGood(s, {p}, p, x);
    WithInTurn(s, p, x);
    DispatchInTurn(With(s, p, x), p, now);
  }

  // After an answer that needs queries of its own, each of them waits after its first datagram.
  lemma FoundInTurn(s: State, p: Ref, v: Verdict, now: int, q: Ref)
    requires Good(s, {p}) && Sendable(s, p) && v.Found? && Readable(s.queries[p], v) && AllInTurn(s)
    ensures s.nservers > 0
    ensures var t := Settle(AddKids(With(s, p, Answer0(s.queries[p], v)), p, v.kids, now), p, v.trouble);
            InTurn(t, q) && (s.next <= q < t.next && q in t.queries ==> FirstAsked(t, q))
  {
    GoodHas(s, {p}, p);
    hide Good, Settle, AddKids, Ranged, InTurn, AllInTurn, FirstAsked, Spared;
    var x := s.queries[p];
    var y := Answer0(x, v);
    var t := With(s, p, y);
    var u := AddKids(t, p, v.kids, now);
    AnswerRanged(s.nservers, s.nsearch, x, v);
    AloneGood(s, {p}, p, y);
    AllWithInTurn(s, p, y);
    AddKidsGood(t, p, v.kids, now);
    KidsAsked(t, p, v.kids, now, q);
    AllHas(u, q);
    SettleInTurn(u, p, v.trouble, q);
    if s.next <= q < u.next {
      SettleSpared(u, p, v.trouble, q);
      if q in Settle(u, p, v.trouble).queries {
        SparedAsked(u, Settle(u, p, v.trouble), q);
      }
    }
  }

  lemma AllHas(s: State, q: Ref)
    requires AllInTurn(s)
    ensures InTurn(s, q)
  {
  }

  lemma AllWithInTurn(s: State, p: Ref, x: Query)
    requires p in s.queries && AllInTurn(s) && x.nextServer == s.queries[p].nextServer
    ensures AllInTurn(With(s, p, x))
  {
    hide Posts, Turns, Turn;
    forall q ensures InTurn(With(s, p, x), q) {
      assert InTurn(s, q);
    }
  }

  lemma UnlinkedInTurn(s: State, p: Ref)
    requires AllInTurn(s)
    ensures AllInTurn(Unlinked(s, p))
  {
    hide Posts, Turns, Turn;
    forall q ensures InTurn(Unlinked(s, p), q) {
      assert InTurn(s, q);
    }
  }

  lemma ReplyInTurn(s: State, serv: nat, questions: nat, id: int, body: Bytes, v: Verdict, now: int,
                    mk: Candidate -> Made, q: Ref)
    requires Good(s, {}) && AllInTurn(s) && forall r :: r in s.queries ==> Readable(s.queries[r], v)
    ensures var t := Reply(s, serv, questions, id, body, v, now, mk);
            InTurn(t, q) && (s.next <= q < t.next && q in t.queries ==> FirstAsked(t, q))
  {
    WaitersKnown(s, {});
    KeysBelow(s, {});
    ReplyGood(s, serv, questions, id, body, v, now, mk);
    hide Good, Answered, Readable, InTurn, AllInTurn, FirstAsked, Spared;
    AllHas(s, q);
    if Target(s, serv, questions, id, body).Some? {
      var p := Target(s, serv, questions, id, body).value;
      WaiterIs(s, p);
      UnlinkedInTurn(s, p);
      var u := Unlinked(s, p);
      OneInTurn(u, p, v, now, mk, q);
    }
  }

  lemma OneInTurn(s: State, p: Ref, v: Verdict, now: int, mk: Candidate -> Made, q: Ref)
    requires Good(s, {p}) && Sendable(s, p) && Readable(s.queries[p], v) && AllInTurn(s)
    ensures s.nservers > 0
    ensures var t := Answered(s, p, v, now, mk);
            InTurn(t, q) && (s.next <= q < t.next && q in t.queries ==> FirstAsked(t, q))
  {
    GoodHas(s, {p}, p);
    AllHas(s, q);
    hide Good, Readable, InTurn, AllInTurn, FirstAsked, Spared, Dispatch, Fail, SearchNext, Settle, AddKids, Ranged;
    var t := Answered(s, p, v, now, mk);
    AnsweredInTurn(s, p, v, now, mk);
    if v.Found? {
      FoundInTurn(s, p, v, now, q);
    } else if q != p {
      AnsweredSpared(s, p, v, now, mk, q);
      AnsweredGood(s, p, v, now, mk);
      SparedInTurn(s, t, q);
    }
  }

  // ---- a submission

  // A query that fails before it was ever sent is not waiting; one that is sent waits after its first datagram.
  lemma FailGone(s: State, p: Ref, status: int)
    requires Good(s, {p}) && p in s.queries && s.queries[p].parent == None
    ensures p !in Fail(s, p, status).udpw
  {
    FailRoot(s, p, status);
    FailGood(s, p, status);
    DoneNotWaiting(Fail(s, p, status), p);
  }

  lemma DoneNotWaiting(s: State, q: Ref)
    requires Good(s, {}) && q in s.queries && s.queries[q].phase == Done
    ensures q !in s.udpw
  {
    assert Queue(s, {}, ToSend);
  }

  // A query of the caller's about to be sent, behind the datagrams of base.
  ghost predicate Ready(s: State, p: Ref, base: seq<Sent>, spent: nat) {
    && p in s.queries && s.queries[p].parent == None && s.nservers > 0
    && s.queries[p].retries == spent && s.queries[p].nextServer == Turn(|base|, s.nservers)
    && Posts(s.sent, p) == base
  }

  // One that has not been sent yet.
  ghost predicate Unsent(s: State, p: Ref) {
    Ready(s, p, [], 0)
  }

  // It waits after one more datagram, or has got none, as when no sends were left.
  ghost predicate OnceOrNever(t: State, p: Ref, base: seq<Sent>, spent: nat) {
    && (p in t.udpw ==> AskedOnce(t, p, base, spent))
    && (p !in t.udpw ==> Posts(t.sent, p) == base)
  }

  lemma FailNever(s: State, p: Ref, status: int, base: seq<Sent>, spent: nat)
    requires Good(s, {p}) && Ready(s, p, base, spent)
    ensures OnceOrNever(Fail(s, p, status), p, base, spent)
  {
    FailGone(s, p, status);
    FailSpared(s, p, status, p);
    GoodHas(s, {p}, p);
    hide Good, Fail, Posts;
  }

  lemma DispatchFirst(s: State, p: Ref, now: int, base: seq<Sent>, spent: nat)
    requires Good(s, {p}) && Ready(s, p, base, spent) && s.queries[p].phase == ToSend
    ensures OnceOrNever(Dispatch(s, p, now), p, base, spent)
  {
    if spent >= UDPMAXRETRIES {
      FailNever(s, p, S_TIMEOUT, base, spent);
    } else {
      PostedOnce(s, p, now, base, spent);
    }
  }

  lemma PostedOnce(s: State, p: Ref, now: int, base: seq<Sent>, spent: nat)
    requires Ready(s, p, base, spent) && s.queries[p].phase == ToSend && spent < UDPMAXRETRIES
    ensures AskedOnce(Dispatch(s, p, now), p, base, spent) && p in Dispatch(s, p, now).udpw
  {
    hide Posts, Turn, Round;
    var x := s.queries[p];
    PostsMore(s.sent, Sent(p, x.nextServer, x.id, x.question), p);
    RoundOne(p, x.id, x.question, s.nservers, |base|);
    NextTurn(|base|, s.nservers);
  }

  lemma NextTurn(k: nat, nservers: nat)
    requires nservers > 0
    ensures (Turn(k, nservers) + 1) % nservers == Turn(k + 1, nservers)
  {
    NextRemainder(k, nservers);
  }

  lemma {:induction false} TryFirst(s: State, p: Ref, c: Candidate, now: int, mk: Candidate -> Made, base: seq<Sent>,
                                    spent: nat)
    requires Good(s, {p}) && Idle(s, p) && Ready(s, p, base, spent)
    ensures s.nservers > 0 && OnceOrNever(Try(s, p, c, now, mk), p, base, spent)
    decreases Left(s.queries[p].search, s.nsearch), 1
  {
    hide Good, Dispatch, Fail, SearchNext, OnceOrNever, Ranged, Posts, Turn;
    GoodHas(s, {p}, p);
    match mk(c) {
      case Made(id, question) =>
        var y := s.queries[p].(id := id, question := question);
        MadeRanged(s.nservers, s.nsearch, s.queries[p], y);
        AloneGood(s, {p}, p, y);
        DispatchFirst(With(s, p, y), p, now, base, spent);
      case Unmade(status) =>
        if status == S_QUERYDOMAINTOOLONG && s.queries[p].search.on {
          SearchFirst(s, p, now, mk, base, spent);
        } else {
          FailNever(s, p, status, base, spent);
        }
    }
  }

  lemma {:induction false} SearchFirst(s: State, p: Ref, now: int, mk: Candidate -> Made, base: seq<Sent>, spent: nat)
    requires Good(s, {p}) && Idle(s, p) && Ready(s, p, base, spent)
    ensures s.nservers > 0 && OnceOrNever(SearchNext(s, p, now, mk), p, base, spent)
    decreases Left(s.queries[p].search, s.nsearch), 0
  {
    hide Good, Try, Fail, Ranged, SearchNext, Candidates, Tried, Left, OnceOrNever, Posts, Turn;
    GoodHas(s, {p}, p);
    var x := s.queries[p];
    SearchOrder(s, p, now, mk);
    var c := Candidates(x.search, s.nsearch);
    if c == [] {
      FailNever(s, p, S_NXDOMAIN, base, spent);
    } else {
      TriedFits(x, s.nservers, s.nsearch);
      var y := x.(search := Tried(x.search, s.nsearch));
      AloneGood(s, {p}, p, y);
      TryFirst(With(s, p, y), p, c[0], now, mk, base, spent);
    }
  }

  lemma AllocatedUnsent(s: State, req: Request)
    requires Good(s, {}) && InTurn(s, s.next)
    ensures var t := Allocated(s, Fresh(req)); Unsent(t, s.next) && InTurn(t, s.next) && Idle(t, s.next)
  {
    hide Posts, Good, Turns;
    NoRemainder(s.nservers);
    hide Turn;
  }

  lemma SubmitInTurn(s: State, req: Request, now: int, mk: Candidate -> Made, q: Ref)
    requires Good(s, {}) && AllInTurn(s)
    ensures s.nservers > 0
    ensures var t := Submit(s, req, now, mk);
            InTurn(t, q) && t.next == s.next + 1 && (q == s.next && q in t.udpw ==> FirstAsked(t, q))
  {
    SubmitGood(s, req, now, mk);
    AllHas(s, s.next);
    AllHas(s, q);
    FreshRanged(s, req);
    var x := Fresh(req);
    var t, p := Allocated(s, x), s.next;
    AllocatedGood(s, {}, x);
    assert {} + {s.next} == {s.next};
    AllocatedUnsent(s, req);
    hide Good, Fail, Try, SearchNext, InTurn, AllInTurn, FirstAsked, Spared, Unsent;
    assert t.queries[p].parent == None;
    match req {
      case Refused(status) => FailInTurn(t, p, status, p); FailGone(t, p, status);
      case Plain => TryInTurn(t, p, None, now, mk); TryFirst(t, p, None, now, mk, [], 0);
      case Searching(absFirst) => SearchInTurn(t, p, now, mk); SearchFirst(t, p, now, mk, [], 0);
    }
    if q != p {
      SubmitSpared(s, req, now, mk, q);
      SparedInTurn(s, Submit(s, req, now, mk), q);
    }
  }
}
