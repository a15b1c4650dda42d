/** The sends of a query whose search goes on: the names tried one after the other share the fifteen datagrams. */
module AdnsSearch {
  import opened Text
  import opened AdnsState
  import opened AdnsFinish
  import opened AdnsOps
  import opened AdnsReply
  import opened AdnsSweep
  import opened AdnsRuns
  import opened AdnsOutcome
  import opened AdnsRounds
  import opened AdnsUnanswered

  // The reply says that the name asked for does not exist, answers this query, and there is a search to go on with.
  ghost predicate NoSuchName(s: State, e: Event, q: Ref)
    requires Good(s, {})
  {
    && e.Replied? && e.verdict == NoName && Target(s, e.serv, e.questions, e.id, e.body) == Some(q)
    && q in s.queries && s.queries[q].parent == None && s.queries[q].search.on
  }

  // The name tried next can be asked for.
  ghost predicate NextMade(x: Query, nsearch: nat, mk: Candidate -> Made) {
    var c := Candidates(x.search, nsearch);
    c != [] && mk(c[0]).Made?
  }

  // A query waits after one datagram for the name tried next; or, with no sends left, has timed out without any.
  ghost predicate AskedNext(t: State, q: Ref, base: seq<Sent>, spent: nat, made: Made)
    requires made.Made?
  {
    if spent < UDPMAXRETRIES then
      && q in t.udpw && AskedOnce(t, q, base, spent)
      && t.queries[q].id == made.id && t.queries[q].question == made.question
    else
      q !in t.udpw && q in t.output && q in t.queries && t.queries[q].answer.status == S_TIMEOUT
      && Posts(t.sent, q) == base
  }

  lemma DispatchNext(s: State, p: Ref, now: int, base: seq<Sent>, spent: nat, made: Made)
    requires Good(s, {p}) && Ready(s, p, base, spent) && s.queries[p].phase == ToSend
    requires made.Made? && s.queries[p].id == made.id && s.queries[p].question == made.question
    ensures AskedNext(Dispatch(s, p, now), p, base, spent, made)
  {
    hide Good, Posts, Turn, Asked;
    if spent < UDPMAXRETRIES {
      PostedOnce(s, p, now, base, spent);
    } else {
      hide Fail;
      FailRoot(s, p, S_TIMEOUT);
      FailGone(s, p, S_TIMEOUT);
      FailNever(s, p, S_TIMEOUT, base, spent);
    }
  }

  lemma {:induction false} SearchNextAsks(s: State, p: Ref, now: int, mk: Candidate -> Made, base: seq<Sent>,
                                          spent: nat)
    requires Good(s, {p}) && Idle(s, p) && Ready(s, p, base, spent) && NextMade(s.queries[p], s.nsearch, mk)
    ensures s.nservers > 0
    ensures AskedNext(SearchNext(s, p, now, mk), p, base, spent, mk(Candidates(s.queries[p].search, s.nsearch)[0]))
  {
    hide Good, Dispatch, Ranged, SearchNext, Candidates, Tried, Left, AskedNext, Posts, Turn;
    GoodHas(s, {p}, p);
    var x := s.queries[p];
    SearchOrder(s, p, now, mk);
    TriedFits(x, s.nservers, s.nsearch);
    var y := x.(search := Tried(x.search, s.nsearch));
    AloneGood(s, {p}, p, y);
    var made := mk(Candidates(x.search, s.nsearch)[0]);
    var z := y.(id := made.id, question := made.question);
    MadeRanged(s.nservers, s.nsearch, y, z);
    AloneGood(With(s, p, y), {p}, p, z);
    DispatchNext(With(With(s, p, y), p, z), p, now, base, spent, made);
  }

  // The query answered, taken off the queue.
  lemma {:induction false} TakenOff(s: State, q: Ref)
    requires Good(s, {}) && q in s.udpw && InTurn(s, q)
    ensures q in s.queries && Good(Unlinked(s, q), {q}) && Idle(Unlinked(s, q), q)
    ensures Unlinked(s, q).queries == s.queries && Unlinked(s, q).nsearch == s.nsearch
    ensures s.queries[q].parent == None ==> Ready(Unlinked(s, q), q, Posts(s.sent, q), s.queries[q].retries)
  {
    WaiterIs(s, q);
    hide Good, Posts, Turn, Turns;
  }

  lemma {:induction false} StepIsSearch(s: State, e: Event, q: Ref)
    requires Good(s, {}) && Allowed(s, e) && NoSuchName(s, e, q)
    ensures q in s.udpw && s.nservers > 0 && q in Unlinked(s, q).queries
    ensures Step(s, e) == SearchNext(Unlinked(s, q), q, e.at, e.mk)
  {
    WaitersKnown(s, {});
    var i := FirstAnswered(s.queries, s.udpw, e.serv, e.id, e.body);
    WaiterIs(s, s.udpw[i]);
    hide Good, SearchNext;
  }

  /**
   * In any run a query gets the reply that the name asked for does not exist, when it has been sent so many times since
   * it was made or last begun again. The sends are not counted anew: the names tried next get what is left of fifteen.
   * If the next name can be asked for and there are sends left, one goes out at once, to the server whose turn it is,
   * and if nobody answers the others follow at the sweeps, up to a timeout; if none is left, the query times out at
   * once and nobody is asked for that name. Whatever names can be asked for, there is a datagram more or none.
   */
  lemma {:induction false} LaterName(nservers: nat, nsearch: nat, before: seq<Event>, s: State, own: set<Ref>, e: Event,
                                     q: Ref, events: seq<Event>, n: nat, t: State)
    requires nservers > 0 && Reached(nservers, nsearch, before, s, own) && Good(s, {})
    requires Allowed(s, e) && NoSuchName(s, e, q)
    requires Ignored(Step(s, e), q, events, n, t)
    ensures s.nservers > 0
    ensures var x, base, u := s.queries[q], Posts(s.sent, q), Step(s, e);
      && OnceOrNever(u, q, base, x.retries)
      && (NextMade(x, s.nsearch, e.mk) ==>
            AskedNext(u, q, base, x.retries, e.mk(Candidates(x.search, s.nsearch)[0])))
      && (q in u.udpw ==>
            q in u.queries && x.retries < UDPMAXRETRIES
            && Course(t, q, base, x.retries, n, u.queries[q].id, u.queries[q].question, true))
  {
    hide Good, Step, Allowed, NoSuchName, SearchNext, AllInTurn, InTurn, Course, Ignored, OnceOrNever, AskedNext,
         Candidates, Posts, Ready;
    ServersTakeTurns(nservers, nsearch, before, s, own);
    AllHas(s, q);
    IsOwn(s, e, q);
    StepIsSearch(s, e, q);
    var x, base, u := s.queries[q], Posts(s.sent, q), Step(s, e);
    TakenOff(s, q);
    SearchFirst(Unlinked(s, q), q, e.at, e.mk, base, x.retries);
    if NextMade(x, s.nsearch, e.mk) {
      SearchNextAsks(Unlinked(s, q), q, e.at, e.mk, base, x.retries);
    }
    if q in u.udpw {
      OnceWaits(s, e, u, q, base, x.retries);
      Begins(u, q, base, x.retries);
      IgnoredCourse(u, q, events, n, t, base, x.retries, u.queries[q].id, u.queries[q].question, true);
    }
  }

  lemma IsOwn(s: State, e: Event, q: Ref)
    requires Good(s, {}) && NoSuchName(s, e, q)
    ensures e.Replied? && q in s.queries && s.queries[q].parent == None && s.queries[q].search.on && q < s.next
  {
  }

  lemma {:induction false} OnceWaits(s: State, e: Event, u: State, q: Ref, base: seq<Sent>, spent: nat)
    requires Good(s, {}) && Allowed(s, e) && NoSuchName(s, e, q) && u == Step(s, e)
    requires OnceOrNever(u, q, base, spent) && q in u.udpw
    ensures AskedOnce(u, q, base, spent) && q in u.queries && spent < UDPMAXRETRIES && q < u.next
    ensures u.queries[q].parent == None
  {
    IsOwn(s, e, q);
    StepGood(s, e);
    StepKeeps(s, e);
    KeysBelow(u, {});
    hide Good, Step, Allowed, Posts, Turn, Own;
    OwnNow(s, u, e, q);
  }

  lemma {:induction false} OwnNow(s: State, u: State, e: Event, q: Ref)
    requires q in s.queries && s.queries[q].parent == None && e.Replied?
    requires Own(u.queries) == Ledger(Own(s.queries), s.next, e)
    ensures q in u.queries && u.queries[q].parent == None
  {
    assert q in Own(s.queries);
    assert q in Own(u.queries);
  }
}
