/** A query that nobody answers, in any run: the servers in turn, fifteen datagrams, then a timeout. */
module AdnsUnanswered {
  import opened Text
  import opened AdnsState
  import opened AdnsFinish
  import opened AdnsEffects
  import opened AdnsOps
  import opened AdnsSweep
  import opened AdnsReply
  import opened AdnsRuns
  import opened AdnsOutcome
  import opened AdnsRounds

  // ---- the sweep, for one query

  lemma ResentNext(s: State, p: Ref, now: int)
    requires Good(s, {}) && p in s.udpw
    ensures p in s.queries && s.nservers > 0 && Resent(s, p, now).next == s.next
  {
    WaiterIs(s, p);
    hide Good, Fail;
    if s.queries[p].retries >= UDPMAXRETRIES {
      FailNext(Unlinked(s, p), p, S_TIMEOUT);
    }
  }

  lemma SparedSelf(s: State, q: Ref)
    ensures Spared(s, s, q)
  {
    hide Posts;
  }

  // Due is what has its timeout behind it.
  lemma DueIs(x: Query, now: int)
    ensures Expired(x, now) <==> x.timeout < now
  {
  }

  /** A sweep leaves a query that is not due as it was, unless it goes with its family. */
  lemma {:induction false} SweepSpared(s: State, now: int, q: Ref)
    requires Good(s, {}) && (q in s.udpw && q in s.queries ==> now <= s.queries[q].timeout)
    ensures Sweep(s, now).next == s.next && Spared(s, Sweep(s, now), q)
    decreases DueNow(s, now)
  {
    hide Good, Resent, Spared, Expired;
    WaitersKnown(s, {});
    var i := FirstDue(s.queries, s.udpw, now);
    if i == |s.udpw| {
      SparedSelf(s, q);
    } else {
      var p := s.udpw[i];
      if q in s.udpw { DueIs(s.queries[q], now); }
      ResentGood(s, p, now);
      ResentDue(s, p, now);
      ResentNext(s, p, now);
      ResentSpared(s, p, now, q);
      var t := Resent(s, p, now);
      StillNotDue(s, t, now, q);
      if q in t.udpw && q in t.queries { DueIs(t.queries[q], now); }
      SweepSpared(t, now, q);
      SparedTwice(s, t, Sweep(t, now), q);
    }
  }

  lemma StillNotDue(s: State, t: State, now: int, q: Ref)
    requires Good(t, {}) && Spared(s, t, q) && t.next == s.next
    requires q in s.udpw && q in s.queries ==> !Expired(s.queries[q], now)
    ensures q in t.udpw && q in t.queries ==> !Expired(t.queries[q], now)
  {
    hide Expired, Posts;
    KeysBelow(t, {});
    hide Good;
  }

  // A query that was due has been sent once more, if it was still to be.
  ghost predicate SentOnce(s: State, t: State, q: Ref, now: int) {
    && q in s.queries && s.nservers > 0 && t.nservers == s.nservers
    && var x := s.queries[q];
       && q in t.udpw && q in t.queries && t.queries[q] == Posted(x, now, s.nservers)
       && Posts(t.sent, q) == Posts(s.sent, q) + [Sent(q, x.nextServer, x.id, x.question)]
  }

  // A query that was due for the last time has timed out.
  ghost predicate Ended(s: State, t: State, q: Ref) {
    && q in s.queries && q !in t.udpw && Posts(t.sent, q) == Posts(s.sent, q)
    && (s.queries[q].parent == None ==>
          q in t.output && q in t.queries && t.queries[q].answer.status == S_TIMEOUT)
  }

  lemma ResentOnce(s: State, q: Ref, now: int)
    requires Good(s, {}) && q in s.udpw && q in s.queries && s.nservers > 0 && s.queries[q].retries < UDPMAXRETRIES
    ensures SentOnce(s, Resent(s, q, now), q, now)
  {
    hide Posts, Good;
    WaiterIs(s, q);
    var x := s.queries[q];
    PostsMore(s.sent, Sent(q, x.nextServer, x.id, x.question), q);
  }

  lemma ResentLast(s: State, q: Ref, now: int)
    requires Good(s, {}) && q in s.udpw && q in s.queries && s.nservers > 0 && s.queries[q].retries >= UDPMAXRETRIES
    ensures Ended(s, Resent(s, q, now), q)
    ensures s.queries[q].parent.Some? ==> q !in Resent(s, q, now).queries
  {
    hide Good, Fail, Posts, Spared, FirstDue;
    WaiterIs(s, q);
    KeysBelow(s, {});
    var u := Unlinked(s, q);
    var t := Fail(u, q, S_TIMEOUT);
    assert Resent(s, q, now) == t;
    FailSpared(u, q, S_TIMEOUT, q);
    NotOnQueue(u, q);
    SparedOff(u, t, q);
    if s.queries[q].parent == None {
      FailRoot(u, q, S_TIMEOUT);
    } else {
      FailLeaves(u, q, S_TIMEOUT);
    }
  }

  lemma SparedOff(s: State, t: State, q: Ref)
    requires Spared(s, t, q) && q < s.next && q !in s.udpw
    ensures q !in t.udpw && Posts(t.sent, q) == Posts(s.sent, q)
  {
    hide Posts;
  }

  lemma NotOnQueue(s: State, q: Ref)
    requires Good(s, {q})
    ensures q !in s.udpw
  {
    assert Queue(s, {q}, ToSend);
  }

  // A child that is done leaves the table for good.
  lemma FinishLeaves(s: State, q: Ref)
    requires Good(s, {q}) && q in s.queries && s.queries[q].parent.Some?
    ensures q !in Finish(s, q).queries
  {
    hide Good, CancelBelow, Parted, Callback, Waiting, Serves, Under, Untouched, WaitOn;
    CancelGood(s, {q}, q);
    var t := CancelBelow(s, q);
    var x := t.queries[q];
    var p := x.parent.value;
    var u := Leaves(t, p, q);
    FamilyOf(u, {p});
    RootIs(u.queries, p);
    CallbackEnds(u, p, x.kind, x.answer, Root(u.queries, p));
  }

  lemma FailLeaves(s: State, q: Ref, status: int)
    requires Good(s, {q}) && q in s.queries && s.queries[q].parent.Some?
    ensures q !in Fail(s, q, status).queries
  {
    hide Good, CancelBelow, Finish, Ranged;
    CancelGood(s, {q}, q);
    var t := CancelBelow(s, q);
    var x := Reset(t.queries[q]);
    var y := x.(answer := x.answer.(status := status));
    GoodHas(s, {q}, q);
    ResetIs(s.nservers, s.nsearch, s.queries[q], y);
    CancelSizes(s, q);
    AloneGood(t, {q}, q, y);
    FinishLeaves(With(t, q, y), q);
  }

  lemma CancelSizes(s: State, q: Ref)
    requires q in s.queries
    ensures CancelBelow(s, q).nservers == s.nservers && CancelBelow(s, q).nsearch == s.nsearch
  {
  }

  lemma ResetIs(nservers: nat, nsearch: nat, x: Query, y: Query)
    requires Ranged(nservers, nsearch, x) && y == x.(answer := y.answer, children := [])
    ensures Ranged(nservers, nsearch, y)
  {
  }

  // ---- the sweep on a query that is due

  // What the sweep has done with a query that was due: gone with its family, sent once more, or ended.
  ghost predicate Swept(s: State, t: State, q: Ref, now: int)
    requires q in s.queries
  {
    if s.queries[q].retries < UDPMAXRETRIES then
      (q in t.queries ==> SentOnce(s, t, q, now))
      && (q !in t.queries ==> OneAtMost(s, t, q))
    else
      (s.queries[q].parent == None ==> Ended(s, t, q))
      && (s.queries[q].parent.Some? ==> q !in t.queries && Posts(t.sent, q) == Posts(s.sent, q))
  }

  ghost predicate OneAtMost(s: State, t: State, q: Ref)
    requires q in s.queries
  {
    var x := s.queries[q];
    || Posts(t.sent, q) == Posts(s.sent, q)
    || Posts(t.sent, q) == Posts(s.sent, q) + [Sent(q, x.nextServer, x.id, x.question)]
  }

  // After others have been dealt with, and before.
  lemma SweptLater(s: State, t: State, u: State, q: Ref, now: int)
    requires q in s.queries && q < s.next && Spared(s, t, q) && q in s.udpw
    requires if q in t.queries then Swept(t, u, q, now) else Spared(t, u, q)
    requires s.queries[q].parent == None ==> q in t.queries
    ensures Swept(s, u, q, now)
  {
    hide Posts, Posted;
  }

  lemma SweptSooner(s: State, t: State, u: State, q: Ref, now: int)
    requires q in s.queries && q < s.next && Spared(t, u, q) && s.next <= t.next
    requires if s.queries[q].retries < UDPMAXRETRIES then SentOnce(s, t, q, now)
             else Ended(s, t, q) && (s.queries[q].parent.Some? ==> q !in t.queries)
    requires forall r :: r in t.output ==>
               r in u.output && r in t.queries && r in u.queries && u.queries[r] == t.queries[r]
    ensures Swept(s, u, q, now)
  {
    hide Posts, Posted;
  }

  lemma NotDueAgain(x: Query, now: int, nservers: nat)
    requires nservers > 0
    ensures !Expired(Posted(x, now, nservers), now)
  {
  }

  /** A sweep sends a query that is due once more; or, if it has been sent fifteen times, ends it. */
  lemma {:induction false} SweepDue(s: State, now: int, q: Ref)
    requires Good(s, {}) && q in s.udpw && q in s.queries && s.queries[q].timeout < now
    ensures Swept(s, Sweep(s, now), q, now)
    decreases DueNow(s, now)
  {
    hide Good, Resent, Spared, Expired, Swept, Ended, Own, Posted;
    DueIs(s.queries[q], now);
    WaitersKnown(s, {});
    KeysBelow(s, {});
    var i := FirstDue(s.queries, s.udpw, now);
    var p := s.udpw[i];
    ResentGood(s, p, now);
    ResentDue(s, p, now);
    ResentNext(s, p, now);
    var t := Resent(s, p, now);
    var u := Sweep(t, now);
    if p == q {
      if s.queries[q].retries < UDPMAXRETRIES {
        ResentOnce(s, q, now);
        NotDueAgain(s.queries[q], now, s.nservers);
        DueIs(t.queries[q], now);
      } else {
        ResentLast(s, q, now);
        EndedNotWaiting(s, t, q);
      }
      SweepSpared(t, now, q);
      SweepKeeps(t, now);
      SweptSooner(s, t, u, q, now);
    } else {
      ResentSpared(s, p, now, q);
      ResentKeeps(s, p, now);
      OwnHas(s, t, q);
      if q in t.queries {
        SparedWaits(s, t, q);
        SweepDue(t, now, q);
      } else {
        WaitersKnown(t, {});
        SweepSpared(t, now, q);
      }
      SweptLater(s, t, u, q, now);
    }
  }

  lemma EndedNotWaiting(s: State, t: State, q: Ref)
    requires Ended(s, t, q)
    ensures q !in t.udpw
  {
  }

  lemma SparedWaits(s: State, t: State, q: Ref)
    requires Spared(s, t, q) && q < s.next && q in s.udpw && q in t.queries
    ensures q in s.queries && q in t.udpw && t.queries[q] == s.queries[q]
  {
    hide Posts;
  }

  lemma OwnHas(s: State, t: State, q: Ref)
    requires Own(t.queries) == Own(s.queries) && q in s.queries
    ensures s.queries[q].parent == None ==> q in t.queries
  {
    assert s.queries[q].parent == None ==> q in Own(t.queries);
  }

  // ---- the servers in turn, in every run

  lemma SweepInTurn(s: State, now: int, q: Ref)
    requires Good(s, {}) && InTurn(s, q)
    ensures InTurn(Sweep(s, now), q)
    decreases DueNow(s, now)
  {
    hide Good, Resent, InTurn, Spared;
    WaitersKnown(s, {});
    KeysBelow(s, {});
    var i := FirstDue(s.queries, s.udpw, now);
    if i < |s.udpw| {
      var p := s.udpw[i];
      ResentGood(s, p, now);
      ResentDue(s, p, now);
      ResentInTurn(s, p, now, q);
      SweepInTurn(Resent(s, p, now), now, q);
    }
  }

  lemma ResentInTurn(s: State, p: Ref, now: int, q: Ref)
    requires Good(s, {}) && p in s.udpw && InTurn(s, q)
    ensures p in s.queries && s.nservers > 0 && InTurn(Resent(s, p, now), q)
  {
    ResentGood(s, p, now);
    ResentNext(s, p, now);
    hide Good, InTurn, Spared, Dispatch;
    if p == q {
      WaiterIs(s, p);
      OneUnlinked(s, p);
      DispatchInTurn(Unlinked(s, p), p, now);
    } else {
      ResentSpared(s, p, now, q);
      SparedInTurn(s, Resent(s, p, now), q);
    }
  }

  lemma OneUnlinked(s: State, p: Ref)
    requires InTurn(s, p)
    ensures InTurn(Unlinked(s, p), p)
  {
    hide Posts, Turns, Turn;
  }

  lemma RemovedInTurn(s: State, gone: set<Ref>, q: Ref)
    requires InTurn(s, q)
    ensures InTurn(Removed(s, gone), q)
  {
    hide Posts, Turns, Turn;
  }

  /** An event leaves every query in turn, and a query it makes waits after its first datagram, to server 0. */
  lemma StepInTurn(s: State, e: Event, q: Ref)
    requires Good(s, {}) && Allowed(s, e) && AllInTurn(s)
    ensures var t := Step(s, e);
            InTurn(t, q) && (s.next <= q < t.next && q in t.udpw ==> FirstAsked(t, q))
  {
    StepGood(s, e);
    AllHas(s, q);
    hide Good, Submit, Reply, Sweep, Cancel, Taken, Readable, InTurn, AllInTurn, FirstAsked, Spared;
    match e {
      case Submitted(req, at, mk) => SubmitInTurn(s, req, at, mk, q);
      case Replied(serv, questions, id, body, v, at, mk) =>
        ReplyInTurn(s, serv, questions, id, body, v, at, mk, q);
        WaitersKnown(Step(s, e), {});
      case TimedOut(at) =>
        SweepInTurn(s, at, q);
        SweepNext(s, at);
      case Cancelled(c) => CancelInTurn(s, c, q);
      case Took(c) => RemovedInTurn(s, {c}, q); TakenNext(s, c);
    }
  }

  lemma SweepNext(s: State, now: int)
    requires Good(s, {})
    ensures Sweep(s, now).next == s.next
  {
    KeysBelow(s, {});
    WaitersKnown(s, {});
    hide Good;
    SweepSpared(s, now, s.next);
  }

  lemma CancelInTurn(s: State, c: Ref, q: Ref)
    requires InTurn(s, q)
    ensures InTurn(Cancel(s, c), q) && Cancel(s, c).next == s.next
  {
    hide InTurn;
    RemovedInTurn(s, Below(s.queries, c) + {c}, q);
  }

  lemma TakenNext(s: State, c: Ref)
    ensures Taken(s, c).next == s.next && Taken(s, c) == Removed(s, {c})
  {
  }

  /** In every run, answered or not, the k-th datagram of each query has gone to server k mod nservers. */
  lemma {:induction false} ServersTakeTurns(nservers: nat, nsearch: nat, events: seq<Event>, s: State, own: set<Ref>)
    requires nservers > 0 && Reached(nservers, nsearch, events, s, own)
    ensures AllInTurn(s)
    decreases |events|
  {
    if events == [] {
      StartInTurn(nservers, nsearch);
    } else {
      hide Good, Step, Allowed, Own, Ledger, AllInTurn;
      var e := events[|events| - 1];
      var t, o :| Reached(nservers, nsearch, events[..|events| - 1], t, o) && Good(t, {}) && Allowed(t, e)
        && s == Step(t, e) && own == Ledger(o, t.next, e);
      ServersTakeTurns(nservers, nsearch, events[..|events| - 1], t, o);
      StepAllInTurn(t, e);
    }
  }

  lemma StepAllInTurn(s: State, e: Event)
    requires Good(s, {}) && Allowed(s, e) && AllInTurn(s)
    ensures AllInTurn(Step(s, e))
  {
    hide Good, Step, Allowed, InTurn;
    forall q ensures InTurn(Step(s, e), q) {
      StepInTurn(s, e, q);
    }
  }

  lemma StartInTurn(nservers: nat, nsearch: nat)
    requires nservers > 0
    ensures AllInTurn(Initial(nservers, nsearch))
  {
  }

  // ---- nobody replies

  // The event is no reply taken to answer the query, and does not take the query away.
  ghost predicate Quiet(s: State, e: Event, q: Ref)
    requires Good(s, {})
  {
    match e
    case Replied(serv, questions, id, body, _, _, _) => Target(s, serv, questions, id, body) != Some(q)
    case _ => !Takes(e, q)
  }

  // The event is a sweep that finds the query waiting and due.
  ghost predicate DueAt(s: State, e: Event, q: Ref) {
    e.TimedOut? && q in s.udpw && q in s.queries && s.queries[q].timeout < e.at
  }

  ghost function Finds(s: State, e: Event, q: Ref): nat {
    if DueAt(s, e, q) then 1 else 0
  }

  // These events lead from s to t, nobody answering the query, and n of them found it due.
  ghost predicate Ignored(s: State, q: Ref, events: seq<Event>, n: nat, t: State)
    decreases |events|
  {
    if events == [] then t == s && n == 0
    else
      var e := events[|events| - 1];
      exists u :: Good(u, {}) && Allowed(u, e) && Quiet(u, e, q) && t == Step(u, e) && Finds(u, e, q) <= n
                  && Ignored(s, q, events[..|events| - 1], n - Finds(u, e, q), u)
  }

  lemma StepSpared(s: State, e: Event, q: Ref)
    requires Good(s, {}) && Allowed(s, e) && Quiet(s, e, q) && !DueAt(s, e, q) && q < s.next
    ensures Spared(s, Step(s, e), q)
  {
    hide Good, Submit, Reply, Sweep, Cancel, Taken, Readable, Spared, Target;
    match e {
      case Submitted(req, at, mk) => SubmitSpared(s, req, at, mk, q);
      case Replied(serv, questions, id, body, v, at, mk) =>
        ReplySpared(s, serv, questions, id, body, v, at, mk, q);
      case TimedOut(at) => SweepSpared(s, at, q);
      case Cancelled(c) => CancelIs(s, c); RemovedSpared(s, Below(s.queries, c) + {c}, q);
      case Took(c) => TakenNext(s, c); RemovedSpared(s, {c}, q);
    }
  }

  lemma CancelIs(s: State, c: Ref)
    ensures Cancel(s, c) == Removed(s, Below(s.queries, c) + {c})
  {
  }

  // The query has been ignored at n sweeps, with the datagrams of base before.
  ghost predicate Course(t: State, q: Ref, base: seq<Sent>, spent: nat, n: nat, id: int, question: Bytes, mine: bool) {
    && t.nservers > 0 && q < t.next && spent < UDPMAXRETRIES && spent + n <= UDPMAXRETRIES
    && (q in t.udpw ==> spent + n < UDPMAXRETRIES && Asked(t, q, base, spent, n + 1, id, question)
                        && q in t.queries && (mine <==> t.queries[q].parent == None))
    && (q !in t.udpw && mine ==> spent + n == UDPMAXRETRIES && q in t.output && q in t.queries
                                 && t.queries[q].answer.status == S_TIMEOUT
                                 && Rounded(t, q, base, id, question, n))
    && (q !in t.udpw && !mine ==> q !in t.queries
                                  && exists m :: 1 <= m <= UDPMAXRETRIES - spent
                                                 && Rounded(t, q, base, id, question, m))
  }

  ghost predicate Rounded(t: State, q: Ref, base: seq<Sent>, id: int, question: Bytes, m: nat)
    requires t.nservers > 0
  {
    Posts(t.sent, q) == base + Round(q, id, question, t.nservers, |base|, m)
  }

  lemma WaitsOn(u: State, t: State, q: Ref, base: seq<Sent>, spent: nat, n: nat, id: int, question: Bytes, mine: bool)
    requires Course(u, q, base, spent, n, id, question, mine) && Spared(u, t, q) && q in u.udpw
    requires mine ==> q in t.queries
    requires Good(t, {})
    ensures Course(t, q, base, spent, n, id, question, mine)
  {
    hide Posts, Round, Turn;
    WaitersKnown(t, {});
    hide Good;
    if q !in t.udpw {
      assert Rounded(t, q, base, id, question, n + 1);
    }
  }

  lemma StaysEnded(u: State, t: State, q: Ref, base: seq<Sent>, spent: nat, n: nat, id: int, question: Bytes,
                   mine: bool)
    requires Course(u, q, base, spent, n, id, question, mine) && Spared(u, t, q) && q !in u.udpw
    requires q in u.output ==> q in t.output && q in u.queries && q in t.queries && t.queries[q] == u.queries[q]
    ensures Course(t, q, base, spent, n, id, question, mine)
  {
    hide Posts, Round, Turn;
    if !mine {
      var m :| 1 <= m <= UDPMAXRETRIES - spent && Rounded(u, q, base, id, question, m);
      assert Rounded(t, q, base, id, question, m);
    }
  }

  lemma GoesOn(u: State, t: State, q: Ref, base: seq<Sent>, spent: nat, n: nat, id: int, question: Bytes, mine: bool,
               now: int)
    requires Course(u, q, base, spent, n, id, question, mine)
    requires q in u.udpw && q in u.queries && Swept(u, t, q, now)
    requires mine ==> q in t.queries
    requires t.next == u.next && t.nservers == u.nservers && Good(t, {})
    ensures Course(t, q, base, spent, n + 1, id, question, mine)
  {
    hide Posts, Round, Turn;
    WaitersKnown(t, {});
    hide Good;
    var d := Sent(q, u.queries[q].nextServer, id, question);
    RoundMore(q, id, question, u.nservers, |base|, n + 1);
    PlusOne(base, Round(q, id, question, u.nservers, |base|, n + 1), d);
    NextTurn(|base| + (n + 1), u.nservers);
    if q !in t.queries {
      assert Rounded(t, q, base, id, question, n + 1) || Rounded(t, q, base, id, question, n + 2);
    }
  }

  lemma PlusOne<T>(a: seq<T>, b: seq<T>, x: T)
    ensures a + b + [x] == a + (b + [x])
  {
  }

  lemma SweepServers(s: State, now: int)
    requires Good(s, {})
    ensures Sweep(s, now).nservers == s.nservers
  {
    KeysBelow(s, {});
    WaitersKnown(s, {});
    hide Good;
    SweepSpared(s, now, s.next);
  }

  lemma StepCourse(u: State, e: Event, q: Ref, base: seq<Sent>, spent: nat, n: nat, id: int, question: Bytes,
                   mine: bool)
    requires Good(u, {}) && Allowed(u, e) && Quiet(u, e, q) && Course(u, q, base, spent, n, id, question, mine)
    ensures Course(Step(u, e), q, base, spent, n + Finds(u, e, q), id, question, mine)
  {
    hide Good, Sweep, Spared, Swept, Asked, Own, Posts, Round;
    var t := Step(u, e);
    QuietTakes(u, e, q);
    StepGood(u, e);
    StepKeeps(u, e);
    if q in u.udpw && mine {
      OwnStep(u, t, e, q);
    }
    if DueAt(u, e, q) {
      SweepDue(u, e.at, q);
      SweepNext(u, e.at);
      SweepServers(u, e.at);
      GoesOn(u, t, q, base, spent, n, id, question, mine, e.at);
    } else {
      StepSpared(u, e, q);
      if q in u.udpw {
        WaitsOn(u, t, q, base, spent, n, id, question, mine);
      } else {
        StaysEnded(u, t, q, base, spent, n, id, question, mine);
      }
    }
  }

  lemma QuietTakes(s: State, e: Event, q: Ref)
    requires Good(s, {}) && Quiet(s, e, q)
    ensures !Takes(e, q)
  {
  }

  lemma OwnStep(u: State, t: State, e: Event, q: Ref)
    requires q in u.queries && u.queries[q].parent == None && !Takes(e, q)
    requires Own(t.queries) == Ledger(Own(u.queries), u.next, e)
    ensures q in t.queries
  {
    assert q in Own(u.queries);
    assert q in Own(t.queries);
  }

  lemma {:induction false} IgnoredCourse(s: State, q: Ref, events: seq<Event>, n: nat, t: State, base: seq<Sent>,
                                         spent: nat, id: int, question: Bytes, mine: bool)
    requires Course(s, q, base, spent, 0, id, question, mine) && Ignored(s, q, events, n, t)
    ensures Course(t, q, base, spent, n, id, question, mine)
    decreases |events|
  {
    hide Good, Step, Allowed, Quiet, Course, DueAt;
    if events != [] {
      var e := events[|events| - 1];
      var u :| Good(u, {}) && Allowed(u, e) && Quiet(u, e, q) && t == Step(u, e) && Finds(u, e, q) <= n
               && Ignored(s, q, events[..|events| - 1], n - Finds(u, e, q), u);
      var m := n - Finds(u, e, q);
      IgnoredCourse(s, q, events[..|events| - 1], m, u, base, spent, id, question, mine);
      StepCourse(u, e, q, base, spent, m, id, question, mine);
    }
  }

  /**
   * A query made and sent in any run, and answered by nobody since, whatever else went on: at n sweeps that found it
   * due, n is at most fifteen. Before the fifteenth it waits after n + 1 datagrams, all alike, to servers 0, 1, 2 and
   * so on in turn. At the fifteenth a query of the caller's is done with a timeout after exactly fifteen datagrams.
   * One made for another query leaves the table, then or with its family, after fifteen at most.
   */
  lemma Unanswered(nservers: nat, nsearch: nat, before: seq<Event>, s: State, own: set<Ref>, e: Event, q: Ref,
                   events: seq<Event>, n: nat, t: State)
    requires nservers > 0 && Reached(nservers, nsearch, before, s, own) && Good(s, {}) && Allowed(s, e)
    requires s.next <= q < Step(s, e).next && q in Step(s, e).udpw && Ignored(Step(s, e), q, events, n, t)
    ensures q in Step(s, e).queries
    ensures var x := Step(s, e).queries[q];
            FirstAsked(Step(s, e), q) && Course(t, q, [], 0, n, x.id, x.question, x.parent == None)
  {
    hide Good, Step, Allowed, AllInTurn, Course, Ignored;
    ServersTakeTurns(nservers, nsearch, before, s, own);
    StepInTurn(s, e, q);
    StepGood(s, e);
    var u := Step(s, e);
    WaitersKnown(u, {});
    Begins(u, q, [], 0);
    IgnoredCourse(u, q, events, n, t, [], 0, u.queries[q].id, u.queries[q].question, u.queries[q].parent == None);
  }

  lemma Begins(u: State, q: Ref, base: seq<Sent>, spent: nat)
    requires AskedOnce(u, q, base, spent) && q < u.next
    ensures q in u.queries
    ensures Course(u, q, base, spent, 0, u.queries[q].id, u.queries[q].question, u.queries[q].parent == None)
  {
  }
}
