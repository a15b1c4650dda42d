/** The resolver itself: the calls and the procedures under them, working on its fields. */
module AdnsResolver {
  import opened Text
  import opened Sequences
  import opened AdnsState
  import opened AdnsFinish
  import opened AdnsOps
  import opened AdnsSweep
  import opened AdnsOutcome
  import opened AdnsReply
  import opened AdnsRemoval

  class Resolver {
    var queries: map<Ref, Query>
    var udpw: seq<Ref>
    var childw: seq<Ref>
    var output: seq<Ref>
    var next: Ref
    var sent: seq<Sent>
    const nservers: nat
    const nsearch: nat

    ghost function S(): State
      reads this
    {
      State(queries, udpw, childw, output, next, sent, nservers, nsearch)
    }

    constructor (nservers: nat, nsearch: nat)
      requires nservers > 0
      ensures Good(S(), {}) && queries == map[] && this.nservers == nservers && this.nsearch == nsearch
    {
      queries, udpw, childw, output, next, sent := map[], [], [], [], 0, [];
      this.nservers, this.nsearch := nservers, nsearch;
    }

    // DLIST_UNLINK from the queue of its phase
    method Unlink(q: Ref, ghost off: set<Ref>)
      requires q in queries && Good(S(), off)
      modifies this`udpw, this`childw, this`output
      ensures S() == Unlinked(old(S()), q)
    {
      hide Good, Drop;
      OneQueue(S(), off, q);
      match queries[q].phase
      case ToSend => udpw := Drop(udpw, {q});
      case ChildW => childw := Drop(childw, {q});
      case Done => output := Drop(output, {q});
    }

    // DLIST_UNLINK_PART from the parent's children, and the end of the query
    method Orphan(q: Ref)
      requires q in queries
      modifies this`queries
      ensures queries == Orphaned(old(queries), q)
    {
      if queries[q].parent.Some? && queries[q].parent.value in queries {
        var p := queries[q].parent.value;
        queries := queries[p := queries[p].(children := Drop(queries[p].children, {q}))];
      }
      queries := queries - {q};
    }

    // adns_cancel; the parent, if any, is being processed
    method CancelQuery(q: Ref, ghost off: set<Ref>)
      requires Good(S(), off) && q in queries && (queries[q].parent.Some? ==> queries[q].parent.value in off)
      modifies this`queries, this`udpw, this`childw, this`output
      ensures S() == Removed(old(S()), Below(old(queries), q) + {q})
      ensures Good(S(), off)
      decreases if q < next then next - q else 0, 1
    {
      hide Good, Drop, Below, Removed, Orphaned;
      ghost var s := S();
      FamilyIn(s, off);
      BelowAllIsClosed(queries, off, q);
      RemovedGood(s, off, Below(queries, q) + {q});
      UnlinkedGood(s, off, q);
      CancelledIs(s, off, q);
      Unlink(q, off);
      CancelChildren(q, off + {q});
      Orphan(q);
    }

    // cancel_children
    method CancelChildren(q: Ref, ghost off: set<Ref>)
      requires Good(S(), off) && q in queries && q in off
      modifies this`queries, this`udpw, this`childw, this`output
      ensures S() == CancelBelow(old(S()), q) && Good(S(), off)
      decreases if q < next then next - q else 0, 0
    {
      ghost var s, gone: set<Ref> := S(), {};
      FamilyIn(s, off);
      NoneGone(s);
      hide Good, Drop, Below, Removed;
      while queries[q].children != []
        invariant q in queries && Good(S(), off) && S() == Removed(s, gone) && PartOf(s, q, gone)
        invariant next == s.next
        decreases |queries[q].children|
      {
        var c := queries[q].children[0];
        FirstChild(S(), off, q);
        ghost var more := Below(queries, c) + {c};
        MoreGone(s, S(), off, q, c, gone);
        FewerLeft(S(), q, more);
        CancelQuery(c, off);
        gone := gone + more;
      }
      ChildrenGone(s, S(), off, q, gone);
      AllGone(s, q, gone);
    }

    // adns__query_done
    method QueryDone(q: Ref)
      requires Good(S(), {q}) && q in queries
      modifies this`queries, this`udpw, this`childw, this`output
      ensures S() == Finish(old(S()), q) && Good(S(), {})
      decreases q, 0
    {
      hide Good, Drop, Below, Removed, Callback, Under, Waiting, Serves;
      FinishGood(S(), q);
      CancelGood(S(), {q}, q);
      CancelChildren(q, {q});
      var x := queries[q];
      if x.parent == None {
        queries := queries[q := x.(phase := Done, id := -1)];
        output := output + [q];
      } else {
        var p := x.parent.value;
        HandsOver(S(), p, q);
        Part(p, q);
        RunCallback(p, x.kind, x.answer);
      }
    }

    // The child out of its parent's list and the table, the parent off its queue.
    method Part(p: Ref, q: Ref)
      requires Good(S(), {q}) && q in queries && p in queries && p < q && queries[q].parent == Some(p)
      requires queries[q].children == []
      modifies this`queries, this`udpw, this`childw, this`output
      ensures S() == Parted(old(S()), p, q)
    {
      hide Good, Drop, Orphaned, Below;
      PartedBy(S(), p, q);
      Unlink(p, {q});
      Orphan(q);
    }

    // The callback of a child's context, on its parent.
    method RunCallback(p: Ref, kind: Kind, a: Answer)
      requires Good(S(), {p}) && Waiting(S(), p) && Serves(queries[p], kind)
      modifies this`queries, this`udpw, this`childw, this`output
      ensures S() == Callback(old(S()), p, kind, a) && Good(S(), {})
      decreases p, 3
    {
      hide Good, Drop, Below, Removed, Finish, Fail;
      CallbackGood(S(), p, kind, a);
      match kind {
        case ForPtr =>
          if a.status == S_NXDOMAIN || a.status == S_NODATA {
            QueryFail(p, S_INCONSISTENT);
          } else if a.status != S_OK {
            QueryFail(p, a.status);
          } else {
            var found := Includes(a.addrs, queries[p].answer.expected.value);
            if !found {
              QueryFail(p, S_INCONSISTENT);
            } else if queries[p].children == [] {
              QueryDone(p);
            } else {
              childw := childw + [p];
            }
          }
        case ForHost(slot) =>
          var x := queries[p];
          var naddrs := if 0 < a.status <= S_MAX_TEMPFAIL then -1 else |a.addrs|;
          var host := Host(a.status, naddrs, a.addrs);
          HostGood(S(), p, slot, a);
          queries := queries[p := x.(answer := x.answer.(hosts := x.answer.hosts[slot := host]))];
          if queries[p].children != [] {
            childw := childw + [p];
          } else {
            QueryDone(p);
          }
      }
    }

    lemma HostGood(s: State, p: Ref, slot: nat, a: Answer)
      requires Good(s, {p}) && Waiting(s, p) && Serves(s.queries[p], ForHost(slot))
      ensures slot < |s.queries[p].answer.hosts|
      ensures Good(With(s, p, SetHost(s.queries[p], slot, HostOf(a))), {p})
    {
      WithGood(s, {p}, p, SetHost(s.queries[p], slot, HostOf(a)));
    }

    // adns__query_fail
    method QueryFail(q: Ref, status: int)
      requires Good(S(), {q}) && q in queries
      modifies this`queries, this`udpw, this`childw, this`output
      ensures S() == Fail(old(S()), q, status) && Good(S(), {})
      decreases q, 1
    {
      hide Good, Drop, Below, Removed, Finish;
      FailGood(S(), q, status);
      CancelGood(S(), {q}, q);
      CancelChildren(q, {q});
      var x := queries[q];
      var y := x.(answer := x.answer.(addrs := [], hosts := [], status := status));
      FailedGood(S(), q, y);
      queries := queries[q := y];
      QueryDone(q);
    }

    lemma FailedGood(s: State, q: Ref, y: Query)
      requires Good(s, {q}) && q in s.queries && s.queries[q].children == [] && y == s.queries[q].(answer := y.answer)
      ensures Good(With(s, q, y), {q})
    {
      assert Ranged(s.nservers, s.nsearch, s.queries[q]);
      AloneGood(s, {q}, q, y);
    }

    // The loop of icb_ptr over the addresses found.
    method Includes(addrs: seq<Addr>, wanted: Addr) returns (found: bool)
      ensures found <==> wanted in addrs
    {
      found := false;
      var i := 0;
      while i < |addrs|
        invariant 0 <= i <= |addrs| && !found
        invariant forall j :: 0 <= j < i ==> addrs[j] != wanted
      {
        if addrs[i] == wanted { return true; }
        i := i + 1;
      }
    }

    // adns__query_send: a datagram to the server whose turn it is, with a second and a half to answer; times out
    // after fifteen.
    method QuerySend(q: Ref, now: int)
      requires Good(S(), {q}) && Sendable(S(), q) && nservers > 0
      modifies this`queries, this`udpw, this`childw, this`output, this`sent
      ensures S() == Dispatch(old(S()), q, now) && Good(S(), {})
      ensures var x := old(queries[q]);
        x.retries < 15 ==>
          && sent == old(sent) + [Sent(q, x.nextServer, x.id, x.question)] && udpw == old(udpw) + [q]
          && queries == old(queries)[q := x.(timeout := now + 1500000, sentTo := x.sentTo + {x.nextServer},
                                             nextServer := (x.nextServer + 1) % nservers, retries := x.retries + 1)]
      ensures old(queries[q]).retries >= 15 && old(queries[q]).parent == None ==>
                q in queries && queries[q].answer.status == S_TIMEOUT && output == old(output) + [q]
    {
      hide Good, Fail;
      DispatchGood(S(), q, now);
      var x := queries[q];
      if x.retries >= UDPMAXRETRIES {
        if x.parent == None { FailRoot(S(), q, S_TIMEOUT); }
        QueryFail(q, S_TIMEOUT);
        return;
      }
      var serv := x.nextServer;
      sent := sent + [Sent(q, serv, x.id, x.question)];
      queries := queries[q := x.(timeout := now + 1000 * UDPRETRYMS, sentTo := x.sentTo + {serv},
                                 nextServer := (serv + 1) % nservers, retries := x.retries + 1)];
      udpw := udpw + [q];
    }

    // query_simple and query_submit
    method QuerySimple(q: Ref, c: Candidate, now: int, mk: Candidate -> Made)
      requires Good(S(), {q}) && Idle(S(), q) && nservers > 0
      modifies this`queries, this`udpw, this`childw, this`output, this`sent
      ensures S() == Try(old(S()), q, c, now, mk) && Good(S(), {})
      decreases Left(queries[q].search, nsearch), 1
    {
      hide Good, Fail, Dispatch, AdnsOps.SearchNext;
      TryGood(S(), q, c, now, mk);
      match mk(c) {
        case Unmade(status) =>
          if status == S_QUERYDOMAINTOOLONG && queries[q].search.on {
            SearchNext(q, now, mk);
          } else {
            QueryFail(q, status);
          }
        case Made(id, question) =>
          MadeGood(S(), q, id, question);
          queries := queries[q := queries[q].(id := id, question := question)];
          QuerySend(q, now);
      }
    }

    lemma MadeGood(s: State, q: Ref, id: nat, question: Bytes)
      requires Good(s, {q}) && Idle(s, q)
      ensures var t := With(s, q, s.queries[q].(id := id, question := question)); Good(t, {q}) && Sendable(t, q)
    {
      assert Ranged(s.nservers, s.nsearch, s.queries[q]);
      AloneGood(s, {q}, q, s.queries[q].(id := id, question := question));
    }

    // adns__search_next
    method SearchNext(q: Ref, now: int, mk: Candidate -> Made)
      requires Good(S(), {q}) && Idle(S(), q) && nservers > 0
      modifies this`queries, this`udpw, this`childw, this`output, this`sent
      ensures S() == AdnsOps.SearchNext(old(S()), q, now, mk) && Good(S(), {})
      decreases Left(queries[q].search, nsearch), 0
    {
      hide Good, Fail, Try;
      SearchGood(S(), q, now, mk);
      SteppedGood(S(), q);
      var x := queries[q].search;
      var c: Candidate := None;
      if x.doneAbs < 0 {
        x := x.(doneAbs := 1);
      } else if x.pos >= nsearch {
        if x.doneAbs != 0 {
          QueryFail(q, S_NXDOMAIN);
          return;
        }
        x := x.(doneAbs := 1);
      } else {
        c := Some(x.pos);
        x := x.(pos := x.pos + 1);
      }
      queries := queries[q := queries[q].(search := x)];
      QuerySimple(q, c, now, mk);
    }

    lemma SteppedGood(s: State, q: Ref)
      requires Good(s, {q}) && Idle(s, q)
      ensures Candidates(s.queries[q].search, s.nsearch) != [] ==>
        var t := With(s, q, s.queries[q].(search := Tried(s.queries[q].search, s.nsearch))); Good(t, {q}) && Idle(t, q)
    {
      GoodHas(s, {q}, q);
      if Candidates(s.queries[q].search, s.nsearch) != [] {
        TriedFits(s.queries[q], s.nservers, s.nsearch);
        AloneGood(s, {q}, q, s.queries[q].(search := Tried(s.queries[q].search, s.nsearch)));
      }
    }

    /** adns_submit: the query returned is sent or answered, and the resolver is consistent. */
    method SubmitQuery(req: Request, now: int, mk: Candidate -> Made) returns (q: Ref)
      requires Good(S(), {})
      modifies this
      ensures nservers > 0 && q == old(next) && S() == Submit(old(S()), req, now, mk) && Good(S(), {})
    {
      hide Good, Fail, Try, AdnsOps.SearchNext, Ranged;
      SubmitGood(S(), req, now, mk);
      q := next;
      var search := Search(false, 0, 0);
      if req.Searching? { search := Search(true, 0, if req.absFirst then -1 else 0); }
      NewRanged(search);
      AllocatedGood(S(), {}, NewQuery(None, External, -2, [], search));
      assert {} + {q} == {q};
      queries := queries[q := NewQuery(None, External, -2, [], search)];
      next := next + 1;
      match req
      case Refused(status) => QueryFail(q, status);
      case Plain => QuerySimple(q, None, now, mk);
      case Searching(absFirst) => SearchNext(q, now, mk);
    }

    lemma NewRanged(search: Search)
      requires search.pos == 0 && nservers > 0
      ensures Ranged(nservers, nsearch, NewQuery(None, External, -2, [], search))
    {
    }

    /** timeouts_queue, acting, on the queries waiting for replies: it ends, and leaves none that is due. */
    method TimeoutsQueue(now: int)
      requires Good(S(), {})
      modifies this
      ensures S() == Sweep(old(S()), now) && Good(S(), {})
      ensures forall r :: r in udpw ==> r in queries && now <= queries[r].timeout
    {
      hide Good, Dispatch;
      SweepSettles(S(), now);
      WaitersKnown(S(), {});
      ghost var end := Sweep(S(), now);
      var i := 0;
      while i < |udpw|
        invariant Good(S(), {}) && Sweep(S(), now) == end
        invariant 0 <= i <= |udpw| && (forall r :: r in udpw ==> r in queries)
        invariant forall j :: 0 <= j < i ==> !Expired(queries[udpw[j]], now)
        decreases DueNow(S(), now), |udpw| - i
      {
        var q := udpw[i];
        if !Expired(queries[q], now) {
          i := i + 1;
        } else {
          FirstIs(queries, udpw, now, i);
          WaiterIs(S(), q);
          ResentGood(S(), q, now);
          ResentDue(S(), q, now);
          Unlink(q, {});
          QuerySend(q, now);
          WaitersKnown(S(), {});
          i := 0;
        }
      }
      FirstIs(queries, udpw, now, i);
    }

    lemma FirstIs(t: Table, w: seq<Ref>, now: int, i: nat)
      requires (forall r :: r in w ==> r in t) && i <= |w| && (i < |w| ==> Expired(t[w[i]], now))
      requires forall j :: 0 <= j < i ==> !Expired(t[w[j]], now)
      ensures FirstDue(t, w, now) == i
    {
    }

    // The child queries that an answer's records need, in turn.
    method SubmitKids(q: Ref, kids: seq<Kid>, now: int)
      requires Good(S(), {q}) && q in queries && nservers > 0 && forall k :: k in kids ==> Serves(queries[q], k.kind)
      modifies this`queries, this`udpw, this`next, this`sent
      ensures S() == AddKids(old(S()), q, kids, now) && Good(S(), {q}) && q in queries
    {
      hide Good, AddKid, Serves;
      AddKidsGood(S(), q, kids, now);
      ghost var end := AddKids(S(), q, kids, now);
      var i := 0;
      while i < |kids|
        invariant 0 <= i <= |kids| && q in queries && Good(S(), {q})
        invariant AddKids(S(), q, kids[i..], now) == end
        invariant forall k :: k in kids ==> Serves(queries[q], k.kind)
      {
        GoodHas(S(), {q}, q);
        AddKidGood(S(), q, kids[i], now);
        StillServes(queries[q], queries[q].(children := queries[q].children + [next]), kids);
        assert kids[i..][1..] == kids[i + 1..] && kids[i..][0] == kids[i];
        SubmitKid(q, kids[i], now);
        i := i + 1;
      }
    }

    lemma StillServes(x: Query, y: Query, kids: seq<Kid>)
      requires x.answer == y.answer && forall k :: k in kids ==> Serves(x, k.kind)
      ensures forall k :: k in kids ==> Serves(y, k.kind)
    {
    }

    // adns__internal_submit: a fresh query, sent at once, and then given to its parent
    method SubmitKid(q: Ref, kid: Kid, now: int)
      requires q in queries && q < next && nservers > 0
      modifies this`queries, this`udpw, this`next, this`sent
      ensures S() == AddKid(old(S()), q, kid, now)
    {
      assert Child(q, kid, now, nservers).sentTo == {0};
      var c := next;
      sent := sent + [Sent(c, 0, kid.id, kid.question)];
      queries := queries[c := Query(ToSend, Some(q), [], kid.kind, kid.id, kid.question, 1, 1 % nservers, {0},
                                    now + 1000 * UDPRETRYMS, Search(false, 0, 0), Answer(S_OK, [], [], None))];
      udpw := udpw + [c];
      queries := queries[q := queries[q].(children := queries[q].children + [c])];
      next := next + 1;
    }

    // What becomes of a query whose answer has been read.
    method SettleQuery(q: Ref, trouble: Option<int>)
      requires Good(S(), {q}) && q in queries && queries[q].id >= 0
      modifies this`queries, this`udpw, this`childw, this`output
      ensures S() == Settle(old(S()), q, trouble) && Good(S(), {})
    {
      hide Good, Fail, Finish;
      SettleGood(S(), q, trouble);
      if trouble.Some? {
        QueryFail(q, trouble.value);
      } else if queries[q].children != [] {
        queries := queries[q := queries[q].(phase := ChildW)];
        childw := childw + [q];
      } else {
        QueryDone(q);
      }
    }

    // adns__procdgram once the query is off its queue
    method ReadReply(q: Ref, v: Verdict, now: int, mk: Candidate -> Made)
      requires Good(S(), {q}) && Sendable(S(), q) && Readable(queries[q], v) && nservers > 0
      modifies this
      ensures S() == Answered(old(S()), q, v, now, mk) && Good(S(), {})
    {
      hide Good, Fail, AdnsOps.SearchNext, Dispatch, AddKids, Settle, Serves, Ranged;
      AnsweredGood(S(), q, v, now, mk);
      var x := queries[q];
      match v {
        case Failed(status) => QueryFail(q, status);
        case NoName =>
          if x.search.on {
            SearchNext(q, now, mk);
          } else {
            QueryFail(q, S_NXDOMAIN);
          }
        case Again(Some(Unmade(status))) => QueryFail(q, status);
        case Again(None) => Restart(q, x.id, x.question, now);
        case Again(Some(Made(id, question))) => Restart(q, id, question, now);
        case Found(addrs, hosts, expected, kids, trouble) =>
          FoundGood(S(), q, v);
          var wanted := if x.answer.expected.Some? then x.answer.expected else expected;
          queries := queries[q := x.(answer := x.answer.(addrs := addrs, hosts := hosts, expected := wanted))];
          AddKidsGood(S(), q, kids, now);
          SubmitKids(q, kids, now);
          SettleQuery(q, trouble);
      }
    }

    lemma FoundGood(s: State, q: Ref, v: Verdict)
      requires Good(s, {q}) && Sendable(s, q) && v.Found?
      ensures Good(With(s, q, Answer0(s.queries[q], v)), {q})
    {
      assert Ranged(s.nservers, s.nsearch, s.queries[q]);
      AloneGood(s, {q}, q, Answer0(s.queries[q], v));
    }

    // x_restartquery
    method Restart(q: Ref, id: nat, question: Bytes, now: int)
      requires Good(S(), {q}) && Sendable(S(), q) && nservers > 0
      modifies this`queries, this`udpw, this`childw, this`output, this`sent
      ensures S() == Dispatch(With(old(S()), q, Restarted(old(queries)[q].(id := id, question := question))), q, now)
      ensures Good(S(), {})
    {
      hide Good, Dispatch;
      RestartGood(S(), q, id, question);
      var x := queries[q];
      var answer := x.answer.(addrs := [], hosts := []);
      queries := queries[q := x.(id := id, question := question, retries := 0, answer := answer)];
      QuerySend(q, now);
    }

    lemma RestartGood(s: State, q: Ref, id: nat, question: Bytes)
      requires Good(s, {q}) && Sendable(s, q)
      ensures var t := With(s, q, Restarted(s.queries[q].(id := id, question := question)));
        Good(t, {q}) && Sendable(t, q)
    {
      assert Ranged(s.nservers, s.nsearch, s.queries[q]);
      AloneGood(s, {q}, q, Restarted(s.queries[q].(id := id, question := question)));
    }

    /** adns__procdgram: the first query waiting that the reply answers is dealt with, and no other. */
    method ProcDgram(serv: nat, questions: nat, id: int, body: Bytes, v: Verdict, now: int, mk: Candidate -> Made)
      requires Good(S(), {}) && forall r :: r in queries ==> Readable(queries[r], v)
      modifies this
      ensures S() == Reply(old(S()), serv, questions, id, body, v, now, mk) && Good(S(), {})
    {
      hide Good, Answered, Readable;
      ReplyGood(S(), serv, questions, id, body, v, now, mk);
      WaitersKnown(S(), {});
      if questions != 1 {
        return;
      }
      var i := 0;
      while i < |udpw| && !Answers(queries[udpw[i]], serv, id, body)
        invariant 0 <= i <= |udpw|
        invariant forall j :: 0 <= j < i ==> !Answers(queries[udpw[j]], serv, id, body)
      {
        i := i + 1;
      }
      MatchIs(queries, udpw, serv, id, body, i);
      if i == |udpw| {
        return;
      }
      var q := udpw[i];
      WaiterIs(S(), q);
      Unlink(q, {});
      ReadReply(q, v, now, mk);
    }

    lemma MatchIs(t: Table, w: seq<Ref>, serv: nat, id: int, body: Bytes, i: nat)
      requires (forall r :: r in w ==> r in t) && i <= |w| && (i < |w| ==> Answers(t[w[i]], serv, id, body))
      requires forall j :: 0 <= j < i ==> !Answers(t[w[j]], serv, id, body)
      ensures FirstAnswered(t, w, serv, id, body) == i
    {
    }

    /** adns_cancel on a query of the caller's: it goes with everything made for it, and nothing else changes. */
    method CancelOwn(q: Ref)
      requires Good(S(), {}) && q in queries && queries[q].parent == None
      modifies this`queries, this`udpw, this`childw, this`output
      ensures S() == Cancel(old(S()), q) && Good(S(), {})
    {
      CancelQuery(q, {});
    }

    /** adns__internal_check: the answer asked for, or the first to be had, leaves with its query; or what there is
        to wait for. */
    method CheckQuery(which: Option<Ref>) returns (c: Check)
      requires Good(S(), {}) && (which.Some? ==> which.value in queries)
      modifies this`queries, this`udpw, this`childw, this`output
      ensures forall r :: r in old(output) ==> r in old(queries)
      ensures match which
        case Some(q) =>
          c == if old(queries[q]).id >= 0 then NotYet else Collected(q, old(queries[q]).answer)
        case None =>
          c == if old(output) != [] then Collected(old(output)[0], old(queries)[old(output)[0]].answer)
               else if old(udpw) != [] then NotYet
               else NoneLeft
      ensures S() == (if c.Collected? then Taken(old(S()), c.query) else old(S())) && Good(S(), {})
      ensures c.Collected? ==>
                queries == old(queries) - {c.query} && output == Drop(old(output), {c.query}) && c.query in old(output)
      ensures c.NoneLeft? ==> queries == map[]
    {
      hide Good, Removed;
      HeadDone(S());
      var q: Ref;
      if which == None {
        if output != [] {
          q := output[0];
        } else if udpw != [] {
          return NotYet;
        } else {
          NothingLeft(S());
          return NoneLeft;
        }
      } else {
        q := which.value;
        if queries[q].id >= 0 { return NotYet; }
      }
      c := Collected(q, queries[q].answer);
      CollectKeeps(S(), q);
      TakenIs(S(), q);
      Unlink(q, {});
      queries := queries - {q};
    }

    lemma HeadDone(s: State)
      requires Good(s, {})
      ensures forall r :: r in s.output ==> r in s.queries && s.queries[r].id < 0
    {
      assert Queue(s, {}, Done);
      forall r | r in s.output ensures r in s.queries && s.queries[r].id < 0 { assert Settled(s.queries[r]); }
    }

    lemma TakenIs(s: State, q: Ref)
      requires Good(s, {}) && q in s.queries && s.queries[q].id < 0
      ensures Taken(s, q) == Unlinked(s, q).(queries := s.queries - {q})
    {
      assert Settled(s.queries[q]);
      FamilyIn(s, {});
      OrphanedIs(s.queries, q, {});
      TableWithoutNone(s.queries);
      assert {} + {q} == {q};
      hide Good, Drop;
    }
  }
}
