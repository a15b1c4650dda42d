/** Sending, searching, submitting, answering, cancelling and collecting queries. */
module AdnsOps {
  import opened Text
  import opened Sequences
  import opened AdnsState
  import opened AdnsFinish

  // ---- sending

  // What adns__query_send changes in a query it sends.
  function Posted(x: Query, now: int, nservers: nat): Query
    requires nservers > 0
  {
    x.(timeout := now + 1000 * UDPRETRYMS, sentTo := x.sentTo + {x.nextServer},
       nextServer := (x.nextServer + 1) % nservers, retries := x.retries + 1)
  }

  function Mailed(s: State, q: Ref): State
    requires q in s.queries
  {
    var x := s.queries[q];
    s.(sent := s.sent + [Sent(q, x.nextServer, x.id, x.question)])
  }

  // adns__query_send, over UDP
  ghost function Dispatch(s: State, q: Ref, now: int): State
    requires q in s.queries && s.nservers > 0
  {
    var x := s.queries[q];
    if x.retries >= UDPMAXRETRIES then Fail(s, q, S_TIMEOUT)
    else Linked(With(Mailed(s, q), q, Posted(x, now, s.nservers)), q)
  }

  // A query that may be sent: tosend/NONE.
  ghost predicate Sendable(s: State, q: Ref) {
    q in s.queries && s.queries[q].phase == ToSend && s.queries[q].children == [] && s.queries[q].id >= 0
  }

  lemma PostedRanged(nservers: nat, nsearch: nat, x: Query, now: int)
    requires Ranged(nservers, nsearch, x) && x.retries < UDPMAXRETRIES && nservers > 0
    ensures Ranged(nservers, nsearch, Posted(x, now, nservers))
  {
  }

  lemma MailedGood(s: State, off: set<Ref>, q: Ref)
    requires Good(s, off) && q in s.queries
    ensures Good(Mailed(s, q), off)
  {
    hide Distinct, Family, Phases, Kinds, Ranged;
  }

  lemma DispatchGood(s: State, q: Ref, now: int)
    requires Good(s, {q}) && Sendable(s, q)
    ensures s.nservers > 0 && Good(Dispatch(s, q, now), {})
  {
    assert s.nservers > 0 && Ranged(s.nservers, s.nsearch, s.queries[q]);
    hide Good, Ranged;
    if s.queries[q].retries >= UDPMAXRETRIES {
      FailGood(s, q, S_TIMEOUT);
    } else {
      var t, y := Mailed(s, q), Posted(s.queries[q], now, s.nservers);
      MailedGood(s, {q}, q);
      PostedRanged(s.nservers, s.nsearch, s.queries[q], now);
      AloneGood(t, {q}, q, y);
      PostedSettled(s.queries[q], now, s.nservers);
      LinkedGood(With(t, q, y), {q}, q);
      assert {q} - {q} == {};
    }
  }

  lemma PostedSettled(x: Query, now: int, nservers: nat)
    requires x.phase == ToSend && x.children == [] && x.id >= 0 && nservers > 0
    ensures Settled(Posted(x, now, nservers))
  {
    assert x.nextServer in Posted(x, now, nservers).sentTo;
  }

  // ---- the search list

  // What adns__mkquery makes of a name: a message with its id, or a status.
  datatype Made = Made(id: nat, question: Bytes) | Unmade(status: int)

  // A name to try: with an entry of the search list appended, or as it stands.
  type Candidate = Option<nat>

  // query_simple, with what it makes of the name
  ghost function Try(s: State, q: Ref, c: Candidate, now: int, mk: Candidate -> Made): State
    requires q in s.queries && s.nservers > 0
    decreases Left(s.queries[q].search, s.nsearch), 1
  {
    match mk(c)
    case Made(id, question) => Dispatch(With(s, q, s.queries[q].(id := id, question := question)), q, now)
    case Unmade(status) =>
      if status == S_QUERYDOMAINTOOLONG && s.queries[q].search.on then SearchNext(s, q, now, mk) else Fail(s, q, status)
  }

  // How many names are left to try.
  function Left(x: Search, nsearch: nat): nat {
    (if x.pos < nsearch then nsearch - x.pos else 0) + (if x.doneAbs <= 0 then 1 else 0)
  }

  // adns__search_next
  ghost function SearchNext(s: State, q: Ref, now: int, mk: Candidate -> Made): State
    requires q in s.queries && s.nservers > 0
    decreases Left(s.queries[q].search, s.nsearch), 0
  {
    var x := s.queries[q];
    if x.search.doneAbs < 0 then Try(With(s, q, x.(search := x.search.(doneAbs := 1))), q, None, now, mk)
    else if x.search.pos >= s.nsearch then
      if x.search.doneAbs != 0 then Fail(s, q, S_NXDOMAIN)
      else Try(With(s, q, x.(search := x.search.(doneAbs := 1))), q, None, now, mk)
    else Try(With(s, q, x.(search := x.search.(pos := x.search.pos + 1))), q, Some(x.search.pos), now, mk)
  }

  // The entries of the search list from one on.
  function Entries(pos: nat, nsearch: nat): (c: seq<Candidate>)
    decreases nsearch - pos
  {
    if pos >= nsearch then [] else [Some(pos)] + Entries(pos + 1, nsearch)
  }

  /** The names still to try, in order: the name as it stands first, last, or no more. */
  function Candidates(x: Search, nsearch: nat): (c: seq<Candidate>) {
    if x.doneAbs < 0 then [None] + Entries(x.pos, nsearch)
    else if x.doneAbs == 0 then Entries(x.pos, nsearch) + [None]
    else Entries(x.pos, nsearch)
  }

  // What is left once the first has been tried.
  function Tried(x: Search, nsearch: nat): Search {
    if x.doneAbs < 0 || x.pos >= nsearch then x.(doneAbs := 1) else x.(pos := x.pos + 1)
  }

  /**
   * The next name tried is the first of those left, and the others stay, in order; with none left the name does
   * not exist.
   */
  lemma SearchOrder(s: State, q: Ref, now: int, mk: Candidate -> Made)
    requires q in s.queries && s.nservers > 0
    ensures var x := s.queries[q];
      var c := Candidates(x.search, s.nsearch);
      if c == [] then SearchNext(s, q, now, mk) == Fail(s, q, S_NXDOMAIN)
      else
        && SearchNext(s, q, now, mk) == Try(With(s, q, x.(search := Tried(x.search, s.nsearch))), q, c[0], now, mk)
        && Candidates(Tried(x.search, s.nsearch), s.nsearch) == c[1..]
  {
    hide Try, Fail;
    var x := s.queries[q].search;
    if x.doneAbs == 0 && x.pos < s.nsearch {
      assert ([Some(x.pos)] + Entries(x.pos + 1, s.nsearch) + [None])[1..] == Entries(x.pos + 1, s.nsearch) + [None];
    }
  }

  // Each name once: the entries are distinct.
  lemma {:induction false} EntriesAre(pos: nat, nsearch: nat, i: nat)
    requires pos <= nsearch && i < nsearch - pos
    ensures |Entries(pos, nsearch)| == nsearch - pos && Entries(pos, nsearch)[i] == Some(pos + i)
    decreases nsearch - pos
  {
    if i > 0 {
      EntriesAre(pos + 1, nsearch, i - 1);
    } else if pos + 1 < nsearch {
      EntriesAre(pos + 1, nsearch, 0);
    }
  }

  /** A new search tries the name as it stands before all entries of the list or after them, and those in order. */
  lemma AllTried(nsearch: nat, absFirst: bool)
    ensures var c := Candidates(Search(true, 0, if absFirst then -1 else 0), nsearch);
      && |c| == nsearch + 1 && c[if absFirst then 0 else nsearch] == None
      && forall i :: 0 <= i < nsearch ==> c[if absFirst then i + 1 else i] == Some(i)
  {
    hide Entries;
    NoEntries(nsearch);
    forall i | 0 <= i < nsearch ensures |Entries(0, nsearch)| == nsearch && Entries(0, nsearch)[i] == Some(i) {
      EntriesAre(0, nsearch, i);
    }
    if nsearch > 0 { EntriesAre(0, nsearch, 0); }
  }

  lemma NoEntries(nsearch: nat)
    ensures nsearch == 0 ==> Entries(0, nsearch) == []
  {
  }

  // A query being processed that waits for nothing.
  ghost predicate Idle(s: State, q: Ref) {
    q in s.queries && s.queries[q].phase == ToSend && s.queries[q].children == []
  }

  lemma {:induction false} TryGood(s: State, q: Ref, c: Candidate, now: int, mk: Candidate -> Made)
    requires Good(s, {q}) && Idle(s, q)
    ensures s.nservers > 0 && Good(Try(s, q, c, now, mk), {})
    decreases Left(s.queries[q].search, s.nsearch), 1
  {
    assert s.nservers > 0 && Ranged(s.nservers, s.nsearch, s.queries[q]);
    hide Good, Dispatch, Fail, SearchNext;
    match mk(c) {
      case Made(id, question) =>
        var y := s.queries[q].(id := id, question := question);
        AloneGood(s, {q}, q, y);
        DispatchGood(With(s, q, y), q, now);
      case Unmade(status) =>
        if status == S_QUERYDOMAINTOOLONG && s.queries[q].search.on {
          SearchGood(s, q, now, mk);
        } else {
          FailGood(s, q, status);
        }
    }
  }

  lemma TriedFits(x: Query, nservers: nat, nsearch: nat)
    requires Ranged(nservers, nsearch, x) && Candidates(x.search, nsearch) != []
    ensures Ranged(nservers, nsearch, x.(search := Tried(x.search, nsearch)))
    ensures Left(Tried(x.search, nsearch), nsearch) < Left(x.search, nsearch)
  {
  }

  lemma GoodHas(s: State, off: set<Ref>, q: Ref)
    requires Good(s, off) && q in s.queries
    ensures s.nservers > 0 && Ranged(s.nservers, s.nsearch, s.queries[q]) && q < s.next
  {
  }

  lemma {:induction false} SearchGood(s: State, q: Ref, now: int, mk: Candidate -> Made)
    requires Good(s, {q}) && Idle(s, q)
    ensures s.nservers > 0 && Good(SearchNext(s, q, now, mk), {})
    decreases Left(s.queries[q].search, s.nsearch), 0
  {
    hide Good, Try, Fail, Ranged, SearchNext, Candidates, Tried, Left;
    GoodHas(s, {q}, q);
    var x := s.queries[q];
    SearchOrder(s, q, now, mk);
    var c := Candidates(x.search, s.nsearch);
    if c == [] {
      FailGood(s, q, S_NXDOMAIN);
    } else {
      TriedFits(x, s.nservers, s.nsearch);
      var y := x.(search := Tried(x.search, s.nsearch));
      AloneGood(s, {q}, q, y);
      TryGood(With(s, q, y), q, c[0], now, mk);
    }
  }

  // ---- submitting

  // What the caller asks for: a name refused at once, one looked up as it stands, or one with the search list.
  datatype Request = Refused(status: int) | Plain | Searching(absFirst: bool)

  function NewQuery(parent: Option<Ref>, kind: Kind, id: int, question: Bytes, search: Search): Query {
    Query(ToSend, parent, [], kind, id, question, 0, 0, {}, 0, search, Answer(S_OK, [], [], None))
  }

  // The query a request makes.
  function Fresh(req: Request): Query {
    NewQuery(None, External, -2, [],
             match req
             case Searching(absFirst) => Search(true, 0, if absFirst then -1 else 0)
             case _ => Search(false, 0, 0))
  }

  function Allocated(s: State, x: Query): State {
    s.(queries := s.queries[s.next := x], next := s.next + 1)
  }

  // adns_submit
  ghost function Submit(s: State, req: Request, now: int, mk: Candidate -> Made): State
    requires s.nservers > 0
  {
    var q, t := s.next, Allocated(s, Fresh(req));
    match req
    case Refused(status) => Fail(t, q, status)
    case Plain => Try(t, q, None, now, mk)
    case Searching(_) => SearchNext(t, q, now, mk)
  }

  lemma AllocatedGood(s: State, off: set<Ref>, x: Query)
    requires Good(s, off) && x.parent == None && x.children == [] && x.kind == External
    requires Ranged(s.nservers, s.nsearch, x)
    ensures Good(Allocated(s, x), off + {s.next}) && s.next !in s.queries
  {
    var t, q := Allocated(s, x), s.next;
    assert q !in s.queries;
    AllocatedQueues(s, off, x);
    AllocatedFamily(s, x);
    AllocatedKinds(s, x);
    hide Queues, Family, Kinds, Settled, Ranged;
  }

  lemma AllocatedQueues(s: State, off: set<Ref>, x: Query)
    requires Queues(s, off) && s.next !in s.queries
    ensures Queues(Allocated(s, x), off + {s.next})
  {
    hide Distinct;
  }

  lemma AllocatedFamily(s: State, x: Query)
    requires Family(s.queries) && s.next !in s.queries && x.parent == None && x.children == []
    ensures Family(Allocated(s, x).queries)
  {
  }

  lemma AllocatedKinds(s: State, x: Query)
    requires Kinds(s.queries) && s.next !in s.queries && x.parent == None && x.kind == External
    ensures Kinds(Allocated(s, x).queries)
  {
  }

  /** A new query is sent, or answered with its failure. */
  lemma SubmitGood(s: State, req: Request, now: int, mk: Candidate -> Made)
    requires Good(s, {})
    ensures s.nservers > 0 && Good(Submit(s, req, now, mk), {})
  {
    assert s.nservers > 0;
    hide Good, Fail, Try, SearchNext;
    var x := Fresh(req);
    AllocatedGood(s, {}, x);
    assert {} + {s.next} == {s.next};
    match req {
      case Refused(status) => FailGood(Allocated(s, x), s.next, status);
      case Plain => TryGood(Allocated(s, x), s.next, None, now, mk);
      case Searching(absFirst) => SearchGood(Allocated(s, x), s.next, now, mk);
    }
  }

  // ---- timeouts

  predicate Expired(x: Query, now: int) {
    now > x.timeout
  }

  // How many of a queue are due.
  ghost function Due(t: Table, q: seq<Ref>, now: int): nat
    requires forall r :: r in q ==> r in t
  {
    if q == [] then 0 else (if Expired(t[q[0]], now) then 1 else 0) + Due(t, q[1..], now)
  }

  // The first that is due, or the length of the queue.
  function FirstDue(t: Table, q: seq<Ref>, now: int): (i: nat)
    requires forall r :: r in q ==> r in t
    ensures i <= |q| && (i < |q| ==> Expired(t[q[i]], now))
    ensures forall j :: 0 <= j < i ==> !Expired(t[q[j]], now)
  {
    if q == [] || Expired(t[q[0]], now) then 0 else FirstDue(t, q[1..], now) + 1
  }

  lemma {:induction false} DueNone(t: Table, q: seq<Ref>, now: int)
    requires forall r :: r in q ==> r in t
    ensures FirstDue(t, q, now) == |q| <==> Due(t, q, now) == 0
    ensures Due(t, q, now) == 0 <==> forall r :: r in q ==> !Expired(t[r], now)
  {
    if q != [] { DueNone(t, q[1..], now); }
  }

  lemma {:induction false} DueDropped(t: Table, u: Table, q: seq<Ref>, gone: set<Ref>, r: Ref, now: int)
    requires forall x :: x in q ==> x in t
    requires forall x :: x in q && x !in gone ==> x in u && u[x] == t[x]
    ensures forall x :: x in Drop(q, gone) ==> x in u
    ensures Due(u, Drop(q, gone), now) <= Due(t, q, now)
    ensures r in q && r in gone && Expired(t[r], now) ==> Due(u, Drop(q, gone), now) < Due(t, q, now)
  {
    hide Expired, Distinct;
    DropIs(q, gone);
    if q != [] {
      DueDropped(t, u, q[1..], gone, r, now);
      DropIs(q[1..], gone);
      DueFirst(u, q[0], Drop(q[1..], gone), q[0] in gone, now);
    }
  }

  // A queue with one more in front, or not.
  lemma DueFirst(t: Table, r: Ref, q: seq<Ref>, skip: bool, now: int)
    requires forall x :: x in q ==> x in t
    requires skip || r in t
    ensures Due(t, (if skip then [] else [r]) + q, now)
         == (if !skip && Expired(t[r], now) then 1 else 0) + Due(t, q, now)
  {
    hide Expired;
    if skip {
      assert [] + q == q;
    } else {
      assert ([r] + q)[1..] == q;
    }
  }

  lemma {:induction false} DueAppended(t: Table, q: seq<Ref>, r: Ref, now: int)
    requires forall x :: x in q + [r] ==> x in t
    requires !Expired(t[r], now)
    ensures forall x :: x in q ==> x in t
    ensures Due(t, q + [r], now) == Due(t, q, now)
  {
    assert forall x :: x in q ==> x in q + [r];
    if q != [] {
      assert (q + [r])[1..] == q[1..] + [r];
      assert forall x :: x in q[1..] + [r] ==> x in q + [r];
      DueAppended(t, q[1..], r, now);
    }
  }
}
