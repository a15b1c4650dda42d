/** Replies: which query one answers, the children an answer needs, and what becomes of the query. */
module AdnsReply {
  import opened Text
  import opened Sequences
  import opened AdnsState
  import opened AdnsFinish
  import opened AdnsOps
  import opened AdnsSweep

  // ---- matching a reply

  // The reply has this id, quotes this question and comes from a server the query was sent to.
  predicate Answers(x: Query, serv: nat, id: int, body: Bytes) {
    x.id == id && x.question <= body && serv in x.sentTo
  }

  // The first query waiting that a reply answers, or the length of the queue.
  function FirstAnswered(t: Table, w: seq<Ref>, serv: nat, id: int, body: Bytes): (i: nat)
    requires forall r :: r in w ==> r in t
    ensures i <= |w| && (i < |w| ==> Answers(t[w[i]], serv, id, body))
    ensures forall j :: 0 <= j < i ==> !Answers(t[w[j]], serv, id, body)
  {
    if w == [] || Answers(t[w[0]], serv, id, body) then 0 else FirstAnswered(t, w[1..], serv, id, body) + 1
  }

  // ---- children

  // A query that an answer needs made: for whom, and the message.
  datatype Kid = Kid(kind: Kind, id: nat, question: Bytes)

  function Child(q: Ref, kid: Kid, now: int, nservers: nat): Query
    requires nservers > 0
  {
    Posted(NewQuery(Some(q), kid.kind, kid.id, kid.question, Search(false, 0, 0)), now, nservers)
  }

  // adns__internal_submit, and the child linked to its parent
  function AddKid(s: State, q: Ref, kid: Kid, now: int): (t: State)
    requires q in s.queries && s.nservers > 0
    ensures q in t.queries && t.nservers == s.nservers
  {
    var c := s.next;
    var x := s.queries[q].(children := s.queries[q].children + [c]);
    s.(queries := s.queries[c := Child(q, kid, now, s.nservers)][q := x],
       udpw := s.udpw + [c], next := c + 1, sent := s.sent + [Sent(c, 0, kid.id, kid.question)])
  }

  function AddKids(s: State, q: Ref, kids: seq<Kid>, now: int): (t: State)
    requires q in s.queries && s.nservers > 0
    ensures q in t.queries && t.nservers == s.nservers
    decreases |kids|
  {
    if kids == [] then s else AddKids(AddKid(s, q, kids[0], now), q, kids[1..], now)
  }

  lemma ChildIs(q: Ref, kid: Kid, now: int, nservers: nat, nsearch: nat)
    requires nservers > 0
    ensures var x := Child(q, kid, now, nservers);
      && Ranged(nservers, nsearch, x) && Settled(x) && x.parent == Some(q) && x.kind == kid.kind && x.children == []
      && x.phase == ToSend
  {
    assert 0 in Child(q, kid, now, nservers).sentTo;
  }

  lemma AddKidQueues(s: State, q: Ref, kid: Kid, now: int)
    requires Queues(s, {q}) && q in s.queries && s.nservers > 0 && s.next !in s.queries
    ensures Queues(AddKid(s, q, kid, now), {q})
  {
    ChildIs(q, kid, now, s.nservers, s.nsearch);
    LinkTail(s.udpw, s.next);
    hide Distinct, Child;
  }

  lemma AddKidFamily(s: State, q: Ref, kid: Kid, now: int)
    requires Family(s.queries) && q in s.queries && s.nservers > 0 && s.next !in s.queries && q < s.next
    ensures Family(AddKid(s, q, kid, now).queries)
  {
    ChildIs(q, kid, now, s.nservers, s.nsearch);
    hide Distinct, Child;
    forall c | c in s.queries[q].children ensures c in s.queries { assert ChildOf(s.queries, q, c); }
    LinkTail(s.queries[q].children, s.next);
  }

  lemma AddKidKinds(s: State, q: Ref, kid: Kid, now: int)
    requires Kinds(s.queries) && q in s.queries && s.nservers > 0 && s.next !in s.queries
    requires Serves(s.queries[q], kid.kind)
    ensures Kinds(AddKid(s, q, kid, now).queries)
  {
    ChildIs(q, kid, now, s.nservers, s.nsearch);
    hide Child;
  }

  lemma AddKidRest(s: State, q: Ref, kid: Kid, now: int)
    requires Ranges(s) && Phases(s.queries, {q}) && q in s.queries
    ensures var t := AddKid(s, q, kid, now);
      && s.next !in s.queries && q < s.next && Ranges(t) && Phases(t.queries, {q})
      && t.queries[q] == s.queries[q].(children := s.queries[q].children + [s.next])
  {
    assert Ranged(s.nservers, s.nsearch, s.queries[q]);
    ChildIs(q, kid, now, s.nservers, s.nsearch);
    hide Settled, Child;
  }

  lemma AddKidGood(s: State, q: Ref, kid: Kid, now: int)
    requires Good(s, {q}) && q in s.queries && Serves(s.queries[q], kid.kind)
    ensures s.nservers > 0 && Good(AddKid(s, q, kid, now), {q})
    ensures AddKid(s, q, kid, now).queries[q] == s.queries[q].(children := s.queries[q].children + [s.next])
  {
    GoodHas(s, {q}, q);
    AddKidRest(s, q, kid, now);
    hide Ranges, Queues, Family, Phases, Kinds, AddKid;
    AddKidQueues(s, q, kid, now);
    AddKidFamily(s, q, kid, now);
    AddKidKinds(s, q, kid, now);
  }

  lemma {:induction false} AddKidsGood(s: State, q: Ref, kids: seq<Kid>, now: int)
    requires Good(s, {q}) && q in s.queries && forall k :: k in kids ==> Serves(s.queries[q], k.kind)
    ensures s.nservers > 0 && Good(AddKids(s, q, kids, now), {q})
    ensures var x := AddKids(s, q, kids, now).queries[q];
      x.parent == s.queries[q].parent && x.phase == s.queries[q].phase && x.id == s.queries[q].id
    decreases |kids|
  {
    GoodHas(s, {q}, q);
    hide Good, AddKid;
    if kids != [] {
      AddKidGood(s, q, kids[0], now);
      AddKidsGood(AddKid(s, q, kids[0], now), q, kids[1..], now);
    }
  }

  // ---- what a reply says

  // A failure; no such name; try again, perhaps at a canonical name; or records, some needing queries of their own,
  // and perhaps one that cannot be read.
  datatype Verdict =
    | Failed(status: int)
    | NoName
    | Again(made: Option<Made>)
    | Found(addrs: seq<Addr>, hosts: seq<Host>, expected: Option<Addr>, kids: seq<Kid>, trouble: Option<int>)

  function Answer0(x: Query, v: Verdict): Query
    requires v.Found?
  {
    x.(answer := x.answer.(addrs := v.addrs, hosts := v.hosts,
       expected := if x.answer.expected.Some? then x.answer.expected else v.expected))
  }

  // The children can be served.
  ghost predicate Readable(x: Query, v: Verdict) {
    v.Found? ==> forall k :: k in v.kids ==> Serves(Answer0(x, v), k.kind)
  }

  function Waits(x: Query): Query {
    x.(phase := ChildW)
  }

  // What becomes of a query whose answer has been read.
  ghost function Settle(s: State, q: Ref, trouble: Option<int>): State
    requires q in s.queries
  {
    if trouble.Some? then Fail(s, q, trouble.value)
    else if s.queries[q].children != [] then Linked(With(s, q, Waits(s.queries[q])), q)
    else Finish(s, q)
  }

  function Restarted(x: Query): Query {
    Reset(x).(retries := 0)
  }

  // adns__procdgram from the point where the query has left its queue
  ghost function Answered(s: State, q: Ref, v: Verdict, now: int, mk: Candidate -> Made): State
    requires q in s.queries && s.nservers > 0
  {
    var x := s.queries[q];
    match v
    case Failed(status) => Fail(s, q, status)
    case NoName => if x.search.on then SearchNext(s, q, now, mk) else Fail(s, q, S_NXDOMAIN)
    case Again(made) =>
      (match made
       case None => Dispatch(With(s, q, Restarted(x)), q, now)
       case Some(Made(id, question)) => Dispatch(With(s, q, Restarted(x.(id := id, question := question))), q, now)
       case Some(Unmade(status)) => Fail(s, q, status))
    case Found(_, _, _, kids, trouble) => Settle(AddKids(With(s, q, Answer0(x, v)), q, kids, now), q, trouble)
  }

  // A reply from a server, by its id and what follows the header; more or less than one question identifies nothing.
  ghost function Reply(s: State, serv: nat, questions: nat, id: int, body: Bytes, v: Verdict, now: int,
                       mk: Candidate -> Made): State
    requires Good(s, {})
  {
    WaitersKnown(s, {});
    var i := FirstAnswered(s.queries, s.udpw, serv, id, body);
    if questions != 1 || i == |s.udpw| then s
    else
      var q := s.udpw[i];
      WaiterIs(s, q);
      Answered(Unlinked(s, q), q, v, now, mk)
  }

  // ---- the invariant

  lemma WaitsQueues(s: State, off: set<Ref>, q: Ref)
    requires Queues(s, off) && q in off && q in s.queries
    ensures Queues(With(s, q, Waits(s.queries[q])), off)
  {
    hide Distinct;
  }

  lemma WaitsFamily(s: State, q: Ref)
    requires Family(s.queries) && q in s.queries
    ensures Family(With(s, q, Waits(s.queries[q])).queries)
  {
    hide Distinct;
  }

  lemma WaitsGood(s: State, q: Ref)
    requires Good(s, {q}) && q in s.queries && s.queries[q].children != [] && s.queries[q].id >= 0
    ensures Good(Linked(With(s, q, Waits(s.queries[q])), q), {})
  {
    var x := Waits(s.queries[q]);
    WaitsQueues(s, {q}, q);
    WaitsFamily(s, q);
    WaitsKinds(s, q);
    WaitsRanged(s.nservers, s.nsearch, s.queries[q]);
    WaitsRest(s, q);
    LinkedGood(With(s, q, x), {q}, q);
    assert {q} - {q} == {};
    hide Good;
  }

  lemma WaitsKinds(s: State, q: Ref)
    requires Kinds(s.queries) && q in s.queries
    ensures Kinds(With(s, q, Waits(s.queries[q])).queries)
  {
  }

  lemma WaitsRanged(nservers: nat, nsearch: nat, x: Query)
    ensures Ranged(nservers, nsearch, x) ==> Ranged(nservers, nsearch, Waits(x))
  {
  }

  lemma WaitsRest(s: State, q: Ref)
    requires Good(s, {q}) && q in s.queries && s.queries[q].children != [] && s.queries[q].id >= 0
    ensures var t := With(s, q, Waits(s.queries[q])); Ranges(t) && Phases(t.queries, {q}) && Settled(t.queries[q])
  {
    WaitsRanged(s.nservers, s.nsearch, s.queries[q]);
    hide Queues, Family, Kinds, Ranged;
  }

  lemma SettleGood(s: State, q: Ref, trouble: Option<int>)
    requires Good(s, {q}) && q in s.queries && s.queries[q].id >= 0
    ensures Good(Settle(s, q, trouble), {})
  {
    hide Good, Fail, Finish, Linked;
    if trouble.Some? {
      FailGood(s, q, trouble.value);
    } else if s.queries[q].children != [] {
      WaitsGood(s, q);
    } else {
      FinishGood(s, q);
    }
  }

  lemma AgainGood(s: State, q: Ref, x: Query, now: int)
    requires Good(s, {q}) && Sendable(s, q) && x == Restarted(s.queries[q].(id := x.id, question := x.question))
    requires x.id >= 0
    ensures s.nservers > 0 && Good(Dispatch(With(s, q, x), q, now), {})
  {
    GoodHas(s, {q}, q);
    hide Good, Dispatch;
    AloneGood(s, {q}, q, x);
    DispatchGood(With(s, q, x), q, now);
  }

  lemma AnsweredGood(s: State, q: Ref, v: Verdict, now: int, mk: Candidate -> Made)
    requires Good(s, {q}) && Sendable(s, q) && Readable(s.queries[q], v)
    ensures s.nservers > 0 && Good(Answered(s, q, v, now, mk), {})
  {
    GoodHas(s, {q}, q);
    hide Good, Dispatch, Fail, SearchNext, Settle, AddKids, Ranged;
    var x := s.queries[q];
    match v {
      case Failed(status) => FailGood(s, q, status);
      case NoName => if x.search.on { SearchGood(s, q, now, mk); } else { FailGood(s, q, S_NXDOMAIN); }
      case Again(None) => AgainGood(s, q, Restarted(x), now);
      case Again(Some(Made(id, question))) => AgainGood(s, q, Restarted(x.(id := id, question := question)), now);
      case Again(Some(Unmade(status))) => FailGood(s, q, status);
      case Found(_, _, _, kids, trouble) =>
        var y := Answer0(x, v);
        AnswerRanged(s.nservers, s.nsearch, x, v);
        AloneGood(s, {q}, q, y);
        AddKidsGood(With(s, q, y), q, kids, now);
        SettleGood(AddKids(With(s, q, y), q, kids, now), q, trouble);
    }
  }

  lemma AnswerRanged(nservers: nat, nsearch: nat, x: Query, v: Verdict)
    requires v.Found? && Ranged(nservers, nsearch, x)
    ensures Ranged(nservers, nsearch, Answer0(x, v))
  {
  }

  /** Whatever a reply says, every query stays on the queue of its state. */
  lemma ReplyGood(s: State, serv: nat, questions: nat, id: int, body: Bytes, v: Verdict, now: int,
                  mk: Candidate -> Made)
    requires Good(s, {}) && forall r :: r in s.queries ==> Readable(s.queries[r], v)
    ensures Good(Reply(s, serv, questions, id, body, v, now, mk), {})
  {
    WaitersKnown(s, {});
    hide Good, Answered, Readable;
    var i := FirstAnswered(s.queries, s.udpw, serv, id, body);
    if questions == 1 && i < |s.udpw| {
      var q := s.udpw[i];
      WaiterIs(s, q);
      AnsweredGood(Unlinked(s, q), q, v, now, mk);
    }
  }

  // ---- cancelling and collecting

  // adns_cancel: the query and everything made for it
  ghost function Cancel(s: State, q: Ref): State {
    Removed(s, Below(s.queries, q) + {q})
  }

  lemma CancelKeeps(s: State, q: Ref)
    requires Good(s, {}) && q in s.queries && s.queries[q].parent == None
    ensures Good(Cancel(s, q), {})
  {
    BelowAllIsClosed(s.queries, {}, q);
    hide Ranges, Queues, Phases, Kinds;
    RemovedGood(s, {}, Below(s.queries, q) + {q});
  }

  // What adns_check says.
  datatype Check = NotYet | NoneLeft | Collected(query: Ref, answer: Answer)

  // The answer leaves the output queue with its query.
  function Taken(s: State, q: Ref): State {
    Removed(s, {q})
  }

  lemma CollectKeeps(s: State, q: Ref)
    requires Good(s, {}) && q in s.queries && s.queries[q].id < 0
    ensures q in s.output && Good(Taken(s, q), {})
  {
    assert Settled(s.queries[q]);
    assert Queue(s, {}, Done);
    forall r | r in s.queries && s.queries[r].parent.Some?
      ensures s.queries[r].parent.value != q
    {
      ParentIsOlder(s.queries, r);
    }
    hide Ranges, Queues, Family, Phases, Kinds;
    RemovedGood(s, {}, {q});
  }

  /** With nothing waiting for replies and nothing to collect there is no query at all: no parent waits for ever. */
  lemma NothingLeft(s: State)
    requires Good(s, {}) && s.udpw == [] && s.output == []
    ensures s.queries == map[]
  {
    forall r | r in s.queries ensures false { NoneFrom(s, r); }
  }

  lemma {:induction false} NoneFrom(s: State, r: Ref)
    requires Good(s, {}) && s.udpw == [] && s.output == []
    ensures r !in s.queries
    decreases if r < s.next then s.next - r else 0
  {
    if r in s.queries {
      assert Queue(s, {}, ToSend) && Queue(s, {}, Done);
      assert Settled(s.queries[r]);
      var c := s.queries[r].children[0];
      assert ChildOf(s.queries, r, c);
      NoneFrom(s, c);
    }
  }
}
