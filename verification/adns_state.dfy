/** The resolver's queries and queues, and the consistency that adns/check.c asserts of them. */
module AdnsState {
  import opened Sequences
  import opened Text

  const UDPMAXRETRIES: nat := 15
  const UDPRETRYMS: int := 1500

  const S_OK := 0
  const S_TIMEOUT := 30
  const S_MAX_TEMPFAIL := 99
  const S_INCONSISTENT := 100
  const S_QUERYDOMAINTOOLONG := 202
  const S_NXDOMAIN := 300
  const S_NODATA := 301

  // A query's address; later queries have greater ones.
  type Ref = nat
  type Addr = int
  type Bytes = seq<int>

  datatype Phase = ToSend | ChildW | Done

  // What the callback is to do with the answer: nothing, as the query is the caller's own, or serve a parent.
  datatype Kind = External | ForPtr | ForHost(slot: nat)

  // One address record of a parent's answer: its status, the number of addresses (-1 if unknown) and the addresses.
  datatype Host = Host(status: int, naddrs: int, addrs: seq<Addr>)

  datatype Answer = Answer(status: int, addrs: seq<Addr>, hosts: seq<Host>, expected: Option<Addr>)

  // search_pos and search_doneabs, if the search list is used
  datatype Search = Search(on: bool, pos: nat, doneAbs: int)

  datatype Query = Query(phase: Phase, parent: Option<Ref>, children: seq<Ref>, kind: Kind, id: int, question: Bytes,
                         retries: nat, nextServer: nat, sentTo: set<nat>, timeout: int, search: Search, answer: Answer)

  // A datagram handed to the socket.
  datatype Sent = Sent(query: Ref, server: nat, id: int, question: Bytes)

  datatype State = State(queries: map<Ref, Query>, udpw: seq<Ref>, childw: seq<Ref>, output: seq<Ref>, next: Ref,
                         sent: seq<Sent>, nservers: nat, nsearch: nat)

  type Table = map<Ref, Query>

  // ---- queues

  lemma LinkTail(q: seq<Ref>, r: Ref)
    requires Distinct(q) && r !in q
    ensures Distinct(q + [r]) && forall x :: x in q + [r] <==> x in q || x == r
  {
  }

  // ---- the invariant

  ghost predicate Ranged(nservers: nat, nsearch: nat, q: Query) {
    && q.nextServer < nservers
    && (forall x :: x in q.sentTo ==> x < nservers)
    && q.search.pos <= nsearch
    && q.retries <= UDPMAXRETRIES
  }

  ghost predicate Ranges(s: State) {
    && s.nservers > 0
    && (forall r :: r in s.queries ==> Ranged(s.nservers, s.nsearch, s.queries[r]))
    && forall r :: r in s.queries ==> r < s.next
  }

  function QueueOf(s: State, p: Phase): seq<Ref> {
    match p
    case ToSend => s.udpw
    case ChildW => s.childw
    case Done => s.output
  }

  // The members of a queue are the queries in its phase, except those being processed; each is there once.
  ghost predicate Queue(s: State, off: set<Ref>, p: Phase) {
    && Distinct(QueueOf(s, p))
    && forall r :: r in QueueOf(s, p) <==> r in s.queries && s.queries[r].phase == p && r !in off
  }

  ghost predicate Queues(s: State, off: set<Ref>) {
    Queue(s, off, ToSend) && Queue(s, off, ChildW) && Queue(s, off, Done)
  }

  // Children name their parent, who lists each once and is older.
  ghost predicate Family(t: Table) {
    && (forall p :: p in t ==> Distinct(t[p].children))
    && (forall p, c :: p in t && c in t[p].children ==> ChildOf(t, p, c))
    && forall c :: c in t && t[c].parent.Some? ==> Listed(t, t[c].parent.value, c)
  }

  ghost predicate ChildOf(t: Table, p: Ref, c: Ref) {
    c in t && t[c].parent == Some(p) && p < c && !t[c].phase.Done?
  }

  ghost predicate Listed(t: Table, p: Ref, c: Ref) {
    p in t && c in t[p].children
  }

  // What each phase implies.
  ghost predicate Settled(q: Query) {
    match q.phase
    case ToSend => q.children == [] && q.sentTo != {} && q.id >= 0
    case ChildW => q.children != [] && q.id >= 0
    case Done => q.children == [] && q.parent == None && q.id == -1
  }

  ghost predicate Phases(t: Table, off: set<Ref>) {
    forall r :: r in t && r !in off ==> Settled(t[r])
  }

  // What the callback will need of the parent.
  ghost predicate Served(t: Table, q: Query) {
    match q.kind
    case External => q.parent == None
    case ForPtr => q.parent.Some? && q.parent.value in t && t[q.parent.value].answer.expected.Some?
    case ForHost(slot) => q.parent.Some? && q.parent.value in t && slot < |t[q.parent.value].answer.hosts|
  }

  ghost predicate Kinds(t: Table) {
    forall r :: r in t ==> Served(t, t[r])
  }

  /** adns__consistency, for all queries but those being processed, which are on no queue. */
  ghost predicate Good(s: State, off: set<Ref>) {
    Ranges(s) && Queues(s, off) && Family(s.queries) && Phases(s.queries, off) && Kinds(s.queries)
  }

  // ---- removing queries

  // The queries gone from every queue and every list of children.
  function Removed(s: State, gone: set<Ref>): (t: State) {
    s.(queries := map r | r in s.queries && r !in gone :: s.queries[r].(children := Drop(s.queries[r].children, gone)),
       udpw := Drop(s.udpw, gone), childw := Drop(s.childw, gone), output := Drop(s.output, gone))
  }

  // With a query go its children.
  ghost predicate Closed(t: Table, gone: set<Ref>) {
    forall r :: r in t && t[r].parent.Some? && t[r].parent.value in gone ==> r in gone
  }

  // No query in waiting loses a child.
  ghost predicate Spares(t: Table, off: set<Ref>, gone: set<Ref>) {
    forall r :: r in gone && r in t && t[r].parent.Some? ==> t[r].parent.value in gone || t[r].parent.value in off
  }

  lemma RemovedQueue(s: State, off: set<Ref>, gone: set<Ref>, p: Phase)
    requires Queue(s, off, p)
    ensures Queue(Removed(s, gone), off, p)
  {
    DropIs(QueueOf(s, p), gone);
    hide Distinct, Drop;
  }

  lemma RemovedQueues(s: State, off: set<Ref>, gone: set<Ref>)
    requires Queues(s, off)
    ensures Queues(Removed(s, gone), off)
  {
    RemovedQueue(s, off, gone, ToSend);
    RemovedQueue(s, off, gone, ChildW);
    RemovedQueue(s, off, gone, Done);
    hide Queue, Removed;
  }

  lemma RemovedFamily(s: State, gone: set<Ref>)
    requires Family(s.queries) && Closed(s.queries, gone)
    ensures Family(Removed(s, gone).queries)
  {
    hide Distinct, Drop;
    var t := Removed(s, gone);
    forall p | p in s.queries
      ensures forall c :: c in Drop(s.queries[p].children, gone) <==> c in s.queries[p].children && c !in gone
    {
      DropIs(s.queries[p].children, gone);
    }
    forall p | p in t.queries ensures Distinct(t.queries[p].children) { DropIs(s.queries[p].children, gone); }
  }

  lemma RemovedSettled(s: State, off: set<Ref>, gone: set<Ref>, r: Ref)
    requires Family(s.queries) && Phases(s.queries, off) && Spares(s.queries, off, gone) && r in s.queries
    requires r !in gone && r !in off
    ensures Settled(Removed(s, gone).queries[r])
  {
    hide Distinct, Drop;
    DropNone(s.queries[r].children, gone);
  }

  lemma RemovedGood(s: State, off: set<Ref>, gone: set<Ref>)
    requires Good(s, off) && Closed(s.queries, gone) && Spares(s.queries, off, gone)
    ensures Good(Removed(s, gone), off)
  {
    hide Queues, Family, Settled, Drop, Ranged, Served;
    var t := Removed(s, gone);
    RemovedQueues(s, off, gone);
    RemovedFamily(s, gone);
    forall r | r in t.queries ensures Ranged(t.nservers, t.nsearch, t.queries[r]) && Served(t.queries, t.queries[r]) {
      RemovedOne(s, gone, r);
    }
    forall r | r in t.queries && r !in off ensures Settled(t.queries[r]) { RemovedSettled(s, off, gone, r); }
  }

  lemma RemovedOne(s: State, gone: set<Ref>, r: Ref)
    requires r in s.queries && r !in gone && Ranged(s.nservers, s.nsearch, s.queries[r])
    requires Served(s.queries, s.queries[r])
    requires Closed(s.queries, gone)
    ensures Ranged(s.nservers, s.nsearch, Removed(s, gone).queries[r])
    ensures Served(Removed(s, gone).queries, Removed(s, gone).queries[r])
  {
    hide Drop;
  }

  // ---- what is below a query

  // r is q, or descends from it.
  ghost predicate Under(t: Table, q: Ref, r: Ref)
    decreases r
  {
    r == q || (r in t && t[r].parent.Some? && t[r].parent.value < r && Under(t, q, t[r].parent.value))
  }

  // The descendants of a query.
  ghost function Below(t: Table, q: Ref): (b: set<Ref>) {
    set r | r in t && r != q && Under(t, q, r)
  }

  lemma {:induction false} UnderIsYounger(t: Table, q: Ref, r: Ref)
    requires Under(t, q, r)
    ensures q <= r
    decreases r
  {
    if r != q { UnderIsYounger(t, q, t[r].parent.value); }
  }

  lemma ParentIsOlder(t: Table, r: Ref)
    requires Family(t) && r in t && t[r].parent.Some?
    ensures var p := t[r].parent.value; p in t && p < r && r in t[p].children
  {
    assert Listed(t, t[r].parent.value, r);
    assert ChildOf(t, t[r].parent.value, r);
  }

  lemma ChildIsUnder(t: Table, q: Ref, r: Ref)
    requires Family(t) && r in t && t[r].parent.Some? && Under(t, q, t[r].parent.value)
    ensures Under(t, q, r) && q < r
  {
    ParentIsOlder(t, r);
    UnderIsYounger(t, q, t[r].parent.value);
  }

  // With the descendants of a query being processed, nothing else loses a parent or a child.
  lemma BelowIsClosed(t: Table, off: set<Ref>, q: Ref)
    requires Family(t) && q in off
    ensures Closed(t, Below(t, q)) && Spares(t, off, Below(t, q)) && q !in Below(t, q)
  {
    forall r | r in t && t[r].parent.Some? && t[r].parent.value in Below(t, q) ensures r in Below(t, q) {
      ChildIsUnder(t, q, r);
    }
    forall r | r in Below(t, q) && t[r].parent.Some?
      ensures t[r].parent.value in Below(t, q) || t[r].parent.value in off
    {
      ParentIsOlder(t, r);
    }
  }

  lemma BelowAllIsClosed(t: Table, off: set<Ref>, q: Ref)
    requires Family(t) && q in t && (t[q].parent.Some? ==> t[q].parent.value in off)
    ensures Closed(t, Below(t, q) + {q}) && Spares(t, off, Below(t, q) + {q})
  {
    var all := Below(t, q) + {q};
    forall r | r in t && t[r].parent.Some? && t[r].parent.value in all ensures r in all {
      assert Under(t, q, t[r].parent.value);
      ChildIsUnder(t, q, r);
    }
    forall r | r in all && t[r].parent.Some? ensures t[r].parent.value in all || t[r].parent.value in off {
      ParentIsOlder(t, r);
    }
  }

  // ---- changing one query

  // The same place in the family: everything else about a query being processed may change.
  ghost predicate SameKin(x: Query, y: Query) {
    && x.parent == y.parent && x.children == y.children && x.kind == y.kind && x.phase == y.phase
    && (x.answer.expected.Some? ==> y.answer.expected.Some?) && |y.answer.hosts| >= |x.answer.hosts|
  }

  function With(s: State, q: Ref, x: Query): State {
    s.(queries := s.queries[q := x])
  }

  lemma WithQueues(s: State, off: set<Ref>, q: Ref, x: Query)
    requires Queues(s, off) && q in s.queries && x.phase == s.queries[q].phase
    ensures Queues(With(s, q, x), off)
  {
    hide Distinct;
  }

  lemma WithFamily(s: State, q: Ref, x: Query)
    requires Family(s.queries) && q in s.queries && SameKin(s.queries[q], x)
    ensures Family(With(s, q, x).queries)
  {
    hide Distinct;
  }

  lemma WithKinds(s: State, q: Ref, x: Query)
    requires Kinds(s.queries) && q in s.queries && SameKin(s.queries[q], x)
    ensures Kinds(With(s, q, x).queries)
  {
  }

  // Changing a query being processed.
  lemma WithGood(s: State, off: set<Ref>, q: Ref, x: Query)
    requires Good(s, off) && q in off && q in s.queries && SameKin(s.queries[q], x) && Ranged(s.nservers, s.nsearch, x)
    ensures Good(With(s, q, x), off)
  {
    WithQueues(s, off, q, x);
    WithFamily(s, q, x);
    WithKinds(s, q, x);
    hide Queues, Family, Kinds, Settled;
  }

  // ---- taking a query off its queue and putting it on one

  // DLIST_UNLINK
  function Unlinked(s: State, q: Ref): State {
    s.(udpw := Drop(s.udpw, {q}), childw := Drop(s.childw, {q}), output := Drop(s.output, {q}))
  }

  lemma UnlinkedGood(s: State, off: set<Ref>, q: Ref)
    requires Good(s, off)
    ensures Good(Unlinked(s, q), off + {q})
  {
    DropIs(s.udpw, {q});
    DropIs(s.childw, {q});
    DropIs(s.output, {q});
    hide Distinct, Drop, Settled, Ranged, Family, Kinds;
  }

  // DLIST_LINK_TAIL on the queue of its phase
  function Linked(s: State, q: Ref): State
    requires q in s.queries
  {
    match s.queries[q].phase
    case ToSend => s.(udpw := s.udpw + [q])
    case ChildW => s.(childw := s.childw + [q])
    case Done => s.(output := s.output + [q])
  }

  lemma LinkedQueue(s: State, off: set<Ref>, q: Ref, p: Phase)
    requires Queue(s, off, p) && q in s.queries && q in off
    ensures Queue(Linked(s, q), off - {q}, p)
  {
    LinkTail(QueueOf(s, p), q);
    hide Distinct;
  }

  lemma LinkedGood(s: State, off: set<Ref>, q: Ref)
    requires Good(s, off) && q in s.queries && q in off && Settled(s.queries[q])
    ensures Good(Linked(s, q), off - {q})
  {
    hide Queue, Settled, Ranged, Family, Kinds;
    LinkedQueue(s, off, q, ToSend);
    LinkedQueue(s, off, q, ChildW);
    LinkedQueue(s, off, q, Done);
  }
}
