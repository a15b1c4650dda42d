/** Timeouts: the sweep over the queries waiting for replies ends, and leaves none that is due. */
module AdnsSweep {
  import opened Text
  import opened Sequences
  import opened AdnsState
  import opened AdnsFinish
  import opened AdnsEffects
  import opened AdnsOps

  // The query of the caller's own that a query serves.
  ghost function Root(t: Table, r: Ref): (a: Ref) {
    if r in t && t[r].parent.Some? && t[r].parent.value < r then Root(t, t[r].parent.value) else r
  }

  lemma {:induction false} RootIs(t: Table, r: Ref)
    requires Family(t) && r in t
    ensures var a := Root(t, r); a in t && t[a].parent == None && Under(t, a, r)
    decreases r
  {
    if t[r].parent.Some? {
      ParentIsOlder(t, r);
      RootIs(t, t[r].parent.value);
    }
  }

  // Everything waiting is known, so that it can be counted.
  lemma WaitersKnown(s: State, off: set<Ref>)
    requires Good(s, off)
    ensures forall r :: r in s.udpw ==> r in s.queries
  {
    hide Ranges, Family, Phases, Kinds, Distinct;
    assert Queue(s, off, ToSend);
  }

  ghost function DueNow(s: State, now: int): nat
    requires Good(s, {})
  {
    WaitersKnown(s, {});
    Due(s.queries, s.udpw, now)
  }

  // What the sweep does with a query that is due.
  ghost function Resent(s: State, q: Ref, now: int): State
    requires q in s.queries && s.nservers > 0
  {
    Dispatch(Unlinked(s, q), q, now)
  }

  lemma WaiterIs(s: State, q: Ref)
    requires Good(s, {}) && q in s.udpw
    ensures q in s.queries && s.nservers > 0 && Good(Unlinked(s, q), {q}) && Sendable(Unlinked(s, q), q)
  {
    UnlinkedGood(s, {}, q);
    assert {} + {q} == {q};
    hide Distinct, Family, Kinds, Ranged;
    assert Queue(s, {}, ToSend);
    assert Settled(s.queries[q]);
  }

  lemma ResentGood(s: State, q: Ref, now: int)
    requires Good(s, {}) && q in s.udpw
    ensures q in s.queries && s.nservers > 0 && Good(Resent(s, q, now), {})
  {
    hide Good, Dispatch;
    WaiterIs(s, q);
    DispatchGood(Unlinked(s, q), q, now);
  }

  // Ending the query adds nothing that is due.
  lemma FailDue(s: State, q: Ref, status: int, now: int)
    requires Good(s, {q}) && q in s.queries && Good(Fail(s, q, status), {})
    requires forall r :: r in s.udpw ==> r in s.queries
    ensures DueNow(Fail(s, q, status), now) <= Due(s.queries, s.udpw, now)
  {
    FamilyOf(s, {q});
    hide Good, Fail;
    var a := Root(s.queries, q);
    RootIs(s.queries, q);
    FailEnds(s, q, status, a);
    var t := Fail(s, q, status);
    DropIs(s.udpw, Lost(s, t));
    DueDropped(s.queries, t.queries, s.udpw, Lost(s, t), q, now);
  }

  lemma FamilyOf(s: State, off: set<Ref>)
    requires Good(s, off)
    ensures Family(s.queries)
  {
  }

  lemma PostDue(s: State, q: Ref, now: int)
    requires q in s.queries && s.nservers > 0 && s.queries[q].phase == ToSend && q !in s.udpw
    requires forall r :: r in s.udpw ==> r in s.queries
    ensures var t := Linked(With(Mailed(s, q), q, Posted(s.queries[q], now, s.nservers)), q);
      t.udpw == s.udpw + [q] && (forall r :: r in t.udpw ==> r in t.queries)
      && Due(t.queries, t.udpw, now) <= Due(s.queries, s.udpw, now)
  {
    var t := Linked(With(Mailed(s, q), q, Posted(s.queries[q], now, s.nservers)), q);
    DropNone(s.udpw, {});
    DueDropped(s.queries, t.queries, s.udpw, {}, q, now);
    DueAppended(t.queries, s.udpw, q, now);
  }

  lemma ResentDue(s: State, q: Ref, now: int)
    requires Good(s, {}) && q in s.udpw && q in s.queries && Expired(s.queries[q], now) && s.nservers > 0
    requires Good(Resent(s, q, now), {})
    ensures DueNow(Resent(s, q, now), now) < DueNow(s, now)
  {
    hide Good, Fail, Posted;
    var u := Unlinked(s, q);
    WaitersKnown(s, {});
    WaiterIs(s, q);
    DropIs(s.udpw, {q});
    DueDropped(s.queries, u.queries, s.udpw, {q}, q, now);
    if u.queries[q].retries >= UDPMAXRETRIES {
      FailDue(u, q, S_TIMEOUT, now);
    } else {
      PostDue(u, q, now);
    }
  }

  /** timeouts_queue, acting: whatever is due is sent again or fails, the first in the queue first. */
  ghost function Sweep(s: State, now: int): State
    requires Good(s, {})
    decreases DueNow(s, now)
  {
    WaitersKnown(s, {});
    var i := FirstDue(s.queries, s.udpw, now);
    if i == |s.udpw| then s
    else
      var q := s.udpw[i];
      ResentGood(s, q, now);
      ResentDue(s, q, now);
      Sweep(Resent(s, q, now), now)
  }

  /** The sweep leaves no query due on the queue, and every query on the queue of its state. */
  lemma {:induction false} SweepSettles(s: State, now: int)
    requires Good(s, {})
    ensures Good(Sweep(s, now), {}) && DueNow(Sweep(s, now), now) == 0
    ensures var t := Sweep(s, now); forall r :: r in t.udpw ==> r in t.queries && now <= t.queries[r].timeout
    decreases DueNow(s, now)
  {
    hide Good, Resent;
    WaitersKnown(s, {});
    var i := FirstDue(s.queries, s.udpw, now);
    if i == |s.udpw| {
      DueNone(s.queries, s.udpw, now);
    } else {
      ResentGood(s, s.udpw[i], now);
      ResentDue(s, s.udpw[i], now);
      SweepSettles(Resent(s, s.udpw[i], now), now);
    }
  }
}
