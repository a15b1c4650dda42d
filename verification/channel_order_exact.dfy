/** The exact condition under which the order of channel descriptions does not matter. */
module ChannelOrderExact {
  import opened Text
  import opened ChannelModel
  import opened ChannelView
  import opened ChannelConvergence
  import opened ChannelOrder

  // ---- permutations

  lemma Extract<T>(s: seq<T>, x: T) returns (rest: seq<T>)
    requires x in s
    ensures multiset([x] + rest) == multiset(s)
  {
    var i :| 0 <= i < |s| && s[i] == x;
    rest := s[..i] + s[i + 1..];
    assert s == s[..i] + [x] + s[i + 1..];
  }

  lemma SameElements<T>(s: seq<T>, t: seq<T>)
    requires multiset(s) == multiset(t)
    ensures forall x :: x in s <==> x in t
    ensures |s| == |t|
  {
    forall x ensures x in s <==> x in t {
      assert x in s <==> x in multiset(s);
      assert x in t <==> x in multiset(t);
    }
    assert |multiset(s)| == |s| && |multiset(t)| == |t|;
  }

  lemma ThreeFirst<T>(s: seq<T>, a: T, b: T, c: T) returns (rest: seq<T>)
    requires a in s && b in s && c in s && a != b && b != c && a != c
    ensures multiset([a, b, c] + rest) == multiset(s)
    ensures forall x :: x in rest ==> x in s
  {
    var r1 := Extract(s, a);
    SameElements([a] + r1, s);
    assert b in r1 && c in r1 by { assert b in [a] + r1 && c in [a] + r1; }
    var r2 := Extract(r1, b);
    SameElements([b] + r2, r1);
    assert c in r2 by { assert c in [b] + r2; }
    rest := Extract(r2, c);
    SameElements([c] + rest, r2);
    assert [a, b, c] + rest == [a] + ([b] + ([c] + rest));
    calc {
      multiset([a, b, c] + rest);
      multiset([a]) + (multiset([b]) + multiset([c] + rest));
      multiset([a]) + multiset([b] + r2);
      multiset([a] + r1);
      multiset(s);
    }
    forall x | x in rest ensures x in s {
      assert x in [a, b, c] + rest;
      SameElements([a, b, c] + rest, s);
    }
  }

  // What occurs twice is at two places.
  lemma {:induction false} Places<T>(s: seq<T>, x: T) returns (i: nat, j: nat)
    requires multiset(s)[x] >= 2
    ensures i < j < |s| && s[i] == x && s[j] == x
  {
    assert s == [s[0]] + s[1..];
    if s[0] == x {
      assert x in multiset(s[1..]);
      var k :| 0 <= k < |s[1..]| && s[1..][k] == x;
      i, j := 0, k + 1;
    } else {
      i, j := Places(s[1..], x);
      i, j := i + 1, j + 1;
    }
  }

  lemma OccursTwice<T>(p: seq<T>, i: nat, j: nat)
    requires i < j < |p| && p[i] == p[j]
    ensures multiset(p)[p[i]] >= 2
  {
    assert p == p[..i] + [p[i]] + p[i + 1..j] + [p[j]] + p[j + 1..];
  }

  /** The line gives somebody a status. */
  ghost predicate Distinguishing(o: Offer) {
    exists n :: n in o.grants && o.grants[n] != PLAIN
  }

  lemma DistinctOffersDisjoint(s: seq<Offer>, o: Offer, p: Offer)
    requires Regular(s) && o in s && p in s && o != p
    ensures o.grants.Keys !! p.grants.Keys
  {
    var i :| 0 <= i < |s| && s[i] == o;
    var j :| 0 <= j < |s| && s[j] == p;
  }

  lemma PermutedRegular(s: seq<Offer>, p: seq<Offer>)
    requires Regular(s) && multiset(p) == multiset(s)
    ensures Regular(p)
  {
    SameElements(p, s);
    forall i | 0 <= i < |p| ensures (p[i].doesOp <==> Opped(p[i].grants)) && 0 <= p[i].mode.limit {
      assert p[i] in s;
    }
    forall i, j | 0 <= i < j < |p| ensures p[i].grants.Keys !! p[j].grants.Keys {
      assert p[i] in s && p[j] in s;
      if p[i] == p[j] {
        OccursTwice(p, i, j);
        var k, l := Places(s, p[i]);
      } else {
        DistinctOffersDisjoint(s, p[i], p[j]);
      }
    }
  }

  // ---- three lines are enough to tell two orders apart

  function Three(a: Offer, b: Offer, c: Offer): View {
    Step(Some(Step(Some(Step(None, a)), b)), c)
  }

  /** From here on no line strips anybody: the timestamp is 0, or there are operators and no older line ops anyone. */
  ghost predicate Settled(v: View, rest: seq<Offer>) {
    v.ts == 0 || (Opped(v.status) && forall o :: o in rest && o.doesOp && o.ts > 0 ==> v.ts <= o.ts)
  }

  lemma {:induction false} SettledStatus(v: View, rest: seq<Offer>)
    requires Settled(v, rest)
    ensures var w := RunOffers(Some(v), rest).value;
      && (w.ts == 0 || (w.ts == v.ts && Opped(w.status)))
      && forall n :: n in v.status ==> n in w.status && w.status[n] == v.status[n]
  {
    if rest != [] {
      var k := |rest| - 1;
      SettledStatus(v, rest[..k]);
      var u := RunOffers(Some(v), rest[..k]).value;
      assert rest[k] in rest;
      OppedUnion(Offered(rest[k].grants, VerdictOn(Some(u), rest[k]).keepNew), u.status);
    }
  }

  lemma {:induction false} RunConcat(b: Option<View>, s: seq<Offer>, t: seq<Offer>)
    ensures RunOffers(b, s + t) == RunOffers(RunOffers(b, s), t)
  {
    if t == [] {
      assert s + t == s;
    } else {
      var k := |t| - 1;
      assert (s + t)[..|s + t| - 1] == s + t[..k];
      RunConcat(b, s, t[..k]);
    }
  }

  lemma RunOne(b: Option<View>, o: Offer)
    ensures RunOffers(b, [o]) == Some(Step(b, o))
  {
    assert [o][..0] == [];
  }

  lemma RunThree(a: Offer, b: Offer, c: Offer, rest: seq<Offer>)
    ensures RunOffers(None, [a, b, c] + rest) == RunOffers(Some(Three(a, b, c)), rest)
  {
    RunConcat(None, [a, b, c], rest);
    assert [a, b, c] == [a] + ([b] + [c]);
    RunConcat(None, [a], [b] + [c]);
    RunConcat(RunOffers(None, [a]), [b], [c]);
    RunOne(None, a);
    RunOne(RunOffers(None, [a]), b);
    RunOne(RunOffers(RunOffers(None, [a]), [b]), c);
  }

  // The status n ends up with after three lines and the rest.
  lemma StatusAfter(a: Offer, b: Offer, c: Offer, rest: seq<Offer>, n: string)
    requires n in Three(a, b, c).status && Settled(Three(a, b, c), rest)
    ensures RunOffers(None, [a, b, c] + rest).Some?
    ensures n in RunOffers(None, [a, b, c] + rest).value.status
    ensures RunOffers(None, [a, b, c] + rest).value.status[n] == Three(a, b, c).status[n]
  {
    RunThree(a, b, c, rest);
    SettledStatus(Three(a, b, c), rest);
  }

  ghost predicate Apart(a: Offer, b: Offer, c: Offer) {
    && a.grants.Keys !! b.grants.Keys && b.grants.Keys !! c.grants.Keys && a.grants.Keys !! c.grants.Keys
    && (a.doesOp <==> Opped(a.grants)) && (b.doesOp <==> Opped(b.grants)) && (c.doesOp <==> Opped(c.grants))
  }

  // lead ops someone, high is younger, zero has timestamp 0: high's statuses survive only behind zero.
  lemma ZeroAndHigh(lead: Offer, high: Offer, zero: Offer, n: string)
    requires Apart(lead, high, zero) && lead.doesOp && 0 < lead.ts < high.ts && zero.ts == 0
    requires n in high.grants
    ensures var v := Three(lead, high, zero); v.ts == 0 && n in v.status && v.status[n] == PLAIN
    ensures var w := Three(zero, lead, high); w.ts == 0 && n in w.status && w.status[n] == high.grants[n]
  {
    FirstLine(lead);
    FirstLine(zero);
  }

  // low is opless and not younger than lead: a younger operator line lets lead strip it if it comes first.
  lemma LowAndHighOps(lead: Offer, high: Offer, low: Offer, n: string)
    requires Apart(lead, high, low) && lead.doesOp && high.doesOp && !low.doesOp && 0 < low.ts <= lead.ts < high.ts
    requires n in low.grants
    ensures var v := Three(lead, low, high);
            v.ts == lead.ts && Opped(v.status) && n in v.status && v.status[n] == low.grants[n]
    ensures var w := Three(high, low, lead); w.ts == lead.ts && Opped(w.status) && n in w.status && w.status[n] == PLAIN
  {
    FirstLine(lead);
    FirstLine(high);
    var v1 := Step(Some(Step(None, lead)), low);
    OppedUnion(low.grants, lead.grants);
    OppedUnion(Strip(high.grants), v1.status);
    var w1 := Step(Some(Step(None, high)), low);
    OppedUnion(low.grants, high.grants);
    OppedUnion(lead.grants, Strip(w1.status));
  }

  // Both others opless: low lets lead merge with high if it comes between them.
  lemma LowAndHighOpless(lead: Offer, high: Offer, low: Offer, n: string)
    requires Apart(lead, high, low) && lead.doesOp && !high.doesOp && !low.doesOp && 0 < low.ts <= lead.ts < high.ts
    requires n in high.grants
    ensures var v := Three(lead, high, low); v.ts == lead.ts && Opped(v.status) && n in v.status && v.status[n] == PLAIN
    ensures var w := Three(high, low, lead);
            w.ts == lead.ts && Opped(w.status) && n in w.status && w.status[n] == high.grants[n]
  {
    FirstLine(lead);
    FirstLine(high);
    var v1 := Step(Some(Step(None, lead)), high);
    OppedUnion(Strip(high.grants), lead.grants);
    OppedUnion(low.grants, v1.status);
    var w1 := Step(Some(Step(None, high)), low);
    OppedUnion(low.grants, high.grants);
    OppedUnion(lead.grants, w1.status);
  }

  // ---- the two directions

  lemma {:induction false} LeastOperator(s: seq<Offer>) returns (lead: Offer)
    requires exists o :: o in s && o.doesOp && o.ts > 0
    ensures lead in s && lead.doesOp && lead.ts > 0
    ensures forall o :: o in s && o.doesOp && o.ts > 0 ==> lead.ts <= o.ts
  {
    var last := s[|s| - 1];
    var front := s[..|s| - 1];
    assert s == front + [last];
    if exists o :: o in front && o.doesOp && o.ts > 0 {
      lead := LeastOperator(front);
      if last.doesOp && 0 < last.ts < lead.ts { lead := last; }
    } else {
      lead := last;
    }
  }

  lemma ApartIn(s: seq<Offer>, a: Offer, b: Offer, c: Offer)
    requires Regular(s) && a in s && b in s && c in s && a != b && b != c && a != c
    ensures Apart(a, b, c)
  {
    DistinctOffersDisjoint(s, a, b);
    DistinctOffersDisjoint(s, b, c);
    DistinctOffersDisjoint(s, a, c);
  }

  lemma TwoOrders(s: seq<Offer>, a: Offer, b: Offer, c: Offer, a': Offer, b': Offer,
                  c': Offer) returns (p: seq<Offer>, q: seq<Offer>)
    requires a in s && b in s && c in s && a != b && b != c && a != c
    requires multiset{a, b, c} == multiset{a', b', c'}
    ensures multiset(p) == multiset(s) && multiset(q) == multiset(s)
    ensures |p| == |q| >= 3 && p == [a, b, c] + p[3..] && q == [a', b', c'] + q[3..] && p[3..] == q[3..]
    ensures forall x :: x in p[3..] ==> x in s
  {
    var rest := ThreeFirst(s, a, b, c);
    p, q := [a, b, c] + rest, [a', b', c'] + rest;
    assert multiset([a, b, c]) == multiset{a, b, c} && multiset([a', b', c']) == multiset{a', b', c'};
    assert p[3..] == rest && q[3..] == rest;
  }

  ghost predicate OrderMatters(s: seq<Offer>, p: seq<Offer>, q: seq<Offer>) {
    multiset(p) == multiset(s) && multiset(q) == multiset(s) && RunOffers(None, p) != RunOffers(None, q)
  }

  // Two orders that start with three lines leaving n with different statuses for good.
  lemma TwoOrdersDiffer(s: seq<Offer>, a: Offer, b: Offer, c: Offer, a': Offer, b': Offer, c': Offer, n: string)
      returns (p: seq<Offer>, q: seq<Offer>)
    requires a in s && b in s && c in s && a != b && b != c && a != c
    requires multiset{a, b, c} == multiset{a', b', c'}
    requires n in Three(a, b, c).status && n in Three(a', b', c').status
    requires Three(a, b, c).status[n] != Three(a', b', c').status[n]
    requires Settled(Three(a, b, c), s) && Settled(Three(a', b', c'), s)
    ensures OrderMatters(s, p, q)
  {
    p, q := TwoOrders(s, a, b, c, a', b', c');
    StatusAfter(a, b, c, p[3..], n);
    StatusAfter(a', b', c', q[3..], n);
  }

  lemma DisagreeWithZero(s: seq<Offer>, lead: Offer, high: Offer, zero: Offer) returns (p: seq<Offer>, q: seq<Offer>)
    requires Regular(s) && lead in s && high in s && zero in s
    requires lead.doesOp && 0 < lead.ts < high.ts && zero.ts == 0 && Distinguishing(high)
    ensures OrderMatters(s, p, q)
  {
    hide Step;
    var n :| n in high.grants && high.grants[n] != PLAIN;
    ApartIn(s, lead, high, zero);
    ZeroAndHigh(lead, high, zero, n);
    p, q := TwoOrdersDiffer(s, lead, high, zero, zero, lead, high, n);
  }

  ghost predicate Lowest(s: seq<Offer>, lead: Offer, high: Offer, low: Offer) {
    && lead in s && high in s && low in s
    && lead.doesOp && !low.doesOp && 0 < low.ts <= lead.ts < high.ts
    && forall o :: o in s && o.doesOp && o.ts > 0 ==> lead.ts <= o.ts
  }

  lemma DisagreeWithLowAndOps(s: seq<Offer>, lead: Offer, high: Offer,
                              low: Offer) returns (p: seq<Offer>, q: seq<Offer>)
    requires Regular(s) && Lowest(s, lead, high, low) && high.doesOp && Distinguishing(low)
    ensures OrderMatters(s, p, q)
  {
    hide Step;
    ApartIn(s, lead, high, low);
    var n :| n in low.grants && low.grants[n] != PLAIN;
    LowAndHighOps(lead, high, low, n);
    p, q := TwoOrdersDiffer(s, lead, low, high, high, low, lead, n);
  }

  lemma DisagreeWithLowAndOpless(s: seq<Offer>, lead: Offer, high: Offer,
                                 low: Offer) returns (p: seq<Offer>, q: seq<Offer>)
    requires Regular(s) && Lowest(s, lead, high, low) && !high.doesOp && Distinguishing(high)
    ensures OrderMatters(s, p, q)
  {
    hide Step;
    ApartIn(s, lead, high, low);
    var n :| n in high.grants && high.grants[n] != PLAIN;
    LowAndHighOpless(lead, high, low, n);
    p, q := TwoOrdersDiffer(s, lead, high, low, high, low, lead, n);
  }

  /** Necessary: a collection that does not commute has two orders with different results. */
  lemma OrdersDisagree(s: seq<Offer>) returns (p: seq<Offer>, q: seq<Offer>)
    requires Regular(s) && !Commuting(s)
    requires forall o :: o in s ==> Distinguishing(o)
    ensures OrderMatters(s, p, q)
  {
    var o, high :| o in s && high in s && o.doesOp && o.ts > 0 && high.ts > o.ts;
    var lead := LeastOperator(s);
    if AllPositive(s) {
      assert !OpsLead(s, lead);
      var low :| low in s && !(lead.ts < low.ts || (lead.ts == low.ts && low.doesOp));
      var i :| 0 <= i < |s| && s[i] == low;
      if high.doesOp {
        p, q := DisagreeWithLowAndOps(s, lead, high, low);
      } else {
        p, q := DisagreeWithLowAndOpless(s, lead, high, low);
      }
    } else {
      var i :| 0 <= i < |s| && s[i].ts == 0;
      p, q := DisagreeWithZero(s, lead, high, s[i]);
    }
  }

  /**
   * Order independence, exactly. For op-first lines with disjoint members, each giving somebody a status, every order
   * of processing gives the same timestamp, modes, members and statuses if and only if no line is younger than a line
   * that ops someone, or else all timestamps are positive and the oldest lines all op someone.
   */
  lemma OrderIndependence(s: seq<Offer>)
    requires Regular(s) && s != []
    requires forall o :: o in s ==> Distinguishing(o)
    ensures (forall p: seq<Offer> :: multiset(p) == multiset(s) ==> RunOffers(None, p) == RunOffers(None, s))
       <==> Commuting(s)
  {
    if Commuting(s) {
      forall p: seq<Offer> | multiset(p) == multiset(s) ensures RunOffers(None, p) == RunOffers(None, s) {
        SameElements(p, s);
        PermutedRegular(s, p);
        CommutingOrdersAgree(s, p);
      }
    } else {
      var p, q := OrdersDisagree(s);
      assert multiset(p) == multiset(s) && multiset(q) == multiset(s);
      assert RunOffers(None, p) != RunOffers(None, s) || RunOffers(None, q) != RunOffers(None, s);
    }
  }

  // ---- the same about lines

  function Omit<T>(s: seq<T>, i: nat): seq<T>
    requires i < |s|
  {
    s[..i] + s[i + 1..]
  }

  lemma OmitCounts<T>(s: seq<T>, i: nat)
    requires i < |s|
    ensures multiset(s) == multiset{s[i]} + multiset(Omit(s, i))
    ensures multiset(Omit(s, i)) == multiset(s) - multiset{s[i]}
  {
    assert s == s[..i] + [s[i]] + s[i + 1..];
  }

  lemma OffersOmit(lines: seq<Line>, i: nat)
    requires AllAccepted(lines) && i < |lines|
    ensures AllAccepted(Omit(lines, i)) && Offers(Omit(lines, i)) == Omit(Offers(lines), i)
  {
    var rest := Omit(lines, i);
    forall j | 0 <= j < |rest| ensures rest[j] == lines[if j < i then j else j + 1] {}
  }

  lemma ConsCounts<T>(x: T, s: seq<T>, t: seq<T>)
    requires x in t && multiset(s) == multiset(t) - multiset{x}
    ensures multiset([x] + s) == multiset(t)
  {
    assert x in multiset(t);
  }

  lemma SameElement<T>(s: seq<T>, t: seq<T>, i: nat) returns (j: nat)
    requires multiset(s) == multiset(t) && i < |s|
    ensures j < |t| && t[j] == s[i]
  {
    assert s[i] in multiset(s) && s[i] in t;
    j :| 0 <= j < |t| && t[j] == s[i];
  }

  lemma OffersCons(line: Line, lines: seq<Line>)
    requires OfferOf(line).Some? && AllAccepted(lines)
    ensures AllAccepted([line] + lines) && Offers([line] + lines) == [OfferOf(line).value] + Offers(lines)
  {
  }

  // A reordering of what the lines say comes from a reordering of the lines.
  lemma {:induction false} LiftPermutation(lines: seq<Line>, p: seq<Offer>) returns (q: seq<Line>)
    requires AllAccepted(lines) && multiset(p) == multiset(Offers(lines))
    ensures multiset(q) == multiset(lines) && AllAccepted(q) && Offers(q) == p
  {
    hide OfferOf;
    if p == [] {
      q := [];
      assert |multiset(Offers(lines))| == 0;
    } else {
      var i := SameElement(p, Offers(lines), 0);
      OffersOmit(lines, i);
      OmitCounts(Offers(lines), i);
      OmitCounts(p, 0);
      var q' := LiftPermutation(Omit(lines, i), Omit(p, 0));
      q := [lines[i]] + q';
      LiftFirst(lines, p, i, q');
    }
  }

  lemma LiftFirst(lines: seq<Line>, p: seq<Offer>, i: nat, q: seq<Line>)
    requires i < |lines| && AllAccepted(lines) && p != [] && p[0] == OfferOf(lines[i]).value
    requires multiset(q) == multiset(Omit(lines, i)) && AllAccepted(q) && Offers(q) == Omit(p, 0)
    ensures var r := [lines[i]] + q; multiset(r) == multiset(lines) && AllAccepted(r) && Offers(r) == p
  {
    hide OfferOf;
    OmitCounts(lines, i);
    ConsCounts(lines[i], q, lines);
    OffersCons(lines[i], q);
    assert p == [p[0]] + Omit(p, 0);
  }

  lemma {:induction false} OffersPermute(lines: seq<Line>, q: seq<Line>)
    requires AllAccepted(lines) && multiset(q) == multiset(lines)
    ensures AllAccepted(q) && multiset(Offers(q)) == multiset(Offers(lines))
  {
    hide OfferOf;
    SameElements(q, lines);
    if q != [] {
      assert q[0] in lines;
      var i :| 0 <= i < |lines| && lines[i] == q[0];
      OffersOmit(lines, i);
      OmitCounts(lines, i);
      OmitCounts(q, 0);
      OffersPermute(Omit(lines, i), Omit(q, 0));
      OffersCons(q[0], Omit(q, 0));
      assert q == [q[0]] + Omit(q, 0);
      OmitCounts(Offers(lines), i);
      OmitCounts(Offers(q), 0);
      assert Omit(Offers(q), 0) == Offers(Omit(q, 0));
    }
  }

  lemma ReachablePermutes(lines: seq<Line>, q: seq<Line>, reachable: set<string>)
    requires AllReachable(lines, reachable) && multiset(q) == multiset(lines)
    ensures AllReachable(q, reachable)
  {
    SameElements(q, lines);
    forall i | 0 <= i < |q| ensures Reachable(q[i], reachable) { assert q[i] in lines; }
  }

  lemma PermutedLines(lines: seq<Line>, q: seq<Line>, reachable: set<string>)
    requires lines != [] && AllAccepted(lines) && AllReachable(lines, reachable) && multiset(q) == multiset(lines)
    ensures AllAccepted(q) && multiset(Offers(q)) == multiset(Offers(lines))
    ensures ViewOfOption(Run(None, q, reachable)) == RunOffers(None, Offers(q))
  {
    OffersPermute(lines, q);
    ReachablePermutes(lines, q, reachable);
    RunSeen(None, q, reachable);
  }

  lemma SomeOffers(lines: seq<Line>)
    requires AllAccepted(lines)
    ensures |Offers(lines)| == |lines|
  {
  }

  /**
   * Lines that commute make the same channel in every order they arrive in, whether or not they give anyone a
   * status.
   */
  lemma CommutingLinesAgree(lines: seq<Line>, q: seq<Line>, reachable: set<string>)
    requires lines != [] && AllAccepted(lines) && AllReachable(lines, reachable)
    requires Regular(Offers(lines)) && Commuting(Offers(lines)) && multiset(q) == multiset(lines)
    ensures ViewOfOption(Run(None, q, reachable)) == ViewOfOption(Run(None, lines, reachable))
  {
    hide Commuting, Regular, AllAccepted, AllReachable, Offers, Run, RunOffers, OfferOf;
    PermutedLines(lines, q, reachable);
    PermutedLines(lines, lines, reachable);
    SomeOffers(lines);
    SomeOffers(q);
    assert multiset(Offers(lines)) == multiset(Offers(q));
    PermutedRegular(Offers(lines), Offers(q));
    SameElements(Offers(lines), Offers(q));
    CommutingOrdersAgree(Offers(lines), Offers(q));
  }

  /**
   * What m_sjoin makes of a set of lines on a channel that does not exist yet is independent of the order they
   * arrive in, up to the order of the member list, exactly when the lines commute.
   */
  lemma ArrivalOrder(lines: seq<Line>, reachable: set<string>)
    requires lines != [] && AllAccepted(lines) && AllReachable(lines, reachable)
    requires Regular(Offers(lines)) && forall o :: o in Offers(lines) ==> Distinguishing(o)
    ensures (forall q: seq<Line> :: multiset(q) == multiset(lines) ==>
               ViewOfOption(Run(None, q, reachable)) == ViewOfOption(Run(None, lines, reachable)))
       <==> Commuting(Offers(lines))
  {
    hide Commuting, Regular;
    var s := Offers(lines);
    OrderIndependence(s);
    if Commuting(s) {
      forall q: seq<Line> | multiset(q) == multiset(lines)
        ensures ViewOfOption(Run(None, q, reachable)) == ViewOfOption(Run(None, lines, reachable))
      {
        CommutingLinesAgree(lines, q, reachable);
      }
    } else {
      var p: seq<Offer> :| multiset(p) == multiset(s) && RunOffers(None, p) != RunOffers(None, s);
      var q := LiftPermutation(lines, p);
      PermutedLines(lines, lines, reachable);
      PermutedLines(lines, q, reachable);
      assert multiset(q) == multiset(lines);
    }
  }
}
