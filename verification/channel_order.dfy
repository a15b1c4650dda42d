/**
 * Does the order in which a server receives channel descriptions matter? doc/README.TSora:320-328 says it never
 * does. The code decides: the timestamp alone never depends on the order, and the whole state is independent of
 * it exactly for the collections Commuting describes.
 */
module ChannelOrder {
  import opened Text
  import opened ChannelModel
  import opened ChannelView
  import opened ChannelConvergence

  /** Op-first lines with disjoint members and no negative limit. */
  ghost predicate Regular(offers: seq<Offer>) {
    && (forall i :: 0 <= i < |offers| ==> (offers[i].doesOp <==> Opped(offers[i].grants)) && 0 <= offers[i].mode.limit)
    && (forall i, j :: 0 <= i < j < |offers| ==> offers[i].grants.Keys !! offers[j].grants.Keys)
  }

  ghost predicate AllPositive(offers: seq<Offer>) {
    forall i :: 0 <= i < |offers| ==> offers[i].ts > 0
  }

  lemma RegularPrefix(offers: seq<Offer>)
    requires Regular(offers) && offers != []
    ensures Regular(offers[..|offers| - 1])
    ensures AllPositive(offers) ==> AllPositive(offers[..|offers| - 1])
  {
  }

  // Names on the channel after a run are those of the lines processed.
  lemma {:induction false} RunKeys(offers: seq<Offer>)
    ensures offers != [] ==> RunOffers(None, offers).value.status.Keys == AllGrants(offers).Keys
    ensures offers == [] ==> RunOffers(None, offers).None?
  {
    if offers != [] {
      RunKeys(offers[..|offers| - 1]);
    }
  }

  lemma {:induction false} GrantsOrigin(offers: seq<Offer>, n: string)
    ensures n in AllGrants(offers) <==> exists i :: 0 <= i < |offers| && n in offers[i].grants
  {
    if offers != [] {
      var k := |offers| - 1;
      GrantsOrigin(offers[..k], n);
      if i :| 0 <= i < |offers| && n in offers[i].grants && i < k {
        assert n in offers[..k][i].grants;
      }
    }
  }

  // The last line's nicks are new.
  lemma LastIsNew(offers: seq<Offer>)
    requires Regular(offers) && |offers| > 1
    ensures RunOffers(None, offers[..|offers| - 1]).Some?
    ensures RunOffers(None, offers[..|offers| - 1]).value.status.Keys !! offers[|offers| - 1].grants.Keys
  {
    var k := |offers| - 1;
    RunKeys(offers[..k]);
    forall n | n in offers[k].grants ensures n !in AllGrants(offers[..k]) {
      GrantsOrigin(offers[..k], n);
    }
  }

  // A first line is taken over as it is.
  lemma FirstLine(a: Offer)
    ensures Step(None, a).status == a.grants && Step(None, a).ts == a.ts
  {
    assert a.grants + map[] == a.grants;
  }

  // ---- the timestamp

  ghost predicate SomeOps(offers: seq<Offer>) {
    exists i :: 0 <= i < |offers| && offers[i].doesOp
  }

  // t is the least timestamp of the lines, or of those that op someone.
  ghost predicate IsLeast(t: nat, offers: seq<Offer>, opsOnly: bool) {
    && (exists i :: 0 <= i < |offers| && (opsOnly ==> offers[i].doesOp) && offers[i].ts == t)
    && (forall i :: 0 <= i < |offers| && (opsOnly ==> offers[i].doesOp) ==> t <= offers[i].ts)
  }

  lemma LeastOfMore(t: nat, offers: seq<Offer>, o: Offer, opsOnly: bool)
    requires IsLeast(t, offers, opsOnly)
    ensures opsOnly && !o.doesOp ==> IsLeast(t, offers + [o], opsOnly)
    ensures !(opsOnly && !o.doesOp) ==> IsLeast(if o.ts < t then o.ts else t, offers + [o], opsOnly)
  {
    var more := offers + [o];
    var i :| 0 <= i < |offers| && (opsOnly ==> offers[i].doesOp) && offers[i].ts == t;
    assert more[i] == offers[i];
    assert more[|offers|] == o;
  }

  // One positive op-first line: who has operators afterwards, and the timestamp.
  lemma OpsAndTsAfter(u: View, o: Offer)
    requires u.ts > 0 && o.ts > 0 && (o.doesOp <==> Opped(o.grants)) && u.status.Keys !! o.grants.Keys
    ensures var s := Step(Some(u), o);
      && (Opped(s.status) <==> Opped(u.status) || o.doesOp)
      && s.ts == TsAfter(u.ts, Opped(u.status), o)
  {
    var v := Judge(false, o.ts, u.ts, Opped(u.status), o.doesOp);
    OppedUnion(Offered(o.grants, v.keepNew), if v.keepOurs then u.status else Strip(u.status));
    OppedStrip(o.grants);
    OppedStrip(u.status);
  }

  ghost predicate Tracks(t: nat, opped: bool, offers: seq<Offer>) {
    (opped <==> SomeOps(offers)) && IsLeast(t, offers, opped)
  }

  function TsAfter(t: nat, opped: bool, o: Offer): nat {
    if opped == o.doesOp then (if o.ts < t then o.ts else t) else if o.doesOp then o.ts else t
  }

  lemma TracksMore(t: nat, opped: bool, offers: seq<Offer>, o: Offer)
    requires Tracks(t, opped, offers)
    ensures Tracks(TsAfter(t, opped, o), opped || o.doesOp, offers + [o])
  {
    var more := offers + [o];
    assert forall i :: 0 <= i < |offers| ==> more[i] == offers[i];
    assert more[|offers|] == o;
    LeastOfMore(t, offers, o, opped);
    if opped {
      var i :| 0 <= i < |offers| && offers[i].doesOp;
      assert more[i].doesOp;
    }
  }

  /**
   * After any sequence of op-first lines with positive timestamps, in any order, the channel has operators iff
   * some line opped someone, and its timestamp is the least among the lines that did, or among all if none did.
   */
  lemma {:induction false} TimestampClosedForm(offers: seq<Offer>)
    requires Regular(offers) && AllPositive(offers) && offers != []
    ensures var v := RunOffers(None, offers).value;
      && (Opped(v.status) <==> SomeOps(offers))
      && IsLeast(v.ts, offers, SomeOps(offers))
  {
    var k := |offers| - 1;
    var front, o := offers[..k], offers[k];
    assert offers == front + [o];
    hide Step;
    if k == 0 {
      assert RunOffers(None, front).None?;
      FirstLine(o);
      assert offers[0] == o;
    } else {
      RegularPrefix(offers);
      TimestampClosedForm(front);
      LastIsNew(offers);
      var u := RunOffers(None, front).value;
      OpsAndTsAfter(u, o);
      TracksMore(u.ts, Opped(u.status), front, o);
    }
  }

  // ---- the whole state

  /** No positive line is younger than a positive line that ops someone: every line is merged. */
  ghost predicate NothingLoses(offers: seq<Offer>) {
    forall o, p :: o in offers && p in offers && o.doesOp && o.ts > 0 && p.ts > 0 ==> p.ts <= o.ts
  }

  ghost predicate Led(offers: seq<Offer>, t: nat) {
    forall o :: o in offers ==> t < o.ts || (t == o.ts && o.doesOp)
  }

  /** All lines are positive, and those with the least timestamp all op someone: every other line loses. */
  ghost predicate OpsLead(offers: seq<Offer>, lead: Offer) {
    && AllPositive(offers)
    && lead in offers && lead.doesOp
    && Led(offers, lead.ts)
  }

  ghost predicate Commuting(offers: seq<Offer>) {
    NothingLoses(offers) || exists lead :: OpsLead(offers, lead)
  }

  // A line's modes and statuses survive: always, or only at the timestamp t.
  ghost predicate Survives(o: Offer, t: Option<nat>) {
    t.Some? ==> o.ts == t.value
  }

  /** Letters of any surviving line, greatest limit, greatest key. */
  ghost predicate IsModeMerge(m: Mode, offers: seq<Offer>, t: Option<nat>) {
    && (forall c :: c in m.letters <==> exists o :: o in offers && Survives(o, t) && c in o.mode.letters)
    && (exists o :: o in offers && Survives(o, t) && o.mode.limit == m.limit)
    && (forall o :: o in offers && Survives(o, t) ==> o.mode.limit <= m.limit)
    && (exists o :: o in offers && Survives(o, t) && o.mode.key == m.key)
    && (forall o :: o in offers && Survives(o, t) ==> !Less(m.key, o.mode.key))
  }

  /** Everybody joined, with the status of the line that brought them if that line survives. */
  ghost predicate IsStatusMerge(s: Statuses, offers: seq<Offer>, t: Option<nat>) {
    && HasMembersOf(s, offers)
    && (forall o, n :: o in offers && n in o.grants ==> s[n] == if Survives(o, t) then o.grants[n] else PLAIN)
  }

  ghost predicate HasMembersOf(s: Statuses, offers: seq<Offer>) {
    && (forall o, n :: o in offers && n in o.grants ==> n in s)
    && (forall n :: n in s ==> exists o :: o in offers && n in o.grants)
  }

  ghost predicate IsMerge(v: View, offers: seq<Offer>, t: Option<nat>) {
    IsModeMerge(v.mode, offers, t) && IsStatusMerge(v.status, offers, t)
  }

  // The merge is determined by which lines there are, not by their order.
  lemma MergeIsUnique(v: View, w: View, s1: seq<Offer>, s2: seq<Offer>, t: Option<nat>)
    requires IsMerge(v, s1, t) && IsMerge(w, s2, t)
    requires forall o :: o in s1 <==> o in s2
    ensures v.mode == w.mode && v.status == w.status
  {
    assert v.mode.letters == w.mode.letters;
    assert v.mode.key == w.mode.key by { LessTotal(v.mode.key, w.mode.key); }
    forall n ensures n in v.status <==> n in w.status {}
    forall n | n in v.status ensures v.status[n] == w.status[n] {
      var o :| o in s1 && n in o.grants;
    }
  }

  lemma MergeOne(o: Offer)
    requires 0 <= o.mode.limit
    ensures IsMerge(Step(None, o), [o], None)
    ensures IsMerge(Step(None, o), [o], Some(o.ts))
  {
    MergeModeLaws(o.mode, NO_MODE, NO_MODE);
    assert o.grants + map[] == o.grants;
    LessTotal(o.mode.key, o.mode.key);
    assert o in [o];
  }

  lemma InMore(offers: seq<Offer>, o: Offer)
    ensures forall p :: p in offers + [o] <==> p in offers || p == o
  {
  }

  lemma ModesMergeMore(m: Mode, offers: seq<Offer>, o: Offer, t: Option<nat>)
    requires IsModeMerge(m, offers, t)
    ensures Survives(o, t) ==> IsModeMerge(MergeMode(o.mode, m), offers + [o], t)
    ensures !Survives(o, t) ==> IsModeMerge(m, offers + [o], t)
  {
    InMore(offers, o);
    var more := offers + [o];
    assert o in more;
    if Survives(o, t) {
      var m' := MergeMode(o.mode, m);
      forall c ensures c in m'.letters <==> exists p :: p in more && Survives(p, t) && c in p.mode.letters {}
      forall p | p in more && Survives(p, t) ensures !Less(m'.key, p.mode.key) {
        LessTotal(o.mode.key, o.mode.key);
        if Less(m.key, o.mode.key) && Less(m'.key, p.mode.key) && p != o {
          LessTransitive(m.key, o.mode.key, p.mode.key);
        }
        LessTotal(o.mode.key, m.key);
        if Less(o.mode.key, m.key) && p == o { LessTotal(m.key, o.mode.key); }
      }
    }
  }

  lemma MembersMore(s: Statuses, offers: seq<Offer>, o: Offer, a: Statuses, b: Statuses)
    requires HasMembersOf(s, offers)
    requires a.Keys == o.grants.Keys && b.Keys == s.Keys
    ensures HasMembersOf(a + b, offers + [o])
  {
    InMore(offers, o);
    assert o in offers + [o];
    forall n | n in a + b ensures exists p :: p in offers + [o] && n in p.grants {
      if n in a { assert n in o.grants; } else { assert n in s; }
    }
  }

  lemma StatusesMergeMore(s: Statuses, offers: seq<Offer>, o: Offer, t: Option<nat>)
    requires IsStatusMerge(s, offers, t) && s.Keys !! o.grants.Keys
    ensures IsStatusMerge(Offered(o.grants, Survives(o, t)) + s, offers + [o], t)
  {
    InMore(offers, o);
    MembersMore(s, offers, o, Offered(o.grants, Survives(o, t)), s);
  }

  // The first surviving line takes over from lines that do not survive.
  lemma MergeTakesOver(u: View, offers: seq<Offer>, o: Offer)
    requires HasMembersOf(u.status, offers) && u.status.Keys !! o.grants.Keys
    requires forall p :: p in offers ==> p.ts != o.ts
    ensures IsModeMerge(o.mode, offers + [o], Some(o.ts))
    ensures IsStatusMerge(o.grants + Strip(u.status), offers + [o], Some(o.ts))
  {
    InMore(offers, o);
    LessTotal(o.mode.key, o.mode.key);
    assert o in offers + [o];
    MembersMore(u.status, offers, o, o.grants, Strip(u.status));
  }

  lemma {:induction false} MembersOfRun(offers: seq<Offer>)
    requires offers != []
    ensures HasMembersOf(RunOffers(None, offers).value.status, offers)
  {
    var s := RunOffers(None, offers).value.status;
    RunKeys(offers);
    forall n | n in s ensures exists o :: o in offers && n in o.grants {
      GrantsOrigin(offers, n);
      var i :| 0 <= i < |offers| && n in offers[i].grants;
      assert offers[i] in offers;
    }
    forall o, n | o in offers && n in o.grants ensures n in s {
      GrantsOrigin(offers, n);
    }
  }

  // ---- when nothing loses

  ghost predicate SomeZero(offers: seq<Offer>) {
    exists o :: o in offers && o.ts == 0
  }

  // The timestamp when every line is merged: 0 if there is a zero line, else as in TimestampClosedForm.
  ghost predicate MergedTs(t: nat, offers: seq<Offer>) {
    if SomeZero(offers) then t == 0 else t > 0 && IsLeast(t, offers, SomeOps(offers))
  }

  lemma PositiveTs(offers: seq<Offer>)
    requires Regular(offers) && offers != [] && AllPositive(offers)
    ensures var v := RunOffers(None, offers).value; v.ts > 0 && MergedTs(v.ts, offers)
  {
    TimestampClosedForm(offers);
    assert !SomeZero(offers);
  }

  // If no line younger than an operator's comes along, the next line is merged both ways.
  lemma NextIsMerged(front: seq<Offer>, u: View, o: Offer)
    requires Regular(front) && front != [] && u == RunOffers(None, front).value
    requires NothingLoses(front + [o]) && MergedTs(u.ts, front)
    ensures VerdictOn(Some(u), o).keepOurs && VerdictOn(Some(u), o).keepNew
  {
    InMore(front, o);
    assert o in front + [o];
    if u.ts > 0 {
      assert AllPositive(front) by {
        forall i | 0 <= i < |front| ensures front[i].ts > 0 { assert front[i] in front; }
      }
      TimestampClosedForm(front);
      var i :| 0 <= i < |front| && (SomeOps(front) ==> front[i].doesOp) && front[i].ts == u.ts;
      assert front[i] in front + [o];
    }
  }

  lemma MergedStep(u: View, front: seq<Offer>, o: Offer)
    requires IsMerge(u, front, None) && u.status.Keys !! o.grants.Keys
    requires VerdictOn(Some(u), o).keepOurs && VerdictOn(Some(u), o).keepNew
    ensures IsMerge(Step(Some(u), o), front + [o], None)
    ensures u.ts == 0 || o.ts == 0 ==> Step(Some(u), o).ts == 0
  {
    ModesMergeMore(u.mode, front, o, None);
    StatusesMergeMore(u.status, front, o, None);
  }

  lemma {:induction false} AllMerged(offers: seq<Offer>)
    requires Regular(offers) && offers != [] && NothingLoses(offers)
    ensures var v := RunOffers(None, offers).value; IsMerge(v, offers, None) && MergedTs(v.ts, offers)
  {
    var k := |offers| - 1;
    var front, o := offers[..k], offers[k];
    assert offers == front + [o];
    hide Step, IsMerge, IsLeast, SomeOps, VerdictOn, Opped;
    if k == 0 {
      assert offers == [o];
      MergeOne(o);
      FirstLine(o);
      if o.ts > 0 { PositiveTs(offers); } else { assert o in offers; }
    } else {
      RegularPrefix(offers);
      InMore(front, o);
      AllMerged(front);
      LastIsNew(offers);
      var u := RunOffers(None, front).value;
      NextIsMerged(front, u, o);
      MergedStep(u, front, o);
      if AllPositive(offers) {
        PositiveTs(offers);
      } else {
        assert SomeZero(offers) by {
          var i :| 0 <= i < |offers| && offers[i].ts == 0;
          assert offers[i] in offers;
        }
        assert SomeZero(front) || o.ts == 0;
      }
    }
  }

  // ---- when the oldest lines all op someone

  ghost predicate HasLeader(offers: seq<Offer>, t: nat) {
    exists o :: o in offers && o.ts == t
  }

  // A further line, once a leader has been processed: merged if it leads too, dropped if not.
  lemma NextAfterLeader(u: View, front: seq<Offer>, o: Offer, t: nat)
    requires IsMerge(u, front, Some(t)) && u.ts == t && Opped(u.status)
    requires t > 0 && (t < o.ts || t == o.ts) && u.status.Keys !! o.grants.Keys
    ensures var v := Step(Some(u), o); IsMerge(v, front + [o], Some(t)) && v.ts == t && Opped(v.status)
  {
    ModesMergeMore(u.mode, front, o, Some(t));
    StatusesMergeMore(u.status, front, o, Some(t));
    OppedUnion(Offered(o.grants, t == o.ts), u.status);
  }

  // The first leader strips what was there.
  lemma FirstLeader(u: View, front: seq<Offer>, o: Offer)
    requires HasMembersOf(u.status, front) && u.status.Keys !! o.grants.Keys
    requires forall p :: p in front ==> p.ts != o.ts
    requires 0 < o.ts < u.ts && o.doesOp && Opped(o.grants)
    ensures var v := Step(Some(u), o); IsMerge(v, front + [o], Some(o.ts)) && v.ts == o.ts && Opped(v.status)
  {
    MergeTakesOver(u, front, o);
    OppedUnion(o.grants, Strip(u.status));
  }

  // Until a leader comes, the channel is younger than it.
  lemma NoLeaderYet(front: seq<Offer>, t: nat)
    requires Regular(front) && front != [] && AllPositive(front)
    requires Led(front, t) && !HasLeader(front, t)
    ensures RunOffers(None, front).value.ts > t
  {
    TimestampClosedForm(front);
    var j :| 0 <= j < |front| && front[j].ts == RunOffers(None, front).value.ts;
    assert front[j] in front;
  }

  lemma {:induction false} LeadersMerged(offers: seq<Offer>, t: nat)
    requires Regular(offers) && offers != [] && AllPositive(offers)
    requires Led(offers, t) && HasLeader(offers, t)
    ensures var v := RunOffers(None, offers).value; IsMerge(v, offers, Some(t)) && v.ts == t && Opped(v.status)
  {
    var k := |offers| - 1;
    var front, o := offers[..k], offers[k];
    assert offers == front + [o];
    InMore(front, o);
    hide Step, IsMerge;
    if k == 0 {
      assert offers == [o];
      MergeOne(o);
      FirstLine(o);
    } else {
      RegularPrefix(offers);
      LastIsNew(offers);
      var u := RunOffers(None, front).value;
      if HasLeader(front, t) {
        LeadersMerged(front, t);
        NextAfterLeader(u, front, o, t);
      } else {
        NoLeaderYet(front, t);
        MembersOfRun(front);
        FirstLeader(u, front, o);
      }
    }
  }

  /** Sufficient: of a commuting collection, two orders give the same state. */
  lemma CommutingOrdersAgree(s1: seq<Offer>, s2: seq<Offer>)
    requires Regular(s1) && Regular(s2) && s1 != [] && s2 != []
    requires forall o :: o in s1 <==> o in s2
    requires Commuting(s1)
    ensures RunOffers(None, s1) == RunOffers(None, s2)
  {
    hide Step, IsMerge, MergedTs, Regular;
    var v, w := RunOffers(None, s1).value, RunOffers(None, s2).value;
    if NothingLoses(s1) {
      AllMerged(s1);
      AllMerged(s2);
      MergeIsUnique(v, w, s1, s2, None);
      SameTs(v.ts, w.ts, s1, s2);
    } else {
      var lead :| OpsLead(s1, lead);
      forall i | 0 <= i < |s2| ensures s2[i].ts > 0 { assert s2[i] in s1; }
      assert HasLeader(s1, lead.ts) && HasLeader(s2, lead.ts);
      LeadersMerged(s1, lead.ts);
      LeadersMerged(s2, lead.ts);
      MergeIsUnique(v, w, s1, s2, Some(lead.ts));
    }
  }

  lemma SameTs(t: nat, u: nat, s1: seq<Offer>, s2: seq<Offer>)
    requires MergedTs(t, s1) && MergedTs(u, s2)
    requires forall o :: o in s1 <==> o in s2
    ensures t == u
  {
    LeastWithin(t, u, s1, s2);
    LeastWithin(u, t, s2, s1);
  }

  lemma LeastWithin(t: nat, u: nat, s1: seq<Offer>, s2: seq<Offer>)
    requires MergedTs(t, s1) && MergedTs(u, s2)
    requires forall o :: o in s1 <==> o in s2
    ensures u <= t
  {
    assert SomeZero(s1) <==> SomeZero(s2);
    assert SomeOps(s1) <==> SomeOps(s2) by {
      if i :| 0 <= i < |s1| && s1[i].doesOp {
        assert s1[i] in s2;
        var j :| 0 <= j < |s2| && s2[j] == s1[i];
        assert s2[j].doesOp;
      }
      if i :| 0 <= i < |s2| && s2[i].doesOp {
        assert s2[i] in s1;
        var j :| 0 <= j < |s1| && s1[j] == s2[i];
        assert s1[j].doesOp;
      }
    }
    if !SomeZero(s1) {
      var i :| 0 <= i < |s1| && (SomeOps(s1) ==> s1[i].doesOp) && s1[i].ts == t;
      assert s1[i] in s2;
      var j :| 0 <= j < |s2| && s2[j] == s1[i];
      assert u <= s2[j].ts;
    }
  }
}
