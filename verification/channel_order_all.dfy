/**
 * Order independence for all op-first lines. Some lines can lose in one order of arrival and be merged in another; the
 * order does not matter exactly when what these bring is there without them.
 */
module ChannelOrderAll {
  import opened Text
  import opened ChannelModel
  import opened ChannelView
  import opened ChannelConvergence
  import opened ChannelOrder
  import opened ChannelOrderExact

  // ---- which lines waver

  /** The oldest line with a timestamp that ops someone. */
  ghost predicate Leads(s: seq<Offer>, lead: Offer) {
    && lead in s && lead.doesOp && lead.ts > 0
    && forall o :: o in s && o.doesOp && o.ts > 0 ==> lead.ts <= o.ts
  }

  // Younger than the oldest operators, and opping someone.
  ghost predicate HighOp(s: seq<Offer>, t: nat) {
    exists o :: o in s && o.doesOp && o.ts > t
  }

  // Not younger than them, without operators.
  predicate Low(o: Offer, t: nat) {
    !o.doesOp && 0 < o.ts <= t
  }

  ghost predicate SomeLow(s: seq<Offer>, t: nat) {
    exists o :: o in s && Low(o, t)
  }

  /** Lines merged in some orders and not in others. */
  ghost predicate Wavers(s: seq<Offer>, t: nat, o: Offer) {
    || (o.ts > t && (SomeZero(s) || (SomeLow(s, t) && !o.doesOp)))
    || (Low(o, t) && HighOp(s, t))
  }

  /** Lines merged in every order. */
  ghost predicate Steady(s: seq<Offer>, t: nat, o: Offer) {
    o.ts == 0 || (o.doesOp && o.ts == t) || (Low(o, t) && !HighOp(s, t))
  }

  // All it brings is brought by the steady lines.
  ghost predicate AddsNothing(s: seq<Offer>, t: nat, o: Offer) {
    && (forall n :: n in o.grants ==> o.grants[n] == PLAIN)
    && (forall c :: c in o.mode.letters ==> exists p :: p in s && Steady(s, t, p) && c in p.mode.letters)
    && (exists p :: p in s && Steady(s, t, p) && o.mode.limit <= p.mode.limit)
    && (exists p :: p in s && Steady(s, t, p) && !Less(p.mode.key, o.mode.key))
  }

  /** No line that wavers brings anything the steady ones do not. */
  ghost predicate Harmless(s: seq<Offer>) {
    forall lead, o :: Leads(s, lead) && o in s && Wavers(s, lead.ts, o) ==> AddsNothing(s, lead.ts, o)
  }

  // Neither steady nor wavering: lost in every order.
  lemma Three(s: seq<Offer>, lead: Offer, o: Offer)
    requires Leads(s, lead) && o in s
    ensures Steady(s, lead.ts, o) ==> o.ts <= lead.ts && !Wavers(s, lead.ts, o)
    ensures !Steady(s, lead.ts, o) && !Wavers(s, lead.ts, o)
            ==> o.ts > lead.ts && !SomeZero(s) && (o.doesOp || !SomeLow(s, lead.ts))
  {
  }

  // ---- what a run has merged

  ghost predicate Modes(m: Mode, k: set<Offer>) {
    && (forall c :: c in m.letters <==> exists o :: o in k && c in o.mode.letters)
    && (exists o :: o in k && o.mode.limit == m.limit)
    && (forall o :: o in k ==> o.mode.limit <= m.limit)
    && (exists o :: o in k && o.mode.key == m.key)
    && (forall o :: o in k ==> !Less(m.key, o.mode.key))
  }

  /** The view has the modes and statuses of these lines, and the members of all. */
  ghost predicate Kept(v: View, f: seq<Offer>, k: set<Offer>) {
    && (forall o :: o in k ==> o in f)
    && Modes(v.mode, k)
    && HasMembersOf(v.status, f)
    && forall o, n :: o in f && n in o.grants ==> v.status[n] == if o in k then o.grants[n] else PLAIN
  }

  lemma ModesUnique(m: Mode, m': Mode, k: set<Offer>)
    requires Modes(m, k) && Modes(m', k)
    ensures m == m'
  {
    assert m.letters == m'.letters;
    LessTotal(m.key, m'.key);
  }

  lemma KeptFirst(o: Offer)
    requires 0 <= o.mode.limit
    ensures Kept(Step(None, o), [o], {o})
  {
    MergeModeLaws(o.mode, NO_MODE, NO_MODE);
    assert o.grants + map[] == o.grants;
    LessTotal(o.mode.key, o.mode.key);
    assert o in [o];
  }

  lemma ModesMore(m: Mode, k: set<Offer>, o: Offer)
    requires Modes(m, k)
    ensures Modes(MergeMode(o.mode, m), k + {o})
  {
    var m' := MergeMode(o.mode, m);
    assert o in k + {o};
    forall c ensures c in m'.letters <==> exists p :: p in k + {o} && c in p.mode.letters {}
    forall p | p in k + {o} ensures !Less(m'.key, p.mode.key) {
      LessTotal(o.mode.key, o.mode.key);
      if Less(m.key, o.mode.key) && Less(m'.key, p.mode.key) && p != o {
        LessTransitive(m.key, o.mode.key, p.mode.key);
      }
      LessTotal(o.mode.key, m.key);
    }
  }

  lemma StatusMore(u: View, f: seq<Offer>, k: set<Offer>, o: Offer)
    requires Kept(u, f, k) && u.status.Keys !! o.grants.Keys
    ensures o in k ==> o.grants == map[]
    ensures HasMembersOf(o.grants + u.status, f + [o]) && HasMembersOf(Strip(o.grants) + u.status, f + [o])
    ensures HasMembersOf(o.grants + Strip(u.status), f + [o])
  {
    hide Modes;
    MembersMore(u.status, f, o, o.grants, u.status);
    MembersMore(u.status, f, o, Strip(o.grants), u.status);
    MembersMore(u.status, f, o, o.grants, Strip(u.status));
    if o in k {
      assert forall n :: n in o.grants ==> n in u.status;
      assert o.grants.Keys == {};
    }
  }

  // The lines kept after one more: it is dropped, merged, or takes over.
  ghost function Merged(v: Verdict, k: set<Offer>, o: Offer): set<Offer> {
    if !v.keepNew then k else if v.keepOurs then k + {o} else {o}
  }

  lemma KeptMore(u: View, f: seq<Offer>, k: set<Offer>, o: Offer) returns (k': set<Offer>)
    requires Kept(u, f, k) && u.status.Keys !! o.grants.Keys
    ensures Kept(Step(Some(u), o), f + [o], k')
    ensures k' == Merged(VerdictOn(Some(u), o), k, o)
  {
    var v := VerdictOn(Some(u), o);
    k' := Merged(v, k, o);
    StatusMore(u, f, k, o);
    InMore(f, o);
    if v.keepNew && v.keepOurs {
      ModesMore(u.mode, k, o);
    } else if v.keepNew {
      ModesAlone(o);
    }
    StatusOf(u, f, k, o, k');
  }

  lemma ModesAlone(o: Offer)
    ensures Modes(o.mode, {o})
  {
    LessTotal(o.mode.key, o.mode.key);
    assert o in {o};
  }

  lemma StatusOf(u: View, f: seq<Offer>, k: set<Offer>, o: Offer, k': set<Offer>)
    requires Kept(u, f, k) && u.status.Keys !! o.grants.Keys && (o in k ==> o.grants == map[])
    requires k' == Merged(VerdictOn(Some(u), o), k, o)
    ensures forall p, n :: p in f + [o] && n in p.grants ==>
              n in Step(Some(u), o).status && Step(Some(u), o).status[n] == if p in k' then p.grants[n] else PLAIN
  {
    hide Modes;
    InMore(f, o);
    forall p, n | p in f + [o] && n in p.grants
      ensures n in Step(Some(u), o).status && Step(Some(u), o).status[n] == if p in k' then p.grants[n] else PLAIN
    {
      if p in f {
        assert n in u.status;
      }
    }
  }

  // ---- what every run has merged

  ghost predicate Within(f: seq<Offer>, s: seq<Offer>) {
    forall o :: o in f ==> o in s
  }

  // An operator's line as old as the oldest has come.
  ghost predicate Anchored(f: seq<Offer>, t: nat) {
    exists o :: o in f && o.doesOp && o.ts == t
  }

  /** The lines kept include the steady ones, and once the oldest operators have come none of those always lost. */
  ghost predicate Sifted(s: seq<Offer>, t: nat, f: seq<Offer>, k: set<Offer>) {
    && (forall o :: o in f && Steady(s, t, o) ==> o in k)
    && (Anchored(f, t) ==> forall o :: o in k ==> Steady(s, t, o) || Wavers(s, t, o))
  }

  lemma {:induction false} ZeroStays(f: seq<Offer>)
    requires SomeZero(f)
    ensures RunOffers(None, f).value.ts == 0
  {
    var n := |f| - 1;
    assert f == f[..n] + [f[n]];
    if f[n].ts != 0 {
      ZeroStays(f[..n]);
    }
  }

  // The timestamp so far: zero, or the least that counts.
  lemma TsSoFar(f: seq<Offer>)
    requires Regular(f) && f != []
    ensures var v := RunOffers(None, f).value;
      && (SomeZero(f) <==> v.ts == 0)
      && (!SomeZero(f) ==> (Opped(v.status) <==> SomeOps(f)) && IsLeast(v.ts, f, SomeOps(f)))
  {
    if SomeZero(f) {
      ZeroStays(f);
    } else {
      assert AllPositive(f) by {
        forall i | 0 <= i < |f| ensures f[i].ts > 0 { assert f[i] in f; }
      }
      TimestampClosedForm(f);
      var i :| 0 <= i < |f| && (SomeOps(f) ==> f[i].doesOp) && f[i].ts == RunOffers(None, f).value.ts;
      assert f[i] in f;
    }
  }

  // The timestamp so far, next to the oldest operators'.
  lemma TsBound(s: seq<Offer>, lead: Offer, f: seq<Offer>)
    requires Regular(f) && f != [] && Within(f, s) && Leads(s, lead)
    ensures var v := RunOffers(None, f).value;
      && (forall o :: o in f && Steady(s, lead.ts, o) ==> v.ts <= lead.ts)
      && (v.ts > 0 && Opped(v.status) ==> v.ts >= lead.ts)
      && (Anchored(f, lead.ts) && v.ts > 0 ==> v.ts == lead.ts && Opped(v.status))
      && (v.ts > 0 && !Anchored(f, lead.ts) && Opped(v.status) ==> v.ts > lead.ts)
  {
    TsSoFar(f);
    var v := RunOffers(None, f).value;
    if v.ts > 0 {
      var i :| 0 <= i < |f| && (SomeOps(f) ==> f[i].doesOp) && f[i].ts == v.ts;
      assert f[i] in f && f[i] in s;
      forall o | o in f && Steady(s, lead.ts, o) ensures v.ts <= lead.ts { SteadyBound(s, lead, f, v.ts, o); }
      if o :| o in f && o.doesOp && o.ts == lead.ts {
        var j :| 0 <= j < |f| && f[j] == o;
        assert f[j].doesOp;
      }
    }
  }

  lemma SteadyBound(s: seq<Offer>, lead: Offer, f: seq<Offer>, ts: nat, o: Offer)
    requires Within(f, s) && Leads(s, lead) && o in f && Steady(s, lead.ts, o)
    requires IsLeast(ts, f, SomeOps(f)) && !SomeZero(f)
    ensures ts <= lead.ts
  {
    var j :| 0 <= j < |f| && f[j] == o;
    if o.doesOp {
      assert f[j].doesOp;
    } else if SomeOps(f) {
      var i :| 0 <= i < |f| && f[i].doesOp && f[i].ts == ts;
      assert f[i] in f && f[i] in s;
    }
  }

  lemma NoZero(f: seq<Offer>, s: seq<Offer>)
    requires Within(f, s) && !SomeZero(s)
    ensures !SomeZero(f)
  {
  }

  // One more line: no steady one goes.
  lemma SteadyStay(s: seq<Offer>, lead: Offer, f: seq<Offer>, k: set<Offer>, o: Offer, k': set<Offer>)
    requires Leads(s, lead) && Within(f, s) && Regular(f) && f != [] && o in s
    requires forall p :: p in f && Steady(s, lead.ts, p) ==> p in k
    requires k' == Merged(VerdictOn(RunOffers(None, f), o), k, o)
    ensures forall p :: p in f + [o] && Steady(s, lead.ts, p) ==> p in k'
  {
    hide Regular, Opped;
    InMore(f, o);
    TsBound(s, lead, f);
    Three(s, lead, o);
    hide Steady;
  }

  lemma SiftMore(s: seq<Offer>, lead: Offer, f: seq<Offer>, k: set<Offer>, o: Offer, k': set<Offer>)
    requires Leads(s, lead) && Within(f, s) && Regular(f) && f != [] && o in s
    requires Sifted(s, lead.ts, f, k) && forall p :: p in k ==> p in f
    requires k' == Merged(VerdictOn(RunOffers(None, f), o), k, o)
    ensures Sifted(s, lead.ts, f + [o], k')
  {
    hide Regular, Leads, Within, VerdictOn;
    InMore(f, o);
    SteadyStay(s, lead, f, k, o, k');
    if Anchored(f, lead.ts) {
      LostStayLost(s, lead, f, k, o, k');
    } else if Anchored(f + [o], lead.ts) {
      FirstAnchor(s, lead, f, k, o, k');
    }
  }

  // Behind the oldest operators a younger line is dropped, unless there are lines of timestamp zero.
  lemma LostStayLost(s: seq<Offer>, lead: Offer, f: seq<Offer>, k: set<Offer>, o: Offer, k': set<Offer>)
    requires Leads(s, lead) && Within(f, s) && Regular(f) && f != [] && o in s && Anchored(f, lead.ts)
    requires forall p :: p in k ==> Steady(s, lead.ts, p) || Wavers(s, lead.ts, p)
    requires k' == Merged(VerdictOn(RunOffers(None, f), o), k, o)
    ensures forall p :: p in k' ==> Steady(s, lead.ts, p) || Wavers(s, lead.ts, p)
  {
    hide Regular, Opped;
    TsBound(s, lead, f);
    TsSoFar(f);
    Three(s, lead, o);
    hide Steady, Wavers;
    if !SomeZero(s) { NoZero(f, s); }
  }

  // The first of the oldest operators' lines: what is always lost is gone.
  lemma FirstAnchor(s: seq<Offer>, lead: Offer, f: seq<Offer>, k: set<Offer>, o: Offer, k': set<Offer>)
    requires Leads(s, lead) && Within(f, s) && Regular(f) && f != [] && o in s
    requires !Anchored(f, lead.ts) && o.doesOp && o.ts == lead.ts && forall p :: p in k ==> p in f
    requires k' == Merged(VerdictOn(RunOffers(None, f), o), k, o)
    ensures forall p :: p in k' ==> Steady(s, lead.ts, p) || Wavers(s, lead.ts, p)
  {
    var t := lead.ts;
    var u := RunOffers(None, f).value;
    TsSoFar(f);
    TsBound(s, lead, f);
    forall p | p in k' ensures Steady(s, t, p) || Wavers(s, t, p) {
      if p != o {
        assert p in f && p in s;
        Three(s, lead, p);
        var j :| 0 <= j < |f| && f[j] == p;
        assert p.doesOp ==> SomeOps(f);
        if !SomeZero(s) {
          NoZero(f, s);
          if !SomeLow(s, t) { OnlyHigh(s, lead, f); }
        }
      }
    }
  }

  // Without low lines and zero ones only young lines come before the oldest operators.
  lemma OnlyHigh(s: seq<Offer>, lead: Offer, f: seq<Offer>)
    requires Leads(s, lead) && Within(f, s) && Regular(f) && f != []
    requires !Anchored(f, lead.ts) && !SomeZero(s) && !SomeLow(s, lead.ts)
    ensures RunOffers(None, f).value.ts > lead.ts
  {
    TsSoFar(f);
    var v := RunOffers(None, f).value;
    NoZero(f, s);
    var i :| 0 <= i < |f| && (SomeOps(f) ==> f[i].doesOp) && f[i].ts == v.ts;
    assert f[i] in f && f[i] in s;
    assert !Low(f[i], lead.ts);
  }

  /** Any run, of any of the lines in any order, keeps the steady ones and, in the end, none of those always lost. */
  lemma {:induction false} Survivors(s: seq<Offer>, lead: Offer, f: seq<Offer>) returns (k: set<Offer>)
    requires Leads(s, lead) && Regular(f) && f != [] && Within(f, s)
    ensures Kept(RunOffers(None, f).value, f, k) && Sifted(s, lead.ts, f, k)
  {
    var n := |f| - 1;
    var front, o := f[..n], f[n];
    assert f == front + [o];
    assert o in f;
    hide Step, Kept, Sifted, VerdictOn;
    if n == 0 {
      k := {o};
      KeptFirst(o);
      OneSifted(s, lead, o);
      assert f == [o];
    } else {
      RegularPrefix(f);
      LastIsNew(f);
      assert Within(front, s) by { InMore(front, o); }
      var k0 := Survivors(s, lead, front);
      k := KeptMore(RunOffers(None, front).value, front, k0, o);
      SiftMore(s, lead, front, k0, o, k);
    }
  }

  lemma OneSifted(s: seq<Offer>, lead: Offer, o: Offer)
    requires Leads(s, lead) && o in s
    ensures Sifted(s, lead.ts, [o], {o})
  {
    Three(s, lead, o);
    assert o in [o];
  }

  // ---- harmless: every order gives the same

  ghost function SteadyOnes(s: seq<Offer>, t: nat): set<Offer> {
    set o | o in s && Steady(s, t, o)
  }

  ghost predicate OthersAddNothing(k: set<Offer>, s: seq<Offer>, t: nat) {
    && SteadyOnes(s, t) <= k
    && forall o :: o in k && o !in SteadyOnes(s, t) ==> AddsNothing(s, t, o)
  }

  lemma SteadyLetters(m: Mode, k: set<Offer>, s: seq<Offer>, t: nat, c: char)
    requires Modes(m, k) && OthersAddNothing(k, s, t)
    ensures c in m.letters <==> exists o :: o in SteadyOnes(s, t) && c in o.mode.letters
  {
    hide Steady;
    if c in m.letters {
      var o :| o in k && c in o.mode.letters;
      assert o in SteadyOnes(s, t) || AddsNothing(s, t, o);
    }
  }

  lemma SteadyLimit(m: Mode, k: set<Offer>, s: seq<Offer>, t: nat)
    requires Modes(m, k) && OthersAddNothing(k, s, t)
    ensures exists o :: o in SteadyOnes(s, t) && o.mode.limit == m.limit
  {
    hide Steady;
    var o :| o in k && o.mode.limit == m.limit;
    if o !in SteadyOnes(s, t) {
      var p :| p in s && Steady(s, t, p) && o.mode.limit <= p.mode.limit;
      assert p in SteadyOnes(s, t);
    }
  }

  lemma SteadyKey(m: Mode, k: set<Offer>, s: seq<Offer>, t: nat)
    requires Modes(m, k) && OthersAddNothing(k, s, t)
    ensures exists o :: o in SteadyOnes(s, t) && o.mode.key == m.key
  {
    hide Steady;
    var q :| q in k && q.mode.key == m.key;
    if q !in SteadyOnes(s, t) {
      var p :| p in s && Steady(s, t, p) && !Less(p.mode.key, q.mode.key);
      assert p in SteadyOnes(s, t);
      LessTotal(p.mode.key, m.key);
    }
  }

  lemma SteadyModes(m: Mode, k: set<Offer>, s: seq<Offer>, t: nat)
    requires Modes(m, k) && OthersAddNothing(k, s, t)
    ensures Modes(m, SteadyOnes(s, t))
  {
    forall c ensures c in m.letters <==> exists o :: o in SteadyOnes(s, t) && c in o.mode.letters {
      SteadyLetters(m, k, s, t, c);
    }
    SteadyLimit(m, k, s, t);
    SteadyKey(m, k, s, t);
    hide Steady;
  }

  // The view any order of harmless lines leads to.
  lemma HarmlessView(s: seq<Offer>, lead: Offer, p: seq<Offer>)
    requires Regular(p) && Harmless(s) && Leads(s, lead) && p != [] && forall o :: o in p <==> o in s
    ensures var v := RunOffers(None, p).value;
      && Modes(v.mode, SteadyOnes(s, lead.ts)) && HasMembersOf(v.status, p)
      && forall o, n :: o in p && n in o.grants ==> v.status[n] == if Steady(s, lead.ts, o) then o.grants[n] else PLAIN
  {
    var t := lead.ts;
    var k := Survivors(s, lead, p);
    hide Steady, Wavers, Modes, Regular, AddsNothing, HasMembersOf;
    assert Anchored(p, t) by { assert lead in p; }
    forall o | o in k && o !in SteadyOnes(s, t) ensures AddsNothing(s, t, o) {
      assert o in p && o in s;
    }
    SteadyModes(RunOffers(None, p).value.mode, k, s, t);
    HarmlessStatus(s, lead, p, k);
  }

  lemma HarmlessStatus(s: seq<Offer>, lead: Offer, p: seq<Offer>, k: set<Offer>)
    requires Harmless(s) && Leads(s, lead) && p != [] && forall o :: o in p <==> o in s
    requires Kept(RunOffers(None, p).value, p, k) && Sifted(s, lead.ts, p, k) && Anchored(p, lead.ts)
    ensures var v := RunOffers(None, p).value;
      && HasMembersOf(v.status, p)
      && forall o, n :: o in p && n in o.grants ==> v.status[n] == if Steady(s, lead.ts, o) then o.grants[n] else PLAIN
  {
    hide Steady, Wavers, Modes;
    var v := RunOffers(None, p).value;
    forall o, n | o in p && n in o.grants
      ensures v.status[n] == if Steady(s, lead.ts, o) then o.grants[n] else PLAIN
    {
      if !Steady(s, lead.ts, o) && o in k {
        assert AddsNothing(s, lead.ts, o);
      }
    }
  }

  /** Harmless lines make the same channel in any order. */
  lemma HarmlessOrdersAgree(s: seq<Offer>, p: seq<Offer>)
    requires Regular(s) && Regular(p) && Harmless(s) && s != [] && p != [] && forall o :: o in p <==> o in s
    ensures RunOffers(None, p) == RunOffers(None, s)
  {
    hide Regular, Harmless;
    if exists o :: o in s && o.doesOp && o.ts > 0 {
      var lead := LeastOperator(s);
      HarmlessView(s, lead, s);
      HarmlessView(s, lead, p);
      hide Steady, Modes;
      var v, w := RunOffers(None, s).value, RunOffers(None, p).value;
      hide Leads, RunOffers;
      ModesUnique(v.mode, w.mode, SteadyOnes(s, lead.ts));
      SameStatus(s, lead.ts, p, v.status, w.status);
      MergedSoFar(s);
      MergedSoFar(p);
      SameTs(v.ts, w.ts, s, p);
    } else {
      CommutingOrdersAgree(s, p);
    }
  }

  lemma SameStatus(s: seq<Offer>, t: nat, p: seq<Offer>, a: Statuses, b: Statuses)
    requires HasMembersOf(a, s) && HasMembersOf(b, p) && forall o :: o in p <==> o in s
    requires forall o, n :: o in s && n in o.grants ==> a[n] == if Steady(s, t, o) then o.grants[n] else PLAIN
    requires forall o, n :: o in p && n in o.grants ==> b[n] == if Steady(s, t, o) then o.grants[n] else PLAIN
    ensures a == b
  {
    hide Steady;
    forall n | n in a ensures n in b && a[n] == b[n] {
      var o :| o in s && n in o.grants;
      assert o in p;
    }
    forall n | n in b ensures n in a {
      var o :| o in p && n in o.grants;
    }
  }

  lemma MergedSoFar(f: seq<Offer>)
    requires Regular(f) && f != []
    ensures RunOffers(None, f).Some? && MergedTs(RunOffers(None, f).value.ts, f)
  {
    hide Regular;
    TsSoFar(f);
  }

  // ---- two orders

  // A run and one more line.
  lemma StartMore(f: seq<Offer>, k: set<Offer>, o: Offer) returns (k': set<Offer>)
    requires Regular(f + [o]) && f != [] && RunOffers(None, f).Some? && Kept(RunOffers(None, f).value, f, k)
    ensures RunOffers(None, f + [o]).Some? && Kept(RunOffers(None, f + [o]).value, f + [o], k')
    ensures k' == Merged(VerdictOn(RunOffers(None, f), o), k, o)
  {
    assert (f + [o])[..|f + [o]| - 1] == f;
    LastIsNew(f + [o]);
    k' := KeptMore(RunOffers(None, f).value, f, k, o);
  }

  lemma RegularFront(f: seq<Offer>, g: seq<Offer>)
    requires Regular(f + g)
    ensures Regular(f)
  {
    assert forall i :: 0 <= i < |f| ==> (f + g)[i] == f[i];
  }

  // The last line of a run, and those before it.
  lemma LastOf(s: seq<Offer>, f: seq<Offer>, g: seq<Offer>)
    requires g != [] && Regular(f + g) && Within(f + g, s)
    ensures var front, o := f + g[..|g| - 1], g[|g| - 1];
      && f + g == front + [o] && Regular(front + [o]) && Regular(front) && Within(front, s) && o in s && o in g
      && forall x :: x in g[..|g| - 1] ==> x in g
  {
    hide Regular;
    var front, o := f + g[..|g| - 1], g[|g| - 1];
    assert f + g == front + [o];
    RegularFront(front, [o]);
    InMore(front, o);
  }

  // Behind the oldest operators, or a zero, nothing kept goes.
  lemma {:induction false} Onward(s: seq<Offer>, lead: Offer, f: seq<Offer>, k: set<Offer>,
                                  g: seq<Offer>) returns (k': set<Offer>)
    requires Leads(s, lead) && Regular(f + g) && Within(f + g, s) && f != []
    requires RunOffers(None, f).Some? && Kept(RunOffers(None, f).value, f, k)
    requires SomeZero(f) || Anchored(f, lead.ts)
    ensures RunOffers(None, f + g).Some? && Kept(RunOffers(None, f + g).value, f + g, k')
    ensures k <= k' && (forall o :: o in k' ==> o in k || o in g) && (SomeZero(f) ==> forall o :: o in g ==> o in k')
  {
    hide Regular, Kept, RunOffers, Leads, Within;
    if g == [] {
      assert f + g == f;
      k' := k;
    } else {
      var n := |g| - 1;
      var front, o := f + g[..n], g[n];
      LastOf(s, f, g);
      var k0 := Onward(s, lead, f, k, g[..n]);
      NothingGoes(s, lead, f, front, o);
      k' := StartMore(front, k0, o);
      assert g == g[..n] + [o];
    }
  }

  lemma NothingGoes(s: seq<Offer>, lead: Offer, f: seq<Offer>, front: seq<Offer>, o: Offer)
    requires Leads(s, lead) && Regular(front) && Within(front, s) && front != [] && o in s && f <= front
    requires SomeZero(f) || Anchored(f, lead.ts)
    ensures var v := VerdictOn(RunOffers(None, front), o); v.keepOurs && (SomeZero(f) ==> v.keepNew)
  {
    hide Regular, Opped;
    assert forall x :: x in f ==> x in front;
    TsSoFar(front);
    TsBound(s, lead, front);
  }

  // Younger lines right behind the oldest operators are dropped.
  lemma {:induction false} HighDropped(s: seq<Offer>, lead: Offer, f: seq<Offer>, k: set<Offer>, g: seq<Offer>)
    requires Leads(s, lead) && Regular(f + g) && Within(f + g, s) && f != []
    requires RunOffers(None, f).Some? && Kept(RunOffers(None, f).value, f, k)
    requires Anchored(f, lead.ts) && !SomeZero(f) && forall o :: o in g ==> o.ts > lead.ts
    ensures RunOffers(None, f + g).Some? && Kept(RunOffers(None, f + g).value, f + g, k)
  {
    hide Regular, Kept, RunOffers, Leads, Within, SomeZero;
    if g == [] {
      assert f + g == f;
    } else {
      var n := |g| - 1;
      var front, o := f + g[..n], g[n];
      LastOf(s, f, g);
      HighDropped(s, lead, f, k, g[..n]);
      AnchoredOn(f, g[..n], lead.ts);
      HighLoses(s, lead, front, o);
      var k' := StartMore(front, k, o);
    }
  }

  lemma AnchoredOn(f: seq<Offer>, g: seq<Offer>, t: nat)
    requires Anchored(f, t) && !SomeZero(f) && forall o :: o in g ==> o.ts > t
    ensures Anchored(f + g, t) && !SomeZero(f + g)
  {
    assert forall o :: o in f ==> o in f + g;
  }

  lemma HighLoses(s: seq<Offer>, lead: Offer, front: seq<Offer>, o: Offer)
    requires Leads(s, lead) && Regular(front) && Within(front, s) && front != []
    requires Anchored(front, lead.ts) && !SomeZero(front) && o.ts > lead.ts
    ensures !VerdictOn(RunOffers(None, front), o).keepNew
  {
    hide Regular, Opped;
    TsSoFar(front);
    TsBound(s, lead, front);
  }

  // ---- an order that merges a line that wavers

  lemma TwoFirst<T>(s: seq<T>, a: T, b: T) returns (rest: seq<T>)
    requires a in s && b in s && a != b
    ensures multiset([a, b] + rest) == multiset(s)
  {
    var r := Extract(s, a);
    SameElements([a] + r, s);
    assert b in r by { assert b in [a] + r; }
    rest := Extract(r, b);
    assert [a, b] + rest == [a] + ([b] + rest);
    calc {
      multiset([a, b] + rest);
      multiset([a]) + multiset([b] + rest);
      multiset([a] + r);
      multiset(s);
    }
  }

  // A start of one, two or three lines that are all merged.
  lemma StartOne(o: Offer)
    requires 0 <= o.mode.limit
    ensures RunOffers(None, [o]).Some? && Kept(RunOffers(None, [o]).value, [o], {o})
  {
    RunOne(None, o);
    KeptFirst(o);
  }

  // The line first and a zero, or the oldest operators, where they merge it.
  lemma MergingStart(s: seq<Offer>, lead: Offer, o: Offer) returns (f: seq<Offer>, rest: seq<Offer>, k: set<Offer>)
    requires Regular(s) && Leads(s, lead) && o in s && Wavers(s, lead.ts, o)
    ensures multiset(f + rest) == multiset(s) && f != [] && (SomeZero(f) || Anchored(f, lead.ts))
    ensures RunOffers(None, f).Some? && Kept(RunOffers(None, f).value, f, k)
    ensures o in k || (SomeZero(f) && o in rest)
  {
    if z :| z in s && z.ts == 0 {
      f := [z];
      rest := Extract(s, z);
      k := {z};
      SameElements(f + rest, s);
      PermutedRegular(s, f + rest);
      assert (f + rest)[0] == z;
      StartOne(z);
      assert z in f;
      assert o in rest by { assert o in f + rest; }
    } else if Low(o, lead.ts) {
      f := [lead] + [o];
      rest := TwoFirst(s, lead, o);
      assert [lead, o] == f;
      PermutedRegular(s, f + rest);
      RegularFront(f, rest);
      k := LowMerged(lead, o);
      assert lead in f;
    } else {
      var x :| x in s && Low(x, lead.ts);
      f := [o] + [x] + [lead];
      rest := ThreeFirst(s, o, x, lead);
      assert [o, x, lead] == f;
      PermutedRegular(s, f + rest);
      RegularFront(f, rest);
      k := HighMerged(lead, o, x);
      assert lead in f;
    }
  }

  lemma LowMerged(lead: Offer, o: Offer) returns (k: set<Offer>)
    requires Regular([lead] + [o]) && lead.doesOp && Low(o, lead.ts)
    ensures var f := [lead] + [o]; RunOffers(None, f).Some? && Kept(RunOffers(None, f).value, f, k) && o in k
  {
    RegularFront([lead], [o]);
    assert [lead][0] == lead;
    StartOne(lead);
    FirstLine(lead);
    RunOne(None, lead);
    k := StartMore([lead], {lead}, o);
  }

  lemma HighMerged(lead: Offer, o: Offer, x: Offer) returns (k: set<Offer>)
    requires Regular([o] + [x] + [lead]) && lead.doesOp && !o.doesOp && Low(x, lead.ts) && o.ts > lead.ts
    ensures var f := [o] + [x] + [lead]; RunOffers(None, f).Some? && Kept(RunOffers(None, f).value, f, k) && o in k
  {
    RegularFront([o] + [x], [lead]);
    RegularFront([o], [x]);
    assert [o][0] == o && ([o] + [x])[1] == x;
    StartOne(o);
    FirstLine(o);
    RunOne(None, o);
    var k1 := StartMore([o], {o}, x);
    OplessTwo(o, x);
    k := StartMore([o] + [x], k1, lead);
  }

  // Two lines without operators: no operators, and the lesser timestamp.
  lemma OplessTwo(o: Offer, x: Offer)
    requires Regular([o] + [x]) && !o.doesOp && !x.doesOp && 0 < x.ts < o.ts
    ensures var u := RunOffers(None, [o] + [x]); u.Some? && u.value.ts == x.ts && !Opped(u.value.status)
  {
    var f := [o] + [x];
    assert f[0] == o && f[1] == x;
    TsSoFar(f);
  }

  // ---- an order that loses them all

  // The lines for which the test says so.
  ghost function Filter(s: seq<Offer>, test: Offer -> bool, yes: bool): (r: seq<Offer>)
    ensures forall o :: o in r ==> o in s && test(o) == yes
  {
    if s == [] then [] else (if test(s[0]) == yes then [s[0]] else []) + Filter(s[1..], test, yes)
  }

  lemma {:induction false} FilterCounts(s: seq<Offer>, test: Offer -> bool)
    ensures multiset(Filter(s, test, true)) + multiset(Filter(s, test, false)) == multiset(s)
  {
    if s != [] {
      FilterCounts(s[1..], test);
      hide Filter;
      FilterFirst(s, test, true);
      FilterFirst(s, test, false);
      assert s == [s[0]] + s[1..];
      Sorted(multiset(Filter(s[1..], test, true)), multiset(Filter(s[1..], test, false)), s[0], test(s[0]));
    }
  }

  lemma Sorted(a: multiset<Offer>, b: multiset<Offer>, o: Offer, first: bool)
    ensures ((if first then multiset{o} else multiset{}) + a) + ((if first then multiset{} else multiset{o}) + b)
         == multiset{o} + (a + b)
  {
  }

  lemma FilterFirst(s: seq<Offer>, test: Offer -> bool, yes: bool)
    requires s != []
    ensures multiset(Filter(s, test, yes))
         == (if test(s[0]) == yes then multiset{s[0]} else multiset{}) + multiset(Filter(s[1..], test, yes))
  {
    var r := Filter(s[1..], test, yes);
    assert [] + r == r;
  }

  lemma {:induction false} FilterNone(s: seq<Offer>, test: Offer -> bool)
    requires forall o :: !test(o)
    ensures Filter(s, test, true) == []
  {
    if s != [] { FilterNone(s[1..], test); }
  }

  // The low lines, a start that loses them, the high lines, and the others.
  lemma Arranged(rest: seq<Offer>, m: seq<Offer>, t: nat, lows: bool)
      returns (a: seq<Offer>, b: seq<Offer>, c: seq<Offer>)
    ensures multiset(a + m + b + c) == multiset(m + rest)
    ensures (forall o :: o in a ==> Low(o, t)) && (!lows ==> a == [])
    ensures forall o :: o in b ==> o.ts > t
    ensures forall o :: o in c ==> o.ts <= t && !(lows && Low(o, t))
  {
    var low := (o: Offer) => lows && Low(o, t);
    var high := (o: Offer) => o.ts > t;
    a := Filter(rest, low, true);
    if !lows { FilterNone(rest, low); }
    var r := Filter(rest, low, false);
    FilterCounts(rest, low);
    b, c := Filter(r, high, true), Filter(r, high, false);
    FilterCounts(r, high);
    assert multiset(a + m + b + c) == multiset(a) + multiset(m) + multiset(b) + multiset(c);
  }

  // A younger operators' line before the oldest loses the low lines and itself.
  lemma StrippedStart(s: seq<Offer>, lead: Offer, a: seq<Offer>, h: Offer)
    requires Leads(s, lead) && Regular(a + [h] + [lead]) && Within(a + [h] + [lead], s)
    requires (forall o :: o in a ==> Low(o, lead.ts)) && h.doesOp && h.ts > lead.ts
    ensures var f := a + [h] + [lead];
            RunOffers(None, f).Some? && Kept(RunOffers(None, f).value, f, {lead}) && !SomeZero(f)
  {
    hide Regular, Kept, VerdictOn;
    var g := a + [h];
    RegularFront(g, [lead]);
    InMore(g, lead);
    InMore(a, h);
    assert Within(g, s);
    var k := Survivors(s, lead, g);
    StrippedHere(s, lead, a, h);
    hide Leads, Within;
    assert g[|a|] == h;
    SomeRun(g);
    var k' := StartMore(g, k, lead);
  }

  lemma SomeRun(f: seq<Offer>)
    requires f != []
    ensures RunOffers(None, f).Some?
  {
  }

  lemma StrippedHere(s: seq<Offer>, lead: Offer, a: seq<Offer>, h: Offer)
    requires Leads(s, lead) && Regular(a + [h]) && Within(a + [h], s)
    requires (forall o :: o in a ==> Low(o, lead.ts)) && h.doesOp && h.ts > lead.ts
    ensures var v := VerdictOn(RunOffers(None, a + [h]), lead); !v.keepOurs && v.keepNew
  {
    var g := a + [h];
    InMore(a, h);
    hide Regular;
    assert g[|a|] == h;
    assert SomeOps(g);
    TsSoFar(g);
    TsBound(s, lead, g);
  }

  // The start of an order that loses all it can, and what comes behind it.
  ghost predicate Loses(s: seq<Offer>, lead: Offer, f: seq<Offer>, b: seq<Offer>, c: seq<Offer>) {
    && multiset(f + b + c) == multiset(s) && lead in f
    && RunOffers(None, f).Some? && Kept(RunOffers(None, f).value, f, {lead}) && !SomeZero(f)
    && (forall o :: o in b ==> o.ts > lead.ts)
    && forall o :: o in c ==> o.ts <= lead.ts && !(HighOp(s, lead.ts) && Low(o, lead.ts))
  }

  lemma StartWithHigh(s: seq<Offer>, lead: Offer, h: Offer) returns (f: seq<Offer>, b: seq<Offer>, c: seq<Offer>)
    requires Regular(s) && Leads(s, lead) && h in s && h.doesOp && h.ts > lead.ts
    ensures Loses(s, lead, f, b, c)
  {
    hide Regular, Kept, RunOffers, SomeZero;
    var rest := TwoFirst(s, h, lead);
    var a;
    a, b, c := Arranged(rest, [h, lead], lead.ts, true);
    f := a + [h] + [lead];
    assert f == a + [h, lead];
    SpreadOut(s, f, b, c);
    StrippedStart(s, lead, a, h);
    assert f[|f| - 1] == lead;
  }

  lemma StartWithLead(s: seq<Offer>, lead: Offer) returns (f: seq<Offer>, b: seq<Offer>, c: seq<Offer>)
    requires Regular(s) && Leads(s, lead) && !HighOp(s, lead.ts)
    ensures Loses(s, lead, f, b, c)
  {
    hide Regular, Kept, RunOffers, HighOp;
    var rest := Extract(s, lead);
    var a;
    a, b, c := Arranged(rest, [lead], lead.ts, false);
    f := [lead];
    assert f == a + [lead];
    SpreadOut(s, f, b, c);
    FirstLimit(f);
    StartOne(lead);
  }

  lemma LosingStart(s: seq<Offer>, lead: Offer) returns (f: seq<Offer>, b: seq<Offer>, c: seq<Offer>)
    requires Regular(s) && Leads(s, lead)
    ensures Loses(s, lead, f, b, c)
  {
    hide Regular, Loses, Leads;
    if h :| h in s && h.doesOp && h.ts > lead.ts {
      f, b, c := StartWithHigh(s, lead, h);
    } else {
      f, b, c := StartWithLead(s, lead);
    }
  }

  lemma FirstLimit(f: seq<Offer>)
    requires Regular(f) && f != []
    ensures 0 <= f[0].mode.limit
  {
  }

  /** An order in which all lines that can be lost are. */
  lemma LosingOrder(s: seq<Offer>, lead: Offer) returns (q: seq<Offer>, k: set<Offer>)
    requires Regular(s) && Leads(s, lead)
    ensures multiset(q) == multiset(s) && q != []
    ensures RunOffers(None, q).Some? && Kept(RunOffers(None, q).value, q, k)
    ensures forall o :: o in k ==> Steady(s, lead.ts, o)
  {
    hide Regular, Kept, RunOffers, HighOp, SomeZero;
    var f, b, c := LosingStart(s, lead);
    SpreadOut(s, f, b, c);
    assert lead in f + b;
    assert Anchored(f, lead.ts) && Anchored(f + b, lead.ts);
    HighDropped(s, lead, f, {lead}, b);
    k := Onward(s, lead, f + b, {lead}, c);
    q := f + b + c;
    forall o | o in k ensures Steady(s, lead.ts, o) {
      if o != lead { assert o in s; }
    }
  }

  lemma SpreadOut(s: seq<Offer>, f: seq<Offer>, b: seq<Offer>, c: seq<Offer>)
    requires Regular(s) && multiset(f + b + c) == multiset(s)
    ensures Regular(f + b + c) && Regular(f + b) && Regular(f)
    ensures Within(f + b + c, s) && Within(f + b, s) && Within(f, s) && forall o :: o in c ==> o in s
  {
    PermutedRegular(s, f + b + c);
    RegularFront(f + b, c);
    RegularFront(f, b);
    SameElements(f + b + c, s);
    assert forall o :: o in f ==> o in f + b + c;
    assert forall o :: o in f + b ==> o in f + b + c;
    assert forall o :: o in c ==> o in f + b + c;
  }

  // Two orders, one with the line merged and one with steady lines only, give the same only if it adds nothing.
  lemma SameOnlyIfNothing(s: seq<Offer>, t: nat, p: seq<Offer>, q: seq<Offer>, kp: set<Offer>, kq: set<Offer>, o: Offer,
                          v: View)
    requires Kept(v, p, kp) && Kept(v, q, kq) && o in kp && !Steady(s, t, o)
    requires forall x :: x in kq ==> x in s && Steady(s, t, x)
    requires o in q
    ensures AddsNothing(s, t, o)
  {
    hide Steady;
    SameStatuses(v, p, q, kp, kq, o);
    hide HasMembersOf;
    forall c | c in o.mode.letters ensures exists x :: x in s && Steady(s, t, x) && c in x.mode.letters {
      assert c in v.mode.letters;
      var x :| x in kq && c in x.mode.letters;
    }
    var x :| x in kq && x.mode.limit == v.mode.limit;
    assert x in s && Steady(s, t, x) && o.mode.limit <= x.mode.limit;
    var y :| y in kq && y.mode.key == v.mode.key;
    assert y in s && Steady(s, t, y) && !Less(y.mode.key, o.mode.key);
  }

  lemma SameStatuses(v: View, p: seq<Offer>, q: seq<Offer>, kp: set<Offer>, kq: set<Offer>, o: Offer)
    requires Kept(v, p, kp) && Kept(v, q, kq) && o in kp && o !in kq && o in q
    ensures forall n :: n in o.grants ==> o.grants[n] == PLAIN
  {
    hide Modes;
    assert o in p;
    forall n | n in o.grants ensures o.grants[n] == PLAIN {
      assert v.status[n] == o.grants[n];
      assert v.status[n] == PLAIN;
    }
  }

  /** Harm done is seen: two orders that differ. */
  lemma HarmShows(s: seq<Offer>) returns (p: seq<Offer>, q: seq<Offer>)
    requires Regular(s) && !Harmless(s)
    ensures OrderMatters(s, p, q)
  {
    var lead, o :| Leads(s, lead) && o in s && Wavers(s, lead.ts, o) && !AddsNothing(s, lead.ts, o);
    Three(s, lead, o);
    hide Steady, Wavers, AddsNothing, Leads;
    var f, rest, k := MergingStart(s, lead, o);
    p := f + rest;
    SameElements(p, s);
    PermutedRegular(s, p);
    var kp := Onward(s, lead, f, k, rest);
    var kq;
    q, kq := LosingOrder(s, lead);
    SameElements(q, s);
    assert forall x :: x in kq ==> x in q;
    if RunOffers(None, p) == RunOffers(None, q) {
      SameOnlyIfNothing(s, lead.ts, p, q, kp, kq, o, RunOffers(None, p).value);
    }
  }

  // ---- the exact condition

  /**
   * Order independence, exactly, for any op-first lines with disjoint members: every order of processing gives the same
   * timestamp, modes, members and statuses if and only if the lines merged in some orders only bring nothing that those
   * merged in every order do not.
   */
  lemma AnyOrder(s: seq<Offer>)
    requires Regular(s) && s != []
    ensures (forall p: seq<Offer> :: multiset(p) == multiset(s) ==> RunOffers(None, p) == RunOffers(None, s))
       <==> Harmless(s)
  {
    hide Harmless, Regular;
    if Harmless(s) {
      forall p: seq<Offer> | multiset(p) == multiset(s) ensures RunOffers(None, p) == RunOffers(None, s) {
        SameElements(p, s);
        PermutedRegular(s, p);
        HarmlessOrdersAgree(s, p);
      }
    } else {
      var p, q := HarmShows(s);
      assert RunOffers(None, p) != RunOffers(None, s) || RunOffers(None, q) != RunOffers(None, s);
    }
  }

  /** The same of the lines as they arrive, whatever statuses they give. */
  lemma AnyArrival(lines: seq<Line>, reachable: set<string>)
    requires lines != [] && AllAccepted(lines) && AllReachable(lines, reachable) && Regular(Offers(lines))
    ensures (forall q: seq<Line> :: multiset(q) == multiset(lines) ==>
               ViewOfOption(Run(None, q, reachable)) == ViewOfOption(Run(None, lines, reachable)))
       <==> Harmless(Offers(lines))
  {
    hide Harmless, Regular, AllAccepted, AllReachable, Run, RunOffers, OfferOf;
    var s := Offers(lines);
    SomeOffers(lines);
    AnyOrder(s);
    PermutedLines(lines, lines, reachable);
    if Harmless(s) {
      forall q: seq<Line> | multiset(q) == multiset(lines)
        ensures ViewOfOption(Run(None, q, reachable)) == ViewOfOption(Run(None, lines, reachable))
      {
        PermutedLines(lines, q, reachable);
      }
    } else {
      var p: seq<Offer> :| multiset(p) == multiset(s) && RunOffers(None, p) != RunOffers(None, s);
      var q := LiftPermutation(lines, p);
      PermutedLines(lines, q, reachable);
      assert multiset(q) == multiset(lines);
    }
  }
}
