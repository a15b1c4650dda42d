/**
 * Two servers that link exchange bursts and end in the same state (doc/README.TSora:320-328, for two
 * descriptions), however the bursts are cut into lines and whatever the timestamps are.
 */
module ChannelConvergence {
  import opened Text
  import opened ChannelModel
  import opened ChannelView
  import opened ChannelPrint

  // A whole channel description as a single offer.
  function Whole(v: View): Offer {
    Offer(v.ts, v.mode, v.status, Opped(v.status))
  }

  function RunOffers(before: Option<View>, offers: seq<Offer>): Option<View> {
    if offers == [] then before
    else Some(Step(RunOffers(before, offers[..|offers| - 1]), offers[|offers| - 1]))
  }

  function AllGrants(offers: seq<Offer>): Statuses {
    if offers == [] then map[] else offers[|offers| - 1].grants + AllGrants(offers[..|offers| - 1])
  }

  /**
   * The offers are some prefix of a burst of v: the modes and, if v has an operator, an operator come in the
   * first one; the others carry members only, with the mode word "0".
   */
  ghost predicate Describes(offers: seq<Offer>, v: View) {
    && offers != []
    && offers[0].mode == v.mode
    && offers[0].doesOp == Opped(v.status)
    && (Opped(v.status) ==> Opped(offers[0].grants))
    && (forall i :: 0 <= i < |offers| ==> offers[i].ts == v.ts)
    && (forall i :: 1 <= i < |offers| ==> offers[i].mode == NO_MODE)
    && (forall i :: 0 <= i < |offers| ==> offers[i].doesOp ==> Opped(v.status))
    && (forall i, n :: 0 <= i < |offers| && n in offers[i].grants ==>
        n in v.status && offers[i].grants[n] == v.status[n])
  }

  // ---- map algebra

  lemma OfferedUnion(a: Statuses, b: Statuses, keepNew: bool)
    ensures Offered(a + b, keepNew) == Offered(a, keepNew) + Offered(b, keepNew)
  {
  }

  lemma PlusAssociates<K, V>(a: map<K, V>, b: map<K, V>, c: map<K, V>)
    ensures a + (b + c) == (a + b) + c
  {
  }

  lemma PlusCommutes<K, V>(a: map<K, V>, b: map<K, V>)
    requires a.Keys !! b.Keys
    ensures a + b == b + a
  {
  }

  lemma OppedStrip(s: Statuses)
    ensures !Opped(Strip(s)) && Strip(Strip(s)) == Strip(s)
  {
  }

  // Operators of a union, when the right-hand side wins.
  lemma OppedUnion(a: Statuses, b: Statuses)
    ensures Opped(b) ==> Opped(a + b)
    ensures !Opped(a) ==> (Opped(a + b) <==> Opped(b))
    ensures a.Keys !! b.Keys ==> (Opped(a + b) <==> Opped(a) || Opped(b))
  {
    if n :| n in b && b[n].op { assert (a + b)[n].op; }
    if a.Keys !! b.Keys && Opped(a) {
      var n :| n in a && a[n].op;
      assert (a + b)[n].op;
    }
  }

  lemma MergeModeLaws(a: Mode, b: Mode, c: Mode)
    ensures MergeMode(a, b) == MergeMode(b, a)
    ensures MergeMode(a, MergeMode(b, c)) == MergeMode(MergeMode(a, b), c)
    ensures MergeMode(a, a) == a
    ensures 0 <= a.limit ==> MergeMode(NO_MODE, a) == a
  {
    MaxKeyJoin(a.key, b.key, c.key);
    MaxKeyJoin(b.key, a.key, c.key);
  }

  // ---- cutting a burst into lines changes nothing

  // A second line of a burst is merged, or loses as the first one did.
  lemma SecondLineVerdict(w: Option<View>, first: Offer, second: Offer)
    requires second.ts == first.ts
    requires first.doesOp ==> Opped(first.grants)
    requires w.Some? && first.doesOp ==> first.grants.Keys !! w.value.status.Keys
    requires !first.doesOp ==> !Opped(first.grants) && !second.doesOp
    ensures var v2 := VerdictOn(Some(Step(w, first)), second);
      v2.keepOurs && v2.keepNew == VerdictOn(w, first).keepNew && v2.ts == VerdictOn(w, first).ts
  {
    var ours := if w.Some? then w.value else View(0, NO_MODE, map[]);
    var v := VerdictOn(w, first);
    OppedUnion(Offered(first.grants, v.keepNew), if v.keepOurs then ours.status else Strip(ours.status));
    OppedStrip(first.grants);
  }

  /** A second line with the same timestamp and no modes only adds its members to what the first one did. */
  lemma SecondLineAddsMembers(w: Option<View>, first: Offer, second: Offer)
    requires w.Some? ==> 0 <= w.value.mode.limit
    requires 0 <= first.mode.limit
    requires second.ts == first.ts && second.mode == NO_MODE
    requires first.doesOp ==> Opped(first.grants)
    requires w.Some? && first.doesOp ==> first.grants.Keys !! w.value.status.Keys
    requires !first.doesOp ==> !Opped(first.grants) && !Opped(second.grants) && !second.doesOp
    ensures Step(Some(Step(w, first)), second) == Step(w, first.(grants := second.grants + first.grants))
  {
    var ours := if w.Some? then w.value else View(0, NO_MODE, map[]);
    var v := VerdictOn(w, first);
    var mid := Step(w, first);
    var kept := if v.keepOurs then ours.status else Strip(ours.status);
    assert mid.status == Offered(first.grants, v.keepNew) + kept;
    SecondLineVerdict(w, first, second);
    MergeModeLaws(mid.mode, mid.mode, mid.mode);
    OfferedUnion(second.grants, first.grants, v.keepNew);
    PlusAssociates(Offered(second.grants, v.keepNew), Offered(first.grants, v.keepNew), kept);
  }

  lemma {:induction false} GrantsWithin(offers: seq<Offer>, v: View)
    requires Describes(offers, v)
    ensures forall n :: n in AllGrants(offers) ==> n in v.status && AllGrants(offers)[n] == v.status[n]
    ensures offers[0].grants.Keys <= AllGrants(offers).Keys
  {
    if |offers| > 1 {
      GrantsWithin(offers[..|offers| - 1], v);
    } else {
      assert offers[..0] == [];
    }
  }

  // What all lines but the last offer together: operators if and only if the description has some.
  lemma FrontOps(offers: seq<Offer>, v: View)
    requires Describes(offers, v) && |offers| > 1
    ensures var k := |offers| - 1;
      && Describes(offers[..k], v)
      && (Opped(AllGrants(offers[..k])) <==> Opped(v.status))
      && AllGrants(offers[..k]).Keys <= v.status.Keys
      && (Opped(offers[k].grants) ==> Opped(v.status))
  {
    var k := |offers| - 1;
    var front := offers[..k];
    GrantsWithin(front, v);
    if Opped(v.status) {
      var n :| n in offers[0].grants && offers[0].grants[n].op;
      assert front[0] == offers[0] && n in AllGrants(front);
    }
    if n :| n in AllGrants(front) && AllGrants(front)[n].op { assert v.status[n].op; }
    if n :| n in offers[k].grants && offers[k].grants[n].op { assert v.status[n].op; }
  }

  /** A burst has the effect of the whole description, wherever it was cut. */
  lemma {:induction false} BurstIsWhole(w: Option<View>, offers: seq<Offer>, v: View)
    requires Describes(offers, v)
    requires w.Some? ==> 0 <= w.value.mode.limit && w.value.status.Keys !! v.status.Keys
    requires 0 <= v.mode.limit
    ensures RunOffers(w, offers) == Some(Step(w, Whole(v).(grants := AllGrants(offers))))
  {
    hide Step, Opped;
    var k := |offers| - 1;
    if k == 0 {
      assert offers[..0] == [];
      assert offers[0] == Whole(v).(grants := offers[0].grants);
      assert offers[0].grants + map[] == offers[0].grants;
    } else {
      FrontOps(offers, v);
      BurstIsWhole(w, offers[..k], v);
      SecondLineAddsMembers(w, Whole(v).(grants := AllGrants(offers[..k])), offers[k]);
    }
  }

  // No line of a burst but the first can take anything away.
  lemma LaterLinesMerge(w: Option<View>, offers: seq<Offer>, v: View)
    requires Describes(offers, v) && |offers| > 1
    requires w.Some? ==> 0 <= w.value.mode.limit && w.value.status.Keys !! v.status.Keys
    requires 0 <= v.mode.limit
    ensures VerdictOn(RunOffers(w, offers[..|offers| - 1]), offers[|offers| - 1]).keepOurs
  {
    hide Step, Opped;
    var k := |offers| - 1;
    FrontOps(offers, v);
    BurstIsWhole(w, offers[..k], v);
    SecondLineVerdict(w, Whole(v).(grants := AllGrants(offers[..k])), offers[k]);
  }

  // ---- two descriptions

  /** Merging is symmetric: the two sides apply opposite verdicts, except that both merge or one of them strips. */
  lemma WholeStepsCommute(v: View, w: View)
    requires v.status.Keys !! w.status.Keys
    ensures Step(Some(v), Whole(w)) == Step(Some(w), Whole(v))
  {
    MergeModeLaws(v.mode, w.mode, v.mode);
    PlusCommutes(v.status, w.status);
    PlusCommutes(v.status, Strip(w.status));
    PlusCommutes(Strip(v.status), w.status);
  }

  // A server that does not have the channel takes the description over unchanged.
  lemma WholeOnNothing(v: View)
    requires 0 <= v.mode.limit
    ensures Step(None, Whole(v)) == v
  {
    MergeModeLaws(v.mode, NO_MODE, v.mode);
    assert v.status + map[] == v.status;
  }

  // ---- printed bursts

  /** Processing lines one after the other; a rejected line leaves the channel alone. */
  function Run(before: Option<Chan>, lines: seq<Line>, reachable: set<string>): Option<Chan> {
    if lines == [] then before
    else
      var mid := Run(before, lines[..|lines| - 1], reachable);
      var out := Sjoin(mid, lines[|lines| - 1], reachable);
      if out.Accepted? then Some(out.chan) else mid
  }

  ghost predicate AllAccepted(lines: seq<Line>) {
    forall i :: 0 <= i < |lines| ==> OfferOf(lines[i]).Some?
  }

  ghost function Offers(lines: seq<Line>): seq<Offer>
    requires AllAccepted(lines)
  {
    seq(|lines|, i requires 0 <= i < |lines| => OfferOf(lines[i]).value)
  }

  ghost predicate AllReachable(lines: seq<Line>, reachable: set<string>) {
    forall i :: 0 <= i < |lines| ==> Reachable(lines[i], reachable)
  }

  /** Run refines RunOffers. */
  lemma {:induction false} RunSeen(before: Option<Chan>, lines: seq<Line>, reachable: set<string>)
    requires before.Some? ==> Distinct(before.value.members)
    requires AllAccepted(lines) && AllReachable(lines, reachable)
    ensures ViewOfOption(Run(before, lines, reachable)) == RunOffers(ViewOfOption(before), Offers(lines))
    ensures Run(before, lines, reachable).Some? ==> Distinct(Run(before, lines, reachable).value.members)
  {
    if lines != [] {
      var k := |lines| - 1;
      RunSeen(before, lines[..k], reachable);
      assert Offers(lines)[..k] == Offers(lines[..k]);
      SjoinIsStep(Run(before, lines[..k], reachable), lines[k], reachable);
    }
  }

  // Line i's tokens are a slice of all the tokens.
  lemma {:induction false} FlattenSlice(lines: seq<Line>, i: nat) returns (from: nat)
    requires i < |lines|
    ensures from + |lines[i].nicks| <= |Flatten(lines)|
    ensures Flatten(lines)[from..from + |lines[i].nicks|] == lines[i].nicks
    ensures i == 0 ==> from == 0
  {
    var k := |lines| - 1;
    if i == k {
      from := |Flatten(lines[..k])|;
    } else {
      from := FlattenSlice(lines[..k], i);
    }
  }

  // The header of line i of a burst, read back.
  lemma BurstHeader(lines: seq<Line>, c: Chan, i: nat)
    requires ValidMode(c.mode) && IsBurst(lines, c) && i < |lines|
    ensures OfferOf(lines[i])
         == Some(Offer(c.ts, if i == 0 then c.mode else NO_MODE, TokenGrants(lines[i].nicks), DoesOp(lines[i].nicks)))
  {
    if i == 0 {
      ReadsPrintedModes(c.mode);
    } else {
      assert lines[i].modes == "0" && "0"[1..] == [];
      assert ParseModes("0", [], NO_MODE, 0) == ParseModes("0"[1..], [], NO_MODE, 0);
    }
  }

  lemma DoesOpFirst(ms: seq<Member>)
    requires ms != [] && ValidNick(ms[0].nick)
    ensures DoesOp(Tokens(ms)) <==> ms[0].flags.op
  {
    ReadsPrintedToken(ms[0]);
    var t := Token(ms[0]);
    assert Tokens(ms)[0] == t && [t][0] == t;
  }

  lemma TokensSlice(ms: seq<Member>, from: nat, to: nat)
    requires from <= to <= |ms|
    ensures Tokens(ms)[from..to] == Tokens(ms[from..to])
  {
  }

  ghost predicate Printable(ms: seq<Member>) {
    Distinct(ms) && forall m :: m in ms ==> ValidNick(m.nick)
  }

  lemma PrintableSlice(ms: seq<Member>, from: nat, to: nat)
    requires from <= to <= |ms| && Printable(ms)
    ensures Printable(ms[from..to])
    ensures forall m :: m in ms[from..to] ==> m in ms
  {
    var s := ms[from..to];
    forall i, j | 0 <= i < j < |s| ensures s[i].nick != s[j].nick {
      assert s[i] == ms[from + i] && s[j] == ms[from + j];
    }
  }

  // A printed stretch of a member list gives back statuses of that list.
  lemma StretchGrants(slice: seq<Member>, order: seq<Member>)
    requires slice != [] && Printable(slice) && Distinct(order)
    requires forall m :: m in slice ==> m in order
    ensures var grants := TokenGrants(Tokens(slice));
      && (forall n :: n in grants ==> n in StatusMap(order) && grants[n] == StatusMap(order)[n])
      && (slice[0].flags.op ==> Opped(grants))
    ensures DoesOp(Tokens(slice)) <==> slice[0].flags.op
  {
    ReadsPrintedMembers(slice);
    StatusWithin(slice, order);
    DoesOpFirst(slice);
    StatusMapAt(slice, 0);
  }

  // Line i of a burst, read back, offers some of the channel's members with their own status.
  lemma BurstLine(lines: seq<Line>, c: Chan, i: nat)
    requires ValidChan(c) && IsBurst(lines, c) && i < |lines|
    ensures OfferOf(lines[i])
         == Some(Offer(c.ts, if i == 0 then c.mode else NO_MODE, TokenGrants(lines[i].nicks), DoesOp(lines[i].nicks)))
    ensures var grants := TokenGrants(lines[i].nicks);
      && (DoesOp(lines[i].nicks) ==> Opped(StatusMap(c.members)))
      && (forall n :: n in grants ==> n in StatusMap(c.members) && grants[n] == StatusMap(c.members)[n])
      && (i == 0 ==> DoesOp(lines[i].nicks) == Opped(StatusMap(c.members)))
      && (i == 0 && DoesOp(lines[i].nicks) ==> Opped(grants))
  {
    hide ParseModes, TokenGrants, StatusMap, Token, ModeWord, ModeParams;
    BurstHeader(lines, c, i);
    var order := BurstOrder(c.members);
    BurstOrderIsMembers(c.members);
    OrderKeepsMembers(c);
    var from := FlattenSlice(lines, i);
    var to := from + |lines[i].nicks|;
    TokensSlice(order, from, to);
    PrintableSlice(order, from, to);
    StretchGrants(order[from..to], order);
  }

  lemma OrderKeepsMembers(c: Chan)
    requires ValidChan(c)
    ensures StatusMap(BurstOrder(c.members)) == StatusMap(c.members)
    ensures Printable(BurstOrder(c.members))
    ensures HasOps(BurstOrder(c.members)) == HasOps(c.members) == Opped(StatusMap(c.members))
  {
    var order := BurstOrder(c.members);
    BurstOrderIsMembers(c.members);
    forall m ensures m in order <==> m in c.members {
      assert m in multiset(order) <==> m in multiset(c.members);
    }
    SameMembersSameStatus(order, c.members);
    OpsSeen(order);
    OpsSeen(c.members);
  }

  lemma {:induction false} AllGrantsAreTokens(lines: seq<Line>)
    requires AllAccepted(lines)
    requires forall i :: 0 <= i < |lines| ==> OfferOf(lines[i]).value.grants == TokenGrants(lines[i].nicks)
    ensures AllGrants(Offers(lines)) == TokenGrants(Flatten(lines))
  {
    if lines != [] {
      var k := |lines| - 1;
      AllGrantsAreTokens(lines[..k]);
      assert Offers(lines)[..k] == Offers(lines[..k]);
      TokenGrantsConcat(Flatten(lines[..k]), lines[k].nicks);
    }
  }

  /** The lines of a burst, read back, describe exactly the channel that was printed. */
  lemma BurstDescribes(lines: seq<Line>, c: Chan)
    requires ValidChan(c) && IsBurst(lines, c)
    ensures AllAccepted(lines)
    ensures Describes(Offers(lines), ViewOf(c))
    ensures AllGrants(Offers(lines)) == StatusMap(c.members)
  {
    hide OfferOf, TokenGrants, StatusMap, DoesOp, Opped;
    forall i | 0 <= i < |lines|
      ensures OfferOf(lines[i]).Some? && OfferOf(lines[i]).value.grants == TokenGrants(lines[i].nicks)
    {
      BurstLine(lines, c, i);
    }
    forall i | 0 <= i < |lines|
      ensures var o := Offers(lines)[i];
        && o.ts == c.ts && (i > 0 ==> o.mode == NO_MODE) && (o.doesOp ==> Opped(StatusMap(c.members)))
        && forall n :: n in o.grants ==> n in StatusMap(c.members) && o.grants[n] == StatusMap(c.members)[n]
    {
      BurstLine(lines, c, i);
    }
    BurstLine(lines, c, 0);
    AllGrantsAreTokens(lines);
    OrderKeepsMembers(c);
    ReadsPrintedMembers(BurstOrder(c.members));
  }

  lemma BurstIsReachable(lines: seq<Line>, c: Chan, reachable: set<string>)
    requires ValidChan(c) && IsBurst(lines, c) && Nicks(c.members) <= reachable
    ensures AllReachable(lines, reachable)
  {
    StatusMapKeys(c.members);
    forall i | 0 <= i < |lines| ensures Reachable(lines[i], reachable) {
      BurstLine(lines, c, i);
    }
  }

  lemma BurstEffect(before: Option<Chan>, lines: seq<Line>, c: Chan, reachable: set<string>)
    requires ValidChan(c) && IsBurst(lines, c) && Nicks(c.members) <= reachable
    requires before.Some? ==> ValidChan(before.value) && Nicks(before.value.members) !! Nicks(c.members)
    ensures Run(before, lines, reachable).Some?
    ensures ViewOf(Run(before, lines, reachable).value) == Step(ViewOfOption(before), Whole(ViewOf(c)))
  {
    BurstDescribes(lines, c);
    BurstIsReachable(lines, c, reachable);
    StatusMapKeys(c.members);
    if before.Some? { StatusMapKeys(before.value.members); }
    RunSeen(before, lines, reachable);
    BurstIsWhole(ViewOfOption(before), Offers(lines), ViewOf(c));
  }

  /**
   * Burst convergence. Two servers hold any descriptions of one channel, with any timestamps (zero included),
   * any modes, disjoint members, operators or none. Each processes the other's burst, as printed before
   * linking and cut into lines anywhere: they end with the same timestamp, modes, members and statuses.
   */
  lemma BurstsConverge(a: Chan, b: Chan, fromA: seq<Line>, fromB: seq<Line>, reachable: set<string>)
    requires ValidChan(a) && ValidChan(b) && Nicks(a.members) !! Nicks(b.members)
    requires Nicks(a.members) + Nicks(b.members) <= reachable
    requires IsBurst(fromA, a) && IsBurst(fromB, b)
    ensures Run(Some(a), fromB, reachable).Some? && Run(Some(b), fromA, reachable).Some?
    ensures ViewOf(Run(Some(a), fromB, reachable).value) == ViewOf(Run(Some(b), fromA, reachable).value)
  {
    BurstEffect(Some(a), fromB, b, reachable);
    BurstEffect(Some(b), fromA, a, reachable);
    StatusMapKeys(a.members);
    StatusMapKeys(b.members);
    WholeStepsCommute(ViewOf(a), ViewOf(b));
  }

  /** A server without the channel rebuilds it exactly from the burst: printing and parsing are inverse. */
  lemma BurstRebuildsChannel(c: Chan, lines: seq<Line>, reachable: set<string>)
    requires ValidChan(c) && IsBurst(lines, c) && Nicks(c.members) <= reachable
    ensures Run(None, lines, reachable).Some?
    ensures ViewOf(Run(None, lines, reachable).value) == ViewOf(c)
  {
    BurstEffect(None, lines, c, reachable);
    WholeOnNothing(ViewOf(c));
  }
}
