/** Trees of servers that keep flood limits: what a line or a burst that floods them does to all of them. */
module ChannelZones {
  import opened Text
  import opened ChannelModel
  import opened ChannelView
  import opened ChannelPrint
  import opened ChannelConvergence
  import opened ChannelRelay
  import opened ChannelRate

  /** A server's channel and limit, and the servers behind its other links. */
  datatype Zone = Zone(server: Option<Rated>, links: seq<Zone>)

  /** A line entering the tree at its root: every server processes it and passes its own relay on. */
  function RatedFlood(t: Zone, line: Line, reachable: set<string>): Zone {
    var out := SjoinRated(t.server, line, reachable);
    if out.Refused? then t
    else Zone(Some(out.rated),
              if out.relay.None? then t.links
              else seq(|t.links|, i requires 0 <= i < |t.links| => RatedFlood(t.links[i], out.relay.value, reachable)))
  }

  /** Every server of the tree sees the channel as v and has the limit r. */
  ghost predicate InRatedStep(t: Zone, v: Option<View>, r: Rate) {
    && ViewOfOption(ChanOf(t.server)) == v && RateOf(t.server) == r
    && (t.server.Some? ==> Distinct(t.server.value.chan.members))
    && forall i :: 0 <= i < |t.links| ==> InRatedStep(t.links[i], v, r)
  }

  /** A line with a nick, all its nicks resolving, with a limit a server can say, and none behind a word of 0. */
  ghost predicate Proper(line: Line, reachable: set<string>) {
    && ParseAll(line.modes, line, NO_MODE, NO_RATE, 0).Some?
    && WellFormed(Plain(line)) && Reachable(Plain(line), reachable)
    && Sane(RateOfLine(line))
    && (ZeroWord(line) ==> RateOfLine(line) == NO_RATE)
  }

  // What a line offers, without its limit.
  ghost function OfferIn(line: Line): Offer
    requires OfferOf(Plain(line)).Some?
  {
    OfferOf(Plain(line)).value
  }

  // A server's limit after a line, by what it saw before.
  ghost function RateAfter(v: Option<View>, r: Rate, line: Line): Rate
    requires OfferOf(Plain(line)).Some?
  {
    MergeRate(VerdictOn(v, OfferIn(line)), RateOfLine(line), r)
  }

  // ---- one server

  // Twins offer the same.
  lemma {:induction false} TwinsOffer(line: Line, plain: Line, mode: Mode, rate: Rate, args: nat, args': nat)
    requires Twins(line, plain, mode, rate, args, args')
    ensures OfferOf(Plain(line)) == OfferOf(plain) && OfferOf(plain).Some? && RateOfLine(line) == rate
    ensures ZeroWord(Plain(line)) == ZeroWord(line)
  {
    hide ParseAll, ParseModes, ZeroWord, TokenGrants, DoesOp;
    PlainTwins(line);
  }

  lemma SaneStays(v: Verdict, line: Rate, ours: Rate)
    requires Sane(line) && Sane(ours)
    ensures Sane(MergeRate(v, line, ours))
  {
  }

  lemma SaneSaid(r: Rate)
    ensures Sane(Said(r)) && Sane(NO_RATE)
  {
  }

  lemma {:induction false} ProperIsTaken(b: Option<Rated>, line: Line, reachable: set<string>)
    requires Proper(line, reachable)
    ensures SjoinRated(b, line, reachable).Taken?
  {
    hide ParseAll, WellFormed, Reachable, ZeroWord, RateOfLine, Plain;
  }

  /** A server's channel, limit and relay after a proper line. */
  lemma {:induction false} OneServer(b: Option<Rated>, line: Line, reachable: set<string>) returns (relay: Line)
    requires b.Some? ==> Distinct(b.value.chan.members) && ValidMode(b.value.chan.mode) && Sane(b.value.rate)
    requires Proper(line, reachable)
    ensures var out := SjoinRated(b, line, reachable);
      var v := ViewOfOption(ChanOf(b));
      && out.Taken? && out.relay == Some(relay)
      && Distinct(out.rated.chan.members)
      && ViewOf(out.rated.chan) == Step(v, OfferIn(line))
      && out.rated.rate == RateAfter(v, RateOf(b), line)
      && Sane(out.rated.rate)
      && Proper(relay, reachable)
      && Step(v, OfferIn(relay)) == Step(v, OfferIn(line))
      && RateAfter(v, RateOf(b), relay) == RateAfter(v, RateOf(b), line)
  {
    hide Sjoin, SjoinRated, ParseAll, ParseModes, OfferOf, ZeroWord, RelayOffer, MergeRate, Twins, ViewOf, RateOfLine,
         Plain, Step, VerdictOn, Reachable;
    ProperIsTaken(b, line, reachable);
    var before := ViewOfOption(ChanOf(b));
    var plain, rated, o, doesOp, mode, said := RelayedRate(b, line, reachable);
    relay := rated;
    PlainTwins(line);
    RelayKeepsStep(ChanOf(b), ChanOf(b), Plain(line), reachable);
    SjoinIsStep(ChanOf(b), Plain(line), reachable);
    SjoinIsStep(ChanOf(b), plain, reachable);
    TwinsOffer(rated, plain, mode, said, |rated.params|, |plain.params|);
    RelayVerdict(before, o, ZeroWord(line), doesOp);
    RateTwice(VerdictOn(before, o), VerdictOn(before, RelayOffer(before, o, ZeroWord(line), doesOp)),
              RateOfLine(line), RateOf(b), ZeroWord(line));
    SaneSaid(SjoinRated(b, line, reachable).rated.rate);
    SaneStays(VerdictOn(before, o), RateOfLine(line), RateOf(b));
    TwinIsProper(relay, plain, mode, said, |relay.params|, |plain.params|, reachable);
  }

  // A line with a well-formed twin is proper.
  lemma {:induction false} TwinIsProper(rated: Line, plain: Line, mode: Mode, said: Rate, args: nat, args': nat,
                                        reachable: set<string>)
    requires Twins(rated, plain, mode, said, args, args')
    requires WellFormed(plain) && Reachable(plain, reachable)
    requires Sane(said) && ZeroWord(rated) == ZeroWord(plain) && (ZeroWord(rated) ==> said == NO_RATE)
    ensures Proper(rated, reachable)
  {
    hide ParseModes, NickList, RateOfLine, Plain;
    TwinsOffer(rated, plain, mode, said, args, args');
  }

  // ---- a tree

  /** An agreeing tree still agrees after any proper line has flooded it, on the channel and on the limit. */
  lemma {:induction false} RatedFloodKeepsStep(t: Zone, v: Option<View>, r: Rate, line: Line, reachable: set<string>)
    requires InRatedStep(t, v, r) && Sane(r)
    requires v.Some? ==> ValidMode(v.value.mode)
    requires Proper(line, reachable)
    ensures InRatedStep(RatedFlood(t, line, reachable), Some(Step(v, OfferIn(line))), RateAfter(v, r, line))
    decreases t
  {
    hide Step, SjoinRated, RateAfter, OfferIn, Sane, Plain, Reachable;
    ServerSees(t.server, v, r);
    var relay := OneServer(t.server, line, reachable);
    var after, rate := Step(v, OfferIn(line)), RateAfter(v, r, line);
    forall i | 0 <= i < |t.links| ensures InRatedStep(RatedFlood(t.links[i], relay, reachable), Some(after), rate) {
      RatedFloodKeepsStep(t.links[i], v, r, relay, reachable);
    }
  }

  // What is agreed on holds of the server.
  lemma {:induction false} ServerSees(b: Option<Rated>, v: Option<View>, r: Rate)
    requires ViewOfOption(ChanOf(b)) == v && RateOf(b) == r
    ensures b.Some? ==> v == Some(ViewOf(b.value.chan)) && v.value.mode == b.value.chan.mode && b.value.rate == r
  {
  }

  function RatedFloodAll(t: Zone, lines: seq<Line>, reachable: set<string>): Zone {
    if lines == [] then t
    else RatedFlood(RatedFloodAll(t, lines[..|lines| - 1], reachable), lines[|lines| - 1], reachable)
  }

  // ---- a burst

  // The limit of a server that sees v and has r, after b's burst.
  function BurstRateOn(v: Option<View>, r: Rate, b: Rated): Rate {
    MergeRate(VerdictOn(v, Whole(ViewOf(b.chan))), Said(b.rate), r)
  }

  ghost predicate Resolves(b: Rated, reachable: set<string>) {
    ValidChan(b.chan) && Nicks(b.chan.members) <= reachable
  }

  // Line i of a burst.
  lemma {:induction false} BurstLineIsProper(lines: seq<Line>, b: Rated, i: nat, reachable: set<string>)
    requires IsRatedBurst(lines, b) && Resolves(b, reachable) && i < |lines|
    ensures Proper(lines[i], reachable)
    ensures var plains := Unlimited(lines, b.chan.mode);
      && AllAccepted(plains) && OfferIn(lines[i]) == Offers(plains)[i]
      && RateOfLine(lines[i]) == if i == 0 then Said(b.rate) else NO_RATE
  {
    hide ParseAll, ParseModes, RatedWord, RatedParams, ModeWord, ModeParams, OfferOf, ZeroWord, Proper, RateOfLine,
         Plain, Twins, IsBurst, WellFormed;
    var plains := Unlimited(lines, b.chan.mode);
    BurstDescribes(plains, b.chan);
    BurstIsReachable(plains, b.chan, reachable);
    PlainLineWellFormed(plains, b.chan, i);
    var plain := plains[i];
    var args, args' := |lines[i].params|, |plain.params|;
    var mode, said := if i == 0 then b.chan.mode else NO_MODE, if i == 0 then Said(b.rate) else NO_RATE;
    BurstLineTwins(lines, b, i);
    SaneSaid(b.rate);
    TwinsOffer(lines[i], plain, mode, said, args, args');
    TwinIsProper(lines[i], plain, mode, said, args, args', reachable);
  }

  lemma {:induction false} BurstLineTwins(lines: seq<Line>, b: Rated, i: nat)
    requires IsRatedBurst(lines, b) && ValidChan(b.chan) && i < |lines|
    ensures var plain := Unlimited(lines, b.chan.mode)[i];
      && Twins(lines[i], plain, if i == 0 then b.chan.mode else NO_MODE, if i == 0 then Said(b.rate) else NO_RATE,
               |lines[i].params|, |plain.params|)
      && ZeroWord(lines[i]) == ZeroWord(plain) == (i > 0)
  {
    hide ParseAll, ParseModes, RatedParams, ModeWord, ModeParams, IsBurst;
    PlusFirst(b.chan.mode);
    if i == 0 {
      ReadsRatedModes(lines[0], b.chan.mode, b.rate);
      ReadsPrintedModes(b.chan.mode);
    } else {
      IsZeroLine(Unlimited(lines, b.chan.mode), b.chan, i);
      ZeroReadsNoRate(lines[i]);
      ZeroRead();
    }
  }

  lemma PlainLineWellFormed(lines: seq<Line>, c: Chan, i: nat)
    requires ValidChan(c) && IsBurst(lines, c) && i < |lines|
    ensures WellFormed(lines[i])
  {
    BurstLine(lines, c, i);
    var m := ReadToken(lines[i].nicks[0], NO_FLAGS);
    assert m.nick in TokenGrants(lines[i].nicks);
    if i == 0 { PlusFirst(c.mode); }
  }

  ghost predicate Apart(v: Option<View>, b: Rated) {
    v.Some? ==> ValidMode(v.value.mode) && v.value.status.Keys !! ViewOf(b.chan).status.Keys
  }

  // A later line of a burst leaves the limit.
  lemma {:induction false} LaterFloods(t: Zone, v: Option<View>, u: View, q: Rate, line: Line, offers: seq<Offer>,
                                       b: Rated, reachable: set<string>)
    requires Describes(offers, ViewOf(b.chan)) && |offers| > 1 && Apart(v, b) && ValidMode(b.chan.mode)
    requires RunOffers(v, offers[..|offers| - 1]) == Some(u) && ValidMode(u.mode)
    requires InRatedStep(t, Some(u), q) && Sane(q)
    requires Proper(line, reachable) && RateOfLine(line) == NO_RATE && OfferIn(line) == offers[|offers| - 1]
    ensures InRatedStep(RatedFlood(t, line, reachable), RunOffers(v, offers), q)
  {
    hide Step, RatedFlood, InRatedStep, VerdictOn, OfferIn, RateOfLine, MergeRate, Describes, Opped, Sane, StatusMap,
         Plain, Reachable;
    RatedFloodKeepsStep(t, Some(u), q, line, reachable);
    LaterLinesMerge(v, offers, ViewOf(b.chan));
    NoRateMerged(VerdictOn(Some(u), offers[|offers| - 1]), q);
  }

  lemma {:induction false} FirstFloods(t: Zone, v: Option<View>, r: Rate, line: Line, offers: seq<Offer>, b: Rated,
                                       reachable: set<string>)
    requires Describes(offers, ViewOf(b.chan)) && Apart(v, b)
    requires InRatedStep(t, v, r) && Sane(r)
    requires Proper(line, reachable) && RateOfLine(line) == Said(b.rate) && OfferIn(line) == offers[0]
    ensures InRatedStep(RatedFlood(t, line, reachable), RunOffers(v, offers[..1]), BurstRateOn(v, r, b))
  {
    hide Step, RatedFlood, InRatedStep, VerdictOn, OfferIn, RateOfLine, MergeRate, Opped, Sane, StatusMap, Plain,
         Reachable;
    RatedFloodKeepsStep(t, v, r, line, reachable);
    FirstVerdict(v, offers, ViewOf(b.chan));
    assert offers[..1][..0] == [];
  }

  // What a burst makes of the modes.
  lemma {:induction false} RunKeepsModeValid(v: Option<View>, offers: seq<Offer>)
    requires v.Some? ==> ValidMode(v.value.mode)
    requires forall i :: 0 <= i < |offers| ==> ValidMode(offers[i].mode)
    ensures var w := RunOffers(v, offers); w.Some? ==> ValidMode(w.value.mode)
  {
    hide Step, ValidMode;
    if offers != [] {
      var k := |offers| - 1;
      RunKeepsModeValid(v, offers[..k]);
      StepKeepsModeValid(RunOffers(v, offers[..k]), offers[k]);
    }
  }

  lemma DescribedModes(offers: seq<Offer>, v: View)
    requires Describes(offers, v) && ValidMode(v.mode)
    ensures forall i :: 0 <= i < |offers| ==> ValidMode(offers[i].mode)
  {
  }

  // The first lines of a burst.
  lemma {:induction false} BurstFloodsUpTo(t: Zone, v: Option<View>, r: Rate, lines: seq<Line>, b: Rated, k: nat,
                                           reachable: set<string>)
    requires InRatedStep(t, v, r) && Sane(r) && Apart(v, b)
    requires IsRatedBurst(lines, b) && Resolves(b, reachable) && 0 < k <= |lines|
    ensures AllAccepted(Unlimited(lines, b.chan.mode))
    ensures var w := RunOffers(v, Offers(Unlimited(lines, b.chan.mode))[..k]);
      InRatedStep(RatedFloodAll(t, lines[..k], reachable), w, BurstRateOn(v, r, b))
  {
    hide Step, RatedFlood, IsBurst, InRatedStep, VerdictOn, OfferIn, RateOfLine, BurstRateOn, Proper, Describes, Sane,
         StatusMap, Said, ValidMode;
    var plains := Unlimited(lines, b.chan.mode);
    BurstDescribes(plains, b.chan);
    var offers := Offers(plains);
    BurstLineIsProper(lines, b, k - 1, reachable);
    assert lines[..k][..k - 1] == lines[..k - 1] && offers[..k][..k - 1] == offers[..k - 1];
    if k == 1 {
      FirstFloods(t, v, r, lines[0], offers, b, reachable);
    } else {
      BurstFloodsUpTo(t, v, r, lines, b, k - 1, reachable);
      SaneBurst(v, r, b);
      DescribesPrefix(offers, ViewOf(b.chan), k);
      DescribesPrefix(offers, ViewOf(b.chan), k - 1);
      DescribedModes(offers[..k - 1], ViewOf(b.chan));
      RunKeepsModeValid(v, offers[..k - 1]);
      LaterFloods(RatedFloodAll(t, lines[..k - 1], reachable), v, RunOffers(v, offers[..k - 1]).value,
                  BurstRateOn(v, r, b), lines[k - 1], offers[..k], b, reachable);
    }
  }

  lemma {:induction false} SaneBurst(v: Option<View>, r: Rate, b: Rated)
    requires Sane(r)
    ensures Sane(BurstRateOn(v, r, b))
  {
    SaneSaid(b.rate);
    SaneStays(VerdictOn(v, Whole(ViewOf(b.chan))), Said(b.rate), r);
  }

  lemma NoRateMerged(v: Verdict, r: Rate)
    requires v.keepOurs
    ensures MergeRate(v, NO_RATE, r) == r
  {
  }

  lemma FirstVerdict(v: Option<View>, offers: seq<Offer>, w: View)
    requires Describes(offers, w)
    ensures VerdictOn(v, offers[0]) == VerdictOn(v, Whole(w))
  {
  }

  /** After a burst has flooded an agreeing tree every server has the same view and the same limit. */
  lemma {:induction false} RatedBurstFloods(t: Zone, v: Option<View>, r: Rate, lines: seq<Line>, b: Rated,
                                            reachable: set<string>)
    requires InRatedStep(t, v, r) && Sane(r) && Apart(v, b)
    requires IsRatedBurst(lines, b) && Resolves(b, reachable)
    ensures InRatedStep(RatedFloodAll(t, lines, reachable), Some(Step(v, Whole(ViewOf(b.chan)))), BurstRateOn(v, r, b))
  {
    hide Step, RatedFloodAll, IsBurst, InRatedStep, BurstRateOn, StatusMap;
    var plains := Unlimited(lines, b.chan.mode);
    BurstFloodsUpTo(t, v, r, lines, b, |lines|, reachable);
    BurstDescribes(plains, b.chan);
    BurstIsWhole(v, Offers(plains), ViewOf(b.chan));
    assert lines[..|lines|] == lines && Offers(plains)[..|lines|] == Offers(plains);
  }

  // ---- two trees

  /**
   * Two trees of servers that agree among themselves link at their roots, and each root's burst floods the other tree.
   * Then all servers agree on the channel, the servers of each tree on the limit, and the two trees on the limit if and
   * only if the roots' limits could agree.
   */
  lemma {:induction false} RatedZonesConverge(x: Zone, y: Zone, a: Rated, b: Rated, fromA: seq<Line>, fromB: seq<Line>,
                                              reachable: set<string>)
    requires x.server == Some(a) && y.server == Some(b)
    requires InRatedStep(x, Some(ViewOf(a.chan)), a.rate) && InRatedStep(y, Some(ViewOf(b.chan)), b.rate)
    requires Sane(a.rate) && Sane(b.rate)
    requires Resolves(a, reachable) && Resolves(b, reachable)
    requires Nicks(a.chan.members) !! Nicks(b.chan.members)
    requires IsRatedBurst(fromA, a) && IsRatedBurst(fromB, b)
    ensures exists v, r, s ::
      && InRatedStep(RatedFloodAll(x, fromB, reachable), Some(v), r)
      && InRatedStep(RatedFloodAll(y, fromA, reachable), Some(v), s)
      && (r == s <==> RatesAgree(a, b))
  {
    hide Step, RatedFloodAll, IsRatedBurst, InRatedStep, VerdictOn, Nicks, StatusMap, Wins;
    var va, vb := ViewOf(a.chan), ViewOf(b.chan);
    StatusMapKeys(a.chan.members);
    StatusMapKeys(b.chan.members);
    RatedBurstFloods(x, Some(va), a.rate, fromB, b, reachable);
    RatedBurstFloods(y, Some(vb), b.rate, fromA, a, reachable);
    WholeStepsCommute(va, vb);
    WinsSeen(a.chan, b.chan);
    WinsSeen(b.chan, a.chan);
    WinsOnce(a.chan, b.chan);
    var v, r, s := Step(Some(va), Whole(vb)), BurstRateOn(Some(va), a.rate, b), BurstRateOn(Some(vb), b.rate, a);
    assert InRatedStep(RatedFloodAll(x, fromB, reachable), Some(v), r);
  }
}
