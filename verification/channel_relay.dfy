/** Passing a line on: the line m_sjoin emits has the same effect one hop further, so a flood keeps a zone in step. */
module ChannelRelay {
  import opened Text
  import opened ChannelModel
  import opened ChannelView
  import opened ChannelPrint
  import opened ChannelConvergence

  predicate ZeroWord(line: Line) {
    line.modes != [] && line.modes[0] == '0'
  }

  /** A line with at least one nick, whose mode word, if it starts with '0', sets nothing. */
  ghost predicate WellFormed(line: Line) {
    && OfferOf(line).Some?
    && OfferOf(line).value.grants != map[]
    && (ZeroWord(line) ==> OfferOf(line).value.mode == NO_MODE)
  }

  // ---- what the relayed line offers

  lemma {:induction false} NickHasNoPrefix(t: string, flags: Flags)
    ensures var m := ReadToken(t, flags); ReadToken(m.nick, NO_FLAGS) == Member(m.nick, NO_FLAGS)
  {
    if t != [] && IsPrefix(t[0]) {
      NickHasNoPrefix(t[1..], if t[0] == '.' then flags.(adm := true)
                              else if t[0] == '@' then flags.(op := true) else flags.(voice := true));
    }
  }

  lemma {:induction false} RelayedGrants(tokens: seq<string>, reachable: set<string>, keepNew: bool)
    requires TokenGrants(tokens).Keys <= reachable
    ensures TokenGrants(RelayTokens(tokens, reachable, keepNew)) == Offered(TokenGrants(tokens), keepNew)
    ensures keepNew ==> RelayTokens(tokens, reachable, keepNew) == tokens
    ensures tokens != [] ==> RelayTokens(tokens, reachable, keepNew) != []
  {
    if tokens != [] {
      var m := ReadToken(tokens[0], NO_FLAGS);
      var rest := TokenGrants(tokens[1..]);
      assert m.nick in TokenGrants(tokens).Keys && rest.Keys <= TokenGrants(tokens).Keys;
      RelayedGrants(tokens[1..], reachable, keepNew);
      OfferedPut(rest, m.nick, GrantOf(m.flags), keepNew);
      NickHasNoPrefix(tokens[0], NO_FLAGS);
      var relayed := RelayTokens(tokens, reachable, keepNew);
      var first := if keepNew then tokens[0] else m.nick;
      assert relayed == [first] + RelayTokens(tokens[1..], reachable, keepNew);
      assert relayed[0] == first && relayed[1..] == RelayTokens(tokens[1..], reachable, keepNew);
      assert tokens == [tokens[0]] + tokens[1..];
    }
  }

  lemma {:induction false} ParsedModeIsPrintable(word: string, params: seq<string>, mode: Mode, args: nat)
    requires PrintableMode(mode)
    ensures var p := ParseModes(word, params, mode, args); p.Some? ==> PrintableMode(p.value.0)
  {
    if word == [] {
    } else if word[0] == 'k' {
      if args < |params| { ParsedModeIsPrintable(word[1..], params, mode.(key := Truncate(params[args])), args + 1); }
    } else if word[0] == 'l' {
      if args < |params| { ParsedModeIsPrintable(word[1..], params, mode.(limit := Atoi(params[args])), args + 1); }
    } else if IsLetter(word[0]) {
      ParsedModeIsPrintable(word[1..], params, mode.(letters := mode.letters + {word[0]}), args);
    } else {
      ParsedModeIsPrintable(word[1..], params, mode, args);
    }
  }

  // The offer m_sjoin passes on for an offer it received; doesOp is read off the relayed nick list.
  function RelayOffer(before: Option<View>, o: Offer, zero: bool, doesOp: bool): Offer {
    var v := VerdictOn(before, o);
    Offer(v.relayTs, if v.keepNew && !zero then Step(before, o).mode else NO_MODE, Offered(o.grants, v.keepNew), doesOp)
  }

  lemma PrintedLineOffers(ts: nat, mode: Mode, nicks: seq<string>)
    requires PrintableMode(mode)
    ensures OfferOf(Line(ts, ModeWord(mode), ModeParams(mode), nicks)) == Some(Offer(ts, mode, TokenGrants(nicks),
      DoesOp(nicks)))
    ensures !ZeroWord(Line(ts, ModeWord(mode), ModeParams(mode), nicks))
    ensures OfferOf(Line(ts, "0", [], nicks)) == Some(Offer(ts, NO_MODE, TokenGrants(nicks), DoesOp(nicks)))
  {
    ReadsPrintedModes(mode);
    assert "0"[1..] == [];
    assert ParseModes("0", [], NO_MODE, 0) == ParseModes("0"[1..], [], NO_MODE, 0);
    assert ModeWord(mode)[0] == '+';
  }

  lemma RelayedLineOffers(before: Option<Chan>, line: Line, reachable: set<string>) returns (relay: Line, doesOp: bool)
    requires before.Some? ==> Distinct(before.value.members) && PrintableMode(before.value.mode)
    requires WellFormed(line) && Reachable(line, reachable)
    ensures Sjoin(before, line, reachable).Accepted? && Sjoin(before, line, reachable).relay == Some(relay)
    ensures OfferOf(relay) == Some(RelayOffer(ViewOfOption(before), OfferOf(line).value, ZeroWord(line), doesOp))
    ensures VerdictOn(ViewOfOption(before), OfferOf(line).value).keepNew ==> doesOp == OfferOf(line).value.doesOp
    ensures WellFormed(relay) && Reachable(relay, reachable)
  {
    var ours := if before.Some? then before.value else Chan(0, NO_MODE, []);
    var (mode, args) := ParseModes(line.modes, line.params, NO_MODE, 0).value;
    var tokens := NickList(line, args);
    OpsSeen(ours.members);
    var v := VerdictOn(ViewOfOption(before), OfferOf(line).value);
    RelayedGrants(tokens, reachable, v.keepNew);
    ParsedModeIsPrintable(line.modes, line.params, NO_MODE, 0);
    relay := Sjoin(before, line, reachable).relay.value;
    doesOp := DoesOp(relay.nicks);
    PrintedLineOffers(v.relayTs, ChooseMode(v, mode, ours.mode), relay.nicks);
  }

  // ---- one hop

  /**
   * Offering what was passed on has the effect of the original offer, exactly when the limit on record is not
   * negative or the line's modes counted: a losing line leaves a negative limit alone here and merges it with 0 there.
   */
  lemma RelayedStep(before: Option<View>, o: Offer, zero: bool, doesOp: bool)
    requires VerdictOn(before, o).keepNew ==> doesOp == o.doesOp
    requires zero ==> o.mode == NO_MODE
    ensures Step(before, RelayOffer(before, o, zero, doesOp)) == Step(before, o)
       <==> before.None? || 0 <= before.value.mode.limit || VerdictOn(before, o).keepNew
  {
    var ours := if before.Some? then before.value else View(0, NO_MODE, map[]);
    var v := VerdictOn(before, o);
    var relay := RelayOffer(before, o, zero, doesOp);
    MergeModeLaws(o.mode, ours.mode, ours.mode);
    MergeModeLaws(ours.mode, ours.mode, ours.mode);
    OppedStrip(o.grants);
    assert Offered(relay.grants, VerdictOn(before, relay).keepNew) == Offered(o.grants, v.keepNew);
  }

  /**
   * Servers B and C agree on a channel (or both lack it). B processes any well-formed line whose nicks resolve,
   * and C processes the line B emits, which is again well-formed: they agree again, unless B's limit is negative
   * and the line lost.
   */
  lemma RelayKeepsStep(b: Option<Chan>, c: Option<Chan>, line: Line, reachable: set<string>)
    requires b.Some? ==> Distinct(b.value.members) && PrintableMode(b.value.mode)
    requires c.Some? ==> Distinct(c.value.members)
    requires ViewOfOption(b) == ViewOfOption(c)
    requires WellFormed(line) && Reachable(line, reachable)
    ensures var out := Sjoin(b, line, reachable);
      && out.Accepted? && out.relay.Some?
      && WellFormed(out.relay.value) && Reachable(out.relay.value, reachable)
      && ViewOf(out.chan) == Step(ViewOfOption(b), OfferOf(line).value)
      && Sjoin(c, out.relay.value, reachable).Accepted?
      && (ViewOf(Sjoin(c, out.relay.value, reachable).chan) == ViewOf(out.chan)
          <==> b.None? || 0 <= b.value.mode.limit || VerdictOn(ViewOfOption(b), OfferOf(line).value).keepNew)
  {
    var relay, doesOp := RelayedLineOffers(b, line, reachable);
    RelayedStep(ViewOfOption(b), OfferOf(line).value, ZeroWord(line), doesOp);
    SjoinIsStep(b, line, reachable);
    SjoinIsStep(c, relay, reachable);
  }

  // ---- a negative limit

  // A channel, what another server may send for it, though a local +l takes positive numbers only, and a later line.
  const YOUNGER := Chan(5, NO_MODE, [Member("c", NO_FLAGS)])
  const NEGATIVE := Line(1, "+l", ["-1"], ["@a"])
  const LATER := Line(2, "+", [], ["b"])

  lemma NegativeRead()
    ensures ParseModes(NEGATIVE.modes, NEGATIVE.params, NO_MODE, 0) == Some((NO_MODE.(limit := -1), 1))
    ensures NickList(NEGATIVE, 1) == ["@a"]
    ensures ReadToken("@a", NO_FLAGS) == Member("a", NO_FLAGS.(op := true))
  {
    assert "+l"[1..] == "l" && "l"[1..] == "";
    assert "-1"[1..] == "1" && "1"[..0] == "";
    assert "@a"[1..] == "a";
  }

  lemma LaterRead()
    ensures ParseModes(LATER.modes, LATER.params, NO_MODE, 0) == Some((NO_MODE, 0)) && NickList(LATER, 0) == ["b"]
    ensures ReadToken("b", NO_FLAGS) == Member("b", NO_FLAGS)
  {
    assert "+"[1..] == "";
  }

  const OLDER := Chan(1, NO_MODE.(limit := -1), [Member("a", NO_FLAGS.(op := true)), Member("c", NO_FLAGS)])

  lemma NegativeChannel()
    ensures Sjoin(Some(YOUNGER), NEGATIVE, {"a"}).Accepted? && Sjoin(Some(YOUNGER), NEGATIVE, {"a"}).chan == OLDER
  {
    hide ParseModes, NickList, ReadToken, JoinAll, RelayTokens, ModeWord, ModeParams;
    NegativeRead();
    assert StripMembers(YOUNGER.members) == [Member("c", NO_FLAGS)];
    OneJoins([Member("c", NO_FLAGS)], "@a", Member("a", NO_FLAGS.(op := true)), {"a"}, true);
  }

  lemma OneJoins(ms: seq<Member>, token: string, m: Member, reachable: set<string>, keepNew: bool)
    requires ReadToken(token, NO_FLAGS) == m && m.nick in reachable && m.nick !in Nicks(ms)
    ensures JoinAll(ms, [token], reachable, keepNew) == [Member(m.nick, Granted(keepNew, m.flags))] + ms
    ensures RelayTokens([token], reachable, keepNew) == [if keepNew then token else m.nick]
  {
    assert [token][1..] == [];
  }

  /**
   * A line "l -1" that wins gives a channel the limit -1. A server where it has, sent a later line, keeps that limit
   * and passes the line on without modes; the next server, with the same channel, merges the two, and its limit
   * becomes 0.
   */
  lemma NegativeLimitDesyncs()
    ensures var b := Sjoin(Some(YOUNGER), NEGATIVE, {"a"});
            && b.Accepted? && b.chan.mode.limit == -1
            && var here := Sjoin(Some(b.chan), LATER, {"b"});
               && here.Accepted? && here.relay == Some(Line(1, "0", [], ["b"])) && here.chan.mode.limit == -1
               && var there := Sjoin(Some(b.chan), here.relay.value, {"b"});
                  there.Accepted? && there.chan.mode.limit == 0
  {
    hide ParseModes, NickList, ReadToken, JoinAll, RelayTokens, StripMembers, HasOps, MaxKey;
    NegativeChannel();
    LaterRead();
    ZeroRead();
    OlderHasOps();
    OneJoins(OLDER.members, "b", Member("b", NO_FLAGS), {"b"}, false);
  }

  lemma OlderHasOps()
    ensures HasOps(OLDER.members) && "b" !in Nicks(OLDER.members)
  {
    assert OLDER.members[0].flags.op;
  }

  lemma ZeroRead()
    ensures ParseModes("0", [], NO_MODE, 0) == Some((NO_MODE, 0))
    ensures forall line: Line :: line.params == [] ==> NickList(line, 0) == line.nicks
  {
    assert "0"[1..] == "";
  }

  // ---- a tree of servers

  /** A server's channel and the servers behind its other links. */
  datatype Net = Net(chan: Option<Chan>, links: seq<Net>)

  /** A line entering the tree at its root: every server processes it and passes its own relay on. */
  function Flood(t: Net, line: Line, reachable: set<string>): Net {
    var out := Sjoin(t.chan, line, reachable);
    if out.Rejected? then t
    else Net(Some(out.chan),
             if out.relay.None? then t.links
             else seq(|t.links|, i requires 0 <= i < |t.links| => Flood(t.links[i], out.relay.value, reachable)))
  }

  /** Every server of the tree sees the channel as v. */
  ghost predicate InStep(t: Net, v: Option<View>) {
    && ViewOfOption(t.chan) == v
    && (t.chan.Some? ==> Distinct(t.chan.value.members))
    && forall i :: 0 <= i < |t.links| ==> InStep(t.links[i], v)
  }

  /** An agreeing zone still agrees after any well-formed line has flooded it. */
  lemma {:induction false} FloodKeepsStep(t: Net, v: Option<View>, line: Line, reachable: set<string>)
    requires InStep(t, v)
    requires v.Some? ==> ValidMode(v.value.mode)
    requires WellFormed(line) && Reachable(line, reachable)
    ensures InStep(Flood(t, line, reachable), Some(Step(v, OfferOf(line).value)))
    decreases t
  {
    hide Step;
    RelayKeepsStep(t.chan, t.chan, line, reachable);
    SjoinIsStep(t.chan, line, reachable);
    var relay := Sjoin(t.chan, line, reachable).relay.value;
    SjoinIsStep(t.chan, relay, reachable);
    var after := Step(v, OfferOf(line).value);
    forall i | 0 <= i < |t.links|
      ensures InStep(Flood(t.links[i], relay, reachable), Some(after))
    {
      FloodKeepsStep(t.links[i], v, relay, reachable);
    }
  }

  function FloodAll(t: Net, lines: seq<Line>, reachable: set<string>): Net {
    if lines == [] then t else Flood(FloodAll(t, lines[..|lines| - 1], reachable), lines[|lines| - 1], reachable)
  }

  lemma StepKeepsModeValid(v: Option<View>, o: Offer)
    requires v.Some? ==> ValidMode(v.value.mode)
    requires ValidMode(o.mode)
    ensures ValidMode(Step(v, o).mode)
  {
  }

  lemma {:induction false} FloodAllKeepsStep(t: Net, v: Option<View>, lines: seq<Line>, reachable: set<string>)
    requires InStep(t, v)
    requires v.Some? ==> ValidMode(v.value.mode)
    requires AllAccepted(lines) && AllReachable(lines, reachable)
    requires forall i :: 0 <= i < |lines| ==> WellFormed(lines[i]) && ValidMode(OfferOf(lines[i]).value.mode)
    ensures var w := RunOffers(v, Offers(lines));
      InStep(FloodAll(t, lines, reachable), w) && (w.Some? ==> ValidMode(w.value.mode))
  {
    if lines != [] {
      var k := |lines| - 1;
      FloodAllKeepsStep(t, v, lines[..k], reachable);
      assert Offers(lines)[..k] == Offers(lines[..k]);
      var mid := RunOffers(v, Offers(lines[..k]));
      FloodKeepsStep(FloodAll(t, lines[..k], reachable), mid, lines[k], reachable);
      StepKeepsModeValid(mid, OfferOf(lines[k]).value);
    }
  }

  lemma BurstFloods(t: Net, v: Option<View>, lines: seq<Line>, c: Chan, reachable: set<string>)
    requires InStep(t, v)
    requires v.Some? ==> ValidMode(v.value.mode) && v.value.status.Keys !! Nicks(c.members)
    requires ValidChan(c) && IsBurst(lines, c) && Nicks(c.members) <= reachable
    ensures InStep(FloodAll(t, lines, reachable), Some(Step(v, Whole(ViewOf(c)))))
  {
    BurstDescribes(lines, c);
    BurstIsReachable(lines, c, reachable);
    StatusMapKeys(c.members);
    forall i | 0 <= i < |lines| ensures WellFormed(lines[i]) && ValidMode(OfferOf(lines[i]).value.mode) {
      BurstLine(lines, c, i);
      var m := ReadToken(lines[i].nicks[0], NO_FLAGS);
      assert m.nick in TokenGrants(lines[i].nicks);
    }
    FloodAllKeepsStep(t, v, lines, reachable);
    BurstIsWhole(v, Offers(lines), ViewOf(c));
  }

  /**
   * Two zones, each a tree of servers that agree among themselves, link at their roots. Each root's burst
   * floods the other zone: afterwards every server of both zones has the same view of the channel.
   */
  lemma ZonesConverge(a: Net, b: Net, fromA: seq<Line>, fromB: seq<Line>, reachable: set<string>)
    requires a.chan.Some? && b.chan.Some?
    requires InStep(a, ViewOfOption(a.chan)) && InStep(b, ViewOfOption(b.chan))
    requires ValidChan(a.chan.value) && ValidChan(b.chan.value)
    requires Nicks(a.chan.value.members) !! Nicks(b.chan.value.members)
    requires Nicks(a.chan.value.members) + Nicks(b.chan.value.members) <= reachable
    requires IsBurst(fromA, a.chan.value) && IsBurst(fromB, b.chan.value)
    ensures exists v :: InStep(FloodAll(a, fromB, reachable), Some(v)) && InStep(FloodAll(b, fromA, reachable), Some(v))
  {
    var va, vb := ViewOf(a.chan.value), ViewOf(b.chan.value);
    StatusMapKeys(a.chan.value.members);
    StatusMapKeys(b.chan.value.members);
    BurstFloods(a, Some(va), fromB, b.chan.value, reachable);
    BurstFloods(b, Some(vb), fromA, a.chan.value, reachable);
    WholeStepsCommute(va, vb);
  }
}
