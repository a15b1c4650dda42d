/**
 * The flood limit of a channel (+f messages:seconds). m_sjoin merges the other modes by a join, but of two limits each
 * side keeps its own: when servers agree on the rest, they agree on the limit only under a condition.
 */
module ChannelRate {
  import opened Text
  import opened ChannelModel
  import opened ChannelView
  import opened ChannelPrint
  import opened ChannelConvergence
  import opened ChannelRelay

  /** mode.msgs and mode.per */
  datatype Rate = Rate(msgs: int, per: int)

  const NO_RATE := Rate(0, 0)

  datatype Rated = Rated(chan: Chan, rate: Rate)

  // ---- reading a line with the letter f

  // index(s, ':'), or the length of s when there is none
  function Colon(s: string): (i: nat)
    ensures i <= |s| && (i < |s| ==> s[i] == ':')
    ensures forall j :: 0 <= j < i ==> s[j] != ':'
  {
    if s == [] || s[0] == ':' then 0 else 1 + Colon(s[1..])
  }

  function ReadRate(s: string): Rate
    requires ':' in s
  {
    Rate(Atoi(s[..Colon(s)]), Atoi(s[Colon(s) + 1..]))
  }

  predicate Coloned(nicks: seq<string>) {
    exists i :: 0 <= i < |nicks| && ':' in nicks[i]
  }

  /**
   * The mode word with f among its letters. A parameter without a colon is left to the next letter; where the
   * parameters end the nick list is looked at, and taken, which refuses the line.
   */
  function ParseAll(word: string, line: Line, mode: Mode, rate: Rate, args: nat): Option<(Mode, Rate, nat)> {
    if word == [] then Some((mode, rate, args))
    else if word[0] != 'f' then
      match ParseModes([word[0]], line.params, mode, args)
      case None => None
      case Some((mode', args')) => ParseAll(word[1..], line, mode', rate, args')
    else if args < |line.params| && ':' in line.params[args] then
      ParseAll(word[1..], line, mode, ReadRate(line.params[args]), args + 1)
    else if args >= |line.params| && Coloned(line.nicks) then None
    else ParseAll(word[1..], line, mode, rate, args)
  }

  // ---- merging and printing

  function MergeRate(v: Verdict, line: Rate, ours: Rate): Rate {
    if !v.keepNew then ours
    else if v.keepOurs then
      Rate(if ours.msgs != 0 then ours.msgs else line.msgs, if ours.per != 0 then ours.per else line.per)
    else line
  }

  // "%i:%i"
  function PrintRate(r: Rate): string {
    SignedDecimal(r.msgs) + ":" + SignedDecimal(r.per)
  }

  function RatedWord(m: Mode, r: Rate): string {
    ModeWord(m) + if r.msgs != 0 then "f" else ""
  }

  function RatedParams(m: Mode, r: Rate): seq<string> {
    ModeParams(m) + if r.msgs != 0 then [PrintRate(r)] else []
  }

  // What a server says of its limit: nothing without messages.
  function Said(r: Rate): Rate {
    if r.msgs != 0 then r else NO_RATE
  }

  predicate Sane(r: Rate) {
    Said(r) == r
  }

  // ---- one line

  datatype Outcome = Refused | Taken(rated: Rated, relay: Option<Line>)

  // The line passed on, which has the limit with the other modes.
  function WithRate(relay: Option<Line>, m: Mode, r: Rate): Option<Line> {
    if relay.Some? && relay.value.modes != "0"
    then Some(relay.value.(modes := RatedWord(m, r), params := RatedParams(m, r)))
    else relay
  }

  function ApplyRated(isNew: bool, ours: Rated, line: Line, mode: Mode, rate: Rate, tokens: seq<string>,
                      reachable: set<string>): Outcome {
    var out := Apply(isNew, ours.chan, line, mode, tokens, reachable);
    var v := Judge(isNew, line.ts, ours.chan.ts, HasOps(ours.chan.members), DoesOp(tokens));
    var rate' := MergeRate(v, rate, ours.rate);
    Taken(Rated(out.chan, rate'), WithRate(out.relay, out.chan.mode, rate'))
  }

  function SjoinRated(before: Option<Rated>, line: Line, reachable: set<string>): Outcome {
    match ParseAll(line.modes, line, NO_MODE, NO_RATE, 0)
    case None => Refused
    case Some((mode, rate, args)) =>
      ApplyRated(before.None?, if before.Some? then before.value else Rated(Chan(0, NO_MODE, []), NO_RATE),
                 line, mode, rate, NickList(line, args), reachable)
  }

  // ---- a line with a limit does to the channel what the line without it does

  lemma OneLetter(word: string, params: seq<string>, mode: Mode, args: nat)
    requires word != []
    ensures ParseModes(word, params, mode, args)
         == match ParseModes([word[0]], params, mode, args)
            case None => None
            case Some((mode', args')) => ParseModes(word[1..], params, mode', args')
  {
    assert [word[0]][1..] == [];
  }

  lemma {:induction false} WithoutRate(word: string, line: Line, mode: Mode, rate: Rate, args: nat)
    requires 'f' !in word
    ensures ParseAll(word, line, mode, rate, args)
         == match ParseModes(word, line.params, mode, args)
            case None => None
            case Some((mode', args')) => Some((mode', rate, args'))
  {
    if word != [] {
      OneLetter(word, line.params, mode, args);
      var first := ParseModes([word[0]], line.params, mode, args);
      if first.Some? {
        WithoutRate(word[1..], line, first.value.0, rate, first.value.1);
      }
    }
  }

  lemma {:induction false} ParsedAllPrintable(word: string, line: Line, mode: Mode, rate: Rate, args: nat)
    requires PrintableMode(mode)
    ensures var p := ParseAll(word, line, mode, rate, args); p.Some? ==> PrintableMode(p.value.0)
  {
    hide ParseModes, PrintableMode, ReadRate;
    if word == [] {
    } else if word[0] != 'f' {
      ParsedModeIsPrintable([word[0]], line.params, mode, args);
      var first := ParseModes([word[0]], line.params, mode, args);
      if first.Some? {
        ParsedAllPrintable(word[1..], line, first.value.0, rate, first.value.1);
      }
    } else if args < |line.params| && ':' in line.params[args] {
      ParsedAllPrintable(word[1..], line, mode, ReadRate(line.params[args]), args + 1);
    } else {
      ParsedAllPrintable(word[1..], line, mode, rate, args);
    }
  }

  // The line without its limit, its modes printed anew.
  function Plain(line: Line): Line {
    match ParseAll(line.modes, line, NO_MODE, NO_RATE, 0)
    case None => line
    case Some((mode, _, args)) => PlainLine(line.ts, ZeroWord(line), mode, NickList(line, args))
  }

  function PlainLine(ts: nat, zero: bool, mode: Mode, nicks: seq<string>): Line {
    Line(ts, (if zero then "0" else "+") + ModeWord(mode)[1..], ModeParams(mode), nicks)
  }

  // A letter m_sjoin does not know is skipped.
  lemma SkipFirst(c: char, rest: string, params: seq<string>, mode: Mode, args: nat)
    requires c == '0' || c == '+'
    ensures ParseModes([c] + rest, params, mode, args) == ParseModes(rest, params, mode, args)
  {
    var word := [c] + rest;
    assert word[0] == c && word[1..] == rest;
  }

  lemma PlainReads(ts: nat, zero: bool, mode: Mode, nicks: seq<string>)
    requires PrintableMode(mode)
    ensures var line := PlainLine(ts, zero, mode, nicks);
      && ParseModes(line.modes, line.params, NO_MODE, 0) == Some((mode, |line.params|))
      && NickList(line, |line.params|) == nicks && ZeroWord(line) == zero
  {
    hide ParseModes, PrintLetters;
    ReadsPrintedModes(mode);
    var rest := ModeWord(mode)[1..];
    assert ModeWord(mode) == ['+'] + rest;
    SkipFirst('+', rest, ModeParams(mode), NO_MODE, 0);
    SkipFirst('0', rest, ModeParams(mode), NO_MODE, 0);
  }

  /**
   * Whatever limit a line carries, the channel it makes and the nicks it passes on are those of the plain line, so
   * everything proved of m_sjoin without f holds of the channel with it.
   */
  lemma SjoinIgnoresRate(before: Option<Rated>, line: Line, reachable: set<string>)
    requires SjoinRated(before, line, reachable).Taken?
    ensures var plain := Sjoin(if before.Some? then Some(before.value.chan) else None, Plain(line), reachable);
      var out := SjoinRated(before, line, reachable);
      && plain.Accepted? && plain.chan == out.rated.chan
      && out.relay == WithRate(plain.relay, plain.chan.mode, out.rated.rate)
  {
    hide ParseModes, ParseAll, NickList, ZeroWord, DoesOp, HasOps, JoinAll, RelayTokens, ModeWord, PlainLine;
    ParsedAllPrintable(line.modes, line, NO_MODE, NO_RATE, 0);
    var (mode, rate, args) := ParseAll(line.modes, line, NO_MODE, NO_RATE, 0).value;
    PlainReads(line.ts, ZeroWord(line), mode, NickList(line, args));
    PlainShape(line.ts, ZeroWord(line), mode, NickList(line, args));
    ZeroTest(line);
    ZeroTest(Plain(line));
  }

  lemma PlainShape(ts: nat, zero: bool, mode: Mode, nicks: seq<string>)
    ensures PlainLine(ts, zero, mode, nicks).ts == ts
  {
  }

  lemma ZeroTest(line: Line)
    ensures ZeroWord(line) == (line.modes != [] && line.modes[0] == '0')
  {
  }

  // ---- what is printed is read back

  lemma {:induction false} DecimalHasNoColon(n: nat)
    ensures ':' !in Decimal(n)
  {
    if n >= 10 { DecimalHasNoColon(n / 10); }
  }

  lemma {:induction false} ColonBehind(s: string, t: string)
    requires ':' !in s
    ensures Colon(s + ":" + t) == |s|
  {
    var whole := s + ":" + t;
    assert whole[|s|] == ':';
    forall j | 0 <= j < |s| ensures whole[j] != ':' { assert whole[j] == s[j]; }
  }

  /** A limit printed is read back. */
  lemma ReadsPrintedRate(r: Rate)
    ensures ':' in PrintRate(r) && ReadRate(PrintRate(r)) == r
  {
    hide Decimal, Atoi, Colon;
    var s, t := SignedDecimal(r.msgs), SignedDecimal(r.per);
    DecimalHasNoColon(if r.msgs < 0 then -r.msgs else r.msgs);
    ColonBehind(s, t);
    assert (s + ":" + t)[..|s|] == s && (s + ":" + t)[|s| + 1..] == t;
    assert (s + ":" + t)[|s|] == ':';
    AtoiUndoesPrint(r.msgs);
    AtoiUndoesPrint(r.per);
  }

  lemma {:induction false} NoneBut(order: string, letters: set<char>, c: char)
    requires c !in order
    ensures c !in PrintLetters(order, letters)
  {
    if order != [] {
      assert order == [order[0]] + order[1..];
      NoneBut(order[1..], letters, c);
    }
  }

  lemma NoLetterF(m: Mode)
    ensures 'f' !in ModeWord(m)
  {
    NoneBut(LETTERS_BEFORE, m.letters, 'f');
    NoneBut(LETTERS_AFTER, m.letters, 'f');
  }

  lemma {:induction false} MoreParams(word: string, params: seq<string>, more: seq<string>, mode: Mode, args: nat)
    requires ParseModes(word, params, mode, args).Some?
    ensures ParseModes(word, params + more, mode, args) == ParseModes(word, params, mode, args)
  {
    if word == [] {
    } else if word[0] == 'k' {
      MoreParams(word[1..], params, more, mode.(key := Truncate(params[args])), args + 1);
    } else if word[0] == 'l' {
      MoreParams(word[1..], params, more, mode.(limit := Atoi(params[args])), args + 1);
    } else if IsLetter(word[0]) {
      MoreParams(word[1..], params, more, mode.(letters := mode.letters + {word[0]}), args);
    } else {
      MoreParams(word[1..], params, more, mode, args);
    }
  }

  lemma {:induction false} ParseAllBehind(u: string, w: string, line: Line, mode: Mode, rate: Rate, args: nat)
    ensures ParseAll(u + w, line, mode, rate, args)
         == match ParseAll(u, line, mode, rate, args)
            case None => None
            case Some((mode', rate', args')) => ParseAll(w, line, mode', rate', args')
  {
    hide ParseModes, ReadRate;
    if u == [] {
      assert u + w == w;
    } else {
      assert (u + w)[0] == u[0] && (u + w)[1..] == u[1..] + w;
      if u[0] != 'f' {
        var first := ParseModes([u[0]], line.params, mode, args);
        if first.Some? { ParseAllBehind(u[1..], w, line, first.value.0, rate, first.value.1); }
      } else if args < |line.params| && ':' in line.params[args] {
        ParseAllBehind(u[1..], w, line, mode, ReadRate(line.params[args]), args + 1);
      } else {
        ParseAllBehind(u[1..], w, line, mode, rate, args);
      }
    }
  }

  /** What channel_modes prints, the limit last, m_sjoin reads back, and every parameter is used. */
  lemma ReadsRatedModes(line: Line, m: Mode, r: Rate)
    requires PrintableMode(m) && line.modes == RatedWord(m, r) && line.params == RatedParams(m, r)
    ensures ParseAll(line.modes, line, NO_MODE, NO_RATE, 0) == Some((m, Said(r), |line.params|))
  {
    hide ParseModes, ParseAll, ModeWord, ModeParams, PrintRate, ReadRate;
    var n := |ModeParams(m)|;
    ReadsPrintedModes(m);
    MoreParams(ModeWord(m), ModeParams(m), if r.msgs != 0 then [PrintRate(r)] else [], NO_MODE, 0);
    NoLetterF(m);
    WithoutRate(ModeWord(m), line, NO_MODE, NO_RATE, 0);
    ParseAllBehind(ModeWord(m), "f", line, NO_MODE, NO_RATE, 0);
    if r.msgs != 0 {
      ReadsPrintedRate(r);
      assert line.params[n] == PrintRate(r);
      LetterF(line, m, n);
    } else {
      assert ModeWord(m) + "" == ModeWord(m);
    }
  }

  lemma LetterF(line: Line, m: Mode, args: nat)
    requires args < |line.params| && ':' in line.params[args]
    ensures ParseAll("f", line, m, NO_RATE, args) == Some((m, ReadRate(line.params[args]), args + 1))
  {
    assert "f"[1..] == "";
  }

  lemma ZeroReadsNoRate(line: Line)
    requires line.modes == "0" && line.params == []
    ensures ParseAll(line.modes, line, NO_MODE, NO_RATE, 0) == Some((NO_MODE, NO_RATE, 0))
  {
    assert "0"[1..] == "";
    ZeroRead();
    WithoutRate("0", line, NO_MODE, NO_RATE, 0);
  }

  // ---- bursts

  // The lines of a burst without the limit on the first.
  function Unlimited(lines: seq<Line>, m: Mode): seq<Line>
    requires lines != []
  {
    lines[0 := lines[0].(modes := ModeWord(m), params := ModeParams(m))]
  }

  /** The lines are a burst of the channel, cut anywhere, with the limit behind the other modes of the first line. */
  ghost predicate IsRatedBurst(lines: seq<Line>, a: Rated) {
    && lines != []
    && lines[0].modes == RatedWord(a.chan.mode, a.rate) && lines[0].params == RatedParams(a.chan.mode, a.rate)
    && IsBurst(Unlimited(lines, a.chan.mode), a.chan)
  }

  function RunRated(before: Option<Rated>, lines: seq<Line>, reachable: set<string>): Option<Rated> {
    if lines == [] then before
    else
      var mid := RunRated(before, lines[..|lines| - 1], reachable);
      var out := SjoinRated(mid, lines[|lines| - 1], reachable);
      if out.Taken? then Some(out.rated) else mid
  }

  function ChanOf(a: Option<Rated>): Option<Chan> {
    if a.None? then None else Some(a.value.chan)
  }

  function RateOf(a: Option<Rated>): Rate {
    if a.None? then NO_RATE else a.value.rate
  }

  // Two lines read the same, but for the limit.
  ghost predicate Twins(line: Line, plain: Line, mode: Mode, rate: Rate, args: nat, args': nat) {
    && plain.ts == line.ts
    && ParseAll(line.modes, line, NO_MODE, NO_RATE, 0) == Some((mode, rate, args))
    && ParseModes(plain.modes, plain.params, NO_MODE, 0) == Some((mode, args'))
    && NickList(line, args) == NickList(plain, args')
  }

  lemma {:induction false} SjoinTwins(before: Option<Rated>, line: Line, plain: Line, mode: Mode, rate: Rate, args: nat,
                                      args': nat, reachable: set<string>)
    requires Twins(line, plain, mode, rate, args, args')
    requires before.Some? ==> Distinct(before.value.chan.members)
    ensures var out := SjoinRated(before, line, reachable);
      && out.Taken? && Sjoin(ChanOf(before), plain, reachable).Accepted? && OfferOf(plain).Some?
      && out.rated.chan == Sjoin(ChanOf(before), plain, reachable).chan
      && out.rated.rate
         == MergeRate(VerdictOn(ViewOfOption(ChanOf(before)), OfferOf(plain).value), rate, RateOf(before))
  {
    hide ParseModes, ParseAll, JoinAll, RelayTokens, StatusMap, DoesOp, HasOps, TokenGrants, ModeWord, ModeParams;
    if before.Some? { OpsSeen(before.value.chan.members); } else { NobodyOps(); }
  }

  lemma NobodyOps()
    ensures !HasOps([]) && !Opped(map[])
  {
  }

  ghost predicate Meets(before: Option<Chan>, c: Chan, reachable: set<string>) {
    && ValidChan(c) && Nicks(c.members) <= reachable
    && (before.Some? ==> ValidChan(before.value) && Nicks(before.value.members) !! Nicks(c.members))
  }

  // The limit after a burst: merged once, as the first line's verdict says.
  function BurstRate(before: Option<Rated>, b: Rated): Rate {
    MergeRate(VerdictOn(ViewOfOption(ChanOf(before)), Whole(ViewOf(b.chan))), Said(b.rate), RateOf(before))
  }

  lemma FirstOfBurst(before: Option<Rated>, lines: seq<Line>, b: Rated, reachable: set<string>)
    requires IsRatedBurst(lines, b) && Meets(ChanOf(before), b.chan, reachable)
    ensures var out := SjoinRated(before, lines[0], reachable);
      var plain := Sjoin(ChanOf(before), Unlimited(lines, b.chan.mode)[0], reachable);
      && out.Taken? && plain.Accepted? && out.rated.chan == plain.chan && out.rated.rate == BurstRate(before, b)
  {
    hide ParseModes, ParseAll, SjoinRated, Sjoin, RatedWord, RatedParams, ModeWord, ModeParams, Opped, ViewOf;
    var plains := Unlimited(lines, b.chan.mode);
    ReadsRatedModes(lines[0], b.chan.mode, b.rate);
    ReadsPrintedModes(b.chan.mode);
    SjoinTwins(before, lines[0], plains[0], b.chan.mode, Said(b.rate), |lines[0].params|, |plains[0].params|,
               reachable);
    BurstDescribes(plains, b.chan);
    assert Offers(plains)[0] == OfferOf(plains[0]).value;
  }

  lemma LaterOfBurst(mid: Option<Rated>, line: Line, reachable: set<string>)
    requires line.modes == "0" && line.params == []
    requires mid.Some? ==> Distinct(mid.value.chan.members)
    ensures OfferOf(line).Some?
    ensures var out := SjoinRated(mid, line, reachable);
      && out.Taken? && Sjoin(ChanOf(mid), line, reachable).Accepted?
      && out.rated.chan == Sjoin(ChanOf(mid), line, reachable).chan
      && (VerdictOn(ViewOfOption(ChanOf(mid)), OfferOf(line).value).keepOurs ==> out.rated.rate == RateOf(mid))
  {
    hide ParseModes, ParseAll, SjoinRated, Sjoin;
    ZeroReadsNoRate(line);
    ZeroRead();
    SjoinTwins(mid, line, line, NO_MODE, NO_RATE, 0, 0, reachable);
  }

  // Reading a burst up to a line.
  lemma ReadUpTo(before: Option<Chan>, lines: seq<Line>, c: Chan, k: nat, reachable: set<string>)
    requires IsBurst(lines, c) && Meets(before, c, reachable) && 0 < k < |lines|
    ensures OfferOf(lines[k]).Some? && Run(before, lines[..k], reachable).Some?
    ensures Distinct(Run(before, lines[..k], reachable).value.members)
    ensures VerdictOn(ViewOfOption(Run(before, lines[..k], reachable)), OfferOf(lines[k]).value).keepOurs
  {
    hide Run, RunOffers, OfferOf, Step, Opped, IsBurst, VerdictOn, StatusMap;
    BurstDescribes(lines, c);
    BurstIsReachable(lines, c, reachable);
    StatusMapKeys(c.members);
    if before.Some? { StatusMapKeys(before.value.members); }
    ReadPrefix(before, lines[..k], reachable);
    assert Offers(lines)[..k] == Offers(lines[..k]) && Offers(lines)[..k + 1][..k] == Offers(lines)[..k];
    DescribesPrefix(Offers(lines), ViewOf(c), k + 1);
    LaterLinesMerge(ViewOfOption(before), Offers(lines)[..k + 1], ViewOf(c));
  }

  lemma ReadPrefix(before: Option<Chan>, lines: seq<Line>, reachable: set<string>)
    requires before.Some? ==> Distinct(before.value.members)
    requires lines != [] && AllAccepted(lines) && AllReachable(lines, reachable)
    ensures ViewOfOption(Run(before, lines, reachable)) == RunOffers(ViewOfOption(before), Offers(lines))
    ensures Run(before, lines, reachable).Some? && Distinct(Run(before, lines, reachable).value.members)
  {
    RunSeen(before, lines, reachable);
  }

  lemma DescribesPrefix(offers: seq<Offer>, v: View, k: nat)
    requires Describes(offers, v) && 0 < k <= |offers|
    ensures Describes(offers[..k], v)
  {
  }

  lemma {:induction false} BurstUpTo(before: Option<Rated>, lines: seq<Line>, b: Rated, k: nat, reachable: set<string>)
    requires IsRatedBurst(lines, b) && Meets(ChanOf(before), b.chan, reachable) && 0 < k <= |lines|
    ensures RunRated(before, lines[..k], reachable).Some?
    ensures ChanOf(RunRated(before, lines[..k], reachable))
         == Run(ChanOf(before), Unlimited(lines, b.chan.mode)[..k], reachable)
    ensures RateOf(RunRated(before, lines[..k], reachable)) == BurstRate(before, b)
  {
    hide Sjoin, SjoinRated, IsBurst, BurstRate, VerdictOn, OfferOf, Meets;
    var plains := Unlimited(lines, b.chan.mode);
    assert lines[..k][..k - 1] == lines[..k - 1] && plains[..k][..k - 1] == plains[..k - 1];
    if k == 1 {
      FirstOfBurst(before, lines, b, reachable);
    } else {
      BurstUpTo(before, lines, b, k - 1, reachable);
      ReadUpTo(ChanOf(before), plains, b.chan, k - 1, reachable);
      IsZeroLine(plains, b.chan, k - 1);
      LaterOfBurst(RunRated(before, lines[..k - 1], reachable), lines[k - 1], reachable);
    }
  }

  lemma IsZeroLine(lines: seq<Line>, c: Chan, i: nat)
    requires IsBurst(lines, c) && 0 < i < |lines|
    ensures lines[i].modes == "0" && lines[i].params == []
  {
  }

  /** A burst leaves the channel it leaves without the limit, and the limit is merged exactly once. */
  lemma RatedBurstEffect(before: Option<Rated>, lines: seq<Line>, b: Rated, reachable: set<string>)
    requires IsRatedBurst(lines, b) && Meets(ChanOf(before), b.chan, reachable)
    ensures ChanOf(RunRated(before, lines, reachable))
         == Run(ChanOf(before), Unlimited(lines, b.chan.mode), reachable)
    ensures RunRated(before, lines, reachable).Some?
    ensures RateOf(RunRated(before, lines, reachable)) == BurstRate(before, b)
  {
    hide Run, RunRated, IsBurst, BurstRate, Meets;
    var n := |lines|;
    assert lines[..n] == lines && Unlimited(lines, b.chan.mode)[..n] == Unlimited(lines, b.chan.mode);
    BurstUpTo(before, lines, b, n, reachable);
  }

  // ---- two servers

  // An older operator's description beats a younger one.
  ghost predicate Wins(a: Chan, b: Chan) {
    0 < a.ts < b.ts && HasOps(a.members)
  }

  /** The limits two servers can hold and still agree once they have told each other. */
  ghost predicate RatesAgree(a: Rated, b: Rated) {
    if Wins(a.chan, b.chan) then Sane(a.rate)
    else if Wins(b.chan, a.chan) then Sane(b.rate)
    else
      && (a.rate.msgs == b.rate.msgs || a.rate.msgs == 0 || b.rate.msgs == 0)
      && (a.rate.per == b.rate.per || (a.rate.per == 0 && Sane(b.rate)) || (b.rate.per == 0 && Sane(a.rate)))
  }

  lemma WinsSeen(a: Chan, b: Chan)
    requires Distinct(a.members) && Distinct(b.members)
    ensures VerdictOn(Some(ViewOf(a)), Whole(ViewOf(b))).keepNew == !Wins(a, b)
    ensures VerdictOn(Some(ViewOf(a)), Whole(ViewOf(b))).keepOurs == !Wins(b, a)
  {
    OpsSeen(a.members);
    OpsSeen(b.members);
  }

  /**
   * Burst convergence with the limit. Two servers, each with any limit, process each other's burst: the channels agree,
   * and the limits agree if and only if one description beats the other, or the limits do not contradict each other.
   */
  lemma {:induction false} RatedBurstsConverge(a: Rated, b: Rated, fromA: seq<Line>, fromB: seq<Line>,
                                               reachable: set<string>)
    requires ValidChan(a.chan) && ValidChan(b.chan) && Nicks(a.chan.members) !! Nicks(b.chan.members)
    requires Nicks(a.chan.members) + Nicks(b.chan.members) <= reachable
    requires IsRatedBurst(fromA, a) && IsRatedBurst(fromB, b)
    ensures var x, y := RunRated(Some(a), fromB, reachable), RunRated(Some(b), fromA, reachable);
      && x.Some? && y.Some?
      && ViewOf(x.value.chan) == ViewOf(y.value.chan)
      && (x.value.rate == y.value.rate <==> RatesAgree(a, b))
  {
    hide Run, RunRated, IsBurst, ViewOf, VerdictOn, Nicks, Wins;
    RatedBurstEffect(Some(a), fromB, b, reachable);
    RatedBurstEffect(Some(b), fromA, a, reachable);
    BurstsConverge(a.chan, b.chan, Unlimited(fromA, a.chan.mode), Unlimited(fromB, b.chan.mode), reachable);
    WinsSeen(a.chan, b.chan);
    WinsSeen(b.chan, a.chan);
    WinsOnce(a.chan, b.chan);
  }

  lemma WinsOnce(a: Chan, b: Chan)
    ensures !(Wins(a, b) && Wins(b, a))
  {
  }

  // Two servers whose limits contradict each other, and what each sends.
  const FAST := Rated(Chan(1, NO_MODE, [Member("a", NO_FLAGS)]), Rate(5, 9))
  const SLOW := Rated(Chan(1, NO_MODE, [Member("b", NO_FLAGS)]), Rate(7, 9))
  const FROM_FAST := [Line(1, "+f", ["5:9"], ["a"])]
  const FROM_SLOW := [Line(1, "+f", ["7:9"], ["b"])]

  lemma OneLineBurst(nick: string, r: Rate, lines: seq<Line>)
    requires r.msgs != 0 && lines == [Line(1, "+f", [PrintRate(r)], [nick])]
    ensures IsRatedBurst(lines, Rated(Chan(1, NO_MODE, [Member(nick, NO_FLAGS)]), r))
  {
    hide PrintRate, ModeWord, ModeParams, Flatten, Tokens, BurstOrder;
    NoModes();
    OneMember(nick);
    FlattenOne(Line(1, "+", [], [nick]));
    assert lines[0].(modes := "+", params := []) == Line(1, "+", [], [nick]);
    assert Unlimited(lines, NO_MODE) == [Line(1, "+", [], [nick])];
  }

  lemma NoModes()
    ensures ModeWord(NO_MODE) == "+" && ModeParams(NO_MODE) == []
  {
    NoLetters(LETTERS_BEFORE, {});
    NoLetters(LETTERS_AFTER, {});
  }

  lemma OneMember(nick: string)
    ensures var ms := [Member(nick, NO_FLAGS)]; Tokens(BurstOrder(ms)) == [nick]
  {
    var ms := [Member(nick, NO_FLAGS)];
    assert ms[1..] == [] && FirstOp(ms) == 1;
    assert "" + ("" + ("" + nick)) == nick;
    assert Token(ms[0]) == nick;
  }

  lemma FlattenOne(line: Line)
    ensures Flatten([line]) == line.nicks
  {
    assert [line][..0] == [];
  }

  lemma {:induction false} NoLetters(order: string, letters: set<char>)
    requires forall c :: c in order ==> c !in letters
    ensures PrintLetters(order, letters) == []
  {
    if order != [] {
      NoLetters(order[1..], letters);
    }
  }

  /** Linked, the two keep different limits, though they agree on everything else. */
  lemma {:induction false} RatesPart()
    ensures IsRatedBurst(FROM_FAST, FAST) && IsRatedBurst(FROM_SLOW, SLOW)
    ensures var x, y := RunRated(Some(FAST), FROM_SLOW, {"a", "b"}), RunRated(Some(SLOW), FROM_FAST, {"a", "b"});
      x.Some? && y.Some? && ViewOf(x.value.chan) == ViewOf(y.value.chan) && x.value.rate != y.value.rate
  {
    hide RunRated, IsRatedBurst, ViewOf, IsBurst;
    assert PrintRate(FAST.rate) == "5:9" && PrintRate(SLOW.rate) == "7:9";
    OneLineBurst("a", FAST.rate, FROM_FAST);
    OneLineBurst("b", SLOW.rate, FROM_SLOW);
    RatedBurstsConverge(FAST, SLOW, FROM_FAST, FROM_SLOW, {"a", "b"});
  }

  // ---- the text of a limit

  // char tmppbuf[6]
  const TMPPBUF := 6

  // setfl: what a user may set
  predicate Settable(r: Rate) {
    r.msgs <= 99 && r.per <= 99 && r.msgs > 1 && r.per != 0
  }

  lemma {:induction false} Digits(n: nat)
    ensures |Decimal(n)| >= 1 && (|Decimal(n)| == 1 <==> n < 10) && (|Decimal(n)| == 2 <==> 10 <= n < 100)
  {
    if n >= 10 { Digits(n / 10); }
  }

  lemma NumberText(n: int)
    ensures |SignedDecimal(n)| >= 1
    ensures |SignedDecimal(n)| == 1 <==> 0 <= n <= 9
    ensures |SignedDecimal(n)| == 2 <==> -9 <= n <= -1 || 10 <= n <= 99
  {
    hide Decimal;
    Digits(if n < 0 then -n else n);
  }

  /**
   * channel_modes prints a limit with a space and a terminator into six bytes. That is enough exactly when one number
   * has a single digit and the other at most two characters.
   */
  lemma RateTextFits(r: Rate)
    ensures |PrintRate(r) + " "| + 1 <= TMPPBUF
       <==> (0 <= r.msgs <= 9 && -9 <= r.per <= 99) || (-9 <= r.msgs <= 99 && 0 <= r.per <= 9)
  {
    hide SignedDecimal;
    NumberText(r.msgs);
    NumberText(r.per);
  }

  /** A limit a user may set that takes one byte more. */
  lemma RateTextTooLong()
    ensures Settable(Rate(10, 60)) && PrintRate(Rate(10, 60)) + " " == "10:60 "
    ensures |PrintRate(Rate(10, 60)) + " "| + 1 == TMPPBUF + 1
  {
    assert Decimal(10) == "10" && Decimal(60) == "60";
  }

  // ---- passing a line on

  // A line passed on is judged as the line received, or, if that lost, merged.
  lemma RelayVerdict(before: Option<View>, o: Offer, zero: bool, doesOp: bool)
    requires VerdictOn(before, o).keepNew ==> doesOp == o.doesOp
    ensures var v, v' := VerdictOn(before, o), VerdictOn(before, RelayOffer(before, o, zero, doesOp));
      v'.keepNew && (v.keepNew ==> v'.keepOurs == v.keepOurs) && (!v.keepNew ==> v'.keepOurs)
  {
    hide Step, Offered, Opped;
  }

  // What the line passed on is read as.
  lemma {:induction false} RelayTwins(relay: Line, m: Mode, r: Rate)
    requires PrintableMode(m)
    requires if relay.modes == "0" then relay.params == []
             else relay.modes == ModeWord(m) && relay.params == ModeParams(m)
    ensures var rated := WithRate(Some(relay), m, r).value;
      Twins(rated, relay, if relay.modes == "0" then NO_MODE else m, if relay.modes == "0" then NO_RATE else Said(r),
            |rated.params|, |relay.params|)
    ensures ZeroWord(WithRate(Some(relay), m, r).value) == ZeroWord(relay) == (relay.modes == "0")
  {
    hide ParseAll, ParseModes, RatedParams, ModeWord, ModeParams;
    PlusFirst(m);
    if relay.modes == "0" {
      PrintedIsNotZero(m);
      ZeroReadsNoRate(relay);
      ZeroRead();
    } else {
      ReadsRatedModes(WithRate(Some(relay), m, r).value, m, r);
      ReadsPrintedModes(m);
    }
  }

  lemma PlusFirst(m: Mode)
    ensures ModeWord(m) != [] && ModeWord(m)[0] == '+'
  {
  }

  lemma PrintedIsNotZero(m: Mode)
    ensures ModeWord(m) != "0"
  {
    PlusFirst(m);
  }

  // The limit two hops along, for the verdict on the line, and whether the line passed on has modes.
  lemma RateTwice(v: Verdict, v': Verdict, line: Rate, ours: Rate, zero: bool)
    requires v'.keepNew && (v.keepNew ==> v'.keepOurs == v.keepOurs) && (!v.keepNew ==> v'.keepOurs)
    requires zero ==> line == NO_RATE
    ensures var t := MergeRate(v, line, ours);
      MergeRate(v', if v.keepNew && !zero then Said(t) else NO_RATE, ours) == t
      <==> !v.keepNew || zero || Sane(t) || (v.keepOurs && ours.per != 0)
  {
  }

  // The limit a line carries.
  function RateOfLine(line: Line): Rate {
    match ParseAll(line.modes, line, NO_MODE, NO_RATE, 0)
    case None => NO_RATE
    case Some((_, rate, _)) => rate
  }

  lemma {:induction false} PlainTwins(line: Line)
    requires ParseAll(line.modes, line, NO_MODE, NO_RATE, 0).Some?
    ensures var (mode, rate, args) := ParseAll(line.modes, line, NO_MODE, NO_RATE, 0).value;
      Twins(line, Plain(line), mode, rate, args, |Plain(line).params|) && ZeroWord(Plain(line)) == ZeroWord(line)
  {
    hide ParseAll, ParseModes, ZeroWord, PlainLine;
    ParsedAllPrintable(line.modes, line, NO_MODE, NO_RATE, 0);
    var (mode, rate, args) := ParseAll(line.modes, line, NO_MODE, NO_RATE, 0).value;
    PlainReads(line.ts, ZeroWord(line), mode, NickList(line, args));
    PlainShape(line.ts, ZeroWord(line), mode, NickList(line, args));
  }

  lemma {:induction false} TakenIsRead(b: Option<Rated>, line: Line, reachable: set<string>)
    requires SjoinRated(b, line, reachable).Taken?
    ensures ParseAll(line.modes, line, NO_MODE, NO_RATE, 0).Some?
  {
    hide ParseAll;
  }

  // What the server passes on for a line, and what the next one reads in it.
  lemma {:induction false} RelayedRate(b: Option<Rated>, line: Line, reachable: set<string>)
      returns (relay: Line, rated: Line, o: Offer, doesOp: bool, mode: Mode, said: Rate)
    requires b.Some? ==> Distinct(b.value.chan.members) && PrintableMode(b.value.chan.mode)
    requires SjoinRated(b, line, reachable).Taken?
    requires WellFormed(Plain(line)) && Reachable(Plain(line), reachable)
    ensures var out := SjoinRated(b, line, reachable);
      var v := VerdictOn(ViewOfOption(ChanOf(b)), o);
      && OfferOf(Plain(line)) == Some(o)
      && Sjoin(ChanOf(b), Plain(line), reachable).Accepted?
      && Sjoin(ChanOf(b), Plain(line), reachable).relay == Some(relay)
      && OfferOf(relay) == Some(RelayOffer(ViewOfOption(ChanOf(b)), o, ZeroWord(line), doesOp))
      && (v.keepNew ==> doesOp == o.doesOp)
      && out.rated.rate == MergeRate(v, RateOfLine(line), RateOf(b))
      && out.rated.chan == Sjoin(ChanOf(b), Plain(line), reachable).chan
      && out.relay == Some(rated)
      && Twins(rated, relay, mode, said, |rated.params|, |relay.params|)
      && said == (if v.keepNew && !ZeroWord(line) then Said(out.rated.rate) else NO_RATE)
      && ZeroWord(rated) == ZeroWord(relay) == !(v.keepNew && !ZeroWord(line))
  {
    hide Sjoin, SjoinRated, ParseAll, ParseModes, VerdictOn, OfferOf, ZeroWord, RelayOffer, MergeRate, Twins, Plain,
         RatedWord, RatedParams;
    o := OfferOf(Plain(line)).value;
    TakenIsRead(b, line, reachable);
    PlainTwins(line);
    var (mode0, rate0, args) := ParseAll(line.modes, line, NO_MODE, NO_RATE, 0).value;
    SjoinTwins(b, line, Plain(line), mode0, rate0, args, |Plain(line).params|, reachable);
    SjoinIgnoresRate(b, line, reachable);
    relay, doesOp := RelayedLineOffers(ChanOf(b), Plain(line), reachable);
    var m := SjoinRated(b, line, reachable).rated.chan.mode;
    var r := SjoinRated(b, line, reachable).rated.rate;
    RelayShape(ChanOf(b), Plain(line), reachable);
    rated := WithRate(Some(relay), m, r).value;
    RelayTwins(relay, m, r);
    mode := if relay.modes == "0" then NO_MODE else m;
    said := if relay.modes == "0" then NO_RATE else Said(r);
  }

  // The words of a line passed on.
  lemma {:induction false} RelayShape(before: Option<Chan>, line: Line, reachable: set<string>)
    requires before.Some? ==> Distinct(before.value.members) && PrintableMode(before.value.mode)
    requires OfferOf(line).Some?
    requires Sjoin(before, line, reachable).Accepted? && Sjoin(before, line, reachable).relay.Some?
    ensures var out := Sjoin(before, line, reachable);
      var relay := out.relay.value;
      var v := VerdictOn(ViewOfOption(before), OfferOf(line).value);
      && PrintableMode(out.chan.mode)
      && (relay.modes == "0" <==> !(v.keepNew && !ZeroWord(line)))
      && (if relay.modes == "0" then relay.params == []
          else relay.modes == ModeWord(out.chan.mode) && relay.params == ModeParams(out.chan.mode))
  {
    hide ParseModes, ModeParams, JoinAll, RelayTokens, HasOps, TokenGrants, StatusMap, NickList;
    var ours := if before.Some? then before.value else Chan(0, NO_MODE, []);
    if before.Some? { OpsSeen(before.value.members); } else { NobodyOps(); }
    ParsedModeIsPrintable(line.modes, line.params, NO_MODE, 0);
    PrintedIsNotZero(Sjoin(before, line, reachable).chan.mode);
  }

  /**
   * Two servers agree, on the channel and on the limit. One processes a line and the other the line the first passes
   * on: the channels agree as without the limit, and so do the limits if and only if the line lost or has no modes, or
   * the limit that comes of it can be said, or the seconds were the first server's own.
   */
  lemma {:induction false} RatedRelayKeepsStep(b: Option<Rated>, c: Option<Rated>, line: Line, reachable: set<string>)
    requires b.Some? ==> Distinct(b.value.chan.members) && PrintableMode(b.value.chan.mode)
    requires c.Some? ==> Distinct(c.value.chan.members)
    requires ViewOfOption(ChanOf(b)) == ViewOfOption(ChanOf(c)) && RateOf(b) == RateOf(c)
    requires SjoinRated(b, line, reachable).Taken?
    requires WellFormed(Plain(line)) && Reachable(Plain(line), reachable)
    requires ZeroWord(line) ==> RateOfLine(line) == NO_RATE
    ensures var out := SjoinRated(b, line, reachable);
      var v := VerdictOn(ViewOfOption(ChanOf(b)), OfferOf(Plain(line)).value);
      && out.relay.Some?
      && var next := SjoinRated(c, out.relay.value, reachable);
      && next.Taken?
      && (ViewOf(next.rated.chan) == ViewOf(out.rated.chan)
          <==> b.None? || 0 <= b.value.chan.mode.limit || v.keepNew)
      && (next.rated.rate == out.rated.rate
          <==> !v.keepNew || ZeroWord(line) || Sane(out.rated.rate) || (v.keepOurs && RateOf(b).per != 0))
  {
    hide Sjoin, SjoinRated, ParseAll, ParseModes, VerdictOn, OfferOf, ZeroWord, RelayOffer, MergeRate, Twins, ViewOf,
         RateOfLine, Plain, WellFormed, Reachable;
    var relay, rated, o, doesOp, mode, said := RelayedRate(b, line, reachable);
    var before := ViewOfOption(ChanOf(b));
    RelayKeepsStep(ChanOf(b), ChanOf(c), Plain(line), reachable);
    SjoinTwins(c, rated, relay, mode, said, |rated.params|, |relay.params|, reachable);
    RelayVerdict(before, o, ZeroWord(line), doesOp);
    RateTwice(VerdictOn(before, o), VerdictOn(before, RelayOffer(before, o, ZeroWord(line), doesOp)),
              RateOfLine(line), RateOf(b), ZeroWord(line));
  }
}
