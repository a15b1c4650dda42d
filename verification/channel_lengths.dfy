/** How long the line is that m_sjoin passes on, for the buffer it is built in. */
module ChannelLengths {
  import opened Text
  import opened ChannelModel
  import opened ChannelRelay
  import opened ChannelRate
  import opened ChannelBurst

  // ":%s SJOIN %lu %s %s %s :" and the nicks, each with its space; the last space gives way to the terminator.
  function RelayText(from: string, name: string, line: Line): string {
    ":" + from + " SJOIN " + Decimal(line.ts) + " " + name + " " + line.modes + " " + Spaced(line.params) + " :"
    + Spaced(line.nicks)
  }

  lemma TextLength(from: string, name: string, line: Line)
    ensures |RelayText(from, name, line)|
         == |from| + |name| + 13 + |Decimal(line.ts)| + |line.modes| + |Spaced(line.params)| + |Spaced(line.nicks)|
  {
    hide Decimal, Spaced;
  }

  // ---- the nicks

  lemma {:induction false} SpacedFirst(words: seq<string>)
    requires words != []
    ensures |Spaced(words)| == |words[0]| + 1 + |Spaced(words[1..])|
  {
    var k := |words| - 1;
    if k == 0 {
      assert words[..0] == [] && words[1..] == [];
    } else {
      SpacedFirst(words[..k]);
      assert words[..k][1..] == words[1..][..k - 1] && words[..k][0] == words[0];
    }
  }

  lemma {:induction false} WordFits(words: seq<string>, i: nat)
    requires i < |words|
    ensures |words[i]| + 1 <= |Spaced(words)|
  {
    SpacedFirst(words);
    if i > 0 { WordFits(words[1..], i - 1); }
  }

  lemma {:induction false} NickIsShorter(t: string, flags: Flags)
    ensures |ReadToken(t, flags).nick| <= |t|
  {
    if t != [] && IsPrefix(t[0]) {
      NickIsShorter(t[1..], if t[0] == '.' then flags.(adm := true)
                            else if t[0] == '@' then flags.(op := true) else flags.(voice := true));
    }
  }

  // The nicks passed on take no more room than those received.
  lemma {:induction false} NicksFit(tokens: seq<string>, reachable: set<string>, keepNew: bool)
    ensures |Spaced(RelayTokens(tokens, reachable, keepNew))| <= |Spaced(tokens)|
  {
    hide Spaced, ReadToken;
    if tokens != [] {
      var m := ReadToken(tokens[0], NO_FLAGS);
      NickIsShorter(tokens[0], NO_FLAGS);
      NicksFit(tokens[1..], reachable, keepNew);
      SpacedFirst(tokens);
      var rest := RelayTokens(tokens[1..], reachable, keepNew);
      if m.nick in reachable {
        var relayed := [if keepNew then tokens[0] else m.nick] + rest;
        SpacedFirst(relayed);
        assert relayed[1..] == rest;
      } else {
        assert [] + rest == rest;
      }
    }
  }

  lemma {:induction false} NickListFits(line: Line, args: nat)
    ensures |Spaced(NickList(line, args))| <= |Spaced(line.params)| + |Spaced(line.nicks)|
  {
    hide Spaced;
    if args < |line.params| {
      WordFits(line.params, args);
      SpacedFirst([line.params[args]]);
      NothingSpaced();
      assert [line.params[args]][1..] == [];
    }
  }

  lemma NothingSpaced()
    ensures Spaced([]) == ""
  {
  }

  // ---- the line passed on

  lemma {:induction false} TokensOf(before: Option<Rated>, line: Line, reachable: set<string>) returns (keepNew: bool,
                                                                                                       args: nat)
    requires SjoinRated(before, line, reachable).Taken? && SjoinRated(before, line, reachable).relay.Some?
    ensures SjoinRated(before, line, reachable).relay.value.nicks
         == RelayTokens(NickList(line, args), reachable, keepNew)
  {
    hide ParseAll, Judge, ChooseMode, MergeRate, JoinAll, RelayTokens, RatedWord, RatedParams, ModeWord, ModeParams,
         HasOps, DoesOp, NickList;
    var p := ParseAll(line.modes, line, NO_MODE, NO_RATE, 0).value;
    args := p.2;
    var ours := if before.Some? then before.value.chan else Chan(0, NO_MODE, []);
    keepNew := Judge(before.None?, line.ts, ours.ts, HasOps(ours.members), DoesOp(NickList(line, args))).keepNew;
  }

  // The modes passed on are "0", or those of the channel and its limit.
  lemma {:induction false} WordsOf(before: Option<Rated>, line: Line, reachable: set<string>)
    requires SjoinRated(before, line, reachable).Taken? && SjoinRated(before, line, reachable).relay.Some?
    ensures var out := SjoinRated(before, line, reachable);
      var relay := out.relay.value;
      || (relay.modes == "0" && relay.params == [])
      || (relay.modes == RatedWord(out.rated.chan.mode, out.rated.rate)
          && relay.params == RatedParams(out.rated.chan.mode, out.rated.rate))
  {
    hide ParseAll, Judge, ChooseMode, MergeRate, JoinAll, RelayTokens, RatedWord, RatedParams, ModeWord, ModeParams,
         HasOps, DoesOp, NickList;
    PrintedIsNotZero(SjoinRated(before, line, reachable).rated.chan.mode);
  }

  // The numbers and the key have the sizes their types give them.
  predicate Sized(a: Rated, ts: nat) {
    && ts < 0x1_0000_0000_0000_0000 && IsInt(a.chan.mode.limit) && IsInt(a.rate.msgs) && IsInt(a.rate.per)
    && |a.chan.mode.key| <= KEYLEN
  }

  lemma ParamsFit(m: Mode, r: Rate)
    requires |m.key| <= KEYLEN && IsInt(m.limit) && IsInt(r.msgs) && IsInt(r.per)
    ensures |Spaced(RatedParams(m, r))| <= 60
  {
    hide RatedParams, Spaced, SignedDecimal;
    IntLength(m.limit);
    IntLength(r.msgs);
    IntLength(r.per);
    ParamTextLength(m, r);
    NothingSpaced();
  }

  /**
   * The line passed on is at most 101 characters longer than the line received: what the merge of the modes and the
   * choice of the timestamp may add. A line that leaves so much room is passed on within the buffer.
   */
  lemma {:induction false} RelayFits(before: Option<Rated>, line: Line, reachable: set<string>, from: string,
                                     name: string)
    requires SjoinRated(before, line, reachable).Taken? && SjoinRated(before, line, reachable).relay.Some?
    requires var out := SjoinRated(before, line, reachable); Sized(out.rated, out.relay.value.ts)
    ensures var out := SjoinRated(before, line, reachable);
      && |RelayText(from, name, out.relay.value)| <= |RelayText(from, name, line)| + 101
      && (|RelayText(from, name, line)| <= BUFSIZE - 101 ==> |RelayText(from, name, out.relay.value)| <= BUFSIZE)
  {
    hide SjoinRated, RelayText, Spaced, RelayTokens, NickList, Decimal, RatedWord, RatedParams;
    var out := SjoinRated(before, line, reachable);
    var relay := out.relay.value;
    TextLength(from, name, line);
    TextLength(from, name, relay);
    var keepNew, args := TokensOf(before, line, reachable);
    NicksFit(NickList(line, args), reachable, keepNew);
    NickListFits(line, args);
    WordsOf(before, line, reachable);
    TimestampLength(relay.ts);
    Digits(line.ts);
    ModeWordLength(out.rated.chan.mode, out.rated.rate);
    ParamsFit(out.rated.chan.mode, out.rated.rate);
    NothingSpaced();
  }

  // ---- a line that grows out of the buffer

  const KEYED := Chan(7, Mode({}, 0, "kkkkkkkkkkkkkkkkkkkkkkk"), [Member("b", NO_FLAGS)])

  // A line with the nick a over and over.
  function Repeated(n: nat): Line {
    Line(7, "+", [], seq(n, _ => "a"))
  }

  lemma {:induction false} RepeatedSpaced(n: nat)
    ensures |Spaced(seq(n, _ => "a"))| == 2 * n
  {
    var words := seq(n, _ => "a");
    if n > 0 {
      RepeatedSpaced(n - 1);
      assert words[..n - 1] == seq(n - 1, _ => "a");
    }
  }

  lemma {:induction false} RepeatedRelayed(n: nat)
    ensures RelayTokens(seq(n, _ => "a"), {"a"}, true) == seq(n, _ => "a")
  {
    if n > 0 {
      RepeatedRelayed(n - 1);
      assert seq(n, _ => "a")[1..] == seq(n - 1, _ => "a");
      PlainNick();
    }
  }

  lemma PlainNick()
    ensures ReadToken("a", NO_FLAGS) == Member("a", NO_FLAGS)
  {
  }

  lemma {:induction false} RepeatedRead(n: nat)
    ensures var line := Repeated(n);
      && ParseAll(line.modes, line, NO_MODE, NO_RATE, 0) == Some((NO_MODE, NO_RATE, 0))
      && NickList(line, 0) == line.nicks && !DoesOp(line.nicks)
  {
    assert "+"[1..] == "" && ["+"[0]][1..] == "";
  }

  // The channel's key wins, and goes out with the line.
  lemma KeyedMerged()
    ensures MergeMode(NO_MODE, KEYED.mode) == KEYED.mode && !HasOps(KEYED.members)
    ensures |KEYED.mode.key| == 23
  {
  }

  lemma KeyedPrinted()
    ensures |RatedWord(KEYED.mode, NO_RATE)| == 2 && RatedParams(KEYED.mode, NO_RATE) == [KEYED.mode.key]
  {
    hide PrintLetters;
    NoLetters(LETTERS_BEFORE, {});
    NoLetters(LETTERS_AFTER, {});
  }

  lemma {:induction false} KeyedRelay(n: nat)
    requires n > 0
    ensures var out := SjoinRated(Some(Rated(KEYED, NO_RATE)), Repeated(n), {"a"});
      && out.Taken? && out.relay.Some? && out.relay.value.ts == 7
      && out.relay.value.nicks == Repeated(n).nicks && |out.relay.value.modes| == 2
      && out.relay.value.params == [KEYED.mode.key]
  {
    hide ParseAll, NickList, DoesOp, HasOps, JoinAll, RelayTokens, RatedWord, RatedParams, ModeWord, ModeParams,
         MergeMode;
    RepeatedRead(n);
    RepeatedRelayed(n);
    KeyedMerged();
    KeyedPrinted();
    PrintedIsNotZero(KEYED.mode);
  }

  /**
   * The room is not always there: a line of 492 characters for a channel with a key and the same timestamp is passed on
   * with the key, and takes more than the buffer holds.
   */
  lemma {:induction false} RelayTooLong()
    ensures var out := SjoinRated(Some(Rated(KEYED, NO_RATE)), Repeated(237), {"a"});
      && |RelayText("x", "#c", Repeated(237))| == 492
      && out.Taken? && out.relay.Some? && |RelayText("x", "#c", out.relay.value)| == 517 > BUFSIZE
  {
    hide Spaced, RelayText, SjoinRated;
    var out := SjoinRated(Some(Rated(KEYED, NO_RATE)), Repeated(237), {"a"});
    KeyedRelay(237);
    KeyedMerged();
    TextLength("x", "#c", Repeated(237));
    TextLength("x", "#c", out.relay.value);
    NothingSpaced();
    RepeatedSpaced(237);
    SpacedFirst([KEYED.mode.key]);
    assert [KEYED.mode.key][1..] == [];
  }
}
