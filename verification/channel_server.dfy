/** The channel as a server keeps it in memory: m_sjoin on mutable state. */
module ChannelServer {
  import opened Text
  import opened ChannelModel
  import opened ChannelRate

  class Channel {
    var ts: nat
    var mode: Mode
    var rate: Rate
    var members: seq<Member>

    function Value(): Rated
      reads this
    {
      Rated(Chan(ts, mode, members), rate)
    }

    // A fresh channel block, cleared by memset.
    constructor ()
      ensures Value() == Rated(Chan(0, NO_MODE, []), NO_RATE)
    {
      ts, mode, rate, members := 0, NO_MODE, NO_RATE, [];
    }

    // for (l = chptr->members; l; l = l->next) if (l->flags & MODE_CHANOP) ...
    method HaveOps() returns (have: bool)
      ensures have == HasOps(members)
    {
      have := false;
      var l := 0;
      while l < |members|
        invariant 0 <= l <= |members|
        invariant forall i :: 0 <= i < l ==> !members[i].flags.op
      {
        if members[l].flags.op { return true; }
        l := l + 1;
      }
    }

    // Whose timestamp, modes and statuses win.
    method CompareTs(isNew: bool, newTs: nat, doesOp: bool) returns (tsToSend: nat, keepOurs: bool, keepNew: bool)
      modifies this`ts
      ensures Judge(isNew, newTs, old(ts), HasOps(members), doesOp) == Verdict(ts, tsToSend, keepOurs, keepNew)
    {
      var oldTs := ts;
      var haveOps := HaveOps();
      keepOurs, keepNew, tsToSend := true, true, oldTs;
      if isNew {
        ts, tsToSend := newTs, newTs;
      } else if newTs == 0 || oldTs == 0 {
        ts, tsToSend := 0, 0;
      } else if newTs == oldTs {
        tsToSend := oldTs;
      } else if newTs < oldTs {
        if doesOp { keepOurs := false; }
        if haveOps && !doesOp { tsToSend := oldTs; } else { ts, tsToSend := newTs, newTs; }
      } else {
        if haveOps { keepNew := false; }
        if doesOp && !haveOps { ts, tsToSend := newTs, newTs; } else { tsToSend := oldTs; }
      }
    }

    // The merged key is ours when the line's comes first in the order of strcmp, the line's otherwise.
    method MergeModes(lineMode: Mode, lineRate: Rate, keepOurs: bool, keepNew: bool, ghost v: Verdict)
      requires v.keepOurs == keepOurs && v.keepNew == keepNew
      modifies this`mode, this`rate
      ensures mode == ChooseMode(v, lineMode, old(mode)) && rate == MergeRate(v, lineRate, old(rate))
      ensures !keepNew ==> mode == old(mode) && rate == old(rate)
      ensures keepNew && !keepOurs ==> mode == lineMode && rate == lineRate
      ensures keepNew && keepOurs ==>
                && mode.letters == lineMode.letters + old(mode.letters)
                && mode.limit == (if old(mode.limit) > lineMode.limit then old(mode.limit) else lineMode.limit)
                && rate.msgs == (if old(rate.msgs) != 0 then old(rate.msgs) else lineRate.msgs)
                && rate.per == (if old(rate.per) != 0 then old(rate.per) else lineRate.per)
      ensures keepNew && keepOurs ==>
                var a, b := lineMode.key, old(mode.key);
                mode.key == if exists k: nat :: k <= |a| && k < |b| && a[..k] == b[..k] && (k == |a| || a[k] < b[k])
                            then b else a
    {
      LessAtFirstDifference(lineMode.key, mode.key);
      var m, r := lineMode, lineRate;
      if !keepNew {
        m, r := mode, rate;
      } else if keepOurs {
        m := m.(letters := m.letters + mode.letters);
        if mode.limit > m.limit { m := m.(limit := mode.limit); }
        if Less(m.key, mode.key) { m := m.(key := mode.key); }
        if rate.msgs != 0 { r := r.(msgs := rate.msgs); }
        if rate.per != 0 { r := r.(per := rate.per); }
      }
      mode, rate := m, r;
    }

    // Takes admin, op and voice from every member, and nothing else.
    method Strip()
      modifies this
      ensures Value() == Rated(Chan(old(ts), old(mode), StripMembers(old(members))), old(rate))
      ensures |members| == |old(members)|
      ensures forall i :: 0 <= i < |members| ==>
                && members[i].nick == old(members)[i].nick
                && members[i].flags == Flags(false, false, false, old(members)[i].flags.deopped)
    {
      var l := 0;
      while l < |members|
        invariant 0 <= l <= |members| == |old(members)|
        invariant ts == old(ts) && mode == old(mode) && rate == old(rate)
        invariant forall i :: 0 <= i < l ==>
          members[i] == Member(old(members)[i].nick, Flags(false, false, false, old(members)[i].flags.deopped))
        invariant forall i :: l <= i < |members| ==> members[i] == old(members)[i]
      {
        var f := members[l].flags;
        f := f.(adm := false);
        f := f.(op := false);
        f := f.(voice := false);
        members := members[l := Member(members[l].nick, f)];
        l := l + 1;
      }
    }
  }

  // The prefix loop of m_sjoin: '.' for a channel admin, '@' for an operator, '+' for voice, in any order.
  method ParseToken(t: string) returns (m: Member)
    ensures m == ReadToken(t, NO_FLAGS)
    ensures exists s: nat :: s <= |t| && m.nick == t[s..]
              && m.flags == Flags('.' in t[..s], '@' in t[..s], '+' in t[..s], false)
              && (forall i :: 0 <= i < s ==> t[i] == '.' || t[i] == '@' || t[i] == '+')
              && (s < |t| ==> t[s] != '.' && t[s] != '@' && t[s] != '+')
  {
    var s, fl := 0, NO_FLAGS;
    while s < |t| && IsPrefix(t[s])
      invariant 0 <= s <= |t|
      invariant ReadToken(t[s..], fl) == ReadToken(t, NO_FLAGS)
      invariant fl == Flags('.' in t[..s], '@' in t[..s], '+' in t[..s], false)
      invariant forall i :: 0 <= i < s ==> t[i] == '.' || t[i] == '@' || t[i] == '+'
    {
      if t[s] == '.' { fl := fl.(adm := true); }
      else if t[s] == '@' { fl := fl.(op := true); }
      else { fl := fl.(voice := true); }
      s := s + 1;
    }
    m := Member(t[s..], fl);
  }

  // index(s, ':')
  method FindColon(s: string) returns (i: nat)
    ensures i == Colon(s)
  {
    i := 0;
    while i < |s| && s[i] != ':'
      invariant i <= |s| && Colon(s) == i + Colon(s[i..])
    {
      i := i + 1;
    }
  }

  // Whether the nick list, as one parameter, has a colon.
  method AnyColon(nicks: seq<string>) returns (any: bool)
    ensures any == Coloned(nicks)
  {
    any := false;
    var k := 0;
    while k < |nicks|
      invariant 0 <= k <= |nicks| && !any
      invariant forall j :: 0 <= j < k ==> ':' !in nicks[j]
    {
      var i := FindColon(nicks[k]);
      if i < |nicks[k]| { return true; }
      k := k + 1;
    }
  }

  // A letter on its own; a key keeps its first 23 characters.
  lemma LetterStep(c: char, params: seq<string>, mode: Mode, args: nat)
    ensures ParseModes([c], params, mode, args)
         == if c == 'k' then
              if args >= |params| then None
              else Some((mode.(key := if |params[args]| <= 23 then params[args] else params[args][..23]), args + 1))
            else if c == 'l' then
              if args >= |params| then None else Some((mode.(limit := Atoi(params[args])), args + 1))
            else if IsLetter(c) then Some((mode.(letters := mode.letters + {c}), args))
            else Some((mode, args))
  {
    hide Atoi, IsLetter;
    var word := [c];
    assert word[0] == c && word[1..] == [];
  }

  // One turn of the mode-word loop.
  lemma WordStep(line: Line, s: nat, mode: Mode, rate: Rate, args: nat)
    requires s < |line.modes|
    ensures var c := line.modes[s];
      var rest := line.modes[s + 1..];
      ParseAll(line.modes[s..], line, mode, rate, args)
      == if c == 'k' then
           if args >= |line.params| then None
           else ParseAll(rest, line, mode.(key := Truncate(line.params[args])), rate, args + 1)
         else if c == 'l' then
           if args >= |line.params| then None
           else ParseAll(rest, line, mode.(limit := Atoi(line.params[args])), rate, args + 1)
         else if c == 'f' then
           if args < |line.params| && ':' in line.params[args]
           then ParseAll(rest, line, mode, ReadRate(line.params[args]), args + 1)
           else if args >= |line.params| && Coloned(line.nicks) then None
           else ParseAll(rest, line, mode, rate, args)
         else if IsLetter(c) then ParseAll(rest, line, mode.(letters := mode.letters + {c}), rate, args)
         else ParseAll(rest, line, mode, rate, args)
  {
    hide Atoi, ReadRate, Coloned, IsLetter, ParseModes;
    var word := line.modes[s..];
    assert word[0] == line.modes[s] && word[1..] == line.modes[s + 1..];
    LetterStep(word[0], line.params, mode, args);
  }

  // The mode-word loop of m_sjoin; ok is false when a parameter is missing.
  method ParseModeWord(line: Line) returns (ok: bool, mode: Mode, rate: Rate, args: nat)
    ensures ParseAll(line.modes, line, NO_MODE, NO_RATE, 0) == if ok then Some((mode, rate, args)) else None
  {
    hide IsLetter, Truncate, Atoi, Coloned, Colon, ParseModes;
    mode, rate, args := NO_MODE, NO_RATE, 0;
    var s := 0;
    while s < |line.modes|
      invariant 0 <= s <= |line.modes|
      invariant ParseAll(line.modes[s..], line, mode, rate, args)
             == ParseAll(line.modes, line, NO_MODE, NO_RATE, 0)
    {
      WordStep(line, s, mode, rate, args);
      var c := line.modes[s];
      if c == 'k' {
        if args >= |line.params| { return false, mode, rate, args; }
        mode := mode.(key := Truncate(line.params[args]));
        args := args + 1;
      } else if c == 'l' {
        if args >= |line.params| { return false, mode, rate, args; }
        mode := mode.(limit := Atoi(line.params[args]));
        args := args + 1;
      } else if c == 'f' {
        if args < |line.params| {
          var cp := line.params[args];
          var xp := FindColon(cp);
          if xp < |cp| {
            rate := Rate(Atoi(cp[..xp]), Atoi(cp[xp + 1..]));
            args := args + 1;
          }
        } else {
          var any := AnyColon(line.nicks);
          if any { return false, mode, rate, args; }
        }
      } else if IsLetter(c) {
        mode := mode.(letters := mode.letters + {c});
      }
      s := s + 1;
    }
    ok := true;
  }

  /** One step of the nick loop: a nick new to the channel goes in front. When the line has lost,
      it gets no status, and an operator who is not an admin is marked as deopped; its prefixes are
      not passed on either. */
  lemma NickStep(ms: seq<Member>, tokens: seq<string>, s: nat, reachable: set<string>, keepNew: bool)
    requires s < |tokens|
    ensures var m := ReadToken(tokens[s], NO_FLAGS);
      && JoinAll(ms, tokens[s..], reachable, keepNew)
         == (var given := if keepNew then m.flags else Flags(false, false, false, m.flags.op && !m.flags.adm);
             JoinAll(if m.nick in reachable && m.nick !in Nicks(ms) then [Member(m.nick, given)] + ms else ms,
                     tokens[s + 1..], reachable, keepNew))
      && RelayTokens(tokens[s..], reachable, keepNew)
         == (if m.nick in reachable then [if keepNew then tokens[s] else m.nick] else [])
            + RelayTokens(tokens[s + 1..], reachable, keepNew)
  {
    assert tokens[s..][0] == tokens[s] && tokens[s..][1..] == tokens[s + 1..];
  }

  lemma NicksDone(ms: seq<Member>, tokens: seq<string>, reachable: set<string>, keepNew: bool)
    ensures JoinAll(ms, tokens[|tokens|..], reachable, keepNew) == ms
    ensures RelayTokens(tokens[|tokens|..], reachable, keepNew) == []
  {
  }

  // A line applied, piece by piece.
  lemma Applied(isNew: bool, ours: Rated, line: Line, mode: Mode, rate: Rate, tokens: seq<string>,
                reachable: set<string>, v: Verdict)
    requires v == Judge(isNew, line.ts, ours.chan.ts, HasOps(ours.chan.members), DoesOp(tokens))
    ensures var kept := if v.keepOurs then ours.chan.members else StripMembers(ours.chan.members);
      var m, r := ChooseMode(v, mode, ours.chan.mode), MergeRate(v, rate, ours.rate);
      var relayed := RelayTokens(tokens, reachable, v.keepNew);
      var plain := (line.modes != [] && line.modes[0] == '0') || !v.keepNew;
      ApplyRated(isNew, ours, line, mode, rate, tokens, reachable)
      == Taken(Rated(Chan(v.ts, m, JoinAll(kept, tokens, reachable, v.keepNew)), r),
               if relayed == [] then None
               else Some(Line(v.relayTs, if plain then "0" else RatedWord(m, r),
                              if plain then [] else RatedParams(m, r), relayed)))
  {
    hide JoinAll, RelayTokens, StripMembers, HasOps, ModeWord, RatedWord, RatedParams, Judge, ChooseMode, MergeRate,
         DoesOp;
    PrintedIsNotZero(ChooseMode(v, mode, ours.chan.mode));
  }

  lemma {:induction false} NoParameters(word: string, params: seq<string>, others: seq<string>, mode: Mode, args: nat)
    requires 'k' !in word && 'l' !in word
    ensures ParseModes(word, params, mode, args) == ParseModes(word, others, mode, args)
    ensures ParseModes(word, params, mode, args).Some? && ParseModes(word, params, mode, args).value.1 == args
  {
    if word != [] {
      var m := if IsLetter(word[0]) then mode.(letters := mode.letters + {word[0]}) else mode;
      NoParameters(word[1..], params, others, m, args);
    }
  }

  /** A parameter that the mode word has no use for is taken for the nick list, in place of the one that follows. */
  lemma UnusedParameter(before: Option<Rated>, line: Line, reachable: set<string>)
    requires line.params != [] && 'k' !in line.modes && 'l' !in line.modes && 'f' !in line.modes
    ensures SjoinRated(before, line, reachable)
         == SjoinRated(before, line.(params := [], nicks := [line.params[0]]), reachable)
  {
    var other := line.(params := [], nicks := [line.params[0]]);
    WithoutRate(line.modes, line, NO_MODE, NO_RATE, 0);
    WithoutRate(line.modes, other, NO_MODE, NO_RATE, 0);
    NoParameters(line.modes, line.params, [], NO_MODE, 0);
    hide ParseAll, ParseModes, Judge, JoinAll, RelayTokens, StripMembers, HasOps, ModeWord, DoesOp;
  }

  class Server {
    // The hash table's entry for the channel's name.
    var channel: Channel?

    function Value(): Option<Rated>
      reads this, channel
    {
      if channel == null then None else Some(channel.Value())
    }

    // One nick: it joins if it is reachable and new, and is passed on if it is reachable.
    method JoinNick(c: Channel, token: string, reachable: set<string>, keepNew: bool) returns (relayed: seq<string>)
      modifies c`members
      ensures var m := ReadToken(token, NO_FLAGS);
        var given := if keepNew then m.flags else Flags(false, false, false, m.flags.op && !m.flags.adm);
        && c.members == (if m.nick in reachable && m.nick !in Nicks(old(c.members))
                         then [Member(m.nick, given)] + old(c.members) else old(c.members))
        && relayed == if m.nick in reachable then [if keepNew then token else m.nick] else []
    {
      hide ReadToken, Nicks;
      var m := ParseToken(token);
      var fl := m.flags;
      if !keepNew {
        if fl.op && !fl.adm { fl := NO_FLAGS.(deopped := true); } else { fl := NO_FLAGS; }
      }
      relayed := [];
      if m.nick !in reachable { return; }
      if m.nick !in Nicks(c.members) {
        c.members := [Member(m.nick, fl)] + c.members;
      }
      relayed := [if keepNew then token else m.nick];
    }

    lemma MoreTokens(a: seq<string>, b: seq<string>, c: seq<string>)
      ensures a + (b + c) == a + b + c
    {
    }

    // The nick loop of m_sjoin; returns the nicks to pass on.
    method JoinNicks(c: Channel, tokens: seq<string>, reachable: set<string>,
                     keepNew: bool) returns (relayed: seq<string>)
      modifies c
      ensures c.Value()
           == Rated(Chan(old(c.ts), old(c.mode), JoinAll(old(c.members), tokens, reachable, keepNew)), old(c.rate))
      ensures relayed == RelayTokens(tokens, reachable, keepNew)
    {
      hide JoinAll, RelayTokens, ReadToken, Nicks, Granted;
      relayed := [];
      var s := 0;
      while s < |tokens|
        invariant 0 <= s <= |tokens|
        invariant c.ts == old(c.ts) && c.mode == old(c.mode) && c.rate == old(c.rate)
        invariant JoinAll(c.members, tokens[s..], reachable, keepNew) == JoinAll(old(c.members), tokens, reachable,
          keepNew)
        invariant relayed + RelayTokens(tokens[s..], reachable, keepNew) == RelayTokens(tokens, reachable, keepNew)
      {
        NickStep(c.members, tokens, s, reachable, keepNew);
        var more := JoinNick(c, tokens[s], reachable, keepNew);
        MoreTokens(relayed, more, RelayTokens(tokens[s + 1..], reachable, keepNew));
        relayed := relayed + more;
        s := s + 1;
      }
      NicksDone(c.members, tokens, reachable, keepNew);
    }

    // The part of m_sjoin behind get_channel.
    method Process(c: Channel, isNew: bool, line: Line, mode: Mode, rate: Rate, tokens: seq<string>,
                   reachable: set<string>) returns (relay: Option<Line>)
      modifies c
      ensures ApplyRated(isNew, old(c.Value()), line, mode, rate, tokens, reachable) == Taken(c.Value(), relay)
    {
      hide JoinAll, RelayTokens, StripMembers, HasOps, RatedWord, RatedParams, Judge, ChooseMode, MergeRate, ApplyRated;
      var doesOp := tokens != [] && ((|tokens[0]| > 0 && tokens[0][0] == '@') || (|tokens[0]| > 1
        && tokens[0][1] == '@'));
      var tsToSend, keepOurs, keepNew := c.CompareTs(isNew, line.ts, doesOp);
      ghost var v := Verdict(c.ts, tsToSend, keepOurs, keepNew);
      c.MergeModes(mode, rate, keepOurs, keepNew, v);
      if !keepOurs { c.Strip(); }
      var relayed := JoinNicks(c, tokens, reachable, keepNew);
      var word, params := "0", [];
      if !(line.modes != [] && line.modes[0] == '0') && keepNew {
        word, params := RatedWord(c.mode, c.rate), RatedParams(c.mode, c.rate);
      }
      relay := if relayed == [] then None else Some(Line(tsToSend, word, params, relayed));
      Applied(isNew, old(c.Value()), line, mode, rate, tokens, reachable, v);
    }

    // check_channel_name, for a table of characters
    method CheckChannelName(name: string, table: set<char>) returns (ok: bool)
      ensures ok <==> forall i :: 0 <= i < |name| ==> name[i] in table
    {
      var k := 0;
      while k < |name|
        invariant 0 <= k <= |name|
        invariant forall i :: 0 <= i < k ==> name[i] in table
      {
        if name[k] !in table { return false; }
        k := k + 1;
      }
      ok := true;
    }

    /**
     * m_sjoin: compares timestamps, merges or overrides, joins the nicks, and returns the line to pass on. A line from
     * a user, or for a name that is not a global channel's, changes nothing.
     */
    method MSjoin(fromUser: bool, name: string, table: set<char>, line: Line,
                  reachable: set<string>) returns (relay: Option<Line>)
      modifies this, channel
      ensures var legal := name != "" && name[0] == '#' && forall i :: 0 <= i < |name| ==> name[i] in table;
        var out := SjoinRated(old(Value()), line, reachable);
        if fromUser || !legal || out.Refused? then Value() == old(Value()) && relay == None
        else Value() == Some(out.rated) && relay == out.relay
    {
      hide ApplyRated, ParseAll;
      if fromUser { return None; }
      if name == "" || (name[0] != '#' && name[0] != '&') { return None; }
      var legal := CheckChannelName(name, table);
      if !legal { return None; }
      if name[0] == '&' { return None; }
      var ok, mode, rate, args := ParseModeWord(line);
      if !ok { return None; }
      var isNew := channel == null;
      if isNew { channel := new Channel(); }
      var tokens := if args < |line.params| then [line.params[args]] else line.nicks;
      relay := Process(channel, isNew, line, mode, rate, tokens, reachable);
    }
  }
}
