/**
 * Channels as a server stores them, the lines servers exchange about them, and what m_sjoin computes
 * from one line: src/channel.c without TS5 and HALFOPS.
 */
module ChannelModel {
  import opened Text

  const KEYLEN := 23

  // The one-letter channel modes, in the two runs in which channel_modes prints them around l and k.
  const LETTERS_BEFORE := "spmtin"
  const LETTERS_AFTER := "rCRKOABSdcqN"

  predicate IsLetter(c: char) {
    c in LETTERS_BEFORE || c in LETTERS_AFTER
  }

  datatype Mode = Mode(letters: set<char>, limit: int, key: string)

  const NO_MODE := Mode({}, 0, "")

  predicate PrintableMode(m: Mode) {
    && (forall c :: c in m.letters ==> IsLetter(c))
    && |m.key| <= KEYLEN
  }

  predicate ValidMode(m: Mode) {
    PrintableMode(m) && 0 <= m.limit
  }

  // Member flags: CHFL_CHANADM, CHFL_CHANOP, CHFL_VOICE and the local CHFL_DEOPPED.
  datatype Flags = Flags(adm: bool, op: bool, voice: bool, deopped: bool)

  const NO_FLAGS := Flags(false, false, false, false)

  datatype Member = Member(nick: string, flags: Flags)

  datatype Chan = Chan(ts: nat, mode: Mode, members: seq<Member>)

  /**
   * An SJOIN or NJOIN line: timestamp, mode word, the parameters before the nick list, and the tokens of
   * the nick list (each a nick with its prefix characters).
   */
  datatype Line = Line(ts: nat, modes: string, params: seq<string>, nicks: seq<string>)

  function Nicks(ms: seq<Member>): set<string> {
    set i | 0 <= i < |ms| :: ms[i].nick
  }

  predicate HasOps(ms: seq<Member>) {
    exists i :: 0 <= i < |ms| && ms[i].flags.op
  }

  predicate Distinct(ms: seq<Member>) {
    forall i, j :: 0 <= i < j < |ms| ==> ms[i].nick != ms[j].nick
  }

  predicate IsPrefix(c: char) {
    c == '.' || c == '@' || c == '+'
  }

  ghost predicate ValidChan(c: Chan) {
    && ValidMode(c.mode)
    && Distinct(c.members)
    && forall i :: 0 <= i < |c.members| ==> ValidNick(c.members[i].nick)
  }

  predicate ValidNick(nick: string) {
    nick != [] && !IsPrefix(nick[0]) && '@' !in nick
  }

  // ---- reading a line

  /** The mode word, letter by letter; None when it asks for more parameters than the line has. */
  function ParseModes(word: string, params: seq<string>, mode: Mode, args: nat): Option<(Mode, nat)> {
    if word == [] then Some((mode, args))
    else if word[0] == 'k' then
      if args >= |params| then None
      else ParseModes(word[1..], params, mode.(key := Truncate(params[args])), args + 1)
    else if word[0] == 'l' then
      if args >= |params| then None
      else ParseModes(word[1..], params, mode.(limit := Atoi(params[args])), args + 1)
    else if IsLetter(word[0]) then ParseModes(word[1..], params, mode.(letters := mode.letters + {word[0]}), args)
    else ParseModes(word[1..], params, mode, args)
  }

  // strncpy_irc(mode.key, s, KEYLEN)
  function Truncate(s: string): string {
    if |s| <= KEYLEN then s else s[..KEYLEN]
  }

  // parv[4 + args]: the nick list, unless the mode word left a parameter unused.
  function NickList(line: Line, args: nat): seq<string> {
    if args < |line.params| then [line.params[args]] else line.nicks
  }

  predicate DoesOp(tokens: seq<string>) {
    && tokens != []
    && ((tokens[0] != [] && tokens[0][0] == '@') || (|tokens[0]| > 1 && tokens[0][1] == '@'))
  }

  /** The prefix loop: flags read, and the nick that is left. */
  function ReadToken(t: string, flags: Flags): Member {
    if t != [] && t[0] == '.' then ReadToken(t[1..], flags.(adm := true))
    else if t != [] && t[0] == '@' then ReadToken(t[1..], flags.(op := true))
    else if t != [] && t[0] == '+' then ReadToken(t[1..], flags.(voice := true))
    else Member(t, flags)
  }

  // ---- deciding between the two descriptions

  /** New channel timestamp, timestamp to relay, and whose modes and statuses survive. */
  datatype Verdict = Verdict(ts: nat, relayTs: nat, keepOurs: bool, keepNew: bool)

  function Judge(isNew: bool, newTs: nat, oldTs: nat, haveOps: bool, doesOp: bool): Verdict {
    if isNew then Verdict(newTs, newTs, true, true)
    else if newTs == 0 || oldTs == 0 then Verdict(0, 0, true, true)
    else if newTs == oldTs then Verdict(oldTs, oldTs, true, true)
    else if newTs < oldTs then
      if haveOps && !doesOp then Verdict(oldTs, oldTs, true, true)
      else Verdict(newTs, newTs, !doesOp, true)
    else
      if doesOp && !haveOps then Verdict(newTs, newTs, true, true)
      else Verdict(oldTs, oldTs, true, !haveOps)
  }

  function MaxInt(a: int, b: int): int {
    if a > b then a else b
  }

  function MergeMode(line: Mode, ours: Mode): Mode {
    Mode(line.letters + ours.letters, MaxInt(ours.limit, line.limit), MaxKey(line.key, ours.key))
  }

  function ChooseMode(v: Verdict, line: Mode, ours: Mode): Mode {
    if !v.keepNew then ours else if v.keepOurs then MergeMode(line, ours) else line
  }

  function StripMembers(ms: seq<Member>): seq<Member> {
    seq(|ms|, i requires 0 <= i < |ms| => Member(ms[i].nick, Flags(false, false, false, ms[i].flags.deopped)))
  }

  // What a joining nick gets: its flags, or none and DEOPPED when the line lost.
  function Granted(keepNew: bool, flags: Flags): Flags {
    if keepNew then flags else if flags.op && !flags.adm then NO_FLAGS.(deopped := true) else NO_FLAGS
  }

  /** The nick loop: users reachable through the sending link are put in front of the member list. */
  function JoinAll(ms: seq<Member>, tokens: seq<string>, reachable: set<string>, keepNew: bool): seq<Member>
    decreases tokens
  {
    if tokens == [] then ms
    else
      var m := ReadToken(tokens[0], NO_FLAGS);
      var ms' := if m.nick in reachable && m.nick !in Nicks(ms)
                 then [Member(m.nick, Granted(keepNew, m.flags))] + ms else ms;
      JoinAll(ms', tokens[1..], reachable, keepNew)
  }

  function RelayTokens(tokens: seq<string>, reachable: set<string>, keepNew: bool): seq<string> {
    if tokens == [] then []
    else
      var m := ReadToken(tokens[0], NO_FLAGS);
      (if m.nick in reachable then [if keepNew then tokens[0] else m.nick] else [])
      + RelayTokens(tokens[1..], reachable, keepNew)
  }

  // ---- printing modes (channel_modes for a server)

  function PrintLetters(order: string, letters: set<char>): string {
    if order == [] then [] else (if order[0] in letters then [order[0]] else []) + PrintLetters(order[1..], letters)
  }

  function ModeWord(m: Mode): string {
    "+" + PrintLetters(LETTERS_BEFORE, m.letters)
    + (if m.limit != 0 then "l" else "") + (if m.key != [] then "k" else "")
    + PrintLetters(LETTERS_AFTER, m.letters)
  }

  function ModeParams(m: Mode): seq<string> {
    (if m.limit != 0 then [SignedDecimal(m.limit)] else []) + (if m.key != [] then [m.key] else [])
  }

  // ---- one line

  /** The channel after the line, and the line passed on to the other servers. */
  datatype Outcome = Rejected | Accepted(chan: Chan, relay: Option<Line>)

  function Sjoin(before: Option<Chan>, line: Line, reachable: set<string>): Outcome {
    match ParseModes(line.modes, line.params, NO_MODE, 0)
    case None => Rejected
    case Some((mode, args)) =>
      Apply(before.None?, if before.Some? then before.value else Chan(0, NO_MODE, []), line, mode, NickList(line,
        args), reachable)
  }

  // The line's modes and nick list applied to a channel that was there before, or was just created.
  function Apply(isNew: bool, ours: Chan, line: Line, mode: Mode, tokens: seq<string>,
                 reachable: set<string>): Outcome {
    var v := Judge(isNew, line.ts, ours.ts, HasOps(ours.members), DoesOp(tokens));
    var mode' := ChooseMode(v, mode, ours.mode);
    var kept := if v.keepOurs then ours.members else StripMembers(ours.members);
    var relayed := RelayTokens(tokens, reachable, v.keepNew);
    var withModes := v.keepNew && !(line.modes != [] && line.modes[0] == '0');
    Accepted(Chan(v.ts, mode', JoinAll(kept, tokens, reachable, v.keepNew)),
             if relayed == [] then None
             else Some(Line(v.relayTs,
                            if withModes then ModeWord(mode') else "0",
                            if withModes then ModeParams(mode') else [],
                            relayed)))
  }
}
