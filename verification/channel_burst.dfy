/** send_channel_modes: the printing loop, its buffer, and where it cuts the lines. */
module ChannelBurst {
  import opened Text
  import opened ChannelModel
  import opened ChannelView
  import opened ChannelPrint
  import opened ChannelRate

  const BUFSIZE := 512
  const HOSTLEN := 63
  const NICKLEN := 20
  const CHANNELLEN := 32

  // One flag test after the other; the source has this loop unrolled.
  method AppendLetters(buf: string, order: string, letters: set<char>) returns (out: string)
    ensures out == buf + PrintLetters(order, letters)
  {
    out := buf;
    var i := 0;
    while i < |order|
      invariant 0 <= i <= |order|
      invariant out + PrintLetters(order[i..], letters) == buf + PrintLetters(order, letters)
    {
      if order[i] in letters { out := out + [order[i]]; }
      i := i + 1;
    }
  }

  /** channel_modes for a server. */
  method ChannelModes(m: Mode, r: Rate) returns (mbuf: string, pbuf: seq<string>)
    ensures mbuf == RatedWord(m, r) && pbuf == RatedParams(m, r)
  {
    mbuf := AppendLetters("+", LETTERS_BEFORE, m.letters);
    pbuf := [];
    if m.limit != 0 {
      mbuf := mbuf + "l";
      pbuf := pbuf + [SignedDecimal(m.limit)];
    }
    if m.key != [] {
      mbuf := mbuf + "k";
      pbuf := pbuf + [m.key];
    }
    mbuf := AppendLetters(mbuf, LETTERS_AFTER, m.letters);
    if r.msgs != 0 {
      mbuf := mbuf + "f";
      pbuf := pbuf + [SignedDecimal(r.msgs) + ":" + SignedDecimal(r.per)];
    }
  }

  // ---- the text of a line

  function ParamText(params: seq<string>): string {
    if params == [] then "" else Spaced(params) + " "
  }

  // Each word followed by a space.
  function Spaced(words: seq<string>): string {
    if words == [] then "" else Spaced(words[..|words| - 1]) + words[|words| - 1] + " "
  }

  // ":%s NJOIN %lu %s %s %s:"
  function Header(me: string, name: string, line: Line): string {
    ":" + me + " NJOIN " + Decimal(line.ts) + " " + name + " " + line.modes + " " + ParamText(line.params) + ":"
  }

  /** What sendto_one is given: the header and the tokens, each with its space; the test for a last space to take
      away looks at the terminator just written, so the space stays. */
  function Wire(me: string, name: string, line: Line): string {
    Header(me, name, line) + Spaced(line.nicks)
  }

  lemma SpacedMore(words: seq<string>, w: string)
    ensures Spaced(words + [w]) == Spaced(words) + w + " "
  {
    assert (words + [w])[..|words|] == words;
  }

  lemma {:induction false} LettersLength(order: string, letters: set<char>)
    ensures |PrintLetters(order, letters)| <= |order|
  {
    if order != [] { LettersLength(order[1..], letters); }
  }

  // The range of an int.
  predicate IsInt(n: int) {
    -0x8000_0000 <= n < 0x8000_0000
  }

  // Sizes the server's structures guarantee.
  predicate Bounded(me: string, name: string, a: Rated) {
    && |me| <= HOSTLEN && |name| <= CHANNELLEN && |a.chan.mode.key| <= KEYLEN
    && a.chan.ts < 0x1_0000_0000_0000_0000 && IsInt(a.chan.mode.limit) && IsInt(a.rate.msgs) && IsInt(a.rate.per)
    && forall i :: 0 <= i < |a.chan.members| ==> |a.chan.members[i].nick| <= NICKLEN
  }

  lemma TokenLength(m: Member)
    ensures |Token(m)| <= |m.nick| + 3
  {
  }

  lemma TimestampLength(ts: nat)
    requires ts < 0x1_0000_0000_0000_0000
    ensures |Decimal(ts)| <= 20
  {
    assert Pow10(5) == 100_000;
    assert Pow10(10) == 10_000_000_000;
    assert Pow10(15) == 1_000_000_000_000_000;
    assert Pow10(20) == 100_000_000_000_000_000_000;
    DecimalLength(ts, 20);
  }

  lemma IntLength(n: int)
    requires IsInt(n)
    ensures |SignedDecimal(n)| <= 11
  {
    assert Pow10(5) == 100_000;
    assert Pow10(10) == 10_000_000_000;
    DecimalLength(if n < 0 then -n else n, 10);
  }

  lemma ParamTextLength(m: Mode, r: Rate)
    requires |m.key| <= KEYLEN && |SignedDecimal(m.limit)| <= 11 && |PrintRate(r)| <= 23
    ensures |ParamText(RatedParams(m, r))| <= 61
  {
    hide SignedDecimal, PrintRate;
    var limit := if m.limit != 0 then [SignedDecimal(m.limit)] else [];
    SpacedMore([], SignedDecimal(m.limit));
    SpacedMore(limit, m.key);
    SpacedMore(ModeParams(m), PrintRate(r));
    assert [] + [SignedDecimal(m.limit)] == [SignedDecimal(m.limit)];
    assert limit + [] == limit && ModeParams(m) + [] == ModeParams(m);
  }

  lemma ModeWordLength(m: Mode, r: Rate)
    ensures |RatedWord(m, r)| <= 22
  {
    LettersLength(LETTERS_BEFORE, m.letters);
    LettersLength(LETTERS_AFTER, m.letters);
  }

  // The first line of a burst.
  function Opening(a: Rated, nicks: seq<string>): Line {
    Line(a.chan.ts, RatedWord(a.chan.mode, a.rate), RatedParams(a.chan.mode, a.rate), nicks)
  }

  /** The text of one line, letter by letter: three members of whom the second is an operator. */
  lemma PrintedLine(a: Rated)
    requires a == Rated(Chan(42, Mode({'n', 't', 's', 'r', 'i'}, 10, "key"),
                             [Member("alice", Flags(false, false, true, false)),
                              Member("bob", Flags(true, true, false, false)),
                              Member("carol", NO_FLAGS)]), Rate(3, 60))
    ensures Wire("hub", "#c", Opening(a, Tokens(BurstOrder(a.chan.members))))
         == ":" + "hub" + " NJOIN " + "42" + " " + "#c" + " +stinlkrf" + " " + "10 key 3:60  " + ":"
            + ".@bob +alice carol "
  {
    hide Spaced, Decimal, BurstOrder, Tokens, RatedWord, RatedParams;
    var t := [".@bob", "+alice", "carol"];
    ThreeTokens(a.chan.members);
    ThreeSpaced(t[0], t[1], t[2]);
    ThreeSpaced("10", "key", "3:60");
    PrintedModes(a.chan.mode, a.rate);
    NumberTexts();
    assert " " + "+stinlkrf" == " +stinlkrf";
    assert "10" + " " + "key" + " " + "3:60" + " " + " " == "10 key 3:60  ";
    assert ".@bob" + " " + "+alice" + " " + "carol" + " " == ".@bob +alice carol ";
  }

  lemma PrintedModes(m: Mode, r: Rate)
    requires m == Mode({'n', 't', 's', 'r', 'i'}, 10, "key") && r == Rate(3, 60)
    ensures RatedWord(m, r) == "+stinlkrf" && RatedParams(m, r) == ["10", "key", "3:60"]
  {
    hide Decimal, PrintLetters;
    SomeLetters(m.letters);
    NumberTexts();
    assert "+" + "stin" + "l" + "k" + "r" + "f" == "+stinlkrf";
    assert "3" + ":" + "60" == "3:60";
  }

  lemma ThreeTokens(ms: seq<Member>)
    requires ms == [Member("alice", Flags(false, false, true, false)), Member("bob", Flags(true, true, false, false)),
                    Member("carol", NO_FLAGS)]
    ensures Tokens(BurstOrder(ms)) == [".@bob", "+alice", "carol"]
  {
    hide BurstOrder;
    OpIsSecond(ms);
    assert "" + "" + "+" + "alice" == "+alice" && "." + "@" + "" + "bob" == ".@bob";
    assert "" + "" + "" + "carol" == "carol";
    assert Token(ms[1]) == ".@bob" && Token(ms[0]) == "+alice" && Token(ms[2]) == "carol";
  }

  lemma OpIsSecond(ms: seq<Member>)
    requires |ms| == 3 && !ms[0].flags.op && ms[1].flags.op
    ensures BurstOrder(ms) == [ms[1], ms[0], ms[2]]
  {
    assert FirstOp(ms[1..]) == 0;
  }

  lemma ThreeSpaced(a: string, b: string, c: string)
    ensures Spaced([a, b, c]) == a + " " + b + " " + c + " "
  {
    assert Spaced([]) == "";
    SpacedMore([], a);
    SpacedMore([a], b);
    SpacedMore([a, b], c);
    assert [] + [a] == [a] && [a] + [b] == [a, b] && [a, b] + [c] == [a, b, c];
  }

  lemma {:induction false} LettersOver(a: string, b: string, letters: set<char>)
    ensures PrintLetters(a + b, letters) == PrintLetters(a, letters) + PrintLetters(b, letters)
  {
    if a == [] {
      assert a + b == b;
    } else {
      assert (a + b)[1..] == a[1..] + b;
      LettersOver(a[1..], b, letters);
      Regrouped(if a[0] in letters then [a[0]] else [], PrintLetters(a[1..], letters), PrintLetters(b, letters));
    }
  }

  lemma Regrouped(a: string, b: string, c: string)
    ensures a + (b + c) == (a + b) + c
  {
  }

  lemma {:induction false} AllLetters(order: string, letters: set<char>)
    requires forall c :: c in order ==> c in letters
    ensures PrintLetters(order, letters) == order
  {
    if order != [] {
      AllLetters(order[1..], letters);
    }
  }

  lemma SomeLetters(letters: set<char>)
    requires letters == {'n', 't', 's', 'r', 'i'}
    ensures PrintLetters(LETTERS_BEFORE, letters) == "stin" && PrintLetters(LETTERS_AFTER, letters) == "r"
  {
    hide PrintLetters;
    AllLetters("s", letters);
    NoLetters("pm", letters);
    AllLetters("tin", letters);
    LettersOver("pm", "tin", letters);
    LettersOver("s", "pmtin", letters);
    assert "s" + "pmtin" == LETTERS_BEFORE && "pm" + "tin" == "pmtin";
    AllLetters("r", letters);
    NoLetters("CRKOABSdcqN", letters);
    LettersOver("r", "CRKOABSdcqN", letters);
    assert "r" + "CRKOABSdcqN" == LETTERS_AFTER;
  }

  lemma NumberTexts()
    ensures Decimal(42) == "42" && Decimal(10) == "10" && Decimal(3) == "3" && Decimal(60) == "60"
  {
  }

  // Room left behind a header, for the first and for further lines.
  lemma HeaderFits(me: string, name: string, a: Rated)
    requires Bounded(me, name, a)
    ensures |Header(me, name, Opening(a, []))| <= BUFSIZE - 80
    ensures |Header(me, name, Line(a.chan.ts, "0", [], []))| <= BUFSIZE - 80
  {
    hide Decimal, SignedDecimal, RatedWord, RatedParams;
    TimestampLength(a.chan.ts);
    IntLength(a.chan.mode.limit);
    IntLength(a.rate.msgs);
    IntLength(a.rate.per);
    ParamTextLength(a.chan.mode, a.rate);
    ModeWordLength(a.chan.mode, a.rate);
  }

  lemma HeaderIgnoresNicks(me: string, name: string, line: Line)
    ensures Header(me, name, line) == Header(me, name, line.(nicks := []))
  {
  }

  // ---- the printing loop

  // The member printed k-th, as an index into the list, when the first operator is at i.
  function PrintedAt(ms: seq<Member>, i: nat, k: nat): nat {
    if i >= |ms| then k else Source(i, k)
  }

  lemma PrintedAtOrder(ms: seq<Member>, k: nat)
    requires k < |ms|
    ensures PrintedAt(ms, FirstOp(ms), k) < |ms|
    ensures |BurstOrder(ms)| == |ms| && BurstOrder(ms)[k] == ms[PrintedAt(ms, FirstOp(ms), k)]
  {
    hide FirstOp, Source;
    var i := FirstOp(ms);
    if i < |ms| {
      FrontAt(ms, i, k);
    }
  }

  lemma FlattenMore(lines: seq<Line>, line: Line)
    ensures Flatten(lines + [line]) == Flatten(lines) + line.nicks
  {
    assert (lines + [line])[..|lines|] == lines;
  }

  // chptr->members and l->next, with -1 for NULL
  function Next(ms: seq<Member>, l: int): int
    requires -1 <= l < |ms|
  {
    if l + 1 < |ms| then l + 1 else -1
  }

  // The lines sent so far, with the one under construction: a burst of c up to its first count members.
  ghost predicate Printing(a: Rated, lines: seq<Line>, line: Line, count: nat) {
    && count <= |a.chan.members| == |BurstOrder(a.chan.members)|
    && Flatten(lines) + line.nicks == Tokens(BurstOrder(a.chan.members)[..count])
    && (forall j :: 0 <= j < |lines| ==> lines[j].ts == a.chan.ts && lines[j].nicks != [])
    && (forall j :: 1 <= j < |lines| ==> lines[j].modes == "0" && lines[j].params == [])
    && (lines != [] ==> lines[0] == Opening(a, lines[0].nicks))
    && line == (if lines == [] then Opening(a, line.nicks)
                else Line(a.chan.ts, "0", [], line.nicks))
  }

  lemma PrintOne(a: Rated, lines: seq<Line>, line: Line, count: nat)
    requires Printing(a, lines, line, count) && count < |a.chan.members|
    ensures var t := Token(BurstOrder(a.chan.members)[count]);
      Printing(a, lines, line.(nicks := line.nicks + [t]), count + 1)
  {
    hide RatedWord, RatedParams, Token, Flatten, BurstOrder;
    var order := BurstOrder(a.chan.members);
    TokensMore(order, count);
  }

  lemma TokensMore(order: seq<Member>, count: nat)
    requires count < |order|
    ensures Tokens(order[..count + 1]) == Tokens(order[..count]) + [Token(order[count])]
  {
    hide Token;
  }

  lemma CutLine(a: Rated, lines: seq<Line>, line: Line, count: nat)
    requires Printing(a, lines, line, count) && line.nicks != []
    ensures Printing(a, lines + [line], Line(a.chan.ts, "0", [], []), count)
  {
    hide RatedWord, RatedParams, Tokens, Flatten, BurstOrder;
    FlattenMore(lines, line);
    var more := lines + [line];
    assert forall j :: 0 <= j < |lines| ==> more[j] == lines[j];
    assert Flatten(more) + [] == Flatten(more);
  }

  // The loop's pointers after count members have been printed.
  ghost predicate Cursor(ms: seq<Member>, count: nat, anop: int, l: int, skip: int) {
    var first := FirstOp(ms);
    var op := if first < |ms| then first else -1;
    if count == 0 then l == -1 && skip == -1 && anop == op
    else count <= |ms| && anop == -1 && skip == op && l == PrintedAt(ms, first, count - 1)
  }

  // Choosing the next member: the operator first, then the list from its head without that operator.
  method Advance(ms: seq<Member>, anop: int, l: int, skip: int,
                 ghost count: nat) returns (anop': int, l': int, skip': int)
    requires Cursor(ms, count, anop, l, skip)
    ensures count >= |ms| ==> l' == -1
    ensures count < |ms| ==>
               Cursor(ms, count + 1, anop', l', skip') && 0 <= l' < |ms| && ms[l'] == BurstOrder(ms)[count]
  {
    anop', l', skip' := anop, l, skip;
    if count < |ms| { PrintedAtOrder(ms, count); }
    if anop' >= 0 {
      l', skip' := anop', anop';
      anop' := -1;
    } else {
      if l' == -1 || l' == skip' { l' := Next(ms, -1); } else { l' := Next(ms, l'); }
      if l' != -1 && l' == skip' { l' := Next(ms, l'); }
    }
  }

  // The buffer holds the header and the nicks of the line under construction, the texts are those of the lines sent.
  ghost predicate Buffers(me: string, name: string, a: Rated, lines: seq<Line>, texts: seq<string>, line: Line,
                          buf: string) {
    && buf == Header(me, name, line) + Spaced(line.nicks)
    && |texts| == |lines|
    && (forall j :: 0 <= j < |lines| ==> lines[j].nicks != [] && texts[j] == Wire(me, name, lines[j]))
    && (Bounded(me, name, a) ==> forall j :: 0 <= j < |texts| ==> |texts[j]| < BUFSIZE)
  }

  lemma BufferOne(me: string, name: string, a: Rated, lines: seq<Line>, texts: seq<string>, line: Line, buf: string,
                  m: Member)
    requires Buffers(me, name, a, lines, texts, line, buf)
    ensures var t := Token(m);
      && Buffers(me, name, a, lines, texts, line.(nicks := line.nicks + [t]), buf + t + " ")
      && |t| <= |m.nick| + 3
  {
    SpacedMore(line.nicks, Token(m));
    HeaderIgnoresNicks(me, name, line);
    HeaderIgnoresNicks(me, name, line.(nicks := line.nicks + [Token(m)]));
    TokenLength(m);
  }

  lemma BufferCut(me: string, name: string, a: Rated, lines: seq<Line>, texts: seq<string>, line: Line, buf: string,
                  next: Line)
    requires Buffers(me, name, a, lines, texts, line, buf) && line.nicks != [] && next.nicks == []
    requires Bounded(me, name, a) ==> |buf| < BUFSIZE
    ensures Buffers(me, name, a, lines + [line], texts + [buf], next, Header(me, name, next))
  {
  }

  /**
   * send_channel_modes: every member exactly once, an operator first if there is one, cut into lines by the
   * length of the buffer; with the sizes the server guarantees every line fits the buffer.
   */
  method SendChannelModes(me: string, name: string, a: Rated) returns (lines: seq<Line>, texts: seq<string>)
    ensures name == "" || name[0] != '#' || a.chan.members == [] ==> lines == []
    ensures name != "" && name[0] == '#' && a.chan.members != [] ==> IsRatedBurst(lines, a)
    ensures |texts| == |lines|
    ensures forall j :: 0 <= j < |lines| ==> lines[j].nicks != [] && texts[j] == Wire(me, name, lines[j])
    ensures Bounded(me, name, a) ==> forall j :: 0 <= j < |texts| ==> |texts[j]| < BUFSIZE
  {
    hide Token, RatedWord, RatedParams, Header, ParamText, BurstOrder, Cursor, FirstOp, Buffers, Printing, IsBurst;
    lines, texts := [], [];
    if name == "" || name[0] != '#' { return; }
    var ms := a.chan.members;
    var modebuf, parabuf := ChannelModes(a.chan.mode, a.rate);
    var line := Line(a.chan.ts, modebuf, parabuf, []);
    var buf := Header(me, name, line);
    var n := 0;
    var anop := FindOp(ms);
    var l, skip := -1, -1;
    ghost var count := 0;
    if Bounded(me, name, a) { HeaderFits(me, name, a); }
    StartPrinting(a, anop);
    StartBuffer(me, name, a, line);
    while true
      invariant count <= |ms| && Cursor(ms, count, anop, l, skip)
      invariant Printing(a, lines, line, count)
      invariant Buffers(me, name, a, lines, texts, line, buf)
      invariant n == |line.nicks|
      invariant Bounded(me, name, a) ==> |buf| <= BUFSIZE - 80
      decreases |ms| - count
    {
      anop, l, skip := Advance(ms, anop, l, skip, count);
      if l == -1 { break; }
      PrintOne(a, lines, line, count);
      BufferOne(me, name, a, lines, texts, line, buf, ms[l]);
      buf := buf + Token(ms[l]) + " ";
      line := line.(nicks := line.nicks + [Token(ms[l])]);
      n, count := n + 1, count + 1;
      if |buf| > BUFSIZE - 80 {
        var next := Line(a.chan.ts, "0", [], []);
        CutLine(a, lines, line, count);
        BufferCut(me, name, a, lines, texts, line, buf, next);
        lines, texts := lines + [line], texts + [buf];
        line, buf := next, Header(me, name, next);
        n := 0;
      }
    }
    if n > 0 {
      ghost var next := Line(a.chan.ts, "0", [], []);
      CutLine(a, lines, line, count);
      BufferCut(me, name, a, lines, texts, line, buf, next);
      lines, texts := lines + [line], texts + [buf];
      DonePrinting(me, name, a, lines, texts, next, Header(me, name, next));
    } else {
      DonePrinting(me, name, a, lines, texts, line, buf);
    }
  }

  lemma StartBuffer(me: string, name: string, a: Rated, line: Line)
    requires line.nicks == []
    ensures Buffers(me, name, a, [], [], line, Header(me, name, line))
  {
  }

  lemma StartPrinting(a: Rated, anop: int)
    requires anop == if FirstOp(a.chan.members) < |a.chan.members| then FirstOp(a.chan.members) else -1
    ensures Cursor(a.chan.members, 0, anop, -1, -1)
    ensures Printing(a, [], Opening(a, []), 0)
  {
    assert BurstOrder(a.chan.members)[..0] == [];
  }

  // Only the nicks of a line are flattened.
  lemma {:induction false} FlattenNicks(s: seq<Line>, t: seq<Line>)
    requires |s| == |t| && forall j :: 0 <= j < |s| ==> s[j].nicks == t[j].nicks
    ensures Flatten(s) == Flatten(t)
  {
    if s != [] { FlattenNicks(s[..|s| - 1], t[..|t| - 1]); }
  }

  lemma PrintedAll(a: Rated, lines: seq<Line>, line: Line)
    requires Printing(a, lines, line, |a.chan.members|) && line.nicks == []
    ensures Flatten(lines) == Tokens(BurstOrder(a.chan.members))
    ensures a.chan.members == [] <==> lines == []
  {
    hide RatedWord, RatedParams, Token, Opening;
    var order := BurstOrder(a.chan.members);
    assert order[..|order|] == order && Flatten(lines) + [] == Flatten(lines);
    assert |Tokens(order)| == |order|;
  }

  lemma BurstDone(a: Rated, lines: seq<Line>, line: Line)
    requires Printing(a, lines, line, |a.chan.members|) && line.nicks == []
    ensures if a.chan.members == [] then lines == [] else IsRatedBurst(lines, a)
  {
    hide RatedWord, RatedParams, ModeWord, ModeParams, Flatten, Tokens, BurstOrder;
    PrintedAll(a, lines, line);
    if lines != [] { FlattenNicks(Unlimited(lines, a.chan.mode), lines); }
  }

  lemma DonePrinting(me: string, name: string, a: Rated, lines: seq<Line>, texts: seq<string>, line: Line, buf: string)
    requires Printing(a, lines, line, |a.chan.members|) && line.nicks == []
    requires Buffers(me, name, a, lines, texts, line, buf)
    ensures if a.chan.members == [] then lines == [] else IsRatedBurst(lines, a)
    ensures |texts| == |lines|
    ensures forall j :: 0 <= j < |lines| ==> lines[j].nicks != [] && texts[j] == Wire(me, name, lines[j])
    ensures Bounded(me, name, a) ==> forall j :: 0 <= j < |texts| ==> |texts[j]| < BUFSIZE
  {
    hide Printing, IsRatedBurst, Wire, Bounded;
    BurstDone(a, lines, line);
  }

  // The first operator of the list, or -1.
  method FindOp(ms: seq<Member>) returns (anop: int)
    ensures anop == if FirstOp(ms) < |ms| then FirstOp(ms) else -1
  {
    anop := -1;
    var l := 0;
    while l < |ms|
      invariant 0 <= l <= |ms|
      invariant FirstOp(ms) == l + FirstOp(ms[l..])
    {
      if ms[l].flags.op { return l; }
      l := l + 1;
    }
  }
}
