/** Printing a channel as NJOIN lines (channel_modes, send_channel_modes), and reading those lines back. */
module ChannelPrint {
  import opened Text
  import opened ChannelModel
  import opened ChannelView

  // ---- the mode word and its parameters

  // One step of the mode-word loop.
  lemma ParseStep(c: char, rest: string, params: seq<string>, mode: Mode, args: nat)
    ensures IsLetter(c) ==>
      ParseModes([c] + rest, params, mode, args) == ParseModes(rest, params, mode.(letters := mode.letters + {c}), args)
    ensures c == '+' ==> ParseModes([c] + rest, params, mode, args) == ParseModes(rest, params, mode, args)
    ensures c == 'l' && args < |params| ==>
      ParseModes([c] + rest, params, mode, args) == ParseModes(rest, params, mode.(limit := Atoi(params[args])),
        args + 1)
    ensures c == 'k' && args < |params| ==>
      ParseModes([c] + rest, params, mode, args) == ParseModes(rest, params, mode.(key := Truncate(params[args])),
        args + 1)
  {
    var word := [c] + rest;
    assert word[0] == c && word[1..] == rest;
  }

  function Among(order: string, letters: set<char>): set<char> {
    set c | c in order && c in letters
  }

  lemma AmongStep(order: string, letters: set<char>)
    requires order != []
    ensures Among(order, letters) == (if order[0] in letters then {order[0]} else {}) + Among(order[1..], letters)
  {
    assert order == [order[0]] + order[1..];
  }

  lemma {:induction false} ReadsPrintedLetters(order: string, letters: set<char>, rest: string, params: seq<string>,
                                               mode: Mode, args: nat)
    requires forall i :: 0 <= i < |order| ==> IsLetter(order[i])
    ensures ParseModes(PrintLetters(order, letters) + rest, params, mode, args)
         == ParseModes(rest, params, mode.(letters := mode.letters + Among(order, letters)), args)
  {
    hide ParseModes, IsLetter;
    if order == [] {
      assert PrintLetters(order, letters) + rest == rest;
      assert mode.letters + Among(order, letters) == mode.letters;
    } else {
      var tail := PrintLetters(order[1..], letters) + rest;
      AmongStep(order, letters);
      if order[0] in letters {
        assert PrintLetters(order, letters) + rest == [order[0]] + tail;
        ParseStep(order[0], tail, params, mode, args);
        var mode' := mode.(letters := mode.letters + {order[0]});
        ReadsPrintedLetters(order[1..], letters, rest, params, mode', args);
        assert mode'.letters + Among(order[1..], letters) == mode.letters + Among(order, letters);
      } else {
        assert PrintLetters(order, letters) + rest == tail;
        ReadsPrintedLetters(order[1..], letters, rest, params, mode, args);
        assert Among(order, letters) == Among(order[1..], letters);
      }
    }
  }

  // The key and everything behind it.
  lemma ReadsPrintedKey(m: Mode, params: seq<string>, mode: Mode, args: nat)
    requires |m.key| <= KEYLEN
    requires m.key != [] ==> args < |params| && params[args] == m.key
    requires m.key == [] ==> mode.key == []
    ensures ParseModes((if m.key != [] then "k" else "") + PrintLetters(LETTERS_AFTER, m.letters), params, mode, args)
         == Some((mode.(key := m.key, letters := mode.letters + Among(LETTERS_AFTER, m.letters)),
                  if m.key != [] then args + 1 else args))
  {
    var after := PrintLetters(LETTERS_AFTER, m.letters);
    assert after + [] == after && [] + after == after;
    if m.key != [] {
      ParseStep('k', after, params, mode, args);
      ReadsPrintedLetters(LETTERS_AFTER, m.letters, [], params, mode.(key := m.key), args + 1);
    } else {
      ReadsPrintedLetters(LETTERS_AFTER, m.letters, [], params, mode, args);
    }
  }

  /** What channel_modes prints, m_sjoin reads back: letters, limit and key, and every parameter is used. */
  lemma ReadsPrintedModes(m: Mode)
    requires PrintableMode(m)
    ensures ParseModes(ModeWord(m), ModeParams(m), NO_MODE, 0) == Some((m, |ModeParams(m)|))
  {
    hide ParseModes, PrintLetters;
    var params := ModeParams(m);
    var k := (if m.key != [] then "k" else "") + PrintLetters(LETTERS_AFTER, m.letters);
    var lk := (if m.limit != 0 then "l" else "") + k;
    var before := PrintLetters(LETTERS_BEFORE, m.letters);
    assert ModeWord(m) == ['+'] + (before + lk);
    ParseStep('+', before + lk, params, NO_MODE, 0);
    ReadsPrintedLetters(LETTERS_BEFORE, m.letters, lk, params, NO_MODE, 0);
    var m1 := NO_MODE.(letters := {} + Among(LETTERS_BEFORE, m.letters));
    AtoiUndoesPrint(m.limit);
    var args := if m.limit != 0 then 1 else 0;
    if m.limit != 0 {
      assert params[0] == SignedDecimal(m.limit);
      ParseStep('l', k, params, m1, 0);
    } else {
      assert lk == k;
    }
    ReadsPrintedKey(m, params, m1.(limit := m.limit), args);
    assert {} + Among(LETTERS_BEFORE, m.letters) + Among(LETTERS_AFTER, m.letters) == m.letters;
  }

  // ---- members

  function Token(m: Member): string {
    (if m.flags.adm then "." else "") + (if m.flags.op then "@" else "") + (if m.flags.voice then "+" else "") + m.nick
  }

  function Tokens(ms: seq<Member>): seq<string> {
    seq(|ms|, i requires 0 <= i < |ms| => Token(ms[i]))
  }

  // One step of the prefix loop.
  lemma PrefixStep(on: bool, c: char, rest: string, flags: Flags)
    requires IsPrefix(c)
    ensures var f := if !on then flags
                     else if c == '.' then flags.(adm := true)
                     else if c == '@' then flags.(op := true)
                     else flags.(voice := true);
            ReadToken((if on then [c] else []) + rest, flags) == ReadToken(rest, f)
  {
    if on {
      var t := [c] + rest;
      assert t[0] == c && t[1..] == rest;
    } else {
      assert [] + rest == rest;
    }
  }

  lemma ReadsPrintedToken(m: Member)
    requires ValidNick(m.nick)
    ensures ReadToken(Token(m), NO_FLAGS) == Member(m.nick, m.flags.(deopped := false))
    ensures DoesOp([Token(m)]) == m.flags.op
  {
    var v := (if m.flags.voice then "+" else "") + m.nick;
    var ov := (if m.flags.op then "@" else "") + v;
    var f1 := NO_FLAGS.(adm := m.flags.adm);
    var f2 := f1.(op := m.flags.op);
    assert Token(m) == (if m.flags.adm then "." else "") + ov;
    PrefixStep(m.flags.adm, '.', ov, NO_FLAGS);
    PrefixStep(m.flags.op, '@', v, f1);
    PrefixStep(m.flags.voice, '+', m.nick, f2);
  }

  lemma {:induction false} ReadsPrintedMembers(ms: seq<Member>)
    requires forall i :: 0 <= i < |ms| ==> ValidNick(ms[i].nick)
    ensures TokenGrants(Tokens(ms)) == StatusMap(ms)
  {
    if ms != [] {
      ReadsPrintedToken(ms[0]);
      ReadsPrintedMembers(ms[1..]);
      assert Tokens(ms)[1..] == Tokens(ms[1..]);
    }
  }

  lemma {:induction false} TokenGrantsConcat(s: seq<string>, t: seq<string>)
    ensures TokenGrants(s + t) == TokenGrants(t) + TokenGrants(s)
  {
    if s == [] {
      assert s + t == t;
    } else {
      TokenGrantsConcat(s[1..], t);
      assert (s + t)[1..] == s[1..] + t;
    }
  }

  lemma SameMembersSameStatus(a: seq<Member>, b: seq<Member>)
    requires Distinct(a) && Distinct(b)
    requires forall m :: m in a <==> m in b
    ensures StatusMap(a) == StatusMap(b)
  {
    StatusWithin(a, b);
    StatusWithin(b, a);
  }

  lemma StatusWithin(a: seq<Member>, b: seq<Member>)
    requires Distinct(a) && Distinct(b)
    requires forall m :: m in a ==> m in b
    ensures forall n :: n in StatusMap(a) ==> n in StatusMap(b) && StatusMap(a)[n] == StatusMap(b)[n]
  {
    StatusMapKeys(a);
    forall n | n in StatusMap(a) ensures n in StatusMap(b) && StatusMap(a)[n] == StatusMap(b)[n] {
      var i :| 0 <= i < |a| && a[i].nick == n;
      assert a[i] in b;
      var j :| 0 <= j < |b| && b[j] == a[i];
      StatusMapAt(a, i);
      StatusMapAt(b, j);
    }
  }

  // ---- bursts

  // The first operator of the list, or its length when there is none.
  function FirstOp(ms: seq<Member>): (i: nat)
    ensures i <= |ms|
    ensures i < |ms| ==> ms[i].flags.op
    ensures forall j :: 0 <= j < i ==> !ms[j].flags.op
  {
    if ms == [] || ms[0].flags.op then 0 else 1 + FirstOp(ms[1..])
  }

  // The order send_channel_modes prints members in: one operator first, if there is one.
  function BurstOrder(ms: seq<Member>): seq<Member> {
    var i := FirstOp(ms);
    if i == |ms| then ms else [ms[i]] + ms[..i] + ms[i + 1..]
  }

  // Where the member printed k-th stands on the list, the i-th having been moved to the front.
  function Source(i: nat, k: nat): nat {
    if k == 0 then i else if k <= i then k - 1 else k
  }

  lemma FrontAt(ms: seq<Member>, i: nat, k: nat)
    requires i < |ms| && k < |ms|
    ensures ([ms[i]] + ms[..i] + ms[i + 1..])[k] == ms[Source(i, k)] && Source(i, k) < |ms|
  {
  }

  lemma FrontDistinct(ms: seq<Member>, i: nat)
    requires Distinct(ms) && i < |ms|
    ensures Distinct([ms[i]] + ms[..i] + ms[i + 1..])
  {
    var r := [ms[i]] + ms[..i] + ms[i + 1..];
    forall j, k | 0 <= j < k < |r| ensures r[j].nick != r[k].nick {
      FrontAt(ms, i, j);
      FrontAt(ms, i, k);
    }
  }

  lemma FrontCounts(ms: seq<Member>, i: nat)
    requires i < |ms|
    ensures multiset([ms[i]] + ms[..i] + ms[i + 1..]) == multiset(ms)
  {
    assert ms == ms[..i] + [ms[i]] + ms[i + 1..];
  }

  lemma BurstOrderIsMembers(ms: seq<Member>)
    requires Distinct(ms)
    ensures |BurstOrder(ms)| == |ms| && Distinct(BurstOrder(ms))
    ensures multiset(BurstOrder(ms)) == multiset(ms)
    ensures ms != [] ==> (BurstOrder(ms)[0].flags.op <==> HasOps(ms))
  {
    hide Distinct;
    var i := FirstOp(ms);
    if i < |ms| {
      FrontDistinct(ms, i);
      FrontCounts(ms, i);
    }
  }

  function Flatten(lines: seq<Line>): seq<string> {
    if lines == [] then [] else Flatten(lines[..|lines| - 1]) + lines[|lines| - 1].nicks
  }

  /** The lines are c's burst, cut anywhere: modes on the first line, members in burst order over all of them. */
  ghost predicate IsBurst(lines: seq<Line>, c: Chan) {
    && lines != []
    && Flatten(lines) == Tokens(BurstOrder(c.members))
    && lines[0].modes == ModeWord(c.mode) && lines[0].params == ModeParams(c.mode)
    && (forall i :: 0 <= i < |lines| ==> lines[i].ts == c.ts && lines[i].nicks != [])
    && (forall i :: 1 <= i < |lines| ==> lines[i].modes == "0" && lines[i].params == [])
  }
}
