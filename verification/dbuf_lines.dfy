/** Line framing on a plain byte sequence: what dbuf_getmsg promises, whatever the chunks. */
module DbufLines {
  type Bytes = seq<char>

  predicate IsEol(c: char) {
    c == '\r' || c == '\n'
  }

  // Leading line terminators dropped.
  function SkipEols(s: Bytes): (r: Bytes) {
    if s != [] && IsEol(s[0]) then SkipEols(s[1..]) else s
  }

  predicate NoEol(s: Bytes) {
    forall i :: 0 <= i < |s| ==> !IsEol(s[i])
  }

  // The length of the longest prefix without a terminator.
  function LineLength(s: Bytes): (n: nat)
    ensures n <= |s| && NoEol(s[..n])
    ensures n < |s| ==> IsEol(s[n])
  {
    if s == [] || IsEol(s[0]) then 0
    else
      var n := LineLength(s[1..]) + 1;
      assert s[1..n] == s[1..][..n - 1];
      n
  }

  lemma LineLengthIs(s: Bytes, n: nat)
    requires n <= |s| && NoEol(s[..n]) && (n < |s| ==> IsEol(s[n]))
    ensures LineLength(s) == n
  {
    var m := LineLength(s);
    assert forall i :: 0 <= i < n ==> s[..n][i] == s[i];
    assert forall i :: 0 <= i < m ==> s[..m][i] == s[i];
  }

  // What one call returns and what it leaves.
  datatype Extract = Extract(line: Bytes, rest: Bytes)

  /** The bytes up to a terminator among the first limit ones, without the terminators around them. */
  function GetMsg(s: Bytes, limit: nat): (x: Extract) {
    var t := SkipEols(s);
    var n := LineLength(t);
    if n < |t| && n < limit then Extract(t[..n], SkipEols(t[n..])) else Extract([], t)
  }

  // ---- dropping terminators

  lemma {:induction false} SkipEolsIs(s: Bytes)
    ensures |SkipEols(s)| <= |s| && s[|s| - |SkipEols(s)|..] == SkipEols(s)
    ensures SkipEols(s) != [] ==> !IsEol(SkipEols(s)[0])
    ensures forall i :: 0 <= i < |s| - |SkipEols(s)| ==> IsEol(s[i])
    ensures SkipEols(SkipEols(s)) == SkipEols(s)
  {
    if s != [] && IsEol(s[0]) {
      SkipEolsIs(s[1..]);
      var k := |s[1..]| - |SkipEols(s[1..])|;
      forall i | 0 <= i < k + 1 ensures IsEol(s[i]) { if i > 0 { assert s[i] == s[1..][i - 1]; } }
    }
  }

  lemma {:induction false} SkipEolsConcat(s: Bytes, u: Bytes)
    ensures SkipEols(s + u) == if SkipEols(s) == [] then SkipEols(u) else SkipEols(s) + u
    ensures SkipEols(s + u) == SkipEols(SkipEols(s) + u)
  {
    if s == [] {
      assert s + u == u;
    } else if IsEol(s[0]) {
      assert (s + u)[1..] == s[1..] + u;
      SkipEolsConcat(s[1..], u);
    } else {
      assert (s + u)[0] == s[0];
    }
  }

  lemma LineLengthConcat(t: Bytes, u: Bytes)
    requires LineLength(t) < |t|
    ensures LineLength(t + u) == LineLength(t)
  {
    var n := LineLength(t);
    assert (t + u)[..n] == t[..n];
    LineLengthIs(t + u, n);
  }

  /** A returned line is never empty, holds no terminator and is shorter than the limit. */
  lemma LineIsALine(s: Bytes, limit: nat)
    ensures var x := GetMsg(s, limit);
      && NoEol(x.line)
      && (x.line != [] ==> |x.line| < limit)
      && |x.rest| <= |s|
      && (x.line == [] ==> x.rest == SkipEols(s))
      && (x.line == [] <==> LineLength(SkipEols(s)) == |SkipEols(s)| || LineLength(SkipEols(s)) >= limit)
  {
    hide SkipEols, LineLength, NoEol, IsEol;
    NoEolInNone();
    SkipEolsIs(s);
    var t := SkipEols(s);
    SkipEolsIs(t[LineLength(t)..]);
    if t != [] {
      LineStarts(t);
    }
  }

  /** Before a line and behind it all terminators go, and nothing else: at least one behind it. */
  lemma LineInPlace(s: Bytes, limit: nat) returns (before: Bytes, behind: Bytes)
    ensures var x := GetMsg(s, limit);
      && (x.rest != [] ==> !IsEol(x.rest[0]))
      && (x.line == [] ==> s == before + x.rest && OnlyEols(before))
      && (x.line != [] ==>
            s == before + (x.line + (behind + x.rest)) && OnlyEols(before) && OnlyEols(behind) && behind != [])
  {
    hide SkipEols, LineLength, NoEol, IsEol, OnlyEols;
    SkipEolsIs(s);
    var t := SkipEols(s);
    var n := LineLength(t);
    SkipEolsIs(t[n..]);
    before := Skipped(s);
    behind := Skipped(t[n..]);
    if n < |t| && n < limit {
      EolEnds(t);
      SkipsOne(t[n..]);
      assert t == t[..n] + t[n..];
    }
  }

  ghost predicate OnlyEols(s: Bytes) {
    forall i :: 0 <= i < |s| ==> IsEol(s[i])
  }

  lemma Skipped(s: Bytes) returns (a: Bytes)
    ensures s == a + SkipEols(s) && OnlyEols(a)
  {
    SkipEolsIs(s);
    a := s[..|s| - |SkipEols(s)|];
  }

  lemma EolEnds(t: Bytes)
    ensures LineLength(t) < |t| ==> t[LineLength(t)..] != [] && IsEol(t[LineLength(t)..][0])
  {
  }

  lemma SkipsOne(s: Bytes)
    requires s != [] && IsEol(s[0])
    ensures SkipEols(s) != s
  {
    SkipEolsIs(s);
  }

  lemma NoEolInNone()
    ensures NoEol([])
  {
  }

  lemma LineStarts(t: Bytes)
    requires t != [] && !IsEol(t[0])
    ensures LineLength(t) > 0
  {
  }

  // ---- draining a stream

  datatype Drained = Drained(lines: seq<Bytes>, rest: Bytes)

  // Call after call until one returns nothing.
  function Drain(s: Bytes, limit: nat): (d: Drained)
    decreases |s|
  {
    var x := GetMsg(s, limit);
    LineIsALine(s, limit);
    if x.line == [] then Drained([], x.rest)
    else
      GetMsgShrinks(s, limit);
      var d := Drain(x.rest, limit);
      Drained([x.line] + d.lines, d.rest)
  }

  lemma GetMsgShrinks(s: Bytes, limit: nat)
    requires GetMsg(s, limit).line != []
    ensures |GetMsg(s, limit).rest| < |s|
  {
    hide GetMsg, SkipEols, LineLength, NoEol;
    LineIsALine(s, limit);
    RestIsShorter(s, limit);
  }

  lemma RestIsShorter(s: Bytes, limit: nat)
    requires GetMsg(s, limit).line != []
    ensures |GetMsg(s, limit).rest| < |s|
  {
    hide SkipEols, LineLength;
    SkipEolsIs(s);
    var t := SkipEols(s);
    SkipEolsIs(t[LineLength(t)..]);
  }

  lemma GetMsgExtends(s: Bytes, u: Bytes, limit: nat)
    requires GetMsg(s, limit).line != []
    ensures GetMsg(s + u, limit).line == GetMsg(s, limit).line
    ensures SkipEols(GetMsg(s + u, limit).rest) == SkipEols(GetMsg(s, limit).rest + u)
  {
    hide SkipEols, LineLength, NoEol, IsEol;
    var t := SkipEols(s);
    var n := LineLength(t);
    SkipEolsConcat(s, u);
    LineLengthConcat(t, u);
    assert (t + u)[..n] == t[..n] && (t + u)[n..] == t[n..] + u;
    SkipEolsConcat(t[n..], u);
    SkipEolsIs(t[n..] + u);
  }

  lemma GetMsgSkips(s: Bytes, limit: nat)
    ensures GetMsg(SkipEols(s), limit) == GetMsg(s, limit)
    ensures Drain(SkipEols(s), limit) == Drain(s, limit)
  {
    SkipEolsIs(s);
  }

  lemma SameSkipped(s: Bytes, t: Bytes, limit: nat)
    requires SkipEols(s) == SkipEols(t)
    ensures Drain(s, limit) == Drain(t, limit)
  {
    GetMsgSkips(s, limit);
    GetMsgSkips(t, limit);
  }

  /**
   * The lines drawn from a stream, and what is left, do not depend on when the bytes arrive: drawing all the
   * lines of a first part, appending the rest and going on gives the lines of the whole.
   */
  lemma {:induction false} ArrivalDoesNotMatter(s: Bytes, u: Bytes, limit: nat)
    ensures var d := Drain(s, limit);
      var e := Drain(d.rest + u, limit);
      Drain(s + u, limit) == Drained(d.lines + e.lines, e.rest)
    decreases |s|
  {
    hide GetMsg, SkipEols, LineLength, NoEol, IsEol;
    var x := GetMsg(s, limit);
    LineIsALine(s, limit);
    if x.line == [] {
      SkipEolsConcat(s, u);
      SameSkipped(s + u, SkipEols(s) + u, limit);
      assert Drain(s, limit) == Drained([], x.rest);
      var e := Drain(x.rest + u, limit);
      assert [] + e.lines == e.lines;
    } else {
      GetMsgShrinks(s, limit);
      GetMsgExtends(s, u, limit);
      ArrivalDoesNotMatter(x.rest, u, limit);
      var y := GetMsg(s + u, limit);
      SameSkipped(y.rest, x.rest + u, limit);
      var d := Drain(x.rest, limit);
      var e := Drain(d.rest + u, limit);
      assert Drain(s, limit) == Drained([x.line] + d.lines, d.rest);
      assert Drain(s + u, limit) == Drained([y.line] + Drain(y.rest, limit).lines, Drain(y.rest, limit).rest);
      assert [x.line] + d.lines + e.lines == [x.line] + (d.lines + e.lines);
    }
  }

  // ---- lines written, lines read

  // Each line followed by its terminator.
  function Joined(lines: seq<Bytes>, eol: Bytes): (s: Bytes) {
    if lines == [] then [] else lines[0] + eol + Joined(lines[1..], eol)
  }

  // The lines of which something can be read.
  function NonEmpty(lines: seq<Bytes>): (r: seq<Bytes>) {
    if lines == [] then [] else (if lines[0] == [] then [] else [lines[0]]) + NonEmpty(lines[1..])
  }

  ghost predicate Terminator(eol: Bytes) {
    eol != [] && forall i :: 0 <= i < |eol| ==> IsEol(eol[i])
  }

  lemma {:induction false} SkipsTerminator(eol: Bytes, s: Bytes)
    requires forall i :: 0 <= i < |eol| ==> IsEol(eol[i])
    ensures SkipEols(eol + s) == SkipEols(s)
  {
    if eol == [] {
      assert eol + s == s;
    } else {
      assert (eol + s)[1..] == eol[1..] + s;
      SkipsTerminator(eol[1..], s);
    }
  }

  lemma ReadsFirstLine(line: Bytes, eol: Bytes, s: Bytes, limit: nat)
    requires Terminator(eol) && NoEol(line) && line != [] && |line| < limit
    ensures GetMsg(line + eol + s, limit) == Extract(line, SkipEols(s))
  {
    var t := line + eol + s;
    assert !IsEol(t[0]);
    assert t[..|line|] == line && t[|line|] == eol[0];
    LineLengthIs(t, |line|);
    assert t[|line|..] == eol + s;
    SkipsTerminator(eol, s);
  }

  /** Lines shorter than the limit, written with any terminator, are read back one by one, the empty ones dropped. */
  lemma {:induction false} LinesReadBack(lines: seq<Bytes>, eol: Bytes, limit: nat)
    requires Terminator(eol)
    requires forall i :: 0 <= i < |lines| ==> NoEol(lines[i]) && |lines[i]| < limit
    ensures Drain(Joined(lines, eol), limit) == Drained(NonEmpty(lines), [])
  {
    if lines != [] {
      var line, more := lines[0], Joined(lines[1..], eol);
      LinesReadBack(lines[1..], eol, limit);
      if line == [] {
        assert [] + eol + more == eol + more;
        SkipsTerminator(eol, more);
        SameSkipped(eol + more, more, limit);
      } else {
        ReadsFirstLine(line, eol, more, limit);
        GetMsgSkips(more, limit);
      }
    }
  }
}
