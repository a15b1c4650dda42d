/** Domain names in messages: labels, compression pointers, and the walk of adns__findlabel_next over them. */
module DnsWire {
  import opened Text
  import opened DnsText

  const S_INVALIDRESPONSE := 33
  const S_UNKNOWNFORMAT := 34
  const S_ANSWERDOMAINTOOLONG := 103

  // ---- what a name in a message is

  // The target of a pointer (RFC 1035 section 4.1.4).
  function Target(d: Bytes, pos: nat): (t: nat)
    requires pos + 1 < |d| && d[pos] >= 192
  {
    var high: int, low: int := d[pos], d[pos + 1];
    high % 64 * 256 + low
  }

  // The labels found at a position, in so many steps; a pointer is one step, wherever it leads.
  function Name(d: Bytes, pos: nat, steps: nat): (r: Option<seq<Bytes>>)
    decreases steps
  {
    if steps == 0 || pos >= |d| then None
    else
      var len := d[pos];
      if len == 0 then Some([])
      else if len < 64 then
        if pos + 1 + len > |d| then None
        else
          match Name(d, pos + 1 + len, steps - 1)
          case None => None
          case Some(more) => Some([d[pos + 1..pos + 1 + len]] + more)
      else if len >= 192 && pos + 1 < |d| then Name(d, Target(d, pos), steps - 1)
      else None
  }

  // At a position there is a name with these labels.
  ghost predicate HasName(d: Bytes, pos: nat, labels: seq<Bytes>) {
    exists steps :: Name(d, pos, steps) == Some(labels)
  }

  /** A byte from 192 on and the byte behind it point to the place whose number is the rest of the bits of both. */
  lemma PointerLeads(d: Bytes, pos: nat, steps: nat)
    requires pos + 1 < |d| && d[pos] >= 192
    ensures var high: int, low: int := d[pos], d[pos + 1];
      Name(d, pos, steps + 1) == Name(d, 256 * (high - 192) + low, steps)
  {
    hide Name;
    PointerStep(d, pos, steps);
  }

  lemma PointerStep(d: Bytes, pos: nat, steps: nat)
    requires pos + 1 < |d| && d[pos] >= 192
    ensures Name(d, pos, steps + 1) == Name(d, Target(d, pos), steps)
  {
  }

  lemma {:induction false} MoreSteps(d: Bytes, pos: nat, a: nat, b: nat)
    requires Name(d, pos, a).Some? && a <= b
    ensures Name(d, pos, b) == Name(d, pos, a)
    decreases a
  {
    var len := d[pos];
    if 0 < len < 64 {
      MoreSteps(d, pos + 1 + len, a - 1, b - 1);
    } else if len >= 192 {
      MoreSteps(d, Target(d, pos), a - 1, b - 1);
    }
  }

  /** A position has one name at most. */
  lemma OneName(d: Bytes, pos: nat, x: seq<Bytes>, y: seq<Bytes>)
    requires HasName(d, pos, x) && HasName(d, pos, y)
    ensures x == y
  {
    var a :| Name(d, pos, a) == Some(x);
    var b :| Name(d, pos, b) == Some(y);
    if a <= b { MoreSteps(d, pos, a, b); } else { MoreSteps(d, pos, b, a); }
  }

  lemma {:induction false} NamesAreShort(d: Bytes, pos: nat, steps: nat)
    requires Name(d, pos, steps).Some?
    ensures forall l :: l in Name(d, pos, steps).value ==> 1 <= |l| < 64
    decreases steps
  {
    var len := d[pos];
    if 0 < len < 64 {
      NamesAreShort(d, pos + 1 + len, steps - 1);
    } else if len >= 192 {
      NamesAreShort(d, Target(d, pos), steps - 1);
    }
  }

  lemma Slice(d: Bytes, a: nat, n: nat, i: nat, j: nat)
    requires i <= j <= n && a + n <= |d|
    ensures d[a..a + n][i..j] == d[a + i..a + j]
  {
    var x, y := d[a..a + n][i..j], d[a + i..a + j];
    assert |x| == |y|;
    forall k | 0 <= k < |x| ensures x[k] == y[k] {
      assert x[k] == d[a..a + n][i + k] == d[a + (i + k)];
    }
  }

  lemma WrittenParts(l: Bytes, rest: Bytes)
    requires |l| < 256
    ensures var w := [|l|] + l + rest; w[0..1] == [|l|] && w[1..1 + |l|] == l && w[1 + |l|..|w|] == rest
  {
  }

  // The parts of a written name, where it is in a message.
  lemma WireParts(d: Bytes, pos: nat, l: Bytes, rest: Bytes)
    requires |l| < 256 && pos + |[|l|] + l + rest| <= |d| && d[pos..pos + |[|l|] + l + rest|] == [|l|] + l + rest
    ensures pos + 1 + |l| + |rest| <= |d| && d[pos] == |l| && d[pos + 1..pos + 1 + |l|] == l
    ensures d[pos + 1 + |l|..pos + 1 + |l| + |rest|] == rest
  {
    var w := [|l|] + l + rest;
    assert |w| == 1 + |l| + |rest|;
    Slice(d, pos, |w|, 0, 1);
    Slice(d, pos, |w|, 1, 1 + |l|);
    Slice(d, pos, |w|, 1 + |l|, |w|);
    WrittenParts(l, rest);
    assert d[pos] == d[pos..pos + 1][0];
  }

  lemma NameStep(d: Bytes, pos: nat, l: Bytes, more: seq<Bytes>, steps: nat)
    requires 1 <= |l| < 64 && pos + 1 + |l| <= |d| && d[pos] == |l| && d[pos + 1..pos + 1 + |l|] == l
    requires Name(d, pos + 1 + |l|, steps) == Some(more)
    ensures Name(d, pos, steps + 1) == Some([l] + more)
  {
  }

  lemma RootName(d: Bytes, pos: nat)
    requires pos < |d| && d[pos] == 0
    ensures Name(d, pos, 1) == Some([])
  {
  }

  /** A name as it is written, anywhere in a message, is that name. */
  lemma {:induction false} WireIsName(d: Bytes, pos: nat, labels: seq<Bytes>)
    requires forall l :: l in labels ==> 1 <= |l| < 64
    requires pos + |Wire(labels)| <= |d| && d[pos..pos + |Wire(labels)|] == Wire(labels)
    ensures Name(d, pos, |labels| + 1) == Some(labels)
    decreases |labels|
  {
    hide Name;
    var n := |labels| + 1;
    if labels == [] {
      assert d[pos..pos + 1][0] == 0;
      RootName(d, pos);
      assert n == 1;
    } else {
      var l, more := labels[0], labels[1..];
      WireParts(d, pos, l, Wire(more));
      WireIsName(d, pos + 1 + |l|, more);
      NameStep(d, pos, l, more, |more| + 1);
      assert [l] + more == labels;
      assert |more| + 1 + 1 == n;
    }
  }

  // ---- the walk

  // findlabel_state: where it is, how far it may go, the length so far, and where the name in place ends once known
  datatype Cursor = Cursor(cbyte: nat, max: nat, namelen: nat, open: bool, dmend: nat)

  datatype Found = Piece(start: nat, len: nat, next: Cursor) | End(next: Cursor) | Truncated | Wrong(status: int)

  // The pointers from a position come to an end.
  ghost predicate Chain(d: Bytes, pos: nat, hops: nat)
    decreases hops
  {
    hops > 0 && (pos + 1 >= |d| || d[pos] < 192 || Chain(d, Target(d, pos), hops - 1))
  }

  function Jumped(d: Bytes, c: Cursor): Cursor
    requires c.cbyte + 1 < |d| && d[c.cbyte] >= 192
  {
    Cursor(Target(d, c.cbyte), |d| + 1, c.namelen, false, if c.open then c.cbyte + 2 else c.dmend)
  }

  function Longer(namelen: nat, len: nat): nat {
    if namelen > 0 then namelen + 1 + len else len
  }

  // What a length byte that is no pointer stands for.
  function Landed(d: Bytes, c: Cursor): Found
    requires c.cbyte < |d|
  {
    var len, start := d[c.cbyte], c.cbyte + 1;
    if len >= 64 then Wrong(S_UNKNOWNFORMAT)
    else if len == 0 then End(c.(cbyte := start, dmend := if c.open then start else c.dmend))
    else if Longer(c.namelen, len) > DNS_MAXDOMAIN then Wrong(S_ANSWERDOMAINTOOLONG)
    else if start + len > |d| then Truncated
    else if start + len > c.max then Wrong(S_INVALIDRESPONSE)
    else Piece(start, len, c.(cbyte := start + len, namelen := Longer(c.namelen, len)))
  }

  // adns__findlabel_next
  function Next(d: Bytes, c: Cursor, ghost hops: nat): (found: Found)
    requires Chain(d, c.cbyte, hops)
    ensures found.Piece? ==> 0 < found.len < 64 && found.start + found.len <= |d|
    ensures found.Piece? ==> found.next.namelen == Longer(c.namelen, found.len) <= DNS_MAXDOMAIN
    decreases hops
  {
    if c.cbyte >= |d| then Truncated
    else if c.cbyte >= c.max then Wrong(S_INVALIDRESPONSE)
    else
      var len := d[c.cbyte];
      if len >= 192 then
        if c.cbyte + 1 >= |d| then Truncated
        else if c.cbyte + 1 >= c.max then Wrong(S_INVALIDRESPONSE)
        else Next(d, Jumped(d, c), hops - 1)
      else Landed(d, c)
  }

  // struct findlabel_state
  class FindLabel {
    const dgram: Bytes
    var cbyte: nat
    var max: nat
    var namelen: nat
    var open: bool
    var dmend: nat

    ghost function C(): Cursor
      reads this
    {
      Cursor(cbyte, max, namelen, open, dmend)
    }

    // adns__findlabel_start
    constructor (dgram: Bytes, max: nat, dmbegin: nat, wantEnd: bool)
      ensures this.dgram == dgram && C() == Cursor(dmbegin, max, 0, wantEnd, dmbegin)
    {
      this.dgram := dgram;
      cbyte, this.max, namelen, open, dmend := dmbegin, max, 0, wantEnd, dmbegin;
    }

    // What the procedure reports of a step.
    ghost predicate Reports(found: Found, status: int, lablen: int, labstart: nat)
      reads this
    {
      match found
      case Piece(start, len, next) => status == 0 && lablen == len && labstart == start && C() == next
      case End(next) => status == 0 && lablen == 0 && C() == next
      case Truncated => status == 0 && lablen == -1
      case Wrong(st) => status == st
    }

    /**
     * adns__findlabel_next: the status, the length (-1 if the message is cut short) and the start of the next
     * label. A pointer ends the name in place, two bytes on, and from there the whole message may be read.
     */
    method FindNext(ghost hops: nat) returns (status: int, lablen: int, labstart: nat)
      requires Chain(dgram, cbyte, hops)
      modifies this
      ensures Reports(Next(dgram, old(C()), hops), status, lablen, labstart)
      ensures var at := old(cbyte);
        at + 1 < |dgram| && at + 1 < old(max) && dgram[at] >= 192 ==>
          status != S_INVALIDRESPONSE && !open && dmend == if old(open) then at + 2 else old(dmend)
    {
      hide Target, Landed;
      status, lablen, labstart := 0, -1, 0;
      ghost var left := hops;
      while true
        invariant Chain(dgram, cbyte, left) && Next(dgram, C(), left) == Next(dgram, old(C()), hops)
        invariant || C() == old(C())
                  || (max == |dgram| + 1 && !open && dmend == if old(open) then old(cbyte) + 2 else old(dmend))
        decreases left
      {
        if cbyte >= |dgram| { return; }
        if cbyte >= max { return S_INVALIDRESPONSE, -1, 0; }
        if dgram[cbyte] < 192 { break; }
        if cbyte + 1 >= |dgram| { return; }
        if cbyte + 1 >= max { return S_INVALIDRESPONSE, -1, 0; }
        var jumpto := Target(dgram, cbyte);
        if open { dmend := cbyte + 2; }
        cbyte, open, max := jumpto, false, |dgram| + 1;
        left := left - 1;
      }
      status, lablen, labstart := Land();
    }

    // What a byte that is no pointer leads to: a label of 1 to 63 bytes that is all there, with the name's length
    // counted, dots between labels included; the end of the name; or what is wrong, in the order of the tests.
    method Land() returns (status: int, lablen: int, labstart: nat)
      requires cbyte < |dgram|
      modifies this
      ensures Reports(Landed(dgram, old(C())), status, lablen, labstart)
      ensures open == old(open) && (!open ==> dmend == old(dmend))
      ensures var len, start := dgram[old(cbyte)], old(cbyte) + 1;
              var longer := if old(namelen) > 0 then old(namelen) + 1 + len else len;
              if len >= 64 then status == S_UNKNOWNFORMAT
              else if len == 0 then
                status == 0 && lablen == 0 && cbyte == start && dmend == if old(open) then start else old(dmend)
              else if longer > 255 then status == S_ANSWERDOMAINTOOLONG
              else if start + len > |dgram| then status == 0 && lablen == -1
              else if start + len > old(max) then status == S_INVALIDRESPONSE
              else status == 0 && lablen == len && labstart == start && cbyte == start + len && namelen == longer
    {
      status, lablen, labstart := 0, -1, 0;
      var len := dgram[cbyte];
      if len >= 64 { return S_UNKNOWNFORMAT, -1, 0; }
      cbyte := cbyte + 1;
      labstart := cbyte;
      if len != 0 {
        if namelen > 0 { namelen := namelen + 1; }
        namelen := namelen + len;
        if namelen > DNS_MAXDOMAIN { return S_ANSWERDOMAINTOOLONG, -1, 0; }
        cbyte := cbyte + len;
        if cbyte > |dgram| { return; }
        if cbyte > max { return S_INVALIDRESPONSE, -1, 0; }
      } else if open {
        dmend := cbyte;
      }
      lablen := len;
    }
  }
}
