/** Whole names in messages: re-encoding, printing and comparing them, wherever their pointers lead. */
module DnsNames {
  import opened Text
  import opened DnsText
  import opened DnsQuery
  import opened DnsWire

  // The name is not too long, counting a dot between labels.
  ghost predicate Fits(namelen: nat, labels: seq<Bytes>)
    decreases |labels|
  {
    labels == [] || (Longer(namelen, |labels[0]|) <= DNS_MAXDOMAIN && Fits(Longer(namelen, |labels[0]|), labels[1..]))
  }

  /** That is, its labels and the dots between them take at most 255 bytes. */
  lemma {:induction false} FitsIs(namelen: nat, labels: seq<Bytes>)
    requires forall i :: 0 <= i < |labels| ==> |labels[i]| > 0
    ensures Fits(namelen, labels)
      <==> labels == [] || (if namelen > 0 then namelen + Size(labels) else Size(labels) - 1) <= 255
    decreases |labels|
  {
    if labels != [] {
      assert forall i :: 0 <= i < |labels| - 1 ==> labels[1..][i] == labels[i + 1];
      FitsIs(Longer(namelen, |labels[0]|), labels[1..]);
    }
  }

  // Where the bytes of the name in place end: behind its zero or its first pointer.
  function PlaceEnd(d: Bytes, pos: nat, steps: nat): (e: nat)
    decreases steps
  {
    if steps == 0 || pos >= |d| then pos
    else if d[pos] == 0 then pos + 1
    else if d[pos] < 64 then PlaceEnd(d, pos + 1 + d[pos], steps - 1)
    else pos + 2
  }

  // The walk stands before these labels, and will find the end of the name in place at e.
  ghost predicate Before(d: Bytes, c: Cursor, labels: seq<Bytes>, steps: nat, e: nat) {
    && Name(d, c.cbyte, steps) == Some(labels) && Fits(c.namelen, labels) && |d| <= c.max
    && (if c.open then PlaceEnd(d, c.cbyte, steps) == e else c.dmend == e)
  }

  lemma {:induction false} ChainEnds(d: Bytes, pos: nat, steps: nat)
    requires Name(d, pos, steps).Some?
    ensures Chain(d, pos, steps)
    decreases steps
  {
    if d[pos] >= 192 { ChainEnds(d, Target(d, pos), steps - 1); }
  }

  // What a step has found: the first of the labels, with fewer steps to go for the others; or the end.
  ghost predicate FindsFirst(d: Bytes, found: Found, labels: seq<Bytes>, steps: nat, e: nat) {
    match found
    case Piece(start, len, next) =>
      && labels != [] && start + len <= |d| && len > 0 && d[start..start + len] == labels[0]
      && exists fewer: nat :: fewer < steps && Before(d, next, labels[1..], fewer, e)
    case End(next) => labels == [] && next.dmend == e
    case _ => false
  }

  lemma MoreToGo(d: Bytes, found: Found, labels: seq<Bytes>, a: nat, b: nat, e: nat)
    requires FindsFirst(d, found, labels, a, e) && a <= b
    ensures FindsFirst(d, found, labels, b, e)
  {
    hide Before;
    match found
    case Piece(start, len, next) =>
      var fewer: nat :| fewer < a && Before(d, next, labels[1..], fewer, e);
      assert fewer < b;
    case _ =>
  }

  lemma JumpedBefore(d: Bytes, c: Cursor, labels: seq<Bytes>, steps: nat, e: nat)
    requires Before(d, c, labels, steps, e) && c.cbyte < |d| && d[c.cbyte] >= 192
    ensures c.cbyte + 1 < |d| && c.cbyte + 1 < c.max && steps > 0 && Before(d, Jumped(d, c), labels, steps - 1, e)
  {
  }

  lemma LabelBefore(d: Bytes, c: Cursor, labels: seq<Bytes>, steps: nat, e: nat)
    requires Before(d, c, labels, steps, e) && c.cbyte < |d| && 0 < d[c.cbyte] < 192
    ensures var len := d[c.cbyte];
      && len < 64 && labels != [] && c.cbyte + 1 + len <= |d| && labels[0] == d[c.cbyte + 1..c.cbyte + 1 + len]
         && steps > 0
      && Longer(c.namelen, len) <= DNS_MAXDOMAIN
      && Before(d, c.(cbyte := c.cbyte + 1 + len, namelen := Longer(c.namelen, len)), labels[1..], steps - 1, e)
  {
  }

  lemma InMessage(d: Bytes, c: Cursor, labels: seq<Bytes>, steps: nat, e: nat)
    requires Before(d, c, labels, steps, e)
    ensures steps > 0 && c.cbyte < |d| <= c.max && Chain(d, c.cbyte, steps)
  {
    ChainEnds(d, c.cbyte, steps);
  }

  lemma EndBefore(d: Bytes, c: Cursor, labels: seq<Bytes>, steps: nat, e: nat)
    requires Before(d, c, labels, steps, e) && c.cbyte < |d| && d[c.cbyte] == 0
    ensures labels == [] && (if c.open then c.cbyte + 1 else c.dmend) == e
  {
  }

  /** One step of the walk finds the next label, or the end of the name. */
  lemma {:induction false} NextFinds(d: Bytes, c: Cursor, labels: seq<Bytes>, steps: nat, e: nat)
    requires Before(d, c, labels, steps, e)
    ensures Chain(d, c.cbyte, steps) && FindsFirst(d, Next(d, c, steps), labels, steps, e)
    decreases steps
  {
    hide Before, Longer, Jumped;
    InMessage(d, c, labels, steps, e);
    var len := d[c.cbyte];
    if len >= 192 {
      JumpedBefore(d, c, labels, steps, e);
      NextFinds(d, Jumped(d, c), labels, steps - 1, e);
      hide FindsFirst;
      MoreToGo(d, Next(d, c, steps), labels, steps - 1, steps, e);
    } else if len > 0 {
      LabelBefore(d, c, labels, steps, e);
    } else {
      EndBefore(d, c, labels, steps, e);
    }
  }

  // A step, by the object that walks.
  method StepName(f: FindLabel, ghost labels: seq<Bytes>, ghost steps: nat, ghost e: nat)
      returns (lablen: int, labstart: nat, ghost fewer: nat)
    requires Before(f.dgram, f.C(), labels, steps, e)
    modifies f
    ensures lablen == 0 ==> labels == [] && f.dmend == e
    ensures lablen != 0 ==>
      && lablen > 0 && labels != [] && labstart + lablen <= |f.dgram|
         && f.dgram[labstart..labstart + lablen] == labels[0]
      && fewer < steps && Before(f.dgram, f.C(), labels[1..], fewer, e)
  {
    hide Before, Next, Chain;
    NextFinds(f.dgram, f.C(), labels, steps, e);
    ghost var found := Next(f.dgram, f.C(), steps);
    var status: int;
    status, lablen, labstart := f.FindNext(steps);
    fewer := 0;
    if lablen != 0 {
      ghost var n: nat :| n < steps && Before(f.dgram, f.C(), labels[1..], n, e);
      fewer := n;
    }
  }

  // What has been written and what is still to come.
  ghost predicate Halfway(labels: seq<Bytes>, done: seq<Bytes>, rest: seq<Bytes>) {
    done + rest == labels && forall l :: l in labels ==> |l| < 256
  }

  lemma OnceMore(labels: seq<Bytes>, done: seq<Bytes>, rest: seq<Bytes>)
    requires Halfway(labels, done, rest)
    ensures forall l :: l in done ==> |l| < 256
    ensures rest != [] ==>
      && Halfway(labels, done + [rest[0]], rest[1..]) && |rest[0]| < 256
      && (forall l :: l in done + [rest[0]] ==> |l| < 256)
      && Body(done + [rest[0]]) == Body(done) + [|rest[0]|] + rest[0]
    ensures rest == [] ==> done == labels
  {
    hide Body;
    assert forall l :: l in done ==> l in done + rest;
    if rest != [] {
      assert rest[0] in done + rest by { assert (done + rest)[|done|] == rest[0]; }
      assert done + [rest[0]] + rest[1..] == done + rest;
      BodyLast(done, rest[0]);
    }
  }

  /** adns__mkquery_frdgram: however the name is compressed, the message written has the same labels. */
  method MkQueryFromDatagram(d: Bytes, pos: nat, ghost labels: seq<Bytes>, ghost steps: nat) returns (out: Bytes)
    requires Name(d, pos, steps) == Some(labels) && Fits(0, labels)
    ensures forall l :: l in labels ==> 1 <= |l| < 64
    ensures out == Wire(labels) && HasName(out, 0, labels)
  {
    hide Before, Wire, Body, Fits, Name, Halfway;
    NamesAreShort(d, pos, steps);
    var f := new FindLabel(d, |d|, pos, false);
    ghost var rest, done, left: nat := labels, [], steps;
    StartsBefore(d, pos, labels, steps);
    out := [];
    NoBody();
    StartsHalfway(labels);
    OnceMore(labels, done, rest);
    while true
      invariant f.dgram == d && Before(d, f.C(), rest, left, pos)
      invariant Halfway(labels, done, rest) && (forall l :: l in done ==> |l| < 256) && out == Body(done)
      decreases left
    {
      OnceMore(labels, done, rest);
      var lablen, labstart, fewer := StepName(f, rest, left, pos);
      if lablen == 0 { break; }
      out := out + [lablen] + d[labstart..labstart + lablen];
      done, rest, left := done + [rest[0]], rest[1..], fewer;
    }
    OnceMore(labels, done, rest);
    WireBody(done);
    out := out + [0];
    Written(out, labels);
  }

  lemma StartsHalfway(labels: seq<Bytes>)
    requires forall l :: l in labels ==> 1 <= |l| < 64
    ensures Halfway(labels, [], labels)
  {
    assert [] + labels == labels;
  }

  lemma Written(out: Bytes, labels: seq<Bytes>)
    requires (forall l :: l in labels ==> 1 <= |l| < 64) && out == Wire(labels)
    ensures HasName(out, 0, labels)
  {
    assert out[0..|out|] == out;
    WireIsName(out, 0, labels);
  }

  lemma StartsBefore(d: Bytes, pos: nat, labels: seq<Bytes>, steps: nat)
    requires Name(d, pos, steps) == Some(labels) && Fits(0, labels)
    ensures Before(d, Cursor(pos, |d|, 0, false, pos), labels, steps, pos)
    ensures Before(d, Cursor(pos, |d|, 0, true, pos), labels, steps, PlaceEnd(d, pos, steps))
  {
  }
}
