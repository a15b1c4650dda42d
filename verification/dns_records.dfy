/** Reading names and records from messages, whole or not: what is printed, what is compared, and every error. */
module DnsRecords {
  import opened DnsText
  import opened DnsWire
  import opened DnsNames
  import opened Text

  const S_ANSWERDOMAININVALID := 102
  const MAXTTLBELIEVE := 604800

  // ---- reading to the end, or as far as it goes

  // The labels met, and what came instead of another.
  datatype Reading = Reading(labels: seq<Bytes>, last: Found)

  // Every chain of pointers the walk comes to has an end.
  ghost predicate Ends(d: Bytes, c: Cursor, hops: nat)
    decreases DNS_MAXDOMAIN + 1 - c.namelen
  {
    Chain(d, c.cbyte, hops)
    && match Next(d, c, hops)
       case Piece(_, _, next) => Ends(d, next, hops)
       case _ => true
  }

  ghost function Read(d: Bytes, c: Cursor, hops: nat): (r: Reading)
    requires Ends(d, c, hops)
    ensures !r.last.Piece?
    decreases DNS_MAXDOMAIN + 1 - c.namelen
  {
    match Next(d, c, hops)
    case Piece(start, len, next) =>
      var r := Read(d, next, hops);
      Reading([d[start..start + len]] + r.labels, r.last)
    case found => Reading([], found)
  }

  lemma {:induction false} SameNext(d: Bytes, c: Cursor, a: nat, b: nat)
    requires Chain(d, c.cbyte, a) && Chain(d, c.cbyte, b)
    ensures Next(d, c, a) == Next(d, c, b)
    decreases a
  {
    hide Landed;
    if c.cbyte + 1 < |d| && c.cbyte + 1 < c.max && d[c.cbyte] >= 192 {
      SameNext(d, Jumped(d, c), a - 1, b - 1);
    }
  }

  /** Where there is a name, and not too long, the walk reads it to its end. */
  lemma {:induction false} NameIsRead(d: Bytes, c: Cursor, labels: seq<Bytes>, steps: nat, e: nat, hops: nat)
    requires Before(d, c, labels, steps, e) && Ends(d, c, hops)
    ensures var r := Read(d, c, hops); r.labels == labels && r.last.End? && r.last.next.dmend == e
    decreases steps
  {
    hide Before, Next, Chain;
    NextFinds(d, c, labels, steps, e);
    SameNext(d, c, steps, hops);
    if Next(d, c, hops).Piece? {
      var next := Next(d, c, hops).next;
      var fewer: nat :| fewer < steps && Before(d, next, labels[1..], fewer, e);
      NameIsRead(d, next, labels[1..], fewer, e, hops);
    }
  }

  // A pointer to a name is that name.
  lemma PointerIsName(d: Bytes, pos: nat, labels: seq<Bytes>, steps: nat)
    requires pos + 1 < |d| && d[pos] >= 192 && Name(d, Target(d, pos), steps) == Some(labels)
    ensures Name(d, pos, steps + 1) == Some(labels)
  {
    hide Target;
  }

  // What a step lands on, with a name behind it, is a name.
  lemma LandedIsName(d: Bytes, c: Cursor, more: seq<Bytes>, steps: nat)
    requires c.cbyte < |d| && d[c.cbyte] < 192
    requires var found := Landed(d, c);
      if found.Piece? then Name(d, found.next.cbyte, steps) == Some(more) else found.End? && more == []
    ensures Name(d, c.cbyte, steps + 1) == Some(LabelsOf(d, Landed(d, c), more))
  {
  }

  // The labels when this is found and these come behind it.
  function LabelsOf(d: Bytes, found: Found, more: seq<Bytes>): seq<Bytes> {
    if found.Piece? && found.start + found.len <= |d| then [d[found.start..found.start + found.len]] + more else []
  }

  // A label found, and a name behind it, are a name.
  lemma {:induction false} FoundIsName(d: Bytes, c: Cursor, hops: nat, more: seq<Bytes>, steps: nat) returns (all: nat)
    requires Chain(d, c.cbyte, hops)
    requires var found := Next(d, c, hops);
      if found.Piece? then Name(d, found.next.cbyte, steps) == Some(more) else found.End? && more == []
    ensures Name(d, c.cbyte, all) == Some(LabelsOf(d, Next(d, c, hops), more))
    decreases hops
  {
    hide Name, Target, Landed, LabelsOf, Longer;
    if d[c.cbyte] >= 192 {
      all := FoundIsName(d, Jumped(d, c), hops - 1, more, steps);
      PointerIsName(d, c.cbyte, LabelsOf(d, Next(d, c, hops), more), all);
      all := all + 1;
    } else {
      LandedIsName(d, c, more, steps);
      all := steps + 1;
    }
  }

  lemma Grows(namelen: nat, len: nat)
    requires len > 0
    ensures Longer(namelen, len) > namelen
  {
  }

  /** What the walk reads to its end is a name there, and not too long. */
  lemma {:induction false} ReadIsName(d: Bytes, c: Cursor, hops: nat) returns (steps: nat)
    requires Ends(d, c, hops) && Read(d, c, hops).last.End?
    ensures Name(d, c.cbyte, steps) == Some(Read(d, c, hops).labels) && Fits(c.namelen, Read(d, c, hops).labels)
    decreases DNS_MAXDOMAIN + 1 - c.namelen
  {
    hide Next, Chain, Name, Longer;
    var found := Next(d, c, hops);
    if found.Piece? {
      Grows(c.namelen, found.len);
      var more := Read(d, found.next, hops).labels;
      var n := ReadIsName(d, found.next, hops);
      steps := FoundIsName(d, c, hops, more, n);
    } else {
      steps := FoundIsName(d, c, hops, [], 0);
    }
  }

  function Start(pos: nat, max: nat): Cursor {
    Cursor(pos, max, 0, true, pos)
  }

  /**
   * With the whole message to read in, a name is read to its end exactly when there is one there that is not too long;
   * the labels read are its labels, and the end is that of the name in place.
   */
  lemma ReadsNames(d: Bytes, pos: nat, max: nat, hops: nat)
    requires Ends(d, Start(pos, max), hops) && |d| <= max
    ensures var r := Read(d, Start(pos, max), hops);
      && (r.last.End? <==> exists labels :: HasName(d, pos, labels) && Fits(0, labels))
      && (r.last.End? ==> HasName(d, pos, r.labels) && Fits(0, r.labels)
                          && exists steps :: Name(d, pos, steps).Some? && r.last.next.dmend == PlaceEnd(d, pos, steps))
  {
    hide Next, Chain, Fits, PlaceEnd, Name;
    var c := Start(pos, max);
    var r := Read(d, c, hops);
    if r.last.End? {
      var steps := ReadIsName(d, c, hops);
      EndsInPlace(d, pos, max, r.labels, steps, hops);
    }
    if labels :| HasName(d, pos, labels) && Fits(0, labels) {
      var steps :| Name(d, pos, steps) == Some(labels);
      EndsInPlace(d, pos, max, labels, steps, hops);
    }
  }

  lemma EndsInPlace(d: Bytes, pos: nat, max: nat, labels: seq<Bytes>, steps: nat, hops: nat)
    requires Ends(d, Start(pos, max), hops) && |d| <= max && Name(d, pos, steps) == Some(labels) && Fits(0, labels)
    ensures var r := Read(d, Start(pos, max), hops);
      r.labels == labels && r.last.End? && r.last.next.dmend == PlaceEnd(d, pos, steps)
  {
    hide Next, Chain, Ends, Read, Name, Fits, PlaceEnd;
    NameIsRead(d, Start(pos, max), labels, steps, PlaceEnd(d, pos, steps), hops);
  }

  // One step of a walk, as the object makes it: what it reports, and what is left to read.
  method StepReading(f: FindLabel, ghost hops: nat) returns (status: int, lablen: int, labstart: nat)
    requires Ends(f.dgram, f.C(), hops)
    modifies f
    ensures var r := Read(f.dgram, old(f.C()), hops);
      if status != 0 then r.labels == [] && r.last == Wrong(status)
      else if lablen < 0 then r.labels == [] && r.last == Truncated
      else if lablen == 0 then r.labels == [] && r.last == End(f.C())
      else
        && labstart + lablen <= |f.dgram| && lablen < 64 && Ends(f.dgram, f.C(), hops)
        && r.labels == [f.dgram[labstart..labstart + lablen]] + Read(f.dgram, f.C(), hops).labels
        && r.last == Read(f.dgram, f.C(), hops).last
        && f.namelen > old(f.namelen) && f.namelen <= DNS_MAXDOMAIN
  {
    NoWrongNought(f.dgram, f.C(), hops);
    hide Next, Chain;
    status, lablen, labstart := f.FindNext(hops);
  }

  lemma {:induction false} NoWrongNought(d: Bytes, c: Cursor, hops: nat)
    requires Chain(d, c.cbyte, hops)
    ensures Next(d, c, hops) != Wrong(0)
    decreases hops
  {
    if c.cbyte + 1 < |d| && c.cbyte + 1 < c.max && d[c.cbyte] >= 192 {
      NoWrongNought(d, Jumped(d, c), hops - 1);
    }
  }

  // ---- printing

  lemma HostIsPlain(l: Bytes)
    requires Host(l)
    ensures Quoted(l) == l
  {
    QuotedPlain(l);
  }

  // Letters and digits, and hyphens behind the first byte.
  method CheckHost(l: Bytes) returns (ok: bool)
    ensures ok == Host(l)
    ensures ok <==> forall i :: 0 <= i < |l| ==>
              65 <= l[i] <= 90 || 97 <= l[i] <= 122 || 48 <= l[i] <= 57 || (l[i] == 45 && i > 0)
  {
    ok := true;
    var i := 0;
    while i < |l|
      invariant 0 <= i <= |l|
      invariant forall j :: 0 <= j < i ==> Plain(l[j], j == 0)
    {
      if !Plain(l[i], i == 0) { return false; }
      i := i + 1;
    }
  }

  /**
   * adns__parse_domain: without quoting a label that has anything but letters, digits and, behind its first byte,
   * hyphens makes the name invalid, whatever comes after it; else the labels are printed, with a zero behind, and the
   * walk ends behind the name; a name cut short leaves nothing; and an error of the walk is reported.
   */
  method ParseDomain(d: Bytes, pos: nat, max: nat, quoteok: bool, ghost hops: nat)
      returns (status: int, text: Bytes, end: nat)
    requires Ends(d, Start(pos, max), hops)
    ensures var r := Read(d, Start(pos, max), hops);
      if !quoteok && !Hosts(r.labels) then status == S_ANSWERDOMAININVALID
      else match r.last
           case End(next) => status == 0 && text == Printed(r.labels) + [0] && end == next.dmend
           case Wrong(st) => status == st != 0
           case _ => status == 0 && text == []
  {
    hide Ends, Read, Printed, Quoted, Host;
    var f := new FindLabel(d, max, pos, true);
    ghost var r, done := Read(d, Start(pos, max), hops), [];
    status, text, end := 0, [], pos;
    PrintedNone();
    var first := true;
    while true
      invariant f.dgram == d && Ends(d, f.C(), hops)
      invariant r.labels == done + Read(d, f.C(), hops).labels && r.last == Read(d, f.C(), hops).last
      invariant text == Printed(done) && (first <==> done == []) && (quoteok || Hosts(done)) && status == 0
      invariant f.namelen <= DNS_MAXDOMAIN
      decreases DNS_MAXDOMAIN - f.namelen
    {
      ghost var left := Read(d, f.C(), hops).labels;
      var lablen, labstart;
      status, lablen, labstart := StepReading(f, hops);
      if status != 0 { assert r.labels == done; return; }
      if lablen < 0 { assert r.labels == done; text := []; return; }
      if lablen == 0 { break; }
      var l := d[labstart..labstart + lablen];
      OneMore(r.labels, done, l, Read(d, f.C(), hops).labels);
      PrintedLast(done, l);
      if first {
        first := false;
      } else {
        text := text + [46];
      }
      if quoteok {
        text := AppendQuoted(text, l);
      } else {
        var ok := CheckHost(l);
        if !ok { assert !Hosts(r.labels); status := S_ANSWERDOMAININVALID; return; }
        HostIsPlain(l);
        text := text + l;
      }
      done := done + [l];
    }
    assert r.labels == done;
    text, end := text + [0], f.dmend;
  }

  lemma OneMore(all: seq<Bytes>, done: seq<Bytes>, l: Bytes, rest: seq<Bytes>)
    requires all == done + ([l] + rest)
    ensures all == done + [l] + rest && all[|done|] == l
    ensures Hosts(done) && Host(l) ==> Hosts(done + [l])
    ensures !Host(l) ==> !Hosts(all)
  {
    hide Host;
  }

  lemma PrintedNone()
    ensures Printed([]) == []
  {
  }

  lemma {:induction false} PrintedLast(labels: seq<Bytes>, l: Bytes)
    ensures Printed(labels + [l]) == if labels == [] then Quoted(l) else Printed(labels) + [46] + Quoted(l)
  {
    hide Quoted;
    if labels == [] {
      assert labels + [l] == [l];
    } else {
      assert (labels + [l])[1..] == labels[1..] + [l] && (labels + [l])[0] == labels[0];
      PrintedLast(labels[1..], l);
    }
  }

  // ---- records

  // ch &= ~32 on letters
  function Fold(c: Byte): (f: Byte) {
    if 97 <= c <= 122 then c - 32 else c
  }

  predicate SameLabel(a: Bytes, b: Bytes) {
    |a| == |b| && forall i :: 0 <= i < |a| ==> Fold(a[i]) == Fold(b[i])
  }

  // Equal, but for the case of ASCII letters (RFC 1035 section 2.3.3).
  predicate SameName(a: seq<Bytes>, b: seq<Bytes>) {
    |a| == |b| && forall i :: 0 <= i < |a| ==> SameLabel(a[i], b[i])
  }

  /** Labels match when they are as long as each other and, at each place, their bytes are equal or are one letter
      in both of its cases. */
  method CompareLabels(a: Bytes, b: Bytes) returns (same: bool)
    ensures same == SameLabel(a, b)
    ensures same <==> |a| == |b| && forall i :: 0 <= i < |a| ==>
              a[i] == b[i] || (65 <= a[i] <= 90 && b[i] == a[i] + 32) || (97 <= a[i] <= 122 && b[i] == a[i] - 32)
  {
    same := |a| == |b|;
    var i := 0;
    while same && i < |b|
      invariant same ==> |a| == |b| && 0 <= i <= |a|
      invariant same ==> forall j :: 0 <= j < i ==> Fold(a[j]) == Fold(b[j])
      invariant !same ==> !SameLabel(a, b)
      decreases |b| - i, same
    {
      if Fold(a[i]) != Fold(b[i]) {
        same := false;
      } else {
        i := i + 1;
      }
    }
    LabelsFold(a, b);
  }

  lemma LabelsFold(a: Bytes, b: Bytes)
    ensures SameLabel(a, b) <==> |a| == |b| && forall i :: 0 <= i < |a| ==>
              a[i] == b[i] || (65 <= a[i] <= 90 && b[i] == a[i] + 32) || (97 <= a[i] <= 122 && b[i] == a[i] - 32)
  {
  }

  lemma NamesFold(a: seq<Bytes>, b: seq<Bytes>)
    ensures SameName(a, b) <==> |a| == |b| && forall i :: 0 <= i < |a| ==>
              && |a[i]| == |b[i]|
              && forall j :: 0 <= j < |a[i]| ==>
                   || a[i][j] == b[i][j]
                   || (65 <= a[i][j] <= 90 && b[i][j] == a[i][j] + 32)
                   || (97 <= a[i][j] <= 122 && b[i][j] == a[i][j] - 32)
  {
    hide SameLabel;
    forall i | 0 <= i < |a| && |a| == |b|
      ensures SameLabel(a[i], b[i]) <==>
        && |a[i]| == |b[i]|
        && forall j :: 0 <= j < |a[i]| ==>
             || a[i][j] == b[i][j]
             || (65 <= a[i][j] <= 90 && b[i][j] == a[i][j] + 32)
             || (97 <= a[i][j] <= 122 && b[i][j] == a[i][j] - 32)
    {
      LabelsFold(a[i], b[i]);
    }
  }

  lemma SameNameStep(a: seq<Bytes>, b: seq<Bytes>)
    ensures a == [] || b == [] ==> (SameName(a, b) <==> a == b)
    ensures a != [] && b != [] ==> (SameName(a, b) <==> SameLabel(a[0], b[0]) && SameName(a[1..], b[1..]))
  {
    hide SameLabel;
    if a != [] && b != [] {
      assert forall i :: 0 <= i < |a| - 1 ==> a[1..][i] == a[i + 1];
      assert forall i :: 0 <= i < |b| - 1 ==> b[1..][i] == b[i + 1];
      if SameLabel(a[0], b[0]) && SameName(a[1..], b[1..]) {
        forall i | 0 <= i < |a| ensures SameLabel(a[i], b[i]) {
          if i > 0 { assert SameLabel(a[1..][i - 1], b[1..][i - 1]); }
        }
      }
    }
  }

  // GET_W and GET_L
  function Word(d: Bytes, i: nat): nat
    requires i + 2 <= |d|
  {
    var high: int, low: int := d[i], d[i + 1];
    256 * high + low
  }

  function Long(d: Bytes, i: nat): nat
    requires i + 4 <= |d|
  {
    65536 * Word(d, i) + Word(d, i + 2)
  }

  // The fixed fields of a record, and where its data are; or none, when the message is cut short.
  datatype Record = Record(typ: nat, cls: nat, ttl: nat, rdlen: nat, rdstart: nat, end: nat) | Short

  /**
   * adns__findrr_anychk, on any message: an error of the walk over the owner's name is reported; a message cut short
   * has no record; else the fields behind the name are read: type, class, time to live, length of the data. The owner
   * matches exactly if it was to be compared and its labels are those of the name expected, but for the case of
   * letters, wherever the pointers of either lead.
   */
  method FindRr(d: Bytes, pos: nat, check: bool, eo: Bytes, eoPos: nat, ghost hops: nat, ghost owner: seq<Bytes>,
                ghost eoSteps: nat) returns (status: int, matched: bool, rr: Record)
    requires Ends(d, Start(pos, |d|), hops)
    requires check ==> Name(eo, eoPos, eoSteps) == Some(owner) && Fits(0, owner)
    ensures var r := Read(d, Start(pos, |d|), hops);
      match r.last
      case Wrong(st) => status == st != 0
      case End(next) =>
        && status == 0
        && (matched <==>
              && check && |r.labels| == |owner|
              && forall i :: 0 <= i < |owner| ==>
                   && |r.labels[i]| == |owner[i]|
                   && forall j :: 0 <= j < |r.labels[i]| ==>
                        || r.labels[i][j] == owner[i][j]
                        || (65 <= r.labels[i][j] <= 90 && owner[i][j] == r.labels[i][j] + 32)
                        || (97 <= r.labels[i][j] <= 122 && owner[i][j] == r.labels[i][j] - 32))
        && (var c, b: seq<int> := next.dmend, d;
            if c + 10 > |b| || c + 10 + 256 * b[c + 8] + b[c + 9] > |b| then rr == Short
            else
              var ttl, rdlen := 16777216 * b[c + 4] + 65536 * b[c + 5] + 256 * b[c + 6] + b[c + 7],
                                256 * b[c + 8] + b[c + 9];
              rr == Record(256 * b[c] + b[c + 1], 256 * b[c + 2] + b[c + 3], if ttl > 604800 then 604800 else ttl,
                           rdlen, c + 10, c + 10 + rdlen))
      case _ => status == 0 && rr == Short
  {
    hide Ends, Read, Before, Fits, Name, SameName, SameLabel;
    var f := new FindLabel(d, |d|, pos, true);
    var g := new FindLabel(eo, |eo|, eoPos, false);
    ghost var r := Read(d, Start(pos, |d|), hops);
    ghost var y, eoLeft: nat := owner, eoSteps;
    if check { StartsBefore(eo, eoPos, owner, eoSteps); }
    var mismatch := !check;
    matched, rr := false, Short;
    while true
      invariant f.dgram == d && g.dgram == eo && Ends(d, f.C(), hops) && r.last == Read(d, f.C(), hops).last
      invariant !mismatch ==> check && Before(eo, g.C(), y, eoLeft, eoPos)
                              && (SameName(r.labels, owner) <==> SameName(Read(d, f.C(), hops).labels, y))
      invariant mismatch ==> !(check && SameName(r.labels, owner))
      invariant f.namelen <= DNS_MAXDOMAIN
      decreases DNS_MAXDOMAIN - f.namelen
    {
      ghost var x := Read(d, f.C(), hops).labels;
      var lablen, labstart;
      status, lablen, labstart := StepReading(f, hops);
      if status != 0 || lablen < 0 { return; }
      if !mismatch {
        SameNameStep(x, y);
        var eoLablen, eoLabstart, eoFewer := StepName(g, y, eoLeft, eoPos);
        if lablen != eoLablen {
          mismatch := true;
          Unequal(x, y);
        } else if lablen != 0 {
          var same := CompareLabels(d[labstart..labstart + lablen], eo[eoLabstart..eoLabstart + eoLablen]);
          mismatch := !same;
          y, eoLeft := y[1..], eoFewer;
        }
      }
      if lablen == 0 { break; }
    }
    matched := !mismatch;
    NamesFold(r.labels, owner);
    rr := ReadRecord(d, f.dmend);
  }

  // The fields behind the owner's name.
  method ReadRecord(d: Bytes, c: nat) returns (rr: Record)
    ensures var b: seq<int> := d;
            if c + 10 > |b| || c + 10 + 256 * b[c + 8] + b[c + 9] > |b| then rr == Short
            else
              var ttl, rdlen := 16777216 * b[c + 4] + 65536 * b[c + 5] + 256 * b[c + 6] + b[c + 7],
                                256 * b[c + 8] + b[c + 9];
              rr == Record(256 * b[c] + b[c + 1], 256 * b[c + 2] + b[c + 3], if ttl > 604800 then 604800 else ttl,
                           rdlen, c + 10, c + 10 + rdlen)
  {
    if c + 10 > |d| { return Short; }
    var typ, cls, ttl, rdlen := Word(d, c), Word(d, c + 2), Long(d, c + 4), Word(d, c + 8);
    if ttl > MAXTTLBELIEVE { ttl := MAXTTLBELIEVE; }
    var rdstart := c + 10;
    if rdstart + rdlen > |d| { return Short; }
    rr := Record(typ, cls, ttl, rdlen, rdstart, rdstart + rdlen);
  }

  lemma Unequal(x: seq<Bytes>, y: seq<Bytes>)
    ensures x != [] && y != [] && |x[0]| != |y[0]| ==> !SameLabel(x[0], y[0])
  {
  }
}
