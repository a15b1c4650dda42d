/** Reading a name back: what adns__mkquery makes of a printed name, byte by byte. */
module DnsQuery {
  import opened DnsText

  // ---- the reader

  method ScanLabel(s: Bytes, start: nat, quoteok: bool) returns (r: Scanned)
    requires start <= |s|
    ensures r == Scan(s, start, [], quoteok)
  {
    hide Plain, Unescape;
    var p, name: Bytes := start, [];
    while p < |s| && s[p] != 46
      invariant start <= p <= |s| && Scan(s, start, [], quoteok) == Scan(s, p, name, quoteok)
      decreases |s| - p
    {
      var x := Unescape(s, p, quoteok);
      if x.NoChar? {
        return Bad;
      }
      if !quoteok && !Plain(x.c, name == []) {
        return Bad;
      }
      if |name| == 255 {
        return Bad;
      }
      name, p := name + [x.c], x.next;
    }
    return Label(name, if p < |s| then p + 1 else p);
  }

  // Labels read so far, and what the rest of the text makes of it.
  function Prefixed(done: seq<Bytes>, r: Parsed): Parsed {
    match r
    case Failed(status) => Failed(status)
    case Labels(more) => Labels(done + more)
  }

  /** adns__mkquery's loop: the name's labels go into the message, or its status says what is wrong. */
  method MkQuery(owner: Bytes, quoteok: bool) returns (status: int, out: Bytes)
    ensures match Parse(owner, 0, 0, quoteok)
      case Failed(st) => status == st
      case Labels(ls) => status == 0 && (forall l :: l in ls ==> |l| < 256) && out == Wire(ls)
  {
    ParsedShort(owner, 0, 0, quoteok);
    hide Scan, Wire, Body, Parse;
    status, out := 0, [];
    var p, nbytes: nat := 0, 0;
    ghost var done: seq<Bytes> := [];
    NoBody();
    while p != |owner|
      invariant p <= |owner|
      invariant Parse(owner, 0, 0, quoteok) == Prefixed(done, Parse(owner, p, nbytes, quoteok))
      invariant (forall l :: l in done ==> |l| < 256) && out == Body(done)
      decreases |owner| - p
    {
      ParseStep(owner, p, nbytes, quoteok);
      var x := ScanLabel(owner, p, quoteok);
      if x.Bad? || x.name == [] {
        return S_QUERYDOMAININVALID, out;
      }
      if |x.name| > DNS_MAXLABEL {
        return S_QUERYDOMAINTOOLONG, out;
      }
      nbytes := nbytes + |x.name| + 1;
      if nbytes >= DNS_MAXDOMAIN {
        return S_QUERYDOMAINTOOLONG, out;
      }
      BodyLast(done, x.name);
      PrefixedMore(done, x.name, Parse(owner, x.next, nbytes, quoteok));
      out := out + [|x.name|] + x.name;
      done := done + [x.name];
      p := x.next;
    }
    WireBody(done);
    NoLabels(owner, nbytes, quoteok);
    assert done + [] == done;
    out := out + [0];
  }

  lemma NoBody()
    ensures Body([]) == []
  {
  }

  lemma PrefixedMore(done: seq<Bytes>, l: Bytes, r: Parsed)
    ensures Prefixed(done, Prefixed([l], r)) == Prefixed(done + [l], r)
  {
    if r.Labels? { assert done + ([l] + r.labels) == done + [l] + r.labels; }
  }

  // ---- printed and read again

  // The number the reader makes of a printed byte: it takes the octal digits for decimal ones.
  function Reread(c: Byte): (r: nat) {
    if Octal(c) then 100 * (c / 64) + 10 * (c / 8 % 8) + c % 8 else c
  }

  predicate Readable(name: Bytes) {
    forall i :: 0 <= i < |name| ==> Reread(name[i]) < 256
  }

  function RereadAll(name: Bytes): (r: Bytes)
    requires Readable(name)
    ensures |r| == |name|
  {
    seq(|name|, i requires 0 <= i < |name| => Reread(name[i]))
  }

  // One printed byte at a position.
  lemma QuoteReads(s: Bytes, p: nat, c: Byte)
    requires p + |Quote(c)| <= |s| && s[p..p + |Quote(c)|] == Quote(c)
    ensures |Quote(c)| > 0 && s[p] != 46
    ensures Unescape(s, p, true) == if Reread(c) < 256 then Char(Reread(c), p + |Quote(c)|) else NoChar
  {
    var q := Quote(c);
    forall i | 0 <= i < |q| ensures s[p + i] == q[i] { assert s[p..p + |q|][i] == s[p + i]; }
    assert s[p] == q[0];
    if Octal(c) {
      assert s[p + 1] == q[1] && s[p + 2] == q[2] && s[p + 3] == q[3];
    } else if !Unquoted(c) {
      assert s[p + 1] == q[1];
    }
  }

  // One more character of a label, escapes undone.
  lemma ScanStep(s: Bytes, p: nat, front: Bytes)
    requires p < |s| && s[p] != 46 && |front| < 255
    ensures var u := Unescape(s, p, true);
            Scan(s, p, front, true) == if u.Char? then Scan(s, u.next, front + [u.c], true) else Bad
  {
    hide Unescape, Plain;
  }

  lemma ScanEnd(s: Bytes, p: nat, front: Bytes)
    requires p <= |s| && (p < |s| ==> s[p] == 46)
    ensures Scan(s, p, front, true) == Label(front, if p < |s| then p + 1 else p)
  {
  }

  lemma {:induction false} LabelReads(s: Bytes, p: nat, front: Bytes, name: Bytes)
    requires p + |Quoted(name)| <= |s| && s[p..p + |Quoted(name)|] == Quoted(name) && |front| + |name| < 255
    requires p + |Quoted(name)| < |s| ==> s[p + |Quoted(name)|] == 46
    ensures var end := p + |Quoted(name)|;
      Scan(s, p, front, true)
        == if Readable(name) then Label(front + RereadAll(name), if end < |s| then end + 1 else end) else Bad
    decreases |name|
  {
    hide Quote, Reread, Unescape, Scan, Readable;
    if name == [] {
      ScanEnd(s, p, front);
      NothingRead();
      assert front + [] == front;
    } else {
      var c, more := name[0], name[1..];
      var q := Quote(c);
      FirstByte(s, p, c, Quoted(more));
      QuoteReads(s, p, c);
      ScanStep(s, p, front);
      ReadableFirst(name);
      hide RereadAll;
      if Reread(c) < 256 {
        LabelReads(s, p + |q|, front + [Reread(c)], more);
        if Readable(name) { Regroup3(front, [Reread(c)], RereadAll(more)); }
      }
    }
  }

  lemma NothingRead()
    ensures Readable([]) && RereadAll([]) == []
  {
  }

  lemma Regroup3(a: Bytes, b: Bytes, c: Bytes)
    ensures a + (b + c) == a + b + c
  {
  }

  lemma FirstByte(s: Bytes, p: nat, c: Byte, rest: Bytes)
    requires p + |Quote(c) + rest| <= |s| && s[p..p + |Quote(c) + rest|] == Quote(c) + rest
    ensures s[p..p + |Quote(c)|] == Quote(c)
    ensures s[p + |Quote(c)|..p + |Quote(c)| + |rest|] == rest
  {
    hide Quote;
    var w := s[p..p + |Quote(c) + rest|];
    assert w[..|Quote(c)|] == Quote(c) && w[|Quote(c)|..] == rest;
  }

  lemma ReadableFirst(name: Bytes)
    requires name != []
    ensures Readable(name) <==> Reread(name[0]) < 256 && Readable(name[1..])
    ensures Readable(name) ==> RereadAll(name) == [Reread(name[0])] + RereadAll(name[1..])
  {
    hide Reread;
    assert forall i :: 0 <= i < |name| - 1 ==> name[1..][i] == name[i + 1];
    if Reread(name[0]) < 256 && Readable(name[1..]) {
      forall i | 0 <= i < |name| ensures Reread(name[i]) < 256 { if i > 0 { assert name[i] == name[1..][i - 1]; } }
    }
  }

  // What the labels take up.
  function Size(labels: seq<Bytes>): nat {
    if labels == [] then 0 else |labels[0]| + 1 + Size(labels[1..])
  }

  // Labels of a legal name: not empty, at most 63 bytes each, and not too many.
  ghost predicate Legal(labels: seq<Bytes>) {
    (forall l :: l in labels ==> 1 <= |l| <= DNS_MAXLABEL) && Size(labels) < DNS_MAXDOMAIN
  }

  ghost predicate AllReadable(labels: seq<Bytes>) {
    forall i :: 0 <= i < |labels| ==> Readable(labels[i])
  }

  ghost function RereadLabels(labels: seq<Bytes>): (r: seq<Bytes>)
    requires AllReadable(labels)
  {
    seq(|labels|, i requires 0 <= i < |labels| => RereadAll(labels[i]))
  }

  lemma {:induction false} NameReads(s: Bytes, p: nat, nbytes: nat, labels: seq<Bytes>)
    requires p <= |s| && s[p..] == Printed(labels) && nbytes + Size(labels) < DNS_MAXDOMAIN
    requires forall l :: l in labels ==> 1 <= |l| <= DNS_MAXLABEL
    ensures Parse(s, p, nbytes, true)
         == if AllReadable(labels) then Labels(RereadLabels(labels)) else Failed(S_QUERYDOMAININVALID)
    decreases |labels|
  {
    hide Readable, RereadAll, Quoted, Scan;
    if labels == [] {
      assert p == |s|;
      assert RereadLabels(labels) == [];
    } else {
      var l, more := labels[0], labels[1..];
      var end := p + |Quoted(l)|;
      FirstLabel(s, p, labels);
      LabelReads(s, p, [], l);
      ReadableLabels(labels);
      if Readable(l) {
        Nothing(RereadAll(l));
        NameReads(s, if end < |s| then end + 1 else end, nbytes + |l| + 1, more);
      }
    }
  }

  lemma Nothing(r: Bytes)
    ensures [] + r == r
  {
  }

  // The first label of a printed name, and where the next begins.
  lemma FirstLabel(s: Bytes, p: nat, labels: seq<Bytes>)
    requires labels != [] && p <= |s| && s[p..] == Printed(labels) && forall l :: l in labels ==> 1 <= |l|
    ensures var end := p + |Quoted(labels[0])|;
      && p < end <= |s| && s[p..end] == Quoted(labels[0])
      && (end < |s| ==> s[end] == 46 && s[end + 1..] == Printed(labels[1..]))
      && (end == |s| ==> |labels| == 1)
  {
    hide Quote;
    var q := Quoted(labels[0]);
    QuotedSome(labels[0]);
    hide Quoted;
    assert s[p..][..|q|] == q;
    assert s[p..p + |q|] == q;
    if |labels| > 1 {
      assert s[p..][|q|] == 46;
      assert s[p..][|q| + 1..] == Printed(labels[1..]);
      assert s[p + |q| + 1..] == s[p..][|q| + 1..];
    }
  }

  lemma QuotedSome(l: Bytes)
    requires l != []
    ensures Quoted(l) != []
  {
    assert |Quote(l[0])| > 0;
  }

  lemma ReadableLabels(labels: seq<Bytes>)
    requires labels != []
    ensures AllReadable(labels) <==> Readable(labels[0]) && AllReadable(labels[1..])
    ensures AllReadable(labels) ==> RereadLabels(labels) == [RereadAll(labels[0])] + RereadLabels(labels[1..])
  {
    hide Readable, RereadAll;
    assert forall i :: 0 <= i < |labels| - 1 ==> labels[1..][i] == labels[i + 1];
    if Readable(labels[0]) && AllReadable(labels[1..]) {
      forall i | 0 <= i < |labels| ensures Readable(labels[i]) { if i > 0 { assert labels[i] == labels[1..][i - 1]; } }
    }
  }

  /** For every legal name: printed and read again it is refused, or every byte is what the digits say. */
  lemma PrintedNameReads(labels: seq<Bytes>)
    requires Legal(labels)
    ensures Parse(Printed(labels), 0, 0, true)
         == if AllReadable(labels) then Labels(RereadLabels(labels)) else Failed(S_QUERYDOMAININVALID)
  {
    hide Readable, RereadAll, Printed, Parse;
    assert Printed(labels)[0..] == Printed(labels);
    NameReads(Printed(labels), 0, 0, labels);
  }

  // ---- names without quoting

  // The labels as they are, with dots between them.
  function Dotted(labels: seq<Bytes>): (s: Bytes) {
    if labels == [] then []
    else if |labels| == 1 then labels[0]
    else labels[0] + [46] + Dotted(labels[1..])
  }

  lemma {:induction false} PlainLabelReads(s: Bytes, p: nat, front: Bytes, name: Bytes)
    requires p + |name| <= |s| && s[p..p + |name|] == name && |front| + |name| < 255 && 46 !in name
    requires p + |name| < |s| ==> s[p + |name|] == 46
    ensures var end := p + |name|;
      Scan(s, p, front, false)
        == if forall i :: 0 <= i < |name| ==> Plain(name[i], front == [] && i == 0)
           then Label(front + name, if end < |s| then end + 1 else end) else Bad
    decreases |name|
  {
    hide Plain;
    if name == [] {
      assert front + [] == front;
    } else {
      var more := name[1..];
      assert s[p] == s[p..p + |name|][0] == name[0];
      assert s[p + 1..p + 1 + |more|] == s[p..p + |name|][1..];
      if name[0] == 92 {
        NoBackslash();
      } else {
        PlainLabelReads(s, p + 1, front + [name[0]], more);
        assert forall i :: 0 < i < |name| ==> name[i] == more[i - 1];
        assert forall i :: 0 <= i < |more| ==> more[i] == name[i + 1];
        assert front + [name[0]] + more == front + name;
      }
    }
  }

  lemma NoBackslash()
    ensures forall first :: !Plain(92, first)
  {
  }

  // The first label of a dotted name, and where the next begins.
  lemma FirstDotted(s: Bytes, p: nat, labels: seq<Bytes>)
    requires labels != [] && p <= |s| && s[p..] == Dotted(labels) && forall l :: l in labels ==> 1 <= |l|
    ensures var end := p + |labels[0]|;
      && p < end <= |s| && s[p..end] == labels[0]
      && (end < |s| ==> s[end] == 46 && s[end + 1..] == Dotted(labels[1..]))
      && (end == |s| ==> |labels| == 1)
  {
    var q := labels[0];
    assert s[p..][..|q|] == q;
    assert s[p..p + |q|] == q;
    if |labels| > 1 {
      assert s[p..][|q|] == 46;
      assert s[p..][|q| + 1..] == Dotted(labels[1..]);
      assert s[p + |q| + 1..] == s[p..][|q| + 1..];
    }
  }

  lemma HostsFirst(labels: seq<Bytes>)
    requires labels != []
    ensures Hosts(labels) <==> Host(labels[0]) && Hosts(labels[1..])
  {
    hide Host;
    if Host(labels[0]) && Hosts(labels[1..]) {
      forall i | 0 <= i < |labels| ensures Host(labels[i]) { if i > 0 { assert labels[i] == labels[1..][i - 1]; } }
    }
    if Hosts(labels) {
      forall i | 0 <= i < |labels| - 1 ensures Host(labels[1..][i]) { assert labels[1..][i] == labels[i + 1]; }
    }
  }

  lemma NoLabels(s: Bytes, nbytes: nat, quoteok: bool)
    ensures Hosts([]) && Dotted([]) == [] && Parse(s, |s|, nbytes, quoteok) == Labels([])
  {
  }

  // One label of a name that is not too long, and the rest.
  lemma ParseStep(s: Bytes, p: nat, nbytes: nat, quoteok: bool)
    requires p < |s|
    ensures var x := Scan(s, p, [], quoteok);
      Parse(s, p, nbytes, quoteok)
        == if x.Bad? || x.name == [] then Failed(S_QUERYDOMAININVALID)
           else if |x.name| > DNS_MAXLABEL || nbytes + |x.name| + 1 >= DNS_MAXDOMAIN then Failed(S_QUERYDOMAINTOOLONG)
           else Prefixed([x.name], Parse(s, x.next, nbytes + |x.name| + 1, quoteok))
  {
    hide Scan;
  }

  lemma {:induction false} DottedReads(s: Bytes, p: nat, nbytes: nat, labels: seq<Bytes>)
    requires p <= |s| && s[p..] == Dotted(labels) && nbytes + Size(labels) < DNS_MAXDOMAIN
    requires forall l :: l in labels ==> 1 <= |l| <= DNS_MAXLABEL && 46 !in l
    ensures Parse(s, p, nbytes, false) == if Hosts(labels) then Labels(labels) else Failed(S_QUERYDOMAININVALID)
    decreases |labels|
  {
    hide Scan, Hosts, Host, Dotted, Parse;
    NoLabels(s, nbytes, false);
    if labels == [] {
      assert p == |s|;
    } else {
      var l, more := labels[0], labels[1..];
      FirstDotted(s, p, labels);
      HostLabelReads(s, p, l);
      ParseStep(s, p, nbytes, false);
      HostsFirst(labels);
      if Host(l) {
        var end := p + |l|;
        RestDotted(s, end, more);
        DottedReads(s, if end < |s| then end + 1 else end, nbytes + |l| + 1, more);
        assert [l] + more == labels;
      }
    }
  }

  lemma RestDotted(s: Bytes, end: nat, more: seq<Bytes>)
    requires end <= |s| && (end < |s| ==> s[end + 1..] == Dotted(more)) && (end == |s| ==> more == [])
    ensures s[if end < |s| then end + 1 else end..] == Dotted(more)
  {
  }

  lemma HostLabelReads(s: Bytes, p: nat, name: Bytes)
    requires p + |name| <= |s| && s[p..p + |name|] == name && |name| < 255 && 46 !in name
    requires p + |name| < |s| ==> s[p + |name|] == 46
    ensures var end := p + |name|;
      Scan(s, p, [], false) == if Host(name) then Label(name, if end < |s| then end + 1 else end) else Bad
  {
    hide Plain, Scan;
    PlainLabelReads(s, p, [], name);
    Nothing(name);
  }

  /** Without quoting a name is taken, as it is, exactly when its labels have only letters and digits and, behind
      their first bytes, hyphens. */
  lemma PlainNameReads(labels: seq<Bytes>)
    requires Legal(labels) && forall l :: l in labels ==> 46 !in l
    ensures Parse(Dotted(labels), 0, 0, false)
         == if forall i, j :: 0 <= i < |labels| && 0 <= j < |labels[i]| ==>
                 || 65 <= labels[i][j] <= 90 || 97 <= labels[i][j] <= 122 || 48 <= labels[i][j] <= 57
                 || (labels[i][j] == 45 && j > 0)
            then Labels(labels) else Failed(S_QUERYDOMAININVALID)
  {
    hide Parse, Dotted, Hosts;
    assert Dotted(labels)[0..] == Dotted(labels);
    DottedReads(Dotted(labels), 0, 0, labels);
    HostsBytes(labels);
  }

  // The bytes that come back: the printing ones, and those whose octal number reads the same in decimal.
  predicate Survives(c: Byte) {
    33 <= c <= 126 || c < 8
  }

  lemma RereadIs(c: Byte)
    ensures Reread(c) == c <==> Survives(c)
  {
    if Octal(c) {
      var x, y, z := c / 64, c / 8 % 8, c % 8;
      assert c == 64 * x + 8 * y + z;
    }
  }

  /** A legal name comes back from its printed form iff all its bytes are of those. */
  lemma NameSurvives(labels: seq<Bytes>)
    requires Legal(labels)
    ensures Parse(Printed(labels), 0, 0, true) == Labels(labels)
      <==> forall i, j :: 0 <= i < |labels| && 0 <= j < |labels[i]| ==> Survives(labels[i][j])
  {
    PrintedNameReads(labels);
    hide Parse, Printed, Reread, Survives;
    if forall i, j :: 0 <= i < |labels| && 0 <= j < |labels[i]| ==> Survives(labels[i][j]) {
      forall i | 0 <= i < |labels| ensures Readable(labels[i]) && RereadAll(labels[i]) == labels[i] {
        forall j | 0 <= j < |labels[i]| ensures Reread(labels[i][j]) == labels[i][j] { RereadIs(labels[i][j]); }
      }
      assert RereadLabels(labels) == labels;
    }
    if AllReadable(labels) && RereadLabels(labels) == labels {
      forall i, j | 0 <= i < |labels| && 0 <= j < |labels[i]| ensures Survives(labels[i][j]) {
        assert RereadLabels(labels)[i] == RereadAll(labels[i]);
        assert RereadAll(labels[i])[j] == Reread(labels[i][j]);
        RereadIs(labels[i][j]);
      }
    }
  }
}
