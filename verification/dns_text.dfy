/** Domain names as text: adns prints labels with RFC 1035 quoting and reads names back into labels. */
module DnsText {

  const DNS_MAXLABEL := 63
  const DNS_MAXDOMAIN := 255

  const S_QUERYDOMAININVALID := 201
  const S_QUERYDOMAINTOOLONG := 202

  type Byte = b: int | 0 <= b < 256
  type Bytes = seq<Byte>
  type Label = seq<Byte>

  predicate Digit(c: int) {
    48 <= c <= 57
  }

  predicate Alpha(c: int) {
    65 <= c <= 90 || 97 <= c <= 122
  }

  // ctype_domainunquoted on a printing character: a letter, a digit or one of -_/+
  predicate Unquoted(c: int) {
    Alpha(c) || Digit(c) || c == 45 || c == 95 || c == 47 || c == 43
  }

  // ---- printing

  predicate Octal(c: int) {
    c <= 32 || c >= 127
  }

  // A backslash and three octal digits.
  function Octets(c: Byte): (q: Bytes) {
    var high, middle, low := 48 + c / 64, 48 + c / 8 % 8, 48 + c % 8;
    [92, high, middle, low]
  }

  // One byte: \ooo, as it is, or behind a backslash.
  function Quote(c: Byte): (q: Bytes) {
    if Octal(c) then Octets(c)
    else if Unquoted(c) then [c]
    else [92, c]
  }

  function Quoted(name: Label): (q: Bytes) {
    if name == [] then [] else Quote(name[0]) + Quoted(name[1..])
  }

  // The labels with dots between them.
  function Printed(labels: seq<Label>): (s: Bytes) {
    if labels == [] then []
    else if |labels| == 1 then Quoted(labels[0])
    else Quoted(labels[0]) + [46] + Printed(labels[1..])
  }

  lemma {:induction false} QuotedConcat(a: Label, b: Label)
    ensures Quoted(a + b) == Quoted(a) + Quoted(b)
  {
    if a == [] {
      assert a + b == b;
    } else {
      assert (a + b)[1..] == a[1..] + b;
      QuotedConcat(a[1..], b);
    }
  }

  lemma {:induction false} QuotedPlain(a: Label)
    requires forall i :: 0 <= i < |a| ==> !Octal(a[i]) && Unquoted(a[i])
    ensures Quoted(a) == a
  {
    if a != [] { QuotedPlain(a[1..]); }
  }

  // A run of plain bytes and the quoted byte behind it.
  lemma QuotedRun(rest: Bytes, i: nat)
    requires i <= |rest| && forall j :: 0 <= j < i ==> !Octal(rest[j]) && Unquoted(rest[j])
    ensures Quoted(rest) == if i < |rest| then rest[..i] + Quote(rest[i]) + Quoted(rest[i + 1..]) else rest[..i]
  {
    hide Quote, Octal, Unquoted, Quoted;
    var a, b := rest[..i], rest[i..];
    assert a + b == rest;
    QuotedPlain(a);
    QuotedConcat(a, b);
    QuotedFirst(b);
    if i < |rest| {
      assert b[0] == rest[i] && b[1..] == rest[i + 1..];
      assert a + (Quote(b[0]) + Quoted(b[1..])) == a + Quote(b[0]) + Quoted(b[1..]);
    }
  }

  lemma QuotedFirst(a: Label)
    ensures Quoted(a) == if a == [] then [] else Quote(a[0]) + Quoted(a[1..])
  {
  }

  /** vbuf__append_quoted1035: runs of plain bytes, each run but the last followed by a quoted byte. */
  method AppendQuoted(vb: Bytes, name: Label) returns (out: Bytes)
    ensures out == vb + Quoted(name)
  {
    hide Quoted, Quote, Octal, Unquoted;
    NothingQuoted();
    out := vb;
    var rest := name;
    while rest != []
      invariant out + Quoted(rest) == vb + Quoted(name)
      decreases |rest|
    {
      var i := 0;
      while i < |rest| && !Octal(rest[i]) && Unquoted(rest[i])
        invariant 0 <= i <= |rest|
        invariant forall j :: 0 <= j < i ==> !Octal(rest[j]) && Unquoted(rest[j])
      {
        i := i + 1;
      }
      QuotedRun(rest, i);
      ghost var was := out;
      out := out + rest[..i];
      if i < |rest| {
        var qbuf := QuoteByte(rest[i]);
        Regroup(was, rest[..i], qbuf, Quoted(rest[i + 1..]));
        out := out + qbuf;
        i := i + 1;
      }
      rest := rest[i..];
    }
  }

  lemma Regroup(a: Bytes, b: Bytes, c: Bytes, d: Bytes)
    ensures a + (b + c + d) == a + b + c + d
  {
  }

  lemma NothingQuoted()
    ensures Quoted([]) == []
  {
  }

  // What is printed for the byte that ends a run.
  method QuoteByte(ch: Byte) returns (qbuf: Bytes)
    requires Octal(ch) || !Unquoted(ch)
    ensures qbuf == Quote(ch)
  {
    if Octal(ch) {
      qbuf := Octets(ch);
    } else {
      qbuf := [92, ch];
    }
  }

  // ---- reading

  // The byte at a position; NUL behind the end.
  function At(s: Bytes, i: nat): Byte {
    if i < |s| then s[i] else 0
  }

  datatype Char = Char(c: Byte, next: nat) | NoChar

  function Decimal3(x: int, y: int, z: int): int {
    100 * (x - 48) + 10 * (y - 48) + (z - 48)
  }

  // One character, escapes undone: \ddd is decimal.
  function Unescape(s: Bytes, p: nat, quoteok: bool): (r: Char)
    requires p < |s|
    ensures r.Char? ==> p < r.next <= |s|
  {
    if s[p] != 92 then Char(s[p], p + 1)
    else if !quoteok then NoChar
    else if Digit(At(s, p + 1)) then
      if Digit(At(s, p + 2)) && Digit(At(s, p + 3)) then
        var v := Decimal3(s[p + 1], s[p + 2], s[p + 3]);
        if v >= 256 then NoChar else Char(v, p + 4)
      else NoChar
    else if At(s, p + 1) == 0 then NoChar
    else Char(s[p + 1], p + 2)
  }

  // What a label may hold when quoting is not allowed.
  predicate Plain(c: Byte, first: bool) {
    if c == 45 then !first else Alpha(c) || Digit(c)
  }

  // What a label of a host's name may hold.
  predicate Host(l: Label) {
    forall i :: 0 <= i < |l| ==> Plain(l[i], i == 0)
  }

  predicate Hosts(labels: seq<Label>) {
    forall i :: 0 <= i < |labels| ==> Host(labels[i])
  }

  /** Labels are hosts' when all their bytes are letters, digits or, behind the first, hyphens. */
  lemma HostsBytes(labels: seq<Label>)
    ensures Hosts(labels) <==> forall i, j :: 0 <= i < |labels| && 0 <= j < |labels[i]| ==>
              || 65 <= labels[i][j] <= 90 || 97 <= labels[i][j] <= 122 || 48 <= labels[i][j] <= 57
              || (labels[i][j] == 45 && j > 0)
  {
  }

  datatype Scanned = Label(name: Label, next: nat) | Bad

  // A label up to a dot or the end.
  function Scan(s: Bytes, p: nat, name: Label, quoteok: bool): (r: Scanned)
    requires p <= |s|
    ensures r.Label? ==> p <= r.next <= |s|
    ensures r.Label? && p < |s| ==> p < r.next
    decreases |s| - p
  {
    if p == |s| then Label(name, p)
    else if s[p] == 46 then Label(name, p + 1)
    else
      match Unescape(s, p, quoteok)
      case NoChar => Bad
      case Char(c, next) =>
        if (!quoteok && !Plain(c, name == [])) || |name| == 255 then Bad
        else Scan(s, next, name + [c], quoteok)
  }

  datatype Parsed = Labels(labels: seq<Label>) | Failed(status: int)

  // The labels of a name, as adns__mkquery takes them from its text.
  function Parse(s: Bytes, p: nat, nbytes: nat, quoteok: bool): (r: Parsed)
    requires p <= |s|
    decreases |s| - p
  {
    if p == |s| then Labels([])
    else
      match Scan(s, p, [], quoteok)
      case Bad => Failed(S_QUERYDOMAININVALID)
      case Label(name, next) =>
        if name == [] then Failed(S_QUERYDOMAININVALID)
        else if |name| > DNS_MAXLABEL then Failed(S_QUERYDOMAINTOOLONG)
        else if nbytes + |name| + 1 >= DNS_MAXDOMAIN then Failed(S_QUERYDOMAINTOOLONG)
        else
          match Parse(s, next, nbytes + |name| + 1, quoteok)
          case Failed(status) => Failed(status)
          case Labels(more) => Labels([name] + more)
  }

  // The labels in a message: each behind its length, then a zero.
  function Wire(labels: seq<Label>): (w: Bytes)
    requires forall l :: l in labels ==> |l| < 256
  {
    if labels == [] then [0] else [|labels[0]|] + labels[0] + Wire(labels[1..])
  }

  // Everything before the zero.
  function Body(labels: seq<Label>): (w: Bytes)
    requires forall l :: l in labels ==> |l| < 256
  {
    if labels == [] then [] else [|labels[0]|] + labels[0] + Body(labels[1..])
  }

  lemma {:induction false} WireBody(labels: seq<Label>)
    requires forall l :: l in labels ==> |l| < 256
    ensures Wire(labels) == Body(labels) + [0]
  {
    if labels != [] { WireBody(labels[1..]); }
  }

  lemma {:induction false} BodyLast(labels: seq<Label>, l: Label)
    requires (forall x :: x in labels ==> |x| < 256) && |l| < 256
    ensures forall x :: x in labels + [l] ==> |x| < 256
    ensures Body(labels + [l]) == Body(labels) + [|l|] + l
  {
    assert forall x :: x in labels + [l] ==> x in labels || x == l;
    if labels == [] {
      assert labels + [l] == [l];
    } else {
      assert (labels + [l])[1..] == labels[1..] + [l];
      BodyLast(labels[1..], l);
    }
  }

  lemma {:induction false} ParsedShort(s: Bytes, p: nat, nbytes: nat, quoteok: bool)
    requires p <= |s|
    ensures var r := Parse(s, p, nbytes, quoteok); r.Labels? ==> forall l :: l in r.labels ==> 1 <= |l| <= DNS_MAXLABEL
    decreases |s| - p
  {
    if p < |s| {
      var x := Scan(s, p, [], quoteok);
      if x.Label? { ParsedShort(s, x.next, nbytes + |x.name| + 1, quoteok); }
    }
  }
}
