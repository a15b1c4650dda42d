/** Text conversions the channel protocol relies on: "%d"/"%lu" printing, atoi, and the strcmp order on keys. */
module Text {

  datatype Option<+T> = None | Some(value: T)

  predicate IsDigit(c: char) {
    '0' <= c <= '9'
  }

  function Digit(d: nat): char
    requires d < 10
  {
    ('0' as int + d) as char
  }

  // "%lu"
  function Decimal(n: nat): string {
    if n < 10 then [Digit(n)] else Decimal(n / 10) + [Digit(n % 10)]
  }

  // "%d"
  function SignedDecimal(n: int): string {
    if n < 0 then "-" + Decimal(-n) else Decimal(n)
  }

  /** The digits atoi consumes from the front of s, appended to the value read so far. */
  function AtoiDigits(s: string, acc: nat): nat {
    if s != [] && IsDigit(s[0]) then AtoiDigits(s[1..], 10 * acc + (s[0] as int - '0' as int)) else acc
  }

  function Atoi(s: string): int {
    if s != [] && s[0] == '-' then 0 - AtoiDigits(s[1..], 0)
    else if s != [] && s[0] == '+' then AtoiDigits(s[1..], 0)
    else AtoiDigits(s, 0)
  }

  // acc shifted left by the number of decimal digits of n
  function Shifted(acc: nat, n: nat): nat {
    if n < 10 then 10 * acc else 10 * Shifted(acc, n / 10)
  }

  lemma {:induction false} ShiftedZero(n: nat)
    ensures Shifted(0, n) == 0
  {
    if n >= 10 {
      ShiftedZero(n / 10);
    }
  }

  lemma {:induction false} DecimalReads(n: nat, acc: nat, rest: string)
    ensures AtoiDigits(Decimal(n) + rest, acc) == AtoiDigits(rest, Shifted(acc, n) + n)
  {
    if n < 10 {
      assert (Decimal(n) + rest)[1..] == rest;
    } else {
      var d := [Digit(n % 10)];
      assert Decimal(n) + rest == Decimal(n / 10) + (d + rest);
      DecimalReads(n / 10, acc, d + rest);
      assert (d + rest)[1..] == rest;
    }
  }

  lemma {:induction false} DecimalStartsWithDigit(n: nat)
    ensures Decimal(n) != [] && IsDigit(Decimal(n)[0])
  {
    if n >= 10 {
      DecimalStartsWithDigit(n / 10);
    }
  }

  /** atoi undoes "%d". */
  lemma {:induction false} AtoiUndoesPrint(n: int)
    ensures Atoi(SignedDecimal(n)) == n
  {
    var m := if n < 0 then -n else n;
    DecimalStartsWithDigit(m);
    DecimalReads(m, 0, []);
    ShiftedZero(m);
    assert Decimal(m) + [] == Decimal(m);
    if n < 0 {
      assert SignedDecimal(n)[1..] == Decimal(m);
    }
  }

  function Pow10(k: nat): nat {
    if k == 0 then 1 else 10 * Pow10(k - 1)
  }

  lemma {:induction false} DecimalLength(n: nat, k: nat)
    requires k > 0 && n < Pow10(k)
    ensures |Decimal(n)| <= k
  {
    if n >= 10 {
      DecimalLength(n / 10, k - 1);
    }
  }

  /** strcmp(a, b) < 0 */
  predicate Less(a: string, b: string) {
    if b == [] then false
    else if a == [] then true
    else if a[0] != b[0] then a[0] < b[0]
    else Less(a[1..], b[1..])
  }

  /** One key is less than another exactly when, at the first place where they differ, it has
      the smaller character or has already ended. */
  lemma {:induction false} LessAtFirstDifference(a: string, b: string)
    ensures Less(a, b) <==> exists k: nat ::
              k <= |a| && k < |b| && a[..k] == b[..k] && (k == |a| || a[k] < b[k])
  {
    if b == [] {
    } else if a == [] || a[0] != b[0] {
      assert a[..0] == b[..0];
      assert forall k: nat | 0 < k <= |a| && k < |b| && a[..k] == b[..k] :: a[..k][0] == b[..k][0];
    } else {
      LessAtFirstDifference(a[1..], b[1..]);
      if k: nat :| k <= |a| && k < |b| && a[..k] == b[..k] && (k == |a| || a[k] < b[k]) {
        assert a[1..][..k - 1] == a[..k][1..];
        assert b[1..][..k - 1] == b[..k][1..];
      }
      if j: nat :| j < |a| && j < |b| - 1 && a[1..][..j] == b[1..][..j] && (j == |a| - 1 || a[1..][j] < b[1..][j]) {
        assert a[..j + 1] == [a[0]] + a[1..][..j];
        assert b[..j + 1] == [b[0]] + b[1..][..j];
      }
    }
  }

  // The larger of two keys, as the key merge of m_sjoin keeps it.
  function MaxKey(a: string, b: string): string {
    if Less(a, b) then b else a
  }

  lemma {:induction false} LessTotal(a: string, b: string)
    ensures Less(a, b) || Less(b, a) || a == b
    ensures !(Less(a, b) && Less(b, a))
  {
    if a != [] && b != [] && a[0] == b[0] {
      LessTotal(a[1..], b[1..]);
      if a[1..] == b[1..] {
        assert a == [a[0]] + a[1..] && b == [b[0]] + b[1..];
      }
    }
  }

  lemma {:induction false} LessTransitive(a: string, b: string, c: string)
    requires Less(a, b) && Less(b, c)
    ensures Less(a, c)
  {
    if a != [] && b != [] && c != [] && a[0] == b[0] == c[0] {
      LessTransitive(a[1..], b[1..], c[1..]);
    }
  }

  /** MaxKey is a join: commutative, associative, idempotent, with the empty key at the bottom. */
  lemma MaxKeyJoin(a: string, b: string, c: string)
    ensures MaxKey(a, b) == MaxKey(b, a)
    ensures MaxKey(MaxKey(a, b), c) == MaxKey(a, MaxKey(b, c))
    ensures MaxKey(a, a) == a && MaxKey(a, []) == a && MaxKey([], a) == a
  {
    LessTotal(a, b); LessTotal(b, c); LessTotal(a, c); LessTotal(a, a);
    if Less(a, b) && Less(b, c) { LessTransitive(a, b, c); }
    if Less(c, b) && Less(b, a) { LessTransitive(c, b, a); }
    if Less(b, a) && Less(a, c) { LessTransitive(b, a, c); }
    if Less(c, a) && Less(a, b) { LessTransitive(c, a, b); }
    if Less(b, c) && Less(c, a) { LessTransitive(b, c, a); }
    if Less(a, c) && Less(c, b) { LessTransitive(a, c, b); }
  }
}
