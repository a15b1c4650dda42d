/** Words as rows of bits, most significant first, and OR-masks: the arithmetic under src/crypt.c. */
module DesBits {

  // bits32[i]: the word whose only set bit is bit i. bits8[j] is bits32[24 + j].
  function BITS32(i: nat): bv32
    requires i < 32
  {
    match i
    case 0 => 0x80000000 case 1 => 0x40000000 case 2 => 0x20000000 case 3 => 0x10000000 case 4 => 0x08000000
    case 5 => 0x04000000 case 6 => 0x02000000 case 7 => 0x01000000
    case 8 => 0x00800000 case 9 => 0x00400000 case 10 => 0x00200000 case 11 => 0x00100000 case 12 => 0x00080000
    case 13 => 0x00040000 case 14 => 0x00020000 case 15 => 0x00010000
    case 16 => 0x00008000 case 17 => 0x00004000 case 18 => 0x00002000 case 19 => 0x00001000 case 20 => 0x00000800
    case 21 => 0x00000400 case 22 => 0x00000200 case 23 => 0x00000100
    case 24 => 0x00000080 case 25 => 0x00000040 case 26 => 0x00000020 case 27 => 0x00000010 case 28 => 0x00000008
    case 29 => 0x00000004 case 30 => 0x00000002 case 31 => 0x00000001
  }

  function Or(a: bv32, b: bv32): bv32 {
    a | b
  }

  function And(a: bv32, b: bv32): bv32 {
    a & b
  }

  function Eor(a: bv32, b: bv32): bv32 {
    a ^ b
  }

  predicate Hits(w: bv32, mask: bv32) {
    w & mask != 0
  }

  predicate Bit(w: bv32, i: nat)
    requires i < 32
  {
    Hits(w, BITS32(i))
  }

  // ---- single bits

  predicate Hot(m: bv32) {
    m != 0 && m & (m - 1) == 0
  }

  lemma OneHot(i: nat)
    requires i < 32
    ensures Hot(BITS32(i))
  {
  }

  lemma Injective(i: nat, j: nat)
    requires i < 32 && j < 32 && i != j
    ensures BITS32(i) != BITS32(j)
  {
  }

  // The laws of masks, first in the bare operators, then about Hits.

  lemma OrRaw(a: bv32, b: bv32, m: bv32)
    ensures (a | b) & m != 0 <==> a & m != 0 || b & m != 0
  {
  }

  lemma AndRaw(a: bv32, b: bv32, m: bv32)
    requires Hot(m)
    ensures (a & b) & m != 0 <==> a & m != 0 && b & m != 0
  {
  }

  lemma XorRaw(a: bv32, b: bv32, m: bv32)
    requires Hot(m)
    ensures (a ^ b) & m != 0 <==> ((a & m != 0) != (b & m != 0))
  {
  }

  lemma HotRaw(a: bv32, b: bv32)
    requires Hot(a) && Hot(b)
    ensures a & b != 0 <==> a == b
  {
  }

  lemma OrMask(a: bv32, b: bv32, m: bv32)
    ensures Hits(a | b, m) <==> Hits(a, m) || Hits(b, m)
    ensures !Hits(0, m)
  {
    OrRaw(a, b, m);
  }

  lemma XorMask(a: bv32, b: bv32, m: bv32)
    requires Hot(m)
    ensures Hits(a ^ b, m) <==> Hits(a, m) != Hits(b, m)
  {
    XorRaw(a, b, m);
  }

  lemma AndMask(a: bv32, b: bv32, m: bv32)
    requires Hot(m)
    ensures Hits(a & b, m) <==> Hits(a, m) && Hits(b, m)
  {
    AndRaw(a, b, m);
  }

  lemma HotMask(a: bv32, b: bv32)
    requires Hot(a) && Hot(b)
    ensures Hits(a, b) <==> a == b
  {
    HotRaw(a, b);
  }

  lemma BitHits(w: bv32, i: nat)
    requires i < 32
    ensures Bit(w, i) <==> Hits(w, BITS32(i))
  {
    hide BITS32, Hits;
  }

  lemma OrBit(a: bv32, b: bv32, i: nat)
    requires i < 32
    ensures Bit(a | b, i) <==> Bit(a, i) || Bit(b, i)
  {
    hide *;
    OrMask(a, b, BITS32(i));
    BitHits(a, i);
    BitHits(b, i);
    BitHits(a | b, i);
  }

  lemma OrBitOf(a: bv32, b: bv32, i: nat)
    requires i < 32
    ensures Bit(Or(a, b), i) <==> Bit(a, i) || Bit(b, i)
  {
    hide Bit;
    OrBit(a, b, i);
  }

  lemma XorBit(a: bv32, b: bv32, i: nat)
    requires i < 32
    ensures Bit(a ^ b, i) <==> Bit(a, i) != Bit(b, i)
  {
    hide *;
    OneHot(i);
    XorMask(a, b, BITS32(i));
    BitHits(a, i);
    BitHits(b, i);
    BitHits(a ^ b, i);
  }

  lemma AndBit(a: bv32, b: bv32, i: nat)
    requires i < 32
    ensures Bit(a & b, i) <==> Bit(a, i) && Bit(b, i)
  {
    hide *;
    OneHot(i);
    AndMask(a, b, BITS32(i));
    BitHits(a, i);
    BitHits(b, i);
    BitHits(a & b, i);
  }

  lemma EorBit(a: bv32, b: bv32, i: nat)
    requires i < 32
    ensures Bit(Eor(a, b), i) <==> Bit(a, i) != Bit(b, i)
  {
    hide Bit;
    XorBit(a, b, i);
  }

  lemma AndBitOf(a: bv32, b: bv32, i: nat)
    requires i < 32
    ensures Bit(And(a, b), i) <==> Bit(a, i) && Bit(b, i)
  {
    hide Bit;
    AndBit(a, b, i);
  }

  lemma LowestMasks()
    ensures BITS32(24) == 0x80 && BITS32(25) == 0x40 && BITS32(26) == 0x20 && BITS32(27) == 0x10
    ensures BITS32(28) == 8 && BITS32(29) == 4 && BITS32(30) == 2 && BITS32(31) == 1
  {
  }

  lemma HitsIs(w: bv32, i: nat, m: bv32)
    requires i < 32 && BITS32(i) == m
    ensures Bit(w, i) == (w & m != 0)
  {
    hide BITS32;
  }

  lemma LowestBits(w: bv32)
    ensures Bit(w, 24) == (w & 0x80 != 0) && Bit(w, 25) == (w & 0x40 != 0)
    ensures Bit(w, 26) == (w & 0x20 != 0) && Bit(w, 27) == (w & 0x10 != 0)
    ensures Bit(w, 28) == (w & 8 != 0) && Bit(w, 29) == (w & 4 != 0)
    ensures Bit(w, 30) == (w & 2 != 0) && Bit(w, 31) == (w & 1 != 0)
  {
    hide *;
    LowestMasks();
    HitsIs(w, 24, 0x80);
    HitsIs(w, 25, 0x40);
    HitsIs(w, 26, 0x20);
    HitsIs(w, 27, 0x10);
    HitsIs(w, 28, 8);
    HitsIs(w, 29, 4);
    HitsIs(w, 30, 2);
    HitsIs(w, 31, 1);
  }

  lemma SmallRaw(w: bv32, m: bv32)
    requires w < 64 && Hot(m) && m >= 64
    ensures w & m == 0
  {
  }

  lemma BigMask(i: nat)
    requires i < 26
    ensures BITS32(i) >= 64
  {
  }

  lemma SmallMask(w: bv32, m: bv32)
    requires w < 64 && Hot(m) && m >= 64
    ensures !Hits(w, m)
  {
    SmallRaw(w, m);
  }

  // A six-bit number has no other bits.
  lemma SmallBit(w: bv32, i: nat)
    requires w < 64 && i < 26
    ensures !Bit(w, i)
  {
    BigMask(i);
    OneHot(i);
    hide BITS32, Hits, Hot;
    SmallMask(w, BITS32(i));
  }

  lemma ZeroBit(i: nat)
    requires i < 32
    ensures !Bit(0, i)
  {
    hide *;
    OrMask(0, 0, BITS32(i));
    BitHits(0, i);
  }

  lemma BitOfBits(i: nat, j: nat)
    requires i < 32 && j < 32
    ensures Bit(BITS32(i), j) <==> i == j
  {
    OneHot(i);
    OneHot(j);
    if i != j { Injective(i, j); }
    hide BITS32, Hits, Hot;
    HotMask(BITS32(i), BITS32(j));
  }

  lemma NoBits(c: bv32)
    requires forall i :: 0 <= i < 32 ==> !Bit(c, i)
    ensures c == 0
  {
    assert !Bit(c, 0) && !Bit(c, 1) && !Bit(c, 2) && !Bit(c, 3) && !Bit(c, 4) && !Bit(c, 5) && !Bit(c, 6) && !Bit(c, 7);
    assert !Bit(c, 8) && !Bit(c, 9) && !Bit(c, 10) && !Bit(c, 11) && !Bit(c, 12) && !Bit(c, 13) && !Bit(c, 14)
      && !Bit(c, 15);
    assert !Bit(c, 16) && !Bit(c, 17) && !Bit(c, 18) && !Bit(c, 19) && !Bit(c, 20) && !Bit(c, 21) && !Bit(c, 22)
      && !Bit(c, 23);
    assert !Bit(c, 24) && !Bit(c, 25) && !Bit(c, 26) && !Bit(c, 27) && !Bit(c, 28) && !Bit(c, 29) && !Bit(c, 30)
      && !Bit(c, 31);
  }

  /** A word is its bits. */
  lemma SameBits(a: bv32, b: bv32)
    requires forall i :: 0 <= i < 32 ==> (Bit(a, i) <==> Bit(b, i))
    ensures a == b
  {
    hide Bit;
    var c := a ^ b;
    forall i: nat | i < 32 ensures !Bit(c, i) {
      XorBit(a, b, i);
    }
    NoBits(c);
  }

  // ---- shifts

  function Shl(w: bv32, s: bv6): bv32
    requires s <= 32
  {
    w << s
  }

  function Shr(w: bv32, s: bv6): bv32
    requires s <= 32
  {
    w >> s
  }

  lemma ShiftNone(w: bv32)
    ensures Shl(w, 0) == w && Shr(w, 0) == w
  {
  }

  lemma ShiftSteps(w: bv32, s: bv6)
    requires 0 < s <= 32
    ensures Shl(w, s) == Shl(Shl(w, s - 1), 1)
    ensures Shr(w, s) == Shr(Shr(w, s - 1), 1)
    ensures (s - 1) as int == s as int - 1
  {
  }

  lemma NextBit(i: nat)
    requires i < 31
    ensures BITS32(i + 1) == Shr(BITS32(i), 1) && BITS32(i) == Shl(BITS32(i + 1), 1)
  {
    match i
    case 0 => case 1 => case 2 => case 3 => case 4 => case 5 => case 6 => case 7 =>
    case 8 => case 9 => case 10 => case 11 => case 12 => case 13 => case 14 => case 15 =>
    case 16 => case 17 => case 18 => case 19 => case 20 => case 21 => case 22 => case 23 =>
    case 24 => case 25 => case 26 => case 27 => case 28 => case 29 => case 30 =>
  }

  lemma EndBits()
    ensures Shr(BITS32(31), 1) == 0 && Shl(BITS32(0), 1) == 0
  {
  }

  lemma ShlRaw(w: bv32, m: bv32)
    ensures (w << 1) & m != 0 <==> w & (m >> 1) != 0
  {
  }

  lemma ShrRaw(w: bv32, m: bv32)
    ensures (w >> 1) & m != 0 <==> w & (m << 1) != 0
  {
  }

  lemma ShlMask(w: bv32, m: bv32)
    ensures Hits(Shl(w, 1), m) <==> Hits(w, Shr(m, 1))
  {
    ShlRaw(w, m);
  }

  lemma ShrMask(w: bv32, m: bv32)
    ensures Hits(Shr(w, 1), m) <==> Hits(w, Shl(m, 1))
  {
    ShrRaw(w, m);
  }

  lemma NoMask(w: bv32)
    ensures !Hits(w, 0)
  {
  }

  lemma BitShlOne(w: bv32, i: nat)
    requires i < 32
    ensures Bit(Shl(w, 1), i) <==> i < 31 && Bit(w, i + 1)
  {
    hide *;
    ShlMask(w, BITS32(i));
    BitHits(Shl(w, 1), i);
    if i < 31 {
      NextBit(i);
      BitHits(w, i + 1);
    } else {
      EndBits();
      NoMask(w);
    }
  }

  lemma BitShrOne(w: bv32, i: nat)
    requires i < 32
    ensures Bit(Shr(w, 1), i) <==> i > 0 && Bit(w, i - 1)
  {
    hide *;
    ShrMask(w, BITS32(i));
    BitHits(Shr(w, 1), i);
    if i > 0 {
      NextBit(i - 1);
      BitHits(w, i - 1);
    } else {
      EndBits();
      NoMask(w);
    }
  }

  lemma {:induction false} BitShl(w: bv32, s: bv6, i: nat)
    requires i < 32 && s <= 32
    ensures Bit(Shl(w, s), i) <==> i + s as int < 32 && Bit(w, i + s as int)
    decreases s
  {
    hide *;
    if s == 0 {
      ShiftNone(w);
    } else {
      ShiftSteps(w, s);
      BitShlOne(Shl(w, s - 1), i);
      if i < 31 { BitShl(w, s - 1, i + 1); }
    }
  }

  lemma {:induction false} BitShr(w: bv32, s: bv6, i: nat)
    requires i < 32 && s <= 32
    ensures Bit(Shr(w, s), i) <==> i >= s as int && Bit(w, i - s as int)
    decreases s
  {
    hide *;
    if s == 0 {
      ShiftNone(w);
    } else {
      ShiftSteps(w, s);
      BitShrOne(Shr(w, s - 1), i);
      if i > 0 { BitShr(w, s - 1, i - 1); }
    }
  }
}
