/** The word arithmetic of one round: E by masks and shifts, then salt and key. */
module DesWords {
  import opened DesBits
  import opened DesStandard

  // ---- E by shifting

  function ExpandLeft(r: bv32): bv32 {
    ((r & 0x00000001) << 23) | ((r & 0xf8000000) >> 9) | ((r & 0x1f800000) >> 11)
    | ((r & 0x01f80000) >> 13) | ((r & 0x001f8000) >> 15)
  }

  function ExpandRight(r: bv32): bv32 {
    ((r & 0x0001f800) << 7) | ((r & 0x00001f80) << 5) | ((r & 0x000001f8) << 3)
    | ((r & 0x0000001f) << 1) | ((r & 0x80000000) >> 31)
  }

  // (r & mask) << s and (r & mask) >> s
  function Up(r: bv32, mask: bv32, s: bv6): bv32
    requires s <= 32
  {
    Shl(And(r, mask), s)
  }

  function Down(r: bv32, mask: bv32, s: bv6): bv32
    requires s <= 32
  {
    Shr(And(r, mask), s)
  }

  // The five fields ORed together.
  function Fields(a: bv32, b: bv32, c: bv32, d: bv32, e: bv32): bv32 {
    Or(Or(Or(Or(a, b), c), d), e)
  }

  lemma LeftFields(r: bv32)
    ensures ExpandLeft(r) == Fields(Up(r, 0x00000001, 23), Down(r, 0xf8000000, 9), Down(r, 0x1f800000, 11),
                                    Down(r, 0x01f80000, 13), Down(r, 0x001f8000, 15))
  {
  }

  lemma RightFields(r: bv32)
    ensures ExpandRight(r) == Fields(Up(r, 0x0001f800, 7), Up(r, 0x00001f80, 5), Up(r, 0x000001f8, 3),
                                     Up(r, 0x0000001f, 1), Down(r, 0x80000000, 31))
  {
    hide Shl, Shr;
    UpIs(r & 0x0001f800);
    UpIs(r & 0x00001f80);
    UpIs(r & 0x000001f8);
    UpIs(r & 0x0000001f);
    DownIs(r & 0x80000000);
  }

  lemma UpIs(w: bv32)
    ensures Shl(w, 7) == w << 7 && Shl(w, 5) == w << 5 && Shl(w, 3) == w << 3 && Shl(w, 1) == w << 1
  {
  }

  lemma DownIs(w: bv32)
    ensures Shr(w, 31) == w >> 31
  {
  }

  lemma FieldsBit(a: bv32, b: bv32, c: bv32, d: bv32, e: bv32, i: nat)
    requires i < 32
    ensures Bit(Fields(a, b, c, d, e), i) <==> Bit(a, i) || Bit(b, i) || Bit(c, i) || Bit(d, i) || Bit(e, i)
  {
    hide Bit, Or;
    OrBitOf(a, b, i);
    OrBitOf(Or(a, b), c, i);
    OrBitOf(Or(Or(a, b), c), d, i);
    OrBitOf(Or(Or(Or(a, b), c), d), e, i);
  }

  // The mask's bits are lo..hi-1.
  predicate Spans(mask: bv32, lo: nat, hi: nat) {
    forall i: nat :: i < 32 ==> (Bit(mask, i) <==> lo <= i < hi)
  }

  lemma Spans00000001()
    ensures Spans(0x00000001, 31, 32)
  {
  }

  lemma SpansF8000000()
    ensures Spans(0xf8000000, 0, 5)
  {
  }

  lemma Spans1F800000()
    ensures Spans(0x1f800000, 3, 9)
  {
  }

  lemma Spans01F80000()
    ensures Spans(0x01f80000, 7, 13)
  {
  }

  lemma Spans001F8000()
    ensures Spans(0x001f8000, 11, 17)
  {
  }

  lemma Spans0001F800()
    ensures Spans(0x0001f800, 15, 21)
  {
  }

  lemma Spans00001F80()
    ensures Spans(0x00001f80, 19, 25)
  {
  }

  lemma Spans000001F8()
    ensures Spans(0x000001f8, 23, 29)
  {
  }

  lemma Spans0000001F()
    ensures Spans(0x0000001f, 27, 32)
  {
  }

  lemma Spans80000000()
    ensures Spans(0x80000000, 0, 1)
  {
  }

  lemma FieldUp(r: bv32, mask: bv32, lo: nat, hi: nat, s: bv6, i: nat)
    requires Spans(mask, lo, hi) && s <= 32 && i < 32
    ensures Bit(Up(r, mask, s), i) <==> i + s as int < 32 && lo <= i + s as int < hi && Bit(r, i + s as int)
  {
    hide Bit, Shl, And;
    BitShl(And(r, mask), s, i);
    if i + s as int < 32 { AndBitOf(r, mask, i + s as int); }
  }

  lemma FieldDown(r: bv32, mask: bv32, lo: nat, hi: nat, s: bv6, i: nat)
    requires Spans(mask, lo, hi) && s <= 32 && i < 32
    ensures Bit(Down(r, mask, s), i) <==> i >= s as int && lo <= i - s as int < hi && Bit(r, i - s as int)
  {
    hide Bit, Shr, And;
    BitShr(And(r, mask), s, i);
    if i >= s as int { AndBitOf(r, mask, i - s as int); }
  }

  // E in closed form: groups of six, each starting two before the end of the last, around the corner.
  function EGroup(o: nat): nat {
    if o == 0 then 32 else if o < 6 then o else if o < 12 then o - 2 else if o < 18 then o - 4 else if o < 24 then o - 6
    else if o < 30 then o - 8 else if o < 36 then o - 10 else if o < 42 then o - 12 else if o < 47 then o - 14 else 1
  }

  lemma EAt(o: nat)
    requires o < 48
    ensures E(o) == EGroup(o)
  {
    if o < 24 { EAtLow(o); } else { EAtHigh(o); }
  }

  lemma EAtLow(o: nat)
    requires o < 24
    ensures E(o) == EGroup(o)
  {
    match o
    case 0 => case 1 => case 2 => case 3 => case 4 => case 5 => case 6 => case 7 => case 8 => case 9 => case 10 =>
    case 11 => case 12 => case 13 => case 14 => case 15 =>
    case 16 => case 17 => case 18 => case 19 => case 20 => case 21 => case 22 => case 23 =>
  }

  lemma EAtHigh(o: nat)
    requires 24 <= o < 48
    ensures E(o) == EGroup(o)
  {
    match o
    case 24 => case 25 => case 26 => case 27 => case 28 => case 29 => case 30 => case 31 => case 32 => case 33 =>
    case 34 => case 35 =>
    case 36 => case 37 => case 38 => case 39 => case 40 => case 41 => case 42 => case 43 => case 44 => case 45 =>
    case 46 => case 47 =>
  }

  lemma ExpandLeftBit(r: bv32, o: nat)
    requires o < 24
    ensures Bit(ExpandLeft(r), o + 8) <==> Bit(r, E(o) - 1)
  {
    hide Bit, ExpandLeft, ExpandRight, Fields, Up, Down, E, Spans;
    EAt(o);
    LeftFields(r);
    Spans00000001(); SpansF8000000(); Spans1F800000(); Spans01F80000(); Spans001F8000();
    FieldsBit(Up(r, 0x00000001, 23), Down(r, 0xf8000000, 9), Down(r, 0x1f800000, 11), Down(r, 0x01f80000, 13),
      Down(r, 0x001f8000, 15), o + 8);
    FieldUp(r, 0x00000001, 31, 32, 23, o + 8);
    FieldDown(r, 0xf8000000, 0, 5, 9, o + 8);
    FieldDown(r, 0x1f800000, 3, 9, 11, o + 8);
    FieldDown(r, 0x01f80000, 7, 13, 13, o + 8);
    FieldDown(r, 0x001f8000, 11, 17, 15, o + 8);
  }

  lemma ExpandRightBit(r: bv32, o: nat)
    requires o < 24
    ensures Bit(ExpandRight(r), o + 8) <==> Bit(r, E(o + 24) - 1)
  {
    hide Bit, ExpandLeft, ExpandRight, Fields, Up, Down, E, Spans;
    EAt(o + 24);
    RightFields(r);
    Spans0001F800(); Spans00001F80(); Spans000001F8(); Spans0000001F(); Spans80000000();
    FieldsBit(Up(r, 0x0001f800, 7), Up(r, 0x00001f80, 5), Up(r, 0x000001f8, 3), Up(r, 0x0000001f, 1), Down(r,
      0x80000000, 31), o + 8);
    FieldUp(r, 0x0001f800, 15, 21, 7, o + 8);
    FieldUp(r, 0x00001f80, 19, 25, 5, o + 8);
    FieldUp(r, 0x000001f8, 23, 29, 3, o + 8);
    FieldUp(r, 0x0000001f, 27, 32, 1, o + 8);
    FieldDown(r, 0x80000000, 0, 1, 31, o + 8);
  }

  lemma ExpandSmall(r: bv32)
    ensures ExpandLeft(r) < 0x1000000 && ExpandRight(r) < 0x1000000
  {
  }

  // ---- the salt and the key

  // f = (own ^ other) & salt; own ^= f ^ k
  function Mix(own: bv32, other: bv32, salt: bv32, k: bv32): bv32 {
    Eor(own, Eor(And(Eor(own, other), salt), k))
  }

  lemma MixSmall(own: bv32, other: bv32, salt: bv32, k: bv32)
    requires own < 0x1000000 && salt < 0x1000000 && k < 0x1000000
    ensures Mix(own, other, salt, k) < 0x1000000
  {
  }

  lemma MixBit(own: bv32, other: bv32, salt: bv32, k: bv32, i: nat)
    requires i < 32
    ensures Bit(Mix(own, other, salt, k), i) <==> (if Bit(salt, i) then Bit(other, i) else Bit(own, i)) != Bit(k, i)
  {
    hide Bit, Eor, And;
    var d := Eor(own, other);
    var f := And(d, salt);
    EorBit(own, other, i);
    AndBitOf(d, salt, i);
    EorBit(f, k, i);
    EorBit(own, Eor(f, k), i);
  }
}
