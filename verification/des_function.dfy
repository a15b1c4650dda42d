/** One evaluation of the cipher function f: 12-bit S-box tables, and P folded into OR-masks. */
module DesFunction {
  import opened DesBits
  import opened DesStandard
  import opened DesMasks
  import opened DesTables
  import opened DesWords

  // A 48-bit value held in two words of 24 bits.
  function Bits48(l: bv32, r: bv32): (b: Bits)
    ensures |b| == 48
  {
    LowBits(l, 24) + LowBits(r, 24)
  }

  lemma Bits48At(l: bv32, r: bv32, o: nat)
    requires o < 48
    ensures Bits48(l, r)[o] <==> if o < 24 then Bit(l, o + 8) else Bit(r, o - 16)
  {
    hide Bit;
  }

  lemma ExpandsTo(r: bv32)
    ensures Bits48(ExpandLeft(r), ExpandRight(r)) == Expand(WordBits(r))
  {
    hide Bit, E, ExpandLeft, ExpandRight, Bits48;
    var b := Bits48(ExpandLeft(r), ExpandRight(r));
    var x := Expand(WordBits(r));
    forall o: nat | o < 48 ensures b[o] == x[o] {
      Bits48At(ExpandLeft(r), ExpandRight(r), o);
      if o < 24 { ExpandLeftBit(r, o); } else { ExpandRightBit(r, o - 24); }
    }
  }

  lemma SaltedAt(x: Bits, salt: Bits, o: nat)
    requires |x| == 48 && |salt| == 24 && o < 48
    ensures o < 24 ==> Salted(x, salt)[o] == if salt[o] then x[o + 24] else x[o]
    ensures o >= 24 ==> Salted(x, salt)[o] == if salt[o - 24] then x[o - 24] else x[o]
  {
  }

  lemma MixesTo(l: bv32, r: bv32, salt: bv32, kl: bv32, kr: bv32)
    ensures Bits48(Mix(l, r, salt, kl), Mix(r, l, salt, kr))
         == Xor(Salted(Bits48(l, r), LowBits(salt, 24)), Bits48(kl, kr))
  {
    hide Bit, Mix, Bits48, LowBits, Salted;
    var m, x, k := Bits48(Mix(l, r, salt, kl), Mix(r, l, salt, kr)), Bits48(l, r), Bits48(kl, kr);
    var y := Salted(x, LowBits(salt, 24));
    forall o: nat | o < 48 ensures m[o] == Xor(y, k)[o] {
      MixedAt(l, r, salt, kl, kr, o);
    }
  }

  lemma MixedAt(l: bv32, r: bv32, salt: bv32, kl: bv32, kr: bv32, o: nat)
    requires o < 48
    ensures var y := Salted(Bits48(l, r), LowBits(salt, 24));
            Bits48(Mix(l, r, salt, kl), Mix(r, l, salt, kr))[o] == (y[o] != Bits48(kl, kr)[o])
  {
    hide Bit, Mix, Bits48, LowBits, Salted;
    LowBitAt(salt, 24);
    Bits48At(Mix(l, r, salt, kl), Mix(r, l, salt, kr), o);
    Bits48At(l, r, o);
    Bits48At(kl, kr, o);
    SaltedAt(Bits48(l, r), LowBits(salt, 24), o);
    if o < 24 {
      Bits48At(l, r, o + 24);
      MixBit(l, r, salt, kl, o + 8);
    } else {
      Bits48At(l, r, o - 24);
      MixBit(r, l, salt, kr, o - 16);
    }
  }

  // ---- the S-boxes

  // The six input bits reordered: row from the outer two, column from the inner four.
  function Reorder(j: bv32): bv32 {
    (j & 0x20) | ((j & 1) << 4) | ((j >> 1) & 0xf)
  }

  lemma ReorderRaw(j: bv32, x0: bool, x1: bool, x2: bool, x3: bool, x4: bool, x5: bool)
    requires j < 64
    requires x0 == (j & 0x20 != 0) && x1 == (j & 0x10 != 0) && x2 == (j & 8 != 0)
    requires x3 == (j & 4 != 0) && x4 == (j & 2 != 0) && x5 == (j & 1 != 0)
    ensures Reorder(j) as int == 16 * (2 * Num(x0) + Num(x5)) + 8 * Num(x1) + 4 * Num(x2) + 2 * Num(x3) + Num(x4)
  {
  }

  lemma SixBits(j: bv32)
    ensures var b := LowBits(j, 6);
      && b[0] == (j & 0x20 != 0) && b[1] == (j & 0x10 != 0) && b[2] == (j & 8 != 0)
      && b[3] == (j & 4 != 0) && b[4] == (j & 2 != 0) && b[5] == (j & 1 != 0)
  {
    LowBitAt(j, 6);
    LowestBits(j);
    hide Bit, LowBits;
  }

  lemma ReorderIs(j: bv32)
    requires j < 64
    ensures Reorder(j) as int == RowColumn(LowBits(j, 6))
  {
    hide Reorder, LowBits;
    var b := LowBits(j, 6);
    SixBits(j);
    ReorderRaw(j, b[0], b[1], b[2], b[3], b[4], b[5]);
  }

  // A loop counter below 64 as a word.
  function Six(i: nat): bv32
    requires i < 64
  {
    (i as bv6) as bv32
  }

  lemma SixIs(i: nat)
    requires i < 64
    ensures Six(i) as int == i && Six(i) < 64
  {
  }

  // u_sbox[b][j]
  function Inverted(b: nat, j: nat): Nibble
    requires b < 8 && j < 64
  {
    SixIs(j);
    ReorderIs(Six(j));
    SBox(b, Reorder(Six(j)) as int)
  }

  lemma InvertedIs(b: nat, j: nat)
    requires b < 8 && j < 64
    ensures Inverted(b, j) == SBox(b, RowColumn(LowBits(Six(j), 6)))
  {
    SixIs(j);
    ReorderIs(Six(j));
    hide SBox, Reorder, LowBits, RowColumn, Six;
  }

  // (a << 4) | c
  function Pack(a: bv32, c: bv32): bv32 {
    (a << 4) | c
  }

  // m_sbox[b][w]: two adjacent boxes side by side.
  function Paired(b: nat, w: nat): bv32
    requires b < 4 && w < 4096
  {
    Pack(Inverted(2 * b, w / 64), Inverted(2 * b + 1, w % 64))
  }

  ghost predicate PairRow(row: seq<bv32>, b: nat)
    requires b < 4
  {
    |row| == 4096 && forall w :: 0 <= w < 4096 ==> row[w] == Paired(b, w)
  }

  // One of the four 12-bit tables, with the inverted S-boxes looked up on the way.
  method PairTable(b: nat) returns (row: seq<bv32>)
    requires b < 4
    ensures PairRow(row, b)
  {
    hide Inverted, Pack;
    var m := new bv32[4096];
    var i := 0;
    while i < 64
      invariant 0 <= i <= 64
      invariant forall w :: 0 <= w < 64 * i ==> m[w] == Paired(b, w)
    {
      var j := 0;
      while j < 64
        invariant 0 <= j <= 64
        invariant forall w :: 0 <= w < 64 * i + j ==> m[w] == Paired(b, w)
      {
        m[64 * i + j] := Pack(Inverted(2 * b, i), Inverted(2 * b + 1, j));
        j := j + 1;
      }
      i := i + 1;
    }
    row := m[..];
  }

  // ---- a 12-bit lookup

  // (i << 6) | j, and the two parts of a 12-bit index
  function Index(i: bv32, j: bv32): bv32 {
    (i << 6) | j
  }

  lemma IndexIs(i: bv32, j: bv32)
    requires i < 64 && j < 64
    ensures Index(i, j) as int == 64 * (i as int) + j as int
  {
  }

  lemma IndexedBy(w: bv32, i: nat, j: nat)
    requires i < 64 && j < 64 && w as int == 64 * i + j
    ensures w == Index(Six(i), Six(j))
  {
    hide *;
    SixIs(i);
    SixIs(j);
    IndexIs(Six(i), Six(j));
    SameValue(w, Index(Six(i), Six(j)), 64 * i + j);
  }

  lemma SameValue(v: bv32, w: bv32, n: nat)
    requires n < 4096 && v as int == n && w as int == n
    ensures v == w
  {
    hide *;
    OnlyIndex(v, n);
    OnlyIndex(w, n);
  }

  lemma NibblesRaw(a: bv32, c: bv32)
    requires a < 16 && c < 16
    ensures (a << 4) | c < 256
    ensures ((a << 4) | c) & 0x80 != 0 <==> a & 8 != 0
    ensures ((a << 4) | c) & 0x40 != 0 <==> a & 4 != 0
    ensures ((a << 4) | c) & 0x20 != 0 <==> a & 2 != 0
    ensures ((a << 4) | c) & 0x10 != 0 <==> a & 1 != 0
    ensures ((a << 4) | c) & 8 != 0 <==> c & 8 != 0
    ensures ((a << 4) | c) & 4 != 0 <==> c & 4 != 0
    ensures ((a << 4) | c) & 2 != 0 <==> c & 2 != 0
    ensures ((a << 4) | c) & 1 != 0 <==> c & 1 != 0
  {
  }

  // The four bits of a primitive function's value.
  function Nibbles(a: bv32, c: bv32, t: nat): bool
    requires t < 8
  {
    if t < 4 then NibbleBit(a, t) else NibbleBit(c, t - 4)
  }

  lemma PackBits(a: bv32, c: bv32, t: nat)
    requires a < 16 && c < 16 && t < 8
    ensures LowBits(Pack(a, c), 8)[t] == Nibbles(a, c, t)
  {
    LowBitAt(Pack(a, c), 8);
    LowestBits(Pack(a, c));
    NibblesRaw(a, c);
    PackIs(a, c);
    hide Bit, Pack, LowBits;
  }

  lemma PackIs(a: bv32, c: bv32)
    ensures Pack(a, c) == (a << 4) | c
  {
  }

  lemma IndexOr(i: bv32, j: bv32)
    ensures Index(i, j) == Or(Shl(i, 6), j)
  {
  }

  lemma IndexBitAt(i: bv32, j: bv32, t: nat)
    requires i < 64 && j < 64 && t < 12
    ensures Bit(Index(i, j), 20 + t) <==> if t < 6 then Bit(i, 26 + t) else Bit(j, 20 + t)
  {
    hide Bit, Index, Or, Shl;
    IndexOr(i, j);
    OrBitOf(Shl(i, 6), j, 20 + t);
    BitShl(i, 6, 20 + t);
    if t < 6 { SmallBit(j, 20 + t); }
  }

  lemma IndexBits(i: bv32, j: bv32)
    requires i < 64 && j < 64
    ensures LowBits(Index(i, j), 12) == LowBits(i, 6) + LowBits(j, 6)
  {
    hide Bit, LowBits, Index;
    LowBitAt(Index(i, j), 12);
    LowBitAt(i, 6);
    LowBitAt(j, 6);
    var b, c := LowBits(Index(i, j), 12), LowBits(i, 6) + LowBits(j, 6);
    forall t: nat | t < 12 ensures b[t] == c[t] { IndexBitAt(i, j, t); }
  }

  /** A 12-bit lookup substitutes the two adjacent groups of six. */
  lemma PairLookup(row: seq<bv32>, b: nat, w: bv32, t: nat)
    requires b < 4 && PairRow(row, b) && w as int < 4096 && t < 8
    ensures LowBits(row[w as int], 8)[t]
         == NibbleBit(SBox(2 * b + t / 4, RowColumn(LowBits(w, 12)[6 * (t / 4)..6 * (t / 4) + 6])), t % 4)
  {
    hide *;
    PairEntry(row, b, w as int);
    var i, j := w as int / 64, w as int % 64;
    IndexedBy(w, i, j);
    SixIs(i);
    SixIs(j);
    IndexBits(Six(i), Six(j));
    InvertedIs(2 * b, i);
    InvertedIs(2 * b + 1, j);
    PackBits(Inverted(2 * b, i), Inverted(2 * b + 1, j), t);
    NibblesAt(Inverted(2 * b, i), Inverted(2 * b + 1, j), t);
    var x := LowBits(w, 12);
    assert x[0..6] == LowBits(Six(i), 6) && x[6..12] == LowBits(Six(j), 6);
  }

  lemma PairEntry(row: seq<bv32>, b: nat, w: nat)
    requires b < 4 && PairRow(row, b) && w < 4096
    ensures |row| == 4096 && row[w] == Pack(Inverted(2 * b, w / 64), Inverted(2 * b + 1, w % 64))
  {
    hide Inverted, Pack;
  }

  lemma NibblesAt(a: bv32, c: bv32, t: nat)
    requires t < 8
    ensures Nibbles(a, c, t) == NibbleBit(if t / 4 == 0 then a else c, t % 4)
  {
    hide NibbleBit;
  }
}
