/** The initial and final permutation as table lookups. */
module DesPermute {
  import opened DesBits
  import opened DesStandard
  import opened DesMasks
  import opened DesTables
  import opened DesLookup
  import opened DesWords

  // Two words as one row of 64 bits.
  function Bits64(l: bv32, r: bv32): (b: Bits)
    ensures |b| == 64
  {
    WordBits(l) + WordBits(r)
  }

  lemma Bits64At(l: bv32, r: bv32, x: nat)
    requires x < 64
    ensures Bits64(l, r)[x] == if x < 32 then Bit(l, x) else Bit(r, x - 32)
  {
    hide Bit;
  }

  // (w >> s) & 0xff
  function Byte(w: bv32, s: bv6): bv32
    requires s <= 24
  {
    And(Shr(w, s), 0xff)
  }

  function ByteShift(k: nat): bv6
    requires k < 4
  {
    match k
    case 0 => 24 case 1 => 16 case 2 => 8 case 3 => 0
  }

  // The k-th byte of two words.
  function ByteOf(l: bv32, r: bv32, k: nat): bv32
    requires k < 8
  {
    Byte(if k < 4 then l else r, ByteShift(k % 4))
  }

  function Bytes64(l: bv32, r: bv32): (v: seq<bv32>)
    ensures |v| == 8
  {
    seq(8, k requires 0 <= k < 8 => ByteOf(l, r, k))
  }

  lemma ByteSmall(w: bv32, s: bv6)
    requires s <= 24
    ensures Byte(w, s) as int < 256
  {
    hide Shr;
  }

  lemma Spans255()
    ensures Spans(0xff, 24, 32)
  {
  }

  lemma ByteBit(w: bv32, s: bv6, j: nat)
    requires s <= 24 && j < 8
    ensures Bit(Byte(w, s), 24 + j) <==> Bit(w, 24 + j - s as int)
  {
    Spans255();
    hide Bit, Shr, And;
    AndBitOf(Shr(w, s), 0xff, 24 + j);
    BitShr(w, s, 24 + j);
  }

  lemma ByteShiftIs(k: nat)
    requires k < 4
    ensures ByteShift(k) <= 24 && ByteShift(k) as int == 24 - 8 * k
  {
  }

  lemma ByteBitAt(w: bv32, m: nat, j: nat)
    requires m < 4 && j < 8
    ensures LowBits(Byte(w, ByteShift(m)), 8)[j] == Bit(w, 8 * m + j)
  {
    ByteShiftIs(m);
    LowBitAt(Byte(w, ByteShift(m)), 8);
    hide *;
    ByteBit(w, ByteShift(m), j);
  }

  lemma BytesBits(l: bv32, r: bv32, k: nat, j: nat)
    requires k < 8 && j < 8
    ensures LowBits(Bytes64(l, r)[k], 8)[j] == Bits64(l, r)[8 * k + j]
  {
    hide *;
    ByteOfIs(l, r, k);
    Bits64At(l, r, 8 * k + j);
    if k < 4 { ByteBitAt(l, k, j); } else { ByteBitAt(r, k - 4, j); }
  }

  lemma ByteOfIs(l: bv32, r: bv32, k: nat)
    requires k < 8
    ensures Bytes64(l, r)[k] == ByteOf(l, r, k)
    ensures ByteOf(l, r, k) == if k < 4 then Byte(l, ByteShift(k)) else Byte(r, ByteShift(k - 4))
  {
    hide Byte, ByteShift;
  }

  lemma EightParts(k: nat, j: nat, x: nat)
    requires j < 8
    ensures 8 * k + j == x <==> k == x / 8 && j == x % 8
  {
  }

  // ---- one destination

  ghost predicate ByteTable(t: Table) {
    |t| == 8 && forall k :: 0 <= k < 8 ==> |t[k]| == 256
  }

  lemma BytesIndex(t: Table, l: bv32, r: bv32)
    requires ByteTable(t)
    ensures Indexes(t, Bytes64(l, r))
  {
    hide Byte, ByteShift;
    forall k | 0 <= k < 8 ensures Bytes64(l, r)[k] as int < 256 {
      ByteShiftIs(k % 4);
      ByteSmall(if k < 4 then l else r, ByteShift(k % 4));
    }
  }

  lemma MovedBit(t: Table, dest: seq<seq<int>>, l: bv32, r: bv32, o: nat, x: nat)
    requires MaskTable(t, dest, 8) && |t| == 8 && ByteTable(t) && o < 32 && x < 64 && NamedBy(dest, o, x)
    ensures Indexes(t, Bytes64(l, r))
    ensures Bit(LookUp(t, Bytes64(l, r), 8), o) <==> Bits64(l, r)[x]
  {
    hide Bit, Bytes64, Bits64, LookUp, LowBits, MaskRow, MaskTable, ByteTable, Indexes, NamedOnce, NamedBy;
    BytesIndex(t, l, r);
    NamedAt(dest, o, x);
    MovedAt(t, dest, l, r, o, x / 8, x % 8);
  }

  // Destination o is named for source bit x only.
  ghost predicate NamedBy(dest: seq<seq<int>>, o: nat, x: nat) {
    && |dest| == 8 && (forall k :: 0 <= k < 8 ==> |dest[k]| == 8)
    && forall k, j :: 0 <= k < 8 && 0 <= j < 8 ==> (dest[k][j] == o <==> 8 * k + j == x)
  }

  // Destination o is named at this place only.
  ghost predicate NamedOnce(dest: seq<seq<int>>, o: nat, k: nat, j: nat) {
    && |dest| == 8 && (forall k' :: 0 <= k' < 8 ==> |dest[k']| == 8)
    && forall k', j' :: 0 <= k' < 8 && 0 <= j' < 8 ==> (dest[k'][j'] == o <==> k' == k && j' == j)
  }

  lemma NamedAt(dest: seq<seq<int>>, o: nat, x: nat)
    requires NamedBy(dest, o, x) && x < 64
    ensures NamedOnce(dest, o, x / 8, x % 8)
  {
    forall k, j | 0 <= k < 8 && 0 <= j < 8 ensures dest[k][j] == o <==> k == x / 8 && j == x % 8 {
      EightParts(k, j, x);
    }
  }

  lemma MovedAt(t: Table, dest: seq<seq<int>>, l: bv32, r: bv32, o: nat, k: nat, j: nat)
    requires MaskTable(t, dest, 8) && |t| == 8 && ByteTable(t) && o < 32 && k < 8 && j < 8 && NamedOnce(dest, o, k, j)
    ensures Indexes(t, Bytes64(l, r))
    ensures Bit(LookUp(t, Bytes64(l, r), 8), o) <==> Bits64(l, r)[8 * k + j]
  {
    hide Bit, Bytes64, Bits64, LookUp, LowBits, MaskRow, ByteTable, Indexes;
    BytesIndex(t, l, r);
    LookUpGathers(t, dest, 8, Bytes64(l, r), o, k, j);
    BytesBits(l, r, k, j);
  }

  // ---- the two permutations

  // init_perm and final_perm as des_init computes them
  function InitPerm(): (p: seq<int>)
    ensures |p| == 64
  {
    seq(64, x requires 0 <= x < 64 => IP_INV(x) - 1)
  }

  function FinalPerm(): (p: seq<int>)
    ensures |p| == 64
  {
    seq(64, x requires 0 <= x < 64 => IP(x) - 1)
  }

  ghost predicate PermTables(l: Table, r: Table, perm: seq<int>)
    requires |perm| == 64
  {
    && MaskTable(l, LeftChunks(Cut(perm, 8, 8, 8), 32, 0), 8)
    && MaskTable(r, RightChunks(Cut(perm, 8, 8, 8), 32, 0), 8)
  }

  lemma PermTablesSized(l: Table, r: Table, perm: seq<int>)
    requires |perm| == 64 && PermTables(l, r, perm)
    ensures ByteTable(l) && ByteTable(r)
  {
  }

  lemma ChunkEntries(perm: seq<int>, k: nat, j: nat)
    requires |perm| == 64 && k < 8 && j < 8
    ensures LeftChunks(Cut(perm, 8, 8, 8), 32, 0)[k][j] == Left(perm[8 * k + j], 32, 0)
    ensures RightChunks(Cut(perm, 8, 8, 8), 32, 0)[k][j] == Right(perm[8 * k + j], 32, 0)
  {
  }

  // An output position named once, by input position x.
  lemma PermutedLeft(l: Table, r: Table, perm: seq<int>, a: bv32, b: bv32, o: nat, x: nat)
    requires |perm| == 64 && PermTables(l, r, perm) && o < 32 && x < 64
    requires forall y :: 0 <= y < 64 ==> (perm[y] == o <==> y == x)
    ensures |l| == 8 && Indexes(l, Bytes64(a, b))
    ensures Bit(LookUp(l, Bytes64(a, b), 8), o) <==> Bits64(a, b)[x]
  {
    PermTablesSized(l, r, perm);
    hide Bit, Bytes64, Bits64, LookUp, MaskRow, LeftChunks, RightChunks, Cut, ByteTable;
    var dest := LeftChunks(Cut(perm, 8, 8, 8), 32, 0);
    forall k, j | 0 <= k < 8 && 0 <= j < 8 ensures dest[k][j] == o <==> 8 * k + j == x { ChunkEntries(perm, k, j); }
    MovedBit(l, dest, a, b, o, x);
  }

  lemma PermutedRight(l: Table, r: Table, perm: seq<int>, a: bv32, b: bv32, o: nat, x: nat)
    requires |perm| == 64 && PermTables(l, r, perm) && o < 32 && x < 64
    requires forall y :: 0 <= y < 64 ==> (perm[y] == o + 32 <==> y == x)
    ensures |r| == 8 && Indexes(r, Bytes64(a, b))
    ensures Bit(LookUp(r, Bytes64(a, b), 8), o) <==> Bits64(a, b)[x]
  {
    PermTablesSized(l, r, perm);
    hide Bit, Bytes64, Bits64, LookUp, MaskRow, LeftChunks, RightChunks, Cut, ByteTable;
    var dest := RightChunks(Cut(perm, 8, 8, 8), 32, 0);
    forall k, j | 0 <= k < 8 && 0 <= j < 8 ensures dest[k][j] == o <==> 8 * k + j == x { ChunkEntries(perm, k, j); }
    MovedBit(r, dest, a, b, o, x);
  }

  lemma InitialLookupBit(l: Table, r: Table, a: bv32, b: bv32, o: nat)
    requires PermTables(l, r, InitPerm()) && o < 32
    ensures |l| == |r| == 8 && Indexes(l, Bytes64(a, b)) && Indexes(r, Bytes64(a, b))
    ensures Bit(LookUp(l, Bytes64(a, b), 8), o) == Bits64(a, b)[IP(o) - 1]
    ensures Bit(LookUp(r, Bytes64(a, b), 8), o) == Bits64(a, b)[IP(o + 32) - 1]
  {
    hide *;
    InitSource(o);
    PermutedLeft(l, r, InitPerm(), a, b, o, IP(o) - 1);
    InitSource(o + 32);
    PermutedRight(l, r, InitPerm(), a, b, o, IP(o + 32) - 1);
  }

  /** Looking two words up in the initial masks is the initial permutation. */
  lemma InitialLookup(l: Table, r: Table, a: bv32, b: bv32)
    requires PermTables(l, r, InitPerm())
    ensures |l| == |r| == 8 && Indexes(l, Bytes64(a, b)) && Indexes(r, Bytes64(a, b))
    ensures Halves(WordBits(LookUp(l, Bytes64(a, b), 8)), WordBits(LookUp(r, Bytes64(a, b), 8)))
         == InitialPermutation(Bits64(a, b))
  {
    PermTablesSized(l, r, InitPerm());
    BytesIndex(l, a, b);
    BytesIndex(r, a, b);
    hide *;
    var x, y := LookUp(l, Bytes64(a, b), 8), LookUp(r, Bytes64(a, b), 8);
    forall o: nat | o < 32
      ensures Bit(x, o) == Bits64(a, b)[IP(o) - 1] && Bit(y, o) == Bits64(a, b)[IP(o + 32) - 1]
    {
      InitialLookupBit(l, r, a, b, o);
    }
    InitialBits(x, y, Bits64(a, b));
  }

  lemma InitialBits(x: bv32, y: bv32, z: Bits)
    requires |z| == 64
    requires forall o: nat :: o < 32 ==> Bit(x, o) == z[IP(o) - 1] && Bit(y, o) == z[IP(o + 32) - 1]
    ensures Halves(WordBits(x), WordBits(y)) == InitialPermutation(z)
  {
    hide Bit, IP;
    BitsAre(x, InitialPermutation(z).l);
    BitsAre(y, InitialPermutation(z).r);
  }

  lemma BitsAre(w: bv32, b: Bits)
    requires |b| == 32 && forall o: nat :: o < 32 ==> Bit(w, o) == b[o]
    ensures WordBits(w) == b
  {
    hide Bit;
  }

  lemma InitSource(o: nat)
    requires o < 64
    ensures forall y :: 0 <= y < 64 ==> (InitPerm()[y] == o <==> y == IP(o) - 1)
  {
    hide IP, IP_INV;
    IpInverse(o);
    forall y | 0 <= y < 64 ensures InitPerm()[y] == o <==> y == IP(o) - 1 { IpInverseBack(y); }
  }

  /** Looking two words up in the final masks is the final permutation. */
  lemma FinalLookup(l: Table, r: Table, a: bv32, b: bv32)
    requires PermTables(l, r, FinalPerm())
    ensures |l| == |r| == 8 && Indexes(l, Bytes64(a, b)) && Indexes(r, Bytes64(a, b))
    ensures Bits64(LookUp(l, Bytes64(a, b), 8), LookUp(r, Bytes64(a, b), 8))
         == FinalPermutation(Halves(WordBits(a), WordBits(b)))
  {
    PermTablesSized(l, r, FinalPerm());
    BytesIndex(l, a, b);
    BytesIndex(r, a, b);
    hide Bit, Bytes64, LookUp, PermTables, IP, IP_INV, Indexes, WordBits, Bits64;
    var f := FinalPermutation(Halves(WordBits(a), WordBits(b)));
    var x, y := LookUp(l, Bytes64(a, b), 8), LookUp(r, Bytes64(a, b), 8);
    forall o: nat | o < 64 ensures Bits64(x, y)[o] == Bits64(a, b)[IP_INV(o) - 1] {
      FinalSource(o);
      Bits64At(x, y, o);
      if o < 32 {
        PermutedLeft(l, r, FinalPerm(), a, b, o, IP_INV(o) - 1);
      } else {
        PermutedRight(l, r, FinalPerm(), a, b, o - 32, IP_INV(o) - 1);
      }
    }
    FinalBits(Bits64(x, y), a, b);
  }

  lemma FinalBits(z: Bits, a: bv32, b: bv32)
    requires |z| == 64 && forall o: nat :: o < 64 ==> z[o] == Bits64(a, b)[IP_INV(o) - 1]
    ensures z == FinalPermutation(Halves(WordBits(a), WordBits(b)))
  {
    hide WordBits, IP_INV;
  }

  lemma FinalSource(o: nat)
    requires o < 64
    ensures forall y :: 0 <= y < 64 ==> (FinalPerm()[y] == o <==> y == IP_INV(o) - 1)
  {
    hide IP, IP_INV;
    IpInverseBack(o);
    forall y | 0 <= y < 64 ensures FinalPerm()[y] == o <==> y == IP_INV(o) - 1 { IpInverse(y); }
  }
}
