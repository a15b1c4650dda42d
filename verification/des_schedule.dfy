/** The key schedule as table lookups: permuted choice 1, rotated halves, permuted choice 2. */
module DesSchedule {
  import opened DesBits
  import opened DesStandard
  import opened DesMasks
  import opened DesTables
  import opened DesLookup
  import opened DesWords
  import opened DesFunction
  import opened DesPermute

  // (w >> s) & 0x7f
  function Seven(w: bv32, s: bv6): bv32
    requires s <= 25
  {
    And(Shr(w, s), 0x7f)
  }

  lemma SevenSmall(w: bv32, s: bv6)
    requires s <= 25
    ensures Seven(w, s) as int < 128
  {
    hide Shr;
  }

  lemma Spans127()
    ensures Spans(0x7f, 25, 32)
  {
  }

  lemma SevenBit(w: bv32, s: bv6, j: nat)
    requires s <= 25 && j < 7
    ensures LowBits(Seven(w, s), 7)[j] == Bit(w, 25 + j - s as int)
  {
    LowBitAt(Seven(w, s), 7);
    Spans127();
    hide Bit, Shr, And, LowBits;
    AndBitOf(Shr(w, s), 0x7f, 25 + j);
    BitShr(w, s, 25 + j);
  }

  // ---- the seven key bits of each byte

  function KeyShift(k: nat): bv6
    requires k < 4
  {
    match k
    case 0 => 25 case 1 => 17 case 2 => 9 case 3 => 1
  }

  function KeySevens(l: bv32, r: bv32): (v: seq<bv32>)
    ensures |v| == 8
  {
    seq(8, k requires 0 <= k < 8 => if k < 4 then Seven(l, KeyShift(k)) else Seven(r, KeyShift(k - 4)))
  }

  lemma KeyShiftIs(k: nat)
    requires k < 4
    ensures KeyShift(k) <= 25 && KeyShift(k) as int == 25 - 8 * k
  {
  }

  lemma KeySevenAt(w: bv32, m: nat, j: nat)
    requires m < 4 && j < 7
    ensures LowBits(Seven(w, KeyShift(m)), 7)[j] == Bit(w, 8 * m + j)
    ensures Seven(w, KeyShift(m)) as int < 128
  {
    KeyShiftIs(m);
    hide *;
    SevenBit(w, KeyShift(m), j);
    SevenSmall(w, KeyShift(m));
  }

  lemma KeySevensAt(l: bv32, r: bv32, k: nat)
    requires k < 8
    ensures KeySevens(l, r)[k] == if k < 4 then Seven(l, KeyShift(k)) else Seven(r, KeyShift(k - 4))
  {
    hide Seven, KeyShift;
  }

  lemma KeySevensBits(l: bv32, r: bv32, k: nat, j: nat)
    requires k < 8 && j < 7
    ensures LowBits(KeySevens(l, r)[k], 7)[j] == Bits64(l, r)[8 * k + j]
  {
    hide *;
    if k < 4 {
      KeySevensAt(l, r, k);
      Bits64At(l, r, 8 * k + j);
      KeySevenAt(l, k, j);
    } else {
      KeySevensAt(l, r, k);
      Bits64At(l, r, 8 * k + j);
      KeySevenAt(r, k - 4, j);
    }
  }

  lemma KeySevensSmall(l: bv32, r: bv32, k: nat)
    requires k < 8
    ensures KeySevens(l, r)[k] as int < 128
  {
    hide *;
    KeySevensAt(l, r, k);
    if k < 4 { KeySevenAt(l, k, 0); } else { KeySevenAt(r, k - 4, 0); }
  }

  // ---- sevens of two 28-bit halves

  function HalfShift(k: nat): bv6
    requires k < 4
  {
    match k
    case 0 => 21 case 1 => 14 case 2 => 7 case 3 => 0
  }

  function HalfSevens(l: bv32, r: bv32): (v: seq<bv32>)
    ensures |v| == 8
  {
    seq(8, k requires 0 <= k < 8 => if k < 4 then Seven(l, HalfShift(k)) else Seven(r, HalfShift(k - 4)))
  }

  lemma HalfShiftIs(k: nat)
    requires k < 4
    ensures HalfShift(k) <= 25 && HalfShift(k) as int == 21 - 7 * k
  {
  }

  lemma HalfSevenAt(w: bv32, m: nat, j: nat)
    requires m < 4 && j < 7
    ensures LowBits(Seven(w, HalfShift(m)), 7)[j] == LowBits(w, 28)[7 * m + j]
    ensures Seven(w, HalfShift(m)) as int < 128
  {
    HalfShiftIs(m);
    LowBitAt(w, 28);
    hide *;
    SevenBit(w, HalfShift(m), j);
    SevenSmall(w, HalfShift(m));
  }

  // Two 28-bit halves as one row.
  function Bits56(l: bv32, r: bv32): (b: Bits)
    ensures |b| == 56
  {
    LowBits(l, 28) + LowBits(r, 28)
  }

  lemma HalfSevensBits(l: bv32, r: bv32, k: nat, j: nat)
    requires k < 8 && j < 7
    ensures LowBits(HalfSevens(l, r)[k], 7)[j] == Bits56(l, r)[7 * k + j]
    ensures HalfSevens(l, r)[k] as int < 128
  {
    hide Bit, LowBits, Seven, HalfShift;
    if k < 4 { HalfSevenAt(l, k, j); } else { HalfSevenAt(r, k - 4, j); }
  }

  // ---- rotation

  // 28 - s
  function Rest(s: bv6): bv6
    requires s <= 28
  {
    28 - s
  }

  // (k << s) | (k >> (28 - s)): the low 28 bits are rotated, the others are not used
  function Rotated(k: bv32, s: bv6): bv32
    requires s <= 28
  {
    RestOf28(s);
    Or(Shl(k, s), Shr(k, Rest(s)))
  }

  lemma RestOf28(s: bv6)
    requires s <= 28
    ensures Rest(s) as int == 28 - s as int && Rest(s) <= 32
  {
  }

  ghost predicate ShiftsOf(k: bv32, a: bv32, b: bv32, n: nat) {
    && n <= 28
    && (forall p: nat :: p < 4 ==> !Bit(k, p))
    && (forall i: nat :: i < 32 ==> (Bit(a, i) <==> i + n < 32 && Bit(k, i + n)))
    && (forall i: nat :: i < 32 ==> (Bit(b, i) <==> i >= 28 - n && Bit(k, i - (28 - n))))
  }

  lemma RotatedBit(k: bv32, a: bv32, b: bv32, n: nat, i: nat)
    requires ShiftsOf(k, a, b, n) && i < 28
    ensures Bit(Or(a, b), 4 + i) <==> if i + n < 28 then Bit(k, 4 + i + n) else Bit(k, i + n - 24)
  {
    hide Bit, Or;
    OrBitOf(a, b, 4 + i);
  }

  lemma RotateLeftAt(c: Bits, n: nat, i: nat)
    requires |c| == 28 && n <= 28 && i < 28
    ensures RotateLeft(c, n)[i] == if i + n < 28 then c[i + n] else c[i + n - 28]
  {
  }

  // What the two shifts contribute, and their OR.
  lemma RotatedWord(k: bv32, a: bv32, b: bv32, n: nat)
    requires n <= 28 && ShiftsOf(k, a, b, n)
    ensures LowBits(Or(a, b), 28) == RotateLeft(LowBits(k, 28), n)
  {
    LowBitAt(k, 28);
    LowBitAt(Or(a, b), 28);
    hide Bit, LowBits, Or, ShiftsOf, RotateLeft;
    var x, y := LowBits(Or(a, b), 28), RotateLeft(LowBits(k, 28), n);
    forall i: nat | i < 28 ensures x[i] == y[i] {
      RotatedBit(k, a, b, n, i);
      RotateLeftAt(LowBits(k, 28), n, i);
    }
  }

  lemma ShiftedLeft(k: bv32, s: bv6, n: nat)
    requires s <= 32 && n == s as int
    ensures forall i: nat :: i < 32 ==> (Bit(Shl(k, s), i) <==> i + n < 32 && Bit(k, i + n))
  {
    hide Bit, Shl;
    forall i: nat | i < 32 ensures Bit(Shl(k, s), i) <==> i + n < 32 && Bit(k, i + n) { BitShl(k, s, i); }
  }

  lemma ShiftedRight(k: bv32, s: bv6, n: nat)
    requires s <= 32 && n == s as int
    ensures forall i: nat :: i < 32 ==> (Bit(Shr(k, s), i) <==> i >= n && Bit(k, i - n))
  {
    hide Bit, Shr;
    forall i: nat | i < 32 ensures Bit(Shr(k, s), i) <==> i >= n && Bit(k, i - n) { BitShr(k, s, i); }
  }

  /** The two shifts and their OR rotate the low 28 bits. */
  lemma RotatesTo(k: bv32, s: bv6, n: nat)
    requires s <= 28 && n == s as int && n <= 28
    requires forall p: nat :: p < 4 ==> !Bit(k, p)
    ensures LowBits(Rotated(k, s), 28) == RotateLeft(LowBits(k, 28), n)
  {
    hide Bit, Shl, Shr, Or, Rest, Rotated, LowBits, RotateLeft;
    RestOf28(s);
    RotatedIs(k, s);
    ShiftedLeft(k, s, n);
    ShiftedRight(k, Rest(s), 28 - n);
    RotatedWord(k, Shl(k, s), Shr(k, Rest(s)), n);
  }

  lemma RotatedIs(k: bv32, s: bv6)
    requires s <= 28
    ensures Rest(s) <= 32 && Rotated(k, s) == Or(Shl(k, s), Shr(k, Rest(s)))
  {
    RestOf28(s);
    hide Or, Shl, Shr, Rest;
  }

  // ---- the tables

  // inv_key_perm and inv_comp_perm, 255 for positions that are dropped
  function InvKeyPerm(): (p: seq<int>)
    ensures |p| == 64
  {
    seq(64, x requires 0 <= x < 64 => if PC1_INV(x) == 0 then 255 else PC1_INV(x) - 1)
  }

  function InvCompPerm(): (p: seq<int>)
    ensures |p| == 56
  {
    seq(56, x requires 0 <= x < 56 => if PC2_INV(x) == 0 then 255 else PC2_INV(x) - 1)
  }

  ghost predicate KeyTables(l: Table, r: Table) {
    && MaskTable(l, LeftChunks(Cut(InvKeyPerm(), 8, 8, 7), 28, 4), 7)
    && MaskTable(r, RightChunks(Cut(InvKeyPerm(), 8, 8, 7), 28, 4), 7)
  }

  ghost predicate CompTables(l: Table, r: Table) {
    && MaskTable(l, LeftChunks(Cut(InvCompPerm(), 8, 7, 7), 24, 8), 7)
    && MaskTable(r, RightChunks(Cut(InvCompPerm(), 8, 7, 7), 24, 8), 7)
  }

  ghost predicate SevenTable(t: Table) {
    |t| == 8 && forall k :: 0 <= k < 8 ==> |t[k]| == 128
  }

  lemma TablesSized(l: Table, r: Table)
    ensures KeyTables(l, r) ==> SevenTable(l) && SevenTable(r)
    ensures CompTables(l, r) ==> SevenTable(l) && SevenTable(r)
  {
  }

  lemma SevensIndex(t: Table, a: bv32, b: bv32)
    requires SevenTable(t)
    ensures Indexes(t, KeySevens(a, b)) && Indexes(t, HalfSevens(a, b))
  {
    hide KeySevens, HalfSevens, LowBits;
    forall k | 0 <= k < 8 ensures KeySevens(a, b)[k] as int < 128 && HalfSevens(a, b)[k] as int < 128 {
      KeySevensSmall(a, b, k);
      HalfSevensBits(a, b, k, 0);
    }
  }

  // A destination named once, in a table of sevens.
  lemma SevenGathers(t: Table, dest: seq<seq<int>>, v: seq<bv32>, o: nat, k: nat, j: nat)
    requires MaskTable(t, dest, 7) && |t| == 8 && Indexes(t, v) && o < 32 && k < 8 && j < 7
    requires forall k', j' :: 0 <= k' < 8 && 0 <= j' < 7 ==> (dest[k'][j'] == o <==> k' == k && j' == j)
    ensures Bit(LookUp(t, v, 8), o) <==> LowBits(v[k], 7)[j]
  {
    hide Bit, LookUp, LowBits, MaskRow;
    LookUpGathers(t, dest, 7, v, o, k, j);
  }

  lemma ChunksAt(perm: seq<int>, stride: nat, k: nat, j: nat, half: nat, shift: nat)
    requires (stride == 7 || stride == 8) && |perm| == 8 * stride && k < 8 && j < 7
    ensures LeftChunks(Cut(perm, 8, stride, 7), half, shift)[k][j] == Left(perm[stride * k + j], half, shift)
    ensures RightChunks(Cut(perm, 8, stride, 7), half, shift)[k][j] == Right(perm[stride * k + j], half, shift)
  {
    hide Left, Right;
  }

  // ---- permuted choice 1

  lemma KeySource(i: nat, k: nat, j: nat)
    requires i < 56 && k < 8 && j < 7
    ensures InvKeyPerm()[8 * k + j] == i <==> k == (PC1(i) - 1) / 8 && j == (PC1(i) - 1) % 8
  {
    hide PC1, PC1_INV;
    var x := 8 * k + j;
    Pc1Inverse(i);
    Pc1Unique(x);
    EightParts(k, j, PC1(i) - 1);
  }

  lemma KeyEntries(k: nat, j: nat)
    requires k < 8 && j < 7
    ensures LeftChunks(Cut(InvKeyPerm(), 8, 8, 7), 28, 4)[k][j] == Left(InvKeyPerm()[8 * k + j], 28, 4)
    ensures RightChunks(Cut(InvKeyPerm(), 8, 8, 7), 28, 4)[k][j] == Right(InvKeyPerm()[8 * k + j], 28, 4)
  {
    ChunksAt(InvKeyPerm(), 8, k, j, 28, 4);
  }

  lemma KeyBits(l: Table, r: Table, a: bv32, b: bv32, i: nat)
    requires KeyTables(l, r) && i < 28
    ensures |l| == |r| == 8 && Indexes(l, KeySevens(a, b)) && Indexes(r, KeySevens(a, b))
    ensures Bit(LookUp(l, KeySevens(a, b), 8), 4 + i) == Bits64(a, b)[PC1(i) - 1]
    ensures Bit(LookUp(r, KeySevens(a, b), 8), 4 + i) == Bits64(a, b)[PC1(i + 28) - 1]
  {
    TablesSized(l, r);
    SevensIndex(l, a, b);
    SevensIndex(r, a, b);
    hide Bit, LookUp, KeySevens, Bits64, LowBits, MaskRow, LeftChunks, RightChunks, Cut, InvKeyPerm, PC1, Indexes;
    KeyLeftBit(l, a, b, i);
    KeyRightBit(r, a, b, i);
  }

  lemma KeyLeftBit(l: Table, a: bv32, b: bv32, i: nat)
    requires MaskTable(l, LeftChunks(Cut(InvKeyPerm(), 8, 8, 7), 28, 4), 7) && i < 28
    requires |l| == 8 && Indexes(l, KeySevens(a, b))
    ensures Bit(LookUp(l, KeySevens(a, b), 8), 4 + i) == Bits64(a, b)[PC1(i) - 1]
  {
    hide Bit, LookUp, KeySevens, Bits64, LowBits, MaskTable, LeftChunks, Cut, InvKeyPerm, PC1, Indexes;
    var dest := LeftChunks(Cut(InvKeyPerm(), 8, 8, 7), 28, 4);
    var x := PC1(i) - 1;
    Pc1NotParity(i);
    KeyShape();
    forall k, j | 0 <= k < 8 && 0 <= j < 7 ensures dest[k][j] == 4 + i <==> k == x / 8 && j == x % 8 {
      KeyEntries(k, j);
      KeySource(i, k, j);
    }
    SevenGathers(l, dest, KeySevens(a, b), 4 + i, x / 8, x % 8);
    KeySevensBits(a, b, x / 8, x % 8);
  }

  lemma KeyRightBit(r: Table, a: bv32, b: bv32, i: nat)
    requires MaskTable(r, RightChunks(Cut(InvKeyPerm(), 8, 8, 7), 28, 4), 7) && i < 28
    requires |r| == 8 && Indexes(r, KeySevens(a, b))
    ensures Bit(LookUp(r, KeySevens(a, b), 8), 4 + i) == Bits64(a, b)[PC1(i + 28) - 1]
  {
    hide Bit, LookUp, KeySevens, Bits64, LowBits, MaskTable, RightChunks, Cut, InvKeyPerm, PC1, Indexes;
    var dest := RightChunks(Cut(InvKeyPerm(), 8, 8, 7), 28, 4);
    var x := PC1(i + 28) - 1;
    Pc1NotParity(i + 28);
    KeyShape();
    forall k, j | 0 <= k < 8 && 0 <= j < 7 ensures dest[k][j] == 4 + i <==> k == x / 8 && j == x % 8 {
      KeyEntries(k, j);
      KeySource(i + 28, k, j);
    }
    SevenGathers(r, dest, KeySevens(a, b), 4 + i, x / 8, x % 8);
    KeySevensBits(a, b, x / 8, x % 8);
  }

  lemma KeyShape()
    ensures |LeftChunks(Cut(InvKeyPerm(), 8, 8, 7), 28, 4)| == |RightChunks(Cut(InvKeyPerm(), 8, 8, 7), 28, 4)| == 8
    ensures forall k :: 0 <= k < 8 ==> |LeftChunks(Cut(InvKeyPerm(), 8, 8, 7), 28, 4)[k]| == 7
    ensures forall k :: 0 <= k < 8 ==> |RightChunks(Cut(InvKeyPerm(), 8, 8, 7), 28, 4)[k]| == 7
  {
    hide InvKeyPerm;
  }

  lemma SevenClear(t: Table, dest: seq<seq<int>>, v: seq<bv32>, o: nat)
    requires MaskTable(t, dest, 7) && |t| == 8 && Indexes(t, v) && o < 32
    requires forall k, j :: 0 <= k < 8 && 0 <= j < 7 ==> dest[k][j] != o
    ensures !Bit(LookUp(t, v, 8), o)
  {
    hide Bit, LookUp, LowBits, MaskRow;
    LookUpLeavesClear(t, dest, 7, v, o);
  }

  lemma KeyClear(l: Table, r: Table, a: bv32, b: bv32, p: nat)
    requires KeyTables(l, r) && p < 4
    ensures |l| == |r| == 8 && Indexes(l, KeySevens(a, b)) && Indexes(r, KeySevens(a, b))
    ensures !Bit(LookUp(l, KeySevens(a, b), 8), p) && !Bit(LookUp(r, KeySevens(a, b), 8), p)
  {
    TablesSized(l, r);
    SevensIndex(l, a, b);
    SevensIndex(r, a, b);
    KeyShape();
    hide Bit, LookUp, KeySevens, LowBits, MaskRow, LeftChunks, RightChunks, Cut, InvKeyPerm, Indexes;
    var dl, dr := LeftChunks(Cut(InvKeyPerm(), 8, 8, 7), 28, 4), RightChunks(Cut(InvKeyPerm(), 8, 8, 7), 28, 4);
    forall k, j | 0 <= k < 8 && 0 <= j < 7 ensures dl[k][j] != p && dr[k][j] != p { KeyEntries(k, j); }
    SevenClear(l, dl, KeySevens(a, b), p);
    SevenClear(r, dr, KeySevens(a, b), p);
  }

  // A word whose n low bits are given.
  lemma LowBitsAre(w: bv32, n: nat, c: Bits)
    requires n <= 32 && |c| == n
    requires forall p: nat :: 32 - n <= p < 32 ==> Bit(w, p) == c[p - (32 - n)]
    ensures LowBits(w, n) == c
  {
    LowBitAt(w, n);
    hide Bit, LowBits;
    var x := LowBits(w, n);
    forall i: nat | i < n ensures x[i] == c[i] { assert Bit(w, 32 - n + i) == c[i]; }
  }

  lemma ChosenOneAt(z: Bits, i: nat)
    requires |z| == 64 && i < 28
    ensures PermutedChoice1(z)[..28][i] == z[PC1(i) - 1] && PermutedChoice1(z)[28..][i] == z[PC1(i + 28) - 1]
  {
    hide PC1;
  }

  lemma KeyLookupBit(l: Table, r: Table, a: bv32, b: bv32, p: nat)
    requires KeyTables(l, r) && 4 <= p < 32
    ensures |l| == |r| == 8 && Indexes(l, KeySevens(a, b)) && Indexes(r, KeySevens(a, b))
    ensures Bit(LookUp(l, KeySevens(a, b), 8), p) == PermutedChoice1(Bits64(a, b))[..28][p - 4]
    ensures Bit(LookUp(r, KeySevens(a, b), 8), p) == PermutedChoice1(Bits64(a, b))[28..][p - 4]
  {
    hide *;
    KeyBits(l, r, a, b, p - 4);
    ChosenOneAt(Bits64(a, b), p - 4);
  }

  /** The two key-permutation lookups give the halves of permuted choice 1, in 28 bits. */
  lemma KeyLookup(l: Table, r: Table, a: bv32, b: bv32)
    requires KeyTables(l, r)
    ensures |l| == |r| == 8 && Indexes(l, KeySevens(a, b)) && Indexes(r, KeySevens(a, b))
    ensures var k0, k1, c := LookUp(l, KeySevens(a, b), 8), LookUp(r, KeySevens(a, b), 8),
      PermutedChoice1(Bits64(a, b));
      && LowBits(k0, 28) == c[..28] && LowBits(k1, 28) == c[28..]
      && (forall p: nat :: p < 4 ==> !Bit(k0, p)) && (forall p: nat :: p < 4 ==> !Bit(k1, p))
  {
    hide *;
    KeyLookupBit(l, r, a, b, 4);
    var k0, k1, c := LookUp(l, KeySevens(a, b), 8), LookUp(r, KeySevens(a, b), 8), PermutedChoice1(Bits64(a, b));
    forall p: nat | p < 4 ensures !Bit(k0, p) && !Bit(k1, p) { KeyClear(l, r, a, b, p); }
    assert LowBits(k0, 28) == c[..28] by {
      forall p: nat | 4 <= p < 32 ensures Bit(k0, p) == c[..28][p - 4] { KeyLookupBit(l, r, a, b, p); }
      LowBitsAre(k0, 28, c[..28]);
    }
    assert LowBits(k1, 28) == c[28..] by {
      forall p: nat | 4 <= p < 32 ensures Bit(k1, p) == c[28..][p - 4] { KeyLookupBit(l, r, a, b, p); }
      LowBitsAre(k1, 28, c[28..]);
    }
  }

  // ---- permuted choice 2

  lemma SevenParts(k: nat, j: nat, x: nat)
    requires j < 7
    ensures 7 * k + j == x <==> k == x / 7 && j == x % 7
  {
  }

  lemma CompSource(i: nat, k: nat, j: nat)
    requires i < 48 && k < 8 && j < 7
    ensures InvCompPerm()[7 * k + j] == i <==> k == (PC2(i) - 1) / 7 && j == (PC2(i) - 1) % 7
  {
    hide PC2, PC2_INV;
    var x := 7 * k + j;
    Pc2Inverse(i);
    Pc2Unique(x);
    SevenParts(k, j, PC2(i) - 1);
  }

  lemma CompEntries(k: nat, j: nat)
    requires k < 8 && j < 7
    ensures LeftChunks(Cut(InvCompPerm(), 8, 7, 7), 24, 8)[k][j] == Left(InvCompPerm()[7 * k + j], 24, 8)
    ensures RightChunks(Cut(InvCompPerm(), 8, 7, 7), 24, 8)[k][j] == Right(InvCompPerm()[7 * k + j], 24, 8)
  {
    ChunksAt(InvCompPerm(), 7, k, j, 24, 8);
  }

  lemma CompShape()
    ensures |LeftChunks(Cut(InvCompPerm(), 8, 7, 7), 24, 8)| == |RightChunks(Cut(InvCompPerm(), 8, 7, 7), 24, 8)| == 8
    ensures forall k :: 0 <= k < 8 ==> |LeftChunks(Cut(InvCompPerm(), 8, 7, 7), 24, 8)[k]| == 7
    ensures forall k :: 0 <= k < 8 ==> |RightChunks(Cut(InvCompPerm(), 8, 7, 7), 24, 8)[k]| == 7
  {
    hide InvCompPerm;
  }

  lemma CompLeftBit(l: Table, a: bv32, b: bv32, i: nat)
    requires MaskTable(l, LeftChunks(Cut(InvCompPerm(), 8, 7, 7), 24, 8), 7) && i < 24
    requires |l| == 8 && Indexes(l, HalfSevens(a, b))
    ensures Bit(LookUp(l, HalfSevens(a, b), 8), 8 + i) == Bits56(a, b)[PC2(i) - 1]
  {
    hide Bit, LookUp, HalfSevens, Bits56, LowBits, MaskTable, LeftChunks, Cut, InvCompPerm, PC2, Indexes;
    var dest := LeftChunks(Cut(InvCompPerm(), 8, 7, 7), 24, 8);
    var x := PC2(i) - 1;
    CompShape();
    forall k, j | 0 <= k < 8 && 0 <= j < 7 ensures dest[k][j] == 8 + i <==> k == x / 7 && j == x % 7 {
      CompEntries(k, j);
      CompSource(i, k, j);
    }
    SevenGathers(l, dest, HalfSevens(a, b), 8 + i, x / 7, x % 7);
    HalfSevensBits(a, b, x / 7, x % 7);
  }

  lemma CompRightBit(r: Table, a: bv32, b: bv32, i: nat)
    requires MaskTable(r, RightChunks(Cut(InvCompPerm(), 8, 7, 7), 24, 8), 7) && i < 24
    requires |r| == 8 && Indexes(r, HalfSevens(a, b))
    ensures Bit(LookUp(r, HalfSevens(a, b), 8), 8 + i) == Bits56(a, b)[PC2(i + 24) - 1]
  {
    hide Bit, LookUp, HalfSevens, Bits56, LowBits, MaskTable, RightChunks, Cut, InvCompPerm, PC2, Indexes;
    var dest := RightChunks(Cut(InvCompPerm(), 8, 7, 7), 24, 8);
    var x := PC2(i + 24) - 1;
    CompShape();
    forall k, j | 0 <= k < 8 && 0 <= j < 7 ensures dest[k][j] == 8 + i <==> k == x / 7 && j == x % 7 {
      CompEntries(k, j);
      CompSource(i + 24, k, j);
    }
    SevenGathers(r, dest, HalfSevens(a, b), 8 + i, x / 7, x % 7);
    HalfSevensBits(a, b, x / 7, x % 7);
  }

  lemma CompBits(l: Table, r: Table, a: bv32, b: bv32, i: nat)
    requires CompTables(l, r) && i < 24
    ensures |l| == |r| == 8 && Indexes(l, HalfSevens(a, b)) && Indexes(r, HalfSevens(a, b))
    ensures Bit(LookUp(l, HalfSevens(a, b), 8), 8 + i) == Bits56(a, b)[PC2(i) - 1]
    ensures Bit(LookUp(r, HalfSevens(a, b), 8), 8 + i) == Bits56(a, b)[PC2(i + 24) - 1]
  {
    TablesSized(l, r);
    SevensIndex(l, a, b);
    SevensIndex(r, a, b);
    hide Bit, LookUp, HalfSevens, Bits56, LowBits, MaskRow, LeftChunks, RightChunks, Cut, InvCompPerm, PC2, Indexes;
    CompLeftBit(l, a, b, i);
    CompRightBit(r, a, b, i);
  }

  lemma CompClear(l: Table, r: Table, a: bv32, b: bv32, p: nat)
    requires CompTables(l, r) && p < 8
    ensures |l| == |r| == 8 && Indexes(l, HalfSevens(a, b)) && Indexes(r, HalfSevens(a, b))
    ensures !Bit(LookUp(l, HalfSevens(a, b), 8), p) && !Bit(LookUp(r, HalfSevens(a, b), 8), p)
  {
    TablesSized(l, r);
    SevensIndex(l, a, b);
    SevensIndex(r, a, b);
    CompShape();
    hide Bit, LookUp, HalfSevens, LowBits, MaskRow, LeftChunks, RightChunks, Cut, InvCompPerm, Indexes;
    var dl, dr := LeftChunks(Cut(InvCompPerm(), 8, 7, 7), 24, 8), RightChunks(Cut(InvCompPerm(), 8, 7, 7), 24, 8);
    forall k, j | 0 <= k < 8 && 0 <= j < 7 ensures dl[k][j] != p && dr[k][j] != p { CompEntries(k, j); }
    SevenClear(l, dl, HalfSevens(a, b), p);
    SevenClear(r, dr, HalfSevens(a, b), p);
  }

  lemma TopClear(w: bv32)
    requires forall p: nat :: p < 8 ==> !Bit(w, p)
    ensures w < 0x1000000
  {
    SpansTop();
    var c := And(w, 0xff000000);
    forall i | 0 <= i < 32 ensures !Bit(c, i) {
      hide Bit, And;
      AndBitOf(w, 0xff000000, i);
    }
    NoBits(c);
    TopRaw(w);
  }

  lemma SpansTop()
    ensures Spans(0xff000000, 0, 8)
  {
  }

  lemma TopRaw(w: bv32)
    requires And(w, 0xff000000) == 0
    ensures w < 0x1000000
  {
  }

  lemma ChosenTwoAt(z: Bits, i: nat)
    requires |z| == 56 && i < 48
    ensures PermutedChoice2(z)[i] == z[PC2(i) - 1]
  {
    hide PC2;
  }

  lemma CompLookupBit(l: Table, r: Table, a: bv32, b: bv32, i: nat)
    requires CompTables(l, r) && i < 48
    ensures |l| == |r| == 8 && Indexes(l, HalfSevens(a, b)) && Indexes(r, HalfSevens(a, b))
    ensures Bits48(LookUp(l, HalfSevens(a, b), 8), LookUp(r, HalfSevens(a, b), 8))[i] == PermutedChoice2(Bits56(a,
      b))[i]
  {
    hide *;
    CompBits(l, r, a, b, i % 24);
    Bits48At(LookUp(l, HalfSevens(a, b), 8), LookUp(r, HalfSevens(a, b), 8), i);
    ChosenTwoAt(Bits56(a, b), i);
  }

  lemma CompTop(l: Table, r: Table, a: bv32, b: bv32)
    requires CompTables(l, r)
    ensures |l| == |r| == 8 && Indexes(l, HalfSevens(a, b)) && Indexes(r, HalfSevens(a, b))
    ensures LookUp(l, HalfSevens(a, b), 8) < 0x1000000 && LookUp(r, HalfSevens(a, b), 8) < 0x1000000
  {
    CompBits(l, r, a, b, 0);
    hide *;
    var x, y := LookUp(l, HalfSevens(a, b), 8), LookUp(r, HalfSevens(a, b), 8);
    forall p: nat | p < 8 ensures !Bit(x, p) && !Bit(y, p) { CompClear(l, r, a, b, p); }
    TopClear(x);
    TopClear(y);
  }

  /** The two compression lookups give permuted choice 2 in two words of 24 bits. */
  lemma CompLookup(l: Table, r: Table, a: bv32, b: bv32)
    requires CompTables(l, r)
    ensures |l| == |r| == 8 && Indexes(l, HalfSevens(a, b)) && Indexes(r, HalfSevens(a, b))
    ensures var x, y := LookUp(l, HalfSevens(a, b), 8), LookUp(r, HalfSevens(a, b), 8);
      && Bits48(x, y) == PermutedChoice2(Bits56(a, b))
      && x < 0x1000000 && y < 0x1000000
  {
    hide *;
    CompTop(l, r, a, b);
    var c, d := Bits48(LookUp(l, HalfSevens(a, b), 8), LookUp(r, HalfSevens(a, b), 8)), PermutedChoice2(Bits56(a, b));
    forall i: nat | i < 48 ensures c[i] == d[i] { CompLookupBit(l, r, a, b, i); }
  }
}
