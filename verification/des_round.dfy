/** The table form of the cipher function refines FIPS PUB 46-3, "The Cipher Function f". */
module DesRound {
  import opened DesBits
  import opened DesStandard
  import opened DesMasks
  import opened DesTables
  import opened DesLookup
  import opened DesWords
  import opened DesFunction

  // ---- the 12-bit halves of a 24-bit word

  function Upper(w: bv32): bv32 {
    Shr(w, 12)
  }

  function Lower(w: bv32): bv32 {
    And(w, 0xfff)
  }

  lemma HalvesSmall(w: bv32)
    requires w < 0x1000000
    ensures Upper(w) as int < 4096 && Lower(w) as int < 4096
  {
  }

  lemma SpansFff()
    ensures Spans(0xfff, 20, 32)
  {
  }

  lemma UpperBit(w: bv32, t: nat)
    requires t < 12
    ensures LowBits(Upper(w), 12)[t] == LowBits(w, 24)[t]
  {
    hide Bit, LowBits, Shr;
    LowBitAt(w, 24);
    LowBitAt(Upper(w), 12);
    BitShr(w, 12, 20 + t);
  }

  lemma LowerBit(w: bv32, t: nat)
    requires t < 12
    ensures LowBits(Lower(w), 12)[t] == LowBits(w, 24)[12 + t]
  {
    hide Bit, LowBits, And;
    LowBitAt(w, 24);
    LowBitAt(Lower(w), 12);
    SpansFff();
    AndBitOf(w, 0xfff, 20 + t);
  }

  lemma HalvesBits(w: bv32)
    ensures LowBits(Upper(w), 12) == LowBits(w, 24)[..12]
    ensures LowBits(Lower(w), 12) == LowBits(w, 24)[12..]
  {
    hide Bit, LowBits, Upper, Lower;
    LowBitAt(w, 24);
    LowBitAt(Upper(w), 12);
    LowBitAt(Lower(w), 12);
    forall t: nat | t < 12
      ensures LowBits(Upper(w), 12)[t] == LowBits(w, 24)[t] && LowBits(Lower(w), 12)[t] == LowBits(w, 24)[12 + t]
    {
      UpperBit(w, t);
      LowerBit(w, t);
    }
  }

  // ---- the tables

  ghost predicate SBoxTables(ms: Table) {
    |ms| == 4 && forall b :: 0 <= b < 4 ==> PairRow(ms[b], b)
  }

  // un_pbox: where P's input positions go
  function UnPBox(): (d: seq<int>)
    ensures |d| == 32
  {
    seq(32, x requires 0 <= x < 32 => P_INV(x) - 1)
  }

  ghost predicate PBoxTables(ps: Table) {
    MaskTable(ps, LeftChunks(Cut(UnPBox(), 4, 8, 8), 32, 0), 8)
  }

  lemma PBoxChunk(k: nat, j: nat)
    requires k < 4 && j < 8
    ensures LeftChunks(Cut(UnPBox(), 4, 8, 8), 32, 0)[k][j] == P_INV(8 * k + j) - 1
  {
  }

  lemma ByteSized(ms: Table, b: nat, w: bv32)
    requires SBoxTables(ms) && b < 4 && w as int < 4096
    ensures |ms[b]| == 4096 && ms[b][w as int] as int < 256
  {
    RowSizes(ms);
    hide *;
    PairEntry(ms[b], b, w as int);
    PackSmall(Inverted(2 * b, w as int / 64), Inverted(2 * b + 1, w as int % 64));
  }

  lemma PackSmall(a: Nibble, c: Nibble)
    ensures Pack(a, c) as int < 256
  {
  }

  // ---- f

  // The four 12-bit indices of a mixed 48-bit value.
  function Twelves(l: bv32, r: bv32): (v: seq<bv32>)
    ensures |v| == 4
  {
    [Upper(l), Lower(l), Upper(r), Lower(r)]
  }

  ghost predicate Small(l: bv32, r: bv32) {
    forall k :: 0 <= k < 4 ==> Twelves(l, r)[k] as int < 4096
  }

  // The bytes the S-box tables give for them.
  function Bytes(ms: Table, v: seq<bv32>): seq<bv32>
    requires |ms| == |v| == 4 && forall k :: 0 <= k < 4 ==> v[k] as int < |ms[k]|
  {
    seq(4, k requires 0 <= k < 4 => ms[k][v[k] as int])
  }

  lemma TwelvesBits(l: bv32, r: bv32, k: nat)
    requires k < 4
    ensures LowBits(Twelves(l, r)[k], 12) == Bits48(l, r)[12 * k..12 * k + 12]
  {
    hide LowBits, Upper, Lower;
    HalvesBits(l);
    HalvesBits(r);
  }

  // Bit 8k + t of the substituted value.
  lemma Substituted(ms: Table, l: bv32, r: bv32, k: nat, t: nat)
    requires SBoxTables(ms) && k < 4 && t < 8 && Small(l, r)
    ensures LowBits(Bytes(ms, Twelves(l, r))[k], 8)[t] == Substitute(Bits48(l, r))[8 * k + t]
  {
    hide LowBits, PairRow, Bits48, SBox, RowColumn, NibbleBit, Upper, Lower;
    RowSizes(ms);
    var w := Twelves(l, r)[k];
    PairLookup(ms[k], k, w, t);
    TwelvesBits(l, r, k);
    var x, g := Bits48(l, r), 2 * k + t / 4;
    GroupOf(x, k, t);
    assert (8 * k + t) / 4 == g && (8 * k + t) % 4 == t % 4;
  }

  lemma GroupOf(x: Bits, k: nat, t: nat)
    requires |x| == 48 && k < 4 && t < 8
    ensures var g := 2 * k + t / 4; x[12 * k..12 * k + 12][6 * (t / 4)..6 * (t / 4) + 6] == x[6 * g..6 * g + 6]
  {
    var y := x[12 * k..12 * k + 12];
    if t < 4 {
      assert y[0..6] == x[12 * k..12 * k + 6];
    } else {
      assert t / 4 == 1 && y[6..12] == x[12 * k + 6..12 * k + 12];
    }
  }

  lemma RowSizes(ms: Table)
    requires SBoxTables(ms)
    ensures |ms| == 4 && forall b :: 0 <= b < 4 ==> |ms[b]| == 4096 && PairRow(ms[b], b)
  {
  }

  // The loop body of do_des: E, salt, key, S and P in table form.
  function TableF(ms: Table, ps: Table, salt: bv32, r: bv32, kl: bv32, kr: bv32): bv32
    requires Ready(ms, ps, salt, r, kl, kr)
  {
    var l48, r48 := ExpandLeft(r), ExpandRight(r);
    var y := Bytes(ms, Twelves(Mix(l48, r48, salt, kl), Mix(r48, l48, salt, kr)));
    Or4(ps[0][y[0] as int], ps[1][y[1] as int], ps[2][y[2] as int], ps[3][y[3] as int])
  }

  // Every table index is in range.
  predicate Ready(ms: Table, ps: Table, salt: bv32, r: bv32, kl: bv32, kr: bv32) {
    var v := Twelves(Mix(ExpandLeft(r), ExpandRight(r), salt, kl), Mix(ExpandRight(r), ExpandLeft(r), salt, kr));
    && |ms| == 4 && (forall k :: 0 <= k < 4 ==> v[k] as int < |ms[k]|)
    && |ps| == 4 && forall k :: 0 <= k < 4 ==> Bytes(ms, v)[k] as int < |ps[k]|
  }

  lemma MixedSmall(salt: bv32, r: bv32, kl: bv32, kr: bv32)
    requires salt < 0x1000000 && kl < 0x1000000 && kr < 0x1000000
    ensures Small(Mix(ExpandLeft(r), ExpandRight(r), salt, kl), Mix(ExpandRight(r), ExpandLeft(r), salt, kr))
  {
    ExpandSmall(r);
    MixSmall(ExpandLeft(r), ExpandRight(r), salt, kl);
    MixSmall(ExpandRight(r), ExpandLeft(r), salt, kr);
    hide ExpandLeft, ExpandRight, Mix, Upper, Lower;
    HalvesSmall(Mix(ExpandLeft(r), ExpandRight(r), salt, kl));
    HalvesSmall(Mix(ExpandRight(r), ExpandLeft(r), salt, kr));
  }

  lemma BytesFit(ms: Table, ps: Table, l: bv32, r: bv32)
    requires SBoxTables(ms) && PBoxTables(ps) && Small(l, r)
    ensures |ms| == 4 && |ps| == 4 && forall k :: 0 <= k < 4 ==> Twelves(l, r)[k] as int < |ms[k]|
    ensures Indexes(ps, Bytes(ms, Twelves(l, r)))
  {
    RowSizes(ms);
    PRowSizes(ps);
    hide Upper, Lower, SBoxTables, PBoxTables, PairRow;
    var v := Twelves(l, r);
    forall k | 0 <= k < 4 ensures Bytes(ms, v)[k] as int < 256 { ByteSized(ms, k, v[k]); }
  }

  lemma IsReady(ms: Table, ps: Table, salt: bv32, r: bv32, kl: bv32, kr: bv32)
    requires SBoxTables(ms) && PBoxTables(ps)
    requires salt < 0x1000000 && kl < 0x1000000 && kr < 0x1000000
    ensures Ready(ms, ps, salt, r, kl, kr)
  {
    MixedSmall(salt, r, kl, kr);
    hide ExpandLeft, ExpandRight, Mix, Twelves, Bytes, Small, SBoxTables, PBoxTables;
    BytesFit(ms, ps, Mix(ExpandLeft(r), ExpandRight(r), salt, kl), Mix(ExpandRight(r), ExpandLeft(r), salt, kr));
  }

  lemma PRowSizes(ps: Table)
    requires PBoxTables(ps)
    ensures |ps| == 4 && forall b :: 0 <= b < 4 ==> |ps[b]| == 256
  {
  }

  // Bit o of the permuted output.
  lemma PBoxBit(ps: Table, y: seq<bv32>, o: nat)
    requires PBoxTables(ps) && Indexes(ps, y) && o < 32
    ensures |ps| == 4
    ensures Bit(LookUp(ps, y, 4), o) <==> LowBits(y[(P(o) - 1) / 8], 8)[(P(o) - 1) % 8]
  {
    PRowSizes(ps);
    hide Bit, LowBits, LookUp, MaskRow, P, P_INV;
    var x := P(o) - 1;
    var dest := LeftChunks(Cut(UnPBox(), 4, 8, 8), 32, 0);
    PInverse(o);
    forall k, j | 0 <= k < 4 && 0 <= j < 8 ensures dest[k][j] == o <==> k == x / 8 && j == x % 8 {
      PBoxChunk(k, j);
      PInverse(8 * k + j);
    }
    LookUpGathers(ps, dest, 8, y, o, x / 8, x % 8);
  }

  lemma OutputBit(ms: Table, ps: Table, l: bv32, r: bv32, o: nat)
    requires SBoxTables(ms) && PBoxTables(ps) && Small(l, r) && o < 32
    requires |ms| == 4 && |ps| == 4 && forall k :: 0 <= k < 4 ==> Twelves(l, r)[k] as int < |ms[k]|
    requires Indexes(ps, Bytes(ms, Twelves(l, r)))
    ensures Bit(LookUp(ps, Bytes(ms, Twelves(l, r)), 4), o) <==> Substitute(Bits48(l, r))[P(o) - 1]
  {
    hide *;
    PBoxBit(ps, Bytes(ms, Twelves(l, r)), o);
    var x := P(o) - 1;
    Substituted(ms, l, r, x / 8, x % 8);
  }

  // S and P on a mixed value.
  lemma SubstitutedAndPermuted(ms: Table, ps: Table, l: bv32, r: bv32)
    requires SBoxTables(ms) && PBoxTables(ps) && Small(l, r)
    ensures |ms| == 4 && |ps| == 4 && forall k :: 0 <= k < 4 ==> Twelves(l, r)[k] as int < |ms[k]|
    ensures Indexes(ps, Bytes(ms, Twelves(l, r)))
    ensures WordBits(LookUp(ps, Bytes(ms, Twelves(l, r)), 4)) == PermuteP(Substitute(Bits48(l, r)))
  {
    BytesFit(ms, ps, l, r);
    hide Bit, Twelves, SBoxTables, PBoxTables, LookUp, Bits48, Substitute, P, Small, Bytes, Indexes;
    var f, z := LookUp(ps, Bytes(ms, Twelves(l, r)), 4), Substitute(Bits48(l, r));
    forall o: nat | o < 32 ensures Bit(f, o) <==> z[P(o) - 1] {
      OutputBit(ms, ps, l, r, o);
    }
    BitsArePermuted(f, z);
  }

  lemma BitsArePermuted(f: bv32, z: Bits)
    requires |z| == 32
    requires forall o: nat :: o < 32 ==> (Bit(f, o) <==> z[P(o) - 1])
    ensures WordBits(f) == PermuteP(z)
  {
    hide Bit, P;
  }

  /**
   * For every right half, subkey and salt, the table lookups compute E, the salt exchange, the key addition,
   * the S-boxes and P.
   */
  lemma TableFIsF(ms: Table, ps: Table, salt: bv32, r: bv32, kl: bv32, kr: bv32)
    requires SBoxTables(ms) && PBoxTables(ps)
    requires salt < 0x1000000 && kl < 0x1000000 && kr < 0x1000000
    ensures Ready(ms, ps, salt, r, kl, kr)
    ensures WordBits(TableF(ms, ps, salt, r, kl, kr)) == F(WordBits(r), Bits48(kl, kr), LowBits(salt, 24))
  {
    IsReady(ms, ps, salt, r, kl, kr);
    MixedSmall(salt, r, kl, kr);
    hide WordBits, ExpandLeft, ExpandRight, Mix, Twelves, Bytes, SBoxTables, PBoxTables, Or4, LowBits, Bits48,
      Expand, Salted, Xor, Substitute, PermuteP, Small, Ready;
    var a, b := Mix(ExpandLeft(r), ExpandRight(r), salt, kl), Mix(ExpandRight(r), ExpandLeft(r), salt, kr);
    ExpandsTo(r);
    MixesTo(ExpandLeft(r), ExpandRight(r), salt, kl, kr);
    SubstitutedAndPermuted(ms, ps, a, b);
    LookUpFour(ps, Bytes(ms, Twelves(a, b)));
  }
}
