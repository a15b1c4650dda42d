/**
 * Known values of the parts of FIPS PUB 46-3: the standard's example of S1, a value of the cipher function in which
 * all eight primitive functions have a part, an initial permutation and a subkey.
 */
module DesKnown {
  import opened DesBits
  import opened DesStandard

  /** The standard's example: S1 of 011011 is in row 1 and column 13, and is 0101. */
  lemma StandardExample()
    ensures RowColumn([false, true, true, false, true, true]) == 16 * 1 + 13
    ensures SBox(0, RowColumn([false, true, true, false, true, true])) == 5
  {
  }

  /** On half a block of zeros with a subkey of zeros the cipher function is d8d8dbbc. */
  lemma ZeroRound(r: Bits, k: Bits, salt: Bits, i: nat)
    requires |r| == 32 && |k| == 48 && |salt| == 24 && i < 32
    requires true !in r && true !in k && true !in salt
    ensures F(r, k, salt)[i] <==> Bit(0xd8d8dbbc, i)
  {
    hide Bit, SBox, NibbleBit;
    var x := Xor(Salted(Expand(r), salt), k);
    assert forall t :: 0 <= t < 48 ==> !x[t];
    ZeroInput(x, P(i) - 1);
    ZeroNibbles(i);
  }

  lemma ZeroInput(x: Bits, q: nat)
    requires |x| == 48 && q < 32 && forall t :: 0 <= t < 48 ==> !x[t]
    ensures Substitute(x)[q] == NibbleBit(SBox(q / 4, 0), q % 4)
  {
    hide SBox, NibbleBit;
    var y := x[6 * (q / 4)..6 * (q / 4) + 6];
    assert forall t :: 0 <= t < 6 ==> !y[t];
    assert RowColumn(y) == 0;
  }

  // The first entries, side by side: efa72c4d.
  lemma FirstEntries()
    ensures SBox(0, 0) == 14 && SBox(1, 0) == 15 && SBox(2, 0) == 10 && SBox(3, 0) == 7
    ensures SBox(4, 0) == 2 && SBox(5, 0) == 12 && SBox(6, 0) == 4 && SBox(7, 0) == 13
  {
  }

  lemma ZeroNibbles(i: nat)
    requires i < 32
    ensures NibbleBit(SBox((P(i) - 1) / 4, 0), (P(i) - 1) % 4) <==> Bit(0xd8d8dbbc, i)
  {
    FirstEntries();
    hide SBox;
    match i
    case 0 => case 1 => case 2 => case 3 => case 4 => case 5 => case 6 => case 7 => case 8 => case 9 => case 10 =>
    case 11 => case 12 => case 13 => case 14 => case 15 => case 16 => case 17 => case 18 => case 19 => case 20 =>
    case 21 => case 22 => case 23 => case 24 => case 25 => case 26 => case 27 => case 28 => case 29 => case 30 =>
    case 31 =>
  }

  // Bit t of two words side by side.
  predicate Bit64(high: bv32, low: bv32, t: nat)
    requires t < 64
  {
    if t < 32 then Bit(high, t) else Bit(low, t - 32)
  }

  lemma LeftHalf(i: nat)
    requires i < 32
    ensures Bit64(0x01234567, 0x89abcdef, IP(i) - 1) <==> Bit(0xcc00ccff, i)
  {
    match i
    case 0 => case 1 => case 2 => case 3 => case 4 => case 5 => case 6 => case 7 => case 8 => case 9 => case 10 =>
    case 11 => case 12 => case 13 => case 14 => case 15 => case 16 => case 17 => case 18 => case 19 => case 20 =>
    case 21 => case 22 => case 23 => case 24 => case 25 => case 26 => case 27 => case 28 => case 29 => case 30 =>
    case 31 =>
  }

  lemma RightHalf(i: nat)
    requires i < 32
    ensures Bit64(0x01234567, 0x89abcdef, IP(i + 32) - 1) <==> Bit(0xf0aaf0aa, i)
  {
    match i
    case 0 => case 1 => case 2 => case 3 => case 4 => case 5 => case 6 => case 7 => case 8 => case 9 => case 10 =>
    case 11 => case 12 => case 13 => case 14 => case 15 => case 16 => case 17 => case 18 => case 19 => case 20 =>
    case 21 => case 22 => case 23 => case 24 => case 25 => case 26 => case 27 => case 28 => case 29 => case 30 =>
    case 31 =>
  }

  /** The initial permutation takes 0123456789abcdef into the halves cc00ccff and f0aaf0aa. */
  lemma FirstHalves(block: Bits, i: nat)
    requires |block| == 64 && i < 32 && forall t :: 0 <= t < 64 ==> block[t] == Bit64(0x01234567, 0x89abcdef, t)
    ensures InitialPermutation(block).l[i] <==> Bit(0xcc00ccff, i)
    ensures InitialPermutation(block).r[i] <==> Bit(0xf0aaf0aa, i)
  {
    hide Bit64, Bit, IP;
    LeftHalf(i);
    RightHalf(i);
  }

  // The place in permuted choice 1 of what is t-th after one shift.
  function Shifted(t: nat): (x: nat)
    requires t < 56
    ensures x < 56
  {
    if t == 27 then 0 else if t == 55 then 28 else t + 1
  }

  lemma SubkeyBit(key: Bits, i: nat)
    requires |key| == 64 && i < 48
    ensures RoundKey(key, 0)[i] == key[PC1(Shifted(PC2(i) - 1)) - 1]
  {
    hide PC1, PC2;
    assert TotalShift(0) == 1;
    ShiftedOnce(PermutedChoice1(key), PC2(i) - 1);
  }

  lemma ShiftedOnce(c: Bits, t: nat)
    requires |c| == 56 && t < 56
    ensures (RotateLeft(c[..28], 1) + RotateLeft(c[28..], 1))[t] == c[Shifted(t)]
  {
    var l, r := c[..28], c[28..];
    assert RotateLeft(l, 1) == l[1..] + [l[0]] && RotateLeft(r, 1) == r[1..] + [r[0]];
  }

  lemma LeftSubkey(i: nat)
    requires i < 24
    ensures Bit64(0x13345779, 0x9bbcdff1, PC1(Shifted(PC2(i) - 1)) - 1) <==> Bit(0x1b02ef00, i)
  {
    match i
    case 0 => case 1 => case 2 => case 3 => case 4 => case 5 => case 6 => case 7 => case 8 => case 9 => case 10 =>
    case 11 => case 12 => case 13 => case 14 => case 15 => case 16 => case 17 => case 18 => case 19 => case 20 =>
    case 21 => case 22 => case 23 =>
  }

  lemma RightSubkey(i: nat)
    requires i < 24
    ensures Bit64(0x13345779, 0x9bbcdff1, PC1(Shifted(PC2(i + 24) - 1)) - 1) <==> Bit(0xfc707200, i)
  {
    match i
    case 0 => case 1 => case 2 => case 3 => case 4 => case 5 => case 6 => case 7 => case 8 => case 9 => case 10 =>
    case 11 => case 12 => case 13 => case 14 => case 15 => case 16 => case 17 => case 18 => case 19 => case 20 =>
    case 21 => case 22 => case 23 =>
  }

  /** The first subkey of the key 133457799bbcdff1 is 1b02effc7072. */
  lemma FirstSubkey(key: Bits, i: nat)
    requires |key| == 64 && i < 24 && forall t :: 0 <= t < 64 ==> key[t] == Bit64(0x13345779, 0x9bbcdff1, t)
    ensures RoundKey(key, 0)[i] <==> Bit(0x1b02ef00, i)
    ensures RoundKey(key, 0)[i + 24] <==> Bit(0xfc707200, i)
  {
    hide Bit64, Bit, PC1, PC2, RoundKey;
    SubkeyBit(key, i);
    SubkeyBit(key, i + 24);
    LeftSubkey(i);
    RightSubkey(i);
  }

  lemma EvenColumns(row: nat, column: nat)
    requires row < 4 && column < 8
    ensures IP(8 * row + column) == 58 + 2 * row - 8 * column
  {
  }

  lemma OddColumns(row: nat, column: nat)
    requires row < 4 && column < 8
    ensures IP(8 * row + column + 32) == 57 + 2 * row - 8 * column
  {
  }

  lemma Sixes(row: nat, column: nat)
    requires row < 8 && column < 6
    ensures E(6 * row + column) == match 4 * row + column case 0 => 32 case 33 => 1 case n => n
  {
  }

  /** The regular tables, by the rule of each: the initial permutation takes the columns from the last, the even ones
      first; the expansion takes six bits for every four; and one shift is for rounds 1, 2, 9 and 16, else two. */
  lemma TableRules(row: nat, column: nat)
    requires column < 8
    ensures row < 4 ==> IP(8 * row + column) == 58 + 2 * row - 8 * column
    ensures row < 4 ==> IP(8 * row + column + 32) == 57 + 2 * row - 8 * column
    ensures row < 8 && column < 6 ==>
              E(6 * row + column) == match 4 * row + column case 0 => 32 case 33 => 1 case n => n
    ensures row < 16 ==> SHIFTS(row) == if row in {0, 1, 8, 15} then 1 else 2
  {
    hide IP, E;
    if row < 4 {
      EvenColumns(row, column);
      OddColumns(row, column);
    }
    if row < 8 && column < 6 { Sixes(row, column); }
  }
}
