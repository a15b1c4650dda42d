/**
 * The Data Encryption Standard on rows of bits, as FIPS PUB 46-3 states it, with the salt of crypt(3): bit i of
 * the salt exchanges bits i and i + 24 of the expanded half. Positions in the tables count from 1.
 */
module DesStandard {

  type Bits = seq<bool>

  // The value of a primitive function, a block of four bits.
  type Nibble = v: bv32 | v < 16

  // Initial permutation.
  function IP(i: nat): (r: nat)
    requires i < 64
    ensures 1 <= r <= 64
  {
    match i
    case 0 => 58 case 1 => 50 case 2 => 42 case 3 => 34 case 4 => 26 case 5 => 18 case 6 => 10 case 7 => 2
    case 8 => 60 case 9 => 52 case 10 => 44 case 11 => 36 case 12 => 28 case 13 => 20 case 14 => 12 case 15 => 4
    case 16 => 62 case 17 => 54 case 18 => 46 case 19 => 38 case 20 => 30 case 21 => 22 case 22 => 14 case 23 => 6
    case 24 => 64 case 25 => 56 case 26 => 48 case 27 => 40 case 28 => 32 case 29 => 24 case 30 => 16 case 31 => 8
    case 32 => 57 case 33 => 49 case 34 => 41 case 35 => 33 case 36 => 25 case 37 => 17 case 38 => 9 case 39 => 1
    case 40 => 59 case 41 => 51 case 42 => 43 case 43 => 35 case 44 => 27 case 45 => 19 case 46 => 11 case 47 => 3
    case 48 => 61 case 49 => 53 case 50 => 45 case 51 => 37 case 52 => 29 case 53 => 21 case 54 => 13 case 55 => 5
    case 56 => 63 case 57 => 55 case 58 => 47 case 59 => 39 case 60 => 31 case 61 => 23 case 62 => 15 case 63 => 7
  }

  // Final permutation, IP to the -1.
  function IP_INV(i: nat): (r: nat)
    requires i < 64
    ensures 1 <= r <= 64
  {
    match i
    case 0 => 40 case 1 => 8 case 2 => 48 case 3 => 16 case 4 => 56 case 5 => 24 case 6 => 64 case 7 => 32
    case 8 => 39 case 9 => 7 case 10 => 47 case 11 => 15 case 12 => 55 case 13 => 23 case 14 => 63 case 15 => 31
    case 16 => 38 case 17 => 6 case 18 => 46 case 19 => 14 case 20 => 54 case 21 => 22 case 22 => 62 case 23 => 30
    case 24 => 37 case 25 => 5 case 26 => 45 case 27 => 13 case 28 => 53 case 29 => 21 case 30 => 61 case 31 => 29
    case 32 => 36 case 33 => 4 case 34 => 44 case 35 => 12 case 36 => 52 case 37 => 20 case 38 => 60 case 39 => 28
    case 40 => 35 case 41 => 3 case 42 => 43 case 43 => 11 case 44 => 51 case 45 => 19 case 46 => 59 case 47 => 27
    case 48 => 34 case 49 => 2 case 50 => 42 case 51 => 10 case 52 => 50 case 53 => 18 case 54 => 58 case 55 => 26
    case 56 => 33 case 57 => 1 case 58 => 41 case 59 => 9 case 60 => 49 case 61 => 17 case 62 => 57 case 63 => 25
  }

  // E bit-selection table.
  function E(i: nat): (r: nat)
    requires i < 48
    ensures 1 <= r <= 32
  {
    match i
    case 0 => 32 case 1 => 1 case 2 => 2 case 3 => 3 case 4 => 4 case 5 => 5
    case 6 => 4 case 7 => 5 case 8 => 6 case 9 => 7 case 10 => 8 case 11 => 9
    case 12 => 8 case 13 => 9 case 14 => 10 case 15 => 11 case 16 => 12 case 17 => 13
    case 18 => 12 case 19 => 13 case 20 => 14 case 21 => 15 case 22 => 16 case 23 => 17
    case 24 => 16 case 25 => 17 case 26 => 18 case 27 => 19 case 28 => 20 case 29 => 21
    case 30 => 20 case 31 => 21 case 32 => 22 case 33 => 23 case 34 => 24 case 35 => 25
    case 36 => 24 case 37 => 25 case 38 => 26 case 39 => 27 case 40 => 28 case 41 => 29
    case 42 => 28 case 43 => 29 case 44 => 30 case 45 => 31 case 46 => 32 case 47 => 1
  }

  // Permutation P.
  function P(i: nat): (r: nat)
    requires i < 32
    ensures 1 <= r <= 32
  {
    match i
    case 0 => 16 case 1 => 7 case 2 => 20 case 3 => 21 case 4 => 29 case 5 => 12 case 6 => 28 case 7 => 17
    case 8 => 1 case 9 => 15 case 10 => 23 case 11 => 26 case 12 => 5 case 13 => 18 case 14 => 31 case 15 => 10
    case 16 => 2 case 17 => 8 case 18 => 24 case 19 => 14 case 20 => 32 case 21 => 27 case 22 => 3 case 23 => 9
    case 24 => 19 case 25 => 13 case 26 => 30 case 27 => 6 case 28 => 22 case 29 => 11 case 30 => 4 case 31 => 25
  }

  // Permuted choice 1.
  function PC1(i: nat): (r: nat)
    requires i < 56
    ensures 1 <= r <= 64
  {
    match i
    case 0 => 57 case 1 => 49 case 2 => 41 case 3 => 33 case 4 => 25 case 5 => 17 case 6 => 9
    case 7 => 1 case 8 => 58 case 9 => 50 case 10 => 42 case 11 => 34 case 12 => 26 case 13 => 18
    case 14 => 10 case 15 => 2 case 16 => 59 case 17 => 51 case 18 => 43 case 19 => 35 case 20 => 27
    case 21 => 19 case 22 => 11 case 23 => 3 case 24 => 60 case 25 => 52 case 26 => 44 case 27 => 36
    case 28 => 63 case 29 => 55 case 30 => 47 case 31 => 39 case 32 => 31 case 33 => 23 case 34 => 15
    case 35 => 7 case 36 => 62 case 37 => 54 case 38 => 46 case 39 => 38 case 40 => 30 case 41 => 22
    case 42 => 14 case 43 => 6 case 44 => 61 case 45 => 53 case 46 => 45 case 47 => 37 case 48 => 29
    case 49 => 21 case 50 => 13 case 51 => 5 case 52 => 28 case 53 => 20 case 54 => 12 case 55 => 4
  }

  // Permuted choice 2.
  function PC2(i: nat): (r: nat)
    requires i < 48
    ensures 1 <= r <= 56
  {
    match i
    case 0 => 14 case 1 => 17 case 2 => 11 case 3 => 24 case 4 => 1 case 5 => 5
    case 6 => 3 case 7 => 28 case 8 => 15 case 9 => 6 case 10 => 21 case 11 => 10
    case 12 => 23 case 13 => 19 case 14 => 12 case 15 => 4 case 16 => 26 case 17 => 8
    case 18 => 16 case 19 => 7 case 20 => 27 case 21 => 20 case 22 => 13 case 23 => 2
    case 24 => 41 case 25 => 52 case 26 => 31 case 27 => 37 case 28 => 47 case 29 => 55
    case 30 => 30 case 31 => 40 case 32 => 51 case 33 => 45 case 34 => 33 case 35 => 48
    case 36 => 44 case 37 => 49 case 38 => 39 case 39 => 56 case 40 => 34 case 41 => 53
    case 42 => 46 case 43 => 42 case 44 => 50 case 45 => 36 case 46 => 29 case 47 => 32
  }

  // Left shifts of the key schedule.
  function SHIFTS(i: nat): (r: nat)
    requires i < 16
    ensures 1 <= r <= 2
  {
    match i
    case 0 => 1 case 1 => 1 case 2 => 2 case 3 => 2 case 4 => 2 case 5 => 2 case 6 => 2 case 7 => 2
    case 8 => 1 case 9 => 2 case 10 => 2 case 11 => 2 case 12 => 2 case 13 => 2 case 14 => 2 case 15 => 1
  }

  function S1(i: nat): Nibble
    requires i < 64
  {
    match i
    case 0 => 14 case 1 => 4 case 2 => 13 case 3 => 1 case 4 => 2 case 5 => 15 case 6 => 11 case 7 => 8 case 8 => 3
    case 9 => 10 case 10 => 6 case 11 => 12 case 12 => 5 case 13 => 9 case 14 => 0 case 15 => 7
    case 16 => 0 case 17 => 15 case 18 => 7 case 19 => 4 case 20 => 14 case 21 => 2 case 22 => 13 case 23 => 1
    case 24 => 10 case 25 => 6 case 26 => 12 case 27 => 11 case 28 => 9 case 29 => 5 case 30 => 3 case 31 => 8
    case 32 => 4 case 33 => 1 case 34 => 14 case 35 => 8 case 36 => 13 case 37 => 6 case 38 => 2 case 39 => 11
    case 40 => 15 case 41 => 12 case 42 => 9 case 43 => 7 case 44 => 3 case 45 => 10 case 46 => 5 case 47 => 0
    case 48 => 15 case 49 => 12 case 50 => 8 case 51 => 2 case 52 => 4 case 53 => 9 case 54 => 1 case 55 => 7
    case 56 => 5 case 57 => 11 case 58 => 3 case 59 => 14 case 60 => 10 case 61 => 0 case 62 => 6 case 63 => 13
  }

  function S2(i: nat): Nibble
    requires i < 64
  {
    match i
    case 0 => 15 case 1 => 1 case 2 => 8 case 3 => 14 case 4 => 6 case 5 => 11 case 6 => 3 case 7 => 4 case 8 => 9
    case 9 => 7 case 10 => 2 case 11 => 13 case 12 => 12 case 13 => 0 case 14 => 5 case 15 => 10
    case 16 => 3 case 17 => 13 case 18 => 4 case 19 => 7 case 20 => 15 case 21 => 2 case 22 => 8 case 23 => 14
    case 24 => 12 case 25 => 0 case 26 => 1 case 27 => 10 case 28 => 6 case 29 => 9 case 30 => 11 case 31 => 5
    case 32 => 0 case 33 => 14 case 34 => 7 case 35 => 11 case 36 => 10 case 37 => 4 case 38 => 13 case 39 => 1
    case 40 => 5 case 41 => 8 case 42 => 12 case 43 => 6 case 44 => 9 case 45 => 3 case 46 => 2 case 47 => 15
    case 48 => 13 case 49 => 8 case 50 => 10 case 51 => 1 case 52 => 3 case 53 => 15 case 54 => 4 case 55 => 2
    case 56 => 11 case 57 => 6 case 58 => 7 case 59 => 12 case 60 => 0 case 61 => 5 case 62 => 14 case 63 => 9
  }

  function S3(i: nat): Nibble
    requires i < 64
  {
    match i
    case 0 => 10 case 1 => 0 case 2 => 9 case 3 => 14 case 4 => 6 case 5 => 3 case 6 => 15 case 7 => 5 case 8 => 1
    case 9 => 13 case 10 => 12 case 11 => 7 case 12 => 11 case 13 => 4 case 14 => 2 case 15 => 8
    case 16 => 13 case 17 => 7 case 18 => 0 case 19 => 9 case 20 => 3 case 21 => 4 case 22 => 6 case 23 => 10
    case 24 => 2 case 25 => 8 case 26 => 5 case 27 => 14 case 28 => 12 case 29 => 11 case 30 => 15 case 31 => 1
    case 32 => 13 case 33 => 6 case 34 => 4 case 35 => 9 case 36 => 8 case 37 => 15 case 38 => 3 case 39 => 0
    case 40 => 11 case 41 => 1 case 42 => 2 case 43 => 12 case 44 => 5 case 45 => 10 case 46 => 14 case 47 => 7
    case 48 => 1 case 49 => 10 case 50 => 13 case 51 => 0 case 52 => 6 case 53 => 9 case 54 => 8 case 55 => 7
    case 56 => 4 case 57 => 15 case 58 => 14 case 59 => 3 case 60 => 11 case 61 => 5 case 62 => 2 case 63 => 12
  }

  function S4(i: nat): Nibble
    requires i < 64
  {
    match i
    case 0 => 7 case 1 => 13 case 2 => 14 case 3 => 3 case 4 => 0 case 5 => 6 case 6 => 9 case 7 => 10 case 8 => 1
    case 9 => 2 case 10 => 8 case 11 => 5 case 12 => 11 case 13 => 12 case 14 => 4 case 15 => 15
    case 16 => 13 case 17 => 8 case 18 => 11 case 19 => 5 case 20 => 6 case 21 => 15 case 22 => 0 case 23 => 3
    case 24 => 4 case 25 => 7 case 26 => 2 case 27 => 12 case 28 => 1 case 29 => 10 case 30 => 14 case 31 => 9
    case 32 => 10 case 33 => 6 case 34 => 9 case 35 => 0 case 36 => 12 case 37 => 11 case 38 => 7 case 39 => 13
    case 40 => 15 case 41 => 1 case 42 => 3 case 43 => 14 case 44 => 5 case 45 => 2 case 46 => 8 case 47 => 4
    case 48 => 3 case 49 => 15 case 50 => 0 case 51 => 6 case 52 => 10 case 53 => 1 case 54 => 13 case 55 => 8
    case 56 => 9 case 57 => 4 case 58 => 5 case 59 => 11 case 60 => 12 case 61 => 7 case 62 => 2 case 63 => 14
  }

  function S5(i: nat): Nibble
    requires i < 64
  {
    match i
    case 0 => 2 case 1 => 12 case 2 => 4 case 3 => 1 case 4 => 7 case 5 => 10 case 6 => 11 case 7 => 6 case 8 => 8
    case 9 => 5 case 10 => 3 case 11 => 15 case 12 => 13 case 13 => 0 case 14 => 14 case 15 => 9
    case 16 => 14 case 17 => 11 case 18 => 2 case 19 => 12 case 20 => 4 case 21 => 7 case 22 => 13 case 23 => 1
    case 24 => 5 case 25 => 0 case 26 => 15 case 27 => 10 case 28 => 3 case 29 => 9 case 30 => 8 case 31 => 6
    case 32 => 4 case 33 => 2 case 34 => 1 case 35 => 11 case 36 => 10 case 37 => 13 case 38 => 7 case 39 => 8
    case 40 => 15 case 41 => 9 case 42 => 12 case 43 => 5 case 44 => 6 case 45 => 3 case 46 => 0 case 47 => 14
    case 48 => 11 case 49 => 8 case 50 => 12 case 51 => 7 case 52 => 1 case 53 => 14 case 54 => 2 case 55 => 13
    case 56 => 6 case 57 => 15 case 58 => 0 case 59 => 9 case 60 => 10 case 61 => 4 case 62 => 5 case 63 => 3
  }

  function S6(i: nat): Nibble
    requires i < 64
  {
    match i
    case 0 => 12 case 1 => 1 case 2 => 10 case 3 => 15 case 4 => 9 case 5 => 2 case 6 => 6 case 7 => 8 case 8 => 0
    case 9 => 13 case 10 => 3 case 11 => 4 case 12 => 14 case 13 => 7 case 14 => 5 case 15 => 11
    case 16 => 10 case 17 => 15 case 18 => 4 case 19 => 2 case 20 => 7 case 21 => 12 case 22 => 9 case 23 => 5
    case 24 => 6 case 25 => 1 case 26 => 13 case 27 => 14 case 28 => 0 case 29 => 11 case 30 => 3 case 31 => 8
    case 32 => 9 case 33 => 14 case 34 => 15 case 35 => 5 case 36 => 2 case 37 => 8 case 38 => 12 case 39 => 3
    case 40 => 7 case 41 => 0 case 42 => 4 case 43 => 10 case 44 => 1 case 45 => 13 case 46 => 11 case 47 => 6
    case 48 => 4 case 49 => 3 case 50 => 2 case 51 => 12 case 52 => 9 case 53 => 5 case 54 => 15 case 55 => 10
    case 56 => 11 case 57 => 14 case 58 => 1 case 59 => 7 case 60 => 6 case 61 => 0 case 62 => 8 case 63 => 13
  }

  function S7(i: nat): Nibble
    requires i < 64
  {
    match i
    case 0 => 4 case 1 => 11 case 2 => 2 case 3 => 14 case 4 => 15 case 5 => 0 case 6 => 8 case 7 => 13 case 8 => 3
    case 9 => 12 case 10 => 9 case 11 => 7 case 12 => 5 case 13 => 10 case 14 => 6 case 15 => 1
    case 16 => 13 case 17 => 0 case 18 => 11 case 19 => 7 case 20 => 4 case 21 => 9 case 22 => 1 case 23 => 10
    case 24 => 14 case 25 => 3 case 26 => 5 case 27 => 12 case 28 => 2 case 29 => 15 case 30 => 8 case 31 => 6
    case 32 => 1 case 33 => 4 case 34 => 11 case 35 => 13 case 36 => 12 case 37 => 3 case 38 => 7 case 39 => 14
    case 40 => 10 case 41 => 15 case 42 => 6 case 43 => 8 case 44 => 0 case 45 => 5 case 46 => 9 case 47 => 2
    case 48 => 6 case 49 => 11 case 50 => 13 case 51 => 8 case 52 => 1 case 53 => 4 case 54 => 10 case 55 => 7
    case 56 => 9 case 57 => 5 case 58 => 0 case 59 => 15 case 60 => 14 case 61 => 2 case 62 => 3 case 63 => 12
  }

  function S8(i: nat): Nibble
    requires i < 64
  {
    match i
    case 0 => 13 case 1 => 2 case 2 => 8 case 3 => 4 case 4 => 6 case 5 => 15 case 6 => 11 case 7 => 1 case 8 => 10
    case 9 => 9 case 10 => 3 case 11 => 14 case 12 => 5 case 13 => 0 case 14 => 12 case 15 => 7
    case 16 => 1 case 17 => 15 case 18 => 13 case 19 => 8 case 20 => 10 case 21 => 3 case 22 => 7 case 23 => 4
    case 24 => 12 case 25 => 5 case 26 => 6 case 27 => 11 case 28 => 0 case 29 => 14 case 30 => 9 case 31 => 2
    case 32 => 7 case 33 => 11 case 34 => 4 case 35 => 1 case 36 => 9 case 37 => 12 case 38 => 14 case 39 => 2
    case 40 => 0 case 41 => 6 case 42 => 10 case 43 => 13 case 44 => 15 case 45 => 3 case 46 => 5 case 47 => 8
    case 48 => 2 case 49 => 1 case 50 => 14 case 51 => 7 case 52 => 4 case 53 => 10 case 54 => 8 case 55 => 13
    case 56 => 15 case 57 => 12 case 58 => 9 case 59 => 0 case 60 => 3 case 61 => 5 case 62 => 6 case 63 => 11
  }

  // Primitive function S_(b+1): the row from the outer bits, the column from the inner four.
  function SBox(b: nat, j: nat): Nibble
    requires b < 8 && j < 64
  {
    match b
    case 0 => S1(j) case 1 => S2(j) case 2 => S3(j) case 3 => S4(j)
    case 4 => S5(j) case 5 => S6(j) case 6 => S7(j) case 7 => S8(j)
  }

  function Num(b: bool): nat {
    if b then 1 else 0
  }

  function RowColumn(x: Bits): (r: nat)
    requires |x| == 6
    ensures r < 64
  {
    16 * (2 * Num(x[0]) + Num(x[5])) + 8 * Num(x[1]) + 4 * Num(x[2]) + 2 * Num(x[3]) + Num(x[4])
  }

  // Bit t of a four-bit number, the most significant first.
  predicate NibbleBit(v: bv32, t: nat)
    requires t < 4
  {
    match t
    case 0 => v & 8 != 0
    case 1 => v & 4 != 0
    case 2 => v & 2 != 0
    case 3 => v & 1 != 0
  }

  function Xor(a: Bits, b: Bits): (r: Bits)
    requires |a| == |b|
    ensures |r| == |a|
  {
    seq(|a|, i requires 0 <= i < |a| => a[i] != b[i])
  }

  // ---- the cipher function f

  function Expand(r: Bits): (x: Bits)
    requires |r| == 32
    ensures |x| == 48
  {
    seq(48, i requires 0 <= i < 48 => r[E(i) - 1])
  }

  function Salted(x: Bits, salt: Bits): (y: Bits)
    requires |x| == 48 && |salt| == 24
    ensures |y| == 48
  {
    seq(48, i requires 0 <= i < 48 => if salt[i % 24] then x[(i + 24) % 48] else x[i])
  }

  function Substitute(x: Bits): (y: Bits)
    requires |x| == 48
    ensures |y| == 32
  {
    seq(32, i requires 0 <= i < 32 => NibbleBit(SBox(i / 4, RowColumn(x[6 * (i / 4)..6 * (i / 4) + 6])), i % 4))
  }

  function PermuteP(y: Bits): (z: Bits)
    requires |y| == 32
    ensures |z| == 32
  {
    seq(32, i requires 0 <= i < 32 => y[P(i) - 1])
  }

  function F(r: Bits, k: Bits, salt: Bits): (z: Bits)
    requires |r| == 32 && |k| == 48 && |salt| == 24
    ensures |z| == 32
  {
    PermuteP(Substitute(Xor(Salted(Expand(r), salt), k)))
  }

  // ---- the key schedule

  function PermutedChoice1(key: Bits): (c: Bits)
    requires |key| == 64
    ensures |c| == 56
  {
    seq(56, i requires 0 <= i < 56 => key[PC1(i) - 1])
  }

  function PermutedChoice2(c: Bits): (k: Bits)
    requires |c| == 56
    ensures |k| == 48
  {
    seq(48, i requires 0 <= i < 48 => c[PC2(i) - 1])
  }

  function RotateLeft(c: Bits, n: nat): (d: Bits)
    requires n <= |c|
    ensures |d| == |c|
  {
    c[n..] + c[..n]
  }

  // All the shifts up to and including a round.
  function TotalShift(round: nat): (n: nat)
    requires round < 16
    ensures 1 <= n <= 2 * (round + 1)
  {
    SHIFTS(round) + (if round == 0 then 0 else TotalShift(round - 1))
  }

  // The running sums of SHIFTS.
  function TOTALS(i: nat): (r: nat)
    requires i < 16
    ensures 1 <= r <= 28
  {
    match i
    case 0 => 1 case 1 => 2 case 2 => 4 case 3 => 6 case 4 => 8 case 5 => 10 case 6 => 12 case 7 => 14 case 8 => 15
    case 9 => 17 case 10 => 19 case 11 => 21 case 12 => 23 case 13 => 25 case 14 => 27 case 15 => 28
  }

  lemma {:induction false} TotalShiftIs(round: nat)
    requires round < 16
    ensures TotalShift(round) == TOTALS(round)
  {
    if round > 0 {
      TotalShiftIs(round - 1);
      TotalsStep(round);
    }
  }

  lemma TotalsStep(round: nat)
    requires 0 < round < 16
    ensures TOTALS(round) == TOTALS(round - 1) + SHIFTS(round)
  {
  }

  function RoundKey(key: Bits, round: nat): (k: Bits)
    requires |key| == 64 && round < 16
    ensures |k| == 48
  {
    TotalShiftIs(round);
    var c := PermutedChoice1(key);
    PermutedChoice2(RotateLeft(c[..28], TotalShift(round)) + RotateLeft(c[28..], TotalShift(round)))
  }

  // ---- enciphering

  ghost predicate IsSchedule(keys: seq<Bits>) {
    |keys| == 16 && forall i :: 0 <= i < 16 ==> |keys[i]| == 48
  }

  datatype Halves = Halves(l: Bits, r: Bits)

  ghost predicate Proper(h: Halves) {
    |h.l| == 32 && |h.r| == 32
  }

  function InitialPermutation(b: Bits): (h: Halves)
    requires |b| == 64
    ensures |h.l| == 32 && |h.r| == 32
  {
    Halves(seq(32, i requires 0 <= i < 32 => b[IP(i) - 1]), seq(32, i requires 0 <= i < 32 => b[IP(i + 32) - 1]))
  }

  function FinalPermutation(h: Halves): (b: Bits)
    requires |h.l| == 32 && |h.r| == 32
    ensures |b| == 64
  {
    seq(64, i requires 0 <= i < 64 => (h.l + h.r)[IP_INV(i) - 1])
  }

  // The first n of the 16 rounds.
  ghost function Rounds(h: Halves, keys: seq<Bits>, salt: Bits, n: nat): (h': Halves)
    requires Proper(h) && IsSchedule(keys) && |salt| == 24 && n <= 16
    ensures Proper(h')
  {
    if n == 0 then h
    else var g := Rounds(h, keys, salt, n - 1); Halves(g.r, Xor(g.l, F(g.r, keys[n - 1], salt)))
  }

  function Swap(h: Halves): Halves {
    Halves(h.r, h.l)
  }

  // Sixteen rounds and the exchange of the halves, count times over.
  ghost function Iterate(h: Halves, keys: seq<Bits>, salt: Bits, count: nat): (h': Halves)
    requires Proper(h) && IsSchedule(keys) && |salt| == 24
    ensures Proper(h')
  {
    if count == 0 then h else Swap(Rounds(Iterate(h, keys, salt, count - 1), keys, salt, 16))
  }

  /** DES when count is 1 and the salt is zero; crypt(3)'s inner loop when count is 25. */
  ghost function Encipher(block: Bits, keys: seq<Bits>, salt: Bits, count: nat): (out: Bits)
    requires |block| == 64 && IsSchedule(keys) && |salt| == 24
    ensures |out| == 64
  {
    FinalPermutation(Iterate(InitialPermutation(block), keys, salt, count))
  }

  // ---- the permutations are permutations

  lemma IpInverse(i: nat)
    requires i < 64
    ensures IP_INV(IP(i) - 1) == i + 1
  {
    match i
    case 0 => case 1 => case 2 => case 3 => case 4 => case 5 => case 6 => case 7 => case 8 => case 9 => case 10 =>
    case 11 => case 12 => case 13 => case 14 => case 15 =>
    case 16 => case 17 => case 18 => case 19 => case 20 => case 21 => case 22 => case 23 => case 24 => case 25 =>
    case 26 => case 27 => case 28 => case 29 => case 30 => case 31 =>
    case 32 => case 33 => case 34 => case 35 => case 36 => case 37 => case 38 => case 39 => case 40 => case 41 =>
    case 42 => case 43 => case 44 => case 45 => case 46 => case 47 =>
    case 48 => case 49 => case 50 => case 51 => case 52 => case 53 => case 54 => case 55 => case 56 => case 57 =>
    case 58 => case 59 => case 60 => case 61 => case 62 => case 63 =>
  }

  lemma IpInverseBack(i: nat)
    requires i < 64
    ensures IP(IP_INV(i) - 1) == i + 1
  {
    match i
    case 0 => case 1 => case 2 => case 3 => case 4 => case 5 => case 6 => case 7 => case 8 => case 9 => case 10 =>
    case 11 => case 12 => case 13 => case 14 => case 15 =>
    case 16 => case 17 => case 18 => case 19 => case 20 => case 21 => case 22 => case 23 => case 24 => case 25 =>
    case 26 => case 27 => case 28 => case 29 => case 30 => case 31 =>
    case 32 => case 33 => case 34 => case 35 => case 36 => case 37 => case 38 => case 39 => case 40 => case 41 =>
    case 42 => case 43 => case 44 => case 45 => case 46 => case 47 =>
    case 48 => case 49 => case 50 => case 51 => case 52 => case 53 => case 54 => case 55 => case 56 => case 57 =>
    case 58 => case 59 => case 60 => case 61 => case 62 => case 63 =>
  }

  // Where each position of P's input goes.
  function P_INV(i: nat): (r: nat)
    requires i < 32
    ensures 1 <= r <= 32
  {
    match i
    case 0 => 9 case 1 => 17 case 2 => 23 case 3 => 31 case 4 => 13 case 5 => 28 case 6 => 2 case 7 => 18
    case 8 => 24 case 9 => 16 case 10 => 30 case 11 => 6 case 12 => 26 case 13 => 20 case 14 => 10 case 15 => 1
    case 16 => 8 case 17 => 14 case 18 => 25 case 19 => 3 case 20 => 4 case 21 => 29 case 22 => 11 case 23 => 19
    case 24 => 32 case 25 => 12 case 26 => 22 case 27 => 7 case 28 => 5 case 29 => 27 case 30 => 15 case 31 => 21
  }

  lemma PInverse(i: nat)
    requires i < 32
    ensures P_INV(P(i) - 1) == i + 1 && P(P_INV(i) - 1) == i + 1
  {
    match i
    case 0 => case 1 => case 2 => case 3 => case 4 => case 5 => case 6 => case 7 => case 8 => case 9 => case 10 =>
    case 11 => case 12 => case 13 => case 14 => case 15 =>
    case 16 => case 17 => case 18 => case 19 => case 20 => case 21 => case 22 => case 23 => case 24 => case 25 =>
    case 26 => case 27 => case 28 => case 29 => case 30 => case 31 =>
  }

  // Where permuted choice 1 sends each position; 0 for the parity bits.
  function PC1_INV(i: nat): (r: nat)
    requires i < 64
    ensures r <= 56
  {
    match i
    case 0 => 8 case 1 => 16 case 2 => 24 case 3 => 56 case 4 => 52 case 5 => 44 case 6 => 36 case 7 => 0
    case 8 => 7 case 9 => 15 case 10 => 23 case 11 => 55 case 12 => 51 case 13 => 43 case 14 => 35 case 15 => 0
    case 16 => 6 case 17 => 14 case 18 => 22 case 19 => 54 case 20 => 50 case 21 => 42 case 22 => 34 case 23 => 0
    case 24 => 5 case 25 => 13 case 26 => 21 case 27 => 53 case 28 => 49 case 29 => 41 case 30 => 33 case 31 => 0
    case 32 => 4 case 33 => 12 case 34 => 20 case 35 => 28 case 36 => 48 case 37 => 40 case 38 => 32 case 39 => 0
    case 40 => 3 case 41 => 11 case 42 => 19 case 43 => 27 case 44 => 47 case 45 => 39 case 46 => 31 case 47 => 0
    case 48 => 2 case 49 => 10 case 50 => 18 case 51 => 26 case 52 => 46 case 53 => 38 case 54 => 30 case 55 => 0
    case 56 => 1 case 57 => 9 case 58 => 17 case 59 => 25 case 60 => 45 case 61 => 37 case 62 => 29 case 63 => 0
  }

  lemma Pc1Inverse(i: nat)
    requires i < 56
    ensures PC1_INV(PC1(i) - 1) == i + 1
  {
    match i
    case 0 => case 1 => case 2 => case 3 => case 4 => case 5 => case 6 => case 7 => case 8 => case 9 => case 10 =>
    case 11 => case 12 => case 13 => case 14 => case 15 =>
    case 16 => case 17 => case 18 => case 19 => case 20 => case 21 => case 22 => case 23 => case 24 => case 25 =>
    case 26 => case 27 => case 28 => case 29 => case 30 => case 31 =>
    case 32 => case 33 => case 34 => case 35 => case 36 => case 37 => case 38 => case 39 => case 40 => case 41 =>
    case 42 => case 43 => case 44 => case 45 => case 46 => case 47 =>
    case 48 => case 49 => case 50 => case 51 => case 52 => case 53 => case 54 => case 55 =>
  }

  // Where permuted choice 2 sends each position; 0 for the dropped ones.
  function PC2_INV(i: nat): (r: nat)
    requires i < 56
    ensures r <= 48
  {
    match i
    case 0 => 5 case 1 => 24 case 2 => 7 case 3 => 16 case 4 => 6 case 5 => 10 case 6 => 20 case 7 => 18
    case 8 => 0 case 9 => 12 case 10 => 3 case 11 => 15 case 12 => 23 case 13 => 1 case 14 => 9 case 15 => 19
    case 16 => 2 case 17 => 0 case 18 => 14 case 19 => 22 case 20 => 11 case 21 => 0 case 22 => 13 case 23 => 4
    case 24 => 0 case 25 => 17 case 26 => 21 case 27 => 8 case 28 => 47 case 29 => 31 case 30 => 27 case 31 => 48
    case 32 => 35 case 33 => 41 case 34 => 0 case 35 => 46 case 36 => 28 case 37 => 0 case 38 => 39 case 39 => 32
    case 40 => 25 case 41 => 44 case 42 => 0 case 43 => 37 case 44 => 34 case 45 => 43 case 46 => 29 case 47 => 36
    case 48 => 38 case 49 => 45 case 50 => 33 case 51 => 26 case 52 => 42 case 53 => 0 case 54 => 30 case 55 => 40
  }

  lemma Pc2Inverse(i: nat)
    requires i < 48
    ensures PC2_INV(PC2(i) - 1) == i + 1
  {
    match i
    case 0 => case 1 => case 2 => case 3 => case 4 => case 5 => case 6 => case 7 => case 8 => case 9 => case 10 =>
    case 11 => case 12 => case 13 => case 14 => case 15 =>
    case 16 => case 17 => case 18 => case 19 => case 20 => case 21 => case 22 => case 23 => case 24 => case 25 =>
    case 26 => case 27 => case 28 => case 29 => case 30 => case 31 =>
    case 32 => case 33 => case 34 => case 35 => case 36 => case 37 => case 38 => case 39 => case 40 => case 41 =>
    case 42 => case 43 => case 44 => case 45 => case 46 => case 47 =>
  }

  // The positions listed by permuted choice 1 are not parity bits, and each is listed once.
  lemma Pc1Unique(x: nat)
    requires x < 64
    ensures PC1_INV(x) > 0 ==> PC1(PC1_INV(x) - 1) == x + 1
  {
    match x
    case 0 => case 1 => case 2 => case 3 => case 4 => case 5 => case 6 => case 7 => case 8 => case 9 => case 10 =>
    case 11 => case 12 => case 13 => case 14 => case 15 =>
    case 16 => case 17 => case 18 => case 19 => case 20 => case 21 => case 22 => case 23 => case 24 => case 25 =>
    case 26 => case 27 => case 28 => case 29 => case 30 => case 31 =>
    case 32 => case 33 => case 34 => case 35 => case 36 => case 37 => case 38 => case 39 => case 40 => case 41 =>
    case 42 => case 43 => case 44 => case 45 => case 46 => case 47 =>
    case 48 => case 49 => case 50 => case 51 => case 52 => case 53 => case 54 => case 55 => case 56 => case 57 =>
    case 58 => case 59 => case 60 => case 61 => case 62 => case 63 =>
  }

  lemma Pc1NotParity(i: nat)
    requires i < 56
    ensures (PC1(i) - 1) % 8 < 7
  {
    match i
    case 0 => case 1 => case 2 => case 3 => case 4 => case 5 => case 6 => case 7 => case 8 => case 9 => case 10 =>
    case 11 => case 12 => case 13 => case 14 => case 15 =>
    case 16 => case 17 => case 18 => case 19 => case 20 => case 21 => case 22 => case 23 => case 24 => case 25 =>
    case 26 => case 27 => case 28 => case 29 => case 30 => case 31 =>
    case 32 => case 33 => case 34 => case 35 => case 36 => case 37 => case 38 => case 39 => case 40 => case 41 =>
    case 42 => case 43 => case 44 => case 45 => case 46 => case 47 =>
    case 48 => case 49 => case 50 => case 51 => case 52 => case 53 => case 54 => case 55 =>
  }

  lemma Pc2Unique(x: nat)
    requires x < 56
    ensures PC2_INV(x) > 0 ==> PC2(PC2_INV(x) - 1) == x + 1
  {
    match x
    case 0 => case 1 => case 2 => case 3 => case 4 => case 5 => case 6 => case 7 => case 8 => case 9 => case 10 =>
    case 11 => case 12 => case 13 => case 14 => case 15 =>
    case 16 => case 17 => case 18 => case 19 => case 20 => case 21 => case 22 => case 23 => case 24 => case 25 =>
    case 26 => case 27 => case 28 => case 29 => case 30 => case 31 =>
    case 32 => case 33 => case 34 => case 35 => case 36 => case 37 => case 38 => case 39 => case 40 => case 41 =>
    case 42 => case 43 => case 44 => case 45 => case 46 => case 47 =>
    case 48 => case 49 => case 50 => case 51 => case 52 => case 53 => case 54 => case 55 =>
  }
}
