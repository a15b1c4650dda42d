/** The running cipher of src/crypt.c: cached key and salt, and the rounds by table lookup. */
module DesCipher {
  import opened DesBits
  import opened DesStandard
  import opened DesInverse
  import opened DesMasks
  import opened DesTables
  import opened DesLookup
  import opened DesWords
  import opened DesFunction
  import opened DesRound
  import opened DesPermute
  import opened DesSchedule
  import opened DesInit

  // ---- lookups as the code writes them

  method LookUpBytes(t: Table, a: bv32, b: bv32) returns (w: bv32)
    requires ByteTable(t)
    ensures Indexes(t, Bytes64(a, b)) && w == LookUp(t, Bytes64(a, b), 8)
  {
    BytesIndex(t, a, b);
    BytesAre(a, b);
    hide Byte, Or8, LookUp, Bytes64;
    w := Or8(t[0][Byte(a, 24) as int], t[1][Byte(a, 16) as int], t[2][Byte(a, 8) as int], t[3][Byte(a, 0) as int],
             t[4][Byte(b, 24) as int], t[5][Byte(b, 16) as int], t[6][Byte(b, 8) as int], t[7][Byte(b, 0) as int]);
    LookUpEight(t, Bytes64(a, b));
  }

  lemma BytesAre(a: bv32, b: bv32)
    ensures var v := Bytes64(a, b);
      && v[0] == Byte(a, 24) && v[1] == Byte(a, 16) && v[2] == Byte(a, 8) && v[3] == Byte(a, 0)
      && v[4] == Byte(b, 24) && v[5] == Byte(b, 16) && v[6] == Byte(b, 8) && v[7] == Byte(b, 0)
  {
    hide Byte;
  }

  method LookUpKeySevens(t: Table, a: bv32, b: bv32) returns (w: bv32)
    requires SevenTable(t)
    ensures Indexes(t, KeySevens(a, b)) && w == LookUp(t, KeySevens(a, b), 8)
  {
    SevensIndex(t, a, b);
    KeySevensAre(a, b);
    hide Seven, Or8, LookUp, KeySevens, HalfSevens;
    w := Or8(t[0][Seven(a, 25) as int], t[1][Seven(a, 17) as int], t[2][Seven(a, 9) as int], t[3][Seven(a, 1) as int],
             t[4][Seven(b, 25) as int], t[5][Seven(b, 17) as int], t[6][Seven(b, 9) as int], t[7][Seven(b, 1) as int]);
    LookUpEight(t, KeySevens(a, b));
  }

  lemma KeySevensAre(a: bv32, b: bv32)
    ensures var v := KeySevens(a, b);
      && v[0] == Seven(a, 25) && v[1] == Seven(a, 17) && v[2] == Seven(a, 9) && v[3] == Seven(a, 1)
      && v[4] == Seven(b, 25) && v[5] == Seven(b, 17) && v[6] == Seven(b, 9) && v[7] == Seven(b, 1)
  {
    hide Seven;
  }

  method LookUpHalfSevens(t: Table, a: bv32, b: bv32) returns (w: bv32)
    requires SevenTable(t)
    ensures Indexes(t, HalfSevens(a, b)) && w == LookUp(t, HalfSevens(a, b), 8)
  {
    SevensIndex(t, a, b);
    HalfSevensAre(a, b);
    hide Seven, Or8, LookUp, KeySevens, HalfSevens;
    w := Or8(t[0][Seven(a, 21) as int], t[1][Seven(a, 14) as int], t[2][Seven(a, 7) as int], t[3][Seven(a, 0) as int],
             t[4][Seven(b, 21) as int], t[5][Seven(b, 14) as int], t[6][Seven(b, 7) as int], t[7][Seven(b, 0) as int]);
    LookUpEight(t, HalfSevens(a, b));
  }

  lemma HalfSevensAre(a: bv32, b: bv32)
    ensures var v := HalfSevens(a, b);
      && v[0] == Seven(a, 21) && v[1] == Seven(a, 14) && v[2] == Seven(a, 7) && v[3] == Seven(a, 0)
      && v[4] == Seven(b, 21) && v[5] == Seven(b, 14) && v[6] == Seven(b, 7) && v[7] == Seven(b, 0)
  {
    hide Seven;
  }

  // ---- the salt

  // Bit i of the salt, counted from the least significant, is bit i of the row.
  function SaltRow(salt: bv32): (b: Bits)
    ensures |b| == 24
  {
    seq(24, i requires 0 <= i < 24 => Bit(salt, 31 - i))
  }

  // The salt bit that position p of saltbits has received after i bits.
  predicate FromSalt(salt: bv32, p: nat, i: nat)
    requires p < 32 && i <= 24
  {
    8 <= p < 8 + i && Bit(salt, 39 - p)
  }

  // What the loop has done after i bits.
  ghost predicate Salting(bits: bv32, salt: bv32, i: nat)
    requires i <= 24
  {
    forall p: nat :: p < 32 ==> (Bit(bits, p) <==> FromSalt(salt, p, i))
  }

  lemma SaltingNone(salt: bv32)
    ensures Salting(0, salt, 0)
  {
    hide Bit;
    forall p: nat | p < 32 ensures !Bit(0, p) { ZeroBit(p); }
  }

  lemma SaltingOn(bits: bv32, salt: bv32, i: nat)
    requires i < 24 && Salting(bits, salt, i) && Bit(salt, 31 - i)
    ensures Salting(Or(bits, BITS32(8 + i)), salt, i + 1)
  {
    hide Bit, BITS32, Or;
    var w := Or(bits, BITS32(8 + i));
    forall p: nat | p < 32 ensures Bit(w, p) <==> FromSalt(salt, p, i + 1) {
      OrBitOf(bits, BITS32(8 + i), p);
      BitOfBits(8 + i, p);
    }
  }

  lemma SaltingOff(bits: bv32, salt: bv32, i: nat)
    requires i < 24 && Salting(bits, salt, i) && !Bit(salt, 31 - i)
    ensures Salting(bits, salt, i + 1)
  {
    hide Bit;
  }

  ghost predicate SaltIs(bits: bv32, salt: bv32) {
    bits < 0x1000000 && LowBits(bits, 24) == SaltRow(salt)
  }

  lemma SaltingAll(bits: bv32, salt: bv32)
    requires Salting(bits, salt, 24)
    ensures SaltIs(bits, salt)
  {
    SaltingTop(bits, salt);
    SaltingRow(bits, salt);
    hide LowBits, SaltRow;
  }

  lemma SaltingTop(bits: bv32, salt: bv32)
    requires Salting(bits, salt, 24)
    ensures bits < 0x1000000
  {
    hide Bit;
    assert forall p: nat :: p < 8 ==> !Bit(bits, p);
    TopClear(bits);
  }

  lemma SaltingRow(bits: bv32, salt: bv32)
    requires Salting(bits, salt, 24)
    ensures LowBits(bits, 24) == SaltRow(salt)
  {
    hide Bit, LowBits;
    LowBitsAre(bits, 24, SaltRow(salt));
  }

  lemma NextMasks(i: nat)
    requires i < 24
    ensures i < 23 ==> Shl(BITS32(31 - i), 1) == BITS32(30 - i) && Shr(BITS32(8 + i), 1) == BITS32(9 + i)
  {
    if i < 23 {
      NextBit(30 - i);
      NextBit(8 + i);
    }
  }

  method SpreadSalt(salt: bv32) returns (saltbits: bv32)
    ensures SaltIs(saltbits, salt)
  {
    FirstMasks();
    SaltingNone(salt);
    hide BITS32, Bit, Hits, Or, Shl, Shr, SaltIs, Salting;
    saltbits := 0;
    var saltbit, obit := 1, 0x800000;
    var i := 0;
    while i < 24
      invariant 0 <= i <= 24
      invariant i < 24 ==> saltbit == BITS32(31 - i) && obit == BITS32(8 + i)
      invariant Salting(saltbits, salt, i)
    {
      BitHits(salt, 31 - i);
      if Hits(salt, saltbit) {
        SaltingOn(saltbits, salt, i);
        saltbits := Or(saltbits, obit);
      } else {
        SaltingOff(saltbits, salt, i);
      }
      NextMasks(i);
      saltbit, obit := Shl(saltbit, 1), Shr(obit, 1);
      i := i + 1;
    }
    SaltingAll(saltbits, salt);
  }

  lemma FirstMasks()
    ensures BITS32(31) == 1 && BITS32(8) == 0x800000
  {
  }

  /** Bit i of the salt exchanges bits i and i + 24 of the expanded half. */
  lemma SaltExchanges(x: Bits, salt: bv32, i: nat)
    requires |x| == 48 && i < 24
    ensures var y, z := Salted(x, SaltRow(salt)), Bit(salt, 31 - i);
      y[i] == (if z then x[i + 24] else x[i]) && y[i + 24] == if z then x[i] else x[i + 24]
  {
    hide Bit;
  }

  /** No salt, no exchange: f is the one of FIPS PUB 46-3. */
  lemma NoSalt(x: Bits)
    requires |x| == 48
    ensures Salted(x, SaltRow(0)) == x
  {
    hide Bit;
    var z := SaltRow(0);
    forall i: nat | i < 24 ensures !z[i] { ZeroBit(31 - i); }
  }

  lemma NoSaltYet()
    ensures SaltIs(0, 0)
  {
    hide Bit, SaltIs;
    forall p: nat | p < 32 ensures Bit(0, p) <==> FromSalt(0, p, 24) {
      ZeroBit(p);
      if 8 <= p { ZeroBit(39 - p); }
    }
    SaltingAll(0, 0);
  }

  // ---- the key schedule

  // One round's keys in two words.
  ghost predicate KeyWords(kl: bv32, kr: bv32, k: Bits) {
    Bits48(kl, kr) == k && kl < 0x1000000 && kr < 0x1000000
  }

  // The 16 round keys of a raw key.
  function Schedule(raw0: bv32, raw1: bv32): (keys: seq<Bits>)
    ensures |keys| == 16
  {
    seq(16, i requires 0 <= i < 16 => RoundKey(Bits64(raw0, raw1), i))
  }

  ghost predicate KeyHalves(k0: bv32, k1: bv32, c: Bits) {
    && |c| == 56 && LowBits(k0, 28) == c[..28] && LowBits(k1, 28) == c[28..]
    && (forall p: nat :: p < 4 ==> !Bit(k0, p)) && (forall p: nat :: p < 4 ==> !Bit(k1, p))
  }

  // key_shifts
  function KEY_SHIFTS(i: nat): bv6
    requires i < 16
  {
    match i
    case 0 => 1 case 1 => 1 case 2 => 2 case 3 => 2 case 4 => 2 case 5 => 2 case 6 => 2 case 7 => 2
    case 8 => 1 case 9 => 2 case 10 => 2 case 11 => 2 case 12 => 2 case 13 => 2 case 14 => 2 case 15 => 1
  }

  // The running total as a shift count.
  ghost predicate Shifted(s: bv6, n: nat) {
    s <= 28 && n <= 28 && n == s as int
  }

  function TotalWord(i: nat): bv6
    requires i < 16
  {
    match i
    case 0 => 1 case 1 => 2 case 2 => 4 case 3 => 6 case 4 => 8 case 5 => 10 case 6 => 12 case 7 => 14
    case 8 => 15 case 9 => 17 case 10 => 19 case 11 => 21 case 12 => 23 case 13 => 25 case 14 => 27 case 15 => 28
  }

  lemma TotalWordIs(i: nat)
    requires i < 16
    ensures Shifted(TotalWord(i), TOTALS(i))
  {
    match i
    case 0 => case 1 => case 2 => case 3 => case 4 => case 5 => case 6 => case 7 =>
    case 8 => case 9 => case 10 => case 11 => case 12 => case 13 => case 14 => case 15 =>
  }

  // s + t
  function Plus(s: bv6, t: bv6): bv6 {
    s + t
  }

  lemma TotalWordStep(i: nat)
    requires i < 16
    ensures Plus(if i == 0 then 0 else TotalWord(i - 1), KEY_SHIFTS(i)) == TotalWord(i)
  {
    match i
    case 0 => case 1 => case 2 => case 3 => case 4 => case 5 => case 6 => case 7 =>
    case 8 => case 9 => case 10 => case 11 => case 12 => case 13 => case 14 => case 15 =>
  }

  lemma TotalShifted(i: nat)
    requires i < 16
    ensures Shifted(TotalWord(i), TotalShift(i))
  {
    hide *;
    TotalWordIs(i);
    TotalShiftIs(i);
  }

  /** Rotating both halves by the running total and compressing them gives the round's key. */
  lemma RoundKeyLookup(l: Table, r: Table, k0: bv32, k1: bv32, key: Bits, round: nat, s: bv6)
    requires CompTables(l, r) && |key| == 64 && round < 16
    requires KeyHalves(k0, k1, PermutedChoice1(key)) && Shifted(s, TotalShift(round))
    ensures var t0, t1 := Rotated(k0, s), Rotated(k1, s);
      && |l| == |r| == 8 && Indexes(l, HalfSevens(t0, t1)) && Indexes(r, HalfSevens(t0, t1))
      && KeyWords(LookUp(l, HalfSevens(t0, t1), 8), LookUp(r, HalfSevens(t0, t1), 8), RoundKey(key, round))
  {
    var t0, t1 := Rotated(k0, s), Rotated(k1, s);
    hide CompTables, PermutedChoice1, PermutedChoice2, Rotated, HalfSevens, LookUp, Indexes, RotateLeft, LowBits,
      Bit, TotalShift;
    RotatesTo(k0, s, TotalShift(round));
    RotatesTo(k1, s, TotalShift(round));
    CompLookup(l, r, t0, t1);
  }

  // ---- the rounds

  // The schedule held in two rows of words.
  ghost predicate Holds(kl: seq<bv32>, kr: seq<bv32>, keys: seq<Bits>) {
    |kl| == |kr| == |keys| == 16 && forall i :: 0 <= i < 16 ==> KeyWords(kl[i], kr[i], keys[i])
  }

  lemma HeldIsSchedule(kl: seq<bv32>, kr: seq<bv32>, keys: seq<Bits>)
    requires Holds(kl, kr, keys)
    ensures IsSchedule(keys)
  {
    hide Bits48;
  }

  // One round: f(r, k) by table lookup.
  method Round(t: Tables, saltbits: bv32, r: bv32, kl: bv32, kr: bv32, ghost k: Bits,
               ghost salt: bv32) returns (f: bv32)
    requires SBoxTables(t.ms) && PBoxTables(t.ps) && SaltIs(saltbits, salt) && KeyWords(kl, kr, k)
    ensures |k| == 48 && WordBits(f) == F(WordBits(r), k, SaltRow(salt))
  {
    TableFIsF(t.ms, t.ps, saltbits, r, kl, kr);
    hide SBoxTables, PBoxTables, SaltRow, WordBits, Bits48, LowBits, F;
    hide ExpandLeft, ExpandRight, Mix;
    f := TableLookups(t.ms, t.ps, saltbits, r, kl, kr);
  }

  // The expansion, the salt and key, and the lookups.
  method TableLookups(ms: Table, ps: Table, saltbits: bv32, r: bv32, kl: bv32, kr: bv32) returns (f: bv32)
    requires Ready(ms, ps, saltbits, r, kl, kr)
    ensures f == TableF(ms, ps, saltbits, r, kl, kr)
  {
    hide ExpandLeft, ExpandRight, Eor, And, Upper, Lower, Or4;
    var r48l, r48r := ExpandLeft(r), ExpandRight(r);
    f := And(Eor(r48l, r48r), saltbits);
    EorSwaps(r48l, r48r);
    r48l, r48r := Eor(r48l, Eor(f, kl)), Eor(r48r, Eor(f, kr));
    f := Or4(ps[0][ms[0][Upper(r48l) as int] as int], ps[1][ms[1][Lower(r48l) as int] as int],
             ps[2][ms[2][Upper(r48r) as int] as int], ps[3][ms[3][Lower(r48r) as int] as int]);
  }

  lemma EorSwaps(a: bv32, b: bv32)
    ensures Eor(a, b) == Eor(b, a)
  {
  }

  /** Sixteen rounds by table lookup are the sixteen rounds of FIPS PUB 46-3, with the halves exchanged. */
  method SixteenRounds(t: Tables, saltbits: bv32, keysl: seq<bv32>, keysr: seq<bv32>, l0: bv32, r0: bv32,
                       ghost keys: seq<Bits>, ghost salt: bv32) returns (l: bv32, r: bv32)
    requires SBoxTables(t.ms) && PBoxTables(t.ps) && SaltIs(saltbits, salt) && Holds(keysl, keysr, keys)
    ensures IsSchedule(keys)
    ensures Halves(WordBits(l), WordBits(r))
         == Swap(Rounds(Halves(WordBits(l0), WordBits(r0)), keys, SaltRow(salt), 16))
  {
    HeldIsSchedule(keysl, keysr, keys);
    hide SBoxTables, PBoxTables, SaltRow, WordBits, SaltIs, KeyWords, F, Eor;
    ghost var h := Halves(WordBits(l0), WordBits(r0));
    l, r := l0, r0;
    var f := 0;
    var i := 0;
    while i < 16
      invariant 0 <= i <= 16
      invariant Halves(WordBits(l), WordBits(r)) == Rounds(h, keys, SaltRow(salt), i)
      invariant i > 0 ==> f == r
    {
      f := Round(t, saltbits, r, keysl[i], keysr[i], keys[i], salt);
      EorBits(f, l);
      f := Eor(f, l);
      l := r;
      r := f;
      i := i + 1;
    }
    r := l;
    l := f;
  }

  lemma EorBits(a: bv32, b: bv32)
    ensures WordBits(Eor(a, b)) == Xor(WordBits(b), WordBits(a))
  {
    hide Bit, Eor;
    forall i: nat | i < 32 ensures WordBits(Eor(a, b))[i] == Xor(WordBits(b), WordBits(a))[i] { EorBit(a, b, i); }
  }

  // do_des after the choice of the schedule.
  method Run(t: Tables, saltbits: bv32, keysl: seq<bv32>, keysr: seq<bv32>, lIn: bv32, rIn: bv32, count: nat,
             ghost keys: seq<Bits>, ghost salt: bv32) returns (lOut: bv32, rOut: bv32)
    requires Built(t) && SaltIs(saltbits, salt) && Holds(keysl, keysr, keys)
    ensures IsSchedule(keys)
    ensures Bits64(lOut, rOut) == Encipher(Bits64(lIn, rIn), keys, SaltRow(salt), count)
  {
    HeldIsSchedule(keysl, keysr, keys);
    PermTablesSized(t.ipl, t.ipr, InitPerm());
    PermTablesSized(t.fpl, t.fpr, FinalPerm());
    InitialLookup(t.ipl, t.ipr, lIn, rIn);
    hide SBoxTables, PBoxTables, PermTables, ByteTable, KeyTables, CompTables, SaltRow, WordBits, SaltIs, Holds,
      Rounds, InitialPermutation,
      FinalPermutation, Bits64, LookUp, Bytes64, IsSchedule, Indexes, Swap;
    var l := LookUpBytes(t.ipl, lIn, rIn);
    var r := LookUpBytes(t.ipr, lIn, rIn);
    ghost var h := InitialPermutation(Bits64(lIn, rIn));
    var i := 0;
    while i < count
      invariant 0 <= i <= count
      invariant Halves(WordBits(l), WordBits(r)) == Iterate(h, keys, SaltRow(salt), i)
    {
      l, r := SixteenRounds(t, saltbits, keysl, keysr, l, r, keys, salt);
      i := i + 1;
    }
    lOut := LookUpBytes(t.fpl, l, r);
    rOut := LookUpBytes(t.fpr, l, r);
    FinalLookup(t.fpl, t.fpr, l, r);
  }

  // Four rows of keys filled for the first n rounds, from both ends.
  ghost predicate Filled(el: seq<bv32>, er: seq<bv32>, dl: seq<bv32>, dr: seq<bv32>, key: Bits, n: nat)
    requires |el| == |er| == |dl| == |dr| == 16 && |key| == 64 && n <= 16
  {
    && (forall i :: 0 <= i < n ==> KeyWords(el[i], er[i], RoundKey(key, i)))
    && (forall i :: 16 - n <= i < 16 ==> KeyWords(dl[i], dr[i], RoundKey(key, 15 - i)))
  }

  lemma FilledMore(el: seq<bv32>, er: seq<bv32>, dl: seq<bv32>, dr: seq<bv32>, key: Bits, n: nat, kl: bv32, kr: bv32)
    requires |el| == |er| == |dl| == |dr| == 16 && |key| == 64 && n < 16
    requires Filled(el, er, dl, dr, key, n) && KeyWords(kl, kr, RoundKey(key, n))
    ensures Filled(el[n := kl], er[n := kr], dl[15 - n := kl], dr[15 - n := kr], key, n + 1)
  {
    hide KeyWords, RoundKey;
  }

  lemma FilledAll(el: seq<bv32>, er: seq<bv32>, dl: seq<bv32>, dr: seq<bv32>, raw0: bv32, raw1: bv32)
    requires |el| == |er| == |dl| == |dr| == 16 && Filled(el, er, dl, dr, Bits64(raw0, raw1), 16)
    ensures Holds(el, er, Schedule(raw0, raw1)) && Holds(dl, dr, Reverse(Schedule(raw0, raw1)))
  {
    hide KeyWords, RoundKey;
  }

  method Store(en: array<bv32>, de: array<bv32>, round: nat, k: bv32)
    requires en.Length == de.Length == 16 && en != de && round < 16
    modifies en, de
    ensures en[..] == old(en[..])[round := k] && de[..] == old(de[..])[15 - round := k]
  {
    de[15 - round] := k;
    en[round] := k;
  }

  /** The key schedule by table lookup is the one of FIPS PUB 46-3. */
  method KeySchedule(t: Tables, raw0: bv32, raw1: bv32, enl: array<bv32>, enr: array<bv32>, del: array<bv32>,
                     der: array<bv32>)
    requires Built(t)
    requires enl.Length == enr.Length == del.Length == der.Length == 16
    requires enl != enr && enl != del && enl != der && enr != del && enr != der && del != der
    modifies enl, enr, del, der
    ensures Holds(enl[..], enr[..], Schedule(raw0, raw1))
    ensures Holds(del[..], der[..], Reverse(Schedule(raw0, raw1)))
  {
    TablesSized(t.kpl, t.kpr);
    KeyLookup(t.kpl, t.kpr, raw0, raw1);
    hide SBoxTables, PBoxTables, PermTables, KeyTables, CompTables, SevenTable, LookUp, KeySevens, Indexes, KeyWords,
      RoundKey, PermutedChoice1, Bits64, LowBits, Bit, Shifted, TotalWord, Plus, TotalShift, KEY_SHIFTS, Filled, Holds;
    var k0 := LookUpKeySevens(t.kpl, raw0, raw1);
    var k1 := LookUpKeySevens(t.kpr, raw0, raw1);
    ghost var key := Bits64(raw0, raw1);
    assert KeyHalves(k0, k1, PermutedChoice1(key));
    hide KeyHalves;
    var shifts: bv6 := 0;
    var round := 0;
    FilledNone(enl[..], enr[..], del[..], der[..], key);
    while round < 16
      invariant 0 <= round <= 16
      invariant shifts == if round == 0 then 0 else TotalWord(round - 1)
      invariant Filled(enl[..], enr[..], del[..], der[..], key, round)
    {
      TotalWordStep(round);
      TotalShifted(round);
      shifts := Plus(shifts, KEY_SHIFTS(round));
      var kl, kr := Compressed(t, k0, k1, shifts, key, round);
      FilledMore(enl[..], enr[..], del[..], der[..], key, round, kl, kr);
      Store(enl, del, round, kl);
      Store(enr, der, round, kr);
      round := round + 1;
    }
    FilledAll(enl[..], enr[..], del[..], der[..], raw0, raw1);
  }

  lemma FilledNone(el: seq<bv32>, er: seq<bv32>, dl: seq<bv32>, dr: seq<bv32>, key: Bits)
    requires |el| == |er| == |dl| == |dr| == 16 && |key| == 64
    ensures Filled(el, er, dl, dr, key, 0)
  {
    hide KeyWords, RoundKey;
  }

  method Compressed(t: Tables, k0: bv32, k1: bv32, shifts: bv6, ghost key: Bits,
                    ghost round: nat) returns (kl: bv32, kr: bv32)
    requires CompTables(t.cpl, t.cpr) && |key| == 64 && round < 16
    requires KeyHalves(k0, k1, PermutedChoice1(key)) && Shifted(shifts, TotalShift(round))
    ensures KeyWords(kl, kr, RoundKey(key, round))
  {
    TablesSized(t.cpl, t.cpr);
    RoundKeyLookup(t.cpl, t.cpr, k0, k1, key, round, shifts);
    hide CompTables, SevenTable, LookUp, HalfSevens, Indexes, KeyWords, RoundKey, KeyHalves, Rotated;
    var t0, t1 := Rotated(k0, shifts), Rotated(k1, shifts);
    kl := LookUpHalfSevens(t.cpl, t0, t1);
    kr := LookUpHalfSevens(t.cpr, t0, t1);
  }
}
