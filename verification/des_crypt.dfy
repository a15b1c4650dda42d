/** The cipher's state: des_init on demand, the salt and key caches, do_des. */
module DesCrypt {
  import opened DesBits
  import opened DesStandard
  import opened DesInverse
  import opened DesFunction
  import opened DesPermute
  import opened DesInit
  import opened DesCipher

  class Des {
    var initialised: bool
    var tables: Tables
    var saltbits: bv32
    var oldSalt: bv32
    var oldRaw0: bv32
    var oldRaw1: bv32
    const enKeysL: array<bv32>
    const enKeysR: array<bv32>
    const deKeysL: array<bv32>
    const deKeysR: array<bv32>
    ghost var keys: seq<Bits>

    // Both rows of keys hold the current schedule, and the caches say what they were made from.
    ghost predicate Valid()
      reads this, enKeysL, enKeysR, deKeysL, deKeysR
    {
      && enKeysL.Length == enKeysR.Length == deKeysL.Length == deKeysR.Length == 16
      && enKeysL != enKeysR && enKeysL != deKeysL && enKeysL != deKeysR
      && enKeysR != deKeysL && enKeysR != deKeysR && deKeysL != deKeysR
      && Holds(enKeysL[..], enKeysR[..], keys)
      && Holds(deKeysL[..], deKeysR[..], Reverse(keys))
      && SaltIs(saltbits, oldSalt)
      && (initialised ==> Built(tables))
      && (NonZero(oldRaw0, oldRaw1) ==> initialised && keys == Schedule(oldRaw0, oldRaw1))
    }

    constructor ()
      ensures Valid() && !initialised && oldSalt == 0
      ensures fresh(enKeysL) && fresh(enKeysR) && fresh(deKeysL) && fresh(deKeysR)
    {
      initialised := false;
      tables := Tables([], [], [], [], [], [], [], [], [], []);
      saltbits, oldSalt, oldRaw0, oldRaw1 := 0, 0, 0, 0;
      enKeysL := new bv32[16](i => 0);
      enKeysR := new bv32[16](i => 0);
      deKeysL := new bv32[16](i => 0);
      deKeysR := new bv32[16](i => 0);
      keys := seq(16, i => Bits48(0, 0));
      new;
      NoSaltYet();
      hide SaltIs, Bits48, Built, Schedule;
    }

    method DesInit()
      requires Valid() && !initialised
      modifies this
      ensures Valid() && initialised && keys == old(keys) && oldSalt == 0
    {
      hide Holds, SaltIs, Schedule, Built, NonZero;
      NoSaltYet();
      NothingZero();
      var t := BuildTables();
      oldRaw0, oldRaw1, saltbits, oldSalt := 0, 0, 0, 0;
      tables := t;
      initialised := true;
    }

    /** Skips the work only when the salt is the one already spread. */
    method SetupSalt(salt: bv32)
      requires Valid()
      modifies this`saltbits, this`oldSalt
      ensures Valid() && oldSalt == salt
    {
      hide Holds, SaltIs, Schedule, Built, NonZero;
      if salt == oldSalt {
        return;
      }
      oldSalt := salt;
      saltbits := SpreadSalt(salt);
    }

    /** Whatever calls came before, the schedule is that of the key given. */
    method SetKey(key: seq<bv8>) returns (failed: int)
      requires Valid() && |key| == 8
      modifies this, enKeysL, enKeysR, deKeysL, deKeysR
      ensures Valid() && initialised && failed == 0
      ensures keys == Schedule(Join(key[..4]), Join(key[4..]))
      ensures |keys| == 16 && forall i :: 0 <= i < 16 ==> keys[i] == RoundKey(Block(key), i)
      ensures old(initialised) ==> oldSalt == old(oldSalt)
    {
      if !initialised {
        DesInit();
      }
      hide Holds, SaltIs, Schedule, Built, NonZero, Join;
      var raw0, raw1 := Join(key[..4]), Join(key[4..]);
      if NonZero(raw0, raw1) && raw0 == oldRaw0 && raw1 == oldRaw1 {
        return 0;
      }
      oldRaw0, oldRaw1 := raw0, raw1;
      KeySchedule(tables, raw0, raw1, enKeysL, enKeysR, deKeysL, deKeysR);
      keys := Schedule(raw0, raw1);
      return 0;
    }

    /** Enciphers with the key schedule, deciphers with its reversal; a count of zero is refused. */
    method DoDes(lIn: bv32, rIn: bv32, count: int) returns (failed: int, lOut: bv32, rOut: bv32)
      requires Valid() && initialised
      ensures IsSchedule(keys) && IsSchedule(Reverse(keys))
      ensures failed == if count == 0 then 1 else 0
      ensures count > 0 ==>
        Bits64(lOut, rOut) == Encipher(Bits64(lIn, rIn), keys, SaltRow(oldSalt), count)
      ensures count < 0 ==>
        Bits64(lOut, rOut) == Encipher(Bits64(lIn, rIn), Reverse(keys), SaltRow(oldSalt), -count)
    {
      hide Holds, SaltIs, Schedule, Built, NonZero, Encipher, Bits64, SaltRow, IsSchedule, Reverse;
      HeldIsSchedule(enKeysL[..], enKeysR[..], keys);
      ReverseIsSchedule(keys);
      failed, lOut, rOut := 0, 0, 0;
      if count == 0 {
        failed := 1;
        return;
      }
      var kl, kr, n := enKeysL[..], enKeysR[..], count;
      ghost var ks := keys;
      if count < 0 {
        kl, kr, n := deKeysL[..], deKeysR[..], -count;
        ks := Reverse(keys);
      }
      lOut, rOut := Run(tables, saltbits, kl, kr, lIn, rIn, n, ks, oldSalt);
    }

    /** des_cipher: the bytes as two words, most significant first, and the words as bytes again. */
    method Cipher(input: seq<bv8>, salt: bv32, count: int) returns (failed: int, output: seq<bv8>)
      requires Valid() && |input| == 8
      modifies this
      ensures Valid() && initialised && oldSalt == salt && keys == old(keys)
      ensures IsSchedule(keys) && IsSchedule(Reverse(keys))
      ensures failed == (if count == 0 then 1 else 0) && |output| == 8
      ensures count > 0 ==> Block(output) == Encipher(Block(input), keys, SaltRow(salt), count)
      ensures count < 0 ==> Block(output) == Encipher(Block(input), Reverse(keys), SaltRow(salt), -count)
    {
      if !initialised {
        DesInit();
      }
      hide Valid, Encipher, Bits64, SaltRow, IsSchedule, Reverse, Join, Split;
      SetupSalt(salt);
      var rawl, rawr := Join(input[..4]), Join(input[4..]);
      var lOut, rOut;
      failed, lOut, rOut := DoDes(rawl, rawr, count);
      JoinSplit(lOut);
      JoinSplit(rOut);
      output := Split(lOut) + Split(rOut);
      assert output[..4] == Split(lOut) && output[4..] == Split(rOut);
    }
  }

  // ---- bytes in network order

  // ntohl
  function Join(b: seq<bv8>): bv32
    requires |b| == 4
  {
    Four(b[0], b[1], b[2], b[3])
  }

  function Four(a: bv8, b: bv8, c: bv8, d: bv8): bv32 {
    ((a as bv32) << 24) | ((b as bv32) << 16) | ((c as bv32) << 8) | (d as bv32)
  }

  // htonl
  function Split(w: bv32): (b: seq<bv8>)
    ensures |b| == 4
  {
    [(w >> 24) as bv8, ((w >> 16) & 0xff) as bv8, ((w >> 8) & 0xff) as bv8, (w & 0xff) as bv8]
  }

  lemma JoinSplit(w: bv32)
    ensures Join(Split(w)) == w
  {
  }

  lemma SplitJoin(b: seq<bv8>)
    requires |b| == 4
    ensures Split(Join(b)) == b
  {
  }

  // Eight bytes as 64 bits.
  function Block(b: seq<bv8>): (bits: Bits)
    requires |b| == 8
    ensures |bits| == 64
  {
    Bits64(Join(b[..4]), Join(b[4..]))
  }

  // A byte whose only bit set is the j-th from the left.
  function ByteMask(j: nat): bv8
    requires j < 8
  {
    match j
    case 0 => 0x80 case 1 => 0x40 case 2 => 0x20 case 3 => 0x10
    case 4 => 0x08 case 5 => 0x04 case 6 => 0x02 case 7 => 0x01
  }

  // Bit j of a byte, from the left.
  predicate ByteBit(c: bv8, j: nat)
    requires j < 8
  {
    ByteHits(c, ByteMask(j))
  }

  predicate ByteHits(c: bv8, m: bv8) {
    c & m != 0
  }

  // A byte's mask at the four places in a word.
  function Raised(m: bv8, k: nat): bv32
    requires k < 4
  {
    match k
    case 0 => (m as bv32) << 24 case 1 => (m as bv32) << 16 case 2 => (m as bv32) << 8 case 3 => m as bv32
  }

  lemma MasksAre(k: nat, j: nat)
    requires k < 4 && j < 8
    ensures BITS32(8 * k + j) == Raised(ByteMask(j), k)
  {
    match j
    case 0 => case 1 => case 2 => case 3 => case 4 => case 5 => case 6 => case 7 =>
  }

  lemma FourHits0(a: bv8, b: bv8, c: bv8, d: bv8, m: bv8)
    ensures Hits(Four(a, b, c, d), Raised(m, 0)) <==> ByteHits(a, m)
  {
  }

  lemma FourHits1(a: bv8, b: bv8, c: bv8, d: bv8, m: bv8)
    ensures Hits(Four(a, b, c, d), Raised(m, 1)) <==> ByteHits(b, m)
  {
  }

  lemma FourHits2(a: bv8, b: bv8, c: bv8, d: bv8, m: bv8)
    ensures Hits(Four(a, b, c, d), Raised(m, 2)) <==> ByteHits(c, m)
  {
  }

  lemma FourHits3(a: bv8, b: bv8, c: bv8, d: bv8, m: bv8)
    ensures Hits(Four(a, b, c, d), Raised(m, 3)) <==> ByteHits(d, m)
  {
  }

  lemma JoinHits(b: seq<bv8>, k: nat, m: bv8)
    requires |b| == 4 && k < 4
    ensures Hits(Join(b), Raised(m, k)) <==> ByteHits(b[k], m)
  {
    hide Hits, ByteHits, Raised, Four;
    match k
    case 0 => FourHits0(b[0], b[1], b[2], b[3], m);
    case 1 => FourHits1(b[0], b[1], b[2], b[3], m);
    case 2 => FourHits2(b[0], b[1], b[2], b[3], m);
    case 3 => FourHits3(b[0], b[1], b[2], b[3], m);
  }

  lemma JoinBit(b: seq<bv8>, k: nat, j: nat)
    requires |b| == 4 && k < 4 && j < 8
    ensures Bit(Join(b), 8 * k + j) <==> ByteBit(b[k], j)
  {
    hide Hits, ByteHits, Raised, ByteMask, Join, BITS32;
    MasksAre(k, j);
    JoinHits(b, k, ByteMask(j));
  }

  /** The bits of a block are those of its bytes, in order, each byte's most significant first. */
  lemma BlockBits(b: seq<bv8>, k: nat, j: nat)
    requires |b| == 8 && k < 8 && j < 8
    ensures Block(b)[8 * k + j] <==> ByteBit(b[k], j)
  {
    hide Join, Bit, Bits64, ByteBit;
    var l, r, i := Join(b[..4]), Join(b[4..]), 8 * k + j;
    Bits64At(l, r, i);
    if k < 4 {
      JoinBit(b[..4], k, j);
    } else {
      JoinBit(b[4..], k - 4, j);
      assert i - 32 == 8 * (k - 4) + j && b[4..][k - 4] == b[k];
    }
  }

  lemma SameBlock(a: seq<bv8>, b: seq<bv8>)
    requires |a| == |b| == 8 && Block(a) == Block(b)
    ensures a == b
  {
    hide Bits64, Join;
    SameWords(Join(a[..4]), Join(a[4..]), Join(b[..4]), Join(b[4..]));
    SplitJoin(a[..4]);
    SplitJoin(a[4..]);
    SplitJoin(b[..4]);
    SplitJoin(b[4..]);
    assert a == a[..4] + a[4..] && b == b[..4] + b[4..];
  }

  lemma ReverseIsSchedule(keys: seq<Bits>)
    requires IsSchedule(keys)
    ensures IsSchedule(Reverse(keys))
  {
  }

  predicate NonZero(a: bv32, b: bv32) {
    Or(a, b) != 0
  }

  lemma NothingZero()
    ensures !NonZero(0, 0)
  {
  }

  lemma SameWords(a: bv32, b: bv32, c: bv32, d: bv32)
    requires Bits64(a, b) == Bits64(c, d)
    ensures a == c && b == d
  {
    hide Bit, Bits64;
    forall i: nat | i < 32 ensures Bit(a, i) == Bit(c, i) && Bit(b, i) == Bit(d, i) {
      Bits64At(a, b, i);
      Bits64At(c, d, i);
      Bits64At(a, b, i + 32);
      Bits64At(c, d, i + 32);
    }
    SameBits(a, c);
    SameBits(b, d);
  }

  lemma ReverseTwice(keys: seq<Bits>)
    ensures Reverse(Reverse(keys)) == keys
  {
  }

  /**
   * Decryption undoes encryption, and encryption decryption: what DoDes returns for a count, given back with the
   * count negated under the same key and salt, is the block again.
   */
  lemma DecryptionUndoes(l: bv32, r: bv32, l1: bv32, r1: bv32, l2: bv32, r2: bv32, keys: seq<Bits>, salt: bv32,
                         count: nat)
    requires IsSchedule(keys) && IsSchedule(Reverse(keys))
    ensures (&& Bits64(l1, r1) == Encipher(Bits64(l, r), keys, SaltRow(salt), count)
             && Bits64(l2, r2) == Encipher(Bits64(l1, r1), Reverse(keys), SaltRow(salt), count))
            ==> l2 == l && r2 == r
    ensures (&& Bits64(l1, r1) == Encipher(Bits64(l, r), Reverse(keys), SaltRow(salt), count)
             && Bits64(l2, r2) == Encipher(Bits64(l1, r1), keys, SaltRow(salt), count))
            ==> l2 == l && r2 == r
  {
    hide *;
    Deciphers(Bits64(l, r), keys, SaltRow(salt), count);
    Deciphers(Bits64(l, r), Reverse(keys), SaltRow(salt), count);
    ReverseTwice(keys);
    if Bits64(l2, r2) == Bits64(l, r) {
      SameWords(l2, r2, l, r);
    }
  }

  /** The same of the bytes that Cipher returns. */
  lemma BytesUndone(a: seq<bv8>, b: seq<bv8>, c: seq<bv8>, keys: seq<Bits>, salt: bv32, count: nat)
    requires |a| == |b| == |c| == 8 && IsSchedule(keys) && IsSchedule(Reverse(keys))
    ensures (&& Block(b) == Encipher(Block(a), keys, SaltRow(salt), count)
             && Block(c) == Encipher(Block(b), Reverse(keys), SaltRow(salt), count))
            ==> c == a
    ensures (&& Block(b) == Encipher(Block(a), Reverse(keys), SaltRow(salt), count)
             && Block(c) == Encipher(Block(b), keys, SaltRow(salt), count))
            ==> c == a
  {
    hide *;
    Deciphers(Block(a), keys, SaltRow(salt), count);
    Deciphers(Block(a), Reverse(keys), SaltRow(salt), count);
    ReverseTwice(keys);
    if Block(c) == Block(a) {
      SameBlock(c, a);
    }
  }
}
