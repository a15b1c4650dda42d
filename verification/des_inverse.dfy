/** Deciphering undoes enciphering: the reversed key schedule, the Feistel exchange and the inverse permutations. */
module DesInverse {
  import opened DesStandard

  function Reverse(keys: seq<Bits>): (r: seq<Bits>)
    ensures |r| == |keys|
  {
    seq(|keys|, i requires 0 <= i < |keys| => keys[|keys| - 1 - i])
  }

  lemma XorTwice(a: Bits, b: Bits)
    requires |a| == |b|
    ensures Xor(Xor(a, b), b) == a
  {
  }

  lemma InitialUndoesFinal(h: Halves)
    requires Proper(h)
    ensures InitialPermutation(FinalPermutation(h)) == h
  {
    hide IP, IP_INV;
    var g := InitialPermutation(FinalPermutation(h));
    forall i: nat | i < 64 ensures (g.l + g.r)[i] == (h.l + h.r)[i] { IpInverse(i); }
    assert g.l == (g.l + g.r)[..32] && g.r == (g.l + g.r)[32..];
    assert h.l == (h.l + h.r)[..32] && h.r == (h.l + h.r)[32..];
    assert g.l + g.r == h.l + h.r;
  }

  lemma FinalUndoesInitial(b: Bits)
    requires |b| == 64
    ensures FinalPermutation(InitialPermutation(b)) == b
  {
    hide IP, IP_INV;
    var h := InitialPermutation(b);
    forall i: nat | i < 64 ensures FinalPermutation(h)[i] == b[i] {
      IpInverseBack(i);
      var j := IP_INV(i) - 1;
      assert (h.l + h.r)[j] == b[IP(j) - 1];
    }
  }

  /** Running the rounds backwards from the exchanged halves retraces them. */
  lemma {:induction false} RoundsRetrace(h: Halves, keys: seq<Bits>, salt: Bits, n: nat)
    requires Proper(h) && IsSchedule(keys) && |salt| == 24 && n <= 16
    ensures Rounds(Swap(Rounds(h, keys, salt, 16)), Reverse(keys), salt, n) == Swap(Rounds(h, keys, salt, 16 - n))
  {
    hide F;
    if n > 0 {
      RoundsRetrace(h, keys, salt, n - 1);
      var g := Rounds(h, keys, salt, 16 - n);
      var k := keys[16 - n];
      assert Reverse(keys)[n - 1] == k;
      XorTwice(g.l, F(g.r, k, salt));
    }
  }

  lemma RoundsUndone(h: Halves, keys: seq<Bits>, salt: Bits)
    requires Proper(h) && IsSchedule(keys) && |salt| == 24
    ensures Swap(Rounds(Swap(Rounds(h, keys, salt, 16)), Reverse(keys), salt, 16)) == h
  {
    RoundsRetrace(h, keys, salt, 16);
  }

  lemma {:induction false} IterateFromInside(h: Halves, keys: seq<Bits>, salt: Bits, n: nat)
    requires Proper(h) && IsSchedule(keys) && |salt| == 24
    ensures Iterate(Swap(Rounds(h, keys, salt, 16)), keys, salt, n) == Iterate(h, keys, salt, n + 1)
  {
    if n == 0 {
      assert Iterate(h, keys, salt, 0) == h;
    } else {
      IterateFromInside(h, keys, salt, n - 1);
    }
  }

  lemma {:induction false} IterateRetraces(h: Halves, keys: seq<Bits>, salt: Bits, n: nat)
    requires Proper(h) && IsSchedule(keys) && |salt| == 24
    ensures Iterate(Iterate(h, keys, salt, n), Reverse(keys), salt, n) == h
  {
    hide Rounds;
    if n > 0 {
      var g := Iterate(h, keys, salt, n - 1);
      var rev := Reverse(keys);
      RoundsUndone(g, keys, salt);
      IterateFromInside(Iterate(h, keys, salt, n), rev, salt, n - 1);
      IterateRetraces(h, keys, salt, n - 1);
    }
  }

  /** For every key schedule, salt, block and count, enciphering with the reversed schedule gives the block back. */
  lemma Deciphers(block: Bits, keys: seq<Bits>, salt: Bits, count: nat)
    requires |block| == 64 && IsSchedule(keys) && |salt| == 24
    ensures Encipher(Encipher(block, keys, salt, count), Reverse(keys), salt, count) == block
  {
    var h := InitialPermutation(block);
    InitialUndoesFinal(Iterate(h, keys, salt, count));
    IterateRetraces(h, keys, salt, count);
    FinalUndoesInitial(block);
  }
}
