/** OR-masks: looking a word up chunk by chunk in mask tables moves its bits to their destinations. */
module DesMasks {
  import opened DesBits
  import opened DesStandard

  function WordBits(w: bv32): (b: Bits)
    ensures |b| == 32
  {
    seq(32, i requires 0 <= i < 32 => Bit(w, i))
  }

  // The n least significant bits.
  function LowBits(w: bv32, n: nat): (b: Bits)
    requires n <= 32
    ensures |b| == n
  {
    WordBits(w)[32 - n..]
  }

  /** The OR of bits32[dest[j]] over the set bits j; destinations outside 0..31 contribute nothing. */
  function OrBits(bits: Bits, dest: seq<int>): bv32
    requires |bits| == |dest|
  {
    if bits == [] then 0
    else
      var k := |bits| - 1;
      Or(OrBits(bits[..k], dest[..k]), Target(bits[k], dest[k]))
  }

  function Target(bit: bool, d: int): bv32 {
    if bit && 0 <= d < 32 then BITS32(d) else 0
  }

  lemma OrLaws(a: bv32, b: bv32, c: bv32)
    ensures Or(a, Or(b, c)) == Or(Or(a, b), c)
    ensures Or(a, 0) == a
  {
  }

  lemma TargetBit(bit: bool, d: int, o: nat)
    requires o < 32
    ensures Bit(Target(bit, d), o) <==> bit && d == o
  {
    hide Bit, BITS32;
    if bit && 0 <= d < 32 { BitOfBits(d, o); } else { ZeroBit(o); }
  }

  // Some set bit has destination o.
  predicate Named(bits: Bits, dest: seq<int>, o: nat)
    requires |bits| == |dest|
  {
    exists j :: 0 <= j < |bits| && bits[j] && dest[j] == o
  }

  lemma NamedMore(bits: Bits, dest: seq<int>, o: nat)
    requires |bits| == |dest| && bits != []
    ensures var k := |bits| - 1; Named(bits, dest, o) <==> Named(bits[..k], dest[..k], o) || (bits[k] && dest[k] == o)
  {
    var k := |bits| - 1;
    if j :| 0 <= j < k && bits[..k][j] && dest[..k][j] == o { assert bits[j] && dest[j] == o; }
    if j :| 0 <= j < |bits| && bits[j] && dest[j] == o && j < k { assert bits[..k][j] && dest[..k][j] == o; }
  }

  lemma OrBitsLast(bits: Bits, dest: seq<int>)
    requires |bits| == |dest| && bits != []
    ensures var k := |bits| - 1; OrBits(bits, dest) == Or(OrBits(bits[..k], dest[..k]), Target(bits[k], dest[k]))
  {
    hide Target, Or;
  }

  lemma OrBitsStep(bits: Bits, dest: seq<int>, o: nat)
    requires |bits| == |dest| && bits != [] && o < 32
    ensures var k := |bits| - 1;
      Bit(OrBits(bits, dest), o) <==> Bit(OrBits(bits[..k], dest[..k]), o) || Bit(Target(bits[k], dest[k]), o)
  {
    hide *;
    var k := |bits| - 1;
    OrBitsLast(bits, dest);
    OrBitOf(OrBits(bits[..k], dest[..k]), Target(bits[k], dest[k]), o);
  }

  lemma {:induction false} OrBitsBit(bits: Bits, dest: seq<int>, o: nat)
    requires |bits| == |dest| && o < 32
    ensures Bit(OrBits(bits, dest), o) <==> Named(bits, dest, o)
  {
    if bits == [] {
      hide Bit;
      ZeroBit(o);
    } else {
      var k := |bits| - 1;
      OrBitsStep(bits, dest, o);
      hide *;
      NamedMore(bits, dest, o);
      OrBitsBit(bits[..k], dest[..k], o);
      TargetBit(bits[k], dest[k], o);
    }
  }
}
