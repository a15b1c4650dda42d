/** The tables des_init builds, and what looking words up in them computes. */
module DesTables {
  import opened DesBits
  import opened DesStandard
  import opened DesMasks

  // An output position of one of the two words a permutation fills, as a bit number of that word; -1 if in neither.
  function Left(o: int, half: nat, shift: nat): int {
    if 0 <= o < half then o + shift else -1
  }

  function Right(o: int, half: nat, shift: nat): int {
    if half <= o < 2 * half then o - half + shift else -1
  }

  function Lefts(o: seq<int>, half: nat, shift: nat): (d: seq<int>)
    ensures |d| == |o|
  {
    seq(|o|, i requires 0 <= i < |o| => Left(o[i], half, shift))
  }

  function Rights(o: seq<int>, half: nat, shift: nat): (d: seq<int>)
    ensures |d| == |o|
  {
    seq(|o|, i requires 0 <= i < |o| => Right(o[i], half, shift))
  }

  // The first width positions of each of n stretches of a permutation: bytes, the key bits of bytes, or sevens.
  function Cut(perm: seq<int>, n: nat, stride: nat, width: nat): (c: seq<seq<int>>)
    requires (stride == 7 || stride == 8) && width <= stride && |perm| == n * stride
    ensures |c| == n && forall k :: 0 <= k < n ==> |c[k]| == width
  {
    seq(n, k requires 0 <= k < n => perm[stride * k..stride * k + width])
  }

  function Size(width: nat): nat {
    if width == 8 then 256 else 128
  }

  function LeftChunks(c: seq<seq<int>>, half: nat, shift: nat): (d: seq<seq<int>>)
    ensures |d| == |c|
  {
    seq(|c|, k requires 0 <= k < |c| => Lefts(c[k], half, shift))
  }

  function RightChunks(c: seq<seq<int>>, half: nat, shift: nat): (d: seq<seq<int>>)
    ensures |d| == |c|
  {
    seq(|c|, k requires 0 <= k < |c| => Rights(c[k], half, shift))
  }

  type Table = seq<seq<bv32>>

  // Each entry ORs together the destinations of the bits of its index.
  ghost predicate MaskRow(row: seq<bv32>, dest: seq<int>, width: nat)
    requires |dest| == width <= 8
  {
    |row| == Size(width) && forall v: bv32 :: v as int < Size(width) ==>
        row[v as int] == OrBits(LowBits(v, width), dest)
  }

  /** t[k][v] ORs the destinations of v's bits, taken as the k-th chunk of the input. */
  ghost predicate MaskTable(t: Table, dest: seq<seq<int>>, width: nat) {
    && width <= 8
    && |t| == |dest|
    && forall k :: 0 <= k < |t| ==> |dest[k]| == width && MaskRow(t[k], dest[k], width)
  }

  // One output position: its mask goes into the left or the right word, or nowhere (position 255).
  method OrMaskInto(l: bv32, r: bv32, on: bool, obit: int, half: nat, shift: nat) returns (l': bv32, r': bv32)
    requires half + shift <= 32
    ensures l' == Or(l, Target(on, Left(obit, half, shift)))
    ensures r' == Or(r, Target(on, Right(obit, half, shift)))
  {
    OrLaws(l, 0, 0);
    OrLaws(r, 0, 0);
    hide BITS32, Or;
    l', r' := l, r;
    if on && 0 <= obit < 2 * half {
      if obit < half { l' := Or(l, BITS32(obit + shift)); } else { r' := Or(r, BITS32(obit - half + shift)); }
    }
  }

  // The first j bits have been ORed in.
  ghost predicate Masked(w: bv32, bits: Bits, dest: seq<int>, j: nat) {
    j <= |bits| == |dest| && w == OrBits(bits[..j], dest[..j])
  }

  lemma MaskedNone(bits: Bits, dest: seq<int>)
    requires |bits| == |dest|
    ensures Masked(0, bits, dest, 0)
  {
  }

  lemma MaskedMore(w: bv32, bits: Bits, dest: seq<int>, j: nat)
    requires Masked(w, bits, dest, j) && j < |bits|
    ensures Masked(Or(w, Target(bits[j], dest[j])), bits, dest, j + 1)
  {
    hide Target, Or;
    OrBitsLast(bits[..j + 1], dest[..j + 1]);
    assert bits[..j + 1][..j] == bits[..j] && dest[..j + 1][..j] == dest[..j];
  }

  lemma MaskedAll(w: bv32, bits: Bits, dest: seq<int>)
    requires |bits| == |dest| && Masked(w, bits, dest, |bits|)
    ensures w == OrBits(bits, dest)
  {
    assert bits[..|bits|] == bits && dest[..|bits|] == dest;
  }

  // One turn of the innermost loop, for one of the two words.
  lemma MaskTurn(w: bv32, i: bv32, dest: seq<int>, j: nat)
    requires |dest| <= 32 && j < |dest| && Masked(w, LowBits(i, |dest|), dest, j)
    ensures Masked(Or(w, Target(Bit(i, 32 - |dest| + j), dest[j])), LowBits(i, |dest|), dest, j + 1)
  {
    hide Target, OrBits, Or, Bit, Masked;
    MaskedMore(w, LowBits(i, |dest|), dest, j);
    LowBitAt(i, |dest|);
  }

  lemma LowBitAt(w: bv32, n: nat)
    requires n <= 32
    ensures |LowBits(w, n)| == n && forall j :: 0 <= j < n ==> LowBits(w, n)[j] == Bit(w, 32 - n + j)
  {
    hide Bit;
  }

  lemma SidesAt(obits: seq<int>, half: nat, shift: nat, j: nat)
    requires j < |obits|
    ensures |Lefts(obits, half, shift)| == |Rights(obits, half, shift)| == |obits|
    ensures Lefts(obits, half, shift)[j] == Left(obits[j], half, shift)
    ensures Rights(obits, half, shift)[j] == Right(obits[j], half, shift)
  {
    hide Left, Right;
  }

  // The innermost loop: OR together the masks of i's set bits, into the left or the right word.
  method MaskPair(i: bv32, obits: seq<int>, half: nat, shift: nat) returns (l: bv32, r: bv32)
    requires |obits| == 7 || |obits| == 8
    requires half + shift <= 32
    ensures l == OrBits(LowBits(i, |obits|), Lefts(obits, half, shift))
    ensures r == OrBits(LowBits(i, |obits|), Rights(obits, half, shift))
  {
    hide Target, OrBits, Bit, LowBits, Left, Right, Lefts, Rights, Or, Masked;
    ghost var n, dl, dr := |obits|, Lefts(obits, half, shift), Rights(obits, half, shift);
    SidesAt(obits, half, shift, 0);
    LowBitAt(i, n);
    MaskedNone(LowBits(i, n), dl);
    MaskedNone(LowBits(i, n), dr);
    l, r := 0, 0;
    var j := 0;
    while j < |obits|
      invariant 0 <= j <= n
      invariant Masked(l, LowBits(i, n), dl, j) && Masked(r, LowBits(i, n), dr, j)
    {
      MaskTurn(l, i, dl, j);
      MaskTurn(r, i, dr, j);
      SidesAt(obits, half, shift, j);
      l, r := OrMaskInto(l, r, Bit(i, 32 - |obits| + j), obits[j], half, shift);
      j := j + 1;
    }
    MaskedAll(l, LowBits(i, n), dl);
    MaskedAll(r, LowBits(i, n), dr);
  }

  // A loop counter as a word.
  function WordOf(i: nat): bv32
    requires i < 4096
  {
    i as bv32
  }

  lemma OnlyIndex(v: bv32, i: nat)
    requires i < 4096 && v as int == i
    ensures v == WordOf(i)
  {
  }

  // A row of each of two tables: the loop over the values of a chunk.
  method MaskRows(chunk: seq<int>, half: nat, shift: nat) returns (l: seq<bv32>, r: seq<bv32>)
    requires |chunk| == 7 || |chunk| == 8
    requires half + shift <= 32
    ensures MaskRow(l, Lefts(chunk, half, shift), |chunk|)
    ensures MaskRow(r, Rights(chunk, half, shift), |chunk|)
  {
    hide OrBits, LowBits, Lefts, Rights, WordOf;
    ghost var dl, dr := Lefts(chunk, half, shift), Rights(chunk, half, shift);
    var width := |chunk|;
    var size := Size(width);
    var il, ir := new bv32[size], new bv32[size];
    var i := 0;
    while i < size
      invariant 0 <= i <= size
      invariant forall v: bv32 :: v as int < i ==> il[v as int] == OrBits(LowBits(v, width), dl)
      invariant forall v: bv32 :: v as int < i ==> ir[v as int] == OrBits(LowBits(v, width), dr)
    {
      il[i], ir[i] := MaskPair(WordOf(i), chunk, half, shift);
      forall v: bv32 | v as int < i + 1
        ensures il[v as int] == OrBits(LowBits(v, width), dl) && ir[v as int] == OrBits(LowBits(v, width), dr)
      {
        if v as int == i { OnlyIndex(v, i); }
      }
      i := i + 1;
    }
    l, r := il[..], ir[..];
  }

  /** The nested loops of des_init that fill a pair of OR-mask tables from a permutation. */
  method MaskTables(chunks: seq<seq<int>>, width: nat, half: nat, shift: nat) returns (l: Table, r: Table)
    requires width == 7 || width == 8
    requires forall k :: 0 <= k < |chunks| ==> |chunks[k]| == width
    requires half + shift <= 32
    ensures MaskTable(l, LeftChunks(chunks, half, shift), width)
    ensures MaskTable(r, RightChunks(chunks, half, shift), width)
  {
    hide MaskRow, Lefts, Rights;
    l, r := [], [];
    var k := 0;
    while k < |chunks|
      invariant 0 <= k <= |chunks| && |l| == |r| == k
      invariant forall j :: 0 <= j < k ==> MaskRow(l[j], Lefts(chunks[j], half, shift), width)
      invariant forall j :: 0 <= j < k ==> MaskRow(r[j], Rights(chunks[j], half, shift), width)
    {
      var x, y := MaskRows(chunks[k], half, shift);
      l, r := l + [x], r + [y];
      k := k + 1;
    }
  }
}
