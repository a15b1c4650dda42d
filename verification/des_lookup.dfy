/** Looking words up chunk by chunk: which bit of the result comes from which bit of the input. */
module DesLookup {
  import opened DesBits
  import opened DesMasks
  import opened DesTables

  // The chunk values index the table's rows.
  ghost predicate Indexes(t: Table, v: seq<bv32>) {
    |v| == |t| && forall k :: 0 <= k < |t| ==> v[k] as int < |t[k]|
  }

  // t[0][v[0]] | t[1][v[1]] | ... | t[n - 1][v[n - 1]]
  ghost function LookUp(t: Table, v: seq<bv32>, n: nat): bv32
    requires Indexes(t, v) && n <= |t|
  {
    if n == 0 then 0 else Or(LookUp(t, v, n - 1), t[n - 1][v[n - 1] as int])
  }

  // a | b | c | d
  function Or4(a: bv32, b: bv32, c: bv32, d: bv32): bv32 {
    Or(Or(Or(a, b), c), d)
  }

  // a | b | ... | h
  function Or8(a: bv32, b: bv32, c: bv32, d: bv32, e: bv32, f: bv32, g: bv32, h: bv32): bv32 {
    Or(Or(Or(Or(Or4(a, b, c, d), e), f), g), h)
  }

  lemma ZeroOr(a: bv32)
    ensures Or(0, a) == a
  {
  }

  lemma LookUpFour(t: Table, v: seq<bv32>)
    requires Indexes(t, v) && |t| >= 4
    ensures LookUp(t, v, 4) == Or4(t[0][v[0] as int], t[1][v[1] as int], t[2][v[2] as int], t[3][v[3] as int])
  {
    ZeroOr(t[0][v[0] as int]);
    hide Or;
    assert LookUp(t, v, 1) == t[0][v[0] as int];
    assert LookUp(t, v, 2) == Or(LookUp(t, v, 1), t[1][v[1] as int]);
    assert LookUp(t, v, 3) == Or(LookUp(t, v, 2), t[2][v[2] as int]);
  }

  lemma LookUpEight(t: Table, v: seq<bv32>)
    requires Indexes(t, v) && |t| == 8
    ensures LookUp(t, v, 8) == Or8(t[0][v[0] as int], t[1][v[1] as int], t[2][v[2] as int], t[3][v[3] as int],
                                   t[4][v[4] as int], t[5][v[5] as int], t[6][v[6] as int], t[7][v[7] as int])
  {
    hide Or, Or4;
    LookUpFour(t, v);
    assert LookUp(t, v, 5) == Or(LookUp(t, v, 4), t[4][v[4] as int]);
    assert LookUp(t, v, 6) == Or(LookUp(t, v, 5), t[5][v[5] as int]);
    assert LookUp(t, v, 7) == Or(LookUp(t, v, 6), t[6][v[6] as int]);
  }

  // ---- where a bit of the result comes from

  lemma {:induction false} LookUpBit(t: Table, v: seq<bv32>, n: nat, o: nat)
    requires Indexes(t, v) && n <= |t| && o < 32
    ensures Bit(LookUp(t, v, n), o) <==> exists k :: 0 <= k < n && Bit(t[k][v[k] as int], o)
  {
    hide Bit, Or;
    if n == 0 {
      ZeroBit(o);
    } else {
      LookUpBit(t, v, n - 1, o);
      OrBitOf(LookUp(t, v, n - 1), t[n - 1][v[n - 1] as int], o);
    }
  }

  /** A position named once, by bit j of chunk k, receives that bit. */
  lemma LookUpGathers(t: Table, dest: seq<seq<int>>, width: nat, v: seq<bv32>, o: nat, k: nat, j: nat)
    requires MaskTable(t, dest, width) && Indexes(t, v)
    requires o < 32 && k < |t| && j < width
    requires forall k', j' :: 0 <= k' < |t| && 0 <= j' < width ==> (dest[k'][j'] == o <==> k' == k && j' == j)
    ensures Bit(LookUp(t, v, |t|), o) <==> LowBits(v[k], width)[j]
  {
    hide Bit, OrBits, LowBits;
    LookUpBit(t, v, |t|, o);
    forall k' | 0 <= k' < |t|
      ensures Bit(t[k'][v[k'] as int], o) <==> k' == k && LowBits(v[k], width)[j]
    {
      var bits, d := LowBits(v[k'], width), dest[k'];
      OrBitsBit(bits, d, o);
      assert t[k'][v[k'] as int] == OrBits(bits, d);
      if k' == k && bits[j] { assert d[j] == o; }
    }
  }

  lemma LookUpLeavesClear(t: Table, dest: seq<seq<int>>, width: nat, v: seq<bv32>, o: nat)
    requires MaskTable(t, dest, width) && Indexes(t, v) && o < 32
    requires forall k, j :: 0 <= k < |t| && 0 <= j < width ==> dest[k][j] != o
    ensures !Bit(LookUp(t, v, |t|), o)
  {
    hide Bit, OrBits, LowBits;
    LookUpBit(t, v, |t|, o);
    forall k | 0 <= k < |t| ensures !Bit(t[k][v[k] as int], o) {
      var bits, d := LowBits(v[k], width), dest[k];
      assert t[k][v[k] as int] == OrBits(bits, d);
      OrBitsBit(bits, d, o);
    }
  }
}
