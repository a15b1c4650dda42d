/** des_init: inverting the permutations and building every table. */
module DesInit {
  import opened DesStandard
  import opened DesTables
  import opened DesFunction
  import opened DesRound
  import opened DesPermute
  import opened DesSchedule

  // init_perm[final_perm[i] = IP[i] - 1] = i
  method InvertInitial() returns (initPerm: seq<int>, finalPerm: seq<int>)
    ensures initPerm == InitPerm() && finalPerm == FinalPerm()
  {
    hide IP, IP_INV;
    var ip, fp := new int[64], new int[64];
    var i := 0;
    while i < 64
      invariant 0 <= i <= 64
      invariant forall x :: 0 <= x < i ==> fp[x] == IP(x) - 1
      invariant forall x :: 0 <= x < 64 && IP_INV(x) <= i ==> ip[x] == IP_INV(x) - 1
    {
      fp[i] := IP(i) - 1;
      ip[fp[i]] := i;
      IpInverse(i);
      forall x | 0 <= x < 64 && IP_INV(x) <= i + 1 ensures ip[x] == IP_INV(x) - 1 {
        IpInverseBack(x);
      }
      i := i + 1;
    }
    initPerm, finalPerm := ip[..], fp[..];
  }

  // The inverse of a permuted choice, 255 at the positions it drops.
  method InvertKey() returns (perm: seq<int>)
    ensures perm == InvKeyPerm()
  {
    hide PC1, PC1_INV;
    var inv := new int[64];
    var i := 0;
    while i < 64
      invariant 0 <= i <= 64
      invariant forall x :: 0 <= x < i ==> inv[x] == 255
    {
      inv[i] := 255;
      i := i + 1;
    }
    i := 0;
    while i < 56
      invariant 0 <= i <= 56
      invariant forall x :: 0 <= x < 64 ==> inv[x] == if 0 < PC1_INV(x) <= i then PC1_INV(x) - 1 else 255
    {
      inv[PC1(i) - 1] := i;
      Pc1Inverse(i);
      forall x | 0 <= x < 64 ensures inv[x] == if 0 < PC1_INV(x) <= i + 1 then PC1_INV(x) - 1 else 255 {
        Pc1Unique(x);
      }
      i := i + 1;
    }
    perm := inv[..];
  }

  method InvertComp() returns (perm: seq<int>)
    ensures perm == InvCompPerm()
  {
    hide PC2, PC2_INV;
    var inv := new int[56];
    var i := 0;
    while i < 56
      invariant 0 <= i <= 56
      invariant forall x :: 0 <= x < i ==> inv[x] == 255
    {
      inv[i] := 255;
      i := i + 1;
    }
    i := 0;
    while i < 48
      invariant 0 <= i <= 48
      invariant forall x :: 0 <= x < 56 ==> inv[x] == if 0 < PC2_INV(x) <= i then PC2_INV(x) - 1 else 255
    {
      inv[PC2(i) - 1] := i;
      Pc2Inverse(i);
      forall x | 0 <= x < 56 ensures inv[x] == if 0 < PC2_INV(x) <= i + 1 then PC2_INV(x) - 1 else 255 {
        Pc2Unique(x);
      }
      i := i + 1;
    }
    perm := inv[..];
  }

  method InvertPBox() returns (perm: seq<int>)
    ensures perm == UnPBox()
  {
    hide P, P_INV;
    var un := new int[32];
    var i := 0;
    while i < 32
      invariant 0 <= i <= 32
      invariant forall x :: 0 <= x < 32 && P_INV(x) <= i ==> un[x] == P_INV(x) - 1
    {
      un[P(i) - 1] := i;
      PInverse(i);
      forall x | 0 <= x < 32 && P_INV(x) <= i + 1 ensures un[x] == P_INV(x) - 1 {
        PInverse(x);
      }
      i := i + 1;
    }
    perm := un[..];
  }

  // The stretches of a permutation that index the rows of a table.
  method Stretches(perm: seq<int>, n: nat, stride: nat, width: nat) returns (c: seq<seq<int>>)
    requires (stride == 7 || stride == 8) && width <= stride && |perm| == n * stride
    ensures c == Cut(perm, n, stride, width)
  {
    c := [];
    var k := 0;
    while k < n
      invariant 0 <= k <= n && |c| == k
      invariant forall m :: 0 <= m < k ==> c[m] == Cut(perm, n, stride, width)[m]
    {
      c := c + [perm[stride * k..stride * k + width]];
      k := k + 1;
    }
  }

  // m_sbox, psbox, and the left and right masks of IP, its inverse, and the two permuted choices
  datatype Tables = Tables(ms: Table, ps: Table, ipl: Table, ipr: Table, fpl: Table, fpr: Table,
                           kpl: Table, kpr: Table, cpl: Table, cpr: Table)

  ghost predicate Built(t: Tables) {
    && SBoxTables(t.ms) && PBoxTables(t.ps)
    && PermTables(t.ipl, t.ipr, InitPerm()) && PermTables(t.fpl, t.fpr, FinalPerm())
    && KeyTables(t.kpl, t.kpr) && CompTables(t.cpl, t.cpr)
  }

  method SBoxes() returns (ms: Table)
    ensures SBoxTables(ms)
  {
    hide PairRow;
    var a := PairTable(0);
    var b := PairTable(1);
    var c := PairTable(2);
    var d := PairTable(3);
    ms := [a, b, c, d];
  }

  /** The nested loops of des_init: every table is built from the published permutations and S-boxes. */
  method BuildTables() returns (t: Tables)
    ensures Built(t)
  {
    hide MaskTable, LeftChunks, RightChunks, SBoxTables, InitPerm, FinalPerm, InvKeyPerm, InvCompPerm, UnPBox, Cut;
    var ms := SBoxes();
    var initPerm, finalPerm := InvertInitial();
    var keyPerm := InvertKey();
    var compPerm := InvertComp();
    var c := Stretches(initPerm, 8, 8, 8);
    var ipl, ipr := MaskTables(c, 8, 32, 0);
    c := Stretches(finalPerm, 8, 8, 8);
    var fpl, fpr := MaskTables(c, 8, 32, 0);
    c := Stretches(keyPerm, 8, 8, 7);
    var kpl, kpr := MaskTables(c, 7, 28, 4);
    c := Stretches(compPerm, 8, 7, 7);
    var cpl, cpr := MaskTables(c, 7, 24, 8);
    var unPBox := InvertPBox();
    c := Stretches(unPBox, 4, 8, 8);
    var ps, none := MaskTables(c, 8, 32, 0);
    t := Tables(ms, ps, ipl, ipr, fpl, fpr, kpl, kpr, cpl, cpr);
  }
}
