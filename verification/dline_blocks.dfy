/** Address blocks of the D-line table. A mask of ones then zeros is given by the number of
    its zeros, so that a wider mask, which is a smaller number, has a larger count. */
module DlineBlocks {

  import opened Arithmetic

  function Pow2(k: nat): (p: nat)
    ensures p > 0
  {
    if k == 0 then 1 else 2 * Pow2(k - 1)
  }

  // ip & mask
  function Masked(ip: nat, host: nat): (m: nat)
    ensures m <= ip < m + Pow2(host)
  {
    ip - Rem(ip, Pow2(host))
  }

  // (ip & mask) == a
  predicate Has(a: nat, host: nat, ip: nat) {
    Masked(ip, host) == a
  }

  // a block's base has no bit outside its mask
  predicate Proper(a: nat, host: nat) {
    Rem(a, Pow2(host)) == 0
  }

  lemma MaskedProper(ip: nat, host: nat)
    ensures Proper(Masked(ip, host), host)
  {
    hide Rem, Quot, Pow2;
    var p := Pow2(host);
    Division(ip, p);
    Rest(Masked(ip, host), p, Quot(ip, p), 0);
  }

  /** What an address masks to tells where it lies by a block's two ends. */
  lemma Compares(a: nat, host: nat, ip: nat)
    requires Proper(a, host)
    ensures Masked(ip, host) > a <==> ip >= a + Pow2(host)
    ensures Masked(ip, host) < a <==> ip < a
    ensures Has(a, host, ip) <==> a <= ip < a + Pow2(host)
  {
    hide Pow2, Rem;
    MaskedProper(ip, host);
    var m := Masked(ip, host);
    if m < a {
      Spaced(m, a, Pow2(host));
    } else if a < m {
      Spaced(a, m, Pow2(host));
    }
  }

  // ---- two blocks

  lemma {:induction false} Divides(j: nat, k: nat) returns (m: nat)
    requires j <= k
    ensures Pow2(k) == Pow2(j) * m && m > 0
    decreases k
  {
    if j == k {
      m := 1;
    } else {
      var n := Divides(j, k - 1);
      m := 2 * n;
    }
  }

  lemma StillProper(b: nat, j: nat, k: nat)
    requires j <= k && Proper(b, k)
    ensures Proper(b, j) && Proper(b + Pow2(k), j)
  {
    hide Pow2, Rem, Quot;
    var m := Divides(j, k);
    Division(b, Pow2(k));
    Multiple(b, Pow2(j), Pow2(k), m, Quot(b, Pow2(k)));
  }

  lemma Multiple(b: nat, p: nat, q: nat, m: nat, y: nat)
    requires p > 0 && q == p * m && b == q * y
    ensures Rem(b, p) == 0 && Rem(b + q, p) == 0
  {
    hide *;
    assert b == p * (m * y);
    assert b + q == p * (m * y) + p * m == p * (m * y + m);
    Rest(b, p, m * y, 0);
    Rest(b + q, p, m * y + m, 0);
  }

  predicate Apart(a: nat, j: nat, b: nat, k: nat) {
    a + Pow2(j) <= b || b + Pow2(k) <= a
  }

  /** Of two blocks the narrower lies in the other when its base does, and they are apart
      when it does not. */
  lemma Nested(a: nat, j: nat, b: nat, k: nat)
    requires Proper(a, j) && Proper(b, k) && j <= k
    ensures if Has(b, k, a) then b <= a && a + Pow2(j) <= b + Pow2(k) else Apart(a, j, b, k)
  {
    hide Pow2, Rem;
    StillProper(b, j, k);
    Compares(b, k, a);
    if a < b {
      Spaced(a, b, Pow2(j));
    } else if a < b + Pow2(k) {
      Spaced(a, b + Pow2(k), Pow2(j));
    }
  }

  // ---- the oracle

  // (oracle & ip) == ip
  predicate Passes(oracle: nat, ip: nat) {
    ip == 0 || (ip % 2 <= oracle % 2 && Passes(oracle / 2, ip / 2))
  }

  // Bit k of a number.
  predicate BitOf(x: nat, k: nat) {
    if k == 0 then x % 2 == 1 else BitOf(x / 2, k - 1)
  }

  lemma {:induction false} BitKept(oracle: nat, ip: nat, k: nat)
    requires Passes(oracle, ip) && BitOf(ip, k)
    ensures BitOf(oracle, k)
  {
    if k > 0 {
      PassesHalf(oracle, ip);
      BitKept(oracle / 2, ip / 2, k - 1);
    }
  }

  lemma {:induction false} BitMissed(oracle: nat, ip: nat) returns (k: nat)
    requires !Passes(oracle, ip)
    ensures BitOf(ip, k) && !BitOf(oracle, k)
    decreases ip
  {
    k := 0;
    if ip % 2 <= oracle % 2 {
      k := BitMissed(oracle / 2, ip / 2);
      k := k + 1;
    }
  }

  /** The oracle passes an address exactly when it has every bit that the address has. */
  lemma {:induction false} PassesBits(oracle: nat, ip: nat)
    ensures Passes(oracle, ip) <==> forall k: nat :: BitOf(ip, k) ==> BitOf(oracle, k)
  {
    if Passes(oracle, ip) {
      forall k: nat | BitOf(ip, k) ensures BitOf(oracle, k) { BitKept(oracle, ip, k); }
    } else {
      var k := BitMissed(oracle, ip);
    }
  }

  // x | y
  function Or(x: nat, y: nat): nat {
    if x == 0 then y
    else (if x % 2 == 1 || y % 2 == 1 then 1 else 0) + 2 * Or(x / 2, y / 2)
  }

  lemma {:induction false} OrBits(x: nat, y: nat, k: nat)
    ensures BitOf(Or(x, y), k) <==> BitOf(x, k) || BitOf(y, k)
    decreases k
  {
    if x == 0 {
      NoBits(k);
    } else if k > 0 {
      OrBits(x / 2, y / 2, k - 1);
    }
  }

  lemma {:induction false} NoBits(k: nat)
    ensures !BitOf(0, k)
  {
    if k > 0 { NoBits(k - 1); }
  }

  /** What either word passes, their OR passes. */
  lemma {:induction false} OrPasses(x: nat, y: nat, ip: nat)
    requires Passes(x, ip) || Passes(y, ip)
    ensures Passes(Or(x, y), ip)
    decreases x
  {
    if x == 0 {
      if Passes(x, ip) {
        ZeroPasses(ip);
      }
    } else if ip != 0 {
      OrPasses(x / 2, y / 2, ip / 2);
    }
  }

  lemma {:induction false} ZeroPasses(ip: nat)
    requires Passes(0, ip)
    ensures ip == 0
  {
    if ip != 0 {
      ZeroPasses(ip / 2);
    }
  }

  // what an entry adds to its oracle: (0xffffffff - mask) + ip
  function Bits(ip: nat, host: nat): (b: nat)
    ensures b == ip + Pow2(host) - 1
  {
    Pow2(host) - 1 + ip
  }

  lemma Halved(ip: nat, host: nat)
    requires host > 0
    ensures Rem(ip, Pow2(host)) == 2 * Rem(ip / 2, Pow2(host - 1)) + ip % 2
  {
    var p := Pow2(host - 1);
    hide Pow2, Rem, Quot;
    var q, r := Quot(ip / 2, p), Rem(ip / 2, p);
    Division(ip / 2, p);
    assert 2 * (p * q) == (2 * p) * q;
    Rest(ip, 2 * p, q, 2 * r + ip % 2);
  }

  /** The last address of a block has every bit that any address of the block has. */
  lemma {:induction false} LastPasses(a: nat, host: nat, ip: nat)
    requires Proper(a, host) && a <= ip < a + Pow2(host)
    ensures Passes(a + Pow2(host) - 1, ip)
    decreases host
  {
    hide Rem;
    if host == 0 {
      Itself(ip);
    } else {
      Halved(a, host);
      LastPasses(a / 2, host - 1, ip / 2);
      var last := a + Pow2(host) - 1;
      assert last / 2 == a / 2 + Pow2(host - 1) - 1 && last % 2 == 1;
    }
  }

  lemma {:induction false} Itself(ip: nat)
    ensures Passes(ip, ip)
  {
    if ip != 0 {
      Itself(ip / 2);
    }
  }

  lemma OneIsAll(ip: nat)
    ensures Proper(ip, 0)
  {
    Rest(ip, 1, ip, 0);
  }

  /** An entry with a bit outside its mask carries into it, and misses its last address. */
  lemma {:induction false} CarryMisses(ip: nat, host: nat)
    requires !Proper(ip, host)
    ensures !Passes(Bits(ip, host), Masked(ip, host) + Pow2(host) - 1)
    decreases host
  {
    hide Rem, Passes;
    if host == 0 {
      OneIsAll(ip);
    }
    Halved(ip, host);
    var bits, last := Bits(ip, host), Masked(ip, host) + Pow2(host) - 1;
    if Passes(bits, last) {
      PassesHalf(bits, last);
    }
    if ip % 2 == 0 {
      CarryMisses(ip / 2, host - 1);
      assert bits / 2 == Bits(ip / 2, host - 1);
      assert last / 2 == Masked(ip / 2, host - 1) + Pow2(host - 1) - 1;
    }
  }

  lemma PassesHalf(oracle: nat, ip: nat)
    requires Passes(oracle, ip)
    ensures ip % 2 <= oracle % 2 && Passes(oracle / 2, ip / 2)
  {
    if ip == 0 {
      assert Passes(oracle / 2, 0);
    }
  }

  /** What an entry adds passes every address of its block exactly when the entry's own
      address has no bit outside its mask. */
  lemma OracleExact(ip: nat, host: nat)
    ensures Proper(ip, host) <==>
            forall x: nat :: Has(Masked(ip, host), host, x) ==> Passes(Bits(ip, host), x)
  {
    hide Pow2, Passes, Rem;
    var a := Masked(ip, host);
    MaskedProper(ip, host);
    if Proper(ip, host) {
      forall x: nat | Has(a, host, x) ensures Passes(Bits(ip, host), x) {
        Compares(a, host, x);
        LastPasses(a, host, x);
      }
    } else {
      CarryMisses(ip, host);
      Compares(a, host, a + Pow2(host) - 1);
    }
  }

  /** A D-line entered with a client's own address and a 24-bit mask, as the oper command
      enters one for a nickname, can leave the oracle refusing that very client. */
  lemma EntryCanMissItself()
    ensures !Passes(Bits(0x0a00_0005, 8), 0x0a00_0005)
  {
    assert Pow2(4) == 16;
    assert Pow2(8) == 256;
  }

  // ---- the top byte, which picks the tree

  const WORD := 0x1_0000_0000

  function Head(ip: nat): (h: nat)
    ensures ip < WORD <==> h < 256
  {
    ip / 0x100_0000
  }

  lemma Pow24()
    ensures Pow2(24) == 0x100_0000 && Pow2(25) == 0x200_0000
  {
    assert Pow2(4) == 16;
    assert Pow2(8) == 256;
    assert Pow2(12) == 4096;
    assert Pow2(16) == 65536;
    assert Pow2(20) == 1048576;
  }

  /** A block keeps to one tree exactly when its prefix has at least eight bits. */
  lemma OneHead(a: nat, host: nat)
    requires Proper(a, host) && a + Pow2(host) <= WORD
    ensures host <= 24 <==> forall x: nat :: Has(a, host, x) && x < WORD ==> Head(x) == Head(a)
  {
    hide Pow2, Masked, Rem, Quot;
    Pow24();
    if host <= 24 {
      var b := Masked(a, 24);
      MaskedProper(a, 24);
      Nested(a, host, b, 24);
      Division(b, 0x100_0000);
      forall x: nat | Has(a, host, x) && x < WORD ensures Head(x) == Head(a) {
        Compares(a, host, x);
      }
    } else {
      var m := Divides(25, host);
      Less(0, m, Pow2(25));
      Compares(a, host, a + 0x100_0000);
    }
  }
}
