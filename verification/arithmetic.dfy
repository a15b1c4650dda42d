/** Division with remainder, by divisors that are not constants. */
module Arithmetic {

  function Rem(x: nat, p: nat): (r: nat)
    requires p > 0
    ensures r < p && r <= x
  {
    x % p
  }

  function Quot(x: nat, p: nat): nat
    requires p > 0
  {
    x / p
  }

  lemma Division(x: nat, p: nat)
    requires p > 0
    ensures x == p * Quot(x, p) + Rem(x, p)
  {
  }

  lemma Distribute(p: nat, a: nat, b: nat)
    ensures p * (a + b) == p * a + p * b
  {
  }

  lemma Less(x: nat, y: nat, p: nat)
    requires x < y
    ensures p * x + p <= p * y
  {
    var d := y - x;
    Distribute(p, x, d);
    Distribute(p, 1, d - 1);
    assert p * (d - 1) >= 0;
  }

  lemma Between(x: nat, q: nat, p: nat, r: nat, s: nat)
    requires p * x + r == p * q + s && r < p && s < p
    ensures r == s
  {
    if x < q {
      Less(x, q, p);
    } else if q < x {
      Less(q, x, p);
    }
  }

  lemma Rest(x: nat, p: nat, q: nat, r: nat)
    requires p > 0 && x == p * q + r && r < p
    ensures Rem(x, p) == r
  {
    hide *;
    Division(x, p);
    Between(Quot(x, p), q, p, Rem(x, p), r);
  }

  /** Of two multiples the smaller is smaller by a whole step. */
  lemma Spaced(a: nat, b: nat, p: nat)
    requires p > 0 && Rem(a, p) == 0 && Rem(b, p) == 0 && a < b
    ensures a + p <= b
  {
    hide *;
    Division(a, p);
    Division(b, p);
    var x, y := Quot(a, p), Quot(b, p);
    if x < y {
      Less(x, y, p);
    } else if y < x {
      Less(y, x, p);
    }
  }

  /** Counting on, a remainder goes round. */
  lemma NextRemainder(k: nat, n: nat)
    requires n > 0
    ensures (k % n + 1) % n == (k + 1) % n
  {
    NextRem(k, n);
  }

  lemma NextRem(k: nat, n: nat)
    requires n > 0
    ensures Rem(Rem(k, n) + 1, n) == Rem(k + 1, n)
  {
    hide *;
    var d, r := Quot(k, n), Rem(k, n);
    Division(k, n);
    if r + 1 < n {
      Rest(k + 1, n, d, r + 1);
      Rest(r + 1, n, 0, r + 1);
    } else {
      assert n * (d + 1) == n * d + n;
      Rest(k + 1, n, d + 1, 0);
      Rest(n, n, 1, 0);
    }
  }
}
