/** The D-line table: a tree and an oracle word for each top byte, and the exceptions that
    have no D-line around them yet. */
module DlineTable {

  import opened Arithmetic
  import opened DlineBlocks
  import opened DlineTree

  ghost predicate Good(s: Shape) {
    Ordered(s) && Blocks(Nodes(s))
  }

  ghost predicate Covers(s: Shape, ip: nat) {
    exists n :: n in Nodes(s) && Holds(n, ip)
  }

  // ---- a new block in a tree

  // the tree once a node for the entry has gone in
  ghost function Added(s: Shape, ip: nat, host: nat, coins: Coins, n: IpSubtree): (a: Shape)
    ensures Nodes(a) == Nodes(Deleted(s, ip, host, coins)) + {n}
  {
    assert Nodes(At(n, Leaf, Leaf)) == {n};
    Inserted(Deleted(s, ip, host, coins), At(n, Leaf, Leaf))
  }

  // no block as wide as the entry's has the entry's address
  ghost predicate Widest(s: Shape, ip: nat, host: nat) {
    forall m :: m in Nodes(s) && Holds(m, ip) ==> m.host < host
  }

  ghost predicate For(n: IpSubtree, ip: nat, host: nat) {
    n.ip == Masked(ip, host) && n.host == host
  }

  lemma NewApart(m: IpSubtree, n: IpSubtree, ip: nat, host: nat)
    requires For(n, ip, host) && Proper(m.ip, m.host) && !Covered(m, ip, host)
    requires Holds(m, ip) ==> m.host < host
    ensures Apart(m.ip, m.host, n.ip, n.host)
  {
    hide Masked, Proper, Pow2;
    MaskedProper(ip, host);
    Compares(n.ip, host, ip);
    Compares(m.ip, m.host, ip);
    if m.host <= host {
      Nested(m.ip, m.host, n.ip, host);
    } else {
      Nested(n.ip, host, m.ip, m.host);
    }
  }

  /** Adding a block keeps the order of the tree and keeps its blocks apart. */
  lemma AddedGood(s: Shape, ip: nat, host: nat, coins: Coins, n: IpSubtree)
    requires Good(s) && Widest(s, ip, host) && For(n, ip, host)
    ensures Good(Added(s, ip, host, coins, n))
  {
    hide Ordered, Holds, Covered, For, Proper, Masked, Deleted, Pow2;
    DeletedOrdered(s, ip, host, coins);
    var d := Nodes(Deleted(s, ip, host, coins));
    forall m | m in d ensures Apart(m.ip, m.host, n.ip, n.host) && m.ip != n.ip {
      NewApart(m, n, ip, host);
    }
    ForProper(n, ip, host);
    InsertedOrdered(Deleted(s, ip, host, coins), n);
  }

  lemma ForProper(n: IpSubtree, ip: nat, host: nat)
    requires For(n, ip, host)
    ensures Proper(n.ip, n.host)
  {
    MaskedProper(ip, host);
  }

  lemma ForHolds(n: IpSubtree, ip: nat, host: nat, x: nat)
    requires For(n, ip, host)
    ensures Holds(n, x) <==> Has(Masked(ip, host), host, x)
  {
  }

  lemma CoveredInside(m: IpSubtree, ip: nat, host: nat, x: nat)
    requires Proper(m.ip, m.host) && Covered(m, ip, host) && Holds(m, x)
    ensures Has(Masked(ip, host), host, x)
  {
    hide Masked, Proper, Pow2;
    var a := Masked(ip, host);
    MaskedProper(ip, host);
    Nested(m.ip, m.host, a, host);
    Compares(m.ip, m.host, x);
    Compares(a, host, x);
  }

  lemma ApartShare(m: IpSubtree, n: IpSubtree)
    requires Proper(m.ip, m.host) && Proper(n.ip, n.host) && Apart(m.ip, m.host, n.ip, n.host)
    ensures Holds(m, m.ip) && !Holds(n, m.ip)
  {
    hide Masked, Proper;
    Compares(m.ip, m.host, m.ip);
    Compares(n.ip, n.host, m.ip);
  }

  /** Afterwards the tree has the new block, and nothing that it did not have before. It still
      has everything it had exactly when the deletion dropped no node. */
  lemma AddedCovers(s: Shape, ip: nat, host: nat, coins: Coins, n: IpSubtree)
    requires Good(s) && Widest(s, ip, host) && For(n, ip, host)
    ensures forall x: nat :: Covers(Added(s, ip, host, coins, n), x) ==> Covers(s, x) || Holds(n, x)
    ensures forall x: nat :: Holds(n, x) ==> Covers(Added(s, ip, host, coins, n), x)
    ensures DropsNone(s, ip, host, coins)
            <==> forall x: nat :: Covers(s, x) ==> Covers(Added(s, ip, host, coins, n), x)
  {
    hide Ordered, Holds, Covered, For, Proper, Masked, Deleted, Pow2, DropsNone;
    DeletedExact(s, ip, host, coins);
    DeletedOrdered(s, ip, host, coins);
    var d := Nodes(Deleted(s, ip, host, coins));
    var a := Added(s, ip, host, coins, n);
    if DropsNone(s, ip, host, coins) {
      forall x: nat | Covers(s, x) ensures Covers(a, x) {
        var m :| m in Nodes(s) && Holds(m, x);
        if Covered(m, ip, host) {
          CoveredInside(m, ip, host, x);
          ForHolds(n, ip, host, x);
        } else {
          assert m in Uncovered(s, ip, host);
        }
      }
    } else {
      var m :| m in Uncovered(s, ip, host) && m !in d;
      ForProper(n, ip, host);
      NewApart(m, n, ip, host);
      ApartShare(m, n);
      assert Covers(s, m.ip);
      forall k | k in Nodes(a) ensures !Holds(k, m.ip) {
        if k != n {
          ApartShare(m, k);
        }
      }
    }
  }

  // a pair of nodes on the left, the second under the first, and one on the right
  ghost function Four(a: IpSubtree, b: IpSubtree, c: IpSubtree, d: IpSubtree): Shape {
    At(c, At(a, Leaf, At(b, Leaf, Leaf)), At(d, Leaf, Leaf))
  }

  lemma FourDeleted(a: IpSubtree, b: IpSubtree, c: IpSubtree, d: IpSubtree, ip: nat, host: nat, coins: Coins)
    requires !Covered(a, ip, host) && !Covered(b, ip, host) && Covered(c, ip, host) && !Covered(d, ip, host)
    requires coins(c)
    ensures Nodes(Deleted(Four(a, b, c, d), ip, host, coins)) == {b, d}
  {
    hide Covered;
    var l := At(a, Leaf, At(b, Leaf, Leaf));
    assert Deleted(At(b, Leaf, Leaf), ip, host, coins) == At(b, Leaf, Leaf);
    assert Deleted(l, ip, host, coins) == l;
    assert Deleted(At(d, Leaf, Leaf), ip, host, coins) == At(d, Leaf, Leaf);
    assert Rightmost(l) == At(b, Leaf, Leaf);
  }

  lemma FourGood(a: IpSubtree, b: IpSubtree, c: IpSubtree, d: IpSubtree)
    requires a.ip < b.ip < c.ip < d.ip && a.host == b.host == c.host == d.host == 0
    ensures Good(Four(a, b, c, d)) && Nodes(Four(a, b, c, d)) == {a, b, c, d}
  {
    hide Proper, Before, Blocks;
    var lb, r := At(b, Leaf, Leaf), At(d, Leaf, Leaf);
    var l := At(a, Leaf, lb);
    assert Nodes(Leaf) == {};
    assert Nodes(lb) == {b} && Nodes(r) == {d};
    assert Nodes(l) == {a} + {b};
    OrderedLeaf(b);
    OrderedLeaf(d);
    BeforeOne(a, b);
    BeforeOne(a, c);
    BeforeOne(b, c);
    BeforeOne(c, d);
    BeforeParts({a}, {b}, {c});
    BeforeNone(a);
    assert Ordered(l);
    FourBlocks(a, b, c, d);
    assert Nodes(Four(a, b, c, d)) == {a, b, c, d};
  }

  lemma FourBlocks(a: IpSubtree, b: IpSubtree, c: IpSubtree, d: IpSubtree)
    requires a.ip < b.ip < c.ip < d.ip && a.host == b.host == c.host == d.host == 0
    ensures Blocks({a, b, c, d})
  {
    OneIsAll(a.ip);
    OneIsAll(b.ip);
    OneIsAll(c.ip);
    OneIsAll(d.ip);
  }

  lemma BeforeNone(n: IpSubtree)
    ensures Before({}, {n}) && Before({n}, {})
  {
  }

  lemma HalvesOf(ip: nat)
    ensures Masked(ip, 1) == ip - ip % 2 && Masked(ip, 0) == ip
  {
    Rest(ip, 2, ip / 2, ip % 2);
    Rest(ip, 1, ip, 0);
    assert Pow2(1) == 2;
  }

  /** Three single addresses 1, 2 and 9 around 4: entering the pair 4, 5 can drop 1 as well. */
  lemma CanDropANode(a: IpSubtree, b: IpSubtree, c: IpSubtree, d: IpSubtree, coins: Coins)
    requires a.ip == 1 && b.ip == 2 && c.ip == 4 && d.ip == 9 && coins(c)
    requires a.host == b.host == c.host == d.host == 0
    ensures var s := Four(a, b, c, d);
            Good(s) && Widest(s, 4, 1) && Covers(s, 1) && !Covered(a, 4, 1)
            && Nodes(Deleted(s, 4, 1, coins)) == {b, d}
  {
    hide Masked, Proper;
    HalvesOf(1);
    HalvesOf(2);
    HalvesOf(4);
    HalvesOf(9);
    FourDeleted(a, b, c, d, 4, 1, coins);
    FourGood(a, b, c, d);
    assert Holds(a, 1);
  }

  // ---- lists of entries

  // trim_Dlines
  function Exceptions(c: seq<Conf>): (r: seq<Conf>)
    ensures forall e :: e in r <==> e in c && e.exception
  {
    if c == [] then [] else (if c[0].exception then [c[0]] else []) + Exceptions(c[1..])
  }

  // the block has the entry's address, in the tree of that top byte
  predicate Under(e: Conf, h: nat, a: nat, host: nat) {
    Head(e.ip) == h && Has(a, host, e.ip)
  }

  function Placed(c: seq<Conf>, h: nat, a: nat, host: nat): (r: seq<Conf>)
    ensures forall e :: e in r <==> e in c && Under(e, h, a, host)
  {
    if c == [] then []
    else (if Under(c[0], h, a, host) then [c[0]] else []) + Placed(c[1..], h, a, host)
  }

  function Unplaced(c: seq<Conf>, h: nat, a: nat, host: nat): (r: seq<Conf>)
    ensures forall e :: e in r <==> e in c && !Under(e, h, a, host)
  {
    if c == [] then []
    else (if Under(c[0], h, a, host) then [] else [c[0]]) + Unplaced(c[1..], h, a, host)
  }

  lemma {:induction false} PlacedOrNot(c: seq<Conf>, h: nat, a: nat, host: nat)
    ensures multiset(Placed(c, h, a, host)) + multiset(Unplaced(c, h, a, host)) == multiset(c)
  {
    if c != [] {
      PlacedOrNot(c[1..], h, a, host);
      assert c == [c[0]] + c[1..];
    }
  }

  /** The waiting exceptions a block takes stay in their order. */
  lemma {:induction false} PlacedOver(c: seq<Conf>, d: seq<Conf>, h: nat, a: nat, host: nat)
    ensures Placed(c + d, h, a, host) == Placed(c, h, a, host) + Placed(d, h, a, host)
  {
    hide Under;
    if c == [] {
      assert c + d == d;
    } else {
      assert (c + d)[1..] == c[1..] + d;
      PlacedOver(c[1..], d, h, a, host);
    }
  }

  /** So do those that it leaves. */
  lemma {:induction false} UnplacedOver(c: seq<Conf>, d: seq<Conf>, h: nat, a: nat, host: nat)
    ensures Unplaced(c + d, h, a, host) == Unplaced(c, h, a, host) + Unplaced(d, h, a, host)
  {
    hide Under;
    if c == [] {
      assert c + d == d;
    } else {
      assert (c + d)[1..] == c[1..] + d;
      UnplacedOver(c[1..], d, h, a, host);
    }
  }

  lemma {:induction false} ExceptionsOver(c: seq<Conf>, d: seq<Conf>)
    ensures Exceptions(c + d) == Exceptions(c) + Exceptions(d)
  {
    if c == [] {
      assert c + d == d;
    } else {
      assert (c + d)[1..] == c[1..] + d;
      ExceptionsOver(c[1..], d);
    }
  }

  lemma {:induction false} AllExceptions(c: seq<Conf>)
    requires forall e :: e in c ==> e.exception
    ensures Exceptions(c) == c
  {
    if c != [] {
      AllExceptions(c[1..]);
    }
  }

  // every exception the tree holds
  ghost function Held(s: Shape): multiset<Conf>
    reads Nodes(s)`conf
  {
    match s
    case Leaf => multiset{}
    case At(n, l, r) => multiset(Exceptions(n.conf)) + Held(l) + Held(r)
  }

  lemma {:induction false} InsertedHeld(s: Shape, n: IpSubtree)
    ensures Held(Inserted(s, At(n, Leaf, Leaf))) == Held(s) + multiset(Exceptions(n.conf))
  {
    match s
    case Leaf =>
    case At(_, l, r) =>
      InsertedHeld(l, n);
      InsertedHeld(r, n);
  }

  lemma JoinedHeld(l: Shape, r: Shape, heads: bool)
    requires !Drops(l, r, heads)
    ensures Held(Joined(l, r, heads)) == Held(l) + Held(r)
  {
    if l.At? && r.At? {
      assert if heads then Rightmost(l) == l else Leftmost(r) == r;
    }
  }

  /** A deletion that drops no node hands on every exception of the nodes it removes. */
  lemma {:induction false} InheritedHeld(s: Shape, ip: nat, host: nat, coins: Coins, c: seq<Conf>)
    requires DropsNone(s, ip, host, coins)
    ensures Held(Deleted(s, ip, host, coins)) + multiset(Exceptions(Inherited(s, ip, host, c)))
            == Held(s) + multiset(Exceptions(c))
  {
    hide Covered, Joined, Drops, Exceptions;
    match s
    case Leaf =>
    case At(n, l, r) =>
      var cl := Inherited(l, ip, host, c);
      InheritedHeld(l, ip, host, coins, c);
      InheritedHeld(r, ip, host, coins, cl);
      var cr := Inherited(r, ip, host, cl);
      var l', r' := Deleted(l, ip, host, coins), Deleted(r, ip, host, coins);
      Balance(Held(l'), multiset(Exceptions(cl)), Held(l), multiset(Exceptions(c)),
              Held(r'), multiset(Exceptions(cr)), Held(r), multiset(Exceptions(n.conf)));
      if Covered(n, ip, host) {
        ExceptionsOver(n.conf, cr);
        JoinedHeld(l', r', coins(n));
      }
  }

  lemma Balance(a: multiset<Conf>, i: multiset<Conf>, h: multiset<Conf>, c: multiset<Conf>,
                b: multiset<Conf>, j: multiset<Conf>, k: multiset<Conf>, n: multiset<Conf>)
    requires a + i == h + c && b + j == k + i
    ensures (n + a + b) + j == (n + h + k) + c
    ensures (a + b) + (n + j) == (n + h + k) + c
  {
    forall x: Conf
      ensures ((n + a + b) + j)[x] == ((n + h + k) + c)[x]
      ensures ((a + b) + (n + j))[x] == ((n + h + k) + c)[x]
    {
      assert (a + i)[x] == (h + c)[x];
      assert (b + j)[x] == (k + i)[x];
    }
  }
}
