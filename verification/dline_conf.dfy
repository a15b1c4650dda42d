/** Adding D-lines and their exceptions to the table, and matching an address against it. */
module DlineConf {

  import opened Text
  import opened DlineBlocks
  import opened DlineTree
  import opened DlineTable

  // a node's list: its D-line, then exceptions whose addresses the block has
  ghost predicate Listed(n: IpSubtree)
    reads n`conf
  {
    && n.conf != [] && !n.conf[0].exception && n.conf[0].host == n.host && Masked(n.conf[0].ip, n.host) == n.ip
    && forall e :: e in n.conf[1..] ==> e.exception && Has(n.ip, n.host, e.ip)
  }

  // the oracle has the bits the node's D-line put in
  ghost predicate Allows(oracle: nat, n: IpSubtree)
    reads n`conf
  {
    n.conf != [] && forall x: nat :: Passes(Bits(n.conf[0].ip, n.host), x) ==> Passes(oracle, x)
  }

  // the node's D-line was entered without bits outside its mask
  ghost predicate Exact(n: IpSubtree)
    reads n`conf
  {
    n.conf != [] && Proper(n.conf[0].ip, n.host)
  }

  ghost predicate Waits(e: Conf, s: Shape) {
    e.exception && forall n :: n in Nodes(s) ==> !Holds(n, e.ip)
  }

  lemma NotBoth(m: IpSubtree, n: IpSubtree, ip: nat)
    requires Proper(m.ip, m.host) && Proper(n.ip, n.host) && Apart(m.ip, m.host, n.ip, n.host)
    ensures !(Holds(m, ip) && Holds(n, ip))
  {
    hide Masked, Proper;
    Compares(m.ip, m.host, ip);
    Compares(n.ip, n.host, ip);
  }

  lemma InFront(c: seq<Conf>, p: seq<Conf>, e: Conf)
    requires c != []
    ensures var d := c[..1] + p + c[1..];
            d[..1] + [e] + d[1..] == c[..1] + ([e] + p) + c[1..] && c[..1] + ([] + p) + c[1..] == d
  {
    var d := c[..1] + p + c[1..];
    assert d[..1] == c[..1];
    assert d[1..] == p + c[1..];
  }

  lemma OnFirst(c: Conf, mine: seq<Conf>, p: seq<Conf>, list: seq<Conf>)
    requires mine == [c] + list
    ensures mine[..1] + p + mine[1..] == [c] + p + list
  {
  }

  lemma AddedHeld(s: Shape, c: Conf, coins: Coins, n: IpSubtree, p: seq<Conf>, removed: seq<Conf>)
    requires n.conf == [c] + p + Exceptions(removed) && !c.exception && forall e :: e in p ==> e.exception
    ensures Held(Added(s, c.ip, c.host, coins, n))
            == Held(Deleted(s, c.ip, c.host, coins)) + multiset(p) + multiset(Exceptions(removed))
  {
    InsertedHeld(Deleted(s, c.ip, c.host, coins), n);
    ExceptionsOver([c] + p, Exceptions(removed));
    ExceptionsOver([c], p);
    AllExceptions(p);
    AllExceptions(Exceptions(removed));
  }

  ghost predicate Disjoint(s: seq<Shape>) {
    forall j, k :: 0 <= j < |s| && 0 <= k < |s| && j != k ==> Nodes(s[j]) !! Nodes(s[k])
  }

  lemma StillDisjoint(s: seq<Shape>, h: nat, t: Shape, n: IpSubtree)
    requires Disjoint(s) && h < |s| && Nodes(t) <= Nodes(s[h]) + {n}
    requires forall k :: 0 <= k < |s| ==> n !in Nodes(s[k])
    ensures Disjoint(s[h := t])
  {
  }

  lemma Total(kept: multiset<Conf>, gone: multiset<Conf>, held: multiset<Conf>, put: multiset<Conf>,
              waits: multiset<Conf>, left: multiset<Conf>)
    requires kept + gone == held && put + left == waits
    ensures (kept + put + gone) + left == held + waits
  {
  }

  lemma {:induction false} InheritedInside(s: Shape, ip: nat, host: nat, cl: seq<Conf>)
    requires forall m :: m in Nodes(s) ==> Listed(m) && Proper(m.ip, m.host)
    ensures forall e :: e in Inherited(s, ip, host, cl) && e.exception ==>
              e in cl || Has(Masked(ip, host), host, e.ip)
  {
    hide Listed, Has, Masked, Proper, Covered;
    match s
    case Leaf =>
    case At(n, l, r) =>
      InheritedInside(l, ip, host, cl);
      InheritedInside(r, ip, host, Inherited(l, ip, host, cl));
      if Covered(n, ip, host) {
        forall e | e in n.conf && e.exception ensures Has(Masked(ip, host), host, e.ip) {
          ListedHolds(n, e);
          CoveredInside(n, ip, host, e.ip);
        }
      }
  }

  lemma ListedHolds(n: IpSubtree, e: Conf)
    requires Listed(n) && e in n.conf && e.exception
    ensures Holds(n, e.ip)
  {
    assert n.conf == [n.conf[0]] + n.conf[1..];
  }

  lemma NewListed(n: IpSubtree, c: Conf, list: seq<Conf>)
    requires For(n, c.ip, c.host) && !c.exception && n.conf == [c] + Exceptions(list)
    requires forall e :: e in list && e.exception ==> Has(Masked(c.ip, c.host), c.host, e.ip)
    ensures Listed(n)
  {
    assert n.conf[1..] == Exceptions(list);
  }

  lemma GoodProper(s: Shape)
    requires Good(s)
    ensures forall m :: m in Nodes(s) ==> Proper(m.ip, m.host)
  {
    hide Ordered, Proper;
  }

  lemma ForHost(n: IpSubtree, ip: nat, host: nat)
    requires For(n, ip, host)
    ensures n.host == host
  {
  }

  lemma AllowsMore(oracle: nat, more: nat, n: IpSubtree)
    requires Allows(oracle, n) || (n.conf != [] && more == Bits(n.conf[0].ip, n.host))
    ensures Allows(Or(oracle, more), n)
  {
    hide Bits, Or, Passes;
    forall x: nat | Passes(Bits(n.conf[0].ip, n.host), x) ensures Passes(Or(oracle, more), x) {
      OrPasses(oracle, more, x);
    }
  }

  /** Clears the way for the entry's block in one tree and puts a node for it there. */
  method AddToTree(root: IpSubtree?, c: Conf, coins: Coins, ghost s: Shape, ghost ours: set<IpSubtree>)
      returns (r: IpSubtree, n: IpSubtree)
    requires Linked(root, s) && Good(s) && ours == Nodes(s) && Widest(s, c.ip, c.host)
    modifies ours`left, ours`right
    ensures fresh(n) && For(n, c.ip, c.host)
    ensures n.conf == [c] + Exceptions(old(Inherited(s, c.ip, c.host, [])))
    ensures Linked(r, Added(s, c.ip, c.host, coins, n)) && Good(Added(s, c.ip, c.host, coins, n))
  {
    hide Blocks, Covered, Masked, Inherited, Ordered, Inserted, Deleted;
    var t, clist := DeleteIpSubtree(root, c.ip, c.host, [], coins, s, ours);
    clist := [c] + Exceptions(clist);
    n := new IpSubtree(c.ip, c.host, clist, null, null);
    ghost var d := Deleted(s, c.ip, c.host, coins);
    DeletedOrdered(s, c.ip, c.host, coins);
    ghost var kept := ours * Nodes(d);
    assert kept == Nodes(d);
    assert Nodes(At(n, Leaf, Leaf)) == {n};
    r := InsertIpSubtree(t, n, d, kept, At(n, Leaf, Leaf), {n});
    AddedGood(s, c.ip, c.host, coins, n);
  }

  class Table {
    const dline: array<IpSubtree?>
    const oracle: array<nat>
    var leftover: seq<Conf>
    ghost var shapes: seq<Shape>
    ghost var own: set<IpSubtree>

    ghost predicate Trees()
      reads `shapes, `own, dline, own`left, own`right
    {
      && dline.Length == |shapes| == 256
      && (forall h :: 0 <= h < 256 ==>
            Nodes(shapes[h]) <= own && Linked(dline[h], shapes[h]) && Good(shapes[h]))
      && Disjoint(shapes)
    }

    ghost predicate Lists()
      reads `shapes, `own, oracle, own`conf
    {
      && oracle.Length == |shapes| == 256
      && (forall h, n :: 0 <= h < 256 && n in Nodes(shapes[h]) ==>
            n in own && Listed(n) && Allows(oracle[h], n))
    }

    ghost predicate Waiting()
      reads `leftover, `shapes
    {
      && |shapes| == 256
      && (forall e :: e in leftover ==> e.ip < WORD && Waits(e, shapes[Head(e.ip)]))
    }

    ghost predicate Valid()
      reads this, dline, oracle, own
    {
      Trees() && Lists() && Waiting()
    }

    constructor ()
      ensures Valid() && leftover == [] && shapes == seq(256, i => Leaf)
    {
      dline := new IpSubtree?[256](i => null);
      oracle := new nat[256](i => 0);
      leftover := [];
      shapes := seq(256, i => Leaf);
      own := {};
    }

    method FindException(ip: nat) returns (r: Option<Conf>)
      ensures r == None <==> forall e :: e in leftover ==> !Has(e.ip, e.host, ip)
      ensures r.Some? ==>
                exists i :: 0 <= i < |leftover| && r.value == leftover[i]
                            && Has(leftover[i].ip, leftover[i].host, ip)
                            && forall j :: 0 <= j < i ==> !Has(leftover[j].ip, leftover[j].host, ip)
    {
      hide Has;
      for i := 0 to |leftover|
        invariant forall j :: 0 <= j < i ==> !Has(leftover[j].ip, leftover[j].host, ip)
      {
        var scan := leftover[i];
        if Has(scan.ip, scan.host, ip) {
          return Some(scan);
        }
      }
      r := None;
    }

    /** An exception joins the node around its address, right after the D-line; without one it waits. */
    method AddException(conf: Conf) returns (ghost n: IpSubtree?)
      requires Valid() && conf.ip < WORD
      modifies this`leftover, own`conf
      ensures Valid()
      ensures var e := conf.(exception := true);
              && (n == null <==> Waits(e, shapes[Head(e.ip)]))
              && (n == null ==> leftover == [e] + old(leftover))
              && (n != null ==> n in Nodes(shapes[Head(e.ip)]) && Holds(n, e.ip) && leftover == old(leftover)
                                && n.conf == old(n.conf[..1]) + [e] + old(n.conf[1..]))
      ensures forall m :: m in own && m != n ==> m.conf == old(m.conf)
    {
      hide Good, Holds, Allows, Linked;
      var e := conf.(exception := true);
      var h := Head(e.ip);
      var node := FindIn(e.ip);
      n := node;
      if node == null {
        leftover := [e] + leftover;
        return;
      }
      AddTo(node, e);
    }

    method FindIn(ip: nat) returns (r: IpSubtree?)
      requires Trees() && ip < WORD
      ensures r == null <==> forall n :: n in Nodes(shapes[Head(ip)]) ==> !Holds(n, ip)
      ensures r != null ==> r in Nodes(shapes[Head(ip)]) && r in own && Holds(r, ip)
    {
      hide Holds;
      r := FindIpSubtree(dline[Head(ip)], ip, shapes[Head(ip)]);
    }

    method AddTo(n: IpSubtree, e: Conf)
      requires Lists() && n in own && Listed(n) && e.exception && Holds(n, e.ip)
      modifies n`conf
      ensures Lists() && Listed(n) && n.conf == old(n.conf[..1]) + [e] + old(n.conf[1..])
    {
      n.conf := n.conf[..1] + [e] + n.conf[1..];
    }

    /** Waiting exceptions that a new node has come to lie around move to its list, in order. */
    method RescanDlines(list: seq<Conf>, h: nat, n: IpSubtree) returns (rest: seq<Conf>)
      requires Trees() && Lists() && h < 256 && n in Nodes(shapes[h]) && n in own && Listed(n)
      requires forall e :: e in list ==> e.ip < WORD && e.exception && OnlyIn(e, n, h)
      modifies n`conf
      ensures Lists() && Listed(n)
      ensures n.conf == old(n.conf[..1]) + Placed(list, h, n.ip, n.host) + old(n.conf[1..])
      ensures rest == Unplaced(list, h, n.ip, n.host)
      decreases |list|
    {
      hide Trees, Lists, Listed, Holds, Has, Head;
      ListedSome(n);
      Sized();
      if list == [] {
        assert n.conf == n.conf[..1] + [] + n.conf[1..];
        return [];
      }
      var e := list[0];
      ghost var c, p := n.conf, Placed(list[1..], h, n.ip, n.host);
      rest := RescanDlines(list[1..], h, n);
      InFront(c, p, e);
      assert n.conf != [];
      var node := FindIn(e.ip);
      OneUnder(e, n, h);
      if node == null {
        rest := [e] + rest;
        return;
      }
      AddTo(node, e);
    }

    lemma Sized()
      requires Trees()
      ensures |shapes| == 256 && forall h :: 0 <= h < 256 ==> Nodes(shapes[h]) <= own
    {
    }

    static lemma ListedSome(n: IpSubtree)
      requires Listed(n)
      ensures n.conf != []
    {
    }

    // no node but this one, in its tree, has the entry's address
    ghost predicate OnlyIn(e: Conf, n: IpSubtree, h: nat)
      requires e.ip < WORD && |shapes| == 256
      reads `shapes
    {
      forall m :: m in Nodes(shapes[Head(e.ip)]) && Holds(m, e.ip) ==> m == n && Head(e.ip) == h
    }

    lemma OneUnder(e: Conf, n: IpSubtree, h: nat)
      ensures Under(e, h, n.ip, n.host) <==> Head(e.ip) == h && Holds(n, e.ip)
    {
    }

    /** Once the oracle lets the address through, the node around it answers: with the first
        exception in its list that is for the address, and with its D-line when there is none.
        The oracle turns no address away whose D-line was entered without host bits. */
    method MatchDline(ip: nat) returns (r: Option<Conf>)
      requires Valid() && ip < WORD
      ensures !Passes(oracle[Head(ip)], ip) ==> r == None
      ensures (forall n :: n in Nodes(shapes[Head(ip)]) ==> !Holds(n, ip)) ==> r == None
      ensures forall n :: n in Nodes(shapes[Head(ip)]) && Holds(n, ip) && Exact(n) ==>
                Passes(oracle[Head(ip)], ip)
      ensures forall n :: n in Nodes(shapes[Head(ip)]) && Holds(n, ip) && Passes(oracle[Head(ip)], ip) ==>
                && n.conf != []
                && ((forall e :: e in n.conf && e.exception ==> !Has(e.ip, e.host, ip)) ==> r == Some(n.conf[0]))
                && ((exists e :: e in n.conf && e.exception && Has(e.ip, e.host, ip)) ==>
                      exists i :: 0 <= i < |n.conf| && r == Some(n.conf[i])
                                  && n.conf[i].exception && Has(n.conf[i].ip, n.conf[i].host, ip)
                                  && forall j :: 0 <= j < i ==>
                                       !(n.conf[j].exception && Has(n.conf[j].ip, n.conf[j].host, ip)))
    {
      hide Good, Holds, Allows, Linked, Has, Passes, Head, Listed, Proper, Masked;
      var head := Head(ip);
      Passed(ip);
      if !Passes(oracle[head], ip) {
        return None;
      }
      var node := FindIn(ip);
      if node == null {
        return None;
      }
      OneHolds(node, ip);
      r := Scan(node, ip);
    }

    // within a tree, one node at most has an address
    lemma OneHolds(n: IpSubtree, ip: nat)
      requires Trees() && ip < WORD && n in Nodes(shapes[Head(ip)]) && Holds(n, ip)
      ensures forall m :: m in Nodes(shapes[Head(ip)]) && Holds(m, ip) ==> m == n
    {
      hide Linked, Ordered, Head, Has, Masked, Proper;
      forall m | m in Nodes(shapes[Head(ip)]) && Holds(m, ip) ensures m == n {
        if m != n {
          NotBoth(m, n, ip);
        }
      }
    }

    lemma Passed(ip: nat)
      requires Lists() && ip < WORD
      ensures forall n :: n in Nodes(shapes[Head(ip)]) && Holds(n, ip) && Exact(n) ==>
                Passes(oracle[Head(ip)], ip)
    {
      hide Head, Passes, Masked, Proper, Has, Bits;
      forall n | n in Nodes(shapes[Head(ip)]) && Holds(n, ip) && Exact(n)
        ensures Passes(oracle[Head(ip)], ip)
      {
        assert n in own && Listed(n) && Allows(oracle[Head(ip)], n);
        var c := n.conf[0];
        OracleExact(c.ip, n.host);
        assert Has(Masked(c.ip, n.host), n.host, ip);
        assert Passes(Bits(c.ip, n.host), ip);
      }
    }

    method Scan(n: IpSubtree, ip: nat) returns (r: Option<Conf>)
      requires Listed(n) && Holds(n, ip)
      ensures n.conf != []
      ensures (forall e :: e in n.conf && e.exception ==> !Has(e.ip, e.host, ip)) ==> r == Some(n.conf[0])
      ensures (exists e :: e in n.conf && e.exception && Has(e.ip, e.host, ip)) ==>
                exists i :: 0 <= i < |n.conf| && r == Some(n.conf[i])
                            && n.conf[i].exception && Has(n.conf[i].ip, n.conf[i].host, ip)
                            && forall j :: 0 <= j < i ==>
                                 !(n.conf[j].exception && Has(n.conf[j].ip, n.conf[j].host, ip))
    {
      hide Has, Masked;
      for i := 0 to |n.conf|
        invariant forall j :: 0 <= j < i ==>
                    !(n.conf[j].exception && Has(n.conf[j].ip, n.conf[j].host, ip))
      {
        var scan := n.conf[i];
        if scan.exception {
          if Has(scan.ip, scan.host, ip) {
            return Some(scan);
          }
        }
      }
      SameBlock(n, ip);
      if Masked(n.conf[0].ip, n.conf[0].host) == Masked(ip, n.conf[0].host) {
        r := Some(n.conf[0]);
      } else {
        r := None;
      }
    }

    static lemma SameBlock(n: IpSubtree, ip: nat)
      requires Listed(n) && Holds(n, ip)
      ensures Masked(n.conf[0].ip, n.conf[0].host) == Masked(ip, n.conf[0].host)
    {
    }

    // a block as wide around the address is in its tree, or a waiting exception is for it
    ghost predicate Refuses(c: Conf)
      requires |shapes| == 256 && c.ip < WORD
      reads `shapes, `leftover
    {
      || (exists m :: m in Nodes(shapes[Head(c.ip)]) && Holds(m, c.ip) && m.host >= c.host)
      || (exists e :: e in leftover && Has(e.ip, e.host, c.ip))
    }

    /** A D-line that is not refused gets a node whose list is its own entry, the waiting
        exceptions it now lies around, and the exceptions of the nodes it replaced. A mask of no
        bits stands for the single address. */
    method AddDline(conf: Conf, coins: Coins) returns (ghost n: IpSubtree?)
      requires Valid() && conf.ip < WORD && !conf.exception
      modifies `leftover, `shapes, `own, dline, oracle, own`left, own`right
      ensures Valid()
      ensures n == null <==> old(Refuses(conf.(host := if conf.host == 32 then 0 else conf.host)))
      ensures n == null ==> leftover == old(leftover) && shapes == old(shapes)
                            && dline[..] == old(dline[..]) && oracle[..] == old(oracle[..])
      ensures var host, h := if conf.host == 32 then 0 else conf.host, Head(conf.ip);
              n != null ==>
                && fresh(n) && n.ip == Masked(conf.ip, host) && n.host == host
                && shapes == old(shapes)[h := Added(old(shapes[h]), conf.ip, host, coins, n)]
                && oracle[..] == old(oracle[..])[h := Or(old(oracle[h]), Bits(conf.ip, host))]
                && n.conf == [conf.(host := host)] + Placed(old(leftover), h, n.ip, host)
                             + Exceptions(old(Inherited(shapes[h], conf.ip, host, [])))
                && leftover == Unplaced(old(leftover), h, n.ip, host)
                && (old(DropsNone(shapes[h], conf.ip, host, coins)) ==>
                      Held(shapes[h]) + multiset(leftover) == old(Held(shapes[h]) + multiset(leftover)))
    {
      hide Trees, Lists, Holds, Has, Head, Allows, Listed, Waits, Added, Inherited, Placed, Unplaced, Exceptions;
      hide DropsNone, Held, Deleted;
      var c := conf;
      if conf.host == 32 {
        c := conf.(host := 0);
      }
      var h := Head(c.ip);
      Sized();
      var node := FindIn(c.ip);
      if node != null {
        OneHolds(node, c.ip);
        if node.host >= c.host {
          return null;
        }
      }
      var x := FindException(c.ip);
      if x.Some? {
        return null;
      }
      n := Accept(c, coins);
    }

    method Accept(c: Conf, coins: Coins) returns (n: IpSubtree)
      requires Valid() && c.ip < WORD && !c.exception && Widest(shapes[Head(c.ip)], c.ip, c.host)
      modifies `leftover, `shapes, `own, dline, oracle, own`left, own`right
      ensures Valid() && fresh(n) && For(n, c.ip, c.host)
      ensures var h := Head(c.ip);
              && shapes == old(shapes)[h := Added(old(shapes[h]), c.ip, c.host, coins, n)]
              && oracle[..] == old(oracle[..])[h := Or(old(oracle[h]), Bits(c.ip, c.host))]
              && n.conf == [c] + Placed(old(leftover), h, n.ip, n.host)
                           + Exceptions(old(Inherited(shapes[h], c.ip, c.host, [])))
              && leftover == Unplaced(old(leftover), h, n.ip, n.host)
              && (old(DropsNone(shapes[h], c.ip, c.host, coins)) ==>
                    Held(shapes[h]) + multiset(leftover) == old(Held(shapes[h]) + multiset(leftover)))
    {
      hide Trees, Lists, Holds, Has, Head, Allows, Listed, Waits, Added, Inherited, Placed, Unplaced, Exceptions;
      hide DropsNone, Held, Deleted;
      var h := Head(c.ip);
      Sized();
      ghost var s, waits := shapes, leftover;
      ghost var removed := Inherited(s[h], c.ip, c.host, []);
      ghost var d := Deleted(s[h], c.ip, c.host, coins);
      ghost var kept, held := Held(d), Held(s[h]);
      if DropsNone(s[h], c.ip, c.host, coins) {
        InheritedHeld(s[h], c.ip, c.host, coins, []);
        AllExceptions([]);
      }
      n := Grow(c, coins);
      Sized();
      assert Held(d) == kept;
      ghost var list := Exceptions(removed);
      ghost var mine, p := n.conf, Placed(leftover, h, n.ip, n.host);
      assert mine == [c] + list;
      OnFirst(c, mine, p, list);
      forall e | e in leftover ensures e.ip < WORD && e.exception && OnlyIn(e, n, h) {
        WaitsOrUnder(e, s, h, n);
      }
      leftover := RescanDlines(leftover, h, n);
      assert n.conf == [c] + p + list;
      forall e | e in leftover ensures Waits(e, shapes[Head(e.ip)]) {
        StillWaits(e, s, h, n);
      }
      assert Held(d) == kept;
      AddedHeld(s[h], c, coins, n, p, removed);
      PlacedOrNot(waits, h, n.ip, n.host);
      if DropsNone(s[h], c.ip, c.host, coins) {
        Total(kept, multiset(list), held, multiset(p), multiset(waits), multiset(leftover));
      }
    }

    lemma WaitsOrUnder(e: Conf, s: seq<Shape>, h: nat, n: IpSubtree)
      requires |s| == |shapes| == 256 && h < 256 && e.ip < WORD && Waits(e, s[Head(e.ip)])
      requires Nodes(shapes[h]) <= Nodes(s[h]) + {n} && forall k :: 0 <= k < 256 && k != h ==> shapes[k] == s[k]
      ensures e.exception && OnlyIn(e, n, h)
    {
      hide Head, Holds;
    }

    lemma StillWaits(e: Conf, s: seq<Shape>, h: nat, n: IpSubtree)
      requires |s| == |shapes| == 256 && h < 256 && e.ip < WORD && Waits(e, s[Head(e.ip)])
      requires Nodes(shapes[h]) <= Nodes(s[h]) + {n} && forall k :: 0 <= k < 256 && k != h ==> shapes[k] == s[k]
      requires !Under(e, h, n.ip, n.host)
      ensures Waits(e, shapes[Head(e.ip)])
    {
      hide Head, Has;
    }

    // the oracle and the tree take the block
    method Grow(c: Conf, coins: Coins) returns (n: IpSubtree)
      requires Trees() && Lists() && c.ip < WORD && !c.exception && Widest(shapes[Head(c.ip)], c.ip, c.host)
      modifies `shapes, `own, dline, oracle, own`left, own`right
      ensures Trees() && Lists() && fresh(n) && For(n, c.ip, c.host) && n in own && Listed(n)
      ensures var h := Head(c.ip);
              && shapes == old(shapes)[h := Added(old(shapes[h]), c.ip, c.host, coins, n)]
              && Nodes(shapes[h]) <= Nodes(old(shapes[h])) + {n} && n in Nodes(shapes[h])
              && oracle[..] == old(oracle[..])[h := Or(old(oracle[h]), Bits(c.ip, c.host))]
              && n.conf == [c] + Exceptions(old(Inherited(shapes[h], c.ip, c.host, [])))
    {
      hide Head, Has, Holds, Good, Allows, Listed, Linked, Covered, Inherited, Widest, For;
      var h := Head(c.ip);
      ghost var s := shapes[h];
      ghost var ours := own * Nodes(s);
      assert ours == Nodes(s);
      GoodProper(s);
      InheritedInside(s, c.ip, c.host, []);
      ghost var list := Inherited(s, c.ip, c.host, []);
      var r;
      r, n := AddToTree(dline[h], c, coins, s, ours);
      NewListed(n, c, list);
      ForHost(n, c.ip, c.host);
      ghost var t := Added(s, c.ip, c.host, coins, n);
      assert Others(h);
      Install(h, r, Bits(c.ip, c.host), t, n);
    }

    ghost predicate Others(h: nat)
      reads `shapes, `own, dline, own`left, own`right
    {
      && dline.Length == |shapes| == 256
      && (forall k :: 0 <= k < 256 ==> Nodes(shapes[k]) <= own)
      && (forall k :: 0 <= k < 256 && k != h ==> Linked(dline[k], shapes[k]) && Good(shapes[k]))
      && Disjoint(shapes)
    }

    // a new tree takes its slot, and its entry's bits go into the oracle
    method Install(h: nat, r: IpSubtree, bits: nat, ghost t: Shape, ghost n: IpSubtree)
      requires Others(h) && Lists() && h < 256 && Linked(r, t) && Good(t)
      requires Nodes(t) <= Nodes(shapes[h]) + {n} && n !in own
      requires Listed(n) && bits == Bits(n.conf[0].ip, n.host)
      modifies `shapes, `own, dline, oracle
      ensures Trees() && Lists() && own == old(own) + {n}
      ensures shapes == old(shapes)[h := t] && oracle[..] == old(oracle[..])[h := Or(old(oracle[h]), bits)]
    {
      hide Good, Allows, Listed, Linked, Bits, Or, Disjoint;
      dline[h] := r;
      oracle[h] := Or(oracle[h], bits);
      shapes := shapes[h := t];
      own := own + {n};
      StillDisjoint(old(shapes), h, t, n);
      forall k | 0 <= k < 256
        ensures Nodes(shapes[k]) <= own && Linked(dline[k], shapes[k]) && Good(shapes[k])
      {
        if k != h {
          assert Linked(dline[k], shapes[k]);
        }
      }
      assert Trees();
      assert oracle[..] == old(oracle[..])[h := Or(old(oracle[h]), bits)];
      ListedSome(n);
      forall k, m | 0 <= k < 256 && m in Nodes(shapes[k]) ensures Listed(m) && Allows(oracle[k], m) {
        if k == h {
          AllowsMore(old(oracle[h]), bits, m);
        }
      }
    }
  }
}
