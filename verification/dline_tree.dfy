/** One D-line search tree: insertion, search, and the deletion that clears the way for a
    wider block and can lose nodes it should have kept. */
module DlineTree {

  import opened DlineBlocks

  datatype Conf = Conf(ip: nat, host: nat, exception: bool)

  class IpSubtree {
    const ip: nat
    const host: nat
    var conf: seq<Conf>
    var left: IpSubtree?
    var right: IpSubtree?

    constructor (ip: nat, host: nat, clist: seq<Conf>, left: IpSubtree?, right: IpSubtree?)
      ensures this.ip == Masked(ip, host) && this.host == host && conf == clist
      ensures this.left == left && this.right == right
    {
      this.ip := Masked(ip, host);
      this.host := host;
      this.conf := clist;
      this.left := left;
      this.right := right;
    }
  }

  // the nodes as they hang from a pointer
  datatype Shape = Leaf | At(node: IpSubtree, left: Shape, right: Shape)

  ghost function Nodes(s: Shape): set<IpSubtree> {
    match s
    case Leaf => {}
    case At(n, l, r) => {n} + Nodes(l) + Nodes(r)
  }

  ghost predicate Linked(n: IpSubtree?, s: Shape)
    reads Nodes(s)`left, Nodes(s)`right
  {
    match s
    case Leaf => n == null
    case At(m, l, r) => n == m && Linked(m.left, l) && Linked(m.right, r)
  }

  ghost predicate Before(a: set<IpSubtree>, b: set<IpSubtree>) {
    forall m, n :: m in a && n in b ==> m.ip < n.ip
  }

  ghost predicate Ordered(s: Shape) {
    match s
    case Leaf => true
    case At(n, l, r) =>
      Before(Nodes(l), {n}) && Before({n}, Nodes(r)) && Ordered(l) && Ordered(r)
  }

  lemma BeforeParts(a: set<IpSubtree>, b: set<IpSubtree>, c: set<IpSubtree>)
    ensures Before(a + b, c) <==> Before(a, c) && Before(b, c)
    ensures Before(c, a + b) <==> Before(c, a) && Before(c, b)
  {
  }

  lemma BeforeFewer(a: set<IpSubtree>, b: set<IpSubtree>, c: set<IpSubtree>, d: set<IpSubtree>)
    requires Before(a, b) && c <= a && d <= b
    ensures Before(c, d)
  {
  }

  lemma BeforeOver(a: set<IpSubtree>, n: IpSubtree, b: set<IpSubtree>)
    requires Before(a, {n}) && Before({n}, b)
    ensures Before(a, b) && n !in a && n !in b && a !! b
  {
  }

  lemma BeforeOne(m: IpSubtree, n: IpSubtree)
    ensures Before({m}, {n}) <==> m.ip < n.ip
  {
  }

  ghost predicate Holds(n: IpSubtree, ip: nat) {
    Has(n.ip, n.host, ip)
  }

  // bases are masked, and no two blocks meet
  ghost predicate Blocks(ns: set<IpSubtree>) {
    && (forall n :: n in ns ==> Proper(n.ip, n.host))
    && (forall m, n :: m in ns && n in ns && m != n ==> Apart(m.ip, m.host, n.ip, n.host))
  }

  // ---- search

  /** The search finds what a scan of the whole tree would. */
  method FindIpSubtree(head: IpSubtree?, ip: nat, ghost s: Shape) returns (r: IpSubtree?)
    requires Linked(head, s) && Ordered(s) && Blocks(Nodes(s))
    ensures r == null <==> forall n :: n in Nodes(s) ==> !Holds(n, ip)
    ensures r != null ==> r in Nodes(s) && Holds(r, ip)
  {
    hide Blocks, Holds, Has, Masked;
    var cur := head;
    ghost var c := s;
    while cur != null
      invariant Linked(cur, c) && Ordered(c) && Nodes(c) <= Nodes(s)
      invariant forall n :: n in Nodes(s) && Holds(n, ip) ==> n in Nodes(c)
      decreases c
    {
      var m := Masked(ip, cur.host);
      if cur.ip == m {
        Found(cur, ip);
        return cur;
      }
      Steered(c, Nodes(s), ip);
      if cur.ip > m {
        cur, c := cur.left, c.left;
      } else {
        cur, c := cur.right, c.right;
      }
    }
    r := null;
  }

  lemma Found(n: IpSubtree, ip: nat)
    ensures Holds(n, ip) <==> Masked(ip, n.host) == n.ip
  {
  }

  lemma Steered(c: Shape, all: set<IpSubtree>, ip: nat)
    requires c.At? && Ordered(c) && Nodes(c) <= all && Blocks(all)
    requires Masked(ip, c.node.host) != c.node.ip
    ensures !Holds(c.node, ip)
    ensures forall n :: n in Nodes(c) && Holds(n, ip) ==>
              n in Nodes(if c.node.ip > Masked(ip, c.node.host) then c.left else c.right)
  {
    hide Masked, Pow2, Proper;
    Found(c.node, ip);
    Compares(c.node.ip, c.node.host, ip);
    forall n | n in Nodes(c) && Holds(n, ip)
      ensures n in Nodes(if c.node.ip > Masked(ip, c.node.host) then c.left else c.right)
    {
      Compares(n.ip, n.host, ip);
    }
  }

  // ---- insertion

  // where insert_ip_subtree hangs a tree
  ghost function Inserted(s: Shape, t: Shape): (i: Shape)
    requires t.At?
    ensures i.At? && Nodes(i) == Nodes(s) + Nodes(t)
  {
    match s
    case Leaf => t
    case At(n, l, r) =>
      if n.ip > t.node.ip then At(n, Inserted(l, t), r) else At(n, l, Inserted(r, t))
  }

  lemma {:induction false} InsertedOrdered(s: Shape, n: IpSubtree)
    requires Ordered(s) && forall m :: m in Nodes(s) ==> m.ip != n.ip
    ensures Ordered(Inserted(s, At(n, Leaf, Leaf)))
  {
    hide Before;
    var t := At(n, Leaf, Leaf);
    assert Nodes(t) == {n};
    match s
    case Leaf => {
      OrderedLeaf(n);
    }
    case At(m, l, r) => {
      BeforeOne(m, n);
      BeforeOne(n, m);
      BeforeParts(Nodes(l), {n}, {m});
      BeforeParts(Nodes(r), {n}, {m});
      InsertedOrdered(l, n);
      InsertedOrdered(r, n);
    }
  }

  lemma OrderedLeaf(n: IpSubtree)
    ensures Ordered(At(n, Leaf, Leaf))
  {
  }

  method InsertIpSubtree(head: IpSubtree?, node: IpSubtree, ghost s: Shape, ghost own: set<IpSubtree>,
                         ghost t: Shape, ghost added: set<IpSubtree>)
      returns (r: IpSubtree)
    requires Linked(head, s) && Ordered(s) && own == Nodes(s)
    requires Linked(node, t) && added == Nodes(t) && own !! added
    modifies own`left, own`right
    ensures t.At? && Linked(r, Inserted(s, t))
    decreases s
  {
    hide Ordered;
    if head == null {
      return node;
    }
    Separate(s);
    ghost var a, b := own * Nodes(s.left), own * Nodes(s.right);
    assert a == Nodes(s.left) && b == Nodes(s.right);
    if head.ip > node.ip {
      var x := InsertIpSubtree(head.left, node, s.left, a, t, added);
      assert Linked(head.right, s.right);
      head.left := x;
      assert head.right != null ==> head.right in own;
      assert Linked(head.right, s.right);
    } else {
      var x := InsertIpSubtree(head.right, node, s.right, b, t, added);
      assert Linked(head.left, s.left);
      head.right := x;
    }
    r := head;
  }

  lemma Separate(s: Shape)
    requires Ordered(s)
    ensures s.At? ==> s.node !in Nodes(s.left) && s.node !in Nodes(s.right) && Nodes(s.left) !! Nodes(s.right)
    ensures s.At? ==> Ordered(s.left) && Ordered(s.right) && Before(Nodes(s.left), Nodes(s.right))
  {
    hide Before;
    if s.At? {
      BeforeOver(Nodes(s.left), s.node, Nodes(s.right));
    }
  }

  // ---- deletion

  // the node's block lies in the new one
  predicate Covered(n: IpSubtree, ip: nat, host: nat) {
    Masked(n.ip, host) == Masked(ip, host) && n.host <= host
  }

  ghost function Rightmost(s: Shape): (t: Shape)
    requires s.At?
    ensures t.At? && t.right.Leaf? && Nodes(t) <= Nodes(s)
  {
    if s.right.Leaf? then s else Rightmost(s.right)
  }

  ghost function Leftmost(s: Shape): (t: Shape)
    requires s.At?
    ensures t.At? && t.left.Leaf? && Nodes(t) <= Nodes(s)
  {
    if s.left.Leaf? then s else Leftmost(s.left)
  }

  // what takes the place of a removed node, by the toss of a coin when it had two children
  ghost function Joined(l: Shape, r: Shape, heads: bool): (j: Shape)
    ensures Nodes(j) <= Nodes(l) + Nodes(r)
  {
    if l.Leaf? then r
    else if r.Leaf? then l
    else if heads then var t := Rightmost(l); At(t.node, t.left, r)
    else var t := Leftmost(r); At(t.node, l, t.right)
  }

  // the toss of each node, should it be removed
  type Coins = IpSubtree -> bool

  ghost function Deleted(s: Shape, ip: nat, host: nat, coins: Coins): (d: Shape)
    ensures Nodes(d) <= Nodes(s)
  {
    match s
    case Leaf => Leaf
    case At(n, l, r) =>
      var l', r' := Deleted(l, ip, host, coins), Deleted(r, ip, host, coins);
      if Covered(n, ip, host) then Joined(l', r', coins(n)) else At(n, l', r')
  }

  // the entries of the removed nodes, each list before those collected so far
  ghost function Inherited(s: Shape, ip: nat, host: nat, clist: seq<Conf>): seq<Conf>
    reads Nodes(s)`conf
  {
    match s
    case Leaf => clist
    case At(n, l, r) =>
      var c := Inherited(r, ip, host, Inherited(l, ip, host, clist));
      if Covered(n, ip, host) then n.conf + c else c
  }

  method DeleteIpSubtree(head: IpSubtree?, ip: nat, host: nat, clist: seq<Conf>, coins: Coins,
                         ghost s: Shape, ghost own: set<IpSubtree>)
      returns (r: IpSubtree?, more: seq<Conf>)
    requires Linked(head, s) && Ordered(s) && own == Nodes(s)
    modifies own`left, own`right
    ensures Linked(r, Deleted(s, ip, host, coins))
    ensures more == old(Inherited(s, ip, host, clist))
    decreases s
  {
    hide Masked, Has, Ordered, Before, Joined, Deleted, Inherited, Linked;
    Hangs(head, s);
    DeletedStep(s, ip, host, coins);
    InheritedStep(s, ip, host, clist);
    if head == null {
      return null, clist;
    }
    Separate(s);
    ghost var a, b := own * Nodes(s.left), own * Nodes(s.right);
    assert a == Nodes(s.left) && b == Nodes(s.right);
    ghost var c := Inherited(s.left, ip, host, clist);
    ghost var d := Inherited(s.right, ip, host, c);
    var left, right;
    left, more := DeleteIpSubtree(head.left, ip, host, clist, coins, s.left, a);
    head.left := left;
    assert Linked(head.right, s.right) && Inherited(s.right, ip, host, c) == d;
    right, more := DeleteIpSubtree(head.right, ip, host, more, coins, s.right, b);
    head.right := right;
    ghost var l, t := Deleted(s.left, ip, host, coins), Deleted(s.right, ip, host, coins);
    DeletedOrdered(s.left, ip, host, coins);
    DeletedOrdered(s.right, ip, host, coins);
    assert Linked(head.left, l) && Linked(head.right, t);
    LinkedAt(head, l, t);
    r := head;
    if Masked(head.ip, host) == Masked(ip, host) {
      if head.host > host {
        return;
      }
      more := head.conf + more;
      r := Replacement(head, coins(head), l, t, a, b);
    }
  }

  lemma Hangs(n: IpSubtree?, s: Shape)
    requires Linked(n, s)
    ensures n == null <==> s.Leaf?
    ensures s.At? ==> n == s.node && Linked(n.left, s.left) && Linked(n.right, s.right)
  {
  }

  lemma LinkedAt(n: IpSubtree, l: Shape, r: Shape)
    requires Linked(n.left, l) && Linked(n.right, r)
    ensures Linked(n, At(n, l, r))
  {
  }

  lemma DeletedStep(s: Shape, ip: nat, host: nat, coins: Coins)
    ensures s.Leaf? ==> Deleted(s, ip, host, coins) == Leaf
    ensures s.At? ==>
              var l, r := Deleted(s.left, ip, host, coins), Deleted(s.right, ip, host, coins);
              Deleted(s, ip, host, coins)
              == if Covered(s.node, ip, host) then Joined(l, r, coins(s.node)) else At(s.node, l, r)
  {
  }

  lemma InheritedStep(s: Shape, ip: nat, host: nat, clist: seq<Conf>)
    ensures s.Leaf? ==> Inherited(s, ip, host, clist) == clist
    ensures s.At? ==>
              var c := Inherited(s.right, ip, host, Inherited(s.left, ip, host, clist));
              Inherited(s, ip, host, clist) == if Covered(s.node, ip, host) then s.node.conf + c else c
  {
  }

  method Replacement(head: IpSubtree, heads: bool, ghost l: Shape, ghost t: Shape,
                     ghost a: set<IpSubtree>, ghost b: set<IpSubtree>)
      returns (r: IpSubtree?)
    requires Nodes(l) <= a && Nodes(t) <= b && a !! b && head !in a && head !in b
    requires Ordered(l) && Ordered(t) && Linked(head.left, l) && Linked(head.right, t)
    modifies head`left, a`left, b`left, head`right, a`right, b`right
    ensures Linked(r, Joined(l, t, heads))
  {
    hide Ordered;
    if head.left == null {
      return head.right;
    }
    if head.right == null {
      return head.left;
    }
    if heads {
      r := Predecessor(head, l, t, a, b);
    } else {
      r := Successor(head, l, t, a, b);
    }
  }

  method Predecessor(head: IpSubtree, ghost l: Shape, ghost t: Shape,
                     ghost a: set<IpSubtree>, ghost b: set<IpSubtree>)
      returns (temp: IpSubtree)
    requires Nodes(l) <= a && Nodes(t) <= b && a !! b && head !in a && head !in b
    requires l.At? && t.At? && Ordered(l)
    requires Linked(head.left, l) && Linked(head.right, t)
    modifies head`right, a`right
    ensures Linked(temp, Joined(l, t, true))
  {
    hide Ordered, Before, Linked;
    Hangs(head.left, l);
    temp := head.left;
    var prev := head;
    ghost var c := l;
    while temp.right != null
      invariant c.At? && Linked(temp, c) && Nodes(c) <= Nodes(l) && Rightmost(c) == Rightmost(l) && Ordered(c)
      invariant (prev == head || prev in a) && prev !in Nodes(c) && Linked(head.right, t)
      decreases c
    {
      Separate(c);
      Hangs(temp, c);
      prev := temp;
      temp := temp.right;
      c := c.right;
      Hangs(temp, c);
    }
    Separate(c);
    Hangs(temp, c);
    Hangs(temp.right, c.right);
    LastTakesOver(head, temp, prev, c, t, a, b);
  }

  // The predecessor, cut from its place, takes the removed node's right subtree.
  method LastTakesOver(head: IpSubtree, temp: IpSubtree, prev: IpSubtree, ghost c: Shape, ghost t: Shape,
                       ghost a: set<IpSubtree>, ghost b: set<IpSubtree>)
    requires c.At? && temp == c.node && Nodes(c) <= a && temp !in Nodes(c.left) && Linked(temp.left, c.left)
    requires (prev == head || prev in a) && prev !in Nodes(c) && temp in a
    requires Nodes(t) <= b && a !! b && head !in a && head !in b && Linked(head.right, t)
    modifies head`right, a`right
    ensures Linked(temp, At(c.node, c.left, t))
  {
    hide Linked;
    ghost var left, right := temp.left, head.right;
    temp.right := head.right;
    assert Linked(left, c.left) && Linked(right, t);
    prev.right := null;
    assert Linked(left, c.left) && Linked(right, t);
    LinkedAt(temp, c.left, t);
  }

  method Successor(head: IpSubtree, ghost l: Shape, ghost t: Shape,
                     ghost a: set<IpSubtree>, ghost b: set<IpSubtree>)
      returns (temp: IpSubtree)
    requires Nodes(l) <= a && Nodes(t) <= b && a !! b && head !in a && head !in b
    requires l.At? && t.At? && Ordered(t)
    requires Linked(head.left, l) && Linked(head.right, t)
    modifies head`left, b`left
    ensures Linked(temp, Joined(l, t, false))
  {
    hide Ordered, Before, Linked;
    Hangs(head.right, t);
    temp := head.right;
    var prev := head;
    ghost var c := t;
    while temp.left != null
      invariant c.At? && Linked(temp, c) && Nodes(c) <= Nodes(t) && Leftmost(c) == Leftmost(t) && Ordered(c)
      invariant (prev == head || prev in b) && prev !in Nodes(c) && Linked(head.left, l)
      decreases c
    {
      Separate(c);
      Hangs(temp, c);
      prev := temp;
      temp := temp.left;
      c := c.left;
      Hangs(temp, c);
    }
    Separate(c);
    Hangs(temp, c);
    Hangs(temp.left, c.left);
    FirstTakesOver(head, temp, prev, c, l, a, b);
  }

  // The successor, cut from its place, takes the removed node's left subtree.
  method FirstTakesOver(head: IpSubtree, temp: IpSubtree, prev: IpSubtree, ghost c: Shape, ghost l: Shape,
                        ghost a: set<IpSubtree>, ghost b: set<IpSubtree>)
    requires c.At? && temp == c.node && Nodes(c) <= b && temp !in Nodes(c.right) && Linked(temp.right, c.right)
    requires (prev == head || prev in b) && prev !in Nodes(c) && temp in b
    requires Nodes(l) <= a && a !! b && head !in a && head !in b && Linked(head.left, l)
    modifies head`left, b`left
    ensures Linked(temp, At(c.node, l, c.right))
  {
    hide Linked;
    ghost var left, right := head.left, temp.right;
    temp.left := head.left;
    assert Linked(left, l) && Linked(right, c.right);
    prev.left := null;
    assert Linked(left, l) && Linked(right, c.right);
    LinkedAt(temp, l, c.right);
  }

  // ---- what deletion keeps

  lemma {:induction false} RightmostLast(s: Shape)
    requires s.At? && Ordered(s)
    ensures Ordered(Rightmost(s)) && Rightmost(s).node in Nodes(s)
    ensures Before(Nodes(Rightmost(s).left), {Rightmost(s).node})
    ensures forall a :: Before(Nodes(s), a) ==> Before({Rightmost(s).node}, a)
  {
    hide Before;
    if s.right.At? {
      RightmostLast(s.right);
    }
    forall a | Before(Nodes(s), a) ensures Before({Rightmost(s).node}, a) {
      BeforeFewer(Nodes(s), a, {Rightmost(s).node}, a);
    }
  }

  lemma {:induction false} LeftmostFirst(s: Shape)
    requires s.At? && Ordered(s)
    ensures Ordered(Leftmost(s)) && Leftmost(s).node in Nodes(s)
    ensures Before({Leftmost(s).node}, Nodes(Leftmost(s).right))
    ensures forall a :: Before(a, Nodes(s)) ==> Before(a, {Leftmost(s).node})
  {
    hide Before;
    if s.left.At? {
      LeftmostFirst(s.left);
    }
    forall a | Before(a, Nodes(s)) ensures Before(a, {Leftmost(s).node}) {
      BeforeFewer(a, Nodes(s), a, {Leftmost(s).node});
    }
  }

  lemma JoinedOrdered(l: Shape, r: Shape, heads: bool)
    requires Ordered(l) && Ordered(r) && Before(Nodes(l), Nodes(r))
    ensures Ordered(Joined(l, r, heads))
  {
    hide Before;
    if l.At? && r.At? {
      RightmostLast(l);
      LeftmostFirst(r);
    }
  }

  /** Deletion keeps the search order and leaves no node that lay in the new block. */
  lemma {:induction false} DeletedOrdered(s: Shape, ip: nat, host: nat, coins: Coins)
    requires Ordered(s)
    ensures Ordered(Deleted(s, ip, host, coins))
    ensures forall n :: n in Nodes(Deleted(s, ip, host, coins)) ==> !Covered(n, ip, host)
  {
    hide Covered, Before, Joined;
    match s
    case Leaf =>
    case At(n, l, r) =>
      DeletedOrdered(l, ip, host, coins);
      DeletedOrdered(r, ip, host, coins);
      var l', r' := Deleted(l, ip, host, coins), Deleted(r, ip, host, coins);
      BeforeOver(Nodes(l), n, Nodes(r));
      BeforeFewer(Nodes(l), Nodes(r), Nodes(l'), Nodes(r'));
      BeforeFewer(Nodes(l), {n}, Nodes(l'), {n});
      BeforeFewer({n}, Nodes(r), {n}, Nodes(r'));
      JoinedOrdered(l', r', coins(n));
  }

  // the child on the chosen side has a child towards the removed node
  ghost predicate Drops(l: Shape, r: Shape, heads: bool) {
    l.At? && r.At? && (if heads then l.right.At? else r.left.At?)
  }

  ghost predicate DropsNone(s: Shape, ip: nat, host: nat, coins: Coins) {
    match s
    case Leaf => true
    case At(n, l, r) =>
      && DropsNone(l, ip, host, coins) && DropsNone(r, ip, host, coins)
      && !(Covered(n, ip, host)
           && Drops(Deleted(l, ip, host, coins), Deleted(r, ip, host, coins), coins(n)))
  }

  lemma JoinedHeads(l: Shape, r: Shape)
    requires Ordered(l) && l.At? && r.At? && Nodes(l) !! Nodes(r)
    ensures Nodes(Joined(l, r, true)) == Nodes(l) + Nodes(r) <==> !l.right.At?
  {
    hide Ordered, Before;
    if l.right.At? {
      RightmostInner(l);
      assert l.node !in Nodes(Joined(l, r, true));
    }
  }

  lemma JoinedTails(l: Shape, r: Shape)
    requires Ordered(r) && l.At? && r.At? && Nodes(l) !! Nodes(r)
    ensures Nodes(Joined(l, r, false)) == Nodes(l) + Nodes(r) <==> !r.left.At?
  {
    hide Ordered, Before;
    if r.left.At? {
      LeftmostInner(r);
      assert r.node !in Nodes(Joined(l, r, false));
    }
  }

  lemma JoinedExact(l: Shape, r: Shape, heads: bool)
    requires Ordered(l) && Ordered(r) && Before(Nodes(l), Nodes(r))
    ensures Nodes(Joined(l, r, heads)) == Nodes(l) + Nodes(r) <==> !Drops(l, r, heads)
  {
    hide Ordered;
    if l.At? && r.At? {
      assert Nodes(l) !! Nodes(r);
      hide Before;
      JoinedHeads(l, r);
      JoinedTails(l, r);
    }
  }

  lemma RightmostInner(s: Shape)
    requires s.At? && s.right.At? && Ordered(s)
    ensures s.node !in Nodes(Rightmost(s)) && Nodes(Rightmost(s)) <= Nodes(s.right)
  {
  }

  lemma LeftmostInner(s: Shape)
    requires s.At? && s.left.At? && Ordered(s)
    ensures s.node !in Nodes(Leftmost(s)) && Nodes(Leftmost(s)) <= Nodes(s.left)
  {
  }

  ghost function Uncovered(s: Shape, ip: nat, host: nat): (u: set<IpSubtree>)
    ensures u <= Nodes(s)
  {
    set n | n in Nodes(s) && !Covered(n, ip, host)
  }

  /** Deletion keeps every node outside the new block exactly when, at each node it removes,
      the child on the side the coin picked has no child towards that node. */
  lemma {:induction false} DeletedExact(s: Shape, ip: nat, host: nat, coins: Coins)
    requires Ordered(s)
    ensures Nodes(Deleted(s, ip, host, coins)) == Uncovered(s, ip, host) <==> DropsNone(s, ip, host, coins)
  {
    hide Covered, Drops, Joined, Before;
    match s
    case Leaf =>
    case At(n, l, r) =>
      DeletedExact(l, ip, host, coins);
      DeletedExact(r, ip, host, coins);
      DeletedOrdered(l, ip, host, coins);
      DeletedOrdered(r, ip, host, coins);
      var l', r' := Deleted(l, ip, host, coins), Deleted(r, ip, host, coins);
      Separate(s);
      BeforeFewer(Nodes(l), Nodes(r), Nodes(l'), Nodes(r'));
      JoinedExact(l', r', coins(n));
      UncoveredParts(s, ip, host);
      var one := if Covered(n, ip, host) then {} else {n};
      var d := Nodes(Deleted(s, ip, host, coins));
      KeptParts(Nodes(l'), Uncovered(l, ip, host), Nodes(r'), Uncovered(r, ip, host), one, d,
                Nodes(l), Nodes(r));
  }

  lemma UncoveredParts(s: Shape, ip: nat, host: nat)
    requires s.At?
    ensures Uncovered(s, ip, host) == Uncovered(s.left, ip, host) + Uncovered(s.right, ip, host)
                                      + if Covered(s.node, ip, host) then {} else {s.node}
  {
  }

  lemma KeptParts(a: set<IpSubtree>, ua: set<IpSubtree>, b: set<IpSubtree>, ub: set<IpSubtree>,
                  one: set<IpSubtree>, d: set<IpSubtree>, l: set<IpSubtree>, r: set<IpSubtree>)
    requires a <= ua <= l && b <= ub <= r && l !! r && one !! (l + r) && d <= a + b + one
    ensures d == ua + ub + one <==> a == ua && b == ub && d == a + b + one
  {
    if d == ua + ub + one {
      assert ua <= a;
      assert ub <= b;
    }
  }
}
