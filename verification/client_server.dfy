/** The client lists as they hang from their pointers: exit_one_client, recurse_remove_clients and the list routines. */
module ClientServer {
  import opened Sequences
  import opened Text
  import opened ClientTree
  import opened ClientExit
  import opened ClientLinks

  class Node {
    const id: Id
    const kind: Kind
    const servptr: Node?
    var next: Node?
    var prev: Node?
    var lnext: Node?
    var lprev: Node?
    var servers: Node?
    var users: Node?

    constructor (id: Id, kind: Kind, servptr: Node?)
      ensures this.id == id && this.kind == kind && this.servptr == servptr
      ensures next == prev == lnext == lprev == servers == users == null
    {
      this.id, this.kind, this.servptr := id, kind, servptr;
      next, prev, lnext, lprev, servers, users := null, null, null, null, null, null;
    }
  }

  ghost function Name(n: Node?): Ptr {
    if n == null then None else Some(n.id)
  }

  type Nodes = map<Id, Node>

  ghost predicate Known(at: Nodes, n: Node?) {
    n != null ==> n.id in at && at[n.id] == n
  }

  // Each client's node carries its name, kind and uplink.
  ghost predicate Stands(at: Nodes, t: Table) {
    && at.Keys == t.Keys
    && forall x :: x in at ==>
         at[x].id == x && at[x].kind == t[x].kind && Known(at, at[x].servptr) && Name(at[x].servptr) == t[x].servptr
  }

  ghost function Nexts(at: Nodes): Links
    reads at.Values`next
  {
    map x | x in at :: Name(at[x].next)
  }

  ghost function Prevs(at: Nodes): Links
    reads at.Values`prev
  {
    map x | x in at :: Name(at[x].prev)
  }

  ghost function LNexts(at: Nodes): Links
    reads at.Values`lnext
  {
    map x | x in at :: Name(at[x].lnext)
  }

  ghost function LPrevs(at: Nodes): Links
    reads at.Values`lprev
  {
    map x | x in at :: Name(at[x].lprev)
  }

  function Other(k: Kind): Kind {
    if k == ClientTree.Server then Person else ClientTree.Server
  }

  // the head of a server's list of servers, or of users
  ghost function HeadOf(n: Node, k: Kind): Ptr
    reads n`servers, n`users
  {
    Name(if k == ClientTree.Server then n.servers else n.users)
  }

  ghost predicate Linked(at: Nodes, list: Node?, q: seq<Id>)
    reads at.Values`next, at.Values`prev
  {
    Chain(Nexts(at), Prevs(at), Name(list), q) && Known(at, list) && Joined(at)
  }

  // Each node goes by its name, and its links lead to known nodes.
  ghost predicate Joined(at: Nodes)
    reads at.Values`next, at.Values`prev
  {
    forall x :: x in at ==> at[x].id == x && Known(at, at[x].next) && Known(at, at[x].prev)
  }

  ghost predicate LJoined(at: Nodes)
    reads at.Values`lnext, at.Values`lprev, at.Values`servers, at.Values`users
  {
    forall x :: x in at ==>
      && at[x].id == x && Known(at, at[x].lnext) && Known(at, at[x].lprev)
      && Known(at, at[x].servers) && Known(at, at[x].users)
  }

  // These clients' lists of servers and of users are those of the table.
  ghost predicate Buckets(at: Nodes, ids: set<Id>, t: Table)
    requires ids <= at.Keys && ids <= t.Keys
    reads at.Values`lnext, at.Values`lprev, at.Values`servers, at.Values`users
  {
    forall p, k :: p in ids ==> Chain(LNexts(at), LPrevs(at), HeadOf(at[p], k), Children(t[p], k))
  }

  // A client without an uplink is on no server's list.
  ghost predicate Loose(nx: Links, pv: Links, t: Table) {
    forall x :: x in t && t[x].servptr == None ==> x in nx && x in pv && nx[x] == None && pv[x] == None
  }

  // The lists hang from their pointers as the world has them.
  ghost predicate Hung(at: Nodes, list: Node?, w: World)
    reads at.Values
  {
    && w.clients.Keys <= at.Keys && Linked(at, list, w.list) && LJoined(at)
    && Buckets(at, w.clients.Keys, w.clients) && Loose(LNexts(at), LPrevs(at), w.clients)
  }

  // Once a client has left its uplink's list, the lists of the others are as they are without it.
  ghost predicate OffUplink(at: Nodes, w: World, c: Id)
    reads at.Values`lnext, at.Values`lprev, at.Values`servers, at.Values`users
  {
    var t := Removed(w, {c}).clients;
    && LJoined(at) && Loose(LNexts(at), LPrevs(at), w.clients)
    && at.Keys - {c} <= t.Keys && Buckets(at, at.Keys - {c}, t)
  }

  class Server {
    const me: Node
    var list: Node?
    var servers: int
    var total: int
    ghost var world: World
    ghost var at: Nodes

    // ---- the list of all clients

    // One assignment to a link.
    method SetNext(n: Node, to: Node?)
      requires Joined(at) && Known(at, n) && Known(at, to)
      modifies n`next
      ensures n.next == to && Joined(at) && Nexts(at) == old(Nexts(at))[n.id := Name(to)]
    {
      n.next := to;
    }

    method SetPrev(n: Node, to: Node?)
      requires Joined(at) && Known(at, n) && Known(at, to)
      modifies n`prev
      ensures n.prev == to && Joined(at) && Prevs(at) == old(Prevs(at))[n.id := Name(to)]
    {
      n.prev := to;
    }

    /**
     * remove_client_from_list: a client leaves the list and the counts, unless it has no links, as when it is alone
     * on the list.
     */
    method RemoveFromList(c: Node, ghost q: seq<Id>)
      requires Linked(at, list, q) && Known(at, c) && c.id in q
      modifies `list, `servers, `total, at.Values`next, at.Values`prev
      ensures Linked(at, list, if q == [c.id] then q else Drop(q, {c.id}))
      ensures servers == old(servers) - if q != [c.id] && c.kind == ClientTree.Server then 1 else 0
      ensures total == old(total) - if q != [c.id] && c.kind == Person && c.servptr != null then 1 else 0
    {
      hide Chain, Nexts, Prevs, Drop, Joined, Set;
      NamesOf(c);
      ghost var nx, pv, head := Nexts(at), Prevs(at), Name(list);
      NoLinks(nx, pv, head, q, c.id);
      if c.prev == null && c.next == null {
        return;
      }
      TakeOut(nx, pv, head, q, c.id);
      Bypass(c);
      SetNext(c, null);
      SetPrev(c, null);
      if c.kind == ClientTree.Server {
        servers := servers - 1;
      } else if c.servptr != null {
        total := total - 1;
      }
    }

    // The neighbours of a client, or the head, go past it.
    method Bypass(c: Node)
      requires Joined(at) && Known(at, c) && Known(at, list) && (c.prev != null || c.next != null)
      modifies `list, at.Values`next, at.Values`prev
      ensures Joined(at) && Known(at, list)
      ensures var nx, pv := old(Nexts(at)), old(Prevs(at));
              && Nexts(at) == Set(nx, old(Name(c.prev)), old(Name(c.next)))
              && Prevs(at) == Set(pv, old(Name(c.next)), old(Name(c.prev)))
              && Name(list) == if old(c.prev) != null then old(Name(list)) else old(Name(c.next))
    {
      hide Nexts, Prevs, Joined;
      NamesOf(c);
      ghost var pv := Prevs(at);
      var prev, next := c.prev, c.next;
      if prev != null {
        SetNext(prev, next);
      } else {
        list := next;
        SetPrev(list, null);
      }
      if next != null {
        SetPrev(next, prev);
        SameTwice(pv, next.id, Name(prev));
      }
    }

    lemma NamesOf(c: Node)
      requires Joined(at) && Known(at, c)
      ensures c.id in Nexts(at) && Nexts(at)[c.id] == Name(c.next) && Known(at, c.next)
      ensures c.id in Prevs(at) && Prevs(at)[c.id] == Name(c.prev) && Known(at, c.prev)
    {
    }

    /** add_client_to_list: a client with no links goes first. */
    method AddToList(c: Node, ghost q: seq<Id>)
      requires Linked(at, list, q) && Known(at, c) && c.id !in q && c.prev == null
      modifies `list, c`next, at.Values`prev
      ensures Linked(at, list, [c.id] + q)
    {
      hide Chain, Nexts, Prevs, Joined;
      NamesOf(c);
      ghost var nx, pv, head := Nexts(at), Prevs(at), Name(list);
      PutFirst(nx, pv, head, q, c.id);
      SetNext(c, list);
      list := c;
      if c.next != null {
        SetPrev(c.next, c);
      }
    }

    // ---- a server's list of servers, or of users

    lemma LNamesOf(c: Node)
      requires LJoined(at) && Known(at, c)
      ensures c.id in LNexts(at) && LNexts(at)[c.id] == Name(c.lnext) && Known(at, c.lnext)
      ensures c.id in LPrevs(at) && LPrevs(at)[c.id] == Name(c.lprev) && Known(at, c.lprev)
      ensures Known(at, c.servers) && Known(at, c.users)
    {
    }

    method SetLNext(n: Node, to: Node?)
      requires LJoined(at) && Known(at, n) && Known(at, to)
      modifies n`lnext
      ensures LJoined(at) && LNexts(at) == old(LNexts(at))[n.id := Name(to)]
    {
      n.lnext := to;
    }

    method SetLPrev(n: Node, to: Node?)
      requires LJoined(at) && Known(at, n) && Known(at, to)
      modifies n`lprev
      ensures LJoined(at) && LPrevs(at) == old(LPrevs(at))[n.id := Name(to)]
    {
      n.lprev := to;
    }

    // the pointer a bucket is
    method Head(p: Node, k: Kind) returns (n: Node?)
      requires LJoined(at) && Known(at, p)
      ensures Name(n) == HeadOf(p, k) && Known(at, n)
    {
      n := if k == ClientTree.Server then p.servers else p.users;
    }

    method SetHead(p: Node, k: Kind, to: Node?)
      requires LJoined(at) && Known(at, p) && Known(at, to)
      modifies p`servers, p`users
      ensures LJoined(at) && HeadOf(p, k) == Name(to)
      ensures HeadOf(p, Other(k)) == old(HeadOf(p, Other(k)))
    {
      if k == ClientTree.Server {
        p.servers := to;
      } else {
        p.users := to;
      }
    }

    /**
     * del_client_from_llist: the client's neighbours go past it, or the head if it is first. The list is then the one
     * without it; one the client is not on, nor next to, stays as it was.
     */
    method DelFromLlist(p: Node, k: Kind, c: Node, ghost q: seq<Id>)
      requires LJoined(at) && Known(at, p) && Known(at, c)
      requires Chain(LNexts(at), LPrevs(at), HeadOf(p, k), q)
      modifies p`servers, p`users, at.Values`lnext, at.Values`lprev
      ensures LJoined(at) && HeadOf(p, Other(k)) == old(HeadOf(p, Other(k)))
      ensures c.id in old(LNexts(at)) && c.id in old(LPrevs(at))
      ensures LNexts(at) == NextsWithout(old(LNexts(at)), old(LPrevs(at)), c.id)
      ensures LPrevs(at) == PrevsWithout(old(LNexts(at)), old(LPrevs(at)), c.id)
      ensures HeadOf(p, k) == HeadPast(old(LNexts(at)), old(LPrevs(at)), old(HeadOf(p, k)), c.id)
      ensures c.id in q || Aside(old(LNexts(at)), old(LPrevs(at)), q, c.id)
              ==> Chain(LNexts(at), LPrevs(at), HeadOf(p, k), Drop(q, {c.id}))
    {
      hide Chain, LNexts, LPrevs, Drop, LJoined, Set, Aside, HeadPast;
      LNamesOf(c);
      ghost var nx, pv, head := LNexts(at), LPrevs(at), HeadOf(p, k);
      if c.id in q || Aside(nx, pv, q, c.id) { TakeOff(nx, pv, head, q, c.id); }
      var bucket := Head(p, k);
      LBypass(p, k, c, bucket);
      SetLNext(c, null);
      SetLPrev(c, null);
    }

    method LBypass(p: Node, k: Kind, c: Node, bucket: Node?)
      requires LJoined(at) && Known(at, p) && Known(at, c) && Known(at, bucket) && Name(bucket) == HeadOf(p, k)
      modifies p`servers, p`users, at.Values`lnext, at.Values`lprev
      ensures LJoined(at) && HeadOf(p, Other(k)) == old(HeadOf(p, Other(k)))
      ensures c.id in old(LNexts(at)) && c.id in old(LPrevs(at))
      ensures var nx, pv := old(LNexts(at)), old(LPrevs(at));
              && LNexts(at) == Set(nx, old(Name(c.lprev)), old(Name(c.lnext)))
              && LPrevs(at) == Set(pv, old(Name(c.lnext)), old(Name(c.lprev)))
              && HeadOf(p, k) == HeadPast(nx, pv, old(HeadOf(p, k)), c.id)
    {
      hide LNexts, LPrevs, LJoined, HeadOf, Other;
      LNamesOf(c);
      var lprev, lnext := c.lprev, c.lnext;
      if lprev != null {
        SetLNext(lprev, lnext);
      } else if bucket == c {
        SetHead(p, k, lnext);
      }
      if lnext != null {
        SetLPrev(lnext, lprev);
      }
    }

    /** add_client_to_llist: a client that looks free goes first; nothing happens to another. */
    method AddToLlist(p: Node, k: Kind, c: Node, ghost q: seq<Id>)
      requires LJoined(at) && Known(at, p) && Known(at, c)
      requires Chain(LNexts(at), LPrevs(at), HeadOf(p, k), q)
      modifies p`servers, p`users, c`lnext, at.Values`lprev
      ensures LJoined(at) && HeadOf(p, Other(k)) == old(HeadOf(p, Other(k)))
      ensures c.id in old(LNexts(at)) && c.id in old(LPrevs(at))
      ensures var nx, pv, head := old(LNexts(at)), old(LPrevs(at)), old(HeadOf(p, k));
              if LooksFree(nx, pv, c.id) then
                && LNexts(at) == nx[c.id := head] && LPrevs(at) == PrevsBehind(pv, head, c.id)
                && HeadOf(p, k) == Some(c.id) && (c.id !in q ==> Chain(LNexts(at), LPrevs(at), Some(c.id), [c.id] + q))
              else LNexts(at) == nx && LPrevs(at) == pv && HeadOf(p, k) == head
    {
      hide Chain, LNexts, LPrevs, LJoined, HeadOf;
      LNamesOf(c);
      if c.lprev == null && c.lnext == null {
        if c.id !in q {
          PutFirst(LNexts(at), LPrevs(at), HeadOf(p, k), q, c.id);
        }
        LFront(p, k, c);
      }
    }

    method LFront(p: Node, k: Kind, c: Node)
      requires LJoined(at) && Known(at, p) && Known(at, c) && c.lprev == null
      modifies p`servers, p`users, c`lnext, at.Values`lprev
      ensures LJoined(at) && HeadOf(p, Other(k)) == old(HeadOf(p, Other(k)))
      ensures LNexts(at) == old(LNexts(at))[c.id := old(HeadOf(p, k))]
      ensures LPrevs(at) == PrevsBehind(old(LPrevs(at)), old(HeadOf(p, k)), c.id) && HeadOf(p, k) == Some(c.id)
    {
      hide LNexts, LPrevs, LJoined, HeadOf, Other;
      LNamesOf(c);
      SameLink(LPrevs(at), c.id);
      var bucket := Head(p, k);
      SetLPrev(c, null);
      SetLNext(c, bucket);
      if bucket != null {
        SetLPrev(bucket, c);
      }
      SetHead(p, k, c);
    }

    // ---- the whole

    ghost predicate Valid()
      reads this, at.Values
    {
      && Good(world) && world.servers == servers && world.total == total
      && Stands(at, world.clients) && Known(at, me) && me.servptr == null && Hung(at, list, world)
    }

    constructor (me: Node)
      requires me.kind == ClientTree.Server && me.servptr == null
      requires me.next == me.prev == me.lnext == me.lprev == me.servers == me.users == null
      ensures Valid() && this.me == me && world.list == [me.id] && at == map[me.id := me]
    {
      hide Good, Hung, Stands;
      FirstAlone(me);
      this.me, list, servers, total := me, me, 1, 0;
      world := World(map[me.id := Client(ClientTree.Server, None, [], [])], [me.id], 1, 0, []);
      at := map[me.id := me];
    }

    /** A new client goes first on both lists, and is counted. */
    method Introduce(c: Node, p: Node)
      requires Valid() && Known(at, p) && p.kind == ClientTree.Server && Newcomer(at, c, p)
      modifies `list, `servers, `total, `world, `at, at.Values, c
      ensures Valid() && at == old(at)[c.id := c]
      ensures p.id in old(world).clients && world == Introduced(old(world), c.id, c.kind, p.id)
    {
      hide Good, Hung, Stands, Introduced, Valid, Family;
      Parts();
      StandsIs(at, world.clients, p);
      ghost var was, before, w := at, world, Introduced(world, c.id, c.kind, p.id);
      IntroducedGood(before, c.id, c.kind, p.id);
      IntroducedCounts(before, c.id, c.kind, p.id);
      NewStands(was, before, c, p);
      Meets(was, list, before, c);
      at, world := was[c.id := c], w;
      if c.kind == ClientTree.Server {
        servers := servers + 1;
      } else {
        total := total + 1;
      }
      EnterLists(c, p, before);
    }

    // A client that is counted and known goes first on both lists.
    method EnterLists(c: Node, p: Node, ghost w: World)
      requires Good(world) && world.servers == servers && world.total == total && Stands(at, world.clients)
      requires Known(at, c) && Known(at, p) && Known(at, me) && me.servptr == null && p.id in w.clients
      requires Family(w.clients) && c.id !in w.clients && at.Keys == w.clients.Keys + {c.id} && c.id !in w.list
      requires world == Introduced(w, c.id, c.kind, p.id) && Hung(at, list, w)
      requires c.next == c.prev == c.lnext == c.lprev == c.servers == c.users == null
      modifies `list, p`servers, p`users, c`next, c`lnext, at.Values`lprev, at.Values`prev
      ensures Valid()
    {
      hide Good, Chain, Linked, LJoined, Buckets, Loose, Stands, Introduced, Valid, Family;
      IntroducedCounts(w, c.id, c.kind, p.id);
      AddToList(c, w.list);
      JoinUplink(c, p, w, w.clients.Keys);
      assert Hung(at, list, world);
      AllValid();
    }

    lemma Parts()
      requires Valid()
      ensures Good(world) && Family(world.clients) && world.servers == servers && world.total == total
      ensures Stands(at, world.clients) && Known(at, me) && me.servptr == null && at.Keys == world.clients.Keys
      ensures Hung(at, list, world) && forall x :: x in world.list <==> x in at
    {
      hide Hung, Family, Distinct;
    }

    // A new client goes first on its uplink's list.
    method JoinUplink(c: Node, p: Node, ghost w: World, ghost ids: set<Id>)
      requires Known(at, c) && Known(at, p) && LJoined(at) && ids == w.clients.Keys && at.Keys == ids + {c.id}
      requires Family(w.clients) && c.id !in ids && p.id in ids && c.lnext == c.lprev == c.servers == c.users == null
      requires Buckets(at, ids, w.clients) && Loose(LNexts(at), LPrevs(at), w.clients)
      modifies p`servers, p`users, c`lnext, at.Values`lprev
      ensures LJoined(at) && var u := Introduced(w, c.id, c.kind, p.id).clients;
                             at.Keys <= u.Keys && Buckets(at, at.Keys, u) && Loose(LNexts(at), LPrevs(at), u)
    {
      hide Chain, LNexts, LPrevs, LJoined, Loose, Introduced, Family, PrevsBehind;
      var k := c.kind;
      ghost var t, nx, pv, head := w.clients, LNexts(at), LPrevs(at), HeadOf(p, k);
      ghost var q := Children(t[p.id], k);
      LNamesOf(c);
      IdsOf(at);
      assert Chain(nx, pv, HeadOf(at[p.id], k), q);
      NewToAll(t, c.id);
      AddToLlist(p, k, c, q);
      ghost var u := Introduced(w, c.id, k, p.id).clients;
      IntroducedIs(w, c.id, k, p.id);
      StaysLoose(w, c.id, k, p.id, nx, pv, head);
      forall r, j | r in at.Keys ensures Chain(LNexts(at), LPrevs(at), HeadOf(at[r], j), Children(u[r], j)) {
        if r == c.id {
          NoneThere(LNexts(at), LPrevs(at));
          assert HeadOf(c, j) == old(HeadOf(c, j)) == None;
        } else if r != p.id || j != k {
          OtherFront(t, nx, pv, c.id, head, p.id, k, r, j, old(HeadOf(at[r], j)));
        }
      }
    }

    // A client leaves its uplink's list.
    method LeaveUplink(c: Node)
      requires Valid() && Known(at, c) && c.servptr != null
      modifies c.servptr`servers, c.servptr`users, at.Values`lnext, at.Values`lprev
      ensures OffUplink(at, world, c.id)
    {
      hide Chain, LNexts, LPrevs, Drop, LJoined, Linked, Loose, NextsWithout, PrevsWithout, OffUplink, Family;
      var p, k := c.servptr, c.kind;
      ghost var t := world.clients;
      UplinkHas(t, c.id);
      ghost var q := Children(t[p.id], k);
      ghost var nx, pv := LNexts(at), LPrevs(at);
      assert Chain(nx, pv, HeadOf(at[p.id], k), q);
      StillLoose(t, nx, pv, c.id, HeadOf(p, k));
      DelFromLlist(p, k, c, q);
      forall r, j | r in at.Keys - {c.id}
        ensures Chain(LNexts(at), LPrevs(at), HeadOf(at[r], j), Drop(Children(t[r], j), {c.id}))
      {
        if r != p.id || j != k {
          OtherChain(t, nx, pv, c.id, old(HeadOf(p, k)), r, j, old(HeadOf(at[r], j)));
        }
      }
      OffUplinkIs(at, world, c.id);
    }

    /** exit_one_client, for a client nobody depends on: it leaves both lists and the counts, and the rest stay. */
    method ExitOne(c: Node)
      requires Valid() && Known(at, c) && c.servers == null && c.users == null
      modifies `list, `servers, `total, `world, `at, at.Values
      ensures Valid()
      ensures c == me ==> world == old(world) && at == old(at)
      ensures c != me ==> world == Exited(old(world), {c.id}, [c.id]) && at == old(at) - {c.id}
    {
      hide Good, Chain, Drop, Linked, LJoined, Buckets, Loose, Stands, Removed, Exited;
      StandsFor(c);
      if c.kind == ClientTree.Server {
        if c.servptr != null {
          LeaveUplink(c);
        }
      } else if c.servptr != null {
        LeaveUplink(c);
      }
      if c == me {
        return;
      }
      if c.servptr == null {
        StaysPut(at, world, c.id);
      }
      LeaveList(c);
    }

    // A client that has left its uplink's list leaves the list of all clients and the counts.
    method LeaveList(c: Node)
      requires Good(world) && world.servers == servers && world.total == total
      requires Stands(at, world.clients) && Known(at, me) && me.servptr == null && Linked(at, list, world.list)
      requires Known(at, c) && c != me && OffUplink(at, world, c.id)
      requires world.clients[c.id].servers == [] && world.clients[c.id].users == []
      requires c.id in world.list && world.list != [c.id]
      modifies `list, `servers, `total, `world, `at, at.Values`next, at.Values`prev
      ensures Valid() && world == Exited(old(world), {c.id}, [c.id]) && at == old(at) - {c.id}
    {
      hide Good, Drop, Linked, OffUplink, Stands, Exited, Valid;
      RemoveFromList(c, world.list);
      Forget(c);
    }

    // A client on the list among others, with no lists of its own.
    lemma StandsFor(c: Node)
      requires Valid() && Known(at, c) && c.servers == null && c.users == null
      ensures c.id in world.list && c.id in world.clients && (c != me ==> world.list != [c.id])
      ensures world.clients[c.id].servers == [] && world.clients[c.id].users == []
      ensures c.servptr == null <==> world.clients[c.id].servptr == None
      ensures c.kind == world.clients[c.id].kind
      ensures Family(world.clients) && Known(at, c.servptr) && at.Keys == world.clients.Keys
    {
      hide Chain, Linked, LJoined, Loose, Family;
      assert Chain(LNexts(at), LPrevs(at), HeadOf(at[c.id], ClientTree.Server), Children(world.clients[c.id],
        ClientTree.Server));
      assert Chain(LNexts(at), LPrevs(at), HeadOf(at[c.id], Person), Children(world.clients[c.id], Person));
      NoHead(LNexts(at), LPrevs(at), Children(world.clients[c.id], ClientTree.Server));
      NoHead(LNexts(at), LPrevs(at), Children(world.clients[c.id], Person));
    }

    // The client is no longer known.
    ghost method Forget(c: Node)
      requires Good(world) && Known(at, c) && c != me && Known(at, me) && me.servptr == null
      requires Stands(at, world.clients) && Linked(at, list, Drop(world.list, {c.id})) && OffUplink(at, world, c.id)
      requires world.clients[c.id].servers == [] && world.clients[c.id].users == []
      requires servers == world.servers - if c.kind == ClientTree.Server then 1 else 0
      requires total == world.total - if c.kind == Person && c.servptr != null then 1 else 0
      modifies `world, `at
      ensures Valid() && world == Exited(old(world), {c.id}, [c.id]) && at == old(at) - {c.id}
    {
      hide Good, Drop, Linked, LJoined, Buckets, Loose, Stands, Removed, Exited, OfKind, OffUplink, Valid;
      var w, was, before := Exited(world, {c.id}, [c.id]), at, world;
      GoodFamily(before);
      StandsIs(was, before.clients, c);
      Childless(before.clients, c.id);
      ExitedGood(before, {c.id}, [c.id]);
      CountsGo(before, c.id);
      InList(w);
      ForgetNodes(was, before, c.id);
      at, world := was - {c.id}, w;
      ForgetList(was, list, w, c.id);
      ForgetBuckets(was, before, w, c.id);
      assert Hung(at, list, w);
      AllValid();
    }

    lemma AllValid()
      requires Good(world) && world.servers == servers && world.total == total
      requires Stands(at, world.clients) && Known(at, me) && me.servptr == null && Hung(at, list, world)
      ensures Valid()
    {
    }

    // The head of a server's list is the first of those the table has there.
    lemma HeadIs(q: Node, k: Kind, n: Node?)
      requires Valid() && Known(at, q) && n == if k == ClientTree.Server then q.servers else q.users
      ensures q.id in world.clients
      ensures n == null <==> Children(world.clients[q.id], k) == []
      ensures n != null ==> Known(at, n) && n.id == Children(world.clients[q.id], k)[0]
    {
      hide Good, Linked, Loose;
      assert Chain(LNexts(at), LPrevs(at), HeadOf(at[q.id], k), Children(world.clients[q.id], k));
    }

    lemma MeIs()
      requires Valid()
      ensures me.id in world.clients && world.clients[me.id].servptr == None && Good(world)
      ensures forall x :: x in at <==> x in world.clients
    {
      hide Good, Linked, LJoined, Buckets, Loose;
    }

    // A child of q exits, those that depend on it having gone before.
    method ExitChild(ghost w: World, ghost u: World, q: Node, ghost before: set<Id>, ghost had: seq<Id>, c: Node,
                     ghost next: seq<Id>, ghost was: Nodes)
        returns (ghost gone: set<Id>, ghost order: seq<Id>)
      requires Good(w) && Good(u) && Left(w, u, was, was - before, q.id, before, had)
      requires Known(was - before, q) && Known(was - before, c) && forall x :: x in was - before <==> x in u.clients
      requires c.id in u.clients && q.id in u.clients && u.clients[c.id].servptr == Some(q.id) && q.id < c.id
      requires Children(u.clients[q.id], u.clients[c.id].kind) != []
               && c.id == Children(u.clients[q.id], u.clients[c.id].kind)[0]
      requires me.id in u.clients && u.clients[me.id].servptr == None
      requires var b := Below(u.clients, c.id);
               Valid() && world == Exited(u, b, next) && at == was - before - b && ChildFirst(u.clients, next, b)
      modifies `list, `servers, `total, `world, `at, at.Values
      ensures Valid() && Left(w, world, was, at, q.id, gone, order) && Known(at, q) && |at| < |was - before|
      ensures forall x :: x in at ==> x in was - before && at[x] == was[x]
      ensures u.clients[q.id].servers == [] ==> q.servers == null
    {
      hide Good, Drop, Exited, Removed, ChildFirst, Under, Below, PartOf, Valid;
      ghost var more := Below(u.clients, c.id) + {c.id};
      gone, order := before + more, had + (next + [c.id]);
      OneMore(w, u, q.id, before, had, c.id, next);
      AfterOne(u, q.id, c.id, next, me.id);
      BothExit(u, c.id, next);
      Shrinks(was, before, more, c.id);
      MeIs();
      HeadIs(c, ClientTree.Server, c.servers);
      HeadIs(c, Person, c.users);
      ExitOne(c);
      assert at == was - gone;
      MeIs();
      HeadIs(q, ClientTree.Server, q.servers);
    }

    /**
     * recurse_remove_clients: exactly the clients that depend on q exit, each before the server it is on. All others
     * stay on both lists in the same order, as the links have them, and the counts go down by the numbers that left.
     */
    method RecurseRemove(q: Node, ghost bound: nat) returns (ghost order: seq<Id>)
      requires Valid() && Known(at, q) && forall x :: x in at ==> x < bound
      modifies `list, `servers, `total, `world, `at, at.Values
      ensures Valid()
      ensures q == me ==> world == old(world) && at == old(at)
      ensures q != me ==>
                var gone := Below(old(world).clients, q.id);
                && q.id in old(world).clients && world == Exited(old(world), gone, order) && at == old(at) - gone
                && ChildFirst(old(world).clients, order, gone)
      decreases if q.id < bound then bound - q.id else 0, 1
    {
      order := [];
      if q == me {
        return;
      }
      ghost var w, was := world, at;
      MeIs();
      ghost var gone;
      gone, order := RemoveServers(q, bound);
      order := RemoveUsers(q, w, gone, order, was);
    }

    // The servers of q exit, those that depend on each of them first.
    method RemoveServers(q: Node, ghost bound: nat) returns (ghost gone: set<Id>, ghost order: seq<Id>)
      requires Valid() && Known(at, q) && q != me && forall x :: x in at ==> x < bound
      modifies `list, `servers, `total, `world, `at, at.Values
      ensures Valid() && Good(old(world)) && Known(at, q) && q.servers == null
      ensures Left(old(world), world, old(at), at, q.id, gone, order)
      decreases if q.id < bound then bound - q.id else 0, 0
    {
      ghost var w, was := world, at;
      gone, order := {}, [];
      MeIs();
      LeftNone(w, was, q.id);
      hide Good, Drop, Exited, Removed, ChildFirst, Under, Below, PartOf, Valid, Left;
      while q.servers != null
        invariant Valid() && Known(at, q) && Left(w, world, was, at, q.id, gone, order)
        invariant forall x :: x in at ==> x < bound
        decreases |at|
      {
        var acptr := q.servers;
        HeadIs(q, ClientTree.Server, acptr);
        MeIs();
        FirstOf(world, q.id, acptr.id, ClientTree.Server);
        ghost var u := world;
        var next := RecurseRemove(acptr, bound);
        gone, order := ExitChild(w, u, q, gone, order, acptr, next, was);
      }
    }

    // The users of q exit.
    method RemoveUsers(q: Node, ghost w: World, ghost before: set<Id>, ghost had: seq<Id>, ghost was: Nodes)
        returns (ghost order: seq<Id>)
      requires Valid() && Known(at, q) && q != me && q.servers == null && Good(w)
      requires Left(w, world, was, at, q.id, before, had)
      modifies `list, `servers, `total, `world, `at, at.Values
      ensures Valid()
      ensures var gone := Below(w.clients, q.id);
              q.id in w.clients && world == Exited(w, gone, order) && at == was - gone
                && ChildFirst(w.clients, order, gone)
    {
      hide Good, Drop, Exited, Removed, ChildFirst, Under, Below, PartOf, Valid, Left;
      ghost var gone;
      gone, order := before, had;
      while q.users != null
        invariant Valid() && Known(at, q) && Left(w, world, was, at, q.id, gone, order) && q.servers == null
        invariant forall x :: x in at ==> x in old(at) && at[x] == old(at)[x]
        decreases |at|
      {
        var acptr := q.users;
        HeadIs(q, Person, acptr);
        HeadIs(q, ClientTree.Server, null);
        MeIs();
        FirstOf(world, q.id, acptr.id, Person);
        UserAlone(world, acptr.id);
        LeftIs(w, world, was, at, q.id, gone, order);
        ghost var u := world;
        gone, order := ExitChild(w, u, q, gone, order, acptr, [], was);
      }
      HeadIs(q, ClientTree.Server, null);
      HeadIs(q, Person, null);
      MeIs();
      LeftAll(w, world, was, at, q.id, gone, order);
    }
  }

  // Some of q's dependants, each with all of its own, have exited in this order, and nobody else.
  ghost predicate Left(w: World, u: World, was: Nodes, at: Nodes, q: Id, gone: set<Id>, order: seq<Id>) {
    u == Exited(w, gone, order) && PartOf(w, q, gone, order) && at == was - gone
  }

  lemma LeftNone(w: World, was: Nodes, q: Id)
    ensures Left(w, w, was, was, q, {}, [])
  {
    ExitedNone(w);
    NoneYet(w, q);
    assert was - {} == was;
  }

  lemma LeftIs(w: World, u: World, was: Nodes, at: Nodes, q: Id, gone: set<Id>, order: seq<Id>)
    requires Left(w, u, was, at, q, gone, order)
    ensures at == was - gone
  {
  }

  lemma LeftAll(w: World, u: World, was: Nodes, at: Nodes, q: Id, gone: set<Id>, order: seq<Id>)
    requires Good(w) && Good(u) && Left(w, u, was, at, q, gone, order)
    requires q in u.clients && u.clients[q].servers == [] && u.clients[q].users == []
    ensures q in w.clients && gone == Below(w.clients, q) && ChildFirst(w.clients, order, gone)
    ensures u == Exited(w, gone, order) && at == was - gone
  {
    hide Good, PartOf, ChildFirst, Under, Drop;
    assert q in w.clients;
    NoneLeft(w, u, q, gone, order);
    AllGone(w, q, gone, order);
    OrderIs(w, q, gone, order);
  }

  lemma Shrinks(was: Nodes, gone: set<Id>, more: set<Id>, c: Id)
    requires c in was && c !in gone && c in more
    ensures |was - (gone + more)| < |was - gone|
  {
    assert (was - (gone + more)).Keys <= (was - gone).Keys - {c};
    Fewer((was - (gone + more)).Keys, (was - gone).Keys, c);
  }

  lemma Fewer(a: set<Id>, b: set<Id>, c: Id)
    requires a <= b - {c} && c in b
    ensures |a| < |b|
  {
    assert b == (b - {c}) + {c};
    Subset(a, b - {c});
  }

  lemma {:induction false} Subset(a: set<Id>, b: set<Id>)
    requires a <= b
    ensures |a| <= |b|
  {
    if a != {} {
      var x :| x in a;
      Subset(a - {x}, b - {x});
    }
  }

  lemma FirstAlone(me: Node)
    requires me.kind == ClientTree.Server && me.servptr == null
    requires me.next == me.prev == me.lnext == me.lprev == me.servers == me.users == null
    ensures var at := map[me.id := me];
            var w := World(map[me.id := Client(ClientTree.Server, None, [], [])], [me.id], 1, 0, []);
            && Good(w) && Stands(at, w.clients) && Hung(at, me, w)
  {
    hide Chain;
    var at := map[me.id := me];
    var q: seq<Id> := [];
    OnlyOne(Nexts(at), Prevs(at), me.id);
    NoneThere(LNexts(at), LPrevs(at));
  }

  lemma OnlyOne(nx: Links, pv: Links, c: Id)
    requires c in nx && c in pv && nx[c] == None && pv[c] == None
    ensures Chain(nx, pv, Some(c), [c])
  {
  }

  lemma NoneThere(nx: Links, pv: Links)
    ensures Chain(nx, pv, None, [])
  {
  }

  lemma NoHead(nx: Links, pv: Links, q: seq<Id>)
    requires Chain(nx, pv, None, q)
    ensures q == []
  {
  }

  lemma CountsGo(w: World, c: Id)
    requires c in w.clients
    ensures var u := Exited(w, {c}, [c]);
            && u.clients == Removed(w, {c}).clients && u.clients.Keys == w.clients.Keys - {c}
               && u.list == Drop(w.list, {c})
            && u.servers == w.servers - (if w.clients[c].kind == ClientTree.Server then 1 else 0)
            && u.total == w.total - if w.clients[c].kind == Person && w.clients[c].servptr.Some? then 1 else 0
  {
    hide Drop, OfKind;
    OneKind(w.clients, c);
  }

  lemma InList(w: World)
    requires Good(w)
    ensures forall x :: x in w.list <==> x in w.clients
    ensures Family(w.clients)
  {
  }

  lemma StandsIs(at: Nodes, t: Table, c: Node)
    requires Stands(at, t) && Known(at, c)
    ensures at.Keys == t.Keys && c.id in t && t[c.id].kind == c.kind && (t[c.id].servptr == None <==> c.servptr == null)
  {
  }

  lemma GoodFamily(w: World)
    requires Good(w)
    ensures Family(w.clients)
  {
  }

  // A client without an uplink is on no server's list.
  lemma StaysPut(at: Nodes, w: World, c: Id)
    requires Family(w.clients) && c in w.clients && w.clients[c].servptr == None && at.Keys == w.clients.Keys
    requires Buckets(at, at.Keys, w.clients) && LJoined(at) && Loose(LNexts(at), LPrevs(at), w.clients)
    ensures OffUplink(at, w, c)
  {
    hide Chain, Drop, Family;
    forall r, j | r in w.clients ensures Drop(Children(w.clients[r], j), {c}) == Children(w.clients[r], j) {
      NotListed(w.clients, r, c, j);
    }
  }

  lemma ForgetNodes(at: Nodes, w: World, c: Id)
    requires Stands(at, w.clients) && Family(w.clients) && Closed(w.clients, {c})
    ensures Stands(at - {c}, Removed(w, {c}).clients)
  {
    hide Family, Drop;
  }

  lemma ForgetList(at: Nodes, list: Node?, w: World, c: Id)
    requires c in at && Linked(at, list, w.list) && c !in w.list && w.clients.Keys == at.Keys - {c}
    requires forall x :: x in w.clients ==> x in w.list
    ensures Linked(at - {c}, list, w.list)
  {
    hide Chain;
    var nx, pv := Nexts(at), Prevs(at);
    Elsewhere(nx, pv, Nexts(at - {c}), Prevs(at - {c}), Name(list), w.list);
    HeadIn(nx, pv, Name(list), w.list);
    forall x | x in at - {c}
      ensures at[x].id == x && Known(at - {c}, at[x].next) && Known(at - {c}, at[x].prev)
    {
      Neighbours(nx, pv, Name(list), w.list, x);
    }
  }

  lemma ForgetBuckets(at: Nodes, w: World, u: World, c: Id)
    requires c in at && Stands(at, w.clients) && OffUplink(at, w, c)
    requires u.clients == Removed(w, {c}).clients && Family(u.clients) && at.Keys - {c} == u.clients.Keys
    ensures LJoined(at - {c}) && u.clients.Keys <= (at - {c}).Keys && Buckets(at - {c}, u.clients.Keys, u.clients)
    ensures Loose(LNexts(at - {c}), LPrevs(at - {c}), u.clients)
  {
    hide Chain, Drop, Family, Stands;
    var t, nx, pv, rest := u.clients, LNexts(at), LPrevs(at), at - {c};
    forall p, k | p in rest ensures Chain(LNexts(rest), LPrevs(rest), HeadOf(rest[p], k), Children(t[p], k)) {
      assert Chain(nx, pv, HeadOf(at[p], k), Children(t[p], k));
      ListsKnown(t, p, k);
      Elsewhere(nx, pv, LNexts(rest), LPrevs(rest), HeadOf(at[p], k), Children(t[p], k));
    }
    forall x | x in rest
      ensures Known(rest, at[x].lnext) && Known(rest, at[x].lprev) && Known(rest, at[x].servers)
      ensures Known(rest, at[x].users)
    {
      HeadsKnown(at, t, x, c);
      LinksKnown(at, w.clients, t, x, c);
    }
  }

  lemma ListsKnown(t: Table, p: Id, k: Kind)
    requires Family(t) && p in t
    ensures forall x :: x in Children(t[p], k) ==> x in t
  {
    forall x | x in Children(t[p], k) ensures x in t {
      assert ChildOf(t, p, x, k);
    }
  }

  lemma HeadsKnown(at: Nodes, t: Table, x: Id, c: Id)
    requires LJoined(at) && Family(t) && t.Keys == at.Keys - {c} && x in t && Buckets(at, t.Keys, t)
    ensures Known(at - {c}, at[x].servers) && Known(at - {c}, at[x].users)
  {
    hide Chain, Family;
    forall k ensures HeadOf(at[x], k) != Some(c) {
      assert Chain(LNexts(at), LPrevs(at), HeadOf(at[x], k), Children(t[x], k));
      ListsKnown(t, x, k);
      HeadIn(LNexts(at), LPrevs(at), HeadOf(at[x], k), Children(t[x], k));
    }
    assert HeadOf(at[x], ClientTree.Server) != Some(c) && HeadOf(at[x], Person) != Some(c);
  }

  lemma LinksKnown(at: Nodes, s: Table, t: Table, x: Id, c: Id)
    requires LJoined(at) && Family(t) && t.Keys == at.Keys - {c} && x in t && x in s && Buckets(at, t.Keys, t)
    requires Loose(LNexts(at), LPrevs(at), s) && t[x].servptr == s[x].servptr
    ensures Known(at - {c}, at[x].lnext) && Known(at - {c}, at[x].lprev)
  {
    hide Chain, Family;
    var nx, pv := LNexts(at), LPrevs(at);
    if t[x].servptr.Some? {
      UplinkHas(t, x);
      var p, k := t[x].servptr.value, t[x].kind;
      assert Chain(nx, pv, HeadOf(at[p], k), Children(t[p], k));
      ListsKnown(t, p, k);
      Neighbours(nx, pv, HeadOf(at[p], k), Children(t[p], k), x);
    }
    assert nx[x] != Some(c) && pv[x] != Some(c);
  }

  // A client that is not known yet and has no links.
  ghost predicate Newcomer(at: Nodes, c: Node, p: Node)
    reads c
  {
    && c.id !in at && p.id < c.id && c.servptr == p
    && c.next == c.prev == c.lnext == c.lprev == c.servers == c.users == null
  }

  lemma NewToAll(t: Table, c: Id)
    requires Family(t) && c !in t
    ensures forall r, j :: r in t ==> c !in Children(t[r], j)
  {
    forall r, j | r in t ensures c !in Children(t[r], j) {
      assert c in Children(t[r], j) ==> ChildOf(t, r, c, j);
    }
  }

  lemma IntroducedCounts(w: World, id: Id, kind: Kind, p: Id)
    requires p in w.clients
    ensures var u := Introduced(w, id, kind, p);
            && u.clients.Keys == w.clients.Keys + {id} && u.list == [id] + w.list
            && u.servers == w.servers + (if kind == ClientTree.Server then 1 else 0)
            && u.total == w.total + if kind == Person then 1 else 0
  {
  }

  lemma NewStands(at: Nodes, w: World, c: Node, p: Node)
    requires Stands(at, w.clients) && Known(at, p) && p.id in w.clients && c.id !in at && c.servptr == p && p.id < c.id
    ensures Stands(at[c.id := c], Introduced(w, c.id, c.kind, p.id).clients)
  {
    IntroducedIs(w, c.id, c.kind, p.id);
    hide Introduced;
  }

  lemma IdsOf(at: Nodes)
    requires LJoined(at)
    ensures forall x :: x in at ==> at[x].id == x
  {
  }

  // What is known of the others stays so when a client with no links is met.
  lemma Meets(at: Nodes, list: Node?, w: World, c: Node)
    requires c.id !in at && at.Keys == w.clients.Keys && Hung(at, list, w) && forall x :: x in w.list ==> x in at
    requires c.next == c.prev == c.lnext == c.lprev == c.servers == c.users == null && Family(w.clients)
    ensures Hung(at[c.id := c], list, w)
  {
    hide Chain, Family, Linked, LJoined, Buckets, Loose;
    MeetsList(at, list, w.list, c);
    MeetsLinks(at, w.clients, c);
    MeetsLoose(at, w.clients, c);
    MeetsBuckets(at, w.clients, c);
  }

  lemma MeetsList(at: Nodes, list: Node?, q: seq<Id>, c: Node)
    requires c.id !in at && Linked(at, list, q) && (forall x :: x in q ==> x in at) && c.next == c.prev == null
    ensures Linked(at[c.id := c], list, q)
  {
    hide Chain;
    var a := at[c.id := c];
    Elsewhere(Nexts(at), Prevs(at), Nexts(a), Prevs(a), Name(list), q);
  }

  lemma MeetsLinks(at: Nodes, t: Table, c: Node)
    requires c.id !in at && at.Keys == t.Keys && c.lnext == c.lprev == c.servers == c.users == null
    requires LJoined(at)
    ensures LJoined(at[c.id := c])
  {
  }

  lemma MeetsLoose(at: Nodes, t: Table, c: Node)
    requires c.id !in at && at.Keys == t.Keys && Loose(LNexts(at), LPrevs(at), t)
    ensures Loose(LNexts(at[c.id := c]), LPrevs(at[c.id := c]), t)
  {
  }

  lemma MeetsBuckets(at: Nodes, t: Table, c: Node)
    requires c.id !in at && at.Keys == t.Keys && Buckets(at, at.Keys, t) && Family(t)
    ensures Buckets(at[c.id := c], t.Keys, t)
  {
    hide Chain, Family;
    var a := at[c.id := c];
    forall p, k | p in at ensures Chain(LNexts(a), LPrevs(a), HeadOf(a[p], k), Children(t[p], k)) {
      assert Chain(LNexts(at), LPrevs(at), HeadOf(at[p], k), Children(t[p], k));
      ListsKnown(t, p, k);
      Elsewhere(LNexts(at), LPrevs(at), LNexts(a), LPrevs(a), HeadOf(at[p], k), Children(t[p], k));
    }
  }

  // Another list is not touched when a client goes first on its own.
  lemma OtherFront(t: Table, nx: Links, pv: Links, c: Id, h: Ptr, p: Id, k: Kind, r: Id, j: Kind, head: Ptr)
    requires Family(t) && c !in t && p in t && r in t && (r != p || j != k)
    requires Chain(nx, pv, h, Children(t[p], k)) && Chain(nx, pv, head, Children(t[r], j))
    ensures Chain(nx[c := h], PrevsBehind(pv, h, c), head, Children(t[r], j))
  {
    hide Chain;
    var q := Children(t[r], j);
    HeadIn(nx, pv, h, Children(t[p], k));
    NewToAll(t, c);
    var ny, pw := nx[c := h], PrevsBehind(pv, h, c);
    forall x | x in q && x in nx && x in pv ensures x in ny && x in pw && ny[x] == nx[x] && pw[x] == pv[x] {
      assert ChildOf(t, r, x, j);
      if h.Some? {
        assert ChildOf(t, p, h.value, k);
      }
    }
    Elsewhere(nx, pv, ny, pw, head, q);
  }

  lemma StaysLoose(w: World, c: Id, k: Kind, p: Id, nx: Links, pv: Links, h: Ptr)
    requires Family(w.clients) && c !in w.clients && p in w.clients && Loose(nx, pv, w.clients)
    requires Chain(nx, pv, h, Children(w.clients[p], k))
    ensures Loose(nx[c := h], PrevsBehind(pv, h, c), Introduced(w, c, k, p).clients)
  {
    hide Chain, Introduced, Family;
    IntroducedIs(w, c, k, p);
    HeadIn(nx, pv, h, Children(w.clients[p], k));
    if h.Some? {
      OnList(w.clients, p, k, h.value);
    }
  }

  lemma OnList(t: Table, p: Id, k: Kind, c: Id)
    requires Family(t) && p in t && c in Children(t[p], k)
    ensures c in t && t[c].servptr == Some(p)
  {
    assert ChildOf(t, p, c, k);
  }

  lemma OffUplinkIs(at: Nodes, w: World, c: Id)
    requires LJoined(at) && Loose(LNexts(at), LPrevs(at), w.clients) && at.Keys == w.clients.Keys
    requires forall r, j :: r in at.Keys - {c} ==>
               Chain(LNexts(at), LPrevs(at), HeadOf(at[r], j), Drop(Children(w.clients[r], j), {c}))
    ensures OffUplink(at, w, c)
  {
    hide Chain, Drop, LJoined, Loose, LNexts, LPrevs;
  }

  lemma UplinkHas(t: Table, c: Id)
    requires Family(t) && c in t && t[c].servptr.Some?
    ensures t[c].servptr.value in t && c in Children(t[t[c].servptr.value], t[c].kind)
  {
    ParentIsOlder(t, c);
  }

  lemma StillLoose(t: Table, nx: Links, pv: Links, c: Id, h: Ptr)
    requires Family(t) && c in t && t[c].servptr.Some? && t[c].servptr.value in t && Loose(nx, pv, t)
    requires c in Children(t[t[c].servptr.value], t[c].kind)
    requires Chain(nx, pv, h, Children(t[t[c].servptr.value], t[c].kind))
    ensures c in nx && c in pv && Loose(NextsWithout(nx, pv, c), PrevsWithout(nx, pv, c), t)
  {
    hide Chain, Family;
    var p, k := t[c].servptr.value, t[c].kind;
    Neighbours(nx, pv, h, Children(t[p], k), c);
    if nx[c].Some? {
      OnList(t, p, k, nx[c].value);
    }
    if pv[c].Some? {
      OnList(t, p, k, pv[c].value);
    }
  }

  // Another list is not touched when a client leaves its own.
  lemma OtherChain(t: Table, nx: Links, pv: Links, c: Id, h: Ptr, r: Id, j: Kind, head: Ptr)
    requires Family(t) && c in t && t[c].servptr.Some? && t[c].servptr.value in t && r in t
    requires c in Children(t[t[c].servptr.value], t[c].kind)
    requires Chain(nx, pv, h, Children(t[t[c].servptr.value], t[c].kind)) && Chain(nx, pv, head, Children(t[r], j))
    requires r != t[c].servptr.value || j != t[c].kind
    ensures c in nx && c in pv
    ensures Chain(NextsWithout(nx, pv, c), PrevsWithout(nx, pv, c), head, Drop(Children(t[r], j), {c}))
  {
    hide Chain, Drop;
    var p, k, q := t[c].servptr.value, t[c].kind, Children(t[r], j);
    Neighbours(nx, pv, h, Children(t[p], k), c);
    NotListed(t, r, c, j);
    var ny, pw := NextsWithout(nx, pv, c), PrevsWithout(nx, pv, c);
    forall x | x in q && x in nx && x in pv ensures x in ny && x in pw && ny[x] == nx[x] && pw[x] == pv[x] {
      assert ChildOf(t, r, x, j);
      if nx[c].Some? {
        assert ChildOf(t, p, nx[c].value, k);
      }
      if pv[c].Some? {
        assert ChildOf(t, p, pv[c].value, k);
      }
    }
    Elsewhere(nx, pv, ny, pw, head, q);
  }

  lemma SameLink(m: Links, x: Id)
    requires x in m && m[x] == None
    ensures m[x := None] == m
  {
  }

  lemma SameTwice(m: Links, x: Id, p: Ptr)
    ensures m[x := p][x := p] == m[x := p]
  {
  }
}
