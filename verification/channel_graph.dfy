/** Who is in and invited to which channel. The fields of the channel and user structs are one map each. */
module ChannelGraph {
  import opened Sequences
  import opened Mirror
  import opened Text

  const CHANNELLEN := 32

  type User = nat
  type Name = string

  // Per channel: members, users, invites and whether it outlives its members. Per user: channel, joined and invited.
  // Then the list of all channels and Count.chan.
  datatype Graph = Graph(members: map<Name, seq<User>>, users: map<Name, int>, invites: map<Name, seq<User>>,
                         persistent: map<Name, bool>, channels: map<User, seq<Name>>, joined: map<User, int>,
                         invited: map<User, seq<Name>>, list: seq<Name>, count: int)

  ghost predicate Counted<K>(links: map<K, seq<User>>, counts: map<K, int>) {
    links.Keys == counts.Keys && forall k :: k in links ==> counts[k] == |links[k]|
  }

  ghost predicate JoinCounted(links: map<User, seq<Name>>, counts: map<User, int>) {
    links.Keys == counts.Keys && forall k :: k in links ==> counts[k] == |links[k]|
  }

  ghost predicate Listed(g: Graph) {
    && Distinct(g.list) && (forall c :: c in g.list <==> c in g.members) && g.count == |g.list|
    && g.invites.Keys == g.members.Keys && g.persistent.Keys == g.members.Keys && g.invited.Keys == g.channels.Keys
  }

  ghost predicate Bounded(g: Graph, max: nat) {
    forall u :: u in g.invited ==> |g.invited[u]| <= max
  }

  /** Membership and invites are mirrored, each link once, the counts are the lengths, every channel is on the list. */
  ghost predicate Good(g: Graph, max: nat) {
    && Mirrored(g.members, g.channels) && Mirrored(g.invites, g.invited)
    && Counted(g.members, g.users) && JoinCounted(g.channels, g.joined)
    && Listed(g) && Bounded(g, max)
  }

  lemma Known(g: Graph, max: nat, u: User, c: Name)
    requires Good(g, max)
    ensures c in g.members && u in g.members[c] ==> u in g.channels && c in g.channels[u]
    ensures u in g.channels && c in g.channels[u] ==> c in g.members && u in g.members[c]
    ensures c in g.invites && u in g.invites[c] ==> u in g.invited && c in g.invited[u]
    ensures u in g.invited && c in g.invited[u] ==> c in g.invites && u in g.invites[c]
    ensures c in g.members ==> Distinct(g.members[c]) && Distinct(g.invites[c])
    ensures u in g.channels ==> Distinct(g.channels[u]) && Distinct(g.invited[u])
  {
    assert In(g.members, c, u) <==> In(g.channels, u, c);
    assert In(g.invites, c, u) <==> In(g.invited, u, c);
    hide Distinct;
  }

  // ---- invites

  // del_invite
  function Uninvited(g: Graph, u: User, c: Name): Graph
    requires u in g.invited && c in g.invites
  {
    g.(invites := g.invites[c := Without(g.invites[c], u)], invited := g.invited[u := Without(g.invited[u], c)])
  }

  lemma UninvitedGood(g: Graph, max: nat, u: User, c: Name)
    requires Good(g, max) && u in g.invited && c in g.invites
    ensures Good(Uninvited(g, u, c), max)
  {
    Known(g, max, u, c);
    WithoutIs(g.invited[u], c);
    hide Distinct, Without, Mirrored;
    Unlinked(g.invites, g.invited, c, u);
  }

  // A link at the head of the channel's list and at the tail of the user's.
  function LinkedInvite(g: Graph, u: User, c: Name): Graph
    requires u in g.invited && c in g.invites
  {
    g.(invites := g.invites[c := [u] + g.invites[c]], invited := g.invited[u := g.invited[u] + [c]])
  }

  lemma LinkedInviteGood(g: Graph, max: nat, u: User, c: Name)
    requires Good(g, max) && u in g.invited && c in g.invites && c !in g.invited[u] && |g.invited[u]| < max
    ensures Good(LinkedInvite(g, u, c), max)
  {
    Known(g, max, u, c);
    hide Distinct, Mirrored;
    Prepended(g.invites[c], u);
    Prepended(g.invited[u], c);
    Linked(g.invites, g.invited, c, u, [u] + g.invites[c], g.invited[u] + [c]);
  }

  // add_invite
  function Invited(g: Graph, max: nat, u: User, c: Name): Graph
    requires u in g.invited && c in g.invites
  {
    var h := Uninvited(g, u, c);
    var q := h.invited[u];
    LinkedInvite(if |q| >= max && q != [] && q[0] in h.invites then Uninvited(h, u, q[0]) else h, u, c)
  }

  /** Inviting keeps the lists mirrored and bounded; the newest invite is last, and only the oldest may be forgotten. */
  lemma InvitedGood(g: Graph, max: nat, u: User, c: Name)
    requires Good(g, max) && u in g.invited && c in g.invites && max > 0
    ensures var t := Invited(g, max, u, c);
      var q := Without(g.invited[u], c);
      && Good(t, max)
      && t.invited[u] == (if |q| >= max then q[1..] else q) + [c]
      && forall v :: v in g.invited && v != u ==> v in t.invited && t.invited[v] == g.invited[v]
  {
    UninvitedGood(g, max, u, c);
    var h := Uninvited(g, u, c);
    var q := h.invited[u];
    Known(g, max, u, c);
    WithoutIs(g.invited[u], c);
    if |q| >= max {
      Known(h, max, u, q[0]);
      UninvitedGood(h, max, u, q[0]);
      WithoutIs(q, q[0]);
      WithoutAt(q, q[0], 0);
      assert q[..0] + q[1..] == q[1..];
      hide Good, Distinct, Without;
      LinkedInviteGood(Uninvited(h, u, q[0]), max, u, c);
    } else {
      hide Good, Distinct, Without;
      LinkedInviteGood(h, max, u, c);
    }
  }

  lemma InvitedIs(g: Graph, max: nat, u: User, c: Name)
    requires Good(g, max) && u in g.invited && c in g.invites && max > 0
    ensures var t, q := Invited(g, max, u, c), Without(g.invited[u], c);
      && t.invited == g.invited[u := (if |q| >= max then q[1..] else q) + [c]] && t.invites.Keys == g.invites.Keys
      && forall d :: d in t.invites ==>
           t.invites[d] == if d == c then [u] + Without(g.invites[c], u)
                           else if |q| >= max && d == q[0] then Without(g.invites[d], u) else g.invites[d]
  {
    var q := Without(g.invited[u], c);
    UninvitedGood(g, max, u, c);
    OldestThere(Uninvited(g, u, c), max, u);
    OthersLeft(g, max, u, c);
    hide Good, Without;
    if |q| >= max { WithoutFirst(q); }
  }

  lemma OthersLeft(g: Graph, max: nat, u: User, c: Name)
    requires Good(g, max) && u in g.invited && c in g.invites
    ensures c !in Without(g.invited[u], c) && |Without(g.invited[u], c)| <= max
  {
    Known(g, max, u, c);
    WithoutIs(g.invited[u], c);
  }

  lemma WithoutFirst(q: seq<Name>)
    requires q != []
    ensures Without(q, q[0]) == q[1..]
  {
  }

  // ---- members

  // add_user_to_channel
  function Joined(g: Graph, u: User, c: Name): Graph
    requires u in g.channels && c in g.members && c in g.users && u in g.joined
  {
    g.(members := g.members[c := [u] + g.members[c]], users := g.users[c := g.users[c] + 1],
       channels := g.channels[u := [c] + g.channels[u]], joined := g.joined[u := g.joined[u] + 1])
  }

  lemma JoinedGood(g: Graph, max: nat, u: User, c: Name)
    requires Good(g, max) && u in g.channels && c in g.members && u !in g.members[c]
    ensures c in g.users && u in g.joined && Good(Joined(g, u, c), max)
  {
    Known(g, max, u, c);
    hide Distinct, Mirrored;
    Prepended(g.members[c], u);
    Prepended(g.channels[u], c);
    Linked(g.members, g.channels, c, u, [u] + g.members[c], [c] + g.channels[u]);
  }

  // The two links gone and the counts lowered.
  function Parted(g: Graph, u: User, c: Name): Graph
    requires u in g.channels && c in g.members && c in g.users && u in g.joined
  {
    g.(members := g.members[c := Without(g.members[c], u)], users := g.users[c := g.users[c] - 1],
       channels := g.channels[u := Without(g.channels[u], c)], joined := g.joined[u := g.joined[u] - 1])
  }

  lemma PartedGood(g: Graph, max: nat, u: User, c: Name)
    requires Good(g, max) && u in g.channels && c in g.members && u in g.members[c]
    ensures c in g.users && u in g.joined && Good(Parted(g, u, c), max)
  {
    Known(g, max, u, c);
    WithoutIs(g.members[c], u);
    WithoutIs(g.channels[u], c);
    hide Distinct, Mirrored, Without;
    Unlinked(g.members, g.channels, c, u);
  }

  // The channel gone, and every invite to it.
  function Dissolved(g: Graph, c: Name): Graph {
    g.(members := g.members - {c}, users := g.users - {c}, invites := g.invites - {c}, persistent := g.persistent - {c},
       invited := Cleared(g.invited, c), list := Without(g.list, c), count := g.count - 1)
  }

  // Nobody has a link to c.
  ghost predicate Forgotten(b: map<User, seq<Name>>, c: Name) {
    forall u :: u in b ==> c !in b[u]
  }

  lemma NobodyThere(g: Graph, max: nat, c: Name)
    requires Good(g, max) && c in g.members && g.members[c] == []
    ensures Forgotten(g.channels, c)
  {
    hide Good;
    forall u | u in g.channels ensures c !in g.channels[u] { Known(g, max, u, c); }
  }

  lemma ClearedShorter(b: map<User, seq<Name>>, c: Name)
    requires AllDistinct(b)
    ensures Forgotten(Cleared(b, c), c) && forall u :: u in b ==> |Cleared(b, c)[u]| <= |b[u]|
  {
    forall u | u in b ensures |Without(b[u], c)| <= |b[u]| && c !in Without(b[u], c) { WithoutIs(b[u], c); }
  }

  lemma DissolvedGood(g: Graph, max: nat, c: Name)
    requires Good(g, max) && c in g.members && g.members[c] == []
    ensures Good(Dissolved(g, c), max)
    ensures Forgotten(Dissolved(g, c).invited, c) && Forgotten(Dissolved(g, c).channels, c)
    ensures c !in Dissolved(g, c).list
  {
    hide Distinct, Without, Mirrored, Cleared, Forgotten;
    NobodyThere(g, max, c);
    InvitesDistinct(g.invites, g.invited);
    ClearedShorter(g.invited, c);
    WithoutIs(g.list, c);
    Dropped(g.invites, g.invited, c);
    Dropped(g.members, g.channels, c);
    NothingCleared(g.channels, c);
    ClearedKeys(g.invited, c);
  }

  lemma InvitesDistinct(a: map<Name, seq<User>>, b: map<User, seq<Name>>)
    requires Mirrored(a, b)
    ensures AllDistinct(b)
  {
  }

  lemma ClearedKeys(b: map<User, seq<Name>>, c: Name)
    ensures Cleared(b, c).Keys == b.Keys
  {
  }

  lemma NothingCleared(b: map<User, seq<Name>>, c: Name)
    requires Forgotten(b, c)
    ensures Cleared(b, c) == b
  {
    forall u | u in b ensures Without(b[u], c) == b[u] { WithoutNone(b[u], c); }
  }

  // remove_user_from_channel and sub1_from_channel
  function Left(g: Graph, u: User, c: Name): Graph
    requires u in g.channels && c in g.members && c in g.users && u in g.joined && c in g.persistent
  {
    var h := Parted(g, u, c);
    if h.users[c] <= 0 && !g.persistent[c] then Dissolved(h, c) else h
  }

  /**
   * Leaving keeps the lists mirrored; the last member takes a channel that is not persistent along, out of the list
   * and with every invite to it.
   */
  lemma LeftGood(g: Graph, max: nat, u: User, c: Name)
    requires Good(g, max) && u in g.channels && c in g.members && u in g.members[c]
    ensures c in g.users && u in g.joined && c in g.persistent
    ensures var t := Left(g, u, c);
      && Good(t, max)
      && (c in t.members <==> |g.members[c]| > 1 || g.persistent[c])
      && (c !in t.members ==> c !in t.list && Forgotten(t.invited, c) && Forgotten(t.channels, c))
      && (c in t.members ==> u !in t.members[c])
  {
    Known(g, max, u, c);
    PartedGood(g, max, u, c);
    WithoutIs(g.members[c], u);
    var h := Parted(g, u, c);
    assert h.members[c] == [] <==> |g.members[c]| == 1;
    if h.users[c] <= 0 && !g.persistent[c] {
      DissolvedGood(h, max, c);
    }
    hide Distinct, Without, Mirrored;
  }

  lemma LastLeaves(g: Graph, max: nat, u: User, c: Name)
    requires Good(g, max) && u in g.channels && c in g.members && u in g.members[c]
    ensures c in g.users && c in g.persistent && u in g.joined
    ensures var t := Left(g, u, c);
      && t.channels == g.channels[u := Without(g.channels[u], c)] && t.joined == g.joined[u := g.joined[u] - 1]
      && if |g.members[c]| > 1 || g.persistent[c] then
           && t.members == g.members[c := Without(g.members[c], u)] && t.list == g.list
           && t.users == g.users[c := g.users[c] - 1] && t.invites == g.invites && t.invited == g.invited
         else
           && t.members == g.members - {c} && t.list == Without(g.list, c) && t.count == g.count - 1
           && t.invites == g.invites - {c}
  {
    Known(g, max, u, c);
    JoinCounts(g, max, u);
    MembersCounted(g, max, c);
    hide Good, Without, Cleared;
  }

  lemma JoinCounts(g: Graph, max: nat, u: User)
    requires Good(g, max) && u in g.channels
    ensures u in g.joined
  {
  }

  lemma ForgottenIs(b: map<User, seq<Name>>, c: Name)
    ensures Forgotten(b, c) <==> forall u :: u in b ==> c !in b[u]
  {
  }

  lemma MembersCounted(g: Graph, max: nat, c: Name)
    requires Good(g, max) && c in g.members
    ensures c in g.users && g.users[c] == |g.members[c]|
  {
  }

  // A new channel at the head of the list.
  function Created(g: Graph, c: Name, keep: bool): Graph {
    g.(members := g.members[c := []], users := g.users[c := 0], invites := g.invites[c := []],
       persistent := g.persistent[c := keep], list := [c] + g.list, count := g.count + 1)
  }

  lemma CreatedListed(g: Graph, c: Name, keep: bool)
    requires Listed(g) && c !in g.members
    ensures Listed(Created(g, c, keep))
  {
    hide Distinct;
    Prepended(g.list, c);
  }

  lemma CreatedCounted(g: Graph, c: Name, keep: bool)
    requires Counted(g.members, g.users)
    ensures Counted(Created(g, c, keep).members, Created(g, c, keep).users)
  {
  }

  lemma CreatedGood(g: Graph, max: nat, c: Name, keep: bool)
    requires Good(g, max) && c !in g.members
    ensures Good(Created(g, c, keep), max)
  {
    assert g.invites.Keys == g.members.Keys;
    hide Mirrored, Distinct, Listed, Counted, JoinCounted, Bounded;
    Empty(g.members, g.channels, c);
    Empty(g.invites, g.invited, c);
    CreatedListed(g, c, keep);
    CreatedCounted(g, c, keep);
    CreatedRest(g, max, c, keep);
  }

  lemma CreatedRest(g: Graph, max: nat, c: Name, keep: bool)
    requires JoinCounted(g.channels, g.joined) && Bounded(g, max)
    ensures var h := Created(g, c, keep); JoinCounted(h.channels, h.joined) && Bounded(h, max)
  {
  }

  // ---- the lists themselves

  class Lists {
    var members: map<Name, seq<User>>
    var users: map<Name, int>
    var invites: map<Name, seq<User>>
    var persistent: map<Name, bool>
    var channels: map<User, seq<Name>>
    var joined: map<User, int>
    var invited: map<User, seq<Name>>
    var list: seq<Name>
    var count: int
    // channelts, of the channels that are there
    var stamps: map<Name, nat>
    const max: nat

    ghost function G(): Graph
      reads this
    {
      Graph(members, users, invites, persistent, channels, joined, invited, list, count)
    }

    constructor (maxChansPerUser: nat)
      requires maxChansPerUser > 0
      ensures Good(G(), max) && max == maxChansPerUser && members == map[] && channels == map[]
    {
      members, users, invites, persistent := map[], map[], map[], map[];
      channels, joined, invited := map[], map[], map[];
      list, count, stamps, max := [], 0, map[], maxChansPerUser;
    }

    method AddPerson(u: User)
      requires Good(G(), max) && u !in channels
      modifies this`channels, this`joined, this`invited
      ensures Good(G(), max) && channels == old(channels)[u := []] && invited == old(invited)[u := []]
    {
      hide Mirrored, Distinct;
      Swapped(members, channels);
      Empty(channels, members, u);
      Swapped(invites, invited);
      Empty(invited, invites, u);
      channels, joined, invited := channels[u := []], joined[u := 0], invited[u := []];
    }

    /**
     * get_channel: the channel of that name, which is cut if a local client gave it; or with CREATE a new one, stamped
     * with the time, at the head of the list. No name has no channel.
     */
    method GetChannel(mine: bool, name: Name, create: bool, keep: bool, now: nat) returns (found: Option<Name>)
      requires Good(G(), max)
      modifies this`members, this`users, this`invites, this`persistent, this`list, this`count, this`stamps
      ensures Good(G(), max) && (found.Some? ==> found.value in members)
      ensures var c := if mine && |name| > CHANNELLEN then name[..CHANNELLEN] else name;
        var known := c in old(members);
        && found == (if name == "" || !(known || create) then None else Some(c))
        && members == (if found.None? || known then old(members) else old(members)[c := []])
        && list == (if found.None? || known then old(list) else [c] + old(list))
        && stamps == (if found.None? || known then old(stamps) else old(stamps)[c := now])
    {
      hide Good;
      if name == "" { return None; }
      var c := name;
      if mine && |name| > CHANNELLEN { c := name[..CHANNELLEN]; }
      if c in members { return Some(c); }
      if !create { return None; }
      CreatedGood(G(), max, c, keep);
      members, users, invites, persistent := members[c := []], users[c := 0], invites[c := []], persistent[c := keep];
      list, count, stamps := [c] + list, count + 1, stamps[c := now];
      found := Some(c);
    }

    method AddUser(u: User, c: Name)
      requires Good(G(), max) && u in channels && c in members && u !in members[c]
      modifies this`members, this`users, this`channels, this`joined
      ensures u in old(channels) && c in old(members) && c in old(users) && u in old(joined)
      ensures G() == Joined(old(G()), u, c) && Good(G(), max)
      ensures members == old(members)[c := [u] + old(members[c])] && users == old(users)[c := old(users[c]) + 1]
      ensures channels == old(channels)[u := [c] + old(channels[u])] && joined == old(joined)[u := old(joined[u]) + 1]
    {
      JoinedGood(G(), max, u, c);
      hide Good;
      members, users := members[c := [u] + members[c]], users[c := users[c] + 1];
      channels, joined := channels[u := [c] + channels[u]], joined[u := joined[u] + 1];
    }

    method DelInvite(u: User, c: Name)
      requires Good(G(), max) && u in invited && c in invites
      modifies this`invites, this`invited
      ensures G() == Uninvited(old(G()), u, c) && Good(G(), max)
      ensures invites == old(invites)[c := Without(old(invites[c]), u)]
      ensures invited == old(invited)[u := Without(old(invited[u]), c)]
    {
      UninvitedGood(G(), max, u, c);
      hide Good, Without;
      var q := Unlink(invites[c], u);
      invites := invites[c := q];
      var p := Unlink(invited[u], c);
      invited := invited[u := p];
    }

    method AddInvite(u: User, c: Name)
      requires Good(G(), max) && u in invited && c in invites && max > 0
      modifies this`invites, this`invited
      ensures G() == Invited(old(G()), max, u, c) && Good(G(), max)
      ensures var q := Without(old(invited[u]), c);
        && invited == old(invited)[u := (if |q| >= max then q[1..] else q) + [c]]
        && invites.Keys == old(invites).Keys
        && forall d :: d in invites ==>
             invites[d] == if d == c then [u] + Without(old(invites[c]), u)
                           else if |q| >= max && d == q[0] then Without(old(invites)[d], u) else old(invites)[d]
    {
      InvitedGood(G(), max, u, c);
      InvitedIs(G(), max, u, c);
      hide Good, Without, Uninvited, LinkedInvite;
      KeepsKeys(G(), u, c);
      DelInvite(u, c);
      OldestThere(G(), max, u);
      if |invited[u]| >= max {
        KeepsKeys(G(), u, invited[u][0]);
        DelInvite(u, invited[u][0]);
      }
      LinkInvite(u, c);
    }

    // A link for an invite at the head of one list and the tail of the other.
    method LinkInvite(u: User, c: Name)
      requires u in invited && c in invites
      modifies this`invites, this`invited
      ensures G() == LinkedInvite(old(G()), u, c)
    {
      invites := invites[c := [u] + invites[c]];
      invited := invited[u := invited[u] + [c]];
    }

    // sub1_from_channel, once the member's link is gone
    method Sub1(c: Name)
      requires c in users && c in members && c in invites && c in persistent
      requires Good(G().(users := users[c := users[c] - 1]), max)
      modifies this`members, this`users, this`invites, this`persistent, this`invited, this`list, this`count
      ensures Good(G(), max)
      ensures var h := old(G()).(users := old(users)[c := old(users)[c] - 1]);
        G() == if h.users[c] <= 0 && !old(persistent)[c] then Dissolved(h, c) else h
    {
      hide Good, Dissolved;
      users := users[c := users[c] - 1];
      NeverNegative(G(), max, c);
      if users[c] > 0 || persistent[c] {
        return;
      }
      Dissolve(c);
    }

    // The end of a channel nobody is in.
    method Dissolve(c: Name)
      requires Good(G(), max) && c in members && c in invites && members[c] == []
      modifies this`members, this`users, this`invites, this`persistent, this`invited, this`list, this`count
      ensures G() == Dissolved(old(G()), c) && Good(G(), max)
    {
      hide Good, Without, Cleared, Forgotten;
      DissolvedGood(G(), max, c);
      WithoutKey(invites, c);
      DelInvites(c);
      var q := Unlink(list, c);
      members, users, invites, persistent := members - {c}, users - {c}, invites - {c}, persistent - {c};
      list, count := q, count - 1;
    }

    // The loop that takes back every invite to a channel.
    method DelInvites(c: Name)
      requires Good(G(), max) && c in invites
      modifies this`invites, this`invited
      ensures invited == Cleared(old(invited), c) && invites == old(invites)[c := []]
    {
      hide Good, Without, Cleared;
      ghost var was := invited;
      while invites[c] != []
        invariant c in invites && Good(G(), max) && Cleared(invited, c) == Cleared(was, c)
        invariant invites == old(invites)[c := invites[c]]
        decreases |invites[c]|
      {
        var u := invites[c][0];
        InviteThere(G(), max, u, c);
        ClearedOnce(invited, u, c);
        FewerInvites(G(), max, u, c);
        DelInvite(u, c);
      }
      NoInvites(G(), max, c);
    }

    // The member's two links.
    method PartLinks(u: User, c: Name)
      requires u in channels && c in members && u in joined
      modifies this`members, this`channels, this`joined
      ensures members == old(members)[c := Without(old(members)[c], u)]
      ensures channels == old(channels)[u := Without(old(channels)[u], c)]
      ensures joined == old(joined)[u := old(joined)[u] - 1]
    {
      hide Without;
      var q := Unlink(members[c], u);
      members := members[c := q];
      var p := Unlink(channels[u], c);
      channels := channels[u := p];
      joined := joined[u := joined[u] - 1];
    }

    method RemoveUser(u: User, c: Name)
      requires Good(G(), max) && u in channels && c in members && u in members[c]
      modifies this
      ensures u in old(channels) && c in old(members) && c in old(users) && u in old(joined) && c in old(persistent)
      ensures G() == Left(old(G()), u, c) && Good(G(), max)
      ensures channels == old(channels)[u := Without(old(channels[u]), c)]
      ensures joined == old(joined)[u := old(joined[u]) - 1]
      ensures if |old(members[c])| > 1 || old(persistent[c]) then
                && members == old(members)[c := Without(old(members[c]), u)] && list == old(list)
                && users == old(users)[c := old(users[c]) - 1] && invites == old(invites) && invited == old(invited)
              else
                && members == old(members) - {c} && list == Without(old(list), c) && count == old(count) - 1
                && invites == old(invites) - {c} && forall v :: v in invited ==> c !in invited[v]
    {
      hide Good, Without, Dissolved, Forgotten;
      InLists(G(), max, c);
      JoinCounts(G(), max, u);
      LeftGood(G(), max, u, c);
      LastLeaves(G(), max, u, c);
      ForgottenIs(Left(G(), u, c).invited, c);
      PartedGood(G(), max, u, c);
      PartLinks(u, c);
      Sub1(c);
    }
  }

  lemma KeepsKeys(g: Graph, u: User, c: Name)
    requires u in g.invited && c in g.invites
    ensures Uninvited(g, u, c).invited.Keys == g.invited.Keys && Uninvited(g, u, c).invites.Keys == g.invites.Keys
  {
  }

  lemma WithoutKey(a: map<Name, seq<User>>, c: Name)
    ensures a[c := []] - {c} == a - {c}
  {
  }

  lemma Swapped(a: map<Name, seq<User>>, b: map<User, seq<Name>>)
    requires Mirrored(a, b)
    ensures Mirrored(b, a)
  {
  }

  lemma OldestThere(g: Graph, max: nat, u: User)
    requires Good(g, max) && u in g.invited
    ensures g.invited[u] != [] ==> g.invited[u][0] in g.invites
  {
    if g.invited[u] != [] { Known(g, max, u, g.invited[u][0]); }
  }

  lemma InLists(g: Graph, max: nat, c: Name)
    requires Good(g, max) && c in g.members
    ensures c in g.users && c in g.invites && c in g.persistent
  {
  }

  lemma NeverNegative(g: Graph, max: nat, c: Name)
    requires Good(g, max) && c in g.members && c in g.users
    ensures g.users[c] >= 0 && (g.users[c] == 0 ==> g.members[c] == [])
  {
  }

  lemma InviteThere(g: Graph, max: nat, u: User, c: Name)
    requires Good(g, max) && c in g.invites && u in g.invites[c]
    ensures u in g.invited && c in g.invited[u] && AllDistinctAt(g.invited, u)
  {
    Known(g, max, u, c);
  }

  lemma FewerInvites(g: Graph, max: nat, u: User, c: Name)
    requires Good(g, max) && c in g.invites && u in g.invites[c]
    ensures |Without(g.invites[c], u)| < |g.invites[c]|
  {
    InLists2(g, max, c);
    Known(g, max, u, c);
    WithoutIs(g.invites[c], u);
  }

  lemma InLists2(g: Graph, max: nat, c: Name)
    requires Good(g, max) && c in g.invites
    ensures c in g.members
  {
  }

  lemma ClearedOnce(b: map<User, seq<Name>>, u: User, c: Name)
    requires u in b && AllDistinctAt(b, u)
    ensures Cleared(b[u := Without(b[u], c)], c) == Cleared(b, c)
  {
    WithoutIs(b[u], c);
    WithoutNone(Without(b[u], c), c);
    hide Without;
  }

  ghost predicate AllDistinctAt(b: map<User, seq<Name>>, u: User)
    requires u in b
  {
    Distinct(b[u])
  }

  lemma NoInvites(g: Graph, max: nat, c: Name)
    requires Good(g, max) && c in g.invites && g.invites[c] == []
    ensures Cleared(g.invited, c) == g.invited
  {
    hide Good;
    forall u | u in g.invited ensures c !in g.invited[u] { Known(g, max, u, c); }
    NothingCleared(g.invited, c);
  }
}
