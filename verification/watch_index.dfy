/** The watch tables: nick headers in hash chains, and the watches of each client. */
module WatchIndex {
  import opened Sequences
  import opened Mirror

  type User = nat
  // A nick in lower case: what strcasecmp and the hash look at.
  type Key = string

  const WATCHHASHSIZE: nat := 10007

  function LowerChar(c: char): char {
    if 'A' <= c <= 'Z' then (c as int + 32) as char else c
  }

  function Lower(nick: string): (k: Key)
    ensures |k| == |nick|
  {
    seq(|nick|, i requires 0 <= i < |nick| => LowerChar(nick[i]))
  }

  /** Two nicks have one key when they are as long as each other and, at each place, the characters are equal or are
      one ASCII letter in both of its cases. */
  lemma SameKey(a: string, b: string)
    ensures Lower(a) == Lower(b) <==> |a| == |b| && forall i :: 0 <= i < |a| ==>
              || a[i] == b[i]
              || ('A' <= a[i] <= 'Z' && b[i] as int == a[i] as int + 32)
              || ('a' <= a[i] <= 'z' && b[i] as int == a[i] as int - 32)
  {
    forall i | 0 <= i < |a| && |a| == |b|
      ensures Lower(a)[i] == Lower(b)[i] <==>
        || a[i] == b[i]
        || ('A' <= a[i] <= 'Z' && b[i] as int == a[i] as int + 32)
        || ('a' <= a[i] <= 'z' && b[i] as int == a[i] as int - 32)
    {
    }
  }

  // The chains of headers, the clients on each header, each client's watches and their number.
  datatype Index = Index(chains: seq<seq<Key>>, watchers: map<Key, seq<User>>, lists: map<User, seq<Key>>,
    watches: map<User, int>)

  // The chain a nick belongs on.
  function Bucket(hash: Key -> nat, k: Key): (b: nat)
    ensures b < WATCHHASHSIZE
  {
    hash(k) % WATCHHASHSIZE
  }

  // Every header is on the chain of its nick, once, and nothing else is on a chain.
  ghost predicate Chained(chains: seq<seq<Key>>, heads: set<Key>, hash: Key -> nat) {
    && |chains| == WATCHHASHSIZE
    && (forall b :: 0 <= b < |chains| ==> Distinct(chains[b]))
    && (forall b, k :: 0 <= b < |chains| && k in chains[b] ==> k in heads && b == Bucket(hash, k))
    && forall k :: k in heads ==> k in chains[Bucket(hash, k)]
  }

  ghost predicate Counted(lists: map<User, seq<Key>>, watches: map<User, int>) {
    lists.Keys == watches.Keys && forall c :: c in lists ==> watches[c] == |lists[c]|
  }

  ghost predicate NoneEmpty(watchers: map<Key, seq<User>>) {
    forall k :: k in watchers ==> watchers[k] != []
  }

  /** Headers and watch lists mirror each other, each pair once; no header is empty; the counts are the lengths. */
  ghost predicate Good(w: Index, hash: Key -> nat) {
    && Mirrored(w.watchers, w.lists) && NoneEmpty(w.watchers)
    && Chained(w.chains, w.watchers.Keys, hash) && Counted(w.lists, w.watches)
  }

  // ---- chains

  function Onto(chains: seq<seq<Key>>, b: nat, k: Key): seq<seq<Key>>
    requires b < |chains|
  {
    chains[b := [k] + chains[b]]
  }

  function Off(chains: seq<seq<Key>>, b: nat, k: Key): seq<seq<Key>>
    requires b < |chains|
  {
    chains[b := Without(chains[b], k)]
  }

  lemma OntoChained(chains: seq<seq<Key>>, heads: set<Key>, hash: Key -> nat, k: Key)
    requires Chained(chains, heads, hash) && k !in heads
    ensures Chained(Onto(chains, Bucket(hash, k), k), heads + {k}, hash)
  {
    var b := Bucket(hash, k);
    assert k !in chains[b];
    Prepended(chains[b], k);
    hide Distinct, Bucket;
  }

  lemma OffChained(chains: seq<seq<Key>>, heads: set<Key>, hash: Key -> nat, k: Key)
    requires Chained(chains, heads, hash)
    ensures Chained(Off(chains, Bucket(hash, k), k), heads - {k}, hash)
  {
    WithoutIs(chains[Bucket(hash, k)], k);
    hide Distinct, Bucket, Without;
  }

  // ---- adding

  function Headed(w: Index, hash: Key -> nat, k: Key): Index
    requires |w.chains| == WATCHHASHSIZE
  {
    if k in w.watchers then w
    else w.(chains := Onto(w.chains, Bucket(hash, k), k), watchers := w.watchers[k := []])
  }

  // add_to_watch_hash_table
  function Added(w: Index, hash: Key -> nat, k: Key, c: User): Index
    requires |w.chains| == WATCHHASHSIZE && c in w.lists && c in w.watches
  {
    var h := Headed(w, hash, k);
    if c in h.watchers[k] then h
    else h.(watchers := h.watchers[k := [c] + h.watchers[k]], lists := h.lists[c := [k] + h.lists[c]],
            watches := h.watches[c := h.watches[c] + 1])
  }

  lemma HeadedKeeps(w: Index, hash: Key -> nat, k: Key)
    requires Good(w, hash)
    ensures |w.chains| == WATCHHASHSIZE
    ensures var h := Headed(w, hash, k);
      && Mirrored(h.watchers, h.lists) && Chained(h.chains, h.watchers.Keys, hash) && k in h.watchers
      && forall x :: x in h.watchers && x != k ==> h.watchers[x] != []
  {
    if k !in w.watchers {
      OntoChained(w.chains, w.watchers.Keys, hash, k);
      Empty(w.watchers, w.lists, k);
      assert w.watchers[k := []].Keys == w.watchers.Keys + {k};
    }
    hide Mirrored, Chained;
  }

  lemma AddedGood(w: Index, hash: Key -> nat, k: Key, c: User)
    requires Good(w, hash) && c in w.lists
    ensures |w.chains| == WATCHHASHSIZE && c in w.watches && Good(Added(w, hash, k, c), hash)
    ensures var t := Added(w, hash, k, c);
      k in t.watchers && c in t.watchers[k] && c in t.lists && k in t.lists[c]
  {
    HeadedKeeps(w, hash, k);
    var h := Headed(w, hash, k);
    assert In(h.watchers, k, c) <==> In(h.lists, c, k);
    if c !in h.watchers[k] {
      assert Distinct(h.watchers[k]) && Distinct(h.lists[c]);
      hide Mirrored, Chained, Distinct, Headed;
      Prepended(h.watchers[k], c);
      Prepended(h.lists[c], k);
      Linked(h.watchers, h.lists, k, c, [c] + h.watchers[k], [k] + h.lists[c]);
      assert h.watchers[k := [c] + h.watchers[k]].Keys == h.watchers.Keys;
    }
    hide Mirrored, Chained, Distinct;
  }

  // ---- deleting

  // The two links gone, and the header with the last of its own.
  function Unwatched(w: Index, hash: Key -> nat, k: Key, c: User): Index
    requires |w.chains| == WATCHHASHSIZE && k in w.watchers && c in w.lists && c in w.watches
  {
    var q := Without(w.watchers[k], c);
    w.(chains := if q == [] then Off(w.chains, Bucket(hash, k), k) else w.chains,
       watchers := if q == [] then w.watchers - {k} else w.watchers[k := q],
       lists := w.lists[c := Without(w.lists[c], k)], watches := w.watches[c := w.watches[c] - 1])
  }

  lemma LinkThere(w: Index, hash: Key -> nat, k: Key, c: User)
    requires Good(w, hash)
    ensures k in w.watchers && c in w.watchers[k] <==> c in w.lists && k in w.lists[c]
    ensures k in w.watchers ==> Distinct(w.watchers[k])
    ensures c in w.lists ==> Distinct(w.lists[c])
    ensures |w.chains| == WATCHHASHSIZE && (c in w.lists <==> c in w.watches)
  {
    assert In(w.watchers, k, c) <==> In(w.lists, c, k);
    hide Distinct;
  }

  lemma UnwatchedGood(w: Index, hash: Key -> nat, k: Key, c: User)
    requires Good(w, hash) && k in w.watchers && c in w.watchers[k]
    ensures |w.chains| == WATCHHASHSIZE && c in w.lists && c in w.watches && Good(Unwatched(w, hash, k, c), hash)
    ensures k in w.lists[c] && |Without(w.lists[c], k)| < |w.lists[c]|
  {
    hide Mirrored, Chained, Distinct, Without;
    LinkThere(w, hash, k, c);
    WithoutIs(w.watchers[k], c);
    WithoutIs(w.lists[c], k);
    Unlinked(w.watchers, w.lists, k, c);
    var q := Without(w.watchers[k], c);
    if q == [] {
      OffChained(w.chains, w.watchers.Keys, hash, k);
      HeaderGone(w.watchers, w.lists[c := Without(w.lists[c], k)], k);
      assert (w.watchers - {k}).Keys == w.watchers.Keys - {k};
    } else {
      assert w.watchers[k := q].Keys == w.watchers.Keys;
    }
  }

  // A header without links can go.
  lemma HeaderGone(a: map<Key, seq<User>>, b: map<User, seq<Key>>, k: Key)
    requires Mirrored(a[k := []], b)
    ensures Mirrored(a - {k}, b)
  {
    var c, d := a[k := []], a - {k};
    hide Distinct;
    forall x, y ensures In(d, x, y) <==> In(b, y, x) { assert In(c, x, y) <==> In(b, y, x); }
    forall x | x in d ensures Distinct(d[x]) { assert c[x] == d[x]; }
  }

  // del_from_watch_hash_table
  function Deleted(w: Index, hash: Key -> nat, k: Key, c: User): Index
    requires |w.chains| == WATCHHASHSIZE && c in w.lists && c in w.watches
  {
    if k in w.watchers && c in w.watchers[k] then Unwatched(w, hash, k, c) else w
  }

  /** The search over the headers finds a nick iff a scan of all the clients' lists does. */
  lemma LookupIsScan(w: Index, hash: Key -> nat, k: Key)
    requires Good(w, hash)
    ensures k in w.watchers <==> exists c :: c in w.lists && k in w.lists[c]
  {
    if k in w.watchers {
      assert w.watchers[k] != [];
      var c := w.watchers[k][0];
      assert In(w.watchers, k, c) <==> In(w.lists, c, k);
    }
    if c :| c in w.lists && k in w.lists[c] {
      assert In(w.watchers, k, c) <==> In(w.lists, c, k);
    }
  }

  lemma AddedIs(w: Index, hash: Key -> nat, k: Key, c: User)
    requires Good(w, hash) && c in w.lists
    ensures |w.chains| == WATCHHASHSIZE && c in w.watches
    ensures var t := Added(w, hash, k, c);
      if k in w.lists[c] then t == w
      else
        && t.lists == w.lists[c := [k] + w.lists[c]] && t.watches == w.watches[c := w.watches[c] + 1]
        && t.watchers == w.watchers[k := [c] + if k in w.watchers then w.watchers[k] else []]
        && t.chains == (if k in w.watchers then w.chains
                        else w.chains[hash(k) % 10007 := [k] + w.chains[hash(k) % 10007]])
  {
    LinkThere(w, hash, k, c);
    hide Good;
  }

  lemma DeletedIs(w: Index, hash: Key -> nat, k: Key, c: User)
    requires Good(w, hash) && c in w.lists
    ensures |w.chains| == WATCHHASHSIZE && c in w.watches
    ensures var t := Deleted(w, hash, k, c);
      if k !in w.lists[c] then t == w
      else
        && k in w.watchers
        && t.lists == w.lists[c := Without(w.lists[c], k)] && t.watches == w.watches[c := w.watches[c] - 1]
        && t.watchers == (if w.watchers[k] == [c] then w.watchers - {k}
                          else w.watchers[k := Without(w.watchers[k], c)])
  {
    LinkThere(w, hash, k, c);
    hide Good;
    if k in w.lists[c] {
      OnlyOne(w.watchers[k], c);
    }
  }

  lemma OnlyOne(q: seq<User>, c: User)
    requires c in q && Distinct(q)
    ensures Without(q, c) == [] <==> q == [c]
  {
    WithoutIs(q, c);
  }

  class Tables {
    var chains: seq<seq<Key>>
    var watchers: map<Key, seq<User>>
    var lists: map<User, seq<Key>>
    var watches: map<User, int>
    const hash: Key -> nat

    ghost function W(): Index
      reads this
    {
      Index(chains, watchers, lists, watches)
    }

    constructor (hash: Key -> nat)
      ensures Good(W(), this.hash) && this.hash == hash && watchers == map[]
    {
      this.hash := hash;
      chains := seq(WATCHHASHSIZE, i => []);
      watchers, lists, watches := map[], map[], map[];
    }

    method AddUser(c: User)
      requires Good(W(), hash) && c !in lists
      modifies this`lists, this`watches
      ensures Good(W(), hash) && lists == old(lists)[c := []]
    {
      hide Distinct, Chained;
      Turned(watchers, lists);
      Empty(lists, watchers, c);
      hide Mirrored;
      lists, watches := lists[c := []], watches[c := 0];
    }

    // The search along a chain.
    method Find(k: Key) returns (found: bool)
      requires Good(W(), hash)
      ensures found <==> k in watchers
    {
      var b := hash(k) % WATCHHASHSIZE;
      var i := 0;
      while i < |chains[b]| && chains[b][i] != k
        invariant 0 <= i <= |chains[b]| && k !in chains[b][..i]
      {
        assert chains[b][..i + 1] == chains[b][..i] + [chains[b][i]];
        i := i + 1;
      }
      found := i < |chains[b]|;
      if !found { assert chains[b][..i] == chains[b]; }
      assert b == Bucket(hash, k);
    }

    /** hash_get_watch: there is a header for a nick iff some client watches it. */
    method GetWatch(nick: string) returns (found: bool)
      requires Good(W(), hash)
      ensures found <==> exists c :: c in lists && Lower(nick) in lists[c]
    {
      LookupIsScan(W(), hash, Lower(nick));
      found := Find(Lower(nick));
    }

    // A header for a nick that has none.
    method MakeHeader(k: Key)
      requires |chains| == WATCHHASHSIZE
      modifies this`chains, this`watchers
      ensures W() == Headed(old(W()), hash, k)
    {
      if k !in watchers {
        chains := Onto(chains, Bucket(hash, k), k);
        watchers := watchers[k := []];
      }
    }

    // A new watch goes in front on both sides, and counts; nothing else changes.
    method AddWatch(nick: string, c: User)
      requires Good(W(), hash) && c in lists
      modifies this
      ensures |old(chains)| == WATCHHASHSIZE && c in old(lists) && c in old(watches)
      ensures W() == Added(old(W()), hash, Lower(nick), c) && Good(W(), hash)
      ensures var k := Lower(nick);
        if k in old(lists[c]) then W() == old(W())
        else
          && lists == old(lists)[c := [k] + old(lists[c])] && watches == old(watches)[c := old(watches[c]) + 1]
          && watchers == old(watchers)[k := [c] + if k in old(watchers) then old(watchers[k]) else []]
          && chains == (if k in old(watchers) then old(chains)
                        else old(chains)[hash(k) % 10007 := [k] + old(chains)[hash(k) % 10007]])
    {
      hide Good, Lower, Added, Bucket;
      AddedIs(W(), hash, Lower(nick), c);
      AddedGood(W(), hash, Lower(nick), c);
      LinkUp(Lower(nick), c);
    }

    // A header if there is none, and the two links of a watch unless there.
    method LinkUp(k: Key, c: User)
      requires Good(W(), hash) && c in lists
      modifies this
      ensures |old(chains)| == WATCHHASHSIZE && c in old(lists) && c in old(watches)
      ensures W() == Added(old(W()), hash, k, c)
    {
      hide Good, Headed, Mirrored, Chained;
      AddedGood(W(), hash, k, c);
      HeadedKeeps(W(), hash, k);
      MakeHeader(k);
      if c !in watchers[k] {
        watchers := watchers[k := [c] + watchers[k]];
        lists := lists[c := [k] + lists[c]];
        watches := watches[c := watches[c] + 1];
      }
    }

    // The two links of a watch.
    method LinksOff(k: Key, c: User)
      requires k in watchers && c in lists
      modifies this`watchers, this`lists
      ensures watchers == old(watchers)[k := Without(old(watchers)[k], c)]
      ensures lists == old(lists)[c := Without(old(lists)[c], k)]
    {
      hide Without;
      var q := Unlink(watchers[k], c);
      watchers := watchers[k := q];
      var p := Unlink(lists[c], k);
      lists := lists[c := p];
    }

    // The two links of a watch, and the header if it was the last.
    method Unwatch(k: Key, c: User)
      requires Good(W(), hash) && k in watchers && c in watchers[k]
      modifies this
      ensures |old(chains)| == WATCHHASHSIZE && c in old(lists) && c in old(watches) && k in old(watchers)
      ensures W() == Unwatched(old(W()), hash, k, c) && Good(W(), hash)
    {
      hide Good, Without, Bucket;
      UnwatchedGood(W(), hash, k, c);
      WithoutKey(watchers, k, Without(watchers[k], c));
      LinksOff(k, c);
      if watchers[k] == [] {
        var b := Bucket(hash, k);
        BucketSmall(hash, k);
        var chain := Unlink(chains[b], k);
        chains := chains[b := chain];
        watchers := watchers - {k};
      }
      watches := watches[c := watches[c] - 1];
    }

    // A watch goes on both sides, and the nick's header with its last; nothing else changes.
    method DelWatch(nick: string, c: User)
      requires Good(W(), hash) && c in lists
      modifies this
      ensures |old(chains)| == WATCHHASHSIZE && c in old(lists) && c in old(watches)
      ensures W() == Deleted(old(W()), hash, Lower(nick), c) && Good(W(), hash)
      ensures var k := Lower(nick);
        if k !in old(lists[c]) then W() == old(W())
        else
          && k in old(watchers)
          && lists == old(lists)[c := Without(old(lists[c]), k)] && watches == old(watches)[c := old(watches[c]) - 1]
          && watchers == (if old(watchers[k]) == [c] then old(watchers) - {k}
                          else old(watchers)[k := Without(old(watchers[k]), c)])
    {
      LinkThere(W(), hash, Lower(nick), c);
      DeletedIs(W(), hash, Lower(nick), c);
      var found := Find(Lower(nick));
      hide Good, Lower, Unwatched;
      if !found { return; }
      if c !in watchers[Lower(nick)] { return; }
      Unwatch(Lower(nick), c);
    }

    /** hash_del_watch_list: the client watches nothing, no header keeps it, and no other watch has changed. */
    method DelWatchList(c: User)
      requires Good(W(), hash) && c in lists
      modifies this
      ensures Good(W(), hash) && lists == old(lists)[c := []] && c in watches && watches[c] == 0
      ensures forall k :: k in watchers ==> k in old(watchers) && watchers[k] == Without(old(watchers)[k], c)
      ensures forall k :: k in old(watchers) && k !in watchers ==> Without(old(watchers)[k], c) == []
    {
      hide Good, Without, Unwatched, Distinct, LessOf;
      NothingLess(watchers, c);
      while lists[c] != []
        invariant Good(W(), hash) && c in lists && lists == old(lists)[c := lists[c]]
        invariant LessOf(old(watchers), watchers, c)
        decreases |lists[c]|
      {
        var k := lists[c][0];
        LinkThere(W(), hash, k, c);
        UnwatchedGood(W(), hash, k, c);
        UnwatchedIs(W(), hash, k, c);
        LessMore(old(watchers), W(), hash, k, c);
        Unwatch(k, c);
      }
      NotWatching(W(), hash, c);
      LessIs(old(watchers), W(), hash, c);
    }
  }

  // Some of the links to c are gone, and the headers that had no other.
  ghost predicate LessOf(was: map<Key, seq<User>>, now: map<Key, seq<User>>, c: User) {
    && (forall k :: k in now ==> k in was && Without(now[k], c) == Without(was[k], c))
    && forall k :: k in was && k !in now ==> Without(was[k], c) == []
  }

  lemma NothingLess(a: map<Key, seq<User>>, c: User)
    ensures LessOf(a, a, c)
  {
  }

  lemma LessMore(was: map<Key, seq<User>>, w: Index, hash: Key -> nat, k: Key, c: User)
    requires Good(w, hash) && LessOf(was, w.watchers, c) && k in w.watchers && c in w.watchers[k]
    requires |w.chains| == WATCHHASHSIZE && c in w.lists && c in w.watches
    ensures LessOf(was, Unwatched(w, hash, k, c).watchers, c)
  {
    LinkThere(w, hash, k, c);
    hide Good, Without, Unwatched, Distinct;
    UnwatchedIs(w, hash, k, c);
    WithoutTwice(w.watchers[k], c);
  }

  lemma LessIs(was: map<Key, seq<User>>, w: Index, hash: Key -> nat, c: User)
    requires Good(w, hash) && c in w.lists && w.lists[c] == [] && LessOf(was, w.watchers, c)
    ensures forall k :: k in w.watchers ==> k in was && w.watchers[k] == Without(was[k], c)
    ensures forall k :: k in was && k !in w.watchers ==> Without(was[k], c) == []
  {
    NotWatching(w, hash, c);
    hide Good, Without;
  }

  lemma WithoutKey(a: map<Key, seq<User>>, k: Key, q: seq<User>)
    ensures a[k := q] - {k} == a - {k}
  {
  }

  lemma BucketSmall(hash: Key -> nat, k: Key)
    ensures Bucket(hash, k) < WATCHHASHSIZE
  {
  }

  lemma Turned(a: map<Key, seq<User>>, b: map<User, seq<Key>>)
    requires Mirrored(a, b)
    ensures Mirrored(b, a)
  {
  }

  lemma WithoutTwice(q: seq<User>, c: User)
    requires Distinct(q)
    ensures Without(Without(q, c), c) == Without(q, c)
  {
    WithoutIs(q, c);
    WithoutNone(Without(q, c), c);
  }

  // What taking one watch off changes.
  lemma UnwatchedIs(w: Index, hash: Key -> nat, k: Key, c: User)
    requires |w.chains| == WATCHHASHSIZE && k in w.watchers && c in w.lists && c in w.watches
    ensures var t := Unwatched(w, hash, k, c);
      && t.lists == w.lists[c := Without(w.lists[c], k)]
      && (forall x :: x in t.watchers ==>
          x in w.watchers && t.watchers[x] == if x == k then Without(w.watchers[k], c) else w.watchers[x])
      && (forall x :: x in w.watchers && x !in t.watchers ==> x == k && Without(w.watchers[k], c) == [])
  {
    hide Without;
  }

  lemma NotWatching(w: Index, hash: Key -> nat, c: User)
    requires Good(w, hash) && c in w.lists && w.lists[c] == []
    ensures c in w.watches && w.watches[c] == 0
    ensures forall k :: k in w.watchers ==> Without(w.watchers[k], c) == w.watchers[k]
  {
    forall k | k in w.watchers ensures Without(w.watchers[k], c) == w.watchers[k] {
      LinkThere(w, hash, k, c);
      WithoutNone(w.watchers[k], c);
    }
  }
}
