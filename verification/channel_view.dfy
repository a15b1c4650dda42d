/**
 * What two servers must agree on about a channel, and the effect of a line on it. A view forgets the order
 * of the member list and the local DEOPPED flag; an offer is the content of a line.
 */
module ChannelView {
  import opened Text
  import opened ChannelModel

  datatype Grant = Grant(adm: bool, op: bool, voice: bool)

  const PLAIN := Grant(false, false, false)

  type Statuses = map<string, Grant>

  datatype View = View(ts: nat, mode: Mode, status: Statuses)

  datatype Offer = Offer(ts: nat, mode: Mode, grants: Statuses, doesOp: bool)

  function GrantOf(f: Flags): Grant {
    Grant(f.adm, f.op, f.voice)
  }

  function StatusMap(ms: seq<Member>): Statuses {
    if ms == [] then map[] else StatusMap(ms[1..])[ms[0].nick := GrantOf(ms[0].flags)]
  }

  function ViewOf(c: Chan): View {
    View(c.ts, c.mode, StatusMap(c.members))
  }

  function ViewOfOption(c: Option<Chan>): Option<View> {
    if c.None? then None else Some(ViewOf(c.value))
  }

  function TokenGrants(tokens: seq<string>): Statuses {
    if tokens == [] then map[]
    else
      var m := ReadToken(tokens[0], NO_FLAGS);
      TokenGrants(tokens[1..])[m.nick := GrantOf(m.flags)]
  }

  // What an accepted line says.
  function OfferOf(line: Line): Option<Offer> {
    match ParseModes(line.modes, line.params, NO_MODE, 0)
    case None => None
    case Some((mode, args)) =>
      var tokens := NickList(line, args);
      Some(Offer(line.ts, mode, TokenGrants(tokens), DoesOp(tokens)))
  }

  predicate Opped(s: Statuses) {
    exists n :: n in s && s[n].op
  }

  function Strip(s: Statuses): Statuses {
    map n | n in s :: PLAIN
  }

  function Offered(grants: Statuses, keepNew: bool): Statuses {
    if keepNew then grants else Strip(grants)
  }

  function VerdictOn(before: Option<View>, o: Offer): Verdict {
    var ours := if before.Some? then before.value else View(0, NO_MODE, map[]);
    Judge(before.None?, o.ts, ours.ts, Opped(ours.status), o.doesOp)
  }

  /** A line's effect on a view: m_sjoin, seen through ViewOf. Users already on the channel keep their status. */
  function Step(before: Option<View>, o: Offer): View {
    var ours := if before.Some? then before.value else View(0, NO_MODE, map[]);
    var v := VerdictOn(before, o);
    View(v.ts,
         ChooseMode(v, o.mode, ours.mode),
         Offered(o.grants, v.keepNew) + (if v.keepOurs then ours.status else Strip(ours.status)))
  }

  // ---- ViewOf commutes with one line

  lemma {:induction false} StatusMapKeys(ms: seq<Member>)
    ensures StatusMap(ms).Keys == Nicks(ms)
  {
    if ms != [] {
      StatusMapKeys(ms[1..]);
      assert Nicks(ms) == Nicks(ms[1..]) + {ms[0].nick} by {
        forall n | n in Nicks(ms) ensures n in Nicks(ms[1..]) + {ms[0].nick} {
          var i :| 0 <= i < |ms| && ms[i].nick == n;
          if i > 0 { assert ms[1..][i - 1].nick == n; }
        }
        forall n | n in Nicks(ms[1..]) ensures n in Nicks(ms) {
          var i :| 0 <= i < |ms[1..]| && ms[1..][i].nick == n;
          assert ms[i + 1].nick == n;
        }
        assert ms[0].nick in Nicks(ms);
      }
    }
  }

  lemma {:induction false} StatusMapAt(ms: seq<Member>, i: nat)
    requires Distinct(ms) && i < |ms|
    ensures ms[i].nick in StatusMap(ms) && StatusMap(ms)[ms[i].nick] == GrantOf(ms[i].flags)
  {
    if i > 0 {
      StatusMapAt(ms[1..], i - 1);
    }
  }

  lemma OpsSeen(ms: seq<Member>)
    requires Distinct(ms)
    ensures HasOps(ms) <==> Opped(StatusMap(ms))
  {
    if HasOps(ms) {
      var i :| 0 <= i < |ms| && ms[i].flags.op;
      StatusMapAt(ms, i);
    }
    if Opped(StatusMap(ms)) {
      StatusMapKeys(ms);
      var n :| n in StatusMap(ms) && StatusMap(ms)[n].op;
      var i :| 0 <= i < |ms| && ms[i].nick == n;
      StatusMapAt(ms, i);
    }
  }

  lemma {:induction false} StripSeen(ms: seq<Member>)
    ensures StatusMap(StripMembers(ms)) == Strip(StatusMap(ms))
    ensures Nicks(StripMembers(ms)) == Nicks(ms)
    ensures Distinct(ms) ==> Distinct(StripMembers(ms))
  {
    if ms != [] {
      StripSeen(ms[1..]);
      assert StripMembers(ms)[1..] == StripMembers(ms[1..]);
    }
    StatusMapKeys(ms);
    StatusMapKeys(StripMembers(ms));
  }

  // One new member in front: the list stays duplicate-free, and the map gains one entry.
  lemma PrependSeen(ms: seq<Member>, m: Member)
    requires Distinct(ms) && m.nick !in Nicks(ms)
    ensures Distinct([m] + ms)
    ensures StatusMap([m] + ms) == StatusMap(ms)[m.nick := GrantOf(m.flags)]
  {
    var joined := [m] + ms;
    assert joined[1..] == ms;
    forall i, j | 0 <= i < j < |joined| ensures joined[i].nick != joined[j].nick {
      if i == 0 { assert ms[j - 1].nick in Nicks(ms); }
    }
  }

  lemma PutMoves<K, V>(a: map<K, V>, b: map<K, V>, k: K, v: V)
    ensures k in b ==> a[k := v] + b == a + b
    ensures k !in b ==> a[k := v] + b == a + b[k := v]
  {
  }

  lemma OfferedPut(grants: Statuses, n: string, g: Grant, keepNew: bool)
    ensures Offered(grants[n := g], keepNew) == Offered(grants, keepNew)[n := if keepNew then g else PLAIN]
  {
  }

  lemma {:induction false} JoinSeen(ms: seq<Member>, tokens: seq<string>, reachable: set<string>, keepNew: bool)
    requires Distinct(ms) && TokenGrants(tokens).Keys <= reachable
    ensures StatusMap(JoinAll(ms, tokens, reachable, keepNew)) == Offered(TokenGrants(tokens), keepNew) + StatusMap(ms)
    ensures Distinct(JoinAll(ms, tokens, reachable, keepNew))
    decreases tokens
  {
    if tokens != [] {
      var m := ReadToken(tokens[0], NO_FLAGS);
      var rest := TokenGrants(tokens[1..]);
      var joiner := Member(m.nick, Granted(keepNew, m.flags));
      StatusMapKeys(ms);
      assert m.nick in TokenGrants(tokens).Keys && rest.Keys <= TokenGrants(tokens).Keys;
      OfferedPut(rest, m.nick, GrantOf(m.flags), keepNew);
      PutMoves(Offered(rest, keepNew), StatusMap(ms), m.nick, GrantOf(joiner.flags));
      if m.nick !in Nicks(ms) {
        PrependSeen(ms, joiner);
        JoinSeen([joiner] + ms, tokens[1..], reachable, keepNew);
      } else {
        JoinSeen(ms, tokens[1..], reachable, keepNew);
      }
    }
  }

  ghost predicate Reachable(line: Line, reachable: set<string>) {
    OfferOf(line).Some? ==> OfferOf(line).value.grants.Keys <= reachable
  }

  /** m_sjoin refines Step: on every existing or new channel, and every line whose nicks all resolve. */
  lemma SjoinIsStep(before: Option<Chan>, line: Line, reachable: set<string>)
    requires before.Some? ==> Distinct(before.value.members)
    requires Reachable(line, reachable)
    ensures OfferOf(line).None? <==> Sjoin(before, line, reachable).Rejected?
    ensures OfferOf(line).Some? ==>
              && ViewOf(Sjoin(before, line, reachable).chan) == Step(ViewOfOption(before), OfferOf(line).value)
              && Distinct(Sjoin(before, line, reachable).chan.members)
  {
    if OfferOf(line).Some? {
      var ours := if before.Some? then before.value else Chan(0, NO_MODE, []);
      var (mode, args) := ParseModes(line.modes, line.params, NO_MODE, 0).value;
      var tokens := NickList(line, args);
      var v := Judge(before.None?, line.ts, ours.ts, HasOps(ours.members), DoesOp(tokens));
      OpsSeen(ours.members);
      StripSeen(ours.members);
      JoinSeen(if v.keepOurs then ours.members else StripMembers(ours.members), tokens, reachable, v.keepNew);
    }
  }
}
