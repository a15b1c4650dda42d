# Verified models of ptlink-ircd's servers, resolver and crypt

Dafny models of the parts of an IRC daemon and of its bundled asynchronous resolver in which state, branching or
arithmetic make the code hard to trust by reading, with proofs of what each part is for:

* **Channel protocol** (`src/channel.c`): the timestamped merge of channels when servers link, the lines a burst is
  printed as, the relaying of lines through a tree of servers, and the graph of members and invites.
* **Resolver queries** (`adns/`): the life of a query between the queues, its children, replies, timeouts and
  cancellation, over arbitrary runs.
* **crypt** (`src/crypt.c`): the table-driven cipher with its cached key and salt against the bit-level definition of
  FIPS PUB 46-3.
* **Buffers** (`src/dbuf.c`): chunk lists sharing a free list against plain byte sequences, and line framing.
* **Names on the wire** (`adns/parse.c`, `adns/transmit.c`): quoting, reading, compression and comparison of DNS names
  (RFC 1035, sections 2.3.3, 3.1, 4.1.4 and 5.1).
* **Linked indexes** (`src/client.c`, `src/hash.c`, `src/dline_conf.c`): client lists and the exit of a server's
  dependants, watch lists, and the D-line search trees with their oracle.

Code that changes state step by step is a class whose methods are proved equal to a function of the old state;
what the code promises is then proved about that function, over every input, every interleaving or every run, and what
a call answers is stated outright, without the function, in the method or in a lemma beside it. Pure definitions and
lemmas about them come first in each group of files, the classes last. The channel code is modelled
with neither TS5 nor HALFOPS defined.

`dafny verify dfyconfig.toml` checks the whole project.

## Findings

Where the code does not do what it, its comments or its documentation say, the code is modelled as it is. The input
that shows it and the condition under which the promise holds are proved.

* **Order of arrival matters.** doc/README.TSora says that servers end with the same channel in whatever order lines
  arrive. `ChannelOrderAll.HarmShows` gives two orders that end differently for every set of lines for which this is
  not so; `ChannelOrderAll.AnyOrder` and `ChannelOrderAll.AnyArrival`: lines agree in every order if and only if the
  lines that are merged in some orders only bring nothing that those merged in every order do not. When each line gives
  somebody a status, that is when they commute (`ChannelOrderExact.OrderIndependence`). The rule for a timestamp of zero
  also differs from that document: the code keeps both sides' modes and statuses (src/channel.c:4920-4921).
* **A negative limit parts servers that agreed.** `ChannelRelay.NegativeLimitDesyncs` gives a channel, a line `l -1`
  and a later line after which two servers that agreed have limits -1 and 0; `ChannelRelay.RelayKeepsStep` shows that
  a hop keeps servers in step exactly when the limit is not negative, the line's modes count, or the channel is new.
* **Servers that disagree about +f keep disagreeing.** Of two flood limits m_sjoin keeps its own, where it takes the
  greater of everything else (src/channel.c:4972-4975). `ChannelRate.RatesPart` gives two channels that, linked, agree
  on all but the limit; `ChannelRate.RatedBurstsConverge`: the limits agree exactly when one description beats the
  other, or neither the numbers of messages nor the seconds contradict each other. `ChannelZones.RatedZonesConverge`
  has the same for trees of servers, `ChannelRate.RatedRelayKeepsStep` for one line passed on.
* **A flood limit can be too long for its buffer.** channel_modes prints it into six bytes (src/channel.c:781, 851).
  `ChannelRate.RateTextFits`: that is enough exactly when one of the numbers has a single digit and the other at most
  two characters; `ChannelRate.RateTextTooLong` gives one that a user may set and that takes seven.
* **A line passed on can outgrow its buffer.** m_sjoin passes a line on with the merged modes, which may be longer than
  those it came with (src/channel.c:5553-5563). `ChannelLengths.RelayFits`: a line that leaves 101 characters of the
  buffer is passed on within it; `ChannelLengths.RelayTooLong` gives a line and a channel for which it is not.
* **A search shares out its sends.** A query whose name does not exist goes on with the next name of its search, but
  its count of sends is not set back (adns/reply.c:264-265). `AdnsSearch.LaterName`: if nobody answers, the names tried
  next get exactly what the earlier ones have left of fifteen datagrams; with none left the query times out at once.
* **A D-line entered for a nickname can miss its client.** `m_kline` enters the client's own address with a 24-bit mask
  (src/m_kline.c:1121-1122, 1193-1196), and the sum that goes into the oracle then carries:
  `DlineBlocks.EntryCanMissItself` gives an address that is refused. `DlineBlocks.OracleExact`: an entry's oracle bits
  pass every address of its block exactly when the entry's own address has no bit outside its mask.
* **Adding a wider D-line can drop others.** delete_ip_subtree does not reattach what lay between a removed node's
  child and its predecessor or successor. `DlineTable.CanDropANode` gives a tree that loses a block;
  `DlineTree.DeletedExact` and `DlineTable.AddedCovers`: nothing is lost exactly when, at every node removed, the child
  on the side the coin picked has no child towards that node. Without a loss, no exception is lost either
  (`DlineTable.InheritedHeld`).
* **A D-line with a prefix shorter than eight bits** is stored in one of 256 trees and cannot cover the rest of its
  block (`DlineBlocks.OneHead`).
* **Printed names do not all read back.** The printer writes a byte that needs a number in octal
  (adns/parse.c:43), the reader takes three decimal digits (adns/transmit.c:102). `DnsQuery.NameSurvives`: a name comes
  back exactly when all its bytes are printing or less than 8.
* **add_client_to_llist can make a list endless.** Its test for a client that is on a list already is wrong for a
  client alone on its list (`ClientLinks.TestTellsTruth`, exactly then), and adding that one again links it to itself
  (`ClientLinks.PutTwice`).
* **The space at the end of a burst line stays.** The test that should take it away looks at the terminator
  (src/channel.c:980-981, 990-991); `ChannelBurst.SendChannelModes` shows that the line still fits its buffer.

## Model

| member | source | states |
|---|---|---|
| `ChannelPrint.ReadsPrintedModes` | src/channel.c:779-844 | The mode word and parameters that channel_modes prints are read by m_sjoin as the same letters, limit and key, with every parameter used |
| `ChannelBurst.ChannelModes` | src/channel.c:779-860 | The mode word and the parameters printed for another server, the flood limit last |
| `ChannelBurst.SendChannelModes` | src/channel.c:921-998 | Nothing for a name without #; otherwise the lines sent hold every member exactly once, an operator first if there is one, modes on the first line only, and each text, under the sizes the server guarantees, fits BUFSIZE |
| `ChannelBurst.PrintedLine` | src/channel.c:921-998 | The text of a line, letter by letter, for a channel with five letters, a limit, a key, a flood limit and three members |
| `ChannelBurst.Advance` | src/channel.c:951-966 | The pointer dance picks the next member in that order, and ends after the last |
| `ChannelBurst.FindOp` | src/channel.c:939-944 | The first operator on the list, or none |
| `ChannelPrint.BurstOrderIsMembers` | src/channel.c:936-966 | The order members are printed in is a permutation of the member list, and starts with an operator iff there is one |
| `ChannelConvergence.BurstDescribes` | src/channel.c:921-998 | The lines of a burst, wherever it was cut, read back as exactly the timestamp, modes and statuses of the channel printed |
| `ChannelConvergence.BurstRebuildsChannel` | src/channel.c:921-998 | A server without the channel that processes a burst ends with the sender's timestamp, modes, members and statuses |
| `ChannelConvergence.SecondLineAddsMembers` | src/channel.c:4907-4962 | A second line of a burst, with the same timestamp and no modes, adds its members with their statuses to what the first line did |
| `ChannelConvergence.BurstIsWhole` | src/channel.c:4885-4977 | Processing the lines of a burst one by one has the effect of the whole description at once |
| `ChannelConvergence.WholeStepsCommute` | src/channel.c:4907-4977 | Two descriptions with disjoint members, each merged into the other, give the same channel |
| `ChannelConvergence.BurstsConverge` | src/channel.c:4885-4977 | Two servers with any descriptions of one channel, any timestamps with zero, any modes, disjoint members, that each process every line of the other's burst end with equal timestamp, modes, members and statuses |
| `ChannelView.SjoinIsStep` | src/channel.c:4885-5624 | What m_sjoin makes of any line whose nicks resolve, seen without the order of the member list, is a function of what was seen before and what the line offers |
| `ChannelServer.Channel.CompareTs` | src/channel.c:4914-4962 | New timestamp, timestamp to pass on, and whose modes and statuses survive, by the comparison of the timestamps and of who has or brings operators |
| `ChannelServer.Channel.MergeModes` | src/channel.c:4963-4977 | The modes kept: ours, the line's, or the union of letters with the greater limit, of the flood limit our messages and seconds where we have them, and our key if, at the first place where the two differ, the line's has ended or has the smaller character, else the line's |
| `ChannelServer.Channel.Strip` | src/channel.c:5426-5537 | Every member loses admin, operator and voice, and nothing else changes |
| `ChannelServer.ParseModeWord` | src/channel.c:4787-4877 | The mode word letter by letter: letters, limit, key and flood limit from the parameters in turn, refusal when a parameter is missing, and a flood limit without a colon passed over |
| `ChannelServer.LetterStep` | src/channel.c:4787-4877 | One letter: a key keeps the first 23 characters of its parameter, a limit is its parameter read as a number, either is refused without one, and any other mode letter is added |
| `ChannelServer.ParseToken` | src/channel.c:5571-5593 | The longest run of the characters . @ + in front gives admin, operator and voice, each by its own character, and the rest is the nick |
| `ChannelServer.NickStep` | src/channel.c:5568-5624 | One nick: if new it goes in front, with its statuses if the line won, and else with none, marked as deopped if it was to be an operator and no admin; and it is passed on with its prefixes, or bare if the line lost |
| `ChannelServer.Server.JoinNicks` | src/channel.c:5568-5624 | The nicks known through the link join in front, with their statuses if the line won, and are passed on, without statuses if it lost |
| `ChannelServer.Server.CheckChannelName` | src/channel.c:2942-2951 | True if and only if every character of the name is in the table |
| `ChannelServer.Server.MSjoin` | src/channel.c:4767-5724 | A line from a user, for a name that is no global channel's, or short of a parameter changes nothing; any other gives the channel and the line for the next server as the comparison of both sides prescribes |
| `ChannelServer.UnusedParameter` | src/channel.c:4787-4877 | A parameter that the mode word has no use for is taken for the nick list |
| `ChannelOrder.TimestampClosedForm` | src/channel.c:4907-4962 | After any op-first lines with positive timestamps, in any order, the channel has operators iff some line opped someone, and its timestamp is the least of those that did, or of all if none did |
| `ChannelOrder.AllMerged` | src/channel.c:4914-4977 | When no line can lose, the channel is the union of letters, the greatest limit and key and every status, in any order |
| `ChannelOrder.LeadersMerged` | src/channel.c:4914-4977 | When an operator's line with the least timestamp leads, the channel has the modes of the lines with that timestamp, and only their members keep statuses |
| `ChannelOrder.CommutingOrdersAgree` | src/channel.c:4914-4977 | Lines that commute give the same channel in any two orders |
| `ChannelOrderExact.OrdersDisagree` | src/channel.c:4914-4977 | Lines that do not commute have two orders that give different channels |
| `ChannelOrderExact.OrderIndependence` | src/channel.c:4914-4977 | For op-first offers with disjoint members, each giving somebody a status, every order gives one channel if and only if the offers commute |
| `ChannelOrderExact.CommutingLinesAgree` | src/channel.c:4885-5624 | Lines that commute make the same channel in every order they arrive in, whether or not they give anyone a status |
| `ChannelOrderExact.ArrivalOrder` | src/channel.c:4885-5624 | What a set of lines, each giving somebody a status, makes of a channel that does not exist yet is independent of the order they arrive in if and only if they commute |
| `ChannelOrderAll.Survivors` | src/channel.c:4914-4977 | Any run of any of the lines keeps the modes and statuses of the steady lines and, once the oldest operators have come, of none that is always lost |
| `ChannelOrderAll.HarmlessOrdersAgree` | src/channel.c:4914-4977 | Lines of which those that waver bring nothing more give the same channel in any order |
| `ChannelOrderAll.HarmShows` | src/channel.c:4914-4977 | Lines of which one that wavers brings something more have two orders that give different channels |
| `ChannelOrderAll.AnyOrder` | src/channel.c:4914-4977 | For any op-first offers with disjoint members every order gives the same timestamp, modes, members and statuses if and only if those merged in some orders only bring nothing that those merged in every order do not |
| `ChannelOrderAll.AnyArrival` | src/channel.c:4885-5624 | The same of lines as they arrive at a channel that does not exist yet, whatever statuses they give |
| `ChannelRelay.RelayKeepsStep` | src/channel.c:5553-5723 | Two servers that agree, the first processing any line with a nick whose nicks resolve and the second the line the first passes on, agree again if and only if the channel is new, its limit is not negative or the line's modes count; the line passed on is again such a line |
| `ChannelRelay.NegativeLimitDesyncs` | src/channel.c:4964-4977 | A channel, a line with limit -1 and a later line after which two servers that agreed differ |
| `ChannelRelay.FloodKeepsStep` | src/channel.c:5553-5723 | In a tree of agreeing servers every server agrees again after any such line has flooded the tree through the lines passed on |
| `ChannelRelay.ZonesConverge` | src/channel.c:4885-5723 | Two trees, each agreeing, linked at their roots: after each root's burst has flooded the other tree every server of both has the same view |
| `ChannelRate.ReadsRatedModes` | src/channel.c:846-855 | The mode word and parameters printed with a flood limit are read back as the same modes and, if it has messages, the same limit, with every parameter used |
| `ChannelRate.SjoinIgnoresRate` | src/channel.c:4856-4875 | Whatever flood limit a line carries, the channel it makes and the nicks passed on are those of the same line without it |
| `ChannelRate.RatedBurstEffect` | src/channel.c:4963-4977 | A burst with a flood limit leaves the channel that the burst without it leaves, and the limit merged once, as its first line compares |
| `ChannelRate.RatedBurstsConverge` | src/channel.c:4963-4977 | Two servers with any channels of disjoint members and any flood limits, that process each other's burst, agree on the channel, and on the limit if and only if one description beats the other or the limits do not contradict each other |
| `ChannelRate.RatesPart` | src/channel.c:4972-4975 | Two channels and their bursts after which the servers agree on everything but the flood limit |
| `ChannelRate.RateTextFits` | src/channel.c:846-853 | The text of a flood limit, with its space and terminator, fits tmppbuf if and only if one number has a single digit and the other at most two characters |
| `ChannelRate.RateTextTooLong` | src/channel.c:846-853 | A flood limit a user may set whose text takes one byte more than tmppbuf has |
| `ChannelRate.RatedRelayKeepsStep` | src/channel.c:5553-5560 | Two servers that agree, the second processing what the first passes on for a line, agree on the channel as without the flood limit, and on the limit if and only if the line lost or has no modes, the limit it leads to can be printed, or its seconds were the first server's own |
| `ChannelZones.RatedFloodKeepsStep` | src/channel.c:5553-5723 | In a tree of servers that agree on the channel and on the flood limit they agree again on both after a line has flooded the tree through the lines passed on |
| `ChannelZones.RatedBurstFloods` | src/channel.c:4885-5723 | After a burst has flooded an agreeing tree every server has the same view of the channel and the same flood limit, merged once |
| `ChannelZones.RatedZonesConverge` | src/channel.c:4885-5723 | Two agreeing trees linked at their roots: after each root's burst has flooded the other tree all servers agree on the channel, each tree on its flood limit, and the two trees on the limit if and only if the roots' limits do not contradict each other or one description beats the other |
| `ChannelLengths.RelayFits` | src/channel.c:5553-5624 | The line passed on is at most 101 characters longer than the line received, so a line that leaves as much room is passed on within the buffer |
| `ChannelLengths.RelayTooLong` | src/channel.c:5553-5624 | A line of 492 characters and a channel with a key for which the line passed on has 517 |
| `Text.AtoiUndoesPrint` | src/channel.c:4817-4821 | The number printed for a limit is read back |
| `Text.MaxKeyJoin` | src/channel.c:4972-4976 | The greater of two keys by strcmp is a join: commutative, associative, idempotent, the empty key least |
| `Text.LessAtFirstDifference` | src/channel.c:4970-4971 | One key is less than another if and only if, at the first place where they differ, it has ended or has the smaller character |
| `ChannelGraph.Lists.AddUser` | src/channel.c:515-539 | A user not on the channel is on both lists, once, and both counters have gone up |
| `ChannelGraph.Lists.RemoveUser` | src/channel.c:541-573 | The user is off both lists; the last member takes a channel that is not persistent along |
| `ChannelGraph.Lists.GetChannel` | src/channel.c:2957-3002 | No name has no channel; a local client's name is cut; then the channel of that name, or with CREATE a new empty one at the head of the list, stamped with the time |
| `ChannelGraph.Lists.AddInvite` | src/channel.c:3004-3038 | The invite is on both lists once, last on the user's; the oldest is forgotten when there are too many |
| `ChannelGraph.Lists.DelInvite` | src/channel.c:3043-3062 | The invite is off both lists, and nothing else has changed |
| `ChannelGraph.Lists.Sub1` | src/channel.c:3068-3106 | The counter goes down; at none the channel leaves the list and every invite to it is taken back, unless it is persistent |
| `ChannelGraph.JoinedGood` | src/channel.c:515-539 | Joining keeps members mirrored on both sides, each once, with users and joined equal to the list lengths |
| `ChannelGraph.InvitedGood` | src/channel.c:3004-3038 | Inviting keeps invites mirrored on both sides and at most MaxChansPerUser per user; only the oldest may go |
| `ChannelGraph.UninvitedGood` | src/channel.c:3043-3062 | Taking an invite back keeps all lists mirrored and counted |
| `ChannelGraph.LeftGood` | src/channel.c:541-573 | Leaving keeps all lists mirrored and counted; when the last member leaves a channel that is not persistent no list names it |
| `Mirror.Unlink` | src/channel.c:3048-3061 | The loop over the address of the pointer takes out the first link to an item, and the others stay in order |
| `AdnsResolver.Resolver.SubmitQuery` | adns/query.c:207-272 | A query returned is sent to the first server or answered with its failure, and every query is on the queue of its state |
| `AdnsAnswer.Requested` | adns/query.c:94-252 | A request refused is answered with its status; for a name as it stands the query has been sent once, to the first server, or is answered with what is wrong with the name; a search does so for its first name that is not too long, and is left with the names behind that |
| `AdnsOps.AllTried` | adns/query.c:154-180 | A search tries the name as it stands before all entries of the list or after them, and these in order |
| `AdnsResolver.Resolver.QuerySimple` | adns/query.c:130-152 | The message made is sent; a name too long goes on along the search list; another failure is the answer |
| `AdnsResolver.Resolver.SearchNext` | adns/query.c:154-191 | The next name of the search is tried, or the name does not exist |
| `AdnsOps.SearchOrder` | adns/query.c:154-191 | The name tried next is the first of those left, which stay in order: the name as it stands first or last, the entries of the list in between; with none left the answer is that the name does not exist |
| `AdnsOps.EntriesAre` | adns/query.c:154-191 | Each entry of the search list is tried once, in order |
| `AdnsResolver.Resolver.CancelChildren` | adns/query.c:404-411 | Every descendant of the query is gone from the table and every queue, and nothing else has changed |
| `AdnsResolver.Resolver.CancelOwn` | adns/query.c:433-459 | A caller's query goes with everything made for it, and nothing else changes |
| `AdnsResolver.Resolver.QueryDone` | adns/query.c:506-548 | The query's children go, and it is in the output, or its parent's callback has been called and what that leads to |
| `AdnsResolver.Resolver.QueryFail` | adns/query.c:550-554 | The query ends with that status and no records |
| `AdnsFinish.FinishGood` | adns/query.c:506-548 | Ending a query leaves every query on the queue of its state, parents with live children, children pointing to their parents |
| `AdnsEffects.FinishEnds` | adns/query.c:506-548 | Ending a query changes no query outside its own family, loses none of the caller's, and answers at most the one it serves |
| `AdnsOutcome.FinishRoot` | adns/query.c:506-548 | A caller's query, when done, is the last answer to collect, and everything made for it is gone |
| `AdnsOutcome.FailRoot` | adns/query.c:550-554 | A caller's query that fails is the last answer, with that status and no records |
| `AdnsResolver.Resolver.RunCallback` | adns/types.c:443-460 | The child's callback: its addresses go into the parent's record, which is done after its last child |
| `AdnsOutcome.HostOutcome` | adns/types.c:443-460 | The record is filled with the child's status and addresses and their number, or -1 for it on a temporary failure; the owner is answered when the last child has been, whatever they said |
| `AdnsOutcome.PtrOutcome` | adns/types.c:689-718 | A reverse lookup stands only if every name found has the address asked for: the first without ends it, with its own failure or, when the name exists with other addresses or not at all, as inconsistent; the last with it answers |
| `AdnsResolver.Resolver.SubmitKid` | adns/query.c:114-128 | A fresh query is sent to the first server and linked to its parent |
| `AdnsResolver.Resolver.ProcDgram` | adns/reply.c:36-374 | The first query waiting with the reply's id, question and server is answered, fails, is sent again or waits for children, and no other is touched; without one nothing changes |
| `AdnsAnswer.RunsAreClean` | adns/query.c:506-554 | In every reachable state a query that has not ended has no failure status |
| `AdnsAnswer.ReplyFound` | adns/reply.c:315-343 | In every reachable state, a reply with records to the query it is to be matched with, by id, question and server: a query of the caller's that needs nothing more is the last answer, successful, with exactly these records |
| `AdnsAnswer.ReplyNeedsMore` | adns/reply.c:315-343 | Records some of which need queries of their own: the query waits with these records for one new query for each, sent once, to the first server, with a timeout of its own |
| `AdnsAnswer.ReplyUnreadable` | adns/reply.c:315-343 | Records of which one cannot be read: a query of the caller's ends with that failure and no records, and nothing made for it is left |
| `AdnsAnswer.ReplyFails` | adns/reply.c:246-275 | A reply that says the query fails, that its name does not exist, or that leads to no new message, ends a query of the caller's with that status and no records |
| `AdnsAnswer.ReplyAgain` | adns/reply.c:346-374 | A query made again has lost its records, counts one send, and has one more datagram, to the server whose turn it was |
| `AdnsAnswer.ReplyIgnored` | adns/reply.c:93-113 | A reply with more or less than one question, or with no query waiting of its id, question and server, changes nothing |
| `AdnsResolver.Resolver.Restart` | adns/reply.c:357-374 | A query asked again starts over with the count of its sends at nought and keeps its turn of the servers |
| `AdnsReply.ReplyGood` | adns/reply.c:88-344 | Whatever a reply says, every query is on the queue of its state afterwards |
| `AdnsReply.NothingLeft` | adns/check.c:111-161 | With nothing waiting for replies and nothing to collect there is no query: no parent waits for ever |
| `AdnsResolver.Resolver.QuerySend` | adns/transmit.c:227-263 | A datagram to the server whose turn it is, with a timeout a second and a half away, the next server's turn and one more send counted; or the timeout failure once fifteen have been sent |
| `AdnsResolver.Resolver.TimeoutsQueue` | adns/event.c:197-217 | The sweep that starts over at the head after each action ends, leaves no query with its timeout in the past, and every query on the queue of its state |
| `AdnsSweep.SweepSettles` | adns/event.c:197-217 | After the sweep no query on the queue is due |
| `AdnsResolver.Resolver.CheckQuery` | adns/event.c:650-674 | The answer of the query asked for, if it has ended, or else of the first that has, leaves with its query; with none, whether to wait or, when there is no query at all, that nothing is left |
| `AdnsRuns.StepKeeps` | adns/event.c:650-674 | No event loses a query of the caller's, and an answer stays as it is until it is taken or cancelled |
| `AdnsRuns.RunsAreGood` | adns/check.c:65-161 | In every run of submits, replies, timeouts, cancels and checks each query is on exactly the queue of its state, with the invariants the consistency check asserts, and the caller's queries are those submitted and not taken or cancelled |
| `AdnsUnanswered.ServersTakeTurns` | adns/transmit.c:239-262 | In every run, answered or not, the k-th datagram of every query has gone to server k mod nservers |
| `AdnsUnanswered.StepInTurn` | adns/transmit.c:227-263 | A query that an event makes and sends waits after one datagram, to server 0 |
| `AdnsUnanswered.SweepSpared` | adns/event.c:197-217 | A sweep leaves a query that is not due exactly as it was, unless it goes with its family |
| `AdnsUnanswered.SweepDue` | adns/event.c:197-217 | A sweep sends a query that is due once more, to the next server; after fifteen sends it ends it with a timeout |
| `AdnsUnanswered.Unanswered` | adns/transmit.c:239-262 | In every run, whatever else goes on, a query nobody answers waits after n + 1 datagrams, all alike, to servers 0, 1, 2 and so on in turn, once n < 15 sweeps have found it due; at the fifteenth a caller's query is done with a timeout after exactly fifteen |
| `AdnsSearch.LaterName` | adns/reply.c:260-270 | In every run, when a query is told that its name does not exist and its search goes on: it gets one datagram more for the next name and, if nobody answers, exactly as many as the earlier names left of fifteen, to the servers whose turn it is, then a timeout; with none left it times out at once and nobody is asked |
| `DesInit.BuildTables` | src/crypt.c:218-345 | The nested loops build, from the published permutations and S-boxes, the pairs of S-boxes and the OR-masks of all permutations |
| `DesTables.MaskTables` | src/crypt.c:278-328 | A pair of mask tables: each row is the OR of the bits its index puts at the permutation's destinations |
| `DesFunction.PairTable` | src/crypt.c:231-246 | A 12-bit table holds two inverted S-boxes side by side |
| `DesFunction.PairLookup` | src/crypt.c:241-246 | A 12-bit lookup substitutes two adjacent groups of six bits |
| `DesPermute.InitialLookup` | src/crypt.c:458-473 | Eight lookups and their OR are the initial permutation |
| `DesPermute.FinalLookup` | src/crypt.c:541-556 | Eight lookups and their OR are the final permutation |
| `DesRound.TableFIsF` | src/crypt.c:503-537 | For every right half, subkey and salt the shifts, masks and lookups compute E, the salt exchange, the key addition, the S-boxes and P of FIPS PUB 46-3 |
| `DesCipher.SpreadSalt` | src/crypt.c:353-365 | The loop puts bit i of the salt at position 23 - i |
| `DesCipher.SaltExchanges` | src/crypt.c:517-523 | Bit i of the salt exchanges bits i and i + 24 of the expanded half |
| `DesCipher.NoSalt` | src/crypt.c:353-365 | Without a salt the round function is the standard's |
| `DesSchedule.RotatesTo` | src/crypt.c:418-424 | Two shifts and an OR rotate 28 bits |
| `DesSchedule.KeyLookup` | src/crypt.c:402-417 | The lookups are permuted choice 1 |
| `DesSchedule.CompLookup` | src/crypt.c:425-443 | The lookups are permuted choice 2 |
| `DesCipher.KeySchedule` | src/crypt.c:402-443 | The key schedule by lookup is the standard's, and the other one its reversal |
| `DesCipher.SixteenRounds` | src/crypt.c:496-539 | Sixteen rounds by lookup are the standard's, with the halves exchanged |
| `DesInverse.Deciphers` | src/crypt.c:483-491 | For every schedule, salt, block and count, enciphering with the reversed schedule gives the block back |
| `DesCrypt.Des.SetKey` | src/crypt.c:368-446 | Whatever calls came before, the subkeys are the sixteen that the standard makes of the eight bytes given |
| `DesCrypt.Des.SetupSalt` | src/crypt.c:347-366 | Whatever calls came before, the salt spread is the one given |
| `DesCrypt.Des.DoDes` | src/crypt.c:448-562 | A positive count enciphers that many times with the subkeys in order, a negative one with the subkeys reversed, as the standard defines it; a count of zero is refused |
| `DesCrypt.Des.Cipher` | src/crypt.c:564-583 | The same on eight bytes, with the salt given and the tables built at first use: subkeys in order for a positive count, reversed for a negative one |
| `DesCrypt.BlockBits` | src/crypt.c:564-583 | The bits of a block are those of its bytes in order, each byte's most significant first |
| `DesCrypt.DecryptionUndoes` | src/crypt.c:448-562 | For every schedule, salt, block and count, what the subkeys in order give is undone by the subkeys reversed, and the other way round |
| `DesCrypt.BytesUndone` | src/crypt.c:564-583 | The same of eight bytes, joined and split as they are there |
| `DesKnown.StandardExample` | src/crypt.c:108-113 | The standard's example: S1 of 011011 is 0101 |
| `DesKnown.ZeroRound` | src/crypt.c:108-162 | The cipher function of zeros with a zero subkey is d8d8dbbc |
| `DesKnown.FirstHalves` | src/crypt.c:75-80 | The initial permutation of 0123456789abcdef is cc00ccff f0aaf0aa |
| `DesKnown.FirstSubkey` | src/crypt.c:84-104 | The first subkey of 133457799bbcdff1 is 1b02effc7072 |
| `DesKnown.TableRules` | src/crypt.c:75-104 | The initial permutation, the expansion and the shifts follow the regular rules of the standard |
| `Dbuf.Pool.Init` | src/dbuf.c:82-106 | The free list has one chunk and INITIAL_DBUFS more, linked once each, and the count says INITIAL_DBUFS |
| `Dbuf.Pool.Alloc` | src/dbuf.c:112-129 | The first chunk of the free list or, if there is none, a new one that is counted; empty, and one more in use |
| `Dbuf.Pool.Free` | src/dbuf.c:134-149 | One less in use; the chunk is first on the free list if and only if no more than DBUF_USUAL_MAX_COUNT were in use |
| `Dbuf.Pool.Put` | src/dbuf.c:173-220 | The bytes are appended, first into the room of the tail |
| `Dbuf.Pool.Map` | src/dbuf.c:223-236 | The contiguous section in front, empty only if the buffer is |
| `Dbuf.Pool.Delete` | src/dbuf.c:239-272 | A prefix is dropped, or everything if there is no more |
| `Dbuf.Pool.Get` | src/dbuf.c:274-296 | A prefix is returned and dropped, shorter than asked for only if there is no more |
| `Dbuf.Pool.Flush` | src/dbuf.c:298-325 | The leading terminators are dropped |
| `Dbuf.Pool.GetMsg` | src/dbuf.c:341-389 | The line a plain byte sequence has, wherever the chunks end |
| `DbufQueues.Queues.Put` | src/dbuf.c:173-220 | Only the buffer named changes, by the bytes appended; every buffer stays well formed, no chunk is shared, and the use count is the number of live chunks |
| `DbufQueues.Queues.Delete` | src/dbuf.c:239-272 | Only the buffer named loses a prefix, with the same invariant over all buffers |
| `DbufQueues.Queues.Get` | src/dbuf.c:274-296 | A prefix of one buffer is returned and dropped, with the same invariant over all buffers |
| `DbufQueues.Queues.GetMsg` | src/dbuf.c:341-389 | A line of one buffer is returned and dropped, with the same invariant over all buffers |
| `DbufLines.LineIsALine` | src/dbuf.c:341-389 | A line is never empty, has no terminator and is shorter than the limit; there is none exactly when no terminator follows within the limit, and then all but the leading terminators stay |
| `DbufLines.LineInPlace` | src/dbuf.c:341-389 | What goes with a line is the terminators before it and behind it, all of them and nothing else, with at least one behind it; without a line only those in front go |
| `DbufLines.ArrivalDoesNotMatter` | src/dbuf.c:341-389 | The lines drawn from a stream, and what is left, do not depend on when the bytes arrive |
| `DbufLines.LinesReadBack` | src/dbuf.c:341-389 | Lines shorter than the limit, written with any terminators, are read back one by one, the empty ones dropped |
| `DnsText.AppendQuoted` | adns/parse.c:34-57 | The loop over runs prints every byte plain, behind a backslash, or as a backslash and three octal digits |
| `DnsQuery.MkQuery` | adns/transmit.c:81-136 | The labels of a printed name go into the message, or the status says what is wrong with it |
| `DnsQuery.ParseStep` | adns/transmit.c:93-130 | One label: invalid if it is empty or has a bad character or escape, too long from 64 bytes on or if the name reaches 255, and else followed by what the rest gives |
| `DnsQuery.PlainNameReads` | adns/transmit.c:113-121 | Without quoting a name is taken, as it is, if and only if its labels have only letters and digits and, behind their first bytes, hyphens |
| `DnsText.HostsBytes` | adns/parse.c:147-155 | The labels that may be printed without quoting are those of letters, digits and, behind the first byte, hyphens |
| `DnsQuery.PrintedNameReads` | adns/transmit.c:95-127 | Every legal name, printed and read again, is refused, or each byte is what its digits say |
| `DnsQuery.NameSurvives` | adns/transmit.c:95-127 | A legal name comes back from its printed form if and only if all its bytes are 33..126 or less than 8 |
| `DnsWire.WireIsName` | adns/transmit.c:81-136 | A name as it is written, anywhere in a message, reads as its labels |
| `DnsWire.OneName` | adns/parse.c:74-115 | A position has one name at most, whatever its pointers |
| `DnsWire.FindLabel.FindNext` | adns/parse.c:74-115 | The status, length and start of the next label through any chain of pointers, and the cursor behind it |
| `DnsWire.FindLabel.Land` | adns/parse.c:87-112 | A byte that is no pointer: unknown from 64 on, the end at 0, else a label, unless the name becomes longer than 255, the message is cut short, or the label runs past its bound, in that order |
| `DnsWire.PointerLeads` | adns/parse.c:79-86 | A pointer leads to the place that the lower six bits of its first byte and its second byte number |
| `DnsNames.FitsIs` | adns/parse.c:88-91 | A name is not too long if its labels and the dots between them take at most 255 bytes |
| `DnsNames.NextFinds` | adns/parse.c:74-115 | On a name within the limits a step finds its next label or its end |
| `DnsNames.MkQueryFromDatagram` | adns/transmit.c:138-166 | However a name is compressed, the message written has the same labels |
| `DnsRecords.ReadsNames` | adns/parse.c:74-115 | With the whole message to read in, the walk reads a name to its end if and only if there is one there that is not too long; then its labels are those read, and the end is that of the name in place |
| `DnsRecords.ParseDomain` | adns/parse.c:117-161 | On any message: the labels printed with the end of the name; nothing for a name cut short; the status of the walk; or, without quoting, an invalid name at the first label that is no host's |
| `DnsRecords.FindRr` | adns/parse.c:163-225 | On any message: the status of the walk; no record if it is cut short; or type, class, capped time to live and data length from their bytes behind the owner's name, and a match if and only if the owner's labels have the lengths of those expected and, at each place, the same byte or the same letter in the other case, wherever either name's pointers lead |
| `DnsRecords.CompareLabels` | adns/parse.c:195-201 | Labels match if and only if they are as long as each other and, at each place, the bytes are equal or are letters that differ by 32 |
| `ClientServer.Server.RemoveFromList` | src/client.c:629-661 | A client leaves the doubly linked list, the others in the same order along both links, and the counts; one without links, as when it is alone, changes nothing |
| `ClientServer.Server.AddToList` | src/client.c:669-680 | A client without links goes first, followed by the list as it was |
| `ClientServer.Server.AddToLlist` | src/client.c:685-694 | A client that looks free goes first on the list, followed by the list as it was; another changes nothing |
| `ClientServer.Server.DelFromLlist` | src/client.c:696-711 | Whatever client is given, its neighbours or the head go past it: a list it is on is then without it, in order, one it is not next to stays, and so does the server's other list |
| `ClientLinks.ReadsBack` | src/client.c:629-711 | A walk along the next links from the head meets exactly the list |
| `ClientLinks.TakeOut` | src/client.c:645-655 | Linking a client's neighbours, or the head, past it leaves the list without it, in the same order |
| `ClientLinks.PutFirst` | src/client.c:685-694 | Linking a client before the head makes it first |
| `ClientLinks.TakeOff` | src/client.c:696-711 | Taken off any list, a client leaves one it was on without it and one it has nothing to do with as it was |
| `ClientLinks.NoLinks` | src/client.c:629-643 | A client on a list has no links if and only if it is alone there |
| `ClientLinks.TestTellsTruth` | src/client.c:685-694 | For a client on this list or on none, the test of add_client_to_llist tells whether it is on the list if and only if it is not alone on it |
| `ClientLinks.PutTwice` | src/client.c:685-694 | A client alone on its list passes the test and, added again, comes after itself without end |
| `ClientServer.Server.Introduce` | src/client.c:669-694 | A new client is first on the list of all clients and on its uplink's list, and every list hangs from its pointers as before |
| `ClientServer.Server.ExitOne` | src/client.c:1075-1178 | A client without dependants leaves its uplink's list, the list of all clients and the counts; all others stay in order on well-formed lists; the server itself never goes |
| `ClientServer.Server.RecurseRemove` | src/client.c:1230-1256 | It ends; exactly the strict descendants exit, each before the server it is on; all others stay in order on well-formed doubly linked lists; the counts go down by the numbers that left |
| `WatchIndex.Tables.AddWatch` | src/hash.c:478-524 | A watch is on the nick's header and on the client's list once, whether or not it was there |
| `WatchIndex.Tables.GetWatch` | src/hash.c:563-576 | There is a header for a nick if and only if some client watches it |
| `WatchIndex.SameKey` | src/hash.c:563-575 | Two nicks have one header if and only if they are equal but for the case of ASCII letters |
| `WatchIndex.Tables.DelWatch` | src/hash.c:581-653 | The watch is off both lists, the header is gone with its last watcher, and nothing else has changed |
| `WatchIndex.Tables.DelWatchList` | src/hash.c:658-723 | The client watches nothing, no header keeps it, and no other watch has changed |
| `WatchIndex.LookupIsScan` | src/hash.c:563-576 | The search over the headers finds a nick if and only if a scan of all clients' lists does |
| `WatchIndex.AddedGood` | src/hash.c:478-524 | Adding keeps headers and lists mirror images, each pair once, watches equal to the list lengths, and no header empty |
| `WatchIndex.UnwatchedGood` | src/hash.c:581-653 | Taking a watch away keeps headers and lists mirror images, each pair once, watches equal to the list lengths, and no header empty |
| `DlineBlocks.Compares` | src/dline_conf.c:97-113 | What an address masks to is the base, less or greater exactly when the address is inside, before or behind the block |
| `DlineBlocks.Nested` | src/dline_conf.c:97-113 | Of two masked blocks the narrower lies in the wider if its base does, and they are apart if not |
| `DlineBlocks.OracleExact` | src/dline_conf.c:398-399 | An entry's oracle bits pass every address of its block if and only if its own address has no bit outside its mask |
| `DlineBlocks.PassesBits` | src/dline_conf.c:435-436 | The oracle passes an address if and only if it has every bit the address has |
| `DlineBlocks.OrBits` | src/dline_conf.c:398-399 | The oracle's new word has the bits of the old one and of the entry |
| `DlineBlocks.EntryCanMissItself` | src/dline_conf.c:398-399 | An address and a 24-bit mask whose oracle bits refuse the address |
| `DlineBlocks.OneHead` | src/dline_conf.c:387-399 | A block lies under one top byte if and only if its prefix has eight bits or more |
| `DlineTree.FindIpSubtree` | src/dline_conf.c:97-113 | The search finds the node a scan of the whole tree would, and none if there is none |
| `DlineTree.InsertIpSubtree` | src/dline_conf.c:77-90 | The node or tree hangs where the search order puts it |
| `DlineTree.InsertedOrdered` | src/dline_conf.c:77-90 | Inserting keeps the search order |
| `DlineTree.DeleteIpSubtree` | src/dline_conf.c:124-189 | The nodes inside the block are taken out as the coin says, and their entries collected |
| `DlineTree.DeletedOrdered` | src/dline_conf.c:124-189 | Deletion keeps the search order, adds nothing, and leaves no node inside the block |
| `DlineTree.DeletedExact` | src/dline_conf.c:156-186 | Deletion keeps every node outside the block if and only if at each node it removes the child on the side the coin picked has no child towards that node |
| `DlineTable.CanDropANode` | src/dline_conf.c:156-186 | A tree that loses a block outside the new one |
| `DlineTable.AddedGood` | src/dline_conf.c:373-421 | Adding a D-line keeps search order, masked bases and disjoint blocks |
| `DlineTable.AddedCovers` | src/dline_conf.c:373-421 | After adding, the tree has the new block and nothing it did not have; it has all it had if and only if deletion dropped no node |
| `DlineTable.InheritedHeld` | src/dline_conf.c:139-151 | A deletion that drops no node hands on every exception of the nodes it removes |
| `DlineConf.Table.FindException` | src/dline_conf.c:293-304 | The first exception waiting that is for the address, or none if there is none |
| `DlineConf.Table.AddException` | src/dline_conf.c:313-340 | An exception goes right behind the D-line around its address, or waits |
| `DlineConf.Table.RescanDlines` | src/dline_conf.c:348-361 | The waiting exceptions inside the new block move to its list, in order; the others wait on, in order |
| `DlineTable.PlacedOver` | src/dline_conf.c:347-362 | The exceptions a new block takes stay in their order |
| `DlineTable.UnplacedOver` | src/dline_conf.c:347-362 | So do those that go on waiting |
| `DlineConf.Table.AddDline` | src/dline_conf.c:373-421 | Refused exactly when a block as wide has the address or an exception waits for it, a mask of no bits being one of all; otherwise the new node has its own entry, the exceptions placed and those inherited, and without a dropped node no exception is lost |
| `DlineConf.Table.MatchDline` | src/dline_conf.c:429-467 | Once the oracle lets the address through, the first exception for it in the list of the one node around it, or that node's D-line if there is none; nothing without a node or when the oracle refuses, which it does for no D-line entered without host bits |

## Left out

- ChannelServer.Server.MSjoin: the NOTICE, JOIN and MODE messages to local clients are not modelled, nor the counters of ignored and hacked operators; the table of characters allowed in names is a parameter, and a line has its nick list by its type.
- ChannelZones.RatedFloodKeepsStep: limits a server cannot say, no messages but some seconds, which only a line written by hand brings, are outside its condition; ChannelRate.RatedRelayKeepsStep covers them for one hop.
- ChannelOrderExact.ArrivalOrder: it needs every line to give somebody a status; ChannelOrderAll.AnyArrival does not.
- ChannelOrderExact.OrderIndependence: it needs every offer to give somebody a status; ChannelOrderAll.AnyOrder does not.
- ChannelOrderAll.AnyArrival: a line that brings an operator starts with one, as those that servers print do, members are disjoint, and the channel does not exist yet.
- ChannelConvergence.BurstsConverge: statuses are compared without the local DEOPPED flag, modes without the internal MODE_LIMIT, MODE_FLOODLIMIT and MODE_LOG bits, which no line carries.
- ChannelRelay.RelayKeepsStep: nicks that are unknown or come through another link are outside its condition, though the model skips them as the code does.
- ChannelGraph.Lists.AddUser: stealth users and `iusers`, clones, and the links as memory cells; a list is a sequence on each side.
- AdnsResolver.Resolver.QuerySend: the TCP path for long messages, socket errors, and the search for a usable socket; a datagram handed over is a record.
- AdnsResolver.Resolver.ProcDgram: the parsing of header and records is a verdict given to the model, which says whether the reply fails, names nothing, asks for another try or holds records, and what queries they need.
- AdnsResolver.Resolver.CancelChildren: children that go together leave the table in another order than their memory is freed, which nothing can observe.
- AdnsUnanswered.Unanswered: the sweep that finds a query due is a timeout event with its time; that such events come is the caller's part.
- Dbuf.Pool.Put: running out of memory, which the code treats as fatal.
- DnsWire.FindLabel.FindNext: chains of compression pointers that never end; the code has no guard against them, and DnsRecords.ParseDomain and DnsRecords.FindRr need every chain they come to to end.
- DesCrypt.Des.DoDes: the setting strings and output encoding of crypt() are not part of the model.
- ClientServer.Server.ExitOne: QUIT and SQUIT messages, channels and invites of the client (they are ChannelGraph's), hash tables, watch notices, oper and invisible counts. The server's own uplink pointer, which leads to itself, is modelled as none.
- ClientServer.Server.RecurseRemove: clients are numbered in the order they were introduced, a server before what is on it, which bounds the recursion.
- WatchIndex.Tables.DelWatchList: the client's list is emptied link by link; memory accounting and the bound on watches are not part of this model.
- DlineTree.DeleteIpSubtree: the write to the freed node when the predecessor or successor is the child itself changes nothing that is read afterwards, and is modelled so; memory is not.
- DlineConf.Table.MatchDline: masks are ones followed by zeros and are kept as the number of their zeros; 64-bit carries out of an oracle sum, which no address has, are kept with it.
- Ban lists, channel keys and limits enforced on local users, TS5 and HALFOPS.
- The adns TCP path, adns_globalsystemfailure, configuration, the allocation of a query's interim and final memory, and the queue of TCP queries.
- K-lines, E-lines and I-lines, which repeat the D-line trees, flood counters, which repeat the watch lists, and the configuration, help and statistics code, which would add easy members only.
- Sockets, clocks, the hash functions and the random coin are parameters.
