# A verified model of four programs

This project models, in Dafny, the parts of the repository where something can go wrong in
an interesting way, and proves what they promise. `dafny verify dfyconfig.toml` checks all of it.

| files | what is modelled |
|---|---|
| `Rfc1321`, `Md5Steps`, `Md5Rounds`, `Md5Lemmas`, `Md5Padding`, `Md5Context`, `Md5Hash`, `Md5Vectors` | the streaming MD5 of the SIP proxy |
| `IpNetwork`, `RoutingTable`, `Advertisement`, `RoutingProtocol`, `RouteExpiry`, `RouterNetwork`, `RouterForwarding`, `RouterBroadcast`, `RouterSteady`, `RouterChecks`, `RouterRuns`, `RouterLoops` | the Ruby router: mask arithmetic, lookup, the advertisement protocol, several routers |
| `EshopServer`, `EshopActors`, `EshopOrders`, `EshopReplies`, `EshopRuns`, `EshopLog`, `EshopAccounts`, `EshopProgress` | the Erlang e-shop: the server record and its processes as a transition system |
| `SipText`, `SipForwarding`, `SipVia`, `SipChain`, `SipHeaders`, `SipOthers`, `SipInvite`, `SipFields`, `SipConformance`, `SipResponses`, `SipDatagrams`, `ChallengeRing` | the SIP proxy's message rewriting and its ring of one-use responses |
| `Text` | decimal numbers, splitting and tokenising, shared by the router and the proxy |

**MD5.** `Rfc1321` pads a whole message and folds an indexed 64-step loop over its blocks, as
sections 3.1 to 3.5 of RFC 1321 read; it knows nothing of the C file. `Md5Context.Context` is
`MD5_CTX` with its counters, registers, byte buffer and word cache, for both widths of
`unsigned long` and both builds of SET and GET. The unrolled rounds, the split length counter,
the partial block and both ways through `MD5_Final` are proved to refine the specification,
for every sequence of updates of any sizes (`Md5Hash.HashInChunks`). `Md5Vectors` pins that specification:
its digests of the empty message and of "abc" are those of appendix A.5.

**Router.** `Router` is the process state that update, check and send change in place. The
multi-router results are about a transition system with any number of routers, whose broadcasts
may be received late, again, by any router, or lost. `Steady` is a condition on one moment: the
gateways lead to a direct network without a loop, every gateway has as long a match for the destination
as the router that uses it, and every sender still has one as long as what its broadcasts under way
name. If every router has an address, a state is steady exactly if forwarding is right now and
stays right until the next check, whatever is sent, received or lost (`SteadyIff`). `SafeCheck` is a
condition on the state before a check; from a steady state the check leaves a steady one exactly if it
is safe (`CheckSteadyIff`), and every state of a run is good in that sense exactly if all checks of the run
are safe (`AlwaysGoodIffSafe`). In such runs following the gateways never loops and ends at a router with a
direct network (`GatewaysLeadToDirect`).

As long as checks have dropped nothing in use, the entries can be ranked so that every gateway is nearer,
and the condition on the next check is plain: it does no harm exactly if, of the networks with the
destination that it drops without keeping one as long, none is the longest match of another router by way
of this one, and none is named by a broadcast of this one under way (`RankedCheckIff`, `NextCheckIff`). If it
drops another router's longest match that way, that router's next broadcast closes a loop
(`UnsafeCheckCanLoop`, `ExpiryCanLoop`); a network that was learned and broadcast on can also expire without
harm (`ExpiryCanBeSafe`).

That is about tables. A packet also has to pass the first test of `route_packet`, which drops it as
local if its destination lies in the network it arrives from. So it is delivered exactly if neither
that network nor that of any gateway on the way contains the destination
(`PacketArrivesIffUnobstructed`); for a network nested in a transit network it is not
(`NestedNetworkStops`).

**E-shop.** Sessions, order-state keepers and order-state changers each have a queue to and from
the server; every interleaving of their steps is a run, and a receive of the server may time out.
Some results hold in every run: the books are right, the states of an order are a prefix of
placed, packaged, shipped, delivered, calls are answered once and in order, and `EshopLog` says what
each is answered, as a function of the answers before it: the server behaves like one sequential service.
So a name is registered by the first call that gives it, and log in accepts exactly that password
(`LogInIffPassword`). Others need timely
replies, meaning that the server gives up waiting only when no answer can come any more: then
actions run for the owner of their session, ended sessions stay out, and the server fails only by
listing an item whose price is an integer, which `~.2f` does not format (`ReplyDiscipline`,
`IntegerPriceEndsServer`); with float prices it stays up (`ServerStaysUp`).
`DisciplineIffTimely` shows that these two conditions are exactly what a run needs. From any moment of a
timely run between callbacks a live session can get its answer (`CallCanBeAnswered`) and any order can still
come to be delivered (`OrderCanBeDelivered`). Without timely
replies a late `ok` is taken for a user name (`UntimelyEndedSessionActs`), and since `handle_info`
returns `ok`, which is not a valid return value, a late answer can end the server (`LateAnswerCrashes`).

**SIP proxy.** The tokenise-and-append loops are methods proved equal to functions on header
lines, and tokenising what they append gives the lines back. Pushing and popping the lines that
begin `Via:` are inverse along any chain of such proxies, for any number of them (`ViaRoundTrip`).
The request line of a forwarded INVITE reads back, by the proxy's own reader, as the registered client
(`InviteReadsBack`).

RFC 3261 speaks of Via header field *values*: several may stand on one line, separated by commas
(section 7.3.1), names are case-insensitive and `v` is a short form (section 7.3.3), and the header
ends at the first empty line, which the proxy writes after `Content-Length`. `SipConformance` defines
that list independently of the proxy, and `SipFields` checks the definition against that section: case, the
short form, blanks, commas inside and outside quoted strings. The proxy adds a Via before *every* `Via:` line of a request
and removes every *second* one from a response. `PushConformsIff` and `PopConformsIff`, and on datagrams
`RequestConformsIff` and `ResponseConformsIff`, say exactly when the own value goes where section 16.6
item 8 puts it, and when section 16.7 item 3 is met.

The push results are about the place of the value. As a rule it is right exactly if one line begins
`Via:`, no differently spelled Via field stands above it and none is left below `Content-Length`
(`PushesTopmostAsARule`). Item 8 also asks for a branch that is new with every request; `via.c` always
writes the same one, so that part is never met (`BranchRepeats`).

Item 3 has two parts: the topmost value goes and no other, and nothing is sent when none is left. The proxy
sends whatever is left, so it meets item 3 exactly if `PopsTopmost` holds and there are two values or more. For
contiguous `Via:` lines and no Via field spelled differently or below `Content-Length` that means two such
lines, the first with one value (`PopConformsIffPlain`; `PopConformsIffTwoVias` allows other spellings).
`LastValueGoes`, `CommaListIsLost` and `OwnValueBelow` are messages with one `Via:` line on which
forwarding does not conform.

## Model

| member | source | states |
|---|---|---|
| Md5Steps.MixIsAuxiliary | sip-proxy/src/md5.c:51-55 | F and G without AND-NOT, both spellings of H, and I are the auxiliary functions of section 3.4 of RFC 1321, for all words |
| Md5Steps.TurnIsRotateLeft | sip-proxy/src/md5.c:62 | the masked shifts of STEP rotate left |
| Md5Steps.StepIsOperation | sip-proxy/src/md5.c:60-63 | one STEP computes the word that operation i of the standard computes, whichever macro of the round it names |
| Md5Steps.FourSteps | sip-proxy/src/md5.c:113-116 | four STEP lines with their registers renamed in turn are four indexed operations, after which every name is back in place |
| Md5Steps.SetIsWordOf | sip-proxy/src/md5.c:79-84 | shifts and ORs decode the little-endian word |
| Md5Rounds.Schedule1 | sip-proxy/src/md5.c:113-128 | word order i, constants and rotations of round 1 are those of the indexed loop |
| Md5Rounds.Schedule2 | sip-proxy/src/md5.c:131-146 | the same for round 2, word order 5i+1 |
| Md5Rounds.Schedule3 | sip-proxy/src/md5.c:149-164 | the same for round 3, word order 3i+5 |
| Md5Rounds.Schedule4 | sip-proxy/src/md5.c:167-182 | the same for round 4, word order 7i |
| Md5Rounds.Round1 | sip-proxy/src/md5.c:113-128 | the sixteen lines are operations 0 to 15 |
| Md5Rounds.Round2 | sip-proxy/src/md5.c:131-146 | the sixteen lines are operations 16 to 31 |
| Md5Rounds.Round3 | sip-proxy/src/md5.c:149-164 | the sixteen lines are operations 32 to 47 |
| Md5Rounds.Round4 | sip-proxy/src/md5.c:167-182 | the sixteen lines are operations 48 to 63 |
| Md5Lemmas.BlocksConcat | sip-proxy/src/md5.c:106-190 | folding two runs of whole blocks is folding their concatenation |
| Md5Lemmas.CarryIsExact | sip-proxy/src/md5.c:217-219 | the wrap-around test is an exact carry for every size |
| Md5Lemmas.CounterStep | sip-proxy/src/md5.c:216-219 | hi and lo go on counting bytes modulo 2^61, for either width of unsigned long |
| Md5Lemmas.StillPartial | sip-proxy/src/md5.c:226-229 | data that does not fill the block changes the pending bytes and not the fold |
| Md5Lemmas.FillBlock | sip-proxy/src/md5.c:231-234 | filling the block compresses the pending bytes with the data |
| Md5Lemmas.WholeBlocks | sip-proxy/src/md5.c:237-240 | whole blocks of data extend the fold |
| Md5Context.Context.Init | sip-proxy/src/md5.c:200-209 | the context is ready for an empty message, whatever it held |
| Md5Context.Context.SetWords | sip-proxy/src/md5.c:79-86 | the caching build holds in block exactly the words that direct reads would give |
| Md5Context.Context.CompressBlock | sip-proxy/src/md5.c:106-187 | one pass of body is one Compress of the standard, in both builds |
| Md5Context.Context.Body | sip-proxy/src/md5.c:93-198 | the do-while folds all blocks into the registers |
| Md5Context.Context.CountBytes | sip-proxy/src/md5.c:216-219 | the counters advance by the size of the data |
| Md5Context.Context.Absorb | sip-proxy/src/md5.c:221-242 | whatever was pending, registers and buffer become those of the longer message |
| Md5Context.Context.Update | sip-proxy/src/md5.c:211-243 | the streaming invariant is kept and the message grows by the data |
| Md5Context.Context.StartPadding | sip-proxy/src/md5.c:249-260 | the 0x80 byte, and a block of its own when fewer than eight bytes are left |
| Md5Context.Context.EndBlock | sip-proxy/src/md5.c:262-272 | zeros up to byte 56, then eight length bytes |
| Md5Context.Context.PadAndCompress | sip-proxy/src/md5.c:247-274 | both ways, one final block or two, leave the fold over the padded message |
| Md5Context.Context.PutDigest | sip-proxy/src/md5.c:276-291 | the sixteen output bytes of section 3.5 |
| Md5Context.Context.Clear | sip-proxy/src/md5.c:293 | nothing of the message is left in the context |
| Md5Context.Context.Final | sip-proxy/src/md5.c:245-294 | the digest of everything passed to Update since Init, and a cleared context |
| Md5Padding.LengthBytes | sip-proxy/src/md5.c:264-272 | bytes 56 to 63 are the bit count modulo 2^64, low-order first |
| Md5Padding.PadSplits | sip-proxy/src/md5.c:249-274 | a padded message is its whole blocks, its pending bytes and their padding |
| Md5Padding.LastBlocks | sip-proxy/src/md5.c:249-274 | the blocks that MD5_Final compresses complete the fold over the padded message |
| Md5Padding.PadLength | sip-proxy/src/md5.c:255-262 | padded length is a multiple of 64, 9 to 72 bytes longer |
| Md5Padding.PadInjective | sip-proxy/src/md5.c:249-274 | no two messages are padded alike, of any lengths, though the count wraps at 2^64 bits |
| Md5Hash.HashInChunks | sip-proxy/src/md5.c:200-294 | Init, any updates of any sizes, Final: the RFC 1321 digest of the concatenation |
| Md5Vectors.InitialBytes | sip-proxy/src/md5.c:202-205 | the four words, low-order byte first, are the sixteen bytes that section 3.3 lists |
| Md5Vectors.Md5OfEmpty | sip-proxy/src/md5.c:200-294 | that digest of the empty message is d41d8cd98f00b204e9800998ecf8427e, as in appendix A.5 |
| Md5Vectors.Md5OfAbc | sip-proxy/src/md5.c:200-294 | that of "abc" is 900150983cd24fb0d6963f7d28e17f72 |
| Md5Hash.HexRoundTrip | sip-proxy/src/md5-wrapper.c:15-16 | the hexadecimal digits decode to the bytes |
| Md5Hash.PrintedStateRoundTrip | sip-proxy/src/md5.c:276-291 | 32 digits decode to the result bytes and these to the final a, b, c, d |
| Md5Hash.GetMd5Hash | sip-proxy/src/md5-wrapper.c:6-18 | 32 lower-case hexadecimal digits, the MD5 of the bytes before the terminating zero |
| IpNetwork.CidrOfMask | ruby-router/router.rb:19-21 | the bit sum is n on the n-bit mask, for n in 0..32 |
| IpNetwork.MakeNetwork | ruby-router/routing_protocol.rb:8 | a network of that prefix length, without host bits |
| IpNetwork.IncludesIffPrefix | ruby-router/router.rb:50 | masking decides exactly whether the prefixes agree |
| IpNetwork.NestedOrDisjoint | ruby-router/router.rb:47-57 | networks with a common address are nested, and the shorter mask decides |
| IpNetwork.SameLengthSameNetwork | ruby-router/router.rb:26-28 | networks of equal length with a common address are the same key |
| RoutingTable.FindRoute | ruby-router/router.rb:47-58 | the first hit is a longest match, with its gateway; its device is found exactly if one of the open devices has the name in the entry; nothing is found exactly if no network contains the address |
| RoutingTable.LongestMatchUnique | ruby-router/router.rb:26-28 | there is one longest match at most |
| RoutingTable.LongestMatchExists | ruby-router/router.rb:47-57 | a routable address has a longest match |
| RoutingTable.FindRouteIgnoresTies | ruby-router/router.rb:24-29 | the route does not depend on insertion order or on how ties are sorted |
| RoutingTable.SortedNetworksExist | ruby-router/router.rb:26-28 | every table has such an enumeration |
| Advertisement.ToPrefixLenOfMask | ruby-router/string_extensions.rb:18-22 | n on the dotted n-bit mask, like cidr |
| Advertisement.ToPrefixLenRaises | ruby-router/string_extensions.rb:19-20 | an exception exactly if some octet is above 255 |
| Advertisement.QuadRoundTrip | ruby-router/routing_table.rb:8 | a printed address is read back |
| Advertisement.NetworkRoundTrip | ruby-router/routing_protocol.rb:8 | IPAddr.new on a printed network gives that network |
| RoutingProtocol.LearnAllAt | ruby-router/routing_protocol.rb:6-21 | an update adds the unknown networks it names, refreshes known dynamic ones, and touches nothing else |
| RoutingProtocol.UpdateTextParses | ruby-router/routing_protocol.rb:2-5 | a printed update splits into the sender's network lines and validity 3, the empty table included |
| RoutingProtocol.NoValidTime | ruby-router/routing_protocol.rb:4 | a last line without a second word gives validity 0 |
| RoutingProtocol.NetworkTextsParse | ruby-router/routing_protocol.rb:6-8 | those lines parse to the sender's networks, in order |
| RoutingProtocol.AttachedIsLastOpened | ruby-router/packet_input.rb:14 | each network is attached once, with the device that was opened last for it |
| RoutingProtocol.AttachedInOrder | ruby-router/packet_input.rb:14 | the attached networks stand in the order of their first opening |
| RoutingProtocol.Router.constructor | ruby-router/packet_input.rb:2-22 | every opened network, and no other, has an entry, direct, with gateway self and the device attached to it |
| RoutingProtocol.OwnEntriesKept | ruby-router/routing_protocol.rb:10-27 | updates and checks keep those entries |
| RoutingProtocol.Router.FindRouteOut | ruby-router/router.rb:46-58 | a destination in an attached network is sent over the device attached to it, and any other over the device of its entry exactly if that is open |
| Advertisement.AttachedNetworkParses | ruby-router/packet_input.rb:9-13 | a dotted address and a dotted n-bit mask give the network of length n |
| RoutingProtocol.Router.FindInterfaceByIp | ruby-router/routing_table.rb:22-30 | the device of the first attached network that contains the address, nil exactly if none does |
| RoutingProtocol.Router.LearnNetwork | ruby-router/routing_protocol.rb:9-20 | the loop body is one Learn step |
| RoutingProtocol.Router.UpdateRoutingTable | ruby-router/routing_protocol.rb:2-22 | all lines are learned, or those before the first that IPAddr.new refuses, and then it raises |
| RoutingProtocol.Router.CheckRoutingTable | ruby-router/routing_protocol.rb:24-32 | exactly the outdated dynamic entries go, in whatever order the hash is walked |
| RoutingProtocol.Router.GetRoutingTable | ruby-router/routing_table.rb:3-20 | one line per network, longest prefixes first, then the validity |
| RoutingProtocol.Router.SendUpdates | ruby-router/routing_protocol.rb:34-42 | an update of the whole table at most every two seconds |
| RoutingProtocol.BroadcastHasMarker | ruby-router/routing_protocol.rb:38-39 | a broadcast holds the text that route_packet looks for, whatever headers it arrives with |
| RoutingProtocol.Router.ReceiveLocal | ruby-router/router.rb:41-48 | a local packet updates the table exactly if it holds that text, from byte 28 on, and raises if it is shorter |
| RoutingProtocol.Router.ReceiveBroadcast | ruby-router/routing_protocol.rb:2-40 | a received broadcast is recognised and learned without exception, and the receiver's networks become the union of both |
| RouteExpiry.RunTracks | ruby-router/routing_protocol.rb:2-32 | after any run an entry records the last update naming it, and a missing one was outdated |
| RouteExpiry.HeldExactlyWhileFresh | ruby-router/routing_protocol.rb:2-32 | right after a check a learned network is held exactly if the last update naming it is still valid |
| RouteExpiry.ConfiguredEntriesKept | ruby-router/routing_protocol.rb:10-27 | updates and checks never change, remove or add direct or static entries |
| RouterNetwork.SendKeeps | ruby-router/routing_protocol.rb:35-42 | a broadcast names networks that its sender has |
| RouterNetwork.ReceiveKeeps | ruby-router/routing_protocol.rb:2-22 | each learned entry points to a router that has the network too, one step nearer |
| RouterNetwork.UnusedDropsKeep | ruby-router/routing_protocol.rb:24-32 | a check that drops nothing in use elsewhere keeps every ranking |
| RouterNetwork.ReachableRanked | ruby-router/routing_protocol.rb:2-42 | in every run whose checks drop nothing in use elsewhere every reachable state has a ranking |
| RouterForwarding.GatewayIsNearer | ruby-router/router.rb:47-57 | in a ranked state every gateway lowers (32 - matched length, rank), and the end is a direct entry |
| RouterForwarding.NearerLeads | ruby-router/router.rb:47-57 | where every gateway is nearer, the gateways repeat no router and end at a direct longest match |
| RouterForwarding.TravelFollowsPath | ruby-router/router.rb:37-60 | a packet follows the gateways until a router finds its destination in the network it arrives from |
| RouterSteady.SteadyNearer | ruby-router/router.rb:47-57 | in a steady state (32 - matched length, length of the path) falls at every gateway |
| RouterSteady.ReceiveNearer | ruby-router/routing_protocol.rb:2-22 | a receiver that learns a longer match comes one step after the sender, and nobody else gets farther |
| RouterSteady.SteadyStep | ruby-router/routing_protocol.rb:2-42 | a broadcast that is sent, received or lost keeps a steady state |
| RouterSteady.ShorterGatewayLoops | ruby-router/routing_protocol.rb:2-22 | if a gateway has nothing as long, the next broadcast of the router using it closes a loop |
| RouterSteady.UnheldAdvertLoops | ruby-router/routing_protocol.rb:2-22 | a sender that hears its own broadcast, and has nothing as long any more, forwards to itself |
| RouterSteady.SteadyIff | ruby-router/routing_protocol.rb:2-42 | both directions: a state is steady if and only if forwarding is right and stays so, whatever is broadcast, until a table is checked |
| RouterChecks.SafeCheckSteady | ruby-router/routing_protocol.rb:24-32 | a safe check keeps a steady state |
| RouterChecks.SteadyCheckSafe | ruby-router/routing_protocol.rb:24-32 | a check that leaves a steady state is safe |
| RouterChecks.CheckSteadyIff | ruby-router/routing_protocol.rb:24-32 | both directions: from a steady state a check leaves one if and only if what it keeps serves the routers that forward here and the own broadcasts under way, and the route left does not lead back |
| RouterChecks.RankedSteady | ruby-router/routing_protocol.rb:2-42 | a ranked state is steady |
| RouterChecks.RankedCheckIff | ruby-router/routing_protocol.rb:24-32 | both directions: from a ranked state forwarding is right after a check, and until the next, if and only if no network dropped without one as long is another router's longest match by way of this one or named by an own broadcast |
| RouterRuns.AlwaysGoodIffSafe | ruby-router/routing_protocol.rb:2-42 | every state of a run forwards right, and does until the next check, if and only if all checks of the run are safe |
| RouterRuns.NextCheckIff | ruby-router/routing_protocol.rb:24-32 | the condition of RankedCheckIff on the next check of a run whose checks dropped nothing in use |
| RouterRuns.GatewaysLeadToDirect | ruby-router/router.rb:47-57 | in every run whose checks are safe the gateways repeat no router and end at a direct longest match |
| RouterRuns.PacketArrivesIffUnobstructed | ruby-router/router.rb:37-60 | in such runs it arrives at the direct router if and only if neither its first network nor that of a gateway on the path contains the destination; otherwise a router of the path drops it |
| RouterLoops.UnsafeCheckCanLoop | ruby-router/routing_protocol.rb:24-32 | a check that drops the longest match another router has by way of this one, and keeps none as long, lets that router's next broadcast close a loop |
| RouterLoops.ExpiryCanLoop | ruby-router/routing_protocol.rb:24-32 | a run from the first broadcast on that ends in such a loop, for any network off the link |
| RouterLoops.ExpiryCanBeSafe | ruby-router/routing_protocol.rb:24-32 | a run in which a router drops a network that it had learned and broadcast, by a check that is safe for every destination |
| RouterLoops.NestedNetworkStops | ruby-router/router.rb:37-44 | a run without checks after which a packet for a nested network is dropped by the router that has it |
| EshopServer.RegisterKeepsBooks | erlang-eshop/e_shop.erl:85-102 | a new name gets an account, a known one none, and nobody else's changes |
| EshopServer.AddNewItemKeepsBooks | erlang-eshop/e_shop.erl:138-159 | the new item comes first, with the next id and what was given, and ids have no gap |
| EshopServer.MakeOrderKeepsBooks | erlang-eshop/e_shop.erl:161-204 | the new order comes first, with the next id, the caller, its items and its keeper; users' lists stay right; dict:update fails exactly for an unknown user |
| EshopServer.IdsPartitioned | erlang-eshop/e_shop.erl:181-190 | every order id is in exactly one user's list |
| EshopServer.OwnIds | erlang-eshop/e_shop.erl:222-223 | an id is in a user's list exactly if that order is the user's |
| EshopServer.MyOrdersAreMine | erlang-eshop/e_shop.erl:206-216 | the membership filter gives exactly the caller's orders, newest first |
| EshopServer.OrderDataFound | erlang-eshop/e_shop.erl:233-240 | one order matches an id that was given out, none any other |
| EshopOrders.KeeperReceivesHeld | erlang-eshop/e_shop.erl:332-342 | a keeper moves one requested change to the states it has held and loses none |
| EshopOrders.ChangerSendsSound | erlang-eshop/e_shop.erl:315-330 | the changer's next cast is the next state of the order |
| EshopOrders.StartCastSound | erlang-eshop/e_shop.erl:344-350 | a cast finds its order and sends the change to the right keeper, in every run |
| EshopOrders.StepSound | erlang-eshop/e_shop.erl:85-356 | every step of every process keeps the books and each order's progress |
| EshopOrders.BooksAlwaysRight | erlang-eshop/e_shop.erl:138-216 | ids without gaps and users' lists of exactly their orders, in every interleaving |
| EshopOrders.OrderProgress | erlang-eshop/e_shop.erl:315-356 | no state of an order is skipped, repeated or taken back, in every interleaving, with timeouts or a failed server |
| EshopReplies.ActQueues | erlang-eshop/e_shop.erl:119-231 | with nothing else under way an action for the owner does not fail and leaves only its own request |
| EshopReplies.TakeReplyQueues | erlang-eshop/e_shop.erl:282-296 | a reply that is taken leaves no other behind |
| EshopReplies.StepQueues | erlang-eshop/e_shop.erl:119-356 | with timely replies every step keeps at most one message per awaited process, and none of others |
| EshopReplies.StepAnswers | erlang-eshop/e_shop.erl:119-313 | with timely replies every call is answered for the owner of its session, completely, and as things are |
| EshopReplies.StepDisciplined | erlang-eshop/e_shop.erl:119-356 | both together, for the whole log of answers |
| EshopReplies.RunDisciplined | erlang-eshop/e_shop.erl:119-356 | a timely run ends with the server failed if and only if it came to print an integer price |
| EshopRuns.ReplyDiscipline | erlang-eshop/e_shop.erl:282-313 | timely runs: no failure but that one, no reply left after a callback, every action run for the owner of the session asked, order states never reported backwards |
| EshopRuns.ServerStaysUp | erlang-eshop/e_shop.erl:59-60 | timely runs in which only float prices are given never end the server |
| EshopRuns.IntegerPriceEndsServer | erlang-eshop/e_shop.erl:261-272 | once an item has an integer price, a live session that lists the items ends the server |
| EshopRuns.DisciplineIffTimely | erlang-eshop/e_shop.erl:282-296 | the discipline holds after every step of a run if and only if the run is timely and prints no integer price |
| EshopRuns.ReportedStateWasHeld | erlang-eshop/e_shop.erl:242-251 | a reported state is one that this order has had |
| EshopRuns.CastsFindTheirOrder | erlang-eshop/e_shop.erl:344-347 | get_order_data finds the one order of every cast, in every interleaving |
| EshopRuns.LookupsSucceed | erlang-eshop/e_shop.erl:189-227 | timely runs: the name is the owner's and registered, and each of its ids leads to one order |
| EshopRuns.NextAnswerIsCurrent | erlang-eshop/e_shop.erl:85-231 | timely runs: every answer is of the kind its call asks for and shows the items, the caller's orders, or the order's state at that moment |
| EshopRuns.TimelyAnswersFollow | erlang-eshop/e_shop.erl:85-231 | timely runs: every answer is the one that follows from those before it, for the name that logged in to the session |
| EshopRuns.HandledCastsTookEffect | erlang-eshop/e_shop.erl:348-356 | timely runs: between callbacks every handled cast has changed the order's state |
| EshopRuns.EndedSessionRefused | erlang-eshop/e_shop.erl:298-313 | a session that has ended never authenticates again, whatever replies do later |
| EshopRuns.TimeoutSafeIffTimely | erlang-eshop/e_shop.erl:284-290 | giving up waiting is safe if and only if no answer can come any more |
| EshopRuns.LateAnswerCrashes | erlang-eshop/e_shop.erl:358-359 | after an untimely timeout there are steps that end the server in handle_info |
| EshopRuns.LogOutAnsweredLate | erlang-eshop/e_shop.erl:119-129 | a log out can be reported as failed while the session ends and its ok is left |
| EshopRuns.LateOkIsTakenForName | erlang-eshop/e_shop.erl:284-293 | the next call with that session acts in the name ok |
| EshopRuns.UntimelyEndedSessionActs | erlang-eshop/e_shop.erl:282-296 | so without timely replies an ended session can add items |
| EshopProgress.CallCanBeAnswered | erlang-eshop/e_shop.erl:282-296 | from any moment between callbacks of a timely run, a call with a live session can be answered, and not with no_such_session, unless it would print an integer price |
| EshopProgress.LoggedInSessionLives | erlang-eshop/e_shop.erl:104-117 | a log in with the right password opens one more session, live and quiet |
| EshopProgress.OrderCanBeDelivered | erlang-eshop/e_shop.erl:315-356 | from any such moment there are steps, with timely replies, after which the order is delivered |
| EshopLog.AnswersFollowLog | erlang-eshop/e_shop.erl:85-231 | in every interleaving the answers are those of one sequential service: all items and the caller's orders so far, the next order id, the stored password, the next session, no_such_order exactly for an id that is not the caller's; items, orders, passwords and owners are those the log records |
| EshopLog.CallsAnsweredInOrder | erlang-eshop/e_shop.erl:39-63 | in every interleaving the calls made are, in order, those answered and the one under way, which is lost if the server ends |
| EshopLog.LogOutAnswer | erlang-eshop/e_shop.erl:119-129 | log_out_ok exactly if the ok of the session was taken, log_out_error exactly if the server gave up waiting for it, no_such_session if the session was not found |
| EshopAccounts.AccountsStay | erlang-eshop/e_shop.erl:85-117 | no step of any run changes a password or the owner of a session |
| EshopAccounts.LogInIffPassword | erlang-eshop/e_shop.erl:75-117 | in every interleaving registration_ok exactly for the first call that registers the name, no_such_user exactly if none has, and a log in succeeds exactly with the password given then, to a new session of that user |
| SipText.StringBegins | sip-proxy/src/misc.c:5-20 | true exactly for prefixes |
| SipText.AppendToString | sip-proxy/src/misc.c:127-131 | the text goes to the end, and the length stays right |
| SipText.Tokenizer.First | sip-proxy/src/misc.c:47-59 | the first line of a new text |
| SipText.Tokenizer.Next | sip-proxy/src/misc.c:50-53 | the next line, NULL when there is none |
| SipText.LinesOfUnlines | sip-proxy/src/misc.c:47-59 | tokenising appended lines gives them back, without the empty ones |
| SipForwarding.AppendRewritten | sip-proxy/src/forwarding.c:29-64 | what one header line becomes, and when max_forw would be read uninitialised |
| SipForwarding.SendMessageToOtherSide | sip-proxy/src/forwarding.c:19-67 | nothing is sent for an unregistered destination; otherwise exactly the rewritten lines and an empty one |
| SipForwarding.AppendInviteRewritten | sip-proxy/src/invite.c:43-77 | the same for a line of an INVITE |
| SipForwarding.InviteOtherClient | sip-proxy/src/invite.c:30-80 | the new request line, the rewritten other lines and an empty one |
| SipInvite.GetStringBetweenChars | sip-proxy/src/misc.c:22-45 | the text between the first c1 and the first c2 after it |
| SipInvite.InviteReadsBack | sip-proxy/src/invite.c:35-39 | in the datagram the proxy's own reader finds the extension of the registered client as the invited user, its address follows the "@" and its port the last colon |
| SipInvite.RecordRouteNamesProxy | sip-proxy/src/invite.c:53 | the added Record-Route line holds the URI of the proxy's address and the lr parameter |
| SipVia.PopUndoesPush | sip-proxy/src/forwarding.c:33-46 | removing every other Via line undoes adding one before each |
| SipVia.RequestPushes | sip-proxy/src/forwarding.c:27-65 | of a request's Via lines the proxy keeps all, each with its own before it |
| SipVia.InvitePushes | sip-proxy/src/invite.c:41-78 | the same for an INVITE |
| SipConformance.RequestValues | sip-proxy/src/forwarding.c:27-66 | the Via values of the header sent, by section 7.3 of RFC 3261, are the old ones with the own value before every "Via:" line |
| SipConformance.InviteValues | sip-proxy/src/invite.c:41-79 | the same for an INVITE |
| SipConformance.PushConformsIff | sip-proxy/src/forwarding.c:33-40 | the own value goes on top and nowhere else, the place that section 16.6 item 8 gives it, if and only if PushesTopmost holds of the lines of the request |
| SipConformance.PushesTopmostAsARule | sip-proxy/src/forwarding.c:33-40 | for a request without the own value that means: one line of the header sent begins "Via:", no Via field spelled otherwise stands above it, and none is left below Content-Length |
| SipConformance.InvitePushConformsIff | sip-proxy/src/invite.c:56-61 | the same about the place of the value, for an INVITE |
| SipConformance.BranchRepeats | sip-proxy/src/via.c:5-13 | where the own value goes on top it has the same branch for any two requests, so what item 8 asks of the branch is never met |
| SipConformance.OwnViaHasOneValue | sip-proxy/src/via.c:5-13 | the own line is one Via value unless the configured address has a comma or a quote |
| SipVia.StatusPops | sip-proxy/src/forwarding.c:41-45 | contiguous Via lines of a response lose the first, third, fifth and stay contiguous |
| SipResponses.StatusValues | sip-proxy/src/forwarding.c:27-66 | which Via values the header of a forwarded response has, for any response |
| SipResponses.PopConformsIff | sip-proxy/src/forwarding.c:41-67 | both parts of section 16.7 item 3: the topmost value goes and no other if and only if one goes and those above it, if any, equal it; the item is met if and only if there are two values or more besides |
| SipResponses.PopConformsIffTwoVias | sip-proxy/src/forwarding.c:41-67 | for contiguous "Via:" lines: if and only if there are at most two, the first has one value, values of other Via fields above it repeat it, and there are two values or more |
| SipResponses.PopConformsIffPlain | sip-proxy/src/forwarding.c:41-67 | without other spellings: if and only if there are exactly two "Via:" lines and the first has one value |
| SipResponses.LastValueGoes | sip-proxy/src/forwarding.c:66-67 | a response with one Via value loses it and is still sent, with none |
| SipResponses.BodyDoesNotMatter | sip-proxy/src/forwarding.c:53-58 | after a Content-Length line no line of the body counts, even if it begins "Via:" |
| SipResponses.CommaListIsLost | sip-proxy/src/forwarding.c:41-45 | a response with two values on its one "Via:" line loses both |
| SipResponses.OwnValueBelow | sip-proxy/src/forwarding.c:33-40 | a request with a compact Via field above its one "Via:" line gets the own value below it |
| SipDatagrams.DatagramVias | sip-proxy/src/forwarding.c:60-67 | a receiver that splits the datagram at CR LF finds those values in its header |
| SipDatagrams.MessageLines | sip-proxy/src/misc.c:47-59 | the proxy tokenises a message into its header lines and those of its body |
| SipDatagrams.RequestConformsIff | sip-proxy/src/forwarding.c:27-66 | the condition on the place of the pushed value, from datagram to datagram |
| SipDatagrams.ResponseConformsIff | sip-proxy/src/forwarding.c:27-66 | both parts of section 16.7 item 3, from datagram to datagram |
| SipChain.DatagramLines | sip-proxy/src/forwarding.c:60-67 | the receiver tokenises the datagram into the lines it was made of |
| SipChain.StatusDefined | sip-proxy/src/forwarding.c:41-52 | no NULL line and no uninitialised number, given an even number of contiguous Via lines |
| SipChain.StatusPopsText | sip-proxy/src/forwarding.c:19-67 | a response datagram loses every other Via line and stays acceptable to the next proxy |
| SipChain.RelayPushes | sip-proxy/src/main.c:67-82 | a request datagram, INVITE or not, reaches the next proxy with the own Via before each |
| SipChain.ViaRoundTrip | sip-proxy/src/forwarding.c:27-66 | through any chain of proxies and back, the response arrives with the Via lines the request set out with |
| SipHeaders.RequestLowers | sip-proxy/src/forwarding.c:47-52 | a request whose Max-Forwards lines hold numbers is forwarded, with each number one lower |
| SipHeaders.InviteLowers | sip-proxy/src/invite.c:48-55 | the same for an INVITE, in spite of the added Record-Route lines |
| SipHeaders.MaxForwardsCountsProxies | sip-proxy/src/forwarding.c:47-52 | through any chain of proxies each number falls by one per proxy, read back from the datagrams (section 16.6 item 3 of RFC 3261) |
| SipOthers.RequestKeepsOthers | sip-proxy/src/forwarding.c:53-64 | all lines of a request other than Via, Route and Max-Forwards are appended unchanged and in order |
| SipOthers.RequestDropsRoutes | sip-proxy/src/forwarding.c:29-32 | no line that begins "Route" is left in a request |
| SipOthers.RelayKeepsOthers | sip-proxy/src/forwarding.c:27-67 | they arrive so at the next proxy, on the datagrams |
| SipOthers.StatusKeepsOthers | sip-proxy/src/forwarding.c:41-64 | the same lines of a response with an even number of contiguous Via lines are appended |
| SipOthers.StatusRelayKeepsOthers | sip-proxy/src/forwarding.c:41-67 | and arrive, on the datagrams |
| SipOthers.InviteKeepsUntouched | sip-proxy/src/invite.c:41-78 | an INVITE keeps its other lines, in order, but for Supported, User-Agent, Allow and Record-Route |
| SipOthers.InviteReplaces | sip-proxy/src/invite.c:43-66 | no Route, Supported or User-Agent line is left, every Allow line is the proxy's, and each Max-Forwards line brings one Record-Route line, the proxy's |
| SipOthers.UntouchedArrive | sip-proxy/src/main.c:67-82 | through any chain of proxies, in either form, the untouched lines arrive in order |
| SipHeaders.ScanReads | sip-proxy/src/forwarding.c:49 | sscanf with %d skips blanks, takes a sign and the digits up to the next character, and reads nothing without a digit |
| SipChain.ScanPrinted | sip-proxy/src/forwarding.c:49-50 | sscanf reads the number that sprintf printed, negative ones included |
| ChallengeRing.Ring.constructor | sip-proxy/src/database.c:8-9 | an empty ring |
| ChallengeRing.Ring.Issue | sip-proxy/src/database.c:47-48 | the ring goes on holding the 20 latest responses that were not accepted |
| ChallengeRing.Ring.IsResponseValid | sip-proxy/src/database.c:52-64 | accepts exactly an open response and then closes one challenge that has it; an empty one exactly if fewer than 20 were issued or a recent one was accepted |
| ChallengeRing.Ring.Accept | sip-proxy/src/database.c:57-60 | the cleared slot held an open challenge |
| ChallengeRing.Ring.CreateChallengeForUser | sip-proxy/src/database.c:34-50 | issues the MD5 response of HA1, nonce and HA2 |
| ChallengeRing.ResponseIsDigest | sip-proxy/src/database.c:41-46 | the response is the hash of a text that splits at its colons into HA1, the nonce and HA2, which is the hash of one that splits into REGISTER, sip and the address |
| ChallengeRing.HashedCodes | sip-proxy/src/md5-wrapper.c:12-14 | what is hashed of a string are the codes of its characters |
| ChallengeRing.IssueHolds | sip-proxy/src/database.c:47-48 | only the oldest challenge is replaced |
| ChallengeRing.IssueConserves | sip-proxy/src/database.c:47 | issued = open + accepted + overwritten as multisets, when one is issued |
| ChallengeRing.AcceptConserves | sip-proxy/src/database.c:59 | the same when one is accepted |
| ChallengeRing.OpenIffRecentAndUnused | sip-proxy/src/database.c:52-64 | with distinct responses, open means among the 20 latest and not yet accepted |
| ChallengeRing.AcceptedOnce | sip-proxy/src/database.c:52-64 | no response is accepted twice |
| ChallengeRing.Answer | sip-proxy/src/database.c:34-64 | one issue or check, against the run so far |
| ChallengeRing.Replay | sip-proxy/src/database.c:34-64 | any run of issues and checks accepts each response exactly while it is recent and unused |

## Left out

- Everything that talks to the outside: sockets, pcap, MySQL, configuration files, the router's menu, printing.
- The crypto trading bot, MySQL-backed registration, call and transaction rows.
- MD5: words wider than 32 bits in MD5_u32plus; the mask in STEP is for those. The table of constants is that of the standard's appendix, not computed from the sine.
- Md5Context.Context.SetWords: takes the sixteen SETs of round 1 together before its steps, which is no different because nothing else reads block before round 2.
- Md5Hash.GetMd5Hash: returns a new string instead of the static buffer.
- Router: filters, statistics, MAC learning, static-route commands, and the listing form of get_routing_table.
- Router: IPv6 and dotted-mask arguments of IPAddr.new, octets with leading zeros, and signs or underscores in to_i; none of these is in text the router prints.
- RoutingProtocol.Router.UpdateRoutingTable: reads the clock once per update, not once per network.
- RoutingProtocol.Router.CheckRoutingTable: reads the clock once per check.
- RoutingProtocol.Router.SendUpdates: reads the clock once per call.
- RouterNetwork: which routers a broadcast can reach is not modelled, so any may receive it, the sender too, as over a second device on the same link; the clock of each check and broadcast is free.
- RouterSteady.SteadyIff: that every router has an address is a hypothesis; without one a router has nothing to broadcast from.
- E-shop: order totals, the text of item and order lists (except that an integer price cannot be formatted), names with characters outside Latin-1, Erlang terms other than text and the atoms used, durations beyond "timed out or not", and callers that give up after five seconds.
- E-shop: messages that no process of the model sends, hence the last branch of the session and keeper loops.
- E-shop: restart of the server after it has failed.
- SIP: buffer sizes, integer overflow of Max-Forwards, how the registered client is found, archiving, and messages that are answered rather than forwarded.
- SipText.AppendToString: does not model the capacity of the destination buffer.
- SipConformance.PushConformsIff: judges the place of the value, not its branch, which is never unique (SipConformance.BranchRepeats); header fields folded over several lines are not considered, nor a body without a Content-Length line, which the proxy cannot tell from header lines.
- SipResponses.PopConformsIff: header fields folded over several lines are not considered, nor a body without a Content-Length line; the client the response goes to is registered, since otherwise nothing is sent at all.
- SipOthers.StatusKeepsOthers: a response with an odd number of Via lines keeps whatever line follows the last one, Route and Max-Forwards included.
- SipChain.ViaRoundTrip: the far end and the two ends of the chain are not modelled; what section 8.2.6.2 of RFC 3261 asks of the far end is a hypothesis, and so is that every Max-Forwards line of a response has a number.
- ChallengeRing.Ring.IsResponseValid: an empty response is accepted exactly while some slot is empty, as the code has it; the one-use results are about non-empty ones.
- ChallengeRing.Ring.CreateChallengeForUser: the stored HA1 and the fresh nonce are parameters.
- The randomness of nonces and any cryptographic strength of MD5.
