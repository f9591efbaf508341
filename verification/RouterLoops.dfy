/**
 Runs in which forwarding fails: a check that drops a network in use closes a loop, and a
 packet for a network nested in a transit network is dropped on the way.
 */
module RouterLoops {
  import opened Text
  import opened IpNetwork
  import opened RoutingTable
  import opened RoutingProtocol
  import opened RouterNetwork
  import opened RouterForwarding
  import opened RouterBroadcast
  import opened RouterSteady
  import opened RouterChecks
  import opened RouterRuns

  lemma AfterCheck(s: System, r: RouterId, at: Time, m: Network)
    requires r in s.tables
    ensures r in Step(s, CheckTable(r, at)).tables
    ensures m in Step(s, CheckTable(r, at)).tables[r] <==> m in s.tables[r] && !Drops(s, r, at, m)
  {
    hide Canonical, Drops;
    CheckedTables(s, r, at, r, m);
  }

  /**
   When a check drops a network that another router still forwards to this one for, and no
   other route is as long, the other router's next broadcast closes a loop.
   */
  lemma UnsafeCheckCanLoop(states: seq<System>, events: seq<Event>, r: RouterId, at: Time,
                           x: RouterId, source: string, n: Network, ip: nat)
    returns (states': seq<System>, events': seq<Event>)
    requires IsRun(states, events)
    requires var s := states[|events|];
             && r in s.tables && x in s.tables && x != r && OwnedBy(s, source, x) && "self" !in s.owner
             && Drops(s, r, at, n) && NoneAsLong(s, r, at, ip, n)
             && IsLongestMatch(s.tables[x], ip, n) && OwnedBy(s, s.tables[x][n].gateway, r)
    ensures IsRun(states', events') && events + [CheckTable(r, at)] <= events' && states <= states'
    ensures Circle(states'[|events'|], x, r, ip)
  {
    hide Canonical, Includes, PrefixLength, IsLongestMatch, Initial, Step, Enabled, Heard, Drops;
    var s := states[|events|];
    CheckFrame(s, r, at);
    CheckEnabled(s, r, at);
    states', events' := OneMore(states, events, CheckTable(r, at));
    var c := states'[|events'|];
    forall m ensures m in c.tables[r] <==> m in s.tables[r] && !Drops(s, r, at, m) {
      AfterCheck(s, r, at, m);
    }
    states', events' := Broadcast(states', events', x, source, r, at);
    var t := states'[|events'|];
    MatchInTable(s.tables[x], ip, n);
    LongestAfterHearing(c, t, x, source, r, at, ip, n);
    ForwardsBy(t, r, ip, n, source, x);
    ForwardsBy(t, x, ip, n, s.tables[x][n].gateway, r);
  }

  // ---------- A loop, from the first broadcast on ----------

  function Own(nets: set<Network>): Table { map n | n in nets :: Entry("self", None, Direct, 0.0, 0) }

  lemma RunOn(states: seq<System>, events: seq<Event>, states': seq<System>, events': seq<Event>)
    requires IsRun(states, events) && Steps(states', events') && states <= states'
    ensures IsRun(states', events')
  {
    hide Initial, Step, Enabled;
  }

  /** A run goes on with a broadcast of x that r hears. */
  lemma RunOnHearing(states: seq<System>, events: seq<Event>, x: RouterId, source: string, r: RouterId, at: Time)
    returns (states': seq<System>, events': seq<Event>)
    requires IsRun(states, events) && |states| == |events| + 1
    requires var s := states[|events|]; x in s.tables && r in s.tables && OwnedBy(s, source, x)
    ensures IsRun(states', events') && |events'| == |events| + 2 && |states'| == |events'| + 1
    ensures events <= events' && states <= states' && forall i | |events| <= i < |events'| :: !events'[i].CheckTable?
    ensures var s, t := states[|events|], states'[|events'|];
            && t.owner == s.owner && t.attached == s.attached && t.tables.Keys == s.tables.Keys
            && (forall y | y in s.tables && y != r :: t.tables[y] == s.tables[y])
            && (forall n :: Heard(s, t, x, source, r, at, n))
  {
    hide *;
    RunParts(states, events);
    states', events' := Broadcast(states, events, x, source, r, at);
    RunOn(states, events, states', events');
  }

  /** Three routers on the network link; the third has net as well. */
  function Start(link: Network, net: Network, a: string, b: string, c: string): System {
    System(map[a := 0, b := 1, c := 2], map[a := link, b := link, c := link],
           map[0 := Own({link}), 1 := Own({link}), 2 := Own({link, net})], {})
  }

  lemma OwnTable(nets: set<Network>)
    ensures Own(nets).Keys == nets
    ensures forall n | n in nets :: Own(nets)[n].kind == Direct && Own(nets)[n].gateway == "self"
  {
    hide Canonical;
  }

  lemma StartsRun(s: System)
    requires AddressesKnown(s) && s.inFlight == {}
    requires forall a | a in s.owner :: s.attached[a] in s.tables[s.owner[a]]
    requires forall r, n | r in s.tables && n in s.tables[r] ::
               s.tables[r][n].kind == Direct && s.tables[r][n].gateway == "self"
    ensures IsRun([s], [])
  {
    hide Canonical;
  }

  lemma Starts(link: Network, net: Network, a: string, b: string, c: string)
    requires a != b && a != c && b != c && "self" !in {a, b, c}
    ensures IsRun([Start(link, net, a, b, c)], [])
  {
    OwnTable({link});
    OwnTable({link, net});
    hide Canonical, Own, IsRun;
    StartsRun(Start(link, net, a, b, c));
  }

  lemma OnlyMatch(link: Network, net: Network, table: Table)
    requires table.Keys == {link, net} && !Includes(link, net.addr)
    ensures IsLongestMatch(table, net.addr, net)
  {
    hide Canonical, PrefixLength;
    assert Includes(net, net.addr);
    forall m | m in table && Includes(m, net.addr) ensures m == net {
      assert m in {link, net};
    }
  }

  lemma SameKeys(s: System, t: System, x: RouterId, source: string, r: RouterId, at: Time)
    requires x in s.tables && r in s.tables && r in t.tables
    requires forall n :: Heard(s, t, x, source, r, at, n)
    ensures t.tables[r].Keys == s.tables[r].Keys + s.tables[x].Keys
  {
    hide Canonical;
    forall n ensures n in t.tables[r] <==> n in s.tables[r] || n in s.tables[x] {
      assert Heard(s, t, x, source, r, at, n);
    }
  }

  /** Router 1 has learned net from router 2 at time 0, and router 0 from router 1 at time 1. */
  lemma LearnedInTurn(link: Network, net: Network, a: string, b: string, c: string)
    returns (states: seq<System>, events: seq<Event>)
    requires a != b && a != c && b != c && "self" !in {a, b, c} && !Includes(link, net.addr)
    ensures IsRun(states, events)
    ensures var s := states[|events|];
            && s.owner == map[a := 0, b := 1, c := 2] && s.tables.Keys == {0, 1, 2}
            && s.tables[0].Keys == {link, net} && s.tables[1].Keys == {link, net}
            && s.tables[0][net] == Entry(b, None, Dynamic, 1.0, 3)
            && s.tables[1][net] == Entry(c, None, Dynamic, 0.0, 3)
  {
    hide Canonical, IsRun, Heard, Includes;
    Starts(link, net, a, b, c);
    var s0 := Start(link, net, a, b, c);
    states, events := [s0], [];
    assert link != net by { OwnAddress(net); }
    states, events := RunOnHearing(states, events, 2, c, 1, 0.0);
    var s1 := states[|events|];
    SameKeys(s0, s1, 2, c, 1, 0.0);
    NewEntry(s0, s1, 2, c, 1, 0.0, net);
    states, events := RunOnHearing(states, events, 1, b, 0, 1.0);
    var s2 := states[|events|];
    SameKeys(s1, s2, 1, b, 0, 1.0);
    NewEntry(s1, s2, 1, b, 0, 1.0, net);
  }

  lemma OwnAddress(net: Network)
    ensures Includes(net, net.addr)
  {
    hide Canonical;
  }

  lemma NewEntry(s: System, t: System, x: RouterId, source: string, r: RouterId, at: Time, n: Network)
    requires x in s.tables && r in s.tables && r in t.tables
    requires Heard(s, t, x, source, r, at, n) && n !in s.tables[r] && n in s.tables[x]
    ensures n in t.tables[r] && t.tables[r][n] == Entry(source, None, Dynamic, at, 3)
  {
    hide Canonical;
  }

  /**
   With such a check the routers loop.  Router 1 learns a network from router 2 and router 0
   from router 1; router 2 falls silent, router 1 drops the network and takes it back from
   router 0: now 0 and 1 forward to each other.
   */
  lemma ExpiryCanLoop(link: Network, net: Network, a: string, b: string, c: string)
    returns (states: seq<System>, events: seq<Event>)
    requires a != b && a != c && b != c && "self" !in {a, b, c} && !Includes(link, net.addr)
    ensures IsRun(states, events) && |states| == |events| + 1 && !ChecksAreSafe(states, events, net.addr)
    ensures Circle(states[|events|], 0, 1, net.addr)
  {
    hide Canonical, IsRun, Includes, Circle, PrefixLength, IsLongestMatch;
    var before, done := LearnedInTurn(link, net, a, b, c);
    RunParts(before, done);
    var s := before[|done|];
    OwnAddress(net);
    OnlyMatch(link, net, s.tables[0]);
    OnlyLinkLeft(s, link, net);
    states, events := UnsafeCheckCanLoop(before, done, 1, 4.0, 0, a, net, net.addr);
    RunParts(states, events);
    assert states[|done|] == s && events[|done|] == CheckTable(1, 4.0);
    SaneAt(before, done, |done|);
    UnsafeDrop(s, 1, 4.0, 0, net, net.addr);
  }

  lemma UnsafeDrop(s: System, r: RouterId, at: Time, x: RouterId, n: Network, ip: nat)
    requires Sane(s) && r in s.tables && x in s.tables && x != r
    requires Drops(s, r, at, n) && Includes(n, ip) && NoneAsLong(s, r, at, ip, n) && Follows(s, x, r, ip, n)
    ensures !SafeCheck(s, r, at, ip)
  {
    hide Canonical, Sane, SafeCheck, Drops, Includes, NoneAsLong, Follows;
    if SafeCheck(s, r, at, ip) {
      SafeDropsNoRoute(s, r, at, ip);
    }
  }

  lemma OnlyLinkLeft(s: System, link: Network, net: Network)
    requires 1 in s.tables && s.tables[1].Keys == {link, net} && !Includes(link, net.addr)
    requires s.tables[1][net].kind == Dynamic && s.tables[1][net].received == 0.0 && s.tables[1][net].validTime == 3
    ensures Drops(s, 1, 4.0, net) && NoneAsLong(s, 1, 4.0, net.addr, net)
  {
    hide Canonical, Includes, PrefixLength;
  }

  // ---------- A packet that is dropped on the way ----------

  /** Two routers on the network outer; the second has inner as well. */
  function Nested(outer: Network, inner: Network, a: string, b: string): System {
    System(map[a := 0, b := 1], map[a := outer, b := outer], map[0 := Own({outer}), 1 := Own({outer, inner})], {})
  }

  lemma NestedStarts(outer: Network, inner: Network, a: string, b: string)
    requires a != b && "self" !in {a, b}
    ensures IsRun([Nested(outer, inner, a, b)], [])
  {
    OwnTable({outer});
    OwnTable({outer, inner});
    hide Canonical, Own, IsRun;
    StartsRun(Nested(outer, inner, a, b));
  }

  lemma InnerMatch(outer: Network, inner: Network, table: Table)
    requires table.Keys == {outer, inner} && PrefixLength(outer) < PrefixLength(inner)
    ensures IsLongestMatch(table, inner.addr, inner)
  {
    hide Canonical, PrefixLength;
    assert Includes(inner, inner.addr);
    forall m | m in table && Includes(m, inner.addr) ensures PrefixLength(m) <= PrefixLength(inner) {
      assert m in {outer, inner};
    }
  }

  /**
   The gateways lead to the router that has the inner network, but it takes the packet for
   local to the outer one, from which it arrives, and drops it.
   */
  lemma NestedNetworkStops(outer: Network, inner: Network, a: string, b: string, arrival: Network)
    returns (states: seq<System>, events: seq<Event>)
    requires a != b && "self" !in {a, b}
    requires PrefixLength(outer) < PrefixLength(inner) && Includes(outer, inner.addr) && !Includes(arrival, inner.addr)
    ensures IsRun(states, events) && |states| == |events| + 1 && ChecksAreSafe(states, events, inner.addr)
    ensures var s := states[|events|];
            && 0 in s.tables && 1 in s.tables && Routable(s.tables[0], inner.addr)
            && NextHop(s, 0, inner.addr) == Forward(b, 1) && NextHop(s, 1, inner.addr) == Attached
            && Travel(s, 0, arrival, inner.addr, |s.tables|) == Stopped(1)
  {
    hide Canonical, IsRun, Heard, Includes, PrefixLength, IsLongestMatch, Routable, NextHop, Travel;
    NestedStarts(outer, inner, a, b);
    var s0 := Nested(outer, inner, a, b);
    states, events := RunOnHearing([s0], [], 1, b, 0, 0.0);
    var s := states[|events|];
    SameKeys(s0, s, 1, b, 0, 0.0);
    NewEntry(s0, s, 1, b, 0, 0.0, inner);
    InnerMatch(outer, inner, s.tables[0]);
    ForwardsBy(s, 0, inner.addr, inner, b, 1);
    InnerMatch(outer, inner, s.tables[1]);
    AttachedThere(s, 1, inner.addr, inner);
    assert s.tables.Keys == {0, 1};
    TravelUnfolds(s, 0, arrival, inner.addr, |s.tables|);
    TravelUnfolds(s, 1, outer, inner.addr, |s.tables| - 1);
  }

  lemma AttachedThere(s: System, r: RouterId, ip: nat, n: Network)
    requires r in s.tables && IsLongestMatch(s.tables[r], ip, n) && s.tables[r][n].gateway == "self"
    ensures NextHop(s, r, ip) == Attached
  {
    hide Canonical, Includes, PrefixLength, IsLongestMatch;
    HasRoute(s.tables[r], ip, n);
    FindRouteIgnoresTies(s.tables[r], ip, n);
    hide Routable;
  }

  // ---------- A network that expires without harm ----------

  /** A broadcast of x, named by order, that r hears if heard is set, and that is lost afterwards. */
  lemma SentAndLost(states: seq<System>, events: seq<Event>, x: RouterId, source: string, order: seq<Network>,
                    heard: bool, r: RouterId, at: Time)
    returns (states': seq<System>, events': seq<Event>)
    requires IsRun(states, events) && |states| == |events| + 1
    requires var s := states[|events|];
             && x in s.tables && r in s.tables && OwnedBy(s, source, x) && IsSortedNetworks(order, s.tables[x])
             && s.inFlight == {}
    ensures IsRun(states', events') && |states'| == |events'| + 1 && states <= states'
    ensures events + [Send(x, source, order)] <= events'
        && forall i | |events| <= i < |events'| :: !events'[i].CheckTable?
    ensures var s, t := states[|events|], states'[|events'|];
            && t.owner == s.owner && t.attached == s.attached && t.tables.Keys == s.tables.Keys && t.inFlight == {}
            && (forall y | y in s.tables && (y != r || !heard) :: t.tables[y] == s.tables[y])
            && (heard ==> forall n :: Heard(s, t, x, source, r, at, n))
  {
    hide Canonical, LearnAll, IsSortedNetworks, Heard, Initial;
    var s, advert := states[|events|], Advert(source, order);
    states', events' := OneMore(states, events, Send(x, source, order));
    if heard {
      states', events' := OneMore(states', events', Receive(r, advert, None, at));
    }
    states', events' := OneMore(states', events', Lose(x, advert));
    RunOn(states, events, states', events');
    if heard {
      forall n ensures Heard(s, states'[|events'|], x, source, r, at, n) {
        LearnedFrom(s, states'[|events'|], x, source, r, at, order, n);
      }
    }
  }

  lemma LeafCheckSafe(s: System, outer: Network, inner: Network, ip: nat)
    requires Sane(s) && s.inFlight == {} && s.tables.Keys == {0, 1}
    requires forall n | n in s.tables[1] :: s.tables[1][n].gateway == "self"
    requires s.tables[0].Keys == {outer, inner} && outer != inner && s.tables[0][outer].gateway == "self"
    requires Drops(s, 0, 4.0, inner)
    ensures SafeCheck(s, 0, 4.0, ip) && inner !in Step(s, CheckTable(0, 4.0)).tables[0]
  {
    hide Canonical, Includes, PrefixLength, Path, Routable, KeepsAsLong;
    forall x | x in s.tables && x != 0 ensures ServesFollower(s, 0, 4.0, ip, x) {
      if Routable(s.tables[x], ip) {
        assert LongestMatch(s.tables[x], ip) in s.tables[x];
      }
    }
    forall kept | kept in s.tables[0] ensures LeftRouteGood(s, 0, 4.0, ip, kept) {
      assert kept in Expire(s.tables[0], 4.0) ==> kept == outer;
    }
  }

  /**
   Router 0 learns the inner network from router 1, broadcasts it, hears no more of it and drops
   it: that check is safe for every destination.
   */
  lemma ExpiryCanBeSafe(outer: Network, inner: Network, a: string, b: string)
    returns (states: seq<System>, events: seq<Event>, i: nat, order: seq<Network>)
    requires a != b && "self" !in {a, b} && outer != inner
    ensures IsRun(states, events) && |states| == |events| + 1
    ensures forall ip: nat :: ChecksAreSafe(states, events, ip)
    ensures i < |events| - 1 && events[i] == Send(0, a, order) && inner in order
    ensures events[|events| - 1] == CheckTable(0, 4.0) && 0 in states[|events| - 1].tables
        && Drops(states[|events| - 1], 0, 4.0, inner)
  {
    hide *;
    NestedStarts(outer, inner, a, b);
    var s0 := Nested(outer, inner, a, b);
    NestedParts(outer, inner, a, b);
    SortedNetworksExist(s0.tables[1]);
    order :| IsSortedNetworks(order, s0.tables[1]);
    states, events := SentAndLost([s0], [], 1, b, order, true, 0, 0.0);
    var s1 := states[|events|];
    SameKeys(s0, s1, 1, b, 0, 0.0);
    NewEntry(s0, s1, 1, b, 0, 0.0, inner);
    OldEntry(s0, s1, 1, b, 0, 0.0, outer);
    SortedNetworksExist(s1.tables[0]);
    order :| IsSortedNetworks(order, s1.tables[0]);
    i := |events|;
    InOrder(order, s1.tables[0], inner);
    SameOwner(s0, s1, a, 0);
    states, events := SentAndLost(states, events, 0, a, order, false, 1, 0.0);
    var s2 := states[|events|];
    LearnedEntryDrops(s2, 0, inner, b);
    SaneAt(states, events, |events|);
    forall ip: nat ensures SafeCheck(s2, 0, 4.0, ip) {
      LeafCheckSafe(s2, outer, inner, ip);
    }
    RunParts(states, events);
    CheckEnabled(s2, 0, 4.0);
    var before, done := states, events;
    states, events := OneMore(states, events, CheckTable(0, 4.0));
    RunOn(before, done, states, events);
    forall ip: nat ensures ChecksAreSafe(states, events, ip) {
      LastCheckSafe(states, events, ip);
    }
  }

  lemma NestedParts(outer: Network, inner: Network, a: string, b: string)
    requires a != b
    ensures var s := Nested(outer, inner, a, b);
            && s.inFlight == {} && s.tables.Keys == {0, 1} && OwnedBy(s, a, 0) && OwnedBy(s, b, 1)
            && s.tables[0].Keys == {outer} && s.tables[1].Keys == {outer, inner}
            && s.tables[0][outer].gateway == "self" && forall n | n in s.tables[1] :: s.tables[1][n].gateway == "self"
  {
    hide Canonical;
    OwnTable({outer});
    OwnTable({outer, inner});
  }

  lemma SameOwner(s: System, t: System, address: string, r: RouterId)
    requires OwnedBy(s, address, r) && t.owner == s.owner
    ensures OwnedBy(t, address, r)
  {
  }

  lemma OldEntry(s: System, t: System, x: RouterId, source: string, r: RouterId, at: Time, n: Network)
    requires x in s.tables && r in s.tables && r in t.tables
    requires Heard(s, t, x, source, r, at, n) && n in s.tables[r]
    ensures n in t.tables[r] && t.tables[r][n].gateway == s.tables[r][n].gateway
  {
    hide Canonical;
  }

  lemma InOrder(order: seq<Network>, table: Table, n: Network)
    requires IsSortedNetworks(order, table) && n in table
    ensures n in order
  {
    hide Canonical, PrefixLength;
  }

  lemma LearnedEntryDrops(s: System, r: RouterId, n: Network, gateway: string)
    requires r in s.tables && n in s.tables[r] && s.tables[r][n] == Entry(gateway, None, Dynamic, 0.0, 3)
    ensures Drops(s, r, 4.0, n)
  {
    hide Canonical;
  }

  lemma LastCheckSafe(states: seq<System>, events: seq<Event>, ip: nat)
    requires |states| == |events| + 1 && events != []
    requires forall i | 0 <= i < |events| - 1 :: !events[i].CheckTable?
    requires var s, e := states[|events| - 1], events[|events| - 1];
             e.CheckTable? && e.router in s.tables && SafeCheck(s, e.router, e.at, ip)
    ensures ChecksAreSafe(states, events, ip)
  {
    hide Canonical, SafeCheck;
  }
}
