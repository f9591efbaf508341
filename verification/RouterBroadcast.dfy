/**
 Running the routers on from a state: one broadcast that another router hears, and what the
 tables say then.
 */
module RouterBroadcast {
  import opened Text
  import opened IpNetwork
  import opened RoutingTable
  import opened RoutingProtocol
  import opened RouterNetwork
  import opened RouterForwarding

  lemma OneMore(states: seq<System>, events: seq<Event>, e: Event) returns (states': seq<System>, events': seq<Event>)
    requires Steps(states, events) && Enabled(states[|events|], e)
    ensures Steps(states', events') && events' == events + [e]
    ensures |states| == |events| + 1 && states' == states + [Step(states[|events|], e)]
  {
    hide Canonical, Step, Initial, IsSortedNetworks;
    states', events' := states + [Step(states[|events|], e)], events + [e];
  }

  /** What r holds after hearing a broadcast of x. */
  ghost predicate Heard(s: System, t: System, x: RouterId, source: string, r: RouterId, at: Time, n: Network)
    requires x in s.tables && r in s.tables && r in t.tables
  {
    && (n in t.tables[r] <==> n in s.tables[r] || n in s.tables[x])
    && (n in s.tables[r] ==>
          t.tables[r][n].gateway == s.tables[r][n].gateway && t.tables[r][n].kind == s.tables[r][n].kind)
    && (n !in s.tables[r] && n in s.tables[x] ==> t.tables[r][n] == Entry(source, None, Dynamic, at, 3))
  }

  lemma LearnedFrom(s: System, t: System, x: RouterId, source: string, r: RouterId, at: Time,
                    order: seq<Network>, n: Network)
    requires x in s.tables && r in s.tables && IsSortedNetworks(order, s.tables[x])
    requires r in t.tables && t.tables[r] == LearnAll(s.tables[r], order, source, None, at, 3)
    ensures Heard(s, t, x, source, r, at, n)
  {
    hide Canonical, LearnAll;
    LearnAllAt(s.tables[r], order, source, None, at, 3, n);
  }

  /** Router x broadcasts from one of its addresses, and r hears it. */
  lemma Broadcast(states: seq<System>, events: seq<Event>, x: RouterId, source: string, r: RouterId, at: Time)
    returns (states': seq<System>, events': seq<Event>)
    requires Steps(states, events)
    requires var s := states[|events|]; x in s.tables && r in s.tables && OwnedBy(s, source, x)
    ensures Steps(states', events') && |events'| == |events| + 2 && |states'| == |events'| + 1
        && |states| == |events| + 1
    ensures events <= events' && states <= states' && forall i | |events| <= i < |events'| :: !events'[i].CheckTable?
    ensures var s, t := states[|events|], states'[|events'|];
            && t.owner == s.owner && t.attached == s.attached && t.tables.Keys == s.tables.Keys
            && (forall y | y in s.tables && y != r :: t.tables[y] == s.tables[y])
            && (forall n :: Heard(s, t, x, source, r, at, n))
  {
    hide Canonical, LearnAll, IsSortedNetworks, Heard;
    var s := states[|events|];
    SortedNetworksExist(s.tables[x]);
    var order :| IsSortedNetworks(order, s.tables[x]);
    states', events' := OneMore(states, events, Send(x, source, order));
    states', events' := OneMore(states', events', Receive(r, Advert(source, order), None, at));
    forall n ensures Heard(s, states'[|events'|], x, source, r, at, n) {
      LearnedFrom(s, states'[|events'|], x, source, r, at, order, n);
    }
  }

  lemma ForwardsBy(s: System, r: RouterId, ip: nat, n: Network, gateway: string, next: RouterId)
    requires r in s.tables && IsLongestMatch(s.tables[r], ip, n)
    requires s.tables[r][n].gateway == gateway && gateway != "self" && OwnedBy(s, gateway, next) && next in s.tables
    ensures NextHop(s, r, ip) == Forward(gateway, next) && Routable(s.tables[r], ip)
  {
    hide Canonical, Includes, PrefixLength, IsLongestMatch;
    HasRoute(s.tables[r], ip, n);
    FindRouteIgnoresTies(s.tables[r], ip, n);
    hide Routable;
  }

  lemma HasRoute(table: Table, ip: nat, n: Network)
    requires IsLongestMatch(table, ip, n)
    ensures Routable(table, ip)
  {
    hide Canonical, Includes, PrefixLength;
  }

  lemma LongestAfterHearing(s: System, t: System, x: RouterId, source: string, r: RouterId, at: Time, ip: nat,
        n: Network)
    requires x in s.tables && r in s.tables && r in t.tables && IsLongestMatch(s.tables[x], ip, n)
    requires forall m :: Heard(s, t, x, source, r, at, m)
    requires n !in s.tables[r]
    requires forall m | m in s.tables[r] && Includes(m, ip) :: PrefixLength(m) < PrefixLength(n)
    ensures IsLongestMatch(t.tables[r], ip, n) && t.tables[r][n].gateway == source
  {
    hide Canonical, Includes, PrefixLength;
    assert Heard(s, t, x, source, r, at, n);
    forall m | m in t.tables[r] && Includes(m, ip) ensures PrefixLength(m) <= PrefixLength(n) {
      assert Heard(s, t, x, source, r, at, m);
    }
  }

  lemma MatchInTable(table: Table, ip: nat, n: Network)
    requires IsLongestMatch(table, ip, n)
    ensures n in table && Includes(n, ip)
  {
    hide Canonical, Includes, PrefixLength;
  }
}
