/**
 Where the tables of the routers lead a packet, and where the test of route_packet on the
 network a packet arrives from stops it.
 */
module RouterForwarding {
  import opened IpNetwork
  import opened RoutingTable
  import opened RouterNetwork

  // ---------- Following the tables ----------

  /** What the lookup of a router says: the attached network, nothing, or a gateway of a router. */
  datatype Hop = Attached | Unroutable | Forward(gateway: string, next: RouterId) | Lost

  ghost function NextHop(s: System, r: RouterId, ip: nat): (hop: Hop)
    requires r in s.tables
    ensures hop == Unroutable <==> !Routable(s.tables[r], ip)
    ensures hop.Forward? ==> hop.next in s.tables && OwnedBy(s, hop.gateway, hop.next)
  {
    if !Routable(s.tables[r], ip) then Unroutable
    else
      var gateway := s.tables[r][LongestMatch(s.tables[r], ip)].gateway;
      if gateway == "self" then Attached
      else if gateway in s.owner && s.owner[gateway] in s.tables then Forward(gateway, s.owner[gateway]) else Lost
  }

  /** The routers that the gateways lead through, in at most fuel steps. */
  ghost function Path(s: System, r: RouterId, ip: nat, fuel: nat): (path: seq<RouterId>)
    requires r in s.tables
    ensures path != [] && path[0] == r && |path| <= fuel + 1
    decreases fuel
  {
    var hop := NextHop(s, r, ip);
    if fuel > 0 && hop.Forward? then [r] + Path(s, hop.next, ip, fuel - 1) else [r]
  }

  lemma PathUnfolds(s: System, r: RouterId, ip: nat, fuel: nat)
    requires r in s.tables
    ensures var hop := NextHop(s, r, ip);
            Path(s, r, ip, fuel) == if fuel > 0 && hop.Forward? then [r] + Path(s, hop.next, ip, fuel - 1) else [r]
  {
    hide Canonical, NextHop;
  }

  /** For each router, how far it is from the end among those with an equally long match. */
  type Ranks = map<RouterId, nat>

  function RankOf(ranks: Ranks, r: RouterId): nat {
    if r in ranks then ranks[r] else 0
  }

  /** The measure that falls at every hop: 32 minus the matched length, then the rank. */
  ghost function Distance(s: System, ranks: Ranks, r: RouterId, ip: nat): (nat, nat)
    requires r in s.tables && Routable(s.tables[r], ip)
  {
    (32 - MatchLength(s.tables[r], ip), RankOf(ranks, r))
  }

  predicate Less(x: (nat, nat), y: (nat, nat)) {
    x.0 < y.0 || (x.0 == y.0 && x.1 < y.1)
  }

  /** A route of x is direct, or its gateway is a nearer router that has a route. */
  ghost predicate NearerFrom(s: System, ranks: Ranks, x: RouterId, ip: nat)
    requires x in s.tables
  {
    Routable(s.tables[x], ip) ==>
      var hop := NextHop(s, x, ip);
      || (hop == Attached && s.tables[x][LongestMatch(s.tables[x], ip)].kind == Direct)
      || (&& hop.Forward? && Routable(s.tables[hop.next], ip)
          && Less(Distance(s, ranks, hop.next, ip), Distance(s, ranks, x, ip)))
  }

  ghost predicate Nearer(s: System, ranks: Ranks, ip: nat) {
    && AddressesKnown(s)
    && forall x | x in s.tables :: NearerFrom(s, ranks, x, ip)
  }

  lemma NearerStep(s: System, ranks: Ranks, x: RouterId, ip: nat)
    requires Nearer(s, ranks, ip) && x in s.tables && Routable(s.tables[x], ip)
    ensures NextHop(s, x, ip) == Attached || NextHop(s, x, ip).Forward?
    ensures NextHop(s, x, ip) == Attached ==> s.tables[x][LongestMatch(s.tables[x], ip)].kind == Direct
    ensures NextHop(s, x, ip).Forward? ==>
              var y := NextHop(s, x, ip).next;
              Routable(s.tables[y], ip) && Less(Distance(s, ranks, y, ip), Distance(s, ranks, x, ip))
  {
    hide Canonical, AddressesKnown, Routable, NextHop, Distance, Less;
    assert NearerFrom(s, ranks, x, ip);
  }

  /** In a ranked state the rank of a router is that of its longest match. */
  ghost function RanksOf(s: System, rank: Ranking, ip: nat): Ranks {
    map x | x in s.tables && Routable(s.tables[x], ip) && (x, LongestMatch(s.tables[x], ip)) in rank ::
      rank[(x, LongestMatch(s.tables[x], ip))]
  }

  lemma GatewayIsNearer(s: System, rank: Ranking, x: RouterId, ip: nat)
    requires Ranked(s, rank, ip) && x in s.tables
    ensures NearerFrom(s, RanksOf(s, rank, ip), x, ip)
  {
    hide Canonical, Includes, PrefixLength, Routable, AdvertKept;
    if Routable(s.tables[x], ip) {
      var m := LongestMatch(s.tables[x], ip);
      assert m in s.tables[x] && Includes(m, ip);
      assert EntryRanked(s, rank, x, m);
      if NextHop(s, x, ip).Forward? {
        var y := NextHop(s, x, ip).next;
        assert HasAsLong(s.tables[y], ip, PrefixLength(m));
        HasAsLongMatch(s.tables[y], ip, PrefixLength(m));
        var n := LongestMatch(s.tables[y], ip);
        if PrefixLength(n) == PrefixLength(m) {
          SameLengthSameNetwork(n, m, ip);
        }
        assert EntryRanked(s, rank, y, n);
      }
    }
  }

  lemma RankedIsNearer(s: System, rank: Ranking, ip: nat)
    requires Ranked(s, rank, ip)
    ensures Nearer(s, RanksOf(s, rank, ip), ip)
  {
    hide Canonical, EntryRanked, AdvertKept, NearerFrom;
    forall x | x in s.tables ensures NearerFrom(s, RanksOf(s, rank, ip), x, ip) {
      GatewayIsNearer(s, rank, x, ip);
    }
  }

  /** Every router of the path can route the packet, and is nearer than all before it. */
  ghost predicate Descends(s: System, ranks: Ranks, path: seq<RouterId>, ip: nat) {
    && (forall i | 0 <= i < |path| :: path[i] in s.tables && Routable(s.tables[path[i]], ip))
    && (forall i, j | 0 <= i < j < |path| :: Less(Distance(s, ranks, path[j], ip), Distance(s, ranks, path[i], ip)))
  }

  lemma DescendsFrom(s: System, ranks: Ranks, r: RouterId, rest: seq<RouterId>, ip: nat)
    requires r in s.tables && Routable(s.tables[r], ip)
    requires rest != [] && Descends(s, ranks, rest, ip)
    requires Less(Distance(s, ranks, rest[0], ip), Distance(s, ranks, r, ip))
    ensures Descends(s, ranks, [r] + rest, ip)
  {
    hide Distance, Routable;
    var path := [r] + rest;
    forall i, j | 0 <= i < j < |path|
      ensures Less(Distance(s, ranks, path[j], ip), Distance(s, ranks, path[i], ip))
    {
      assert path[j] == rest[j - 1];
      if i > 0 {
        assert path[i] == rest[i - 1];
      }
    }
  }

  lemma DescendsAlone(s: System, ranks: Ranks, r: RouterId, ip: nat)
    requires r in s.tables && Routable(s.tables[r], ip)
    ensures Descends(s, ranks, [r], ip)
  {
    hide Canonical, Distance, Routable;
  }

  lemma {:induction false} PathDescends(s: System, ranks: Ranks, r: RouterId, ip: nat, fuel: nat)
    requires Nearer(s, ranks, ip) && r in s.tables && Routable(s.tables[r], ip)
    ensures Descends(s, ranks, Path(s, r, ip, fuel), ip)
    decreases fuel
  {
    PathUnfolds(s, r, ip, fuel);
    var hop := NextHop(s, r, ip);
    if fuel == 0 || !hop.Forward? {
      DescendsAlone(s, ranks, r, ip);
      hide *;
    } else {
      hide *;
      NearerStep(s, ranks, r, ip);
      PathDescends(s, ranks, hop.next, ip, fuel - 1);
      DescendsFrom(s, ranks, r, Path(s, hop.next, ip, fuel - 1), ip);
    }
  }

  /** The path goes on until the destination is direct or the fuel is spent. */
  lemma {:induction false} PathEnds(s: System, ranks: Ranks, r: RouterId, ip: nat, fuel: nat)
    requires Nearer(s, ranks, ip) && r in s.tables && Routable(s.tables[r], ip)
    ensures var path := Path(s, r, ip, fuel);
            var last := path[|path| - 1];
            |path| == fuel + 1 || (last in s.tables && NextHop(s, last, ip) == Attached)
    decreases fuel
  {
    hide *;
    PathUnfolds(s, r, ip, fuel);
    NearerStep(s, ranks, r, ip);
    var hop := NextHop(s, r, ip);
    if fuel > 0 && hop.Forward? {
      PathEnds(s, ranks, hop.next, ip, fuel - 1);
      LastOfLonger(r, Path(s, hop.next, ip, fuel - 1));
    }
  }

  lemma LastOfLonger(r: RouterId, rest: seq<RouterId>)
    requires rest != []
    ensures ([r] + rest)[|rest|] == rest[|rest| - 1] && |[r] + rest| == |rest| + 1
  {
  }

  ghost predicate Distinct(path: seq<RouterId>) {
    forall i, j | 0 <= i < j < |path| :: path[i] != path[j]
  }

  lemma {:induction false} DistinctFit(path: seq<RouterId>, routers: set<RouterId>)
    requires Distinct(path) && forall r | r in path :: r in routers
    ensures |path| <= |routers|
  {
    if path != [] {
      var n := |path| - 1;
      DistinctFit(path[..n], routers - {path[n]});
    }
  }

  lemma DescendingIsDistinct(s: System, ranks: Ranks, path: seq<RouterId>, ip: nat)
    requires Descends(s, ranks, path, ip)
    ensures Distinct(path) && |path| <= |s.tables|
    ensures forall x | x in path :: x in s.tables && Routable(s.tables[x], ip)
  {
    hide Canonical, Distance, Routable;
    forall i, j | 0 <= i < j < |path|
      ensures path[i] != path[j]
    {
      assert Less(Distance(s, ranks, path[j], ip), Distance(s, ranks, path[i], ip));
    }
    DistinctFit(path, s.tables.Keys);
  }

  /** The gateways lead from r, without a loop, to a router with a direct network as longest match. */
  ghost predicate LeadsToDirect(s: System, r: RouterId, ip: nat)
    requires r in s.tables
  {
    var path := Path(s, r, ip, |s.tables|);
    var last := path[|path| - 1];
    && Distinct(path) && |path| <= |s.tables|
    && last in s.tables && Routable(s.tables[last], ip) && NextHop(s, last, ip) == Attached
    && s.tables[last][LongestMatch(s.tables[last], ip)].kind == Direct
  }

  lemma NearerLeads(s: System, ranks: Ranks, r: RouterId, ip: nat)
    requires Nearer(s, ranks, ip) && r in s.tables && Routable(s.tables[r], ip)
    ensures LeadsToDirect(s, r, ip)
  {
    hide *;
    var n := |s.tables|;
    var path := Path(s, r, ip, n);
    var last := path[|path| - 1];
    PathDescends(s, ranks, r, ip, n);
    DescendingIsDistinct(s, ranks, path, ip);
    PathEnds(s, ranks, r, ip, n);
    assert last in path;
    NearerStep(s, ranks, last, ip);
    Leads(s, r, ip);
  }

  lemma Leads(s: System, r: RouterId, ip: nat)
    requires r in s.tables
    requires var path := Path(s, r, ip, |s.tables|);
             var last := path[|path| - 1];
             && Distinct(path) && |path| <= |s.tables|
             && last in s.tables && Routable(s.tables[last], ip) && NextHop(s, last, ip) == Attached
             && s.tables[last][LongestMatch(s.tables[last], ip)].kind == Direct
    ensures LeadsToDirect(s, r, ip)
  {
    hide Canonical, Path, Distinct, Routable, NextHop, IsLongestMatch;
  }

  lemma LeadsWhere(s: System, r: RouterId, ip: nat)
    requires r in s.tables && LeadsToDirect(s, r, ip)
    ensures var path := Path(s, r, ip, |s.tables|);
            var last := path[|path| - 1];
            && Distinct(path) && |path| <= |s.tables| && last in s.tables && NextHop(s, last, ip) == Attached
            && s.tables[last][LongestMatch(s.tables[last], ip)].kind == Direct
  {
    hide Canonical, Path, Distinct, Routable, NextHop, IsLongestMatch;
  }

  lemma LeadsWithin(s: System, r: RouterId, ip: nat)
    requires r in s.tables && LeadsToDirect(s, r, ip)
    ensures |Path(s, r, ip, |s.tables|)| <= |s.tables|
  {
    hide Canonical, Path, Distinct, Routable, NextHop, IsLongestMatch;
  }

  /** The two routers, or the one router if x is y, pass every packet for ip on to each other. */
  ghost predicate Circle(s: System, x: RouterId, y: RouterId, ip: nat) {
    && x in s.tables && y in s.tables
    && NextHop(s, x, ip).Forward? && NextHop(s, x, ip).next == y
    && NextHop(s, y, ip).Forward? && NextHop(s, y, ip).next == x
  }

  lemma {:induction false} CirclePath(s: System, x: RouterId, y: RouterId, ip: nat, fuel: nat)
    requires Circle(s, x, y, ip)
    ensures |Path(s, x, ip, fuel)| == fuel + 1
    decreases fuel
  {
    hide Canonical, NextHop, Path;
    PathUnfolds(s, x, ip, fuel);
    if fuel > 0 {
      CirclePath(s, y, x, ip, fuel - 1);
    }
  }

  lemma CircleLeadsNowhere(s: System, x: RouterId, y: RouterId, ip: nat)
    requires Circle(s, x, y, ip)
    ensures !LeadsToDirect(s, x, ip)
  {
    hide LeadsToDirect, NextHop, Path;
    CirclePath(s, x, y, ip, |s.tables|);
    if LeadsToDirect(s, x, ip) {
      LeadsWithin(s, x, ip);
    }
  }

  /** More fuel does not lengthen a path that ends for want of a gateway. */
  lemma {:induction false} PathStable(s: System, r: RouterId, ip: nat, fuel: nat)
    requires r in s.tables && |Path(s, r, ip, fuel)| <= fuel
    ensures Path(s, r, ip, fuel + 1) == Path(s, r, ip, fuel)
    decreases fuel
  {
    hide Canonical, NextHop, Path;
    PathUnfolds(s, r, ip, fuel);
    PathUnfolds(s, r, ip, fuel + 1);
    var hop := NextHop(s, r, ip);
    if fuel > 0 && hop.Forward? {
      PathStable(s, hop.next, ip, fuel - 1);
    }
  }

  // ---------- Following the packet ----------

  /** What becomes of a packet that is not filtered. */
  datatype Outcome = Arrived(router: RouterId) | Stopped(router: RouterId) | Dropped(router: RouterId) | Circling

  /**
   route_packet at each router: a packet whose destination is in the network it arrives
   from is not routed.  From a gateway address it arrives on the network of that address.
   */
  ghost function Travel(s: System, r: RouterId, arrival: Network, ip: nat, fuel: nat): Outcome
    requires r in s.tables
    decreases fuel
  {
    var hop := NextHop(s, r, ip);
    if Includes(arrival, ip) then Stopped(r)
    else if hop == Attached then Arrived(r)
    else if !hop.Forward? || hop.gateway !in s.attached then Dropped(r)
    else if fuel == 0 then Circling
    else Travel(s, hop.next, s.attached[hop.gateway], ip, fuel - 1)
  }

  /** The network on which a router's gateway for the destination is reached. */
  ghost predicate GatewayInside(s: System, x: RouterId, ip: nat) {
    && x in s.tables && NextHop(s, x, ip).Forward?
    && NextHop(s, x, ip).gateway in s.attached && Includes(s.attached[NextHop(s, x, ip).gateway], ip)
  }

  /** Neither the first network nor that of any gateway on the path contains the destination. */
  ghost predicate Unobstructed(s: System, path: seq<RouterId>, arrival: Network, ip: nat) {
    !Includes(arrival, ip) && forall x | x in path :: !GatewayInside(s, x, ip)
  }

  lemma UnobstructedFrom(s: System, x: RouterId, rest: seq<RouterId>, arrival: Network, ip: nat)
    requires x in s.tables && NextHop(s, x, ip).Forward? && NextHop(s, x, ip).gateway in s.attached
    ensures Unobstructed(s, [x] + rest, arrival, ip)
       <==> !Includes(arrival, ip) && Unobstructed(s, rest, s.attached[NextHop(s, x, ip).gateway], ip)
  {
    hide Canonical, NextHop, Includes;
    var path := [x] + rest;
    assert x in path;
    assert forall y :: y in path <==> y == x || y in rest;
  }

  lemma TravelUnfolds(s: System, r: RouterId, arrival: Network, ip: nat, fuel: nat)
    requires r in s.tables
    ensures var hop := NextHop(s, r, ip);
            var outcome := Travel(s, r, arrival, ip, fuel);
            && (Includes(arrival, ip) ==> outcome == Stopped(r))
            && (!Includes(arrival, ip) && hop == Attached ==> outcome == Arrived(r))
            && (!Includes(arrival, ip) && hop.Forward? && hop.gateway in s.attached && fuel > 0 ==>
                  outcome == Travel(s, hop.next, s.attached[hop.gateway], ip, fuel - 1))
  {
    hide Canonical, NextHop, Includes;
  }

  /** The packet goes along the path of the gateways as far as it is unobstructed. */
  lemma {:induction false} TravelFollowsPath(s: System, ranks: Ranks, r: RouterId, arrival: Network, ip: nat,
        fuel: nat)
    requires Nearer(s, ranks, ip) && r in s.tables && Routable(s.tables[r], ip)
    requires |Path(s, r, ip, fuel)| <= fuel
    ensures var path := Path(s, r, ip, fuel);
            var outcome := Travel(s, r, arrival, ip, fuel);
            && (outcome == Arrived(path[|path| - 1]) <==> Unobstructed(s, path, arrival, ip))
            && (!Unobstructed(s, path, arrival, ip) ==> outcome.Stopped? && outcome.router in path)
    decreases fuel
  {
    hide *;
    NearerStep(s, ranks, r, ip);
    PathUnfolds(s, r, ip, fuel);
    TravelUnfolds(s, r, arrival, ip, fuel);
    var hop := NextHop(s, r, ip);
    if hop.Forward? {
      KnownGateway(s, ranks, r, ip);
      var rest := Path(s, hop.next, ip, fuel - 1);
      UnobstructedFrom(s, r, rest, arrival, ip);
      LastOfLonger(r, rest);
      TravelFollowsPath(s, ranks, hop.next, s.attached[hop.gateway], ip, fuel - 1);
      if Unobstructed(s, [r] + rest, arrival, ip) || !Includes(arrival, ip) {
        assert Travel(s, r, arrival, ip, fuel) == Travel(s, hop.next, s.attached[hop.gateway], ip, fuel - 1);
      }
    } else {
      UnobstructedAlone(s, r, arrival, ip);
    }
  }

  lemma KnownGateway(s: System, ranks: Ranks, r: RouterId, ip: nat)
    requires Nearer(s, ranks, ip) && r in s.tables && NextHop(s, r, ip).Forward?
    ensures NextHop(s, r, ip).gateway in s.attached
  {
    hide NearerFrom, Routable;
  }

  lemma UnobstructedAlone(s: System, r: RouterId, arrival: Network, ip: nat)
    requires r in s.tables && !NextHop(s, r, ip).Forward?
    ensures Unobstructed(s, [r], arrival, ip) <==> !Includes(arrival, ip)
  {
    hide Canonical, NextHop, Includes;
  }
}
