/**
 When forwarding is safe from now on.  Steady is a condition on the tables and broadcasts of
 one moment; it holds exactly if the gateways lead to a direct network now and for as long as
 no router checks its table, whatever broadcasts are sent, received or lost.
 */
module RouterSteady {
  import opened Text
  import opened IpNetwork
  import opened RoutingTable
  import opened RoutingProtocol
  import opened RouterNetwork
  import opened RouterForwarding
  import opened RouterBroadcast

  // ---------- What holds in every run ----------

  ghost predicate EntrySane(s: System, entry: Entry) {
    && (entry.gateway == "self" <==> entry.kind == Direct)
    && (entry.gateway != "self" ==> entry.gateway in s.owner)
  }

  /** Gateways and the sources of broadcasts are addresses of routers. */
  ghost predicate Sane(s: System) {
    && AddressesKnown(s)
    && (forall r, n | r in s.tables && n in s.tables[r] :: EntrySane(s, s.tables[r][n]))
    && (forall advert | advert in s.inFlight :: advert.source in s.owner)
  }

  /** A step leaves the tables of the other routers alone. */
  lemma StepFrame(s: System, e: Event)
    requires Enabled(s, e)
    ensures var t := Step(s, e);
            && t.owner == s.owner && t.attached == s.attached && t.tables.Keys == s.tables.Keys
            && (forall x | x in s.tables && x != e.router :: t.tables[x] == s.tables[x])
            && (e.Send? || e.Lose? ==> t.tables == s.tables)
            && (e.CheckTable? ==> t.tables[e.router] == Expire(s.tables[e.router], e.at) && t.inFlight == s.inFlight)
  {
    hide Canonical, IsSortedNetworks, LearnAll, Expire;
  }

  lemma SaneEntry(s: System, e: Event, r: RouterId, n: Network)
    requires Sane(s) && Enabled(s, e) && r in Step(s, e).tables && n in Step(s, e).tables[r]
    ensures EntrySane(s, Step(s, e).tables[r][n])
  {
    hide Canonical, IsSortedNetworks, LearnAll;
    StepFrame(s, e);
    if e.Receive? {
      TablesGrow(s, e, r, n);
    } else if e.CheckTable? {
      CheckedTables(s, e.router, e.at, r, n);
    }
  }

  lemma SaneStep(s: System, e: Event)
    requires Sane(s) && Enabled(s, e)
    ensures Sane(Step(s, e))
  {
    hide Canonical, IsSortedNetworks, LearnAll, Expire, EntrySane;
    var t := Step(s, e);
    StepFrame(s, e);
    forall r, n | r in t.tables && n in t.tables[r] ensures EntrySane(t, t.tables[r][n]) {
      SaneEntry(s, e, r, n);
      SameEntry(s, t, t.tables[r][n]);
    }
  }

  lemma SameEntry(s: System, t: System, entry: Entry)
    requires t.owner == s.owner && EntrySane(s, entry)
    ensures EntrySane(t, entry)
  {
  }

  lemma {:induction false} SaneSteps(states: seq<System>, events: seq<Event>)
    requires Steps(states, events) && Sane(states[0])
    ensures Sane(states[|events|])
    decreases |events|
  {
    hide Sane, Step, Enabled;
    if events != [] {
      var n := |events| - 1;
      SaneSteps(states[..n + 1], events[..n]);
      SaneStep(states[n], events[n]);
    }
  }

  lemma InitialSane(s: System)
    requires Initial(s)
    ensures Sane(s)
  {
    hide Canonical;
  }

  // ---------- The condition ----------

  /** The router this one forwards to has as long a match. */
  ghost predicate GatewayAsLong(s: System, x: RouterId, ip: nat)
    requires x in s.tables && Routable(s.tables[x], ip)
  {
    var hop := NextHop(s, x, ip);
    hop.Forward? ==> HasAsLong(s.tables[hop.next], ip, MatchLength(s.tables[x], ip))
  }

  /** For each network of the broadcast that contains ip, the sender has one as long now. */
  ghost predicate AdvertHeld(s: System, advert: Advert, ip: nat) {
    && advert.source in s.owner && s.owner[advert.source] in s.tables
    && forall n | n in advert.nets && Includes(n, ip) ::
         HasAsLong(s.tables[s.owner[advert.source]], ip, PrefixLength(n))
  }

  ghost predicate AdvertsHeld(s: System, ip: nat) {
    forall advert | advert in s.inFlight :: AdvertHeld(s, advert, ip)
  }

  ghost predicate AllLead(s: System, ip: nat) {
    forall x | x in s.tables && Routable(s.tables[x], ip) :: LeadsToDirect(s, x, ip)
  }

  ghost predicate Steady(s: System, ip: nat) {
    && AllLead(s, ip)
    && (forall x | x in s.tables && Routable(s.tables[x], ip) :: GatewayAsLong(s, x, ip))
    && AdvertsHeld(s, ip)
  }

  /** The lengths of the paths. */
  ghost function PathRanks(s: System, ip: nat): Ranks {
    map x | x in s.tables :: |Path(s, x, ip, |s.tables|)|
  }

  lemma GatewayKnown(s: System, x: RouterId, ip: nat)
    requires Sane(s) && x in s.tables && Routable(s.tables[x], ip)
    ensures NextHop(s, x, ip) == Attached || NextHop(s, x, ip).Forward?
    ensures NextHop(s, x, ip) == Attached ==> s.tables[x][LongestMatch(s.tables[x], ip)].kind == Direct
  {
    hide Canonical, Includes, PrefixLength, Routable;
    assert EntrySane(s, s.tables[x][LongestMatch(s.tables[x], ip)]);
  }

  /** One hop on, the path is one router shorter. */
  lemma PathShortens(s: System, x: RouterId, ip: nat)
    requires x in s.tables && NextHop(s, x, ip).Forward? && LeadsToDirect(s, x, ip)
    ensures Path(s, x, ip, |s.tables|) == [x] + Path(s, NextHop(s, x, ip).next, ip, |s.tables|)
  {
    hide Canonical, NextHop, LeadsToDirect, Path;
    var n := |s.tables|;
    assert s.tables.Keys != {};
    PathUnfolds(s, x, ip, n);
    LeadsWithin(s, x, ip);
    PathStable(s, NextHop(s, x, ip).next, ip, n - 1);
  }

  lemma LessIf(s: System, ranks: Ranks, x: RouterId, y: RouterId, ip: nat)
    requires x in s.tables && y in s.tables && Routable(s.tables[x], ip)
    requires HasAsLong(s.tables[y], ip, MatchLength(s.tables[x], ip))
    requires !HasAsLong(s.tables[y], ip, MatchLength(s.tables[x], ip) + 1) ==> RankOf(ranks, y) < RankOf(ranks, x)
    ensures Routable(s.tables[y], ip) && Less(Distance(s, ranks, y, ip), Distance(s, ranks, x, ip))
  {
    hide Canonical, HasAsLong, Routable, RankOf, MatchLength;
    HasAsLongMatch(s.tables[y], ip, MatchLength(s.tables[x], ip));
    HasAsLongMatch(s.tables[y], ip, MatchLength(s.tables[x], ip) + 1);
  }

  lemma SteadyNearerFrom(s: System, x: RouterId, ip: nat)
    requires Sane(s) && x in s.tables
    requires Routable(s.tables[x], ip) ==> LeadsToDirect(s, x, ip) && GatewayAsLong(s, x, ip)
    ensures NearerFrom(s, PathRanks(s, ip), x, ip)
  {
    hide Canonical, Sane, LeadsToDirect, NextHop, Routable, Path, HasAsLong, MatchLength, Less, Distance;
    if Routable(s.tables[x], ip) {
      GatewayKnown(s, x, ip);
      if NextHop(s, x, ip).Forward? {
        PathShortens(s, x, ip);
        LessIf(s, PathRanks(s, ip), x, NextHop(s, x, ip).next, ip);
      }
    }
  }

  lemma SteadyNearer(s: System, ip: nat)
    requires Sane(s) && Steady(s, ip)
    ensures Nearer(s, PathRanks(s, ip), ip)
  {
    hide Canonical, LeadsToDirect, GatewayAsLong, Routable, NearerFrom, EntrySane;
    forall x | x in s.tables ensures NearerFrom(s, PathRanks(s, ip), x, ip) {
      SteadyNearerFrom(s, x, ip);
    }
  }

  lemma NearerAsLong(s: System, ranks: Ranks, x: RouterId, ip: nat)
    requires Nearer(s, ranks, ip) && x in s.tables && Routable(s.tables[x], ip)
    ensures GatewayAsLong(s, x, ip)
  {
    hide Canonical, Nearer, NextHop, Routable, HasAsLong, MatchLength;
    NearerStep(s, ranks, x, ip);
    if NextHop(s, x, ip).Forward? {
      HasAsLongMatch(s.tables[NextHop(s, x, ip).next], ip, MatchLength(s.tables[x], ip));
    }
  }

  lemma NearerSteady(s: System, ranks: Ranks, ip: nat)
    requires Nearer(s, ranks, ip) && AdvertsHeld(s, ip)
    ensures Steady(s, ip)
  {
    hide Canonical, Nearer, LeadsToDirect, GatewayAsLong, Routable, AdvertsHeld;
    forall x | x in s.tables && Routable(s.tables[x], ip)
      ensures LeadsToDirect(s, x, ip) && GatewayAsLong(s, x, ip)
    {
      NearerLeads(s, ranks, x, ip);
      NearerAsLong(s, ranks, x, ip);
    }
  }

  // ---------- Broadcasts keep it ----------

  /** Router x sends packets for ip the same way in both states. */
  ghost predicate SameRoute(s: System, t: System, x: RouterId, ip: nat)
    requires x in s.tables && x in t.tables
  {
    && (Routable(t.tables[x], ip) <==> Routable(s.tables[x], ip))
    && NextHop(t, x, ip) == NextHop(s, x, ip)
    && (Routable(s.tables[x], ip) && Routable(t.tables[x], ip) ==>
          && MatchLength(t.tables[x], ip) == MatchLength(s.tables[x], ip)
          && t.tables[x][LongestMatch(t.tables[x], ip)].kind == s.tables[x][LongestMatch(s.tables[x], ip)].kind)
  }

  lemma SameTableSameRoute(s: System, t: System, x: RouterId, ip: nat)
    requires x in s.tables && t.owner == s.owner && t.tables.Keys == s.tables.Keys && t.tables[x] == s.tables[x]
    ensures SameRoute(s, t, x, ip)
  {
    hide Canonical, Routable;
  }

  /** Router y has a longer match than x, or as long a one and a lower rank. */
  ghost predicate Beyond(s: System, ranks: Ranks, x: RouterId, y: RouterId, length: int, ip: nat)
    requires y in s.tables
  {
    && HasAsLong(s.tables[y], ip, length)
    && (!HasAsLong(s.tables[y], ip, length + 1) ==> RankOf(ranks, y) < RankOf(ranks, x))
  }

  lemma NearerIfBeyond(s: System, t: System, ranks: Ranks, ranks': Ranks, x: RouterId, ip: nat)
    requires x in s.tables && t.tables.Keys == s.tables.Keys && SameRoute(s, t, x, ip)
    requires NearerFrom(s, ranks, x, ip)
    requires Routable(s.tables[x], ip) && NextHop(s, x, ip).Forward? ==>
               Beyond(t, ranks', x, NextHop(s, x, ip).next, MatchLength(s.tables[x], ip), ip)
    ensures NearerFrom(t, ranks', x, ip)
  {
    hide Canonical, Routable, HasAsLong, MatchLength, LongestMatch, RankOf, Less, Distance, NextHop;
    if Routable(s.tables[x], ip) && NextHop(s, x, ip).Forward? {
      LessIf(t, ranks', x, NextHop(s, x, ip).next, ip);
    }
  }

  lemma NearerGives(s: System, ranks: Ranks, x: RouterId, ip: nat)
    requires Nearer(s, ranks, ip) && x in s.tables && Routable(s.tables[x], ip) && NextHop(s, x, ip).Forward?
    ensures Beyond(s, ranks, x, NextHop(s, x, ip).next, MatchLength(s.tables[x], ip), ip)
  {
    hide Canonical, Nearer, NextHop, Routable, HasAsLong, MatchLength, RankOf;
    NearerStep(s, ranks, x, ip);
    var y := NextHop(s, x, ip).next;
    HasAsLongMatch(s.tables[y], ip, MatchLength(s.tables[x], ip));
    HasAsLongMatch(s.tables[y], ip, MatchLength(s.tables[x], ip) + 1);
  }

  lemma SameTablesKeep(s: System, t: System, ranks: Ranks, ip: nat)
    requires Nearer(s, ranks, ip) && t.owner == s.owner && t.tables == s.tables && t.attached == s.attached
    ensures Nearer(t, ranks, ip)
  {
    hide Canonical, NearerFrom, NextHop, Routable, HasAsLong, MatchLength, RankOf, SameRoute;
    forall x | x in t.tables ensures NearerFrom(t, ranks, x, ip) {
      assert NearerFrom(s, ranks, x, ip);
      if Routable(s.tables[x], ip) && NextHop(s, x, ip).Forward? {
        NearerGives(s, ranks, x, ip);
      }
      SameTableSameRoute(s, t, x, ip);
      NearerIfBeyond(s, t, ranks, ranks, x, ip);
    }
  }

  lemma SendHolds(s: System, e: Event, ip: nat)
    requires AddressesKnown(s) && AdvertsHeld(s, ip) && Enabled(s, e) && (e.Send? || e.Lose?)
    ensures AdvertsHeld(Step(s, e), ip)
  {
    hide Canonical, Includes, PrefixLength;
    forall advert | advert in Step(s, e).inFlight ensures AdvertHeld(Step(s, e), advert, ip) {
      if advert in s.inFlight {
        assert AdvertHeld(s, advert, ip);
      } else {
        SentHolds(s, advert, ip);
      }
    }
  }

  lemma SentHolds(s: System, advert: Advert, ip: nat)
    requires advert.source in s.owner && s.owner[advert.source] in s.tables
    requires IsSortedNetworks(advert.nets, s.tables[s.owner[advert.source]])
    ensures AdvertHeld(s, advert, ip)
  {
    hide Canonical, Includes, PrefixLength;
  }

  lemma AsLongGrows(table: Table, table': Table, ip: nat, length: int)
    requires HasAsLong(table, ip, length) && forall n | n in table :: n in table'
    ensures HasAsLong(table', ip, length)
  {
    hide Canonical, Includes, PrefixLength;
  }

  lemma Grown(s: System, e: Event, x: RouterId)
    requires e.Receive? && Enabled(s, e) && x in s.tables
    ensures x in Step(s, e).tables && forall n | n in s.tables[x] :: n in Step(s, e).tables[x]
  {
    hide Canonical, Step;
    StepFrame(s, e);
    forall n | n in s.tables[x] ensures n in Step(s, e).tables[x] {
      TablesGrow(s, e, x, n);
    }
  }

  lemma ReceiveHolds(s: System, e: Event, ip: nat)
    requires AdvertsHeld(s, ip) && Enabled(s, e) && e.Receive?
    ensures AdvertsHeld(Step(s, e), ip)
  {
    hide Canonical, Includes, PrefixLength, HasAsLong, LearnAll;
    var t := Step(s, e);
    forall advert | advert in t.inFlight ensures AdvertHeld(t, advert, ip) {
      assert AdvertHeld(s, advert, ip);
      var z := s.owner[advert.source];
      Grown(s, e, z);
      forall n | n in advert.nets && Includes(n, ip) ensures HasAsLong(t.tables[z], ip, PrefixLength(n)) {
        AsLongGrows(s.tables[z], t.tables[z], ip, PrefixLength(n));
      }
    }
  }

  /** The receiver's longest match is the old one, or a network of the broadcast, and then longer. */
  lemma LongestAfter(s: System, e: Event, ip: nat) returns (learned: bool, m: Network)
    requires Enabled(s, e) && e.Receive? && Routable(Step(s, e).tables[e.router], ip)
    ensures IsLongestMatch(Step(s, e).tables[e.router], ip, m)
    ensures learned <==> m !in s.tables[e.router]
    ensures learned ==> && m in e.advert.nets && Includes(m, ip)
                        && !HasAsLong(s.tables[e.router], ip, PrefixLength(m))
                        && Step(s, e).tables[e.router][m].gateway == e.advert.source
    ensures !learned ==> && IsLongestMatch(s.tables[e.router], ip, m)
                         && Step(s, e).tables[e.router][m].gateway == s.tables[e.router][m].gateway
                         && Step(s, e).tables[e.router][m].kind == s.tables[e.router][m].kind
  {
    hide Canonical, Step, Includes, PrefixLength;
    var r := e.router;
    var t := Step(s, e);
    StepFrame(s, e);
    m := LongestMatch(t.tables[r], ip);
    learned := m !in s.tables[r];
    TablesGrow(s, e, r, m);
    Grown(s, e, r);
    if learned && HasAsLong(s.tables[r], ip, PrefixLength(m)) {
      var n :| n in s.tables[r] && Includes(n, ip) && PrefixLength(n) >= PrefixLength(m);
      assert PrefixLength(n) <= PrefixLength(m);
      SameLengthSameNetwork(n, m, ip);
    }
  }

  lemma UnlearnedSameRoute(s: System, e: Event, ip: nat, m: Network)
    requires Enabled(s, e) && e.Receive? && AddressesKnown(s)
    requires IsLongestMatch(s.tables[e.router], ip, m) && IsLongestMatch(Step(s, e).tables[e.router], ip, m)
    requires Step(s, e).tables[e.router][m].gateway == s.tables[e.router][m].gateway
    requires Step(s, e).tables[e.router][m].kind == s.tables[e.router][m].kind
    ensures e.router in Step(s, e).tables && SameRoute(s, Step(s, e), e.router, ip)
  {
    hide Canonical, Includes, PrefixLength, IsLongestMatch, Routable, Step;
    StepFrame(s, e);
    FindRouteIgnoresTies(s.tables[e.router], ip, m);
    FindRouteIgnoresTies(Step(s, e).tables[e.router], ip, m);
    HasRoute(s.tables[e.router], ip, m);
    HasRoute(Step(s, e).tables[e.router], ip, m);
  }

  lemma UnroutableBefore(s: System, e: Event, ip: nat)
    requires Enabled(s, e) && e.Receive? && e.router in Step(s, e).tables
    requires !Routable(Step(s, e).tables[e.router], ip)
    ensures SameRoute(s, Step(s, e), e.router, ip)
  {
    hide Canonical, Includes, Step;
    Grown(s, e, e.router);
  }

  /** What the gateway of x still has when the receiver has learned m. */
  lemma BeyondAfter(s: System, ranks: Ranks, e: Event, ip: nat, x: RouterId, y: RouterId, length: int, ranks': Ranks)
    requires Enabled(s, e) && e.Receive? && y in s.tables && y in Step(s, e).tables
    requires Beyond(s, ranks, x, y, length, ip)
    requires RankOf(ranks', x) == RankOf(ranks, x)
    requires RankOf(ranks', y) == RankOf(ranks, y) || HasAsLong(Step(s, e).tables[y], ip, length + 1)
    ensures Beyond(Step(s, e), ranks', x, y, length, ip)
  {
    hide Canonical, Includes, PrefixLength, HasAsLong, Step, RankOf;
    Grown(s, e, y);
    AsLongGrows(s.tables[y], Step(s, e).tables[y], ip, length);
    if HasAsLong(s.tables[y], ip, length + 1) {
      AsLongGrows(s.tables[y], Step(s, e).tables[y], ip, length + 1);
    }
  }

  lemma AsLongBy(table: Table, ip: nat, m: Network, length: int)
    requires m in table && Includes(m, ip) && PrefixLength(m) >= length
    ensures HasAsLong(table, ip, length)
  {
    hide Canonical, Includes, PrefixLength;
  }

  lemma AllShorter(table: Table, ip: nat, length: int)
    requires !HasAsLong(table, ip, length)
    ensures forall n | n in table && Includes(n, ip) :: PrefixLength(n) < length
  {
    hide Canonical, Includes, PrefixLength;
  }

  lemma AsLongThan(table: Table, ip: nat, length: int, other: int)
    requires HasAsLong(table, ip, length) && other <= length
    ensures HasAsLong(table, ip, other)
  {
    hide Canonical, Includes, PrefixLength;
  }

  /** A receiver that learns a longer match comes one step after the sender. */
  lemma LearnerIsNearer(s: System, ranks: Ranks, e: Event, ip: nat, m: Network, ranks': Ranks)
    requires Sane(s) && Enabled(s, e) && e.Receive? && AdvertHeld(s, e.advert, ip)
    requires IsLongestMatch(Step(s, e).tables[e.router], ip, m)
    requires m in e.advert.nets && Includes(m, ip) && !HasAsLong(s.tables[e.router], ip, PrefixLength(m))
    requires Step(s, e).tables[e.router][m].gateway == e.advert.source
    requires ranks' == ranks[e.router := RankOf(ranks, s.owner[e.advert.source]) + 1]
    ensures e.router in Step(s, e).tables && NearerFrom(Step(s, e), ranks', e.router, ip)
  {
    hide Canonical, Includes, PrefixLength, IsLongestMatch, HasAsLong, Routable, Step, NextHop, Less, Distance;
    StepFrame(s, e);
    var r, t, z := e.router, Step(s, e), s.owner[e.advert.source];
    assert z != r;
    ForwardsBy(t, r, ip, m, e.advert.source, z);
    FindRouteIgnoresTies(t.tables[r], ip, m);
    LessIf(t, ranks', r, z, ip);
  }

  lemma OtherIsNearer(s: System, ranks: Ranks, e: Event, ip: nat, x: RouterId, ranks': Ranks)
    requires Nearer(s, ranks, ip) && Enabled(s, e) && e.Receive? && x in s.tables
    requires x in Step(s, e).tables && SameRoute(s, Step(s, e), x, ip)
    requires forall y :: y in s.tables && RankOf(ranks', y) != RankOf(ranks, y) ==>
                           && y != x && y in Step(s, e).tables
                           && forall length | HasAsLong(s.tables[y], ip, length) ::
                                HasAsLong(Step(s, e).tables[y], ip, length + 1)
    ensures NearerFrom(Step(s, e), ranks', x, ip)
  {
    hide Canonical, HasAsLong, Routable, Step, NextHop, RankOf, SameRoute, NearerFrom, MatchLength;
    StepFrame(s, e);
    assert NearerFrom(s, ranks, x, ip);
    if Routable(s.tables[x], ip) && NextHop(s, x, ip).Forward? {
      NearerGives(s, ranks, x, ip);
      BeyondAfter(s, ranks, e, ip, x, NextHop(s, x, ip).next, MatchLength(s.tables[x], ip), ranks');
    }
    NearerIfBeyond(s, Step(s, e), ranks, ranks', x, ip);
  }

  lemma LongerThanAll(s: System, e: Event, ip: nat, m: Network, length: int)
    requires Enabled(s, e) && e.Receive? && IsLongestMatch(Step(s, e).tables[e.router], ip, m)
    requires !HasAsLong(s.tables[e.router], ip, PrefixLength(m)) && HasAsLong(s.tables[e.router], ip, length)
    ensures HasAsLong(Step(s, e).tables[e.router], ip, length + 1)
  {
    hide Canonical, Includes, PrefixLength, HasAsLong, Step;
    StepFrame(s, e);
    if length >= PrefixLength(m) {
      AsLongThan(s.tables[e.router], ip, length, PrefixLength(m));
    }
    AsLongBy(Step(s, e).tables[e.router], ip, m, length + 1);
  }

  lemma ReceiveNearer(s: System, ranks: Ranks, e: Event, ip: nat) returns (ranks': Ranks)
    requires Sane(s) && Nearer(s, ranks, ip) && Enabled(s, e) && e.Receive? && AdvertHeld(s, e.advert, ip)
    ensures Nearer(Step(s, e), ranks', ip)
  {
    hide Canonical, Includes, PrefixLength, HasAsLong, Routable, Step, SameRoute, NearerFrom, IsLongestMatch, EntrySane,
      IsSortedNetworks;
    StepFrame(s, e);
    var r, t := e.router, Step(s, e);
    ranks' := ranks;
    if Routable(t.tables[r], ip) {
      var learned, m := LongestAfter(s, e, ip);
      if learned {
        ranks' := ranks[r := RankOf(ranks, s.owner[e.advert.source]) + 1];
        LearnerIsNearer(s, ranks, e, ip, m, ranks');
        forall length | HasAsLong(s.tables[r], ip, length) ensures HasAsLong(t.tables[r], ip, length + 1) {
          LongerThanAll(s, e, ip, m, length);
        }
      } else {
        UnlearnedSameRoute(s, e, ip, m);
        OtherIsNearer(s, ranks, e, ip, r, ranks');
      }
    } else {
      UnroutableBefore(s, e, ip);
      OtherIsNearer(s, ranks, e, ip, r, ranks');
    }
    forall x | x in t.tables ensures NearerFrom(t, ranks', x, ip) {
      if x != r {
        SameTableSameRoute(s, t, x, ip);
        OtherIsNearer(s, ranks, e, ip, x, ranks');
      }
    }
  }

  /** Whatever is sent, received or lost, a steady state stays steady. */
  lemma SteadyStep(s: System, e: Event, ip: nat)
    requires Sane(s) && Steady(s, ip) && Enabled(s, e) && !e.CheckTable?
    ensures Steady(Step(s, e), ip)
  {
    hide Canonical, Nearer, AllLead, GatewayAsLong, AdvertHeld, Step, EntrySane, Routable, IsSortedNetworks;
    SteadyNearer(s, ip);
    StepFrame(s, e);
    if e.Receive? {
      ReceiveHolds(s, e, ip);
      var ranks' := ReceiveNearer(s, PathRanks(s, ip), e, ip);
      NearerSteady(Step(s, e), ranks', ip);
    } else {
      SendHolds(s, e, ip);
      SameTablesKeep(s, Step(s, e), PathRanks(s, ip), ip);
      NearerSteady(Step(s, e), PathRanks(s, ip), ip);
    }
  }

  ghost predicate NoChecks(events: seq<Event>) {
    forall i | 0 <= i < |events| :: !events[i].CheckTable?
  }

  lemma {:induction false} SteadySteps(states: seq<System>, events: seq<Event>, ip: nat)
    requires Steps(states, events) && NoChecks(events) && Sane(states[0]) && Steady(states[0], ip)
    ensures Steady(states[|events|], ip)
    decreases |events|
  {
    hide Sane, Step, Enabled, Steady;
    if events != [] {
      var n := |events| - 1;
      SteadySteps(states[..n + 1], events[..n], ip);
      SaneSteps(states[..n + 1], events[..n]);
      SteadyStep(states[n], events[n], ip);
    }
  }

  // ---------- Exactly then ----------

  /** Whatever is sent, received or lost from now on, the gateways lead to a direct network. */
  ghost predicate StaysGood(s: System, ip: nat) {
    forall states, events | Steps(states, events) && states[0] == s && NoChecks(events) ::
      AllLead(states[|events|], ip)
  }

  /** Every router has an address to broadcast from. */
  ghost predicate AllAddressed(s: System) {
    forall r | r in s.tables :: exists a :: OwnedBy(s, a, r)
  }

  lemma AddressedStep(s: System, e: Event)
    requires AllAddressed(s) && Enabled(s, e)
    ensures AllAddressed(Step(s, e))
  {
    hide Canonical, Step, IsSortedNetworks;
    StepFrame(s, e);
    var t := Step(s, e);
    forall x | x in t.tables ensures exists a :: OwnedBy(t, a, x) {
      var a :| OwnedBy(s, a, x);
      assert OwnedBy(t, a, x);
    }
  }

  lemma StaysGoodAt(s: System, ip: nat, states: seq<System>, events: seq<Event>)
    requires StaysGood(s, ip) && Steps(states, events) && states[0] == s && NoChecks(events)
    ensures AllLead(states[|events|], ip)
  {
    hide Steps, NoChecks, AllLead;
  }

  lemma CircleIsBad(s: System, x: RouterId, y: RouterId, ip: nat)
    requires Circle(s, x, y, ip)
    ensures !AllLead(s, ip)
  {
    hide Canonical, LeadsToDirect, Routable, NextHop;
    CircleLeadsNowhere(s, x, y, ip);
    assert Routable(s.tables[x], ip);
  }

  lemma NoCircle(s: System, ip: nat, states: seq<System>, events: seq<Event>, x: RouterId, y: RouterId)
    requires StaysGood(s, ip) && Steps(states, events) && states[0] == s && NoChecks(events)
    ensures !Circle(states[|events|], x, y, ip)
  {
    hide Canonical, Step, Enabled, StaysGood, NoChecks, AllLead, Circle;
    StaysGoodAt(s, ip, states, events);
    if Circle(states[|events|], x, y, ip) {
      CircleIsBad(states[|events|], x, y, ip);
    }
  }

  lemma GoodNow(s: System, ip: nat)
    requires StaysGood(s, ip)
    ensures AllLead(s, ip)
  {
    hide Canonical, Step, Enabled, StaysGood, AllLead;
    StaysGoodAt(s, ip, [s], []);
  }

  /** A router and a shorter gateway of it: the router's next broadcast closes a loop. */
  lemma ShorterGatewayLoops(s: System, x: RouterId, y: RouterId, source: string, ip: nat)
    returns (states: seq<System>, events: seq<Event>)
    requires Sane(s) && x in s.tables && OwnedBy(s, source, x)
    requires Routable(s.tables[x], ip) && NextHop(s, x, ip).Forward? && NextHop(s, x, ip).next == y
    requires !HasAsLong(s.tables[y], ip, MatchLength(s.tables[x], ip))
    ensures Steps(states, events) && |states| == |events| + 1 && states[0] == s && NoChecks(events)
    ensures Circle(states[|events|], x, y, ip)
  {
    hide Canonical, Includes, PrefixLength, Step, Enabled, Heard, EntrySane;
    var n := LongestMatch(s.tables[x], ip);
    assert y != x by { HasAsLongMatch(s.tables[x], ip, MatchLength(s.tables[x], ip)); }
    states, events := Broadcast([s], [], x, source, y, 0.0);
    var t := states[|events|];
    AllShorter(s.tables[y], ip, PrefixLength(n));
    LongestAfterHearing(s, t, x, source, y, 0.0, ip, n);
    ForwardsBy(t, y, ip, n, source, x);
    ForwardsBy(t, x, ip, n, s.tables[x][n].gateway, y);
  }

  /** A router that hears its own broadcast and has nothing as long any more forwards to itself. */
  lemma UnheldAdvertLoops(s: System, advert: Advert, n: Network, ip: nat)
    returns (states: seq<System>, events: seq<Event>)
    requires Sane(s) && advert in s.inFlight && advert.source in s.owner && s.owner[advert.source] in s.tables
    requires n in advert.nets && Includes(n, ip)
    requires !HasAsLong(s.tables[s.owner[advert.source]], ip, PrefixLength(n))
    ensures Steps(states, events) && |states| == |events| + 1 && states[0] == s && NoChecks(events)
    ensures Circle(states[|events|], s.owner[advert.source], s.owner[advert.source], ip)
  {
    hide Canonical, Includes, PrefixLength, Step, EntrySane, HasAsLong, NextHop, IsSortedNetworks, Routable;
    var z := s.owner[advert.source];
    var e := Receive(z, advert, None, 0.0);
    states, events := OneMore([s], [], e);
    var t := states[|events|];
    StepFrame(s, e);
    TablesGrow(s, e, z, n);
    RoutableBy(t.tables[z], ip, n);
    var learned, m := LongestAfter(s, e, ip);
    if !learned {
      AsLongBy(s.tables[z], ip, m, PrefixLength(n));
      assert false;
    }
    ForwardsBy(t, z, ip, m, advert.source, z);
  }

  lemma RoutableBy(table: Table, ip: nat, n: Network)
    requires n in table && Includes(n, ip)
    ensures Routable(table, ip)
  {
    hide Canonical, Includes;
  }

  lemma GoodGateways(s: System, x: RouterId, ip: nat)
    requires Sane(s) && AllAddressed(s) && StaysGood(s, ip) && x in s.tables && Routable(s.tables[x], ip)
    ensures GatewayAsLong(s, x, ip)
  {
    hide Canonical, Sane, StaysGood, Steps, Circle, Routable, HasAsLong, NextHop, MatchLength;
    var hop := NextHop(s, x, ip);
    if hop.Forward? && !HasAsLong(s.tables[hop.next], ip, MatchLength(s.tables[x], ip)) {
      var a :| OwnedBy(s, a, x);
      var states, events := ShorterGatewayLoops(s, x, hop.next, a, ip);
      NoCircle(s, ip, states, events, x, hop.next);
      assert false;
    }
  }

  lemma GoodAdvert(s: System, advert: Advert, ip: nat)
    requires Sane(s) && StaysGood(s, ip) && advert in s.inFlight
    ensures AdvertHeld(s, advert, ip)
  {
    hide Canonical, Includes, PrefixLength, EntrySane, StaysGood, Steps, Circle, HasAsLong;
    var z := s.owner[advert.source];
    forall n | n in advert.nets && Includes(n, ip) ensures HasAsLong(s.tables[z], ip, PrefixLength(n)) {
      if !HasAsLong(s.tables[z], ip, PrefixLength(n)) {
        var states, events := UnheldAdvertLoops(s, advert, n, ip);
        NoCircle(s, ip, states, events, z, z);
        assert false;
      }
    }
  }

  lemma SteadyStaysGood(s: System, ip: nat)
    requires Sane(s) && Steady(s, ip)
    ensures StaysGood(s, ip)
  {
    hide Sane, Steady, Step, Enabled, AllLead, NoChecks;
    forall states, events | Steps(states, events) && states[0] == s && NoChecks(events)
      ensures AllLead(states[|events|], ip)
    {
      SteadySteps(states, events, ip);
      SteadyLeads(states[|events|], ip);
    }
  }

  lemma SteadyLeads(s: System, ip: nat)
    requires Steady(s, ip)
    ensures AllLead(s, ip)
  {
    hide AllLead, GatewayAsLong, AdvertsHeld;
  }

  /**
   Forwarding is right now and stays right until a router checks its table if and only if the
   state is steady.
   */
  lemma SteadyIff(s: System, ip: nat)
    requires Sane(s) && AllAddressed(s)
    ensures Steady(s, ip) <==> StaysGood(s, ip)
  {
    hide Canonical, Sane, AllAddressed, StaysGood, AllLead, GatewayAsLong, AdvertHeld, Routable;
    if Steady(s, ip) {
      SteadyStaysGood(s, ip);
    }
    if StaysGood(s, ip) {
      GoodNow(s, ip);
      forall x | x in s.tables && Routable(s.tables[x], ip) ensures GatewayAsLong(s, x, ip) {
        GoodGateways(s, x, ip);
      }
      forall advert | advert in s.inFlight ensures AdvertHeld(s, advert, ip) {
        GoodAdvert(s, advert, ip);
      }
    }
  }
}
