/**
 Which checks are safe.  SafeCheck looks at the state before a check only; from a steady state
 the check leaves a steady one exactly if it is safe, and so all states of a run are good from
 then on exactly if all its checks are.
 */
module RouterChecks {
  import opened IpNetwork
  import opened RoutingTable
  import opened RoutingProtocol
  import opened RouterNetwork
  import opened RouterForwarding
  import opened RouterBroadcast
  import opened RouterSteady

  /** Among what r keeps at the check is a match for ip that is no shorter than length. */
  ghost predicate KeepsAsLong(s: System, r: RouterId, at: Time, ip: nat, length: int)
    requires r in s.tables
  {
    HasAsLong(Expire(s.tables[r], at), ip, length)
  }

  /** A router that forwards to r finds a match there as long as its own. */
  ghost predicate ServesFollower(s: System, r: RouterId, at: Time, ip: nat, x: RouterId)
    requires r in s.tables && x in s.tables
  {
    Routable(s.tables[x], ip) && NextHop(s, x, ip).Forward? && NextHop(s, x, ip).next == r ==>
      KeepsAsLong(s, r, at, ip, MatchLength(s.tables[x], ip))
  }

  /** A broadcast of r that is still under way names nothing longer than what r keeps. */
  ghost predicate ServesAdvert(s: System, r: RouterId, at: Time, ip: nat, advert: Advert)
    requires r in s.tables
  {
    OwnedBy(s, advert.source, r) ==>
      forall n | n in advert.nets && Includes(n, ip) :: KeepsAsLong(s, r, at, ip, PrefixLength(n))
  }

  /** If r is left with a route to another router, that one has as long a match, and does not lead back to r. */
  ghost predicate LeftRouteGood(s: System, r: RouterId, at: Time, ip: nat, kept: Network)
    requires r in s.tables
  {
    IsLongestMatch(Expire(s.tables[r], at), ip, kept) && s.tables[r][kept].gateway in s.owner ==>
      var y := s.owner[s.tables[r][kept].gateway];
      y in s.tables && y != r && HasAsLong(s.tables[y], ip, PrefixLength(kept)) && r !in Path(s, y, ip, |s.tables|)
  }

  ghost predicate SafeCheck(s: System, r: RouterId, at: Time, ip: nat)
    requires r in s.tables
  {
    && (forall x | x in s.tables && x != r :: ServesFollower(s, r, at, ip, x))
    && (forall advert | advert in s.inFlight :: ServesAdvert(s, r, at, ip, advert))
    && (forall kept | kept in s.tables[r] :: LeftRouteGood(s, r, at, ip, kept))
  }

  // ---------- Paths before and after the check ----------

  lemma SameHop(s: System, t: System, x: RouterId, ip: nat)
    requires x in s.tables && t.owner == s.owner && t.tables.Keys == s.tables.Keys && t.tables[x] == s.tables[x]
    ensures NextHop(t, x, ip) == NextHop(s, x, ip)
  {
    hide *;
    SameTableSameRoute(s, t, x, ip);
    SameRouteHop(s, t, x, ip);
  }

  lemma SameRouteHop(s: System, t: System, x: RouterId, ip: nat)
    requires x in s.tables && x in t.tables && SameRoute(s, t, x, ip)
    ensures NextHop(t, x, ip) == NextHop(s, x, ip)
  {
    hide Canonical, NextHop, Routable, MatchLength;
  }

  /** Paths that do not reach r are the same in both states. */
  lemma {:induction false} SamePath(s: System, t: System, r: RouterId, x: RouterId, ip: nat, fuel: nat)
    requires x in s.tables && t.tables.Keys == s.tables.Keys && t.owner == s.owner
    requires forall y | y in s.tables && y != r :: t.tables[y] == s.tables[y]
    requires r !in Path(t, x, ip, fuel)
    ensures Path(s, x, ip, fuel) == Path(t, x, ip, fuel)
    decreases fuel
  {
    hide *;
    PathUnfolds(s, x, ip, fuel);
    PathUnfolds(t, x, ip, fuel);
    assert Path(t, x, ip, fuel)[0] == x;
    SameHop(s, t, x, ip);
    var hop := NextHop(s, x, ip);
    if fuel > 0 && hop.Forward? {
      SamePath(s, t, r, hop.next, ip, fuel - 1);
    }
  }

  /** Routers whose path passes r are ranked above r, and all others below. */
  ghost function RankAround(s: System, r: RouterId, ip: nat, x: RouterId): nat
    requires x in s.tables
  {
    var path := Path(s, x, ip, |s.tables|);
    if x == r then |s.tables| + 1
    else if r in path then |s.tables| + 1 + |path|
    else |path|
  }

  ghost function RanksAround(s: System, r: RouterId, ip: nat): Ranks {
    map x | x in s.tables :: RankAround(s, r, ip, x)
  }

  lemma NextRankedBelow(s: System, r: RouterId, ip: nat, x: RouterId)
    requires x in s.tables && x != r && NextHop(s, x, ip).Forward? && LeadsToDirect(s, x, ip)
    ensures RankAround(s, r, ip, NextHop(s, x, ip).next) < RankAround(s, r, ip, x)
  {
    hide Canonical, Path, NextHop, LeadsToDirect;
    PathShortens(s, x, ip);
    var y := NextHop(s, x, ip).next;
    var path, rest := Path(s, x, ip, |s.tables|), Path(s, y, ip, |s.tables|);
    assert r in path <==> r in rest;
    if y == r {
      assert rest[0] == r;
    }
  }

  lemma BelowR(s: System, r: RouterId, ip: nat, y: RouterId)
    requires r in s.tables && y in s.tables && y != r && r !in Path(s, y, ip, |s.tables|)
    requires LeadsToDirect(s, y, ip)
    ensures RankAround(s, r, ip, y) < RankAround(s, r, ip, r)
  {
    hide Canonical, Path, LeadsToDirect;
    LeadsWithin(s, y, ip);
  }

  // ---------- A safe check keeps a steady state ----------

  lemma OtherAfterCheck(s: System, r: RouterId, at: Time, ip: nat, x: RouterId)
    requires Sane(s) && Steady(s, ip) && r in s.tables && x in s.tables && x != r && ServesFollower(s, r, at, ip, x)
    ensures NearerFrom(Step(s, CheckTable(r, at)), RanksAround(s, r, ip), x, ip)
  {
    hide Canonical, Routable, HasAsLong, NextHop, MatchLength, LeadsToDirect, RankAround, AdvertsHeld, Expire, Less,
      Distance, LongestMatch, EntrySane;
    var t := Step(s, CheckTable(r, at));
    StepFrame(s, CheckTable(r, at));
    SameHop(s, t, x, ip);
    if Routable(s.tables[x], ip) {
      GatewayKnown(s, x, ip);
      if NextHop(s, x, ip).Forward? {
        assert LeadsToDirect(s, x, ip) && GatewayAsLong(s, x, ip);
        NextRankedBelow(s, r, ip, x);
        LessIf(t, RanksAround(s, r, ip), x, NextHop(s, x, ip).next, ip);
      }
    }
  }

  lemma CheckedAfter(s: System, r: RouterId, at: Time, ip: nat)
    requires Sane(s) && Steady(s, ip) && r in s.tables
    requires forall kept | kept in s.tables[r] :: LeftRouteGood(s, r, at, ip, kept)
    ensures NearerFrom(Step(s, CheckTable(r, at)), RanksAround(s, r, ip), r, ip)
  {
    hide Canonical, Routable, HasAsLong, LeadsToDirect, RankAround, AdvertsHeld, Less, Distance, EntrySane,
      PrefixLength, Includes, GatewayAsLong;
    var t := Step(s, CheckTable(r, at));
    StepFrame(s, CheckTable(r, at));
    SaneStep(s, CheckTable(r, at));
    if Routable(t.tables[r], ip) {
      GatewayKnown(t, r, ip);
      var kept := LongestMatch(t.tables[r], ip);
      MatchInTable(t.tables[r], ip, kept);
      assert t.tables[r][kept] == s.tables[r][kept];
      assert LeftRouteGood(s, r, at, ip, kept);
      if NextHop(t, r, ip).Forward? {
        var y := NextHop(t, r, ip).next;
        HasAsLongMatch(s.tables[y], ip, PrefixLength(kept));
        BelowR(s, r, ip, y);
        LessIf(t, RanksAround(s, r, ip), r, y, ip);
      }
    }
  }

  lemma AdvertsAfter(s: System, r: RouterId, at: Time, ip: nat)
    requires AdvertsHeld(s, ip) && r in s.tables
    requires forall advert | advert in s.inFlight :: ServesAdvert(s, r, at, ip, advert)
    ensures AdvertsHeld(Step(s, CheckTable(r, at)), ip)
  {
    hide Canonical, Includes, PrefixLength, HasAsLong, Expire;
    var t := Step(s, CheckTable(r, at));
    StepFrame(s, CheckTable(r, at));
    forall advert | advert in t.inFlight ensures AdvertHeld(t, advert, ip) {
      assert AdvertHeld(s, advert, ip) && ServesAdvert(s, r, at, ip, advert);
    }
  }

  lemma SafeCheckSteady(s: System, r: RouterId, at: Time, ip: nat)
    requires Sane(s) && Steady(s, ip) && r in s.tables && SafeCheck(s, r, at, ip)
    ensures Steady(Step(s, CheckTable(r, at)), ip)
  {
    hide Canonical, AdvertHeld, NearerFrom, ServesFollower, ServesAdvert, LeftRouteGood, AllLead, GatewayAsLong, Expire;
    var t := Step(s, CheckTable(r, at));
    StepFrame(s, CheckTable(r, at));
    SaneStep(s, CheckTable(r, at));
    forall x | x in t.tables ensures NearerFrom(t, RanksAround(s, r, ip), x, ip) {
      if x == r {
        CheckedAfter(s, r, at, ip);
      } else {
        OtherAfterCheck(s, r, at, ip, x);
      }
    }
    AdvertsAfter(s, r, at, ip);
    NearerSteady(t, RanksAround(s, r, ip), ip);
  }

  // ---------- A check that keeps one is safe ----------

  lemma ServedAfter(s: System, r: RouterId, at: Time, ip: nat, x: RouterId)
    requires r in s.tables && x in s.tables && x != r && Steady(Step(s, CheckTable(r, at)), ip)
    ensures ServesFollower(s, r, at, ip, x)
  {
    hide Canonical, Routable, HasAsLong, MatchLength, LeadsToDirect, AdvertsHeld, Expire, NextHop, AllLead;
    var t := Step(s, CheckTable(r, at));
    StepFrame(s, CheckTable(r, at));
    SameHop(s, t, x, ip);
    if Routable(s.tables[x], ip) {
      assert GatewayAsLong(t, x, ip);
    }
  }

  lemma AdvertServed(s: System, r: RouterId, at: Time, ip: nat, advert: Advert)
    requires r in s.tables && advert in s.inFlight && AdvertsHeld(Step(s, CheckTable(r, at)), ip)
    ensures ServesAdvert(s, r, at, ip, advert)
  {
    hide Canonical, Includes, PrefixLength, HasAsLong, Expire;
    var t := Step(s, CheckTable(r, at));
    StepFrame(s, CheckTable(r, at));
    assert AdvertHeld(t, advert, ip);
  }

  /** The path from the gateway that r is left with does not pass r, before the check either. */
  lemma NotBack(s: System, r: RouterId, at: Time, ip: nat)
    requires r in s.tables
    requires var t := Step(s, CheckTable(r, at)); NextHop(t, r, ip).Forward? && LeadsToDirect(t, r, ip)
    ensures var y := NextHop(Step(s, CheckTable(r, at)), r, ip).next;
            y in s.tables && y != r && r !in Path(s, y, ip, |s.tables|)
  {
    hide *;
    var t := Step(s, CheckTable(r, at));
    CheckFrame(s, r, at);
    var y := NextHop(t, r, ip).next;
    PathShortens(t, r, ip);
    var rest := Path(t, y, ip, |t.tables|);
    LeadsDistinct(t, r, ip);
    NotAmongOthers(r, rest);
    assert rest[0] == y;
    SamePath(s, t, r, y, ip, |t.tables|);
  }

  lemma CheckFrame(s: System, r: RouterId, at: Time)
    requires r in s.tables
    ensures var t := Step(s, CheckTable(r, at));
            && t.owner == s.owner && t.tables.Keys == s.tables.Keys && |t.tables| == |s.tables|
            && (forall x | x in s.tables && x != r :: t.tables[x] == s.tables[x])
  {
    hide Canonical, Step, Expire;
    StepFrame(s, CheckTable(r, at));
    var t := Step(s, CheckTable(r, at));
    assert |s.tables| == |s.tables.Keys| && |t.tables| == |t.tables.Keys|;
  }

  lemma LeadsDistinct(s: System, r: RouterId, ip: nat)
    requires r in s.tables && LeadsToDirect(s, r, ip)
    ensures Distinct(Path(s, r, ip, |s.tables|))
  {
    hide *;
    LeadsWhere(s, r, ip);
  }

  lemma NotAmongOthers(r: RouterId, rest: seq<RouterId>)
    requires Distinct([r] + rest)
    ensures r !in rest
  {
    forall i | 0 <= i < |rest| ensures rest[i] != r {
      assert ([r] + rest)[i + 1] == rest[i] && ([r] + rest)[0] == r;
    }
  }

  lemma LeftRouteAfter(s: System, r: RouterId, at: Time, ip: nat, kept: Network)
    requires Sane(s) && r in s.tables && kept in s.tables[r] && Steady(Step(s, CheckTable(r, at)), ip)
    ensures LeftRouteGood(s, r, at, ip, kept)
  {
    hide Canonical, Routable, HasAsLong, LeadsToDirect, AdvertsHeld, EntrySane, PrefixLength, Includes, Path,
      IsLongestMatch;
    var t := Step(s, CheckTable(r, at));
    StepFrame(s, CheckTable(r, at));
    if IsLongestMatch(t.tables[r], ip, kept) && s.tables[r][kept].gateway in s.owner {
      HasRoute(t.tables[r], ip, kept);
      FindRouteIgnoresTies(t.tables[r], ip, kept);
      MatchInTable(t.tables[r], ip, kept);
      assert NextHop(t, r, ip).Forward?;
      assert LeadsToDirect(t, r, ip) && GatewayAsLong(t, r, ip);
      NotBack(s, r, at, ip);
    }
  }

  lemma SteadyCheckSafe(s: System, r: RouterId, at: Time, ip: nat)
    requires Sane(s) && r in s.tables && Steady(Step(s, CheckTable(r, at)), ip)
    ensures SafeCheck(s, r, at, ip)
  {
    hide Canonical, Sane, Step, ServesFollower, ServesAdvert, LeftRouteGood;
    forall x | x in s.tables && x != r ensures ServesFollower(s, r, at, ip, x) {
      ServedAfter(s, r, at, ip, x);
    }
    forall advert | advert in s.inFlight ensures ServesAdvert(s, r, at, ip, advert) {
      AdvertServed(s, r, at, ip, advert);
    }
    forall kept | kept in s.tables[r] ensures LeftRouteGood(s, r, at, ip, kept) {
      LeftRouteAfter(s, r, at, ip, kept);
    }
  }

  /** From a steady state a check leaves a steady state if and only if it is safe. */
  lemma CheckSteadyIff(s: System, r: RouterId, at: Time, ip: nat)
    requires Sane(s) && Steady(s, ip) && r in s.tables
    ensures Steady(Step(s, CheckTable(r, at)), ip) <==> SafeCheck(s, r, at, ip)
  {
    hide Sane, Steady, SafeCheck, Step;
    if SafeCheck(s, r, at, ip) {
      SafeCheckSteady(s, r, at, ip);
    }
    if Steady(Step(s, CheckTable(r, at)), ip) {
      SteadyCheckSafe(s, r, at, ip);
    }
  }

  // ---------- Where every network is ranked ----------

  /** Nothing that r keeps at the check matches ip as well as n does. */
  ghost predicate NoneAsLong(s: System, r: RouterId, at: Time, ip: nat, n: Network)
    requires r in s.tables
  {
    forall m | m in s.tables[r] && !Drops(s, r, at, m) && Includes(m, ip) :: PrefixLength(m) < PrefixLength(n)
  }

  /** A ranked state is steady. */
  lemma RankedSteady(s: System, rank: Ranking, ip: nat)
    requires Ranked(s, rank, ip)
    ensures Steady(s, ip)
  {
    hide Canonical, Includes, PrefixLength, EntryRanked, Steady, Nearer, HasAsLong;
    RankedIsNearer(s, rank, ip);
    forall advert | advert in s.inFlight ensures AdvertHeld(s, advert, ip) {
      assert AdvertKept(s, advert, ip);
      forall n | n in advert.nets && Includes(n, ip)
        ensures HasAsLong(s.tables[s.owner[advert.source]], ip, PrefixLength(n))
      {
        AsLongBy(s.tables[s.owner[advert.source]], ip, n, PrefixLength(n));
      }
    }
    NearerSteady(s, RanksOf(s, rank, ip), ip);
  }

  /** Router x forwards to r for n, its longest match. */
  ghost predicate Follows(s: System, x: RouterId, r: RouterId, ip: nat, n: Network)
    requires x in s.tables
  {
    IsLongestMatch(s.tables[x], ip, n) && OwnedBy(s, s.tables[x][n].gateway, r)
  }

  /**
   No other router follows r for a network that the check drops without keeping one as long, and
   no broadcast of r under way names one.
   */
  ghost predicate DropsNoRoute(s: System, r: RouterId, at: Time, ip: nat)
    requires r in s.tables
  {
    forall n | Drops(s, r, at, n) && Includes(n, ip) && NoneAsLong(s, r, at, ip, n) ::
      && (forall x | x in s.tables && x != r :: !Follows(s, x, r, ip, n))
      && (forall advert | advert in s.inFlight && OwnedBy(s, advert.source, r) :: n !in advert.nets)
  }

  lemma KeptOrLonger(s: System, r: RouterId, at: Time, ip: nat, n: Network)
    requires r in s.tables && n in s.tables[r] && Includes(n, ip)
    requires !(Drops(s, r, at, n) && NoneAsLong(s, r, at, ip, n))
    ensures KeepsAsLong(s, r, at, ip, PrefixLength(n))
  {
    hide Canonical, Includes, PrefixLength;
    if !Drops(s, r, at, n) {
      assert n in Expire(s.tables[r], at);
    } else {
      var m :| m in s.tables[r] && !Drops(s, r, at, m) && Includes(m, ip) && PrefixLength(m) >= PrefixLength(n);
      assert m in Expire(s.tables[r], at);
    }
  }

  lemma NoneKept(s: System, r: RouterId, at: Time, ip: nat, n: Network)
    requires r in s.tables && NoneAsLong(s, r, at, ip, n)
    ensures !KeepsAsLong(s, r, at, ip, PrefixLength(n))
  {
    hide Canonical, Includes, PrefixLength;
  }

  /** The gateway of x for its longest match has it too, or now has a longer one. */
  lemma StillNearer(s: System, rank: Ranking, t: System, x: RouterId, ip: nat)
    requires AddressesKnown(s) && t.owner == s.owner && t.tables.Keys == s.tables.Keys && x in s.tables
    requires Routable(t.tables[x], ip) ==>
               var m := LongestMatch(t.tables[x], ip);
               && m in s.tables[x] && t.tables[x][m] == s.tables[x][m] && EntryRanked(s, rank, x, m)
               && (s.tables[x][m].gateway in s.owner ==>
                     HasAsLong(t.tables[s.owner[s.tables[x][m].gateway]], ip, PrefixLength(m)))
    ensures NearerFrom(t, RanksOf(t, rank, ip), x, ip)
  {
    hide Canonical, Includes, PrefixLength, Routable, HasAsLong;
    if Routable(t.tables[x], ip) {
      var m := LongestMatch(t.tables[x], ip);
      if NextHop(t, x, ip).Forward? {
        var y := NextHop(t, x, ip).next;
        HasAsLongMatch(t.tables[y], ip, PrefixLength(m));
        var n := LongestMatch(t.tables[y], ip);
        if PrefixLength(n) == PrefixLength(m) {
          SameLengthSameNetwork(n, m, ip);
        }
      }
    }
  }

  lemma RankedAfter(s: System, rank: Ranking, r: RouterId, at: Time, ip: nat, x: RouterId)
    requires Ranked(s, rank, ip) && r in s.tables && x in s.tables && DropsNoRoute(s, r, at, ip)
    ensures var t := Step(s, CheckTable(r, at)); NearerFrom(t, RanksOf(t, rank, ip), x, ip)
  {
    hide Canonical, Includes, PrefixLength, Routable, HasAsLong, Step, Drops, NoneAsLong;
    var t := Step(s, CheckTable(r, at));
    CheckFrame(s, r, at);
    if Routable(t.tables[x], ip) {
      var m := LongestMatch(t.tables[x], ip);
      CheckedTables(s, r, at, x, m);
      assert EntryRanked(s, rank, x, m);
      if s.tables[x][m].gateway in s.owner {
        GatewayStillHas(s, rank, r, at, ip, x, m);
      }
    }
    StillNearer(s, rank, t, x, ip);
  }

  lemma GatewayStillHas(s: System, rank: Ranking, r: RouterId, at: Time, ip: nat, x: RouterId, m: Network)
    requires AddressesKnown(s) && r in s.tables && x in s.tables && DropsNoRoute(s, r, at, ip)
    requires x in Step(s, CheckTable(r, at)).tables && IsLongestMatch(Step(s, CheckTable(r, at)).tables[x], ip, m)
    requires m in s.tables[x] && EntryRanked(s, rank, x, m) && s.tables[x][m].gateway in s.owner
    ensures s.owner[s.tables[x][m].gateway] in Step(s, CheckTable(r, at)).tables
    ensures HasAsLong(Step(s, CheckTable(r, at)).tables[s.owner[s.tables[x][m].gateway]], ip, PrefixLength(m))
  {
    hide Canonical, Includes, PrefixLength, HasAsLong, Drops, NoneAsLong, Expire;
    var t := Step(s, CheckTable(r, at));
    CheckFrame(s, r, at);
    var y := s.owner[s.tables[x][m].gateway];
    if y == r {
      assert Follows(s, x, r, ip, m);
      KeptOrLonger(s, r, at, ip, m);
    } else {
      AsLongBy(t.tables[y], ip, m, PrefixLength(m));
    }
  }

  lemma KeptAdvertHeld(s: System, r: RouterId, at: Time, ip: nat, advert: Advert)
    requires r in s.tables && DropsNoRoute(s, r, at, ip) && advert in s.inFlight && AdvertKept(s, advert, ip)
    ensures AdvertHeld(Step(s, CheckTable(r, at)), advert, ip)
  {
    hide Canonical, Includes, PrefixLength, HasAsLong, Drops, NoneAsLong, Expire, Follows;
    var t := Step(s, CheckTable(r, at));
    CheckFrame(s, r, at);
    var z := s.owner[advert.source];
    forall n | n in advert.nets && Includes(n, ip) ensures HasAsLong(t.tables[z], ip, PrefixLength(n)) {
      if z == r {
        KeptOrLonger(s, r, at, ip, n);
      } else {
        AsLongBy(t.tables[z], ip, n, PrefixLength(n));
      }
    }
  }

  lemma DropsNoRouteSteady(s: System, rank: Ranking, r: RouterId, at: Time, ip: nat)
    requires Ranked(s, rank, ip) && r in s.tables && DropsNoRoute(s, r, at, ip)
    ensures Steady(Step(s, CheckTable(r, at)), ip)
  {
    hide Canonical, EntryRanked, AdvertKept, AdvertHeld, NearerFrom, DropsNoRoute, Steady, Expire;
    var t := Step(s, CheckTable(r, at));
    StepFrame(s, CheckTable(r, at));
    forall x | x in t.tables ensures NearerFrom(t, RanksOf(t, rank, ip), x, ip) {
      RankedAfter(s, rank, r, at, ip, x);
    }
    forall advert | advert in t.inFlight ensures AdvertHeld(t, advert, ip) {
      KeptAdvertHeld(s, r, at, ip, advert);
    }
    NearerSteady(t, RanksOf(t, rank, ip), ip);
  }

  lemma FollowerForwards(s: System, x: RouterId, r: RouterId, ip: nat, n: Network)
    requires Sane(s) && x in s.tables && r in s.tables && Follows(s, x, r, ip, n)
    ensures Routable(s.tables[x], ip) && NextHop(s, x, ip).Forward? && NextHop(s, x, ip).next == r
    ensures MatchLength(s.tables[x], ip) == PrefixLength(n)
  {
    hide Canonical, Includes, PrefixLength, Routable, NextHop, EntrySane, IsLongestMatch;
    MatchInTable(s.tables[x], ip, n);
    ForwardsBy(s, x, ip, n, s.tables[x][n].gateway, r);
    FindRouteIgnoresTies(s.tables[x], ip, n);
  }

  lemma SafeDropsNoRoute(s: System, r: RouterId, at: Time, ip: nat)
    requires Sane(s) && r in s.tables && SafeCheck(s, r, at, ip)
    ensures DropsNoRoute(s, r, at, ip)
  {
    hide Canonical, Includes, PrefixLength, Sane, NextHop, Routable, Follows, KeepsAsLong, NoneAsLong, LeftRouteGood,
      Drops, OwnedBy;
    forall n | Drops(s, r, at, n) && Includes(n, ip) && NoneAsLong(s, r, at, ip, n)
      ensures forall x | x in s.tables && x != r :: !Follows(s, x, r, ip, n)
      ensures forall advert | advert in s.inFlight && OwnedBy(s, advert.source, r) :: n !in advert.nets
    {
      NoneKept(s, r, at, ip, n);
      forall x | x in s.tables && x != r ensures !Follows(s, x, r, ip, n) {
        assert ServesFollower(s, r, at, ip, x);
        if Follows(s, x, r, ip, n) {
          FollowerForwards(s, x, r, ip, n);
        }
      }
      forall advert | advert in s.inFlight && OwnedBy(s, advert.source, r) ensures n !in advert.nets {
        assert ServesAdvert(s, r, at, ip, advert);
      }
    }
  }

  /**
   From a ranked state, forwarding is right after a check and stays right until the next if and
   only if the check drops no network for which another router follows this one, or may yet come
   to, without keeping a match for ip as long.
   */
  lemma RankedCheckIff(s: System, rank: Ranking, r: RouterId, at: Time, ip: nat)
    requires Ranked(s, rank, ip) && Sane(s) && AllAddressed(s) && r in s.tables
    ensures StaysGood(Step(s, CheckTable(r, at)), ip) <==> DropsNoRoute(s, r, at, ip)
  {
    hide *;
    CheckEnabled(s, r, at);
    SaneStep(s, CheckTable(r, at));
    AddressedStep(s, CheckTable(r, at));
    SteadyIff(Step(s, CheckTable(r, at)), ip);
    if DropsNoRoute(s, r, at, ip) {
      DropsNoRouteSteady(s, rank, r, at, ip);
    }
    if Steady(Step(s, CheckTable(r, at)), ip) {
      SteadyCheckSafe(s, r, at, ip);
      SafeDropsNoRoute(s, r, at, ip);
    }
  }

  lemma CheckEnabled(s: System, r: RouterId, at: Time)
    requires r in s.tables
    ensures Enabled(s, CheckTable(r, at))
  {
  }
}
