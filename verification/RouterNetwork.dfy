/**
 Several routers exchanging their tables.  There is no metric and no hop limit in
 ruby-router; what keeps forwarding free of loops is that a router learns a network
 only from one that already had it, together with longest-prefix match.
 */
module RouterNetwork {
  import opened Text
  import opened IpNetwork
  import opened RoutingTable
  import opened RoutingProtocol

  type RouterId = nat

  /** A broadcast under way: the source address, and the networks of the table when it was sent. */
  datatype Advert = Advert(source: string, nets: seq<Network>)

  /**
   owner says which router has an address, attached which of its networks the address is on.
   A broadcast in flight may be received at any time, repeatedly and by any routers, until it is lost.
   */
  datatype System = System(
    owner: map<string, RouterId>, attached: map<string, Network>,
    tables: map<RouterId, Table>, inFlight: set<Advert>)

  datatype Event =
    | Send(router: RouterId, source: string, order: seq<Network>)
    | Receive(router: RouterId, advert: Advert, device: Option<string>, at: Time)
    | Lose(router: RouterId, advert: Advert)
    | CheckTable(router: RouterId, at: Time)

  ghost predicate Enabled(s: System, e: Event) {
    && e.router in s.tables
    && match e
       case Send(r, source, order) => source in s.owner && s.owner[source] == r && IsSortedNetworks(order, s.tables[r])
       case Receive(_, advert, _, _) => advert in s.inFlight
       case Lose(_, advert) => advert in s.inFlight
       case CheckTable(_, _) => true
  }

  function Step(s: System, e: Event): System
    requires e.router in s.tables
  {
    match e
    case Send(_, source, order) => s.(inFlight := s.inFlight + {Advert(source, order)})
    case Receive(r, advert, device, at) =>
      s.(tables := s.tables[r := LearnAll(s.tables[r], advert.nets, advert.source, device, at, 3)])
    case Lose(_, advert) => s.(inFlight := s.inFlight - {advert})
    case CheckTable(r, at) => s.(tables := s.tables[r := Expire(s.tables[r], at)])
  }

  /** Addresses belong to routers, and "self" is none. */
  ghost predicate AddressesKnown(s: System) {
    && "self" !in s.owner && s.attached.Keys == s.owner.Keys
    && forall a | a in s.owner :: s.owner[a] in s.tables
  }

  /** Before the first broadcast every router knows its attached networks only. */
  ghost predicate Initial(s: System) {
    && AddressesKnown(s)
    && (forall a | a in s.owner :: s.attached[a] in s.tables[s.owner[a]])
    && (forall r, n | r in s.tables && n in s.tables[r] ::
          s.tables[r][n].kind == Direct && s.tables[r][n].gateway == "self")
    && s.inFlight == {}
  }

  ghost predicate IsRun(states: seq<System>, events: seq<Event>) {
    Steps(states, events) && Initial(states[0])
  }

  /** The events happen one after the other, from any state on. */
  ghost predicate Steps(states: seq<System>, events: seq<Event>) {
    && |states| == |events| + 1
    && forall i | 0 <= i < |events| :: Enabled(states[i], events[i]) && states[i + 1] == Step(states[i], events[i])
  }

  // ---------- The invariant, for one destination ----------

  type Ranking = map<(RouterId, Network), nat>

  /** The gateway of a learned entry is a router that has the network too, one step nearer. */
  ghost predicate EntryRanked(s: System, rank: Ranking, r: RouterId, n: Network)
    requires r in s.tables && n in s.tables[r]
  {
    var gateway := s.tables[r][n].gateway;
    && (r, n) in rank
    && (gateway != "self" ==>
          && gateway in s.owner && s.owner[gateway] in s.tables
          && n in s.tables[s.owner[gateway]]
          && (s.owner[gateway], n) in rank
          && rank[(s.owner[gateway], n)] < rank[(r, n)])
    && (gateway == "self" <==> s.tables[r][n].kind == Direct)
  }

  /** The sender still has the networks of its broadcast that contain ip. */
  ghost predicate AdvertKept(s: System, advert: Advert, ip: nat) {
    && advert.source in s.owner && s.owner[advert.source] in s.tables
    && forall n | n in advert.nets && Includes(n, ip) :: n in s.tables[s.owner[advert.source]]
  }

  ghost predicate Ranked(s: System, rank: Ranking, ip: nat) {
    && AddressesKnown(s)
    && (forall r, n | r in s.tables && n in s.tables[r] && Includes(n, ip) :: EntryRanked(s, rank, r, n))
    && (forall advert | advert in s.inFlight :: AdvertKept(s, advert, ip))
  }

  lemma InitialRanked(s: System, ip: nat) returns (rank: Ranking)
    requires Initial(s)
    ensures Ranked(s, rank, ip)
  {
    hide Canonical, Includes;
    var pairs := set r, n | r in s.tables && n in s.tables[r] :: (r, n);
    rank := map p | p in pairs :: 0;
  }

  lemma SendKeeps(s: System, rank: Ranking, e: Event, ip: nat)
    requires Ranked(s, rank, ip) && Enabled(s, e) && e.Send?
    ensures Ranked(Step(s, e), rank, ip)
  {
    hide Canonical, Includes;
    var s' := Step(s, e);
    forall r, n | r in s'.tables && n in s'.tables[r] && Includes(n, ip)
      ensures EntryRanked(s', rank, r, n)
    {
      assert EntryRanked(s, rank, r, n);
    }
    forall advert | advert in s'.inFlight
      ensures AdvertKept(s', advert, ip)
    {
      if advert in s.inFlight {
        assert AdvertKept(s, advert, ip);
      }
    }
  }

  lemma LoseKeeps(s: System, rank: Ranking, e: Event, ip: nat)
    requires Ranked(s, rank, ip) && Enabled(s, e) && e.Lose?
    ensures Ranked(Step(s, e), rank, ip)
  {
    hide Canonical, Includes;
    var s' := Step(s, e);
    forall r, n | r in s'.tables && n in s'.tables[r] && Includes(n, ip)
      ensures EntryRanked(s', rank, r, n)
    {
      assert EntryRanked(s, rank, r, n);
    }
    forall advert | advert in s'.inFlight
      ensures AdvertKept(s', advert, ip)
    {
      assert AdvertKept(s, advert, ip);
    }
  }

  /** What the receiver learns from an advertisement. */
  function Learned(s: System, r: RouterId, advert: Advert): set<(RouterId, Network)>
    requires r in s.tables
  {
    set n | n in advert.nets && n !in s.tables[r] :: (r, n)
  }

  /** Newly learned networks are ranked one above the router they were learned from. */
  function Extended(s: System, rank: Ranking, r: RouterId, advert: Advert): Ranking
    requires r in s.tables && advert.source in s.owner
  {
    var from := s.owner[advert.source];
    var learned := Learned(s, r, advert);
    map p | p in rank.Keys + learned ::
      if p in learned then (if (from, p.1) in rank then rank[(from, p.1)] + 1 else 0) else rank[p]
  }

  /** Tables only grow, and entries keep gateway and kind. */
  lemma TablesGrow(s: System, e: Event, x: RouterId, n: Network)
    requires e.Receive? && e.router in s.tables && x in s.tables
    ensures var s' := Step(s, e);
            && s'.owner == s.owner && s'.attached == s.attached
            && s'.tables.Keys == s.tables.Keys && s'.inFlight == s.inFlight
            && (n in s'.tables[x] <==> n in s.tables[x] || (x == e.router && n in e.advert.nets))
            && (n in s.tables[x] ==> s'.tables[x][n].gateway == s.tables[x][n].gateway
                                     && s'.tables[x][n].kind == s.tables[x][n].kind)
            && (n !in s.tables[x] && n in s'.tables[x] ==> s'.tables[x][n].gateway == e.advert.source
                                                           && s'.tables[x][n].kind == Dynamic)
  {
    hide Canonical, LearnAll;
    LearnAllAt(s.tables[e.router], e.advert.nets, e.advert.source, e.device, e.at, 3, n);
  }

  lemma OldEntryKeepsRank(s: System, rank: Ranking, e: Event, x: RouterId, n: Network)
    requires AddressesKnown(s) && e.Receive? && e.router in s.tables && e.advert.source in s.owner
    requires x in s.tables && n in s.tables[x] && EntryRanked(s, rank, x, n)
    ensures x in Step(s, e).tables && n in Step(s, e).tables[x]
    ensures EntryRanked(Step(s, e), Extended(s, rank, e.router, e.advert), x, n)
  {
    hide Canonical;
    TablesGrow(s, e, x, n);
    var gateway := s.tables[x][n].gateway;
    if gateway != "self" {
      TablesGrow(s, e, s.owner[gateway], n);
    }
    hide Step;
  }

  lemma NewEntryIsRanked(s: System, rank: Ranking, e: Event, n: Network, ip: nat)
    requires Ranked(s, rank, ip) && Enabled(s, e) && e.Receive? && Includes(n, ip)
    requires n !in s.tables[e.router] && n in e.advert.nets
    ensures n in Step(s, e).tables[e.router] && e.advert.source in s.owner
    ensures EntryRanked(Step(s, e), Extended(s, rank, e.router, e.advert), e.router, n)
  {
    hide Canonical, Includes;
    assert AdvertKept(s, e.advert, ip);
    var from := s.owner[e.advert.source];
    assert EntryRanked(s, rank, from, n);
    TablesGrow(s, e, e.router, n);
    TablesGrow(s, e, from, n);
    assert (e.router, n) in Learned(s, e.router, e.advert);
    hide Step;
  }

  lemma AdvertStillKept(s: System, e: Event, advert: Advert, ip: nat)
    requires e.Receive? && e.router in s.tables && AdvertKept(s, advert, ip)
    ensures AdvertKept(Step(s, e), advert, ip)
  {
    hide Canonical, Includes;
    forall n | n in advert.nets && Includes(n, ip)
      ensures n in Step(s, e).tables[s.owner[advert.source]]
    {
      TablesGrow(s, e, s.owner[advert.source], n);
    }
  }

  lemma ReceiveKeeps(s: System, rank: Ranking, e: Event, ip: nat) returns (rank': Ranking)
    requires Ranked(s, rank, ip) && Enabled(s, e) && e.Receive?
    ensures Ranked(Step(s, e), rank', ip)
  {
    hide Canonical, Extended, EntryRanked, LearnAll, Includes;
    var s' := Step(s, e);
    assert AdvertKept(s, e.advert, ip);
    rank' := Extended(s, rank, e.router, e.advert);
    forall x, n | x in s'.tables && n in s'.tables[x] && Includes(n, ip)
      ensures EntryRanked(s', rank', x, n)
    {
      TablesGrow(s, e, x, n);
      if n in s.tables[x] {
        assert EntryRanked(s, rank, x, n);
        OldEntryKeepsRank(s, rank, e, x, n);
      } else {
        NewEntryIsRanked(s, rank, e, n, ip);
      }
    }
    forall a | a in s'.inFlight
      ensures AdvertKept(s', a, ip)
    {
      assert AdvertKept(s, a, ip);
      AdvertStillKept(s, e, a, ip);
    }
  }

  // ---------- Checks that drop nothing in use ----------

  /** The check finds the network outdated. */
  predicate Drops(s: System, r: RouterId, at: Time, n: Network)
    requires r in s.tables
  {
    n in s.tables[r] && Expired(s.tables[r][n], at)
  }

  /** Another router forwards to r for the network, or may yet learn it from a broadcast of r. */
  ghost predicate InUse(s: System, r: RouterId, n: Network) {
    || (exists x :: x in s.tables && x != r && n in s.tables[x] && OwnedBy(s, s.tables[x][n].gateway, r))
    || (exists advert :: advert in s.inFlight && OwnedBy(s, advert.source, r) && n in advert.nets)
  }

  predicate OwnedBy(s: System, address: string, r: RouterId) {
    address in s.owner && s.owner[address] == r
  }

  /** No network that the check drops and that contains ip is in use elsewhere. */
  ghost predicate DropsUnused(s: System, r: RouterId, at: Time, ip: nat)
    requires r in s.tables
  {
    forall n | Drops(s, r, at, n) && Includes(n, ip) :: !InUse(s, r, n)
  }

  lemma CheckedTables(s: System, r: RouterId, at: Time, x: RouterId, n: Network)
    requires r in s.tables && x in s.tables
    ensures var s' := Step(s, CheckTable(r, at));
            && s'.owner == s.owner && s'.attached == s.attached && s'.inFlight == s.inFlight
            && s'.tables.Keys == s.tables.Keys
            && (n in s'.tables[x] <==> n in s.tables[x] && !(x == r && Drops(s, r, at, n)))
            && (n in s'.tables[x] ==> s'.tables[x][n] == s.tables[x][n])
  {
    hide Canonical;
  }

  lemma UnusedEntry(s: System, rank: Ranking, r: RouterId, at: Time, ip: nat, x: RouterId, n: Network)
    requires AddressesKnown(s) && r in s.tables && DropsUnused(s, r, at, ip) && Includes(n, ip)
    requires x in s.tables && n in s.tables[x] && !(x == r && Drops(s, r, at, n)) && EntryRanked(s, rank, x, n)
    ensures var s' := Step(s, CheckTable(r, at));
            x in s'.tables && n in s'.tables[x] && EntryRanked(s', rank, x, n)
  {
    hide Canonical, Includes, Drops;
    CheckedTables(s, r, at, x, n);
    var gateway := s.tables[x][n].gateway;
    if gateway != "self" {
      CheckedTables(s, r, at, s.owner[gateway], n);
    }
    hide Step;
  }

  lemma UnusedAdvert(s: System, r: RouterId, at: Time, ip: nat, advert: Advert)
    requires r in s.tables && DropsUnused(s, r, at, ip) && advert in s.inFlight && AdvertKept(s, advert, ip)
    ensures AdvertKept(Step(s, CheckTable(r, at)), advert, ip)
  {
    hide Canonical, Includes, Drops;
    forall n | n in advert.nets && Includes(n, ip)
      ensures n in Step(s, CheckTable(r, at)).tables[s.owner[advert.source]]
    {
      CheckedTables(s, r, at, s.owner[advert.source], n);
    }
  }

  lemma UnusedDropsKeep(s: System, rank: Ranking, r: RouterId, at: Time, ip: nat)
    requires Ranked(s, rank, ip) && r in s.tables && DropsUnused(s, r, at, ip)
    ensures Ranked(Step(s, CheckTable(r, at)), rank, ip)
  {
    hide Canonical, Includes, EntryRanked, DropsUnused, AdvertKept, Drops;
    var s' := Step(s, CheckTable(r, at));
    forall x, n | x in s'.tables && n in s'.tables[x] && Includes(n, ip)
      ensures EntryRanked(s', rank, x, n)
    {
      CheckedTables(s, r, at, x, n);
      assert EntryRanked(s, rank, x, n);
      UnusedEntry(s, rank, r, at, ip, x, n);
    }
    forall a | a in s'.inFlight
      ensures AdvertKept(s', a, ip)
    {
      assert a in s.inFlight;
      UnusedAdvert(s, r, at, ip, a);
    }
  }

  // ---------- Runs ----------

  ghost predicate ChecksDropUnused(states: seq<System>, events: seq<Event>, ip: nat)
    requires |states| == |events| + 1
  {
    forall i | 0 <= i < |events| && events[i].CheckTable? && events[i].router in states[i].tables ::
      DropsUnused(states[i], events[i].router, events[i].at, ip)
  }

  /** As long as checks drop only what nobody else uses, every reachable state has a ranking. */
  lemma {:induction false} ReachableRanked(states: seq<System>, events: seq<Event>, ip: nat) returns (rank: Ranking)
    requires IsRun(states, events) && ChecksDropUnused(states, events, ip)
    ensures Ranked(states[|events|], rank, ip)
    decreases |events|
  {
    hide Canonical, Step, Ranked, DropsUnused, Initial;
    if events == [] {
      rank := InitialRanked(states[0], ip);
    } else {
      var n := |events| - 1;
      var e := events[n];
      var before := ReachableRanked(states[..n + 1], events[..n], ip);
      if e.Send? {
        SendKeeps(states[n], before, e, ip);
        rank := before;
      } else if e.Receive? {
        rank := ReceiveKeeps(states[n], before, e, ip);
      } else if e.Lose? {
        LoseKeeps(states[n], before, e, ip);
        rank := before;
      } else {
        UnusedDropsKeep(states[n], before, e.router, e.at, ip);
        rank := before;
      }
    }
  }
}
