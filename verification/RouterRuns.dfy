/**
 Whole runs, from tables with attached networks only: forwarding is right at every moment, and
 stays right between checks, exactly if all checks are safe.
 */
module RouterRuns {
  import opened IpNetwork
  import opened RoutingTable
  import opened RouterNetwork
  import opened RouterForwarding
  import opened RouterSteady
  import opened RouterChecks

  ghost predicate ChecksAreSafe(states: seq<System>, events: seq<Event>, ip: nat)
    requires |states| == |events| + 1
  {
    forall i | 0 <= i < |events| && events[i].CheckTable? && events[i].router in states[i].tables ::
      SafeCheck(states[i], events[i].router, events[i].at, ip)
  }

  lemma RunParts(states: seq<System>, events: seq<Event>)
    requires IsRun(states, events)
    ensures Steps(states, events) && |states| == |events| + 1 && Initial(states[0])
  {
    hide Initial, Enabled, Step;
  }

  lemma DirectIsAttached(s: System, x: RouterId, ip: nat)
    requires Initial(s) && x in s.tables
    ensures NearerFrom(s, map[], x, ip)
  {
    hide Canonical, Includes, PrefixLength, Routable, Distance, AddressesKnown;
    if Routable(s.tables[x], ip) {
      assert LongestMatch(s.tables[x], ip) in s.tables[x];
    }
  }

  lemma InitialSteady(s: System, ip: nat)
    requires Initial(s)
    ensures Steady(s, ip)
  {
    hide Canonical, NearerFrom, Steady, Routable;
    forall x | x in s.tables ensures NearerFrom(s, map[], x, ip) {
      DirectIsAttached(s, x, ip);
    }
    NearerSteady(s, map[], ip);
  }

  /** A safe step keeps a steady state, be it a check or a broadcast. */
  lemma SafeStepSteady(s: System, e: Event, ip: nat)
    requires Sane(s) && Steady(s, ip) && Enabled(s, e)
    requires e.CheckTable? && e.router in s.tables ==> SafeCheck(s, e.router, e.at, ip)
    ensures Sane(Step(s, e)) && Steady(Step(s, e), ip)
  {
    hide Sane, Steady, SafeCheck, Step, IsSortedNetworks;
    SaneStep(s, e);
    if e.CheckTable? {
      CheckSteadyIff(s, e.router, e.at, ip);
    } else {
      SteadyStep(s, e, ip);
    }
  }

  lemma {:induction false} ReachableSteady(states: seq<System>, events: seq<Event>, ip: nat)
    requires IsRun(states, events) && ChecksAreSafe(states, events, ip)
    ensures Sane(states[|events|]) && Steady(states[|events|], ip)
    decreases |events|
  {
    hide Sane, Steady, Step, Enabled, Initial, SafeCheck;
    if events == [] {
      InitialSane(states[0]);
      InitialSteady(states[0], ip);
    } else {
      var n := |events| - 1;
      ReachableSteady(states[..n + 1], events[..n], ip);
      SafeStepSteady(states[n], events[n], ip);
    }
  }

  lemma SaneAt(states: seq<System>, events: seq<Event>, i: nat)
    requires IsRun(states, events) && i <= |events|
    ensures |states| == |events| + 1 && Sane(states[i])
  {
    hide Sane, Step, Enabled, Initial;
    InitialSane(states[0]);
    SaneSteps(states[..i + 1], events[..i]);
  }

  lemma {:induction false} AddressedAt(states: seq<System>, events: seq<Event>, i: nat)
    requires Steps(states, events) && AllAddressed(states[0]) && i <= |events|
    ensures AllAddressed(states[i])
  {
    hide AllAddressed, Step, Enabled;
    if i > 0 {
      AddressedAt(states, events, i - 1);
      AddressedStep(states[i - 1], events[i - 1]);
    }
  }

  ghost predicate AlwaysGood(states: seq<System>, ip: nat) {
    forall s | s in states :: StaysGood(s, ip)
  }

  lemma GoodAt(states: seq<System>, events: seq<Event>, ip: nat, i: nat)
    requires IsRun(states, events) && ChecksAreSafe(states, events, ip) && i <= |events|
    ensures |states| == |events| + 1 && StaysGood(states[i], ip)
  {
    hide Sane, Steady, StaysGood, Step, Enabled, Initial, SafeCheck;
    ReachableSteady(states[..i + 1], events[..i], ip);
    SteadyStaysGood(states[i], ip);
  }

  lemma SafeAt(states: seq<System>, events: seq<Event>, ip: nat, i: nat)
    requires IsRun(states, events) && |states| == |events| + 1 && AllAddressed(states[0]) && AlwaysGood(states, ip)
    requires i < |events| && events[i].CheckTable? && events[i].router in states[i].tables
    ensures SafeCheck(states[i], events[i].router, events[i].at, ip)
  {
    hide Sane, Steady, StaysGood, Step, Enabled, Initial, SafeCheck, AllAddressed;
    SaneAt(states, events, i + 1);
    SaneAt(states, events, i);
    AddressedAt(states, events, i + 1);
    assert StaysGood(states[i + 1], ip);
    SteadyIff(states[i + 1], ip);
    SteadyCheckSafe(states[i], events[i].router, events[i].at, ip);
  }

  /**
   Every state of a run forwards right, and goes on doing so until the next check whatever is
   sent, received or lost, if and only if all checks of the run are safe.
   */
  lemma AlwaysGoodIffSafe(states: seq<System>, events: seq<Event>, ip: nat)
    requires IsRun(states, events) && |states| == |events| + 1 && AllAddressed(states[0])
    ensures AlwaysGood(states, ip) <==> ChecksAreSafe(states, events, ip)
  {
    hide IsRun, StaysGood, SafeCheck, AllAddressed;
    if ChecksAreSafe(states, events, ip) {
      forall i | 0 <= i < |states| ensures StaysGood(states[i], ip) {
        GoodAt(states, events, ip, i);
      }
    }
    if AlwaysGood(states, ip) {
      forall i | 0 <= i < |events| && events[i].CheckTable? && events[i].router in states[i].tables
        ensures SafeCheck(states[i], events[i].router, events[i].at, ip)
      {
        SafeAt(states, events, ip, i);
      }
    }
  }

  /**
   After any run without checks, or whose checks dropped nothing in use, the next check does no
   harm if and only if it drops no route that another router follows or may come to follow.
   */
  lemma NextCheckIff(states: seq<System>, events: seq<Event>, r: RouterId, at: Time, ip: nat)
    requires IsRun(states, events) && |states| == |events| + 1 && AllAddressed(states[0])
    requires ChecksDropUnused(states, events, ip) && r in states[|events|].tables
    ensures StaysGood(Step(states[|events|], CheckTable(r, at)), ip) <==> DropsNoRoute(states[|events|], r, at, ip)
  {
    hide *;
    RunParts(states, events);
    var rank := ReachableRanked(states, events, ip);
    SaneAt(states, events, |events|);
    AddressedAt(states, events, |events|);
    RankedCheckIff(states[|events|], rank, r, at, ip);
  }

  lemma SteadyLeadsFrom(s: System, r: RouterId, ip: nat)
    requires Steady(s, ip) && r in s.tables && Routable(s.tables[r], ip)
    ensures LeadsToDirect(s, r, ip)
  {
    hide LeadsToDirect, Routable, GatewayAsLong, AdvertsHeld;
  }

  /**
   No loops.  In every run whose checks are safe, following the gateways from a router that has
   a route visits no router twice and ends at one that has a direct network with the destination
   as its longest match.
   */
  lemma GatewaysLeadToDirect(states: seq<System>, events: seq<Event>, r: RouterId, ip: nat)
    requires IsRun(states, events) && ChecksAreSafe(states, events, ip)
    requires r in states[|events|].tables && Routable(states[|events|].tables[r], ip)
    ensures LeadsToDirect(states[|events|], r, ip)
  {
    hide *;
    RunParts(states, events);
    ReachableSteady(states, events, ip);
    SteadyLeadsFrom(states[|events|], r, ip);
  }

  /**
   Delivery.  In such a run a packet arrives at the router its destination is attached to
   if and only if neither the network it enters from nor that of any gateway on the path
   contains the destination.  Otherwise a router of the path takes it for local and drops it.
   */
  lemma PacketArrivesIffUnobstructed(states: seq<System>, events: seq<Event>, r: RouterId, arrival: Network, ip: nat)
    requires IsRun(states, events) && ChecksAreSafe(states, events, ip)
    requires r in states[|events|].tables && Routable(states[|events|].tables[r], ip)
    ensures var s := states[|events|];
            var path := Path(s, r, ip, |s.tables|);
            var outcome := Travel(s, r, arrival, ip, |s.tables|);
            && (outcome == Arrived(path[|path| - 1]) <==> Unobstructed(s, path, arrival, ip))
            && (!Unobstructed(s, path, arrival, ip) ==> outcome.Stopped? && outcome.router in path)
  {
    hide *;
    RunParts(states, events);
    var s := states[|events|];
    ReachableSteady(states, events, ip);
    SteadyLeadsFrom(s, r, ip);
    LeadsWithin(s, r, ip);
    SteadyNearer(s, ip);
    TravelFollowsPath(s, PathRanks(s, ip), r, arrival, ip, |s.tables|);
  }
}
