/**
 What the table holds as a function of the updates heard: any run of
 update_routing_table and check_routing_table under a clock that never goes back.
 */
module RouteExpiry {
  import opened Text
  import opened IpNetwork
  import opened RoutingTable
  import opened RoutingProtocol

  datatype Event =
    | Update(nets: seq<Network>, gateway: string, device: Option<string>, at: Time, validTime: int)
    | Check(at: Time)

  function Step(table: Table, e: Event): Table {
    match e
    case Update(nets, gateway, device, at, validTime) => LearnAll(table, nets, gateway, device, at, validTime)
    case Check(at) => Expire(table, at)
  }

  function Run(table: Table, events: seq<Event>): Table {
    if events == [] then table else Step(Run(table, events[..|events| - 1]), events[|events| - 1])
  }

  predicate Clocked(events: seq<Event>) {
    forall i, j | 0 <= i < j < |events| :: events[i].at <= events[j].at
  }

  /** When the last update naming net arrived, and for how long it was valid. */
  function LastHeard(events: seq<Event>, net: Network): Option<(Time, int)> {
    if events == [] then None
    else
      var e := events[|events| - 1];
      if e.Update? && net in e.nets then Some((e.at, e.validTime)) else LastHeard(events[..|events| - 1], net)
  }

  predicate Fresh(heard: Option<(Time, int)>, now: Time) {
    heard.Some? && now - heard.value.0 <= heard.value.1 as real
  }

  /** The entry, if there is one, records the last update; if it is gone, that update is outdated. */
  predicate Tracks(table: Table, net: Network, heard: Option<(Time, int)>, now: Time) {
    && (net in table ==> heard.Some? && table[net].kind == Dynamic
                         && table[net].received == heard.value.0 && table[net].validTime == heard.value.1)
    && (net !in table ==> !Fresh(heard, now))
  }

  lemma {:induction false} RunTracks(start: Table, events: seq<Event>, net: Network)
    requires Clocked(events) && net !in start && events != []
    ensures Tracks(Run(start, events), net, LastHeard(events, net), events[|events| - 1].at)
  {
    hide Canonical, LearnAll;
    var n := |events| - 1;
    var before, e := Run(start, events[..n]), events[n];
    if n > 0 {
      RunTracks(start, events[..n], net);
      assert events[n - 1].at <= e.at;
    }
    if e.Update? {
      LearnAllAt(before, e.nets, e.gateway, e.device, e.at, e.validTime, net);
    }
  }

  /**
   Right after a check, a network that was not configured is in the table exactly when
   the last update naming it is still valid.
   */
  lemma HeldExactlyWhileFresh(start: Table, events: seq<Event>, net: Network)
    requires Clocked(events) && net !in start
    requires events != [] && events[|events| - 1].Check?
    ensures net in Run(start, events) <==> Fresh(LastHeard(events, net), events[|events| - 1].at)
  {
    RunTracks(start, events, net);
    hide Canonical;
  }

  /** Updates and checks neither change nor remove nor add configured entries. */
  lemma {:induction false} ConfiguredEntriesKept(start: Table, events: seq<Event>, net: Network)
    ensures net in start && start[net].kind != Dynamic ==>
              net in Run(start, events) && Run(start, events)[net] == start[net]
    ensures net in Run(start, events) && Run(start, events)[net].kind != Dynamic ==>
              net in start && start[net] == Run(start, events)[net]
  {
    hide Canonical, LearnAll;
    if events != [] {
      var n := |events| - 1;
      var before, e := Run(start, events[..n]), events[n];
      ConfiguredEntriesKept(start, events[..n], net);
      if e.Update? {
        LearnAllAt(before, e.nets, e.gateway, e.device, e.at, e.validTime, net);
      }
    }
  }
}
