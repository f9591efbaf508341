/**
 The routing table and its longest-prefix lookup: sorted_networks and the loop of
 route_packet in ruby-router/router.rb.
 */
module RoutingTable {
  import opened Text
  import opened IpNetwork

  type Time = real

  datatype Kind = Direct | Static | Dynamic

  /** RoutingEntry; received and validTime matter for dynamic entries only. */
  datatype Entry = Entry(gateway: string, interface: Option<string>, kind: Kind, received: Time, validTime: int)

  type Table = map<Network, Entry>

  /** What sorted_networks may return: every key once, longer prefixes first, ties in any order. */
  ghost predicate IsSortedNetworks(order: seq<Network>, table: Table) {
    && (forall n :: n in order <==> n in table)
    && (forall i, j | 0 <= i < j < |order| :: order[i] != order[j])
    && (forall i, j | 0 <= i < j < |order| :: PrefixLength(order[i]) >= PrefixLength(order[j]))
  }

  ghost predicate IsLongestMatch(table: Table, ip: nat, net: Network) {
    && net in table && Includes(net, ip)
    && forall n | n in table && Includes(n, ip) :: PrefixLength(n) <= PrefixLength(net)
  }

  ghost predicate Routable(table: Table, ip: nat) {
    exists n :: n in table && Includes(n, ip)
  }

  /** The lookup loop of route_packet; nothing is found when gateway stays nil. */
  method FindRoute(table: Table, order: seq<Network>, devices: seq<string>, ip: nat)
    returns (hit: Option<Network>, gateway: Option<string>, intOut: Option<string>)
    requires IsSortedNetworks(order, table)
    ensures hit == None <==> !Routable(table, ip)
    ensures hit.Some? ==> IsLongestMatch(table, ip, hit.value)
    ensures gateway == if hit.Some? then Some(table[hit.value].gateway) else None
    ensures forall d :: intOut == Some(d) <==> hit.Some? && table[hit.value].interface == Some(d) && d in devices
  {
    hide Canonical, PrefixLength, Includes;
    hit, gateway, intOut := None, None, None;
    var i := 0;
    while i < |order|
      invariant 0 <= i <= |order|
      invariant hit == None && gateway == None && intOut == None
      invariant forall j | 0 <= j < i :: !Includes(order[j], ip)
    {
      var entry := table[order[i]];
      if Includes(order[i], ip) {
        hit, gateway := Some(order[i]), Some(entry.gateway);
        intOut := if entry.interface.Some? && entry.interface.value in devices then entry.interface else None;
        break;
      }
      i := i + 1;
    }
  }

  /** Neither insertion order nor the way the sort breaks ties decides the route. */
  lemma LongestMatchUnique(table: Table, ip: nat, x: Network, y: Network)
    requires IsLongestMatch(table, ip, x) && IsLongestMatch(table, ip, y)
    ensures x == y
  {
    SameLengthSameNetwork(x, y, ip);
  }

  /** A routable address has a longest match, so the lookup above always has an answer. */
  lemma {:induction false} LongestMatchExists(table: Table, ip: nat)
    requires Routable(table, ip)
    ensures exists n :: IsLongestMatch(table, ip, n)
    decreases |table|
  {
    hide Canonical, PrefixLength, Includes;
    var n :| n in table && Includes(n, ip);
    var others := table - {n};
    if Routable(others, ip) {
      LongestMatchExists(others, ip);
      var best :| IsLongestMatch(others, ip, best);
      if PrefixLength(best) >= PrefixLength(n) {
        assert IsLongestMatch(table, ip, best);
      } else {
        assert IsLongestMatch(table, ip, n);
      }
    } else {
      assert forall m | m in table && Includes(m, ip) :: m == n || m in others;
      assert IsLongestMatch(table, ip, n);
    }
  }

  ghost function LongestMatch(table: Table, ip: nat): (net: Network)
    requires Routable(table, ip)
    ensures IsLongestMatch(table, ip, net)
  {
    LongestMatchExists(table, ip);
    var net :| IsLongestMatch(table, ip, net);
    net
  }

  lemma FindRouteIgnoresTies(table: Table, ip: nat, found: Network)
    requires IsLongestMatch(table, ip, found)
    ensures found == LongestMatch(table, ip)
  {
    LongestMatchUnique(table, ip, found, LongestMatch(table, ip));
  }

  /** The prefix length of the longest match. */
  ghost function MatchLength(table: Table, ip: nat): (length: int)
    requires Routable(table, ip)
    ensures 0 <= length <= 32
  {
    PrefixLength(LongestMatch(table, ip))
  }

  /** Some network of the table contains ip and is no shorter than that. */
  ghost predicate HasAsLong(table: Table, ip: nat, length: int) {
    exists n :: n in table && Includes(n, ip) && PrefixLength(n) >= length
  }

  lemma HasAsLongMatch(table: Table, ip: nat, length: int)
    ensures HasAsLong(table, ip, length) <==> Routable(table, ip) && MatchLength(table, ip) >= length
  {
    hide Canonical, PrefixLength, Includes;
    if Routable(table, ip) {
      assert IsLongestMatch(table, ip, LongestMatch(table, ip));
    }
  }

  /** Every table has a sorted enumeration. */
  lemma {:induction false} SortedNetworksExist(table: Table)
    ensures exists order :: IsSortedNetworks(order, table)
    decreases |table|
  {
    hide *;
    if table == map[] {
      NothingIsSorted();
    } else {
      var n := LongestKey(table);
      SortedNetworksExist(table - {n});
      var order :| IsSortedNetworks(order, table - {n});
      SortedAfterLongest(table, n, order);
    }
  }

  lemma NothingIsSorted()
    ensures IsSortedNetworks([], map[])
  {
    hide Canonical, PrefixLength;
  }

  lemma SortedAfterLongest(table: Table, n: Network, order: seq<Network>)
    requires n in table && forall m | m in table :: PrefixLength(m) <= PrefixLength(n)
    requires IsSortedNetworks(order, table - {n})
    ensures IsSortedNetworks([n] + order, table)
  {
    hide Canonical, PrefixLength;
    assert forall m :: m in table <==> m == n || m in table - {n};
    assert forall m :: m in [n] + order <==> m == n || m in order;
  }

  lemma {:induction false} LongestKey(table: Table) returns (net: Network)
    requires table != map[]
    ensures net in table && forall n | n in table :: PrefixLength(n) <= PrefixLength(net)
    decreases |table|
  {
    hide Canonical, PrefixLength, Includes;
    var n :| n in table;
    var others := table - {n};
    net := n;
    if others != map[] {
      var best := LongestKey(others);
      net := if PrefixLength(best) >= PrefixLength(n) then best else n;
    }
    assert forall m | m in table :: m == n || m in others;
  }
}
