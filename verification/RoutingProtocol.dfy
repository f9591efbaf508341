/**
 The routing protocol of ruby-router/routing_protocol.rb and its printer in
 routing_table.rb: learn, refresh, expire and advertise.
 */
module RoutingProtocol {
  import opened Text
  import opened IpNetwork
  import opened RoutingTable
  import opened Advertisement

  // ---------- Learning, refreshing, expiring ----------

  /** One pass of the loop of update_routing_table, for the router with the given address. */
  function Learn(table: Table, net: Network, gateway: string, device: Option<string>, now: Time,
        validTime: int): Table {
    if net !in table then table[net := Entry(gateway, device, Dynamic, now, validTime)]
    else if table[net].kind == Dynamic then table[net := table[net].(received := now, validTime := validTime)]
    else table
  }

  function LearnAll(table: Table, nets: seq<Network>, gateway: string, device: Option<string>, now: Time,
        validTime: int): Table {
    if nets == [] then table
    else
      var front := LearnAll(table, nets[..|nets| - 1], gateway, device, now, validTime);
      Learn(front, nets[|nets| - 1], gateway, device, now, validTime)
  }

  predicate Expired(entry: Entry, now: Time) {
    entry.kind == Dynamic && now - entry.received > entry.validTime as real
  }

  /** The table check_routing_table leaves at time now. */
  function Expire(table: Table, now: Time): Table {
    map net | net in table && !Expired(table[net], now) :: table[net]
  }

  /** What one update does to the entry of one network: nothing unless it names it. */
  lemma {:induction false} LearnAllAt(table: Table, nets: seq<Network>, gateway: string, device: Option<string>,
                                      now: Time, validTime: int, net: Network)
    ensures var after := LearnAll(table, nets, gateway, device, now, validTime);
            && (net in after <==> net in table || net in nets)
            && (net in table && net in nets && table[net].kind == Dynamic ==>
                  after[net] == table[net].(received := now, validTime := validTime))
            && (net in table && (net !in nets || table[net].kind != Dynamic) ==> after[net] == table[net])
            && (net !in table && net in nets ==> after[net] == Entry(gateway, device, Dynamic, now, validTime))
  {
    hide Canonical;
    if nets != [] {
      LearnAllAt(table, nets[..|nets| - 1], gateway, device, now, validTime, net);
      assert nets == nets[..|nets| - 1] + [nets[|nets| - 1]];
    }
  }

  // ---------- The text of an update ----------

  const HEADER := "here_is_my_routing_table"
  const TRAILER := "valid_time 3"

  /** What route_packet looks for in a packet that arrives from its own network. */
  const MARKER := "here_is_my_routing_table"

  /** String#include?. */
  predicate Contains(text: string, part: string) {
    part <= text || (text != "" && Contains(text[1..], part))
  }

  /** One line per network of the table: get_routing_table(true) without its last line. */
  function NetworkLines(order: seq<Network>): string {
    if order == [] then "" else NetworkText(order[0]) + "\n" + NetworkLines(order[1..])
  }

  function UpdateText(order: seq<Network>): string {
    HEADER + "\n" + NetworkLines(order) + TRAILER
  }

  /** A broadcast is recognised, whatever headers it arrives with. */
  lemma BroadcastHasMarker(headers: string, order: seq<Network>)
    ensures Contains(headers + UpdateText(order), "here_is_my_routing_table")
  {
    hide NetworkLines;
    var text, part := headers + UpdateText(order), "here_is_my_routing_table";
    UpdateBegins(order);
    BeginsAfter(headers, UpdateText(order), part);
  }

  lemma UpdateBegins(order: seq<Network>)
    ensures "here_is_my_routing_table" <= UpdateText(order)
  {
    hide NetworkLines;
    Associative(HEADER, "\n", NetworkLines(order));
    Associative(HEADER, "\n" + NetworkLines(order), TRAILER);
  }

  lemma {:induction false} BeginsAfter(headers: string, text: string, part: string)
    requires part <= text
    ensures Contains(headers + text, part)
  {
    if headers == "" {
      assert headers + text == text;
    } else {
      BeginsAfter(headers[1..], text, part);
      assert (headers + text)[1..] == headers[1..] + text;
    }
  }

  /** The first lines of update_routing_table; None where lines[-1] is nil and split raises. */
  function ParseUpdate(update: string): Option<(seq<string>, nat)> {
    var lines := Split(update, '\n');
    if lines == [] then None
    else
      var words := Tokens(lines[|lines| - 1], {' '});
      var validTime := if |words| > 1 then ToI(words[1]) else 0;
      Some((if |lines| > 2 then lines[1..|lines| - 1] else [], validTime))
  }

  function NetworkTexts(order: seq<Network>): (lines: seq<string>)
    ensures |lines| == |order|
  {
    seq(|order|, i requires 0 <= i < |order| => NetworkText(order[i]))
  }

  lemma NetworkTextIsLine(net: Network)
    ensures '\n' !in NetworkText(net)
  {
    QuadAvoids(net.addr, '\n');
    hide DottedQuad, PrefixLength, Canonical;
    DigitsAvoid(Decimal(PrefixLength(net)), '\n');
  }

  lemma {:induction false} SplitNetworkLines(order: seq<Network>, rest: string)
    ensures SplitAll(NetworkLines(order) + rest, '\n') == NetworkTexts(order) + SplitAll(rest, '\n')
  {
    hide NetworkText, Canonical, SplitAll;
    if order == [] {
      assert NetworkLines(order) + rest == rest;
    } else {
      var line := NetworkText(order[0]);
      NetworkTextIsLine(order[0]);
      SplitNetworkLines(order[1..], rest);
      assert NetworkLines(order) + rest == line + ['\n'] + (NetworkLines(order[1..]) + rest);
      SplitAllAfterPiece(line, NetworkLines(order[1..]) + rest, '\n');
      assert NetworkTexts(order) == [line] + NetworkTexts(order[1..]);
    }
  }

  lemma LastWord()
    ensures Tokens(" 3", {' '}) == ["3"]
  {
    TokensAfterToken("3", "", {' '});
    assert "3" + "" == "3";
    assert " 3"[1..] == "3";
  }

  lemma Three()
    ensures ToI("3") == 3
  {
    assert Decimal(3) == "3";
    ToIOfDecimal(3);
  }

  lemma TrailerWords()
    ensures Tokens(TRAILER, {' '}) == ["valid_time", "3"] && ToI("3") == 3
  {
    Three();
    LastWord();
    hide Tokens, ToI;
    TokensAfterToken("valid_time", " 3", {' '});
    assert TRAILER == "valid_time" + " 3";
  }

  /** Parsing a printed update gives the sender's network lines and validity, the empty table included. */
  lemma UpdateTextParses(order: seq<Network>)
    ensures ParseUpdate(UpdateText(order)) == Some((NetworkTexts(order), 3))
  {
    SplitUpdate(order);
    TrailerWords();
    hide Split, Tokens, ToI, UpdateText, NetworkTexts;
    var lines := [HEADER] + NetworkTexts(order) + [TRAILER];
    assert lines[|lines| - 1] == TRAILER;
    assert lines[1..|lines| - 1] == NetworkTexts(order);
  }

  /** A last line of fewer than two words means validity 0. */
  lemma NoValidTime(update: string)
    requires var lines := Split(update, '\n'); lines != [] && |Tokens(lines[|lines| - 1], {' '})| < 2
    ensures ParseUpdate(update).Some? && ParseUpdate(update).value.1 == 0
  {
    hide Split, Tokens, ToI;
  }

  lemma SplitMessage(header: string, order: seq<Network>, trailer: string)
    requires '\n' !in header && '\n' !in trailer && trailer != ""
    ensures Split(header + ['\n'] + (NetworkLines(order) + trailer), '\n') == [header] + NetworkTexts(order) + [trailer]
  {
    SplitAllAfterPiece(header, NetworkLines(order) + trailer, '\n');
    SplitNetworkLines(order, trailer);
    SplitAllOfPiece(trailer, '\n');
    hide SplitAll, NetworkLines, NetworkTexts;
    KeepLast([header] + NetworkTexts(order), trailer);
    assert [header] + (NetworkTexts(order) + [trailer]) == [header] + NetworkTexts(order) + [trailer];
  }

  lemma Joined(header: string, body: string)
    ensures header + "\n" + body == header + ['\n'] + body
  {
  }

  lemma SplitUpdate(order: seq<Network>)
    ensures Split(UpdateText(order), '\n') == [HEADER] + NetworkTexts(order) + [TRAILER]
  {
    hide Split, NetworkLines, NetworkTexts;
    SplitMessage(HEADER, order, TRAILER);
    Associative(HEADER + "\n", NetworkLines(order), TRAILER);
    Joined(HEADER, NetworkLines(order) + TRAILER);
  }

  lemma KeepLast(front: seq<string>, last: string)
    requires last != ""
    ensures DropTrailingEmpty(front + [last]) == front + [last]
  {
  }

  /** The networks of the lines up to the first one IPAddr.new refuses. */
  function ParsedNetworks(lines: seq<string>): (nets: seq<Network>)
    ensures |nets| <= |lines|
  {
    if lines == [] then []
    else
      var front := ParsedNetworks(lines[..|lines| - 1]);
      var net := ParseNetwork(lines[|lines| - 1]);
      if |front| == |lines| - 1 && net.Some? then front + [net.value] else front
  }

  lemma {:induction false} ParsedPrefix(lines: seq<string>, k: nat)
    requires k <= |lines| && |ParsedNetworks(lines[..k])| < k
    ensures ParsedNetworks(lines) == ParsedNetworks(lines[..k])
    decreases |lines|
  {
    hide ParseNetwork, Canonical;
    if k == |lines| {
      assert lines[..k] == lines;
    } else {
      var front := lines[..|lines| - 1];
      assert front[..k] == lines[..k];
      ParsedPrefix(front, k);
    }
  }

  lemma NothingParsed(lines: seq<string>, table: Table, gateway: string, device: Option<string>, now: Time,
        validTime: int)
    ensures ParsedNetworks(lines[..0]) == [] && LearnAll(table, [], gateway, device, now, validTime) == table
  {
  }

  lemma ParseOneMore(lines: seq<string>, i: nat)
    requires i < |lines| && |ParsedNetworks(lines[..i])| == i
    ensures var net := ParseNetwork(lines[i]);
            if net.Some? then ParsedNetworks(lines[..i + 1]) == ParsedNetworks(lines[..i]) + [net.value]
            else ParsedNetworks(lines) == ParsedNetworks(lines[..i])
  {
    hide ParseNetwork, Canonical;
    assert lines[..i + 1][..i] == lines[..i];
    if ParseNetwork(lines[i]) == None {
      ParsedPrefix(lines, i + 1);
    }
  }

  lemma LearnOneMore(table: Table, nets: seq<Network>, net: Network, gateway: string, device: Option<string>,
                     now: Time, validTime: int)
    ensures LearnAll(table, nets + [net], gateway, device, now, validTime)
         == Learn(LearnAll(table, nets, gateway, device, now, validTime), net, gateway, device, now, validTime)
  {
    assert (nets + [net])[..|nets|] == nets;
  }

  lemma {:induction false} NetworkTextsParse(order: seq<Network>)
    ensures ParsedNetworks(NetworkTexts(order)) == order
  {
    hide ParseNetwork, NetworkText, Canonical;
    if order != [] {
      var n := |order| - 1;
      NetworkTextsParse(order[..n]);
      NetworkRoundTrip(order[n]);
      assert NetworkTexts(order)[..n] == NetworkTexts(order[..n]);
      assert order == order[..n] + [order[n]];
    }
  }

  // ---------- Attached networks ----------

  /** $pcap_hash[net] = device: a known key keeps its place. */
  function Attach(interfaces: seq<(Network, string)>, net: Network, device: string): seq<(Network, string)> {
    if interfaces == [] then [(net, device)]
    else if interfaces[0].0 == net then [(net, device)] + interfaces[1..]
    else [interfaces[0]] + Attach(interfaces[1..], net, device)
  }

  function AttachAll(attached: seq<(Network, string)>): seq<(Network, string)> {
    if attached == [] then []
    else
      var (net, device) := attached[|attached| - 1];
      Attach(AttachAll(attached[..|attached| - 1]), net, device)
  }

  function OwnEntry(device: string): Entry { Entry("self", Some(device), Direct, 0.0, 0) }

  lemma OwnEntryIsDirect(device: string)
    ensures OwnEntry(device).kind == Direct && OwnEntry(device).gateway == "self"
    ensures OwnEntry(device).interface == Some(device)
  {
  }

  predicate DistinctKeys(interfaces: seq<(Network, string)>) {
    forall i, j | 0 <= i < j < |interfaces| :: interfaces[i].0 != interfaces[j].0
  }

  lemma {:induction false} AttachChangesOne(interfaces: seq<(Network, string)>, net: Network, device: string)
    requires DistinctKeys(interfaces)
    ensures DistinctKeys(Attach(interfaces, net, device))
    ensures forall pair :: pair in Attach(interfaces, net, device) <==>
              pair == (net, device) || (pair in interfaces && pair.0 != net)
  {
    hide Canonical;
    if interfaces != [] && interfaces[0].0 != net {
      var rest := interfaces[1..];
      AttachChangesOne(rest, net, device);
      assert interfaces == [interfaces[0]] + rest;
      forall pair | pair in Attach(rest, net, device) ensures pair.0 != interfaces[0].0 {
        if pair in rest {
          var k :| 0 <= k < |rest| && rest[k] == pair;
          assert interfaces[k + 1] == pair;
        }
      }
    }
  }

  /** Of several devices with the same network the last one opened stays. */
  ghost predicate LastOpened(attached: seq<(Network, string)>, pair: (Network, string)) {
    exists i :: 0 <= i < |attached| && attached[i] == pair && forall j | i < j < |attached| :: attached[j].0 != pair.0
  }

  lemma {:induction false} AttachedIsLastOpened(attached: seq<(Network, string)>)
    ensures DistinctKeys(AttachAll(attached))
    ensures forall pair :: pair in AttachAll(attached) <==> LastOpened(attached, pair)
  {
    hide Canonical, Attach;
    if attached != [] {
      var n := |attached| - 1;
      var front := attached[..n];
      var (net, device) := attached[n];
      AttachedIsLastOpened(front);
      AttachChangesOne(AttachAll(front), net, device);
      forall pair
        ensures LastOpened(attached, pair) <==> pair == attached[n] || (pair.0 != net && LastOpened(front, pair))
      {
        LastOpenedOneMore(front, attached[n], pair);
        assert front + [attached[n]] == attached;
      }
    }
  }

  lemma LastOpenedBefore(front: seq<(Network, string)>, last: (Network, string), pair: (Network, string))
    requires LastOpened(front + [last], pair) && pair != last
    ensures pair.0 != last.0 && LastOpened(front, pair)
  {
    hide Canonical;
    var attached := front + [last];
    var i :| 0 <= i < |attached| && attached[i] == pair && forall j | i < j < |attached| :: attached[j].0 != pair.0;
    assert attached[|front|] == last;
    assert front[i] == pair;
    assert forall j | i < j < |front| :: attached[j] == front[j];
  }

  lemma LastOpenedOneMore(front: seq<(Network, string)>, last: (Network, string), pair: (Network, string))
    ensures LastOpened(front + [last], pair) <==> pair == last || (pair.0 != last.0 && LastOpened(front, pair))
  {
    hide Canonical;
    var attached := front + [last];
    if pair.0 != last.0 && LastOpened(front, pair) {
      var i :| 0 <= i < |front| && front[i] == pair && forall j | i < j < |front| :: front[j].0 != pair.0;
      assert attached[i] == pair;
    }
    if pair == last {
      assert attached[|front|] == pair;
    } else if LastOpened(attached, pair) {
      LastOpenedBefore(front, last, pair);
    }
  }

  /** Every attached network has its own direct entry. */
  ghost predicate OwnEntries(table: Table, interfaces: seq<(Network, string)>) {
    forall pair | pair in interfaces :: pair.0 in table && table[pair.0] == OwnEntry(pair.1)
  }

  lemma OwnEntryAdded(table: Table, interfaces: seq<(Network, string)>, net: Network, device: string)
    requires DistinctKeys(interfaces) && OwnEntries(table, interfaces)
    ensures OwnEntries(table[net := OwnEntry(device)], Attach(interfaces, net, device))
  {
    AttachChangesOne(interfaces, net, device);
    hide Canonical, Attach, OwnEntry;
  }

  lemma AttachOneMore(attached: seq<(Network, string)>, i: nat)
    requires i < |attached| && DistinctKeys(AttachAll(attached[..i]))
    ensures AttachAll(attached[..i + 1]) == Attach(AttachAll(attached[..i]), attached[i].0, attached[i].1)
    ensures DistinctKeys(AttachAll(attached[..i + 1]))
  {
    hide Canonical, Attach;
    assert attached[..i + 1][..i] == attached[..i];
    AttachChangesOne(AttachAll(attached[..i]), attached[i].0, attached[i].1);
  }

  predicate IsFirst(interfaces: seq<(Network, string)>, ip: nat, i: nat)
    requires i < |interfaces|
  {
    Includes(interfaces[i].0, ip) && forall j | 0 <= j < i :: !Includes(interfaces[j].0, ip)
  }

  /** The network was opened before the other was opened for the first time. */
  ghost predicate OpenedBefore(attached: seq<(Network, string)>, net: Network, other: Network) {
    exists k :: 0 <= k < |attached| && attached[k].0 == net && forall m | 0 <= m <= k :: attached[m].0 != other
  }

  ghost predicate InOpeningOrder(interfaces: seq<(Network, string)>, attached: seq<(Network, string)>) {
    forall i, j | 0 <= i < j < |interfaces| :: OpenedBefore(attached, interfaces[i].0, interfaces[j].0)
  }

  predicate IsKey(interfaces: seq<(Network, string)>, net: Network) {
    exists i :: 0 <= i < |interfaces| && interfaces[i].0 == net
  }

  lemma {:induction false} AttachPlaces(interfaces: seq<(Network, string)>, net: Network, device: string)
    ensures var after := Attach(interfaces, net, device);
            && (IsKey(interfaces, net) ==>
                  |after| == |interfaces| && forall i | 0 <= i < |after| :: after[i].0 == interfaces[i].0)
            && (!IsKey(interfaces, net) ==> after == interfaces + [(net, device)])
  {
    hide Canonical;
    if interfaces != [] && interfaces[0].0 != net {
      var rest := interfaces[1..];
      AttachPlaces(rest, net, device);
      assert interfaces == [interfaces[0]] + rest;
      assert IsKey(interfaces, net) <==> IsKey(rest, net) by {
        if IsKey(interfaces, net) {
          var i :| 0 <= i < |interfaces| && interfaces[i].0 == net;
          assert rest[i - 1].0 == net;
        }
        if IsKey(rest, net) {
          var i :| 0 <= i < |rest| && rest[i].0 == net;
          assert interfaces[i + 1].0 == net;
        }
      }
    }
  }

  lemma OpenedBeforeStill(front: seq<(Network, string)>, last: (Network, string), net: Network, other: Network)
    ensures OpenedBefore(front, net, other) ==> OpenedBefore(front + [last], net, other)
  {
    hide Canonical;
    if OpenedBefore(front, net, other) {
      var k :| 0 <= k < |front| && front[k].0 == net && forall m | 0 <= m <= k :: front[m].0 != other;
      assert (front + [last])[k] == front[k];
    }
  }

  lemma OpenedBeforeNew(front: seq<(Network, string)>, last: (Network, string), net: Network)
    requires IsKey(front, net) && !IsKey(front, last.0)
    ensures OpenedBefore(front + [last], net, last.0)
  {
    hide Canonical;
    var k :| 0 <= k < |front| && front[k].0 == net;
    assert (front + [last])[k] == front[k];
  }

  lemma SameKeys(attached: seq<(Network, string)>, net: Network)
    ensures IsKey(AttachAll(attached), net) <==> IsKey(attached, net)
  {
    hide Canonical, AttachAll;
    AttachedIsLastOpened(attached);
    if IsKey(AttachAll(attached), net) {
      var i :| 0 <= i < |AttachAll(attached)| && AttachAll(attached)[i].0 == net;
      assert LastOpened(attached, AttachAll(attached)[i]);
    }
    if IsKey(attached, net) {
      var k := LastWith(attached, net);
      assert LastOpened(attached, attached[k]);
    }
  }

  lemma {:induction false} LastWith(attached: seq<(Network, string)>, net: Network) returns (k: nat)
    requires IsKey(attached, net)
    ensures k < |attached| && attached[k].0 == net && forall j | k < j < |attached| :: attached[j].0 != net
  {
    hide Canonical;
    var n := |attached| - 1;
    if attached[n].0 == net {
      k := n;
    } else {
      var i :| 0 <= i < |attached| && attached[i].0 == net;
      assert attached[..n][i].0 == net;
      k := LastWith(attached[..n], net);
    }
  }

  /** A device opened again for a network stands in the place of the first. */
  lemma {:induction false} AttachedInOrder(attached: seq<(Network, string)>)
    ensures InOpeningOrder(AttachAll(attached), attached)
  {
    hide Canonical, Attach, OpenedBefore, IsKey;
    if attached != [] {
      var n := |attached| - 1;
      var front, last := attached[..n], attached[n];
      var before, after := AttachAll(front), AttachAll(attached);
      AttachedInOrder(front);
      AttachPlaces(before, last.0, last.1);
      assert attached == front + [last];
      SameKeys(front, last.0);
      forall i, j | 0 <= i < j < |after| ensures OpenedBefore(attached, after[i].0, after[j].0) {
        if j < |before| {
          OpenedBeforeStill(front, last, before[i].0, before[j].0);
        } else {
          KeyAt(before, i);
          SameKeys(front, before[i].0);
          OpenedBeforeNew(front, last, before[i].0);
        }
      }
    }
  }

  lemma KeyAt(interfaces: seq<(Network, string)>, i: nat)
    requires i < |interfaces|
    ensures IsKey(interfaces, interfaces[i].0)
  {
  }

  // ---------- The devices of the entries ----------

  function Devices(interfaces: seq<(Network, string)>): (devices: seq<string>)
    ensures |devices| == |interfaces|
  {
    seq(|interfaces|, i requires 0 <= i < |interfaces| => interfaces[i].1)
  }

  lemma DeviceOf(interfaces: seq<(Network, string)>, d: string)
    ensures d in Devices(interfaces) <==> exists i :: 0 <= i < |interfaces| && interfaces[i].1 == d
  {
    hide Canonical;
    if d in Devices(interfaces) {
      var i :| 0 <= i < |Devices(interfaces)| && Devices(interfaces)[i] == d;
      assert interfaces[i].1 == d;
    }
    if i :| 0 <= i < |interfaces| && interfaces[i].1 == d {
      assert Devices(interfaces)[i] == d;
    }
  }

  /** Updates and checks leave the own entries as they are. */
  lemma OwnEntriesKept(table: Table, interfaces: seq<(Network, string)>, nets: seq<Network>, gateway: string,
                       device: Option<string>, now: Time, validTime: int)
    requires OwnEntries(table, interfaces)
    ensures OwnEntries(LearnAll(table, nets, gateway, device, now, validTime), interfaces)
    ensures OwnEntries(Expire(table, now), interfaces)
  {
    hide Canonical, LearnAll;
    forall pair | pair in interfaces
      ensures pair.0 in LearnAll(table, nets, gateway, device, now, validTime)
      ensures LearnAll(table, nets, gateway, device, now, validTime)[pair.0] == OwnEntry(pair.1)
    {
      LearnAllAt(table, nets, gateway, device, now, validTime, pair.0);
    }
  }

  lemma NothingAttached(attached: seq<(Network, string)>)
    ensures AttachAll(attached[..0]) == [] && OwnEntries(map[], []) && DistinctKeys([])
  {
  }

  /** The device of the first attached network with the address. */
  function FirstDevice(interfaces: seq<(Network, string)>, ip: nat): Option<string> {
    if interfaces == [] then None
    else if Includes(interfaces[0].0, ip) then Some(interfaces[0].1)
    else FirstDevice(interfaces[1..], ip)
  }

  // ---------- The router ----------

  class Router {
    /** $routing_table. */
    var table: Table
    /** $pcap_hash: the attached networks and their devices, in order. */
    var interfaces: seq<(Network, string)>
    /** $last_update_sent. */
    var lastUpdateSent: Time

    /** open_interfaces, given the network and the name of each opened device. */
    constructor (attached: seq<(Network, string)>, now: Time)
      ensures interfaces == AttachAll(attached) && lastUpdateSent == now
      ensures forall net :: net in table <==> exists i :: 0 <= i < |attached| && attached[i].0 == net
      ensures OwnEntries(table, interfaces)
      ensures InOpeningOrder(interfaces, attached)
      ensures forall net | net in table :: table[net].kind == Direct && table[net].gateway == "self"
    {
      interfaces := [];
      lastUpdateSent := now;
      table := map[];
      new;
      hide Canonical, Attach, OwnEntry, AttachAll, OwnEntries;
      var i := 0;
      NothingAttached(attached);
      while i < |attached|
        invariant 0 <= i <= |attached| && lastUpdateSent == now
        invariant interfaces == AttachAll(attached[..i]) && DistinctKeys(interfaces)
        invariant forall net :: net in table <==> exists j :: 0 <= j < i && attached[j].0 == net
        invariant OwnEntries(table, interfaces)
        invariant forall net | net in table :: table[net].kind == Direct && table[net].gateway == "self"
        modifies this
      {
        AttachOneMore(attached, i);
        OwnEntryIsDirect(attached[i].1);
        var (net, name) := attached[i];
        OwnEntryAdded(table, interfaces, net, name);
        interfaces := Attach(interfaces, net, name);
        table := table[net := OwnEntry(name)];
        i := i + 1;
      }
      assert attached[..|attached|] == attached;
      AttachedInOrder(attached);
    }

    /** find_interface_by_ip. */
    method FindInterfaceByIp(ip: nat) returns (device: Option<string>)
      ensures device == FirstDevice(interfaces, ip)
      ensures device == None ==> forall i | 0 <= i < |interfaces| :: !Includes(interfaces[i].0, ip)
      ensures device.Some? ==>
                exists i :: 0 <= i < |interfaces| && device == Some(interfaces[i].1) && IsFirst(interfaces, ip, i)
    {
      hide Canonical, Includes;
      device := None;
      var i := 0;
      assert interfaces[0..] == interfaces;
      while i < |interfaces|
        invariant 0 <= i <= |interfaces| && device == None
        invariant forall j | 0 <= j < i :: !Includes(interfaces[j].0, ip)
        invariant FirstDevice(interfaces, ip) == FirstDevice(interfaces[i..], ip)
      {
        if Includes(interfaces[i].0, ip) {
          device := Some(interfaces[i].1);
          assert IsFirst(interfaces, ip, i);
          break;
        }
        assert interfaces[i..][1..] == interfaces[i + 1..];
        i := i + 1;
      }
    }

    /**
     update_routing_table.  raised reports an exception: no last line, or a line that is
     no network.  The networks before that line stay learned.
     */
    method UpdateRoutingTable(update: string, routerIp: nat, now: Time) returns (raised: bool)
      modifies this`table
      ensures match ParseUpdate(update)
              case None => raised && table == old(table)
              case Some((lines, validTime)) =>
                && raised == (|ParsedNetworks(lines)| < |lines|)
                && table == LearnAll(old(table), ParsedNetworks(lines), DottedQuad(routerIp),
                                     FirstDevice(interfaces, routerIp), now, validTime)
      ensures old(OwnEntries(table, interfaces)) ==> OwnEntries(table, interfaces)
    {
      hide Canonical, OwnEntries, ParseUpdate, ParseNetwork, Includes, DottedQuad, ParsedNetworks, LearnAll, Learn;
      match ParseUpdate(update)
      case None =>
        raised := true;
      case Some((lines, validTime)) =>
        var i := 0;
        raised := false;
        ghost var gateway, device := DottedQuad(routerIp), FirstDevice(interfaces, routerIp);
        ghost var nets: seq<Network> := [];
        ghost var kept := OwnEntries(table, interfaces);
        NothingParsed(lines, table, gateway, device, now, validTime);
        while i < |lines|
          invariant 0 <= i <= |lines| && !raised && |nets| == i && nets == ParsedNetworks(lines[..i])
          invariant device == FirstDevice(interfaces, routerIp)
          invariant table == LearnAll(old(table), nets, gateway, device, now, validTime)
        {
          ParseOneMore(lines, i);
          var deviceName := FindInterfaceByIp(routerIp);
          var parsed := ParseNetwork(lines[i]);
          if parsed == None {
            raised := true;
            if kept {
              OwnEntriesKept(old(table), interfaces, nets, gateway, device, now, validTime);
            }
            return;
          }
          LearnOneMore(old(table), nets, parsed.value, gateway, device, now, validTime);
          LearnNetwork(parsed.value, DottedQuad(routerIp), deviceName, now, validTime);
          nets := nets + [parsed.value];
          i := i + 1;
        }
        assert lines[..|lines|] == lines;
        if kept {
          OwnEntriesKept(old(table), interfaces, nets, gateway, device, now, validTime);
        }
    }

    /**
     The lookup of route_packet over the open devices.  An attached network is reached through
     its own device, whatever was learned or has expired since it was opened.
     */
    method FindRouteOut(ip: nat, order: seq<Network>)
      returns (hit: Option<Network>, gateway: Option<string>, intOut: Option<string>)
      requires IsSortedNetworks(order, table)
      ensures hit == None <==> !Routable(table, ip)
      ensures hit.Some? ==> IsLongestMatch(table, ip, hit.value)
      ensures gateway == if hit.Some? then Some(table[hit.value].gateway) else None
      ensures forall d :: intOut == Some(d) <==>
                hit.Some? && table[hit.value].interface == Some(d)
                    && exists i :: 0 <= i < |interfaces| && interfaces[i].1 == d
      ensures OwnEntries(table, interfaces) ==>
                forall i | 0 <= i < |interfaces| && hit == Some(interfaces[i].0) ::
                  gateway == Some("self") && intOut == Some(interfaces[i].1)
    {
      hide Canonical, IsSortedNetworks, IsLongestMatch, Routable;
      hit, gateway, intOut := FindRoute(table, order, Devices(interfaces), ip);
      forall d ensures d in Devices(interfaces) <==> exists i :: 0 <= i < |interfaces| && interfaces[i].1 == d {
        DeviceOf(interfaces, d);
      }
      hide Devices;
      if OwnEntries(table, interfaces) {
        forall i | 0 <= i < |interfaces| && hit == Some(interfaces[i].0)
          ensures gateway == Some("self") && intOut == Some(interfaces[i].1)
        {
          assert interfaces[i] in interfaces;
        }
      }
    }

    /** The body of the loop of update_routing_table. */
    method LearnNetwork(net: Network, gateway: string, device: Option<string>, now: Time, validTime: int)
      modifies this`table
      ensures table == Learn(old(table), net, gateway, device, now, validTime)
    {
      hide Canonical;
      if net in table {
        if table[net].kind == Dynamic {
          table := table[net := table[net].(received := now, validTime := validTime)];
        }
      } else {
        table := table[net := Entry(gateway, device, Dynamic, now, validTime)];
      }
    }

    /** check_routing_table; the order in which the hash is walked does not matter. */
    method CheckRoutingTable(now: Time)
      modifies this`table
      ensures table == Expire(old(table), now)
      ensures old(OwnEntries(table, interfaces)) ==> OwnEntries(table, interfaces)
    {
      hide Canonical, OwnEntries;
      var todo := table.Keys;
      while todo != {}
        invariant todo <= table.Keys <= old(table).Keys
        invariant forall net | net in table :: table[net] == old(table)[net]
        invariant forall net | net in table && net !in todo :: !Expired(table[net], now)
        invariant forall net | net in old(table) && net !in table :: Expired(old(table)[net], now)
        decreases |todo|
      {
        var net :| net in todo;
        todo := todo - {net};
        if table[net].kind == Dynamic && now - table[net].received > table[net].validTime as real {
          table := table - {net};
        }
      }
      if old(OwnEntries(table, interfaces)) {
        OwnEntriesKept(old(table), interfaces, [], "", None, now, 0);
      }
    }

    /** get_routing_table(true). */
    method GetRoutingTable(order: seq<Network>) returns (tableStr: string)
      requires IsSortedNetworks(order, table)
      ensures tableStr == NetworkLines(order) + TRAILER
    {
      hide Canonical, NetworkText, IsSortedNetworks;
      tableStr := "";
      var i := 0;
      while i < |order|
        invariant 0 <= i <= |order|
        invariant tableStr + NetworkLines(order[i..]) == NetworkLines(order)
      {
        assert order[i..][1..] == order[i + 1..];
        tableStr := tableStr + NetworkText(order[i]) + "\n";
        i := i + 1;
      }
      tableStr := tableStr + TRAILER;
    }

    /** send_updates: a broadcast at most every two seconds. */
    method SendUpdates(now: Time, order: seq<Network>) returns (sent: Option<string>)
      requires IsSortedNetworks(order, table)
      modifies this`lastUpdateSent
      ensures now - old(lastUpdateSent) >= 2.0 ==> sent == Some(UpdateText(order)) && lastUpdateSent == now
      ensures now - old(lastUpdateSent) < 2.0 ==> sent == None && lastUpdateSent == old(lastUpdateSent)
    {
      hide Canonical, NetworkLines, IsSortedNetworks;
      sent := None;
      if now - lastUpdateSent >= 2.0 {
        lastUpdateSent := now;
        var tableStr := GetRoutingTable(order);
        sent := Some(HEADER + "\n" + tableStr);
        assert HEADER + "\n" + tableStr == UpdateText(order);
      }
    }

    /**
     route_packet for a packet from its own network: an update is what follows the 20 bytes
     of the IP header and the 8 of the UDP header.  A packet that holds the marker but is
     shorter than that raises an exception.
     */
    method ReceiveLocal(packet: string, routerIp: nat, now: Time) returns (raised: bool)
      modifies this`table
      ensures !Contains(packet, MARKER) ==> !raised && table == old(table)
      ensures Contains(packet, MARKER) && |packet| < 28 ==> raised && table == old(table)
      ensures Contains(packet, MARKER) && |packet| >= 28 ==>
                match ParseUpdate(packet[28..])
                case None => raised && table == old(table)
                case Some((lines, validTime)) =>
                  && raised == (|ParsedNetworks(lines)| < |lines|)
                  && table == LearnAll(old(table), ParsedNetworks(lines), DottedQuad(routerIp),
                                       FirstDevice(interfaces, routerIp), now, validTime)
      ensures old(OwnEntries(table, interfaces)) ==> OwnEntries(table, interfaces)
    {
      hide *;
      raised := false;
      if Contains(packet, MARKER) {
        if |packet| < 28 {
          raised := true;
        } else {
          raised := UpdateRoutingTable(packet[28..], routerIp, now);
        }
      }
    }

    /**
     The round trip of a broadcast: the receiver recognises it and learns exactly the sender's
     networks, with validity 3, and ends up with the union of both tables' networks.
     */
    method ReceiveBroadcast(sender: Table, order: seq<Network>, headers: string, routerIp: nat, now: Time)
      returns (raised: bool)
      requires IsSortedNetworks(order, sender) && |headers| == 28
      modifies this`table
      ensures !raised
      ensures table == LearnAll(old(table), order, DottedQuad(routerIp), FirstDevice(interfaces, routerIp), now, 3)
      ensures table.Keys == old(table).Keys + sender.Keys
    {
      UpdateTextParses(order);
      NetworkTextsParse(order);
      BroadcastHasMarker(headers, order);
      hide Canonical, ParsedNetworks, ParseUpdate, DottedQuad, Includes, Contains, UpdateText;
      assert (headers + UpdateText(order))[28..] == UpdateText(order);
      raised := ReceiveLocal(headers + UpdateText(order), routerIp, now);
      forall net: Network
        ensures net in table <==> net in old(table) || net in sender
      {
        LearnAllAt(old(table), order, DottedQuad(routerIp), FirstDevice(interfaces, routerIp), now, 3, net);
      }
    }
  }
}
