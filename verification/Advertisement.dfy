/**
 The text of routing updates: get_routing_table(true) with the header of send_updates
 prints it, the first lines of update_routing_table and IPAddr.new parse it.
 Also to_prefix_len of ruby-router/string_extensions.rb, which reads dotted masks.
 */
module Advertisement {
  import opened Text
  import opened IpNetwork

  // ---------- Dotted quads ----------

  function Octet(ip: nat, k: nat): nat
    requires k < 4
  {
    if k == 0 then ip / 0x100_0000 % 0x100 else if k == 1 then ip / 0x1_0000 % 0x100
    else if k == 2 then ip / 0x100 % 0x100 else ip % 0x100
  }

  /** IPAddr#to_s. */
  function DottedQuad(ip: nat): string {
    Decimal(Octet(ip, 0)) + "." + Decimal(Octet(ip, 1)) + "." + Decimal(Octet(ip, 2)) + "." + Decimal(Octet(ip, 3))
  }

  lemma DigitsAvoid(s: string, sep: char)
    requires AllDigits(s) && !IsDigit(sep)
    ensures sep !in s
  {
  }

  lemma Grouped(a: string, b: string, c: string, d: string, sep: string)
    ensures a + sep + b + sep + c + sep + d == a + sep + (b + sep + (c + sep + d))
  {
    Associative(a + sep + b + sep, c + sep, d);
    Associative(a + sep, b + sep, c + sep + d);
  }

  lemma SplitTwo(a: string, b: string, sep: char)
    requires sep !in a && sep !in b
    ensures SplitAll(a + [sep] + b, sep) == [a, b]
  {
    SplitAllAfterPiece(a, b, sep);
    SplitAllOfPiece(b, sep);
    hide SplitAll;
  }

  lemma SplitFour(a: string, b: string, c: string, d: string, sep: char)
    requires sep !in a && sep !in b && sep !in c && sep !in d
    ensures SplitAll(a + [sep] + b + [sep] + c + [sep] + d, sep) == [a, b, c, d]
  {
    hide SplitAll;
    var cd := c + [sep] + d;
    var bcd := b + [sep] + cd;
    Grouped(a, b, c, d, [sep]);
    SplitAllAfterPiece(a, bcd, sep);
    SplitAllAfterPiece(b, cd, sep);
    SplitTwo(c, d, sep);
    assert [b] + [c, d] == [b, c, d] && [a] + [b, c, d] == [a, b, c, d];
  }

  lemma SplitQuad(ip: nat)
    ensures SplitAll(DottedQuad(ip), '.')
         == [Decimal(Octet(ip, 0)), Decimal(Octet(ip, 1)), Decimal(Octet(ip, 2)), Decimal(Octet(ip, 3))]
  {
    var a, b, c, d := Decimal(Octet(ip, 0)), Decimal(Octet(ip, 1)), Decimal(Octet(ip, 2)), Decimal(Octet(ip, 3));
    SplitFour(a, b, c, d, '.');
    assert "." == ['.'];
  }

  /** The octets put together again. */
  function FromOctets(a: nat, b: nat, c: nat, d: nat): nat {
    a * 0x100_0000 + b * 0x1_0000 + c * 0x100 + d
  }

  lemma OctetsRoundTrip(ip: nat)
    requires ip < 0x1_0000_0000
    ensures FromOctets(Octet(ip, 0), Octet(ip, 1), Octet(ip, 2), Octet(ip, 3)) == ip
  {
    var q1 := ip / 0x100;
    var q2 := q1 / 0x100;
    var q3 := q2 / 0x100;
    assert q2 == ip / 0x1_0000 && q3 == ip / 0x100_0000;
    assert q3 < 0x100;
  }

  // ---------- to_prefix_len ----------

  /** octet.to_i.chr.unpack('b*') has one '1' for every one bit; chr raises above 255. */
  function OctetOnes(octets: seq<string>): Option<nat> {
    if octets == [] then Some(0)
    else
      var n, rest := ToI(octets[0]), OctetOnes(octets[1..]);
      if n > 255 || rest == None then None else Some(Ones(n, 8) + rest.value)
  }

  function ToPrefixLen(mask: string): Option<nat> {
    OctetOnes(Split(mask, '.'))
  }

  /** chr raises exactly if some octet is above 255. */
  lemma {:induction false} ToPrefixLenRaises(octets: seq<string>)
    ensures OctetOnes(octets) == None <==> exists i :: 0 <= i < |octets| && ToI(octets[i]) > 255
  {
    hide ToI, Ones;
    if octets != [] {
      ToPrefixLenRaises(octets[1..]);
      if i :| 0 <= i < |octets| && ToI(octets[i]) > 255 {
        assert i > 0 ==> octets[1..][i - 1] == octets[i];
      }
      if i :| 0 <= i < |octets[1..]| && ToI(octets[1..][i]) > 255 {
        assert octets[i + 1] == octets[1..][i];
      }
    }
  }

  lemma {:induction false} OnesSplit(x: nat, m: nat, n: nat)
    ensures Ones(x, m + n) == Ones(x, m) + Ones(ShiftRight(x, m), n)
  {
    if m > 0 {
      OnesSplit(x / 2, m - 1, n);
    }
  }

  lemma ShiftByOctets(x: nat)
    ensures ShiftRight(x, 8) == x / 0x100 && ShiftRight(x, 16) == x / 0x1_0000 && ShiftRight(x, 24) == x / 0x100_0000
  {
    EightHalves(x);
    EightHalves(x / 0x100);
    EightHalves(x / 0x1_0000);
    ShiftTwice(x, 8, 8);
    ShiftTwice(x, 16, 8);
  }

  lemma EightHalves(x: nat)
    ensures ShiftRight(x, 8) == x / 0x100
  {
    var x2 := x / 2 / 2;
    var x4 := x2 / 2 / 2;
    var x6 := x4 / 2 / 2;
    assert ShiftRight(x, 8) == ShiftRight(x / 2, 7) == ShiftRight(x2, 6);
    assert ShiftRight(x2, 6) == ShiftRight(x2 / 2, 5) == ShiftRight(x4, 4);
    assert ShiftRight(x4, 4) == ShiftRight(x4 / 2, 3) == ShiftRight(x6, 2);
    assert ShiftRight(x6, 2) == ShiftRight(x6 / 2, 1) == x6 / 2 / 2;
    assert x2 == x / 4 && x4 == x2 / 4 && x4 == x / 16 && x6 == x4 / 4 && x6 == x / 64;
  }

  lemma TwiceTimes(p: nat, k: nat)
    ensures 2 * p * k == 2 * (p * k)
  {
  }

  lemma {:induction false} OnesIgnoreHigh(x: nat, k: nat, n: nat)
    ensures Ones(x + Pow2(n) * k, n) == Ones(x, n)
  {
    if n > 0 {
      var high := Pow2(n - 1) * k;
      TwiceTimes(Pow2(n - 1), k);
      OnesIgnoreHigh(x / 2, k, n - 1);
      HighHalf(x, high);
      hide Pow2;
    }
  }

  lemma HighHalf(x: nat, high: nat)
    ensures (x + 2 * high) % 2 == x % 2 && (x + 2 * high) / 2 == x / 2 + high
  {
  }

  lemma OnesOfOctet(x: nat)
    ensures Ones(x, 8) == Ones(x % 0x100, 8)
  {
    assert Pow2(8) == 0x100;
    OnesIgnoreHigh(x % 0x100, x / 0x100, 8);
  }

  lemma OnesByOctet(x: nat)
    ensures Ones(x, 32) == Ones(Octet(x, 0), 8) + Ones(Octet(x, 1), 8) + Ones(Octet(x, 2), 8) + Ones(Octet(x, 3), 8)
  {
    ShiftByOctets(x);
    OnesSplit(x, 24, 8);
    OnesSplit(x, 16, 8);
    OnesSplit(x, 8, 8);
    OnesOfOctet(x);
    OnesOfOctet(x / 0x100);
    OnesOfOctet(x / 0x1_0000);
    OnesOfOctet(x / 0x100_0000);
    hide Ones, ShiftRight;
  }

  lemma OctetOnesOfFirst(a: string, rest: seq<string>)
    requires ToI(a) < 0x100 && OctetOnes(rest).Some?
    ensures OctetOnes([a] + rest) == Some(Ones(ToI(a), 8) + OctetOnes(rest).value)
  {
    hide ToI, Ones;
    assert ([a] + rest)[1..] == rest;
  }

  lemma OctetOnesOfFour(a: string, b: string, c: string, d: string)
    requires ToI(a) < 0x100 && ToI(b) < 0x100 && ToI(c) < 0x100 && ToI(d) < 0x100
    ensures OctetOnes([a, b, c, d]) == Some(Ones(ToI(a), 8) + Ones(ToI(b), 8) + Ones(ToI(c), 8) + Ones(ToI(d), 8))
  {
    hide Ones, ToI;
    var three, two, one := [b, c, d], [c, d], [d];
    assert [a, b, c, d] == [a] + three && three == [b] + two && two == [c] + one && one == [d] + [];
    assert OctetOnes([]) == Some(0);
    OctetOnesOfFirst(d, []);
    OctetOnesOfFirst(c, one);
    OctetOnesOfFirst(b, two);
    OctetOnesOfFirst(a, three);
  }

  /** to_prefix_len of a dotted n-bit mask is n, like cidr of that mask. */
  lemma ToPrefixLenOfMask(n: nat)
    requires n <= 32
    ensures ToPrefixLen(DottedQuad(Mask(n))) == Some(n)
  {
    var x := Mask(n);
    OnesByOctet(x);
    OnesOfMask(n, 32);
    SplitQuad(x);
    ToIOfDecimal(Octet(x, 0));
    ToIOfDecimal(Octet(x, 1));
    ToIOfDecimal(Octet(x, 2));
    ToIOfDecimal(Octet(x, 3));
    OctetOnesOfFour(Decimal(Octet(x, 0)), Decimal(Octet(x, 1)), Decimal(Octet(x, 2)), Decimal(Octet(x, 3)));
    hide ToI, MaskOf, Ones, DottedQuad, SplitAll, OctetOnes, Octet;
  }

  // ---------- Networks in text ----------

  function NetworkText(net: Network): string {
    DottedQuad(net.addr) + "/" + Decimal(PrefixLength(net))
  }

  predicate IsNumber(s: string, limit: nat) {
    s != "" && AllDigits(s) && Number(s) <= limit
  }

  function ParseQuad(s: string): (ip: Option<nat>)
    ensures ip.Some? ==> ip.value < 0x1_0000_0000
  {
    var o := SplitAll(s, '.');
    if |o| == 4 && forall i | 0 <= i < 4 :: IsNumber(o[i], 255)
    then Some(FromOctets(Number(o[0]), Number(o[1]), Number(o[2]), Number(o[3])))
    else None
  }

  /** IPAddr.new on "a.b.c.d" or "a.b.c.d/n"; None where it raises. */
  function ParseNetwork(s: string): Option<Network> {
    var parts := SplitAll(s, '/');
    var ip := ParseQuad(parts[0]);
    if ip == None || |parts| > 2 then None
    else if |parts| == 1 then Some(MakeNetwork(ip.value, 32))
    else if IsNumber(parts[1], 32) then Some(MakeNetwork(ip.value, Number(parts[1]))) else None
  }

  lemma QuadRoundTrip(ip: nat)
    requires ip < 0x1_0000_0000
    ensures ParseQuad(DottedQuad(ip)) == Some(ip)
  {
    SplitQuad(ip);
    OctetsRoundTrip(ip);
    forall k: nat | k < 4
      ensures IsNumber(Decimal(Octet(ip, k)), 255) && Number(Decimal(Octet(ip, k))) == Octet(ip, k)
    {
      NumberOfDecimal(Octet(ip, k));
    }
    hide DottedQuad, SplitAll, FromOctets, Octet;
  }

  lemma QuadAvoids(ip: nat, sep: char)
    requires !IsDigit(sep) && sep != '.'
    ensures sep !in DottedQuad(ip)
  {
  }

  lemma NetworkTextParses(ip: nat, n: nat)
    requires ip < 0x1_0000_0000 && n <= 32
    ensures ParseNetwork(DottedQuad(ip) + "/" + Decimal(n)) == Some(MakeNetwork(ip, n))
  {
    hide *;
    SplitNetworkText(ip, n);
    QuadRoundTrip(ip);
    NumberOfDecimal(n);
    LengthIsNumber(n);
    ParsedFrom(DottedQuad(ip) + "/" + Decimal(n), DottedQuad(ip), Decimal(n), ip);
  }

  lemma SplitNetworkText(ip: nat, n: nat)
    ensures SplitAll(DottedQuad(ip) + "/" + Decimal(n), '/') == [DottedQuad(ip), Decimal(n)]
  {
    hide DottedQuad, SplitAll, Decimal, AllDigits;
    var quad, length := DottedQuad(ip), Decimal(n);
    QuadAvoids(ip, '/');
    NumberOfDecimal(n);
    NoSlash(length);
    assert quad + "/" + length == quad + ['/'] + length;
    SplitAllAfterPiece(quad, length, '/');
    SplitAllOfPiece(length, '/');
  }

  lemma NoSlash(length: string)
    requires AllDigits(length)
    ensures '/' !in length
  {
  }

  lemma LengthIsNumber(n: nat)
    requires n <= 32
    ensures IsNumber(Decimal(n), 32)
  {
    hide Decimal, AllDigits, Number;
    NumberOfDecimal(n);
  }

  lemma ParsedFrom(text: string, quad: string, length: string, ip: nat)
    requires SplitAll(text, '/') == [quad, length] && IsNumber(length, 32)
    requires ip < 0x1_0000_0000 && ParseQuad(quad) == Some(ip)
    ensures ParseNetwork(text) == Some(MakeNetwork(ip, Number(length)))
  {
    hide SplitAll, Canonical, MakeNetwork, ParseQuad, IsNumber, Number;
  }

  lemma NetworkRoundTrip(net: Network)
    ensures ParseNetwork(NetworkText(net)) == Some(net)
  {
    NetworkTextParses(net.addr, PrefixLength(net));
    NetworkIsMade(net);
    hide DottedQuad, ParseNetwork, PrefixLength, MakeNetwork;
  }

  /** The network open_interfaces builds from the texts of an address and a dotted mask; None where it raises. */
  function AttachedNetwork(network: string, mask: string): Option<Network> {
    var n := ToPrefixLen(mask);
    if n == None then None else ParseNetwork(network + "/" + Decimal(n.value))
  }

  /** From a dotted address and a dotted n-bit mask it is the network of that length. */
  lemma AttachedNetworkParses(ip: nat, n: nat)
    requires ip < 0x1_0000_0000 && n <= 32
    ensures AttachedNetwork(DottedQuad(ip), DottedQuad(Mask(n))) == Some(MakeNetwork(ip, n))
  {
    ToPrefixLenOfMask(n);
    NetworkTextParses(ip, n);
    hide DottedQuad, ParseNetwork, MakeNetwork, ToPrefixLen, MaskOf;
  }
}
