/**
 IPv4 networks as Ruby's IPAddr holds them, an address and a mask, and the mask
 arithmetic of ruby-router/router.rb and string_extensions.rb.
 */
module IpNetwork {
  function Pow2(n: nat): (p: nat)
    ensures p > 0
  {
    if n == 0 then 1 else 2 * Pow2(n - 1)
  }

  /** x >> i and x << i on unbounded non-negative integers. */
  function ShiftRight(x: nat, i: nat): nat {
    if i == 0 then x else ShiftRight(x / 2, i - 1)
  }

  function ShiftLeft(x: nat, i: nat): nat {
    if i == 0 then x else 2 * ShiftLeft(x, i - 1)
  }

  /** x & y on unbounded non-negative integers. */
  function BitAnd(x: nat, y: nat): (r: nat)
    ensures r <= x && r <= y
  {
    if x == 0 || y == 0 then 0 else 2 * BitAnd(x / 2, y / 2) + if x % 2 == 1 && y % 2 == 1 then 1 else 0
  }

  /** The mask of a prefix of n bits, (2^32 - 1) << (32 - n) cut to 32 bits. */
  function Mask(n: nat): nat
    requires n <= 32
  {
    MaskOf(n, 32)
  }

  /** Of width bits, the top n are ones. */
  function MaskOf(n: nat, width: nat): nat
    requires n <= width
  {
    if width == 0 then 0
    else if n == width then 2 * MaskOf(n - 1, width - 1) + 1
    else 2 * MaskOf(n, width - 1)
  }

  lemma {:induction false} MaskIsShiftedOnes(n: nat, width: nat)
    requires n <= width
    ensures MaskOf(n, width) == Pow2(width) - Pow2(width - n)
  {
    if width > 0 {
      MaskIsShiftedOnes(if n == width then n - 1 else n, width - 1);
    }
  }

  /** IPAddr#cidr: the sum over i in 0..31 of (mask & 2^i) >> i, here over the first n of them. */
  function CidrSum(mask: nat, n: nat): nat {
    if n == 0 then 0 else CidrSum(mask, n - 1) + ShiftRight(BitAnd(mask, Pow2(n - 1)), n - 1)
  }

  function Cidr(mask: nat): nat { CidrSum(mask, 32) }

  lemma {:induction false} BitOf(x: nat, i: nat)
    ensures ShiftRight(BitAnd(x, Pow2(i)), i) == ShiftRight(x, i) % 2
  {
    if x == 0 {
      ShiftOfZero(i);
    } else if i == 0 {
      assert BitAnd(x / 2, 0) == 0;
    } else {
      BitOf(x / 2, i - 1);
      assert BitAnd(x, Pow2(i)) / 2 == BitAnd(x / 2, Pow2(i - 1));
    }
  }

  lemma {:induction false} ShiftOfZero(i: nat)
    ensures ShiftRight(0, i) == 0
  {
    if i > 0 {
      ShiftOfZero(i - 1);
    }
  }

  /** The number of ones among the low n bits. */
  function Ones(x: nat, n: nat): nat {
    if n == 0 then 0 else x % 2 + Ones(x / 2, n - 1)
  }

  lemma {:induction false} OnesFromTop(x: nat, n: nat)
    ensures Ones(x, n + 1) == Ones(x, n) + ShiftRight(x, n) % 2
  {
    if n > 0 {
      OnesFromTop(x / 2, n - 1);
    }
  }

  lemma {:induction false} CidrSumIsOnes(mask: nat, n: nat)
    ensures CidrSum(mask, n) == Ones(mask, n)
  {
    if n > 0 {
      CidrSumIsOnes(mask, n - 1);
      BitOf(mask, n - 1);
      OnesFromTop(mask, n - 1);
    }
  }

  lemma {:induction false} OnesOfMask(n: nat, width: nat)
    requires n <= width
    ensures Ones(MaskOf(n, width), width) == n
  {
    if width > 0 {
      OnesOfMask(if n == width then n - 1 else n, width - 1);
    }
  }

  /** cidr returns n on the n-bit mask. */
  lemma CidrOfMask(n: nat)
    requires n <= 32
    ensures Cidr(Mask(n)) == n
  {
    CidrSumIsOnes(Mask(n), 32);
    OnesOfMask(n, 32);
  }

  // ---------- Networks ----------

  datatype RawNetwork = RawNetwork(addr: nat, mask: nat)

  /** What IPAddr.new("a.b.c.d/n") builds: a contiguous mask, and no address bit outside it. */
  predicate Canonical(net: RawNetwork) {
    && net.addr < 0x1_0000_0000
    && Cidr(net.mask) <= 32
    && net.mask == Mask(Cidr(net.mask))
    && BitAnd(net.addr, net.mask) == net.addr
  }

  lemma {:induction false} NoOnes(width: nat)
    ensures MaskOf(0, width) == 0
  {
    if width > 0 {
      NoOnes(width - 1);
    }
  }

  lemma AnyAddress()
    ensures Canonical(RawNetwork(0, 0))
  {
    CidrOfMask(0);
    NoOnes(32);
    hide Cidr, MaskOf;
  }

  type Network = net: RawNetwork | Canonical(net) ghost witness (AnyAddress(); RawNetwork(0, 0))

  function PrefixLength(net: Network): (n: nat)
    ensures n <= 32
  {
    Cidr(net.mask)
  }

  /** IPAddr.new with a prefix length. */
  function MakeNetwork(ip: nat, n: nat): (net: Network)
    requires ip < 0x1_0000_0000 && n <= 32
    ensures PrefixLength(net) == n && net.addr == BitAnd(ip, Mask(n))
  {
    CidrOfMask(n);
    AndTwice(ip, Mask(n));
    RawNetwork(BitAnd(ip, Mask(n)), Mask(n))
  }

  lemma {:induction false} AndTwice(x: nat, y: nat)
    ensures BitAnd(BitAnd(x, y), y) == BitAnd(x, y)
  {
    if x != 0 && y != 0 {
      AndTwice(x / 2, y / 2);
    }
  }

  lemma NetworkIsMade(net: Network)
    ensures MakeNetwork(net.addr, PrefixLength(net)) == net
  {
  }

  /** IPAddr#include? */
  predicate Includes(net: Network, ip: nat) {
    BitAnd(net.addr, net.mask) == BitAnd(ip, net.mask)
  }

  // ---------- Containment is agreement on the prefix ----------

  lemma {:induction false} AndWithMask(x: nat, n: nat, width: nat)
    requires n <= width && x < Pow2(width)
    ensures BitAnd(x, MaskOf(n, width)) == ShiftLeft(ShiftRight(x, width - n), width - n)
    decreases width
  {
    if width > 0 {
      AndWithMask(x / 2, if n == width then n - 1 else n, width - 1);
      if n < width {
        ShiftLeftOfHalf(ShiftRight(x, width - n), width - n);
      }
    }
  }

  lemma ShiftLeftOfHalf(y: nat, i: nat)
    requires i > 0
    ensures ShiftLeft(y, i) == 2 * ShiftLeft(y, i - 1)
  {
  }

  lemma {:induction false} ShiftLeftInjective(x: nat, y: nat, i: nat)
    requires ShiftLeft(x, i) == ShiftLeft(y, i)
    ensures x == y
  {
    if i > 0 {
      ShiftLeftInjective(x, y, i - 1);
    }
  }

  lemma {:induction false} ShiftTwice(x: nat, i: nat, j: nat)
    ensures ShiftRight(ShiftRight(x, i), j) == ShiftRight(x, i + j)
  {
    if i > 0 {
      ShiftTwice(x / 2, i - 1, j);
    }
  }

  /** The first n bits of an address. */
  function Prefix(ip: nat, n: nat): nat
    requires n <= 32
  {
    ShiftRight(ip, 32 - n)
  }

  lemma PowerOf32()
    ensures Pow2(32) == 0x1_0000_0000
  {
    assert Pow2(8) == 0x100;
    assert Pow2(16) == 0x1_0000;
    assert Pow2(24) == 0x100_0000;
  }

  lemma IncludesIffPrefix(net: Network, ip: nat)
    requires ip < 0x1_0000_0000
    ensures Includes(net, ip) <==> Prefix(ip, PrefixLength(net)) == Prefix(net.addr, PrefixLength(net))
  {
    var n := PrefixLength(net);
    PowerOf32();
    AndWithMask(ip, n, 32);
    AndWithMask(net.addr, n, 32);
    if Includes(net, ip) {
      ShiftLeftInjective(Prefix(ip, n), Prefix(net.addr, n), 32 - n);
    }
  }

  lemma ShorterPrefix(ip: nat, m: nat, n: nat)
    requires m <= n <= 32
    ensures Prefix(ip, m) == ShiftRight(Prefix(ip, n), n - m)
  {
    ShiftTwice(ip, 32 - n, n - m);
  }

  /**
   Two networks are nested or disjoint: as soon as one address is in both, every
   address of the longer one is in the shorter one, and the shorter one's mask tells.
   */
  lemma NestedOrDisjoint(short: Network, long: Network, ip: nat, other: nat)
    requires PrefixLength(short) <= PrefixLength(long)
    requires ip < 0x1_0000_0000 && other < 0x1_0000_0000
    requires Includes(short, ip) && Includes(long, ip)
    ensures Includes(short, long.addr)
    ensures Includes(long, other) ==> Includes(short, other)
  {
    var m, n := PrefixLength(short), PrefixLength(long);
    IncludesIffPrefix(short, ip);
    IncludesIffPrefix(long, ip);
    IncludesIffPrefix(short, long.addr);
    IncludesIffPrefix(long, other);
    IncludesIffPrefix(short, other);
    ShorterPrefix(ip, m, n);
    ShorterPrefix(long.addr, m, n);
    ShorterPrefix(other, m, n);
  }

  /** Networks of the same length with a common address are the same key of the table. */
  lemma SameLengthSameNetwork(x: Network, y: Network, ip: nat)
    requires PrefixLength(x) == PrefixLength(y) && Includes(x, ip) && Includes(y, ip)
    ensures x == y
  {
  }
}
