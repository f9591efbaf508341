/**
 The padding of sections 3.1 and 3.2 of RFC 1321: how MD5_Final lays it out in one
 or two blocks, and why no two messages are padded to the same bytes.
 */
module Md5Padding {
  import opened Rfc1321
  import opened Md5Lemmas

  function Power256(n: nat): (p: nat)
    ensures p > 0
  {
    if n == 0 then 1 else 0x100 * Power256(n - 1)
  }

  lemma LittleEndian4(value: nat)
    requires value < 0x1_0000_0000
    ensures LittleEndian(value, 4)
         == [LowByte(value), LowByte(value / 0x100), LowByte(value / 0x1_0000), LowByte(value / 0x100_0000)]
  {
    hide LowByte;
    var v1 := value / 0x100;
    var v2 := v1 / 0x100;
    var v3 := v2 / 0x100;
    assert v2 == value / 0x1_0000 && v3 == value / 0x100_0000;
    assert LittleEndian(v3, 1) == [LowByte(v3)] + LittleEndian(v3 / 0x100, 0);
    assert LittleEndian(v2, 2) == [LowByte(v2)] + LittleEndian(v3, 1);
    assert LittleEndian(v1, 3) == [LowByte(v1)] + LittleEndian(v2, 2);
    assert LittleEndian(value, 4) == [LowByte(value)] + LittleEndian(v1, 3);
  }

  lemma LowByteIgnoresHigh(low: nat, high: nat)
    ensures LowByte(0x100 * high + low) == LowByte(low)
  {
    assert (0x100 * high + low) % 0x100 == low % 0x100;
  }

  /** The low n bytes of a number, then the rest. */
  lemma {:induction false} LittleEndianSplits(low: nat, high: nat, n: nat, m: nat)
    requires low < Power256(n)
    ensures LittleEndian(high * Power256(n) + low, n + m) == LittleEndian(low, n) + LittleEndian(high, m)
    decreases n
  {
    hide LowByte;
    if n == 0 {
      assert LittleEndian(low, 0) == [];
    } else {
      var p := Power256(n - 1);
      var rest := high * p + low / 0x100;
      var v := high * Power256(n) + low;
      assert v == 0x100 * rest + low % 0x100 by {
        assert high * (0x100 * p) == 0x100 * (high * p);
      }
      LowByteIgnoresHigh(low % 0x100, rest);
      LowByteIgnoresHigh(low % 0x100, low / 0x100);
      LittleEndianSplits(low / 0x100, high, n - 1, m);
      hide Power256;
      assert LittleEndian(v, n + m) == [LowByte(v)] + LittleEndian(rest, n - 1 + m);
      assert LittleEndian(low, n) == [LowByte(low)] + LittleEndian(low / 0x100, n - 1);
    }
  }

  /** The two counters together are the bit count modulo 2^64 of section 3.2. */
  lemma LengthBytes(length: nat, lo: nat, hi: nat)
    requires Counts(lo, hi, length)
    ensures LittleEndian(8 * length % TWO_64, 8) == LittleEndian(8 * lo, 4) + LittleEndian(hi, 4)
  {
    hide LittleEndian;
    CountedBits(length, lo, hi);
    assert Power256(4) == 0x1_0000_0000;
    LittleEndianSplits(8 * lo, hi, 4, 4);
  }

  lemma CountedBits(length: nat, lo: nat, hi: nat)
    requires Counts(lo, hi, length)
    ensures 8 * length % TWO_64 == hi * 0x1_0000_0000 + 8 * lo
  {
    ModUnique(8 * length, TWO_64, length / 0x2000_0000_0000_0000, hi * 0x1_0000_0000 + 8 * lo);
  }

  /** What MD5_Final has to append to the unprocessed bytes. */
  function Tail(used: nat, lo: nat, hi: nat): seq<Byte> {
    [0x80] + Zeros(PaddingZeros(used)) + (LittleEndian(8 * lo, 4) + LittleEndian(hi, 4))
  }

  lemma Associative(x: seq<Byte>, y: seq<Byte>, z: seq<Byte>)
    ensures x + (y + z) == x + y + z
  {
  }

  lemma TailJoins(rest: seq<Byte>, lo: nat, hi: nat)
    ensures rest + Tail(|rest|, lo, hi)
         == rest + [0x80] + Zeros(PaddingZeros(|rest|)) + (LittleEndian(8 * lo, 4) + LittleEndian(hi, 4))
  {
    hide Zeros, LittleEndian, PaddingZeros;
  }

  lemma ZerosDependOnRest(length: nat)
    ensures PaddingZeros(length) == PaddingZeros(length % 64)
  {
  }

  lemma PaddingIsTail(length: nat, lo: nat, hi: nat)
    requires Counts(lo, hi, length)
    ensures Padding(length) == Tail(length % 64, lo, hi)
  {
    LengthBytes(length, lo, hi);
    ZerosDependOnRest(length);
    hide LittleEndian, Zeros, PaddingZeros, Counts;
  }

  /** A padded message ends with its unprocessed bytes and their tail, after whole blocks. */
  lemma PadSplits(message: seq<Byte>, lo: nat, hi: nat) returns (x: seq<Byte>)
    requires Counts(lo, hi, |message|)
    ensures |x| % 64 == 0 && message == x + Rest(message)
    ensures Pad(message) == x + (Rest(message) + Tail(|Rest(message)|, lo, hi))
  {
    x := SplitAtRest(message);
    PaddingIsTail(|message|, lo, hi);
    hide Rest, Padding, Tail;
    Associative(x, Rest(message), Padding(|message|));
  }

  /** The last block, or two, compressed on top of the whole blocks: the padded message. */
  lemma FinalBlocks(st: State, message: seq<Byte>, lo: nat, hi: nat, blocks: seq<Byte>)
    requires Counts(lo, hi, |message|)
    requires blocks == Rest(message) + Tail(|Rest(message)|, lo, hi)
    ensures Blocks(st, Pad(message)) == Blocks(Blocks(st, message), blocks)
  {
    var x := PadSplits(message, lo, hi);
    RestLength(message, lo, hi);
    hide Blocks, Rest, Pad, Tail, Counts;
    BlocksIgnoreRest(st, x, Rest(message));
    BlocksConcat(st, x, blocks);
  }

  /** The same with MD5_Final's one or two blocks: first is empty or a whole block. */
  lemma LastBlocks(st: State, message: seq<Byte>, lo: nat, hi: nat, first: seq<Byte>, start: seq<Byte>, last: seq<Byte>)
    requires Counts(lo, hi, |message|) && |first| % 64 == 0
    requires first + start == Rest(message) + [0x80] + Zeros(PaddingZeros(lo % 64))
    requires last == start + (LittleEndian(8 * lo, 4) + LittleEndian(hi, 4))
    ensures Blocks(st, Pad(message)) == Blocks(Blocks(Blocks(st, message), first), last)
  {
    RestLength(message, lo, hi);
    TailJoins(Rest(message), lo, hi);
    hide Blocks, Rest, Pad, Tail, Counts, LittleEndian, Zeros, PaddingZeros;
    Associative(first, start, LittleEndian(8 * lo, 4) + LittleEndian(hi, 4));
    FinalBlocks(st, message, lo, hi, first + last);
    BlocksConcat(Blocks(st, message), first, last);
  }

  /** The zeros fit before byte 56, or they fill this block and 56 bytes of another. */
  lemma OneOrTwoBlocks(start: seq<Byte>, used: nat)
    requires used < 64 && |start| == used + 1
    ensures used <= 55 ==> [] + (start + Zeros(56 - |start|)) == start + Zeros(PaddingZeros(used))
    ensures used > 55 ==>
              start + Zeros(64 - |start|) + ([] + Zeros(56)) == start + Zeros(PaddingZeros(used))
  {
  }

  // ---------- Padding loses nothing ----------

  lemma PadLength(message: seq<Byte>)
    ensures |Pad(message)| % 64 == 0
    ensures |message| + 9 <= |Pad(message)| < |message| + 73
  {
    hide Zeros, LittleEndian, PaddingZeros;
    assert |Pad(message)| == |message| + 1 + PaddingZeros(|message|) + 8;
  }

  lemma LowByteInjective(v: nat, w: nat)
    requires LowByte(v) == LowByte(w)
    ensures v % 0x100 == w % 0x100
  {
    ByteRoundTrip(v % 0x100);
    ByteRoundTrip(w % 0x100);
  }

  lemma ByteRoundTrip(n: nat)
    requires n < 0x100
    ensures n as Byte as int == n
  {
    // sixteen ranges, small enough for the conversions to be evaluated bit by bit
    if n < 0x80 {
      if n < 0x40 {
        if n < 0x20 { if n < 0x10 {} else {} } else { if n < 0x30 {} else {} }
      } else {
        if n < 0x60 { if n < 0x50 {} else {} } else { if n < 0x70 {} else {} }
      }
    } else {
      if n < 0xc0 {
        if n < 0xa0 { if n < 0x90 {} else {} } else { if n < 0xb0 {} else {} }
      } else {
        if n < 0xe0 { if n < 0xd0 {} else {} } else { if n < 0xf0 {} else {} }
      }
    }
  }

  lemma {:induction false} LittleEndianInjective(v: nat, w: nat, n: nat)
    requires v < Power256(n) && w < Power256(n) && LittleEndian(v, n) == LittleEndian(w, n)
    ensures v == w
    decreases n
  {
    if n > 0 {
      hide LowByte;
      assert LittleEndian(v, n)[0] == LowByte(v) && LittleEndian(v, n)[1..] == LittleEndian(v / 0x100, n - 1);
      assert LittleEndian(w, n)[0] == LowByte(w) && LittleEndian(w, n)[1..] == LittleEndian(w / 0x100, n - 1);
      LowByteInjective(v, w);
      LittleEndianInjective(v / 0x100, w / 0x100, n - 1);
    }
  }

  lemma Power256Of8()
    ensures Power256(8) == TWO_64
  {
    assert Power256(4) == 0x1_0000_0000;
    assert Power256(6) == 0x1_0000_0000_0000;
  }

  lemma SameBitsSameLength(m: nat, n: nat)
    requires 8 * m % TWO_64 == 8 * n % TWO_64 && -64 < m - n < 64
    ensures m == n
  {
  }

  /**
   No two messages are padded alike, whatever their lengths: the length field counts
   modulo 2^64 bits only, but messages of equal padded length differ by under a block.
   */
  lemma PadInjective(m: seq<Byte>, n: seq<Byte>)
    requires Pad(m) == Pad(n)
    ensures m == n
  {
    hide *;
    PadEnds(m);
    PadEnds(n);
    Power256Of8();
    LittleEndianInjective(8 * |m| % TWO_64, 8 * |n| % TWO_64, 8);
    PadLength(m);
    PadLength(n);
    SameBitsSameLength(|m|, |n|);
  }

  /** A padded message begins with the message and ends with its length in bits. */
  lemma PadEnds(m: seq<Byte>)
    ensures m <= Pad(m) && |Pad(m)| >= 8
    ensures Pad(m)[|Pad(m)| - 8..] == LittleEndian(8 * |m| % TWO_64, 8)
  {
    hide Zeros, LittleEndian, PaddingZeros;
  }
}
