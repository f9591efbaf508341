/**
 MD5_CTX of sip-proxy/src/md5.h and the functions that update it in place.
 */
module Md5Context {
  import opened Rfc1321
  import opened Md5Steps
  import opened Md5Rounds
  import opened Md5Lemmas
  import opened Md5Padding

  class Context {
    /** One more than the largest unsigned long: 2^32 or 2^64. */
    const ulong: nat
    /** The build where SET stores each decoded word in block, for GET to read. */
    const cachesWords: bool

    var lo: nat
    var hi: nat
    var a: Word
    var b: Word
    var c: Word
    var d: Word
    const buffer: array<Byte>
    const block: array<Word>

    /** Everything passed to Update since Init. */
    ghost var message: seq<Byte>

    ghost predicate Allocated() {
      && buffer.Length == 64
      && block.Length == 16
      && (ulong == 0x1_0000_0000 || ulong == 0x1_0000_0000_0000_0000)
    }

    ghost function Registers(): State
      reads this
    {
      State(a, b, c, d)
    }

    /**
     The streaming invariant: lo and hi count the bytes, a..d is the fold over all
     whole blocks, and the buffer starts with the bytes not yet compressed.
     */
    ghost predicate Valid()
      reads this, buffer
    {
      && Allocated()
      && Counts(lo, hi, |message|)
      && Registers() == Blocks(INITIAL, message)
      && buffer[..|message| % 64] == Rest(message)
    }

    constructor (ulong: nat, cachesWords: bool)
      requires ulong == 0x1_0000_0000 || ulong == 0x1_0000_0000_0000_0000
      ensures Allocated() && fresh(buffer) && fresh(block)
      ensures this.ulong == ulong && this.cachesWords == cachesWords
    {
      this.ulong := ulong;
      this.cachesWords := cachesWords;
      buffer := new Byte[64];
      block := new Word[16];
    }

    /** MD5_Init. */
    method Init()
      requires Allocated()
      modifies this
      ensures Valid() && message == []
    {
      a, b, c, d := 0x67452301, 0xefcdab89, 0x98badcfe, 0x10325476;
      lo, hi := 0, 0;
      message := [];
    }

    /** In the build that caches, block holds the first n words of x. */
    ghost predicate Cached(n: nat, x: seq<Word>)
      reads block
    {
      cachesWords ==> n <= block.Length && n <= |x| && block[..n] == x[..n]
    }

    /** SET(n), at its place in round 1. */
    method SetWord(n: nat, chunk: seq<Byte>)
      requires Allocated() && n < 16 && |chunk| == 64
      requires Cached(n, BlockWords(chunk))
      modifies block
      ensures Cached(n + 1, BlockWords(chunk))
    {
      var b0, b1, b2, b3 := chunk[4 * n], chunk[4 * n + 1], chunk[4 * n + 2], chunk[4 * n + 3];
      SetIsWordOf(b0, b1, b2, b3);
      hide WordOf;
      // the other build has no block to fill: there SET(n) and GET(n) are unaligned little-endian reads
      if cachesWords {
        block[n] := (b0 as Word) | ((b1 as Word) << 8) | ((b2 as Word) << 16) | ((b3 as Word) << 24);
        assert block[..n + 1] == block[..n] + [block[n]];
      }
    }

    /**
     The sixteen SETs of round 1.  Step n of that round starts with SET(n); nothing
     else reads block before round 2 does, so they are taken together here.
     */
    method SetWords(chunk: seq<Byte>)
      requires Allocated() && |chunk| == 64
      modifies block
      ensures Cached(16, BlockWords(chunk))
    {
      assert Cached(0, BlockWords(chunk));
      hide BlockWords, Cached;
      SetWord(0, chunk);
      SetWord(1, chunk);
      SetWord(2, chunk);
      SetWord(3, chunk);
      SetWord(4, chunk);
      SetWord(5, chunk);
      SetWord(6, chunk);
      SetWord(7, chunk);
      SetWord(8, chunk);
      SetWord(9, chunk);
      SetWord(10, chunk);
      SetWord(11, chunk);
      SetWord(12, chunk);
      SetWord(13, chunk);
      SetWord(14, chunk);
      SetWord(15, chunk);
    }

    /** One pass of the loop of body. */
    method CompressBlock(start: State, chunk: seq<Byte>) returns (r: State)
      requires Allocated() && |chunk| == 64
      modifies block
      ensures r == Compress(start, BlockWords(chunk))
    {
      SetWords(chunk);
      var x := if cachesWords then block[..] else BlockWords(chunk);
      assert x == BlockWords(chunk);
      assert Operations(0, start, x) == start;
      hide Operations, BlockWords, Plus;
      r := Round1(start, x, start);
      r := Round2(r, x, start);
      r := Round3(r, x, start);
      r := Round4(r, x, start);
      r := State(Plus(r.a, start.a), Plus(r.b, start.b), Plus(r.c, start.c), Plus(r.d, start.d));
    }

    /** body: a do-while over 64-byte blocks, so callers pass at least one. */
    method Body(data: seq<Byte>)
      requires Allocated() && |data| % 64 == 0 && data != []
      modifies this`a, this`b, this`c, this`d, block
      ensures Registers() == Blocks(old(Registers()), data)
    {
      hide Compress, BlockWords;
      var ptr, size := 0, |data|;
      var r := State(a, b, c, d);
      var more := true;
      while more
        invariant 0 <= ptr && 0 <= size && ptr + size == |data| && size % 64 == 0 && more == (size != 0)
        invariant r == Blocks(old(Registers()), data[..ptr])
        decreases size
      {
        BlocksOneMore(old(Registers()), data, ptr);
        r := CompressBlock(r, data[ptr..ptr + 64]);
        ptr := ptr + 64;
        size := size - 64;
        more := size != 0;
      }
      assert data[..ptr] == data;
      a, b, c, d := r.a, r.b, r.c, r.d;
    }

    /** memcpy(&buffer[at], data, |data|). */
    method CopyToBuffer(at: nat, data: seq<Byte>)
      requires buffer.Length == 64 && at + |data| <= 64
      modifies buffer
      ensures buffer[..] == old(buffer[..at]) + data + old(buffer[at + |data|..])
    {
      forall i | at <= i < at + |data| {
        buffer[i] := data[i - at];
      }
    }

    /** The counter update of MD5_Update. */
    method CountBytes(size: nat)
      requires Allocated() && Counts(lo, hi, |message|) && size < ulong
      modifies this`lo, this`hi
      ensures Counts(lo, hi, |message| + size)
    {
      var savedLo := lo;
      CounterStep(lo, hi, |message|, size, ulong);
      lo := (savedLo + size) % ulong % 0x2000_0000;
      if lo < savedLo {
        hi := (hi + 1) % 0x1_0000_0000;
      }
      hi := (hi + size / 0x2000_0000) % 0x1_0000_0000;
    }

    /** MD5_Update where the buffer is partly full and data fills it. */
    method FillBuffer(used: nat, data: seq<Byte>, ghost whole: seq<Byte>)
      requires Allocated() && 0 < used < 64 && |data| == 64 - used && used == |whole| % 64
      requires Registers() == Blocks(INITIAL, whole) && buffer[..used] == Rest(whole)
      modifies this`a, this`b, this`c, this`d, buffer, block
      ensures Registers() == Blocks(INITIAL, whole + data)
    {
      hide Blocks, Rest;
      CopyToBuffer(used, data);
      assert buffer[..] == Rest(whole) + data;
      FillBlock(INITIAL, whole, data);
      Body(buffer[..]);
    }

    /** MD5_Update from the point where the buffer holds nothing. */
    method TakeBlocks(data: seq<Byte>, ghost whole: seq<Byte>)
      requires Allocated() && |whole| % 64 == 0 && Registers() == Blocks(INITIAL, whole)
      modifies this`a, this`b, this`c, this`d, buffer, block
      ensures Registers() == Blocks(INITIAL, whole + data)
      ensures buffer[..|whole + data| % 64] == Rest(whole + data)
    {
      hide Blocks, Rest;
      var n := |data| - |data| % 64;
      ghost var blocks := whole + data[..n];
      if |data| >= 64 {
        Body(data[..n]);
        WholeBlocks(INITIAL, whole, data[..n]);
      } else {
        assert blocks == whole;
      }
      assert blocks + data[n..] == whole + data;
      RestAfterBlocks(blocks, data[n..]);
      BlocksIgnoreRest(INITIAL, blocks, data[n..]);
      CopyToBuffer(0, data[n..]);
    }

    /** The rest of MD5_Update, after the counters. */
    method Absorb(used: nat, data: seq<Byte>, ghost whole: seq<Byte>)
      requires Allocated() && used == |whole| % 64
      requires Registers() == Blocks(INITIAL, whole) && buffer[..used] == Rest(whole)
      modifies this`a, this`b, this`c, this`d, buffer, block
      ensures Registers() == Blocks(INITIAL, whole + data)
      ensures buffer[..|whole + data| % 64] == Rest(whole + data)
    {
      hide Blocks, Rest;
      if used == 0 {
        TakeBlocks(data, whole);
      } else {
        var available := 64 - used;
        if |data| < available {
          StillPartial(INITIAL, whole, data);
          CopyToBuffer(used, data);
        } else {
          FillBuffer(used, data[..available], whole);
          assert whole + data[..available] + data[available..] == whole + data;
          TakeBlocks(data[available..], whole + data[..available]);
        }
      }
    }

    /** MD5_Update. */
    method Update(data: seq<Byte>)
      requires Valid() && |data| < ulong
      modifies this, buffer, block
      ensures Valid() && message == old(message) + data
    {
      hide Blocks, Rest;
      var used := lo % 64;
      RestLength(message, lo, hi);
      CountBytes(|data|);
      Absorb(used, data, message);
      message := message + data;
    }

    /** memset(&buffer[at], 0, count). */
    method ZeroBuffer(at: nat, count: nat)
      requires buffer.Length == 64 && at + count <= 64
      modifies buffer
      ensures buffer[..] == old(buffer[..at]) + Zeros(count) + old(buffer[at + count..])
    {
      forall i | at <= i < at + count {
        buffer[i] := 0;
      }
    }

    /** Four bytes of the buffer from one counter, low byte first. */
    method PutCounter(at: nat, value: nat)
      requires buffer.Length == 64 && at + 4 <= 64 && value < 0x1_0000_0000
      modifies buffer
      ensures buffer[..] == old(buffer[..at]) + LittleEndian(value, 4) + old(buffer[at + 4..])
    {
      LittleEndian4(value);
      hide LowByte, LittleEndian;
      buffer[at] := LowByte(value);
      buffer[at + 1] := LowByte(value / 0x100);
      buffer[at + 2] := LowByte(value / 0x1_0000);
      buffer[at + 3] := LowByte(value / 0x100_0000);
    }

    /** MD5_Final up to the first test: the 0x80 byte, and a block of its own when fewer than 8 bytes are left. */
    method StartPadding() returns (used: nat, ghost first: seq<Byte>)
      requires Allocated() && buffer[..lo % 64] == Rest(message) && |Rest(message)| == lo % 64
      modifies this`a, this`b, this`c, this`d, buffer, block
      ensures used <= 56 && |first| % 64 == 0
      ensures Registers() == Blocks(old(Registers()), first)
      ensures first + (buffer[..used] + Zeros(56 - used)) == Rest(message) + [0x80] + Zeros(PaddingZeros(lo % 64))
    {
      hide Blocks, Rest;
      used := lo % 64;
      ghost var start := Rest(message) + [0x80];
      buffer[used] := 0x80;
      used := used + 1;
      assert buffer[..used] == start;
      first := [];
      BlocksOfNothing(Registers());
      var available := 64 - used;
      OneOrTwoBlocks(start, lo % 64);
      hide Zeros, PaddingZeros;
      if available < 8 {
        ZeroBuffer(used, available);
        first := start + Zeros(available);
        assert buffer[..] == first;
        Body(buffer[..]);
        used := 0;
        assert buffer[..0] == [];
      }
    }

    /** The zeros and the eight length bytes that end the last block. */
    method EndBlock(used: nat)
      requires Allocated() && used <= 56 && lo < 0x2000_0000 && hi < 0x1_0000_0000
      modifies this`lo, buffer
      ensures buffer[..] == old(buffer[..used]) + Zeros(56 - used)
                         + (LittleEndian(8 * old(lo), 4) + LittleEndian(hi, 4))
    {
      hide LittleEndian;
      ZeroBuffer(used, 56 - used);
      lo := lo * 8 % 0x1_0000_0000;
      PutCounter(56, lo);
      PutCounter(60, hi);
    }

    /** MD5_Final up to the point where the registers hold the digest. */
    method PadAndCompress()
      requires Valid()
      modifies this`lo, this`a, this`b, this`c, this`d, buffer, block
      ensures Registers() == Blocks(INITIAL, Pad(message))
    {
      RestLength(message, lo, hi);
      hide Blocks, Rest, Pad, LittleEndian, Zeros, PaddingZeros;
      var used, first := StartPadding();
      ghost var start := buffer[..used] + Zeros(56 - used);
      EndBlock(used);
      LastBlocks(INITIAL, message, old(lo), hi, first, start, buffer[..]);
      Body(buffer[..]);
    }

    /** result[at..at + 4] from one word, low byte first. */
    static method PutWord(result: array<Byte>, at: nat, w: Word)
      requires at + 4 <= result.Length
      modifies result
      ensures result[..] == old(result[..at]) + BytesOf(w) + old(result[at + 4..])
    {
      result[at] := (w & 0xff) as Byte;
      result[at + 1] := ((w >> 8) & 0xff) as Byte;
      result[at + 2] := ((w >> 16) & 0xff) as Byte;
      result[at + 3] := ((w >> 24) & 0xff) as Byte;
    }

    method PutDigest(result: array<Byte>)
      requires result.Length >= 16
      modifies result
      ensures result[..] == Output(Registers()) + old(result[16..])
    {
      hide BytesOf;
      PutWord(result, 0, a);
      assert result[..] == BytesOf(a) + old(result[4..]);
      PutWord(result, 4, b);
      assert result[..] == BytesOf(a) + BytesOf(b) + old(result[8..]);
      PutWord(result, 8, c);
      assert result[..] == BytesOf(a) + BytesOf(b) + BytesOf(c) + old(result[12..]);
      PutWord(result, 12, d);
    }

    /** memset(ctx, 0, sizeof(*ctx)). */
    method Clear()
      requires Allocated()
      modifies this`lo, this`hi, this`a, this`b, this`c, this`d, buffer, block
      ensures lo == hi == 0 && Registers() == State(0, 0, 0, 0)
      ensures buffer[..] == Zeros(64) && forall k | 0 <= k < 16 :: block[k] == 0
    {
      lo, hi := 0, 0;
      a, b, c, d := 0, 0, 0, 0;
      ZeroBuffer(0, 64);
      forall i | 0 <= i < 16 {
        block[i] := 0;
      }
    }

    /** MD5_Final. */
    method Final(result: array<Byte>)
      requires Valid() && result.Length >= 16 && result != buffer
      modifies this, buffer, block, result
      ensures Allocated()
      ensures result[..] == Md5(old(message)) + old(result[16..])
      ensures lo == hi == 0 && Registers() == State(0, 0, 0, 0)
      ensures buffer[..] == Zeros(64) && forall k | 0 <= k < 16 :: block[k] == 0
    {
      hide Blocks, Pad, Output, Zeros;
      PadAndCompress();
      PutDigest(result);
      Clear();
    }
  }
}
