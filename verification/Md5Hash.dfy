/**
 Whole runs of the streaming context, and the hash string of sip-proxy/src/md5-wrapper.c.
 */
module Md5Hash {
  import opened Rfc1321
  import opened Md5Context
  import opened Md5Lemmas

  function Concat(chunks: seq<seq<Byte>>): seq<Byte> {
    if chunks == [] then [] else Concat(chunks[..|chunks| - 1]) + chunks[|chunks| - 1]
  }

  /**
   MD5_Init, any sequence of MD5_Update calls of any sizes, MD5_Final: the digest of
   the concatenated data, whatever the context held before.
   */
  method HashInChunks(ctx: Context, chunks: seq<seq<Byte>>, result: array<Byte>)
    requires ctx.Allocated() && result.Length == 16 && result != ctx.buffer
    requires forall c | c in chunks :: |c| < ctx.ulong
    modifies ctx, ctx.buffer, ctx.block, result
    ensures result[..] == Md5(Concat(chunks))
  {
    hide Md5, Blocks, Rest, Counts;
    ctx.Init();
    var i := 0;
    while i < |chunks|
      invariant 0 <= i <= |chunks|
      invariant ctx.Valid() && ctx.message == Concat(chunks[..i])
    {
      ctx.Update(chunks[i]);
      assert chunks[..i + 1][..i] == chunks[..i];
      i := i + 1;
    }
    assert chunks[..|chunks|] == chunks;
    ctx.Final(result);
  }

  // ---------- The 32 hexadecimal digits ----------

  predicate IsHexDigit(c: char) { '0' <= c <= '9' || 'a' <= c <= 'f' }

  function HexDigit(n: nat): (c: char)
    requires n < 16
    ensures IsHexDigit(c)
  {
    "0123456789abcdef"[n]
  }

  function HexValue(c: char): nat {
    if '0' <= c <= '9' then c as int - '0' as int else if 'a' <= c <= 'f' then c as int - 'a' as int + 10 else 0
  }

  /** sprintf("%02x", b). */
  function HexByte(b: Byte): (s: string)
    ensures |s| == 2 && IsHexDigit(s[0]) && IsHexDigit(s[1])
  {
    [HexDigit(b as int / 16), HexDigit(b as int % 16)]
  }

  function Hex(bytes: seq<Byte>): (s: string)
    ensures |s| == 2 * |bytes| && forall i | 0 <= i < |s| :: IsHexDigit(s[i])
  {
    if bytes == [] then [] else Hex(bytes[..|bytes| - 1]) + HexByte(bytes[|bytes| - 1])
  }

  function Unhex(s: string): seq<Byte> {
    if |s| < 2 then []
    else Unhex(s[..|s| - 2]) + [UnhexByte(s[|s| - 2], s[|s| - 1])]
  }

  function UnhexByte(high: char, low: char): Byte {
    LowByte(16 * HexValue(high) + HexValue(low))
  }

  lemma HexDigitRoundTrip(n: nat)
    requires n < 16
    ensures HexValue(HexDigit(n)) == n
  {
  }

  lemma ByteAgain(b: Byte)
    ensures b as int as Byte == b
  {
  }

  lemma LowByteOfSmall(n: nat)
    requires n < 0x100
    ensures LowByte(n) == n as Byte
  {
    assert n % 0x100 == n;
  }

  lemma ByteOfItsNumber(b: Byte)
    ensures LowByte(b as int) == b
  {
    LowByteOfSmall(b as int);
    ByteAgain(b);
    hide LowByte;
  }

  lemma HexByteRoundTrip(b: Byte)
    ensures UnhexByte(HexByte(b)[0], HexByte(b)[1]) == b
  {
    var n := b as int;
    HexDigitRoundTrip(n / 16);
    HexDigitRoundTrip(n % 16);
    ByteOfItsNumber(b);
    hide LowByte, HexDigit, HexValue;
    assert 16 * (n / 16) + n % 16 == n;
  }

  lemma {:induction false} HexRoundTrip(bytes: seq<Byte>)
    ensures Unhex(Hex(bytes)) == bytes
  {
    if bytes != [] {
      var front, b := bytes[..|bytes| - 1], bytes[|bytes| - 1];
      HexRoundTrip(front);
      HexByteRoundTrip(b);
      hide HexByte, UnhexByte;
      HexLast(bytes);
      assert bytes == front + [b];
    }
  }

  lemma HexLast(bytes: seq<Byte>)
    requires bytes != []
    ensures var s, front, b := Hex(bytes), bytes[..|bytes| - 1], bytes[|bytes| - 1];
            s[..|s| - 2] == Hex(front) && s[|s| - 2] == HexByte(b)[0] && s[|s| - 1] == HexByte(b)[1]
  {
    hide HexByte;
  }

  // ---------- The final state can be read back ----------

  lemma WordRoundTrip(w: Word)
    ensures var b := BytesOf(w); WordOf(b[0], b[1], b[2], b[3]) == w
  {
  }

  function StateOf(bytes: seq<Byte>): State
    requires |bytes| == 16
  {
    State(WordOf(bytes[0], bytes[1], bytes[2], bytes[3]), WordOf(bytes[4], bytes[5], bytes[6], bytes[7]),
          WordOf(bytes[8], bytes[9], bytes[10], bytes[11]), WordOf(bytes[12], bytes[13], bytes[14], bytes[15]))
  }

  /** The printed digest decodes to the final a, b, c, d, so printing loses nothing. */
  lemma PrintedStateRoundTrip(st: State)
    ensures |Hex(Output(st))| == 32
    ensures Unhex(Hex(Output(st))) == Output(st) && StateOf(Output(st)) == st
  {
    HexRoundTrip(Output(st));
    WordRoundTrip(st.a);
    WordRoundTrip(st.b);
    WordRoundTrip(st.c);
    WordRoundTrip(st.d);
    hide Hex, Unhex, WordOf, BytesOf;
  }

  /** strlen: the bytes before the terminating zero. */
  function CString(memory: seq<Byte>): (s: seq<Byte>)
    requires 0 in memory
    ensures s <= memory && |s| < |memory| && memory[|s|] == 0 && 0 !in s
  {
    if memory[0] == 0 then [] else [memory[0]] + CString(memory[1..])
  }

  /** get_md5_hash. */
  method GetMd5Hash(input: seq<Byte>, ulong: nat, cachesWords: bool) returns (md5String: string)
    requires ulong == 0x1_0000_0000 || ulong == 0x1_0000_0000_0000_0000
    requires 0 in input && |input| <= ulong
    ensures md5String == Hex(Md5(CString(input))) && |md5String| == 32
    ensures forall i | 0 <= i < 32 :: IsHexDigit(md5String[i])
  {
    hide Md5, HexByte;
    var result := new Byte[16];
    var ctx := new Context(ulong, cachesWords);
    ctx.Init();
    ctx.Update(CString(input));
    assert ctx.message == CString(input);
    ctx.Final(result);
    md5String := "";
    for i := 0 to 16
      invariant md5String == Hex(result[..i])
    {
      md5String := md5String + HexByte(result[i]);
      assert result[..i + 1][..i] == result[..i];
    }
    assert result[..16] == result[..];
  }
}
