/**
 The MD5 digest as sections 3.1 to 3.5 of RFC 1321 describe it: pad the whole
 message, then fold an indexed 64-step loop over its 16-word blocks.  Nothing here
 depends on how sip-proxy/src/md5.c computes the digest.
 */
module Rfc1321 {

  type Byte = bv8
  type Word = bv32

  /** The MD buffer of section 3.3: four words A, B, C, D. */
  datatype State = State(a: Word, b: Word, c: Word, d: Word)

  const INITIAL := State(0x67452301, 0xefcdab89, 0x98badcfe, 0x10325476)

  // ---------- Section 3.4: auxiliary functions, tables and the 64 steps ----------

  /** Addition of words, that is, modulo 2^32. */
  function Plus(x: Word, y: Word): Word { x + y }

  function F(x: Word, y: Word, z: Word): Word { (x & y) | (!x & z) }

  function G(x: Word, y: Word, z: Word): Word { (x & z) | (y & !z) }

  function H(x: Word, y: Word, z: Word): Word { x ^ y ^ z }

  function I(x: Word, y: Word, z: Word): Word { y ^ (x | !z) }

  function RotateLeft(x: Word, s: Word): Word
    requires s <= 32
  {
    (x << s) | (x >> (32 - s))
  }

  function StepSum(a: Word, f: Word, x: Word, t: Word): Word { a + f + x + t }

  function Rotated(a: Word, b: Word, f: Word, x: Word, t: Word, s: Word): Word
    requires s <= 32
  {
    Plus(b, RotateLeft(StepSum(a, f, x, t), s))
  }

  function Auxiliary(i: nat, x: Word, y: Word, z: Word): Word {
    if i < 16 then F(x, y, z) else if i < 32 then G(x, y, z) else if i < 48 then H(x, y, z) else I(x, y, z)
  }

  /** Which word of the block step i reads. */
  function WordIndex(i: nat): (k: nat)
    ensures k < 16
  {
    if i < 16 then i else if i < 32 then (5 * i + 1) % 16 else if i < 48 then (3 * i + 5) % 16 else 7 * i % 16
  }

  function ShiftAmount(i: nat): (s: Word)
    ensures 0 < s < 32
  {
    var k := i % 4;
    if i < 16 then (if k == 0 then 7 else if k == 1 then 12 else if k == 2 then 17 else 22)
    else if i < 32 then (if k == 0 then 5 else if k == 1 then 9 else if k == 2 then 14 else 20)
    else if i < 48 then (if k == 0 then 4 else if k == 1 then 11 else if k == 2 then 16 else 23)
    else (if k == 0 then 6 else if k == 1 then 10 else if k == 2 then 15 else 21)
  }

  /** The table T[1..64], by round and by line of the round. */
  const SINES: seq<seq<seq<Word>>> := [
    [[0xd76aa478, 0xe8c7b756, 0x242070db, 0xc1bdceee],
     [0xf57c0faf, 0x4787c62a, 0xa8304613, 0xfd469501],
     [0x698098d8, 0x8b44f7af, 0xffff5bb1, 0x895cd7be],
     [0x6b901122, 0xfd987193, 0xa679438e, 0x49b40821]],
    [[0xf61e2562, 0xc040b340, 0x265e5a51, 0xe9b6c7aa],
     [0xd62f105d, 0x02441453, 0xd8a1e681, 0xe7d3fbc8],
     [0x21e1cde6, 0xc33707d6, 0xf4d50d87, 0x455a14ed],
     [0xa9e3e905, 0xfcefa3f8, 0x676f02d9, 0x8d2a4c8a]],
    [[0xfffa3942, 0x8771f681, 0x6d9d6122, 0xfde5380c],
     [0xa4beea44, 0x4bdecfa9, 0xf6bb4b60, 0xbebfbc70],
     [0x289b7ec6, 0xeaa127fa, 0xd4ef3085, 0x04881d05],
     [0xd9d4d039, 0xe6db99e5, 0x1fa27cf8, 0xc4ac5665]],
    [[0xf4292244, 0x432aff97, 0xab9423a7, 0xfc93a039],
     [0x655b59c3, 0x8f0ccc92, 0xffeff47d, 0x85845dd1],
     [0x6fa87e4f, 0xfe2ce6e0, 0xa3014314, 0x4e0811a1],
     [0xf7537e82, 0xbd3af235, 0x2ad7d2bb, 0xeb86d391]]]

  function Sine(i: nat): Word
    requires i < 64
  {
    SINES[i / 16][i % 16 / 4][i % 4]
  }

  /**
   One operation [abcd k s i]: a = b + ((a + f(b,c,d) + X[k] + T[i]) <<< s).  The
   four names then move round by one place, as the next operation of the list has them.
   */
  function Operation(i: nat, st: State, x: seq<Word>): State
    requires i < 64 && |x| == 16
  {
    var f := Auxiliary(i, st.b, st.c, st.d);
    State(st.d, Rotated(st.a, st.b, f, x[WordIndex(i)], Sine(i), ShiftAmount(i)), st.b, st.c)
  }

  /** The state after the first n operations on one block. */
  function Operations(n: nat, st: State, x: seq<Word>): State
    requires n <= 64 && |x| == 16
  {
    if n == 0 then st else Operation(n - 1, Operations(n - 1, st, x), x)
  }

  function Sum(s: State, t: State): State {
    State(Plus(s.a, t.a), Plus(s.b, t.b), Plus(s.c, t.c), Plus(s.d, t.d))
  }

  function Compress(st: State, x: seq<Word>): State
    requires |x| == 16
  {
    Sum(Operations(64, st, x), st)
  }

  /** Section 2: four bytes make a word, low-order byte first. */
  function WordOf(b0: Byte, b1: Byte, b2: Byte, b3: Byte): Word {
    (b0 as Word) + (b1 as Word) * 0x100 + (b2 as Word) * 0x1_0000 + (b3 as Word) * 0x100_0000
  }

  function BlockWords(block: seq<Byte>): (x: seq<Word>)
    requires |block| == 64
    ensures |x| == 16
  {
    seq(16, k requires 0 <= k < 16 => WordOf(block[4 * k], block[4 * k + 1], block[4 * k + 2], block[4 * k + 3]))
  }

  /** All whole 64-byte blocks of data, folded in order; a shorter rest is ignored. */
  function Blocks(st: State, data: seq<Byte>): State
    decreases |data|
  {
    if |data| < 64 then st else Blocks(Compress(st, BlockWords(data[..64])), data[64..])
  }

  // ---------- Sections 3.1, 3.2 and 3.5: padding, length, output ----------

  const TWO_64 := 0x1_0000_0000_0000_0000

  function Zeros(n: nat): (z: seq<Byte>)
    ensures |z| == n
  {
    seq(n, _ => 0)
  }

  /** The number of zero bytes that bring length + 1 to 56 modulo 64. */
  function PaddingZeros(length: nat): (n: nat)
    ensures n < 64 && (length + 1 + n) % 64 == 56
  {
    (119 - length % 64) % 64
  }

  function LowByte(value: nat): Byte { (value % 0x100) as Byte }

  /** The bit count, as n bytes low-order first; higher-order bits are dropped. */
  function LittleEndian(value: nat, n: nat): (bytes: seq<Byte>)
    ensures |bytes| == n
  {
    if n == 0 then [] else [LowByte(value)] + LittleEndian(value / 0x100, n - 1)
  }

  function Padding(length: nat): seq<Byte> {
    [0x80] + Zeros(PaddingZeros(length)) + LittleEndian(8 * length % TWO_64, 8)
  }

  function Pad(message: seq<Byte>): seq<Byte> {
    message + Padding(|message|)
  }

  function BytesOf(w: Word): (bytes: seq<Byte>)
    ensures |bytes| == 4
  {
    [(w & 0xff) as Byte, ((w >> 8) & 0xff) as Byte, ((w >> 16) & 0xff) as Byte, ((w >> 24) & 0xff) as Byte]
  }

  function Output(st: State): (bytes: seq<Byte>)
    ensures |bytes| == 16
  {
    BytesOf(st.a) + BytesOf(st.b) + BytesOf(st.c) + BytesOf(st.d)
  }

  function Md5(message: seq<Byte>): (digest: seq<Byte>)
    ensures |digest| == 16
  {
    Output(Blocks(INITIAL, Pad(message)))
  }
}
