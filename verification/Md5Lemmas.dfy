/**
 Facts about folding blocks and counting bytes that the streaming code relies on.
 */
module Md5Lemmas {
  import opened Rfc1321

  /** The bytes after the last whole block. */
  function Rest(message: seq<Byte>): seq<Byte> {
    message[|message| - |message| % 64..]
  }

  /** Folding two runs of whole blocks is folding their concatenation. */
  lemma {:induction false} BlocksConcat(st: State, x: seq<Byte>, y: seq<Byte>)
    requires |x| % 64 == 0
    ensures Blocks(st, x + y) == Blocks(Blocks(st, x), y)
    decreases |x|
  {
    if x == [] {
      assert x + y == y;
    } else {
      assert (x + y)[..64] == x[..64];
      assert (x + y)[64..] == x[64..] + y;
      BlocksConcat(Compress(st, BlockWords(x[..64])), x[64..], y);
    }
  }

  lemma BlocksOfNothing(st: State)
    ensures Blocks(st, []) == st
  {
  }

  lemma BlocksOneMore(st: State, data: seq<Byte>, ptr: nat)
    requires ptr + 64 <= |data| && ptr % 64 == 0
    ensures Blocks(st, data[..ptr + 64]) == Compress(Blocks(st, data[..ptr]), BlockWords(data[ptr..ptr + 64]))
  {
    var chunk := data[ptr..ptr + 64];
    assert data[..ptr + 64] == data[..ptr] + chunk;
    BlocksConcat(st, data[..ptr], chunk);
    assert chunk[..64] == chunk && chunk[64..] == [];
  }

  /** A rest shorter than a block does not change the fold. */
  lemma BlocksIgnoreRest(st: State, x: seq<Byte>, rest: seq<Byte>)
    requires |x| % 64 == 0 && |rest| < 64
    ensures Blocks(st, x + rest) == Blocks(st, x)
  {
    BlocksConcat(st, x, rest);
  }

  // ---------- The split length counter ----------

  /** hi and lo hold the byte count modulo 2^61, its low 29 bits in lo. */
  predicate Counts(lo: nat, hi: nat, length: nat) {
    && lo < 0x2000_0000 && hi < 0x1_0000_0000
    && hi * 0x2000_0000 + lo == length % 0x2000_0000_0000_0000
  }

  lemma ModUnique(x: nat, m: nat, q: int, r: nat)
    requires r < m && x == m * q + r
    ensures x % m == r
  {
    var k := x / m - q;
    assert m * k == r - x % m;
    assert k > 0 ==> m * k >= m;
    assert k < 0 ==> m * k + m <= 0;
  }

  /** Either width of unsigned long is a multiple of 2^29. */
  lemma WrapKeepsLowBits(x: nat, ulong: nat)
    requires ulong == 0x1_0000_0000 || ulong == 0x1_0000_0000_0000_0000
    ensures x % ulong % 0x2000_0000 == x % 0x2000_0000
  {
    var k := x / ulong;
    if ulong == 0x1_0000_0000 {
      ModUnique(x, 0x2000_0000, 8 * k + x % ulong / 0x2000_0000, x % ulong % 0x2000_0000);
    } else {
      ModUnique(x, 0x2000_0000, 0x8_0000_0000 * k + x % ulong / 0x2000_0000, x % ulong % 0x2000_0000);
    }
  }

  /** The wrap-around test of MD5_Update is an exact carry, for every size. */
  lemma CarryIsExact(lo: nat, size: nat)
    requires lo < 0x2000_0000
    ensures (lo + size) / 0x2000_0000 == size / 0x2000_0000 + if (lo + size) % 0x2000_0000 < lo then 1 else 0
  {
  }

  lemma AddTwice(hi: nat, carry: nat, k: nat)
    ensures ((hi + carry) % 0x1_0000_0000 + k) % 0x1_0000_0000 == (hi + carry + k) % 0x1_0000_0000
  {
  }

  lemma CounterStep(lo: nat, hi: nat, length: nat, size: nat, ulong: nat)
    requires Counts(lo, hi, length)
    requires ulong == 0x1_0000_0000 || ulong == 0x1_0000_0000_0000_0000
    ensures var lo' := (lo + size) % ulong % 0x2000_0000;
            var carried := if lo' < lo then (hi + 1) % 0x1_0000_0000 else hi;
            Counts(lo', (carried + size / 0x2000_0000) % 0x1_0000_0000, length + size)
  {
    WrapKeepsLowBits(lo + size, ulong);
    CarryIsExact(lo, size);
    var lo' := (lo + size) % 0x2000_0000;
    var carry := if lo' < lo then 1 else 0;
    AddTwice(hi, carry, size / 0x2000_0000);
    var high := hi + (lo + size) / 0x2000_0000;
    var total := length / 0x2000_0000_0000_0000 + high / 0x1_0000_0000;
    ModUnique(length + size, 0x2000_0000_0000_0000, total, high % 0x1_0000_0000 * 0x2000_0000 + lo');
  }

  lemma RestLength(message: seq<Byte>, lo: nat, hi: nat)
    requires Counts(lo, hi, |message|)
    ensures |Rest(message)| == lo % 64 == |message| % 64
  {
    var t := |message| / 0x2000_0000_0000_0000;
    ModUnique(|message|, 64, (hi * 0x2000_0000 + t * 0x2000_0000_0000_0000) / 64 + lo / 64, lo % 64);
  }

  // ---------- What each way through MD5_Update does to the invariant ----------

  lemma RestAfterBlocks(x: seq<Byte>, y: seq<Byte>)
    requires |x| % 64 == 0 && |y| < 64
    ensures Rest(x + y) == y && |x + y| % 64 == |y|
  {
    ModUnique(|x + y|, 64, |x| / 64, |y|);
  }

  lemma SplitAtRest(whole: seq<Byte>) returns (x: seq<Byte>)
    ensures whole == x + Rest(whole) && |x| % 64 == 0 && |Rest(whole)| == |whole| % 64
  {
    x := whole[..|whole| - |whole| % 64];
  }

  lemma StillPartial(st: State, whole: seq<Byte>, data: seq<Byte>)
    requires |whole| % 64 + |data| < 64
    ensures Blocks(st, whole + data) == Blocks(st, whole)
    ensures Rest(whole + data) == Rest(whole) + data && |Rest(whole + data)| == |whole + data| % 64
  {
    var x := SplitAtRest(whole);
    hide Blocks, Rest;
    var y := Rest(whole);
    assert whole + data == x + (y + data);
    RestAfterBlocks(x, y + data);
    BlocksIgnoreRest(st, x, y);
    BlocksIgnoreRest(st, x, y + data);
  }

  lemma FillBlock(st: State, whole: seq<Byte>, data: seq<Byte>)
    requires |whole| % 64 + |data| == 64
    ensures Blocks(st, whole + data) == Blocks(Blocks(st, whole), Rest(whole) + data)
    ensures |whole + data| % 64 == 0
  {
    var x := SplitAtRest(whole);
    hide Blocks, Rest;
    var y := Rest(whole);
    assert whole + data == x + (y + data);
    BlocksIgnoreRest(st, x, y);
    BlocksConcat(st, x, y + data);
  }

  lemma WholeBlocks(st: State, whole: seq<Byte>, data: seq<Byte>)
    requires |whole| % 64 == 0 && |data| % 64 == 0
    ensures Blocks(st, whole + data) == Blocks(Blocks(st, whole), data)
    ensures |whole + data| % 64 == 0
  {
    hide Blocks;
    BlocksConcat(st, whole, data);
  }
}
