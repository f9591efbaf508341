/**
 Known answers: what the digest of RFC 1321 is on inputs of its appendix A.5, computed from the
 specification operation by operation.
 */
module Md5Vectors {
  import opened Rfc1321
  import opened Md5Steps
  import opened Md5Rounds

  /** The MD buffer starts with the bytes that section 3.3 lists, low-order first. */
  lemma InitialBytes()
    ensures Output(INITIAL)
         == [0x01, 0x23, 0x45, 0x67, 0x89, 0xab, 0xcd, 0xef, 0xfe, 0xdc, 0xba, 0x98, 0x76, 0x54, 0x32, 0x10]
  {
  }

  lemma NoOperations(x: seq<Word>)
    requires |x| == 16
    ensures Operations(0, INITIAL, x) == INITIAL
  {
  }

  /** One block, and the state its operations end in. */
  lemma OneBlock(message: seq<Byte>, end: State, sum: State)
    requires |Pad(message)| == 64 && Operations(64, INITIAL, BlockWords(Pad(message))) == end
    requires sum == Sum(end, INITIAL)
    ensures Md5(message) == Output(sum)
  {
    hide BlockWords, Operations, Pad, Sum, Output;
    BlockAlone(Pad(message));
  }

  lemma BlockAlone(data: seq<Byte>)
    requires |data| == 64
    ensures Blocks(INITIAL, data) == Compress(INITIAL, BlockWords(data))
  {
    hide BlockWords, Compress;
    assert data[..64] == data && data[64..] == [];
    var end := Compress(INITIAL, BlockWords(data));
    assert Blocks(end, []) == end;
  }

  lemma {:induction false} NoLength(n: nat)
    ensures LittleEndian(0, n) == Zeros(n)
  {
    if n > 0 {
      NoLength(n - 1);
      assert LowByte(0) == 0;
    }
  }

  lemma SevenZeros()
    ensures Zeros(7) == [0, 0, 0, 0, 0, 0, 0]
  {
  }

  /** Padding put together. */
  lemma PadOf(message: seq<Byte>, zeros: nat, length: seq<Byte>)
    requires PaddingZeros(|message|) == zeros && LittleEndian(8 * |message| % TWO_64, 8) == length
    ensures Pad(message) == message + [0x80] + Zeros(zeros) + length
  {
    hide Zeros, LittleEndian, PaddingZeros;
  }

  lemma ShortLength(bits: nat)
    requires bits < 0x100
    ensures LittleEndian(bits, 8) == [LowByte(bits)] + Zeros(7)
  {
    NoLength(7);
    hide LowByte;
    assert bits / 0x100 == 0;
  }

  // ---------- The empty message ----------

  predicate IsEmptyBlock(x: seq<Word>) {
    |x| == 16 && x[0] == 0x80 && forall k | 1 <= k < 16 :: x[k] == 0
  }

  lemma EmptyRound1(x: seq<Word>)
    requires IsEmptyBlock(x)
    ensures Operations(16, INITIAL, x) == State(0xf56c7cf1, 0xd6819c6a, 0x5aa53f75, 0x374943a7)
  {
    NoOperations(x);
    Schedule1();
    hide Operation, Operations, WordIndex, Sine, ShiftAmount;
    FourSteps(0, INITIAL, x, INITIAL, MF, MF);
    assert Operations(4, INITIAL, x) == State(0xa5202774, 0x1b163203, 0xe7f06b23, 0xf59592dd);
    FourSteps(4, INITIAL, x, State(0xa5202774, 0x1b163203, 0xe7f06b23, 0xf59592dd), MF, MF);
    assert Operations(8, INITIAL, x) == State(0x32033344, 0x9bc13ce9, 0xf5b158db, 0x2f35d494);
    FourSteps(8, INITIAL, x, State(0x32033344, 0x9bc13ce9, 0xf5b158db, 0x2f35d494), MF, MF);
    assert Operations(12, INITIAL, x) == State(0x3893b991, 0x70768a29, 0xe1ef0576, 0xfce4a312);
    FourSteps(12, INITIAL, x, State(0x3893b991, 0x70768a29, 0xe1ef0576, 0xfce4a312), MF, MF);
  }

  lemma EmptyRound2(x: seq<Word>)
    requires IsEmptyBlock(x)
    requires Operations(16, INITIAL, x) == State(0xf56c7cf1, 0xd6819c6a, 0x5aa53f75, 0x374943a7)
    ensures Operations(32, INITIAL, x) == State(0x13707036, 0xa2205f1f, 0x1c31c384, 0xae7813db)
  {
    Schedule2();
    hide Operation, Operations, WordIndex, Sine, ShiftAmount;
    FourSteps(16, INITIAL, x, State(0xf56c7cf1, 0xd6819c6a, 0x5aa53f75, 0x374943a7), MG, MG);
    assert Operations(20, INITIAL, x) == State(0x1c7d7513, 0xbd782e17, 0xc095f13a, 0x7bd57a3a);
    FourSteps(20, INITIAL, x, State(0x1c7d7513, 0xbd782e17, 0xc095f13a, 0x7bd57a3a), MG, MG);
    assert Operations(24, INITIAL, x) == State(0x3d1e3e6c, 0xe422531a, 0xeb41643e, 0x68b7b3e3);
    FourSteps(24, INITIAL, x, State(0x3d1e3e6c, 0xe422531a, 0xeb41643e, 0x68b7b3e3), MG, MG);
    assert Operations(28, INITIAL, x) == State(0x306ec122, 0xa0572807, 0xa3c663da, 0xd28c77c2);
    FourSteps(28, INITIAL, x, State(0x306ec122, 0xa0572807, 0xa3c663da, 0xd28c77c2), MG, MG);
  }

  lemma EmptyRound3(x: seq<Word>)
    requires IsEmptyBlock(x)
    requires Operations(32, INITIAL, x) == State(0x13707036, 0xa2205f1f, 0x1c31c384, 0xae7813db)
    ensures Operations(48, INITIAL, x) == State(0x3f55edfd, 0xca7d2dbd, 0x68d84ea2, 0x22a31f54)
  {
    Schedule3();
    hide Operation, Operations, WordIndex, Sine, ShiftAmount;
    FourSteps(32, INITIAL, x, State(0x13707036, 0xa2205f1f, 0x1c31c384, 0xae7813db), MH, MH2);
    assert Operations(36, INITIAL, x) == State(0xdf63eaa1, 0x004b6669, 0x12f3e755, 0xc3689f5b);
    FourSteps(36, INITIAL, x, State(0xdf63eaa1, 0x004b6669, 0x12f3e755, 0xc3689f5b), MH, MH2);
    assert Operations(40, INITIAL, x) == State(0x5f7a9b2e, 0xc5dc8c15, 0x91ca4cb7, 0xabc34e16);
    FourSteps(40, INITIAL, x, State(0x5f7a9b2e, 0xc5dc8c15, 0x91ca4cb7, 0xabc34e16), MH, MH2);
    assert Operations(44, INITIAL, x) == State(0x4497169d, 0x0fe32453, 0xfd95f243, 0x76fd93d4);
    FourSteps(44, INITIAL, x, State(0x4497169d, 0x0fe32453, 0xfd95f243, 0x76fd93d4), MH, MH2);
  }

  lemma EmptyRound4(x: seq<Word>)
    requires IsEmptyBlock(x)
    requires Operations(48, INITIAL, x) == State(0x3f55edfd, 0xca7d2dbd, 0x68d84ea2, 0x22a31f54)
    ensures Operations(64, INITIAL, x) == State(0x7246fad3, 0x14e45506, 0xff4ea3eb, 0x6e10a476)
  {
    Schedule4();
    hide Operation, Operations, WordIndex, Sine, ShiftAmount;
    FourSteps(48, INITIAL, x, State(0x3f55edfd, 0xca7d2dbd, 0x68d84ea2, 0x22a31f54), MI, MI);
    assert Operations(52, INITIAL, x) == State(0x93aa2577, 0x561e0689, 0xcd85b8cb, 0x1688dc85);
    FourSteps(52, INITIAL, x, State(0x93aa2577, 0x561e0689, 0xcd85b8cb, 0x1688dc85), MI, MI);
    assert Operations(56, INITIAL, x) == State(0x5625a114, 0x1e77fa61, 0x392ad0d0, 0x3450f42b);
    FourSteps(56, INITIAL, x, State(0x5625a114, 0x1e77fa61, 0x392ad0d0, 0x3450f42b), MI, MI);
    assert Operations(60, INITIAL, x) == State(0x474a9c8c, 0x30130182, 0x36594b14, 0xdfce00bc);
    FourSteps(60, INITIAL, x, State(0x474a9c8c, 0x30130182, 0x36594b14, 0xdfce00bc), MI, MI);
  }

  lemma EmptyLength()
    ensures PaddingZeros(0) == 55
    ensures LittleEndian(8 * 0 % TWO_64, 8) == [0x00, 0, 0, 0, 0, 0, 0, 0]
  {
    hide LittleEndian, LowByte, Zeros;
    ShortLength(0);
    SevenZeros();
    EmptyBits();
  }

  lemma EmptyBits()
    ensures LowByte(0) == 0x00
  {
  }

  lemma EmptyWords()
    ensures WordOf(0x80, 0, 0, 0) == 0x80 && WordOf(0, 0, 0, 0) == 0
  {
  }

  lemma EmptyPadded()
    ensures |Pad([])| == 64 && IsEmptyBlock(BlockWords(Pad([])))
  {
    hide *;
    EmptyLength();
    PadOf([], 55, [0x00, 0, 0, 0, 0, 0, 0, 0]);
    ShortEmpty(Pad([]));
  }

  lemma ShortEmpty(p: seq<Byte>)
    requires p == [] + [0x80] + Zeros(55) + [0x00, 0, 0, 0, 0, 0, 0, 0]
    ensures |p| == 64 && IsEmptyBlock(BlockWords(p))
  {
    hide WordOf;
    forall k | 1 <= k < 56 ensures p[k] == 0 {
      assert p[k] == Zeros(55)[k - 1];
    }
    EmptyWords();
  }

  /** MD5 ("") = d41d8cd98f00b204e9800998ecf8427e */
  lemma Md5OfEmpty()
    ensures Md5([])
         == [0xd4, 0x1d, 0x8c, 0xd9, 0x8f, 0x00, 0xb2, 0x04,
          0xe9, 0x80, 0x09, 0x98, 0xec, 0xf8, 0x42, 0x7e]
  {
    hide *;
    EmptyPadded();
    var x := BlockWords(Pad([]));
    EmptyRound1(x);
    EmptyRound2(x);
    EmptyRound3(x);
    EmptyRound4(x);
    EmptyDigest();
    OneBlock([], State(0x7246fad3, 0x14e45506, 0xff4ea3eb, 0x6e10a476),
             State(0xd98c1dd4, 0x04b2008f, 0x980980e9, 0x7e42f8ec));
  }

  lemma EmptyDigest()
    ensures Sum(State(0x7246fad3, 0x14e45506, 0xff4ea3eb, 0x6e10a476), INITIAL)
         == State(0xd98c1dd4, 0x04b2008f, 0x980980e9, 0x7e42f8ec)
    ensures Output(State(0xd98c1dd4, 0x04b2008f, 0x980980e9, 0x7e42f8ec))
         == [0xd4, 0x1d, 0x8c, 0xd9, 0x8f, 0x00, 0xb2, 0x04,
          0xe9, 0x80, 0x09, 0x98, 0xec, 0xf8, 0x42, 0x7e]
  {
  }

  // ---------- "abc" ----------

  predicate IsAbcBlock(x: seq<Word>) {
    |x| == 16 && x[0] == 0x80636261 && x[14] == 0x18 && forall k | 1 <= k < 16 && k != 14 :: x[k] == 0
  }

  lemma AbcRound1(x: seq<Word>)
    requires IsAbcBlock(x)
    ensures Operations(16, INITIAL, x) == State(0xdda9b9a6, 0x72aff2e0, 0xe396856b, 0xa1051895)
  {
    NoOperations(x);
    Schedule1();
    hide Operation, Operations, WordIndex, Sine, ShiftAmount;
    FourSteps(0, INITIAL, x, INITIAL, MF, MF);
    assert Operations(4, INITIAL, x) == State(0xd6d117b4, 0x7ad956f2, 0x2f6fbd72, 0x344a8432);
    FourSteps(4, INITIAL, x, State(0xd6d117b4, 0x7ad956f2, 0x2f6fbd72, 0x344a8432), MF, MF);
    assert Operations(8, INITIAL, x) == State(0xc73741ef, 0x928d99f6, 0x207dc67b, 0x8bac3051);
    FourSteps(8, INITIAL, x, State(0xc73741ef, 0x928d99f6, 0x207dc67b, 0x8bac3051), MF, MF);
    assert Operations(12, INITIAL, x) == State(0x854b3712, 0x5ed49596, 0x3020401c, 0x74e2f284);
    FourSteps(12, INITIAL, x, State(0x854b3712, 0x5ed49596, 0x3020401c, 0x74e2f284), MF, MF);
  }

  lemma AbcRound2(x: seq<Word>)
    requires IsAbcBlock(x)
    requires Operations(16, INITIAL, x) == State(0xdda9b9a6, 0x72aff2e0, 0xe396856b, 0xa1051895)
    ensures Operations(32, INITIAL, x) == State(0x790a77fb, 0x726342d3, 0xa62884aa, 0x9f47e4f8)
  {
    Schedule2();
    hide Operation, Operations, WordIndex, Sine, ShiftAmount;
    FourSteps(16, INITIAL, x, State(0xdda9b9a6, 0x72aff2e0, 0xe396856b, 0xa1051895), MG, MG);
    assert Operations(20, INITIAL, x) == State(0x3e9e9126, 0xb5b204e4, 0xe25e1652, 0x4a1d804e);
    FourSteps(20, INITIAL, x, State(0x3e9e9126, 0xb5b204e4, 0xe25e1652, 0x4a1d804e), MG, MG);
    assert Operations(24, INITIAL, x) == State(0x59a8ffda, 0x47092c07, 0xabfc7920, 0x6d002f1e);
    FourSteps(24, INITIAL, x, State(0x59a8ffda, 0x47092c07, 0xabfc7920, 0x6d002f1e), MG, MG);
    assert Operations(28, INITIAL, x) == State(0xb7f268cf, 0x786acb8f, 0xfe1623b1, 0x09388eff);
    FourSteps(28, INITIAL, x, State(0xb7f268cf, 0x786acb8f, 0xfe1623b1, 0x09388eff), MG, MG);
  }

  lemma AbcRound3(x: seq<Word>)
    requires IsAbcBlock(x)
    requires Operations(32, INITIAL, x) == State(0x790a77fb, 0x726342d3, 0xa62884aa, 0x9f47e4f8)
    ensures Operations(48, INITIAL, x) == State(0x7f2e507b, 0x7beb9700, 0x8fae6399, 0x99d9679d)
  {
    Schedule3();
    hide Operation, Operations, WordIndex, Sine, ShiftAmount;
    FourSteps(32, INITIAL, x, State(0x790a77fb, 0x726342d3, 0xa62884aa, 0x9f47e4f8), MH, MH2);
    assert Operations(36, INITIAL, x) == State(0xb3707ebf, 0x3b0875c7, 0x8d212ff5, 0x60127b2e);
    FourSteps(36, INITIAL, x, State(0xb3707ebf, 0x3b0875c7, 0x8d212ff5, 0x60127b2e), MH, MH2);
    assert Operations(40, INITIAL, x) == State(0x21b117b9, 0x5a2f5ea5, 0x3575227e, 0x6e7429d5);
    FourSteps(40, INITIAL, x, State(0x21b117b9, 0x5a2f5ea5, 0x3575227e, 0x6e7429d5), MH, MH2);
    assert Operations(44, INITIAL, x) == State(0x11de1779, 0x4c6124f4, 0x31c465ca, 0xfadcaa38);
    FourSteps(44, INITIAL, x, State(0x11de1779, 0x4c6124f4, 0x31c465ca, 0xfadcaa38), MH, MH2);
  }

  lemma AbcRound4(x: seq<Word>)
    requires IsAbcBlock(x)
    requires Operations(48, INITIAL, x) == State(0x7f2e507b, 0x7beb9700, 0x8fae6399, 0x99d9679d)
    ensures Operations(64, INITIAL, x) == State(0x310ade8f, 0xc08226b3, 0xe484b9d8, 0x624d8cb2)
  {
    Schedule4();
    hide Operation, Operations, WordIndex, Sine, ShiftAmount;
    FourSteps(48, INITIAL, x, State(0x7f2e507b, 0x7beb9700, 0x8fae6399, 0x99d9679d), MI, MI);
    assert Operations(52, INITIAL, x) == State(0x7b201df8, 0x8bf025c4, 0xb298cefd, 0xf4e8e96e);
    FourSteps(52, INITIAL, x, State(0x7b201df8, 0x8bf025c4, 0xb298cefd, 0xf4e8e96e), MI, MI);
    assert Operations(56, INITIAL, x) == State(0x06cc5e8a, 0x3bfa2c27, 0x7d632dd0, 0x5b0d97aa);
    FourSteps(56, INITIAL, x, State(0x06cc5e8a, 0x3bfa2c27, 0x7d632dd0, 0x5b0d97aa), MI, MI);
    assert Operations(60, INITIAL, x) == State(0x7f81cc35, 0x7327d604, 0x4f9dbe3f, 0x094454ab);
    FourSteps(60, INITIAL, x, State(0x7f81cc35, 0x7327d604, 0x4f9dbe3f, 0x094454ab), MI, MI);
  }

  lemma AbcLength()
    ensures PaddingZeros(3) == 52
    ensures LittleEndian(8 * 3 % TWO_64, 8) == [0x18, 0, 0, 0, 0, 0, 0, 0]
  {
    hide LittleEndian, LowByte, Zeros;
    ShortLength(24);
    SevenZeros();
    AbcBits();
  }

  lemma AbcBits()
    ensures LowByte(24) == 0x18
  {
  }

  lemma AbcWords()
    ensures WordOf(0x61, 0x62, 0x63, 0x80) == 0x80636261 && WordOf(0x18, 0, 0, 0) == 0x18 && WordOf(0, 0, 0, 0) == 0
  {
  }

  lemma AbcPadded()
    ensures |Pad([0x61, 0x62, 0x63])| == 64 && IsAbcBlock(BlockWords(Pad([0x61, 0x62, 0x63])))
  {
    hide *;
    AbcLength();
    PadOf([0x61, 0x62, 0x63], 52, [0x18, 0, 0, 0, 0, 0, 0, 0]);
    ShortAbc(Pad([0x61, 0x62, 0x63]));
  }

  lemma ShortAbc(p: seq<Byte>)
    requires p == [0x61, 0x62, 0x63] + [0x80] + Zeros(52) + [0x18, 0, 0, 0, 0, 0, 0, 0]
    ensures |p| == 64 && IsAbcBlock(BlockWords(p))
  {
    hide WordOf;
    forall k | 4 <= k < 56 ensures p[k] == 0 {
      assert p[k] == Zeros(52)[k - 4];
    }
    AbcWords();
  }

  /** MD5 ("abc") = 900150983cd24fb0d6963f7d28e17f72 */
  lemma Md5OfAbc()
    ensures Md5([0x61, 0x62, 0x63])
         == [0x90, 0x01, 0x50, 0x98, 0x3c, 0xd2, 0x4f, 0xb0,
          0xd6, 0x96, 0x3f, 0x7d, 0x28, 0xe1, 0x7f, 0x72]
  {
    hide *;
    AbcPadded();
    var x := BlockWords(Pad([0x61, 0x62, 0x63]));
    AbcRound1(x);
    AbcRound2(x);
    AbcRound3(x);
    AbcRound4(x);
    AbcDigest();
    OneBlock([0x61, 0x62, 0x63], State(0x310ade8f, 0xc08226b3, 0xe484b9d8, 0x624d8cb2),
             State(0x98500190, 0xb04fd23c, 0x7d3f96d6, 0x727fe128));
  }

  lemma AbcDigest()
    ensures Sum(State(0x310ade8f, 0xc08226b3, 0xe484b9d8, 0x624d8cb2), INITIAL)
         == State(0x98500190, 0xb04fd23c, 0x7d3f96d6, 0x727fe128)
    ensures Output(State(0x98500190, 0xb04fd23c, 0x7d3f96d6, 0x727fe128))
         == [0x90, 0x01, 0x50, 0x98, 0x3c, 0xd2, 0x4f, 0xb0,
          0xd6, 0x96, 0x3f, 0x7d, 0x28, 0xe1, 0x7f, 0x72]
  {
  }
}
