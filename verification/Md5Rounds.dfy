/**
 The four unrolled rounds of body in sip-proxy/src/md5.c: registers reassigned line by
 line, against the indexed operations of RFC 1321.
 */
module Md5Rounds {
  import opened Rfc1321
  import opened Md5Steps

  /** Step i reads word k, adds constant t and rotates by s. */
  predicate Scheduled(i: nat, k: nat, t: Word, s: Word)
    requires i < 64
  {
    WordIndex(i) == k && Sine(i) == t && ShiftAmount(i) == s
  }

  lemma FirstHalf1()
    ensures Scheduled(0, 0, 0xd76aa478, 7) && Scheduled(1, 1, 0xe8c7b756, 12)
    ensures Scheduled(2, 2, 0x242070db, 17) && Scheduled(3, 3, 0xc1bdceee, 22)
    ensures Scheduled(4, 4, 0xf57c0faf, 7) && Scheduled(5, 5, 0x4787c62a, 12)
    ensures Scheduled(6, 6, 0xa8304613, 17) && Scheduled(7, 7, 0xfd469501, 22)
  {
  }

  lemma SecondHalf1()
    ensures Scheduled(8, 8, 0x698098d8, 7) && Scheduled(9, 9, 0x8b44f7af, 12)
    ensures Scheduled(10, 10, 0xffff5bb1, 17) && Scheduled(11, 11, 0x895cd7be, 22)
    ensures Scheduled(12, 12, 0x6b901122, 7) && Scheduled(13, 13, 0xfd987193, 12)
    ensures Scheduled(14, 14, 0xa679438e, 17) && Scheduled(15, 15, 0x49b40821, 22)
  {
  }

  lemma Schedule1()
    ensures Scheduled(0, 0, 0xd76aa478, 7) && Scheduled(1, 1, 0xe8c7b756, 12)
    ensures Scheduled(2, 2, 0x242070db, 17) && Scheduled(3, 3, 0xc1bdceee, 22)
    ensures Scheduled(4, 4, 0xf57c0faf, 7) && Scheduled(5, 5, 0x4787c62a, 12)
    ensures Scheduled(6, 6, 0xa8304613, 17) && Scheduled(7, 7, 0xfd469501, 22)
    ensures Scheduled(8, 8, 0x698098d8, 7) && Scheduled(9, 9, 0x8b44f7af, 12)
    ensures Scheduled(10, 10, 0xffff5bb1, 17) && Scheduled(11, 11, 0x895cd7be, 22)
    ensures Scheduled(12, 12, 0x6b901122, 7) && Scheduled(13, 13, 0xfd987193, 12)
    ensures Scheduled(14, 14, 0xa679438e, 17) && Scheduled(15, 15, 0x49b40821, 22)
  {
    FirstHalf1();
    SecondHalf1();
    hide Scheduled;
  }

  /** Round 1 of body: x[n] is what GET(n) yields. */
  method Round1(st: State, x: seq<Word>, ghost start: State) returns (r: State)
    requires |x| == 16 && st == Operations(0, start, x)
    ensures r == Operations(16, start, x)
  {
    hide Step, Operation, Operations, WordIndex, Sine, ShiftAmount;
    Schedule1();
    var a, b, c, d := st.a, st.b, st.c, st.d;
    ghost var p := st;
    a := Step(MF, a, b, c, d, x[0], 0xd76aa478, 7);
    d := Step(MF, d, a, b, c, x[1], 0xe8c7b756, 12);
    c := Step(MF, c, d, a, b, x[2], 0x242070db, 17);
    b := Step(MF, b, c, d, a, x[3], 0xc1bdceee, 22);
    FourSteps(0, start, x, p, MF, MF);
    p := State(a, b, c, d);
    a := Step(MF, a, b, c, d, x[4], 0xf57c0faf, 7);
    d := Step(MF, d, a, b, c, x[5], 0x4787c62a, 12);
    c := Step(MF, c, d, a, b, x[6], 0xa8304613, 17);
    b := Step(MF, b, c, d, a, x[7], 0xfd469501, 22);
    FourSteps(4, start, x, p, MF, MF);
    p := State(a, b, c, d);
    a := Step(MF, a, b, c, d, x[8], 0x698098d8, 7);
    d := Step(MF, d, a, b, c, x[9], 0x8b44f7af, 12);
    c := Step(MF, c, d, a, b, x[10], 0xffff5bb1, 17);
    b := Step(MF, b, c, d, a, x[11], 0x895cd7be, 22);
    FourSteps(8, start, x, p, MF, MF);
    p := State(a, b, c, d);
    a := Step(MF, a, b, c, d, x[12], 0x6b901122, 7);
    d := Step(MF, d, a, b, c, x[13], 0xfd987193, 12);
    c := Step(MF, c, d, a, b, x[14], 0xa679438e, 17);
    b := Step(MF, b, c, d, a, x[15], 0x49b40821, 22);
    FourSteps(12, start, x, p, MF, MF);
    r := State(a, b, c, d);
  }

  lemma FirstHalf2()
    ensures Scheduled(16, 1, 0xf61e2562, 5) && Scheduled(17, 6, 0xc040b340, 9)
    ensures Scheduled(18, 11, 0x265e5a51, 14) && Scheduled(19, 0, 0xe9b6c7aa, 20)
    ensures Scheduled(20, 5, 0xd62f105d, 5) && Scheduled(21, 10, 0x02441453, 9)
    ensures Scheduled(22, 15, 0xd8a1e681, 14) && Scheduled(23, 4, 0xe7d3fbc8, 20)
  {
  }

  lemma SecondHalf2()
    ensures Scheduled(24, 9, 0x21e1cde6, 5) && Scheduled(25, 14, 0xc33707d6, 9)
    ensures Scheduled(26, 3, 0xf4d50d87, 14) && Scheduled(27, 8, 0x455a14ed, 20)
    ensures Scheduled(28, 13, 0xa9e3e905, 5) && Scheduled(29, 2, 0xfcefa3f8, 9)
    ensures Scheduled(30, 7, 0x676f02d9, 14) && Scheduled(31, 12, 0x8d2a4c8a, 20)
  {
  }

  lemma Schedule2()
    ensures Scheduled(16, 1, 0xf61e2562, 5) && Scheduled(17, 6, 0xc040b340, 9)
    ensures Scheduled(18, 11, 0x265e5a51, 14) && Scheduled(19, 0, 0xe9b6c7aa, 20)
    ensures Scheduled(20, 5, 0xd62f105d, 5) && Scheduled(21, 10, 0x02441453, 9)
    ensures Scheduled(22, 15, 0xd8a1e681, 14) && Scheduled(23, 4, 0xe7d3fbc8, 20)
    ensures Scheduled(24, 9, 0x21e1cde6, 5) && Scheduled(25, 14, 0xc33707d6, 9)
    ensures Scheduled(26, 3, 0xf4d50d87, 14) && Scheduled(27, 8, 0x455a14ed, 20)
    ensures Scheduled(28, 13, 0xa9e3e905, 5) && Scheduled(29, 2, 0xfcefa3f8, 9)
    ensures Scheduled(30, 7, 0x676f02d9, 14) && Scheduled(31, 12, 0x8d2a4c8a, 20)
  {
    FirstHalf2();
    SecondHalf2();
    hide Scheduled;
  }

  /** Round 2 of body: x[n] is what GET(n) yields. */
  method Round2(st: State, x: seq<Word>, ghost start: State) returns (r: State)
    requires |x| == 16 && st == Operations(16, start, x)
    ensures r == Operations(32, start, x)
  {
    hide Step, Operation, Operations, WordIndex, Sine, ShiftAmount;
    Schedule2();
    var a, b, c, d := st.a, st.b, st.c, st.d;
    ghost var p := st;
    a := Step(MG, a, b, c, d, x[1], 0xf61e2562, 5);
    d := Step(MG, d, a, b, c, x[6], 0xc040b340, 9);
    c := Step(MG, c, d, a, b, x[11], 0x265e5a51, 14);
    b := Step(MG, b, c, d, a, x[0], 0xe9b6c7aa, 20);
    FourSteps(16, start, x, p, MG, MG);
    p := State(a, b, c, d);
    a := Step(MG, a, b, c, d, x[5], 0xd62f105d, 5);
    d := Step(MG, d, a, b, c, x[10], 0x02441453, 9);
    c := Step(MG, c, d, a, b, x[15], 0xd8a1e681, 14);
    b := Step(MG, b, c, d, a, x[4], 0xe7d3fbc8, 20);
    FourSteps(20, start, x, p, MG, MG);
    p := State(a, b, c, d);
    a := Step(MG, a, b, c, d, x[9], 0x21e1cde6, 5);
    d := Step(MG, d, a, b, c, x[14], 0xc33707d6, 9);
    c := Step(MG, c, d, a, b, x[3], 0xf4d50d87, 14);
    b := Step(MG, b, c, d, a, x[8], 0x455a14ed, 20);
    FourSteps(24, start, x, p, MG, MG);
    p := State(a, b, c, d);
    a := Step(MG, a, b, c, d, x[13], 0xa9e3e905, 5);
    d := Step(MG, d, a, b, c, x[2], 0xfcefa3f8, 9);
    c := Step(MG, c, d, a, b, x[7], 0x676f02d9, 14);
    b := Step(MG, b, c, d, a, x[12], 0x8d2a4c8a, 20);
    FourSteps(28, start, x, p, MG, MG);
    r := State(a, b, c, d);
  }

  lemma FirstHalf3()
    ensures Scheduled(32, 5, 0xfffa3942, 4) && Scheduled(33, 8, 0x8771f681, 11)
    ensures Scheduled(34, 11, 0x6d9d6122, 16) && Scheduled(35, 14, 0xfde5380c, 23)
    ensures Scheduled(36, 1, 0xa4beea44, 4) && Scheduled(37, 4, 0x4bdecfa9, 11)
    ensures Scheduled(38, 7, 0xf6bb4b60, 16) && Scheduled(39, 10, 0xbebfbc70, 23)
  {
  }

  lemma SecondHalf3()
    ensures Scheduled(40, 13, 0x289b7ec6, 4) && Scheduled(41, 0, 0xeaa127fa, 11)
    ensures Scheduled(42, 3, 0xd4ef3085, 16) && Scheduled(43, 6, 0x04881d05, 23)
    ensures Scheduled(44, 9, 0xd9d4d039, 4) && Scheduled(45, 12, 0xe6db99e5, 11)
    ensures Scheduled(46, 15, 0x1fa27cf8, 16) && Scheduled(47, 2, 0xc4ac5665, 23)
  {
  }

  lemma Schedule3()
    ensures Scheduled(32, 5, 0xfffa3942, 4) && Scheduled(33, 8, 0x8771f681, 11)
    ensures Scheduled(34, 11, 0x6d9d6122, 16) && Scheduled(35, 14, 0xfde5380c, 23)
    ensures Scheduled(36, 1, 0xa4beea44, 4) && Scheduled(37, 4, 0x4bdecfa9, 11)
    ensures Scheduled(38, 7, 0xf6bb4b60, 16) && Scheduled(39, 10, 0xbebfbc70, 23)
    ensures Scheduled(40, 13, 0x289b7ec6, 4) && Scheduled(41, 0, 0xeaa127fa, 11)
    ensures Scheduled(42, 3, 0xd4ef3085, 16) && Scheduled(43, 6, 0x04881d05, 23)
    ensures Scheduled(44, 9, 0xd9d4d039, 4) && Scheduled(45, 12, 0xe6db99e5, 11)
    ensures Scheduled(46, 15, 0x1fa27cf8, 16) && Scheduled(47, 2, 0xc4ac5665, 23)
  {
    FirstHalf3();
    SecondHalf3();
    hide Scheduled;
  }

  /** Round 3 of body: x[n] is what GET(n) yields. */
  method Round3(st: State, x: seq<Word>, ghost start: State) returns (r: State)
    requires |x| == 16 && st == Operations(32, start, x)
    ensures r == Operations(48, start, x)
  {
    hide Step, Operation, Operations, WordIndex, Sine, ShiftAmount;
    Schedule3();
    var a, b, c, d := st.a, st.b, st.c, st.d;
    ghost var p := st;
    a := Step(MH, a, b, c, d, x[5], 0xfffa3942, 4);
    d := Step(MH2, d, a, b, c, x[8], 0x8771f681, 11);
    c := Step(MH, c, d, a, b, x[11], 0x6d9d6122, 16);
    b := Step(MH2, b, c, d, a, x[14], 0xfde5380c, 23);
    FourSteps(32, start, x, p, MH, MH2);
    p := State(a, b, c, d);
    a := Step(MH, a, b, c, d, x[1], 0xa4beea44, 4);
    d := Step(MH2, d, a, b, c, x[4], 0x4bdecfa9, 11);
    c := Step(MH, c, d, a, b, x[7], 0xf6bb4b60, 16);
    b := Step(MH2, b, c, d, a, x[10], 0xbebfbc70, 23);
    FourSteps(36, start, x, p, MH, MH2);
    p := State(a, b, c, d);
    a := Step(MH, a, b, c, d, x[13], 0x289b7ec6, 4);
    d := Step(MH2, d, a, b, c, x[0], 0xeaa127fa, 11);
    c := Step(MH, c, d, a, b, x[3], 0xd4ef3085, 16);
    b := Step(MH2, b, c, d, a, x[6], 0x04881d05, 23);
    FourSteps(40, start, x, p, MH, MH2);
    p := State(a, b, c, d);
    a := Step(MH, a, b, c, d, x[9], 0xd9d4d039, 4);
    d := Step(MH2, d, a, b, c, x[12], 0xe6db99e5, 11);
    c := Step(MH, c, d, a, b, x[15], 0x1fa27cf8, 16);
    b := Step(MH2, b, c, d, a, x[2], 0xc4ac5665, 23);
    FourSteps(44, start, x, p, MH, MH2);
    r := State(a, b, c, d);
  }

  lemma FirstHalf4()
    ensures Scheduled(48, 0, 0xf4292244, 6) && Scheduled(49, 7, 0x432aff97, 10)
    ensures Scheduled(50, 14, 0xab9423a7, 15) && Scheduled(51, 5, 0xfc93a039, 21)
    ensures Scheduled(52, 12, 0x655b59c3, 6) && Scheduled(53, 3, 0x8f0ccc92, 10)
    ensures Scheduled(54, 10, 0xffeff47d, 15) && Scheduled(55, 1, 0x85845dd1, 21)
  {
  }

  lemma SecondHalf4()
    ensures Scheduled(56, 8, 0x6fa87e4f, 6) && Scheduled(57, 15, 0xfe2ce6e0, 10)
    ensures Scheduled(58, 6, 0xa3014314, 15) && Scheduled(59, 13, 0x4e0811a1, 21)
    ensures Scheduled(60, 4, 0xf7537e82, 6) && Scheduled(61, 11, 0xbd3af235, 10)
    ensures Scheduled(62, 2, 0x2ad7d2bb, 15) && Scheduled(63, 9, 0xeb86d391, 21)
  {
  }

  lemma Schedule4()
    ensures Scheduled(48, 0, 0xf4292244, 6) && Scheduled(49, 7, 0x432aff97, 10)
    ensures Scheduled(50, 14, 0xab9423a7, 15) && Scheduled(51, 5, 0xfc93a039, 21)
    ensures Scheduled(52, 12, 0x655b59c3, 6) && Scheduled(53, 3, 0x8f0ccc92, 10)
    ensures Scheduled(54, 10, 0xffeff47d, 15) && Scheduled(55, 1, 0x85845dd1, 21)
    ensures Scheduled(56, 8, 0x6fa87e4f, 6) && Scheduled(57, 15, 0xfe2ce6e0, 10)
    ensures Scheduled(58, 6, 0xa3014314, 15) && Scheduled(59, 13, 0x4e0811a1, 21)
    ensures Scheduled(60, 4, 0xf7537e82, 6) && Scheduled(61, 11, 0xbd3af235, 10)
    ensures Scheduled(62, 2, 0x2ad7d2bb, 15) && Scheduled(63, 9, 0xeb86d391, 21)
  {
    FirstHalf4();
    SecondHalf4();
    hide Scheduled;
  }

  /** Round 4 of body: x[n] is what GET(n) yields. */
  method Round4(st: State, x: seq<Word>, ghost start: State) returns (r: State)
    requires |x| == 16 && st == Operations(48, start, x)
    ensures r == Operations(64, start, x)
  {
    hide Step, Operation, Operations, WordIndex, Sine, ShiftAmount;
    Schedule4();
    var a, b, c, d := st.a, st.b, st.c, st.d;
    ghost var p := st;
    a := Step(MI, a, b, c, d, x[0], 0xf4292244, 6);
    d := Step(MI, d, a, b, c, x[7], 0x432aff97, 10);
    c := Step(MI, c, d, a, b, x[14], 0xab9423a7, 15);
    b := Step(MI, b, c, d, a, x[5], 0xfc93a039, 21);
    FourSteps(48, start, x, p, MI, MI);
    p := State(a, b, c, d);
    a := Step(MI, a, b, c, d, x[12], 0x655b59c3, 6);
    d := Step(MI, d, a, b, c, x[3], 0x8f0ccc92, 10);
    c := Step(MI, c, d, a, b, x[10], 0xffeff47d, 15);
    b := Step(MI, b, c, d, a, x[1], 0x85845dd1, 21);
    FourSteps(52, start, x, p, MI, MI);
    p := State(a, b, c, d);
    a := Step(MI, a, b, c, d, x[8], 0x6fa87e4f, 6);
    d := Step(MI, d, a, b, c, x[15], 0xfe2ce6e0, 10);
    c := Step(MI, c, d, a, b, x[6], 0xa3014314, 15);
    b := Step(MI, b, c, d, a, x[13], 0x4e0811a1, 21);
    FourSteps(56, start, x, p, MI, MI);
    p := State(a, b, c, d);
    a := Step(MI, a, b, c, d, x[4], 0xf7537e82, 6);
    d := Step(MI, d, a, b, c, x[11], 0xbd3af235, 10);
    c := Step(MI, c, d, a, b, x[2], 0x2ad7d2bb, 15);
    b := Step(MI, b, c, d, a, x[9], 0xeb86d391, 21);
    FourSteps(60, start, x, p, MI, MI);
    r := State(a, b, c, d);
  }
}
