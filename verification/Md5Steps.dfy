/**
 The step macros of sip-proxy/src/md5.c and why one STEP is one operation of RFC 1321.
 The file rewrites F and G without AND-NOT, associates the additions differently and
 uses two spellings of H.
 */
module Md5Steps {
  import opened Rfc1321

  /** The function names a STEP line may carry. */
  datatype Macro = MF | MG | MH | MH2 | MI

  function Mix(f: Macro, x: Word, y: Word, z: Word): Word {
    match f
    case MF => z ^ (x & (y ^ z))
    case MG => y ^ (z & (x ^ y))
    case MH => (x ^ y) ^ z
    case MH2 => x ^ (y ^ z)
    case MI => y ^ (x | !z)
  }

  /** The rotation STEP writes out; the mask matters only for words wider than 32 bits. */
  function Turn(x: Word, s: Word): Word
    requires 0 < s < 32
  {
    (x << s) | ((x & 0xffffffff) >> (32 - s))
  }

  /** a += f(b, c, d) + x + t. */
  function Increment(a: Word, m: Word, x: Word, t: Word): Word { a + (m + x + t) }

  /** STEP(f, a, b, c, d, x, t, s): the value it leaves in its register a. */
  function Step(f: Macro, a: Word, b: Word, c: Word, d: Word, x: Word, t: Word, s: Word): Word
    requires 0 < s < 32
  {
    Plus(Turn(Increment(a, Mix(f, b, c, d), x, t), s), b)
  }

  /** Macro f belongs to the round that operation i is in. */
  predicate InRound(f: Macro, i: nat) {
    if i < 16 then f == MF else if i < 32 then f == MG else if i < 48 then f == MH || f == MH2 else f == MI
  }

  lemma WithoutAndNotF(x: Word, y: Word, z: Word)
    ensures z ^ (x & (y ^ z)) == (x & y) | (!x & z)
  {
  }

  lemma WithoutAndNotG(x: Word, y: Word, z: Word)
    ensures y ^ (z & (x ^ y)) == (x & z) | (y & !z)
  {
  }

  lemma MixOfF(x: Word, y: Word, z: Word)
    ensures Mix(MF, x, y, z) == F(x, y, z)
  {
    WithoutAndNotF(x, y, z);
  }

  lemma MixOfG(x: Word, y: Word, z: Word)
    ensures Mix(MG, x, y, z) == G(x, y, z)
  {
    WithoutAndNotG(x, y, z);
  }

  lemma MixOfHAndI(x: Word, y: Word, z: Word)
    ensures Mix(MH, x, y, z) == Mix(MH2, x, y, z) == H(x, y, z)
    ensures Mix(MI, x, y, z) == I(x, y, z)
  {
  }

  /** The rewritten F and G and both spellings of H are the functions of the standard. */
  lemma MixIsAuxiliary(f: Macro, i: nat, x: Word, y: Word, z: Word)
    requires InRound(f, i)
    ensures Mix(f, x, y, z) == Auxiliary(i, x, y, z)
  {
    hide Mix, F, G, H, I;
    MixOfF(x, y, z);
    MixOfG(x, y, z);
    MixOfHAndI(x, y, z);
  }

  lemma PlusCommutes(x: Word, y: Word)
    ensures Plus(x, y) == Plus(y, x)
  {
  }

  lemma IncrementIsStepSum(a: Word, m: Word, x: Word, t: Word)
    ensures Increment(a, m, x, t) == StepSum(a, m, x, t)
  {
  }

  lemma TurnIsRotateLeft(x: Word, s: Word)
    requires 0 < s < 32
    ensures Turn(x, s) == RotateLeft(x, s)
  {
    assert x & 0xffffffff == x;
  }

  /** The additions of STEP, in the order of the standard. */
  lemma StepIsRotated(f: Macro, a: Word, b: Word, c: Word, d: Word, x: Word, t: Word, s: Word)
    requires 0 < s < 32
    ensures Step(f, a, b, c, d, x, t, s) == Rotated(a, b, Mix(f, b, c, d), x, t, s)
  {
    hide Plus, Turn, RotateLeft, Mix, Increment, StepSum;
    var m := Mix(f, b, c, d);
    IncrementIsStepSum(a, m, x, t);
    var sum := StepSum(a, m, x, t);
    TurnIsRotateLeft(sum, s);
    PlusCommutes(Turn(sum, s), b);
  }

  /** One STEP computes the new word of operation i. */
  lemma StepIsOperation(f: Macro, i: nat, st: State, x: seq<Word>)
    requires i < 64 && |x| == 16 && InRound(f, i)
    ensures Operation(i, st, x)
         == State(st.d, Step(f, st.a, st.b, st.c, st.d, x[WordIndex(i)], Sine(i), ShiftAmount(i)), st.b, st.c)
  {
    hide Mix, Auxiliary, Step, Rotated, Sine, ShiftAmount, WordIndex, InRound;
    MixIsAuxiliary(f, i, st.b, st.c, st.d);
    StepIsRotated(f, st.a, st.b, st.c, st.d, x[WordIndex(i)], Sine(i), ShiftAmount(i));
  }

  /** Four STEP lines bring the names back to their own places. */
  lemma FourSteps(i: nat, start: State, x: seq<Word>, p: State, f: Macro, f': Macro)
    requires i + 4 <= 64 && |x| == 16 && p == Operations(i, start, x)
    requires forall j | i <= j < i + 4 :: InRound(f, j) && InRound(f', j)
    ensures var a := Step(f, p.a, p.b, p.c, p.d, x[WordIndex(i)], Sine(i), ShiftAmount(i));
            var d := Step(f', p.d, a, p.b, p.c, x[WordIndex(i + 1)], Sine(i + 1), ShiftAmount(i + 1));
            var c := Step(f, p.c, d, a, p.b, x[WordIndex(i + 2)], Sine(i + 2), ShiftAmount(i + 2));
            var b := Step(f', p.b, c, d, a, x[WordIndex(i + 3)], Sine(i + 3), ShiftAmount(i + 3));
            Operations(i + 4, start, x) == State(a, b, c, d)
  {
    hide Step, Sine, ShiftAmount, WordIndex, InRound, Operation;
    var p1 := Operation(i, p, x);
    var p2 := Operation(i + 1, p1, x);
    var p3 := Operation(i + 2, p2, x);
    StepIsOperation(f, i, p, x);
    StepIsOperation(f', i + 1, p1, x);
    StepIsOperation(f, i + 2, p2, x);
    StepIsOperation(f', i + 3, p3, x);
    assert Operations(i + 1, start, x) == p1;
    assert Operations(i + 2, start, x) == p2;
    assert Operations(i + 3, start, x) == p3;
  }

  /** SET(n) of the portable build, shifts and ORs, reads the same word. */
  lemma SetIsWordOf(b0: Byte, b1: Byte, b2: Byte, b3: Byte)
    ensures (b0 as Word) | ((b1 as Word) << 8) | ((b2 as Word) << 16) | ((b3 as Word) << 24) == WordOf(b0, b1, b2, b3)
  {
  }
}
