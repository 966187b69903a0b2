/** The rounds of md5.c: rewritten boolean forms and unrolled steps over permuted registers. */
module Md5Rounds {
  import opened Words
  import opened Blocks
  import opened MdState
  import opened Rfc1321

  function FMacro(x: word, y: word, z: word): word {
    z ^ (x & (y ^ z))
  }

  lemma FForm(x: word, y: word, z: word)
    ensures FMacro(x, y, z) == F(x, y, z)
  {
    assert z ^ (x & (y ^ z)) == (x & y) | (!x & z);
  }

  function GMacro(x: word, y: word, z: word): word {
    y ^ (z & (x ^ y))
  }

  lemma GForm(x: word, y: word, z: word)
    ensures GMacro(x, y, z) == G(x, y, z)
  {
    assert y ^ (z & (x ^ y)) == (x & z) | (y & !z);
  }

  function HMacro(x: word, y: word, z: word): word {
    (x ^ y) ^ z
  }

  lemma HForm(x: word, y: word, z: word)
    ensures HMacro(x, y, z) == H(x, y, z)
  {
    assert (x ^ y) ^ z == x ^ y ^ z;
  }

  function H2Macro(x: word, y: word, z: word): word {
    x ^ (y ^ z)
  }

  lemma H2Form(x: word, y: word, z: word)
    ensures H2Macro(x, y, z) == H(x, y, z)
  {
    assert x ^ (y ^ z) == x ^ y ^ z;
  }

  function IMacro(x: word, y: word, z: word): word {
    y ^ (x | !z)
  }

  /** The last three assignments of the STEP macro, once f has been applied. */
  method Finish(f: word, a: word, b: word, x: word, t: word, s: word) returns (r: word)
    requires 0 < s < 32
    ensures r == Op(f, a, b, x, t, s)
  {
    AddAssoc(a, Add(f, x), t);
    AddAssoc(a, f, x);
    r := Add(a, Add(Add(f, x), t));
    r := RotL(r, s);
    AddComm(r, b);
    r := Add(r, b);
  }

  method StepF(a: word, b: word, c: word, d: word, x: seq<word>, k: nat, t: word, s: word, ghost i: nat)
    returns (r: word)
    requires |x| == 16 && 0 <= i < 16
    requires k == K(i) && t == T(i) && s == S(i)
    ensures r == NewB(State(a, b, c, d), x, i)
  {
    FForm(b, c, d);
    r := Finish(FMacro(b, c, d), a, b, x[k], t, s);
  }

  method StepG(a: word, b: word, c: word, d: word, x: seq<word>, k: nat, t: word, s: word, ghost i: nat)
    returns (r: word)
    requires |x| == 16 && 16 <= i < 32
    requires k == K(i) && t == T(i) && s == S(i)
    ensures r == NewB(State(a, b, c, d), x, i)
  {
    GForm(b, c, d);
    r := Finish(GMacro(b, c, d), a, b, x[k], t, s);
  }

  method StepH(a: word, b: word, c: word, d: word, x: seq<word>, k: nat, t: word, s: word, ghost i: nat)
    returns (r: word)
    requires |x| == 16 && 32 <= i < 48
    requires k == K(i) && t == T(i) && s == S(i)
    ensures r == NewB(State(a, b, c, d), x, i)
  {
    HForm(b, c, d);
    r := Finish(HMacro(b, c, d), a, b, x[k], t, s);
  }

  method StepH2(a: word, b: word, c: word, d: word, x: seq<word>, k: nat, t: word, s: word, ghost i: nat)
    returns (r: word)
    requires |x| == 16 && 32 <= i < 48
    requires k == K(i) && t == T(i) && s == S(i)
    ensures r == NewB(State(a, b, c, d), x, i)
  {
    H2Form(b, c, d);
    r := Finish(H2Macro(b, c, d), a, b, x[k], t, s);
  }

  method StepI(a: word, b: word, c: word, d: word, x: seq<word>, k: nat, t: word, s: word, ghost i: nat)
    returns (r: word)
    requires |x| == 16 && 48 <= i < 64
    requires k == K(i) && t == T(i) && s == S(i)
    ensures r == NewB(State(a, b, c, d), x, i)
  {
    r := Finish(IMacro(b, c, d), a, b, x[k], t, s);
  }

  /** Four lines of the round that uses F: each register is assigned once. */
  method FourF(st: State, x: seq<word>, k0: nat, t0: word, k1: nat, t1: word, k2: nat, t2: word, k3: nat, t3: word,
    ghost i: nat, ghost start: State) returns (r: State)
    requires |x| == 16 && 0 <= i < 16 && i % 4 == 0 && st == Steps(start, x, i)
    requires k0 == K(i) && k1 == K(i + 1) && k2 == K(i + 2) && k3 == K(i + 3)
    requires t0 == T(i) && t1 == T(i + 1) && t2 == T(i + 2) && t3 == T(i + 3)
    ensures r == Steps(start, x, i + 4)
  {
    hide Steps, NewB, K, T;
    FourSteps(start, x, i);
    var a, b, c, d := st.a, st.b, st.c, st.d;
    a := StepF(a, b, c, d, x, k0, t0, 7, i);
    d := StepF(d, a, b, c, x, k1, t1, 12, i + 1);
    c := StepF(c, d, a, b, x, k2, t2, 17, i + 2);
    b := StepF(b, c, d, a, x, k3, t3, 22, i + 3);
    r := State(a, b, c, d);
  }

  /** Four lines of the round that uses G: each register is assigned once. */
  method FourG(st: State, x: seq<word>, k0: nat, t0: word, k1: nat, t1: word, k2: nat, t2: word, k3: nat, t3: word,
    ghost i: nat, ghost start: State) returns (r: State)
    requires |x| == 16 && 16 <= i < 32 && i % 4 == 0 && st == Steps(start, x, i)
    requires k0 == K(i) && k1 == K(i + 1) && k2 == K(i + 2) && k3 == K(i + 3)
    requires t0 == T(i) && t1 == T(i + 1) && t2 == T(i + 2) && t3 == T(i + 3)
    ensures r == Steps(start, x, i + 4)
  {
    hide Steps, NewB, K, T;
    FourSteps(start, x, i);
    var a, b, c, d := st.a, st.b, st.c, st.d;
    a := StepG(a, b, c, d, x, k0, t0, 5, i);
    d := StepG(d, a, b, c, x, k1, t1, 9, i + 1);
    c := StepG(c, d, a, b, x, k2, t2, 14, i + 2);
    b := StepG(b, c, d, a, x, k3, t3, 20, i + 3);
    r := State(a, b, c, d);
  }

  /** Four lines of the round that uses H: each register is assigned once. */
  method FourH(st: State, x: seq<word>, k0: nat, t0: word, k1: nat, t1: word, k2: nat, t2: word, k3: nat, t3: word,
    ghost i: nat, ghost start: State) returns (r: State)
    requires |x| == 16 && 32 <= i < 48 && i % 4 == 0 && st == Steps(start, x, i)
    requires k0 == K(i) && k1 == K(i + 1) && k2 == K(i + 2) && k3 == K(i + 3)
    requires t0 == T(i) && t1 == T(i + 1) && t2 == T(i + 2) && t3 == T(i + 3)
    ensures r == Steps(start, x, i + 4)
  {
    hide Steps, NewB, K, T;
    FourSteps(start, x, i);
    var a, b, c, d := st.a, st.b, st.c, st.d;
    a := StepH(a, b, c, d, x, k0, t0, 4, i);
    d := StepH2(d, a, b, c, x, k1, t1, 11, i + 1);
    c := StepH(c, d, a, b, x, k2, t2, 16, i + 2);
    b := StepH2(b, c, d, a, x, k3, t3, 23, i + 3);
    r := State(a, b, c, d);
  }

  /** Four lines of the round that uses I: each register is assigned once. */
  method FourI(st: State, x: seq<word>, k0: nat, t0: word, k1: nat, t1: word, k2: nat, t2: word, k3: nat, t3: word,
    ghost i: nat, ghost start: State) returns (r: State)
    requires |x| == 16 && 48 <= i < 64 && i % 4 == 0 && st == Steps(start, x, i)
    requires k0 == K(i) && k1 == K(i + 1) && k2 == K(i + 2) && k3 == K(i + 3)
    requires t0 == T(i) && t1 == T(i + 1) && t2 == T(i + 2) && t3 == T(i + 3)
    ensures r == Steps(start, x, i + 4)
  {
    hide Steps, NewB, K, T;
    FourSteps(start, x, i);
    var a, b, c, d := st.a, st.b, st.c, st.d;
    a := StepI(a, b, c, d, x, k0, t0, 6, i);
    d := StepI(d, a, b, c, x, k1, t1, 10, i + 1);
    c := StepI(c, d, a, b, x, k2, t2, 15, i + 2);
    b := StepI(b, c, d, a, x, k3, t3, 21, i + 3);
    r := State(a, b, c, d);
  }

  lemma FourSteps(st: State, x: seq<word>, i: nat)
    requires |x| == 16
    ensures Steps(st, x, i + 4) ==
            Step(Step(Step(Step(Steps(st, x, i), x, i), x, i + 1), x, i + 2), x, i + 3)
  {
    hide Step;
    assert Steps(st, x, i + 2) == Step(Step(Steps(st, x, i), x, i), x, i + 1);
    assert Steps(st, x, i + 3) == Step(Steps(st, x, i + 2), x, i + 2);
  }

  method Round1(st: State, x: seq<word>, ghost start: State) returns (r: State)
    requires |x| == 16 && st == Steps(start, x, 0)
    ensures r == Steps(start, x, 16)
  {
    hide Steps;
    r := st;
    r := FourF(r, x, 0, 0xd76aa478, 1, 0xe8c7b756, 2, 0x242070db, 3, 0xc1bdceee, 0, start);
    r := FourF(r, x, 4, 0xf57c0faf, 5, 0x4787c62a, 6, 0xa8304613, 7, 0xfd469501, 4, start);
    r := FourF(r, x, 8, 0x698098d8, 9, 0x8b44f7af, 10, 0xffff5bb1, 11, 0x895cd7be, 8, start);
    r := FourF(r, x, 12, 0x6b901122, 13, 0xfd987193, 14, 0xa679438e, 15, 0x49b40821, 12, start);
  }

  method Round2(st: State, x: seq<word>, ghost start: State) returns (r: State)
    requires |x| == 16 && st == Steps(start, x, 16)
    ensures r == Steps(start, x, 32)
  {
    hide Steps;
    r := st;
    r := FourG(r, x, 1, 0xf61e2562, 6, 0xc040b340, 11, 0x265e5a51, 0, 0xe9b6c7aa, 16, start);
    r := FourG(r, x, 5, 0xd62f105d, 10, 0x02441453, 15, 0xd8a1e681, 4, 0xe7d3fbc8, 20, start);
    r := FourG(r, x, 9, 0x21e1cde6, 14, 0xc33707d6, 3, 0xf4d50d87, 8, 0x455a14ed, 24, start);
    r := FourG(r, x, 13, 0xa9e3e905, 2, 0xfcefa3f8, 7, 0x676f02d9, 12, 0x8d2a4c8a, 28, start);
  }

  method Round3(st: State, x: seq<word>, ghost start: State) returns (r: State)
    requires |x| == 16 && st == Steps(start, x, 32)
    ensures r == Steps(start, x, 48)
  {
    hide Steps;
    r := st;
    r := FourH(r, x, 5, 0xfffa3942, 8, 0x8771f681, 11, 0x6d9d6122, 14, 0xfde5380c, 32, start);
    r := FourH(r, x, 1, 0xa4beea44, 4, 0x4bdecfa9, 7, 0xf6bb4b60, 10, 0xbebfbc70, 36, start);
    r := FourH(r, x, 13, 0x289b7ec6, 0, 0xeaa127fa, 3, 0xd4ef3085, 6, 0x04881d05, 40, start);
    r := FourH(r, x, 9, 0xd9d4d039, 12, 0xe6db99e5, 15, 0x1fa27cf8, 2, 0xc4ac5665, 44, start);
  }

  method Round4(st: State, x: seq<word>, ghost start: State) returns (r: State)
    requires |x| == 16 && st == Steps(start, x, 48)
    ensures r == Steps(start, x, 64)
  {
    hide Steps;
    r := st;
    r := FourI(r, x, 0, 0xf4292244, 7, 0x432aff97, 14, 0xab9423a7, 5, 0xfc93a039, 48, start);
    r := FourI(r, x, 12, 0x655b59c3, 3, 0x8f0ccc92, 10, 0xffeff47d, 1, 0x85845dd1, 52, start);
    r := FourI(r, x, 8, 0x6fa87e4f, 15, 0xfe2ce6e0, 6, 0xa3014314, 13, 0x4e0811a1, 56, start);
    r := FourI(r, x, 4, 0xf7537e82, 11, 0xbd3af235, 2, 0x2ad7d2bb, 9, 0xeb86d391, 60, start);
  }

  /** The body of the block loop: the registers are saved, run through the rounds and added back. */
  method Transform(st: State, block: Block) returns (r: State)
    ensures r == Compress(st, block)
  {
    var x := WordsOf(block);
    r := Round1(st, x, st);
    r := Round2(r, x, st);
    r := Round3(r, x, st);
    r := Round4(r, x, st);
    r := State(Add(r.a, st.a), Add(r.b, st.b), Add(r.c, st.c), Add(r.d, st.d));
  }
}
