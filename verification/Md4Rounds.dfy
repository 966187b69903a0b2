/** The rounds of md4.c: rewritten boolean forms and unrolled steps over permuted registers. */
module Md4Rounds {
  import opened Words
  import opened Blocks
  import opened MdState
  import opened Rfc1320

  const AC1: word := 0x5a827999
  const AC2: word := 0x6ed9eba1

  function FMacro(x: word, y: word, z: word): word {
    z ^ (x & (y ^ z))
  }

  lemma FForm(x: word, y: word, z: word)
    ensures FMacro(x, y, z) == F(x, y, z)
  {
    assert z ^ (x & (y ^ z)) == (x & y) | (!x & z);
  }

  function GMacro(x: word, y: word, z: word): word {
    (x & (y | z)) | (y & z)
  }

  lemma GForm(x: word, y: word, z: word)
    ensures GMacro(x, y, z) == G(x, y, z)
  {
    assert (x & (y | z)) | (y & z) == (x & y) | (x & z) | (y & z);
  }

  function HMacro(x: word, y: word, z: word): word {
    x ^ y ^ z
  }

  /** The STEP macro, once f has been applied: x already holds the constant of the round. */
  method Finish(f: word, a: word, x: word, s: word, ghost w: word, ghost t: word) returns (r: word)
    requires 0 < s < 32 && x == Add(w, t)
    ensures r == Op(f, a, w, t, s)
  {
    AddAssoc(f, w, t);
    AddAssoc(a, Add(f, w), t);
    AddAssoc(a, f, w);
    r := Add(a, Add(f, x));
    r := RotL(r, s);
  }

  method StepF(a: word, b: word, c: word, d: word, x: seq<word>, k: nat, s: word, ghost i: nat)
    returns (r: word)
    requires |x| == 16 && 0 <= i < 16
    requires k == K(i) && s == S(i)
    ensures r == NewB(State(a, b, c, d), x, i)
  {
    FForm(b, c, d);
    assert x[k] == x[k] + 0;
    r := Finish(FMacro(b, c, d), a, x[k], s, x[k], T(i));
  }

  method StepG(a: word, b: word, c: word, d: word, x: seq<word>, k: nat, s: word, ghost i: nat)
    returns (r: word)
    requires |x| == 16 && 16 <= i < 32
    requires k == K(i) && s == S(i)
    ensures r == NewB(State(a, b, c, d), x, i)
  {
    GForm(b, c, d);
    r := Finish(GMacro(b, c, d), a, Add(x[k], AC1), s, x[k], T(i));
  }

  method StepH(a: word, b: word, c: word, d: word, x: seq<word>, k: nat, s: word, ghost i: nat)
    returns (r: word)
    requires |x| == 16 && 32 <= i < 48
    requires k == K(i) && s == S(i)
    ensures r == NewB(State(a, b, c, d), x, i)
  {
    r := Finish(HMacro(b, c, d), a, Add(x[k], AC2), s, x[k], T(i));
  }

  /** Four lines of the round that uses F: each register is assigned once. */
  method FourF(st: State, x: seq<word>, k0: nat, k1: nat, k2: nat, k3: nat, ghost i: nat, ghost start: State)
    returns (r: State)
    requires |x| == 16 && 0 <= i < 16 && i % 4 == 0 && st == Steps(start, x, i)
    requires k0 == K(i) && k1 == K(i + 1) && k2 == K(i + 2) && k3 == K(i + 3)
    ensures r == Steps(start, x, i + 4)
  {
    hide Steps, NewB, K, T;
    FourSteps(start, x, i);
    var a, b, c, d := st.a, st.b, st.c, st.d;
    a := StepF(a, b, c, d, x, k0, 3, i);
    d := StepF(d, a, b, c, x, k1, 7, i + 1);
    c := StepF(c, d, a, b, x, k2, 11, i + 2);
    b := StepF(b, c, d, a, x, k3, 19, i + 3);
    r := State(a, b, c, d);
  }

  /** Four lines of the round that uses G: each register is assigned once. */
  method FourG(st: State, x: seq<word>, k0: nat, k1: nat, k2: nat, k3: nat, ghost i: nat, ghost start: State)
    returns (r: State)
    requires |x| == 16 && 16 <= i < 32 && i % 4 == 0 && st == Steps(start, x, i)
    requires k0 == K(i) && k1 == K(i + 1) && k2 == K(i + 2) && k3 == K(i + 3)
    ensures r == Steps(start, x, i + 4)
  {
    hide Steps, NewB, K, T;
    FourSteps(start, x, i);
    var a, b, c, d := st.a, st.b, st.c, st.d;
    a := StepG(a, b, c, d, x, k0, 3, i);
    d := StepG(d, a, b, c, x, k1, 5, i + 1);
    c := StepG(c, d, a, b, x, k2, 9, i + 2);
    b := StepG(b, c, d, a, x, k3, 13, i + 3);
    r := State(a, b, c, d);
  }

  /** Four lines of the round that uses H: each register is assigned once. */
  method FourH(st: State, x: seq<word>, k0: nat, k1: nat, k2: nat, k3: nat, ghost i: nat, ghost start: State)
    returns (r: State)
    requires |x| == 16 && 32 <= i < 48 && i % 4 == 0 && st == Steps(start, x, i)
    requires k0 == K(i) && k1 == K(i + 1) && k2 == K(i + 2) && k3 == K(i + 3)
    ensures r == Steps(start, x, i + 4)
  {
    hide Steps, NewB, K, T;
    FourSteps(start, x, i);
    var a, b, c, d := st.a, st.b, st.c, st.d;
    a := StepH(a, b, c, d, x, k0, 3, i);
    d := StepH(d, a, b, c, x, k1, 9, i + 1);
    c := StepH(c, d, a, b, x, k2, 11, i + 2);
    b := StepH(b, c, d, a, x, k3, 15, i + 3);
    r := State(a, b, c, d);
  }

  lemma FourSteps(st: State, x: seq<word>, i: nat)
    requires |x| == 16
    ensures Steps(st, x, i + 4) ==
            Step(Step(Step(Step(Steps(st, x, i), x, i), x, i + 1), x, i + 2), x, i + 3)
  {
    hide Step;
    assert Steps(st, x, i + 2) == Step(Step(Steps(st, x, i), x, i), x, i + 1);
    assert Steps(st, x, i + 3) == Step(Steps(st, x, i + 2), x, i + 2);
  }

  method Round1(st: State, x: seq<word>, ghost start: State) returns (r: State)
    requires |x| == 16 && st == Steps(start, x, 0)
    ensures r == Steps(start, x, 16)
  {
    hide Steps;
    r := st;
    r := FourF(r, x, 0, 1, 2, 3, 0, start);
    r := FourF(r, x, 4, 5, 6, 7, 4, start);
    r := FourF(r, x, 8, 9, 10, 11, 8, start);
    r := FourF(r, x, 12, 13, 14, 15, 12, start);
  }

  method Round2(st: State, x: seq<word>, ghost start: State) returns (r: State)
    requires |x| == 16 && st == Steps(start, x, 16)
    ensures r == Steps(start, x, 32)
  {
    hide Steps;
    r := st;
    r := FourG(r, x, 0, 4, 8, 12, 16, start);
    r := FourG(r, x, 1, 5, 9, 13, 20, start);
    r := FourG(r, x, 2, 6, 10, 14, 24, start);
    r := FourG(r, x, 3, 7, 11, 15, 28, start);
  }

  method Round3(st: State, x: seq<word>, ghost start: State) returns (r: State)
    requires |x| == 16 && st == Steps(start, x, 32)
    ensures r == Steps(start, x, 48)
  {
    hide Steps;
    r := st;
    r := FourH(r, x, 0, 8, 4, 12, 32, start);
    r := FourH(r, x, 2, 10, 6, 14, 36, start);
    r := FourH(r, x, 1, 9, 5, 13, 40, start);
    r := FourH(r, x, 3, 11, 7, 15, 44, start);
  }

  /** The body of the block loop: the registers are saved, run through the rounds and added back. */
  method Transform(st: State, block: Block) returns (r: State)
    ensures r == Compress(st, block)
  {
    var x := WordsOf(block);
    r := Round1(st, x, st);
    r := Round2(r, x, st);
    r := Round3(r, x, st);
    r := State(Add(r.a, st.a), Add(r.b, st.b), Add(r.c, st.c), Add(r.d, st.d));
  }
}
