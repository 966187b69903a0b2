/** The compression function of RFC 1320, as its section 3.4 gives it: 48 steps. */
module Rfc1320 {
  import opened Words
  import opened Blocks
  import opened MdState

  function F(x: word, y: word, z: word): word {
    (x & y) | (!x & z)
  }

  function G(x: word, y: word, z: word): word {
    (x & y) | (x & z) | (y & z)
  }

  function H(x: word, y: word, z: word): word {
    x ^ y ^ z
  }

  function Auxiliary(i: nat, x: word, y: word, z: word): word {
    if i < 16 then F(x, y, z) else if i < 32 then G(x, y, z) else H(x, y, z)
  }

  /** The word of the block that step i adds: in order, then by columns, then by reversed bits. */
  function K(i: nat): (k: nat)
    ensures k < 16
  {
    if i < 16 then i else if i < 32 then 4 * (i % 4) + (i - 16) / 4 else Reversed(i - 32)
  }

  /** A number below 16 with its four bits in reverse. */
  function Reversed(j: nat): (k: nat)
    ensures k < 16
  {
    match j
    case 0 => 0 case 1 => 8 case 2 => 4 case 3 => 12 case 4 => 2 case 5 => 10 case 6 => 6 case 7 => 14
    case 8 => 1 case 9 => 9 case 10 => 5 case 11 => 13 case 12 => 3 case 13 => 11 case 14 => 7 case 15 => 15
    case _ => 0
  }

  function S(i: nat): (s: word)
    ensures 0 < s < 32
  {
    var j := i % 4;
    if j == 0 then 3
    else if i < 16 then (if j == 1 then 7 else if j == 2 then 11 else 19)
    else if i < 32 then (if j == 1 then 5 else if j == 2 then 9 else 13)
    else (if j == 1 then 9 else if j == 2 then 11 else 15)
  }

  function T(i: nat): word {
    if i < 16 then 0 else if i < 32 then 0x5a827999 else 0x6ed9eba1
  }

  /** (a + f + x + t) <<< s. */
  function Op(f: word, a: word, x: word, t: word, s: word): word
    requires 0 < s < 32
  {
    RotL(Add(Add(Add(a, f), x), t), s)
  }

  function NewB(st: State, x: seq<word>, i: nat): word
    requires |x| == 16
  {
    Op(Auxiliary(i, st.b, st.c, st.d), st.a, x[K(i)], T(i), S(i))
  }

  function Step(st: State, x: seq<word>, i: nat): State
    requires |x| == 16
  {
    State(st.d, NewB(st, x, i), st.b, st.c)
  }

  /** The registers after the first n steps. */
  function Steps(st: State, x: seq<word>, n: nat): State
    requires |x| == 16
  {
    if n == 0 then st else Step(Steps(st, x, n - 1), x, n - 1)
  }

  function Compress(st: State, block: Block): State {
    Plus(Steps(st, WordsOf(block), 48), st)
  }
}
