/** The compression function of RFC 1321, as its section 3.4 gives it: 64 steps, step i taking
    the word, the constant and the shift of row i of the tables. */
module Rfc1321 {
  import opened Words
  import opened Blocks
  import opened MdState

  function F(x: word, y: word, z: word): word {
    (x & y) | (!x & z)
  }

  function G(x: word, y: word, z: word): word {
    (x & z) | (y & !z)
  }

  function H(x: word, y: word, z: word): word {
    x ^ y ^ z
  }

  function I(x: word, y: word, z: word): word {
    y ^ (x | !z)
  }

  function Auxiliary(i: nat, x: word, y: word, z: word): word {
    if i < 16 then F(x, y, z) else if i < 32 then G(x, y, z) else if i < 48 then H(x, y, z) else I(x, y, z)
  }

  /** The word of the block that step i adds. */
  function K(i: nat): (k: nat)
    ensures k < 16
  {
    if i < 16 then i
    else if i < 32 then (5 * i + 1) % 16
    else if i < 48 then (3 * i + 5) % 16
    else 7 * i % 16
  }

  /** The shift of step i. */
  function S(i: nat): (s: word)
    ensures 0 < s < 32
  {
    var j := i % 4;
    if i < 16 then (if j == 0 then 7 else if j == 1 then 12 else if j == 2 then 17 else 22)
    else if i < 32 then (if j == 0 then 5 else if j == 1 then 9 else if j == 2 then 14 else 20)
    else if i < 48 then (if j == 0 then 4 else if j == 1 then 11 else if j == 2 then 16 else 23)
    else (if j == 0 then 6 else if j == 1 then 10 else if j == 2 then 15 else 21)
  }

  /** The integer part of 2^32 * |sin(i + 1)|, round by round. */
  function T(i: nat): word {
    if i < 16 then T1(i) else if i < 32 then T2(i - 16) else if i < 48 then T3(i - 32) else T4(i - 48)
  }

  function T1(j: nat): word {
    match j
    case 0 => 0xd76aa478 case 1 => 0xe8c7b756 case 2 => 0x242070db case 3 => 0xc1bdceee
    case 4 => 0xf57c0faf case 5 => 0x4787c62a case 6 => 0xa8304613 case 7 => 0xfd469501
    case 8 => 0x698098d8 case 9 => 0x8b44f7af case 10 => 0xffff5bb1 case 11 => 0x895cd7be
    case 12 => 0x6b901122 case 13 => 0xfd987193 case 14 => 0xa679438e case 15 => 0x49b40821
    case _ => 0
  }

  function T2(j: nat): word {
    match j
    case 0 => 0xf61e2562 case 1 => 0xc040b340 case 2 => 0x265e5a51 case 3 => 0xe9b6c7aa
    case 4 => 0xd62f105d case 5 => 0x02441453 case 6 => 0xd8a1e681 case 7 => 0xe7d3fbc8
    case 8 => 0x21e1cde6 case 9 => 0xc33707d6 case 10 => 0xf4d50d87 case 11 => 0x455a14ed
    case 12 => 0xa9e3e905 case 13 => 0xfcefa3f8 case 14 => 0x676f02d9 case 15 => 0x8d2a4c8a
    case _ => 0
  }

  function T3(j: nat): word {
    match j
    case 0 => 0xfffa3942 case 1 => 0x8771f681 case 2 => 0x6d9d6122 case 3 => 0xfde5380c
    case 4 => 0xa4beea44 case 5 => 0x4bdecfa9 case 6 => 0xf6bb4b60 case 7 => 0xbebfbc70
    case 8 => 0x289b7ec6 case 9 => 0xeaa127fa case 10 => 0xd4ef3085 case 11 => 0x04881d05
    case 12 => 0xd9d4d039 case 13 => 0xe6db99e5 case 14 => 0x1fa27cf8 case 15 => 0xc4ac5665
    case _ => 0
  }

  function T4(j: nat): word {
    match j
    case 0 => 0xf4292244 case 1 => 0x432aff97 case 2 => 0xab9423a7 case 3 => 0xfc93a039
    case 4 => 0x655b59c3 case 5 => 0x8f0ccc92 case 6 => 0xffeff47d case 7 => 0x85845dd1
    case 8 => 0x6fa87e4f case 9 => 0xfe2ce6e0 case 10 => 0xa3014314 case 11 => 0x4e0811a1
    case 12 => 0xf7537e82 case 13 => 0xbd3af235 case 14 => 0x2ad7d2bb case 15 => 0xeb86d391
    case _ => 0
  }

  /** b + ((a + f + x + t) <<< s). */
  function Op(f: word, a: word, b: word, x: word, t: word, s: word): word
    requires 0 < s < 32
  {
    Add(b, RotL(Add(Add(Add(a, f), x), t), s))
  }

  function NewB(st: State, x: seq<word>, i: nat): word
    requires |x| == 16
  {
    Op(Auxiliary(i, st.b, st.c, st.d), st.a, st.b, x[K(i)], T(i), S(i))
  }

  function Step(st: State, x: seq<word>, i: nat): State
    requires |x| == 16
  {
    State(st.d, NewB(st, x, i), st.b, st.c)
  }

  /** The registers after the first n steps. */
  function Steps(st: State, x: seq<word>, n: nat): State
    requires |x| == 16
  {
    if n == 0 then st else Step(Steps(st, x, n - 1), x, n - 1)
  }

  function Compress(st: State, block: Block): State {
    Plus(Steps(st, WordsOf(block), 64), st)
  }
}
