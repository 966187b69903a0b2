/** SHA-1 as sections 4.1.1, 4.2.1, 5.1.1, 5.3.1 and 6.1.2 of FIPS 180-4 give it: an 80-word
    schedule and 80 rounds that shift five registers. */
module Fips180 {
  import opened Words
  import opened Blocks

  datatype State = State(a: word, b: word, c: word, d: word, e: word)

  const INITIAL := State(0x67452301, 0xefcdab89, 0x98badcfe, 0x10325476, 0xc3d2e1f0)

  function Ch(x: word, y: word, z: word): word {
    (x & y) ^ (!x & z)
  }

  function Parity(x: word, y: word, z: word): word {
    x ^ y ^ z
  }

  function Maj(x: word, y: word, z: word): word {
    (x & y) ^ (x & z) ^ (y & z)
  }

  function F(t: nat, x: word, y: word, z: word): word {
    if t < 20 then Ch(x, y, z) else if t < 40 then Parity(x, y, z) else if t < 60 then Maj(x, y, z) else Parity(x, y, z)
  }

  function K(t: nat): word {
    if t < 20 then 0x5a827999 else if t < 40 then 0x6ed9eba1 else if t < 60 then 0x8f1bbcdc else 0xca62c1d6
  }

  function Expand(p: word, q: word, r: word, s: word): word {
    RotL(p ^ q ^ r ^ s, 1)
  }

  /** Word t of the message schedule of a block. */
  function W(m: Block, t: nat): word {
    if t < 16 then FromBigEndian(m[4 * t..4 * t + 4])
    else Expand(W(m, t - 3), W(m, t - 8), W(m, t - 14), W(m, t - 16))
  }

  /** ROTL^5(a) + f + e + k + w. */
  function Sum(a: word, f: word, e: word, k: word, w: word): word {
    Add(Add(Add(Add(RotL(a, 5), f), e), k), w)
  }

  function NewA(st: State, m: Block, t: nat): word {
    Sum(st.a, F(t, st.b, st.c, st.d), st.e, K(t), W(m, t))
  }

  function Round(st: State, m: Block, t: nat): State {
    State(NewA(st, m, t), st.a, RotL(st.b, 30), st.c, st.d)
  }

  /** The registers after the first n rounds. */
  function Rounds(st: State, m: Block, n: nat): State {
    if n == 0 then st else Round(Rounds(st, m, n - 1), m, n - 1)
  }

  function Plus(s: State, t: State): State {
    State(Add(s.a, t.a), Add(s.b, t.b), Add(s.c, t.c), Add(s.d, t.d), Add(s.e, t.e))
  }

  function Compress(st: State, m: Block): State {
    Plus(st, Rounds(st, m, 80))
  }

  function Compressor(): (State, Block) -> State {
    (st, m: Block) => Compress(st, m)
  }

  /** The bit length of a message of n bytes as eight bytes, most significant first, modulo 2^64. */
  function LengthBytes(n: nat): (r: seq<byte>)
    ensures |r| == 8
  {
    BeBytes(8 * n, 8)
  }

  function Pad(m: seq<byte>): (r: seq<byte>)
    ensures |r| % BLOCK_SIZE == 0
  {
    Padded(m, LengthBytes(|m|))
  }

  function Bytes(s: State): (r: seq<byte>)
    ensures |r| == 20
  {
    BigEndian(s.a) + BigEndian(s.b) + BigEndian(s.c) + BigEndian(s.d) + BigEndian(s.e)
  }

  function Digest(m: seq<byte>): (r: seq<byte>)
    ensures |r| == 20
  {
    Bytes(Fold(Compressor(), INITIAL, Pad(m)))
  }
}
