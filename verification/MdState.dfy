/** The four chaining registers that MD4 and MD5 share, and a block read as little-endian words. */
module MdState {
  import opened Words
  import opened Blocks

  datatype State = State(a: word, b: word, c: word, d: word)

  const INITIAL := State(0x67452301, 0xefcdab89, 0x98badcfe, 0x10325476)

  function Plus(s: State, t: State): State {
    State(Add(s.a, t.a), Add(s.b, t.b), Add(s.c, t.c), Add(s.d, t.d))
  }

  function WordsOf(block: Block): (x: seq<word>)
    ensures |x| == 16
  {
    seq(16, i requires 0 <= i < 16 => FromLittleEndian(block[4 * i..4 * i + 4]))
  }

  function Bytes(s: State): (r: seq<byte>)
    ensures |r| == 16
  {
    LittleEndian(s.a) + LittleEndian(s.b) + LittleEndian(s.c) + LittleEndian(s.d)
  }
}
