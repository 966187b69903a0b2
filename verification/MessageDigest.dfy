/** What MD4 and MD5 compute: sections 3.1 to 3.5 of RFC 1320 and RFC 1321. */
module MessageDigest {
  import opened Words
  import opened Blocks
  import opened MdState
  import Rfc1320
  import Rfc1321

  datatype Algorithm = MD4 | MD5

  function Compress(algorithm: Algorithm, st: State, block: Block): State {
    match algorithm
    case MD4 => Rfc1320.Compress(st, block)
    case MD5 => Rfc1321.Compress(st, block)
  }

  function Compressor(algorithm: Algorithm): (State, Block) -> State {
    (st, block: Block) => Compress(algorithm, st, block)
  }

  /** The bit length of a message of n bytes as eight bytes, least significant first, modulo 2^64. */
  function LengthBytes(n: nat): (r: seq<byte>)
    ensures |r| == 8
  {
    LeBytes(8 * n, 8)
  }

  function Pad(m: seq<byte>): (r: seq<byte>)
    ensures |r| % BLOCK_SIZE == 0
  {
    Padded(m, LengthBytes(|m|))
  }

  function Digest(algorithm: Algorithm, m: seq<byte>): (r: seq<byte>)
    ensures |r| == 16
  {
    Bytes(Fold(Compressor(algorithm), INITIAL, Pad(m)))
  }
}
