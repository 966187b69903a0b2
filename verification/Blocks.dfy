/** What the three hash functions share: messages cut into 64-byte blocks, a compression
    function folded over the blocks, and the padding that completes the last block. */
module Blocks {
  import opened Words

  const BLOCK_SIZE := 64

  type Block = b: seq<byte> | |b| == BLOCK_SIZE witness seq(BLOCK_SIZE, _ => 0)

  /** The chaining value after all blocks of m, starting from s. */
  function Fold<S>(compress: (S, Block) -> S, s: S, m: seq<byte>): S
    requires |m| % BLOCK_SIZE == 0
  {
    if m == [] then s
    else compress(Fold(compress, s, m[..|m| - BLOCK_SIZE]), m[|m| - BLOCK_SIZE..])
  }

  lemma {:induction false} FoldConcat<S>(compress: (S, Block) -> S, s: S, m: seq<byte>, n: seq<byte>)
    requires |m| % BLOCK_SIZE == 0 && |n| % BLOCK_SIZE == 0
    ensures Fold(compress, s, m + n) == Fold(compress, Fold(compress, s, m), n)
    decreases |n|
  {
    if n == [] {
      assert m + n == m;
    } else {
      var front, last := n[..|n| - BLOCK_SIZE], n[|n| - BLOCK_SIZE..];
      assert (m + n)[..|m + n| - BLOCK_SIZE] == m + front;
      assert (m + n)[|m + n| - BLOCK_SIZE..] == last;
      FoldConcat(compress, s, m, front);
    }
  }

  lemma FoldSnoc<S>(compress: (S, Block) -> S, s: S, m: seq<byte>, b: Block)
    requires |m| % BLOCK_SIZE == 0
    ensures Fold(compress, s, m + b) == compress(Fold(compress, s, m), b)
  {
    assert (m + b)[..|m + b| - BLOCK_SIZE] == m && (m + b)[|m + b| - BLOCK_SIZE..] == b;
  }

  /** The longest prefix of m that consists of full blocks. */
  function Full(m: seq<byte>): (r: seq<byte>)
    ensures |r| % BLOCK_SIZE == 0
    ensures r + Tail(m) == m
  {
    m[..|m| - |m| % BLOCK_SIZE]
  }

  /** What is left of m after its full blocks. */
  function Tail(m: seq<byte>): (r: seq<byte>)
    ensures |r| == |m| % BLOCK_SIZE
  {
    m[|m| - |m| % BLOCK_SIZE..]
  }

  /** A message is its full blocks followed by its tail in one way only. */
  lemma SplitUnique(full: seq<byte>, tail: seq<byte>)
    requires |full| % BLOCK_SIZE == 0 && |tail| < BLOCK_SIZE
    ensures Full(full + tail) == full && Tail(full + tail) == tail
  {
    assert |full + tail| % BLOCK_SIZE == |tail|;
  }

  /** Adding data to a message whose tail does not yet fill a block. */
  lemma TailGrows(m: seq<byte>, data: seq<byte>)
    requires |Tail(m)| + |data| < BLOCK_SIZE
    ensures Full(m + data) == Full(m) && Tail(m + data) == Tail(m) + data
  {
    assert m + data == Full(m) + (Tail(m) + data);
    SplitUnique(Full(m), Tail(m) + data);
  }

  /** Adding data that completes the tail to whole blocks. */
  lemma TailCloses(m: seq<byte>, data: seq<byte>)
    requires (|Tail(m)| + |data|) % BLOCK_SIZE == 0
    ensures Full(m + data) == Full(m) + (Tail(m) + data) && Tail(m + data) == []
  {
    assert m + data == Full(m) + (Tail(m) + data) + [];
    SplitUnique(Full(m) + (Tail(m) + data), []);
  }

  /** The 29-bit byte counter and its carry, for a count of n bytes to which size bytes are added. */
  lemma CounterStep(n: nat, size: nat)
    ensures (n % TWO_29 + size) % TWO_29 == (n + size) % TWO_29
    ensures var carry := if (n % TWO_29 + size) % TWO_29 < n % TWO_29 then 1 else 0;
            (n / TWO_29 % TWO_32 + carry + size / TWO_29) % TWO_32 == (n + size) / TWO_29 % TWO_32
  {
    var q, r := size / TWO_29, size % TWO_29;
    var p, s := n / TWO_29, n % TWO_29;
    assert n + size == (p + q) * TWO_29 + (s + r);
    if s + r < TWO_29 {
      assert (n + size) / TWO_29 == p + q && (n + size) % TWO_29 == s + r;
      assert (s + size) % TWO_29 == s + r;
    } else {
      assert n + size == (p + q + 1) * TWO_29 + (s + r - TWO_29);
      assert (n + size) / TWO_29 == p + q + 1 && (n + size) % TWO_29 == s + r - TWO_29;
      assert (s + size) % TWO_29 == s + r - TWO_29;
    }
  }

  function Zeros(n: nat): (r: seq<byte>)
    ensures |r| == n
  {
    seq(n, _ => 0)
  }

  /** The least number of zero bytes that takes a message of n bytes and the byte 0x80 to eight
      bytes before the end of a block. */
  function ZeroCount(n: nat): (k: nat)
    ensures (n + 1 + k) % BLOCK_SIZE == 56
    ensures k < BLOCK_SIZE
  {
    (119 - n % BLOCK_SIZE) % BLOCK_SIZE
  }

  /** The padded message, given the eight bytes that encode its length. */
  function Padded(m: seq<byte>, length: seq<byte>): (r: seq<byte>)
    requires |length| == 8
    ensures |r| % BLOCK_SIZE == 0
  {
    m + [0x80] + Zeros(ZeroCount(|m|)) + length
  }

  /** The message that its pieces make up. */
  function Concat(pieces: seq<seq<byte>>): seq<byte> {
    if pieces == [] then [] else Concat(pieces[..|pieces| - 1]) + pieces[|pieces| - 1]
  }

  /** memcpy into a buffer. */
  method Copy(buffer: array<byte>, at: nat, data: seq<byte>)
    requires at + |data| <= buffer.Length
    modifies buffer
    ensures buffer[..] == old(buffer[..at]) + data + old(buffer[at + |data|..])
  {
    forall i | 0 <= i < |data| {
      buffer[at + i] := data[i];
    }
  }
}
