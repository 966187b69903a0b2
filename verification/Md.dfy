/** The streaming contexts of md4.c and md5.c. The two files differ in the body of the block loop
    only, so one class holds both and chooses the body by its algorithm. */
module Md {
  import opened Words
  import opened Blocks
  import opened MdState
  import opened MessageDigest
  import Md4Rounds
  import Md5Rounds

  class Context {
    const algorithm: Algorithm
    var lo: nat
    var hi: nat
    var a: word
    var b: word
    var c: word
    var d: word
    const buffer: array<byte>
    /** The concatenation of everything passed to Update. */
    ghost var message: seq<byte>

    function Registers(): State
      reads this
    {
      State(a, b, c, d)
    }

    /** The buffer and the registers stand for m: its tail waits, its full blocks are compressed. */
    ghost predicate Holds(m: seq<byte>)
      reads this, buffer
    {
      && buffer.Length == BLOCK_SIZE
      && buffer[..|Tail(m)|] == Tail(m)
      && Registers() == Fold(Compressor(algorithm), INITIAL, Full(m))
    }

    ghost predicate Valid()
      reads this, buffer
    {
      && lo == |message| % TWO_29
      && hi == |message| / TWO_29 % TWO_32
      && Holds(message)
    }

    constructor (algorithm: Algorithm)
      ensures Valid() && this.algorithm == algorithm && message == [] && fresh(buffer)
    {
      this.algorithm := algorithm;
      buffer := new byte[BLOCK_SIZE];
      a, b, c, d := 0x67452301, 0xefcdab89, 0x98badcfe, 0x10325476;
      lo, hi := 0, 0;
      message := [];
    }

    /** Processes the blocks of data; the loop tests its guard after each block, so it needs one. */
    method Body(data: seq<byte>, ghost done: seq<byte>)
      requires |data| % BLOCK_SIZE == 0 && |data| > 0 && |done| % BLOCK_SIZE == 0
      requires Registers() == Fold(Compressor(algorithm), INITIAL, done)
      modifies this`a, this`b, this`c, this`d
      ensures Registers() == Fold(Compressor(algorithm), INITIAL, done + data)
    {
      hide Fold, Compressor;
      var st := State(a, b, c, d);
      var ptr, size := 0, |data|;
      var more := true;
      assert done + data[..0] == done;
      while more
        invariant 0 <= ptr <= |data| && ptr + size == |data|
        invariant ptr % BLOCK_SIZE == 0 && more == (size != 0)
        invariant st == Fold(Compressor(algorithm), INITIAL, done + data[..ptr])
        decreases size
      {
        var block: Block := data[ptr..ptr + BLOCK_SIZE];
        FoldSnoc(Compressor(algorithm), INITIAL, done + data[..ptr], block);
        assert done + data[..ptr + BLOCK_SIZE] == done + data[..ptr] + block;
        st := Transform(st, block);
        ptr := ptr + BLOCK_SIZE;
        size := size - BLOCK_SIZE;
        more := size != 0;
      }
      assert data[..ptr] == data;
      a, b, c, d := st.a, st.b, st.c, st.d;
    }

    method Transform(st: State, block: Block) returns (r: State)
      ensures r == Compressor(algorithm)(st, block)
    {
      match algorithm
      case MD4 => r := Md4Rounds.Transform(st, block);
      case MD5 => r := Md5Rounds.Transform(st, block);
    }

    /** The byte count, kept as 29 low bits and the rest modulo 2^32. */
    method Count(size: nat, ghost n: nat)
      requires lo == n % TWO_29 && hi == n / TWO_29 % TWO_32
      modifies this`lo, this`hi
      ensures lo == (n + size) % TWO_29 && hi == (n + size) / TWO_29 % TWO_32
    {
      CounterStep(n, size);
      var savedLo := lo;
      lo := (savedLo + size) % TWO_29;
      if lo < savedLo {
        hi := (hi + 1) % TWO_32;
      }
      hi := (hi + size / TWO_29) % TWO_32;
    }

    /** Data that leaves the block open is only copied. */
    method Append(used: nat, data: seq<byte>, ghost m: seq<byte>)
      requires Holds(m) && used == |Tail(m)| && used + |data| < BLOCK_SIZE
      modifies buffer
      ensures Holds(m + data)
    {
      hide Fold, Compressor;
      TailGrows(m, data);
      Copy(buffer, used, data);
      assert buffer[..used + |data|] == Tail(m) + data;
    }

    /** Data that completes the block in the buffer. */
    method Complete(used: nat, data: seq<byte>, ghost m: seq<byte>)
      requires Holds(m) && used == |Tail(m)| && used + |data| == BLOCK_SIZE
      modifies this`a, this`b, this`c, this`d, buffer
      ensures Holds(m + data)
    {
      hide Fold, Compressor;
      TailCloses(m, data);
      Copy(buffer, used, data);
      assert buffer[..] == Tail(m) + data;
      Body(buffer[..], Full(m));
    }

    method Update(data: seq<byte>)
      requires Valid()
      modifies this`lo, this`hi, this`a, this`b, this`c, this`d, this`message, buffer
      ensures Valid() && message == old(message) + data
    {
      hide Fold, Compressor, Full, Tail;
      ghost var m := message;
      message := message + data;
      var used := lo % 64;
      TailCount(m);
      Count(|data|, |m|);
      var rest := data;
      if used != 0 {
        var available := 64 - used;
        if |data| < available {
          Append(used, data, m);
          return;
        }
        TailCloses(m, data[..available]);
        Complete(used, data[..available], m);
        m := m + data[..available];
        rest := data[available..];
      }
      Rest(rest, m);
      assert m + rest == message;
    }

    /** The second half of Update: with an empty buffer, whole blocks skip it and the rest waits in it. */
    method Rest(data: seq<byte>, ghost m: seq<byte>)
      requires Holds(m) && Tail(m) == []
      modifies this`a, this`b, this`c, this`d, buffer
      ensures Holds(m + data)
    {
      hide Fold, Compressor, Full, Tail;
      var whole := |data| - |data| % 64;
      if |data| >= 64 {
        TailCloses(m, data[..whole]);
        assert Tail(m) + data[..whole] == data[..whole];
        Body(data[..whole], Full(m));
        Append(0, data[whole..], m + data[..whole]);
        assert m + data[..whole] + data[whole..] == m + data;
      } else {
        Append(0, data, m);
      }
    }

    /** Writes the digest of the message to the first 16 bytes of result and clears the context. */
    method Final(result: array<byte>)
      requires Valid() && result.Length >= 16 && result != buffer
      modifies this`lo, this`hi, this`a, this`b, this`c, this`d, buffer, result
      ensures result[..16] == Digest(algorithm, old(message)) && result[16..] == old(result[16..])
      ensures lo == hi == 0 && Registers() == State(0, 0, 0, 0) && buffer[..] == Zeros(BLOCK_SIZE)
    {
      ghost var m := message;
      Finish(m);
      var bytes := Bytes(State(a, b, c, d));
      forall i | 0 <= i < 16 {
        result[i] := bytes[i];
      }
      assert result[..16] == bytes;
      lo, hi, a, b, c, d := 0, 0, 0, 0, 0, 0;
      Copy(buffer, 0, Zeros(64));
    }

    /** The first part of Final: the padding goes through the buffer in one block or two. */
    method Finish(ghost m: seq<byte>)
      requires Valid() && m == message
      modifies this`lo, this`a, this`b, this`c, this`d, buffer
      ensures Registers() == Fold(Compressor(algorithm), INITIAL, Pad(m))
    {
      hide Fold, Compressor, Pad, Zeros, LengthBytes, Full, Tail;
      var used := PutMark(m);
      var available := 64 - used;
      if available < 8 {
        FinishLong(used, m);
      } else {
        PadShort(m);
        Close(used, Full(m), Tail(m) + [0x80], |m|);
      }
    }

    /** The byte that ends the message. */
    method PutMark(ghost m: seq<byte>) returns (used: nat)
      requires Valid() && m == message
      modifies buffer
      ensures used == |Tail(m)| + 1 && buffer[..used] == Tail(m) + [0x80]
    {
      hide Fold, Compressor, Full, Tail, Registers;
      used := lo % 64;
      TailCount(m);
      buffer[used] := 0x80;
      used := used + 1;
      assert buffer[..used] == buffer[..used - 1] + [0x80];
    }

    /** Without room for the length the block is filled with zeros, and another one follows. */
    method FinishLong(used: nat, ghost m: seq<byte>)
      requires buffer.Length == BLOCK_SIZE && used == |Tail(m)| + 1 && 56 < used <= BLOCK_SIZE
      requires buffer[..used] == Tail(m) + [0x80]
      requires Registers() == Fold(Compressor(algorithm), INITIAL, Full(m))
      requires lo == |m| % TWO_29 && hi == |m| / TWO_29 % TWO_32
      modifies this`lo, this`a, this`b, this`c, this`d, buffer
      ensures Registers() == Fold(Compressor(algorithm), INITIAL, Pad(m))
    {
      hide Fold, Compressor, Pad, Zeros, LengthBytes, Full, Tail, Registers;
      ghost var front, behind := buffer[..used], buffer[BLOCK_SIZE..];
      assert behind == [];
      Copy(buffer, used, Zeros(BLOCK_SIZE - used));
      assert buffer[..] == front + Zeros(BLOCK_SIZE - used);
      ghost var block := buffer[..];
      PadLong(m);
      Body(buffer[..], Full(m));
      Close(0, Full(m) + block, [], |m|);
    }

    /** The macro OUT for one half of the count; on numbers a shift to the right is a division. */
    method Out(at: nat, src: nat)
      requires at + 4 <= buffer.Length
      modifies buffer
      ensures buffer[..] == old(buffer[..at]) + LeBytes(src, 4) + old(buffer[at + 4..])
    {
      hide Low;
      FourDigits(src);
      buffer[at] := Low(src);
      buffer[at + 1] := Low(src / 0x100);
      buffer[at + 2] := Low(src / 0x1_0000);
      buffer[at + 3] := Low(src / 0x100_0000);
    }

    /** The last block: zeros, the two halves of the bit count, and the final compression. */
    method Close(used: nat, ghost done: seq<byte>, ghost open: seq<byte>, ghost n: nat)
      requires buffer.Length == 64 && used == |open| <= 56 && buffer[..used] == open
      requires |done| % BLOCK_SIZE == 0 && Registers() == Fold(Compressor(algorithm), INITIAL, done)
      requires lo == n % TWO_29 && hi == n / TWO_29 % TWO_32
      modifies this`lo, this`a, this`b, this`c, this`d, buffer
      ensures Registers() == Fold(Compressor(algorithm), INITIAL, done + (open + Zeros(56 - used) + LengthBytes(n)))
    {
      hide Fold, Compressor, LeBytes, LengthBytes, Zeros;
      Copy(buffer, used, Zeros(56 - used));
      ghost var front := open + Zeros(56 - used);
      assert buffer[..56] == front;
      lo := 8 * lo % TWO_32;
      LengthHalves(n);
      Out(56, lo);
      assert buffer[..56] == front && buffer[56..60] == LeBytes(lo, 4);
      Out(60, hi);
      assert buffer[..] == front + (LeBytes(lo, 4) + LeBytes(hi, 4));
      Body(buffer[..], done);
    }
  }

  /** The low half of the count tells how much of the buffer is used. */
  lemma TailCount(m: seq<byte>)
    ensures |m| % TWO_29 % 64 == |Tail(m)| < 64
  {
    assert |m| % TWO_29 % 64 == |m| % 64;
  }

  lemma FourDigits(n: nat)
    ensures LeBytes(n, 4) == [Low(n), Low(n / 0x100), Low(n / 0x1_0000), Low(n / 0x100_0000)]
  {
    hide Low;
    var h := n / 256 / 256;
    assert h == n / 0x1_0000 && h / 256 == n / 0x100_0000;
    assert LeBytes(h, 2) == [Low(h), Low(h / 256)];
  }

  lemma LengthHalves(n: nat)
    ensures LeBytes(8 * (n % TWO_29) % TWO_32, 4) + LeBytes(n / TWO_29 % TWO_32, 4) == LengthBytes(n)
  {
    hide LeBytes;
    assert 8 * n % TWO_32 == 8 * (n % TWO_29) % TWO_32;
    assert 8 * n / TWO_32 == n / TWO_29;
    LeHalves(8 * n);
  }

  lemma PadShort(m: seq<byte>)
    requires |Tail(m)| < 56
    ensures Full(m) + (Tail(m) + [0x80] + Zeros(55 - |Tail(m)|) + LengthBytes(|m|)) == Pad(m)
  {
    hide LengthBytes, Zeros;
    assert ZeroCount(|m|) == 55 - |Tail(m)|;
  }

  lemma PadLong(m: seq<byte>)
    requires |Tail(m)| >= 56
    ensures Full(m) + (Tail(m) + [0x80] + Zeros(63 - |Tail(m)|)) + ([] + Zeros(56) + LengthBytes(|m|)) == Pad(m)
  {
    hide LengthBytes;
    assert ZeroCount(|m|) == 63 - |Tail(m)| + 56;
    assert Zeros(63 - |Tail(m)|) + Zeros(56) == Zeros(ZeroCount(|m|));
  }

  /** The one-shot functions MD4 and MD5. */
  method Hash(algorithm: Algorithm, data: seq<byte>) returns (r: seq<byte>)
    ensures r == Digest(algorithm, data)
  {
    var ctx := new Context(algorithm);
    ctx.Update(data);
    assert ctx.message == data;
    var result := new byte[16];
    ctx.Final(result);
    r := result[..16];
  }

  /** A message in pieces: one call of Update for each of them. However a message is split, its digest is
      the same. */
  method HashPieces(algorithm: Algorithm, pieces: seq<seq<byte>>) returns (r: seq<byte>)
    ensures r == Digest(algorithm, Concat(pieces))
  {
    hide MessageDigest.Digest;
    var ctx := new Context(algorithm);
    for i := 0 to |pieces|
      invariant ctx.Valid() && fresh(ctx) && fresh(ctx.buffer)
      invariant ctx.message == Concat(pieces[..i]) && ctx.algorithm == algorithm
    {
      assert pieces[..i + 1][..i] == pieces[..i];
      ctx.Update(pieces[i]);
    }
    assert pieces[..|pieces|] == pieces;
    var result := new byte[16];
    ctx.Final(result);
    r := result[..16];
  }
}
