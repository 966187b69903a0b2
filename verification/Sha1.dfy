/** The streaming context of sha1.c. */
module Sha1 {
  import opened Words
  import opened Blocks
  import opened Fips180
  import Sha1Rounds

  lemma EightTimes(n: nat)
    ensures 8 * n % TWO_32 == 8 * (n % TWO_29)
  {
  }

  /** The low half of the bit counter after size bytes. */
  function LowAfter(count0: nat, size: nat): nat {
    (count0 + 8 * size % TWO_32) % TWO_32
  }

  lemma LowIs(n: nat, size: nat)
    ensures LowAfter(8 * n % TWO_32, size) == 8 * ((n % TWO_29 + size) % TWO_29)
  {
    EightTimes(n);
    EightTimes(size);
    EightTimes(n % TWO_29 + size % TWO_29);
    assert (n % TWO_29 + size % TWO_29) % TWO_29 == (n % TWO_29 + size) % TWO_29;
  }

  lemma SumModTwice(a: nat, b: nat)
    ensures (a % TWO_32 + b) % TWO_32 == (a + b) % TWO_32
  {
  }

  /** The bit counter and its carry, for a count of n bytes to which size bytes are added. */
  lemma BitCounterStep(n: nat, size: nat)
    ensures LowAfter(8 * n % TWO_32, size) == 8 * (n + size) % TWO_32
    ensures var carry := if LowAfter(8 * n % TWO_32, size) < 8 * n % TWO_32 then 1 else 0;
            (n / TWO_29 % TWO_32 + carry + size / TWO_29) % TWO_32 == (n + size) / TWO_29 % TWO_32
  {
    CounterStep(n, size);
    LowIs(n, size);
    EightTimes(n);
    EightTimes(n + size);
  }

  class Context {
    var state: State
    var count0: nat
    var count1: nat
    const buffer: array<byte>
    /** The concatenation of everything passed to Update. */
    ghost var message: seq<byte>

    /** The buffer and the state stand for m: its tail waits, its full blocks are compressed. */
    ghost predicate Holds(m: seq<byte>)
      reads this, buffer
    {
      && buffer.Length == BLOCK_SIZE
      && buffer[..|Tail(m)|] == Tail(m)
      && state == Fold(Compressor(), INITIAL, Full(m))
    }

    ghost predicate Valid()
      reads this, buffer
    {
      && count0 == 8 * |message| % TWO_32
      && count1 == |message| / TWO_29 % TWO_32
      && Holds(message)
    }

    constructor ()
      ensures Valid() && message == [] && fresh(buffer)
    {
      buffer := new byte[BLOCK_SIZE];
      state := State(0x67452301, 0xefcdab89, 0x98badcfe, 0x10325476, 0xc3d2e1f0);
      count0, count1 := 0, 0;
      message := [];
    }

    method Transform(block: Block)
      modifies this`state
      ensures state == Compressor()(old(state), block)
    {
      state := Sha1Rounds.Transform(state, block);
    }

    method Count(size: nat, ghost n: nat)
      requires size < TWO_32 && count0 == 8 * n % TWO_32 && count1 == n / TWO_29 % TWO_32
      modifies this`count0, this`count1
      ensures count0 == 8 * (n + size) % TWO_32 && count1 == (n + size) / TWO_29 % TWO_32
    {
      hide LowAfter;
      BitCounterStep(n, size);
      var j := count0;
      count0 := LowAfter(j, size);
      var carry := if count0 < j then 1 else 0;
      SumModTwice(count1 + carry, size / TWO_29);
      count1 := (count1 + carry) % TWO_32;
      count1 := (count1 + size / TWO_29) % TWO_32;
    }

    /** The branch of SHA1Update that completes the block in the buffer and takes further blocks
        straight from the data; returns how much of the data it used. */
    method Consume(j: nat, data: seq<byte>, ghost m: seq<byte>) returns (i: nat)
      requires Holds(m) && j == |Tail(m)| && 63 < j + |data| < TWO_32
      modifies this`state, buffer
      ensures i <= |data| && |data| - i < BLOCK_SIZE
      ensures Holds(m + data[..i]) && Tail(m + data[..i]) == []
    {
      hide Fold, Compressor, Full, Tail;
      i := 64 - j;
      CloseBlock(j, data[..i], m);
      while (i + 63) % TWO_32 < |data|
        invariant i <= |data| && (j + i) % 64 == 0 && Tail(m + data[..i]) == []
        invariant state == Fold(Compressor(), INITIAL, Full(m + data[..i]))
      {
        NextBlock(i, j, |data|);
        assert m + data[..i + 64] == m + data[..i] + data[i..i + 64];
        TransformNext(data[i..i + 64], m + data[..i]);
        i := i + 64;
      }
      NextBlock(i, j, |data|);
    }

    /** Data that completes the block in the buffer. */
    method CloseBlock(j: nat, data: seq<byte>, ghost m: seq<byte>)
      requires Holds(m) && j == |Tail(m)| && j + |data| == BLOCK_SIZE
      modifies this`state, buffer
      ensures Tail(m + data) == [] && state == Fold(Compressor(), INITIAL, Full(m + data))
    {
      hide Fold, Compressor, Full, Tail;
      Copy(buffer, j, data);
      TailCloses(m, data);
      assert buffer[..] == Tail(m) + data;
      FoldSnoc(Compressor(), INITIAL, Full(m), buffer[..]);
      Transform(buffer[..]);
    }

    /** A block taken straight from the data. */
    method TransformNext(block: Block, ghost m: seq<byte>)
      requires Tail(m) == [] && state == Fold(Compressor(), INITIAL, Full(m))
      modifies this`state
      ensures Tail(m + block) == [] && state == Fold(Compressor(), INITIAL, Full(m + block))
    {
      hide Fold, Compressor, Full, Tail;
      TailCloses(m, block);
      assert [] + block == block;
      FoldSnoc(Compressor(), INITIAL, Full(m), block);
      Transform(block);
    }

    /** The end of SHA1Update: what does not fill a block waits in the buffer. */
    method Append(j: nat, data: seq<byte>, ghost m: seq<byte>)
      requires Holds(m) && j == |Tail(m)| && j + |data| < BLOCK_SIZE
      modifies buffer
      ensures Holds(m + data)
    {
      hide Fold, Compressor;
      TailGrows(m, data);
      Copy(buffer, j, data);
      assert buffer[..j + |data|] == Tail(m) + data;
    }

    /** The sum of the buffered bytes and the data must not wrap: sha1.c computes it in 32 bits. */
    method Update(data: seq<byte>)
      requires Valid() && |message| % BLOCK_SIZE + |data| < TWO_32
      modifies this`state, this`count0, this`count1, this`message, buffer
      ensures Valid() && message == old(message) + data
    {
      ghost var m := message;
      message := message + data;
      var j := count0 / 8 % 64;
      BufferedBytes(|m|);
      Count(|data|, |m|);
      Absorb(j, data, m);
    }

    /** SHA1Update after the counters. */
    method Absorb(j: nat, data: seq<byte>, ghost m: seq<byte>)
      requires Holds(m) && j == |Tail(m)| && j + |data| < TWO_32
      modifies this`state, buffer
      ensures Holds(m + data)
    {
      hide Fold, Compressor, Full, Tail;
      if (j + |data|) % TWO_32 > 63 {
        var i := Consume(j, data, m);
        assert m + data == m + data[..i] + data[i..];
        Append(0, data[i..], m + data[..i]);
      } else {
        Append(j, data, m);
      }
    }

    /** Writes the digest of the message to the first 20 bytes of digest and clears the context. */
    method Final(digest: array<byte>)
      requires Valid() && digest.Length >= 20 && digest != buffer
      modifies this`state, this`count0, this`count1, this`message, buffer, digest
      ensures digest[..20] == Digest(old(message)) && digest[20..] == old(digest[20..])
      ensures count0 == count1 == 0 && state == State(0, 0, 0, 0, 0) && buffer[..] == Zeros(BLOCK_SIZE)
    {
      Finish();
      WholeBlocks(message);
      var bytes := Bytes(state);
      forall i | 0 <= i < 20 {
        digest[i] := bytes[i];
      }
      assert digest[..20] == bytes;
      state, count0, count1, message := State(0, 0, 0, 0, 0), 0, 0, [];
      Copy(buffer, 0, Zeros(64));
    }

    /** The first part of Final: the padding is appended byte by byte, then the bit count taken before it. */
    method Finish()
      requires Valid()
      modifies this`state, this`count0, this`count1, this`message, buffer
      ensures Valid() && message == Pad(old(message))
    {
      hide Holds, LengthBytes, BeBytes;
      ghost var m := message;
      var finalcount := FinalCount();
      LengthHalves(|m|);
      Update([0x80]);
      PadBytes(m);
      Update(finalcount);
    }

    /** The loop that takes the bit count apart, most significant byte first; on numbers a shift to the
        right is a division. */
    method FinalCount() returns (finalcount: seq<byte>)
      ensures finalcount == BeBytes(count1, 4) + BeBytes(count0, 4)
    {
      hide BeBytes, Pow256, Low;
      ghost var bytes := BeBytes(count1, 4) + BeBytes(count0, 4);
      finalcount := [];
      for i := 0 to 8
        invariant finalcount == bytes[..i]
      {
        var count := if i >= 4 then count0 else count1;
        BeDigit(count, 3 - i % 4);
        finalcount := finalcount + [Low(count / Pow256(3 - i % 4))];
      }
      assert bytes[..8] == bytes;
    }

    /** The loop that appends zero bytes until eight bytes are left in the block. */
    method PadBytes(ghost m: seq<byte>)
      requires Valid() && message == m + [0x80]
      modifies this`state, this`count0, this`count1, this`message, buffer
      ensures Valid() && message == m + [0x80] + Zeros(ZeroCount(|m|))
    {
      hide Holds, ZeroCount, Zeros;
      ghost var zeros := 0;
      NoZeros();
      assert m + [0x80] + Zeros(0) == m + [0x80];
      BufferedBytes(|message|);
      while count0 / 8 % 64 * 8 != 448
        invariant Valid() && message == m + [0x80] + Zeros(zeros)
        invariant count0 / 8 % 64 == (|m| + 1 + zeros) % BLOCK_SIZE
        invariant zeros <= ZeroCount(|m|)
        decreases ZeroCount(|m|) - zeros
      {
        ZeroCountReached(|m|, zeros);
        ZeroAppended(m + [0x80], zeros);
        Update([0]);
        zeros := zeros + 1;
        BufferedBytes(|message|);
      }
      ZeroCountReached(|m|, zeros);
    }
  }

  /** The byte of a number that has k bytes behind it. */
  lemma BeDigit(n: nat, k: nat)
    requires k < 4
    ensures BeBytes(n, 4)[3 - k] == Low(n / Pow256(k))
  {
    hide Low;
    var h := n / 256 / 256;
    assert Pow256(0) == 1 && Pow256(1) == 256 && Pow256(2) == 0x1_0000 && Pow256(3) == 0x100_0000;
    assert h == n / 0x1_0000 && h / 256 == n / 0x100_0000;
    assert BeBytes(h, 2) == [Low(h / 256), Low(h)];
    assert BeBytes(n, 4) == BeBytes(h, 2) + [Low(n / 256), Low(n)];
  }

  /** The guard of the loop over blocks, in 32 bits. */
  lemma NextBlock(i: nat, j: nat, n: nat)
    requires i <= n && (j + i) % 64 == 0 && j + n < TWO_32 && j < 64
    ensures (i + 63) % TWO_32 < n <==> i + 64 <= n
  {
  }

  lemma ZeroCountReached(n: nat, zeros: nat)
    requires zeros <= ZeroCount(n)
    ensures (n + 1 + zeros) % BLOCK_SIZE == 56 <==> zeros == ZeroCount(n)
  {
  }

  lemma NoZeros()
    ensures Zeros(0) == []
  {
  }

  lemma ZeroAppended(m: seq<byte>, zeros: nat)
    ensures m + Zeros(zeros) + [0] == m + Zeros(zeros + 1)
  {
  }

  lemma BufferedBytes(n: nat)
    ensures 8 * n % TWO_32 / 8 % 64 == n % BLOCK_SIZE
  {
    EightTimes(n);
    var r := n % TWO_29;
    assert 8 * r / 8 == r;
    assert r % 64 == n % 64;
  }

  lemma WholeBlocks(m: seq<byte>)
    requires |m| % BLOCK_SIZE == 0
    ensures Full(m) == m
  {
  }

  lemma LengthHalves(n: nat)
    ensures BeBytes(n / TWO_29 % TWO_32, 4) + BeBytes(8 * n % TWO_32, 4) == LengthBytes(n)
  {
    hide BeBytes;
    assert 8 * n / TWO_32 == n / TWO_29;
    BeHalves(8 * n);
  }

  /** The one-shot function SHA1. */
  method Hash(data: seq<byte>) returns (r: seq<byte>)
    requires |data| < TWO_32
    ensures r == Digest(data)
  {
    var ctx := new Context();
    ctx.Update(data);
    assert ctx.message == data;
    var digest := new byte[20];
    ctx.Final(digest);
    r := digest[..20];
  }

  /** A message in pieces: one call of Update for each of them. However a message is split, its digest is
      the same. */
  method HashPieces(pieces: seq<seq<byte>>) returns (r: seq<byte>)
    requires forall piece :: piece in pieces ==> |piece| <= TWO_32 - BLOCK_SIZE
    ensures r == Digest(Concat(pieces))
  {
    hide Digest;
    var ctx := new Context();
    for i := 0 to |pieces|
      invariant ctx.Valid() && fresh(ctx) && fresh(ctx.buffer) && ctx.message == Concat(pieces[..i])
    {
      assert pieces[..i + 1][..i] == pieces[..i];
      ctx.Update(pieces[i]);
    }
    assert pieces[..|pieces|] == pieces;
    var digest := new byte[20];
    ctx.Final(digest);
    r := digest[..20];
  }
}
