/** The core of sha1.c: a 16-word block that is expanded in place while the rounds use it, and
    macros that rename the registers instead of moving them. */
module Sha1Rounds {
  import opened Words
  import opened Blocks
  import opened Fips180

  function ChMacro(w: word, x: word, y: word): word {
    (w & (x ^ y)) ^ y
  }

  function MajMacro(w: word, x: word, y: word): word {
    ((w | x) & y) | (w & x)
  }

  lemma ChForm(w: word, x: word, y: word)
    ensures ChMacro(w, x, y) == Ch(w, x, y)
  {
    assert (w & (x ^ y)) ^ y == (w & x) ^ (!w & y);
  }

  lemma MajForm(w: word, x: word, y: word)
    ensures MajMacro(w, x, y) == Maj(w, x, y)
  {
    assert ((w | x) & y) | (w & x) == (w & x) ^ (w & y) ^ (x & y);
  }

  /** The byte swap of blk0 on a little-endian host. */
  function Swap(l: word): word {
    (RotL(l, 24) & 0xff00ff00) | (RotL(l, 8) & 0x00ff00ff)
  }

  lemma SwapReverses(s: seq<byte>)
    requires |s| == 4
    ensures Swap(FromLittleEndian(s)) == FromBigEndian(s)
  {
    var a, b, c, d := s[0] as word, s[1] as word, s[2] as word, s[3] as word;
    SwapBytes(a, b, c, d);
  }

  lemma SwapBytes(a: word, b: word, c: word, d: word)
    requires a < 256 && b < 256 && c < 256 && d < 256
    ensures Swap(a | (b << 8) | (c << 16) | (d << 24)) == (a << 24) | (b << 16) | (c << 8) | d
  {
  }

  lemma SumOrder(v: word, f: word, z: word, k: word, w: word)
    ensures Add(z, Add(Add(Add(f, w), k), RotL(v, 5))) == Sum(v, f, z, k, w)
  {
    var r := RotL(v, 5);
    calc {
      Add(z, Add(Add(Add(f, w), k), r));
      { AddAssoc(f, w, k); AddComm(w, k); AddAssoc(f, k, w); }
      Add(z, Add(Add(Add(f, k), w), r));
      { AddComm(Add(Add(f, k), w), r); AddAssoc(r, Add(f, k), w); }
      Add(z, Add(Add(r, Add(f, k)), w));
      { AddAssoc(r, f, k); }
      Add(z, Add(Add(Add(r, f), k), w));
      { AddAssoc(z, Add(Add(r, f), k), w); AddAssoc(z, Add(r, f), k); AddComm(z, Add(r, f)); }
      Add(Add(Add(Add(r, f), z), k), w);
    }
  }

  /** Bit k of a word, from the lowest on. */
  function Bit(w: word, k: word): word
    requires k < 32
  {
    (w >> k) & 1
  }

  /** The place one further down; below the lowest is the highest. */
  function Below(k: word): (j: word)
    requires k < 32
    ensures j < 32
  {
    if k == 0 then 31 else k - 1
  }

  /** Bit k of x combines the bits one place further down of four words. */
  predicate Combines(x: word, p: word, q: word, r: word, s: word, k: word)
    requires k < 32
  {
    Bit(x, k) == Bit(p, Below(k)) ^ Bit(q, Below(k)) ^ Bit(r, Below(k)) ^ Bit(s, Below(k))
  }

  /** Bit by bit, each word of the schedule from the sixteenth on is the exclusive or of four earlier ones, one place
      further down. */
  lemma ScheduleBits(m: Block, t: nat, k: word)
    requires t >= 16 && k < 32
    ensures Combines(W(m, t), W(m, t - 3), W(m, t - 8), W(m, t - 14), W(m, t - 16), k)
  {
    hide Combines, Expand, RotL;
    RotatedBit(W(m, t - 3), W(m, t - 8), W(m, t - 14), W(m, t - 16), k);
  }

  lemma Rotated(m: Block, t: nat, p: word, q: word, r: word, s: word)
    requires t >= 16 && p == W(m, t - 3) && q == W(m, t - 8) && r == W(m, t - 14) && s == W(m, t - 16)
    ensures W(m, t) == RotL(p ^ q ^ r ^ s, 1)
  {
    hide RotL, Expand;
    ExpandIs(p, q, r, s);
  }

  lemma RotatedBit(p: word, q: word, r: word, s: word, k: word)
    requires k < 32
    ensures Combines(Expand(p, q, r, s), p, q, r, s, k)
  {
    hide Combines, RotL;
    BitOf(Expand(p, q, r, s), p, q, r, s, k);
  }

  lemma BitOf(x: word, p: word, q: word, r: word, s: word, k: word)
    requires k < 32 && x == RotL(p ^ q ^ r ^ s, 1)
    ensures Combines(x, p, q, r, s, k)
  {
  }

  /** Before round i < 16: the first i words are swapped, the others are as loaded. */
  ghost predicate Loading(block: seq<word>, m: Block, i: nat)
    requires i <= 16
  {
    && |block| == 16
    && (forall t :: 0 <= t < i ==> block[t] == W(m, t))
    && (forall t :: i <= t < 16 ==> block[t] == FromLittleEndian(m[4 * t..4 * t + 4]))
  }

  /** Before round i >= 16: the block holds the last 16 words of the schedule, word t in slot t mod 16. */
  ghost predicate Circular(block: seq<word>, m: Block, i: nat)
    requires i >= 16
  {
    |block| == 16 && forall t {:trigger W(m, t)} :: i - 16 <= t < i ==> block[t % 16] == W(m, t)
  }

  /** What the block holds before round i. */
  ghost predicate Scheduled(block: seq<word>, m: Block, i: nat) {
    if i < 16 then Loading(block, m, i) else Circular(block, m, i)
  }

  method Blk0(block: array<word>, i: nat, ghost m: Block) returns (r: word)
    requires i < 16 && Scheduled(block[..], m, i)
    modifies block
    ensures Scheduled(block[..], m, i + 1) && r == W(m, i)
  {
    SwapReverses(m[4 * i..4 * i + 4]);
    r := Swap(block[i]);
    block[i] := r;
    hide W, FromLittleEndian, Swap;
  }

  lemma Slots(i: nat)
    requires i >= 16
    ensures (i + 13) % 16 == (i - 3) % 16 && (i + 8) % 16 == (i - 8) % 16
    ensures (i + 2) % 16 == (i - 14) % 16 && i % 16 == (i - 16) % 16
    ensures forall t :: i - 16 < t < i ==> t % 16 != i % 16
  {
  }

  lemma ExpandIs(p: word, q: word, r: word, s: word)
    ensures Expand(p, q, r, s) == RotL(p ^ q ^ r ^ s, 1)
  {
  }

  /** The slots of a circular block that word i is made of, and the block with that word in place. */
  lemma SlotsHold(block: seq<word>, m: Block, i: nat)
    requires i >= 16 && Scheduled(block, m, i)
    ensures W(m, i) == RotL(block[(i + 13) % 16] ^ block[(i + 8) % 16] ^ block[(i + 2) % 16] ^ block[i % 16], 1)
  {
    hide W, RotL;
    Slots(i);
    assert block[(i + 13) % 16] == W(m, i - 3) && block[(i + 8) % 16] == W(m, i - 8);
    assert block[(i + 2) % 16] == W(m, i - 14) && block[i % 16] == W(m, i - 16);
    Rotated(m, i, block[(i + 13) % 16], block[(i + 8) % 16], block[(i + 2) % 16], block[i % 16]);
  }

  lemma SlotFilled(block: seq<word>, m: Block, i: nat)
    requires i >= 16 && Scheduled(block, m, i)
    ensures Scheduled(block[i % 16 := W(m, i)], m, i + 1)
  {
    Slots(i);
    hide W;
  }

  method Blk(block: array<word>, i: nat, ghost m: Block) returns (r: word)
    requires i >= 16 && Scheduled(block[..], m, i)
    modifies block
    ensures Scheduled(block[..], m, i + 1) && r == W(m, i)
  {
    SlotsHold(block[..], m, i);
    SlotFilled(block[..], m, i);
    r := RotL(block[(i + 13) % 16] ^ block[(i + 8) % 16] ^ block[(i + 2) % 16] ^ block[i % 16], 1);
    ghost var before := block[..];
    block[i % 16] := r;
    hide W, RotL, Scheduled;
    assert block[..] == before[i % 16 := r];
  }

  /** The assignments of a macro: z takes the sum, w is rotated. */
  method Assign(f: word, blk: word, k: word, v: word, w: word, z: word) returns (z': word, w': word)
    ensures z' == Sum(v, f, z, k, blk) && w' == RotL(w, 30)
  {
    SumOrder(v, f, z, k, blk);
    z' := Add(z, Add(Add(Add(f, blk), k), RotL(v, 5)));
    w' := RotL(w, 30);
  }

  method R0(v: word, w: word, x: word, y: word, z: word, i: nat, block: array<word>, ghost m: Block)
    returns (z': word, w': word)
    requires 0 <= i < 16 && Scheduled(block[..], m, i)
    modifies block
    ensures Scheduled(block[..], m, i + 1)
    ensures z' == NewA(State(v, w, x, y, z), m, i) && w' == RotL(w, 30)
  {
    hide W;
    ChForm(w, x, y);
    var blk := Blk0(block, i, m);
    z', w' := Assign(ChMacro(w, x, y), blk, 0x5a827999, v, w, z);
  }

  method R1(v: word, w: word, x: word, y: word, z: word, i: nat, block: array<word>, ghost m: Block)
    returns (z': word, w': word)
    requires 16 <= i < 20 && Scheduled(block[..], m, i)
    modifies block
    ensures Scheduled(block[..], m, i + 1)
    ensures z' == NewA(State(v, w, x, y, z), m, i) && w' == RotL(w, 30)
  {
    hide W;
    ChForm(w, x, y);
    var blk := Blk(block, i, m);
    z', w' := Assign(ChMacro(w, x, y), blk, 0x5a827999, v, w, z);
  }

  method R2(v: word, w: word, x: word, y: word, z: word, i: nat, block: array<word>, ghost m: Block)
    returns (z': word, w': word)
    requires 20 <= i < 40 && Scheduled(block[..], m, i)
    modifies block
    ensures Scheduled(block[..], m, i + 1)
    ensures z' == NewA(State(v, w, x, y, z), m, i) && w' == RotL(w, 30)
  {
    hide W;
    var blk := Blk(block, i, m);
    z', w' := Assign(w ^ x ^ y, blk, 0x6ed9eba1, v, w, z);
  }

  method R3(v: word, w: word, x: word, y: word, z: word, i: nat, block: array<word>, ghost m: Block)
    returns (z': word, w': word)
    requires 40 <= i < 60 && Scheduled(block[..], m, i)
    modifies block
    ensures Scheduled(block[..], m, i + 1)
    ensures z' == NewA(State(v, w, x, y, z), m, i) && w' == RotL(w, 30)
  {
    hide W;
    MajForm(w, x, y);
    var blk := Blk(block, i, m);
    z', w' := Assign(MajMacro(w, x, y), blk, 0x8f1bbcdc, v, w, z);
  }

  method R4(v: word, w: word, x: word, y: word, z: word, i: nat, block: array<word>, ghost m: Block)
    returns (z': word, w': word)
    requires 60 <= i < 80 && Scheduled(block[..], m, i)
    modifies block
    ensures Scheduled(block[..], m, i + 1)
    ensures z' == NewA(State(v, w, x, y, z), m, i) && w' == RotL(w, 30)
  {
    hide W;
    var blk := Blk(block, i, m);
    z', w' := Assign(w ^ x ^ y, blk, 0xca62c1d6, v, w, z);
  }

  lemma FiveRounds(st: State, m: Block, i: nat)
    ensures Rounds(st, m, i + 5) ==
            Round(Round(Round(Round(Round(Rounds(st, m, i), m, i), m, i + 1), m, i + 2), m, i + 3), m, i + 4)
  {
    hide Round;
    assert Rounds(st, m, i + 2) == Round(Round(Rounds(st, m, i), m, i), m, i + 1);
    assert Rounds(st, m, i + 4) == Round(Round(Rounds(st, m, i + 2), m, i + 2), m, i + 3);
  }

  /** Five macro lines: after them every register is back under its own name. */
  method Five0(st: State, i: nat, block: array<word>, ghost m: Block, ghost start: State) returns (r: State)
    requires i + 5 <= 15 && Scheduled(block[..], m, i) && st == Rounds(start, m, i)
    modifies block
    ensures Scheduled(block[..], m, i + 5) && r == Rounds(start, m, i + 5)
  {
    hide Scheduled, Rounds, NewA, RotL;
    FiveRounds(start, m, i);
    var a, b, c, d, e := st.a, st.b, st.c, st.d, st.e;
    e, b := R0(a, b, c, d, e, i, block, m);
    d, a := R0(e, a, b, c, d, i + 1, block, m);
    c, e := R0(d, e, a, b, c, i + 2, block, m);
    b, d := R0(c, d, e, a, b, i + 3, block, m);
    a, c := R0(b, c, d, e, a, i + 4, block, m);
    r := State(a, b, c, d, e);
  }

  /** The five lines in which the macro changes from R0 to R1. */
  method Five01(st: State, i: nat, block: array<word>, ghost m: Block, ghost start: State) returns (r: State)
    requires i == 15 && Scheduled(block[..], m, i) && st == Rounds(start, m, i)
    modifies block
    ensures Scheduled(block[..], m, i + 5) && r == Rounds(start, m, i + 5)
  {
    hide Scheduled, Rounds, NewA, RotL;
    FiveRounds(start, m, i);
    var a, b, c, d, e := st.a, st.b, st.c, st.d, st.e;
    e, b := R0(a, b, c, d, e, i, block, m);
    d, a := R1(e, a, b, c, d, i + 1, block, m);
    c, e := R1(d, e, a, b, c, i + 2, block, m);
    b, d := R1(c, d, e, a, b, i + 3, block, m);
    a, c := R1(b, c, d, e, a, i + 4, block, m);
    r := State(a, b, c, d, e);
  }

  /** Five lines of R2. */
  method Five2(st: State, i: nat, block: array<word>, ghost m: Block, ghost start: State) returns (r: State)
    requires 20 <= i && i + 5 <= 40 && Scheduled(block[..], m, i) && st == Rounds(start, m, i)
    modifies block
    ensures Scheduled(block[..], m, i + 5) && r == Rounds(start, m, i + 5)
  {
    hide Scheduled, Rounds, NewA, RotL;
    FiveRounds(start, m, i);
    var a, b, c, d, e := st.a, st.b, st.c, st.d, st.e;
    e, b := R2(a, b, c, d, e, i, block, m);
    d, a := R2(e, a, b, c, d, i + 1, block, m);
    c, e := R2(d, e, a, b, c, i + 2, block, m);
    b, d := R2(c, d, e, a, b, i + 3, block, m);
    a, c := R2(b, c, d, e, a, i + 4, block, m);
    r := State(a, b, c, d, e);
  }

  /** Five lines of R3. */
  method Five3(st: State, i: nat, block: array<word>, ghost m: Block, ghost start: State) returns (r: State)
    requires 40 <= i && i + 5 <= 60 && Scheduled(block[..], m, i) && st == Rounds(start, m, i)
    modifies block
    ensures Scheduled(block[..], m, i + 5) && r == Rounds(start, m, i + 5)
  {
    hide Scheduled, Rounds, NewA, RotL;
    FiveRounds(start, m, i);
    var a, b, c, d, e := st.a, st.b, st.c, st.d, st.e;
    e, b := R3(a, b, c, d, e, i, block, m);
    d, a := R3(e, a, b, c, d, i + 1, block, m);
    c, e := R3(d, e, a, b, c, i + 2, block, m);
    b, d := R3(c, d, e, a, b, i + 3, block, m);
    a, c := R3(b, c, d, e, a, i + 4, block, m);
    r := State(a, b, c, d, e);
  }

  /** Five lines of R4. */
  method Five4(st: State, i: nat, block: array<word>, ghost m: Block, ghost start: State) returns (r: State)
    requires 60 <= i && i + 5 <= 80 && Scheduled(block[..], m, i) && st == Rounds(start, m, i)
    modifies block
    ensures Scheduled(block[..], m, i + 5) && r == Rounds(start, m, i + 5)
  {
    hide Scheduled, Rounds, NewA, RotL;
    FiveRounds(start, m, i);
    var a, b, c, d, e := st.a, st.b, st.c, st.d, st.e;
    e, b := R4(a, b, c, d, e, i, block, m);
    d, a := R4(e, a, b, c, d, i + 1, block, m);
    c, e := R4(d, e, a, b, c, i + 2, block, m);
    b, d := R4(c, d, e, a, b, i + 3, block, m);
    a, c := R4(b, c, d, e, a, i + 4, block, m);
    r := State(a, b, c, d, e);
  }

  /** SHA1Transform: the block is copied, consumed in place by 80 rounds, and the result added back. */
  method Transform(st: State, buffer: Block) returns (r: State)
    ensures r == Compress(st, buffer)
  {
    hide Rounds, Add;
    var block := new word[16];
    Load(block, buffer);
    r := AllRounds(st, block, buffer);
    r := State(Add(st.a, r.a), Add(st.b, r.b), Add(st.c, r.c), Add(st.d, r.d), Add(st.e, r.e));
  }

  method AllRounds(st: State, block: array<word>, ghost m: Block) returns (r: State)
    requires Scheduled(block[..], m, 0)
    modifies block
    ensures r == Rounds(st, m, 80)
  {
    hide Rounds, Scheduled;
    r := st;
    Start(st, m);
    var i := 0;
    while i < 15
      invariant i % 5 == 0 && i <= 15 && Scheduled(block[..], m, i) && r == Rounds(st, m, i)
    {
      r := Five0(r, i, block, m, st);
      i := i + 5;
    }
    r := Five01(r, 15, block, m, st);
    i := 20;
    while i < 40
      invariant i % 5 == 0 && 20 <= i <= 40 && Scheduled(block[..], m, i) && r == Rounds(st, m, i)
    {
      r := Five2(r, i, block, m, st);
      i := i + 5;
    }
    while i < 60
      invariant i % 5 == 0 && 40 <= i <= 60 && Scheduled(block[..], m, i) && r == Rounds(st, m, i)
    {
      r := Five3(r, i, block, m, st);
      i := i + 5;
    }
    while i < 80
      invariant i % 5 == 0 && 60 <= i <= 80 && Scheduled(block[..], m, i) && r == Rounds(st, m, i)
    {
      r := Five4(r, i, block, m, st);
      i := i + 5;
    }
  }

  lemma Start(st: State, m: Block)
    ensures Rounds(st, m, 0) == st
  {
  }

  method Load(block: array<word>, buffer: Block)
    requires block.Length == 16
    modifies block
    ensures Scheduled(block[..], buffer, 0)
  {
    forall t | 0 <= t < 16 {
      block[t] := FromLittleEndian(buffer[4 * t..4 * t + 4]);
    }
  }
}
