/** Bytes, 32-bit words and the operations on them that the hash code uses.

    Sums and rotations are named functions: the proofs about whole rounds then compare the
    arguments of these functions and never look at single bits. */
module Words {
  type byte = bv8
  type word = bv32

  const TWO_29 := 0x2000_0000
  const TWO_32 := 0x1_0000_0000
  const TWO_64 := 0x1_0000_0000_0000_0000

  /** Addition modulo 2^32. */
  function Add(x: word, y: word): word {
    x + y
  }

  lemma AddAssoc(a: word, b: word, c: word)
    ensures Add(a, Add(b, c)) == Add(Add(a, b), c)
  {
    calc {
      Add(a, Add(b, c));
      Add(a, b + c);
      a + (b + c);
      (a + b) + c;
      Add(a + b, c);
    }
  }

  lemma AddComm(a: word, b: word)
    ensures Add(a, b) == Add(b, a)
  {
    assert a + b == b + a;
  }

  /** Rotation to the left by n bits. */
  function RotL(x: word, n: word): word
    requires 0 < n < 32
  {
    (x << n) | (x >> (32 - n))
  }

  /** The four bytes of a word, least significant first. */
  function LittleEndian(w: word): (r: seq<byte>)
    ensures |r| == 4
  {
    [(w & 0xff) as byte, ((w >> 8) & 0xff) as byte, ((w >> 16) & 0xff) as byte, (w >> 24) as byte]
  }

  /** The four bytes of a word, most significant first. */
  function BigEndian(w: word): (r: seq<byte>)
    ensures |r| == 4
  {
    [(w >> 24) as byte, ((w >> 16) & 0xff) as byte, ((w >> 8) & 0xff) as byte, (w & 0xff) as byte]
  }

  function FromLittleEndian(s: seq<byte>): word
    requires |s| == 4
  {
    Join(s[0], s[1], s[2], s[3])
  }

  /** A word from its bytes, least significant first. */
  function Join(a: byte, b: byte, c: byte, d: byte): word {
    (a as word) | (b as word << 8) | (c as word << 16) | (d as word << 24)
  }

  function FromBigEndian(s: seq<byte>): word
    requires |s| == 4
  {
    (s[0] as word << 24) | (s[1] as word << 16) | (s[2] as word << 8) | (s[3] as word)
  }

  /** A number below 256 as a byte. */
  function ToByte(n: nat): (b: byte)
    requires n < 256
    ensures b as nat == n
  {
    if n == 0 then 0 else ToByte(n - 1) + 1
  }

  lemma ByteIsItself(b: byte)
    ensures b as nat <= 255 && ToByte(b as nat) == b
  {
    assert ToByte(b as nat) as nat == b as nat;
  }

  /** The lowest byte of a number. */
  function Low(n: nat): byte {
    ToByte(n % 256)
  }

  lemma LowOfByte(b: byte)
    ensures Low(b as nat) == b && b as nat / 256 == 0
  {
    ByteIsItself(b);
    hide ToByte;
    assert b as nat % 256 == b as nat;
  }

  /** The k low bytes of a number, least significant first. */
  function LeBytes(n: nat, k: nat): (r: seq<byte>)
    ensures |r| == k
  {
    if k == 0 then [] else [Low(n)] + LeBytes(n / 256, k - 1)
  }

  /** The k low bytes of a number, most significant first. */
  function BeBytes(n: nat, k: nat): (r: seq<byte>)
    ensures |r| == k
  {
    if k == 0 then [] else BeBytes(n / 256, k - 1) + [Low(n)]
  }

  lemma LeNone(k: nat)
    ensures LeBytes(0, k) == seq(k, _ => 0)
  {
    LowOfByte(0);
    hide Low;
  }

  lemma BeNone(k: nat)
    ensures BeBytes(0, k) == seq(k, _ => 0)
  {
    LowOfByte(0);
    hide Low;
  }

  lemma TwoDigits(low: nat, high: nat)
    requires low <= 255 && high <= 255
    ensures Low(low + 256 * high) == ToByte(low) && (low + 256 * high) / 256 == high
    ensures Low(high) == ToByte(high) && high / 256 == 0
  {
    hide ToByte;
    LowDigit(high, low);
  }

  /** A number of two bytes in eight. */
  lemma LeTwo(low: nat, high: nat)
    requires low <= 255 && high <= 255
    ensures LeBytes(low + 256 * high, 8) == [ToByte(low), ToByte(high), 0, 0, 0, 0, 0, 0]
  {
    hide Low, ToByte;
    TwoDigits(low, high);
    LeNone(6);
    assert LeBytes(high, 7) == [ToByte(high)] + LeBytes(0, 6);
  }

  lemma BeTwo(low: nat, high: nat)
    requires low <= 255 && high <= 255
    ensures BeBytes(low + 256 * high, 8) == [0, 0, 0, 0, 0, 0, ToByte(high), ToByte(low)]
  {
    hide Low, ToByte;
    TwoDigits(low, high);
    BeNone(6);
    assert BeBytes(high, 7) == BeBytes(0, 6) + [ToByte(high)];
  }

  function Pow256(k: nat): (p: nat)
    ensures p > 0
  {
    if k == 0 then 1 else 256 * Pow256(k - 1)
  }

  lemma LowDigit(t: nat, r: nat)
    ensures Low(256 * t + r) == Low(r) && (256 * t + r) / 256 == t + r / 256
  {
    assert (256 * t + r) % 256 == r % 256;
  }

  lemma PowStep(k: nat, q: nat)
    requires k > 0
    ensures Pow256(k) * q == 256 * (Pow256(k - 1) * q)
  {
  }

  /** The low k bytes do not see multiples of 256^k, and the bytes above them see nothing else. */
  lemma {:induction false} LeSplit(q: nat, r: nat, k: nat, j: nat)
    requires r < Pow256(k)
    ensures LeBytes(Pow256(k) * q + r, k + j) == LeBytes(r, k) + LeBytes(q, j)
  {
    if k > 0 {
      hide Low;
      var t := Pow256(k - 1) * q;
      PowStep(k, q);
      LowDigit(t, r);
      LeSplit(q, r / 256, k - 1, j);
    } else {
      assert Pow256(0) * q + r == q;
    }
  }

  lemma {:induction false} BeSplit(q: nat, r: nat, k: nat, j: nat)
    requires r < Pow256(k)
    ensures BeBytes(Pow256(k) * q + r, k + j) == BeBytes(q, j) + BeBytes(r, k)
  {
    if k > 0 {
      hide Low;
      var t := Pow256(k - 1) * q;
      PowStep(k, q);
      LowDigit(t, r);
      BeSplit(q, r / 256, k - 1, j);
    } else {
      assert Pow256(0) * q + r == q;
    }
  }

  lemma Pow256Of4()
    ensures Pow256(4) == TWO_32
  {
    assert Pow256(2) == 0x1_0000;
  }

  /** Eight bytes are the two 32-bit halves, each of them taken modulo 2^32. */
  lemma LeHalves(n: nat)
    ensures LeBytes(n, 8) == LeBytes(n % TWO_32, 4) + LeBytes(n / TWO_32 % TWO_32, 4)
  {
    hide LeBytes, Pow256;
    Pow256Of4();
    LeSplit(n / TWO_32, n % TWO_32, 4, 4);
    LeSplit(n / TWO_32 / TWO_32, n / TWO_32 % TWO_32, 4, 0);
    assert LeBytes(n / TWO_32, 4) == LeBytes(n / TWO_32 % TWO_32, 4) + LeBytes(n / TWO_32 / TWO_32, 0);
  }

  lemma BeHalves(n: nat)
    ensures BeBytes(n, 8) == BeBytes(n / TWO_32 % TWO_32, 4) + BeBytes(n % TWO_32, 4)
  {
    hide BeBytes, Pow256;
    Pow256Of4();
    BeSplit(n / TWO_32, n % TWO_32, 4, 4);
    BeSplit(n / TWO_32 / TWO_32, n / TWO_32 % TWO_32, 4, 0);
    assert BeBytes(n / TWO_32, 4) == BeBytes(n / TWO_32 / TWO_32, 0) + BeBytes(n / TWO_32 % TWO_32, 4);
  }
}
