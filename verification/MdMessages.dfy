/** The two messages whose published digests are worked out, padded and read as words. */
module MdMessages {
  import opened Words
  import opened Blocks
  import opened MdState
  import MessageDigest

  /** Eight words: half a block, or the values that eight steps compute. */
  type Row = r: seq<word> | |r| == 8 witness [0, 0, 0, 0, 0, 0, 0, 0]

  /** The registers after the steps of a row. */
  function At(r: Row): State {
    State(r[4], r[7], r[6], r[5])
  }

  /** The bytes of eight words. */
  function Spread(x: Row): (r: seq<byte>)
    ensures |r| == 32
  {
    LittleEndian(x[0]) + LittleEndian(x[1]) + LittleEndian(x[2]) + LittleEndian(x[3])
    + LittleEndian(x[4]) + LittleEndian(x[5]) + LittleEndian(x[6]) + LittleEndian(x[7])
  }

  lemma Rejoin(w: word)
    ensures FromLittleEndian(LittleEndian(w)) == w
  {
  }

  lemma SpreadWord(x: Row, k: nat)
    requires k < 8
    ensures Spread(x)[4 * k..4 * k + 4] == LittleEndian(x[k])
  {
    hide LittleEndian;
  }

  lemma LowWord(x: Row, y: seq<byte>, k: nat)
    requires k < 8
    ensures FromLittleEndian((Spread(x) + y)[4 * k..4 * k + 4]) == x[k]
  {
    hide LittleEndian, FromLittleEndian, Spread;
    Rejoin(x[k]);
    SpreadWord(x, k);
    assert (Spread(x) + y)[4 * k..4 * k + 4] == Spread(x)[4 * k..4 * k + 4];
  }

  lemma HighWord(x: seq<byte>, y: Row, k: nat)
    requires |x| == 32 && 8 <= k < 16
    ensures FromLittleEndian((x + Spread(y))[4 * k..4 * k + 4]) == y[k - 8]
  {
    hide LittleEndian, FromLittleEndian, Spread;
    Rejoin(y[k - 8]);
    SpreadWord(y, k - 8);
    assert (x + Spread(y))[4 * k..4 * k + 4] == Spread(y)[4 * k - 32..4 * k - 28];
  }

  lemma SpreadWords(x: Row, y: Row)
    ensures WordsOf(Spread(x) + Spread(y)) == x + y
  {
    hide LittleEndian, FromLittleEndian, Spread;
    forall k | 0 <= k < 16
      ensures FromLittleEndian((Spread(x) + Spread(y))[4 * k..4 * k + 4]) == (x + y)[k]
    {
      if k < 8 {
        LowWord(x, Spread(y), k);
      } else {
        HighWord(Spread(x), y, k);
      }
    }
  }

  lemma Length(n: nat, low: byte, high: byte, l: nat, h: nat)
    requires l <= 255 && h <= 255 && low == ToByte(l) && high == ToByte(h) && 8 * n == l + 256 * h
    ensures MessageDigest.LengthBytes(n) == [low, high, 0, 0, 0, 0, 0, 0]
  {
    hide ToByte;
    LeTwo(l, h);
  }

  // ---- One block ------------------------------------------------------------------------------

  /** "abc". */
  const ABC: seq<byte> := [0x61, 0x62, 0x63]

  function AbcX(): Row {
    [0x80636261, 0x00000000, 0x00000000, 0x00000000, 0x00000000, 0x00000000, 0x00000000, 0x00000000]
  }

  function AbcY(): Row {
    [0x00000000, 0x00000000, 0x00000000, 0x00000000, 0x00000000, 0x00000000, 0x00000018, 0x00000000]
  }

  lemma AbcSpreads()
    ensures Spread(AbcX()) == ABC + [0x80] + Zeros(28)
    ensures Spread(AbcY()) == Zeros(24) + [24, 0, 0, 0, 0, 0, 0, 0]
  {
  }

  lemma AbcPad()
    ensures MessageDigest.Pad(ABC) == Spread(AbcX()) + Spread(AbcY())
  {
    ByteIsItself(24);
    Length(3, 24, 0, 24, 0);
    AbcSpreads();
    hide MessageDigest.LengthBytes, Spread, AbcX, AbcY;
  }

  // ---- Two blocks -----------------------------------------------------------------------------

  /** "1234567890", eight times, in three parts. */
  function DigitsA(): seq<byte> {
    [0x31, 0x32, 0x33, 0x34, 0x35, 0x36, 0x37, 0x38, 0x39, 0x30, 0x31, 0x32, 0x33, 0x34, 0x35, 0x36, 0x37, 0x38,
     0x39, 0x30, 0x31, 0x32, 0x33, 0x34, 0x35, 0x36, 0x37, 0x38, 0x39, 0x30, 0x31, 0x32]
  }

  function DigitsB(): seq<byte> {
    [0x33, 0x34, 0x35, 0x36, 0x37, 0x38, 0x39, 0x30, 0x31, 0x32, 0x33, 0x34, 0x35, 0x36, 0x37, 0x38, 0x39, 0x30,
     0x31, 0x32, 0x33, 0x34, 0x35, 0x36, 0x37, 0x38, 0x39, 0x30, 0x31, 0x32, 0x33, 0x34]
  }

  function DigitsC(): seq<byte> {
    [0x35, 0x36, 0x37, 0x38, 0x39, 0x30, 0x31, 0x32, 0x33, 0x34, 0x35, 0x36, 0x37, 0x38, 0x39, 0x30]
  }

  function Digits(): seq<byte> {
    DigitsA() + DigitsB() + DigitsC()
  }

  function DigitsAX(): Row {
    [0x34333231, 0x38373635, 0x32313039, 0x36353433, 0x30393837, 0x34333231, 0x38373635, 0x32313039]
  }

  function DigitsAY(): Row {
    [0x36353433, 0x30393837, 0x34333231, 0x38373635, 0x32313039, 0x36353433, 0x30393837, 0x34333231]
  }

  function DigitsBX(): Row {
    [0x38373635, 0x32313039, 0x36353433, 0x30393837, 0x00000080, 0x00000000, 0x00000000, 0x00000000]
  }

  function DigitsBY(): Row {
    [0x00000000, 0x00000000, 0x00000000, 0x00000000, 0x00000000, 0x00000000, 0x00000280, 0x00000000]
  }

  lemma SpreadAX()
    ensures Spread(DigitsAX()) == DigitsA()
  {
  }

  lemma SpreadAY()
    ensures Spread(DigitsAY()) == DigitsB()
  {
  }

  lemma SpreadBX()
    ensures Spread(DigitsBX()) == DigitsC() + [0x80] + Zeros(15)
  {
  }

  lemma SpreadBY()
    ensures Spread(DigitsBY()) == Zeros(24) + [0x80, 0x02, 0, 0, 0, 0, 0, 0]
  {
  }

  lemma DigitsLength()
    ensures MessageDigest.LengthBytes(80) == [0x80, 0x02, 0, 0, 0, 0, 0, 0]
  {
    ByteIsItself(0x80);
    ByteIsItself(0x02);
    Length(80, 0x80, 0x02, 128, 2);
  }

  lemma Regroup(a: seq<byte>, b: seq<byte>, c: seq<byte>, length: seq<byte>)
    requires |a| == 32 && |b| == 32 && |c| == 16 && |length| == 8
    ensures Padded(a + b + c, length) == (a + b) + ((c + [0x80] + Zeros(15)) + (Zeros(24) + length))
  {
    assert ZeroCount(80) == 39;
  }

  lemma DigitsPad()
    ensures MessageDigest.Pad(Digits()) ==
            (Spread(DigitsAX()) + Spread(DigitsAY())) + (Spread(DigitsBX()) + Spread(DigitsBY()))
  {
    DigitsLength();
    SpreadAX();
    SpreadAY();
    SpreadBX();
    SpreadBY();
    assert |DigitsA()| == 32 && |DigitsB()| == 32 && |DigitsC()| == 16;
    Regroup(DigitsA(), DigitsB(), DigitsC(), MessageDigest.LengthBytes(80));
    hide MessageDigest.LengthBytes, Padded, Spread, DigitsA, DigitsB, DigitsC, DigitsAX, DigitsAY, DigitsBX, DigitsBY;
  }
}
