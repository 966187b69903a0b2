/** The digests that FIPS 180 publishes for "abc" and for a message of two blocks. The rows of the tables are the
    words of the schedule and the values of the register a, eight in a row. */
module Sha1Digests {
  import opened Words
  import opened Blocks
  import opened Fips180

  /** Eight words. */
  type Row = r: seq<word> | |r| == 8 witness [0, 0, 0, 0, 0, 0, 0, 0]

  /** The registers after the rounds of a row. */
  function At(r: Row): State {
    State(r[7], r[6], RotL(r[5], 30), RotL(r[4], 30), RotL(r[3], 30))
  }

  /** From round t on the row n follows the row p. */
  predicate Turn(p: Row, n: Row, w: Row, t: nat) {
    && n[0] == Sum(p[7], F(t, p[6], RotL(p[5], 30), RotL(p[4], 30)), RotL(p[3], 30), K(t), w[0])
    && n[1] == Sum(n[0], F(t + 1, p[7], RotL(p[6], 30), RotL(p[5], 30)), RotL(p[4], 30), K(t + 1), w[1])
    && n[2] == Sum(n[1], F(t + 2, n[0], RotL(p[7], 30), RotL(p[6], 30)), RotL(p[5], 30), K(t + 2), w[2])
    && n[3] == Sum(n[2], F(t + 3, n[1], RotL(n[0], 30), RotL(p[7], 30)), RotL(p[6], 30), K(t + 3), w[3])
    && n[4] == Sum(n[3], F(t + 4, n[2], RotL(n[1], 30), RotL(n[0], 30)), RotL(p[7], 30), K(t + 4), w[4])
    && n[5] == Sum(n[4], F(t + 5, n[3], RotL(n[2], 30), RotL(n[1], 30)), RotL(n[0], 30), K(t + 5), w[5])
    && n[6] == Sum(n[5], F(t + 6, n[4], RotL(n[3], 30), RotL(n[2], 30)), RotL(n[1], 30), K(t + 6), w[6])
    && n[7] == Sum(n[6], F(t + 7, n[5], RotL(n[4], 30), RotL(n[3], 30)), RotL(n[2], 30), K(t + 7), w[7])
  }

  /** A row of the schedule holds its words from t on. */
  ghost predicate Holds(m: Block, t: nat, w: Row) {
    forall j :: 0 <= j < 8 ==> w[j] == W(m, t + j)
  }

  lemma HalfTurned(st: State, m: Block, t: nat, p: Row, n: Row, w: Row)
    requires Rounds(st, m, t) == At(p) && Holds(m, t, w) && Turn(p, n, w, t)
    ensures Rounds(st, m, t + 4) == State(n[3], n[2], RotL(n[1], 30), RotL(n[0], 30), RotL(p[7], 30))
  {
    hide Sum, F, K, W, RotL;
    assert w[0] == W(m, t) && w[1] == W(m, t + 1) && w[2] == W(m, t + 2) && w[3] == W(m, t + 3);
    assert Rounds(st, m, t + 2) == State(n[1], n[0], RotL(p[7], 30), RotL(p[6], 30), RotL(p[5], 30));
  }

  lemma Turned(st: State, m: Block, t: nat, p: Row, n: Row, w: Row)
    requires Rounds(st, m, t) == At(p) && Holds(m, t, w) && Turn(p, n, w, t)
    ensures Rounds(st, m, t + 8) == At(n)
  {
    HalfTurned(st, m, t, p, n, w);
    hide Sum, F, K, W, RotL;
    assert w[4] == W(m, t + 4) && w[5] == W(m, t + 5) && w[6] == W(m, t + 6) && w[7] == W(m, t + 7);
    assert Rounds(st, m, t + 6) == State(n[5], n[4], RotL(n[3], 30), RotL(n[2], 30), RotL(n[1], 30));
  }

  /** The row z follows the rows x and y in the schedule. */
  predicate Follow(x: Row, y: Row, z: Row) {
    && z[0] == Expand(y[5], y[0], x[2], x[0])
    && z[1] == Expand(y[6], y[1], x[3], x[1])
    && z[2] == Expand(y[7], y[2], x[4], x[2])
    && z[3] == Expand(z[0], y[3], x[5], x[3])
    && z[4] == Expand(z[1], y[4], x[6], x[4])
    && z[5] == Expand(z[2], y[5], x[7], x[5])
    && z[6] == Expand(z[3], y[6], y[0], x[6])
    && z[7] == Expand(z[4], y[7], y[1], x[7])
  }

  lemma Next(m: Block, t: nat)
    requires t >= 16
    ensures W(m, t) == Expand(W(m, t - 3), W(m, t - 8), W(m, t - 14), W(m, t - 16))
  {
  }

  lemma Followed(m: Block, t: nat, x: Row, y: Row, z: Row)
    requires Holds(m, t, x) && Holds(m, t + 8, y) && Follow(x, y, z)
    ensures Holds(m, t + 16, z)
  {
    hide Expand, W;
    Earlier(m, t, x, y);
    Next(m, t + 16);
    Next(m, t + 17);
    Next(m, t + 18);
    Next(m, t + 19);
    Next(m, t + 20);
    Next(m, t + 21);
    Next(m, t + 22);
    Next(m, t + 23);
  }

  lemma Earlier(m: Block, t: nat, x: Row, y: Row)
    requires Holds(m, t, x) && Holds(m, t + 8, y)
    ensures x[0] == W(m, t) && x[1] == W(m, t + 1) && x[2] == W(m, t + 2) && x[3] == W(m, t + 3)
    ensures x[4] == W(m, t + 4) && x[5] == W(m, t + 5) && x[6] == W(m, t + 6) && x[7] == W(m, t + 7)
    ensures y[0] == W(m, t + 8) && y[1] == W(m, t + 9) && y[2] == W(m, t + 10) && y[3] == W(m, t + 11)
    ensures y[4] == W(m, t + 12) && y[5] == W(m, t + 13) && y[6] == W(m, t + 14) && y[7] == W(m, t + 15)
  {
    hide W;
    assert y[0] == W(m, t + 8 + 0) && y[1] == W(m, t + 8 + 1) && y[2] == W(m, t + 8 + 2) && y[3] == W(m, t + 8 + 3);
    assert y[4] == W(m, t + 8 + 4) && y[5] == W(m, t + 8 + 5) && y[6] == W(m, t + 8 + 6) && y[7] == W(m, t + 8 + 7);
  }

  /** All rounds, given the rows of the schedule and of the registers. */
  ghost predicate Table(words: nat -> Row, rows: nat -> Row) {
    && Turn(rows(0), rows(1), words(0), 0) && Turn(rows(1), rows(2), words(1), 8)
    && Turn(rows(2), rows(3), words(2), 16) && Turn(rows(3), rows(4), words(3), 24)
    && Turn(rows(4), rows(5), words(4), 32) && Turn(rows(5), rows(6), words(5), 40)
    && Turn(rows(6), rows(7), words(6), 48) && Turn(rows(7), rows(8), words(7), 56)
    && Turn(rows(8), rows(9), words(8), 64) && Turn(rows(9), rows(10), words(9), 72)
    && Follow(words(0), words(1), words(2)) && Follow(words(1), words(2), words(3))
    && Follow(words(2), words(3), words(4)) && Follow(words(3), words(4), words(5))
    && Follow(words(4), words(5), words(6)) && Follow(words(5), words(6), words(7))
    && Follow(words(6), words(7), words(8)) && Follow(words(7), words(8), words(9))
  }

  lemma TableRounds(m: Block, words: nat -> Row, rows: nat -> Row)
    requires Table(words, rows) && Holds(m, 0, words(0)) && Holds(m, 8, words(1))
    ensures Rounds(At(rows(0)), m, 80) == At(rows(10))
  {
    hide Turn, Follow, Holds, At, Round;
    var st := At(rows(0));
    Turned(st, m, 0, rows(0), rows(1), words(0));
    Turned(st, m, 8, rows(1), rows(2), words(1));
    Followed(m, 0, words(0), words(1), words(2));
    Turned(st, m, 16, rows(2), rows(3), words(2));
    Followed(m, 8, words(1), words(2), words(3));
    Turned(st, m, 24, rows(3), rows(4), words(3));
    Followed(m, 16, words(2), words(3), words(4));
    Turned(st, m, 32, rows(4), rows(5), words(4));
    Followed(m, 24, words(3), words(4), words(5));
    Turned(st, m, 40, rows(5), rows(6), words(5));
    Followed(m, 32, words(4), words(5), words(6));
    Turned(st, m, 48, rows(6), rows(7), words(6));
    Followed(m, 40, words(5), words(6), words(7));
    Turned(st, m, 56, rows(7), rows(8), words(7));
    Followed(m, 48, words(6), words(7), words(8));
    Turned(st, m, 64, rows(8), rows(9), words(8));
    Followed(m, 56, words(7), words(8), words(9));
    Turned(st, m, 72, rows(9), rows(10), words(9));
  }

  /** The bytes of eight words. */
  function Spread(x: Row): (r: seq<byte>)
    ensures |r| == 32
  {
    BigEndian(x[0]) + BigEndian(x[1]) + BigEndian(x[2]) + BigEndian(x[3])
    + BigEndian(x[4]) + BigEndian(x[5]) + BigEndian(x[6]) + BigEndian(x[7])
  }

  lemma Rejoin(w: word)
    ensures FromBigEndian(BigEndian(w)) == w
  {
  }

  lemma SpreadWord(x: Row, k: nat)
    requires k < 8
    ensures Spread(x)[4 * k..4 * k + 4] == BigEndian(x[k])
  {
    hide BigEndian;
  }

  lemma SpreadWords(x: Row, y: Row)
    ensures Holds(Spread(x) + Spread(y), 0, x) && Holds(Spread(x) + Spread(y), 8, y)
  {
    hide BigEndian, FromBigEndian, Spread;
    var b: Block := Spread(x) + Spread(y);
    forall k | 0 <= k < 8
      ensures x[k] == W(b, k)
    {
      Rejoin(x[k]);
      SpreadWord(x, k);
      assert b[4 * k..4 * k + 4] == Spread(x)[4 * k..4 * k + 4];
    }
    forall k | 0 <= k < 8
      ensures y[k] == W(b, 8 + k)
    {
      Rejoin(y[k]);
      SpreadWord(y, k);
      assert b[4 * (8 + k)..4 * (8 + k) + 4] == Spread(y)[4 * k..4 * k + 4];
    }
  }

  lemma RoundsCompress(st: State, m: Block, end: State)
    requires Rounds(st, m, 80) == end
    ensures Compress(st, m) == Plus(st, end)
  {
    hide Rounds, Plus;
  }

  lemma Length(n: nat, low: byte, high: byte, l: nat, h: nat)
    requires l <= 255 && h <= 255 && low == ToByte(l) && high == ToByte(h) && 8 * n == l + 256 * h
    ensures LengthBytes(n) == [0, 0, 0, 0, 0, 0, high, low]
  {
    hide ToByte;
    BeTwo(l, h);
  }

  lemma OneBlock(b: Block)
    ensures Fold(Compressor(), INITIAL, b) == Compress(INITIAL, b)
  {
    hide Compress;
    assert [] + b == b;
    FoldSnoc(Compressor(), INITIAL, [], b);
  }

  // ---- One block ------------------------------------------------------------------------------

  /** "abc". */
  const ABC: seq<byte> := [0x61, 0x62, 0x63]

  function AbcWords(i: nat): Row {
    match i
    case 0 => [0x61626380, 0x00000000, 0x00000000, 0x00000000, 0x00000000, 0x00000000, 0x00000000, 0x00000000]
    case 1 => [0x00000000, 0x00000000, 0x00000000, 0x00000000, 0x00000000, 0x00000000, 0x00000000, 0x00000018]
    case 2 => [0xc2c4c700, 0x00000000, 0x00000030, 0x85898e01, 0x00000000, 0x00000060, 0x0b131c03, 0x00000030]
    case 3 => [0x85898ec1, 0x16263806, 0x00000000, 0x00000180, 0x2c4c700c, 0x000000f0, 0x93afb507, 0x5898e048]
    case 4 => [0x8e9a9202, 0x00000600, 0xb131c0f0, 0x16263bc6, 0x4ebed41e, 0x626380a1, 0x16263806, 0x000018c0]
    case 5 => [0xd2e138c4, 0x00000f00, 0x3afb5079, 0x898e04e5, 0xe2ba3c2b, 0x000060c0, 0x053a37cd, 0x74458547]
    case 6 => [0xda9415ed, 0x26380a16, 0x626383a1, 0x4ebf54de, 0x3835b44b, 0x0000f600, 0x1e84c7a3, 0x98e04d98]
    case 7 => [0x651d16a0, 0x62658ca1, 0x458544d6, 0x44584cb7, 0x7ba06619, 0x6380aea2, 0x0ae55269, 0x627b49a1]
    case 8 => [0x7cd45c9d, 0x000f0000, 0xfb50753a, 0xec6765e8, 0xba3c2be2, 0x0060c000, 0x3a37cd05, 0x458546f4]
    case 9 => [0xb8599dd6, 0x380a1a26, 0x01e02203, 0xe7cc3456, 0xe6e60b69, 0x00f60a00, 0x5795ef4f, 0x822e0879]
    case _ => [0, 0, 0, 0, 0, 0, 0, 0]
  }

  function AbcRows(i: nat): Row {
    match i
    case 0 => [0x00000000, 0x00000000, 0x00000000, 0x0f4b87c3, 0x40c951d8, 0x62eb73fa, 0xefcdab89, 0x67452301]
    case 1 => [0x0116fc33, 0x8990536d, 0xa1390f08, 0xcdd8e11b, 0xcfd499de, 0x3fc7ca40, 0x993e30c1, 0x9e8c07d4]
    case 2 => [0x4b6ae328, 0x8351f929, 0xfbda9e89, 0x63188fe4, 0x4607b664, 0x9128f695, 0x196bee77, 0x20bdd62f]
    case 3 => [0x4e925823, 0x82aa6728, 0xdc64901d, 0xfd9e1d7d, 0x1a37b0ca, 0x33a23bfc, 0x21283486, 0xd541f12d]
    case 4 => [0xc7567dc6, 0x48413ba4, 0xbe35fbd5, 0x4aa84d97, 0x8370b52e, 0xc5fbaf5d, 0x1267b407, 0x3b845d33]
    case 5 => [0x046faa0a, 0x2c0ebc11, 0x21796ad4, 0xdcbbb0cb, 0x0f511fd8, 0xdc63973f, 0x4c986405, 0x32de1cba]
    case 6 => [0xfc87dedf, 0x970a0d5c, 0x7f193dc5, 0xee1b1aaf, 0x40f28e09, 0x1c51e1f2, 0xa01b846c, 0xbead02ca]
    case 7 => [0xbaf39337, 0x120731c5, 0x641db2ce, 0x3847ad66, 0xe490436d, 0x27e9f1d8, 0x7b71f76d, 0x5e6456af]
    case 8 => [0xc846093f, 0xd262ff50, 0x09d785fd, 0x3f52de5a, 0xd756c147, 0x548c9cb2, 0xb66c020b, 0x6b61c9e1]
    case 9 => [0x19dfa7ac, 0x101655f9, 0x0c3df2b4, 0x78dd4d2b, 0x497093c0, 0x3f2588c2, 0xc199f8c7, 0x39859de7]
    case 10 => [0xedb42de4, 0x11793f6f, 0x5ee76897, 0x63f7dab7, 0xa079b7d9, 0x860d21cc, 0x5738d5e1, 0x42541b35]
    case _ => [0, 0, 0, 0, 0, 0, 0, 0]
  }

  lemma Abc0()
    ensures Turn(AbcRows(0), AbcRows(1), AbcWords(0), 0)
    ensures Turn(AbcRows(1), AbcRows(2), AbcWords(1), 8)
    ensures Follow(AbcWords(0), AbcWords(1), AbcWords(2))
    ensures Follow(AbcWords(1), AbcWords(2), AbcWords(3))
  {
  }

  lemma Abc1()
    ensures Turn(AbcRows(2), AbcRows(3), AbcWords(2), 16)
    ensures Turn(AbcRows(3), AbcRows(4), AbcWords(3), 24)
    ensures Follow(AbcWords(2), AbcWords(3), AbcWords(4))
    ensures Follow(AbcWords(3), AbcWords(4), AbcWords(5))
  {
  }

  lemma Abc2()
    ensures Turn(AbcRows(4), AbcRows(5), AbcWords(4), 32)
    ensures Turn(AbcRows(5), AbcRows(6), AbcWords(5), 40)
    ensures Follow(AbcWords(4), AbcWords(5), AbcWords(6))
    ensures Follow(AbcWords(5), AbcWords(6), AbcWords(7))
  {
  }

  lemma Abc3()
    ensures Turn(AbcRows(6), AbcRows(7), AbcWords(6), 48)
    ensures Turn(AbcRows(7), AbcRows(8), AbcWords(7), 56)
    ensures Follow(AbcWords(6), AbcWords(7), AbcWords(8))
    ensures Follow(AbcWords(7), AbcWords(8), AbcWords(9))
  {
  }

  lemma Abc4()
    ensures Turn(AbcRows(8), AbcRows(9), AbcWords(8), 64)
    ensures Turn(AbcRows(9), AbcRows(10), AbcWords(9), 72)
  {
  }

  lemma AbcTable()
    ensures Table(AbcWords, AbcRows)
  {
    hide AbcWords, AbcRows, Turn, Follow;
    Abc0();
    Abc1();
    Abc2();
    Abc3();
    Abc4();
  }

  lemma AbcSpreads()
    ensures Spread(AbcWords(0)) == ABC + [0x80] + Zeros(28)
    ensures Spread(AbcWords(1)) == Zeros(24) + [0, 0, 0, 0, 0, 0, 0, 24]
  {
  }

  lemma AbcPad()
    ensures Pad(ABC) == Spread(AbcWords(0)) + Spread(AbcWords(1))
  {
    ByteIsItself(24);
    Length(3, 24, 0, 24, 0);
    AbcSpreads();
    hide LengthBytes, Spread, AbcWords;
  }

  lemma AbcEnds()
    ensures At(AbcRows(0)) == INITIAL
    ensures Bytes(Plus(INITIAL, At(AbcRows(10)))) ==
            [0xa9, 0x99, 0x3e, 0x36, 0x47, 0x06, 0x81, 0x6a, 0xba, 0x3e,
             0x25, 0x71, 0x78, 0x50, 0xc2, 0x6c, 0x9c, 0xd0, 0xd8, 0x9d]
  {
  }

  /** SHA-1 of "abc" = a9993e364706816aba3e25717850c26c9cd0d89d. */
  lemma AbcDigest()
    ensures Digest(ABC) ==
            [0xa9, 0x99, 0x3e, 0x36, 0x47, 0x06, 0x81, 0x6a, 0xba, 0x3e,
             0x25, 0x71, 0x78, 0x50, 0xc2, 0x6c, 0x9c, 0xd0, 0xd8, 0x9d]
  {
    hide Table, Holds, Rounds, At, Plus, Spread, AbcRows, AbcWords, Bytes, Pad, Compress;
    AbcPad();
    AbcTable();
    AbcEnds();
    SpreadWords(AbcWords(0), AbcWords(1));
    var m := Spread(AbcWords(0)) + Spread(AbcWords(1));
    TableRounds(m, AbcWords, AbcRows);
    RoundsCompress(INITIAL, m, At(AbcRows(10)));
    OneBlock(m);
  }

  // ---- Two blocks -----------------------------------------------------------------------------

  /** "abcdbcdecdefdefgefghfghighijhijkijkljklmklmnlmnomnopnopq", in two parts. */
  function LettersA(): seq<byte> {
    [0x61, 0x62, 0x63, 0x64, 0x62, 0x63, 0x64, 0x65, 0x63, 0x64, 0x65, 0x66, 0x64, 0x65, 0x66, 0x67, 0x65, 0x66,
     0x67, 0x68, 0x66, 0x67, 0x68, 0x69, 0x67, 0x68, 0x69, 0x6a, 0x68, 0x69, 0x6a, 0x6b]
  }

  function LettersB(): seq<byte> {
    [0x69, 0x6a, 0x6b, 0x6c, 0x6a, 0x6b, 0x6c, 0x6d, 0x6b, 0x6c, 0x6d, 0x6e, 0x6c, 0x6d, 0x6e, 0x6f, 0x6d, 0x6e,
     0x6f, 0x70, 0x6e, 0x6f, 0x70, 0x71]
  }

  function Letters(): seq<byte> {
    LettersA() + LettersB()
  }

  function LettersAWords(i: nat): Row {
    match i
    case 0 => [0x61626364, 0x62636465, 0x63646566, 0x64656667, 0x65666768, 0x66676869, 0x6768696a, 0x68696a6b]
    case 1 => [0x696a6b6c, 0x6a6b6c6d, 0x6b6c6d6e, 0x6c6d6e6f, 0x6d6e6f70, 0x6e6f7071, 0x80000000, 0x00000000]
    case 2 => [0x0a063a3e, 0xd8dadcdf, 0xdadcdec0, 0xc8d2b4be, 0x6f757b5b, 0x757b5967, 0x8da16d70, 0xdaeefaba]
    case 3 => [0xfaf6cab6, 0xa6fb675a, 0x0c604cc8, 0x604cc02c, 0x49c0e6e2, 0x2ee8cbbc, 0xcfd72ec4, 0x97e9810e]
    case 4 => [0x0989cbe8, 0xf24843fe, 0x5c40d0ba, 0xa8d9cc3b, 0xb2b9666e, 0xba7b71b7, 0x20b28a72, 0xb28af500]
    case 5 => [0x8ac87842, 0x289addf4, 0x56d51f21, 0xd96b7fd2, 0x3868e778, 0xab5e4848, 0x7f0e2118, 0xde87a111]
    case 6 => [0xe8be56b0, 0x1a0ae652, 0xcd5611c8, 0x46ef29dc, 0x60d3da6d, 0xddf3ba6e, 0x2737f5e9, 0x4888a710]
    case 7 => [0xd2a1177b, 0x9999633b, 0xd6c69d03, 0xccf6127b, 0x7c58fe6d, 0xfdd99c68, 0xf8e32074, 0xe0ba3c7d]
    case 8 => [0x152198d6, 0x7b3f1982, 0x37f2d5b7, 0x8596323e, 0x810790d6, 0xbea0a942, 0x11c7e1b1, 0x6158d101]
    case 9 => [0x5fcd77d9, 0x7f2f12e6, 0xf868cfb1, 0xd6e997e9, 0xf526b852, 0xb7578dcc, 0x55d99df4, 0x1ff69958]
    case _ => [0, 0, 0, 0, 0, 0, 0, 0]
  }

  function LettersARows(i: nat): Row {
    match i
    case 0 => [0x00000000, 0x00000000, 0x00000000, 0x0f4b87c3, 0x40c951d8, 0x62eb73fa, 0xefcdab89, 0x67452301]
    case 1 => [0x0116fc17, 0xebf3b452, 0x5109913a, 0x2c4f6eac, 0x33f4ae5b, 0x96b85189, 0xdb04cb58, 0x45833f0f]
    case 2 => [0xc565c35e, 0x6350afda, 0x8993ea77, 0xe19ecaa2, 0x8603481e, 0x32f94a85, 0xb2e7a8be, 0x42637e39]
    case 3 => [0x6b068048, 0x426b9c35, 0x944b1bd1, 0x6c445652, 0x95836da5, 0x09511177, 0xe2b92dc4, 0xfd224575]
    case 4 => [0xeeb82d9a, 0x5a142c1a, 0x2972f7c7, 0xd526a644, 0xe1122421, 0x05b457b2, 0xa9c84bec, 0x52e31f60]
    case 5 => [0x5af3242c, 0x31c756a9, 0xe9ac987c, 0xab7c32ee, 0x5933fc99, 0x43f87ae9, 0x24957f22, 0xadeb7478]
    case 6 => [0xd70e5010, 0x79bcfb08, 0xf9bcb8de, 0x633e9561, 0x98c1ea64, 0xc6ea241e, 0xa2ad4f02, 0xc8a69090]
    case 7 => [0x88341600, 0x7e846f58, 0x86e358ba, 0x8d2e76c8, 0xce892e10, 0xedea95b1, 0x36d1230a, 0x776c3910]
    case 8 => [0xa681b723, 0xac0a794f, 0xf03d3782, 0x9ef775c3, 0x36254b13, 0x4080d4dc, 0x2bfaf7a8, 0x513f9ca0]
    case 9 => [0xe5895c81, 0x1037d2d5, 0x14a82da9, 0x6d17c9fd, 0x2c7b07bd, 0xfdf6efff, 0x112b96e3, 0x84065712]
    case 10 => [0xab89fb71, 0xc5210e35, 0x352d9f4b, 0x1a0e0e0a, 0xd0d47349, 0xad38620d, 0xd3ad7c25, 0x8ce34517]
    case _ => [0, 0, 0, 0, 0, 0, 0, 0]
  }

  lemma LettersA0()
    ensures Turn(LettersARows(0), LettersARows(1), LettersAWords(0), 0)
    ensures Turn(LettersARows(1), LettersARows(2), LettersAWords(1), 8)
    ensures Follow(LettersAWords(0), LettersAWords(1), LettersAWords(2))
    ensures Follow(LettersAWords(1), LettersAWords(2), LettersAWords(3))
  {
  }

  lemma LettersA1()
    ensures Turn(LettersARows(2), LettersARows(3), LettersAWords(2), 16)
    ensures Turn(LettersARows(3), LettersARows(4), LettersAWords(3), 24)
    ensures Follow(LettersAWords(2), LettersAWords(3), LettersAWords(4))
    ensures Follow(LettersAWords(3), LettersAWords(4), LettersAWords(5))
  {
  }

  lemma LettersA2()
    ensures Turn(LettersARows(4), LettersARows(5), LettersAWords(4), 32)
    ensures Turn(LettersARows(5), LettersARows(6), LettersAWords(5), 40)
    ensures Follow(LettersAWords(4), LettersAWords(5), LettersAWords(6))
    ensures Follow(LettersAWords(5), LettersAWords(6), LettersAWords(7))
  {
  }

  lemma LettersA3()
    ensures Turn(LettersARows(6), LettersARows(7), LettersAWords(6), 48)
    ensures Turn(LettersARows(7), LettersARows(8), LettersAWords(7), 56)
    ensures Follow(LettersAWords(6), LettersAWords(7), LettersAWords(8))
    ensures Follow(LettersAWords(7), LettersAWords(8), LettersAWords(9))
  {
  }

  lemma LettersA4()
    ensures Turn(LettersARows(8), LettersARows(9), LettersAWords(8), 64)
    ensures Turn(LettersARows(9), LettersARows(10), LettersAWords(9), 72)
  {
  }

  lemma LettersATable()
    ensures Table(LettersAWords, LettersARows)
  {
    hide LettersAWords, LettersARows, Turn, Follow;
    LettersA0();
    LettersA1();
    LettersA2();
    LettersA3();
    LettersA4();
  }

  function LettersBWords(i: nat): Row {
    match i
    case 0 => [0x00000000, 0x00000000, 0x00000000, 0x00000000, 0x00000000, 0x00000000, 0x00000000, 0x00000000]
    case 1 => [0x00000000, 0x00000000, 0x00000000, 0x00000000, 0x00000000, 0x00000000, 0x00000000, 0x000001c0]
    case 2 => [0x00000000, 0x00000000, 0x00000380, 0x00000000, 0x00000000, 0x00000700, 0x00000000, 0x00000380]
    case 3 => [0x00000e00, 0x00000000, 0x00000000, 0x00001c00, 0x00000000, 0x00000d80, 0x00003800, 0x00000480]
    case 4 => [0x00000000, 0x00007000, 0x00000e00, 0x00003600, 0x0000e000, 0x00000e00, 0x00000000, 0x0001ce00]
    case 5 => [0x00000000, 0x0000d800, 0x00038000, 0x00004f00, 0x00000000, 0x00070e00, 0x0000ee00, 0x00037500]
    case 6 => [0x000e0000, 0x0000e000, 0x00003600, 0x001cee00, 0x00000000, 0x000df000, 0x00380000, 0x0004c600]
    case 7 => [0x0000e000, 0x0070ee00, 0x000ee000, 0x00369e00, 0x00e00000, 0x000ed600, 0x0000e000, 0x01cea600]
    case 8 => [0x00000000, 0x00d80000, 0x0380e000, 0x004f0000, 0x00000000, 0x070e0000, 0x00ee0000, 0x03751c00]
    case 9 => [0x0e000000, 0x00e0e000, 0x00363800, 0x1cee9000, 0x00000000, 0x0df09000, 0x3800e000, 0x04c77400]
    case _ => [0, 0, 0, 0, 0, 0, 0, 0]
  }

  function LettersBRows(i: nat): Row {
    match i
    case 0 => [0x00000000, 0x00000000, 0x00000000, 0x295995c9, 0x119dc522, 0x1023d604, 0xc37b27ae, 0xf4286818]
    case 1 => [0x2df257e9, 0x4d3dc58f, 0xc352bb05, 0xeef743c6, 0x41e34277, 0x5443915c, 0xe7fa0377, 0xc6946813]
    case 2 => [0xfdde1de1, 0xb8538aca, 0x6ba94f63, 0x43a2792f, 0xfecd7bbf, 0xa2604ca8, 0x258b0baa, 0xd9772360]
    case 3 => [0x5507db6e, 0xa51b58bc, 0xc2eb709f, 0xd8992153, 0x37482f5f, 0xee8700bd, 0x9ad594b9, 0x8fbaa5b9]
    case 4 => [0x88fb5867, 0xeec50521, 0x50bce434, 0x5c416daf, 0x2429be5f, 0x0a2fb108, 0x17986223, 0x8a4af384]
    case 5 => [0x6b629993, 0xf15f04f3, 0x295cc25b, 0x696da404, 0xcef5ae12, 0x87d5b80c, 0x84e2a5f2, 0x03bb6310]
    case 6 => [0xc2d8f75f, 0xbfb25768, 0x28589152, 0xec1d3d61, 0x3caed7af, 0xc3d033ea, 0x7316056a, 0x46f93b68]
    case 7 => [0xdc8e7f26, 0x850d411c, 0x7e4672c0, 0x89fbd41d, 0x1797e228, 0x431d65bc, 0x2bdbb8cb, 0x6da72e7f]
    case 8 => [0xa8495a9b, 0xe785655a, 0x5b086c42, 0xa65818f7, 0x7aab101b, 0x93614c9c, 0xf66d9bf4, 0xd504902b]
    case 9 => [0x60a9da62, 0x8b687819, 0x083e90c3, 0xf6226bbf, 0x76c0563b, 0x989dd165, 0x8b2c7573, 0xae1b8e7b]
    case 10 => [0xca1840de, 0x16f3babb, 0xd28d83ad, 0x6bc02dfe, 0xd3a6e275, 0xda955482, 0x58c0aac0, 0x906fd62c]
    case _ => [0, 0, 0, 0, 0, 0, 0, 0]
  }

  lemma LettersB0()
    ensures Turn(LettersBRows(0), LettersBRows(1), LettersBWords(0), 0)
    ensures Turn(LettersBRows(1), LettersBRows(2), LettersBWords(1), 8)
    ensures Follow(LettersBWords(0), LettersBWords(1), LettersBWords(2))
    ensures Follow(LettersBWords(1), LettersBWords(2), LettersBWords(3))
  {
  }

  lemma LettersB1()
    ensures Turn(LettersBRows(2), LettersBRows(3), LettersBWords(2), 16)
    ensures Turn(LettersBRows(3), LettersBRows(4), LettersBWords(3), 24)
    ensures Follow(LettersBWords(2), LettersBWords(3), LettersBWords(4))
    ensures Follow(LettersBWords(3), LettersBWords(4), LettersBWords(5))
  {
  }

  lemma LettersB2()
    ensures Turn(LettersBRows(4), LettersBRows(5), LettersBWords(4), 32)
    ensures Turn(LettersBRows(5), LettersBRows(6), LettersBWords(5), 40)
    ensures Follow(LettersBWords(4), LettersBWords(5), LettersBWords(6))
    ensures Follow(LettersBWords(5), LettersBWords(6), LettersBWords(7))
  {
  }

  lemma LettersB3()
    ensures Turn(LettersBRows(6), LettersBRows(7), LettersBWords(6), 48)
    ensures Turn(LettersBRows(7), LettersBRows(8), LettersBWords(7), 56)
    ensures Follow(LettersBWords(6), LettersBWords(7), LettersBWords(8))
    ensures Follow(LettersBWords(7), LettersBWords(8), LettersBWords(9))
  {
  }

  lemma LettersB4()
    ensures Turn(LettersBRows(8), LettersBRows(9), LettersBWords(8), 64)
    ensures Turn(LettersBRows(9), LettersBRows(10), LettersBWords(9), 72)
  {
  }

  lemma LettersBTable()
    ensures Table(LettersBWords, LettersBRows)
  {
    hide LettersBWords, LettersBRows, Turn, Follow;
    LettersB0();
    LettersB1();
    LettersB2();
    LettersB3();
    LettersB4();
  }

  lemma SpreadA0()
    ensures Spread(LettersAWords(0)) == LettersA()
  {
  }

  lemma SpreadA1()
    ensures Spread(LettersAWords(1)) == LettersB() + [0x80] + Zeros(7)
  {
  }

  lemma SpreadB0()
    ensures Spread(LettersBWords(0)) == Zeros(32)
  {
  }

  lemma SpreadB1()
    ensures Spread(LettersBWords(1)) == Zeros(24) + [0, 0, 0, 0, 0, 0, 0x01, 0xc0]
  {
  }

  lemma Regroup(a: seq<byte>, b: seq<byte>, length: seq<byte>)
    requires |a| == 32 && |b| == 24 && |length| == 8
    ensures Padded(a + b, length) == (a + (b + [0x80] + Zeros(7))) + (Zeros(32) + (Zeros(24) + length))
  {
    assert ZeroCount(56) == 63;
  }

  lemma LettersPad()
    ensures Pad(Letters()) == (Spread(LettersAWords(0)) + Spread(LettersAWords(1)))
                              + (Spread(LettersBWords(0)) + Spread(LettersBWords(1)))
  {
    LettersLength();
    SpreadA0();
    SpreadA1();
    SpreadB0();
    SpreadB1();
    assert |LettersA()| == 32 && |LettersB()| == 24;
    Regroup(LettersA(), LettersB(), LengthBytes(56));
    hide LengthBytes, Padded, Spread, LettersA, LettersB, LettersAWords, LettersBWords;
  }

  lemma LettersLength()
    ensures LengthBytes(56) == [0, 0, 0, 0, 0, 0, 0x01, 0xc0]
  {
    ByteIsItself(0xc0);
    ByteIsItself(0x01);
    Length(56, 0xc0, 0x01, 192, 1);
  }

  lemma LettersEnds()
    ensures At(LettersARows(0)) == INITIAL && Plus(INITIAL, At(LettersARows(10))) == At(LettersBRows(0))
    ensures Bytes(Plus(At(LettersBRows(0)), At(LettersBRows(10)))) ==
            [0x84, 0x98, 0x3e, 0x44, 0x1c, 0x3b, 0xd2, 0x6e, 0xba, 0xae,
             0x4a, 0xa1, 0xf9, 0x51, 0x29, 0xe5, 0xe5, 0x46, 0x70, 0xf1]
  {
  }

  /** SHA-1 of this message = 84983e441c3bd26ebaae4aa1f95129e5e54670f1. */
  lemma LettersDigest()
    ensures Digest(Letters()) ==
            [0x84, 0x98, 0x3e, 0x44, 0x1c, 0x3b, 0xd2, 0x6e, 0xba, 0xae,
             0x4a, 0xa1, 0xf9, 0x51, 0x29, 0xe5, 0xe5, 0x46, 0x70, 0xf1]
  {
    hide Table, Holds, Rounds, At, Plus, Spread, LettersARows, LettersBRows, LettersAWords, LettersBWords, Bytes,
         Pad, Compress;
    LettersPad();
    LettersATable();
    LettersBTable();
    LettersEnds();
    SpreadWords(LettersAWords(0), LettersAWords(1));
    SpreadWords(LettersBWords(0), LettersBWords(1));
    var a: Block := Spread(LettersAWords(0)) + Spread(LettersAWords(1));
    var b: Block := Spread(LettersBWords(0)) + Spread(LettersBWords(1));
    TableRounds(a, LettersAWords, LettersARows);
    TableRounds(b, LettersBWords, LettersBRows);
    RoundsCompress(INITIAL, a, At(LettersARows(10)));
    RoundsCompress(At(LettersBRows(0)), b, At(LettersBRows(10)));
    OneBlock(a);
    FoldSnoc(Compressor(), INITIAL, a, b);
  }
}
