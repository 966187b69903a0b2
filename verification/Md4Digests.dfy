/** The digests that section A.5 of RFC 1320 publishes for "abc" and for a message of two blocks. The rows of the
    tables are the values that the steps compute, eight in a row. */
module Md4Digests {
  import opened Words
  import opened Blocks
  import opened MdState
  import opened Rfc1320
  import opened MdMessages
  import MessageDigest

  /** From step i on the row n follows the row p. */
  predicate Turn(p: Row, n: Row, x: seq<word>, i: nat)
    requires |x| == 16
  {
    && n[0] == NewB(State(p[4], p[7], p[6], p[5]), x, i)
    && n[1] == NewB(State(p[5], n[0], p[7], p[6]), x, i + 1)
    && n[2] == NewB(State(p[6], n[1], n[0], p[7]), x, i + 2)
    && n[3] == NewB(State(p[7], n[2], n[1], n[0]), x, i + 3)
    && n[4] == NewB(State(n[0], n[3], n[2], n[1]), x, i + 4)
    && n[5] == NewB(State(n[1], n[4], n[3], n[2]), x, i + 5)
    && n[6] == NewB(State(n[2], n[5], n[4], n[3]), x, i + 6)
    && n[7] == NewB(State(n[3], n[6], n[5], n[4]), x, i + 7)
  }

  lemma Turned(st: State, x: seq<word>, i: nat, p: Row, n: Row)
    requires |x| == 16 && Steps(st, x, i) == At(p) && Turn(p, n, x, i)
    ensures Steps(st, x, i + 8) == At(n)
  {
    hide NewB;
    assert Steps(st, x, i + 2) == State(p[6], n[1], n[0], p[7]);
    assert Steps(st, x, i + 4) == State(n[0], n[3], n[2], n[1]);
    assert Steps(st, x, i + 6) == State(n[2], n[5], n[4], n[3]);
  }

  /** The first eight steps, with what the tables of the algorithm say written out; the others follow. */
  predicate Turn0(p: Row, n: Row, x: Row, y: Row) {
    && n[0] == Op(F(p[7], p[6], p[5]), p[4], x[0], 0, 3)
    && n[1] == Op(F(n[0], p[7], p[6]), p[5], x[1], 0, 7)
    && n[2] == Op(F(n[1], n[0], p[7]), p[6], x[2], 0, 11)
    && n[3] == Op(F(n[2], n[1], n[0]), p[7], x[3], 0, 19)
    && n[4] == Op(F(n[3], n[2], n[1]), n[0], x[4], 0, 3)
    && n[5] == Op(F(n[4], n[3], n[2]), n[1], x[5], 0, 7)
    && n[6] == Op(F(n[5], n[4], n[3]), n[2], x[6], 0, 11)
    && n[7] == Op(F(n[6], n[5], n[4]), n[3], x[7], 0, 19)
  }

  predicate Turn1(p: Row, n: Row, x: Row, y: Row) {
    && n[0] == Op(F(p[7], p[6], p[5]), p[4], y[0], 0, 3)
    && n[1] == Op(F(n[0], p[7], p[6]), p[5], y[1], 0, 7)
    && n[2] == Op(F(n[1], n[0], p[7]), p[6], y[2], 0, 11)
    && n[3] == Op(F(n[2], n[1], n[0]), p[7], y[3], 0, 19)
    && n[4] == Op(F(n[3], n[2], n[1]), n[0], y[4], 0, 3)
    && n[5] == Op(F(n[4], n[3], n[2]), n[1], y[5], 0, 7)
    && n[6] == Op(F(n[5], n[4], n[3]), n[2], y[6], 0, 11)
    && n[7] == Op(F(n[6], n[5], n[4]), n[3], y[7], 0, 19)
  }

  predicate Turn2(p: Row, n: Row, x: Row, y: Row) {
    && n[0] == Op(G(p[7], p[6], p[5]), p[4], x[0], 0x5a827999, 3)
    && n[1] == Op(G(n[0], p[7], p[6]), p[5], x[4], 0x5a827999, 5)
    && n[2] == Op(G(n[1], n[0], p[7]), p[6], y[0], 0x5a827999, 9)
    && n[3] == Op(G(n[2], n[1], n[0]), p[7], y[4], 0x5a827999, 13)
    && n[4] == Op(G(n[3], n[2], n[1]), n[0], x[1], 0x5a827999, 3)
    && n[5] == Op(G(n[4], n[3], n[2]), n[1], x[5], 0x5a827999, 5)
    && n[6] == Op(G(n[5], n[4], n[3]), n[2], y[1], 0x5a827999, 9)
    && n[7] == Op(G(n[6], n[5], n[4]), n[3], y[5], 0x5a827999, 13)
  }

  predicate Turn3(p: Row, n: Row, x: Row, y: Row) {
    && n[0] == Op(G(p[7], p[6], p[5]), p[4], x[2], 0x5a827999, 3)
    && n[1] == Op(G(n[0], p[7], p[6]), p[5], x[6], 0x5a827999, 5)
    && n[2] == Op(G(n[1], n[0], p[7]), p[6], y[2], 0x5a827999, 9)
    && n[3] == Op(G(n[2], n[1], n[0]), p[7], y[6], 0x5a827999, 13)
    && n[4] == Op(G(n[3], n[2], n[1]), n[0], x[3], 0x5a827999, 3)
    && n[5] == Op(G(n[4], n[3], n[2]), n[1], x[7], 0x5a827999, 5)
    && n[6] == Op(G(n[5], n[4], n[3]), n[2], y[3], 0x5a827999, 9)
    && n[7] == Op(G(n[6], n[5], n[4]), n[3], y[7], 0x5a827999, 13)
  }

  predicate Turn4(p: Row, n: Row, x: Row, y: Row) {
    && n[0] == Op(H(p[7], p[6], p[5]), p[4], x[0], 0x6ed9eba1, 3)
    && n[1] == Op(H(n[0], p[7], p[6]), p[5], y[0], 0x6ed9eba1, 9)
    && n[2] == Op(H(n[1], n[0], p[7]), p[6], x[4], 0x6ed9eba1, 11)
    && n[3] == Op(H(n[2], n[1], n[0]), p[7], y[4], 0x6ed9eba1, 15)
    && n[4] == Op(H(n[3], n[2], n[1]), n[0], x[2], 0x6ed9eba1, 3)
    && n[5] == Op(H(n[4], n[3], n[2]), n[1], y[2], 0x6ed9eba1, 9)
    && n[6] == Op(H(n[5], n[4], n[3]), n[2], x[6], 0x6ed9eba1, 11)
    && n[7] == Op(H(n[6], n[5], n[4]), n[3], y[6], 0x6ed9eba1, 15)
  }

  predicate Turn5(p: Row, n: Row, x: Row, y: Row) {
    && n[0] == Op(H(p[7], p[6], p[5]), p[4], x[1], 0x6ed9eba1, 3)
    && n[1] == Op(H(n[0], p[7], p[6]), p[5], y[1], 0x6ed9eba1, 9)
    && n[2] == Op(H(n[1], n[0], p[7]), p[6], x[5], 0x6ed9eba1, 11)
    && n[3] == Op(H(n[2], n[1], n[0]), p[7], y[5], 0x6ed9eba1, 15)
    && n[4] == Op(H(n[3], n[2], n[1]), n[0], x[3], 0x6ed9eba1, 3)
    && n[5] == Op(H(n[4], n[3], n[2]), n[1], y[3], 0x6ed9eba1, 9)
    && n[6] == Op(H(n[5], n[4], n[3]), n[2], x[7], 0x6ed9eba1, 11)
    && n[7] == Op(H(n[6], n[5], n[4]), n[3], y[7], 0x6ed9eba1, 15)
  }

  /** They are what the algorithm does at their place. */
  lemma Turn0Is(p: Row, n: Row, x: Row, y: Row)
    requires Turn0(p, n, x, y)
    ensures Turn(p, n, x + y, 0)
  {
    hide Op;
  }

  lemma Turn1Is(p: Row, n: Row, x: Row, y: Row)
    requires Turn1(p, n, x, y)
    ensures Turn(p, n, x + y, 8)
  {
    hide Op;
  }

  lemma Turn2Is(p: Row, n: Row, x: Row, y: Row)
    requires Turn2(p, n, x, y)
    ensures Turn(p, n, x + y, 16)
  {
    hide Op;
  }

  lemma Turn3Is(p: Row, n: Row, x: Row, y: Row)
    requires Turn3(p, n, x, y)
    ensures Turn(p, n, x + y, 24)
  {
    hide Op;
  }

  lemma Turn4Is(p: Row, n: Row, x: Row, y: Row)
    requires Turn4(p, n, x, y)
    ensures Turn(p, n, x + y, 32)
  {
    hide Op;
  }

  lemma Turn5Is(p: Row, n: Row, x: Row, y: Row)
    requires Turn5(p, n, x, y)
    ensures Turn(p, n, x + y, 40)
  {
    hide Op;
  }

  /** All steps, given the rows and both halves of the block. */
  ghost predicate Table(rows: nat -> Row, x: Row, y: Row) {
    && Turn0(rows(0), rows(1), x, y) && Turn1(rows(1), rows(2), x, y)
    && Turn2(rows(2), rows(3), x, y) && Turn3(rows(3), rows(4), x, y)
    && Turn4(rows(4), rows(5), x, y) && Turn5(rows(5), rows(6), x, y)
  }

  lemma TableSteps(rows: nat -> Row, x: Row, y: Row)
    requires Table(rows, x, y)
    ensures Steps(At(rows(0)), x + y, 48) == At(rows(6))
  {
    hide Turn0, Turn1, Turn2, Turn3, Turn4, Turn5, Turn, Step, At;
    var st := At(rows(0));
    Turn0Is(rows(0), rows(1), x, y);
    Turned(st, x + y, 0, rows(0), rows(1));
    Turn1Is(rows(1), rows(2), x, y);
    Turned(st, x + y, 8, rows(1), rows(2));
    Turn2Is(rows(2), rows(3), x, y);
    Turned(st, x + y, 16, rows(2), rows(3));
    Turn3Is(rows(3), rows(4), x, y);
    Turned(st, x + y, 24, rows(3), rows(4));
    Turn4Is(rows(4), rows(5), x, y);
    Turned(st, x + y, 32, rows(4), rows(5));
    Turn5Is(rows(5), rows(6), x, y);
    Turned(st, x + y, 40, rows(5), rows(6));
  }

  // ---- One block ------------------------------------------------------------------------------

  function AbcRows(i: nat): Row {
    match i
    case 0 => [0x00000000, 0x00000000, 0x00000000, 0x00000000, 0x67452301, 0x10325476, 0x98badcfe, 0xefcdab89]
    case 1 => [0x031b1304, 0xee123855, 0xd38454e4, 0xf66d8f45, 0xe98a3ac6, 0x0f435cf0, 0x97854e65, 0x613b2bc8]
    case 2 => [0xc65cc9b7, 0x6e365830, 0x15d2eef5, 0xa7d13acb, 0xa299a540, 0x04e19293, 0x24baadcb, 0xda717395]
    case 3 => [0x1389a66c, 0x43b67f2e, 0xdd3d21a5, 0x228b5116, 0x8e5c895d, 0x8abf3b85, 0xbd68a784, 0x4ec68171]
    case 4 => [0xbe6d33db, 0x75cb1df4, 0x74661d2d, 0x0323e3b7, 0x7296594c, 0x4e7e1748, 0x3dd42422, 0x8e531b8f]
    case 5 => [0xfe66819a, 0x73824016, 0x2f4e3583, 0xfd9fcfeb, 0x74a13dc8, 0x99e6af11, 0x03f2b578, 0x71a2ad97]
    case 6 => [0x798f0b3e, 0x3f5d0629, 0xea0ccd51, 0xacbf46ad, 0x12bc25a3, 0x8d405204, 0x4f4fe461, 0x630a7626]
    case _ => [0, 0, 0, 0, 0, 0, 0, 0]
  }

  lemma Abc0()
    ensures Turn0(AbcRows(0), AbcRows(1), AbcX(), AbcY())
    ensures Turn1(AbcRows(1), AbcRows(2), AbcX(), AbcY())
  {
  }

  lemma Abc1()
    ensures Turn2(AbcRows(2), AbcRows(3), AbcX(), AbcY())
    ensures Turn3(AbcRows(3), AbcRows(4), AbcX(), AbcY())
  {
  }

  lemma Abc2()
    ensures Turn4(AbcRows(4), AbcRows(5), AbcX(), AbcY())
    ensures Turn5(AbcRows(5), AbcRows(6), AbcX(), AbcY())
  {
  }

  // ---- Two blocks -----------------------------------------------------------------------------

  function DigitsARows(i: nat): Row {
    match i
    case 0 => [0x00000000, 0x00000000, 0x00000000, 0x00000000, 0x67452301, 0x10325476, 0x98badcfe, 0xefcdab89]
    case 1 => [0xa1999181, 0x0aac5501, 0xae460585, 0xa5e98d03, 0x00b8f5cc, 0xe70619f6, 0x368bff3b, 0xb997f266]
    case 2 => [0x6b912d8d, 0x6da231aa, 0xa8a9c322, 0xb252ebfa, 0x5b198744, 0x44149fab, 0xaf154e59, 0x69c1d515]
    case 3 => [0xb728913a, 0xba44d28f, 0x1b9a89f6, 0xc214b62f, 0x1fb69dbf, 0x9223830c, 0x19a5ea71, 0x7de70dce]
    case 4 => [0x308e96ee, 0xd098390b, 0xd3681231, 0x5a393b25, 0x9bf3fedc, 0x18a3a247, 0xaaf88901, 0x5226907c]
    case 5 => [0xfbf6bf40, 0xb6d0b181, 0x625cb348, 0x34ef9156, 0xeb2b75cb, 0xec4e502e, 0xc44e89e7, 0x30984b97]
    case 6 => [0x56a94ffd, 0xc203265b, 0x6e4f505c, 0x52b2e846, 0xd5b87097, 0xb4217ca4, 0x32855a14, 0x2e1fa46e]
    case _ => [0, 0, 0, 0, 0, 0, 0, 0]
  }

  lemma DigitsA0()
    ensures Turn0(DigitsARows(0), DigitsARows(1), DigitsAX(), DigitsAY())
    ensures Turn1(DigitsARows(1), DigitsARows(2), DigitsAX(), DigitsAY())
  {
  }

  lemma DigitsA1()
    ensures Turn2(DigitsARows(2), DigitsARows(3), DigitsAX(), DigitsAY())
    ensures Turn3(DigitsARows(3), DigitsARows(4), DigitsAX(), DigitsAY())
  {
  }

  lemma DigitsA2()
    ensures Turn4(DigitsARows(4), DigitsARows(5), DigitsAX(), DigitsAY())
    ensures Turn5(DigitsARows(5), DigitsARows(6), DigitsAX(), DigitsAY())
  {
  }

  function DigitsBRows(i: nat): Row {
    match i
    case 0 => [0x00000000, 0x00000000, 0x00000000, 0x00000000, 0x3cfd9398, 0xc453d11a, 0xcb403712, 0x1ded4ff7]
    case 1 => [0xf43b0739, 0xf71c430a, 0x73da17f3, 0x59c22afc, 0x60ca5d5f, 0x77270325, 0xe20e86e4, 0x31dde444]
    case 2 => [0x37c72626, 0x7a53f4b4, 0xed5a40ae, 0x574565aa, 0x28cfb725, 0xd4ad2f1f, 0x3d569f89, 0xa6bb5e94]
    case 3 => [0x82443483, 0xb0b8f73a, 0x231f6875, 0x498c146b, 0x84a29681, 0x9930a681, 0x84f11e0e, 0xe490a517]
    case 4 => [0xd05752a4, 0x1086c417, 0x14b77d60, 0x4eaa89f5, 0x7dce8f4b, 0xf6f96238, 0x4904e5dc, 0x3d5cc4df]
    case 5 => [0x3c07a2e5, 0x65a37f5c, 0xb75b18e6, 0x3aefcd9b, 0x497366d6, 0x8a3d5132, 0xb7f830fe, 0xe16b0f3f]
    case 6 => [0x39678d1e, 0x17df64d2, 0x301c97b5, 0xbcacb774, 0x9f4fa84b, 0x71b1fb35, 0x4b3b078a, 0xfc04e8a5]
    case _ => [0, 0, 0, 0, 0, 0, 0, 0]
  }

  lemma DigitsB0()
    ensures Turn0(DigitsBRows(0), DigitsBRows(1), DigitsBX(), DigitsBY())
    ensures Turn1(DigitsBRows(1), DigitsBRows(2), DigitsBX(), DigitsBY())
  {
  }

  lemma DigitsB1()
    ensures Turn2(DigitsBRows(2), DigitsBRows(3), DigitsBX(), DigitsBY())
    ensures Turn3(DigitsBRows(3), DigitsBRows(4), DigitsBX(), DigitsBY())
  {
  }

  lemma DigitsB2()
    ensures Turn4(DigitsBRows(4), DigitsBRows(5), DigitsBX(), DigitsBY())
    ensures Turn5(DigitsBRows(5), DigitsBRows(6), DigitsBX(), DigitsBY())
  {
  }

  /** What the steps say about the compression of a block. */
  lemma StepsCompress(st: State, x: Row, y: Row, end: State)
    requires Steps(st, x + y, 48) == end
    ensures MessageDigest.Compress(MessageDigest.MD4, st, Spread(x) + Spread(y)) == Plus(end, st)
  {
    hide Steps, Plus, Spread, WordsOf;
    SpreadWords(x, y);
  }

  lemma AbcTable()
    ensures Table(AbcRows, AbcX(), AbcY())
  {
    hide AbcRows, AbcX, AbcY, Turn0, Turn1, Turn2, Turn3, Turn4, Turn5;
    Abc0(); Abc1(); Abc2();
  }

  lemma AbcEnds()
    ensures At(AbcRows(0)) == INITIAL
    ensures Bytes(Plus(At(AbcRows(6)), INITIAL)) ==
            [0xa4, 0x48, 0x01, 0x7a, 0xaf, 0x21, 0xd8, 0x52, 0x5f, 0xc1, 0x0a, 0xe8, 0x7a, 0xa6, 0x72, 0x9d]
  {
  }

  /** MD4 ("abc") = a448017aaf21d8525fc10ae87aa6729d. */
  lemma AbcDigest()
    ensures MessageDigest.Digest(MessageDigest.MD4, ABC) ==
            [0xa4, 0x48, 0x01, 0x7a, 0xaf, 0x21, 0xd8, 0x52, 0x5f, 0xc1, 0x0a, 0xe8, 0x7a, 0xa6, 0x72, 0x9d]
  {
    hide Table, Steps, At, Plus, Spread, AbcRows, AbcX, AbcY, Bytes, MessageDigest.Pad, MessageDigest.Compress;
    AbcPad();
    AbcTable();
    AbcEnds();
    TableSteps(AbcRows, AbcX(), AbcY());
    StepsCompress(INITIAL, AbcX(), AbcY(), At(AbcRows(6)));
    OneBlock(Spread(AbcX()) + Spread(AbcY()));
  }

  lemma OneBlock(b: Block)
    ensures Fold(MessageDigest.Compressor(MessageDigest.MD4), INITIAL, b)
            == MessageDigest.Compress(MessageDigest.MD4, INITIAL, b)
  {
    hide MessageDigest.Compress;
    assert [] + b == b;
    FoldSnoc(MessageDigest.Compressor(MessageDigest.MD4), INITIAL, [], b);
  }

  lemma DigitsTables()
    ensures Table(DigitsARows, DigitsAX(), DigitsAY()) && Table(DigitsBRows, DigitsBX(), DigitsBY())
  {
    hide DigitsARows, DigitsBRows, DigitsAX, DigitsAY, DigitsBX, DigitsBY,
         Turn0, Turn1, Turn2, Turn3, Turn4, Turn5;
    DigitsA0(); DigitsA1(); DigitsA2();
    DigitsB0(); DigitsB1(); DigitsB2();
  }

  lemma DigitsEnds()
    ensures At(DigitsARows(0)) == INITIAL && Plus(At(DigitsARows(6)), INITIAL) == At(DigitsBRows(0))
    ensures Bytes(Plus(At(DigitsBRows(6)), At(DigitsBRows(0)))) ==
            [0xe3, 0x3b, 0x4d, 0xdc, 0x9c, 0x38, 0xf2, 0x19, 0x9c, 0x3e, 0x7b, 0x16, 0x4f, 0xcc, 0x05, 0x36]
  {
  }

  /** MD4 of these 80 digits = e33b4ddc9c38f2199c3e7b164fcc0536. */
  lemma DigitsDigest()
    ensures MessageDigest.Digest(MessageDigest.MD4, Digits()) ==
            [0xe3, 0x3b, 0x4d, 0xdc, 0x9c, 0x38, 0xf2, 0x19, 0x9c, 0x3e, 0x7b, 0x16, 0x4f, 0xcc, 0x05, 0x36]
  {
    hide Table, Steps, At, Plus, Spread, DigitsARows, DigitsBRows, DigitsAX, DigitsAY, DigitsBX, DigitsBY, Bytes,
         MessageDigest.Pad, MessageDigest.Compress;
    DigitsPad();
    DigitsTables();
    DigitsEnds();
    TableSteps(DigitsARows, DigitsAX(), DigitsAY());
    TableSteps(DigitsBRows, DigitsBX(), DigitsBY());
    StepsCompress(INITIAL, DigitsAX(), DigitsAY(), At(DigitsARows(6)));
    StepsCompress(At(DigitsBRows(0)), DigitsBX(), DigitsBY(), At(DigitsBRows(6)));
    var a, b: Block := Spread(DigitsAX()) + Spread(DigitsAY()), Spread(DigitsBX()) + Spread(DigitsBY());
    OneBlock(a);
    FoldSnoc(MessageDigest.Compressor(MessageDigest.MD4), INITIAL, a, b);
  }
}
