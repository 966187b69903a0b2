/** The digests that section A.5 of RFC 1321 publishes for "abc" and for a message of two blocks. The rows of the
    tables are the values that the steps compute, eight in a row. */
module Md5Digests {
  import opened Words
  import opened Blocks
  import opened MdState
  import opened Rfc1321
  import opened MdMessages
  import MessageDigest

  /** From step i on the row n follows the row p. */
  predicate Turn(p: Row, n: Row, x: seq<word>, i: nat)
    requires |x| == 16
  {
    && n[0] == NewB(State(p[4], p[7], p[6], p[5]), x, i)
    && n[1] == NewB(State(p[5], n[0], p[7], p[6]), x, i + 1)
    && n[2] == NewB(State(p[6], n[1], n[0], p[7]), x, i + 2)
    && n[3] == NewB(State(p[7], n[2], n[1], n[0]), x, i + 3)
    && n[4] == NewB(State(n[0], n[3], n[2], n[1]), x, i + 4)
    && n[5] == NewB(State(n[1], n[4], n[3], n[2]), x, i + 5)
    && n[6] == NewB(State(n[2], n[5], n[4], n[3]), x, i + 6)
    && n[7] == NewB(State(n[3], n[6], n[5], n[4]), x, i + 7)
  }

  lemma Turned(st: State, x: seq<word>, i: nat, p: Row, n: Row)
    requires |x| == 16 && Steps(st, x, i) == At(p) && Turn(p, n, x, i)
    ensures Steps(st, x, i + 8) == At(n)
  {
    hide NewB;
    assert Steps(st, x, i + 2) == State(p[6], n[1], n[0], p[7]);
    assert Steps(st, x, i + 4) == State(n[0], n[3], n[2], n[1]);
    assert Steps(st, x, i + 6) == State(n[2], n[5], n[4], n[3]);
  }

  /** The first eight steps, with what the tables of the algorithm say written out; the others follow. */
  predicate Turn0(p: Row, n: Row, x: Row, y: Row) {
    && n[0] == Op(F(p[7], p[6], p[5]), p[4], p[7], x[0], 0xd76aa478, 7)
    && n[1] == Op(F(n[0], p[7], p[6]), p[5], n[0], x[1], 0xe8c7b756, 12)
    && n[2] == Op(F(n[1], n[0], p[7]), p[6], n[1], x[2], 0x242070db, 17)
    && n[3] == Op(F(n[2], n[1], n[0]), p[7], n[2], x[3], 0xc1bdceee, 22)
    && n[4] == Op(F(n[3], n[2], n[1]), n[0], n[3], x[4], 0xf57c0faf, 7)
    && n[5] == Op(F(n[4], n[3], n[2]), n[1], n[4], x[5], 0x4787c62a, 12)
    && n[6] == Op(F(n[5], n[4], n[3]), n[2], n[5], x[6], 0xa8304613, 17)
    && n[7] == Op(F(n[6], n[5], n[4]), n[3], n[6], x[7], 0xfd469501, 22)
  }

  predicate Turn1(p: Row, n: Row, x: Row, y: Row) {
    && n[0] == Op(F(p[7], p[6], p[5]), p[4], p[7], y[0], 0x698098d8, 7)
    && n[1] == Op(F(n[0], p[7], p[6]), p[5], n[0], y[1], 0x8b44f7af, 12)
    && n[2] == Op(F(n[1], n[0], p[7]), p[6], n[1], y[2], 0xffff5bb1, 17)
    && n[3] == Op(F(n[2], n[1], n[0]), p[7], n[2], y[3], 0x895cd7be, 22)
    && n[4] == Op(F(n[3], n[2], n[1]), n[0], n[3], y[4], 0x6b901122, 7)
    && n[5] == Op(F(n[4], n[3], n[2]), n[1], n[4], y[5], 0xfd987193, 12)
    && n[6] == Op(F(n[5], n[4], n[3]), n[2], n[5], y[6], 0xa679438e, 17)
    && n[7] == Op(F(n[6], n[5], n[4]), n[3], n[6], y[7], 0x49b40821, 22)
  }

  predicate Turn2(p: Row, n: Row, x: Row, y: Row) {
    && n[0] == Op(G(p[7], p[6], p[5]), p[4], p[7], x[1], 0xf61e2562, 5)
    && n[1] == Op(G(n[0], p[7], p[6]), p[5], n[0], x[6], 0xc040b340, 9)
    && n[2] == Op(G(n[1], n[0], p[7]), p[6], n[1], y[3], 0x265e5a51, 14)
    && n[3] == Op(G(n[2], n[1], n[0]), p[7], n[2], x[0], 0xe9b6c7aa, 20)
    && n[4] == Op(G(n[3], n[2], n[1]), n[0], n[3], x[5], 0xd62f105d, 5)
    && n[5] == Op(G(n[4], n[3], n[2]), n[1], n[4], y[2], 0x02441453, 9)
    && n[6] == Op(G(n[5], n[4], n[3]), n[2], n[5], y[7], 0xd8a1e681, 14)
    && n[7] == Op(G(n[6], n[5], n[4]), n[3], n[6], x[4], 0xe7d3fbc8, 20)
  }

  predicate Turn3(p: Row, n: Row, x: Row, y: Row) {
    && n[0] == Op(G(p[7], p[6], p[5]), p[4], p[7], y[1], 0x21e1cde6, 5)
    && n[1] == Op(G(n[0], p[7], p[6]), p[5], n[0], y[6], 0xc33707d6, 9)
    && n[2] == Op(G(n[1], n[0], p[7]), p[6], n[1], x[3], 0xf4d50d87, 14)
    && n[3] == Op(G(n[2], n[1], n[0]), p[7], n[2], y[0], 0x455a14ed, 20)
    && n[4] == Op(G(n[3], n[2], n[1]), n[0], n[3], y[5], 0xa9e3e905, 5)
    && n[5] == Op(G(n[4], n[3], n[2]), n[1], n[4], x[2], 0xfcefa3f8, 9)
    && n[6] == Op(G(n[5], n[4], n[3]), n[2], n[5], x[7], 0x676f02d9, 14)
    && n[7] == Op(G(n[6], n[5], n[4]), n[3], n[6], y[4], 0x8d2a4c8a, 20)
  }

  predicate Turn4(p: Row, n: Row, x: Row, y: Row) {
    && n[0] == Op(H(p[7], p[6], p[5]), p[4], p[7], x[5], 0xfffa3942, 4)
    && n[1] == Op(H(n[0], p[7], p[6]), p[5], n[0], y[0], 0x8771f681, 11)
    && n[2] == Op(H(n[1], n[0], p[7]), p[6], n[1], y[3], 0x6d9d6122, 16)
    && n[3] == Op(H(n[2], n[1], n[0]), p[7], n[2], y[6], 0xfde5380c, 23)
    && n[4] == Op(H(n[3], n[2], n[1]), n[0], n[3], x[1], 0xa4beea44, 4)
    && n[5] == Op(H(n[4], n[3], n[2]), n[1], n[4], x[4], 0x4bdecfa9, 11)
    && n[6] == Op(H(n[5], n[4], n[3]), n[2], n[5], x[7], 0xf6bb4b60, 16)
    && n[7] == Op(H(n[6], n[5], n[4]), n[3], n[6], y[2], 0xbebfbc70, 23)
  }

  predicate Turn5(p: Row, n: Row, x: Row, y: Row) {
    && n[0] == Op(H(p[7], p[6], p[5]), p[4], p[7], y[5], 0x289b7ec6, 4)
    && n[1] == Op(H(n[0], p[7], p[6]), p[5], n[0], x[0], 0xeaa127fa, 11)
    && n[2] == Op(H(n[1], n[0], p[7]), p[6], n[1], x[3], 0xd4ef3085, 16)
    && n[3] == Op(H(n[2], n[1], n[0]), p[7], n[2], x[6], 0x04881d05, 23)
    && n[4] == Op(H(n[3], n[2], n[1]), n[0], n[3], y[1], 0xd9d4d039, 4)
    && n[5] == Op(H(n[4], n[3], n[2]), n[1], n[4], y[4], 0xe6db99e5, 11)
    && n[6] == Op(H(n[5], n[4], n[3]), n[2], n[5], y[7], 0x1fa27cf8, 16)
    && n[7] == Op(H(n[6], n[5], n[4]), n[3], n[6], x[2], 0xc4ac5665, 23)
  }

  predicate Turn6(p: Row, n: Row, x: Row, y: Row) {
    && n[0] == Op(I(p[7], p[6], p[5]), p[4], p[7], x[0], 0xf4292244, 6)
    && n[1] == Op(I(n[0], p[7], p[6]), p[5], n[0], x[7], 0x432aff97, 10)
    && n[2] == Op(I(n[1], n[0], p[7]), p[6], n[1], y[6], 0xab9423a7, 15)
    && n[3] == Op(I(n[2], n[1], n[0]), p[7], n[2], x[5], 0xfc93a039, 21)
    && n[4] == Op(I(n[3], n[2], n[1]), n[0], n[3], y[4], 0x655b59c3, 6)
    && n[5] == Op(I(n[4], n[3], n[2]), n[1], n[4], x[3], 0x8f0ccc92, 10)
    && n[6] == Op(I(n[5], n[4], n[3]), n[2], n[5], y[2], 0xffeff47d, 15)
    && n[7] == Op(I(n[6], n[5], n[4]), n[3], n[6], x[1], 0x85845dd1, 21)
  }

  predicate Turn7(p: Row, n: Row, x: Row, y: Row) {
    && n[0] == Op(I(p[7], p[6], p[5]), p[4], p[7], y[0], 0x6fa87e4f, 6)
    && n[1] == Op(I(n[0], p[7], p[6]), p[5], n[0], y[7], 0xfe2ce6e0, 10)
    && n[2] == Op(I(n[1], n[0], p[7]), p[6], n[1], x[6], 0xa3014314, 15)
    && n[3] == Op(I(n[2], n[1], n[0]), p[7], n[2], y[5], 0x4e0811a1, 21)
    && n[4] == Op(I(n[3], n[2], n[1]), n[0], n[3], x[4], 0xf7537e82, 6)
    && n[5] == Op(I(n[4], n[3], n[2]), n[1], n[4], y[3], 0xbd3af235, 10)
    && n[6] == Op(I(n[5], n[4], n[3]), n[2], n[5], x[2], 0x2ad7d2bb, 15)
    && n[7] == Op(I(n[6], n[5], n[4]), n[3], n[6], y[1], 0xeb86d391, 21)
  }

  /** They are what the algorithm does at their place. */
  lemma Turn0Is(p: Row, n: Row, x: Row, y: Row)
    requires Turn0(p, n, x, y)
    ensures Turn(p, n, x + y, 0)
  {
    hide Op;
  }

  lemma Turn1Is(p: Row, n: Row, x: Row, y: Row)
    requires Turn1(p, n, x, y)
    ensures Turn(p, n, x + y, 8)
  {
    hide Op;
  }

  lemma Turn2Is(p: Row, n: Row, x: Row, y: Row)
    requires Turn2(p, n, x, y)
    ensures Turn(p, n, x + y, 16)
  {
    hide Op;
  }

  lemma Turn3Is(p: Row, n: Row, x: Row, y: Row)
    requires Turn3(p, n, x, y)
    ensures Turn(p, n, x + y, 24)
  {
    hide Op;
  }

  lemma Turn4Is(p: Row, n: Row, x: Row, y: Row)
    requires Turn4(p, n, x, y)
    ensures Turn(p, n, x + y, 32)
  {
    hide Op;
  }

  lemma Turn5Is(p: Row, n: Row, x: Row, y: Row)
    requires Turn5(p, n, x, y)
    ensures Turn(p, n, x + y, 40)
  {
    hide Op;
  }

  lemma Turn6Is(p: Row, n: Row, x: Row, y: Row)
    requires Turn6(p, n, x, y)
    ensures Turn(p, n, x + y, 48)
  {
    hide Op;
  }

  lemma Turn7Is(p: Row, n: Row, x: Row, y: Row)
    requires Turn7(p, n, x, y)
    ensures Turn(p, n, x + y, 56)
  {
    hide Op;
  }

  /** All steps, given the rows and both halves of the block. */
  ghost predicate Table(rows: nat -> Row, x: Row, y: Row) {
    && Turn0(rows(0), rows(1), x, y) && Turn1(rows(1), rows(2), x, y)
    && Turn2(rows(2), rows(3), x, y) && Turn3(rows(3), rows(4), x, y)
    && Turn4(rows(4), rows(5), x, y) && Turn5(rows(5), rows(6), x, y)
    && Turn6(rows(6), rows(7), x, y) && Turn7(rows(7), rows(8), x, y)
  }

  lemma TableSteps(rows: nat -> Row, x: Row, y: Row)
    requires Table(rows, x, y)
    ensures Steps(At(rows(0)), x + y, 64) == At(rows(8))
  {
    hide Turn0, Turn1, Turn2, Turn3, Turn4, Turn5, Turn6, Turn7, Turn, Step, At;
    var st := At(rows(0));
    Turn0Is(rows(0), rows(1), x, y);
    Turned(st, x + y, 0, rows(0), rows(1));
    Turn1Is(rows(1), rows(2), x, y);
    Turned(st, x + y, 8, rows(1), rows(2));
    Turn2Is(rows(2), rows(3), x, y);
    Turned(st, x + y, 16, rows(2), rows(3));
    Turn3Is(rows(3), rows(4), x, y);
    Turned(st, x + y, 24, rows(3), rows(4));
    Turn4Is(rows(4), rows(5), x, y);
    Turned(st, x + y, 32, rows(4), rows(5));
    Turn5Is(rows(5), rows(6), x, y);
    Turned(st, x + y, 40, rows(5), rows(6));
    Turn6Is(rows(6), rows(7), x, y);
    Turned(st, x + y, 48, rows(6), rows(7));
    Turn7Is(rows(7), rows(8), x, y);
    Turned(st, x + y, 56, rows(7), rows(8));
  }

  // ---- One block ------------------------------------------------------------------------------

  function AbcRows(i: nat): Row {
    match i
    case 0 => [0x00000000, 0x00000000, 0x00000000, 0x00000000, 0x67452301, 0x10325476, 0x98badcfe, 0xefcdab89]
    case 1 => [0xd6d117b4, 0x344a8432, 0x2f6fbd72, 0x7ad956f2, 0xc73741ef, 0x8bac3051, 0x207dc67b, 0x928d99f6]
    case 2 => [0x854b3712, 0x74e2f284, 0x3020401c, 0x5ed49596, 0xdda9b9a6, 0xa1051895, 0xe396856b, 0x72aff2e0]
    case 3 => [0x3e9e9126, 0x4a1d804e, 0xe25e1652, 0xb5b204e4, 0x59a8ffda, 0x6d002f1e, 0xabfc7920, 0x47092c07]
    case 4 => [0xb7f268cf, 0x09388eff, 0xfe1623b1, 0x786acb8f, 0x790a77fb, 0x9f47e4f8, 0xa62884aa, 0x726342d3]
    case 5 => [0xb3707ebf, 0x60127b2e, 0x8d212ff5, 0x3b0875c7, 0x21b117b9, 0x6e7429d5, 0x3575227e, 0x5a2f5ea5]
    case 6 => [0x11de1779, 0xfadcaa38, 0x31c465ca, 0x4c6124f4, 0x7f2e507b, 0x99d9679d, 0x8fae6399, 0x7beb9700]
    case 7 => [0x7b201df8, 0xf4e8e96e, 0xb298cefd, 0x8bf025c4, 0x06cc5e8a, 0x5b0d97aa, 0x7d632dd0, 0x3bfa2c27]
    case 8 => [0x7f81cc35, 0x094454ab, 0x4f9dbe3f, 0x7327d604, 0x310ade8f, 0x624d8cb2, 0xe484b9d8, 0xc08226b3]
    case _ => [0, 0, 0, 0, 0, 0, 0, 0]
  }

  lemma Abc0()
    ensures Turn0(AbcRows(0), AbcRows(1), AbcX(), AbcY())
    ensures Turn1(AbcRows(1), AbcRows(2), AbcX(), AbcY())
  {
  }

  lemma Abc1()
    ensures Turn2(AbcRows(2), AbcRows(3), AbcX(), AbcY())
    ensures Turn3(AbcRows(3), AbcRows(4), AbcX(), AbcY())
  {
  }

  lemma Abc2()
    ensures Turn4(AbcRows(4), AbcRows(5), AbcX(), AbcY())
    ensures Turn5(AbcRows(5), AbcRows(6), AbcX(), AbcY())
  {
  }

  lemma Abc3()
    ensures Turn6(AbcRows(6), AbcRows(7), AbcX(), AbcY())
    ensures Turn7(AbcRows(7), AbcRows(8), AbcX(), AbcY())
  {
  }

  // ---- Two blocks -----------------------------------------------------------------------------

  function DigitsARows(i: nat): Row {
    match i
    case 0 => [0x00000000, 0x00000000, 0x00000000, 0x00000000, 0x67452301, 0x10325476, 0x98badcfe, 0xefcdab89]
    case 1 => [0xbeb8ff8e, 0x7d989d89, 0xf8cdf95d, 0x862797b0, 0x8c17de9f, 0xc0f32d81, 0xe99fec1b, 0xc57e78c1]
    case 2 => [0x7c0aceb7, 0x8869d2d8, 0x5186a8ba, 0xa5f36f8d, 0x5157e49e, 0xffac907e, 0x27e983a0, 0xaf506a03]
    case 3 => [0x8d18e0e8, 0x07de0df2, 0xef223167, 0x04280170, 0x78929ee0, 0x375c6c2c, 0xb18aca50, 0xad400a91]
    case 4 => [0xbb45f43f, 0xd61f8a0f, 0x98ade6b5, 0xb70e35a9, 0xf8bcfbb0, 0xd760ed39, 0x99a0f1b8, 0x1bf25662]
    case 5 => [0x3dbd76ca, 0xfd056171, 0xc7ed7c30, 0xe0162f49, 0x3b32c408, 0x7338d8b7, 0x9ef871ad, 0x1d4d6f72]
    case 6 => [0xc661460a, 0xd2bf04c9, 0xd6d5b879, 0x89e3c4d7, 0x697032ec, 0xfa597bfc, 0xefc2c171, 0xdb4197da]
    case 7 => [0x57b91aca, 0x210c9ebc, 0x21efbd88, 0xcaa25b01, 0x633d3f7c, 0x1a4d3beb, 0xccaa1524, 0x7713f5df]
    case 8 => [0x8448b430, 0x71c93463, 0x7e294727, 0x660a801d, 0x614868eb, 0xa09f38a7, 0x5133129b, 0xb4d33102]
    case _ => [0, 0, 0, 0, 0, 0, 0, 0]
  }

  lemma DigitsA0()
    ensures Turn0(DigitsARows(0), DigitsARows(1), DigitsAX(), DigitsAY())
    ensures Turn1(DigitsARows(1), DigitsARows(2), DigitsAX(), DigitsAY())
  {
  }

  lemma DigitsA1()
    ensures Turn2(DigitsARows(2), DigitsARows(3), DigitsAX(), DigitsAY())
    ensures Turn3(DigitsARows(3), DigitsARows(4), DigitsAX(), DigitsAY())
  {
  }

  lemma DigitsA2()
    ensures Turn4(DigitsARows(4), DigitsARows(5), DigitsAX(), DigitsAY())
    ensures Turn5(DigitsARows(5), DigitsARows(6), DigitsAX(), DigitsAY())
  {
  }

  lemma DigitsA3()
    ensures Turn6(DigitsARows(6), DigitsARows(7), DigitsAX(), DigitsAY())
    ensures Turn7(DigitsARows(7), DigitsARows(8), DigitsAX(), DigitsAY())
  {
  }

  function DigitsBRows(i: nat): Row {
    match i
    case 0 => [0x00000000, 0x00000000, 0x00000000, 0x00000000, 0xc88d8bec, 0xb0d18d1d, 0xe9edef99, 0xa4a0dc8b]
    case 1 => [0x353af7cf, 0x3a4f735a, 0x63356537, 0x45e88f2c, 0x3527497e, 0xab92660e, 0x948347ae, 0x377c7d0a]
    case 2 => [0xcc912f27, 0x6945a3d5, 0xae23894d, 0xb9ede40c, 0xdb4ff71c, 0x9b6b4960, 0x04396a39, 0x58b12eab]
    case 3 => [0x52c00cae, 0xaad2a216, 0xa476af6f, 0x50f8de8c, 0x0d6e6d91, 0x17d64195, 0xd5b7a850, 0x043cb080]
    case 4 => [0x74f9377e, 0x01f2addd, 0xe775c8ca, 0xcb00b96e, 0x8761f38e, 0x7a516116, 0x061bc867, 0x67092c33]
    case 5 => [0x91044d5d, 0x610954eb, 0xc0175fa8, 0x2ee1e3fe, 0xae26ed7d, 0x71d8ecea, 0xff4a94dc, 0xdbd1bff6]
    case 6 => [0x9c350028, 0x97e5da92, 0xfacaaf06, 0x56b3692f, 0x71123afa, 0xdc9c8ddb, 0xe6a8a386, 0x1df7010a]
    case 7 => [0xd29007e7, 0x7241a77e, 0xd3248109, 0xc8797828, 0x7a504abd, 0x211cc65d, 0xa290d6ce, 0x9b31b114]
    case 8 => [0x723fd22d, 0xd21d6a3b, 0x3d79cf74, 0x4dc4f33d, 0xda67616b, 0xc9e47a04, 0x44ec5a13, 0xb12906a0]
    case _ => [0, 0, 0, 0, 0, 0, 0, 0]
  }

  lemma DigitsB0()
    ensures Turn0(DigitsBRows(0), DigitsBRows(1), DigitsBX(), DigitsBY())
    ensures Turn1(DigitsBRows(1), DigitsBRows(2), DigitsBX(), DigitsBY())
  {
  }

  lemma DigitsB1()
    ensures Turn2(DigitsBRows(2), DigitsBRows(3), DigitsBX(), DigitsBY())
    ensures Turn3(DigitsBRows(3), DigitsBRows(4), DigitsBX(), DigitsBY())
  {
  }

  lemma DigitsB2()
    ensures Turn4(DigitsBRows(4), DigitsBRows(5), DigitsBX(), DigitsBY())
    ensures Turn5(DigitsBRows(5), DigitsBRows(6), DigitsBX(), DigitsBY())
  {
  }

  lemma DigitsB3()
    ensures Turn6(DigitsBRows(6), DigitsBRows(7), DigitsBX(), DigitsBY())
    ensures Turn7(DigitsBRows(7), DigitsBRows(8), DigitsBX(), DigitsBY())
  {
  }

  /** What the steps say about the compression of a block. */
  lemma StepsCompress(st: State, x: Row, y: Row, end: State)
    requires Steps(st, x + y, 64) == end
    ensures MessageDigest.Compress(MessageDigest.MD5, st, Spread(x) + Spread(y)) == Plus(end, st)
  {
    hide Steps, Plus, Spread, WordsOf;
    SpreadWords(x, y);
  }

  lemma AbcTable()
    ensures Table(AbcRows, AbcX(), AbcY())
  {
    hide AbcRows, AbcX, AbcY, Turn0, Turn1, Turn2, Turn3, Turn4, Turn5, Turn6, Turn7;
    Abc0(); Abc1(); Abc2(); Abc3();
  }

  lemma AbcEnds()
    ensures At(AbcRows(0)) == INITIAL
    ensures Bytes(Plus(At(AbcRows(8)), INITIAL)) ==
            [0x90, 0x01, 0x50, 0x98, 0x3c, 0xd2, 0x4f, 0xb0, 0xd6, 0x96, 0x3f, 0x7d, 0x28, 0xe1, 0x7f, 0x72]
  {
  }

  /** MD5 ("abc") = 900150983cd24fb0d6963f7d28e17f72. */
  lemma AbcDigest()
    ensures MessageDigest.Digest(MessageDigest.MD5, ABC) ==
            [0x90, 0x01, 0x50, 0x98, 0x3c, 0xd2, 0x4f, 0xb0, 0xd6, 0x96, 0x3f, 0x7d, 0x28, 0xe1, 0x7f, 0x72]
  {
    hide Table, Steps, At, Plus, Spread, AbcRows, AbcX, AbcY, Bytes, MessageDigest.Pad, MessageDigest.Compress;
    AbcPad();
    AbcTable();
    AbcEnds();
    TableSteps(AbcRows, AbcX(), AbcY());
    StepsCompress(INITIAL, AbcX(), AbcY(), At(AbcRows(8)));
    OneBlock(Spread(AbcX()) + Spread(AbcY()));
  }

  lemma OneBlock(b: Block)
    ensures Fold(MessageDigest.Compressor(MessageDigest.MD5), INITIAL, b)
            == MessageDigest.Compress(MessageDigest.MD5, INITIAL, b)
  {
    hide MessageDigest.Compress;
    assert [] + b == b;
    FoldSnoc(MessageDigest.Compressor(MessageDigest.MD5), INITIAL, [], b);
  }

  lemma DigitsTables()
    ensures Table(DigitsARows, DigitsAX(), DigitsAY()) && Table(DigitsBRows, DigitsBX(), DigitsBY())
  {
    hide DigitsARows, DigitsBRows, DigitsAX, DigitsAY, DigitsBX, DigitsBY,
         Turn0, Turn1, Turn2, Turn3, Turn4, Turn5, Turn6, Turn7;
    DigitsA0(); DigitsA1(); DigitsA2(); DigitsA3();
    DigitsB0(); DigitsB1(); DigitsB2(); DigitsB3();
  }

  lemma DigitsEnds()
    ensures At(DigitsARows(0)) == INITIAL && Plus(At(DigitsARows(8)), INITIAL) == At(DigitsBRows(0))
    ensures Bytes(Plus(At(DigitsBRows(8)), At(DigitsBRows(0)))) ==
            [0x57, 0xed, 0xf4, 0xa2, 0x2b, 0xe3, 0xc9, 0x55, 0xac, 0x49, 0xda, 0x2e, 0x21, 0x07, 0xb6, 0x7a]
  {
  }

  /** MD5 of these 80 digits = 57edf4a22be3c955ac49da2e2107b67a. */
  lemma DigitsDigest()
    ensures MessageDigest.Digest(MessageDigest.MD5, Digits()) ==
            [0x57, 0xed, 0xf4, 0xa2, 0x2b, 0xe3, 0xc9, 0x55, 0xac, 0x49, 0xda, 0x2e, 0x21, 0x07, 0xb6, 0x7a]
  {
    hide Table, Steps, At, Plus, Spread, DigitsARows, DigitsBRows, DigitsAX, DigitsAY, DigitsBX, DigitsBY, Bytes,
         MessageDigest.Pad, MessageDigest.Compress;
    DigitsPad();
    DigitsTables();
    DigitsEnds();
    TableSteps(DigitsARows, DigitsAX(), DigitsAY());
    TableSteps(DigitsBRows, DigitsBX(), DigitsBY());
    StepsCompress(INITIAL, DigitsAX(), DigitsAY(), At(DigitsARows(8)));
    StepsCompress(At(DigitsBRows(0)), DigitsBX(), DigitsBY(), At(DigitsBRows(8)));
    var a, b: Block := Spread(DigitsAX()) + Spread(DigitsAY()), Spread(DigitsBX()) + Spread(DigitsBY());
    OneBlock(a);
    FoldSnoc(MessageDigest.Compressor(MessageDigest.MD5), INITIAL, a, b);
  }
}
