/** The byte-level encodings of the packets: the masked MAC, the two checksums and the rotated
    password. */
module Encoding {
  import opened Words
  import opened Dwords

  /** Appends a byte to a number; dwords wrap, as uint64_t does. */
  function Push(x: dword, a: byte): dword {
    x * 256 + a as dword
  }

  function Xor(x: dword, y: dword): dword {
    x ^ y
  }

  // ---- The masked MAC -------------------------------------------------------------------------

  /** Two byte strings combined byte by byte. */
  function XorBytes(x: seq<byte>, y: seq<byte>): (r: seq<byte>)
    requires |x| == |y|
    ensures |r| == |x|
  {
    seq(|x|, i requires 0 <= i < |x| => x[i] ^ y[i])
  }

  /** Bytes read as one big-endian number. */
  function Pack(s: seq<byte>): dword {
    if s == [] then 0 else Push(Pack(s[..|s| - 1]), s[|s| - 1])
  }

  lemma XorDigit(x: dword, y: dword, a: byte, b: byte)
    ensures Xor(Push(x, a), Push(y, b)) == Push(Xor(x, y), a ^ b)
  {
    calc {
      Xor(Push(x, a), Push(y, b));
      Push(x, a) ^ Push(y, b);
      (x * 256 + a as dword) ^ (y * 256 + b as dword);
      (x ^ y) * 256 + (a ^ b) as dword;
      Push(x ^ y, a ^ b);
      Push(Xor(x, y), a ^ b);
    }
  }

  lemma {:induction false} PackXor(x: seq<byte>, y: seq<byte>)
    requires |x| == |y|
    ensures Xor(Pack(x), Pack(y)) == Pack(XorBytes(x, y))
  {
    if x != [] {
      hide Push, Xor;
      var n := |x| - 1;
      PackXor(x[..n], y[..n]);
      assert XorBytes(x, y)[..n] == XorBytes(x[..n], y[..n]);
      XorDigit(Pack(x[..n]), Pack(y[..n]), x[n], y[n]);
    }
  }

  /** x is less than 256^k, for k up to 6. */
  predicate Fits(x: dword, k: nat) {
    match k
    case 0 => x == 0
    case 1 => x <= 0xff
    case 2 => x <= 0xffff
    case 3 => x <= 0xff_ffff
    case 4 => x <= 0xffff_ffff
    case 5 => x <= 0xff_ffff_ffff
    case _ => x <= 0xffff_ffff_ffff
  }

  lemma PushFits(x: dword, a: byte, k: nat)
    requires 0 < k <= 6 && Fits(x, k - 1)
    ensures Fits(Push(x, a), k)
  {
  }

  lemma {:induction false} PackFits(s: seq<byte>)
    requires |s| <= 6
    ensures Fits(Pack(s), |s|)
  {
    if s == [] {
    } else {
      hide Push, Fits;
      PackFits(s[..|s| - 1]);
      PushFits(Pack(s[..|s| - 1]), s[|s| - 1], |s|);
    }
  }

  lemma UnpackDigit(x: dword, a: byte, k: nat)
    requires k <= 5 && Fits(x, k)
    ensures LowByte(Push(x, a)) == a && DropByte(Push(x, a)) == x
  {
    assert x <= 0xff_ffff_ffff;
    RawDigit(x, a);
    calc {
      LowByte(Push(x, a));
      LowByte(x * 256 + a as dword);
      ((x * 256 + a as dword) % 256) as byte;
      a;
    }
    calc {
      DropByte(Push(x, a));
      DropByte(x * 256 + a as dword);
      (x * 256 + a as dword) / 256;
      x;
    }
  }

  lemma RawDigit(x: dword, a: byte)
    requires x <= 0xff_ffff_ffff
    ensures ((x * 256 + a as dword) % 256) as byte == a
    ensures (x * 256 + a as dword) / 256 == x
  {
  }

  lemma UnpackLast(s: seq<byte>)
    requires 0 < |s| <= 6
    ensures LowByte(Pack(s)) == s[|s| - 1] && DropByte(Pack(s)) == Pack(s[..|s| - 1])
  {
    hide Push, Fits, LowByte, DropByte;
    PackFits(s[..|s| - 1]);
    UnpackDigit(Pack(s[..|s| - 1]), s[|s| - 1], |s| - 1);
  }

  method PackLoop(s: seq<byte>) returns (sum: dword)
    ensures sum == Pack(s)
  {
    hide Push;
    sum := 0;
    var i := 0;
    while i < |s|
      invariant i <= |s| && sum == Pack(s[..i])
    {
      assert s[..i + 1][..i] == s[..i];
      sum := Push(sum, s[i]);
      i := i + 1;
    }
    assert s[..i] == s;
  }

  /** dhcp_login masks the MAC in 48-bit arithmetic: packed, combined, and unpacked from the last byte on. */
  method MaskMac(digest: seq<byte>, mac: seq<byte>) returns (r: array<byte>)
    requires |digest| == 6 && |mac| == 6
    ensures fresh(r) && r[..] == XorBytes(digest, mac)
  {
    hide Push, XorBytes, Xor, LowByte, DropByte;
    var sum := PackLoop(digest);
    var packed := PackLoop(mac);
    PackXor(digest, mac);
    sum := Xor(sum, packed);
    ghost var masked := XorBytes(digest, mac);
    assert masked[..6] == masked;
    r := new byte[6];
    var i := 6;
    while i > 0
      invariant i <= 6 && sum == Pack(masked[..i]) && forall j :: i <= j < 6 ==> r[j] == masked[j]
    {
      UnpackLast(masked[..i]);
      assert masked[..i][..i - 1] == masked[..i - 1];
      r[i - 1] := LowByte(sum);
      sum := DropByte(sum);
      i := i - 1;
    }
  }

  // ---- The checksums --------------------------------------------------------------------------

  /** A start value combined with all little-endian words of s. */
  function XorWords(s: seq<byte>, start: word): word
    requires |s| % 4 == 0
  {
    if s == [] then start else XorWords(s[..|s| - 4], start) ^ FromLittleEndian(s[|s| - 4..])
  }

  /** What is combined: each word, its first byte lowest. */
  lemma XorWordsStep(s: seq<byte>, start: word, a: byte, b: byte, c: byte, d: byte)
    requires |s| % 4 == 0
    ensures XorWords([], start) == start
    ensures XorWords(s + [a, b, c, d], start) == XorWords(s, start) ^ FromLittleEndian([a, b, c, d])
  {
    hide FromLittleEndian;
    assert (s + [a, b, c, d])[..|s|] == s && (s + [a, b, c, d])[|s|..] == [a, b, c, d];
  }

  lemma LowestFirst(a: byte, b: byte, c: byte, d: byte)
    ensures FromLittleEndian([a, b, c, d]) == (a as word) | (b as word << 8) | (c as word << 16) | (d as word << 24)
  {
  }

  /** s, with zero bytes up to a multiple of four. */
  function ToWords(s: seq<byte>): (r: seq<byte>)
    ensures |r| % 4 == 0
  {
    s + seq((4 - |s| % 4) % 4, _ => 0)
  }

  /** factor times the combined words, modulo 2^32, as four little-endian bytes. */
  function Checksum(s: seq<byte>, start: word, factor: nat): (r: seq<byte>)
    requires |s| % 4 == 0
    ensures |r| == 4
  {
    LeBytes(factor * WordValue(XorWords(s, start)) % TWO_32, 4)
  }

  /** The number that the four bytes stand for. */
  lemma ChecksumValue(s: seq<byte>, start: word, factor: nat)
    requires |s| % 4 == 0
    ensures var r := Checksum(s, start, factor);
            r[0] as nat + 0x100 * (r[1] as nat) + 0x1_0000 * (r[2] as nat) + 0x100_0000 * (r[3] as nat)
            == factor * WordValue(XorWords(s, start)) % 0x1_0000_0000
  {
    hide XorWords, WordValue;
    FourDigits(factor * WordValue(XorWords(s, start)) % TWO_32);
  }

  lemma FourDigits(n: nat)
    requires n < TWO_32
    ensures var r := LeBytes(n, 4);
            r[0] as nat + 0x100 * (r[1] as nat) + 0x1_0000 * (r[2] as nat) + 0x100_0000 * (r[3] as nat) == n
  {
    hide Low;
    var a, b, c := n / 256, n / 256 / 256, n / 256 / 256 / 256;
    assert LeBytes(n, 4) == [Low(n)] + LeBytes(a, 3) && LeBytes(a, 3) == [Low(a)] + LeBytes(b, 2);
    assert LeBytes(b, 2) == [Low(b)] + LeBytes(c, 1) && LeBytes(c, 1) == [Low(c)] + LeBytes(c / 256, 0);
    hide LeBytes;
    LowRest(n);
    LowRest(a);
    LowRest(b);
    LowRest(c);
    Together(n, a, b, c);
  }

  lemma LowRest(n: nat)
    ensures Low(n) as nat == n % 256
  {
  }

  lemma Together(n: nat, a: nat, b: nat, c: nat)
    requires n < TWO_32 && a == n / 256 && b == a / 256 && c == b / 256
    ensures n % 256 + 0x100 * (a % 256) + 0x1_0000 * (b % 256) + 0x100_0000 * (c % 256) == n
  {
  }

  lemma WidenXor(x: word, y: word)
    ensures Xor(Widen(x), Widen(y)) == Widen(x ^ y)
  {
    assert (x as dword) ^ (y as dword) == (x ^ y) as dword;
  }

  /** A sum of words never leaves the low 32 bits, so the mask of pppoe_login changes nothing. */
  lemma MaskKeeps(x: word)
    ensures Mask(Widen(x)) == Widen(x)
  {
    assert (x as dword) & 0xffff_ffff == x as dword;
  }

  /** Reading four bytes from the last to the first is reading a little-endian word. */
  lemma ReadWord(a: byte, b: byte, c: byte, d: byte)
    ensures Push(Push(Push(Push(0, d), c), b), a) == Widen(Join(a, b, c, d))
  {
  }

  /** The checksum loop: every fourth index below n starts a word; masked tells the PPPoE variant. */
  method XorLoop(s: seq<byte>, n: nat, start: word, masked: bool) returns (sum: dword)
    requires n <= |s| && |s| % 4 == 0 && |s| - n < 4
    ensures sum == Widen(XorWords(s, start))
  {
    hide Push, Join, Widen, Xor, Mask, XorWords, FromLittleEndian;
    sum := WidenStart(start);
    var i := 0;
    NoWords(s, start);
    while i < n
      invariant i <= |s| && i % 4 == 0 && sum == Widen(XorWords(s[..i], start))
    {
      var ret := ReadLoop(s, i);
      XorNext(s, i, start);
      sum := Combine(sum, ret, masked, XorWords(s[..i], start), FromLittleEndian(s[i..i + 4]));
      i := i + 4;
    }
    assert s[..i] == s;
  }

  lemma NoWords(s: seq<byte>, start: word)
    ensures XorWords(s[..0], start) == start
  {
  }

  /** The inner loop: four bytes, from the last to the first. */
  method ReadLoop(s: seq<byte>, i: nat) returns (ret: dword)
    requires i + 4 <= |s|
    ensures ret == Widen(FromLittleEndian(s[i..i + 4]))
  {
    hide Push, Join, Widen;
    ret := Push(0, s[i + 3]);
    ret := Push(ret, s[i + 2]);
    ret := Push(ret, s[i + 1]);
    ret := Push(ret, s[i]);
    ReadWord(s[i], s[i + 1], s[i + 2], s[i + 3]);
  }

  method Combine(sum: dword, ret: dword, masked: bool, ghost x: word, ghost y: word) returns (r: dword)
    requires sum == Widen(x) && ret == Widen(y)
    ensures r == Widen(x ^ y)
  {
    hide Widen, Xor, Mask;
    WidenXor(x, y);
    MaskKeeps(x ^ y);
    r := Xor(sum, ret);
    if masked {
      r := Mask(r);
    }
  }

  function WidenStart(x: word): (r: dword)
    ensures r == Widen(x)
  {
    x as dword
  }

  lemma XorNext(s: seq<byte>, i: nat, start: word)
    requires i % 4 == 0 && i + 4 <= |s|
    ensures XorWords(s[..i + 4], start) == XorWords(s[..i], start) ^ FromLittleEndian(s[i..i + 4])
    ensures FromLittleEndian(s[i..i + 4]) == Join(s[i], s[i + 1], s[i + 2], s[i + 3])
  {
    hide Join;
    assert s[..i + 4][..i] == s[..i] && s[..i + 4][i..] == s[i..i + 4];
  }

  /** checksum2 of dhcp_login over the n bytes of a message that four zero bytes follow. The sum is
      sent by shifting and masking. */
  method LoginChecksum(s: seq<byte>, n: nat) returns (r: seq<byte>)
    requires |s| == n + 4 && s[n..] == [0, 0, 0, 0]
    ensures r == Checksum(ToWords(s[..n]), 1234, 1968)
  {
    hide Widen, XorWords, LeBytes, Mask, Times, WordValue;
    ghost var padded := n + (4 - n % 4) % 4;
    ghost var words := s[..padded];
    assert words == ToWords(s[..n]);
    var sum := XorLoop(s[..n + (4 - n % 4) % 4], n, 1234, false);
    Factors();
    MaskedProduct(1968, XorWords(words, 1234));
    sum := Mask(Times(1968, sum));
    r := EmitByShifts(sum);
  }

  /** checksum of pppoe_login over 32 bytes; the sum is sent by dividing. */
  method PppoeChecksum(s: seq<byte>) returns (r: seq<byte>)
    requires |s| == 32
    ensures r == Checksum(s, 0, 19680126)
  {
    hide Widen, XorWords, LeBytes, Mask, Times, WordValue;
    var sum := XorLoop(s, 32, 0, true);
    Factors();
    MaskedProduct(19680126, XorWords(s, 0));
    sum := Mask(Times(19680126, sum));
    r := EmitByDivision(sum);
  }

  lemma FactorDigits()
    ensures LowByte(1968) == 0xb0 && LowByte(DropByte(1968)) == 0x07 && DropByte(DropByte(1968)) == 0
    ensures LowByte(19680126) == 0x7e && LowByte(DropByte(19680126)) == 0x4b
    ensures LowByte(DropByte(DropByte(19680126))) == 0x2c && LowByte(DropByte(DropByte(DropByte(19680126)))) == 0x01
    ensures DropByte(DropByte(DropByte(DropByte(19680126)))) == 0
  {
  }

  lemma Factors()
    ensures Num(1968) == 1968 && Num(19680126) == 19680126
  {
    FactorDigits();
    hide Num, DropByte, LowByte;
    NumStep(0);
    NumDigits(1968);
    NumDigits(DropByte(1968));
    NumFour(19680126);
  }

  /** sum >> (8 * j) & 0xff for j from 0 to 3. */
  method EmitByShifts(sum: dword) returns (r: seq<byte>)
    ensures r == LeBytes(Num(sum), 4)
  {
    hide Num, LowByte, DropByte, ByteAt;
    FourBytes(sum);
    ShiftedBytes(sum);
    r := [];
    for j := 0 to 4
      invariant r == [ByteAt(sum, 0), ByteAt(sum, 1), ByteAt(sum, 2), ByteAt(sum, 3)][..j]
    {
      r := r + [ByteAt(sum, j)];
    }
  }

  /** sum % 256, then sum / 256, four times. */
  method EmitByDivision(n: dword) returns (r: seq<byte>)
    ensures r == LeBytes(Num(n), 4)
  {
    hide Num, LowByte, DropByte, LeBytes;
    var sum := n;
    r := [];
    for i := 0 to 4
      invariant r + LeBytes(Num(sum), 4 - i) == LeBytes(Num(n), 4)
    {
      NumBytes(sum, 4 - i);
      r := r + [LowByte(sum)];
      sum := DropByte(sum);
    }
    NoBytes(Num(sum));
  }

  lemma NoBytes(n: nat)
    ensures LeBytes(n, 0) == []
  {
  }

  lemma FourBytes(x: dword)
    ensures LeBytes(Num(x), 4) == [LowByte(x), LowByte(DropByte(x)), LowByte(DropByte(DropByte(x))),
                                   LowByte(DropByte(DropByte(DropByte(x))))]
  {
    hide Num, LowByte, DropByte, LeBytes;
    NumBytes(x, 4);
    NumBytes(DropByte(x), 3);
    NumBytes(DropByte(DropByte(x)), 2);
    NumBytes(DropByte(DropByte(DropByte(x))), 1);
    NoBytes(Num(DropByte(DropByte(DropByte(DropByte(x))))));
  }

  /** Shifting by whole bytes is dividing. */
  lemma ShiftedBytes(x: dword)
    ensures ByteAt(x, 0) == LowByte(x) && ByteAt(x, 1) == LowByte(DropByte(x))
    ensures ByteAt(x, 2) == LowByte(DropByte(DropByte(x)))
    ensures ByteAt(x, 3) == LowByte(DropByte(DropByte(DropByte(x))))
  {
    assert ((x >> 8) & 0xff) as byte == (x / 256 % 256) as byte;
    assert ((x >> 16) & 0xff) as byte == (x / 256 / 256 % 256) as byte;
    assert ((x >> 24) & 0xff) as byte == (x / 256 / 256 / 256 % 256) as byte;
  }

  // ---- The rotated password -------------------------------------------------------------------

  /** Rotation of a byte to the left by three bits, and back. */
  function Rotate(b: byte): byte {
    (b << 3) | (b >> 5)
  }

  function Unrotate(b: byte): byte {
    (b >> 3) | (b << 5)
  }

  /** The conversion of a char to int: where char is signed, high bytes become negative. */
  function CharToInt(c: byte, signed: bool): word {
    if signed && c >= 0x80 then 0xffff_ff00 | c as word else c as word
  }

  /** x >> 5 on a 32-bit int, with the sign carried along. */
  function ShiftInt(x: word): word {
    if x >= 0x8000_0000 then (x >> 5) | 0xf800_0000 else x >> 5
  }

  /** What dhcp_login sends for one byte of the password. */
  function EncodeChar(digest: byte, c: byte, signed: bool): byte {
    var x := (digest as word) ^ CharToInt(c, signed);
    ((((x << 3) & 0xff) + ShiftInt(x)) & 0xff) as byte
  }

  /** Undoing the rotation and the digest. */
  function DecodeChar(digest: byte, sent: byte): byte {
    Unrotate(sent) ^ digest
  }

  /** The character comes back exactly if its conversion to int was not negative. */
  lemma CharRoundTrip(digest: byte, c: byte, signed: bool)
    ensures DecodeChar(digest, EncodeChar(digest, c, signed)) == c <==> !(signed && c >= 0x80)
  {
  }

  /** A character that is not negative is sent as the rotation of its combination with the digest. */
  lemma EncodeIsRotation(digest: byte, c: byte, signed: bool)
    requires !(signed && c >= 0x80)
    ensures EncodeChar(digest, c, signed) == Rotate(digest ^ c)
  {
  }
}
