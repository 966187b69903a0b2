/** Readers of the finished packets, and the proof that no write of dhcp_login spoils what an
    earlier one put there. */
module ReadBack {
  import opened Words
  import opened Text
  import opened Settings
  import opened Fields
  import opened Encoding
  import opened Layout
  import opened Protocol
  import MessageDigest

  /** A field in front of whatever follows it. */
  lemma FieldRead(left: seq<byte>, data: seq<byte>, width: nat, p: seq<byte>)
    requires |data| <= width && left + Field(data, width) <= p
    ensures left <= p && |left| + width <= |p| && p[|left|..|left| + |data|] == data
    ensures forall i :: |left| + |data| <= i < |left| + width ==> p[i] == 0
  {
    var q := left + Field(data, width);
    assert p[..|q|] == q;
    assert left == q[..|left|] && data == q[|left|..|left| + |data|];
  }

  lemma {:induction false} UpToNulOf(name: text, s: seq<byte>)
    requires NUL !in name && name < s && s[|name|] == NUL
    ensures UpToNul(s) == name
  {
    if name != [] {
      assert s[0] == name[0];
      UpToNulOf(name[1..], s[1..]);
    }
  }

  lemma NameRead(left: seq<byte>, name: text, width: nat, p: seq<byte>)
    requires NUL !in name && |name| < width && left + Field(name, width) <= p
    ensures |left| + width <= |p| && UpToNul(p[|left|..|left| + width]) == name
  {
    FieldRead(left, name, width, p);
    var s := p[|left|..|left| + width];
    assert s[..|name|] == p[|left|..|left| + |name|];
    UpToNulOf(name, s);
  }

  lemma LowOfLength(n: nat)
    requires n < 256
    ensures Low(n) as nat == n
  {
  }

  lemma Unmask(digest: seq<byte>, mac: seq<byte>)
    requires |digest| == |mac|
    ensures XorBytes(XorBytes(digest, mac), digest) == mac
  {
    forall i | 0 <= i < |mac|
      ensures (digest[i] ^ mac[i]) ^ digest[i] == mac[i]
    {
      Cancel(digest[i], mac[i]);
    }
  }

  lemma Cancel(x: byte, y: byte)
    ensures (x ^ y) ^ x == y
  {
  }

  // ---- Readers --------------------------------------------------------------------------------

  function Username(p: seq<byte>): text
    requires |p| >= 56
  {
    var n := p[3] as nat;
    if 20 <= n <= 56 then p[20..n] else []
  }

  /** The MAC behind its mask, which the digest of the packet removes. */
  function MaskedMac(p: seq<byte>): seq<byte>
    requires |p| >= 64
  {
    XorBytes(p[58..64], p[4..10])
  }

  /** Where the tail of a login packet starts. */
  function TailAt(p: seq<byte>, ror: bool): nat
    requires |p| >= 314
  {
    if ror then 314 + p[313] as nat else 312
  }

  function PlainMac(p: seq<byte>, ror: bool): seq<byte>
    requires |p| >= 314
  {
    var at := TailAt(p, ror) + 8;
    if at + 6 <= |p| then p[at..at + 6] else []
  }

  /** The password of a login packet that carries it. */
  function Password(p: seq<byte>): text
    requires |p| >= 314
  {
    var n := p[313] as nat;
    if n <= 16 && 314 + n <= |p| then seq(n, i requires 0 <= i < n => DecodeChar(p[4 + i], p[314 + i])) else []
  }

  // ---- The identity part, in both packets -----------------------------------------------------

  lemma IdentityReads(cfg: Config, code: byte, seed: seq<byte>, p: seq<byte>)
    requires cfg.Fits() && Identity(cfg, code, seed) <= p
    ensures p[4..20] == Md5A(code, seed, cfg.password) && Username(p) == cfg.username
    ensures p[56] == cfg.controlCheckStatus && p[57] == cfg.adapterNum && MaskedMac(p) == cfg.mac
  {
    hide Md5A, XorBytes, Low, Field;
    var digest := Md5A(code, seed, cfg.password);
    var masked := XorBytes(digest[..6], cfg.mac);
    var q0 := [code, 0x01, 0x00, Low(|cfg.username| + 20)];
    var q1 := q0 + Field(digest, 16);
    var q2 := q1 + Field(cfg.username, 36);
    var q3 := q2 + Field([cfg.controlCheckStatus], 1);
    var q4 := q3 + Field([cfg.adapterNum], 1);
    FieldRead(q4, masked, 6, p);
    FieldRead(q3, [cfg.adapterNum], 1, p);
    FieldRead(q2, [cfg.controlCheckStatus], 1, p);
    FieldRead(q1, cfg.username, 36, p);
    FieldRead(q0, digest, 16, p);
    assert p[56] == p[56..57][0] && p[57] == p[57..58][0];
    LowOfLength(|cfg.username| + 20);
    assert p[..4] == q0;
    assert p[3] == Low(|cfg.username| + 20);
    assert p[4..10] == digest[..6];
    Unmask(digest[..6], cfg.mac);
  }

  // ---- The login packet -----------------------------------------------------------------------

  lemma HeadReads(cfg: Config, seed: seq<byte>, ip: seq<byte>, p: seq<byte>)
    requires cfg.Fits() && |ip| == 4 && LoginHead(cfg, seed, ip) <= p
    ensures Identity(cfg, 0x03, seed) <= p
    ensures p[64..80] == Md5B(seed, cfg.password) && p[80] == 0x01 && p[81..85] == ip
    ensures p[..97] == LoginHead(cfg, seed, ip)
  {
    hide Identity, Md5B, Field;
    var q0 := Identity(cfg, 0x03, seed);
    var q1 := q0 + Field(Md5B(seed, cfg.password), 16);
    var q2 := q1 + Field([0x01], 1);
    FieldRead(q2, ip, 16, p);
    FieldRead(q1, [0x01], 1, p);
    FieldRead(q0, Md5B(seed, cfg.password), 16, p);
    assert p[80] == p[80..81][0];
  }

  lemma HostReads(cfg: Config, head: seq<byte>, dns: seq<byte>, dhcp: seq<byte>, jlu: bool, p: seq<byte>)
    requires cfg.Fits() && |head| == 97 && |dns| == |dhcp| == 4 && NUL !in cfg.hostName
    requires LoginHost(cfg, head, dns, dhcp, jlu) <= p
    ensures head <= p && p[97..105] == HeadChecksum(head)
    ensures p[105] == cfg.ipDog && UpToNul(p[110..142]) == cfg.hostName
    ensures p[142..146] == dns && p[146..150] == dhcp
    ensures p[162] == 0x94 && p[166] == (if jlu then 0x06 else 0x05) && p[170] == (if jlu then 0x02 else 0x01)
    ensures p[174..176] == (if jlu then [0xf0, 0x23] else [0x28, 0x0a]) && p[178] == 0x02
  {
    hide HeadChecksum, Field, UpToNul;
    var q0 := head + Field(HeadChecksum(head), 8);
    var q1 := q0 + Field([cfg.ipDog], 5);
    var q2 := q1 + Field(cfg.hostName, 32);
    var q3 := q2 + Field(dns, 4);
    var q4 := q3 + Field(dhcp, 4);
    VersionReads(q4, jlu, p);
    FieldRead(q3, dhcp, 4, p);
    FieldRead(q2, dns, 4, p);
    NameRead(q1, cfg.hostName, 32, p);
    FieldRead(q1, cfg.hostName, 32, p);
    FieldRead(q0, [cfg.ipDog], 5, p);
    FieldRead(head, HeadChecksum(head), 8, p);
    assert p[105] == p[105..106][0];
  }

  lemma VersionReads(left: seq<byte>, jlu: bool, p: seq<byte>)
    requires |left| == 150
    requires left + Field([], 12) + Field([0x94], 4) + Field([if jlu then 0x06 else 0x05], 4)
             + Field([if jlu then 0x02 else 0x01], 4) + Field(if jlu then [0xf0, 0x23] else [0x28, 0x0a], 4)
             + Field([0x02], 4) <= p
    ensures left <= p
    ensures p[162] == 0x94 && p[166] == (if jlu then 0x06 else 0x05) && p[170] == (if jlu then 0x02 else 0x01)
    ensures p[174..176] == (if jlu then [0xf0, 0x23] else [0x28, 0x0a]) && p[178] == 0x02
  {
    hide Field;
    var q0 := left + Field([], 12);
    var q1 := q0 + Field([0x94], 4);
    var q2 := q1 + Field([if jlu then 0x06 else 0x05], 4);
    var q3 := q2 + Field([if jlu then 0x02 else 0x01], 4);
    var q4 := q3 + Field(if jlu then [0xf0, 0x23] else [0x28, 0x0a], 4);
    FieldRead(q4, [0x02], 4, p);
    FieldRead(q3, if jlu then [0xf0, 0x23] else [0x28, 0x0a], 4, p);
    FieldRead(q2, [if jlu then 0x02 else 0x01], 4, p);
    FieldRead(q1, [if jlu then 0x06 else 0x05], 4, p);
    FieldRead(q0, [0x94], 4, p);
    FieldRead(left, [], 12, p);
    assert p[162] == p[162..163][0] && p[166] == p[166..167][0] && p[170] == p[170..171][0] && p[178] == p[178..179][0];
  }

  lemma FixedReads(cfg: Config, seed: seq<byte>, ip: seq<byte>, dns: seq<byte>, dhcp: seq<byte>, jlu: bool,
    p: seq<byte>)
    requires cfg.Fits() && |ip| == |dns| == |dhcp| == 4 && LoginFixed(cfg, seed, ip, dns, dhcp, jlu) <= p
    requires NUL !in cfg.hostOs
    ensures LoginHost(cfg, LoginHead(cfg, seed, ip), dns, dhcp, jlu) <= p && p[310..312] == cfg.authVersion
    ensures if jlu then p[182..191] == JLU_HOST && p[246..286] == JLU_SERVICE_PACK
            else UpToNul(p[182..246]) == cfg.hostOs
  {
    hide LoginHost, Field, UpToNul;
    var q0 := LoginHost(cfg, LoginHead(cfg, seed, ip), dns, dhcp, jlu);
    var q1 := q0 + SystemNames(cfg, jlu);
    FieldRead(q1, cfg.authVersion, 2, p);
    if jlu {
      assert q1 == q0 + Field(JLU_HOST, 64) + Field(JLU_SERVICE_PACK, 64);
      FieldRead(q0 + Field(JLU_HOST, 64), JLU_SERVICE_PACK, 64, p);
      FieldRead(q0, JLU_HOST, 64, p);
    } else {
      assert q1 == q0 + Field(cfg.hostOs, 64) + Field([], 64);
      FieldRead(q0 + Field(cfg.hostOs, 64), [], 64, p);
      NameRead(q0, cfg.hostOs, 64, p);
      FieldRead(q0, cfg.hostOs, 64, p);
    }
  }

  /** What is sent for a character: its combination with the digest, rotated by three bits; where it is negative as an
      int, the bits that come in from the left are ones, and they are added. */
  predicate Rotates(digest: byte, c: byte, signed: bool, sent: byte) {
    var x := digest ^ c;
    sent == if signed && c >= 0x80 then (x << 3) + ((x >> 5) | 0xf8) else (x << 3) | (x >> 5)
  }

  lemma EncodeRotates(digest: byte, c: byte, signed: bool)
    ensures Rotates(digest, c, signed, EncodeChar(digest, c, signed))
  {
  }

  /** The password part of the packet. */
  lemma BodyReads(cfg: Config, seed: seq<byte>, fixed: seq<byte>, jlu: bool, signed: bool, p: seq<byte>)
    requires cfg.Fits() && UsesRor(cfg, jlu) && |cfg.password| <= 16 && |fixed| == 312
    requires LoginBody(cfg, seed, fixed, jlu, signed) <= p && p[4..20] == Md5A(0x03, seed, cfg.password)
    ensures p[312] == 0 && p[313] as nat == |cfg.password| && 314 + |cfg.password| <= |p|
    ensures forall i :: 0 <= i < |cfg.password| ==> p[314 + i] == EncodeChar(p[4 + i], cfg.password[i], signed)
    ensures Password(p) == cfg.password <==> !(signed && exists i :: 0 <= i < |cfg.password| && cfg.password[i] >= 0x80)
  {
    hide Md5A, EncodeChar, DecodeChar, Low;
    var digest, n := Md5A(0x03, seed, cfg.password), |cfg.password|;
    var q := fixed + [0x00, Low(n)];
    var encoded := Encoded(digest, cfg.password, signed);
    assert p[..|q + encoded|] == q + encoded;
    assert p[312] == q[312] && p[313] == q[313];
    LowOfLength(n);
    assert |Password(p)| == n;
    forall i | 0 <= i < n
      ensures Password(p)[i] == cfg.password[i] <==> !(signed && cfg.password[i] >= 0x80)
      ensures p[314 + i] == EncodeChar(p[4 + i], cfg.password[i], signed)
    {
      assert p[314 + i] == encoded[i] && p[4 + i] == p[4..20][i];
      CharRoundTrip(digest[i], cfg.password[i], signed);
    }
  }

  /** The tail of the packet: nothing follows the end code but the zero bytes of the JLU template. */
  lemma TailReads(cfg: Config, body: seq<byte>, jlu: bool, padding: nat, trailing: nat, p: seq<byte>)
    requires cfg.Fits()
    requires p == body + [0x02, 0x0c] + Field(BodyChecksum(cfg, body), 6) + Field(cfg.mac, 6 + padding)
                  + Field(EndCode(jlu), 2 + trailing)
    ensures |p| == |body| + padding + trailing + 16 && body <= p
    ensures p[|body|..|body| + 2] == [0x02, 0x0c] && p[|body| + 6..|body| + 8] == [0x00, 0x00]
    ensures p[|body| + 2..|body| + 6] == BodyChecksum(cfg, body) && p[|body| + 8..|body| + 14] == cfg.mac
    ensures p[|p| - trailing - 2..|p| - trailing] == EndCode(jlu)
    ensures forall i :: |p| - trailing <= i < |p| ==> p[i] == 0
  {
    hide BodyChecksum, Field, EndCode;
    var q0 := body + [0x02, 0x0c];
    var q1 := q0 + Field(BodyChecksum(cfg, body), 6);
    var q2 := q1 + Field(cfg.mac, 6 + padding);
    FieldRead(q2, EndCode(jlu), 2 + trailing, p);
    FieldRead(q1, cfg.mac, 6 + padding, p);
    FieldRead(q0, BodyChecksum(cfg, body), 6, p);
    assert p[..|q0|] == q0;
    assert p[|body|..|body| + 2] == q0[|body|..];
  }

  /** Nothing behind the fixed part spoils it. */
  lemma FixedStays(cfg: Config, seed: seq<byte>, ip: seq<byte>, dns: seq<byte>, dhcp: seq<byte>, jlu: bool,
    signed: bool)
    requires cfg.Fits() && |ip| == |dns| == |dhcp| == 4
    requires UsesRor(cfg, jlu) ==> |cfg.password| <= 16
    ensures LoginFixed(cfg, seed, ip, dns, dhcp, jlu) <= Login(cfg, seed, ip, dns, dhcp, jlu, signed)
  {
    hide LoginFixed, LoginBody, BodyChecksum, Field, Login;
    var p := Login(cfg, seed, ip, dns, dhcp, jlu, signed);
    var fixed := LoginFixed(cfg, seed, ip, dns, dhcp, jlu);
    TailOfLogin(cfg, seed, ip, dns, dhcp, jlu, signed);
    TailReads(cfg, LoginBody(cfg, seed, fixed, jlu, signed), jlu, Padding(|cfg.password|, UsesRor(cfg, jlu), jlu),
              Trailing(|cfg.password|, jlu), p);
    BodyExtends(cfg, seed, fixed, jlu, signed, p);
  }

  lemma AccountReads(cfg: Config, seed: seq<byte>, ip: seq<byte>, dns: seq<byte>, dhcp: seq<byte>, jlu: bool,
    signed: bool)
    requires cfg.Fits() && |ip| == |dns| == |dhcp| == 4
    requires UsesRor(cfg, jlu) ==> |cfg.password| <= 16
    ensures var p := Login(cfg, seed, ip, dns, dhcp, jlu, signed);
            && |p| >= 312 && p[..3] == [0x03, 0x01, 0x00] && p[3] as nat == |cfg.username| + 20
            && p[4..20] == Md5A(0x03, seed, cfg.password) && p[64..80] == Md5B(seed, cfg.password)
            && Username(p) == cfg.username && p[56] == cfg.controlCheckStatus && p[57] == cfg.adapterNum
            && MaskedMac(p) == cfg.mac && p[80] == 0x01 && p[97..105] == HeadChecksum(p[..97])
  {
    hide Login, LoginHost, LoginHead, Identity, HeadChecksum, Md5A, Md5B, Field, Username, MaskedMac, SystemNames;
    var p := Login(cfg, seed, ip, dns, dhcp, jlu, signed);
    FixedStays(cfg, seed, ip, dns, dhcp, jlu, signed);
    var head := LoginHead(cfg, seed, ip);
    var host := LoginHost(cfg, head, dns, dhcp, jlu);
    assert host <= LoginFixed(cfg, seed, ip, dns, dhcp, jlu);
    ChecksumReads(cfg, head, dns, dhcp, jlu, p);
    HeadReads(cfg, seed, ip, p);
    IdentityReads(cfg, 0x03, seed, p);
    OpeningReads(cfg, 0x03, seed, p);
  }

  /** A reader of the finished login packet recovers the account and the masked MAC, and finds the digests of what
      the server can compute itself. */
  lemma LoginReadsAccount(cfg: Config, seed: seq<byte>, ip: seq<byte>, dns: seq<byte>, dhcp: seq<byte>, jlu: bool,
    signed: bool)
    requires cfg.Fits() && |ip| == |dns| == |dhcp| == 4
    requires UsesRor(cfg, jlu) ==> |cfg.password| <= 16
    ensures var p := Login(cfg, seed, ip, dns, dhcp, jlu, signed);
            && |p| >= 312 && p[..3] == [0x03, 0x01, 0x00] && p[3] as nat == |cfg.username| + 20
            && p[4..20] == MessageDigest.Digest(MessageDigest.MD5, [0x03, 0x01] + seed + cfg.password)
            && Username(p) == cfg.username && p[56] == cfg.controlCheckStatus && p[57] == cfg.adapterNum
            && MaskedMac(p) == cfg.mac && (forall i :: 0 <= i < 6 ==> p[58 + i] == p[4 + i] ^ cfg.mac[i])
            && p[64..80] == MessageDigest.Digest(MessageDigest.MD5, [0x01] + cfg.password + seed + [0, 0, 0, 0])
            && p[80] == 0x01
            && p[97..105] == MessageDigest.Digest(MessageDigest.MD5, p[..97] + [0x14, 0x00, 0x07, 0x0b])[..8]
  {
    hide Login, HeadChecksum, Md5A, Md5B, Username, MaskedMac, MessageDigest.Digest;
    var p := Login(cfg, seed, ip, dns, dhcp, jlu, signed);
    AccountReads(cfg, seed, ip, dns, dhcp, jlu, signed);
    Hashed(0x03, seed, cfg.password, p[..97]);
    Masked(p, cfg.mac);
  }

  /** What the digests are taken of. */
  lemma Hashed(code: byte, seed: seq<byte>, password: text, head: seq<byte>)
    ensures Md5A(code, seed, password) == MessageDigest.Digest(MessageDigest.MD5, [code, 0x01] + seed + password)
    ensures Md5B(seed, password) == MessageDigest.Digest(MessageDigest.MD5, [0x01] + password + seed + [0, 0, 0, 0])
    ensures HeadChecksum(head) == MessageDigest.Digest(MessageDigest.MD5, head + [0x14, 0x00, 0x07, 0x0b])[..8]
  {
    hide MessageDigest.Digest;
  }

  /** A masked address, byte by byte. */
  lemma Masked(p: seq<byte>, mac: seq<byte>)
    requires |p| >= 64 && |mac| == 6 && MaskedMac(p) == mac
    ensures forall i :: 0 <= i < 6 ==> p[58 + i] == p[4 + i] ^ mac[i]
  {
    forall i | 0 <= i < 6
      ensures p[58 + i] == p[4 + i] ^ mac[i]
    {
      assert mac[i] == p[58..64][i] ^ p[4..10][i];
      Remask(p[58 + i], p[4 + i]);
    }
  }

  lemma Remask(x: byte, y: byte)
    ensures x == y ^ (x ^ y)
  {
  }

  /** It recovers the names and addresses of the host and both version codes. */
  lemma LoginReadsHost(cfg: Config, seed: seq<byte>, ip: seq<byte>, dns: seq<byte>, dhcp: seq<byte>, jlu: bool,
    signed: bool)
    requires cfg.Fits() && |ip| == |dns| == |dhcp| == 4
    requires UsesRor(cfg, jlu) ==> |cfg.password| <= 16
    requires NUL !in cfg.hostName && NUL !in cfg.hostOs
    ensures var p := Login(cfg, seed, ip, dns, dhcp, jlu, signed);
            && |p| >= 312 && p[81..85] == ip && p[105] == cfg.ipDog && UpToNul(p[110..142]) == cfg.hostName
            && p[142..146] == dns && p[146..150] == dhcp && p[310..312] == cfg.authVersion
            && p[162] == 0x94 && p[166] == (if jlu then 0x06 else 0x05) && p[170] == (if jlu then 0x02 else 0x01)
            && p[174..176] == (if jlu then [0xf0, 0x23] else [0x28, 0x0a]) && p[178] == 0x02
            && (jlu ==> p[182..191] == JLU_HOST && p[246..286] == JLU_SERVICE_PACK)
            && (!jlu ==> UpToNul(p[182..246]) == cfg.hostOs)
  {
    hide Login, LoginFixed, LoginHost, LoginHead, Identity, HeadChecksum, Md5A, Md5B, Field, UpToNul;
    var p := Login(cfg, seed, ip, dns, dhcp, jlu, signed);
    FixedStays(cfg, seed, ip, dns, dhcp, jlu, signed);
    FixedReads(cfg, seed, ip, dns, dhcp, jlu, p);
    HostReads(cfg, LoginHead(cfg, seed, ip), dns, dhcp, jlu, p);
    HeadReads(cfg, seed, ip, p);
  }

  /** The names that the JLU template sends. */
  lemma JluHostIs()
    ensures |JLU_HOST| == 9 && Spells(JLU_HOST[..5], "DrCOM") && JLU_HOST[5..] == [0x00, 0xcf, 0x07, 0x68]
  {
  }

  lemma Pack0()
    ensures Spells([0x33, 0x64, 0x63, 0x37, 0x39, 0x66, 0x35, 0x32], "3dc79f52")
  {
  }

  lemma Pack1()
    ensures Spells([0x31, 0x32, 0x65, 0x38, 0x31, 0x37, 0x30, 0x61], "12e8170a")
  {
  }

  lemma Pack2()
    ensures Spells([0x63, 0x66, 0x61, 0x39, 0x65, 0x63, 0x39, 0x35], "cfa9ec95")
  {
  }

  lemma Pack3()
    ensures Spells([0x66, 0x31, 0x64, 0x37, 0x34, 0x39, 0x31, 0x36], "f1d74916")
  {
  }

  lemma Pack4()
    ensures Spells([0x35, 0x34, 0x32, 0x62, 0x65, 0x37, 0x62, 0x31], "542be7b1")
  {
  }

  lemma JluServicePackIs()
    ensures Spells(JLU_SERVICE_PACK, "3dc79f52" + "12e8170a" + "cfa9ec95" + "f1d74916" + "542be7b1")
  {
    hide Spells;
    Pack0();
    Pack1();
    Pack2();
    Pack3();
    Pack4();
    var p: seq<byte>, s: string := [0x33, 0x64, 0x63, 0x37, 0x39, 0x66, 0x35, 0x32], "3dc79f52";
    SpellsBoth(p, s, [0x31, 0x32, 0x65, 0x38, 0x31, 0x37, 0x30, 0x61], "12e8170a");
    p, s := p + [0x31, 0x32, 0x65, 0x38, 0x31, 0x37, 0x30, 0x61], s + "12e8170a";
    SpellsBoth(p, s, [0x63, 0x66, 0x61, 0x39, 0x65, 0x63, 0x39, 0x35], "cfa9ec95");
    p, s := p + [0x63, 0x66, 0x61, 0x39, 0x65, 0x63, 0x39, 0x35], s + "cfa9ec95";
    SpellsBoth(p, s, [0x66, 0x31, 0x64, 0x37, 0x34, 0x39, 0x31, 0x36], "f1d74916");
    p, s := p + [0x66, 0x31, 0x64, 0x37, 0x34, 0x39, 0x31, 0x36], s + "f1d74916";
    SpellsBoth(p, s, [0x35, 0x34, 0x32, 0x62, 0x65, 0x37, 0x62, 0x31], "542be7b1");
  }

  /** The build number that tells the two templates apart. */
  function Mark(jlu: bool): (r: seq<byte>)
    ensures |r| == 2
  {
    if jlu then [0xf0, 0x23] else [0x28, 0x0a]
  }

  /** It sees which template was used, whatever the configuration. */
  lemma LoginReadsTemplate(cfg: Config, seed: seq<byte>, ip: seq<byte>, dns: seq<byte>, dhcp: seq<byte>, jlu: bool,
    signed: bool)
    requires cfg.Fits() && |ip| == |dns| == |dhcp| == 4
    requires UsesRor(cfg, jlu) ==> |cfg.password| <= 16
    ensures var p := Login(cfg, seed, ip, dns, dhcp, jlu, signed); |p| >= 312 && p[174..176] == Mark(jlu)
  {
    hide Login, LoginHead, HeadChecksum, Field, SystemNames;
    var p := Login(cfg, seed, ip, dns, dhcp, jlu, signed);
    FixedStays(cfg, seed, ip, dns, dhcp, jlu, signed);
    var head := LoginHead(cfg, seed, ip);
    var q := head + Field(HeadChecksum(head), 8) + Field([cfg.ipDog], 5) + Field(cfg.hostName, 32) + Field(dns, 4)
             + Field(dhcp, 4);
    VersionReads(q, jlu, p);
  }

  /** It recovers a password that is sent exactly if no character of it was negative as an int. */
  lemma LoginReadsPassword(cfg: Config, seed: seq<byte>, ip: seq<byte>, dns: seq<byte>, dhcp: seq<byte>, jlu: bool,
    signed: bool)
    requires cfg.Fits() && |ip| == |dns| == |dhcp| == 4
    requires UsesRor(cfg, jlu) ==> |cfg.password| <= 16
    requires UsesRor(cfg, jlu)
    ensures var p := Login(cfg, seed, ip, dns, dhcp, jlu, signed);
            && |p| >= 314
            && p[312] == 0x00 && p[313] as nat == |cfg.password| && 314 + |cfg.password| <= |p|
            && (forall i :: 0 <= i < |cfg.password| ==> Rotates(p[4 + i], cfg.password[i], signed, p[314 + i]))
            && (Password(p) == cfg.password <==>
                !(signed && exists i :: 0 <= i < |cfg.password| && cfg.password[i] >= 0x80))
  {
    hide LoginFixed, Rotates, LoginBody, BodyChecksum, Field, Password, Md5A, Login;
    var p := Login(cfg, seed, ip, dns, dhcp, jlu, signed);
    var fixed := LoginFixed(cfg, seed, ip, dns, dhcp, jlu);
    var n := |cfg.password|;
    TailOfLogin(cfg, seed, ip, dns, dhcp, jlu, signed);
    TailReads(cfg, LoginBody(cfg, seed, fixed, jlu, signed), jlu, Padding(n, true, jlu), Trailing(n, jlu), p);
    AccountReads(cfg, seed, ip, dns, dhcp, jlu, signed);
    BodyReads(cfg, seed, fixed, jlu, signed, p);
    hide EncodeChar;
    forall i | 0 <= i < n
      ensures Rotates(p[4 + i], cfg.password[i], signed, p[314 + i])
    {
      EncodeRotates(p[4 + i], cfg.password[i], signed);
    }
  }

  /** The tail of a login packet, whatever precedes it. */
  lemma TailOfLogin(cfg: Config, seed: seq<byte>, ip: seq<byte>, dns: seq<byte>, dhcp: seq<byte>, jlu: bool,
    signed: bool)
    requires cfg.Fits() && |ip| == |dns| == |dhcp| == 4
    requires UsesRor(cfg, jlu) ==> |cfg.password| <= 16
    ensures var p := Login(cfg, seed, ip, dns, dhcp, jlu, signed);
            var body := LoginBody(cfg, seed, LoginFixed(cfg, seed, ip, dns, dhcp, jlu), jlu, signed);
            var n := |cfg.password|;
            p == body + [0x02, 0x0c] + Field(BodyChecksum(cfg, body), 6)
                 + Field(cfg.mac, 6 + Padding(n, UsesRor(cfg, jlu), jlu)) + Field(EndCode(jlu), 2 + Trailing(n, jlu))
  {
    hide LoginFixed, LoginBody, BodyChecksum, Field;
  }

  /** The size computed in protocol.c is used up to its last byte, but for the JLU template with more
      than eight characters: there exactly 28 zero bytes follow the end code. */
  lemma LoginEnds(cfg: Config, seed: seq<byte>, ip: seq<byte>, dns: seq<byte>, dhcp: seq<byte>, jlu: bool,
    signed: bool)
    requires cfg.Fits() && |ip| == |dns| == |dhcp| == 4
    requires UsesRor(cfg, jlu) ==> |cfg.password| <= 16
    ensures var p := Login(cfg, seed, ip, dns, dhcp, jlu, signed);
            var trailing := if jlu && |cfg.password| > 8 then 28 else 0;
            var n := |cfg.password|;
            && |p| == LoginPacketSize(n, cfg.rorVersion, jlu)
            && |p| == (if !cfg.rorVersion && !jlu then 330 else if n <= 8 then 338 else if !jlu then 330 + n + n % 2
                       else if n == 16 then 374 else 358 + n + n / 4)
            && p[|p| - trailing - 2..|p| - trailing] == (if jlu then [0x60, 0xa2] else [0xe9, 0x13])
            && forall i :: |p| - trailing <= i < |p| ==> p[i] == 0
  {
    hide LoginFixed, LoginBody, BodyChecksum, Field, Login, Padding;
    var p := Login(cfg, seed, ip, dns, dhcp, jlu, signed);
    var body := LoginBody(cfg, seed, LoginFixed(cfg, seed, ip, dns, dhcp, jlu), jlu, signed);
    var n := |cfg.password|;
    TailOfLogin(cfg, seed, ip, dns, dhcp, jlu, signed);
    TailReads(cfg, body, jlu, Padding(n, UsesRor(cfg, jlu), jlu), Trailing(n, jlu), p);
    SizeIsLength(cfg, seed, ip, dns, dhcp, jlu, signed);
  }

  /** The tail holds the MAC a second time, and the checksum of everything before it. */
  lemma LoginReadsTail(cfg: Config, seed: seq<byte>, ip: seq<byte>, dns: seq<byte>, dhcp: seq<byte>, jlu: bool,
    signed: bool)
    requires cfg.Fits() && |ip| == |dns| == |dhcp| == 4
    requires UsesRor(cfg, jlu) ==> |cfg.password| <= 16
    ensures var p := Login(cfg, seed, ip, dns, dhcp, jlu, signed);
            var at := if cfg.rorVersion || jlu then 314 + |cfg.password| else 312;
            && at + 14 <= |p| && TailAt(p, cfg.rorVersion || jlu) == at && p[at..at + 2] == [0x02, 0x0c]
            && p[at + 2..at + 6] ==
               Checksum(ToWords(p[..at] + [0x02, 0x0c] + [0x01, 0x26, 0x07, 0x11, 0x00, 0x00] + cfg.mac), 1234, 1968)
            && p[at + 6..at + 8] == [0x00, 0x00] && p[at + 8..at + 14] == cfg.mac
  {
    hide LoginFixed, LoginBody, BodyChecksum, Field, Login, Padding, Checksum, ToWords;
    var p := Login(cfg, seed, ip, dns, dhcp, jlu, signed);
    var fixed := LoginFixed(cfg, seed, ip, dns, dhcp, jlu);
    var body := LoginBody(cfg, seed, fixed, jlu, signed);
    var ror, n := UsesRor(cfg, jlu), |cfg.password|;
    TailOfLogin(cfg, seed, ip, dns, dhcp, jlu, signed);
    TailReads(cfg, body, jlu, Padding(n, ror, jlu), Trailing(n, jlu), p);
    assert p[..|body|] == body;
    ChecksumIs(cfg, body);
    if ror {
      LengthReads(cfg, seed, fixed, jlu, signed, p);
    }
  }

  lemma ChecksumIs(cfg: Config, body: seq<byte>)
    requires cfg.Fits()
    ensures BodyChecksum(cfg, body) ==
            Checksum(ToWords(body + [0x02, 0x0c] + [0x01, 0x26, 0x07, 0x11, 0x00, 0x00] + cfg.mac), 1234, 1968)
  {
    hide Checksum, ToWords;
  }

  lemma LengthReads(cfg: Config, seed: seq<byte>, fixed: seq<byte>, jlu: bool, signed: bool, p: seq<byte>)
    requires cfg.Fits() && UsesRor(cfg, jlu) && |cfg.password| <= 16 && |fixed| == 312
    requires LoginBody(cfg, seed, fixed, jlu, signed) <= p
    ensures |p| >= 314 && p[313] as nat == |cfg.password|
  {
    hide Md5A, Encoded, Low;
    LowOfLength(|cfg.password|);
    var q := fixed + [0x00, Low(|cfg.password|)];
    assert p[..|q|] == q;
  }

  lemma ChecksumReads(cfg: Config, head: seq<byte>, dns: seq<byte>, dhcp: seq<byte>, jlu: bool, p: seq<byte>)
    requires cfg.Fits() && |head| == 97 && |dns| == |dhcp| == 4
    requires LoginHost(cfg, head, dns, dhcp, jlu) <= p
    ensures head <= p && p[97..105] == HeadChecksum(head)
  {
    hide HeadChecksum, Field;
    var q := head + Field(HeadChecksum(head), 8);
    assert q <= LoginHost(cfg, head, dns, dhcp, jlu);
    FieldRead(head, HeadChecksum(head), 8, p);
  }

  lemma OpeningReads(cfg: Config, code: byte, seed: seq<byte>, p: seq<byte>)
    requires cfg.Fits() && Identity(cfg, code, seed) <= p
    ensures p[..3] == [code, 0x01, 0x00] && p[3] as nat == |cfg.username| + 20
  {
    hide Md5A, XorBytes, Low, Field;
    assert p[..64] == Identity(cfg, code, seed);
    LowOfLength(|cfg.username| + 20);
  }

  lemma BodyExtends(cfg: Config, seed: seq<byte>, fixed: seq<byte>, jlu: bool, signed: bool, p: seq<byte>)
    requires cfg.Fits() && (UsesRor(cfg, jlu) ==> |cfg.password| <= 16)
    requires LoginBody(cfg, seed, fixed, jlu, signed) <= p
    ensures fixed <= p
  {
    hide Encoded, Md5A;
  }

  /** The same for the logout packet, which also ends with the session's auth information. */
  lemma LogoutReadsBack(cfg: Config, seed: seq<byte>, auth: seq<byte>)
    requires cfg.Fits() && |auth| == 16
    ensures var p := Logout(cfg, seed, auth);
            && |p| == 80 && p[..3] == [0x06, 0x01, 0x00] && p[3] as nat == |cfg.username| + 20
            && p[4..20] == MessageDigest.Digest(MessageDigest.MD5, [0x06, 0x01] + seed + cfg.password)
            && Username(p) == cfg.username && p[56] == cfg.controlCheckStatus && p[57] == cfg.adapterNum
            && MaskedMac(p) == cfg.mac && (forall i :: 0 <= i < 6 ==> p[58 + i] == p[4 + i] ^ cfg.mac[i])
            && p[64..80] == auth
  {
    hide Identity, Field, Username, MaskedMac, Md5A, MessageDigest.Digest;
    var p := Logout(cfg, seed, auth);
    FieldRead(Identity(cfg, 0x06, seed), auth, 16, p);
    IdentityReads(cfg, 0x06, seed, p);
    OpeningReads(cfg, 0x06, seed, p);
    Hashed(0x06, seed, cfg.password, []);
    Masked(p, cfg.mac);
  }
}
