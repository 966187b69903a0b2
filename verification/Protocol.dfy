/** How protocol.c and dhcp_login fill the packets. */
module Protocol {
  import opened Words
  import opened Blocks
  import opened Text
  import opened Settings
  import opened Fields
  import opened Encoding
  import opened Layout
  import MessageDigest
  import Md
  import Ipv4

  /** drcom_dhcp_login_packet_size. */
  function LoginPacketSize(passwordLength: nat, ror: bool, jlu: bool): nat {
    var useRor := ror || jlu;
    if !useRor then 330
    else
      var lengthPadding :=
        if passwordLength > 8 then
          var beyond := passwordLength - 8;
          if jlu then 28 + beyond + (if passwordLength == 16 then 0 else passwordLength / 4)
          else if beyond % 2 != 0 then beyond + 1
          else beyond
        else 0;
      338 + lengthPadding
  }

  /** The size computed in protocol.c is the length of the packet laid out by dhcp_login. */
  lemma SizeIsLength(cfg: Config, seed: seq<byte>, ip: seq<byte>, dns: seq<byte>, dhcp: seq<byte>, jlu: bool,
    signed: bool)
    requires cfg.Fits() && |ip| == |dns| == |dhcp| == 4
    requires UsesRor(cfg, jlu) ==> |cfg.password| <= 16
    ensures |Login(cfg, seed, ip, dns, dhcp, jlu, signed)| == LoginPacketSize(|cfg.password|, cfg.rorVersion, jlu)
  {
    hide LoginFixed, LoginBody, BodyChecksum;
  }

  method HashMd5(m: seq<byte>) returns (r: seq<byte>)
    ensures r == Md5(m) && |r| == 16
  {
    r := Md.Hash(MessageDigest.MD5, m);
  }

  /** The writes to the first 58 bytes, which login and logout share. */
  method PutIdentity(packet: array<byte>, cfg: Config, code: byte, digest: seq<byte>) returns (ghost left: seq<byte>)
    requires cfg.Fits() && |digest| == 16 && packet.Length >= 64 && packet[..] == Zeros(packet.Length)
    modifies packet
    ensures left == [code, 0x01, 0x00, Low(|cfg.username| + 20)] + Field(digest, 16) + Field(cfg.username, 36)
                    + Field([cfg.controlCheckStatus], 1) + Field([cfg.adapterNum], 1)
    ensures Holding(packet[..], left, [])
  {
    hide Low, Holding, Field;
    Cleared(packet[..]);
    var head := [code, 0x01, 0x00, Low(|cfg.username| + 20)];
    left := Put(packet, 0, head, [], 4, []);
    StartOf(head);
    left := Put(packet, 4, digest, left, 16, []);
    left := Put(packet, 20, cfg.username, left, 36, []);
    left := Put(packet, 56, [cfg.controlCheckStatus], left, 1, []);
    left := Put(packet, 57, [cfg.adapterNum], left, 1, []);
  }

  lemma StartOf(head: seq<byte>)
    ensures [] + Field(head, |head|) == head
  {
  }

  /** The loop that masks the MAC byte by byte. */
  method MaskBytes(digest: seq<byte>, mac: seq<byte>) returns (masked: seq<byte>)
    requires |digest| == |mac|
    ensures masked == XorBytes(digest, mac)
  {
    masked := [];
    for index := 0 to |mac|
      invariant masked == XorBytes(digest, mac)[..index]
    {
      masked := masked + [digest[index] ^ mac[index]];
    }
    assert XorBytes(digest, mac)[..|mac|] == XorBytes(digest, mac);
  }

  /** drcom_build_dhcp_logout_packet: the MAC is masked byte by byte. */
  method BuildLogout(cfg: Config, seed: seq<byte>, auth: seq<byte>, packet: array<byte>)
    requires cfg.Fits() && |auth| == 16 && packet.Length == 80
    modifies packet
    ensures packet[..] == Logout(cfg, seed, auth)
  {
    forall i | 0 <= i < packet.Length {
      packet[i] := 0;
    }
    assert packet[..] == Zeros(80);
    var digest := HashMd5([0x06, 0x01] + seed + cfg.password);
    ghost var left := PutIdentity(packet, cfg, 0x06, digest);
    var masked := MaskBytes(digest[..6], cfg.mac);
    left := Put(packet, 58, masked, left, 6, []);
    assert left == Identity(cfg, 0x06, seed);
    left := Put(packet, 64, auth, left, 16, []);
    assert packet[..] == left + Zeros(0) + [];
  }

  /** The first 97 bytes of dhcp_login; the MAC is masked in 48-bit arithmetic. */
  method PutHead(packet: array<byte>, cfg: Config, seed: seq<byte>, ip: seq<byte>) returns (ghost left: seq<byte>)
    requires cfg.Fits() && |ip| == 4 && packet.Length >= 97 && packet[..] == Zeros(packet.Length)
    modifies packet
    ensures left == LoginHead(cfg, seed, ip) && Holding(packet[..], left, [])
  {
    hide Low, Holding, Field, XorBytes;
    var digest := HashMd5([0x03, 0x01] + seed + cfg.password);
    left := PutIdentity(packet, cfg, 0x03, digest);
    var masked := MaskMac(digest[..6], cfg.mac);
    left := Put(packet, 58, masked[..], left, 6, []);
    var digestB := HashMd5([0x01] + cfg.password + seed + [0, 0, 0, 0]);
    left := Put(packet, 64, digestB, left, 16, []);
    left := Put(packet, 80, [0x01], left, 1, []);
    left := Put(packet, 81, ip, left, 16, []);
  }

  /** The bytes from 97 up to the system version. */
  method PutHost(packet: array<byte>, cfg: Config, dns: seq<byte>, dhcp: seq<byte>, ghost head: seq<byte>)
    returns (ghost left: seq<byte>)
    requires cfg.Fits() && |head| == 97 && |dns| == |dhcp| == 4
    requires packet.Length >= 182 && Holding(packet[..], head, []) && packet[..97] == head
    modifies packet
    ensures left == head + Field(HeadChecksum(head), 8) + Field([cfg.ipDog], 5) + Field(cfg.hostName, 32)
                    + Field(dns, 4) + Field(dhcp, 4)
    ensures Holding(packet[..], left, [])
  {
    hide Holding, Field;
    var checksum := HashMd5(packet[..97] + [0x14, 0x00, 0x07, 0x0b]);
    left := Put(packet, 97, checksum[..8], head, 8, []);
    left := Put(packet, 105, [cfg.ipDog], left, 5, []);
    left := Put(packet, 110, cfg.hostName, left, 32, []);
    left := Put(packet, 142, dns, left, 4, []);
    left := Put(packet, 146, dhcp, left, 4, []);
  }

  /** The system version between 162 and 182. */
  method PutVersion(packet: array<byte>, jlu: bool, ghost before: seq<byte>, ghost right: seq<byte>)
    returns (ghost left: seq<byte>)
    requires |before| == 150 && 182 + |right| <= packet.Length && Holding(packet[..], before, right)
    modifies packet
    ensures left == before + Field([], 12) + Field([0x94], 4) + Field([if jlu then 0x06 else 0x05], 4)
                    + Field([if jlu then 0x02 else 0x01], 4) + Field(if jlu then [0xf0, 0x23] else [0x28, 0x0a], 4)
                    + Field([0x02], 4)
    ensures Holding(packet[..], left, right)
  {
    hide Holding, Field;
    Skip(packet[..], before, 12, right);
    left := Put(packet, 162, [0x94], before + Field([], 12), 4, right);
    left := Put(packet, 166, [if jlu then 0x06 else 0x05], left, 4, right);
    left := Put(packet, 170, [if jlu then 0x02 else 0x01], left, 4, right);
    left := Put(packet, 174, if jlu then [0xf0, 0x23] else [0x28, 0x0a], left, 4, right);
    left := Put(packet, 178, [0x02], left, 4, right);
  }

  /** The JLU template writes the two system names first and the version in front of them afterwards. */
  method PutSystem(packet: array<byte>, cfg: Config, jlu: bool, ghost before: seq<byte>) returns (ghost left: seq<byte>)
    requires cfg.Fits() && |before| == 150 && packet.Length >= 312 && Holding(packet[..], before, [])
    modifies packet
    ensures left == before + Field([], 12) + Field([0x94], 4) + Field([if jlu then 0x06 else 0x05], 4)
                    + Field([if jlu then 0x02 else 0x01], 4) + Field(if jlu then [0xf0, 0x23] else [0x28, 0x0a], 4)
                    + Field([0x02], 4) + SystemNames(cfg, jlu)
    ensures Holding(packet[..], left, [])
  {
    hide Holding, Field;
    ghost var n := packet.Length;
    if jlu {
      Skip(packet[..], before, 32, []);
      ghost var far := Put(packet, 182, JLU_HOST, before + Field([], 32), 64, []);
      far := Put(packet, 246, JLU_SERVICE_PACK, far, 64, []);
      ghost var names := Field(JLU_HOST, 64) + Field(JLU_SERVICE_PACK, 64);
      assert far == before + Field([], 32) + names;
      Ahead(packet[..], before, 32, names);
      left := PutVersion(packet, jlu, before, names + Zeros(n - 310));
      Closed(packet[..], left, names);
      left := left + names;
    } else {
      left := PutVersion(packet, jlu, before, []);
      ghost var version := left;
      left := Put(packet, 182, cfg.hostOs, left, 64, []);
      Skip(packet[..], left, 64, []);
      left := left + Field([], 64);
      assert left == version + (Field(cfg.hostOs, 64) + Field([], 64));
    }
  }

  /** The first 312 bytes. */
  method PutFixed(packet: array<byte>, cfg: Config, seed: seq<byte>, ip: seq<byte>, dns: seq<byte>, dhcp: seq<byte>,
    jlu: bool) returns (ghost left: seq<byte>)
    requires cfg.Fits() && |ip| == |dns| == |dhcp| == 4 && packet.Length >= 312
    requires packet[..] == Zeros(packet.Length)
    modifies packet
    ensures left == LoginFixed(cfg, seed, ip, dns, dhcp, jlu) && Holding(packet[..], left, [])
  {
    hide LoginHead, SystemNames, HeadChecksum, Field;
    ghost var head := PutHead(packet, cfg, seed, ip);
    assert packet[..97] == head;
    hide Holding;
    left := PutHost(packet, cfg, dns, dhcp, head);
    left := PutSystem(packet, cfg, jlu, left);
    left := Put(packet, 310, cfg.authVersion, left, 2, []);
  }

  /** The password, behind its length; returns the counter at which the tail starts. */
  method PutPassword(packet: array<byte>, cfg: Config, seed: seq<byte>, jlu: bool, signed: bool, ghost fixed: seq<byte>)
    returns (counter: nat, ghost left: seq<byte>)
    requires cfg.Fits() && (UsesRor(cfg, jlu) ==> |cfg.password| <= 16 && packet.Length >= 314 + |cfg.password|)
    requires |fixed| == 312 && Holding(packet[..], fixed, [])
    modifies packet
    ensures left == LoginBody(cfg, seed, fixed, jlu, signed) && counter == |left| && Holding(packet[..], left, [])
  {
    hide Holding, Low, Md5A, Encoded;
    counter, left := 312, fixed;
    if UsesRor(cfg, jlu) {
      var digest := HashMd5([0x03, 0x01] + seed + cfg.password);
      DigestA(seed, cfg.password);
      var n := |cfg.password|;
      Skip(packet[..], left, 1, []);
      left := left + Field([], 1);
      left := Put(packet, 313, [Low(n)], left, 1, []);
      assert left == fixed + [0x00, Low(n)];
      counter := 314;
      left := PutRotated(packet, counter, digest, cfg.password, signed, left);
      counter := counter + n;
    }
  }

  /** The rotation loop. */
  method PutRotated(packet: array<byte>, counter: nat, digest: seq<byte>, password: text, signed: bool,
    ghost start: seq<byte>) returns (ghost left: seq<byte>)
    requires |password| <= |digest| && counter == |start| && counter + |password| <= packet.Length
    requires Holding(packet[..], start, [])
    modifies packet
    ensures left == start + Encoded(digest, password, signed) && Holding(packet[..], left, [])
  {
    hide Holding, EncodeChar;
    left := start;
    ghost var encoded := Encoded(digest, password, signed);
    var i := 0;
    while i < |password|
      invariant i <= |password| && left == start + encoded[..i] && Holding(packet[..], left, [])
    {
      var b := EncodeChar(digest[i], password[i], signed);
      left := Put(packet, counter + i, [b], left, 1, []);
      assert encoded[..i + 1] == encoded[..i] + [b] && Field([b], 1) == [b];
      i := i + 1;
    }
    assert encoded[..i] == encoded;
  }

  lemma DigestA(seed: seq<byte>, password: text)
    ensures Md5([0x03, 0x01] + seed + password) == Md5A(0x03, seed, password)
  {
  }

  /** The tail: the second checksum, the MAC and the end code, which the JLU template overwrites. */
  method PutTail(packet: array<byte>, cfg: Config, counter: nat, rorPadding: nat, jlu: bool, ghost body: seq<byte>)
    requires cfg.Fits() && counter == |body| && Holding(packet[..], body, [])
    requires packet.Length == counter + rorPadding + 16 + Trailing(|cfg.password|, jlu)
    modifies packet
    ensures packet[..] == body + [0x02, 0x0c] + Field(BodyChecksum(cfg, body), 6) + Field(cfg.mac, 6 + rorPadding)
                          + Field(EndCode(jlu), 2 + Trailing(|cfg.password|, jlu))
  {
    hide Checksum, ToWords, Trailing;
    ghost var left := Put(packet, counter, [0x02, 0x0c], body, 2, []);
    assert left == body + [0x02, 0x0c] && packet[..counter + 2] == left;
    var str := packet[..counter + 2] + [0x01, 0x26, 0x07, 0x11, 0x00, 0x00] + cfg.mac + [0, 0, 0, 0];
    var checksum := LoginChecksum(str, counter + 14);
    assert str[..counter + 14] == body + [0x02, 0x0c] + [0x01, 0x26, 0x07, 0x11, 0x00, 0x00] + cfg.mac;
    left := Put(packet, counter + 2, checksum, left, 6, []);
    left := Put(packet, counter + 8, cfg.mac, left, 6 + rorPadding, []);
    var end := counter + rorPadding + 14;
    packet[end], packet[end + 1] := 0xe9, 0x13;
    if jlu {
      packet[end], packet[end + 1] := 0x60, 0xa2;
    }
    assert packet[..] == left + Field(EndCode(jlu), 2 + Trailing(|cfg.password|, jlu));
  }

  /** The ror_padding of dhcp_login, from the JLU padding computed at its start. */
  method RorPadding(passwordLength: nat, useRor: bool, jlu: bool) returns (r: nat)
    requires jlu ==> useRor
    ensures r == Padding(passwordLength, useRor, jlu)
  {
    var jluPadding := 0;
    if passwordLength > 8 && jlu && passwordLength != 16 {
      jluPadding := passwordLength / 4;
    }
    r := 0;
    if passwordLength <= 8 {
      r := 8 - passwordLength;
    } else {
      if (passwordLength - 8) % 2 != 0 {
        r := 1;
      }
      if jlu {
        r := jluPadding;
      }
    }
    if !useRor {
      r := 2;
    }
  }

  /** The packet that dhcp_login sends, or null where it returns because an address does not parse; it looks
      at the addresses before it comes to the password. */
  method BuildLogin(cfg: Config, seed: seq<byte>, jlu: bool, signed: bool) returns (packet: array?<byte>)
    requires cfg.Fits() && !LoginUndefined(cfg, jlu)
    ensures packet != null ==> fresh(packet)
    ensures (packet == null) == !AddressesParse(cfg) == LoginOf(cfg, seed, jlu, signed).None?
    ensures packet != null ==> Some(packet[..]) == LoginOf(cfg, seed, jlu, signed)
  {
    hide Login;
    var ip, dns, dhcp := new byte[4], new byte[4], new byte[4];
    var ok := Ipv4.ParseAddress(cfg.hostIp, ip);
    if !ok {
      return null;
    }
    ok := Ipv4.ParseAddress(cfg.primaryDns, dns);
    if !ok {
      return null;
    }
    ok := Ipv4.ParseAddress(cfg.dhcpServer, dhcp);
    if !ok {
      return null;
    }
    assert ip[..4] == ip[..] && dns[..4] == dns[..] && dhcp[..4] == dhcp[..];
    packet := FillLogin(cfg, seed, ip[..], dns[..], dhcp[..], jlu, signed);
  }

  /** dhcp_login from the size of the packet to its last byte. */
  method FillLogin(cfg: Config, seed: seq<byte>, ip: seq<byte>, dns: seq<byte>, dhcp: seq<byte>, jlu: bool,
    signed: bool)
    returns (packet: array<byte>)
    requires cfg.Fits() && |ip| == |dns| == |dhcp| == 4
    requires UsesRor(cfg, jlu) ==> |cfg.password| <= 16
    ensures fresh(packet) && packet[..] == Login(cfg, seed, ip, dns, dhcp, jlu, signed)
  {
    hide LoginFixed, LoginBody, BodyChecksum, Field, EndCode, Holding;
    var size := LoginPacketSize(|cfg.password|, cfg.rorVersion, jlu);
    packet := new byte[size](_ => 0);
    assert packet[..] == Zeros(size);
    var rorPadding := RorPadding(|cfg.password|, UsesRor(cfg, jlu), jlu);
    ghost var left := PutFixed(packet, cfg, seed, ip, dns, dhcp, jlu);
    assert size == |LoginBody(cfg, seed, left, jlu, signed)| + rorPadding + 16 + Trailing(|cfg.password|, jlu);
    var counter;
    counter, left := PutPassword(packet, cfg, seed, jlu, signed, left);
    PutTail(packet, cfg, counter, rorPadding, jlu, left);
  }
}
