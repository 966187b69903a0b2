/** The packets of keepalive.c and of the challenges. */
module Beats {
  import opened Words
  import opened Blocks
  import opened Text
  import opened Settings
  import opened Fields
  import opened Layout
  import opened RetryPolicy
  import MessageDigest
  import Md
  import Fips180
  import Sha1
  import Ipv4

  // ---- What the packets are -------------------------------------------------------------------

  /** A challenge; code 2 asks for a login seed, code 3 for a logout seed. */
  function Challenge(code: byte, r1: byte, r2: byte, version: byte): (r: seq<byte>)
    ensures |r| == 20
  {
    [0x01, code, r1, r2] + Field([version], 16)
  }

  /** The bytes of a hash that gen_crc takes. */
  function Pick(hash: seq<byte>, places: seq<nat>): (r: seq<byte>)
    requires forall i :: 0 <= i < |places| ==> places[i] < |hash|
    ensures |r| == |places|
  {
    seq(|places|, i requires 0 <= i < |places| => hash[places[i]])
  }

  function Crc(seed: seq<byte>, kind: nat): (r: seq<byte>)
    ensures |r| == 8
  {
    if kind == 1 then Pick(MessageDigest.Digest(MessageDigest.MD5, seed), [2, 3, 8, 9, 5, 6, 13, 14])
    else if kind == 2 then Pick(MessageDigest.Digest(MessageDigest.MD4, seed), [1, 2, 8, 9, 4, 5, 11, 12])
    else if kind == 3 then Pick(Fips180.Digest(seed), [2, 3, 9, 10, 5, 6, 15, 16])
    else [0xc7, 0x2f, 0x31, 0x01, 0x7e, 0x00, 0x00, 0x00]
  }

  /** The two low bits of a seed choose the hash. */
  function KindOf(seed: seq<byte>): (k: nat)
    requires |seed| == 4
    ensures k <= 3
  {
    var low := seed[0] & 3;
    if low == 0 then 0 else if low == 1 then 1 else if low == 2 then 2 else 3
  }

  const BEAT_ASK: seq<byte> := [0x07, 0x01, 0x08, 0x00, 0x01, 0x00, 0x00, 0x00]

  /** The answer to a keepalive seed. */
  function BeatReply(seed: seq<byte>, auth: seq<byte>, r1: byte, r2: byte): (r: seq<byte>)
    requires |seed| == 4 && |auth| == 16
    ensures |r| == 38
  {
    Field([0xff], 8) + seed + Crc(seed, KindOf(seed)) + auth + [r1, r2]
  }

  /** The plain first keepalive, which repeats the digest of the login. */
  function PlainBeat(cfg: Config, seed: seq<byte>, auth: seq<byte>, r1: byte, r2: byte): (r: seq<byte>)
    requires |auth| == 16
    ensures |r| == 42
  {
    Field([0xff], 1) + Field(Md5A(0x03, seed, cfg.password), 19) + auth + Field([r1, r2], 6)
  }

  function HostIp(cfg: Config): (r: seq<byte>)
    ensures |r| == 4
  {
    match Ipv4.Parse(cfg.hostIp)
    case Some(ip) => ip
    case None => [0, 0, 0, 0]
  }

  /** The second keepalive, of type 1 or 3; type 3 carries the tail of the reply and the host address. */
  function Beat2(cfg: Config, counter: byte, kind: ExtraKind, third: bool, tail: seq<byte>): (r: seq<byte>)
    requires cfg.Fits() && |tail| == 4
    ensures |r| == 40 && r[0] == 0x07 && r[1] == counter
  {
    [0x07, counter, 0x28, 0x00, 0x0b, if third then 0x03 else 0x01]
    + Field(if kind.NoExtra? then cfg.keepAliveVersion else [0x0f, 0x27], 2) + Field([0x2f, 0x12], 8)
    + Field(if third then tail else [], 12) + Field(if third then HostIp(cfg) else [], 12)
  }

  // ---- How the code builds them ---------------------------------------------------------------

  method BuildChallenge(code: byte, r1: byte, r2: byte, version: byte) returns (packet: array<byte>)
    ensures fresh(packet) && packet[..] == Challenge(code, r1, r2, version)
  {
    packet := new byte[20](_ => 0);
    packet[0] := 0x01;
    packet[1] := code;
    packet[2] := r1;
    packet[3] := r2;
    packet[4] := version;
  }

  method GenCrc(seed: seq<byte>, kind: nat) returns (crc: seq<byte>)
    requires |seed| < TWO_32
    ensures crc == Crc(seed, kind)
  {
    hide MessageDigest.Digest, Fips180.Digest;
    if kind == 1 {
      var hash := Md.Hash(MessageDigest.MD5, seed);
      crc := [hash[2], hash[3], hash[8], hash[9], hash[5], hash[6], hash[13], hash[14]];
    } else if kind == 2 {
      var hash := Md.Hash(MessageDigest.MD4, seed);
      crc := [hash[1], hash[2], hash[8], hash[9], hash[4], hash[5], hash[11], hash[12]];
    } else if kind == 3 {
      var hash := Sha1.Hash(seed);
      crc := [hash[2], hash[3], hash[9], hash[10], hash[5], hash[6], hash[15], hash[16]];
    } else {
      crc := [0xc7, 0x2f, 0x31, 0x01] + [0x7e, 0x00, 0x00, 0x00];
    }
  }

  method BuildBeatReply(seed: seq<byte>, auth: seq<byte>, r1: byte, r2: byte) returns (packet: array<byte>)
    requires |seed| == 4 && |auth| == 16
    ensures fresh(packet) && packet[..] == BeatReply(seed, auth, r1, r2)
  {
    hide Holding, Field, Crc;
    packet := new byte[38](_ => 0);
    assert packet[..] == Zeros(38);
    var crc := GenCrc(seed, KindOf(seed));
    Cleared(packet[..]);
    ghost var left := Put(packet, 0, [0xff], [], 8, []);
    left := Put(packet, 8, seed, left, 4, []);
    left := Put(packet, 12, crc, left, 8, []);
    left := Put(packet, 20, auth, left, 16, []);
    left := Put(packet, 36, [r1], left, 1, []);
    left := Put(packet, 37, [r2], left, 1, []);
    BeatReplyParts(seed, auth, r1, r2);
    Complete(packet[..], left);
  }

  lemma Complete(buffer: seq<byte>, left: seq<byte>)
    requires Holding(buffer, left, []) && |left| == |buffer|
    ensures buffer == left
  {
  }

  lemma BeatReplyParts(seed: seq<byte>, auth: seq<byte>, r1: byte, r2: byte)
    requires |seed| == 4 && |auth| == 16
    ensures [] + Field([0xff], 8) + Field(seed, 4) + Field(Crc(seed, KindOf(seed)), 8) + Field(auth, 16)
            + Field([r1], 1) + Field([r2], 1) == BeatReply(seed, auth, r1, r2)
  {
    hide Crc, KindOf;
  }

  method BuildPlainBeat(cfg: Config, seed: seq<byte>, auth: seq<byte>, r1: byte, r2: byte) returns (packet: array<byte>)
    requires |auth| == 16
    ensures fresh(packet) && packet[..] == PlainBeat(cfg, seed, auth, r1, r2)
  {
    hide Holding, Field, Md5A;
    packet := new byte[42](_ => 0);
    assert packet[..] == Zeros(42);
    var digest := Md.Hash(MessageDigest.MD5, [0x03, 0x01] + seed + cfg.password);
    DigestIs(seed, cfg.password);
    Cleared(packet[..]);
    ghost var left := Put(packet, 0, [0xff], [], 1, []);
    left := Put(packet, 1, digest, left, 19, []);
    left := Put(packet, 20, auth, left, 16, []);
    left := Put(packet, 36, [r1, r2], left, 6, []);
    PlainBeatParts(cfg, seed, auth, r1, r2);
    Complete(packet[..], left);
  }

  lemma DigestIs(seed: seq<byte>, password: text)
    ensures MessageDigest.Digest(MessageDigest.MD5, [0x03, 0x01] + seed + password) == Md5A(0x03, seed, password)
  {
  }

  lemma PlainBeatParts(cfg: Config, seed: seq<byte>, auth: seq<byte>, r1: byte, r2: byte)
    requires |auth| == 16
    ensures [] + Field([0xff], 1) + Field(Md5A(0x03, seed, cfg.password), 19) + Field(auth, 16) + Field([r1, r2], 6)
            == PlainBeat(cfg, seed, auth, r1, r2)
  {
    hide Md5A;
  }

  /** keepalive_2_packetbuilder in dhcp mode, over a buffer that was cleared. */
  method PacketBuilder(packet: array<byte>, cfg: Config, counter: byte, kind: ExtraKind, third: bool)
    requires cfg.Fits() && packet.Length == 40 && packet[..] == Zeros(40)
    modifies packet
    ensures packet[..] == Beat2(cfg, counter, kind, third, [0, 0, 0, 0])
  {
    hide Holding, Field, HostIp;
    Cleared(packet[..]);
    var head := [0x07, counter, 0x28, 0x00, 0x0b, if third then 0x03 else 0x01];
    ghost var left := Put(packet, 0, head, [], 6, []);
    var version := if kind.NoExtra? then cfg.keepAliveVersion else [0x0f, 0x27];
    left := Put(packet, 6, version, left, 2, []);
    left := Put(packet, 8, [0x2f, 0x12], left, 8, []);
    Skip(packet[..], left, 12, []);
    left := left + Field([], 12);
    ghost var ip: seq<byte> := [];
    if third {
      var hostIp := new byte[4](_ => 0);
      var ok := Ipv4.ParseAddress(cfg.hostIp, hostIp);
      assert hostIp[..4] == hostIp[..];
      HostIpIs(cfg);
      if ok {
        ip := HostIp(cfg);
        left := Put(packet, 28, hostIp[..], left, 12, []);
      } else {
        Skip(packet[..], left, 12, []);
        left := left + Field([], 12);
      }
    } else {
      Skip(packet[..], left, 12, []);
      left := left + Field([], 12);
    }
    Beat2Parts(cfg, head, version, counter, kind, third, ip);
    Complete(packet[..], left);
  }

  lemma HostIpIs(cfg: Config)
    ensures Ipv4.Parse(cfg.hostIp).Some? ==> HostIp(cfg) == Ipv4.Parse(cfg.hostIp).value
    ensures Ipv4.Parse(cfg.hostIp).None? ==> HostIp(cfg) == [0, 0, 0, 0]
  {
  }

  lemma Beat2Parts(cfg: Config, head: seq<byte>, version: seq<byte>, counter: byte, kind: ExtraKind, third: bool,
    ip: seq<byte>)
    requires cfg.Fits() && |version| == 2 && |ip| <= 4
    requires head == [0x07, counter, 0x28, 0x00, 0x0b, if third then 0x03 else 0x01]
    requires version == if kind.NoExtra? then cfg.keepAliveVersion else [0x0f, 0x27]
    requires if third then ip == HostIp(cfg) || (ip == [] && HostIp(cfg) == [0, 0, 0, 0]) else ip == []
    ensures [] + Field(head, 6) + Field(version, 2) + Field([0x2f, 0x12], 8) + Field([], 12) + Field(ip, 12)
            == Beat2(cfg, counter, kind, third, [0, 0, 0, 0])
  {
    hide HostIp;
    assert Field([], 12) == Field([0, 0, 0, 0], 12);
  }

  method BuildBeat2(cfg: Config, counter: byte, kind: ExtraKind) returns (packet: array<byte>)
    requires cfg.Fits()
    ensures fresh(packet) && packet[..] == Beat2(cfg, counter, kind, false, [0, 0, 0, 0])
  {
    packet := new byte[40](_ => 0);
    assert packet[..] == Zeros(40);
    PacketBuilder(packet, cfg, counter, kind, false);
  }

  /** The third packet: the tail of the reply is copied in behind the builder. */
  method BuildBeat2Third(cfg: Config, counter: byte, tail: seq<byte>) returns (packet: array<byte>)
    requires cfg.Fits() && |tail| == 4
    ensures fresh(packet) && packet[..] == Beat2(cfg, counter, NoExtra, true, tail)
  {
    hide HostIp;
    packet := new byte[40](_ => 0);
    assert packet[..] == Zeros(40);
    PacketBuilder(packet, cfg, counter, NoExtra, true);
    ghost var before := packet[..];
    forall i | 0 <= i < 4 {
      packet[16 + i] := tail[i];
    }
    TailReplaced(cfg, counter, tail, packet[..]);
  }

  lemma TailReplaced(cfg: Config, counter: byte, tail: seq<byte>, p: seq<byte>)
    requires cfg.Fits() && |tail| == 4 && |p| == 40
    requires var q := Beat2(cfg, counter, NoExtra, true, [0, 0, 0, 0]);
             p == q[..16] + tail + q[20..]
    ensures p == Beat2(cfg, counter, NoExtra, true, tail)
  {
    hide HostIp;
  }
}
