/** The packets of challenges and keepalives, byte by byte, as the server gets them. */
module Wire {
  import opened Words
  import opened Settings
  import opened RetryPolicy
  import opened Blocks
  import opened Fields
  import opened Beats
  import MessageDigest
  import Fips180
  import Ipv4

  /** A challenge: its code, its random bytes and the version, then zero bytes. */
  lemma ChallengeBytes(code: byte, r1: byte, r2: byte, version: byte)
    ensures var p := Challenge(code, r1, r2, version);
            && |p| == 20 && p[..5] == [0x01, code, r1, r2, version] && (forall i :: 5 <= i < 20 ==> p[i] == 0)
  {
  }

  /** The request for a keepalive seed. */
  lemma SeedRequestBytes()
    ensures |BEAT_ASK| == 8 && BEAT_ASK[0] == 0x07 && BEAT_ASK[1] == 0x01 && BEAT_ASK[2] == 0x08 && BEAT_ASK[4] == 0x01
    ensures BEAT_ASK[3] == BEAT_ASK[5] == BEAT_ASK[6] == BEAT_ASK[7] == 0x00
  {
  }

  function Md4(m: seq<byte>): (r: seq<byte>)
    ensures |r| == 16
  {
    MessageDigest.Digest(MessageDigest.MD4, m)
  }

  function Md5(m: seq<byte>): (r: seq<byte>)
    ensures |r| == 16
  {
    MessageDigest.Digest(MessageDigest.MD5, m)
  }

  /** The check bytes of a seed: eight bytes of a digest of it, or a constant, by its first byte modulo four. */
  predicate Checks(seed: seq<byte>, check: seq<byte>)
    requires |seed| == 4
  {
    var m5, m4, s1 := Md5(seed), Md4(seed), Fips180.Digest(seed);
    check == (match seed[0] % 4
              case 0 => [0xc7, 0x2f, 0x31, 0x01, 0x7e, 0x00, 0x00, 0x00]
              case 1 => [m5[2], m5[3], m5[8], m5[9], m5[5], m5[6], m5[13], m5[14]]
              case 2 => [m4[1], m4[2], m4[8], m4[9], m4[4], m4[5], m4[11], m4[12]]
              case _ => [s1[2], s1[3], s1[9], s1[10], s1[5], s1[6], s1[15], s1[16]])
  }

  lemma CrcChecks(seed: seq<byte>)
    requires |seed| == 4
    ensures Checks(seed, Crc(seed, KindOf(seed)))
  {
    hide MessageDigest.Digest, Fips180.Digest;
    LowBits(seed[0]);
  }

  lemma LowBits(b: byte)
    ensures b & 3 == b % 4
  {
  }

  /** The answer to a keepalive seed. */
  lemma BeatReplyBytes(seed: seq<byte>, auth: seq<byte>, r1: byte, r2: byte)
    requires |seed| == 4 && |auth| == 16
    ensures var p := BeatReply(seed, auth, r1, r2);
            && |p| == 38 && p[0] == 0xff && (forall i :: 1 <= i < 8 ==> p[i] == 0) && p[8..12] == seed
            && Checks(seed, p[12..20]) && p[20..36] == auth && p[36] == r1 && p[37] == r2
  {
    hide Crc, KindOf, Checks, BeatReply;
    CrcChecks(seed);
    ReplyFields(seed, auth, r1, r2);
  }

  lemma ReplyFields(seed: seq<byte>, auth: seq<byte>, r1: byte, r2: byte)
    requires |seed| == 4 && |auth| == 16
    ensures var p := BeatReply(seed, auth, r1, r2);
            && |p| == 38 && p[0] == 0xff && (forall i :: 1 <= i < 8 ==> p[i] == 0) && p[8..12] == seed
            && p[12..20] == Crc(seed, KindOf(seed)) && p[20..36] == auth && p[36] == r1 && p[37] == r2
  {
    hide Crc, KindOf;
  }

  /** The plain first keepalive. */
  lemma PlainBeatBytes(cfg: Config, seed: seq<byte>, auth: seq<byte>, r1: byte, r2: byte)
    requires |auth| == 16
    ensures var p := PlainBeat(cfg, seed, auth, r1, r2);
            && |p| == 42 && p[0] == 0xff && p[1..17] == Md5([0x03, 0x01] + seed + cfg.password)
            && p[17..20] == [0, 0, 0] && p[20..36] == auth && p[36] == r1 && p[37] == r2 && p[38..42] == [0, 0, 0, 0]
  {
    hide MessageDigest.Digest;
  }

  /** The second keepalive. */
  lemma SecondBeatBytes(cfg: Config, counter: byte, kind: ExtraKind, third: bool, tail: seq<byte>)
    requires cfg.Fits() && |tail| == 4
    ensures var p := Beat2(cfg, counter, kind, third, tail);
            && |p| == 40 && p[..6] == [0x07, counter, 0x28, 0x00, 0x0b, if third then 0x03 else 0x01]
            && p[6..8] == (if kind.NoExtra? then cfg.keepAliveVersion else [0x0f, 0x27])
            && p[8..10] == [0x2f, 0x12] && (forall i :: 10 <= i < 16 ==> p[i] == 0)
            && p[16..20] == (if third then tail else [0, 0, 0, 0]) && (forall i :: 20 <= i < 28 ==> p[i] == 0)
            && p[28..32] == (if third && Ipv4.Parse(cfg.hostIp).Some? then Ipv4.Parse(cfg.hostIp).value
                             else [0, 0, 0, 0])
            && (forall i :: 32 <= i < 40 ==> p[i] == 0)
  {
    hide Ipv4.Parse, HostIp, Beat2;
    HostIpIs(cfg);
    SecondFields(cfg, counter, kind, third, tail);
  }

  lemma SecondFields(cfg: Config, counter: byte, kind: ExtraKind, third: bool, tail: seq<byte>)
    requires cfg.Fits() && |tail| == 4
    ensures var p := Beat2(cfg, counter, kind, third, tail);
            && |p| == 40 && p[..6] == [0x07, counter, 0x28, 0x00, 0x0b, if third then 0x03 else 0x01]
            && p[6..8] == (if kind.NoExtra? then cfg.keepAliveVersion else [0x0f, 0x27])
            && p[8..10] == [0x2f, 0x12] && (forall i :: 10 <= i < 16 ==> p[i] == 0)
            && p[16..20] == (if third then tail else [0, 0, 0, 0]) && (forall i :: 20 <= i < 28 ==> p[i] == 0)
            && p[28..32] == (if third then HostIp(cfg) else [0, 0, 0, 0]) && (forall i :: 32 <= i < 40 ==> p[i] == 0)
  {
    hide HostIp;
    var t: seq<byte>, ip := if third then tail else [0, 0, 0, 0], if third then HostIp(cfg) else [0, 0, 0, 0];
    var version := if kind.NoExtra? then cfg.keepAliveVersion else [0x0f, 0x27];
    FourThenZeros(third, tail);
    FourThenZeros(third, HostIp(cfg));
    var head := [0x07, counter, 0x28, 0x00, 0x0b, if third then 0x03 else 0x01];
    assert Beat2(cfg, counter, kind, third, tail)
           == head + Field(version, 2) + Field([0x2f, 0x12], 8) + (t + Zeros(8)) + (ip + Zeros(8));
    Slices(head, version, t, ip);
  }

  lemma FourThenZeros(given: bool, data: seq<byte>)
    requires |data| == 4
    ensures Field(if given then data else [], 12) == (if given then data else [0, 0, 0, 0]) + Zeros(8)
  {
  }

  lemma Slices(head: seq<byte>, version: seq<byte>, t: seq<byte>, ip: seq<byte>)
    requires |head| == 6 && |version| == 2 && |t| == |ip| == 4
    ensures var p := head + Field(version, 2) + Field([0x2f, 0x12], 8) + (t + Zeros(8)) + (ip + Zeros(8));
            && |p| == 40 && p[..6] == head && p[6..8] == version && p[8..10] == [0x2f, 0x12]
            && (forall i :: 10 <= i < 16 ==> p[i] == 0) && p[16..20] == t && (forall i :: 20 <= i < 28 ==> p[i] == 0)
            && p[28..32] == ip && (forall i :: 32 <= i < 40 ==> p[i] == 0)
  {
  }

  /** The extra packet of a round: in JLU mode in every tenth one, beginning with the first, else only in the first. */
  lemma ExtraWhen(jluMode: bool, rounds: nat)
    ensures ExtraOfRound(jluMode, rounds).NoExtra? <==> if jluMode then rounds % 10 != 0 else rounds != 0
  {
  }
}
