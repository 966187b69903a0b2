/** The login and logout packets as the server reads them: fixed-width fields one after the other. */
module Layout {
  import opened Words
  import opened Text
  import opened Settings
  import opened Fields
  import opened Encoding
  import MessageDigest
  import Ipv4

  function Md5(m: seq<byte>): (r: seq<byte>)
    ensures |r| == 16
  {
    MessageDigest.Digest(MessageDigest.MD5, m)
  }

  /** The digest that opens a login (code 3) or logout (code 6) packet. */
  function Md5A(code: byte, seed: seq<byte>, password: text): (r: seq<byte>)
    ensures |r| == 16
  {
    Md5([code, 0x01] + seed + password)
  }

  function Md5B(seed: seq<byte>, password: text): (r: seq<byte>)
    ensures |r| == 16
  {
    Md5([0x01] + password + seed + [0, 0, 0, 0])
  }

  predicate UsesRor(cfg: Config, jlu: bool) {
    cfg.rorVersion || jlu
  }

  /** The identity part that login and logout share: 64 bytes. */
  function Identity(cfg: Config, code: byte, seed: seq<byte>): (r: seq<byte>)
    requires cfg.Fits()
    ensures |r| == 64
  {
    var digest := Md5A(code, seed, cfg.password);
    [code, 0x01, 0x00, Low(|cfg.username| + 20)] + Field(digest, 16) + Field(cfg.username, 36)
    + Field([cfg.controlCheckStatus], 1) + Field([cfg.adapterNum], 1)
    + Field(XorBytes(digest[..6], cfg.mac), 6)
  }

  /** The first 97 bytes of a login packet, which its first checksum covers. */
  function LoginHead(cfg: Config, seed: seq<byte>, ip: seq<byte>): (r: seq<byte>)
    requires cfg.Fits() && |ip| == 4
    ensures |r| == 97
  {
    Identity(cfg, 0x03, seed) + Field(Md5B(seed, cfg.password), 16) + Field([0x01], 1) + Field(ip, 16)
  }

  function HeadChecksum(head: seq<byte>): (r: seq<byte>)
    ensures |r| == 8
  {
    Md5(head + [0x14, 0x00, 0x07, 0x0b])[..8]
  }

  const JLU_HOST: seq<byte> := [0x44, 0x72, 0x43, 0x4f, 0x4d, 0x00, 0xcf, 0x07, 0x68]
  const JLU_SERVICE_PACK: seq<byte> :=
    [0x33, 0x64, 0x63, 0x37, 0x39, 0x66, 0x35, 0x32] + [0x31, 0x32, 0x65, 0x38, 0x31, 0x37, 0x30, 0x61]
    + [0x63, 0x66, 0x61, 0x39, 0x65, 0x63, 0x39, 0x35] + [0x66, 0x31, 0x64, 0x37, 0x34, 0x39, 0x31, 0x36]
    + [0x35, 0x34, 0x32, 0x62, 0x65, 0x37, 0x62, 0x31]

  /** The bytes up to 182: the first checksum, the host, its addresses and its system version. */
  function LoginHost(cfg: Config, head: seq<byte>, dns: seq<byte>, dhcp: seq<byte>, jlu: bool): (r: seq<byte>)
    requires cfg.Fits() && |head| == 97 && |dns| == 4 && |dhcp| == 4
    ensures |r| == 182
  {
    head + Field(HeadChecksum(head), 8) + Field([cfg.ipDog], 5) + Field(cfg.hostName, 32) + Field(dns, 4)
    + Field(dhcp, 4) + Field([], 12)
    + Field([0x94], 4)
    + Field([if jlu then 0x06 else 0x05], 4)
    + Field([if jlu then 0x02 else 0x01], 4)
    + Field(if jlu then [0xf0, 0x23] else [0x28, 0x0a], 4)
    + Field([0x02], 4)
  }

  /** The two names of the system: 128 bytes. */
  function SystemNames(cfg: Config, jlu: bool): (r: seq<byte>)
    requires cfg.Fits()
    ensures |r| == 128
  {
    if jlu then Field(JLU_HOST, 64) + Field(JLU_SERVICE_PACK, 64) else Field(cfg.hostOs, 64) + Field([], 64)
  }

  /** The first 312 bytes of a login packet. */
  function LoginFixed(cfg: Config, seed: seq<byte>, ip: seq<byte>, dns: seq<byte>, dhcp: seq<byte>, jlu: bool)
    : (r: seq<byte>)
    requires cfg.Fits() && |ip| == |dns| == |dhcp| == 4
    ensures |r| == 312
  {
    LoginHost(cfg, LoginHead(cfg, seed, ip), dns, dhcp, jlu) + SystemNames(cfg, jlu) + Field(cfg.authVersion, 2)
  }

  /** The password as dhcp_login sends it. */
  function Encoded(digest: seq<byte>, password: text, signed: bool): (r: seq<byte>)
    requires |password| <= |digest|
    ensures |r| == |password|
  {
    seq(|password|, i requires 0 <= i < |password| => EncodeChar(digest[i], password[i], signed))
  }

  /** Everything the second checksum covers but its own header: 312 bytes, or more with the password. */
  function LoginBody(cfg: Config, seed: seq<byte>, fixed: seq<byte>, jlu: bool, signed: bool): (r: seq<byte>)
    requires cfg.Fits() && (UsesRor(cfg, jlu) ==> |cfg.password| <= 16)
    ensures |r| == |fixed| + (if UsesRor(cfg, jlu) then 2 + |cfg.password| else 0)
  {
    if UsesRor(cfg, jlu) then
      fixed + [0x00, Low(|cfg.password|)] + Encoded(Md5A(0x03, seed, cfg.password), cfg.password, signed)
    else fixed
  }

  /** The zero bytes between the MAC and the end code. */
  function Padding(passwordLength: nat, ror: bool, jlu: bool): nat {
    if !ror then 2
    else if passwordLength <= 8 then 8 - passwordLength
    else if !jlu then (passwordLength - 8) % 2
    else if passwordLength == 16 then 0
    else passwordLength / 4
  }

  /** The zero bytes behind the end code. */
  function Trailing(passwordLength: nat, jlu: bool): nat {
    if jlu && passwordLength > 8 then 28 else 0
  }

  function EndCode(jlu: bool): (r: seq<byte>)
    ensures |r| == 2
  {
    if jlu then [0x60, 0xa2] else [0xe9, 0x13]
  }

  function BodyChecksum(cfg: Config, body: seq<byte>): (r: seq<byte>)
    requires cfg.Fits()
    ensures |r| == 4
  {
    Checksum(ToWords(body + [0x02, 0x0c] + [0x01, 0x26, 0x07, 0x11, 0x00, 0x00] + cfg.mac), 1234, 1968)
  }

  /** The whole login packet. */
  function Login(cfg: Config, seed: seq<byte>, ip: seq<byte>, dns: seq<byte>, dhcp: seq<byte>, jlu: bool, signed: bool)
    : (r: seq<byte>)
    requires cfg.Fits() && |ip| == |dns| == |dhcp| == 4
    requires UsesRor(cfg, jlu) ==> |cfg.password| <= 16
  {
    var body := LoginBody(cfg, seed, LoginFixed(cfg, seed, ip, dns, dhcp, jlu), jlu, signed);
    var n := |cfg.password|;
    body + [0x02, 0x0c] + Field(BodyChecksum(cfg, body), 6) + Field(cfg.mac, 6 + Padding(n, UsesRor(cfg, jlu), jlu))
    + Field(EndCode(jlu), 2 + Trailing(n, jlu))
  }

  /** The three addresses that go into a login packet. */
  predicate AddressesParse(cfg: Config) {
    Ipv4.Parse(cfg.hostIp).Some? && Ipv4.Parse(cfg.primaryDns).Some? && Ipv4.Parse(cfg.dhcpServer).Some?
  }

  /** The password would be combined with a digest that is shorter. */
  predicate Overlong(cfg: Config, jlu: bool) {
    UsesRor(cfg, jlu) && |cfg.password| > 16
  }

  /** dhcp_login gets as far as reading behind its digest: what it does then is not defined. */
  predicate LoginUndefined(cfg: Config, jlu: bool) {
    AddressesParse(cfg) && Overlong(cfg, jlu)
  }

  /** The packet of a login, if one is sent: no address may be missing, and the password must not be overlong. */
  function LoginOf(cfg: Config, seed: seq<byte>, jlu: bool, signed: bool): Option<seq<byte>>
    requires cfg.Fits()
  {
    if !AddressesParse(cfg) || Overlong(cfg, jlu) then None
    else Some(Login(cfg, seed, Ipv4.Parse(cfg.hostIp).value, Ipv4.Parse(cfg.primaryDns).value,
                    Ipv4.Parse(cfg.dhcpServer).value, jlu, signed))
  }

  /** The logout packet. */
  function Logout(cfg: Config, seed: seq<byte>, auth: seq<byte>): (r: seq<byte>)
    requires cfg.Fits() && |auth| == 16
    ensures |r| == 80
  {
    Identity(cfg, 0x06, seed) + Field(auth, 16)
  }
}
