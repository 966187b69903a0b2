/** The fields of struct config that the DHCP branch uses, with the widths of their buffers. */
module Settings {
  import opened Words
  import opened Text

  datatype Config = Config(
    profile: text,
    server: text,
    username: text,
    password: text,
    controlCheckStatus: byte,
    adapterNum: byte,
    hostIp: text,
    ipDog: byte,
    hostName: text,
    primaryDns: text,
    dhcpServer: text,
    authVersion: seq<byte>,
    mac: seq<byte>,
    hostOs: text,
    keepAliveVersion: seq<byte>,
    rorVersion: bool,
    keepalive1Mod: bool,
    jluMode: bool,
    startupDelay: nat)
  {
    /** Every string fits its buffer with the byte that ends it. */
    ghost predicate Fits() {
      && |profile| < 20 && |server| < 20 && |username| < 36 && |password| < 20
      && |hostIp| < 20 && |hostName| < 20 && |primaryDns| < 20 && |dhcpServer| < 20 && |hostOs| < 20
      && |authVersion| == 2 && |mac| == 6 && |keepAliveVersion| == 2
    }
  }
}
