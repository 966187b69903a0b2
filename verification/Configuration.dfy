/** configparse.c in dhcp mode: what a configuration file means, and how it is read. */
module Configuration {
  import opened Words
  import opened Text
  import opened Settings
  import opened ConfigText
  import opened ConfigValues
  import Ipv4

  // ---- Keys -----------------------------------------------------------------------------------

  datatype Key =
    | Profile | Server | Username | Password | ControlCheckStatus | AdapterNum | HostIp | IpDog | HostName
    | PrimaryDns | SecondaryDns | DhcpServer | AuthVersion | Mac | HostOs | KeepAliveVersion | RorVersion
    | Keepalive1Mod | JluMode | StartupDelay | BindIp | Log | Eternal

  const KEYS: seq<Key> := [
    Profile, Server, Username, Password, ControlCheckStatus, AdapterNum, HostIp, IpDog, HostName,
    PrimaryDns, SecondaryDns, DhcpServer, AuthVersion, Mac, HostOs, KeepAliveVersion, RorVersion,
    Keepalive1Mod, JluMode, StartupDelay, BindIp, Log, Eternal]

  function Name(key: Key): text {
    match key
    case Profile => [0x70, 0x72, 0x6f, 0x66, 0x69, 0x6c, 0x65]  // profile
    case Server => [0x73, 0x65, 0x72, 0x76, 0x65, 0x72]  // server
    case Username => [0x75, 0x73, 0x65, 0x72, 0x6e, 0x61, 0x6d, 0x65]  // username
    case Password => [0x70, 0x61, 0x73, 0x73, 0x77, 0x6f, 0x72, 0x64]  // password
    case ControlCheckStatus =>  // CONTROLCHECKSTATUS
      [0x43, 0x4f, 0x4e, 0x54, 0x52, 0x4f, 0x4c, 0x43] + [0x48, 0x45, 0x43, 0x4b, 0x53, 0x54, 0x41, 0x54]
      + [0x55, 0x53]
    case AdapterNum => [0x41, 0x44, 0x41, 0x50, 0x54, 0x45, 0x52, 0x4e, 0x55, 0x4d]  // ADAPTERNUM
    case HostIp => [0x68, 0x6f, 0x73, 0x74, 0x5f, 0x69, 0x70]  // host_ip
    case IpDog => [0x49, 0x50, 0x44, 0x4f, 0x47]  // IPDOG
    case HostName => [0x68, 0x6f, 0x73, 0x74, 0x5f, 0x6e, 0x61, 0x6d, 0x65]  // host_name
    case PrimaryDns => [0x50, 0x52, 0x49, 0x4d, 0x41, 0x52, 0x59, 0x5f, 0x44, 0x4e, 0x53]  // PRIMARY_DNS
    case SecondaryDns =>  // SECONDARY_DNS
      [0x53, 0x45, 0x43, 0x4f, 0x4e, 0x44, 0x41, 0x52] + [0x59, 0x5f, 0x44, 0x4e, 0x53]
    case DhcpServer => [0x64, 0x68, 0x63, 0x70, 0x5f, 0x73, 0x65, 0x72, 0x76, 0x65, 0x72]  // dhcp_server
    case AuthVersion => [0x41, 0x55, 0x54, 0x48, 0x5f, 0x56, 0x45, 0x52] + [0x53, 0x49, 0x4f, 0x4e]  // AUTH_VERSION
    case Mac => [0x6d, 0x61, 0x63]  // mac
    case HostOs => [0x68, 0x6f, 0x73, 0x74, 0x5f, 0x6f, 0x73]  // host_os
    case KeepAliveVersion =>  // KEEP_ALIVE_VERSION
      [0x4b, 0x45, 0x45, 0x50, 0x5f, 0x41, 0x4c, 0x49] + [0x56, 0x45, 0x5f, 0x56, 0x45, 0x52, 0x53, 0x49]
      + [0x4f, 0x4e]
    case RorVersion => [0x72, 0x6f, 0x72, 0x5f, 0x76, 0x65, 0x72, 0x73, 0x69, 0x6f, 0x6e]  // ror_version
    case Keepalive1Mod =>  // keepalive1_mod
      [0x6b, 0x65, 0x65, 0x70, 0x61, 0x6c, 0x69, 0x76] + [0x65, 0x31, 0x5f, 0x6d, 0x6f, 0x64]
    case JluMode => [0x6a, 0x6c, 0x75, 0x5f, 0x6d, 0x6f, 0x64, 0x65]  // jlu_mode
    case StartupDelay =>  // startup_delay_seconds
      [0x73, 0x74, 0x61, 0x72, 0x74, 0x75, 0x70, 0x5f] + [0x64, 0x65, 0x6c, 0x61, 0x79, 0x5f, 0x73, 0x65]
      + [0x63, 0x6f, 0x6e, 0x64, 0x73]
    case BindIp => [0x62, 0x69, 0x6e, 0x64, 0x5f, 0x69, 0x70]  // bind_ip
    case Log => [0x6c, 0x6f, 0x67]  // log
    case Eternal => [0x65, 0x74, 0x65, 0x72, 0x6e, 0x61, 0x6c]  // eternal
  }

  /** Length, first and last byte of a name, which tell the names apart. */
  datatype Shape = Shape(length: nat, first: byte, last: byte)

  function ShapeOf(name: text): Shape
    requires name != []
  {
    Shape(|name|, name[0], name[|name| - 1])
  }

  function NameShape(key: Key): Shape {
    match key
    case Profile => Shape(7, 0x70, 0x65)
    case Server => Shape(6, 0x73, 0x72)
    case Username => Shape(8, 0x75, 0x65)
    case Password => Shape(8, 0x70, 0x64)
    case ControlCheckStatus => Shape(18, 0x43, 0x53)
    case AdapterNum => Shape(10, 0x41, 0x4d)
    case HostIp => Shape(7, 0x68, 0x70)
    case IpDog => Shape(5, 0x49, 0x47)
    case HostName => Shape(9, 0x68, 0x65)
    case PrimaryDns => Shape(11, 0x50, 0x53)
    case SecondaryDns => Shape(13, 0x53, 0x53)
    case DhcpServer => Shape(11, 0x64, 0x72)
    case AuthVersion => Shape(12, 0x41, 0x4e)
    case Mac => Shape(3, 0x6d, 0x63)
    case HostOs => Shape(7, 0x68, 0x73)
    case KeepAliveVersion => Shape(18, 0x4b, 0x4e)
    case RorVersion => Shape(11, 0x72, 0x6e)
    case Keepalive1Mod => Shape(14, 0x6b, 0x64)
    case JluMode => Shape(8, 0x6a, 0x65)
    case StartupDelay => Shape(21, 0x73, 0x73)
    case BindIp => Shape(7, 0x62, 0x70)
    case Log => Shape(3, 0x6c, 0x67)
    case Eternal => Shape(7, 0x65, 0x6c)
  }

  lemma NamesHaveShapes(key: Key)
    ensures Name(key) != [] && ShapeOf(Name(key)) == NameShape(key)
  {
  }

  lemma ShapesDiffer(j: Key, k: Key)
    requires NameShape(j) == NameShape(k)
    ensures j == k
  {
  }

  lemma NamesDiffer(j: Key, k: Key)
    requires Name(j) == Name(k)
    ensures j == k
  {
    hide Name, NameShape, ShapeOf;
    NamesHaveShapes(j);
    NamesHaveShapes(k);
    ShapesDiffer(j, k);
  }

  /** The names as they are written in a file. */
  function Spelling(key: Key): string {
    match key
    case Profile => "profile"
    case Server => "server"
    case Username => "username"
    case Password => "password"
    case ControlCheckStatus => "CONTROLC" + "HECKSTAT" + "US"
    case AdapterNum => "ADAPTERNUM"
    case HostIp => "host_ip"
    case IpDog => "IPDOG"
    case HostName => "host_name"
    case PrimaryDns => "PRIMARY_DNS"
    case SecondaryDns => "SECONDAR" + "Y_DNS"
    case DhcpServer => "dhcp_server"
    case AuthVersion => "AUTH_VER" + "SION"
    case Mac => "mac"
    case HostOs => "host_os"
    case KeepAliveVersion => "KEEP_ALI" + "VE_VERSI" + "ON"
    case RorVersion => "ror_version"
    case Keepalive1Mod => "keepaliv" + "e1_mod"
    case JluMode => "jlu_mode"
    case StartupDelay => "startup_" + "delay_se" + "conds"
    case BindIp => "bind_ip"
    case Log => "log"
    case Eternal => "eternal"
  }

  lemma NamesAre0()
    ensures Spells(Name(Profile), Spelling(Profile))
    ensures Spells(Name(Server), Spelling(Server))
    ensures Spells(Name(Username), Spelling(Username))
    ensures Spells(Name(Password), Spelling(Password))
  {
  }

  lemma NamesAre1()
    ensures Spells(Name(AdapterNum), Spelling(AdapterNum))
    ensures Spells(Name(HostIp), Spelling(HostIp))
    ensures Spells(Name(IpDog), Spelling(IpDog))
    ensures Spells(Name(HostName), Spelling(HostName))
  {
  }

  lemma NamesAre2()
    ensures Spells(Name(PrimaryDns), Spelling(PrimaryDns))
    ensures Spells(Name(DhcpServer), Spelling(DhcpServer))
    ensures Spells(Name(Mac), Spelling(Mac))
    ensures Spells(Name(HostOs), Spelling(HostOs))
  {
  }

  lemma NamesAre3()
    ensures Spells(Name(RorVersion), Spelling(RorVersion))
    ensures Spells(Name(JluMode), Spelling(JluMode))
    ensures Spells(Name(BindIp), Spelling(BindIp))
    ensures Spells(Name(Log), Spelling(Log))
  {
  }

  lemma NameIsEternal()
    ensures Spells(Name(Eternal), Spelling(Eternal))
  {
  }

  lemma NameIsControlCheckStatus()
    ensures Spells(Name(ControlCheckStatus), Spelling(ControlCheckStatus))
  {
    var a: text := [0x43, 0x4f, 0x4e, 0x54, 0x52, 0x4f, 0x4c, 0x43];
    var b: text := [0x48, 0x45, 0x43, 0x4b, 0x53, 0x54, 0x41, 0x54];
    var c: text := [0x55, 0x53];
    assert Spells(a, "CONTROLC");
    assert Spells(b, "HECKSTAT");
    assert Spells(c, "US");
    SpellsBoth(a, "CONTROLC", b, "HECKSTAT");
    SpellsBoth(a + b, "CONTROLC" + "HECKSTAT", c, "US");
  }

  lemma NameIsSecondaryDns()
    ensures Spells(Name(SecondaryDns), Spelling(SecondaryDns))
  {
    var a: text := [0x53, 0x45, 0x43, 0x4f, 0x4e, 0x44, 0x41, 0x52];
    var b: text := [0x59, 0x5f, 0x44, 0x4e, 0x53];
    assert Spells(a, "SECONDAR");
    assert Spells(b, "Y_DNS");
    SpellsBoth(a, "SECONDAR", b, "Y_DNS");
  }

  lemma NameIsAuthVersion()
    ensures Spells(Name(AuthVersion), Spelling(AuthVersion))
  {
    var a: text := [0x41, 0x55, 0x54, 0x48, 0x5f, 0x56, 0x45, 0x52];
    var b: text := [0x53, 0x49, 0x4f, 0x4e];
    assert Spells(a, "AUTH_VER");
    assert Spells(b, "SION");
    SpellsBoth(a, "AUTH_VER", b, "SION");
  }

  lemma NameIsKeepAliveVersion()
    ensures Spells(Name(KeepAliveVersion), Spelling(KeepAliveVersion))
  {
    var a: text := [0x4b, 0x45, 0x45, 0x50, 0x5f, 0x41, 0x4c, 0x49];
    var b: text := [0x56, 0x45, 0x5f, 0x56, 0x45, 0x52, 0x53, 0x49];
    var c: text := [0x4f, 0x4e];
    assert Spells(a, "KEEP_ALI");
    assert Spells(b, "VE_VERSI");
    assert Spells(c, "ON");
    SpellsBoth(a, "KEEP_ALI", b, "VE_VERSI");
    SpellsBoth(a + b, "KEEP_ALI" + "VE_VERSI", c, "ON");
  }

  lemma NameIsKeepalive1Mod()
    ensures Spells(Name(Keepalive1Mod), Spelling(Keepalive1Mod))
  {
    var a: text := [0x6b, 0x65, 0x65, 0x70, 0x61, 0x6c, 0x69, 0x76];
    var b: text := [0x65, 0x31, 0x5f, 0x6d, 0x6f, 0x64];
    assert Spells(a, "keepaliv");
    assert Spells(b, "e1_mod");
    SpellsBoth(a, "keepaliv", b, "e1_mod");
  }

  lemma NameIsStartupDelay()
    ensures Spells(Name(StartupDelay), Spelling(StartupDelay))
  {
    var a: text := [0x73, 0x74, 0x61, 0x72, 0x74, 0x75, 0x70, 0x5f];
    var b: text := [0x64, 0x65, 0x6c, 0x61, 0x79, 0x5f, 0x73, 0x65];
    var c: text := [0x63, 0x6f, 0x6e, 0x64, 0x73];
    assert Spells(a, "startup_");
    assert Spells(b, "delay_se");
    assert Spells(c, "conds");
    SpellsBoth(a, "startup_", b, "delay_se");
    SpellsBoth(a + b, "startup_" + "delay_se", c, "conds");
  }

  lemma NameSpells(key: Key)
    ensures Spells(Name(key), Spelling(key))
  {
    hide Spells, Name, Spelling;
    match key
    case ControlCheckStatus => NameIsControlCheckStatus();
    case SecondaryDns => NameIsSecondaryDns();
    case AuthVersion => NameIsAuthVersion();
    case KeepAliveVersion => NameIsKeepAliveVersion();
    case Keepalive1Mod => NameIsKeepalive1Mod();
    case StartupDelay => NameIsStartupDelay();
    case Profile | Server | Username | Password => NamesAre0();
    case AdapterNum | HostIp | IpDog | HostName => NamesAre1();
    case PrimaryDns | DhcpServer | Mac | HostOs => NamesAre2();
    case RorVersion | JluMode | BindIp | Log => NamesAre3();
    case Eternal => NameIsEternal();
  }

  function Lookup(name: text, keys: seq<Key>): Option<Key> {
    if keys == [] then None else if Name(keys[0]) == name then Some(keys[0]) else Lookup(name, keys[1..])
  }

  /** The key of a name, by comparing it with one name after the other. */
  function KeyOf(name: text): Option<Key> {
    Lookup(name, KEYS)
  }

  lemma LookupFinds(key: Key, keys: seq<Key>)
    requires key in keys
    ensures Lookup(Name(key), keys) == Some(key)
  {
    hide Name;
    if Name(keys[0]) == Name(key) {
      NamesDiffer(keys[0], key);
    } else {
      LookupFinds(key, keys[1..]);
    }
  }

  lemma LookupIsName(name: text, keys: seq<Key>)
    ensures var r := Lookup(name, keys); r.Some? ==> Name(r.value) == name
  {
    hide Name;
  }

  lemma KeyOfIff(name: text, key: Key)
    ensures KeyOf(name) == Some(key) <==> name == Name(key)
  {
    hide Name, Lookup;
    LookupIsName(name, KEYS);
    assert key in KEYS;
    LookupFinds(key, KEYS);
  }

  // ---- What a line means ----------------------------------------------------------------------

  datatype Item = Nothing | Bad | Entry(key: Key, value: text)

  predicate IsAddress(value: text) {
    Ipv4.Parse(value).Some?
  }

  predicate Allowed(key: Key, value: text) {
    match key
    case Profile | Password | HostName | HostOs => |value| < 20
    case Username => |value| < 36
    case Server | HostIp | PrimaryDns | DhcpServer | BindIp => IsAddress(value) && |value| < 20
    case ControlCheckStatus | AdapterNum | IpDog => ParseHex(value, 1).Some?
    case AuthVersion | KeepAliveVersion => ParseHex(value, 2).Some?
    case Mac => ParseHex(value, 6).Some?
    case RorVersion | Keepalive1Mod | JluMode | Eternal => ParseBool(value).Some?
    case StartupDelay => ParseSeconds(value).Some?
    case SecondaryDns | Log => true
  }

  function ItemOf(line: text): Item {
    match Read(UpToNul(line))
    case Blank => Nothing
    case Malformed => Bad
    case Pair(name, value) =>
      match KeyOf(name)
      case None => Bad
      case Some(key) => if Allowed(key, value) then Entry(key, value) else Bad
  }

  // ---- What a file means ----------------------------------------------------------------------

  ghost predicate Accepts(lines: seq<text>) {
    forall line :: line in lines ==> !ItemOf(line).Bad?
  }

  /** The value of the last line that has the key. */
  function Latest(lines: seq<text>, key: Key): Option<text> {
    if lines == [] then None
    else
      var item := ItemOf(lines[|lines| - 1]);
      if item.Entry? && item.key == key then Some(item.value) else Latest(lines[..|lines| - 1], key)
  }

  /** One more line. */
  lemma LatestStep(before: seq<text>, line: text, key: Key)
    ensures Latest(before + [line], key) ==
            if ItemOf(line).Entry? && ItemOf(line).key == key then Some(ItemOf(line).value) else Latest(before, key)
    ensures Accepts(before + [line]) <==> Accepts(before) && !ItemOf(line).Bad?
  {
    hide ItemOf;
    assert forall l :: l in before + [line] <==> l in before || l == line;
    assert (before + [line])[..|before|] == before;
  }

  function TextAt(o: Option<text>): text {
    if o.Some? then o.value else []
  }

  function BytesAt(o: Option<text>, n: nat): (r: seq<byte>)
    ensures |r| == n
  {
    if o.Some? && ParseHex(o.value, n).Some? then ParseHex(o.value, n).value else seq(n, _ => 0)
  }

  function ByteAt(o: Option<text>): byte {
    BytesAt(o, 1)[0]
  }

  predicate BoolAt(o: Option<text>) {
    o.Some? && ParseBool(o.value) == Some(true)
  }

  function SecondsAt(o: Option<text>): nat {
    if o.Some? && ParseSeconds(o.value).Some? then ParseSeconds(o.value).value else 0
  }

  /** Each field is what the last line for it says, else zero. */
  function Written(lines: seq<text>): Config {
    Config(
      TextAt(Latest(lines, Profile)), TextAt(Latest(lines, Server)), TextAt(Latest(lines, Username)),
      TextAt(Latest(lines, Password)), ByteAt(Latest(lines, ControlCheckStatus)), ByteAt(Latest(lines, AdapterNum)),
      TextAt(Latest(lines, HostIp)), ByteAt(Latest(lines, IpDog)), TextAt(Latest(lines, HostName)),
      TextAt(Latest(lines, PrimaryDns)), TextAt(Latest(lines, DhcpServer)), BytesAt(Latest(lines, AuthVersion), 2),
      BytesAt(Latest(lines, Mac), 6), TextAt(Latest(lines, HostOs)), BytesAt(Latest(lines, KeepAliveVersion), 2),
      BoolAt(Latest(lines, RorVersion)), BoolAt(Latest(lines, Keepalive1Mod)), BoolAt(Latest(lines, JluMode)),
      SecondsAt(Latest(lines, StartupDelay)))
  }

  datatype Defaults = Defaults(authVersion: seq<byte>, keepAliveVersion: seq<byte>, jluMode: bool, rorVersion: bool,
    startupDelay: nat)

  const JLU_MODERN: text := [0x6a, 0x6c, 0x75, 0x2d, 0x6d, 0x6f, 0x64, 0x65, 0x72, 0x6e]  // jlu-modern
  const JLU_LEGACY: text := [0x6a, 0x6c, 0x75, 0x2d, 0x6c, 0x65, 0x67, 0x61, 0x63, 0x79]  // jlu-legacy
  const GENERIC: text := [0x67, 0x65, 0x6e, 0x65, 0x72, 0x69, 0x63]  // generic
  const DEFAULT_STARTUP_DELAY := 60

  /** drcom_profile_defaults_for_name. */
  function ProfileDefaults(profile: text): Option<Defaults> {
    if profile == JLU_MODERN then Some(Defaults([0x6a, 0x00], [0xdc, 0x02], true, true, DEFAULT_STARTUP_DELAY))
    else if profile == JLU_LEGACY then Some(Defaults([0x68, 0x00], [0xdc, 0x02], true, true, DEFAULT_STARTUP_DELAY))
    else if profile == GENERIC then Some(Defaults([0x2c, 0x00], [0xdc, 0x02], false, false, 0))
    else None
  }

  predicate ProfileKnown(profile: text) {
    profile == [] || ProfileDefaults(profile).Some?
  }

  /** The five settings that a profile gives where the file does not. */
  datatype Explicit = Explicit(authVersion: bool, keepAliveVersion: bool, jluMode: bool, rorVersion: bool,
    startupDelay: bool)

  function Said(lines: seq<text>): Explicit {
    Explicit(Latest(lines, AuthVersion).Some?, Latest(lines, KeepAliveVersion).Some?, Latest(lines, JluMode).Some?,
             Latest(lines, RorVersion).Some?, Latest(lines, StartupDelay).Some?)
  }

  function Defaulted(c: Config, said: Explicit, d: Defaults): Config {
    c.(authVersion := if said.authVersion then c.authVersion else d.authVersion,
       keepAliveVersion := if said.keepAliveVersion then c.keepAliveVersion else d.keepAliveVersion,
       jluMode := if said.jluMode then c.jluMode else d.jluMode,
       rorVersion := if said.rorVersion then c.rorVersion else d.rorVersion,
       startupDelay := if said.startupDelay then c.startupDelay else d.startupDelay)
  }

  /** The configuration that a file describes; None if it is not accepted. */
  ghost function Meaning(lines: seq<text>): Option<Config> {
    var c := Written(lines);
    if !Accepts(lines) || !ProfileKnown(c.profile) then None
    else if c.profile == [] then Some(c)
    else Some(Defaulted(c, Said(lines), ProfileDefaults(c.profile).value))
  }

  /** A text spelled in one way only. */
  lemma SpellsOne(t: text, u: text, s: string)
    requires Spells(u, s)
    ensures Spells(t, s) <==> t == u
  {
    if Spells(t, s) {
      forall i | 0 <= i < |t|
        ensures t[i] == u[i]
      {
        SameChar(t[i], u[i]);
      }
    }
  }

  lemma SameChar(a: byte, b: byte)
    requires a as char == b as char
    ensures a == b
  {
  }

  lemma ProfileNames()
    ensures Spells(JLU_MODERN, "jlu-modern") && Spells(JLU_LEGACY, "jlu-legacy") && Spells(GENERIC, "generic")
  {
  }

  /** A file whose lines are all right is accepted exactly if it names one of three profiles or none; and where it does
      not set one of these five itself, the profile does. */
  lemma ProfileGives(lines: seq<text>)
    requires Accepts(lines)
    ensures var profile := TextAt(Latest(lines, Profile));
            var modern, legacy := Spells(profile, "jlu-modern"), Spells(profile, "jlu-legacy");
            var generic, some := Spells(profile, "generic"), Meaning(lines).Some?;
            && (some <==> profile == [] || modern || legacy || generic)
            && (some && Latest(lines, AuthVersion).None? ==>
                  Meaning(lines).value.authVersion ==
                  if modern then [0x6a, 0x00] else if legacy then [0x68, 0x00] else if generic then [0x2c, 0x00]
                  else [0x00, 0x00])
            && (some && Latest(lines, KeepAliveVersion).None? ==>
                  Meaning(lines).value.keepAliveVersion == if profile == [] then [0x00, 0x00] else [0xdc, 0x02])
            && (some && Latest(lines, JluMode).None? ==> Meaning(lines).value.jluMode == (modern || legacy))
            && (some && Latest(lines, RorVersion).None? ==> Meaning(lines).value.rorVersion == (modern || legacy))
            && (some && Latest(lines, StartupDelay).None? ==>
                  Meaning(lines).value.startupDelay == if modern || legacy then 60 else 0)
  {
    hide Spells, Latest, Accepts, ParseHex, ParseBool, ParseSeconds, ProfileDefaults;
    var c := Written(lines);
    DefaultsAre(c.profile);
    NothingSaid(lines);
  }

  lemma DefaultsAre(profile: text)
    ensures profile != [] ==>
              ProfileDefaults(profile) ==
              if Spells(profile, "jlu-modern") then Some(Defaults([0x6a, 0x00], [0xdc, 0x02], true, true, 60))
              else if Spells(profile, "jlu-legacy") then Some(Defaults([0x68, 0x00], [0xdc, 0x02], true, true, 60))
              else if Spells(profile, "generic") then Some(Defaults([0x2c, 0x00], [0xdc, 0x02], false, false, 0))
              else None
    ensures profile == [] ==>
              !Spells(profile, "jlu-modern") && !Spells(profile, "jlu-legacy") && !Spells(profile, "generic")
  {
    ProfileNames();
    SpellsOne(profile, JLU_MODERN, "jlu-modern");
    SpellsOne(profile, JLU_LEGACY, "jlu-legacy");
    SpellsOne(profile, GENERIC, "generic");
    Lengths(profile);
    hide Spells;
  }

  lemma Lengths(profile: text)
    ensures profile == [] ==>
              !Spells(profile, "jlu-modern") && !Spells(profile, "jlu-legacy") && !Spells(profile, "generic")
  {
  }

  /** What a file does not say is zero. */
  lemma NothingSaid(lines: seq<text>)
    ensures var c := Written(lines);
            && (Latest(lines, AuthVersion).None? ==> c.authVersion == [0x00, 0x00])
            && (Latest(lines, KeepAliveVersion).None? ==> c.keepAliveVersion == [0x00, 0x00])
            && (Latest(lines, JluMode).None? ==> !c.jluMode) && (Latest(lines, RorVersion).None? ==> !c.rorVersion)
            && (Latest(lines, StartupDelay).None? ==> c.startupDelay == 0)
  {
    hide Latest, ParseHex, ParseBool, ParseSeconds;
  }

  // ---- The order of lines ---------------------------------------------------------------------

  function ValueFor(item: Item, key: Key): seq<text> {
    if item.Entry? && item.key == key then [item.value] else []
  }

  /** The values that a file gives for a key, in order. */
  function ValuesOf(lines: seq<text>, key: Key): seq<text> {
    if lines == [] then []
    else ValuesOf(lines[..|lines| - 1], key) + ValueFor(ItemOf(lines[|lines| - 1]), key)
  }

  lemma LatestIsLast(lines: seq<text>, key: Key)
    ensures var vs := ValuesOf(lines, key);
            Latest(lines, key) == if vs == [] then None else Some(vs[|vs| - 1])
  {
    hide ItemOf;
  }

  /** Lines may change places as long as those for each single key keep their order. */
  lemma OrderIrrelevant(a: seq<text>, b: seq<text>)
    requires multiset(a) == multiset(b)
    requires forall key :: ValuesOf(a, key) == ValuesOf(b, key)
    ensures Meaning(a) == Meaning(b)
  {
    hide ItemOf, Latest, ValuesOf, ProfileDefaults, ParseHex, ParseBool, ParseSeconds;
    forall key
      ensures Latest(a, key) == Latest(b, key)
    {
      LatestIsLast(a, key);
      LatestIsLast(b, key);
    }
    assert forall line :: line in a <==> line in multiset(a);
    assert forall line :: line in b <==> line in multiset(b);
  }

  lemma ValuesStep(lines: seq<text>, line: text, key: Key)
    ensures ValuesOf(lines + [line], key) == ValuesOf(lines, key) + ValueFor(ItemOf(line), key)
  {
    hide ItemOf, ValueFor;
    assert (lines + [line])[..|lines|] == lines;
  }

  lemma SplitLast(a: seq<text>, b: seq<text>)
    requires b != []
    ensures b == b[..|b| - 1] + [b[|b| - 1]] && a + b == (a + b[..|b| - 1]) + [b[|b| - 1]]
  {
  }

  lemma {:induction false} ValuesAppend(a: seq<text>, b: seq<text>, key: Key)
    ensures ValuesOf(a + b, key) == ValuesOf(a, key) + ValuesOf(b, key)
    decreases |b|
  {
    if b == [] {
      assert a + b == a;
      assert ValuesOf(b, key) == [];
    } else {
      hide ItemOf, ValueFor, ValuesOf;
      var front, last := b[..|b| - 1], b[|b| - 1];
      var x, y, z := ValuesOf(a, key), ValuesOf(front, key), ValueFor(ItemOf(last), key);
      calc {
        ValuesOf(a + b, key);
        { SplitLast(a, b); }
        ValuesOf((a + front) + [last], key);
        { ValuesStep(a + front, last, key); }
        ValuesOf(a + front, key) + z;
        { ValuesAppend(a, front, key); }
        (x + y) + z;
        x + (y + z);
        { ValuesStep(front, last, key); }
        x + ValuesOf(front + [last], key);
        { SplitLast(a, b); }
        x + ValuesOf(b, key);
      }
    }
  }

  /** In particular two neighbouring lines that do not have the same key may change places. */
  lemma SwapKeeps(before: seq<text>, x: text, y: text, after: seq<text>)
    requires !(ItemOf(x).Entry? && ItemOf(y).Entry? && ItemOf(x).key == ItemOf(y).key)
    ensures Meaning(before + [x, y] + after) == Meaning(before + [y, x] + after)
  {
    hide ItemOf, Meaning, ValuesOf;
    var a, b := before + [x, y] + after, before + [y, x] + after;
    forall key
      ensures ValuesOf(a, key) == ValuesOf(b, key)
    {
      SwapValues(before, x, y, after, key);
    }
    assert multiset([x, y]) == multiset([y, x]);
    OrderIrrelevant(a, b);
  }

  lemma SwapValues(before: seq<text>, x: text, y: text, after: seq<text>, key: Key)
    requires ValueFor(ItemOf(x), key) == [] || ValueFor(ItemOf(y), key) == []
    ensures ValuesOf(before + [x, y] + after, key) == ValuesOf(before + [y, x] + after, key)
  {
    hide ItemOf, ValuesOf, ValueFor;
    TwoValues(x, y, key);
    TwoValues(y, x, key);
    ValuesAppend(before + [x, y], after, key);
    ValuesAppend(before, [x, y], key);
    ValuesAppend(before + [y, x], after, key);
    ValuesAppend(before, [y, x], key);
  }

  lemma TwoValues(x: text, y: text, key: Key)
    ensures ValuesOf([x, y], key) == ValueFor(ItemOf(x), key) + ValueFor(ItemOf(y), key)
  {
    hide ItemOf, ValueFor;
    assert [x][..0] == [] && ValuesOf([x][..0], key) == [];
    assert ValuesOf([x], key) == [] + ValueFor(ItemOf(x), key);
    assert [x, y][..1] == [x];
  }

  // ---- What an accepted file promises ---------------------------------------------------------

  /** No white space at the ends and no zero byte. */
  predicate Clean(s: text) {
    IsTrimmed(s) && NUL !in s
  }

  lemma {:induction false} LatestAllowed(lines: seq<text>, key: Key)
    ensures var o := Latest(lines, key); o.Some? ==> Allowed(key, o.value) && Clean(o.value)
  {
    hide Allowed, IsTrimmed;
    if lines != [] {
      LatestAllowed(lines[..|lines| - 1], key);
      ItemClean(lines[|lines| - 1]);
    }
  }

  lemma ItemClean(line: text)
    ensures var item := ItemOf(line);
            item.Entry? ==> Allowed(item.key, item.value) && Clean(item.value)
  {
    hide Allowed, IsTrimmed, KeyOf, Trim, Find;
    var t := UpToNul(line);
    if ItemOf(line).Entry? {
      ReadClean(t);
    }
  }

  lemma ReadClean(t: text)
    requires Read(t).Pair? && NUL !in t
    ensures Clean(Read(t).value)
  {
    hide Trim, IsTrimmed, Find;
    var s := Trim(t);
    var rest := s[Find(s, EQUALS) + 1..];
    TrimClean(t);
    TrimClean(rest);
    TrimClean(Strip(Trim(rest)));
  }

  lemma TrimClean(s: text)
    requires NUL !in s
    ensures Clean(Trim(s)) && NUL !in Strip(Trim(s))
  {
    hide Trim, IsTrimmed;
    var before, after := TrimIs(s);
    assert forall c :: c in Trim(s) ==> c in s;
  }

  /** Every string fits its buffer, each address that is there is one, and the delay has its bound. */
  ghost predicate Sound(c: Config) {
    && c.Fits() && c.startupDelay <= LONGEST && ProfileKnown(c.profile)
    && (c.server == [] || IsAddress(c.server)) && (c.hostIp == [] || IsAddress(c.hostIp))
    && (c.primaryDns == [] || IsAddress(c.primaryDns)) && (c.dhcpServer == [] || IsAddress(c.dhcpServer))
    && Clean(c.profile) && Clean(c.server) && Clean(c.username) && Clean(c.password) && Clean(c.hostIp)
    && Clean(c.hostName) && Clean(c.primaryDns) && Clean(c.dhcpServer) && Clean(c.hostOs)
  }

  lemma AcceptedIsSound(lines: seq<text>)
    requires Meaning(lines).Some?
    ensures Sound(Meaning(lines).value)
  {
    hide Written, Accepts, IsAddress, Clean, Latest;
    WrittenIsSound(lines);
    var c := Written(lines);
    if c.profile != [] {
      DefaultsSound(c, Said(lines));
    }
  }

  lemma DefaultsSound(c: Config, said: Explicit)
    requires Sound(c) && ProfileDefaults(c.profile).Some?
    ensures Sound(Defaulted(c, said, ProfileDefaults(c.profile).value))
  {
    hide Clean, IsAddress;
  }

  lemma WrittenIsSound(lines: seq<text>)
    requires ProfileKnown(Written(lines).profile)
    ensures Sound(Written(lines))
  {
    hide Latest, IsAddress, BytesAt, ByteAt, BoolAt, TextAt, Clean, ProfileKnown, SecondsAt;
    AddressSound(lines, Server);
    AddressSound(lines, HostIp);
    AddressSound(lines, PrimaryDns);
    AddressSound(lines, DhcpServer);
    TextSound(lines, Profile);
    TextSound(lines, Username);
    TextSound(lines, Password);
    TextSound(lines, HostName);
    TextSound(lines, HostOs);
    SecondsBound(Latest(lines, StartupDelay));
  }

  lemma AddressSound(lines: seq<text>, key: Key)
    requires key.Server? || key.HostIp? || key.PrimaryDns? || key.DhcpServer?
    ensures var s := TextAt(Latest(lines, key)); Clean(s) && |s| < 20 && (s == [] || IsAddress(s))
  {
    hide Latest, Clean, IsAddress;
    TextSound(lines, key);
  }

  lemma TextSound(lines: seq<text>, key: Key)
    ensures var s := TextAt(Latest(lines, key)); Clean(s) && (s == [] || Allowed(key, s))
  {
    hide Allowed, Latest;
    LatestAllowed(lines, key);
  }

  lemma SecondsBound(o: Option<text>)
    ensures SecondsAt(o) <= LONGEST
  {
  }
}
