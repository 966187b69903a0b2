/** How configparse.c reads a file: line by line into two records, then the defaults of the profile. */
module ConfigReader {
  import opened Words
  import opened Text
  import opened Settings
  import opened ConfigText
  import opened ConfigValues
  import opened Configuration
  import Ipv4

  const BUFFER_SIZE := 256

  const CLEARED: Config := Config([], [], [], [], 0, 0, [], 0, [], [], [], [0, 0], [0, 0, 0, 0, 0, 0], [], [0, 0],
                                  false, false, false, 0)

  // ---- One line as a step ---------------------------------------------------------------------

  function Stored(c: Config, key: Key, v: text): Config {
    match key
    case Profile => c.(profile := v)
    case Server => c.(server := v)
    case Username => c.(username := v)
    case Password => c.(password := v)
    case ControlCheckStatus => c.(controlCheckStatus := ByteAt(Some(v)))
    case AdapterNum => c.(adapterNum := ByteAt(Some(v)))
    case HostIp => c.(hostIp := v)
    case IpDog => c.(ipDog := ByteAt(Some(v)))
    case HostName => c.(hostName := v)
    case PrimaryDns => c.(primaryDns := v)
    case DhcpServer => c.(dhcpServer := v)
    case AuthVersion => c.(authVersion := BytesAt(Some(v), 2))
    case Mac => c.(mac := BytesAt(Some(v), 6))
    case HostOs => c.(hostOs := v)
    case KeepAliveVersion => c.(keepAliveVersion := BytesAt(Some(v), 2))
    case RorVersion => c.(rorVersion := BoolAt(Some(v)))
    case Keepalive1Mod => c.(keepalive1Mod := BoolAt(Some(v)))
    case JluMode => c.(jluMode := BoolAt(Some(v)))
    case StartupDelay => c.(startupDelay := SecondsAt(Some(v)))
    case _ => c
  }

  function Noted(e: Explicit, key: Key): Explicit {
    match key
    case AuthVersion => e.(authVersion := true)
    case KeepAliveVersion => e.(keepAliveVersion := true)
    case JluMode => e.(jluMode := true)
    case RorVersion => e.(rorVersion := true)
    case StartupDelay => e.(startupDelay := true)
    case _ => e
  }

  /** A line adds to what the lines before it mean by storing its value. */
  lemma StoreStep(lines: seq<text>, line: text)
    ensures var item, after := ItemOf(line), lines + [line];
            && (item.Entry? ==> Written(after) == Stored(Written(lines), item.key, item.value)
                                && Said(after) == Noted(Said(lines), item.key))
            && (!item.Entry? ==> Written(after) == Written(lines) && Said(after) == Said(lines))
  {
    hide ItemOf, Latest, BytesAt, ByteAt, BoolAt, SecondsAt, TextAt, Written, Said;
    var item := ItemOf(line);
    forall key
      ensures Latest(lines + [line], key) ==
              if item.Entry? && item.key == key then Some(item.value) else Latest(lines, key)
    {
      LatestStep(lines, line, key);
    }
    if item.Entry? {
      StoreOne(lines, lines + [line], item.key, item.value);
      StoreSaid(lines, lines + [line], item.key, item.value);
    } else {
      SameWritten(lines, lines + [line]);
    }
  }

  lemma SameWritten(a: seq<text>, b: seq<text>)
    requires forall key :: Latest(a, key) == Latest(b, key)
    ensures Written(a) == Written(b) && Said(a) == Said(b)
  {
    hide Latest, BytesAt, ByteAt, BoolAt, SecondsAt, TextAt;
  }

  lemma TextAtSome(v: text)
    ensures TextAt(Some(v)) == v
  {
  }

  lemma StoreAccount(a: seq<text>, b: seq<text>, k: Key, v: text)
    requires k.Profile? || k.Username? || k.Password? || k.HostName? || k.HostOs?
    requires forall key :: Latest(b, key) == if k == key then Some(v) else Latest(a, key)
    ensures Written(b) == Stored(Written(a), k, v)
  {
    hide Latest, BytesAt, ByteAt, BoolAt, SecondsAt, TextAt;
    TextAtSome(v);
  }

  lemma StoreAddress(a: seq<text>, b: seq<text>, k: Key, v: text)
    requires k.Server? || k.HostIp? || k.PrimaryDns? || k.DhcpServer?
    requires forall key :: Latest(b, key) == if k == key then Some(v) else Latest(a, key)
    ensures Written(b) == Stored(Written(a), k, v)
  {
    hide Latest, BytesAt, ByteAt, BoolAt, SecondsAt, TextAt;
    TextAtSome(v);
  }

  lemma StoreBytes(a: seq<text>, b: seq<text>, k: Key, v: text)
    requires k.ControlCheckStatus? || k.AdapterNum? || k.IpDog? || k.AuthVersion? || k.Mac? || k.KeepAliveVersion?
    requires forall key :: Latest(b, key) == if k == key then Some(v) else Latest(a, key)
    ensures Written(b) == Stored(Written(a), k, v)
  {
    hide Latest, BytesAt, ByteAt, BoolAt, SecondsAt, TextAt;
  }

  lemma StoreSwitch(a: seq<text>, b: seq<text>, k: Key, v: text)
    requires k.RorVersion? || k.Keepalive1Mod? || k.JluMode? || k.StartupDelay?
    requires forall key :: Latest(b, key) == if k == key then Some(v) else Latest(a, key)
    ensures Written(b) == Stored(Written(a), k, v)
  {
    hide Latest, BytesAt, ByteAt, BoolAt, SecondsAt, TextAt;
  }

  lemma StoreElsewhere(a: seq<text>, b: seq<text>, k: Key, v: text)
    requires k.SecondaryDns? || k.BindIp? || k.Log? || k.Eternal?
    requires forall key :: Latest(b, key) == if k == key then Some(v) else Latest(a, key)
    ensures Written(b) == Stored(Written(a), k, v)
  {
    hide Latest, BytesAt, ByteAt, BoolAt, SecondsAt, TextAt;
  }

  lemma StoreSaid(a: seq<text>, b: seq<text>, k: Key, v: text)
    requires forall key :: Latest(b, key) == if k == key then Some(v) else Latest(a, key)
    ensures Said(b) == Noted(Said(a), k)
  {
    hide Latest;
  }

  lemma StoreOne(a: seq<text>, b: seq<text>, k: Key, v: text)
    requires forall key :: Latest(b, key) == if k == key then Some(v) else Latest(a, key)
    ensures Written(b) == Stored(Written(a), k, v)
  {
    hide Latest, Written, Stored;
    match k
    case Profile | Username | Password | HostName | HostOs => StoreAccount(a, b, k, v);
    case Server | HostIp | PrimaryDns | DhcpServer => StoreAddress(a, b, k, v);
    case ControlCheckStatus | AdapterNum | IpDog | AuthVersion | Mac | KeepAliveVersion => StoreBytes(a, b, k, v);
    case RorVersion | Keepalive1Mod | JluMode | StartupDelay => StoreSwitch(a, b, k, v);
    case SecondaryDns | BindIp | Log | Eternal => StoreElsewhere(a, b, k, v);
  }

  lemma NothingWritten()
    ensures Written([]) == CLEARED && Said([]) == Explicit(false, false, false, false, false)
  {
  }

  // ---- The reader -----------------------------------------------------------------------------

  class Reader {
    var config: Config
    var explicitly: Explicit

    constructor ()
    {
      config := CLEARED;
      explicitly := Explicit(false, false, false, false, false);
    }

    /** copy_ipv4_checked into a buffer of 20 bytes; true is its return value 0. */
    method AddressFits(value: text) returns (ok: bool)
      ensures ok == (IsAddress(value) && |value| < 20)
    {
      var parsedIp := new byte[4](_ => 0);
      ok := Ipv4.ParseAddress(value, parsedIp);
      ok := ok && |value| < 20;
    }

    /** The branches of read_d_config; true is its return value 0. */
    method Store(key: Key, value: text) returns (ok: bool)
      modifies this
      ensures ok == Allowed(key, value)
      ensures ok ==> config == Stored(old(config), key, value) && explicitly == Noted(old(explicitly), key)
    {
      hide IsAddress, ParseHex, ParseBool, ParseSeconds;
      match key
      case Profile =>
        ok := |value| < 20;
        config := config.(profile := value);
      case Server =>
        ok := AddressFits(value);
        config := config.(server := value);
      case Username =>
        ok := |value| < 36;
        config := config.(username := value);
      case Password =>
        ok := |value| < 20;
        config := config.(password := value);
      case ControlCheckStatus =>
        var parsedByte := ParseHexBytes(value, 1);
        if parsedByte.None? {
          return false;
        }
        config := config.(controlCheckStatus := parsedByte.value[0]);
        return true;
      case AdapterNum =>
        var parsedByte := ParseHexBytes(value, 1);
        if parsedByte.None? {
          return false;
        }
        config := config.(adapterNum := parsedByte.value[0]);
        return true;
      case HostIp =>
        ok := AddressFits(value);
        config := config.(hostIp := value);
      case IpDog =>
        var parsedByte := ParseHexBytes(value, 1);
        if parsedByte.None? {
          return false;
        }
        config := config.(ipDog := parsedByte.value[0]);
        return true;
      case HostName =>
        ok := |value| < 20;
        config := config.(hostName := value);
      case PrimaryDns =>
        ok := AddressFits(value);
        config := config.(primaryDns := value);
      case SecondaryDns =>
        return true;
      case DhcpServer =>
        ok := AddressFits(value);
        config := config.(dhcpServer := value);
      case AuthVersion =>
        var parsedBytes := ParseHexBytes(value, 2);
        if parsedBytes.None? {
          return false;
        }
        config := config.(authVersion := parsedBytes.value);
        explicitly := explicitly.(authVersion := true);
        return true;
      case Mac =>
        var parsedMac := ParseHexBytes(value, 6);
        if parsedMac.None? {
          return false;
        }
        config := config.(mac := parsedMac.value);
        return true;
      case HostOs =>
        ok := |value| < 20;
        config := config.(hostOs := value);
      case KeepAliveVersion =>
        var parsedBytes := ParseHexBytes(value, 2);
        if parsedBytes.None? {
          return false;
        }
        config := config.(keepAliveVersion := parsedBytes.value);
        explicitly := explicitly.(keepAliveVersion := true);
        return true;
      case RorVersion =>
        var parsedBool := ParseBoolString(value);
        if parsedBool.None? {
          return false;
        }
        config := config.(rorVersion := parsedBool.value);
        explicitly := explicitly.(rorVersion := true);
        return true;
      case Keepalive1Mod =>
        var parsedBool := ParseBoolString(value);
        if parsedBool.None? {
          return false;
        }
        config := config.(keepalive1Mod := parsedBool.value);
        return true;
      case JluMode =>
        var parsedBool := ParseBoolString(value);
        if parsedBool.None? {
          return false;
        }
        config := config.(jluMode := parsedBool.value);
        explicitly := explicitly.(jluMode := true);
        return true;
      case StartupDelay =>
        var parsed := ParseNonnegativeInt(value);
        if parsed.None? {
          return false;
        }
        config := config.(startupDelay := parsed.value);
        explicitly := explicitly.(startupDelay := true);
        return true;
      case BindIp =>
        ok := AddressFits(value);
      case Log =>
        return true;
      case Eternal =>
        var parsedBool := ParseBoolString(value);
        ok := parsedBool.Some?;
    }

    /** read_d_config, with the line in a buffer as fgets leaves it. */
    method ReadLine(line: text) returns (ok: bool)
      requires |line| < BUFFER_SIZE
      modifies this
      ensures match ItemOf(line)
              case Nothing => ok && config == old(config) && explicitly == old(explicitly)
              case Bad => !ok
              case Entry(key, value) =>
                ok && config == Stored(old(config), key, value) && explicitly == Noted(old(explicitly), key)
    {
      hide CString, Ends, Allowed, Stored, Noted, Read, KeyOf;
      var buf := new byte[BUFFER_SIZE](i => if 0 <= i < |line| then line[i] else NUL);
      Fetched(line, buf[..]);
      var state, key, value := ParseKeyValue(buf);
      if state > 0 {
        return true;
      }
      if state < 0 {
        return false;
      }
      var name, content := CString(buf[..], key), CString(buf[..], value);
      match KeyOf(name) {
        case None => return false;
        case Some(k) => ok := Store(k, content);
      }
    }

    /** apply_profile_defaults; true is its return value 0. */
    method ApplyProfileDefaults() returns (ok: bool)
      modifies this
      ensures ok == ProfileKnown(old(config).profile)
      ensures ok ==> config == if old(config).profile == [] then old(config)
                               else Defaulted(old(config), old(explicitly), ProfileDefaults(old(config).profile).value)
    {
      hide ProfileDefaults;
      if config.profile == [] {
        return true;
      }
      var defaults := ProfileDefaults(config.profile);
      if defaults.None? {
        return false;
      }
      var d, authVersion, keepAliveVersion := defaults.value, config.authVersion, config.keepAliveVersion;
      var jluMode, rorVersion, startupDelay := config.jluMode, config.rorVersion, config.startupDelay;
      if !explicitly.authVersion {
        authVersion := d.authVersion;
      }
      if !explicitly.keepAliveVersion {
        keepAliveVersion := d.keepAliveVersion;
      }
      if !explicitly.jluMode {
        jluMode := d.jluMode;
      }
      if !explicitly.rorVersion {
        rorVersion := d.rorVersion;
      }
      if !explicitly.startupDelay {
        startupDelay := d.startupDelay;
      }
      config := config.(authVersion := authVersion, keepAliveVersion := keepAliveVersion, jluMode := jluMode,
                        rorVersion := rorVersion, startupDelay := startupDelay);
      return true;
    }

    /** config_parse over the lines of the file, whatever an earlier file left behind: it succeeds
        exactly on the accepted files, and then the record holds what the file means. */
    method Parse(lines: seq<text>) returns (ok: bool)
      requires forall line :: line in lines ==> |line| < BUFFER_SIZE
      modifies this
      ensures ok == Meaning(lines).Some?
      ensures ok ==> Some(config) == Meaning(lines)
    {
      hide ItemOf, Stored, Noted, Written, Said, ProfileDefaults, Accepts;
      config := CLEARED;
      explicitly := Explicit(false, false, false, false, false);
      NothingWritten();
      NoneAccepted();
      for i := 0 to |lines|
        invariant config == Written(lines[..i]) && explicitly == Said(lines[..i]) && Accepts(lines[..i])
      {
        assert lines[..i + 1] == lines[..i] + [lines[i]];
        StoreStep(lines[..i], lines[i]);
        LatestStep(lines[..i], lines[i], Profile);
        var result := ReadLine(lines[i]);
        if !result {
          BadLine(lines, lines[i]);
          return false;
        }
      }
      assert lines[..|lines|] == lines;
      ok := ApplyProfileDefaults();
    }
  }

  lemma NoneAccepted()
    ensures Accepts([])
  {
  }

  lemma BadLine(lines: seq<text>, line: text)
    requires line in lines && ItemOf(line).Bad?
    ensures !Accepts(lines)
  {
  }

  /** The string in the buffer is the line up to its first zero byte. */
  lemma Fetched(line: text, buf: seq<byte>)
    requires |line| < |buf| && buf[..|line|] == line && buf[|line|] == NUL
    ensures Ends(buf, 0) && CString(buf, 0) == UpToNul(line)
  {
    var s := UpToNul(line);
    assert buf[0..|s|] == s;
    assert |s| < |line| ==> buf[|s|] == line[|s|];
    CStringIs(buf, 0, s);
  }
}
