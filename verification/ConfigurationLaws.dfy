/** Printing a configuration and reading it back, and what the packet builder may rely on. */
module ConfigurationLaws {
  import opened Words
  import opened Text
  import opened Settings
  import opened ConfigText
  import opened ConfigValues
  import opened Configuration
  import opened Layout
  import ConfigReader
  import Ipv4

  const COLON: byte := 0x3a

  /** How a key is printed; None for a key without a line. */
  function ValueText(c: Config, key: Key): Option<text>
    requires |c.mac| > 0
  {
    match key
    case Profile => Some(c.profile)
    case Server => if c.server == [] then None else Some(c.server)
    case Username => Some(c.username)
    case Password => Some(c.password)
    case ControlCheckStatus => Some(PrintHex([c.controlCheckStatus]))
    case AdapterNum => Some(PrintHex([c.adapterNum]))
    case HostIp => if c.hostIp == [] then None else Some(c.hostIp)
    case IpDog => Some(PrintHex([c.ipDog]))
    case HostName => Some(c.hostName)
    case PrimaryDns => if c.primaryDns == [] then None else Some(c.primaryDns)
    case DhcpServer => if c.dhcpServer == [] then None else Some(c.dhcpServer)
    case AuthVersion => Some(PrintHex(c.authVersion))
    case Mac => Some(PrintSeparated(c.mac, COLON))
    case HostOs => Some(c.hostOs)
    case KeepAliveVersion => Some(PrintHex(c.keepAliveVersion))
    case RorVersion => Some(PrintBool(c.rorVersion))
    case Keepalive1Mod => Some(PrintBool(c.keepalive1Mod))
    case JluMode => Some(PrintBool(c.jluMode))
    case StartupDelay => Some(Decimal(c.startupDelay))
    case _ => None
  }

  function LineFor(c: Config, key: Key): seq<text>
    requires |c.mac| > 0
  {
    match ValueText(c, key)
    case None => []
    case Some(value) => [Print(Name(key), value, QUOTE)]
  }

  function Lines(c: Config, keys: seq<Key>): seq<text>
    requires |c.mac| > 0
  {
    if keys == [] then [] else Lines(c, keys[..|keys| - 1]) + LineFor(c, keys[|keys| - 1])
  }

  /** A file with one line for each key that has a value. */
  function PrintConfig(c: Config): seq<text>
    requires |c.mac| > 0
  {
    Lines(c, KEYS)
  }

  lemma PairClean(bytes: seq<byte>, separator: text)
    requires separator == [] || separator == [COLON]
    ensures NUL !in Spelled(bytes, separator)
    ensures var s := Spelled(bytes, separator); s != [] ==> !IsSpace(s[0]) && !IsSpace(s[|s| - 1])
  {
    if bytes != [] {
      PairClean(bytes[1..], separator);
      DigitsClean(bytes[0]);
      hide HexOf, IsSpace, Spelled;
      SpelledFirst(bytes, separator);
    }
  }

  lemma SpelledFirst(bytes: seq<byte>, separator: text)
    requires bytes != []
    ensures Spelled(bytes, separator) == separator + HexOf(bytes[0]) + Spelled(bytes[1..], separator)
  {
  }

  lemma DigitsClean(b: byte)
    ensures var d := HexOf(b); NUL !in d && !IsSpace(d[0]) && !IsSpace(d[1])
    ensures !IsSpace(COLON)
  {
    assert forall n :: 0 <= n < 16 ==> HEX[n] != NUL && !IsSpace(HEX[n]);
  }

  lemma HexClean(bytes: seq<byte>)
    ensures Clean(PrintHex(bytes))
  {
    assert !IsSpace(ZERO) && !IsSpace(SMALL_X);
    hide Spelled, IsSpace;
    PairClean(bytes, []);
  }

  lemma SeparatedClean(bytes: seq<byte>)
    requires |bytes| > 0
    ensures Clean(PrintSeparated(bytes, COLON))
  {
    hide Spelled, IsSpace, HexOf;
    DigitsClean(bytes[0]);
    PairClean(bytes[1..], [COLON]);
  }

  lemma BoolClean(b: bool)
    ensures Clean(PrintBool(b))
  {
  }

  lemma RunClean(s: text)
    requires IsRun(s)
    ensures Clean(s)
  {
    hide IsSpace;
    NoSpaceHere(s[0]);
    NoSpaceHere(s[|s| - 1]);
  }

  lemma SecondsRoundTrip(n: nat)
    requires n <= LONGEST
    ensures ParseSeconds(Decimal(n)) == Some(n)
  {
    hide ParseSeconds, Decimal;
    var s := Decimal(n);
    assert s == [] + [] + s + [];
    NumberParses(s, [], [], s, [], n);
  }

  /** What is printed for a key is a value that the parser takes. */
  lemma ValueAllowed(c: Config, key: Key)
    requires Sound(c)
    ensures var o := ValueText(c, key); o.Some? ==> Allowed(key, o.value) && Clean(o.value)
  {
    hide ParseHex, ParseBool, ParseSeconds, PrintHex, PrintSeparated, PrintBool, Decimal, Clean, IsAddress, IsHex;
    match key
    case ControlCheckStatus => HexPrints([c.controlCheckStatus]);
    case AdapterNum => HexPrints([c.adapterNum]);
    case IpDog => HexPrints([c.ipDog]);
    case AuthVersion => HexPrints(c.authVersion);
    case KeepAliveVersion => HexPrints(c.keepAliveVersion);
    case Mac => MacPrints(c.mac);
    case RorVersion => BoolPrints(c.rorVersion);
    case Keepalive1Mod => BoolPrints(c.keepalive1Mod);
    case JluMode => BoolPrints(c.jluMode);
    case StartupDelay => SecondsPrint(c.startupDelay);
    case _ =>
  }

  lemma HexPrints(bytes: seq<byte>)
    ensures ParseHex(PrintHex(bytes), |bytes|) == Some(bytes) && Clean(PrintHex(bytes))
  {
    hide ParseHex, PrintHex;
    HexRoundTrip(bytes);
    HexClean(bytes);
  }

  lemma MacPrints(mac: seq<byte>)
    requires |mac| > 0
    ensures ParseHex(PrintSeparated(mac, COLON), |mac|) == Some(mac) && Clean(PrintSeparated(mac, COLON))
  {
    assert !IsHex(COLON);
    hide ParseHex, PrintSeparated, IsHex;
    SeparatedRoundTrip(mac, COLON);
    SeparatedClean(mac);
  }

  lemma BoolPrints(b: bool)
    ensures ParseBool(PrintBool(b)) == Some(b) && Clean(PrintBool(b))
  {
    hide ParseBool, PrintBool;
    BoolRoundTrip(b);
    BoolClean(b);
  }

  lemma SecondsPrint(n: nat)
    requires n <= LONGEST
    ensures ParseSeconds(Decimal(n)) == Some(n) && Clean(Decimal(n))
  {
    hide ParseSeconds;
    SecondsRoundTrip(n);
    RunClean(Decimal(n));
  }

  lemma NamesToAdapter(key: Key)
    requires key.Profile? || key.Server? || key.Username?
             || key.Password? || key.ControlCheckStatus? || key.AdapterNum?
    ensures NUL !in Name(key) && EQUALS !in Name(key)
  {
  }

  lemma NamesToDhcp(key: Key)
    requires key.HostIp? || key.IpDog? || key.HostName?
             || key.PrimaryDns? || key.SecondaryDns? || key.DhcpServer?
    ensures NUL !in Name(key) && EQUALS !in Name(key)
  {
  }

  lemma NamesToRor(key: Key)
    requires key.AuthVersion? || key.Mac? || key.HostOs? || key.KeepAliveVersion? || key.RorVersion?
    ensures NUL !in Name(key) && EQUALS !in Name(key)
  {
  }

  lemma NamesToEternal(key: Key)
    requires key.Keepalive1Mod? || key.JluMode? || key.StartupDelay? || key.BindIp? || key.Log? || key.Eternal?
    ensures NUL !in Name(key) && EQUALS !in Name(key)
  {
  }

  lemma NameHasNo(key: Key)
    ensures NUL !in Name(key) && EQUALS !in Name(key)
  {
    hide Name;
    match key
    case Profile | Server | Username | Password | ControlCheckStatus | AdapterNum => NamesToAdapter(key);
    case HostIp | IpDog | HostName | PrimaryDns | SecondaryDns | DhcpServer => NamesToDhcp(key);
    case AuthVersion | Mac | HostOs | KeepAliveVersion | RorVersion => NamesToRor(key);
    case Keepalive1Mod | JluMode | StartupDelay | BindIp | Log | Eternal => NamesToEternal(key);
  }

  lemma NameEnds(key: Key)
    ensures var s := Name(key); s != [] && s[0] >= 0x41 && s[|s| - 1] >= 0x31
  {
    hide Name, NameShape;
    NamesHaveShapes(key);
    ShapeEnds(key);
  }

  lemma ShapeEnds(key: Key)
    ensures NameShape(key).first >= 0x41 && NameShape(key).last >= 0x31
  {
  }

  lemma Visible(c: byte)
    requires c >= 0x31
    ensures !IsSpace(c) && c != HASH
  {
  }

  lemma NameIsKey(key: Key)
    ensures var s := Name(key); Clean(s) && s != [] && s[0] != HASH && EQUALS !in s
  {
    hide Name, IsSpace;
    NameHasNo(key);
    NameEnds(key);
    Visible(Name(key)[0]);
    Visible(Name(key)[|Name(key)| - 1]);
  }

  lemma NoNul(s: text)
    requires NUL !in s
    ensures UpToNul(s) == s
  {
  }

  lemma LineMeans(key: Key, value: text)
    requires Allowed(key, value) && Clean(value)
    ensures ItemOf(Print(Name(key), value, QUOTE)) == Entry(key, value)
  {
    NameIsKey(key);
    hide Name, Allowed, Read, KeyOf, IsTrimmed;
    var line := Print(Name(key), value, QUOTE);
    PrintRead(Name(key), value, QUOTE);
    NoNul(line);
    KeyOfIff(Name(key), key);
  }

  lemma {:induction false} LinesMean(c: Config, keys: seq<Key>, key: Key)
    requires Sound(c)
    ensures Latest(Lines(c, keys), key) == if key in keys then ValueText(c, key) else None
    ensures Accepts(Lines(c, keys))
  {
    assert |c.mac| == 6;
    hide Sound, ValueText, LineFor, Latest, Accepts, Lines;
    if keys == [] {
      NoLines(c, key);
    } else {
      var last, before := keys[|keys| - 1], keys[..|keys| - 1];
      assert keys == before + [last];
      LinesMean(c, before, key);
      LastLine(c, last, Lines(c, before), key);
      LinesStep(c, before, last);
      InFront(before, last, key);
    }
  }

  lemma LinesStep(c: Config, keys: seq<Key>, last: Key)
    requires |c.mac| > 0
    ensures Lines(c, keys + [last]) == Lines(c, keys) + LineFor(c, last)
  {
    hide LineFor;
    assert (keys + [last])[..|keys|] == keys;
  }

  lemma InFront(before: seq<Key>, last: Key, key: Key)
    ensures key in before + [last] <==> key == last || key in before
  {
  }

  lemma NoLines(c: Config, key: Key)
    requires |c.mac| > 0
    ensures Lines(c, []) == [] && Latest([], key) == None && Accepts([])
  {
  }

  lemma LastLine(c: Config, last: Key, before: seq<text>, key: Key)
    requires Sound(c)
    ensures var lines := before + LineFor(c, last);
            && Latest(lines, key) == (if last == key && ValueText(c, key).Some? then ValueText(c, key)
                                      else Latest(before, key))
            && (Accepts(before) ==> Accepts(lines))
  {
    assert |c.mac| == 6;
    hide Sound, ValueText, ItemOf, LineFor, Latest, Accepts;
    OneLine(c, last);
    var o, lines := ValueText(c, last), LineFor(c, last);
    if o.None? {
      assert before + [] == before;
    } else {
      LatestStep(before, lines[0], key);
      assert lines == [lines[0]];
    }
  }

  lemma OneLine(c: Config, key: Key)
    requires Sound(c)
    ensures var o, lines := ValueText(c, key), LineFor(c, key);
            if o.None? then lines == [] else |lines| == 1 && ItemOf(lines[0]) == Entry(key, o.value)
  {
    assert |c.mac| == 6;
    hide Sound, ValueText, ItemOf, Print, Name, Allowed, Clean;
    ValueAllowed(c, key);
    var o := ValueText(c, key);
    if o.Some? {
      LineMeans(key, o.value);
    }
  }

  /** Printing a configuration and reading the file gives the configuration back. */
  lemma ConfigRoundTrip(c: Config)
    requires Sound(c)
    ensures Meaning(PrintConfig(c)) == Some(c)
  {
    hide Latest, Lines, ValueText, Written, ItemOf, ProfileDefaults, KEYS;
    var lines := PrintConfig(c);
    forall key
      ensures Latest(lines, key) == ValueText(c, key)
    {
      EveryKey(key);
      LinesMean(c, KEYS, key);
    }
    LinesMean(c, KEYS, Profile);
    WrittenBack(c, lines);
    AllSaid(c, lines);
  }

  lemma EveryKey(key: Key)
    ensures key in KEYS
  {
  }

  lemma AllSaid(c: Config, lines: seq<text>)
    requires |c.mac| > 0 && forall key :: Latest(lines, key) == ValueText(c, key)
    ensures Said(lines) == Explicit(true, true, true, true, true)
  {
    hide Latest;
  }

  lemma WrittenBack(c: Config, lines: seq<text>)
    requires Sound(c) && forall key :: Latest(lines, key) == ValueText(c, key)
    ensures Written(lines) == c
  {
    TextsBack(c, lines);
    BytesFieldsBack(c, lines);
    SwitchesBack(c, lines);
    hide Latest, ValueText, BytesAt, ByteAt, BoolAt, SecondsAt, TextAt;
  }

  lemma TextsBack(c: Config, lines: seq<text>)
    requires |c.mac| > 0 && forall key :: Latest(lines, key) == ValueText(c, key)
    ensures var w := Written(lines);
            && w.profile == c.profile && w.server == c.server && w.username == c.username && w.password == c.password
            && w.hostIp == c.hostIp && w.hostName == c.hostName && w.primaryDns == c.primaryDns
            && w.dhcpServer == c.dhcpServer && w.hostOs == c.hostOs
  {
    hide Latest, PrintHex, PrintSeparated, PrintBool, Decimal, BytesAt, ByteAt, BoolAt, SecondsAt;
  }

  lemma BytesFieldsBack(c: Config, lines: seq<text>)
    requires c.Fits() && forall key :: Latest(lines, key) == ValueText(c, key)
    ensures var w := Written(lines);
            && w.controlCheckStatus == c.controlCheckStatus && w.adapterNum == c.adapterNum && w.ipDog == c.ipDog
            && w.authVersion == c.authVersion && w.mac == c.mac && w.keepAliveVersion == c.keepAliveVersion
  {
    hide Latest, PrintHex, PrintSeparated, PrintBool, Decimal, BytesAt, ByteAt, BoolAt, SecondsAt, TextAt;
    ByteBack(c.controlCheckStatus);
    ByteBack(c.adapterNum);
    ByteBack(c.ipDog);
    BytesBack(c.authVersion);
    BytesBack(c.keepAliveVersion);
    MacBack(c.mac);
  }

  lemma SwitchesBack(c: Config, lines: seq<text>)
    requires |c.mac| > 0 && c.startupDelay <= LONGEST && forall key :: Latest(lines, key) == ValueText(c, key)
    ensures var w := Written(lines);
            && w.rorVersion == c.rorVersion && w.keepalive1Mod == c.keepalive1Mod && w.jluMode == c.jluMode
            && w.startupDelay == c.startupDelay
  {
    hide Latest, PrintHex, PrintSeparated, PrintBool, Decimal, BytesAt, ByteAt, BoolAt, SecondsAt, TextAt;
    BoolBack(c.rorVersion);
    BoolBack(c.keepalive1Mod);
    BoolBack(c.jluMode);
    SecondsBack(c.startupDelay);
  }

  lemma ByteBack(b: byte)
    ensures ByteAt(Some(PrintHex([b]))) == b
  {
    hide ParseHex, PrintHex, Clean;
    HexPrints([b]);
  }

  lemma BytesBack(bytes: seq<byte>)
    ensures BytesAt(Some(PrintHex(bytes)), |bytes|) == bytes
  {
    hide ParseHex, PrintHex, Clean;
    HexPrints(bytes);
  }

  lemma MacBack(mac: seq<byte>)
    requires |mac| > 0
    ensures BytesAt(Some(PrintSeparated(mac, COLON)), |mac|) == mac
  {
    hide ParseHex, PrintSeparated, Clean;
    MacPrints(mac);
  }

  lemma BoolBack(b: bool)
    ensures BoolAt(Some(PrintBool(b))) == b
  {
    hide ParseBool, PrintBool, Clean;
    BoolPrints(b);
  }

  lemma SecondsBack(n: nat)
    requires n <= LONGEST
    ensures SecondsAt(Some(Decimal(n))) == n
  {
    hide ParseSeconds, Clean;
    SecondsPrint(n);
  }

  // ---- The printed lines fit the reader's buffer ----------------------------------------------

  lemma {:induction false} SpelledLength(bytes: seq<byte>, separator: text)
    ensures |Spelled(bytes, separator)| == (2 + |separator|) * |bytes|
  {
    if bytes == [] {
    } else {
      hide HexOf;
      SpelledLength(bytes[1..], separator);
      assert (2 + |separator|) * |bytes| == (2 + |separator|) * (|bytes| - 1) + 2 + |separator|;
    }
  }

  lemma DecimalStep(n: nat)
    ensures |Decimal(n)| == if n < 10 then 1 else |Decimal(n / 10)| + 1
  {
    hide ToByte;
  }

  lemma DecimalLength(n: nat)
    requires n <= LONGEST
    ensures |Decimal(n)| <= 4
  {
    hide Decimal;
    DecimalStep(n);
    DecimalStep(n / 10);
    DecimalStep(n / 10 / 10);
    DecimalStep(n / 10 / 10 / 10);
  }

  lemma ValueLength(c: Config, key: Key)
    requires Sound(c)
    ensures var o := ValueText(c, key); o.Some? ==> |o.value| < 36
  {
    hide Spelled, HexOf, Decimal, Clean, IsAddress, ProfileKnown;
    SpelledLength([c.controlCheckStatus], []);
    SpelledLength([c.adapterNum], []);
    SpelledLength([c.ipDog], []);
    SpelledLength(c.authVersion, []);
    SpelledLength(c.keepAliveVersion, []);
    SpelledLength(c.mac[1..], [COLON]);
    DecimalLength(c.startupDelay);
  }

  lemma NameLength(key: Key)
    ensures |Name(key)| <= 21
  {
  }

  lemma {:induction false} LinesShort(c: Config, keys: seq<Key>)
    requires Sound(c)
    ensures forall line :: line in Lines(c, keys) ==> |line| < ConfigReader.BUFFER_SIZE
  {
    assert |c.mac| == 6;
    hide Sound, ValueText, Name;
    if keys != [] {
      var last := keys[|keys| - 1];
      LinesShort(c, keys[..|keys| - 1]);
      ValueLength(c, last);
      NameLength(last);
    }
  }

  /** The printed file is one that the reader takes, and what it then holds is the configuration again. */
  method ReadBack(c: Config) returns (r: ConfigReader.Reader)
    requires Sound(c)
    ensures fresh(r) && r.config == c
  {
    hide Meaning, Sound, KEYS, Lines;
    SixBytes(c);
    LinesShort(c, KEYS);
    ConfigRoundTrip(c);
    r := new ConfigReader.Reader();
    var ok := r.Parse(PrintConfig(c));
  }

  lemma SixBytes(c: Config)
    requires Sound(c)
    ensures |c.mac| == 6
  {
  }

  /** Whatever file a configuration came from, printing it gives a file with the same meaning. */
  lemma PrintedFileMeansTheSame(lines: seq<text>)
    requires Meaning(lines).Some?
    ensures Meaning(PrintConfig(Meaning(lines).value)) == Meaning(lines)
  {
    hide Meaning;
    AcceptedIsSound(lines);
    ConfigRoundTrip(Meaning(lines).value);
  }

  /** With an accepted file `dhcp_login` gives up on an address exactly if the file has no line for one of the
      three: an address that is there always parses again. A packet is missing in that case, and otherwise only
      if the password is too long to be rotated. */
  lemma LoginNeedsAddresses(lines: seq<text>, seed: seq<byte>, jlu: bool, signed: bool)
    requires Meaning(lines).Some?
    ensures var c := Meaning(lines).value;
            var missing := Latest(lines, HostIp).None? || Latest(lines, PrimaryDns).None?
                           || Latest(lines, DhcpServer).None?;
            && c.Fits() && (AddressesParse(c) <==> !missing)
            && (LoginOf(c, seed, jlu, signed).None? <==> missing || Overlong(c, jlu))
  {
    hide Latest, Login;
    AcceptedIsSound(lines);
    AddressThere(lines, HostIp);
    AddressThere(lines, PrimaryDns);
    AddressThere(lines, DhcpServer);
  }

  lemma AddressThere(lines: seq<text>, key: Key)
    requires key.HostIp? || key.PrimaryDns? || key.DhcpServer?
    ensures var o := Latest(lines, key); Ipv4.Parse(TextAt(o)).Some? <==> o.Some?
  {
    hide Latest;
    LatestAllowed(lines, key);
    assert RunLength([]) == 0;
    assert Ipv4.Octets([], 4).None?;
  }
}
