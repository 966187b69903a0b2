/** What the configuration parser makes of a value: hexadecimal bytes, truth values and seconds. */
module ConfigValues {
  import opened Words
  import opened Text
  import opened ConfigText
  import Ipv4

  // ---- Hexadecimal bytes ----------------------------------------------------------------------

  const ZERO: byte := 0x30
  const SMALL_X: byte := 0x78
  const LARGE_X: byte := 0x58

  predicate IsHex(c: byte) {
    0x30 <= c <= 0x39 || 0x41 <= c <= 0x46 || 0x61 <= c <= 0x66
  }

  function HexValue(c: byte): (v: nat)
    requires IsHex(c)
    ensures v < 16
  {
    if c <= 0x39 then (c - 0x30) as nat else if c <= 0x46 then (c - 0x37) as nat else (c - 0x57) as nat
  }

  /** The hexadecimal digits among the bytes of s. */
  function Collected(s: text): (r: text)
    ensures forall i :: 0 <= i < |r| ==> IsHex(r[i])
  {
    if s == [] then [] else (if IsHex(s[0]) then [s[0]] else []) + Collected(s[1..])
  }

  function Bare(s: text): text {
    if |s| >= 2 && s[0] == ZERO && (s[1] == SMALL_X || s[1] == LARGE_X) then s[2..] else s
  }

  function HexPair(high: byte, low: byte): byte
    requires IsHex(high) && IsHex(low)
  {
    ToByte(16 * HexValue(high) + HexValue(low))
  }

  function Pairs(digits: text): (r: seq<byte>)
    requires |digits| % 2 == 0 && forall i :: 0 <= i < |digits| ==> IsHex(digits[i])
    ensures |r| == |digits| / 2
  {
    if digits == [] then []
    else [HexPair(digits[0], digits[1])] + Pairs(digits[2..])
  }

  /** n bytes: two digits each, whatever else stands between them, and an optional 0x in front. */
  function ParseHex(s: text, n: nat): (r: Option<seq<byte>>)
    ensures r.Some? ==> |r.value| == n
  {
    var digits := Collected(Bare(s));
    if |digits| == 2 * n then Some(Pairs(digits)) else None
  }

  const HEX: seq<byte> := [
    0x30, 0x31, 0x32, 0x33, 0x34, 0x35, 0x36, 0x37, 0x38, 0x39, 0x61, 0x62, 0x63, 0x64, 0x65, 0x66]

  lemma HexDigit(n: nat)
    requires n < 16
    ensures IsHex(HEX[n]) && HexValue(HEX[n]) == n
  {
  }

  /** The two digits of a byte. */
  function HexOf(b: byte): (r: text)
    ensures |r| == 2
  {
    var n := b as nat;
    [HEX[n / 16], HEX[n % 16]]
  }

  lemma HexOfIs(b: byte)
    ensures var r := HexOf(b); IsHex(r[0]) && IsHex(r[1]) && HexPair(r[0], r[1]) == b
  {
    var n := b as nat;
    hide IsHex, HexValue;
    HexDigit(n / 16);
    HexDigit(n % 16);
    ByteIsItself(b);
  }

  lemma {:induction false} CollectedAppend(s: text, t: text)
    ensures Collected(s + t) == Collected(s) + Collected(t)
  {
    hide IsHex;
    if s == [] {
      assert s + t == t;
    } else {
      assert (s + t)[1..] == s[1..] + t;
      CollectedAppend(s[1..], t);
    }
  }

  /** The digits of the bytes, each pair with one separator in front. */
  function Spelled(bytes: seq<byte>, separator: text): text {
    if bytes == [] then [] else separator + HexOf(bytes[0]) + Spelled(bytes[1..], separator)
  }

  lemma {:induction false} SpelledCollects(bytes: seq<byte>, separator: text)
    requires Collected(separator) == []
    ensures var digits := Collected(Spelled(bytes, separator)); |digits| == 2 * |bytes| && Pairs(digits) == bytes
  {
    hide IsHex, HexValue, HexOf, ToByte, Collected;
    if bytes == [] {
      NothingCollects();
    } else {
      var d := HexOf(bytes[0]);
      HexOfIs(bytes[0]);
      SpelledCollects(bytes[1..], separator);
      var rest := Spelled(bytes[1..], separator);
      CollectedAppend(separator + d, rest);
      CollectedAppend(separator, d);
      TwoCollect(d);
      PairFirst(d, Collected(rest));
      assert Collected(Spelled(bytes, separator)) == d + Collected(rest);
      assert bytes == [bytes[0]] + bytes[1..];
    }
  }

  lemma PairFirst(d: text, digits: text)
    requires |d| == 2 && |digits| % 2 == 0 && IsHex(d[0]) && IsHex(d[1])
    requires forall i :: 0 <= i < |digits| ==> IsHex(digits[i])
    ensures Pairs(d + digits) == [HexPair(d[0], d[1])] + Pairs(digits)
  {
    hide IsHex, HexPair;
    assert (d + digits)[2..] == digits;
  }

  lemma NotX(d: text)
    requires |d| == 2 && IsHex(d[1])
    ensures d[1] != SMALL_X && d[1] != LARGE_X
  {
  }

  lemma NothingCollects()
    ensures Collected([]) == [] && Pairs([]) == []
  {
  }

  lemma TwoCollect(d: text)
    requires |d| == 2 && IsHex(d[0]) && IsHex(d[1])
    ensures Collected(d) == d
  {
    assert Collected(d[1..]) == [d[1]];
  }

  function PrintHex(bytes: seq<byte>): text {
    [ZERO, SMALL_X] + Spelled(bytes, [])
  }

  lemma HexRoundTrip(bytes: seq<byte>)
    ensures ParseHex(PrintHex(bytes), |bytes|) == Some(bytes)
  {
    hide IsHex, HexValue, Spelled, Pairs, Collected;
    NothingCollects();
    SpelledCollects(bytes, []);
    assert Bare(PrintHex(bytes)) == Spelled(bytes, []);
  }

  /** The form of hardware addresses, with a separator between the bytes. */
  function PrintSeparated(bytes: seq<byte>, separator: byte): text
    requires |bytes| > 0
  {
    HexOf(bytes[0]) + Spelled(bytes[1..], [separator])
  }

  lemma SeparatedRoundTrip(bytes: seq<byte>, separator: byte)
    requires |bytes| > 0 && !IsHex(separator)
    ensures ParseHex(PrintSeparated(bytes, separator), |bytes|) == Some(bytes)
  {
    var d, rest := HexOf(bytes[0]), Spelled(bytes[1..], [separator]);
    assert Collected([separator]) == [];
    HexOfIs(bytes[0]);
    NotX(d);
    hide HexPair, Spelled, HexOf, Collected, Pairs, IsHex;
    SpelledCollects(bytes[1..], [separator]);
    CollectedAppend(d, rest);
    TwoCollect(d);
    var s := d + rest;
    assert s[0] == d[0] && s[1] == d[1];
    assert Bare(s) == s;
    PairFirst(d, Collected(rest));
    assert bytes == [bytes[0]] + bytes[1..];
  }

  lemma CollectedStep(s: text, i: nat)
    requires i < |s|
    ensures Collected(s[i..]) == (if IsHex(s[i]) then [s[i]] else []) + Collected(s[i + 1..])
  {
    assert s[i..][1..] == s[i + 1..];
  }

  /** collect_hex_digits: the result stands for its return value 0. */
  method CollectHexDigits(value: text, digits: array<byte>, expected: nat) returns (ok: bool)
    requires expected < digits.Length
    modifies digits
    ensures ok == (|Collected(Bare(value))| == expected)
    ensures ok ==> digits[..expected] == Collected(Bare(value))
  {
    hide IsHex, Collected;
    var s := value;
    if |s| >= 2 && s[0] == ZERO && (s[1] == SMALL_X || s[1] == LARGE_X) {
      s := s[2..];
    }
    var count, i := 0, 0;
    assert s[0..] == s;
    while i < |s|
      invariant i <= |s| && count <= expected
      invariant Collected(s) == digits[..count] + Collected(s[i..])
    {
      CollectedStep(s, i);
      if IsHex(s[i]) {
        if count >= expected {
          return false;
        }
        ghost var before := digits[..count];
        digits[count] := s[i];
        assert digits[..count + 1] == before + [s[i]];
        count := count + 1;
      }
      i := i + 1;
    }
    NothingCollects();
    assert s[i..] == [];
    digits[count] := NUL;
    return count == expected;
  }

  /** parse_hex_byte_string, parse_two_byte_string and parse_mac_string, for one, two and six bytes. */
  method ParseHexBytes(value: text, n: nat) returns (r: Option<seq<byte>>)
    ensures r == ParseHex(value, n)
  {
    hide IsHex, Collected, Pairs, Bare;
    var digits := new byte[2 * n + 1](_ => 0);
    var ok := CollectHexDigits(value, digits, 2 * n);
    if !ok {
      return None;
    }
    var result := ScanPairs(digits, n, Collected(Bare(value)));
    return Some(result);
  }

  /** sscanf with a conversion of two digits for each byte. */
  method ScanPairs(digits: array<byte>, n: nat, ghost d: text) returns (result: seq<byte>)
    requires 2 * n <= digits.Length && digits[..2 * n] == d && forall i :: 0 <= i < |d| ==> IsHex(d[i])
    ensures result == Pairs(d)
  {
    hide IsHex, HexPair, Pairs;
    result := [];
    for i := 0 to n
      invariant Pairs(d) == result + Pairs(d[2 * i..])
    {
      var high, low := digits[2 * i], digits[2 * i + 1];
      assert high == d[2 * i] && low == d[2 * i + 1];
      PairNext(d, i, result);
      result := result + [HexPair(high, low)];
    }
    assert d[2 * n..] == [];
    NothingCollects();
    assert result + [] == result;
  }

  /** One conversion more. */
  lemma PairNext(d: text, i: nat, done: seq<byte>)
    requires |d| % 2 == 0 && 2 * i + 1 < |d| && forall k :: 0 <= k < |d| ==> IsHex(d[k])
    ensures done + Pairs(d[2 * i..]) == done + [HexPair(d[2 * i], d[2 * i + 1])] + Pairs(d[2 * (i + 1)..])
  {
    hide IsHex, HexPair, Pairs;
    var high, low, rest := d[2 * i], d[2 * i + 1], d[2 * (i + 1)..];
    assert d[2 * i..] == [high, low] + rest;
    PairFirst([high, low], rest);
  }

  // ---- Truth values ---------------------------------------------------------------------------

  function Lower(c: byte): byte {
    if 0x41 <= c <= 0x5a then c + 0x20 else c
  }

  predicate SameIgnoringCase(a: text, b: text) {
    |a| == |b| && forall i :: 0 <= i < |a| ==> Lower(a[i]) == Lower(b[i])
  }

  const TRUE: text := [0x54, 0x72, 0x75, 0x65]
  const FALSE: text := [0x46, 0x61, 0x6c, 0x73, 0x65]
  const ONE: text := [0x31]
  const NOUGHT: text := [0x30]

  function ParseBool(s: text): Option<bool> {
    if SameIgnoringCase(s, TRUE) || s == ONE then Some(true)
    else if SameIgnoringCase(s, FALSE) || s == NOUGHT then Some(false)
    else None
  }

  function PrintBool(b: bool): text {
    if b then TRUE else FALSE
  }

  lemma BoolRoundTrip(b: bool)
    ensures ParseBool(PrintBool(b)) == Some(b)
  {
    assert !SameIgnoringCase(FALSE, TRUE);
  }

  method EqualsIgnoreCase(left: text, right: text) returns (r: bool)
    ensures r == SameIgnoringCase(left, right)
  {
    hide Lower;
    var i := 0;
    while i < |left| && i < |right|
      invariant i <= |left| && i <= |right| && forall j :: 0 <= j < i ==> Lower(left[j]) == Lower(right[j])
    {
      if Lower(left[i]) != Lower(right[i]) {
        return false;
      }
      i := i + 1;
    }
    return i == |left| && i == |right|;
  }

  method ParseBoolString(value: text) returns (r: Option<bool>)
    ensures r == ParseBool(value)
  {
    hide SameIgnoringCase;
    var same := EqualsIgnoreCase(value, TRUE);
    if same {
      return Some(true);
    }
    if value == ONE {
      return Some(true);
    }
    same := EqualsIgnoreCase(value, FALSE);
    if same {
      return Some(false);
    }
    if value == NOUGHT {
      return Some(false);
    }
    return None;
  }

  // ---- Seconds --------------------------------------------------------------------------------

  const PLUS: byte := 0x2b
  const MINUS: byte := 0x2d
  const LONGEST := 1800

  predicate IsSign(sign: text) {
    sign == [] || sign == [PLUS] || sign == [MINUS]
  }

  /** White space, a sign or none, digits, white space: a number that is not negative and at most 1800. */
  ghost predicate Denotes(s: text, before: text, sign: text, run: text, after: text, n: nat) {
    && s == before + sign + run + after && AllSpace(before) && AllSpace(after)
    && IsRun(run) && Value(run) == n && n <= LONGEST
    && IsSign(sign) && (sign == [MINUS] ==> n == 0)
  }

  ghost predicate IsNumber(s: text, n: nat) {
    exists before, sign, run, after :: Denotes(s, before, sign, run, after, n)
  }

  /** The number of leading white space. */
  function Spaces(s: text): (n: nat)
    ensures n <= |s| && AllSpace(s[..n]) && (n < |s| ==> !IsSpace(s[n]))
  {
    if s == [] || !IsSpace(s[0]) then 0
    else
      var n := 1 + Spaces(s[1..]);
      assert s[..n] == [s[0]] + s[1..][..n - 1];
      n
  }

  /** The place of the first digit that strtol would read. */
  function DigitsAt(s: text): (d: nat)
    ensures d <= |s|
  {
    var n := Spaces(s);
    if n < |s| && (s[n] == PLUS || s[n] == MINUS) then n + 1 else n
  }

  predicate Negative(s: text) {
    var n := Spaces(s);
    n < |s| && s[n] == MINUS
  }

  function ParseSeconds(s: text): Option<nat> {
    var t := s[DigitsAt(s)..];
    var n := RunLength(t);
    if n == 0 || Trim(t[n..]) != [] then None
    else
      var v := Value(t[..n]);
      if (Negative(s) && v > 0) || v > LONGEST then None else Some(v)
  }

  lemma SpacesUnique(s: text, before: text, rest: text)
    requires s == before + rest && AllSpace(before) && (rest != [] ==> !IsSpace(rest[0]))
    ensures Spaces(s) == |before|
    decreases |before|
  {
    hide IsSpace;
    if before == [] {
    } else {
      assert s[0] == before[0];
      SpacesUnique(s[1..], before[1..], rest);
    }
  }

  lemma NoSpaceHere(c: byte)
    ensures c == PLUS || c == MINUS || IsDigit(c) ==> !IsSpace(c)
    ensures c == PLUS || c == MINUS || IsSpace(c) ==> !IsDigit(c)
  {
  }

  lemma Cuts(before: text, sign: text, run: text, after: text)
    requires |run| > 0
    ensures var s, d := before + sign + run + after, |before| + |sign|;
            && s[d..] == run + after && (run + after)[..|run|] == run && (run + after)[|run|..] == after
            && s[|before|] == (if sign == [] then run[0] else sign[0]) == (sign + run + after)[0]
  {
  }

  lemma SignFound(before: text, sign: text, run: text, after: text)
    requires AllSpace(before) && IsSign(sign) && IsRun(run)
    ensures var s := before + sign + run + after;
            DigitsAt(s) == |before| + |sign| && (Negative(s) <==> sign == [MINUS])
  {
    hide IsSpace, IsDigit, Spaces, AllSpace;
    var s, rest := before + sign + run + after, sign + run + after;
    assert s == before + rest;
    Cuts(before, sign, run, after);
    NoSpaceHere(rest[0]);
    assert IsDigit(run[0]);
    NoSpaceHere(run[0]);
    SpacesUnique(s, before, rest);
  }

  lemma RunFound(run: text, after: text)
    requires IsRun(run) && AllSpace(after)
    ensures RunLength(run + after) == |run| && Trim(after) == []
  {
    hide IsSpace, IsDigit, Trim;
    if after != [] {
      NoSpaceHere(after[0]);
    }
    RunLengthUnique(run + after, |run|);
    assert after == [] + [] + after;
    TrimOf([], [], after);
  }

  lemma NumberParses(s: text, before: text, sign: text, run: text, after: text, n: nat)
    requires Denotes(s, before, sign, run, after, n)
    ensures ParseSeconds(s) == Some(n)
  {
    hide IsSpace, IsDigit, Trim, Value, Spaces, AllSpace, DigitsAt, Negative, RunLength;
    Cuts(before, sign, run, after);
    SignFound(before, sign, run, after);
    RunFound(run, after);
  }

  lemma BlankIsSpace(s: text)
    requires Trim(s) == []
    ensures AllSpace(s)
  {
    hide IsSpace, Trim;
    var left, right := TrimIs(s);
    assert s == left + right;
  }

  /** White space and the sign in front of the digits. */
  lemma SignParts(s: text) returns (b: nat, d: nat)
    ensures b <= d <= |s| && d == DigitsAt(s) && AllSpace(s[..b]) && IsSign(s[b..d])
    ensures Negative(s) <==> s[b..d] == [MINUS]
  {
    hide IsSpace;
    b, d := Spaces(s), DigitsAt(s);
  }

  lemma Glued(s: text, b: nat, d: nat, k: nat)
    requires b <= d && d + k <= |s|
    ensures s == s[..b] + s[b..d] + s[d..][..k] + s[d..][k..]
  {
  }

  lemma ParsedIsNumber(s: text, n: nat)
    requires ParseSeconds(s) == Some(n)
    ensures IsNumber(s, n)
  {
    var b, d := SignParts(s);
    hide IsSpace, IsDigit, Trim, Value, Spaces, DigitsAt, Negative, AllSpace, IsSign;
    var t := s[d..];
    var k := RunLength(t);
    var before, sign, run, after := s[..b], s[b..d], t[..k], t[k..];
    BlankIsSpace(after);
    Glued(s, b, d, k);
    assert Denotes(s, before, sign, run, after, n);
  }

  /** The accepted values, by what is written. */
  lemma ParseSecondsIff(s: text, n: nat)
    ensures ParseSeconds(s) == Some(n) <==> IsNumber(s, n)
  {
    hide ParseSeconds, Denotes;
    if ParseSeconds(s) == Some(n) {
      ParsedIsNumber(s, n);
    }
    if IsNumber(s, n) {
      var before, sign, run, after :| Denotes(s, before, sign, run, after, n);
      NumberParses(s, before, sign, run, after, n);
    }
  }

  /** strtol in base ten, with the place where its digits start. */
  method Strtol(value: text) returns (parsed: int, start: nat, end: nat)
    ensures start == DigitsAt(value) && end == start + RunLength(value[start..]) <= |value|
    ensures forall i :: start <= i < end ==> IsDigit(value[i])
    ensures var v := Value(value[start..end]); if Negative(value) then parsed + v == 0 else parsed == v
  {
    hide IsSpace, IsDigit, Value;
    start := 0;
    while start < |value| && IsSpace(value[start])
      invariant start <= |value| && AllSpace(value[..start])
    {
      start := start + 1;
    }
    SpacesUnique(value, value[..start], value[start..]);
    var negative := false;
    if start < |value| && (value[start] == PLUS || value[start] == MINUS) {
      negative := value[start] == MINUS;
      start := start + 1;
    }
    var magnitude: nat;
    magnitude, end := Ipv4.Strtoul(value, start);
    parsed := magnitude;
    if negative {
      parsed := -parsed;
    }
  }

  /** parse_nonnegative_int_string. */
  method ParseNonnegativeInt(value: text) returns (r: Option<nat>)
    ensures r == ParseSeconds(value)
  {
    hide IsSpace, Trim, Value;
    if value == [] {
      return None;
    }
    var parsed, start, end := Strtol(value);
    assert value[start..][..end - start] == value[start..end] && value[start..][end - start..] == value[end..];
    if end == start || Trim(value[end..]) != [] || parsed < 0 || parsed > LONGEST {
      return None;
    }
    return Some(parsed);
  }
}
