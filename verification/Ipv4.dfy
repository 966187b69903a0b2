/** Dotted IPv4 addresses: drcom_parse_ipv4_address of configparse.h. */
module Ipv4 {
  import opened Words
  import opened Text

  /** Reads k numbers below 256 that dots separate. */
  function Octets(s: text, k: nat): (r: Option<seq<byte>>)
    requires k > 0
    ensures r.Some? ==> |r.value| == k
  {
    var n := RunLength(s);
    if n == 0 || Value(s[..n]) > 255 then None
    else
      var octet := ToByte(Value(s[..n]));
      if k == 1 then (if n == |s| then Some([octet]) else None)
      else if n < |s| && s[n] == DOT then
        match Octets(s[n + 1..], k - 1)
        case Some(rest) => Some([octet] + rest)
        case None => None
      else None
  }

  function Parse(s: text): (r: Option<seq<byte>>)
    ensures r.Some? ==> |r.value| == 4
  {
    Octets(s, 4)
  }

  function DotJoin(runs: seq<text>): text {
    if runs == [] then [] else if |runs| == 1 then runs[0] else runs[0] + [DOT] + DotJoin(runs[1..])
  }

  /** A number below 256 that stands for an octet. */
  ghost predicate IsOctet(run: text, octet: byte) {
    IsRun(run) && Value(run) <= 255 && octet == ToByte(Value(run))
  }

  /** The runs stand for the octets. */
  ghost predicate Stand(runs: seq<text>, octets: seq<byte>) {
    |runs| == |octets| && forall i :: 0 <= i < |runs| ==> IsOctet(runs[i], octets[i])
  }

  /** One step of Octets at a place of the string. */
  lemma OctetsStep(s: text, cursor: nat, end: nat, k: nat)
    requires cursor <= end <= |s| && end - cursor == RunLength(s[cursor..]) && k > 0
    ensures forall i :: cursor <= i < end ==> IsDigit(s[i])
    ensures Octets(s[cursor..], k) ==
            if end == cursor || Value(s[cursor..end]) > 255 then None
            else if k == 1 then (if end == |s| then Some([ToByte(Value(s[cursor..end]))]) else None)
            else if end < |s| && s[end] == DOT then
              Prefixed([ToByte(Value(s[cursor..end]))], Octets(s[end + 1..], k - 1))
            else None
  {
    hide ToByte, Value, RunLength;
    var t, n := s[cursor..], end - cursor;
    assert t[..n] == s[cursor..end];
    assert n < |t| ==> t[n] == s[end] && t[n + 1..] == s[end + 1..];
    assert forall i :: cursor <= i < end ==> s[i] == t[i - cursor];
  }

  lemma RunPrefix(d: text, tail: text)
    requires IsRun(d) && (tail == [] || !IsDigit(tail[0]))
    ensures RunLength(d + tail) == |d| && (d + tail)[..|d|] == d && (d + tail)[|d|..] == tail
  {
    RunLengthUnique(d + tail, |d|);
  }

  lemma {:induction false} JoinedParses(runs: seq<text>, octets: seq<byte>)
    requires Stand(runs, octets) && |runs| > 0
    ensures Octets(DotJoin(runs), |runs|) == Some(octets)
  {
    hide ToByte, Value, RunLength, Octets;
    assert IsOctet(runs[0], octets[0]);
    if |runs| == 1 {
      SingleParses(runs[0]);
      assert octets == [octets[0]];
    } else {
      JoinedParses(runs[1..], octets[1..]);
      assert octets == [octets[0]] + octets[1..];
      FirstParses(runs[0], DotJoin(runs[1..]), |runs| - 1);
    }
  }

  lemma SingleParses(run: text)
    requires IsRun(run) && Value(run) <= 255
    ensures Octets(run, 1) == Some([ToByte(Value(run))])
  {
    hide ToByte, Value, RunLength;
    RunPrefix(run, []);
    assert run + [] == run && run[..|run|] == run;
  }

  /** How Octets treats its first number. */
  lemma FirstParses(run: text, rest: text, k: nat)
    requires k > 0 && IsRun(run) && Value(run) <= 255
    ensures Octets(run + [DOT] + rest, k + 1) == Prefixed([ToByte(Value(run))], Octets(rest, k))
  {
    hide ToByte, Value, RunLength, Octets;
    var s := run + [DOT] + rest;
    assert s == run + ([DOT] + rest);
    RunPrefix(run, [DOT] + rest);
    assert |run| > 0 && s[0..] == s && s[0..|run|] == run && s[|run|] == DOT && s[|run| + 1..] == rest;
    OctetsStep(s, 0, |run|, k + 1);
  }

  lemma StandCons(run: text, octet: byte, runs: seq<text>, octets: seq<byte>)
    requires IsOctet(run, octet) && Stand(runs, octets)
    ensures Stand([run] + runs, [octet] + octets)
  {
    hide IsOctet;
  }

  lemma FirstOf(s: text, k: nat)
    requires k > 0 && Octets(s, k).Some?
    ensures var n, octets := RunLength(s), Octets(s, k).value;
            && IsOctet(s[..n], octets[0])
            && (k == 1 ==> n == |s|)
            && (k > 1 ==> n < |s| && s[n] == DOT && Octets(s[n + 1..], k - 1).Some? &&
                          octets == [octets[0]] + Octets(s[n + 1..], k - 1).value)
  {
    hide Value, ToByte;
  }

  lemma {:induction false} ParsedIsJoined(s: text, k: nat) returns (runs: seq<text>)
    requires k > 0 && Octets(s, k).Some?
    ensures |runs| == k && Stand(runs, Octets(s, k).value) && s == DotJoin(runs)
  {
    hide Octets, RunLength, IsOctet;
    FirstOf(s, k);
    var n, octets := RunLength(s), Octets(s, k).value;
    if k == 1 {
      assert s[..n] == s;
      runs := [s];
    } else {
      var rest := ParsedIsJoined(s[n + 1..], k - 1);
      runs := [s[..n]] + rest;
      StandCons(s[..n], octets[0], rest, Octets(s[n + 1..], k - 1).value);
      assert runs[1..] == rest;
      assert s == s[..n] + [DOT] + s[n + 1..];
    }
  }

  /** The accepted strings are four decimal numbers below 256, leading zeros allowed, with dots between. */
  lemma ParseIff(s: text, octets: seq<byte>)
    ensures Parse(s) == Some(octets) <==>
            exists runs :: |runs| == 4 && Stand(runs, octets) && s == DotJoin(runs)
  {
    if Parse(s) == Some(octets) {
      var runs := ParsedIsJoined(s, 4);
    }
    if runs :| |runs| == 4 && Stand(runs, octets) && s == DotJoin(runs) {
      JoinedParses(runs, octets);
    }
  }

  function Print(octets: seq<byte>): text {
    DotJoin(seq(|octets|, i requires 0 <= i < |octets| => Decimal(octets[i] as nat)))
  }

  lemma PrintParse(octets: seq<byte>)
    requires |octets| == 4
    ensures Parse(Print(octets)) == Some(octets)
  {
    var runs := seq(4, i requires 0 <= i < 4 => Decimal(octets[i] as nat));
    forall i | 0 <= i < 4
      ensures IsOctet(runs[i], octets[i])
    {
      ByteIsItself(octets[i]);
    }
    JoinedParses(runs, octets);
  }

  /** strtoul at a digit: the value of the digits and the place behind them. */
  method Strtoul(s: text, cursor: nat) returns (parsed: nat, end: nat)
    requires cursor <= |s|
    ensures cursor <= end <= |s| && end - cursor == RunLength(s[cursor..])
    ensures (forall i :: cursor <= i < end ==> IsDigit(s[i])) && parsed == Value(s[cursor..end])
  {
    parsed, end := 0, cursor;
    while end < |s| && IsDigit(s[end])
      invariant cursor <= end <= |s| && forall i :: cursor <= i < end ==> IsDigit(s[i])
      invariant parsed == Value(s[cursor..end])
    {
      assert s[cursor..end + 1][..end - cursor] == s[cursor..end];
      parsed := parsed * 10 + Digit(s[end]);
      end := end + 1;
    }
    RunLengthUnique(s[cursor..], end - cursor);
  }

  /** drcom_parse_ipv4_address: true is its return value 0. */
  method ParseAddress(value: text, result: array<byte>) returns (ok: bool)
    requires result.Length >= 4
    modifies result
    ensures ok == Parse(value).Some?
    ensures ok ==> result[..4] == Parse(value).value
    ensures result[4..] == old(result[4..])
  {
    hide Value, ToByte, RunLength, Octets;
    if value == [] {
      NothingParses();
      return false;
    }
    var cursor := 0;
    var index := 0;
    assert value[0..] == value && result[..0] == [];
    NothingBefore(Parse(value));
    while index < 4
      invariant index <= 4 && cursor <= |value| && result[4..] == old(result[4..])
      invariant index < 4 ==> Parse(value) == Prefixed(result[..index], Octets(value[cursor..], 4 - index))
      invariant index == 4 ==> Parse(value) == Some(result[..4])
    {
      if cursor == |value| || !IsDigit(value[cursor]) {
        NoDigit(value, cursor, 4 - index);
        return false;
      }
      var parsed, end := Strtoul(value, cursor);
      OctetsStep(value, cursor, end, 4 - index);
      if end == cursor || parsed > 255 {
        return false;
      }
      ghost var before := result[..index];
      result[index] := ToByte(parsed);
      assert result[..index + 1] == before + [ToByte(parsed)];
      if index < 3 {
        if end == |value| || value[end] != DOT {
          return false;
        }
        cursor := end + 1;
        PrefixedTwice(before, [ToByte(parsed)], Octets(value[cursor..], 3 - index));
      } else if end != |value| {
        return false;
      }
      index := index + 1;
    }
    return true;
  }

  lemma NoDigit(s: text, cursor: nat, k: nat)
    requires cursor <= |s| && k > 0 && (cursor == |s| || !IsDigit(s[cursor]))
    ensures Octets(s[cursor..], k) == None
  {
  }

  lemma NothingParses()
    ensures Parse([]) == None
  {
  }

  lemma NothingBefore(o: Option<seq<byte>>)
    ensures Prefixed([], o) == o
  {
    if o.Some? {
      assert [] + o.value == o.value;
    }
  }

  lemma PrefixedTwice(a: seq<byte>, b: seq<byte>, o: Option<seq<byte>>)
    ensures Prefixed(a, Prefixed(b, o)) == Prefixed(a + b, o)
  {
    if o.Some? {
      assert a + (b + o.value) == a + b + o.value;
    }
  }

  function Prefixed(front: seq<byte>, rest: Option<seq<byte>>): Option<seq<byte>> {
    match rest
    case Some(octets) => Some(front + octets)
    case None => None
  }
}
