/** extract_retry_after_seconds of auth.c: the cooldown that a refusal announces in its text. */
module RetryAfter {
  import opened Words
  import opened Text

  predicate IsSecond(c: byte) {
    c == 0x73 || c == 0x53
  }

  /** A maximal digit run t[i..j], then only spaces up to k, then the letter s. */
  ghost predicate Marked(t: text, i: nat, j: nat, k: nat) {
    && i < j <= k < |t|
    && (i > 0 ==> !IsDigit(t[i - 1]))
    && (forall x :: i <= x < j ==> IsDigit(t[x]))
    && (forall x :: j <= x < k ==> t[x] == SPACE)
    && IsSecond(t[k])
  }

  /** The text that the loop reads. */
  function TextOf(packet: seq<byte>): text {
    if |packet| <= 20 then [] else UpToNul(packet[20..])
  }

  function InRange(v: nat): nat {
    if 1 <= v <= 1800 then v else 0
  }

  /** The cooldown of a packet: the decimal value, however large, of the first marked digit run of its
      text, if that is between 1 and 1800; else none. */
  ghost predicate IsCooldown(packet: seq<byte>, r: nat) {
    var t := TextOf(packet);
    (exists i: nat, j: nat, k: nat :: Announces(t, i, j, k, r)) || (r == 0 && NoneBefore(t, |t|))
  }

  ghost predicate Announces(t: text, i: nat, j: nat, k: nat, r: nat) {
    Marked(t, i, j, k) && NoneBefore(t, i) && r == InRange(Value(t[i..j]))
  }

  /** No marked run starts before a place. */
  ghost predicate NoneBefore(t: text, place: nat) {
    forall i: nat, j: nat, k: nat :: Marked(t, i, j, k) ==> place <= i
  }

  /** The accumulator against the number it stands for: exact, or stuck at a value beyond the range. */
  ghost predicate Accumulates(value: nat, number: nat) {
    value == number || 100000 <= value <= number
  }

  /** A run that starts in a longer one, or ends before it ends, is not marked. */
  lemma OnlyMaximal(t: text, start: nat, end: nat, i: nat, j: nat, k: nat)
    requires start < end < |t| && (forall x :: start <= x < end ==> IsDigit(t[x])) && !IsDigit(t[end])
    requires Marked(t, i, j, k) && start <= i <= end
    ensures i == start && j == end
  {
    assert IsDigit(t[i]);
    assert i != end;
    assert i == start;
    assert t[j] == SPACE || IsSecond(t[j]);
    assert !IsDigit(t[j]);
    assert j >= end;
  }

  /** Behind a run, the first byte that is not a space decides. */
  lemma OneMark(t: text, start: nat, end: nat, stop: nat)
    requires start < end <= stop <= |t| && (forall x :: end <= x < stop ==> t[x] == SPACE)
    requires stop < |t| ==> t[stop] != SPACE && !IsSecond(t[stop])
    ensures forall k: nat :: !Marked(t, start, end, k)
  {
  }

  /** The state of the scan: the digits from start up to place are in the accumulator. */
  ghost predicate Scanning(t: text, start: nat, place: nat, value: nat) {
    && start <= place <= |t|
    && (start > 0 ==> !IsDigit(t[start - 1]))
    && (forall x :: start <= x < place ==> IsDigit(t[x]))
    && Accumulates(value, Value(t[start..place]))
    && NoneBefore(t, start)
  }

  /** The accumulator after one more digit. */
  function Push(value: nat, d: nat): nat {
    if value < 100000 then value * 10 + d else value
  }

  lemma DigitScanned(t: text, start: nat, place: nat, value: nat)
    requires Scanning(t, start, place, value) && place < |t| && IsDigit(t[place])
    ensures Scanning(t, start, place + 1, Push(value, Digit(t[place])))
  {
    assert t[start..place + 1][..place - start] == t[start..place];
  }

  lemma MarkFound(packet: seq<byte>, t: text, start: nat, place: nat, stop: nat, value: nat)
    requires t == TextOf(packet) && Scanning(t, start, place, value)
    requires start < place <= stop < |t|
    requires (forall x :: place <= x < stop ==> t[x] == SPACE) && IsSecond(t[stop])
    ensures IsCooldown(packet, InRange(value))
  {
    assert InRange(value) == InRange(Value(t[start..place]));
    assert Announces(t, start, place, stop, InRange(value));
  }

  lemma RunPassed(t: text, start: nat, place: nat, stop: nat, value: nat)
    requires Scanning(t, start, place, value) && start <= place < |t| && !IsDigit(t[place]) && place <= stop <= |t|
    requires forall x :: place <= x < stop ==> t[x] == SPACE
    requires stop < |t| ==> t[stop] != SPACE && !IsSecond(t[stop])
    ensures Scanning(t, place + 1, place + 1, 0)
  {
    forall i: nat, j: nat, k: nat | Marked(t, i, j, k)
      ensures place + 1 <= i
    {
      NotMarked(t, start, place, stop, i, j, k);
    }
  }

  lemma NotMarked(t: text, start: nat, place: nat, stop: nat, i: nat, j: nat, k: nat)
    requires start <= place < |t| && (forall x :: start <= x < place ==> IsDigit(t[x])) && !IsDigit(t[place])
    requires place <= stop <= |t| && (forall x :: place <= x < stop ==> t[x] == SPACE)
    requires stop < |t| ==> t[stop] != SPACE && !IsSecond(t[stop])
    requires start <= i && Marked(t, i, j, k)
    ensures place < i
  {
    assert IsDigit(t[i]);
    if i <= place {
      assert i < place;
      OnlyMaximal(t, start, place, i, j, k);
      OneMark(t, start, place, stop);
      assert false;
    }
  }

  /** The text starts at byte 20 of the packet and ends with it or before a zero byte. */
  ghost predicate TextIn(packet: seq<byte>, t: text) {
    && |packet| >= 20 + |t|
    && (forall x :: 0 <= x < |t| ==> packet[20 + x] == t[x] && t[x] != NUL)
    && (20 + |t| < |packet| ==> packet[20 + |t|] == NUL)
  }

  lemma TextOfIsIn(packet: seq<byte>)
    requires |packet| > 20
    ensures TextIn(packet, TextOf(packet))
  {
  }

  /** The loop condition holds exactly inside the text. */
  lemma InText(packet: seq<byte>, t: text, index: nat)
    requires TextIn(packet, t) && 20 <= index <= 20 + |t|
    ensures index < 20 + |t| ==> index < |packet| && packet[index] == t[index - 20] && packet[index] != NUL
    ensures index == 20 + |t| < |packet| ==> packet[index] == NUL
  {
  }

  method ExtractRetryAfter(packet: seq<byte>) returns (r: nat)
    ensures IsCooldown(packet, r) && r <= 1800
  {
    hide Scanning, IsCooldown, TextOf, TextIn;
    if |packet| <= 20 {
      ShortPacket(packet);
      return 0;
    }
    ghost var t := TextOf(packet);
    TextOfIsIn(packet);
    var value: nat, haveDigits, index := 0, false, 20;
    ghost var start: nat := 0;
    ScanStarts(t);
    InText(packet, t, index);
    while index < |packet| && packet[index] != NUL
      invariant 20 <= index <= 20 + |t| && start <= index - 20 && (haveDigits <==> start < index - 20)
      invariant index < |packet| && packet[index] != NUL ==> index < 20 + |t| && packet[index] == t[index - 20]
      invariant index < 20 + |t| ==> index < |packet| && packet[index] != NUL
      invariant Scanning(t, start, index - 20, value)
    {
      var ch := packet[index];
      if IsDigit(ch) {
        DigitScanned(t, start, index - 20, value);
        if value < 100000 {
          value := value * 10 + Digit(ch);
        }
        haveDigits := true;
      } else {
        if haveDigits {
          var found := UnitFollows(packet, index, t, start, value);
          if found {
            return if 0 < value <= 1800 then value else 0;
          }
        } else {
          NothingPassed(t, start, value);
        }
        value, haveDigits := 0, false;
        start := index - 19;
      }
      index := index + 1;
      InText(packet, t, index);
    }
    NoneStarts(packet, t, start, value);
    return 0;
  }

  /** Behind a digit run: whether spaces and the letter s follow. */
  method UnitFollows(packet: seq<byte>, index: nat, ghost t: text, ghost start: nat, ghost value: nat)
    returns (found: bool)
    requires |packet| > 20 && t == TextOf(packet) && TextIn(packet, t)
    requires 20 <= index < 20 + |t| && start < index - 20 && !IsDigit(t[index - 20])
    requires Scanning(t, start, index - 20, value)
    ensures found ==> IsCooldown(packet, InRange(value))
    ensures !found ==> Scanning(t, index - 19, index - 19, 0)
  {
    hide Scanning, IsCooldown, TextOf;
    var lookahead := index;
    while lookahead < |packet| && packet[lookahead] == SPACE
      invariant index <= lookahead <= 20 + |t|
      invariant forall x :: index - 20 <= x < lookahead - 20 ==> t[x] == SPACE
    {
      InText(packet, t, lookahead);
      lookahead := lookahead + 1;
    }
    InText(packet, t, lookahead);
    found := lookahead < |packet| && IsSecond(packet[lookahead]);
    if found {
      MarkFound(packet, t, start, index - 20, lookahead - 20, value);
    } else {
      RunPassed(t, start, index - 20, lookahead - 20, value);
    }
  }

  lemma ShortPacket(packet: seq<byte>)
    requires |packet| <= 20
    ensures IsCooldown(packet, 0)
  {
    NoText([]);
  }

  lemma ScanStarts(t: text)
    ensures Scanning(t, 0, 0, 0)
  {
  }

  lemma NoText(t: text)
    requires t == []
    ensures forall i: nat, j: nat, k: nat :: !Marked(t, i, j, k)
  {
  }

  /** A byte that is no digit and follows none. */
  lemma NothingPassed(t: text, place: nat, value: nat)
    requires Scanning(t, place, place, value) && place < |t| && !IsDigit(t[place])
    ensures Scanning(t, place + 1, place + 1, 0)
  {
    forall i: nat, j: nat, k: nat | Marked(t, i, j, k)
      ensures place + 1 <= i
    {
      assert IsDigit(t[i]);
    }
  }

  /** A digit run at the very end of the text is not marked. */
  lemma NoneStarts(packet: seq<byte>, t: text, start: nat, value: nat)
    requires t == TextOf(packet) && Scanning(t, start, |t|, value)
    ensures IsCooldown(packet, 0)
  {
    assert NoneBefore(t, |t|);
  }

  lemma SomeAnnounced(packet: seq<byte>, i: nat, j: nat, k: nat)
    requires Marked(TextOf(packet), i, j, k) && NoneBefore(TextOf(packet), i)
    ensures exists r: nat :: IsCooldown(packet, r) && r <= 1800
  {
    var t := TextOf(packet);
    assert forall x :: 0 <= x < j - i ==> IsDigit(t[i..j][x]);
    var r := InRange(Value(t[i..j]));
    assert Announces(t, i, j, k, r);
    assert IsCooldown(packet, r);
  }

  /** Some cooldown exists, reading on from a place before which no run is marked. */
  lemma {:induction false} CooldownExists(packet: seq<byte>, place: nat)
    requires place <= |TextOf(packet)| && NoneBefore(TextOf(packet), place)
    ensures exists r: nat :: IsCooldown(packet, r) && r <= 1800
    decreases |TextOf(packet)| - place
  {
    var t := TextOf(packet);
    if place == |t| {
      assert forall i: nat, j: nat, k: nat :: Marked(t, i, j, k) ==> i < |t|;
      assert IsCooldown(packet, 0);
    } else if j: nat, k: nat :| Marked(t, place, j, k) {
      SomeAnnounced(packet, place, j, k);
    } else {
      assert NoneBefore(t, place + 1);
      CooldownExists(packet, place + 1);
    }
  }

  /** And only one: the first marked run and its end are determined. */
  lemma CooldownUnique(packet: seq<byte>, r: nat, s: nat)
    requires IsCooldown(packet, r) && IsCooldown(packet, s)
    ensures r == s
  {
    hide Announces, NoneBefore, TextOf;
    var t := TextOf(packet);
    if i: nat, j: nat, k: nat :| Announces(t, i, j, k, r) {
      NotBoth(t, i, j, k, r);
      if i': nat, j': nat, k': nat :| Announces(t, i', j', k', s) {
        FirstUnique(t, i, j, k, r, i', j', k', s);
      }
    } else if i: nat, j: nat, k: nat :| Announces(t, i, j, k, s) {
      NotBoth(t, i, j, k, s);
    }
  }

  lemma FirstUnique(t: text, i: nat, j: nat, k: nat, r: nat, i': nat, j': nat, k': nat, s: nat)
    requires Announces(t, i, j, k, r) && Announces(t, i', j', k', s)
    ensures r == s
  {
    assert i == i';
    EndUnique(t, i, j, k, j', k');
  }

  lemma NotBoth(t: text, i: nat, j: nat, k: nat, r: nat)
    requires Announces(t, i, j, k, r)
    ensures !NoneBefore(t, |t|)
  {
  }

  lemma EndUnique(t: text, i: nat, j: nat, k: nat, j': nat, k': nat)
    requires Marked(t, i, j, k) && Marked(t, i, j', k')
    ensures j == j'
  {
    assert t[j] == SPACE || IsSecond(t[j]);
    assert t[j'] == SPACE || IsSecond(t[j']);
    assert !IsDigit(t[j]) && !IsDigit(t[j']);
    assert j >= j';
  }

  /** What that run says: its value, if that is between 1 and 1800. */
  lemma CooldownIs(packet: seq<byte>, i: nat, j: nat, k: nat, r: nat)
    requires |packet| > 20 && Marked(UpToNul(packet[20..]), i, j, k) && NoneBefore(UpToNul(packet[20..]), i)
    ensures var v := Value(UpToNul(packet[20..])[i..j]);
            IsCooldown(packet, r) <==> r == if 1 <= v <= 1800 then v else 0
  {
    var t := TextOf(packet);
    var c := InRange(Value(t[i..j]));
    assert Announces(t, i, j, k, c);
    if IsCooldown(packet, r) {
      CooldownUnique(packet, r, c);
    }
  }

  /** The cooldown of a packet. */
  ghost function Cooldown(packet: seq<byte>): (r: nat)
    ensures IsCooldown(packet, r) && r <= 1800
  {
    CooldownExists(packet, 0);
    var c: nat :| IsCooldown(packet, c) && c <= 1800;
    c
  }
}
