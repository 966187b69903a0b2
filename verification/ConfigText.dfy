/** One line of the configuration: parse_key_value of configparse.c over the line buffer, in place. */
module ConfigText {
  import opened Words
  import opened Text

  const HASH: byte := 0x23
  const EQUALS: byte := 0x3d
  const QUOTE: byte := 0x22
  const APOSTROPHE: byte := 0x27
  const NEWLINE: byte := 0x0a

  // ---- What a line means ----------------------------------------------------------------------

  predicate IsSpace(c: byte) {
    c == 0x20 || 0x09 <= c <= 0x0d
  }

  predicate AllSpace(s: text) {
    forall i :: 0 <= i < |s| ==> IsSpace(s[i])
  }

  function TrimLeft(s: text): text {
    if s != [] && IsSpace(s[0]) then TrimLeft(s[1..]) else s
  }

  function TrimRight(s: text): text {
    if s != [] && IsSpace(s[|s| - 1]) then TrimRight(s[..|s| - 1]) else s
  }

  function Trim(s: text): text {
    TrimRight(TrimLeft(s))
  }

  predicate Quoted(s: text) {
    |s| >= 2 && ((s[0] == APOSTROPHE && s[|s| - 1] == APOSTROPHE) || (s[0] == QUOTE && s[|s| - 1] == QUOTE))
  }

  /** Without one pair of matching quotes around it. */
  function Strip(s: text): text {
    if Quoted(s) then s[1..|s| - 1] else s
  }

  function Find(s: text, c: byte): (i: nat)
    ensures i <= |s| && c !in s[..i] && (i < |s| ==> s[i] == c)
  {
    if s == [] || s[0] == c then 0
    else
      var i := 1 + Find(s[1..], c);
      assert s[..i] == [s[0]] + s[1..][..i - 1];
      i
  }

  datatype Line = Blank | Malformed | Pair(key: text, value: text)

  function Read(line: text): Line {
    var t := Trim(line);
    if t == [] || t[0] == HASH then Blank
    else
      var i := Find(t, EQUALS);
      if i == |t| then Malformed
      else
        var key := Trim(t[..i]);
        if key == [] then Malformed else Pair(key, Trim(Strip(Trim(t[i + 1..]))))
  }

  // ---- Printing and reading back --------------------------------------------------------------

  lemma TrimLeftOf(s: text, spaces: text, rest: text)
    requires s == spaces + rest && AllSpace(spaces)
    requires rest == [] || !IsSpace(rest[0])
    ensures TrimLeft(s) == rest
  {
    if spaces == [] {
    } else {
      TrimLeftOf(s[1..], spaces[1..], rest);
    }
  }

  lemma TrimRightOf(s: text, rest: text, spaces: text)
    requires s == rest + spaces && AllSpace(spaces)
    requires rest == [] || !IsSpace(rest[|rest| - 1])
    ensures TrimRight(s) == rest
  {
    if spaces == [] {
    } else {
      TrimRightOf(s[..|s| - 1], rest, spaces[..|spaces| - 1]);
    }
  }

  /** Neither end is white space. */
  predicate IsTrimmed(s: text) {
    s == [] || (!IsSpace(s[0]) && !IsSpace(s[|s| - 1]))
  }

  lemma TrimOf(before: text, s: text, after: text)
    requires IsTrimmed(s) && (s == [] ==> before == [] || after == [])
    requires AllSpace(before) && AllSpace(after)
    ensures Trim(before + s + after) == s
  {
    var all := before + s + after;
    if s == [] {
      TrimLeftOf(all, all, []);
    } else {
      TrimLeftOf(all, before, s + after);
    }
    TrimRightOf(TrimLeft(all), s, TrimLeft(all)[|s|..]);
  }

  /** What is cut off is white space, and what is left has none at its ends. */
  lemma TrimIs(s: text) returns (before: text, after: text)
    ensures s == before + Trim(s) + after && AllSpace(before) && AllSpace(after) && IsTrimmed(Trim(s))
  {
    hide IsSpace;
    before := LeftIs(s);
    after := RightIs(TrimLeft(s));
    var t := TrimLeft(s);
    assert Trim(s) != [] ==> t[0] == Trim(s)[0];
    assert s == before + (Trim(s) + after) == before + Trim(s) + after;
  }

  lemma LeftIs(s: text) returns (before: text)
    ensures s == before + TrimLeft(s) && AllSpace(before)
    ensures TrimLeft(s) == [] || !IsSpace(TrimLeft(s)[0])
  {
    hide IsSpace;
    if s != [] && IsSpace(s[0]) {
      var rest := LeftIs(s[1..]);
      before := [s[0]] + rest;
    } else {
      before := [];
    }
  }

  lemma RightIs(s: text) returns (after: text)
    ensures s == TrimRight(s) + after && AllSpace(after)
    ensures TrimRight(s) == [] || !IsSpace(TrimRight(s)[|TrimRight(s)| - 1])
  {
    hide IsSpace;
    if s != [] && IsSpace(s[|s| - 1]) {
      var rest := RightIs(s[..|s| - 1]);
      after := rest + [s[|s| - 1]];
      assert s == s[..|s| - 1] + [s[|s| - 1]];
    } else {
      after := [];
    }
  }

  /** A key with its value in quotes. */
  function Print(key: text, value: text, quote: byte): text {
    key + [SPACE, EQUALS, SPACE] + ([quote] + value + [quote]) + [NEWLINE]
  }

  /** A printed line reads back, whatever is in the value, be it the separator or quotes: the key must be
      trimmed and must not contain the separator, and the value must be trimmed. */
  lemma PrintRead(key: text, value: text, quote: byte)
    requires key != [] && IsTrimmed(key) && key[0] != HASH && EQUALS !in key
    requires IsTrimmed(value) && (quote == QUOTE || quote == APOSTROPHE)
    ensures Read(Print(key, value, quote)) == Pair(key, value)
  {
    hide Trim, Find, Strip;
    var inner := [quote] + value + [quote];
    var t := key + [SPACE, EQUALS, SPACE] + inner;
    assert Print(key, value, quote) == [] + t + [NEWLINE];
    TrimOf([], t, [NEWLINE]);
    Separated(key, inner);
    assert key + [SPACE] == [] + key + [SPACE];
    TrimOf([], key, [SPACE]);
    assert [SPACE] + inner == [SPACE] + inner + [];
    TrimOf([SPACE], inner, []);
    StripOf(value, quote);
    assert value == [] + value + [];
    TrimOf([], value, []);
  }

  lemma Separated(key: text, inner: text)
    requires EQUALS !in key
    ensures var t, i := key + [SPACE, EQUALS, SPACE] + inner, |key| + 1;
            Find(t, EQUALS) == i && t[..i] == key + [SPACE] && t[i + 1..] == [SPACE] + inner
  {
    var t, i := key + [SPACE, EQUALS, SPACE] + inner, |key| + 1;
    assert t[..i] == key + [SPACE];
    FindIs(t, EQUALS, i);
  }

  lemma StripOf(value: text, quote: byte)
    requires quote == QUOTE || quote == APOSTROPHE
    ensures Strip([quote] + value + [quote]) == value
  {
  }

  lemma FindIs(s: text, c: byte, i: nat)
    requires i < |s| && s[i] == c && c !in s[..i]
    ensures Find(s, c) == i
  {
    if i == 0 {
    } else {
      assert s[..i] == [s[0]] + s[1..][..i - 1];
      FindIs(s[1..], c, i - 1);
    }
  }

  // ---- In place -------------------------------------------------------------------------------

  /** The string that a pointer into the buffer stands for. */
  function CString(buf: seq<byte>, p: nat): text {
    if p < |buf| then UpToNul(buf[p..]) else []
  }

  /** A zero byte ends that string within the buffer. */
  predicate Ends(buf: seq<byte>, p: nat) {
    p < |buf| && p + |CString(buf, p)| < |buf|
  }

  /** The string from p on is s, and a zero byte follows it. */
  lemma CStringIs(buf: seq<byte>, p: nat, s: text)
    requires p + |s| < |buf| && buf[p..p + |s|] == s && NUL !in s && buf[p + |s|] == NUL
    ensures CString(buf, p) == s && Ends(buf, p)
    decreases |s|
  {
    if s == [] {
    } else {
      assert buf[p + 1..p + 1 + |s[1..]|] == buf[p..p + |s|][1..];
      CStringIs(buf, p + 1, s[1..]);
      assert buf[p..][1..] == buf[p + 1..];
      assert buf[p] == buf[p..p + |s|][0] == s[0];
      assert s[0] in s;
    }
  }

  /** What is known of a string in the buffer. */
  lemma CStringHas(buf: seq<byte>, p: nat)
    requires Ends(buf, p)
    ensures var s := CString(buf, p); buf[p..p + |s|] == s && NUL !in s && buf[p + |s|] == NUL
    ensures var s := CString(buf, p); forall k :: p <= k < p + |s| ==> buf[k] != NUL && buf[k] == s[k - p]
  {
    var s := CString(buf, p);
    forall k | p <= k < p + |s|
      ensures buf[k] != NUL && buf[k] == s[k - p]
    {
      assert buf[k] == s[k - p];
      assert s[k - p] in s;
    }
  }

  /** strlen. */
  method Strlen(buf: array<byte>, p: nat) returns (n: nat)
    requires Ends(buf[..], p)
    ensures n == |CString(buf[..], p)|
  {
    ghost var s := CString(buf[..], p);
    CStringHas(buf[..], p);
    n := 0;
    while buf[p + n] != NUL
      invariant n <= |s|
      decreases |s| - n
    {
      n := n + 1;
    }
  }

  /** Nothing outside a range of the buffer changed. */
  ghost predicate Within(before: seq<byte>, after: seq<byte>, from: nat, end: nat) {
    |before| == |after| && forall i :: 0 <= i < |before| && !(from <= i < end) ==> after[i] == before[i]
  }

  /** A string that lies outside the range did not change. */
  lemma Undisturbed(before: seq<byte>, after: seq<byte>, from: nat, end: nat, p: nat)
    requires Within(before, after, from, end) && Ends(before, p)
    requires p + |CString(before, p)| < from || end <= p
    ensures Ends(after, p) && CString(after, p) == CString(before, p)
  {
    hide CString, Ends;
    var s := CString(before, p);
    StringIn(before, p);
    assert after[p..p + |s|] == s;
    CStringIs(after, p, s);
  }

  lemma StringIn(buf: seq<byte>, p: nat)
    requires Ends(buf, p)
    ensures p + |CString(buf, p)| < |buf|
    ensures var s := CString(buf, p); buf[p..p + |s|] == s && NUL !in s && buf[p + |s|] == NUL
    ensures buf[p] == NUL <==> CString(buf, p) == []
  {
    CStringHas(buf, p);
  }

  lemma CharIn(buf: seq<byte>, p: nat, k: nat)
    requires Ends(buf, p) && k < |CString(buf, p)|
    ensures p + k < |buf| && buf[p + k] == CString(buf, p)[k] != NUL
  {
    CStringHas(buf, p);
  }

  /** A zero byte cuts a string. */
  lemma Cut(before: seq<byte>, after: seq<byte>, p: nat, n: nat)
    requires Ends(before, p) && n < |CString(before, p)| && after == before[p + n := NUL]
    ensures Ends(after, p) && CString(after, p) == CString(before, p)[..n]
    ensures Within(before, after, p, p + |CString(before, p)|)
  {
    hide CString, Ends;
    var s := CString(before, p);
    StringIn(before, p);
    assert after[p..p + n] == s[..n];
    assert forall c :: c in s[..n] ==> c in s;
    CStringIs(after, p, s[..n]);
  }

  /** trim_in_place: the result points behind leading white space, and zero bytes replace trailing one. */
  method TrimInPlace(buf: array<byte>, value: nat) returns (q: nat)
    requires Ends(buf[..], value)
    modifies buf
    ensures value <= q <= value + |old(CString(buf[..], value))| && Ends(buf[..], q)
    ensures CString(buf[..], q) == Trim(old(CString(buf[..], value)))
    ensures Within(old(buf[..]), buf[..], value, value + |old(CString(buf[..], value))|)
  {
    hide CString, Ends, TrimLeft, TrimRight;
    q := SkipSpaces(buf, value);
    ghost var left := CString(buf[..], q);
    StringIn(buf[..], q);
    if buf[q] == NUL {
      TrimNothing(left);
      return;
    }
    CutSpaces(buf, q);
  }

  lemma TrimNothing(s: text)
    ensures s == [] ==> TrimRight(s) == []
  {
  }

  /** The loop over trailing white space. */
  method CutSpaces(buf: array<byte>, q: nat)
    requires Ends(buf[..], q) && CString(buf[..], q) != []
    modifies buf
    ensures Ends(buf[..], q) && CString(buf[..], q) == TrimRight(old(CString(buf[..], q)))
    ensures Within(old(buf[..]), buf[..], q, q + |old(CString(buf[..], q))|)
  {
    hide CString, Ends;
    ghost var before, s := buf[..], CString(buf[..], q);
    var n := Strlen(buf, q);
    var end := q + n - 1;
    StringIn(buf[..], q);
    assert s[..n] == s;
    while end >= q && IsSpace(buf[end])
      invariant q - 1 <= end < q + n && Within(before, buf[..], q, q + n) && end < buf.Length
      invariant Ends(buf[..], q) && CString(buf[..], q) == s[..end + 1 - q]
      invariant TrimRight(s) == TrimRight(s[..end + 1 - q])
    {
      ghost var t := s[..end + 1 - q];
      CharIn(buf[..], q, |t| - 1);
      assert t[..|t| - 1] == s[..end - q];
      Cut(buf[..], buf[..][end := NUL], q, |t| - 1);
      buf[end] := NUL;
      end := end - 1;
    }
    if end >= q {
      CharIn(buf[..], q, end - q);
    }
  }

  lemma TrimLeftStep(c: byte, s: text)
    ensures TrimLeft([c] + s) == if IsSpace(c) then TrimLeft(s) else [c] + s
    ensures TrimLeft([]) == []
  {
    assert ([c] + s)[1..] == s;
  }

  /** The loop over leading white space. */
  method SkipSpaces(buf: array<byte>, value: nat) returns (q: nat)
    requires Ends(buf[..], value)
    ensures value <= q && Ends(buf[..], q) && CString(buf[..], q) == TrimLeft(CString(buf[..], value))
    ensures q + |CString(buf[..], q)| == value + |CString(buf[..], value)|
  {
    hide CString, Ends, TrimLeft, IsSpace;
    q := value;
    ghost var b := buf[..];
    StringIn(b, q);
    while buf[q] != NUL && IsSpace(buf[q])
      invariant value <= q < buf.Length && Ends(b, q)
      invariant TrimLeft(CString(b, q)) == TrimLeft(CString(b, value))
      invariant q + |CString(b, q)| == value + |CString(b, value)|
      decreases buf.Length - q
    {
      SkipOne(b, q);
      q := q + 1;
    }
    SkipOne(b, q);
  }

  lemma SkipOne(b: seq<byte>, q: nat)
    requires Ends(b, q)
    ensures b[q] != NUL && IsSpace(b[q]) ==>
              && q + 1 < |b| && Ends(b, q + 1) && |CString(b, q)| == 1 + |CString(b, q + 1)|
              && TrimLeft(CString(b, q)) == TrimLeft(CString(b, q + 1))
    ensures !(b[q] != NUL && IsSpace(b[q])) ==> TrimLeft(CString(b, q)) == CString(b, q)
  {
    hide CString, Ends, TrimLeft, IsSpace;
    StringIn(b, q);
    if b[q] != NUL {
      Advance(b, q);
      StringIn(b, q + 1);
      TrimLeftStep(b[q], CString(b, q + 1));
    } else {
      TrimLeftStep(NUL, []);
    }
  }

  /** The string behind the first byte of a string. */
  lemma Advance(buf: seq<byte>, p: nat)
    requires Ends(buf, p) && buf[p] != NUL
    ensures Ends(buf, p + 1) && CString(buf, p) == [buf[p]] + CString(buf, p + 1)
  {
    assert buf[p..][1..] == buf[p + 1..];
  }

  /** strip_matching_quotes. */
  method StripMatchingQuotes(buf: array<byte>, value: nat)
    requires Ends(buf[..], value)
    modifies buf
    ensures Ends(buf[..], value) && CString(buf[..], value) == Strip(old(CString(buf[..], value)))
    ensures Within(old(buf[..]), buf[..], value, value + |old(CString(buf[..], value))|)
  {
    hide CString, Ends;
    ghost var s := CString(buf[..], value);
    StringIn(buf[..], value);
    var length := Strlen(buf, value);
    if length < 2 {
      return;
    }
    CharIn(buf[..], value, 0);
    CharIn(buf[..], value, length - 1);
    if (buf[value] == APOSTROPHE && buf[value + length - 1] == APOSTROPHE) ||
       (buf[value] == QUOTE && buf[value + length - 1] == QUOTE) {
      ghost var t := s[1..|s| - 1];
      Inner(buf[..], value, s);
      Move(buf, value, length - 2);
      assert buf[value..value + |t|] == t;
      buf[value + length - 2] := NUL;
      assert buf[..][value..value + |t|] == buf[value..value + |t|] == t;
      CStringIs(buf[..], value, t);
    }
  }

  /** A string without its first and last byte. */
  lemma Inner(b: seq<byte>, p: nat, s: text)
    requires |s| >= 2 && p + |s| <= |b| && b[p..p + |s|] == s && NUL !in s
    ensures b[p + 1..p + |s| - 1] == s[1..|s| - 1] && NUL !in s[1..|s| - 1]
  {
    var u, v := b[p + 1..p + |s| - 1], s[1..|s| - 1];
    forall i | 0 <= i < |u|
      ensures u[i] == v[i]
    {
      assert b[p..p + |s|][i + 1] == b[p + (i + 1)];
    }
    assert forall c :: c in s[1..|s| - 1] ==> c in s;
  }

  /** memmove of n bytes, one place down. */
  method Move(buf: array<byte>, value: nat, n: nat)
    requires value + n < buf.Length
    modifies buf
    ensures buf[value..value + n] == old(buf[value + 1..value + n + 1])
    ensures Within(old(buf[..]), buf[..], value, value + n)
  {
    forall i | 0 <= i < n {
      buf[value + i] := buf[value + 1 + i];
    }
  }

  /** strchr; none is a null pointer. */
  method Strchr(buf: array<byte>, p: nat, c: byte) returns (r: Option<nat>)
    requires Ends(buf[..], p) && c != NUL
    ensures var s := CString(buf[..], p);
            r == if Find(s, c) == |s| then None else Some(p + Find(s, c))
  {
    ghost var s := CString(buf[..], p);
    CStringHas(buf[..], p);
    var q := p;
    while buf[q] != NUL
      invariant p <= q <= p + |s| && Find(s, c) == q - p + Find(s[q - p..], c)
      decreases p + |s| - q
    {
      if buf[q] == c {
        return Some(q);
      }
      assert s[q - p..][1..] == s[q + 1 - p..];
      q := q + 1;
    }
    return None;
  }

  /** parse_key_value: 1 for a line without content, -1 for a bad one, 0 with pointers to key and value. */
  method ParseKeyValue(buf: array<byte>) returns (state: int, key: nat, value: nat)
    requires buf.Length > 0 && Ends(buf[..], 0)
    modifies buf
    ensures key < buf.Length && value < buf.Length
    ensures match Read(old(CString(buf[..], 0)))
            case Blank => state == 1
            case Malformed => state == -1
            case Pair(k, v) => state == 0 && CString(buf[..], key) == k && CString(buf[..], value) == v
  {
    hide CString, Ends, Trim, Strip, Find;
    key, value := 0, 0;
    var line := TrimInPlace(buf, 0);
    ghost var t := CString(buf[..], line);
    StringIn(buf[..], line);
    if t != [] {
      CharIn(buf[..], line, 0);
    }
    if buf[line] == NUL || buf[line] == HASH {
      return 1, key, value;
    }
    var separator := Strchr(buf, line, EQUALS);
    if separator.None? {
      return -1, key, value;
    }
    state, key, value := SplitAt(buf, line, separator.value, t);
  }

  /** Writing a zero byte over a byte of a string makes two strings of it. */
  lemma SplitString(before: seq<byte>, after: seq<byte>, line: nat, i: nat)
    requires Ends(before, line) && i < |CString(before, line)| && after == before[line + i := NUL]
    ensures var t := CString(before, line);
            && Ends(after, line) && CString(after, line) == t[..i]
            && Ends(after, line + i + 1) && CString(after, line + i + 1) == t[i + 1..]
  {
    hide CString, Ends;
    var t := CString(before, line);
    var rest := t[i + 1..];
    Cut(before, after, line, i);
    StringIn(before, line);
    assert after[line + i + 1..line + |t|] == before[line..line + |t|][i + 1..] == rest;
    assert forall c :: c in rest ==> c in t;
    CStringIs(after, line + i + 1, rest);
  }

  /** The two sides of the separator. */
  method SplitAt(buf: array<byte>, line: nat, separator: nat, ghost t: text) returns (state: int, key: nat, value: nat)
    requires Ends(buf[..], line) && CString(buf[..], line) == t
    requires line <= separator < line + |t| && separator - line == Find(t, EQUALS)
    modifies buf
    ensures key < buf.Length && value < buf.Length
    ensures var k := Trim(t[..separator - line]);
            if k == [] then state == -1
            else state == 0 && CString(buf[..], key) == k
                 && CString(buf[..], value) == Trim(Strip(Trim(t[separator - line + 1..])))
  {
    hide Trim, Strip, Find, CString, Ends;
    ghost var b0, i := buf[..], separator - line;
    StringIn(b0, line);
    buf[separator] := NUL;
    SplitString(b0, buf[..], line, i);
    key := TrimInPlace(buf, line);
    ghost var b1 := buf[..];
    StringIn(b1, key);
    Undisturbed(b0[separator := NUL], b1, line, separator, separator + 1);
    value := TrimInPlace(buf, separator + 1);
    ghost var b2 := buf[..];
    Undisturbed(b1, b2, separator + 1, buf.Length, key);
    StringIn(b2, key);
    StringIn(b2, value);
    if buf[key] == NUL {
      return -1, key, value;
    }
    value := Unquote(buf, value);
    Undisturbed(b2, buf[..], separator + 1, buf.Length, key);
    return 0, key, value;
  }

  /** The quotes around the value, and the white space inside of them. */
  method Unquote(buf: array<byte>, value: nat) returns (q: nat)
    requires Ends(buf[..], value)
    modifies buf
    ensures value <= q < buf.Length && CString(buf[..], q) == Trim(Strip(old(CString(buf[..], value))))
    ensures Within(old(buf[..]), buf[..], value, buf.Length)
  {
    hide Trim, Strip, CString, Ends;
    StripMatchingQuotes(buf, value);
    q := TrimInPlace(buf, value);
    StringIn(buf[..], q);
  }
}
