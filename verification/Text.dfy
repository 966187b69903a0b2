/** Options, and text as the C code sees it: bytes, with decimal numbers in them. */
module Text {
  import opened Words

  datatype Option<+T> = None | Some(value: T)

  type text = seq<byte>

  const NUL: byte := 0x00
  const SPACE: byte := 0x20
  const DOT: byte := 0x2e

  /** Bytes that are the characters of a string. */
  predicate Spells(t: text, s: string) {
    |t| == |s| && forall i :: 0 <= i < |t| ==> t[i] as char == s[i]
  }

  lemma SpellsBoth(t: text, s: string, t': text, s': string)
    requires Spells(t, s) && Spells(t', s')
    ensures Spells(t + t', s + s')
  {
  }

  predicate IsDigit(c: byte) {
    0x30 <= c <= 0x39
  }

  function Digit(c: byte): (d: nat)
    requires IsDigit(c)
    ensures d <= 9
  {
    (c - 0x30) as nat
  }

  /** A nonempty string of decimal digits. */
  predicate IsRun(s: text) {
    |s| > 0 && forall i :: 0 <= i < |s| ==> IsDigit(s[i])
  }

  function Value(s: text): nat
    requires forall i :: 0 <= i < |s| ==> IsDigit(s[i])
  {
    if s == [] then 0 else Value(s[..|s| - 1]) * 10 + Digit(s[|s| - 1])
  }

  /** The number of leading digits of s. */
  function RunLength(s: text): (n: nat)
    ensures n <= |s|
    ensures forall i :: 0 <= i < n ==> IsDigit(s[i])
    ensures n < |s| ==> !IsDigit(s[n])
  {
    if s == [] || !IsDigit(s[0]) then 0 else 1 + RunLength(s[1..])
  }

  lemma RunLengthUnique(s: text, n: nat)
    requires n <= |s| && (forall i :: 0 <= i < n ==> IsDigit(s[i]))
    requires n < |s| ==> !IsDigit(s[n])
    ensures RunLength(s) == n
  {
    if n > 0 {
      RunLengthUnique(s[1..], n - 1);
    }
  }

  /** The bytes of s before its first zero byte. */
  function UpToNul(s: seq<byte>): (r: text)
    ensures |r| <= |s| && r == s[..|r|] && NUL !in r && (|r| < |s| ==> s[|r|] == NUL)
  {
    if s == [] || s[0] == NUL then [] else [s[0]] + UpToNul(s[1..])
  }

  /** A number in decimal, without leading zeros. */
  function Decimal(n: nat): (s: text)
    ensures IsRun(s) && Value(s) == n
  {
    var last := ToByte(n % 10 + 0x30);
    assert Digit(last) == n % 10;
    if n < 10 then [last] else Decimal(n / 10) + [last]
  }
}
