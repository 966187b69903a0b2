/** The characters that the bytes of the text formats stand for. */
module Characters {
  import opened Words
  import opened Text
  import ConfigText
  import ConfigValues
  import ConfigurationLaws
  import RetryAfter

  lemma Signs()
    ensures NUL as char == '\0' && SPACE as char == ' ' && DOT as char == '.'
    ensures ConfigText.HASH as char == '#' && ConfigText.EQUALS as char == '=' && ConfigText.NEWLINE as char == '\n'
    ensures ConfigText.QUOTE as char == '"' && ConfigText.APOSTROPHE as char == '\''
    ensures ConfigValues.ZERO as char == '0' && ConfigValues.SMALL_X as char == 'x'
    ensures ConfigValues.LARGE_X as char == 'X' && ConfigurationLaws.COLON as char == ':'
    ensures ConfigValues.PLUS as char == '+' && ConfigValues.MINUS as char == '-'
  {
  }

  /** Decimal digits and their values. */
  lemma Digits(c: byte)
    ensures IsDigit(c) <==> '0' <= c as char <= '9'
    ensures IsDigit(c) ==> Digit(c) == c as char as int - '0' as int
  {
    Number(c);
  }

  lemma Number(c: byte)
    ensures c as char as int == c as int
    ensures c >= 0x30 ==> (c - 0x30) as int == c as int - 48
  {
  }

  /** White space, as in the C locale. */
  lemma Spaces(c: byte)
    ensures ConfigText.IsSpace(c) <==> c as char == ' ' || c as char == '\t' || c as char == '\n' || c as char == '\r'
                                       || c as char as int == 11 || c as char as int == 12
  {
    Number(c);
  }

  /** Hexadecimal digits of either case and their values. */
  lemma HexDigits(c: byte)
    ensures ConfigValues.IsHex(c) <==> '0' <= c as char <= '9' || 'a' <= c as char <= 'f' || 'A' <= c as char <= 'F'
    ensures ConfigValues.IsHex(c) ==>
              ConfigValues.HexValue(c) == if '0' <= c as char <= '9' then c as char as int - '0' as int
                                          else if 'a' <= c as char <= 'f' then c as char as int - 'a' as int + 10
                                          else c as char as int - 'A' as int + 10
  {
    Number(c);
    Above(c);
  }

  lemma Above(c: byte)
    ensures c >= 0x41 ==> (c - 0x37) as int == c as int - 55
    ensures c >= 0x61 ==> (c - 0x57) as int == c as int - 87
  {
  }

  lemma TruthValues()
    ensures Spells(ConfigValues.TRUE, "True") && Spells(ConfigValues.FALSE, "False")
    ensures Spells(ConfigValues.ONE, "1") && Spells(ConfigValues.NOUGHT, "0")
  {
  }

  /** Case does not matter to letters, and to nothing else. */
  lemma Cases(a: byte, b: byte)
    ensures ConfigValues.Lower(a) == ConfigValues.Lower(b) <==>
            || a == b
            || ('A' <= a as char <= 'Z' && b as char as int == a as char as int + 32)
            || ('A' <= b as char <= 'Z' && a as char as int == b as char as int + 32)
  {
    Number(a);
    Number(b);
    if 0x41 <= a <= 0x5a {
      Raised(a, b);
    }
    if 0x41 <= b <= 0x5a {
      Raised(b, a);
    }
  }

  lemma Raised(a: byte, b: byte)
    requires a <= 0x5a
    ensures a + 0x20 == b <==> a as int + 32 == b as int
  {
  }

  lemma Unit(c: byte)
    ensures RetryAfter.IsSecond(c) <==> c as char == 's' || c as char == 'S'
  {
    Number(c);
  }

  /** A number of seconds is at most half an hour. */
  lemma LongestDelay(s: text)
    ensures ConfigValues.ParseSeconds(s).Some? ==> ConfigValues.ParseSeconds(s).value <= 1800
  {
  }
}
