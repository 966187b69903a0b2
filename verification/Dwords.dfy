/** 64-bit unsigned numbers: the operations of the C code on them, and the numbers they stand for. */
module Dwords {
  import opened Words

  type dword = bv64

  /** (unsigned char)(x % 256). */
  function LowByte(x: dword): byte {
    (x % 256) as byte
  }

  function DropByte(x: dword): dword {
    x / 256
  }

  /** x & 0xffffffff. */
  function Mask(x: dword): dword {
    x & 0xffff_ffff
  }

  /** (unsigned char)(x >> (j * 8) & 0xff). */
  function ByteAt(x: dword, j: nat): byte
    requires j < 4
  {
    match j
    case 0 => (x & 0xff) as byte
    case 1 => ((x >> 8) & 0xff) as byte
    case 2 => ((x >> 16) & 0xff) as byte
    case _ => ((x >> 24) & 0xff) as byte
  }

  function Plus(x: dword, y: dword): dword {
    x + y
  }

  function Times(x: dword, y: dword): dword {
    x * y
  }

  function Pred(x: dword): (y: dword)
    ensures x != 0 ==> y < x
  {
    x - 1
  }

  /** The number that x stands for, by counting down. */
  function Num(x: dword): nat {
    if x == 0 then 0 else Num(Pred(x)) + 1
  }

  lemma NumStep(x: dword)
    ensures Num(x) == if x == 0 then 0 else Num(Pred(x)) + 1
  {
  }

  lemma ByteUp(b: byte)
    requires b != 0xff
    ensures (b + 1) as nat == b as nat + 1
  {
    assert ToByte(b as nat + 1) == b + 1;
  }

  /** The two lowest digits of x - 1 and x. */
  lemma DigitStep(x: dword)
    requires x != 0
    ensures LowByte(x) != 0 ==> LowByte(Pred(x)) != 0xff && LowByte(x) == LowByte(Pred(x)) + 1
                                && DropByte(Pred(x)) == DropByte(x)
    ensures LowByte(x) == 0 ==> LowByte(Pred(x)) == 0xff && DropByte(x) != 0
                                && DropByte(Pred(x)) == Pred(DropByte(x))
  {
  }

  lemma LastDigit(x: dword)
    requires x != 0 && LowByte(x) != 0
    ensures LowByte(x) as nat == LowByte(Pred(x)) as nat + 1
  {
    DigitStep(x);
    hide LowByte, Pred;
    ByteUp(LowByte(Pred(x)));
  }

  /** Numbers to the base 256. */
  lemma {:induction false} NumDigits(x: dword)
    ensures Num(x) == 256 * Num(DropByte(x)) + LowByte(x) as nat
    decreases Num(x)
  {
    hide LowByte, DropByte, Num, Pred;
    NumStep(x);
    if x == 0 {
      ZeroDigits();
    } else {
      NumDigits(Pred(x));
      DigitStep(x);
      if LowByte(x) != 0 {
        LastDigit(x);
      } else {
        NumStep(DropByte(x));
      }
    }
  }

  lemma ZeroDigits()
    ensures Num(0) == 0 && DropByte(0) == 0 && LowByte(0) == 0
  {
  }

  const TOP: dword := 0xffff_ffff_ffff_ffff

  lemma PlusStep(x: dword, y: dword)
    ensures Plus(x, 0) == x
    ensures y != 0 && Plus(x, Pred(y)) != TOP ==> Plus(x, y) != 0 && Pred(Plus(x, y)) == Plus(x, Pred(y))
  {
  }

  /** Addition is that of numbers as long as they are in range. */
  lemma {:induction false} NumPlus(x: dword, y: dword)
    requires Num(x) + Num(y) <= Num(TOP)
    ensures Num(Plus(x, y)) == Num(x) + Num(y)
    decreases Num(y)
  {
    hide Num, Plus, Pred, TOP;
    NumStep(y);
    PlusStep(x, y);
    if y != 0 {
      NumPlus(x, Pred(y));
      NumStep(Plus(x, y));
    }
  }

  lemma TimesZero(f: dword)
    ensures Times(f, 0) == 0
  {
  }

  lemma RawNext(f: dword, y: dword)
    ensures f * (y + 1) == f * y + f
  {
  }

  lemma TimesNext(f: dword, y: dword)
    ensures Times(f, Plus(y, 1)) == Plus(Times(f, y), f)
  {
    calc {
      Times(f, Plus(y, 1));
      Times(f, y + 1);
      f * (y + 1);
      { RawNext(f, y); }
      f * y + f;
      Plus(f * y, f);
      Plus(Times(f, y), f);
    }
  }

  lemma PredPlus(x: dword)
    ensures Plus(Pred(x), 1) == x
  {
  }

  /** So is multiplication. */
  lemma {:induction false} NumTimes(f: dword, x: dword)
    requires Num(f) * Num(x) <= Num(TOP)
    ensures Num(Times(f, x)) == Num(f) * Num(x)
    decreases Num(x)
  {
    hide Num, Plus, Times, Pred, TOP;
    NumStep(x);
    if x == 0 {
      TimesZero(f);
      NumStep(0);
    } else {
      TimesNext(f, Pred(x));
      PredPlus(x);
      var n, m := Num(f), Num(Pred(x));
      assert n * (m + 1) == n * m + n;
      NumTimes(f, Pred(x));
      NumPlus(Times(f, Pred(x)), f);
    }
  }

  /** The four low digits and the rest. */
  lemma NumFour(x: dword)
    ensures var h := DropByte(DropByte(DropByte(DropByte(x))));
            Num(x) == TWO_32 * Num(h) + 0x100_0000 * (LowByte(DropByte(DropByte(DropByte(x)))) as nat)
                      + 0x1_0000 * (LowByte(DropByte(DropByte(x))) as nat) + 256 * (LowByte(DropByte(x)) as nat)
                      + LowByte(x) as nat
  {
    hide Num, DropByte, LowByte;
    NumDigits(x);
    NumDigits(DropByte(x));
    NumDigits(DropByte(DropByte(x)));
    NumDigits(DropByte(DropByte(DropByte(x))));
  }

  lemma MaskDigits(x: dword)
    ensures var y := Mask(x);
            && LowByte(y) == LowByte(x) && LowByte(DropByte(y)) == LowByte(DropByte(x))
            && LowByte(DropByte(DropByte(y))) == LowByte(DropByte(DropByte(x)))
            && LowByte(DropByte(DropByte(DropByte(y)))) == LowByte(DropByte(DropByte(DropByte(x))))
            && DropByte(DropByte(DropByte(DropByte(y)))) == 0
  {
  }

  /** Masking is the remainder modulo 2^32. */
  lemma NumMask(x: dword)
    ensures Num(Mask(x)) == Num(x) % TWO_32
  {
    hide Num, DropByte, LowByte, Mask;
    MaskDigits(x);
    NumFour(x);
    NumFour(Mask(x));
    NumStep(0);
  }

  /** The digits of a number are its low bytes. */
  lemma NumBytes(x: dword, k: nat)
    requires k > 0
    ensures LeBytes(Num(x), k) == [LowByte(x)] + LeBytes(Num(DropByte(x)), k - 1)
  {
    hide Num, DropByte, LowByte, Low;
    NumDigits(x);
    var b := LowByte(x);
    LowOfByte(b);
    LowDigit(Num(DropByte(x)), b as nat);
  }

  // ---- Words in dwords ------------------------------------------------------------------------

  function Widen(x: word): dword {
    x as dword
  }

  /** The number that a word stands for. */
  function WordValue(x: word): nat {
    Num(Widen(x))
  }

  lemma WidenFits(x: word)
    ensures DropByte(DropByte(DropByte(DropByte(Widen(x))))) == 0
  {
  }

  lemma WordBound(x: word)
    ensures WordValue(x) < TWO_32
  {
    hide Num, DropByte, LowByte, Widen;
    WidenFits(x);
    NumFour(Widen(x));
    NumStep(0);
  }

  lemma JoinDigits(a: byte, b: byte, c: byte, d: byte)
    ensures var x := Widen(Join(a, b, c, d));
            && LowByte(x) == a && LowByte(DropByte(x)) == b && LowByte(DropByte(DropByte(x))) == c
            && LowByte(DropByte(DropByte(DropByte(x)))) == d && DropByte(DropByte(DropByte(DropByte(x)))) == 0
  {
  }

  /** A word read from four bytes stands for the little-endian number of these bytes. */
  lemma WordValueIs(a: byte, b: byte, c: byte, d: byte)
    ensures WordValue(Join(a, b, c, d)) ==
            a as nat + 256 * (b as nat) + 0x1_0000 * (c as nat) + 0x100_0000 * (d as nat)
  {
    JoinDigits(a, b, c, d);
    hide Num, DropByte, LowByte, Widen, Join;
    NumFour(Widen(Join(a, b, c, d)));
    NumStep(0);
  }

  lemma TopDigits()
    ensures var h := DropByte(DropByte(DropByte(DropByte(TOP))));
            && LowByte(TOP) == LowByte(DropByte(TOP)) == LowByte(DropByte(DropByte(TOP)))
               == LowByte(DropByte(DropByte(DropByte(TOP)))) == 0xff
            && LowByte(h) == LowByte(DropByte(h)) == LowByte(DropByte(DropByte(h)))
               == LowByte(DropByte(DropByte(DropByte(h)))) == 0xff
            && DropByte(DropByte(DropByte(DropByte(h)))) == 0
  {
  }

  lemma NumTop()
    ensures Num(TOP) == TWO_64 - 1
  {
    TopDigits();
    hide Num, DropByte, LowByte, TOP;
    NumFour(TOP);
    NumFour(DropByte(DropByte(DropByte(DropByte(TOP)))));
    NumStep(0);
  }

  /** The product with a word, taken modulo 2^32 by masking, as long as 64 bits hold it. */
  lemma MaskedProduct(f: dword, x: word)
    requires Num(f) <= TWO_32
    ensures Num(Mask(Times(f, Widen(x)))) == Num(f) * WordValue(x) % TWO_32
  {
    hide Num, Mask, Times, Widen, TOP;
    NumTop();
    WordBound(x);
    ProductBound(Num(f), WordValue(x));
    NumTimes(f, Widen(x));
    NumMask(Times(f, Widen(x)));
  }

  lemma ProductBound(n: nat, m: nat)
    requires n <= TWO_32 && m < TWO_32
    ensures n * m <= TWO_64 - 1
  {
    MulUp(n, TWO_32, m);
    assert TWO_32 * m <= TWO_32 * (TWO_32 - 1);
  }

  lemma MulUp(n: nat, k: nat, m: nat)
    requires n <= k
    ensures n * m <= k * m
  {
  }
}
