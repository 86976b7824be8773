/** Reading hexadecimal text back as the number it spells. */
module Hexadecimal {
  import opened Text
  import opened Arithmetic

  function Rank(c: char): nat {
    if '0' <= c <= '9' then c as int - '0' as int
    else if 'a' <= c <= 'f' then 10 + (c as int - 'a' as int)
    else if 'A' <= c <= 'F' then 10 + (c as int - 'A' as int)
    else 0
  }

  /** The number a text spells, most significant digit first, in either case. */
  function ReadHex(text: string): nat {
    if text == "" then 0 else ReadHex(text[..|text| - 1]) * 16 + Rank(text[|text| - 1])
  }

  function Pow16(digits: nat): (p: nat)
    ensures 0 < p
  {
    if digits == 0 then 1 else 16 * Pow16(digits - 1)
  }

  lemma Pow16Sixteen()
    ensures Pow16(16) == 0x1_0000_0000_0000_0000 && Pow16(32) == Pow16(16) * Pow16(16)
  {
    Pow16Four(12);
    Pow16Four(8);
    Pow16Four(4);
    Pow16Four(0);
    Pow16Sum(16, 16);
  }

  lemma Pow16Four(n: nat)
    ensures Pow16(n + 4) == 0x1_0000 * Pow16(n)
  {
    assert Pow16(n + 4) == 16 * Pow16(n + 3);
    assert Pow16(n + 3) == 16 * Pow16(n + 2);
    assert Pow16(n + 2) == 16 * Pow16(n + 1);
    assert Pow16(n + 1) == 16 * Pow16(n);
  }

  lemma {:induction false} Pow16Sum(m: nat, n: nat)
    ensures Pow16(m + n) == Pow16(m) * Pow16(n)
  {
    if m > 0 {
      Pow16Sum(m - 1, n);
      assert (16 * Pow16(m - 1)) * Pow16(n) == 16 * (Pow16(m - 1) * Pow16(n));
    }
  }

  lemma DigitReads(d: nat)
    requires d < 16
    ensures Rank(HexDigit(d)) == d
  {
  }

  /** A number that fits is read back from its digits. */
  lemma {:induction false} HexReadsBack(n: nat, digits: nat)
    requires n < Pow16(digits)
    ensures ReadHex(HexText(n, digits)) == n
  {
    if digits > 0 {
      HexReadsBack(n / 16, digits - 1);
      DigitReads(n % 16);
      var front := HexText(n / 16, digits - 1);
      assert HexText(n, digits) == front + [HexDigit(n % 16)];
      assert (front + [HexDigit(n % 16)])[..digits - 1] == front;
    }
  }

  /** The leading digits are those of the number without its last ones. */
  lemma {:induction false} HexFront(n: nat, front: nat, rest: nat)
    ensures HexText(n, front + rest)[..front] == HexText(n / Pow16(rest), front)
  {
    if rest > 0 {
      var longer := HexText(n / 16, front + rest - 1);
      HexFront(n / 16, front, rest - 1);
      DivideTwice(n, 16, Pow16(rest - 1));
      assert HexText(n, front + rest) == longer + [HexDigit(n % 16)];
      assert (longer + [HexDigit(n % 16)])[..front] == longer[..front];
    } else {
      assert HexText(n, front)[..front] == HexText(n, front);
    }
  }

  predicate AllHex(text: string) {
    forall c | c in text :: IsHex(c)
  }

  lemma {:induction false} UpperReads(text: string)
    requires AllHex(text)
    ensures ReadHex(Upper(text)) == ReadHex(text)
  {
    if text != "" {
      var front := text[..|text| - 1];
      forall c | c in front ensures IsHex(c) {
        assert c in text;
      }
      assert text[|text| - 1] in text;
      UpperReads(front);
      assert Upper(text)[..|text| - 1] == Upper(front);
    }
  }
}
