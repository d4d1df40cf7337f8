/** Decimal text of natural numbers, as item codes and page cursors print them. */
module Decimal {

  predicate IsDigit(c: char) {
    '0' <= c <= '9'
  }

  predicate AllDigits(s: string) {
    s != [] && forall i :: 0 <= i < |s| ==> IsDigit(s[i])
  }

  function DigitChar(d: nat): (c: char)
    requires d < 10
    ensures IsDigit(c) && c as int - '0' as int == d
  {
    ('0' as int + d) as char
  }

  function Print(n: nat): (s: string)
    ensures AllDigits(s)
  {
    if n < 10 then [DigitChar(n)] else Print(n / 10) + [DigitChar(n % 10)]
  }

  function Value(s: string): nat
    requires AllDigits(s)
  {
    var last := s[|s| - 1] as int - '0' as int;
    if |s| == 1 then last else 10 * Value(s[..|s| - 1]) + last
  }

  /** The text of a number padded with zeros to at least `width` characters. */
  function Padded(n: nat, width: nat): (s: string)
    ensures AllDigits(s)
  {
    PadLeft(Print(n), width)
  }

  function PadLeft(s: string, width: nat): (p: string)
    requires AllDigits(s)
    ensures AllDigits(p)
    decreases width - |s|
  {
    if |s| >= width then s else PadLeft("0" + s, width)
  }

  lemma {:induction false} ValueOfPrint(n: nat)
    ensures Value(Print(n)) == n
  {
    if n >= 10 {
      ValueOfPrint(n / 10);
      assert Print(n)[..|Print(n)| - 1] == Print(n / 10);
    }
  }

  lemma {:induction false} LeadingZero(s: string)
    requires AllDigits(s)
    ensures Value("0" + s) == Value(s)
  {
    if |s| > 1 {
      LeadingZero(s[..|s| - 1]);
      assert ("0" + s)[..|s|] == "0" + s[..|s| - 1];
    } else {
      assert ("0" + s)[..1] == "0";
    }
  }

  lemma {:induction false} ValueOfPadLeft(s: string, width: nat)
    requires AllDigits(s)
    ensures Value(PadLeft(s, width)) == Value(s)
    decreases width - |s|
  {
    if |s| < width {
      LeadingZero(s);
      ValueOfPadLeft("0" + s, width);
    }
  }

  /** Printing, with or without padding, loses no information. */
  lemma PrintedValue(n: nat, width: nat)
    ensures Value(Print(n)) == n && Value(Padded(n, width)) == n
  {
    ValueOfPrint(n);
    ValueOfPadLeft(Print(n), width);
  }
}
