/** Decimal digits and the numbers they spell. */
module Decimals {
  predicate IsDigit(c: char) {
    '0' <= c <= '9'
  }

  function DigitValue(c: char): (v: nat)
    requires IsDigit(c)
    ensures v < 10
  {
    c as int - 48
  }

  function Digit(v: nat): (c: char)
    requires v < 10
    ensures IsDigit(c) && DigitValue(c) == v
  {
    (v + 48) as char
  }

  function Pad2(v: nat): (s: string)
    requires v < 100
    ensures |s| == 2 && AllDigits(s) && Number(s) == v
  {
    var s := [Digit(v / 10), Digit(v % 10)];
    assert Number(s[..1]) == Number(s[..1][..0]) * 10 + v / 10 == v / 10;
    s
  }

  function Pad4(v: nat): (s: string)
    requires v < 10_000
    ensures |s| == 4 && AllDigits(s) && Number(s) == v
  {
    var s := Pad2(v / 100) + Pad2(v % 100);
    NumberOf4(s);
    s
  }

  function Decimal(v: nat): (s: string)
    ensures |s| > 0 && AllDigits(s)
    ensures v >= 10 ==> |s| > 1
    ensures v >= 100 ==> |s| > 2
    ensures v >= 1_000 ==> |s| > 3
    ensures v >= 10_000 ==> |s| > 4
  {
    if v < 10 then [Digit(v)] else Decimal(v / 10) + [Digit(v % 10)]
  }

  predicate AllDigits(s: string) {
    forall i :: 0 <= i < |s| ==> IsDigit(s[i])
  }

  function Number(s: string): nat
    requires AllDigits(s)
  {
    if s == "" then 0 else Number(s[..|s| - 1]) * 10 + DigitValue(s[|s| - 1])
  }

  lemma NumberOf4(s: string)
    requires |s| == 4 && AllDigits(s)
    ensures Number(s) == Number(s[..2]) * 100 + Number(s[2..])
  {
    assert s[..3][..2] == s[..2];
    assert s[2..][..1] == [s[2]];
    assert s[..3][2] == s[2] && s[2..][1] == s[3];
    assert Number([s[2]]) == DigitValue(s[2]);
    assert Number(s[2..]) == Number([s[2]]) * 10 + DigitValue(s[3]);
  }
}
