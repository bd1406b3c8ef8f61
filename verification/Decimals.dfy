/** Decimal text: what `std::to_string` writes and how it is scanned back. */
module Decimals {
  import opened Wrappers

  function DigitChar(d: int): char
    requires 0 <= d < 10
  {
    ('0' as int + d) as char
  }

  /** Decimal text without leading zeros. */
  function Digits(n: nat): (s: string)
    ensures s != []
  {
    if n < 10 then [DigitChar(n)] else Digits(n / 10) + [DigitChar(n % 10)]
  }

  function IntText(v: int): string {
    if v < 0 then "-" + Digits(-v) else Digits(v)
  }

  function Signed(negative: bool, magnitude: int): int {
    if negative then -magnitude else magnitude
  }

  predicate IsDigit(c: char) {
    '0' <= c <= '9'
  }

  function DigitValue(c: char): (d: nat)
    requires IsDigit(c)
    ensures d < 10 && DigitChar(d) == c
  {
    c as int - '0' as int
  }

  /** The number the longest run of digits at the front spells, and the text after it; `value` is
      what earlier digits gave, and `any` says whether there were some. */
  function ScanNat(s: string, value: nat, any: bool): Option<(nat, string)> {
    if s != [] && IsDigit(s[0]) then ScanNat(s[1..], 10 * value + DigitValue(s[0]), true)
    else if any then Some((value, s))
    else None
  }

  lemma {:induction false} ScanDigits(n: nat, tail: string)
    ensures ScanNat(Digits(n) + tail, 0, false) == ScanNat(tail, n, true)
  {
    var c := DigitChar(n % 10);
    assert DigitValue(c) == n % 10;
    assert ([c] + tail)[1..] == tail;
    if n >= 10 {
      ScanDigits(n / 10, [c] + tail);
      assert Digits(n) + tail == Digits(n / 10) + ([c] + tail);
    }
  }

  lemma {:induction false} DigitsStart(n: nat)
    ensures IsDigit(Digits(n)[0])
  {
    if n >= 10 {
      DigitsStart(n / 10);
    }
  }
}
