/** Decimal numbers as the standard integer parsers read them. */
module Decimal {
  import opened Wrappers
  import opened Text

  const I64_MIN: int := -0x8000_0000_0000_0000
  const I64_MAX: int := 0x7FFF_FFFF_FFFF_FFFF

  predicate AllDigits(text: string) {
    forall k :: 0 <= k < |text| ==> IsAsciiDigit(text[k])
  }

  function Value(text: string): nat
    requires AllDigits(text)
  {
    if text == "" then 0 else 10 * Value(text[..|text| - 1]) + (text[|text| - 1] - '0') as nat
  }

  function Digits(n: nat): (text: string)
    ensures text != "" && AllDigits(text)
  {
    (if n < 10 then "" else Digits(n / 10)) + [('0' as nat + n % 10) as char]
  }

  lemma {:induction false} DigitsValue(n: nat)
    ensures Value(Digits(n)) == n
  {
    var text := Digits(n);
    assert text[..|text| - 1] == if n < 10 then "" else Digits(n / 10);
    if n >= 10 {
      DigitsValue(n / 10);
    }
  }

  /** `str::parse` for an integer between two bounds: an optional sign and at least one digit. */
  function ParseInt(text: string, low: int, high: int): (value: Option<int>)
    ensures value.Some? ==> low <= value.value <= high
  {
    if text == "" then None
    else if text[0] == '-' then Bounded(text[1..], true, low, high)
    else if text[0] == '+' then Bounded(text[1..], false, low, high)
    else Bounded(text, false, low, high)
  }

  function Bounded(digits: string, negative: bool, low: int, high: int): Option<int> {
    if digits == "" || !AllDigits(digits) then None
    else
      var value := if negative then -(Value(digits) as int) else Value(digits);
      if low <= value <= high then Some(value) else None
  }

  function Print(i: int): (text: string)
    ensures text != "" && (IsAsciiDigit(text[0]) || text[0] == '-')
    ensures forall k :: 0 < k < |text| ==> IsAsciiDigit(text[k])
  {
    if i < 0 then "-" + Digits(-i) else Digits(i)
  }

  lemma PrintParses(i: int, low: int, high: int)
    requires low <= i <= high
    ensures ParseInt(Print(i), low, high) == Some(i)
  {
    hide Digits;
    hide Value;
    if i < 0 {
      DigitsValue(-i);
      assert Print(i)[1..] == Digits(-i);
    } else {
      DigitsValue(i);
      assert IsAsciiDigit(Print(i)[0]);
    }
  }
}
