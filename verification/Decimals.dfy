/** Decimal numbers as strconv writes and reads them. */
module Decimals {
  import opened JsonValues

  const MAX_INT: nat := 0x7fff_ffff_ffff_ffff

  function Digit(value: nat): char
    requires value < 10
  {
    '0' + value as char
  }

  predicate IsDigit(c: char) { '0' <= c <= '9' }

  function DigitValue(c: char): nat
    requires IsDigit(c)
  {
    c as int - '0' as int
  }

  function Itoa(n: nat): string {
    if n < 10 then [Digit(n)] else Itoa(n / 10) + [Digit(n % 10)]
  }

  predicate AllDigits(text: string) { forall i :: 0 <= i < |text| ==> IsDigit(text[i]) }

  function Magnitude(text: string): nat
    requires AllDigits(text)
  {
    if text == "" then 0
    else Magnitude(text[..|text| - 1]) * 10 + DigitValue(text[|text| - 1])
  }

  /** An optional sign and at least one digit; out of the machine's range is an error. */
  function Atoi(text: string): Option<int> {
    var signed := text != "" && (text[0] == '-' || text[0] == '+');
    var digits := if signed then text[1..] else text;
    if digits == "" || !AllDigits(digits) then None
    else
      var n: int := Magnitude(digits);
      if signed && text[0] == '-' then (if n > MAX_INT + 1 then None else Some(-n))
      else if n > MAX_INT then None
      else Some(n)
  }

  lemma {:induction false} ItoaReadsBack(n: nat)
    ensures Itoa(n) != "" && AllDigits(Itoa(n)) && Magnitude(Itoa(n)) == n
    ensures n > 0 ==> Itoa(n)[0] != '0'
  {
    if n >= 10 {
      ItoaReadsBack(n / 10);
      OneMoreDigit(Itoa(n / 10), n % 10);
    } else {
      OneMoreDigit("", n);
      assert "" + [Digit(n)] == [Digit(n)];
    }
  }

  lemma {:induction false} OneMoreDigit(text: string, value: nat)
    requires AllDigits(text) && value < 10
    ensures AllDigits(text + [Digit(value)]) && Magnitude(text + [Digit(value)]) == Magnitude(text) * 10 + value
  {
    assert (text + [Digit(value)])[..|text|] == text;
  }
}
