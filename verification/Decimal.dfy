/** Whole numbers as decimal text: `String(n)` and `Number(text)` on digits. */
module Decimal {
  import opened Basics

  function Digit(d: nat): char
    requires d < 10
  {
    '0' + d as char
  }

  predicate IsDigit(c: char) {
    '0' <= c <= '9'
  }

  predicate AllDigits(text: string) {
    forall i :: 0 <= i < |text| ==> IsDigit(text[i])
  }

  function Render(n: nat): (r: string)
    ensures r != "" && AllDigits(r)
  {
    if n < 10 then [Digit(n)] else Render(n / 10) + [Digit(n % 10)]
  }

  function RenderInt(n: int): (r: string)
    ensures r != ""
  {
    if n < 0 then "-" + Render(-n) else Render(n)
  }

  function Value(text: string): nat
    requires AllDigits(text)
  {
    if text == "" then 0
    else 10 * Value(text[..|text| - 1]) + (text[|text| - 1] as int - '0' as int)
  }

  /** Digits give their value; any other text gives nothing. */
  function Parse(text: string): Option<nat> {
    if text != "" && AllDigits(text) then Some(Value(text)) else None
  }

  lemma {:induction false} RoundTrip(n: nat)
    ensures Parse(Render(n)) == Some(n)
  {
    if n >= 10 {
      RoundTrip(n / 10);
      var text := Render(n);
      assert text[..|text| - 1] == Render(n / 10);
    } else {
      var text := Render(n);
      assert text == [Digit(n)] && text[..0] == "" && Digit(n) as int == '0' as int + n;
      assert Value(text) == 10 * Value("") + n;
    }
  }

  lemma Injective(m: nat, n: nat)
    requires Render(m) == Render(n)
    ensures m == n
  {
    RoundTrip(m);
    RoundTrip(n);
  }

  /** A negative number is not all digits. */
  lemma NegativeIsNotDigits(n: int)
    requires n < 0
    ensures Parse(RenderInt(n)).None?
  {
    assert !IsDigit(RenderInt(n)[0]);
  }
}
