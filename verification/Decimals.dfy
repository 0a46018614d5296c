/** Decimal numerals, as text formatting writes them. */
module Decimals {

  const DIGITS: string := "0123456789"

  function Decimal(n: int): string
    decreases if n < 0 then 1 - n else n
  {
    if n < 0 then "-" + Decimal(-n)
    else if n < 10 then [DIGITS[n]]
    else Decimal(n / 10) + [DIGITS[n % 10]]
  }

  function Digit(c: char): int {
    c as int - '0' as int
  }

  function Number(s: string): int {
    if s == "" then 0 else 10 * Number(s[..|s| - 1]) + Digit(s[|s| - 1])
  }

  lemma {:induction false} ReadsBack(n: nat)
    ensures Decimal(n) != "" && Decimal(n)[0] != '-' && Number(Decimal(n)) == n
  {
    assert forall d :: 0 <= d < 10 ==> Digit(DIGITS[d]) == d;
    if n < 10 {
      assert [DIGITS[n]][..0] == "";
    } else {
      ReadsBack(n / 10);
      var s := Decimal(n);
      assert s[..|s| - 1] == Decimal(n / 10) && s[|s| - 1] == DIGITS[n % 10];
      assert s[0] == Decimal(n / 10)[0];
    }
  }

  /** Different numbers are written differently. */
  lemma DecimalInjective(m: int, n: int)
    ensures Decimal(m) == Decimal(n) <==> m == n
  {
    ReadsBack(if m < 0 then -m else m);
    ReadsBack(if n < 0 then -n else n);
    if m < 0 && n < 0 {
      assert Decimal(m)[1..] == Decimal(-m) && Decimal(n)[1..] == Decimal(-n);
    }
  }
}
