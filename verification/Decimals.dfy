/** Decimal numerals: printing and reading back. */
module Decimals {
  import opened Domain

  const DIGITS := "0123456789"

  predicate IsDigit(c: char) {
    '0' <= c <= '9'
  }

  function DigitValue(c: char): nat
    requires IsDigit(c)
  {
    (c - '0') as int
  }

  function Print(n: nat): string {
    if n < 10 then [DIGITS[n]] else Print(n / 10) + [DIGITS[n % 10]]
  }

  predicate AllDigits(s: string) {
    forall i :: 0 <= i < |s| ==> IsDigit(s[i])
  }

  function Value(s: string): nat
    requires AllDigits(s)
  {
    if s == "" then 0 else 10 * Value(s[..|s| - 1]) + DigitValue(s[|s| - 1])
  }

  /** A non-empty run of digits, or nothing. */
  function Parse(s: string): Option<nat> {
    if s != "" && AllDigits(s) then Some(Value(s)) else None
  }

  lemma {:induction false} PrintIsDigits(n: nat)
    ensures Print(n) != "" && AllDigits(Print(n)) && Value(Print(n)) == n
  {
    if n < 10 {
      assert Print(n)[..0] == "";
      assert IsDigit(DIGITS[n]) && DigitValue(DIGITS[n]) == n;
    } else {
      PrintIsDigits(n / 10);
      var s := Print(n);
      assert s[..|s| - 1] == Print(n / 10);
      assert IsDigit(DIGITS[n % 10]) && DigitValue(DIGITS[n % 10]) == n % 10;
    }
  }

  lemma {:induction false} ParseOfPrint(n: nat)
    ensures Parse(Print(n)) == Some(n)
  {
    PrintIsDigits(n);
  }

  lemma {:induction false} PrintInjective(m: nat, n: nat)
    requires Print(m) == Print(n)
    ensures m == n
  {
    PrintIsDigits(m);
    PrintIsDigits(n);
  }
}
