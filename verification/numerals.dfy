/** Decimal numerals. */
module Numerals {
  predicate IsDigit(c: char) {
    '0' <= c <= '9'
  }

  predicate AllDigits(s: string) {
    forall i :: 0 <= i < |s| ==> IsDigit(s[i])
  }

  predicate IsNumeral(s: string) {
    s != "" && AllDigits(s)
  }

  function DigitValue(c: char): nat
    requires IsDigit(c)
  {
    c as int - '0' as int
  }

  function Value(s: string): nat
    requires AllDigits(s)
  {
    if s == "" then 0 else 10 * Value(s[..|s| - 1]) + DigitValue(s[|s| - 1])
  }

  function Numeral(n: nat): (s: string)
    ensures IsNumeral(s) && Value(s) == n
  {
    var last := ['0' + (n % 10) as char];
    if n < 10 then
      assert last[..0] == "";
      last
    else
      var s := Numeral(n / 10) + last;
      assert s[..|s| - 1] == Numeral(n / 10);
      s
  }

  function Pow10(k: nat): nat {
    if k == 0 then 1 else 10 * Pow10(k - 1)
  }

  lemma {:induction false} ValueBound(s: string)
    requires AllDigits(s)
    ensures Value(s) < Pow10(|s|)
  {
    if s != "" {
      ValueBound(s[..|s| - 1]);
    }
  }

  lemma TenTimes(d: nat, p: nat, rest: nat)
    ensures 10 * (d * p + rest) == d * (10 * p) + 10 * rest
  {
  }

  /** The value from the leading digit on. */
  lemma {:induction false} ValueFromFront(s: string)
    requires IsNumeral(s)
    ensures Value(s) == DigitValue(s[0]) * Pow10(|s| - 1) + Value(s[1..])
  {
    var front := s[..|s| - 1];
    if front == "" {
      assert s[1..] == "";
    } else {
      var tail := s[1..];
      ValueFromFront(front);
      assert tail[..|tail| - 1] == front[1..];
      assert Value(tail) == 10 * Value(front[1..]) + DigitValue(s[|s| - 1]);
      TenTimes(DigitValue(s[0]), Pow10(|front| - 1), Value(front[1..]));
    }
  }

  const DIGITS := "0123456789"

  /** One more digit is ten times the rest and the digit. */
  lemma ValueExactly(s: string, k: nat)
    requires AllDigits(s) && k < 10
    ensures IsDigit(DIGITS[k]) && Value(s + [DIGITS[k]]) == 10 * Value(s) + k
    ensures Value("") == 0
  {
    assert DIGITS[k] == '0' + k as char;
    assert (s + [DIGITS[k]])[..|s|] == s;
  }
}
