/** Decimal numerals, written and read back. */
module Numerals {
  /** The decimal digits of n, without leading zeros. */
  function Decimal(n: nat): string {
    if n < 10 then [DigitOf(n)] else Decimal(n / 10) + [DigitOf(n % 10)]
  }

  function DigitOf(d: nat): char
    requires d < 10
  {
    '0' + d as char
  }

  predicate Digits(s: string) {
    forall k :: 0 <= k < |s| ==> '0' <= s[k] <= '9'
  }

  /** Reads a string of decimal digits back. */
  function Value(digits: string): nat
    requires Digits(digits)
  {
    if digits == [] then 0
    else 10 * Value(digits[..|digits| - 1]) + (digits[|digits| - 1] - '0') as nat
  }

  lemma {:induction false} ValueOfDecimal(n: nat)
    ensures Digits(Decimal(n)) && Value(Decimal(n)) == n
  {
    if n < 10 {
      assert Decimal(n)[..0] == [];
    } else {
      ValueOfDecimal(n / 10);
      assert Decimal(n)[..|Decimal(n)| - 1] == Decimal(n / 10);
    }
  }

  lemma {:induction false} ValueSkipsZero(digits: string)
    requires Digits(digits)
    ensures Digits("0" + digits) && Value("0" + digits) == Value(digits)
  {
    if digits == [] {
      assert ("0" + digits)[..0] == [];
    } else {
      ValueSkipsZero(digits[..|digits| - 1]);
      assert ("0" + digits)[..|digits|] == "0" + digits[..|digits| - 1];
    }
  }

  /** The decimal form of a number starts with a zero only if it is zero. */
  lemma {:induction false} NoLeadingZero(n: nat)
    ensures |Decimal(n)| > 0
    ensures Decimal(n)[0] == '0' ==> |Decimal(n)| == 1
    ensures Decimal(n)[0] == '0' ==> n == 0
  {
    if n >= 10 {
      NoLeadingZero(n / 10);
      assert Decimal(n)[0] == Decimal(n / 10)[0];
    }
  }
}
