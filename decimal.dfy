/**
 Axis labels of the age chart: `str(i) + " anos"`, the decimal form of the age
 followed by the word for years. `str` of a non-negative integer is its shortest
 decimal numeral (no sign, no leading zeros).
 */
module Decimal {

  predicate IsDigit(c: char)
  {
    '0' <= c <= '9'
  }

  function DigitChar(d: nat): (c: char)
    requires d < 10
    ensures IsDigit(c)
  {
    (48 + d) as char
  }

  function DigitValue(c: char): (d: nat)
    requires IsDigit(c)
    ensures d < 10
  {
    c as int - 48
  }

  /** `str(n)` for a natural number. */
  function DecimalString(n: nat): (s: string)
    ensures |s| >= 1
    ensures forall i :: 0 <= i < |s| ==> IsDigit(s[i])
    ensures |s| == 1 <==> n < 10
    ensures |s| > 1 ==> s[0] != '0'
    decreases n
  {
    if n < 10 then [DigitChar(n)] else DecimalString(n / 10) + [DigitChar(n % 10)]
  }

  /** The value of a numeral: the inverse of `str` on natural numbers. */
  function ParseDecimal(s: string): nat
    requires forall i :: 0 <= i < |s| ==> IsDigit(s[i])
  {
    if |s| == 0 then 0 else ParseDecimal(s[..|s| - 1]) * 10 + DigitValue(s[|s| - 1])
  }

  /** Reading back the numeral of `n` gives `n`. */
  lemma {:induction false} ParseDecimalString(n: nat)
    ensures ParseDecimal(DecimalString(n)) == n
    decreases n
  {
    if n >= 10 {
      var s := DecimalString(n);
      ParseDecimalString(n / 10);
      assert s[..|s| - 1] == DecimalString(n / 10);
    }
  }

  const Anos: string := " anos"

  /** The axis label of age `idade`. */
  function AgeLabel(idade: nat): (s: string)
    ensures |s| > |Anos| && s[|s| - |Anos|..] == Anos
    ensures var numeral := s[..|s| - |Anos|];
            (forall i :: 0 <= i < |numeral| ==> IsDigit(numeral[i])) &&
            (|numeral| == 1 <==> idade < 10) &&
            (|numeral| > 1 ==> numeral[0] != '0') &&
            ParseDecimal(numeral) == idade
  {
    ParseDecimalString(idade);
    var d := DecimalString(idade);
    assert (d + Anos)[..|d + Anos| - |Anos|] == d;
    d + Anos
  }

  /** Different ages get different labels. */
  lemma AgeLabelInjective(i: nat, j: nat)
    requires AgeLabel(i) == AgeLabel(j)
    ensures i == j
  {
  }
}
