/** Decimal text of natural numbers: `str(n)`, `str.isnumeric` on ASCII text and `int(s)`. */
module Decimal {

  function DigitChar(d: nat): char
    requires d < 10
  {
    '0' + d as char
  }

  predicate IsDigit(c: char) {
    '0' <= c <= '9'
  }

  function Str(n: nat): (s: string)
    ensures s != [] && forall i :: 0 <= i < |s| ==> IsDigit(s[i])
  {
    if n < 10 then [DigitChar(n)] else Str(n / 10) + [DigitChar(n % 10)]
  }

  /** The last digit stands for the remainder, what precedes it for the quotient. */
  lemma StrDigits(n: nat)
    ensures Str(n) == (if n < 10 then "" else Str(n / 10)) + ["0123456789"[n % 10]]
  {
    hide DigitChar;
    DigitIs(n % 10);
  }

  lemma DigitIs(d: nat)
    requires d < 10
    ensures DigitChar(d) == "0123456789"[d]
  {
  }

  predicate IsNumeric(s: string) {
    s != [] && forall i :: 0 <= i < |s| ==> IsDigit(s[i])
  }

  function ToNat(s: string): nat
    requires IsNumeric(s)
  {
    var last := (s[|s| - 1] - '0') as nat;
    if |s| == 1 then last else 10 * ToNat(s[..|s| - 1]) + last
  }

  lemma {:induction false} ToNatOfStr(n: nat)
    ensures IsNumeric(Str(n)) && ToNat(Str(n)) == n
  {
    if n >= 10 {
      ToNatOfStr(n / 10);
      assert Str(n)[..|Str(n)| - 1] == Str(n / 10);
    }
  }

  lemma StrInjective(m: nat, n: nat)
    requires Str(m) == Str(n)
    ensures m == n
  {
    ToNatOfStr(m);
    ToNatOfStr(n);
  }
}
