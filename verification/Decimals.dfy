/** Decimal numerals: reading digits, and writing a number without leading zeros. */
module Decimals {

  predicate IsDigit(c: char) {
    '0' <= c <= '9'
  }

  predicate AllDigits(s: string) {
    s != "" && forall i :: 0 <= i < |s| ==> IsDigit(s[i])
  }

  function Decimal(s: string): (n: nat)
    requires forall i :: 0 <= i < |s| ==> IsDigit(s[i])
  {
    if s == "" then 0 else assert IsDigit(s[|s| - 1]); 10 * Decimal(s[..|s| - 1]) + (s[|s| - 1] - '0') as nat
  }

  lemma {:induction false} DecimalStep(s: string, i: nat)
    requires i < |s| && forall j :: 0 <= j < |s| ==> IsDigit(s[j])
    ensures Decimal(s[..i + 1]) == 10 * Decimal(s[..i]) + (s[i] - '0') as nat
  {
    assert s[..i + 1][..i] == s[..i];
  }

  method ReadDecimal(s: string) returns (n: nat)
    requires AllDigits(s)
    ensures n == Decimal(s)
  {
    n := 0;
    for i := 0 to |s|
      invariant n == Decimal(s[..i])
    {
      DecimalStep(s, i);
      n := 10 * n + (s[i] - '0') as nat;
    }
    assert s[..|s|] == s;
  }

  function Digits(n: nat): (s: string)
    ensures forall i :: 0 <= i < |s| ==> IsDigit(s[i])
  {
    if n == 0 then "" else Digits(n / 10) + [(n % 10) as char + '0']
  }

  lemma {:induction false} DecimalOfDigits(n: nat)
    ensures Decimal(Digits(n)) == n
  {
    if n > 0 {
      DecimalOfDigits(n / 10);
      var s := Digits(n);
      assert s[..|s| - 1] == Digits(n / 10);
    }
  }

  lemma {:induction false} DigitsFit(n: nat, limit: nat, width: nat)
    requires n < limit && limit <= Power10(width)
    ensures |Digits(n)| <= width
    decreases width
  {
    if n > 0 {
      if width > 0 { DigitsFit(n / 10, Power10(width - 1), width - 1); }
    }
  }

  function Power10(k: nat): nat {
    if k == 0 then 1 else 10 * Power10(k - 1)
  }
}
