/** Decimal text of integers, as `format!("{n}")` writes it. */
module Decimal {
  function DigitChar(d: nat): (c: char)
    requires d < 10
    ensures '0' <= c <= '9'
  {
    ('0' as int + d) as char
  }

  function Digits(n: nat): (s: string)
    ensures |s| > 0 && forall i :: 0 <= i < |s| ==> '0' <= s[i] <= '9'
  {
    if n < 10 then [DigitChar(n)] else Digits(n / 10) + [DigitChar(n % 10)]
  }

  function Display(i: int): string {
    if i < 0 then "-" + Digits(-i) else Digits(i)
  }

  /** The number a digit string spells. */
  function Value(s: string): nat
    requires forall i :: 0 <= i < |s| ==> '0' <= s[i] <= '9'
  {
    if s == [] then 0 else 10 * Value(s[..|s| - 1]) + (s[|s| - 1] as int - '0' as int)
  }

  lemma {:induction false} ValueOfDigits(n: nat)
    ensures Value(Digits(n)) == n
  {
    var s := Digits(n);
    if n < 10 {
      assert s[..|s| - 1] == [];
    } else {
      assert s[..|s| - 1] == Digits(n / 10);
      ValueOfDigits(n / 10);
    }
  }

  lemma Signed(i: int)
    ensures Display(i) != [] && (Display(i)[0] == '-' <==> i < 0)
    ensures if i < 0 then Display(i)[1..] == Digits(-i) else Display(i) == Digits(i)
  {
  }

  lemma DigitsInjective(m: nat, n: nat)
    requires Digits(m) == Digits(n)
    ensures m == n
  {
    ValueOfDigits(m);
    ValueOfDigits(n);
  }

  /** Two integers with the same decimal text are equal. */
  lemma DisplayInjective(i: int, j: int)
    requires Display(i) == Display(j)
    ensures i == j
  {
    hide Display, Digits;
    Signed(i);
    Signed(j);
    if i < 0 { DigitsInjective(-i, -j); } else { DigitsInjective(i, j); }
  }
}
