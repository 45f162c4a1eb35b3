/** Decimal numerals: how integers are printed as text and read back. */
module Decimal {
  import opened Prelude

  function Pow10(n: nat): (p: nat)
    ensures p >= 1
  {
    if n == 0 then 1 else 10 * Pow10(n - 1)
  }

  predicate IsDigit(c: char) {
    '0' <= c <= '9'
  }

  predicate AllDigits(s: string) {
    forall i :: 0 <= i < |s| ==> IsDigit(s[i])
  }

  function DigitValue(c: char): (d: nat)
    requires IsDigit(c)
    ensures d < 10
  {
    c as int - '0' as int
  }

  function DigitChar(d: nat): (c: char)
    requires d < 10
    ensures IsDigit(c) && DigitValue(c) == d
  {
    (d + '0' as int) as char
  }

  /** The shortest numeral of a natural number. */
  function Numeral(n: nat): (s: string)
    ensures |s| > 0 && AllDigits(s)
  {
    if n < 10 then [DigitChar(n)] else Numeral(n / 10) + [DigitChar(n % 10)]
  }

  function Value(s: string): nat
    requires AllDigits(s)
  {
    if s == [] then 0 else 10 * Value(s[..|s| - 1]) + DigitValue(s[|s| - 1])
  }

  function Zeros(n: nat): (s: string)
    ensures |s| == n && AllDigits(s) && forall i :: 0 <= i < n ==> s[i] == '0'
  {
    if n == 0 then "" else Zeros(n - 1) + "0"
  }

  function Show(i: int): string {
    if i < 0 then "-" + Numeral(-i) else Numeral(i)
  }

  /** Reading an integer: an optional sign and at least one digit. */
  function Read(s: string): Option<int> {
    if s == "" then None
    else if s[0] == '-' then
      if |s| > 1 && AllDigits(s[1..]) then Some(0 - Value(s[1..])) else None
    else if AllDigits(s) then Some(Value(s)) else None
  }

  /** Reading a numeral gives back the number it was printed from. */
  lemma {:induction false} NumeralValue(n: nat)
    ensures Value(Numeral(n)) == n
  {
    if n < 10 {
      assert Numeral(n)[..0] == "";
    } else {
      NumeralValue(n / 10);
      assert Numeral(n)[..|Numeral(n)| - 1] == Numeral(n / 10);
    }
  }

  /** Printing an integer and reading it back loses nothing. */
  lemma ShowRead(i: int)
    ensures Read(Show(i)) == Some(i)
  {
    if i < 0 {
      NumeralValue(-i);
      assert Show(i)[1..] == Numeral(-i);
    } else {
      NumeralValue(i);
    }
  }

  lemma TimesTen(a: int, p: int)
    ensures a * (10 * p) == 10 * (a * p)
  {
  }

  /** Numerals concatenate positionally. */
  lemma {:induction false} ValueConcat(a: string, b: string)
    requires AllDigits(a) && AllDigits(b)
    ensures AllDigits(a + b) && Value(a + b) == Value(a) * Pow10(|b|) + Value(b)
  {
    if b == [] {
      assert a + b == a;
    } else {
      var n := |b| - 1;
      ValueConcat(a, b[..n]);
      assert (a + b)[..|a + b| - 1] == a + b[..n];
      TimesTen(Value(a), Pow10(n));
    }
  }

  lemma {:induction false} ZerosValue(n: nat)
    ensures Value(Zeros(n)) == 0
  {
    if n > 0 {
      ZerosValue(n - 1);
      assert Zeros(n)[..n - 1] == Zeros(n - 1);
    }
  }

  /** A number below the `k`-th power of ten has at most `k` digits (one digit for zero). */
  lemma {:induction false} NumeralLength(n: nat, k: nat)
    requires k >= 1 && n < Pow10(k)
    ensures |Numeral(n)| <= k
  {
    if n >= 10 {
      NumeralLength(n / 10, k - 1);
    }
  }
}
