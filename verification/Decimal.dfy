/** Decimal numerals, as strconv.Itoa and strconv.FormatInt print them. */
module Decimal {

  predicate IsDigit(c: char) { '0' <= c <= '9' }

  predicate AllDigits(s: string) { forall i :: 0 <= i < |s| ==> IsDigit(s[i]) }

  function DigitChar(d: nat): (c: char)
    requires d < 10
    ensures IsDigit(c)
  {
    '0' + d as char
  }

  function DigitValue(c: char): nat
    requires IsDigit(c)
  {
    (c - '0') as nat
  }

  /** The numeral of a natural number. */
  function Digits(n: nat): (s: string)
    ensures s != "" && AllDigits(s)
  {
    if n < 10 then [DigitChar(n)] else Digits(n / 10) + [DigitChar(n % 10)]
  }

  /** The value of a string of digits; leading zeros do not matter. */
  function Value(s: string): nat
    requires AllDigits(s)
  {
    if s == "" then 0 else 10 * Value(s[..|s| - 1]) + DigitValue(s[|s| - 1])
  }

  lemma {:induction false} ValueOfDigits(n: nat)
    ensures Value(Digits(n)) == n
  {
    var s := Digits(n);
    if n < 10 {
      assert s[..|s| - 1] == "";
    } else {
      ValueOfDigits(n / 10);
      assert s[..|s| - 1] == Digits(n / 10);
    }
  }

  /** Numerals are written with the ten digits, the most significant one first. */
  lemma NumeralsAre(n: nat, d: nat)
    requires d < 10
    ensures Digits(d) == ["0123456789"[d]]
    ensures n > 0 ==> Digits(10 * n + d) == Digits(n) + ["0123456789"[d]]
  {
    assert DigitChar(d) == "0123456789"[d];
  }

  /** Zeros in front do not change the value. */
  lemma {:induction false} LeadingZero(s: string)
    requires AllDigits(s)
    ensures Value("0" + s) == Value(s)
  {
    var t := "0" + s;
    if s != "" {
      LeadingZero(s[..|s| - 1]);
      assert t[..|t| - 1] == "0" + s[..|s| - 1];
    } else {
      assert t[..0] == "";
    }
  }

  /** The numeral of an integer. */
  function FormatInt(i: int): string {
    if i < 0 then "-" + Digits(-i) else Digits(i)
  }

  /** A negative numeral is a minus sign and the numeral of the opposite. */
  lemma SignedNumerals(n: nat, i: int)
    ensures FormatInt(n) == Digits(n)
    ensures n > 0 && n + i == 0 ==> FormatInt(i) == "-" + Digits(n)
  {
  }

  /** Numerals of different integers differ. */
  lemma FormatIntInjective(i: int, j: int)
    requires FormatInt(i) == FormatInt(j)
    ensures i == j
  {
    assert i < 0 <==> FormatInt(i)[0] == '-';
    assert j < 0 <==> FormatInt(j)[0] == '-';
    if i < 0 {
      assert Digits(-i) == FormatInt(i)[1..] == FormatInt(j)[1..] == Digits(-j);
      ValueOfDigits(-i);
      ValueOfDigits(-j);
    } else {
      ValueOfDigits(i);
      ValueOfDigits(j);
    }
  }

  /** A separator that is no digit splits name and number uniquely, so "name" sep "number" determines both. */
  lemma SuffixInjective(a: string, b: string, sep: char, m: nat, n: nat)
    requires !IsDigit(sep)
    requires a + [sep] + Digits(m) == b + [sep] + Digits(n)
    ensures a == b && m == n
  {
    var s := a + [sep] + Digits(m);
    LastSeparator(a, sep, Digits(m));
    LastSeparator(b, sep, Digits(n));
    assert |a| == |b|;
    assert a == s[..|a|] == b;
    assert Digits(m) == s[|a| + 1..] == Digits(n);
    ValueOfDigits(m);
    ValueOfDigits(n);
  }

  lemma LastSeparator(a: string, sep: char, d: string)
    requires !IsDigit(sep) && AllDigits(d)
    ensures var s := a + [sep] + d;
      s[|a|] == sep && forall k :: |a| < k < |s| ==> s[k] != sep
  {
    var s := a + [sep] + d;
    forall k | |a| < k < |s|
      ensures s[k] != sep
    {
      assert s[k] == d[k - |a| - 1];
    }
  }
}
