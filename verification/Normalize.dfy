/** Cell normalisation: which raw cells count as equal when two tables are compared. */
module Normalize {
  import opened Text
  import opened Decimal

  // ----- Integer-valued decimals such as "+7", "-12.00" -----

  predicate IsSign(c: char) { c == '+' || c == '-' }

  predicate AllZeros(s: string) { forall i :: 0 <= i < |s| ==> s[i] == '0' }

  function SignLength(s: string): nat {
    if s != "" && IsSign(s[0]) then 1 else 0
  }

  /** How many digits `s` starts with. */
  function DigitRun(s: string): (n: nat)
    ensures n <= |s| && (forall i :: 0 <= i < n ==> IsDigit(s[i])) && (n < |s| ==> !IsDigit(s[n]))
  {
    if s != "" && IsDigit(s[0]) then 1 + DigitRun(s[1..]) else 0
  }

  /** The digits before the point. */
  function WholePart(s: string): (d: string)
    ensures AllDigits(d)
  {
    var r := s[SignLength(s)..];
    r[..DigitRun(r)]
  }

  /** What follows the digits before the point. */
  function AfterWhole(s: string): string {
    var r := s[SignLength(s)..];
    r[DigitRun(r)..]
  }

  /** The scanner's answer. */
  predicate IntegerFloat(s: string) {
    WholePart(s) != "" && var f := AfterWhole(s); |f| >= 2 && f[0] == '.' && AllZeros(f[1..])
  }

  /** The shape the scanner is meant to accept: [+-]? digits . zeros */
  ghost predicate Shaped(s: string, sign: string, whole: string, zeros: string) {
    && (sign == "" || (|sign| == 1 && IsSign(sign[0])))
    && whole != "" && AllDigits(whole)
    && zeros != "" && AllZeros(zeros)
    && s == sign + whole + "." + zeros
  }

  lemma DigitRunIs(r: string, n: nat)
    requires n <= |r| && (forall i :: 0 <= i < n ==> IsDigit(r[i])) && (n < |r| ==> !IsDigit(r[n]))
    ensures DigitRun(r) == n
  {
  }

  /** Where the digits end decides both parts. */
  lemma Parts(s: string, end: nat)
    requires SignLength(s) <= end <= |s|
    requires forall k :: SignLength(s) <= k < end ==> IsDigit(s[k])
    requires end < |s| ==> !IsDigit(s[end])
    ensures WholePart(s) == s[SignLength(s)..end] && AfterWhole(s) == s[end..]
  {
    DigitRunIs(s[SignLength(s)..], end - SignLength(s));
  }

  /** The scanner accepts exactly that shape, and no string has it in two ways. */
  lemma ScannerAcceptsExactlyTheShape(s: string)
    ensures IntegerFloat(s) <==> exists sign, whole, zeros :: Shaped(s, sign, whole, zeros)
    ensures forall sign, whole, zeros :: Shaped(s, sign, whole, zeros) ==>
      sign == s[..SignLength(s)] && whole == WholePart(s)
  {
    if IntegerFloat(s) {
      var f := AfterWhole(s);
      var r := s[SignLength(s)..];
      assert r == WholePart(s) + f && f == "." + f[1..];
      assert Shaped(s, s[..SignLength(s)], WholePart(s), f[1..]);
    }
    forall sign, whole, zeros | Shaped(s, sign, whole, zeros)
      ensures IntegerFloat(s) && sign == s[..SignLength(s)] && whole == WholePart(s)
    {
      ShapeIsAccepted(s, sign, whole, zeros);
    }
  }

  /** The integer is that of the digits before the point, with the sign. */
  lemma ShapeDenotes(s: string, sign: string, whole: string, zeros: string)
    requires Shaped(s, sign, whole, zeros)
    ensures IntegerValue(s) == if sign == "-" then 0 - Value(whole) else Value(whole)
  {
    ShapeIsAccepted(s, sign, whole, zeros);
    assert s[0] == if sign == "" then whole[0] else sign[0];
  }

  lemma ShapeIsAccepted(s: string, sign: string, whole: string, zeros: string)
    requires Shaped(s, sign, whole, zeros)
    ensures IntegerFloat(s) && sign == s[..SignLength(s)] && whole == WholePart(s)
  {
    var end := |sign| + |whole|;
    assert s[0] == if sign == "" then whole[0] else sign[0];
    assert s[|sign|..end] == whole && s[end..] == "." + zeros;
    forall k | |sign| <= k < end
      ensures IsDigit(s[k])
    {
      assert s[k] == whole[k - |sign|];
    }
    Parts(s, end);
  }

  /** The scanner as the program runs it: one pass with an index and two counters. */
  method LooksLikeIntegerFloatString(s: string) returns (ok: bool)
    ensures ok <==> IntegerFloat(s)
  {
    if s == "" {
      return false;
    }
    var i := 0;
    if s[0] == '+' || s[0] == '-' {
      i := i + 1;
      if i >= |s| {
        Parts(s, i);
        return false;
      }
    }
    ghost var start := i;
    var digits := 0;
    while i < |s| && '0' <= s[i] <= '9'
      invariant start <= i <= |s| && digits == i - start
      invariant forall k :: start <= k < i ==> IsDigit(s[k])
    {
      i := i + 1;
      digits := digits + 1;
    }
    Parts(s, i);
    if digits == 0 {
      return false;
    }
    if i == |s| {
      return false;
    }
    if s[i] != '.' {
      return false;
    }
    i := i + 1;
    ghost var tail := i;
    var zeros := 0;
    while i < |s| && s[i] == '0'
      invariant tail <= i <= |s| && zeros == i - tail
      invariant forall k :: tail <= k < i ==> s[k] == '0'
    {
      i := i + 1;
      zeros := zeros + 1;
    }
    assert s[tail - 1..][1..] == s[tail..];
    assert i < |s| ==> s[tail..][i - tail] == s[i];
    return zeros > 0 && i == |s|;
  }

  // ----- The normal form of a cell -----

  /** Beyond this size an integer-valued decimal is left alone. */
  const LIMIT: int := 9_000_000_000_000_000

  /** The integer that such a string denotes; below 2^53 strconv.ParseFloat returns it exactly. */
  function IntegerValue(s: string): int {
    var n: int := Value(WholePart(s));
    if s != "" && s[0] == '-' then -n else n
  }

  /** strings.ToLower on the letters that the three missing-value words are made of. */
  function Lower(s: string): string {
    seq(|s|, i requires 0 <= i < |s| => if 'A' <= s[i] <= 'Z' then s[i] - 'A' + 'a' else s[i])
  }

  predicate MissingWord(s: string) {
    var l := Lower(s);
    l == "nan" || l == "nat" || l == "none"
  }

  function NormalizeTrimmed(s: string): string {
    if s == "" || MissingWord(s) then ""
    else if IntegerFloat(s) && -LIMIT <= IntegerValue(s) <= LIMIT then FormatInt(IntegerValue(s))
    else s
  }

  function NormalizeScalar(v: string): string {
    NormalizeTrimmed(TrimSpace(v))
  }

  lemma NumeralEnds(i: int)
    ensures var s := FormatInt(i);
      s != "" && (IsDigit(s[0]) || s[0] == '-') && IsDigit(s[|s| - 1])
  {
    var s := FormatInt(i);
    var d := Digits(if i < 0 then -i else i);
    assert s == s[..SignLength(s)] + d;
    assert s[|s| - 1] == d[|d| - 1] && (s[0] == '-' || s[0] == d[0]);
  }

  lemma NumeralHasNoPoint(i: int)
    ensures !IntegerFloat(FormatInt(i)) && !MissingWord(FormatInt(i))
  {
    var s := FormatInt(i);
    NumeralEnds(i);
    assert Lower(s)[0] == s[0];
    assert s == s[..SignLength(s)] + Digits(if i < 0 then -i else i);
    Parts(s, |s|);
  }

  /** A numeral is trimmed, is no missing-value word, and has no point: it is its own normal form. */
  lemma NumeralIsNormal(i: int)
    ensures FormatInt(i) != "" && Trimmed(FormatInt(i)) && NormalizeTrimmed(FormatInt(i)) == FormatInt(i)
  {
    NumeralEnds(i);
    NumeralHasNoPoint(i);
  }

  lemma NormalFormIsNormal(s: string)
    requires Trimmed(s)
    ensures Trimmed(NormalizeTrimmed(s)) && NormalizeTrimmed(NormalizeTrimmed(s)) == NormalizeTrimmed(s)
  {
    if s != "" && !MissingWord(s) && IntegerFloat(s) {
      NumeralIsNormal(IntegerValue(s));
    }
  }

  /** Normalising twice is normalising once. */
  lemma NormalizeIdempotent(v: string)
    ensures NormalizeScalar(NormalizeScalar(v)) == NormalizeScalar(v)
  {
    TrimSpaceIsTrimmed(v);
    NormalFormIsNormal(TrimSpace(v));
    TrimmedIsFixed(NormalizeScalar(v));
  }

  /** A word that counts as missing is no integer-valued decimal. */
  lemma MissingIsNoNumber(s: string)
    requires MissingWord(s)
    ensures !IntegerFloat(s)
  {
    assert s[0] == 'n' || s[0] == 'N' by {
      assert Lower(s)[0] == 'n';
    }
    assert WholePart(s) == "" by {
      DigitRunIs(s, 0);
    }
  }

  /** Integer-valued decimals get the canonical numeral of their integer, so two of them are equal
      exactly when their integers are. */
  lemma IntegerFloatsAreCanonical(v: string, w: string)
    requires IntegerFloat(TrimSpace(v)) && -LIMIT <= IntegerValue(TrimSpace(v)) <= LIMIT
    requires IntegerFloat(TrimSpace(w)) && -LIMIT <= IntegerValue(TrimSpace(w)) <= LIMIT
    ensures NormalizeScalar(v) == FormatInt(IntegerValue(TrimSpace(v)))
    ensures NormalizeScalar(v) == NormalizeScalar(w) <==> IntegerValue(TrimSpace(v)) == IntegerValue(TrimSpace(w))
  {
    var a, b := TrimSpace(v), TrimSpace(w);
    if MissingWord(a) {
      MissingIsNoNumber(a);
    }
    if MissingWord(b) {
      MissingIsNoNumber(b);
    }
    if NormalizeScalar(v) == NormalizeScalar(w) {
      FormatIntInjective(IntegerValue(a), IntegerValue(b));
    }
  }

  lemma EmptyIff(s: string)
    ensures NormalizeTrimmed(s) == "" <==> s == "" || MissingWord(s)
  {
    if s != "" && !MissingWord(s) && IntegerFloat(s) {
      NumeralIsNormal(IntegerValue(s));
    }
  }

  /** The cells that count as empty: blank ones and the three words for a missing value. */
  lemma EmptyNormalIff(v: string)
    ensures NormalizeScalar(v) == "" <==> Blank(v) || MissingWord(TrimSpace(v))
  {
    BlankIffTrimmedAway(v);
    EmptyIff(TrimSpace(v));
  }

  /** Plain digit strings keep their leading zeros. */
  lemma PlainDigitsUnchanged(s: string)
    requires s != "" && AllDigits(s)
    ensures NormalizeScalar(s) == s
  {
    assert IsDigit(s[0]) && IsDigit(s[|s| - 1]);
    TrimmedIsFixed(s);
    assert Lower(s)[0] == s[0];
    assert s[..|s|] == s[SignLength(s)..] == s;
    DigitRunIs(s, |s|);
  }

  /** A cell that is blank has the normal form of an empty cell. */
  lemma BlankNormalizes(v: string)
    requires Blank(v)
    ensures NormalizeScalar(v) == ""
  {
    BlankIffTrimmedAway(v);
  }

  // ----- What the normal form is, cell by cell -----

  /** The words for a missing value, in upper and lower case letters alike. */
  lemma MissingWordsAre(s: string)
    ensures MissingWord(s) <==>
      || (|s| == 3 && s[0] in "nN" && s[1] in "aA" && s[2] in "nNtT")
      || (|s| == 4 && s[0] in "nN" && s[1] in "oO" && s[2] in "nN" && s[3] in "eE")
  {
    var l := Lower(s);
    if |s| == 3 {
      assert l == [l[0], l[1], l[2]];
    } else if |s| == 4 {
      assert l == [l[0], l[1], l[2], l[3]];
    }
  }

  /** A blank cell, or one that says that the value is missing. */
  predicate CountsAsEmpty(v: string) {
    Blank(v) || MissingWord(TrimSpace(v))
  }

  /** The text is a decimal such as "+7.0" of a size that is still converted. */
  predicate Converted(t: string) {
    IntegerFloat(t) && -9_000_000_000_000_000 <= IntegerValue(t) <= 9_000_000_000_000_000
  }

  /** Every other text stays as it is but for the white space around it. */
  lemma PlainTextUnchanged(v: string)
    requires !CountsAsEmpty(v) && !Converted(TrimSpace(v))
    ensures NormalizeScalar(v) == TrimSpace(v)
  {
    BlankIffTrimmedAway(v);
  }

  lemma ConvertedToNumeral(v: string)
    requires Converted(TrimSpace(v))
    ensures !CountsAsEmpty(v) && NormalizeScalar(v) == FormatInt(IntegerValue(TrimSpace(v)))
  {
    BlankIffTrimmedAway(v);
    if MissingWord(TrimSpace(v)) {
      MissingIsNoNumber(TrimSpace(v));
    }
  }

  /** The text is the numeral of `n`, or a decimal that is converted to it. */
  predicate Denotes(t: string, n: int) {
    t == FormatInt(n) || (Converted(t) && IntegerValue(t) == n)
  }

  lemma DenotesIs(v: string, n: int)
    requires Denotes(TrimSpace(v), n)
    ensures !CountsAsEmpty(v) && NormalizeScalar(v) == FormatInt(n)
  {
    if Converted(TrimSpace(v)) && IntegerValue(TrimSpace(v)) == n {
      ConvertedToNumeral(v);
    } else {
      NumeralIsNormal(n);
      NumeralHasNoPoint(n);
      BlankIffTrimmedAway(v);
    }
  }

  /** Two cells are equal exactly if both are empty, or have the same text but for white space around it, or
      denote the same integer. */
  lemma EqualCellsIff(v: string, w: string)
    ensures NormalizeScalar(v) == NormalizeScalar(w) <==>
      || (CountsAsEmpty(v) && CountsAsEmpty(w))
      || (!CountsAsEmpty(v) && !CountsAsEmpty(w) && TrimSpace(v) == TrimSpace(w))
      || (exists n :: Denotes(TrimSpace(v), n) && Denotes(TrimSpace(w), n))
  {
    EmptyNormalIff(v);
    EmptyNormalIff(w);
    if n :| Denotes(TrimSpace(v), n) && Denotes(TrimSpace(w), n) {
      DenotesIs(v, n);
      DenotesIs(w, n);
    } else if NormalizeScalar(v) == NormalizeScalar(w) && !CountsAsEmpty(v) {
      EqualTexts(v, w);
    }
  }

  lemma EqualTexts(v: string, w: string)
    requires !CountsAsEmpty(v) && !CountsAsEmpty(w) && NormalizeScalar(v) == NormalizeScalar(w)
    ensures TrimSpace(v) == TrimSpace(w) || exists n :: Denotes(TrimSpace(v), n) && Denotes(TrimSpace(w), n)
  {
    if Converted(TrimSpace(v)) {
      ConvertedToNumeral(v);
      SameNumeral(v, w, IntegerValue(TrimSpace(v)));
    } else if Converted(TrimSpace(w)) {
      ConvertedToNumeral(w);
      SameNumeral(w, v, IntegerValue(TrimSpace(w)));
    } else {
      PlainTextUnchanged(v);
      PlainTextUnchanged(w);
    }
  }

  lemma SameNumeral(v: string, w: string, n: int)
    requires Denotes(TrimSpace(v), n) && !CountsAsEmpty(w) && NormalizeScalar(w) == FormatInt(n)
    ensures Denotes(TrimSpace(w), n)
  {
    if Converted(TrimSpace(w)) {
      ConvertedToNumeral(w);
      FormatIntInjective(IntegerValue(TrimSpace(w)), n);
    } else {
      PlainTextUnchanged(w);
    }
  }
}
