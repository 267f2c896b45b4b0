/** Decimal numerals, as the programs print numbers inside ids. */
module Decimal {

  const DIGITS := "0123456789"

  function Numeral(n: nat): (s: string)
    ensures s != ""
  {
    if n < 10 then [DIGITS[n]] else Numeral(n / 10) + [DIGITS[n % 10]]
  }

  predicate IsDigit(c: char) { c in DIGITS }

  lemma {:induction false} NumeralDigits(n: nat)
    ensures forall c :: c in Numeral(n) ==> IsDigit(c)
  {
    if n >= 10 { NumeralDigits(n / 10); }
  }

  lemma DigitsDiffer(a: nat, b: nat)
    requires a < 10 && b < 10 && DIGITS[a] == DIGITS[b]
    ensures a == b
  {
  }

  /** Different numbers have different numerals. */
  lemma {:induction false} NumeralInjective(m: nat, n: nat)
    requires Numeral(m) == Numeral(n)
    ensures m == n
    decreases m
  {
    var x, y := Numeral(m), Numeral(n);
    DigitsDiffer(m % 10, n % 10) by {
      assert x[|x| - 1] == DIGITS[m % 10] && y[|y| - 1] == DIGITS[n % 10];
    }
    if m < 10 || n < 10 {
      assert |x| == 1;
    } else {
      assert x[..|x| - 1] == Numeral(m / 10) && y[..|y| - 1] == Numeral(n / 10);
      NumeralInjective(m / 10, n / 10);
    }
  }

  lemma LastBefore(p: string, x: string, q: string, y: string)
    requires p != "" && p + x == q + y && |x| < |y|
    ensures p[|p| - 1] in y
  {
    var s := p + x;
    var at := |s| - |x| - 1;
    assert s[at] == p[|p| - 1];
    assert (q + y)[at] == y[|y| - |x| - 1];
  }

  lemma NotShorter(p: string, x: string, q: string, y: string)
    requires p != "" && !IsDigit(p[|p| - 1]) && p + x == q + y
    requires forall c :: c in y ==> IsDigit(c)
    ensures |y| <= |x|
  {
    if |x| < |y| {
      LastBefore(p, x, q, y);
    }
  }

  /** A numeral at the end of a string is recovered when what comes before it ends in a non-digit. */
  lemma SuffixInjective(p: string, m: nat, q: string, n: nat)
    requires p != "" && q != "" && !IsDigit(p[|p| - 1]) && !IsDigit(q[|q| - 1])
    requires p + Numeral(m) == q + Numeral(n)
    ensures p == q && m == n
  {
    var s, x, y := p + Numeral(m), Numeral(m), Numeral(n);
    NumeralDigits(m);
    NumeralDigits(n);
    NotShorter(p, x, q, y);
    NotShorter(q, y, p, x);
    assert s[..|p|] == p && (q + y)[..|q|] == q;
    assert s[|p|..] == x && (q + y)[|q|..] == y;
    NumeralInjective(m, n);
  }

  lemma NotLonger(a: string, x: string, b: string, y: string)
    requires x != "" && !IsDigit(x[0]) && a + x == b + y
    requires forall c :: c in b ==> IsDigit(c)
    ensures |b| <= |a|
  {
    assert (a + x)[|a|] == x[0];
  }

  /** A numeral in front of a string that does not go on with a digit is recovered too. */
  lemma PrefixInjective(m: nat, x: string, n: nat, y: string)
    requires x != "" && y != "" && !IsDigit(x[0]) && !IsDigit(y[0])
    requires Numeral(m) + x == Numeral(n) + y
    ensures m == n && x == y
  {
    NumeralDigits(m);
    NumeralDigits(n);
    var s, a, b := Numeral(m) + x, Numeral(m), Numeral(n);
    NotLonger(a, x, b, y);
    NotLonger(b, y, a, x);
    assert s[..|a|] == a && (b + y)[..|a|] == b;
    assert s[|a|..] == x && (b + y)[|a|..] == y;
    NumeralInjective(m, n);
  }
}
