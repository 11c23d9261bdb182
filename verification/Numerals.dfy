/** Printing of natural numbers, as `Number.prototype.toString` does for safe integers. */
module Numerals {

  function Digit(d: nat): char
    requires d < 16
  {
    if d < 10 then '0' + d as char else 'a' + (d - 10) as char
  }

  predicate IsDigit(c: char) {
    '0' <= c <= '9' || 'a' <= c <= 'f'
  }

  function Numeral(n: nat, base: nat): string
    requires 2 <= base <= 16
  {
    if n < base then [Digit(n)] else Numeral(n / base, base) + [Digit(n % base)]
  }

  lemma DigitsDiffer(a: nat, b: nat)
    requires a < 16 && b < 16
    ensures IsDigit(Digit(a)) && (Digit(a) == Digit(b) <==> a == b)
  {
  }

  lemma {:induction false} NumeralIsDigits(n: nat, base: nat)
    requires 2 <= base <= 16
    ensures Numeral(n, base) != [] && forall k | 0 <= k < |Numeral(n, base)| :: IsDigit(Numeral(n, base)[k])
  {
    hide Digit, IsDigit;
    DigitsDiffer(n % base, 0);
    if n >= base {
      NumeralIsDigits(n / base, base);
    }
  }

  lemma SameQuotientAndRest(a: nat, b: nat, base: nat)
    requires 0 < base && a / base == b / base && a % base == b % base
    ensures a == b
  {
    assert a == a / base * base + a % base && b == b / base * base + b % base;
  }

  /** Different numbers print differently. */
  lemma {:induction false} NumeralInjective(a: nat, b: nat, base: nat)
    requires 2 <= base <= 16 && Numeral(a, base) == Numeral(b, base)
    ensures a == b
    decreases a
  {
    if a < base || b < base {
      ShortNumerals(a, b, base);
    } else {
      LastDigits(a, b, base);
      hide Numeral;
      Smaller(a, base);
      var p, q := a / base, b / base;
      NumeralInjective(p, q, base);
      SameQuotientAndRest(a, b, base);
    }
  }

  lemma Smaller(n: nat, base: nat)
    requires 2 <= base && n >= base
    ensures n / base < n
  {
    assert n == n / base * base + n % base;
  }

  lemma NumeralLengthens(n: nat, base: nat)
    requires 2 <= base <= 16
    ensures n < base ==> |Numeral(n, base)| == 1
    ensures n >= base ==> |Numeral(n, base)| > 1
  {
    if n >= base { NumeralIsDigits(n / base, base); }
    hide Digit, IsDigit;
  }

  lemma ShortNumerals(a: nat, b: nat, base: nat)
    requires 2 <= base <= 16 && Numeral(a, base) == Numeral(b, base) && (a < base || b < base)
    ensures a == b
  {
    hide Digit, IsDigit;
    NumeralLengthens(a, base);
    NumeralLengthens(b, base);
    DigitsDiffer(a, b);
  }

  lemma LastDigits(a: nat, b: nat, base: nat)
    requires 2 <= base <= 16 && Numeral(a, base) == Numeral(b, base) && a >= base && b >= base
    ensures Numeral(a / base, base) == Numeral(b / base, base) && a % base == b % base
  {
    Unfold(a, base);
    Unfold(b, base);
    hide Numeral, Digit;
    DigitsDiffer(a % base, b % base);
  }

  lemma Unfold(n: nat, base: nat)
    requires 2 <= base <= 16 && n >= base
    ensures Numeral(n, base) != [] && n % base < 16
    ensures Numeral(n, base)[..|Numeral(n, base)| - 1] == Numeral(n / base, base)
    ensures Numeral(n, base)[|Numeral(n, base)| - 1] == Digit(n % base)
  {
    hide Digit;
  }

  function Power(base: nat, k: nat): nat {
    if k == 0 then 1 else base * Power(base, k - 1)
  }

  lemma Shrinks(n: nat, base: nat, bound: nat)
    requires 0 < base && n < base * bound
    ensures n / base < bound
  {
  }

  lemma {:induction false} NumeralLength(n: nat, base: nat, k: nat)
    requires 2 <= base <= 16 && 0 < k && n < Power(base, k)
    ensures |Numeral(n, base)| <= k
    decreases k
  {
    if n < base {
      hide Power;
    } else {
      var rest := Power(base, k - 1);
      assert n < base * rest && (k == 1 ==> rest == 1);
      hide Power, Digit;
      assert k > 1;
      Shrinks(n, base, rest);
      Smaller(n, base);
      var m := n / base;
      NumeralLength(m, base, k - 1);
    }
  }

  // ---------------------------------------------------------------- reading

  function DigitValue(c: char): int {
    if c <= '9' then c as int - '0' as int else c as int - 'a' as int + 10
  }

  /** The number a numeral stands for, by place value. */
  function ValueOf(s: string, base: nat): int {
    if s == [] then 0 else ValueOf(s[..|s| - 1], base) * base + DigitValue(s[|s| - 1])
  }

  lemma DigitReads(d: nat)
    requires d < 16
    ensures DigitValue(Digit(d)) == d && (Digit(d) == '0' <==> d == 0)
  {
  }

  lemma OneDigit(n: nat, base: nat)
    requires 2 <= base <= 16 && n < base
    ensures ValueOf(Numeral(n, base), base) == n && |Numeral(n, base)| == 1
    ensures n > 0 ==> Numeral(n, base)[0] != '0'
  {
    DigitReads(n);
    var s := [Digit(n)];
    hide DigitValue, Digit;
    assert s[..|s| - 1] == [] && ValueOf([], base) == 0;
    assert ValueOf(s, base) == 0 * base + DigitValue(s[0]);
  }

  lemma MoreDigits(n: nat, base: nat)
    requires 2 <= base <= 16 && n >= base
    ensures ValueOf(Numeral(n, base), base) == ValueOf(Numeral(n / base, base), base) * base + n % base
    ensures Numeral(n / base, base) != [] ==> Numeral(n, base)[0] == Numeral(n / base, base)[0]
  {
    Unfold(n, base);
    DigitReads(n % base);
    hide Numeral, Digit, DigitValue;
  }

  lemma Recompose(n: nat, base: nat)
    requires 0 < base <= n
    ensures n / base * base + n % base == n && n / base > 0
  {
  }

  /** A numeral stands for the number it was made of, and has no zeros in front. */
  lemma {:induction false} NumeralReads(n: nat, base: nat)
    requires 2 <= base <= 16
    ensures ValueOf(Numeral(n, base), base) == n && Numeral(n, base) != []
    ensures n > 0 ==> Numeral(n, base)[0] != '0'
  {
    if n < base {
      OneDigit(n, base);
    } else {
      hide Numeral, ValueOf;
      Smaller(n, base);
      var m := n / base;
      NumeralReads(m, base);
      MoreDigits(n, base);
      NumeralIsDigits(n, base);
      Recompose(n, base);
    }
  }
}
