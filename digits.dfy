/** Decimal digit strings: Python's `"%0.6d" % n`, which writes `n` with at
    least six digits, padding on the left with zeros. `ZeroPad` agrees with
    it for the numbers below 10^6, whose digits all fit in the width. */
module Digits {

  function Pow10(k: nat): (p: nat)
    ensures p >= 1
  {
    if k == 0 then 1 else 10 * Pow10(k - 1)
  }

  predicate IsDigit(c: char)
  {
    '0' <= c <= '9'
  }

  predicate AllDigits(s: string)
  {
    forall i :: 0 <= i < |s| ==> IsDigit(s[i])
  }

  function DigitChar(d: nat): (c: char)
    requires d < 10
    ensures IsDigit(c) && c as int - '0' as int == d
  {
    ('0' as int + d) as char
  }

  /** The value written by a string of decimal digits, most significant first. */
  function DecimalValue(s: string): nat
    requires AllDigits(s)
  {
    if s == [] then 0
    else 10 * DecimalValue(s[..|s| - 1]) + (s[|s| - 1] as int - '0' as int)
  }

  /** The last `width` decimal digits of `n`, padded on the left with zeros:
      the whole of `n` in `width` digits when `n` is below 10^width. */
  function ZeroPad(n: nat, width: nat): (s: string)
    ensures |s| == width
    ensures AllDigits(s)
  {
    if width == 0 then [] else ZeroPad(n / 10, width - 1) + [DigitChar(n % 10)]
  }

  /** A number below 10^width, padded to `width` digits, reads back as itself. */
  lemma {:induction false} ZeroPadRoundTrip(n: nat, width: nat)
    requires n < Pow10(width)
    ensures DecimalValue(ZeroPad(n, width)) == n
  {
    if width > 0 {
      var s := ZeroPad(n, width);
      assert s[..|s| - 1] == ZeroPad(n / 10, width - 1);
      assert n / 10 < Pow10(width - 1);
      ZeroPadRoundTrip(n / 10, width - 1);
    }
  }

  /** The converse: every digit string is the padding of the number it writes,
      so a padded string of fixed width determines the number and vice versa. */
  lemma {:induction false} PaddedDecimalValue(s: string)
    requires AllDigits(s)
    ensures DecimalValue(s) < Pow10(|s|)
    ensures ZeroPad(DecimalValue(s), |s|) == s
  {
    if s != [] {
      var init := s[..|s| - 1];
      assert AllDigits(init);
      PaddedDecimalValue(init);
      var d := s[|s| - 1] as int - '0' as int;
      var v := DecimalValue(s);
      assert v == 10 * DecimalValue(init) + d;
      assert v / 10 == DecimalValue(init) && v % 10 == d;
      assert DigitChar(d) == s[|s| - 1];
      assert s == init + [s[|s| - 1]];
    }
  }

  /** Distinct numbers below 10^width have distinct paddings. */
  lemma ZeroPadInjective(n: nat, m: nat, width: nat)
    requires n < Pow10(width) && m < Pow10(width)
    ensures ZeroPad(n, width) == ZeroPad(m, width) ==> n == m
  {
    ZeroPadRoundTrip(n, width);
    ZeroPadRoundTrip(m, width);
  }
}
