/**
 * Text helpers shared by the model: Python's `'%d' % n` formatting of an
 * integer, its inverse, and a substring predicate used to state what error
 * texts carry.
 */
module Tr069Text {

  predicate IsDigit(c: char) {
    '0' <= c <= '9'
  }

  predicate AllDigits(s: string) {
    forall k :: 0 <= k < |s| ==> IsDigit(s[k])
  }

  function DigitChar(d: int): (c: char)
    requires 0 <= d < 10
    ensures IsDigit(c)
    ensures DigitValue(c) == d
  {
    (('0' as int) + d) as char
  }

  function DigitValue(c: char): int {
    (c as int) - ('0' as int)
  }

  /** Decimal digits without a leading zero, except for "0" itself: the texts `'%d'` gives for n >= 0. */
  predicate Canonical(s: string) {
    1 <= |s| && AllDigits(s) && (s[0] == '0' ==> |s| == 1)
  }

  /** The decimal text of a natural number, without leading zeros (`'%d' % n` for n >= 0). */
  function FormatNat(n: nat): (s: string)
    ensures Canonical(s)
    ensures s[0] == '0' <==> n == 0
    ensures n < 10 <==> |s| == 1
    decreases n
  {
    if n < 10 then [DigitChar(n)] else FormatNat(n / 10) + [DigitChar(n % 10)]
  }

  /** Python's `'%d' % n`: a minus sign followed by the digits of |n| for negative n. */
  function FormatInt(n: int): (s: string)
    ensures 1 <= |s|
    ensures n < 0 <==> s[0] == '-'
    ensures n < 0 ==> Canonical(s[1..]) && s[1] != '0'
    ensures n >= 0 ==> Canonical(s)
  {
    if n < 0 then "-" + FormatNat(-n) else FormatNat(n)
  }

  /** Reads a string of decimal digits back as the number it denotes. */
  function ParseNat(s: string): nat
    requires AllDigits(s)
  {
    if s == [] then 0 else ParseNat(s[..|s| - 1]) * 10 + DigitValue(s[|s| - 1])
  }

  function ParseInt(s: string): int
    requires s != []
    requires s[0] == '-' ==> AllDigits(s[1..])
    requires s[0] != '-' ==> AllDigits(s)
  {
    var magnitude: int := if s[0] == '-' then ParseNat(s[1..]) else ParseNat(s);
    if s[0] == '-' then -magnitude else magnitude
  }

  /** Reading back the formatted digits gives the number: the text determines n. */
  lemma {:induction false} ParseFormatNat(n: nat)
    ensures ParseNat(FormatNat(n)) == n
  {
    if n >= 10 {
      var s := FormatNat(n);
      assert s[..|s| - 1] == FormatNat(n / 10);
      ParseFormatNat(n / 10);
    }
  }

  lemma {:induction false} ParseFormatInt(n: int)
    ensures ParseInt(FormatInt(n)) == n
  {
    if n < 0 {
      var digits := FormatNat(-n);
      assert FormatInt(n) == "-" + digits;
      assert ("-" + digits)[1..] == digits;
      ParseFormatNat(-n);
    } else {
      ParseFormatNat(n);
    }
  }

  /** A canonical digit string with a non-zero first digit denotes a positive number. */
  lemma {:induction false} ParseLeadingNonZero(s: string)
    requires AllDigits(s) && 1 <= |s| && s[0] != '0'
    ensures ParseNat(s) >= 1
  {
    if |s| > 1 {
      ParseLeadingNonZero(s[..|s| - 1]);
    }
  }

  /** Formatting the number a canonical text denotes gives that text back: `'%d'` has no other spelling. */
  lemma {:induction false} FormatParseNat(s: string)
    requires Canonical(s)
    ensures FormatNat(ParseNat(s)) == s
  {
    var init := s[..|s| - 1];
    var d := DigitValue(s[|s| - 1]);
    if |s| > 1 {
      assert Canonical(init);
      ParseLeadingNonZero(init);
      FormatParseNat(init);
      var n := ParseNat(s);
      assert n == ParseNat(init) * 10 + d;
      assert n / 10 == ParseNat(init) && n % 10 == d;
      assert DigitChar(d) == s[|s| - 1];
      assert s == init + [s[|s| - 1]];
    } else {
      assert DigitChar(d) == s[0];
    }
  }

  /** Distinct numbers are formatted as distinct texts. */
  lemma FormatIntInjective(a: int, b: int)
    requires a != b
    ensures FormatInt(a) != FormatInt(b)
  {
    ParseFormatInt(a);
    ParseFormatInt(b);
  }

  /** `sub` occurs somewhere inside `s`. */
  predicate Contains(s: string, sub: string) {
    exists i :: 0 <= i <= |s| && sub <= s[i..]
  }

  /** A text built as prefix + middle + suffix contains the middle part. */
  lemma ContainsMiddle(prefix: string, middle: string, suffix: string)
    ensures Contains(prefix + middle + suffix, middle)
  {
    var s := prefix + middle + suffix;
    assert s[|prefix|..] == middle + suffix;
  }
}
