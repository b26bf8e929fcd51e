/** Decimal text of integers: what `std::to_string` / `operator<<` print for an
    integer, and what `std::from_chars` reads back from a run of digits. */
module Decimal {

  predicate IsDigit(c: char) { '0' <= c <= '9' }

  predicate IsDigits(s: string) { forall i :: 0 <= i < |s| ==> IsDigit(s[i]) }

  /** Canonical digit text: no leading zero unless the text is "0". */
  predicate IsCanonical(s: string) { IsDigits(s) && |s| > 0 && (s[0] != '0' || |s| == 1) }

  function DigitValue(c: char): (d: nat)
    requires IsDigit(c)
    ensures d < 10
  {
    (c as int) - ('0' as int)
  }

  function DigitChar(d: nat): (c: char)
    requires d < 10
    ensures IsDigit(c) && DigitValue(c) == d
  {
    (('0' as int) + d) as char
  }

  /** The number a run of decimal digits denotes (most significant first). */
  function Value(s: string): nat
    requires IsDigits(s)
    decreases |s|
  {
    if s == [] then 0 else Value(s[..|s| - 1]) * 10 + DigitValue(s[|s| - 1])
  }

  /** Decimal text of a natural number. */
  function Text(n: nat): (s: string)
    ensures IsCanonical(s)
  {
    if n < 10 then [DigitChar(n)] else Text(n / 10) + [DigitChar(n % 10)]
  }

  /** Decimal text of an integer, with a leading '-' when negative. */
  function IntText(i: int): (s: string)
    ensures |s| > 0
    ensures i >= 0 ==> s == Text(i)
    ensures i < 0 ==> s[0] == '-' && s[1..] == Text(-i)
  {
    if i < 0 then "-" + Text(-i) else Text(i)
  }

  /** Reading back the printed text of n gives n. */
  lemma {:induction false} ValueOfText(n: nat)
    ensures Value(Text(n)) == n
  {
    if n >= 10 {
      var t := Text(n / 10) + [DigitChar(n % 10)];
      assert t[..|t| - 1] == Text(n / 10);
      ValueOfText(n / 10);
    }
  }

  lemma {:induction false} LeadingNonZeroIsPositive(s: string)
    requires IsDigits(s) && |s| > 0 && s[0] != '0'
    ensures Value(s) >= 1
  {
    if |s| > 1 {
      LeadingNonZeroIsPositive(s[..|s| - 1]);
    }
  }

  /** Printing the number denoted by canonical digit text gives the text back. */
  lemma {:induction false} TextOfValue(s: string)
    requires IsCanonical(s)
    ensures Text(Value(s)) == s
  {
    if |s| > 1 {
      var init := s[..|s| - 1];
      LeadingNonZeroIsPositive(init);
      TextOfValue(init);
      assert init + [s[|s| - 1]] == s;
    }
  }
}
