/** Whole numbers in decimal, as strconv writes and reads them. */
module Decimal {

  predicate IsDigit(c: char) { '0' <= c <= '9' }

  predicate Digits(s: string) { forall i :: 0 <= i < |s| ==> IsDigit(s[i]) }

  function DigitOf(d: nat): char
    requires d < 10
  {
    ('0' as int + d) as char
  }

  /** The shortest decimal of n. */
  function Format(n: nat): (s: string)
    ensures s != [] && Digits(s) && (|s| > 1 ==> s[0] != '0')
    ensures n > 0 ==> s[0] != '0'
  {
    if n < 10 then [DigitOf(n)] else Format(n / 10) + [DigitOf(n % 10)]
  }

  /** The number a run of digits stands for. */
  function Value(s: string): nat
    requires Digits(s)
  {
    if s == [] then 0 else
      assert IsDigit(s[|s| - 1]);
      Value(s[..|s| - 1]) * 10 + (s[|s| - 1] as int - '0' as int)
  }

  lemma {:induction false} ValueOfFormat(n: nat)
    ensures Value(Format(n)) == n
  {
    var s := Format(n);
    if n >= 10 {
      ValueOfFormat(n / 10);
      assert s[..|s| - 1] == Format(n / 10);
    } else {
      assert s[..|s| - 1] == [];
    }
  }

  /** A run of digits without a needless leading zero is the decimal of its number. */
  lemma {:induction false} FormatOfValue(s: string)
    requires s != [] && Digits(s) && (|s| > 1 ==> s[0] != '0')
    ensures Format(Value(s)) == s
    ensures s[0] != '0' ==> Value(s) > 0
  {
    var front, last := s[..|s| - 1], s[|s| - 1] as int - '0' as int;
    if front == [] {
      assert Value(front) == 0;
      assert s == [DigitOf(last)];
    } else {
      FormatOfValue(front);
      assert Value(s) / 10 == Value(front) && Value(s) % 10 == last;
      assert s == front + [DigitOf(last)];
    }
  }

  lemma FormatInjective(a: nat, b: nat)
    requires Format(a) == Format(b)
    ensures a == b
  {
    ValueOfFormat(a);
    ValueOfFormat(b);
  }
}
