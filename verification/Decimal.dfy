/** strconv.FormatUint and strconv.ParseUint in base ten. */
module Decimal {
  import opened Basics

  predicate IsDigit(c: char) { '0' <= c <= '9' }

  predicate AllDigits(s: string) { forall i :: 0 <= i < |s| ==> IsDigit(s[i]) }

  function DigitChar(d: nat): (c: char)
    requires d < 10
    ensures IsDigit(c) && DigitValue(c) == d
  {
    '0' + (d as char)
  }

  function DigitValue(c: char): (d: nat)
    requires IsDigit(c)
    ensures d < 10
  {
    (c - '0') as int
  }

  /** Shortest decimal text of n. */
  function Format(n: nat): (s: string)
    ensures s != "" && AllDigits(s)
    ensures s[0] == '0' <==> n == 0
    ensures Value(s) == n
  {
    if n < 10 then [DigitChar(n)] else
      var s := Format(n / 10) + [DigitChar(n % 10)];
      assert s[..|s| - 1] == Format(n / 10);
      s
  }

  /** Place value of a digit string. */
  function Value(s: string): (n: nat)
    requires AllDigits(s)
  {
    if s == "" then 0 else 10 * Value(s[..|s| - 1]) + DigitValue(s[|s| - 1])
  }

  /** ParseUint(s, 10, 64): nonempty, digits only, in range. */
  function ParseUint(s: string): Option<uint64>
  {
    if s == "" || !AllDigits(s) || Value(s) >= U64 then None else Some(Value(s))
  }

  lemma FormatInjective(a: nat, b: nat)
    requires Format(a) == Format(b)
    ensures a == b
  {
    assert Value(Format(a)) == a;
  }

  /** The only texts that the canonical-form check `FormatUint(n) == s` accepts. */
  lemma {:induction false} FormatOfValue(s: string)
    requires s != "" && AllDigits(s)
    ensures Format(Value(s)) == s <==> (|s| == 1 || s[0] != '0')
  {
    if |s| == 1 {
      assert Value(s[..0]) == 0;
      assert s == [DigitChar(Value(s))];
    } else if s[0] != '0' {
      FormatOfPositive(s);
    } else {
      assert |Format(0)| == 1;
    }
  }

  lemma {:induction false} FormatOfPositive(s: string)
    requires s != "" && AllDigits(s) && s[0] != '0'
    ensures Format(Value(s)) == s && Value(s) > 0
  {
    var last := s[|s| - 1];
    if |s| == 1 {
      assert Value(s[..0]) == 0;
      assert s == [DigitChar(Value(s))];
    } else {
      var init := s[..|s| - 1];
      FormatOfPositive(init);
      assert Value(s) == 10 * Value(init) + DigitValue(last);
      assert s == init + [last];
    }
  }
}
