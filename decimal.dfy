/**
 * Decimal rendering of revision counters (`to_string()` and `format!("{}")`
 * on an unsigned integer), together with a parser that inverts it.
 */
module Decimal {
  import opened Wrappers

  predicate IsDigit(c: char) {
    '0' <= c <= '9'
  }

  predicate AllDigits(s: string) {
    forall i :: 0 <= i < |s| ==> IsDigit(s[i])
  }

  function DigitChar(d: nat): (c: char)
    requires d < 10
    ensures IsDigit(c) && c as int - '0' as int == d
  {
    ('0' as int + d) as char
  }

  /** The decimal form of `n`: most significant digit first, no leading zeros. */
  function Show(n: nat): (s: string)
    ensures |s| >= 1 && AllDigits(s)
    ensures |s| > 1 ==> s[0] != '0'
    decreases n
  {
    if n < 10 then [DigitChar(n)] else Show(n / 10) + [DigitChar(n % 10)]
  }

  /** The number a non-empty string of digits denotes. */
  function DigitsValue(s: string): (n: nat)
    requires AllDigits(s)
    decreases |s|
  {
    if s == [] then 0
    else DigitsValue(s[..|s| - 1]) * 10 + (s[|s| - 1] as int - '0' as int)
  }

  /** Reads a decimal number; `None` for the empty string or a non-digit. */
  function Parse(s: string): (r: Option<nat>) {
    if s != [] && AllDigits(s) then Some(DigitsValue(s)) else None
  }

  /** Parsing what `Show` printed gives the number back. */
  lemma {:induction false} ParseShow(n: nat)
    ensures Parse(Show(n)) == Some(n)
    decreases n
  {
    if n >= 10 {
      ParseShow(n / 10);
      var s := Show(n);
      assert s[..|s| - 1] == Show(n / 10);
      assert DigitsValue(s) == DigitsValue(Show(n / 10)) * 10 + n % 10;
    } else {
      assert DigitsValue(Show(n)) == DigitsValue([]) * 10 + n;
    }
  }

  /** Two different revisions never render to the same token. */
  lemma ShowInjective(m: nat, n: nat)
    ensures Show(m) == Show(n) <==> m == n
  {
    ParseShow(m);
    ParseShow(n);
  }
}
