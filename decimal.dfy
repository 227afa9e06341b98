/** The text Rust's `{}` prints for an unsigned integer (the `<line>` field of
    the XML rendering), and its inverse. */
module Decimal {

  predicate IsDigit(c: char) {
    '0' <= c <= '9'
  }

  predicate AllDigits(s: string) {
    forall i :: 0 <= i < |s| ==> IsDigit(s[i])
  }

  /** A digit string as `{}` prints it: non-empty, and no leading zero unless it is "0". */
  predicate Canonical(s: string) {
    |s| >= 1 && AllDigits(s) && (s[0] == '0' ==> s == "0")
  }

  function DigitChar(d: nat): (c: char)
    requires d < 10
    ensures IsDigit(c) && DigitValue(c) == d
  {
    (d + '0' as int) as char
  }

  function DigitValue(c: char): (d: nat)
    requires IsDigit(c)
    ensures d < 10
  {
    c as int - '0' as int
  }

  /** Decimal text of `n`, most significant digit first, no sign and no padding. */
  function Show(n: nat): (s: string)
    ensures Canonical(s)
    ensures n < 10 <==> |s| == 1
    decreases n
  {
    if n < 10 then [DigitChar(n)] else Show(n / 10) + [DigitChar(n % 10)]
  }

  /** Value of a digit string. */
  function Parse(s: string): (n: nat)
    requires AllDigits(s)
    decreases |s|
  {
    if s == [] then 0 else Parse(s[..|s| - 1]) * 10 + DigitValue(s[|s| - 1])
  }

  /** Reading back what `Show` prints gives the number. */
  lemma {:induction false} ParseShow(n: nat)
    ensures Parse(Show(n)) == n
    decreases n
  {
    if n >= 10 {
      var s := Show(n);
      assert s[..|s| - 1] == Show(n / 10);
      ParseShow(n / 10);
    }
  }

  /** A digit string that does not start with '0' denotes a positive number. */
  lemma {:induction false} ParsePositive(s: string)
    requires |s| >= 1 && AllDigits(s) && s[0] != '0'
    ensures Parse(s) >= 1
    decreases |s|
  {
    if |s| > 1 {
      ParsePositive(s[..|s| - 1]);
    }
  }

  /** Every canonical digit string is what `Show` prints for its value. */
  lemma {:induction false} ShowParse(s: string)
    requires Canonical(s)
    ensures Show(Parse(s)) == s
    decreases |s|
  {
    if |s| > 1 {
      var p := s[..|s| - 1];
      assert p[0] == s[0];
      ParsePositive(p);
      ShowParse(p);
      assert s == p + [s[|s| - 1]];
    }
  }
}
