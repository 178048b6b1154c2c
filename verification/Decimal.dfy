/** Decimal numerals, printed and read back. */
module Decimal {
  predicate IsDigit(c: char) { '0' <= c <= '9' }

  predicate AllDigits(s: string)
  {
    forall k :: 0 <= k < |s| ==> IsDigit(s[k])
  }

  predicate Numeral(s: string) { s != "" && AllDigits(s) }

  function DigitValue(c: char): nat
    requires IsDigit(c)
  {
    c as int - '0' as int
  }

  function DigitChar(d: nat): (c: char)
    requires d < 10
    ensures IsDigit(c) && DigitValue(c) == d
  {
    ('0' as int + d) as char
  }

  function Value(s: string): nat
    requires AllDigits(s)
  {
    if s == "" then 0 else 10 * Value(s[..|s| - 1]) + DigitValue(s[|s| - 1])
  }

  function Print(n: nat): (s: string)
    ensures Numeral(s)
  {
    if n < 10 then [DigitChar(n)] else Print(n / 10) + [DigitChar(n % 10)]
  }

  lemma {:induction false} ValueOfPrint(n: nat)
    ensures Value(Print(n)) == n
  {
    if n < 10 {
      assert Print(n)[..0] == "";
    } else {
      ValueOfPrint(n / 10);
      assert Print(n)[..|Print(n)| - 1] == Print(n / 10);
    }
  }

  /** For instance. */
  lemma DecimalExample(s: string)
    requires s == "2070"
    ensures Numeral(s) && Value(s) == 2070 && Print(2070) == s
  {
    assert s[..3] == "207" && s[..3][..2] == "20" && s[..3][..2][..1] == "2" && s[..3][..2][..1][..0] == "";
    assert Value("2") == 2 && Value("20") == 20 && Value("207") == 207;
    PrintTwo(20);
  }

  lemma PrintTwo(n: nat)
    requires n == 20
    ensures Print(n) == "20" && Print(10 * n + 7) == "207" && Print(100 * n + 70) == "2070"
  {
  }

  // ----- reading from the front of a string -----

  // How many digits s starts with.
  function DigitRun(s: string): (n: nat)
    ensures n <= |s| && AllDigits(s[..n])
    ensures n < |s| ==> !IsDigit(s[n])
  {
    if s == "" || !IsDigit(s[0]) then 0
    else
      var rest := DigitRun(s[1..]);
      assert s[..rest + 1] == [s[0]] + s[1..][..rest];
      rest + 1
  }

  lemma {:induction false} DigitRunConcat(digits: string, rest: string)
    requires AllDigits(digits) && (rest == "" || !IsDigit(rest[0]))
    ensures DigitRun(digits + rest) == |digits|
    ensures (digits + rest)[..|digits|] == digits && (digits + rest)[|digits|..] == rest
  {
    if digits == "" {
      assert digits + rest == rest;
    } else {
      assert (digits + rest)[1..] == digits[1..] + rest;
      DigitRunConcat(digits[1..], rest);
    }
  }
}
