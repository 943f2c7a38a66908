/** Facts about cutting a string at a separator, and decimal printing. */
module Strings {

  /** A cut at the last separator is unique, whatever stands before it. */
  lemma CutAtLast(x: string, b: string, y: string, d: string, sep: char)
    requires sep !in b && sep !in d
    requires x + [sep] + b == y + [sep] + d
    ensures x == y && b == d
  {
    var s := x + [sep] + b;
    assert s[|x|] == sep && s[|y|] == sep;
    assert forall i | |x| < i < |s| :: s[i] == b[i - |x| - 1] && s[i] in b;
    assert forall i | |y| < i < |s| :: s[i] == d[i - |y| - 1] && s[i] in d;
    assert x == s[..|x|] && y == s[..|y|];
    assert b == s[|x| + 1..] && d == s[|y| + 1..];
  }

  lemma SuffixCancels(p: string, x: string, y: string)
    requires p + x == p + y
    ensures x == y
  {
    assert x == (p + x)[|p|..] && y == (p + y)[|p|..];
  }

  function Digit(d: nat): char
    requires d < 10
  {
    '0' + d as char
  }

  /** `str(n)` for a non-negative integer. */
  function Decimal(n: nat): (s: string)
    ensures |s| > 0
    ensures forall c | c in s :: '0' <= c <= '9'
  {
    if n < 10 then [Digit(n)] else Decimal(n / 10) + [Digit(n % 10)]
  }

  function Value(s: string): int {
    if s == "" then 0
    else Value(s[..|s| - 1]) * 10 + (s[|s| - 1] as int - '0' as int)
  }

  lemma {:induction false} ValueOfDecimal(n: nat)
    ensures Value(Decimal(n)) == n
  {
    var s := Decimal(n);
    if n >= 10 {
      ValueOfDecimal(n / 10);
      assert s[..|s| - 1] == Decimal(n / 10);
    } else {
      assert s[..|s| - 1] == "";
    }
  }

  lemma DecimalInjective(m: nat, n: nat)
    requires Decimal(m) == Decimal(n)
    ensures m == n
  {
    ValueOfDecimal(m);
    ValueOfDecimal(n);
  }
}
