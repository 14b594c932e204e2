/** Decimal numerals and separators: the small facts about texts that make composed keys
    and printed records unambiguous.
 */
module Text {

  function Digit(d: nat): char
    requires d < 10
  {
    "0123456789"[d]
  }

  predicate IsDigit(c: char) {
    '0' <= c <= '9'
  }

  function DigitValue(c: char): (d: nat)
    requires IsDigit(c)
    ensures d < 10 && Digit(d) == c
  {
    (c as int) - ('0' as int)
  }

  function Decimal(n: nat): (s: string)
    ensures |s| > 0 && forall i :: 0 <= i < |s| ==> IsDigit(s[i])
  {
    if n < 10 then [Digit(n)] else Decimal(n / 10) + [Digit(n % 10)]
  }

  predicate Numeral(s: string) {
    forall i :: 0 <= i < |s| ==> IsDigit(s[i])
  }

  // What the digits of a numeral spell.
  function ValueOf(s: string): nat
    requires Numeral(s)
  {
    if s == "" then 0 else 10 * ValueOf(s[..|s| - 1]) + DigitValue(s[|s| - 1])
  }

  lemma {:induction false} ValueOfDecimal(n: nat)
    ensures ValueOf(Decimal(n)) == n
  {
    if n >= 10 {
      var s := Decimal(n);
      assert s[..|s| - 1] == Decimal(n / 10);
      ValueOfDecimal(n / 10);
    } else {
      assert ValueOf(Decimal(n)[..0]) == 0;
    }
  }

  lemma DecimalInjective(m: nat, n: nat)
    requires Decimal(m) == Decimal(n)
    ensures m == n
  {
    ValueOfDecimal(m);
    ValueOfDecimal(n);
  }

  function Integer(n: int): (s: string)
    ensures '\n' !in s && s != "" && (s[0] == '-' <==> n < 0)
  {
    if n < 0 then "-" + Decimal(-n) else Decimal(n)
  }

  lemma IntegerInjective(m: int, n: int)
    requires Integer(m) == Integer(n)
    ensures m == n
  {
    if m < 0 && n < 0 {
      assert Decimal(-m) == Integer(m)[1..] && Decimal(-n) == Integer(n)[1..];
      DecimalInjective(-m, -n);
    } else {
      DecimalInjective(m, n);
    }
  }

  /** Two texts joined by a separator that the right part never contains split uniquely. */
  lemma {:induction false} LastSeparatorUnique(a: string, x: string, b: string, y: string, c: char)
    requires a + [c] + x == b + [c] + y
    requires c !in x && c !in y
    ensures a == b && x == y
  {
    var s := a + [c] + x;
    assert s[|a|] == c && forall k :: |a| < k < |s| ==> s[k] == x[k - |a| - 1];
    assert s[|b|] == c && forall k :: |b| < k < |s| ==> s[k] == y[k - |b| - 1];
    assert |a| == |b|;
    assert a == s[..|a|] && b == s[..|b|];
    assert x == s[|a| + 1..] && y == s[|b| + 1..];
  }

  /** The same, read from the left: the separator is the first one. */
  lemma {:induction false} FirstSeparatorUnique(a: string, x: string, b: string, y: string, c: char)
    requires a + [c] + x == b + [c] + y
    requires c !in a && c !in b
    ensures a == b && x == y
  {
    var s := a + [c] + x;
    assert s[|a|] == c && forall k :: 0 <= k < |a| ==> s[k] == a[k];
    assert s[|b|] == c && forall k :: 0 <= k < |b| ==> s[k] == b[k];
    assert |a| == |b|;
    assert a == s[..|a|] && b == s[..|b|];
    assert x == s[|a| + 1..] && y == s[|b| + 1..];
  }
}
