/** Decimal numerals, and reading a text back from its last separator. */
module Text {

  function Digit(d: nat): char
    requires d < 10
  {
    '0' + d as char
  }

  /** `n` in decimal, with no leading zero. */
  function Decimal(n: nat): (s: string)
    ensures |s| > 0 && forall i :: 0 <= i < |s| ==> '0' <= s[i] <= '9'
  {
    if n < 10 then [Digit(n)] else Decimal(n / 10) + [Digit(n % 10)]
  }

  lemma {:induction false} DecimalIsInjective(m: nat, n: nat)
    requires Decimal(m) == Decimal(n)
    ensures m == n
  {
    var s := Decimal(m);
    assert s[|s| - 1] == Digit(m % 10) == Digit(n % 10);
    assert m % 10 == n % 10;
    if m >= 10 && n >= 10 {
      assert Decimal(m / 10) == s[..|s| - 1] == Decimal(n / 10);
      DecimalIsInjective(m / 10, n / 10);
    }
  }

  predicate Free(s: string, c: char) {
    forall i :: 0 <= i < |s| ==> s[i] != c
  }

  /** The last separator of a text is the one before its free tail. */
  lemma LastAt(s: string, head: string, tail: string, c: char)
    requires Free(tail, c) && s == head + [c] + tail
    ensures |head| < |s| && s[|head|] == c && forall i :: |head| < i < |s| ==> s[i] != c
    ensures s[..|head|] == head && s[|head| + 1..] == tail
  {
  }

  /** Where neither tail contains the separator, equal texts split alike. */
  lemma LastSeparator(a: string, b: string, x: string, y: string, c: char)
    requires Free(x, c) && Free(y, c)
    requires a + [c] + x == b + [c] + y
    ensures a == b && x == y
  {
    LastAt(a + [c] + x, a, x, c);
    LastAt(a + [c] + x, b, y, c);
    assert |a| == |b|;
  }
}
