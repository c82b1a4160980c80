/** Decimal numerals in keys and references, and why texts built from them can be taken apart. */
module Decimal {

  function Digit(d: nat): char
    requires d < 10
  {
    '0' + d as char
  }

  function Numeral(n: nat): (s: string)
    ensures forall c :: c in s ==> '0' <= c <= '9'
    ensures s != [] && (|s| == 1 <==> n < 10)
  {
    if n < 10 then [Digit(n)] else Numeral(n / 10) + [Digit(n % 10)]
  }

  lemma {:induction false} NumeralsDiffer(m: nat, n: nat)
    requires Numeral(m) == Numeral(n)
    ensures m == n
  {
    if m < 10 && n < 10 {
      assert Numeral(m)[0] == Numeral(n)[0];
    } else {
      assert Numeral(m)[..|Numeral(m)| - 1] == Numeral(m / 10);
      assert Numeral(n)[..|Numeral(n)| - 1] == Numeral(n / 10);
      assert Numeral(m)[|Numeral(m)| - 1] == Numeral(n)[|Numeral(n)| - 1];
      NumeralsDiffer(m / 10, n / 10);
    }
  }

  /** Where a mark first stands, or the length of a text without it. */
  function Before(s: string, mark: char): nat {
    if s == [] || s[0] == mark then 0 else 1 + Before(s[1..], mark)
  }

  lemma {:induction false} BeforeTheMark(a: string, x: string, mark: char)
    requires mark !in a
    ensures Before(a + [mark] + x, mark) == |a|
  {
    if a != [] {
      assert (a + [mark] + x)[1..] == a[1..] + [mark] + x;
      BeforeTheMark(a[1..], x, mark);
    }
  }

  /** A separator that neither head contains splits a text in one way only. */
  lemma SplitIsUnique(a: string, x: string, b: string, y: string, mark: char)
    requires a + [mark] + x == b + [mark] + y
    requires mark !in a && mark !in b
    ensures a == b && x == y
  {
    var whole := a + [mark] + x;
    BeforeTheMark(a, x, mark);
    BeforeTheMark(b, y, mark);
    assert a == whole[..|a|] && b == whole[..|b|];
    assert x == whole[|a| + 1..] && y == whole[|b| + 1..];
  }
}
