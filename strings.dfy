/** The string side of the trend chart: JavaScript's decimal rendering of a
    number (`${n}`), `padStart(2, '0')`, and the order `localeCompare` puts
    the chart's sort keys in. The keys hold only ASCII digits and '-', and on
    those characters the collation agrees with comparing code points one by
    one, a shorter prefix first; `StrLe` is that order. */
module Strings {

  function Digit(d: nat): (c: char)
    requires d < 10
    ensures '0' <= c <= '9'
  {
    (48 + d) as char
  }

  /** `${n}` for a non-negative integer: decimal digits, no leading zero. */
  function NatToString(n: nat): (r: string)
    ensures 1 <= |r|
    ensures forall i :: 0 <= i < |r| ==> '0' <= r[i] <= '9'
    ensures n < 10 <==> |r| == 1
  {
    if n < 10 then [Digit(n)] else NatToString(n / 10) + [Digit(n % 10)]
  }

  /** `${i}` for any integer: a minus sign in front of a negative value. */
  function IntToString(i: int): (r: string)
    ensures 1 <= |r|
    ensures i < 0 <==> r[0] == '-'
  {
    if i < 0 then "-" + NatToString(-i) else NatToString(i)
  }

  /** `s.padStart(2, '0')`. */
  function PadStart2(s: string): (r: string)
    ensures |r| == if |s| < 2 then 2 else |s|
    ensures r[|r| - |s|..] == s
    ensures forall i :: 0 <= i < |r| - |s| ==> r[i] == '0'
  {
    if |s| == 0 then "00" else if |s| == 1 then "0" + s else s
  }

  /** Lexicographic order by code point; a proper prefix comes first. */
  predicate StrLe(a: string, b: string)
    ensures a <= b ==> StrLe(a, b)
    ensures StrLe(a, b) && a != [] ==> b != [] && a[0] <= b[0]
    ensures a != [] && b != [] && a[0] < b[0] ==> StrLe(a, b)
  {
    a == [] || (b != [] && (a[0] < b[0] || (a[0] == b[0] && StrLe(a[1..], b[1..]))))
  }

  lemma {:induction false} StrLeTotal(a: string, b: string)
    ensures StrLe(a, b) || StrLe(b, a)
  {
    if a != [] && b != [] && a[0] == b[0] {
      StrLeTotal(a[1..], b[1..]);
    }
  }

  lemma {:induction false} StrLeTransitive(a: string, b: string, c: string)
    requires StrLe(a, b) && StrLe(b, c)
    ensures StrLe(a, c)
  {
    if a != [] && b != [] && c != [] && a[0] == b[0] && b[0] == c[0] {
      StrLeTransitive(a[1..], b[1..], c[1..]);
    }
  }

  lemma {:induction false} StrLeAntisymmetric(a: string, b: string)
    requires StrLe(a, b) && StrLe(b, a)
    ensures a == b
  {
    if a != [] && b != [] {
      StrLeAntisymmetric(a[1..], b[1..]);
      assert a == [a[0]] + a[1..];
      assert b == [b[0]] + b[1..];
    }
  }

  /** A shared prefix does not change the order. */
  lemma {:induction false} StrLeCommonPrefix(p: string, a: string, b: string)
    ensures StrLe(p + a, p + b) <==> StrLe(a, b)
  {
    if p != [] {
      assert (p + a)[1..] == p[1..] + a;
      assert (p + b)[1..] == p[1..] + b;
      StrLeCommonPrefix(p[1..], a, b);
    } else {
      assert p + a == a && p + b == b;
    }
  }

  /** A number below 100, padded to two digits, is its tens and units digit. */
  lemma TwoDigits(n: nat)
    requires n < 100
    ensures PadStart2(NatToString(n)) == [Digit(n / 10), Digit(n % 10)]
  {
    if n >= 10 {
      assert NatToString(n / 10) == [Digit(n / 10)];
    }
  }

  lemma StrLeTwoChars(c1: char, c0: char, d1: char, d0: char)
    ensures StrLe([c1, c0], [d1, d0]) <==> c1 < d1 || (c1 == d1 && c0 <= d0)
  {
    assert [c1, c0][1..] == [c0] && [d1, d0][1..] == [d0];
    assert [c0][1..] == [] && [d0][1..] == [];
    assert StrLe([], []);
    assert StrLe([c0], [d0]) <==> c0 <= d0;
  }

  lemma PlaceValueOrder(n1: nat, n0: nat, m1: nat, m0: nat)
    requires n0 < 10 && m0 < 10
    ensures 10 * n1 + n0 <= 10 * m1 + m0 <==> n1 < m1 || (n1 == m1 && n0 <= m0)
  {
  }

  /** Zero-padding to two digits makes string order agree with numeric
      order for every number below 100, so hours, days of the month and
      month indexes sort numerically. */
  lemma PaddedOrderIsNumeric(n: nat, m: nat)
    requires n < 100 && m < 100
    ensures StrLe(PadStart2(NatToString(n)), PadStart2(NatToString(m))) <==> n <= m
  {
    TwoDigits(n);
    TwoDigits(m);
    var n1, n0, m1, m0 := n / 10, n % 10, m / 10, m % 10;
    StrLeTwoChars(Digit(n1), Digit(n0), Digit(m1), Digit(m0));
    PlaceValueOrder(n1, n0, m1, m0);
  }
}
