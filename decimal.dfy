/**
 * Decimal text as Python renders it: `str(n)` for a natural number,
 * the zero-padded fields of `str(date)`, and the order `<` on `str`.
 */
module Decimal {

  function Pow10(width: nat): (p: nat)
    ensures p >= 1
  {
    if width == 0 then 1 else 10 * Pow10(width - 1)
  }

  /** The character of one decimal digit. */
  function DigitChar(k: nat): (c: char)
    requires k < 10
    ensures '0' <= c <= '9'
  {
    (48 + k) as char
  }

  /** `n` written in exactly `width` digits, padded on the left with zeros ("%0*d"). */
  function Digits(n: nat, width: nat): (s: string)
    requires n < Pow10(width)
    ensures |s| == width
  {
    if width == 0 then []
    else Digits(n / 10, width - 1) + [DigitChar(n % 10)]
  }

  /** Python's `str(n)` for a natural number: no leading zeros. */
  function NatToString(n: nat): (s: string)
    ensures 1 <= |s|
    ensures |s| == 1 <==> n < 10
  {
    if n < 10 then [DigitChar(n)]
    else NatToString(n / 10) + [DigitChar(n % 10)]
  }

  /** Python's `a < b` on `str`: lexicographic by code point, a proper prefix first. */
  predicate LexLess(a: string, b: string)
  {
    if |a| == 0 then |b| != 0
    else if |b| == 0 then false
    else if a[0] != b[0] then a[0] < b[0]
    else LexLess(a[1..], b[1..])
  }

  /** Distinct numbers are printed as distinct strings. */
  lemma {:induction false} NatToStringInjective(a: nat, b: nat)
    ensures NatToString(a) == NatToString(b) ==> a == b
  {
    if NatToString(a) == NatToString(b) {
      var s := NatToString(a);
      if a >= 10 && b >= 10 {
        assert NatToString(a / 10) == s[..|s| - 1] == NatToString(b / 10);
        NatToStringInjective(a / 10, b / 10);
        assert DigitChar(a % 10) == s[|s| - 1] == DigitChar(b % 10);
      } else {
        assert s == [DigitChar(a)] == [DigitChar(b)];
      }
    }
  }

  /** Comparing two concatenations whose first parts have equal length. */
  lemma {:induction false} LexLessConcat(x: string, y: string, u: string, v: string)
    requires |x| == |y|
    ensures LexLess(x + u, y + v) <==> LexLess(x, y) || (x == y && LexLess(u, v))
  {
    if |x| == 0 {
      assert x + u == u && y + v == v && x == y;
    } else {
      assert (x + u)[0] == x[0] && (y + v)[0] == y[0];
      assert (x + u)[1..] == x[1..] + u && (y + v)[1..] == y[1..] + v;
      if x[0] == y[0] {
        LexLessConcat(x[1..], y[1..], u, v);
        assert x == y <==> x[1..] == y[1..] by {
          if x[1..] == y[1..] { assert x == [x[0]] + x[1..] && y == [y[0]] + y[1..]; }
        }
      }
    }
  }

  /** For zero-padded numbers of one width, string order is numeric order. */
  lemma {:induction false} DigitsOrder(m: nat, n: nat, width: nat)
    requires m < Pow10(width) && n < Pow10(width)
    ensures LexLess(Digits(m, width), Digits(n, width)) <==> m < n
    ensures Digits(m, width) == Digits(n, width) <==> m == n
  {
    if width == 0 {
      assert m == 0 && n == 0;
    } else {
      var hm, hn := Digits(m / 10, width - 1), Digits(n / 10, width - 1);
      var cm, cn := DigitChar(m % 10), DigitChar(n % 10);
      DigitsOrder(m / 10, n / 10, width - 1);
      LexLessConcat(hm, hn, [cm], [cn]);
      assert LexLess([cm], [cn]) <==> m % 10 < n % 10 by {
        assert [cm][1..] == [] && [cn][1..] == [];
      }
      assert hm + [cm] == hn + [cn] <==> hm == hn && cm == cn by {
        if hm + [cm] == hn + [cn] {
          assert hm == (hm + [cm])[..width - 1] && hn == (hn + [cn])[..width - 1];
          assert cm == (hm + [cm])[width - 1] && cn == (hn + [cn])[width - 1];
        }
      }
      assert m == 10 * (m / 10) + m % 10 && n == 10 * (n / 10) + n % 10;
    }
  }
}
