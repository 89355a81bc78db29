/**
 * Conversion of an amount to text, as Java does when a `double` is
 * concatenated to a string (`"$" + finalAmount`, `percentage + "% Discount"`).
 *
 * Amounts are exact reals here, so the rendering is plain decimal notation:
 * an optional minus sign, the integer part without leading zeros, a point,
 * and the fraction digits (at least one, "0" for a whole number), truncated
 * after MaxFractionDigits digits.
 */
module Format {

  /** Fraction digits kept when rendering an amount. */
  const MaxFractionDigits: nat := 16

  predicate IsDigit(c: char) {
    '0' <= c <= '9'
  }

  predicate AllDigits(s: string) {
    forall i :: 0 <= i < |s| ==> IsDigit(s[i])
  }

  /** The character of decimal digit d. */
  function DigitChar(d: int): (c: char)
    requires 0 <= d <= 9
    ensures IsDigit(c) && c as int - '0' as int == d
  {
    (48 + d) as char
  }

  /** The decimal digits of n, most significant first, without leading zeros. */
  function NatDigits(n: nat): (s: string)
    ensures 1 <= |s| && AllDigits(s)
    ensures s[0] == '0' <==> n == 0
    ensures |s| == 1 <==> n < 10
  {
    if n < 10 then [DigitChar(n)] else NatDigits(n / 10) + [DigitChar(n % 10)]
  }

  /** The number a string of decimal digits denotes (the inverse of NatDigits). */
  function DigitsValue(s: string): nat
    requires AllDigits(s)
  {
    if s == [] then 0
    else DigitsValue(s[..|s| - 1]) * 10 + (s[|s| - 1] as int - '0' as int)
  }

  /** NatDigits loses nothing: reading its digits back gives n. */
  lemma {:induction false} DigitsRoundTrip(n: nat)
    ensures DigitsValue(NatDigits(n)) == n
  {
    var s := NatDigits(n);
    if n >= 10 {
      DigitsRoundTrip(n / 10);
      assert s[..|s| - 1] == NatDigits(n / 10);
    }
  }

  /** Up to k decimal digits of a fraction in [0, 1), truncated, with no trailing run after the value is exhausted. */
  function FractionDigits(f: real, k: nat): (s: string)
    requires 0.0 <= f < 1.0
    ensures |s| <= k && AllDigits(s)
    ensures f == 0.0 ==> s == []
    decreases k
  {
    if k == 0 || f == 0.0 then []
    else
      var scaled := f * 10.0;
      var d := scaled.Floor;
      [DigitChar(d)] + FractionDigits(scaled - d as real, k - 1)
  }

  /** The digits after the point of a non-negative amount: "0" when there is no fraction. */
  function FractionText(x: real): (s: string)
    requires x >= 0.0
    ensures 1 <= |s| && AllDigits(s)
  {
    var fraction := FractionDigits(x - x.Floor as real, MaxFractionDigits);
    if fraction == [] then "0" else fraction
  }

  /** Rendering of a non-negative amount. */
  function Unsigned(x: real): (s: string)
    requires x >= 0.0
  {
    var whole: nat := x.Floor;
    NatDigits(whole) + "." + FractionText(x)
  }

  /** Text of an amount, the counterpart of Java's string conversion of a double. */
  function Fmt(r: real): (s: string)
    ensures 3 <= |s|
    ensures s[0] == '-' <==> r < 0.0
    ensures s[0] == '-' || IsDigit(s[0])
  {
    if r < 0.0 then "-" + Unsigned(-r) else Unsigned(r)
  }

  /** If u + x == u + y then x == y. */
  lemma CancelPrefix(u: string, x: string, y: string)
    requires u + x == u + y
    ensures x == y
  {
    assert x == (u + x)[|u|..];
    assert y == (u + y)[|u|..];
  }

  /** If u + x + v == u + y + v then x == y. */
  lemma CancelAround(u: string, x: string, y: string, v: string)
    requires u + x + v == u + y + v
    ensures x == y
  {
    assert |x| == |y|;
    assert x == (u + x + v)[|u|..|u| + |x|];
    assert y == (u + y + v)[|u|..|u| + |y|];
  }

  /** If x + v == y + v then x == y. */
  lemma CancelSuffix(x: string, y: string, v: string)
    requires x + v == y + v
    ensures x == y
  {
    assert x == (x + v)[..|x|];
    assert y == (y + v)[..|y|];
  }

  /** A whole, non-negative amount is rendered as its digits followed by ".0". */
  lemma WholeAmount(n: nat)
    ensures Fmt(n as real) == NatDigits(n) + ".0"
  {
    assert (n as real).Floor == n;
  }

  /** Whether the decimal expansion of the fraction f in [0, 1) ends within k digits. */
  predicate ExpansionEnds(f: real, k: nat)
    requires 0.0 <= f < 1.0
    decreases k
  {
    f == 0.0 || (k > 0 && ExpansionEnds(f * 10.0 - (f * 10.0).Floor as real, k - 1))
  }

  /** The amounts Fmt renders exactly: those with at most MaxFractionDigits decimal places. */
  predicate ShortDecimal(r: real) {
    var m := if r < 0.0 then -r else r;
    ExpansionEnds(m - m.Floor as real, MaxFractionDigits)
  }

  /** The number a string of fraction digits denotes: the digits after a decimal point. */
  function FractionValue(s: string): real
    requires AllDigits(s)
  {
    if s == [] then 0.0
    else ((s[0] as int - '0' as int) as real + FractionValue(s[1..])) / 10.0
  }

  /**
   * When the expansion of f ends within k digits, the k fraction digits of f
   * give back f: nothing is lost by the truncation.
   */
  lemma {:induction false} FractionRoundTrip(f: real, k: nat)
    requires 0.0 <= f < 1.0 && ExpansionEnds(f, k)
    ensures FractionValue(FractionDigits(f, k)) == f
    decreases k
  {
    if f != 0.0 {
      var scaled := f * 10.0;
      var d := scaled.Floor;
      var rest := scaled - d as real;
      FractionRoundTrip(rest, k - 1);
      var s := FractionDigits(f, k);
      assert s == [DigitChar(d)] + FractionDigits(rest, k - 1);
      assert s[1..] == FractionDigits(rest, k - 1);
    }
  }

  /** Two digit strings joined by a point split back into the same two parts. */
  lemma SplitAtPoint(d1: string, t1: string, d2: string, t2: string)
    requires AllDigits(d1) && AllDigits(d2)
    requires d1 + "." + t1 == d2 + "." + t2
    ensures d1 == d2 && t1 == t2
  {
    var s := d1 + "." + t1;
    assert s[|d1|] == '.';
    assert s[|d2|] == '.' by { assert s == d2 + "." + t2; }
    if |d1| < |d2| {
      assert false;
    } else if |d2| < |d1| {
      assert false;
    }
    assert d1 == s[..|d1|];
    assert d2 == s[..|d2|];
    assert t1 == s[|d1| + 1..];
  }

  /** The text after the point denotes the fraction of a short non-negative amount. */
  lemma FractionTextValue(x: real)
    requires 0.0 <= x && ShortDecimal(x)
    ensures FractionValue(FractionText(x)) == x - x.Floor as real
  {
    FractionRoundTrip(x - x.Floor as real, MaxFractionDigits);
    assert FractionValue("0") == 0.0;
  }

  /** Non-negative short amounts with the same text are equal. */
  lemma UnsignedInjective(x: real, y: real)
    requires 0.0 <= x && 0.0 <= y && ShortDecimal(x) && ShortDecimal(y)
    requires Unsigned(x) == Unsigned(y)
    ensures x == y
  {
    var wx: nat, wy: nat := x.Floor, y.Floor;
    SplitAtPoint(NatDigits(wx), FractionText(x), NatDigits(wy), FractionText(y));
    DigitsRoundTrip(wx);
    DigitsRoundTrip(wy);
    FractionTextValue(x);
    FractionTextValue(y);
  }

  /** A negative amount is rendered as a minus sign before the text of its magnitude, which is short when it is. */
  lemma NegativeAmount(a: real)
    requires a < 0.0
    ensures Fmt(a) == "-" + Unsigned(-a)
    ensures ShortDecimal(a) <==> ShortDecimal(-a)
  {
  }

  /**
   * Fmt loses nothing on the amounts it renders exactly: two amounts with at
   * most MaxFractionDigits decimal places have the same text exactly when
   * they are equal.
   */
  lemma FmtInjective(a: real, b: real)
    requires ShortDecimal(a) && ShortDecimal(b)
    ensures Fmt(a) == Fmt(b) <==> a == b
  {
    if Fmt(a) == Fmt(b) {
      if a < 0.0 {
        assert b < 0.0;
        NegativeAmount(a);
        NegativeAmount(b);
        assert Unsigned(-a) == Fmt(a)[1..];
        UnsignedInjective(-a, -b);
      } else {
        assert 0.0 <= b;
        UnsignedInjective(a, b);
      }
    }
  }

  /** Every whole amount is short. */
  lemma WholeShort(n: int)
    ensures ShortDecimal(n as real)
  {
    var m := if n < 0 then -n else n;
    assert (m as real).Floor == m;
  }
}
