/**
 * Money arithmetic on exact decimal values. `x.toFixed(2)` rounds to the
 * nearest cent with ties going away from zero (it picks the larger of two
 * equally near integers after taking the sign off), and
 * `Number(x.toFixed(2))` reads that rendering back, which is `Round2`.
 */
module Money {
  import opened Text

  /** The cent count `x.toFixed(2)` rounds to, signed. */
  function Cents(x: real): (c: int)
    ensures -0.5 <= c as real - x * 100.0 <= 0.5
    ensures x >= 0.0 ==> c >= 0
    ensures x <= 0.0 ==> c <= 0
  {
    if x >= 0.0 then (x * 100.0 + 0.5).Floor else -((-x * 100.0 + 0.5).Floor)
  }

  /** `Number(x.toFixed(2))`. */
  function Round2(x: real): (r: real)
    ensures -0.005 <= r - x <= 0.005
    ensures x >= 0.0 ==> r >= 0.0
  {
    Cents(x) as real / 100.0
  }

  /** A whole number of cents is left as it is. */
  lemma Round2OfCents(c: int)
    ensures Cents(c as real / 100.0) == c
    ensures Round2(c as real / 100.0) == c as real / 100.0
  {
    var x := c as real / 100.0;
    assert x * 100.0 == c as real;
    if c >= 0 {
      assert (x * 100.0 + 0.5).Floor == c;
    } else {
      assert -x * 100.0 == (-c) as real;
      assert (-x * 100.0 + 0.5).Floor == -c;
    }
  }

  /** Rounding an already rounded value changes nothing. */
  lemma Round2Idempotent(x: real)
    ensures Round2(Round2(x)) == Round2(x)
  {
    Round2OfCents(Cents(x));
  }

  /** Rounding keeps the order of its arguments. */
  lemma Round2Monotone(x: real, y: real)
    requires x <= y
    ensures Round2(x) <= Round2(y)
  {
    if x >= 0.0 {
      assert (x * 100.0 + 0.5).Floor <= (y * 100.0 + 0.5).Floor;
    } else if y < 0.0 {
      assert (-y * 100.0 + 0.5).Floor <= (-x * 100.0 + 0.5).Floor;
    }
  }

  /** What the quantity and price inputs store: `val < 0 ? 0 : val`. */
  function ClampNonNegative(v: real): (r: real)
    ensures r >= 0.0 && (v >= 0.0 ==> r == v) && (v < 0.0 ==> r == 0.0)
  {
    if v < 0.0 then 0.0 else v
  }

  /** Two digits for a value below one hundred. */
  function TwoDigits(n: nat): (r: string)
    requires n < 100
    ensures |r| == 2 && AllDigits(r) && DigitsValue(r) == n
  {
    var r := [DigitChar(n / 10), DigitChar(n % 10)];
    assert r[..1] == [DigitChar(n / 10)] && r[..1][..0] == [];
    assert DigitsValue(r[..1]) == n / 10;
    r
  }

  /** `x.toFixed(2)`: a minus sign for a negative `x`, whole part, point, two decimals. */
  function Fixed2(x: real): string
  {
    var c := if Cents(x) < 0 then -Cents(x) else Cents(x);
    (if x < 0.0 then "-" else "") + NatToDecimal(c / 100) + "." + TwoDigits(c % 100)
  }

  /**
   * Reading `x.toFixed(2)` back: the sign says whether `x` was negative, and
   * the digits before and after the point denote the rounded cent count.
   */
  lemma Fixed2Denotes(x: real)
    ensures var s := Fixed2(x);
      var u := if x < 0.0 then s[1..] else s;
      && (|s| > 0 && s[0] == '-' <==> x < 0.0)
      && |u| >= 4 && u[|u| - 3] == '.'
      && AllDigits(u[..|u| - 3]) && AllDigits(u[|u| - 2..])
      && DigitsValue(u[..|u| - 3]) * 100 + DigitsValue(u[|u| - 2..])
         == (if Cents(x) < 0 then -Cents(x) else Cents(x))
  {
    var c := if Cents(x) < 0 then -Cents(x) else Cents(x);
    var w := NatToDecimal(c / 100);
    var u := w + "." + TwoDigits(c % 100);
    assert u[..|u| - 3] == w;
    assert u[|u| - 2..] == TwoDigits(c % 100);
    if x < 0.0 {
      assert Fixed2(x) == "-" + u;
      assert Fixed2(x)[1..] == u;
    } else {
      assert Fixed2(x) == u;
      assert w[0] != '-';
    }
  }
}
