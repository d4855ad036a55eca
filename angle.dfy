/** angle.go: an angle in radians. */
module Angles {
  /** math.Pi as a float64 constant. */
  const Pi: real := 3.141592653589793

  /** One full turn. */
  const TwoPi: real := 2.0 * Pi

  type Angle = real

  /** Rounds to the nearest integer, halfway cases to the even neighbour. */
  function RoundHalfEven(q: real): (n: int)
    ensures -0.5 <= q - n as real <= 0.5
  {
    var f := q.Floor;
    var frac := q - f as real;
    if frac < 0.5 then f
    else if frac > 0.5 then f + 1
    else if f % 2 == 0 then f else f + 1
  }

  /** Go's math.Remainder(x, y): x minus y times the quotient x/y rounded
      to the nearest integer, halfway cases to even. */
  function Remainder(x: real, y: real): (r: real)
    requires y > 0.0
    ensures -y / 2.0 <= r <= y / 2.0
    ensures x - r == RoundHalfEven(x / y) as real * y
  {
    var n := RoundHalfEven(x / y);
    var d := x / y - n as real;
    var r := x - n as real * y;
    HalfBoundScaled(d, y, r);
    ScaledQuotient(x, y, n as real, d, r);
    r
  }

  /** The equivalent angle in [0, 2π): the remainder modulo 2π, shifted up by 2π when negative. */
  function Normalized(a: Angle): (r: Angle)
    ensures 0.0 <= r < TwoPi
    ensures exists n: int {:trigger n as real * (TwoPi)} :: a - r == n as real * (TwoPi)
  {
    var n := RoundHalfEven(a / (TwoPi));
    var rad := Remainder(a, TwoPi);
    if rad < 0.0 then
      TurnBack(n, TwoPi);
      assert a - (rad + TwoPi) == (n - 1) as real * (TwoPi);
      rad + TwoPi
    else
      var k := n;
      assert a - rad == k as real * TwoPi;
      rad
  }

  /** An angle already in [0, 2*Pi) is left alone, so Normalized is
      idempotent. */
  lemma NormalizedInRange(a: Angle)
    requires 0.0 <= a < TwoPi
    ensures Normalized(a) == a
  {
    var q := a / (TwoPi);
    assert 0.0 <= q < 1.0;
    var rad := Remainder(a, TwoPi);
    if a <= Pi {
      assert q <= 0.5;
      assert RoundHalfEven(q) == 0;
      assert rad == a;
    } else {
      assert q > 0.5;
      assert RoundHalfEven(q) == 1;
      assert rad == a - TwoPi;
    }
  }

  lemma NormalizedIdempotent(a: Angle)
    ensures Normalized(Normalized(a)) == Normalized(a)
  {
    NormalizedInRange(Normalized(a));
  }

  /** The value mapped into optimizer space: the angle itself. */
  function TweakableValue(a: Angle): (r: real)
    ensures r == a
  {
    a
  }

  /** The stored angle after applying a value from optimizer space. */
  function SetTweakableValue(a: Angle, v: real): (r: Angle)
    ensures 0.0 <= r < TwoPi
  {
    Normalized(v)
  }

  /** The round trip through optimizer space is the identity exactly on
      [0, 2*Pi). */
  lemma SetThenGet(a: Angle, v: real)
    ensures TweakableValue(SetTweakableValue(a, v)) == v <==> 0.0 <= v < TwoPi
  {
    if 0.0 <= v < TwoPi {
      NormalizedInRange(v);
    }
  }

  function Degrees(a: Angle): (r: real)
  {
    a * (180.0 / Pi)
  }

  function SetDegrees(a: Angle, deg: real): (r: Angle)
  {
    deg * (Pi / 180.0)
  }

  /** Degrees read back what SetDegrees wrote. */
  lemma DegreesRoundTrip(a: Angle, deg: real)
    ensures Degrees(SetDegrees(a, deg)) == deg
  {
    calc {
      Degrees(SetDegrees(a, deg));
    ==
      deg * (Pi / 180.0) * (180.0 / Pi);
    ==
      deg * ((Pi / 180.0) * (180.0 / Pi));
    ==
      deg * 1.0;
    }
  }

  lemma HalfBoundScaled(d: real, y: real, r: real)
    requires -0.5 <= d <= 0.5 && y > 0.0 && r == d * y
    ensures -y / 2.0 <= r <= y / 2.0
  {
    NonNegativeProduct(0.5 - d, y);
    NonNegativeProduct(d + 0.5, y);
  }

  lemma NonNegativeProduct(a: real, b: real)
    requires a >= 0.0 && b >= 0.0
    ensures a * b >= 0.0
  {
  }

  lemma ScaledQuotient(x: real, y: real, m: real, d: real, r: real)
    requires y > 0.0 && d == x / y - m && r == x - m * y
    ensures r == d * y
  {
  }

  lemma TurnBack(n: int, t: real)
    ensures (n - 1) as real * t == n as real * t - t
  {
  }
}
