/** Angle arithmetic in degrees, as used by the heading filter: the notion of
    two angles naming the same direction, and the wrap-aware normaliser that
    maps an angular difference into [-180, 180]. */
module Angles {

  /** `d` is a whole number of turns: an integer multiple of 360 degrees. */
  predicate IsWholeTurns(d: real) {
    (d / 360.0).Floor as real == d / 360.0
  }

  lemma WholeTurnsZero()
    ensures IsWholeTurns(0.0)
  {
  }

  /** Whole turns are closed under addition and subtraction. */
  lemma WholeTurnsSum(d: real, e: real)
    requires IsWholeTurns(d) && IsWholeTurns(e)
    ensures IsWholeTurns(d + e) && IsWholeTurns(d - e)
  {
    var p := (d / 360.0).Floor;
    var q := (e / 360.0).Floor;
    assert d == 360.0 * p as real;
    assert e == 360.0 * q as real;
    assert (d + e) / 360.0 == (p + q) as real;
    IntegerFloor(p + q);
    assert (d - e) / 360.0 == (p - q) as real;
    IntegerFloor(p - q);
  }

  lemma IntegerFloor(n: int)
    ensures (n as real).Floor == n
  {
  }

  /** One full turn. */
  lemma OneTurn()
    ensures IsWholeTurns(360.0) && IsWholeTurns(-360.0)
  {
    assert 360.0 / 360.0 == 1 as real;
    assert -360.0 / 360.0 == -1 as real;
  }

  /** The only whole number of turns strictly between -360 and 360 is zero. */
  lemma SmallWholeTurnIsZero(d: real)
    requires IsWholeTurns(d) && -360.0 < d < 360.0
    ensures d == 0.0
  {
    var n := (d / 360.0).Floor;
    assert -1.0 < n as real < 1.0;
    assert n == 0;
  }

  /** The first loop of the normaliser: subtract 360 while the angle exceeds 180. */
  function ReduceAbove(a: real): (r: real)
    ensures r <= 180.0
    ensures a <= 180.0 ==> r == a
    ensures a > 180.0 ==> r > -180.0
    ensures IsWholeTurns(r - a)
    decreases a.Floor
  {
    if a > 180.0 then
      var r := ReduceAbove(a - 360.0);
      OneTurn();
      WholeTurnsSum(r - (a - 360.0), -360.0);
      r
    else
      WholeTurnsZero();
      a
  }

  /** The second loop of the normaliser: add 360 while the angle is below -180. */
  function RaiseBelow(a: real): (r: real)
    ensures r >= -180.0
    ensures a >= -180.0 ==> r == a
    ensures a < -180.0 ==> r < 180.0
    ensures IsWholeTurns(r - a)
    decreases (-a).Floor
  {
    if a < -180.0 then
      var r := RaiseBelow(a + 360.0);
      OneTurn();
      WholeTurnsSum(r - (a + 360.0), 360.0);
      r
    else
      WholeTurnsZero();
      a
  }

  /** The wrap-aware normaliser: the same direction as `a`, expressed in [-180, 180]. */
  function NormalizeAngle(a: real): (r: real)
    ensures -180.0 <= r <= 180.0
    ensures IsWholeTurns(r - a)
    ensures -180.0 <= a <= 180.0 ==> r == a
  {
    var b := ReduceAbove(a);
    var r := RaiseBelow(b);
    WholeTurnsSum(r - b, b - a);
    r
  }

  /** Normalising twice is the same as normalising once. */
  lemma NormalizeAngleIdempotent(a: real)
    ensures NormalizeAngle(NormalizeAngle(a)) == NormalizeAngle(a)
  {
  }

  /** Away from the +-180 seam, the normaliser returns THE representative of
      `a`'s direction: any angle in (-180, 180) a whole number of turns away
      from `a` is the result. */
  lemma {:induction false} NormalizeAngleUnique(a: real, b: real)
    requires -180.0 < b < 180.0
    requires IsWholeTurns(b - a)
    ensures NormalizeAngle(a) == b
  {
    var r := NormalizeAngle(a);
    WholeTurnsSum(r - a, b - a);
    assert r - b == (r - a) - (b - a);
    SmallWholeTurnIsZero(r - b);
  }

  /** Adding a whole turn to the input does not change the normalised value,
      except at the seam. */
  lemma {:induction false} NormalizeAngleTurnInvariant(a: real)
    requires -180.0 < NormalizeAngle(a) < 180.0
    ensures NormalizeAngle(a + 360.0) == NormalizeAngle(a)
    ensures NormalizeAngle(a - 360.0) == NormalizeAngle(a)
  {
    var r := NormalizeAngle(a);
    OneTurn();
    WholeTurnsSum(r - a, 360.0);
    assert r - (a + 360.0) == (r - a) - 360.0;
    assert r - (a - 360.0) == (r - a) + 360.0;
    NormalizeAngleUnique(a + 360.0, r);
    NormalizeAngleUnique(a - 360.0, r);
  }

  /** The wrap boundary: a difference of 358 degrees is resolved as -2 degrees. */
  lemma NormalizeAcrossNorth()
    ensures NormalizeAngle(359.0 - 1.0) == -2.0
    ensures NormalizeAngle(1.0 - 359.0) == 2.0
  {
  }
}
