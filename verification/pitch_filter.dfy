/** The pitch signal the step detector watches: a complementary filter that
    blends the integrated gyro pitch rate with the accelerometer pitch,
    followed by a linear smoothing pass toward the fused value. */
module PitchFilter {

  import opened RealArith

  /** Complementary filter weight of the gyro path. */
  const Alpha: real := 0.9
  /** Interpolation factor of the smoothing pass. */
  const SmoothingFactor: real := 0.1

  /** `x` lies between `a` and `b`, in either order. */
  predicate Between(x: real, a: real, b: real) {
    (a <= x <= b) || (b <= x <= a)
  }

  /** Clamps an interpolation factor into [0, 1], as `Mathf.Lerp` does. */
  function Clamp01(t: real): (r: real)
    ensures 0.0 <= r <= 1.0
    ensures 0.0 <= t <= 1.0 ==> r == t
  {
    if t < 0.0 then 0.0 else if t > 1.0 then 1.0 else t
  }

  lemma ScaledBetween(d: real, t: real)
    requires 0.0 <= t <= 1.0
    ensures Between(Mul(d, t), 0.0, d)
  {
    if d >= 0.0 {
      assert d * t <= d * 1.0;
    } else {
      var e := -d;
      assert e * t <= e * 1.0;
      assert e * t >= 0.0;
      assert d * t == -(e * t);
    }
  }

  lemma LerpGap(a: real, b: real, k: real)
    ensures a + Mul(b - a, k) - b == Mul(1.0 - k, a - b)
  {
    assert (b - a) * k == b * k - a * k;
    assert (1.0 - k) * (a - b) == a - b - a * k + b * k;
  }

  /** Linear interpolation from `a` toward `b`: the result stays between the
      two, and its distance to `b` shrinks by the factor `1 - t`. */
  function Lerp(a: real, b: real, t: real): (r: real)
    ensures Between(r, a, b)
    ensures r - b == Mul(1.0 - Clamp01(t), a - b)
  {
    var k := Clamp01(t);
    ScaledBetween(b - a, k);
    LerpGap(a, b, k);
    a + Mul(b - a, k)
  }

  /** The complementary filter: the new fused pitch is a weighted mean of the
      gyro-propagated pitch and the accelerometer pitch. */
  function Fuse(fusedPitch: real, gyroPitch: real, accelerometerPitch: real): (r: real)
    ensures Between(r, fusedPitch + gyroPitch, accelerometerPitch)
    ensures r - accelerometerPitch == Alpha * (fusedPitch + gyroPitch - accelerometerPitch)
  {
    Alpha * (fusedPitch + gyroPitch) + (1.0 - Alpha) * accelerometerPitch
  }

  /** The smoothing pass: a tenth of the way from the smoothed value to the
      fused value. */
  function Smooth(smoothedPitch: real, fusedPitch: real): (r: real)
    ensures Between(r, smoothedPitch, fusedPitch)
    ensures r - fusedPitch == (1.0 - SmoothingFactor) * (smoothedPitch - fusedPitch)
  {
    var r := Lerp(smoothedPitch, fusedPitch, SmoothingFactor);
    assert r - fusedPitch == Mul(1.0 - SmoothingFactor, smoothedPitch - fusedPitch);
    r
  }

  function Pow(b: real, n: nat): real {
    if n == 0 then 1.0 else b * Pow(b, n - 1)
  }

  lemma {:induction false} PowBounds(n: nat)
    ensures 0.0 < Pow(1.0 - SmoothingFactor, n) <= 1.0
    ensures n > 0 ==> Pow(1.0 - SmoothingFactor, n) < 1.0
  {
    if n > 0 {
      PowBounds(n - 1);
    }
  }

  /** `n` smoothing passes toward a constant fused pitch. */
  function SmoothRepeatedly(smoothedPitch: real, fusedPitch: real, n: nat): real {
    if n == 0 then smoothedPitch
    else Smooth(SmoothRepeatedly(smoothedPitch, fusedPitch, n - 1), fusedPitch)
  }

  /** Under a constant fused pitch, the smoothed pitch closes the gap
      geometrically: after `n` passes the gap is 0.9^n of the initial one. */
  lemma {:induction false} SmoothingConverges(smoothedPitch: real, fusedPitch: real, n: nat)
    ensures SmoothRepeatedly(smoothedPitch, fusedPitch, n) - fusedPitch
         == Pow(1.0 - SmoothingFactor, n) * (smoothedPitch - fusedPitch)
  {
    if n > 0 {
      SmoothingConverges(smoothedPitch, fusedPitch, n - 1);
    }
  }

  /** `n` filter steps with no gyro rotation and a constant accelerometer pitch. */
  function FuseRepeatedly(fusedPitch: real, accelerometerPitch: real, n: nat): real {
    if n == 0 then fusedPitch
    else Fuse(FuseRepeatedly(fusedPitch, accelerometerPitch, n - 1), 0.0, accelerometerPitch)
  }

  /** With the gyro at rest, the fused pitch converges geometrically to the
      accelerometer pitch. */
  lemma {:induction false} FusionConverges(fusedPitch: real, accelerometerPitch: real, n: nat)
    ensures FuseRepeatedly(fusedPitch, accelerometerPitch, n) - accelerometerPitch
         == Pow(Alpha, n) * (fusedPitch - accelerometerPitch)
  {
    if n > 0 {
      FusionConverges(fusedPitch, accelerometerPitch, n - 1);
    }
  }
}
