/** One tick of the heading filter (`GyroHeading.Update`): the quaternion
    heading is shifted into a full circle and corrected by a stored offset, the
    compass reading enters a rolling window whose variance, gated by tilt, is
    the compass error, the gyro error grows with rotation, the offset is
    periodically recalibrated against a steady compass, and a scalar Kalman
    step blends the previous heading estimate with the compass heading.
    Sensor values and the clock are inputs of the tick. */
module HeadingFusion {

  import opened Angles
  import opened CompassWindow
  import opened RealArith

  /** Gyro drift per second. */
  const Bias: real := 0.001
  /** Gyro scale error per unit of rotation rate. */
  const ScaleErrorConst: real := 0.007
  /** Below this vertical gravity component the device is too tilted to trust the compass. */
  const TiltThreshold: real := 0.75
  /** The compass error forced while tilted. */
  const TiltedCompassError: real := 10000.0
  /** Seconds that must pass between recalibrations. */
  const RecalibrationInterval: real := 10.0
  /** The compass error must be below this for a recalibration. */
  const RecalibrationMaxError: real := 2.0

  /** What the filter keeps from one tick to the next. */
  datatype HeadingState = HeadingState(
    compassBuffer: seq<real>,
    scaleError: real,
    previousTime: real,
    headingOffset: real,
    headingPrevEst: real)

  /** The filter as it starts: every field at its default value. */
  const Initial := HeadingState([], 0.0, 0.0, 0.0, 0.0)

  /** One tick's inputs: the clock, the heading derived from the attitude
      quaternion (degrees, in [-180, 180]), the vertical gravity component,
      the compass true heading, and the magnitude of the unbiased rotation rate. */
  datatype HeadingSample = HeadingSample(
    now: real,
    quaternionHeading: real,
    gravityY: real,
    compassHeading: real,
    rotationRate: real)

  /** The Kalman step's outputs, or `NotFinite` when its gain divides by zero. */
  datatype KalmanResult =
    | Blended(gain: real, heading: real, error: real)
    | NotFinite

  /** The gyro error estimate of one tick. */
  datatype ErrorEstimate = ErrorEstimate(scaleError: real, headingError: real)

  /** Everything one tick computes besides the next state. */
  datatype TickReport = TickReport(
    heading: real,
    headingAfterOffset: real,
    compassError: real,
    headingError: real,
    recalibrated: bool,
    kalman: KalmanResult)

  datatype TickResult = TickResult(state: HeadingState, report: TickReport)

  /** The tick's inputs the app's sensors can actually produce. */
  predicate WellFormedSample(x: HeadingSample) {
    && -180.0 <= x.quaternionHeading <= 180.0
    && 0.0 <= x.compassHeading < 360.0
    && x.rotationRate >= 0.0
  }

  /** The negated quaternion heading, moved from [-180, 180] into [0, 360). */
  function ShiftedHeading(quaternionHeading: real): (r: real)
    ensures -180.0 <= quaternionHeading <= 180.0 ==> 0.0 <= r < 360.0
    ensures IsWholeTurns(r + quaternionHeading)
    ensures quaternionHeading <= 0.0 ==> r == -quaternionHeading
  {
    var h := -quaternionHeading;
    OneTurn();
    WholeTurnsZero();
    if h < 0.0 then h + 360.0 else h
  }

  /** One correction by a full turn in each direction, applied to the heading
      after the offset is removed. */
  function WrapAfterOffset(x: real): (r: real)
    ensures -360.0 < x <= 720.0 ==> 0.0 <= r <= 360.0
    ensures 0.0 <= x <= 360.0 ==> r == x
    ensures IsWholeTurns(r - x)
  {
    var y := if x < 0.0 then x + 360.0 else x;
    OneTurn();
    WholeTurnsZero();
    assert IsWholeTurns(y - x);
    var r := if y > 360.0 then y - 360.0 else y;
    WholeTurnsSum(r - y, y - x);
    r
  }

  /** The compass error: the window's variance, overridden while tilted. */
  function CompassError(buffer: seq<real>, gravityY: real): (e: real)
    requires |buffer| > 0
    ensures e >= 0.0
    ensures gravityY < TiltThreshold ==> e == TiltedCompassError
    ensures gravityY >= TiltThreshold ==> e == Variance(buffer)
  {
    var variance := Variance(buffer);
    if gravityY < TiltThreshold then TiltedCompassError else variance
  }

  /** The scale error grows with the rotation rate; the heading error adds the
      drift accumulated since the last recalibration. */
  function EstimateHeadingError(scaleError: real, previousTime: real, now: real, rotationRate: real): (e: ErrorEstimate)
    ensures rotationRate >= 0.0 ==> e.scaleError >= scaleError
    ensures e.scaleError - scaleError == ScaleErrorConst * rotationRate
    ensures e.headingError - e.scaleError == Bias * (now - previousTime)
    ensures scaleError >= 0.0 && rotationRate >= 0.0 && now >= previousTime ==> e.headingError >= 0.0
  {
    var s := scaleError + ScaleErrorConst * rotationRate;
    ErrorEstimate(s, Bias * (now - previousTime) + s)
  }

  /** Recalibrate only after a quiet period with a steady compass. */
  predicate ShouldRecalibrate(now: real, previousTime: real, compassError: real) {
    now - previousTime > RecalibrationInterval && compassError < RecalibrationMaxError
  }

  lemma DivisionUnique(a: real, b: real, t: real)
    requires t != 0.0 && a * t == b
    ensures a == b / t
  {
  }

  lemma GainBounds(h: real, c: real)
    requires h >= 0.0 && c >= 0.0 && h + c > 0.0
    ensures 0.0 <= h / (h + c) <= 1.0
    ensures (1.0 - h / (h + c)) * h == h * c / (h + c)
    ensures 0.0 <= (1.0 - h / (h + c)) * h <= h
    ensures (1.0 - h / (h + c)) * h <= c
  {
    var t := h + c;
    var k := h / t;
    assert k * t == h;
    assert (1.0 - k) * t == c;
    DivisionUnique(1.0 - k, c, t);
    assert (1.0 - k) * h == h * c / t;
    if h > 0.0 {
      assert c / t <= 1.0;
    }
    assert h / t <= 1.0;
  }

  /** The scalar Kalman step: the gain weighs the gyro error against the
      compass error, and the estimate moves from the previous estimate along
      the wrap-aware difference to the compass heading. */
  function Kalman(prevEst: real, compassHeading: real, headingError: real, compassError: real): (k: KalmanResult)
    ensures k.NotFinite? <==> headingError + compassError == 0.0
    ensures k.Blended? ==> Mul(k.gain, headingError + compassError) == headingError
    ensures k.Blended? ==> k.heading - prevEst == Mul(k.gain, NormalizeAngle(compassHeading - prevEst))
    ensures headingError >= 0.0 && compassError >= 0.0 && k.Blended? ==>
      && 0.0 <= k.gain <= 1.0
      && 0.0 <= k.error <= headingError
      && k.error <= compassError
      && -180.0 <= k.heading - prevEst <= 180.0
  {
    var total := headingError + compassError;
    if total == 0.0 then NotFinite
    else
      var gain := headingError / total;
      assert gain * total == headingError;
      var diff := NormalizeAngle(compassHeading - prevEst);
      KalmanBounds(headingError, compassError, gain, diff);
      Blended(gain, prevEst + gain * diff, (1.0 - gain) * headingError)
  }

  /** The estimate moves by the gain times the wrap-aware difference to the
      compass: for any representative `d` of that difference strictly inside
      a half turn, the move is exactly `gain * d`. */
  lemma KalmanMovesTowardCompass(prevEst: real, compassHeading: real, headingError: real, compassError: real, d: real)
    requires headingError + compassError != 0.0
    requires -180.0 < d < 180.0 && IsWholeTurns(d - (compassHeading - prevEst))
    ensures Kalman(prevEst, compassHeading, headingError, compassError).Blended?
    ensures Kalman(prevEst, compassHeading, headingError, compassError).heading ==
      prevEst + Kalman(prevEst, compassHeading, headingError, compassError).gain * d
  {
    NormalizeAngleUnique(compassHeading - prevEst, d);
  }

  lemma KalmanBounds(h: real, c: real, gain: real, diff: real)
    requires h + c != 0.0 && gain == h / (h + c) && -180.0 <= diff <= 180.0
    ensures h >= 0.0 && c >= 0.0 ==>
      && 0.0 <= gain <= 1.0
      && 0.0 <= (1.0 - gain) * h <= h
      && (1.0 - gain) * h <= c
      && -180.0 <= gain * diff <= 180.0
  {
    if h >= 0.0 && c >= 0.0 {
      GainBounds(h, c);
      StepWithinHalfTurn(gain, diff);
    }
  }

  lemma StepWithinHalfTurn(gain: real, diff: real)
    requires 0.0 <= gain <= 1.0 && -180.0 <= diff <= 180.0
    ensures -180.0 <= gain * diff <= 180.0
  {
    if diff >= 0.0 {
      assert gain * diff <= 1.0 * diff;
    } else {
      assert gain * diff >= 1.0 * diff;
    }
  }

  /** One tick of the filter. */
  function Tick(s: HeadingState, x: HeadingSample): (t: TickResult)
    ensures |t.state.compassBuffer| > 0
    ensures t.state.compassBuffer[|t.state.compassBuffer| - 1] == x.compassHeading
    ensures |s.compassBuffer| <= Capacity ==> |t.state.compassBuffer| <= Capacity
    ensures t.report.recalibrated <==>
      x.now - s.previousTime > RecalibrationInterval && t.report.compassError < RecalibrationMaxError
    ensures x.gravityY < TiltThreshold ==> t.report.compassError == TiltedCompassError && !t.report.recalibrated
    ensures t.report.recalibrated ==>
      && t.state.headingOffset == t.report.heading - x.compassHeading
      && t.state.scaleError == 0.0
      && t.state.previousTime == x.now
    ensures !t.report.recalibrated ==>
      && t.state.headingOffset == s.headingOffset
      && t.state.previousTime == s.previousTime
      && t.state.scaleError == s.scaleError + ScaleErrorConst * x.rotationRate
    ensures t.state.headingPrevEst == t.report.headingAfterOffset
    ensures IsWholeTurns(t.report.headingAfterOffset - (t.report.heading - s.headingOffset))
  {
    var heading := ShiftedHeading(x.quaternionHeading);
    var afterOffset := WrapAfterOffset(heading - s.headingOffset);
    var buffer := Push(s.compassBuffer, x.compassHeading);
    var compassError := CompassError(buffer, x.gravityY);
    var estimate := EstimateHeadingError(s.scaleError, s.previousTime, x.now, x.rotationRate);
    var recalibrate := ShouldRecalibrate(x.now, s.previousTime, compassError);
    var kalman := Kalman(s.headingPrevEst, x.compassHeading, estimate.headingError, compassError);
    var next := HeadingState(
      buffer,
      if recalibrate then 0.0 else estimate.scaleError,
      if recalibrate then x.now else s.previousTime,
      if recalibrate then heading - x.compassHeading else s.headingOffset,
      afterOffset);
    TickResult(next, TickReport(heading, afterOffset, compassError, estimate.headingError, recalibrate, kalman))
  }

  /** What a tick reports: the shifted heading, the heading after the offset,
      the compass error of the updated window, the heading error computed
      before any recalibration resets the scale error, and the Kalman step
      run from the old previous estimate with exactly those two errors. */
  lemma TickComputes(s: HeadingState, x: HeadingSample)
    ensures Tick(s, x).report.heading == ShiftedHeading(x.quaternionHeading)
    ensures Tick(s, x).report.headingAfterOffset == WrapAfterOffset(Tick(s, x).report.heading - s.headingOffset)
    ensures Tick(s, x).state.compassBuffer == Push(s.compassBuffer, x.compassHeading)
    ensures Tick(s, x).report.compassError == CompassError(Tick(s, x).state.compassBuffer, x.gravityY)
    ensures Tick(s, x).report.headingError ==
      EstimateHeadingError(s.scaleError, s.previousTime, x.now, x.rotationRate).headingError
    ensures Tick(s, x).report.kalman ==
      Kalman(s.headingPrevEst, x.compassHeading, Tick(s, x).report.headingError, Tick(s, x).report.compassError)
  {
  }

  /** What holds of the filter state between ticks. */
  predicate Valid(s: HeadingState) {
    && |s.compassBuffer| <= Capacity
    && s.scaleError >= 0.0
    && -360.0 < s.headingOffset < 360.0
    && 0.0 <= s.headingPrevEst <= 360.0
  }

  lemma InitialValid()
    ensures Valid(Initial)
  {
  }

  /** A tick on a well-formed sample, no earlier than the last recalibration,
      keeps the state valid; the heading error is then non-negative, the
      heading after the offset lies in [0, 360], and whenever the Kalman step
      is finite its gain, error and move are bounded. */
  lemma {:induction false} TickPreservesValid(s: HeadingState, x: HeadingSample)
    requires Valid(s) && WellFormedSample(x)
    requires x.now >= s.previousTime
    ensures Valid(Tick(s, x).state)
    ensures Tick(s, x).state.previousTime <= x.now
    ensures Tick(s, x).report.headingError >= 0.0
    ensures 0.0 <= Tick(s, x).report.headingAfterOffset <= 360.0
    ensures Tick(s, x).report.kalman.Blended? ==>
      && 0.0 <= Tick(s, x).report.kalman.gain <= 1.0
      && 0.0 <= Tick(s, x).report.kalman.error <= Tick(s, x).report.headingError
      && -180.0 <= Tick(s, x).report.kalman.heading - s.headingPrevEst <= 180.0
  {
    var t := Tick(s, x);
    assert 0.0 <= t.report.heading < 360.0;
    assert -360.0 < t.report.heading - s.headingOffset <= 720.0;
  }

  /** Runs the filter over a series of samples. */
  function Run(s: HeadingState, xs: seq<HeadingSample>): HeadingState
    decreases |xs|
  {
    if |xs| == 0 then s else Run(Tick(s, xs[0]).state, xs[1..])
  }

  /** Samples in time order, none before the start of the run. */
  predicate Chronological(start: real, xs: seq<HeadingSample>) {
    && (forall i :: 0 <= i < |xs| ==> start <= xs[i].now)
    && (forall i, j :: 0 <= i < j < |xs| ==> xs[i].now <= xs[j].now)
  }

  /** Over any run of well-formed samples in time order, the state stays
      valid: in particular the compass window never exceeds its capacity and
      the scale error never goes negative. */
  lemma {:induction false} RunPreservesValid(s: HeadingState, xs: seq<HeadingSample>)
    requires Valid(s)
    requires forall i :: 0 <= i < |xs| ==> WellFormedSample(xs[i])
    requires Chronological(s.previousTime, xs)
    ensures Valid(Run(s, xs))
    decreases |xs|
  {
    if |xs| > 0 {
      TickPreservesValid(s, xs[0]);
      var next := Tick(s, xs[0]).state;
      assert next.previousTime <= xs[0].now;
      var rest := xs[1..];
      forall i | 0 <= i < |rest|
        ensures WellFormedSample(rest[i]) && next.previousTime <= rest[i].now
      {
        assert rest[i] == xs[i + 1];
      }
      forall i, j | 0 <= i < j < |rest|
        ensures rest[i].now <= rest[j].now
      {
        assert rest[i] == xs[i + 1] && rest[j] == xs[j + 1];
      }
      RunPreservesValid(next, rest);
    }
  }

  /** With an exact compass (zero compass error) and any gyro error, the
      Kalman estimate points exactly where the compass does. */
  lemma KalmanTrustsExactCompass(prevEst: real, compassHeading: real, headingError: real)
    requires headingError > 0.0
    ensures Kalman(prevEst, compassHeading, headingError, 0.0).Blended?
    ensures Kalman(prevEst, compassHeading, headingError, 0.0).gain == 1.0
    ensures IsWholeTurns(Kalman(prevEst, compassHeading, headingError, 0.0).heading - compassHeading)
  {
    var d := NormalizeAngle(compassHeading - prevEst);
    var k := Kalman(prevEst, compassHeading, headingError, 0.0);
    assert headingError + 0.0 == headingError;
    DivisionUnique(1.0, headingError, headingError);
    assert k.gain == 1.0;
    assert k.gain * d == d;
    assert k.heading == prevEst + d;
    assert k.heading - compassHeading == d - (compassHeading - prevEst);
  }

  /** With an exact gyro (zero heading error) and a noisy compass, the
      Kalman estimate stays at the previous estimate with zero error. */
  lemma KalmanIgnoresCompassWhenGyroExact(prevEst: real, compassHeading: real, compassError: real)
    requires compassError > 0.0
    ensures Kalman(prevEst, compassHeading, 0.0, compassError) == Blended(0.0, prevEst, 0.0)
  {
  }

  /** While the phone is tilted, the compass gets at most a ten-thousandth
      of the weight it would get against a unit compass error: the gain of a
      finite Kalman step is at most the heading error over 10000. */
  lemma TiltedGainIsTiny(s: HeadingState, x: HeadingSample)
    requires x.gravityY < TiltThreshold
    ensures Tick(s, x).report.kalman.Blended? && Tick(s, x).report.headingError >= 0.0 ==>
      Tick(s, x).report.kalman.gain <= Tick(s, x).report.headingError / TiltedCompassError
  {
    TickComputes(s, x);
    var r := Tick(s, x).report;
    assert r.compassError == TiltedCompassError;
    if r.kalman.Blended? && r.headingError >= 0.0 {
      assert r.kalman.gain == r.headingError / (r.headingError + TiltedCompassError);
      GainAgainstLargeError(r.headingError);
    }
  }

  lemma GainAgainstLargeError(h: real)
    requires h >= 0.0
    ensures h / (h + TiltedCompassError) <= h / TiltedCompassError
  {
    var t := h + TiltedCompassError;
    assert h / t * t == h;
    assert h / TiltedCompassError * TiltedCompassError == h;
  }

  /** The fused error is the harmonic combination of the two errors, which
      is symmetric in them. */
  lemma KalmanErrorSymmetric(prevEst: real, compassHeading: real, h: real, c: real)
    requires h >= 0.0 && c >= 0.0 && h + c > 0.0
    ensures Kalman(prevEst, compassHeading, h, c).error == h * c / (h + c)
    ensures Kalman(prevEst, compassHeading, h, c).error == Kalman(prevEst, compassHeading, c, h).error
  {
    GainBounds(h, c);
    GainBounds(c, h);
    assert c * h == h * c;
  }
}
