/** The pedestrian step detector (`StepDetector`): one sensor tick fuses and
    smooths the pitch, integrates the yaw rate into a heading, and hands the
    smoothed pitch to a peak detector that counts a step, classifies it,
    sizes it and moves the tracked object forward. */
module StepDetection {

  import opened RealArith
  import opened PitchFilter
  import opened Motion

  /** A step needs the smoothed pitch above this value. */
  const PitchThreshold: real := 3.0
  /** Refractory period after a step, in seconds. */
  const StepTime: real := 0.75
  /** Step length before the first step is sized. */
  const DefaultStepLength: real := 0.7
  /** Pitch above which a step counts as going up. */
  const UpPitch: real := 8.0
  /** Pitch below which a step counts as going down. */
  const DownPitch: real := 4.5

  datatype StepType = Flat | Down | Up {
    /** The integer code the detector stores: 0 flat, 1 down, 2 up. */
    function Code(): int {
      match this
      case Flat => 0
      case Down => 1
      case Up => 2
    }

    /** The position of the type on the pitch scale: down < flat < up. */
    function Rank(): int {
      match this
      case Down => 0
      case Flat => 1
      case Up => 2
    }
  }

  function Abs(x: real): (r: real)
    ensures r >= 0.0 && (r == x || r == -x)
  {
    if x < 0.0 then -x else x
  }

  /** The step type chosen from the pitch at the peak. */
  function Classify(pitch: real): (t: StepType)
    ensures t == Up <==> pitch > UpPitch
    ensures t == Down <==> pitch < DownPitch
    ensures t == Flat <==> DownPitch <= pitch <= UpPitch
    ensures t.Code() == 2 <==> pitch > UpPitch
    ensures t.Code() == 1 <==> pitch < DownPitch
    ensures t.Code() == 0 <==> DownPitch <= pitch <= UpPitch
  {
    if pitch > UpPitch then Up
    else if pitch < DownPitch then Down
    else Flat
  }

  /** A steeper peak never yields a lower step type. */
  lemma ClassifyMonotone(p: real, q: real)
    requires p <= q
    ensures Classify(p).Rank() <= Classify(q).Rank()
  {
  }

  /** Every step type is reachable by some pitch above the step threshold. */
  lemma EveryTypeAboveThreshold()
    ensures Classify(3.5) == Down && Classify(6.0) == Flat && Classify(9.0) == Up
    ensures 3.5 > PitchThreshold
  {
  }

  /** The step length grows linearly with the peak pitch. */
  function StepLengthFor(pitch: real): (len: real)
    ensures pitch > PitchThreshold ==> len > 0.8
  {
    0.5 + pitch / 10.0
  }

  /** The peak pitch a step length stands for: the inverse of `StepLengthFor`. */
  function PitchForStepLength(len: real): (pitch: real)
  {
    (len - 0.5) * 10.0
  }

  lemma StepLengthRoundTrip(pitch: real, len: real)
    ensures PitchForStepLength(StepLengthFor(pitch)) == pitch
    ensures StepLengthFor(PitchForStepLength(len)) == len
  {
  }

  /** A steeper peak gives a strictly longer step. */
  lemma StepLengthIncreasing(p: real, q: real)
    requires p < q
    ensures StepLengthFor(p) < StepLengthFor(q)
  {
  }

  datatype DetectorState = DetectorState(
    fusedPitch: real,
    smoothedPitch: real,
    lastPitch: real,
    isStepDetected: bool,
    stepCount: nat,
    stepInterval: real,
    stepType: StepType,
    stepLength: real,
    estimatedHeading: real,
    lastTime: real,
    position: Vec3)

  /** The detector when the component starts at time `now` at `position`:
      nothing counted, filters at rest, flat type and default length, and no
      sample at all can pass the peak test against the zero previous pitch. */
  function Start(now: real, position: Vec3): (r: DetectorState)
    ensures r.stepCount == 0 && !r.isStepDetected
    ensures r.lastPitch == 0.0 && r.stepInterval == 0.0
    ensures r.position == position && r.lastTime == now
    ensures r.fusedPitch == 0.0 && r.smoothedPitch == 0.0 && r.estimatedHeading == 0.0
    ensures r.stepType.Code() == 0 && r.stepLength == DefaultStepLength
    ensures forall pitch, t :: !Triggers(r, pitch, t)
  {
    DetectorState(0.0, 0.0, 0.0, false, 0, 0.0, Flat, DefaultStepLength, 0.0, now, position)
  }

  /** The peak condition: above the threshold, no higher than the previous
      (absolute) pitch, and past the refractory deadline. */
  predicate Triggers(s: DetectorState, pitch: real, now: real) {
    pitch > PitchThreshold && pitch <= s.lastPitch && now > s.stepInterval
  }

  /** A step is counted when the peak condition holds and the detector is armed. */
  predicate Fires(s: DetectorState, pitch: real, now: real) {
    Triggers(s, pitch, now) && !s.isStepDetected
  }

  /** `DetectSteps`: checks one smoothed pitch sample for a step. `forward` is
      the object's forward vector and `norm` the length of its horizontal part. */
  function DetectSteps(s: DetectorState, pitch: real, now: real, forward: Vec3, norm: real): (r: DetectorState)
    requires IsHorizontalNorm(forward, norm)
    ensures r.lastPitch == Abs(pitch)
    ensures r.fusedPitch == s.fusedPitch && r.smoothedPitch == s.smoothedPitch
    ensures r.estimatedHeading == s.estimatedHeading && r.lastTime == s.lastTime
    ensures r.stepCount == if Fires(s, pitch, now) then s.stepCount + 1 else s.stepCount
    ensures r.isStepDetected <==> Triggers(s, pitch, now)
    ensures Fires(s, pitch, now) ==>
      && r.stepInterval == now + StepTime
      && r.stepType == Classify(pitch)
      && r.stepLength == StepLengthFor(pitch)
      && r.position == MoveObject(s.position, r.stepLength, forward, norm)
    ensures !Fires(s, pitch, now) ==>
      && r.stepInterval == s.stepInterval
      && r.stepType == s.stepType
      && r.stepLength == s.stepLength
      && r.position == s.position
  {
    var absPitch := Abs(pitch);
    var t := if Triggers(s, pitch, now) then
        if !s.isStepDetected then
          var len := StepLengthFor(pitch);
          s.(stepCount := s.stepCount + 1,
             stepInterval := now + StepTime,
             isStepDetected := true,
             stepType := Classify(pitch),
             stepLength := len,
             position := MoveObject(s.position, len, forward, norm))
        else s
      else s.(isStepDetected := false);
    t.(lastPitch := absPitch)
  }

  /** After a step at time `now`, no pitch at all can produce another step
      until the refractory period has passed. */
  lemma RefractoryPeriod(s: DetectorState, pitch: real, now: real, forward: Vec3, norm: real,
                         pitch2: real, now2: real)
    requires IsHorizontalNorm(forward, norm)
    requires Fires(s, pitch, now)
    requires now2 <= now + StepTime
    ensures !Triggers(DetectSteps(s, pitch, now, forward, norm), pitch2, now2)
  {
  }

  /** While the peak condition keeps holding, the detector stays disarmed:
      a second step needs the condition to lapse first. */
  lemma NoRecountWhileHeld(s: DetectorState, pitch: real, now: real, forward: Vec3, norm: real)
    requires IsHorizontalNorm(forward, norm)
    requires Triggers(s, pitch, now) && s.isStepDetected
    ensures DetectSteps(s, pitch, now, forward, norm) == s.(lastPitch := Abs(pitch))
  {
  }

  /** The start state cannot count a step on its first sample: the previous
      pitch is zero, so no pitch above the threshold is a peak yet. */
  lemma FirstSampleNeverSteps(now0: real, position: Vec3, pitch: real, now: real)
    ensures !Fires(Start(now0, position), pitch, now)
  {
  }

  /** The peak test compares against the ABSOLUTE previous pitch: a swing
      from -10 to 5 counts as a step although the signed pitch rose. */
  lemma SwingFromNegativeCounts(s: DetectorState, forward: Vec3, norm: real)
    requires IsHorizontalNorm(forward, norm)
    requires !s.isStepDetected && s.stepInterval < 1.0
    ensures var r := DetectSteps(s, -10.0, 1.0, forward, norm);
            Fires(r, 5.0, 1.0) && 5.0 > -10.0
  {
  }

  /** One sensor sample: the time, the accelerometer pitch (the `Atan2` of the
      user acceleration, computed outside the model), the unbiased rotation
      rates about x and y, and the object's forward vector with the length of
      its horizontal part. */
  datatype Sample = Sample(now: real, accelerometerPitch: real, rateX: real, rateY: real,
                           forward: Vec3, norm: real)

  predicate WellFormedSample(x: Sample) {
    IsHorizontalNorm(x.forward, x.norm)
  }

  lemma MulDistributes(k: real, a: real, b: real)
    ensures Mul(k, a) + Mul(k, b) == Mul(k, a + b)
  {
  }

  /** `Update`: one frame of the detector. */
  function Update(s: DetectorState, x: Sample): (r: DetectorState)
    requires WellFormedSample(x)
    ensures r.lastTime == x.now
    ensures Between(r.fusedPitch, s.fusedPitch - x.rateX, x.accelerometerPitch)
    ensures r.fusedPitch - x.accelerometerPitch == Alpha * (s.fusedPitch - x.rateX - x.accelerometerPitch)
    ensures Between(r.smoothedPitch, s.smoothedPitch, r.fusedPitch)
    ensures r.smoothedPitch - r.fusedPitch == (1.0 - SmoothingFactor) * (s.smoothedPitch - r.fusedPitch)
    ensures r.stepCount == s.stepCount + 1 <==>
      && r.smoothedPitch > PitchThreshold
      && r.smoothedPitch <= s.lastPitch
      && x.now > s.stepInterval
      && !s.isStepDetected
    ensures r.isStepDetected <==>
      && r.smoothedPitch > PitchThreshold
      && r.smoothedPitch <= s.lastPitch
      && x.now > s.stepInterval
    ensures r.stepCount == s.stepCount + 1 ==>
      && r.stepInterval == x.now + StepTime
      && r.stepType == Classify(r.smoothedPitch)
      && r.stepLength == StepLengthFor(r.smoothedPitch)
      && r.position == MoveObject(s.position, r.stepLength, x.forward, x.norm)
    ensures r.stepCount == s.stepCount ==>
      && r.stepInterval == s.stepInterval
      && r.stepType == s.stepType
      && r.stepLength == s.stepLength
      && r.position == s.position
    ensures r.estimatedHeading - s.estimatedHeading == Mul(-x.rateY, x.now - s.lastTime)
    ensures r.lastPitch == Abs(r.smoothedPitch)
    ensures r.stepCount == s.stepCount || r.stepCount == s.stepCount + 1
    ensures r.position.y == s.position.y
  {
    var dt := x.now - s.lastTime;
    var fused := Fuse(s.fusedPitch, -x.rateX, x.accelerometerPitch);
    var smoothed := Smooth(s.smoothedPitch, fused);
    var filtered := s.(lastTime := x.now,
                       fusedPitch := fused,
                       smoothedPitch := smoothed,
                       estimatedHeading := s.estimatedHeading + Mul(-x.rateY, dt));
    DetectSteps(filtered, smoothed, x.now, x.forward, x.norm)
  }

  predicate WellFormedSamples(xs: seq<Sample>) {
    forall i :: 0 <= i < |xs| ==> WellFormedSample(xs[i])
  }

  /** Feeds a series of frames to the detector, oldest first. */
  function Run(s: DetectorState, xs: seq<Sample>): DetectorState
    requires WellFormedSamples(xs)
    decreases |xs|
  {
    if |xs| == 0 then s else Run(Update(s, xs[0]), xs[1..])
  }

  /** The strides the detector takes over a series of frames, in order. */
  function StridesTaken(s: DetectorState, xs: seq<Sample>): (strides: seq<Stride>)
    requires WellFormedSamples(xs)
    ensures WellFormedStrides(strides)
    decreases |xs|
  {
    if |xs| == 0 then []
    else
      var r := Update(s, xs[0]);
      var here := if r.stepCount == s.stepCount then []
                  else [Stride(r.stepLength, xs[0].forward, xs[0].norm)];
      var rest := StridesTaken(r, xs[1..]);
      assert WellFormedStrides(here + rest) by {
        forall i | 0 <= i < |here + rest|
          ensures IsHorizontalNorm((here + rest)[i].forward, (here + rest)[i].norm)
        {
          if i < |here| {
            assert (here + rest)[i] == here[i];
          } else {
            assert (here + rest)[i] == rest[i - |here|];
          }
        }
      }
      here + rest
  }

  /** The step count goes up by exactly the number of strides taken, and the
      position is the walk over those strides: nothing else moves the object. */
  lemma {:induction false} RunIsWalk(s: DetectorState, xs: seq<Sample>)
    requires WellFormedSamples(xs)
    ensures Run(s, xs).stepCount == s.stepCount + |StridesTaken(s, xs)|
    ensures Run(s, xs).position == Walk(s.position, StridesTaken(s, xs))
    decreases |xs|
  {
    if |xs| > 0 {
      var r := Update(s, xs[0]);
      RunIsWalk(r, xs[1..]);
      var rest := StridesTaken(r, xs[1..]);
      if r.stepCount != s.stepCount {
        var st := Stride(r.stepLength, xs[0].forward, xs[0].norm);
        assert StridesTaken(s, xs) == [st] + rest;
        assert ([st] + rest)[1..] == rest;
        assert r.position == MoveObject(s.position, st.length, st.forward, st.norm);
      } else {
        assert StridesTaken(s, xs) == rest;
        assert r.position == s.position;
      }
    }
  }

  /** At most one step per frame. */
  lemma {:induction false} RunCountBounds(s: DetectorState, xs: seq<Sample>)
    requires WellFormedSamples(xs)
    ensures s.stepCount <= Run(s, xs).stepCount <= s.stepCount + |xs|
    decreases |xs|
  {
    if |xs| > 0 {
      RunCountBounds(Update(s, xs[0]), xs[1..]);
    }
  }

  /** The tracked object never changes height. */
  lemma {:induction false} RunKeepsHeight(s: DetectorState, xs: seq<Sample>)
    requires WellFormedSamples(xs)
    ensures Run(s, xs).position.y == s.position.y
    decreases |xs|
  {
    if |xs| > 0 {
      RunKeepsHeight(Update(s, xs[0]), xs[1..]);
    }
  }

  /** The heading is the integral of the yaw rate: with a constant rate it
      turns by exactly `-rate` times the elapsed time. */
  lemma {:induction false} HeadingIntegratesRate(s: DetectorState, xs: seq<Sample>, rate: real)
    requires WellFormedSamples(xs)
    requires forall i :: 0 <= i < |xs| ==> xs[i].rateY == rate
    ensures Run(s, xs).estimatedHeading - s.estimatedHeading
         == Mul(-rate, Run(s, xs).lastTime - s.lastTime)
    decreases |xs|
  {
    if |xs| == 0 {
      assert Mul(-rate, 0.0) == 0.0;
    } else {
      var r := Update(s, xs[0]);
      HeadingIntegratesRate(r, xs[1..], rate);
      MulDistributes(-rate, r.lastTime - s.lastTime, Run(r, xs[1..]).lastTime - r.lastTime);
    }
  }

  /** The window invariant: since time `t0`, either no step has been counted
      or one has and the refractory deadline lies beyond `t0 + StepTime`. */
  predicate CountedSince(s: DetectorState, base: nat, t0: real) {
    s.stepCount == base || (s.stepCount == base + 1 && s.stepInterval >= t0 + StepTime)
  }

  lemma {:induction false} WindowInvariant(s: DetectorState, xs: seq<Sample>, base: nat, t0: real)
    requires WellFormedSamples(xs)
    requires forall i :: 0 <= i < |xs| ==> t0 <= xs[i].now <= t0 + StepTime
    requires CountedSince(s, base, t0)
    ensures CountedSince(Run(s, xs), base, t0)
    decreases |xs|
  {
    if |xs| > 0 {
      var r := Update(s, xs[0]);
      assert CountedSince(r, base, t0);
      WindowInvariant(r, xs[1..], base, t0);
    }
  }

  /** At most one step is counted in any window of `StepTime` seconds. */
  lemma AtMostOneStepPerWindow(s: DetectorState, xs: seq<Sample>, t0: real)
    requires WellFormedSamples(xs)
    requires forall i :: 0 <= i < |xs| ==> t0 <= xs[i].now <= t0 + StepTime
    ensures Run(s, xs).stepCount <= s.stepCount + 1
  {
    WindowInvariant(s, xs, s.stepCount, t0);
  }

  /** The stored previous pitch is never negative once a frame has run. */
  lemma LastPitchNonNegative(s: DetectorState, xs: seq<Sample>)
    requires WellFormedSamples(xs) && |xs| > 0
    ensures Run(s, xs).lastPitch >= 0.0
    decreases |xs|
  {
    var r := Update(s, xs[0]);
    if |xs| > 1 {
      LastPitchNonNegative(r, xs[1..]);
    }
  }
}
