# Pedestrian dead reckoning core, modelled in Dafny

This project models the computational core of a Unity pedestrian-tracking app.
The app turns phone sensor samples into a heading, a step count and a position
trace. The model covers three components.

- **Step detector** (`StepDetector`, `Assets/StepCalculation.cs`). Each frame it:
  - blends the gyro pitch rate with the accelerometer pitch in a complementary
    filter (weight 0.9);
  - smooths the result with a `Lerp` of factor 0.1;
  - integrates the yaw rate into a heading;
  - hands the smoothed pitch to `DetectSteps`, a peak detector.

  `DetectSteps` counts a step when the pitch is above 3, no higher than the
  previous absolute pitch, and past a 0.75 s refractory deadline. It also
  needs the detector to be armed. A step is classified as up, down or flat,
  and its length is `0.5 + pitch/10`. `MoveObject` then moves the object that
  far along its forward vector, flattened onto the ground plane.
- **Heading filter** (`GyroHeading`, `Assets/trueHeading.cs`). Each tick it:
  - shifts the quaternion heading into a full circle;
  - removes a stored offset, with one wrap correction;
  - pushes the compass heading into a 20-reading FIFO window;
  - takes the window's population variance as the compass error, forced to
    10000 while the phone is tilted;
  - grows the gyro error with drift (0.001 per second) and rotation
    (0.007 per unit of rate);
  - recalibrates the offset when more than 10 s have passed and the compass
    error is below 2;
  - runs a scalar Kalman step with a wrap-aware angle normaliser.
- **Classifier glue** (`ModelClassifier`, `Assets/ModelClassifier.cs`):
  - standardises five features with the training scaler;
  - runs a network, which is a parameter here;
  - returns the first index of the largest output.

Modules:
- `Angles`: whole turns and `NormalizeAngle`.
- `CompassWindow`: the FIFO window and variance.
- `HeadingFusion`: the heading tick.
- `PitchFilter`: the complementary filter and smoothing.
- `Motion`: `MoveObject` and walks.
- `StepDetection`: `DetectSteps`, the frame update and runs.
- `Classifier`.
- `RealArith`: wraps products in `Mul` and `Square` so the solver reasons
  about them through small sign lemmas.

Floating-point numbers are modelled as `real`. Sensors, the clock and the
engine's trigonometry are inputs of each tick:
- the accelerometer pitch, which the code gets from an `Atan2`;
- the quaternion heading, which comes from `CalculateHeading`;
- the length of the forward vector's horizontal part, which comes from a
  square root. It is passed in together with the relation that defines it.

Three features of the code shape the model.
- The Kalman heading is not fed back into the filter. It only sets the
  object's rotation (Assets/trueHeading.cs:82, a `Transform` write that is
  left out), and `stateEstimateError` is only displayed. The next previous
  estimate is the offset-corrected gyro heading (`Tick` states this).
- There is no separate gyro-only regime. Tilt only raises the compass error
  to 10000, which makes the Kalman gain tiny (`TiltedGainIsTiny`).
- The normaliser's two loops leave both -180 and 180 fixed, so its range is
  [-180, 180], both ends included.

## Model

| member | source | states |
|---|---|---|
| Angles.ReduceAbove | Assets/trueHeading.cs:123 | The first loop only subtracts whole turns, leaves angles up to 180 alone, and brings a larger angle into (-180, 180] |
| Angles.RaiseBelow | Assets/trueHeading.cs:124 | The second loop only adds whole turns, leaves angles from -180 up alone, and brings a smaller angle into [-180, 180) |
| Angles.NormalizeAngle | Assets/trueHeading.cs:121-126 | The result lies in [-180, 180], differs from the input by a whole number of turns, and equals the input on [-180, 180] |
| Angles.NormalizeAngleIdempotent | Assets/trueHeading.cs:121-126 | Normalising twice equals normalising once |
| Angles.NormalizeAngleUnique | Assets/trueHeading.cs:121-126 | Any angle in (-180, 180) a whole number of turns from the input is the result |
| Angles.NormalizeAngleTurnInvariant | Assets/trueHeading.cs:121-126 | Adding or subtracting a full turn does not change the result, away from the +-180 seam |
| Angles.NormalizeAcrossNorth | Assets/trueHeading.cs:77 | A compass/estimate difference of 358 degrees is resolved as -2, and of -358 as 2 |
| CompassWindow.Push | Assets/trueHeading.cs:59-60 | The reading is appended last; the oldest reading is evicted only when the window is full; the result is a suffix of old window plus reading, of size min(n+1, 20) |
| CompassWindow.FeedKeepsNewest | Assets/trueHeading.cs:59-60 | After any series of readings the window holds exactly the newest 20 readings, in arrival order, and never more than 20 |
| CompassWindow.SumOfSquares | Assets/trueHeading.cs:96 | The sum of squared deviations is never negative |
| CompassWindow.Variance | Assets/trueHeading.cs:92-99 | The population variance of a non-empty window is never negative |
| CompassWindow.VarianceZeroIffAllEqual | Assets/trueHeading.cs:92-99 | The variance is zero exactly when every buffered reading is the same |
| CompassWindow.NaiveVarianceAcrossNorth | Assets/trueHeading.cs:94-97 | Readings 359 and 1, two degrees apart across north, have variance 32041, because the variance ignores wrap-around |
| HeadingFusion.ShiftedHeading | Assets/trueHeading.cs:45-47 | The negated quaternion heading lands in [0, 360), names the same direction, and is kept as is when the negation is already non-negative |
| HeadingFusion.WrapAfterOffset | Assets/trueHeading.cs:49-52 | One correction each way puts a value from (-360, 720] into [0, 360], leaves [0, 360] alone, and moves only by whole turns |
| HeadingFusion.CompassError | Assets/trueHeading.cs:62-64 | The compass error is non-negative; it is 10000 while tilted (gravity y below 0.75) and the window variance otherwise |
| HeadingFusion.EstimateHeadingError | Assets/trueHeading.cs:100-105 | The scale error gains exactly 0.007 times the rate and never decreases; the heading error exceeds it by 0.001 per second since the last recalibration and is non-negative |
| HeadingFusion.Kalman | Assets/trueHeading.cs:76-79 | The result is not finite exactly when the errors sum to zero; the gain times the total error is the heading error; the estimate moves by the gain times the normalised compass/estimate difference, so +gain*180 at the seam; with non-negative errors the gain lies in [0, 1], the fused error lies in [0, headingError] and below compassError, and the estimate moves at most 180 degrees |
| HeadingFusion.KalmanMovesTowardCompass | Assets/trueHeading.cs:77 | For any representative d in (-180, 180) of the compass/estimate difference modulo whole turns, the estimate is the previous estimate plus gain times d |
| HeadingFusion.Tick | Assets/trueHeading.cs:36-80 | The window ends with the new compass reading and stays within 20; recalibration happens exactly when more than 10 s passed and the compass error is below 2, and then sets offset, scale error and time, and otherwise keeps offset and time and grows the scale error; tilt forces error 10000 and blocks recalibration; the next previous estimate is the heading after offset, not the Kalman output |
| HeadingFusion.TickComputes | Assets/trueHeading.cs:45-79 | A tick reports the shifted heading, the wrapped heading after offset, and the compass error of the window with the new reading pushed; the heading error is computed from the scale error before any recalibration resets it; the Kalman step runs from the old previous estimate with exactly those two errors |
| HeadingFusion.InitialValid | Assets/trueHeading.cs:12-25 | The default field values satisfy the filter invariant |
| HeadingFusion.TickPreservesValid | Assets/trueHeading.cs:36-80 | A tick keeps the window within 20, the scale error non-negative, the offset within a turn, and the previous estimate in [0, 360]; the heading error is non-negative and a finite Kalman step is bounded |
| HeadingFusion.RunPreservesValid | Assets/trueHeading.cs:36-80 | The filter invariant holds after any run of well-formed samples in time order |
| HeadingFusion.KalmanTrustsExactCompass | Assets/trueHeading.cs:76-77 | With zero compass error the gain is 1 and the estimate names the compass direction |
| HeadingFusion.KalmanIgnoresCompassWhenGyroExact | Assets/trueHeading.cs:76-79 | With zero gyro error the estimate stays at the previous estimate with zero error |
| HeadingFusion.TiltedGainIsTiny | Assets/trueHeading.cs:62-77 | While the phone is tilted, a tick's finite Kalman gain is at most its heading error divided by 10000 |
| HeadingFusion.KalmanErrorSymmetric | Assets/trueHeading.cs:76-79 | The fused error is h*c/(h+c), symmetric in the two errors |
| PitchFilter.Clamp01 | Assets/StepCalculation.cs:47 | The interpolation factor is clamped into [0, 1] and unchanged inside it |
| PitchFilter.Lerp | Assets/StepCalculation.cs:47 | The interpolated value lies between the endpoints, and its gap to the target is the old gap times 1 - t |
| PitchFilter.Fuse | Assets/StepCalculation.cs:46 | The fused pitch lies between the gyro-propagated pitch and the accelerometer pitch, and its gap to the accelerometer pitch is 0.9 of the propagated gap |
| PitchFilter.Smooth | Assets/StepCalculation.cs:47 | The smoothed pitch lies between the old smoothed and the fused pitch and closes a tenth of the gap |
| PitchFilter.SmoothingConverges | Assets/StepCalculation.cs:47 | Under a constant fused pitch the gap after n frames is 0.9^n of the initial gap |
| PitchFilter.FusionConverges | Assets/StepCalculation.cs:46 | With the gyro at rest the fused pitch approaches the accelerometer pitch, its gap shrinking by 0.9 per frame |
| Motion.HorizontalDirection | Assets/StepCalculation.cs:104-108 | The direction is horizontal, of unit length when the forward vector is not vertical and zero otherwise, parallel to the forward vector and pointing the same way |
| Motion.Displacement | Assets/StepCalculation.cs:104-111 | A step's displacement is horizontal, its squared length is the squared step length when the forward vector is not vertical, it is parallel to the forward vector and along it for a non-negative length, and it is zero for a vertical forward vector |
| Motion.MoveObject | Assets/StepCalculation.cs:101-116 | The height is unchanged; the horizontal move has exactly the step length, is parallel to and along the forward vector; a vertical forward vector does not move the object |
| Motion.WalkIsSum | Assets/StepCalculation.cs:111-112 | The position is an additive accumulator: a walk adds the sum of the step displacements |
| Motion.WalkKeepsHeight | Assets/StepCalculation.cs:107-112 | No walk changes the height |
| Motion.WalkConcat | Assets/StepCalculation.cs:112 | Two walks in a row are one walk over the concatenated steps |
| Motion.ZeroLengthWalk | Assets/StepCalculation.cs:111-112 | Steps of length zero leave the position unchanged |
| Motion.StraightWalk | Assets/StepCalculation.cs:111-112 | n equal steps move the position by n times one step's displacement |
| StepDetection.Classify | Assets/StepCalculation.cs:80-85 | The type, and its stored code 2, 1 or 0, is up exactly above 8, down exactly below 4.5, flat exactly in [4.5, 8] |
| StepDetection.ClassifyMonotone | Assets/StepCalculation.cs:80-85 | A steeper peak never yields a lower type on the scale down < flat < up |
| StepDetection.EveryTypeAboveThreshold | Assets/StepCalculation.cs:71-85 | All three types occur for pitches above the step threshold |
| StepDetection.StepLengthFor | Assets/StepCalculation.cs:88 | A step fired above pitch 3 is longer than 0.8 |
| StepDetection.StepLengthRoundTrip | Assets/StepCalculation.cs:88 | The length formula is inverted by (length - 0.5) * 10, both ways |
| StepDetection.StepLengthIncreasing | Assets/StepCalculation.cs:88 | A steeper peak gives a strictly longer step |
| StepDetection.Start | Assets/StepCalculation.cs:9-31 | The start state has no steps, an armed detector, previous pitch 0 and deadline 0, resting filters and heading, the flat code 0, the default length 0.7, the start time and position, and no pitch at any time passes its peak test |
| StepDetection.DetectSteps | Assets/StepCalculation.cs:67-99 | The previous pitch becomes the absolute pitch; the count rises by one exactly when the peak condition holds while armed, and then the deadline, type, length and position are set; otherwise deadline, type, length and position are unchanged; the armed flag is cleared exactly when the peak condition fails |
| StepDetection.RefractoryPeriod | Assets/StepCalculation.cs:71-76 | After a step at time t no pitch satisfies the peak condition at any time up to t + 0.75 |
| StepDetection.NoRecountWhileHeld | Assets/StepCalculation.cs:71-96 | While the peak condition holds and the detector is disarmed, only the previous pitch changes |
| StepDetection.FirstSampleNeverSteps | Assets/StepCalculation.cs:14-17 | From the start state the first sample never counts a step |
| StepDetection.SwingFromNegativeCounts | Assets/StepCalculation.cs:69-98 | After pitch -10, pitch 5 counts a step although the signed pitch rose, because the stored previous pitch is absolute |
| StepDetection.Update | Assets/StepCalculation.cs:35-99 | One frame records the time; the fused pitch's gap to the accelerometer pitch is 0.9 of the gyro-propagated gap, and the smoothed pitch closes a tenth of its gap to the fused pitch, each lying between its two sources; the heading turns by -rateY times the elapsed time; the absolute smoothed pitch is stored; a step is added exactly when the new smoothed pitch is above 3, no higher than the previous absolute pitch, past the deadline and the detector is armed, and it then sets the deadline 0.75 s ahead, the type and length of that pitch and the moved position, which otherwise all stay; the detector is disarmed exactly while the peak condition holds; the height is kept |
| StepDetection.RunIsWalk | Assets/StepCalculation.cs:67-116 | Over a run the count rises by the number of strides taken, and the position is exactly the walk over those strides |
| StepDetection.RunCountBounds | Assets/StepCalculation.cs:75 | The count never falls and rises by at most one per frame |
| StepDetection.RunKeepsHeight | Assets/StepCalculation.cs:107-112 | The tracked object never changes height |
| StepDetection.HeadingIntegratesRate | Assets/StepCalculation.cs:35-50 | With a constant yaw rate the heading turns by exactly -rate times the elapsed time |
| StepDetection.WindowInvariant | Assets/StepCalculation.cs:71-76 | Inside a window of 0.75 s, a counted step pushes the deadline past the window's end |
| StepDetection.AtMostOneStepPerWindow | Assets/StepCalculation.cs:71-76 | At most one step is counted in any 0.75 s window |
| StepDetection.LastPitchNonNegative | Assets/StepCalculation.cs:98 | After at least one frame the stored previous pitch is non-negative |
| Classifier.ScalerWellDefined | Assets/ModelClassifier.cs:12-13 | There are five means and five deviations, and every deviation is positive |
| Classifier.FeatureRoundTrip | Assets/ModelClassifier.cs:50 | Standardising a feature is undone by multiplying by the deviation and adding the mean, both ways |
| Classifier.Standardize | Assets/ModelClassifier.cs:45-53 | Scaling keeps the length, and each scaled feature unscales back to the raw feature with its own mean and deviation |
| Classifier.Unstandardize | Assets/ModelClassifier.cs:50 | Unscaling keeps the length, and each unscaled value scales back to the given feature |
| Classifier.StandardizeRoundTrip | Assets/ModelClassifier.cs:45-53 | Scaling and unscaling are inverse, both ways |
| Classifier.MeansScaleToZero | Assets/ModelClassifier.cs:12-50 | The stored means scale to all zeros |
| Classifier.ScaleInput | Assets/ModelClassifier.cs:45-53 | Fails exactly when the input has more than five features; otherwise returns the reference scaling, of the same length, which unscales back to the input |
| Classifier.FirstMaxUnique | Assets/ModelClassifier.cs:55-69 | An array has only one first maximum |
| Classifier.ArgMax | Assets/ModelClassifier.cs:55-69 | Fails exactly on an empty array; otherwise returns an in-range index whose element is at least every element and strictly above every earlier one |
| Classifier.ArgMaxSingleton | Assets/ModelClassifier.cs:58-59 | A one-element array yields index 0 |
| Classifier.PredictStep | Assets/ModelClassifier.cs:28-43 | Fails on more than five features or an empty network output; otherwise returns the first maximum of the network's output on the scaled input |

## Left out

- Unity I/O is left out: `Input.gyro`, `Input.compass`, `Time.time`, the UI text updates and the `Transform` rotation writes. Sensor values and times are tick parameters.
- `CalculateHeading` (Assets/trueHeading.cs:107-119), the accelerometer pitch `Atan2` (Assets/StepCalculation.cs:41) and `Quaternion.Euler` are trigonometry. Their results are real inputs; the quaternion heading is assumed to lie in [-180, 180].
- The forward vector comes from the object's rotation, which `Update` sets from the heading after `DetectSteps` runs. The model takes the forward vector as an input of each frame.
- IEEE float rounding, overflow and NaN propagation are not modelled; all arithmetic is on reals. The one division by zero the code can reach, in the Kalman gain, becomes the `NotFinite` result.
- Exceptions become error results: `ScaleInput` on more than five features and `ArgMax` on an empty array index out of range in the code.
- The Sentis network load, GPU worker, tensor scheduling and download (Assets/ModelClassifier.cs:15-26, 33-41, 71-74) are foreign calls. The network is an arbitrary function parameter of `PredictStep`.
- `DetectSteps`' `accMagnitude` parameter and `MoveObject`'s `stepType` parameter are unused in the code and are dropped.
- `smoothedPitch` is a static field shared by all detector instances. The model has one detector, so it is a plain state field.
- Presentation and I/O files are not part of this model: GraphRenderer.cs, MobileIMUSensors.cs, DeviceLocation.cs, PhoneMovementFollower.cs, CameraFollow.cs, PhoneTrail.cs and ValueTracker.cs.
- Motion.Displacement: states the horizontal length through its square, for the same reason as `MoveObject` below.
- Motion.MoveObject: states the horizontal length through its square (`Square(dx) + Square(dz) == Square(stepLength)`), because square roots are not available over the reals here; a negative step length, which the code never produces, is not excluded.
- HeadingFusion.Kalman: the bounds on gain, error and move are stated only for non-negative errors, which is what the tick supplies.
