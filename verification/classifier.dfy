/** The glue around the step classifier network (`ModelClassifier`): the raw
    feature vector is standardised with the training-time scaler, fed to the
    network, and the index of the most probable class is returned. The
    network itself is a parameter. */
module Classifier {

  /** Per-feature means of the training-time scaler. */
  const Means: seq<real> := [2.85158444, -2.09365348, 1.06248185, -0.55495541, 0.81567667]
  /** Per-feature standard deviations of the training-time scaler. */
  const Stds: seq<real> := [0.56171271, 0.64174425, 0.32367693, 0.15503442, 0.08138782]

  /** The scaler knows this many features. */
  const FeatureCount: nat := 5

  /** Every stored deviation is positive, so standardising is well defined. */
  lemma ScalerWellDefined()
    ensures |Means| == FeatureCount && |Stds| == FeatureCount
    ensures forall i :: 0 <= i < |Stds| ==> Stds[i] > 0.0
  {
  }

  /** The only failure of the glue: an array index past the end, which the
      runtime raises as an exception. */
  datatype ClassifierError = IndexOutOfRange

  datatype Result<T> = Ok(value: T) | Err(error: ClassifierError)

  /** Standardises one feature. */
  function ScaleFeature(x: real, i: nat): real
    requires i < FeatureCount
  {
    ScalerWellDefined();
    (x - Means[i]) / Stds[i]
  }

  /** Undoes the standardisation of one feature. */
  function UnscaleFeature(z: real, i: nat): real
    requires i < FeatureCount
  {
    z * Stds[i] + Means[i]
  }

  lemma FeatureRoundTrip(x: real, z: real, i: nat)
    requires i < FeatureCount
    ensures UnscaleFeature(ScaleFeature(x, i), i) == x
    ensures ScaleFeature(UnscaleFeature(z, i), i) == z
  {
    ScalerWellDefined();
    var s := Stds[i];
    assert ((x - Means[i]) / s) * s == x - Means[i];
    assert (z * s + Means[i] - Means[i]) / s == z;
  }

  /** Standardises the whole input, feature by feature: each result is the
      one value the matching unscaling maps back to the raw feature. */
  function Standardize(input: seq<real>): (r: seq<real>)
    requires |input| <= FeatureCount
    ensures |r| == |input|
    ensures forall i :: 0 <= i < |input| ==> UnscaleFeature(r[i], i) == input[i]
  {
    var r := seq(|input|, i requires 0 <= i < |input| => ScaleFeature(input[i], i));
    assert forall i :: 0 <= i < |input| ==> UnscaleFeature(r[i], i) == input[i] by {
      forall i | 0 <= i < |input| {
        FeatureRoundTrip(input[i], 0.0, i);
      }
    }
    r
  }

  /** Maps standardised features back to raw ones: each result is the raw
      value that standardises to the given feature. */
  function Unstandardize(scaled: seq<real>): (r: seq<real>)
    requires |scaled| <= FeatureCount
    ensures |r| == |scaled|
    ensures forall i :: 0 <= i < |scaled| ==> ScaleFeature(r[i], i) == scaled[i]
  {
    var r := seq(|scaled|, i requires 0 <= i < |scaled| => UnscaleFeature(scaled[i], i));
    assert forall i :: 0 <= i < |scaled| ==> ScaleFeature(r[i], i) == scaled[i] by {
      forall i | 0 <= i < |scaled| {
        FeatureRoundTrip(0.0, scaled[i], i);
      }
    }
    r
  }

  /** Standardising loses nothing: it is undone by `Unstandardize`, both ways. */
  lemma StandardizeRoundTrip(input: seq<real>, scaled: seq<real>)
    requires |input| <= FeatureCount && |scaled| <= FeatureCount
    ensures Unstandardize(Standardize(input)) == input
    ensures Standardize(Unstandardize(scaled)) == scaled
  {
    forall i | 0 <= i < |input|
      ensures Unstandardize(Standardize(input))[i] == input[i]
    {
      FeatureRoundTrip(input[i], 0.0, i);
    }
    forall i | 0 <= i < |scaled|
      ensures Standardize(Unstandardize(scaled))[i] == scaled[i]
    {
      FeatureRoundTrip(0.0, scaled[i], i);
    }
  }

  /** An input equal to the training means scales to all zeros. */
  lemma MeansScaleToZero()
    ensures Standardize(Means) == [0.0, 0.0, 0.0, 0.0, 0.0]
  {
    ScalerWellDefined();
    var z := Standardize(Means);
    forall i | 0 <= i < 5
      ensures z[i] == 0.0
    {
      assert ScaleFeature(Means[i], i) == 0.0 / Stds[i];
    }
  }

  /** `ScaleInput`: standardises a raw feature array. An array longer than the
      scaler indexes past the stored means and fails. */
  method ScaleInput(input: seq<real>) returns (r: Result<seq<real>>)
    ensures r.Err? <==> |input| > FeatureCount
    ensures r.Ok? ==> |r.value| == |input|
    ensures r.Ok? ==> forall i :: 0 <= i < |input| ==> UnscaleFeature(r.value[i], i) == input[i]
    ensures r.Ok? ==> r.value == Standardize(input)
  {
    var scaled: seq<real> := [];
    var i := 0;
    while i < |input|
      invariant 0 <= i <= |input| && i <= FeatureCount
      invariant |scaled| == i
      invariant forall k :: 0 <= k < i ==> scaled[k] == ScaleFeature(input[k], k)
      invariant forall k :: 0 <= k < i ==> UnscaleFeature(scaled[k], k) == input[k]
    {
      if i >= FeatureCount {
        return Err(IndexOutOfRange);
      }
      FeatureRoundTrip(input[i], 0.0, i);
      scaled := scaled + [ScaleFeature(input[i], i)];
      i := i + 1;
    }
    return Ok(scaled);
  }

  /** `k` is the first index holding the maximum of `a`. */
  predicate IsFirstMax(a: seq<real>, k: int) {
    && 0 <= k < |a|
    && (forall j :: 0 <= j < |a| ==> a[j] <= a[k])
    && (forall j :: 0 <= j < k ==> a[j] < a[k])
  }

  /** There is only one first maximum. */
  lemma FirstMaxUnique(a: seq<real>, k: int, m: int)
    requires IsFirstMax(a, k) && IsFirstMax(a, m)
    ensures k == m
  {
    assert a[k] <= a[m] && a[m] <= a[k];
  }

  /** `ArgMax`: the index of the largest element, the lowest such index on a
      tie. An empty array has no first element to read and fails. */
  method ArgMax(a: seq<real>) returns (r: Result<int>)
    ensures r.Err? <==> |a| == 0
    ensures r.Ok? ==> IsFirstMax(a, r.value)
  {
    if |a| == 0 {
      return Err(IndexOutOfRange);
    }
    var maxIndex := 0;
    var maxValue := a[0];
    var i := 1;
    while i < |a|
      invariant 1 <= i <= |a|
      invariant 0 <= maxIndex < i && maxValue == a[maxIndex]
      invariant forall j :: 0 <= j < i ==> a[j] <= maxValue
      invariant forall j :: 0 <= j < maxIndex ==> a[j] < maxValue
    {
      if a[i] > maxValue {
        maxValue := a[i];
        maxIndex := i;
      }
      i := i + 1;
    }
    return Ok(maxIndex);
  }

  /** A single-element array always yields index 0. */
  method ArgMaxSingleton(x: real) returns (r: Result<int>)
    ensures r == Ok(0)
  {
    r := ArgMax([x]);
    FirstMaxUnique([x], r.value, 0);
  }

  /** `PredictStep`: scale the raw features, run the network, pick the most
      probable class. Fails when either array access would go out of range. */
  method PredictStep(rawInput: seq<real>, network: seq<real> -> seq<real>) returns (r: Result<int>)
    ensures |rawInput| > FeatureCount ==> r.Err?
    ensures |rawInput| <= FeatureCount ==>
      var predictions := network(Standardize(rawInput));
      && (r.Err? <==> |predictions| == 0)
      && (r.Ok? ==> IsFirstMax(predictions, r.value))
  {
    var scaled := ScaleInput(rawInput);
    if scaled.Err? {
      return Err(scaled.error);
    }
    var predictions := network(scaled.value);
    r := ArgMax(predictions);
  }
}
