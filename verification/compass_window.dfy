/** The rolling window of recent compass readings kept by the heading filter,
    and the population variance computed over it. */
module CompassWindow {

  import opened RealArith

  /** The window never grows beyond this many readings. */
  const Capacity: nat := 20

  function Min(a: int, b: int): int {
    if a <= b then a else b
  }

  /** The newest `n` elements of `s` (all of them when `s` is shorter). */
  function Newest<T>(s: seq<T>, n: nat): seq<T> {
    s[|s| - Min(|s|, n)..]
  }

  /** Appends one reading; when the window is full, the oldest reading is
      evicted first. */
  function Push(buffer: seq<real>, reading: real): (r: seq<real>)
    ensures 0 < |r| <= |buffer| + 1 && r[|r| - 1] == reading
    ensures |buffer| <= Capacity ==> |r| == Min(|buffer| + 1, Capacity)
    ensures r == (buffer + [reading])[|buffer| + 1 - |r|..]
  {
    if |buffer| >= Capacity then
      assert buffer[1..] + [reading] == (buffer + [reading])[1..];
      buffer[1..] + [reading]
    else
      assert (buffer + [reading])[0..] == buffer + [reading];
      buffer + [reading]
  }

  /** Pushing onto the newest window of `t` gives the newest window of `t + [x]`. */
  lemma PushNewest(t: seq<real>, x: real)
    ensures Push(Newest(t, Capacity), x) == Newest(t + [x], Capacity)
  {
    var w := Newest(t, Capacity);
    if |t| >= Capacity {
      assert |w| == Capacity;
      assert w[1..] == t[|t| + 1 - Capacity..];
      assert Newest(t + [x], Capacity) == (t + [x])[|t| + 1 - Capacity..];
      assert (t + [x])[|t| + 1 - Capacity..] == t[|t| + 1 - Capacity..] + [x];
    } else {
      assert w == t;
      assert Newest(t + [x], Capacity) == t + [x];
    }
  }

  /** Pushes a whole series of readings, oldest first. */
  function Feed(buffer: seq<real>, readings: seq<real>): seq<real>
    decreases |readings|
  {
    if |readings| == 0 then buffer
    else Push(Feed(buffer, readings[..|readings| - 1]), readings[|readings| - 1])
  }

  lemma SplitLast(s: seq<real>)
    requires |s| > 0
    ensures s == s[..|s| - 1] + [s[|s| - 1]]
  {
  }

  /** FIFO: after any series of readings the window holds exactly the newest
      `Capacity` readings seen, in arrival order. */
  lemma {:induction false} FeedKeepsNewest(buffer: seq<real>, readings: seq<real>)
    requires |buffer| <= Capacity
    ensures Feed(buffer, readings) == Newest(buffer + readings, Capacity)
    ensures |Feed(buffer, readings)| <= Capacity
    decreases |readings|
  {
    if |readings| == 0 {
      assert buffer + readings == buffer;
    } else {
      var n := |readings|;
      var earlier := readings[..n - 1];
      var x := readings[n - 1];
      FeedKeepsNewest(buffer, earlier);
      var w := Feed(buffer, earlier);
      var t := buffer + earlier;
      SplitLast(readings);
      assert buffer + readings == t + [x];
      assert Feed(buffer, readings) == Push(w, x);
      PushNewest(t, x);
      assert w == Newest(t, Capacity);
    }
  }

  function Sum(s: seq<real>): real {
    if |s| == 0 then 0.0 else s[0] + Sum(s[1..])
  }

  /** The arithmetic mean, as `List.Average()`. */
  function Mean(s: seq<real>): real
    requires |s| > 0
  {
    Sum(s) / |s| as real
  }

  /** The sum of squared deviations of `s` from `m`; never negative. */
  function SumOfSquares(s: seq<real>, m: real): (r: real)
    ensures r >= 0.0
  {
    if |s| == 0 then 0.0
    else
      SquareNonNegative(s[0] - m);
      Square(s[0] - m) + SumOfSquares(s[1..], m)
  }

  /** The population variance of the window. */
  function Variance(s: seq<real>): (v: real)
    requires |s| > 0
    ensures v >= 0.0
  {
    SumOfSquares(s, Mean(s)) / |s| as real
  }

  predicate AllEqual(s: seq<real>) {
    forall i :: 0 <= i < |s| ==> s[i] == s[0]
  }

  lemma {:induction false} SumOfConstant(s: seq<real>, c: real)
    requires forall i :: 0 <= i < |s| ==> s[i] == c
    ensures Sum(s) == |s| as real * c
  {
    if |s| > 0 {
      SumOfConstant(s[1..], c);
    }
  }

  lemma {:induction false} SumOfSquaresAtValue(s: seq<real>, m: real)
    requires forall i :: 0 <= i < |s| ==> s[i] == m
    ensures SumOfSquares(s, m) == 0.0
  {
    if |s| > 0 {
      SumOfSquaresAtValue(s[1..], m);
    }
  }

  /** One reading away from `m` makes the sum of squares strictly positive. */
  lemma {:induction false} SumOfSquaresPositive(s: seq<real>, m: real, i: int)
    requires 0 <= i < |s| && s[i] != m
    ensures SumOfSquares(s, m) > 0.0
  {
    if i == 0 {
      SquarePositive(s[0] - m);
    } else {
      SquareNonNegative(s[0] - m);
      assert s[1..][i - 1] == s[i];
      SumOfSquaresPositive(s[1..], m, i - 1);
    }
  }

  /** The variance is zero exactly when every buffered reading is the same. */
  lemma {:induction false} VarianceZeroIffAllEqual(s: seq<real>)
    requires |s| > 0
    ensures Variance(s) == 0.0 <==> AllEqual(s)
  {
    if AllEqual(s) {
      SumOfConstant(s, s[0]);
      assert Mean(s) == s[0];
      SumOfSquaresAtValue(s, s[0]);
    }
    if !AllEqual(s) {
      var i :| 0 <= i < |s| && s[i] != s[0];
      var k := if s[i] != Mean(s) then i else 0;
      SumOfSquaresPositive(s, Mean(s), k);
      assert Variance(s) > 0.0;
    }
  }

  /** The variance is taken on the raw numbers, not on directions: two
      readings two degrees apart across north count as wildly unstable. */
  lemma NaiveVarianceAcrossNorth()
    ensures Variance([359.0, 1.0]) == 32041.0
  {
    assert Sum([359.0, 1.0]) == 360.0;
    assert SumOfSquares([359.0, 1.0], 180.0) == 64082.0;
  }
}
