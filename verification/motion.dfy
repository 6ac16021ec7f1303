/** Moving the tracked object by one step (`StepDetector.MoveObject`): the
    object's forward vector is flattened onto the ground plane, normalised,
    scaled by the step length and added to the accumulated position. */
module Motion {

  import opened RealArith

  datatype Vec3 = Vec3(x: real, y: real, z: real) {
    function Plus(o: Vec3): Vec3 {
      Vec3(x + o.x, y + o.y, z + o.z)
    }

    function Scaled(k: real): Vec3 {
      Vec3(Mul(k, x), Mul(k, y), Mul(k, z))
    }
  }

  const Origin := Vec3(0.0, 0.0, 0.0)

  /** Below this magnitude `Vector3.Normalize` yields the zero vector. */
  const NormalizeEpsilon: real := 0.00001

  /** `norm` is the length of the horizontal part of `v`: the square root the
      engine computes, passed in through the relation that defines it. */
  predicate IsHorizontalNorm(v: Vec3, norm: real) {
    norm >= 0.0 && Square(norm) == Square(v.x) + Square(v.z)
  }

  lemma QuotientSquare(a: real, n: real)
    requires n != 0.0
    ensures Mul(Square(a / n), Square(n)) == Square(a)
  {
    var q := a / n;
    assert q * n == a;
    assert (q * q) * (n * n) == (q * n) * (q * n);
  }

  lemma UnitFromNorm(v: Vec3, norm: real)
    requires IsHorizontalNorm(v, norm) && norm > 0.0
    ensures Square(v.x / norm) + Square(v.z / norm) == 1.0
  {
    QuotientSquare(v.x, norm);
    QuotientSquare(v.z, norm);
    var s := Square(v.x / norm) + Square(v.z / norm);
    assert Mul(s, Square(norm)) == Mul(Square(v.x / norm), Square(norm)) + Mul(Square(v.z / norm), Square(norm));
    SquarePositive(norm);
    assert Mul(s, Square(norm)) == Mul(1.0, Square(norm));
    MulCancel(s, 1.0, Square(norm));
  }

  lemma MulCancel(a: real, b: real, c: real)
    requires c != 0.0 && Mul(a, c) == Mul(b, c)
    ensures a == b
  {
    assert (a - b) * c == 0.0;
  }

  lemma AlignedWithForward(v: Vec3, norm: real)
    requires IsHorizontalNorm(v, norm) && norm > 0.0
    ensures Mul(v.x / norm, v.z) == Mul(v.z / norm, v.x)
    ensures Mul(v.x / norm, v.x) + Mul(v.z / norm, v.z) == norm
  {
    assert (v.x / norm) * v.z == (v.x * v.z) / norm;
    assert (v.z / norm) * v.x == (v.x * v.z) / norm;
    assert (v.x / norm) * v.x + (v.z / norm) * v.z == (v.x * v.x + v.z * v.z) / norm;
    assert v.x * v.x + v.z * v.z == norm * norm;
    assert (norm * norm) / norm == norm;
  }

  /** `Vector3.Normalize` of the forward vector with its vertical part
      cleared: a horizontal unit vector pointing the same way, or zero when
      the forward vector is (nearly) vertical. */
  function HorizontalDirection(forward: Vec3, norm: real): (d: Vec3)
    requires IsHorizontalNorm(forward, norm)
    ensures d.y == 0.0
    ensures norm > NormalizeEpsilon ==> Square(d.x) + Square(d.z) == 1.0
    ensures norm <= NormalizeEpsilon ==> d == Origin
    ensures Mul(d.x, forward.z) == Mul(d.z, forward.x)
    ensures Mul(d.x, forward.x) + Mul(d.z, forward.z) >= 0.0
  {
    if norm > NormalizeEpsilon then
      UnitFromNorm(forward, norm);
      AlignedWithForward(forward, norm);
      Vec3(forward.x / norm, 0.0, forward.z / norm)
    else
      Origin
  }

  /** The displacement of one step: level, exactly `stepLength` long (as a
      square) along the forward vector's horizontal part, in its sense for a
      non-negative length, and nothing when that part is (nearly) zero. */
  function Displacement(stepLength: real, forward: Vec3, norm: real): (d: Vec3)
    requires IsHorizontalNorm(forward, norm)
    ensures d.y == 0.0
    ensures norm > NormalizeEpsilon ==> Square(d.x) + Square(d.z) == Square(stepLength)
    ensures norm <= NormalizeEpsilon ==> d == Origin
    ensures Mul(d.x, forward.z) == Mul(d.z, forward.x)
    ensures stepLength >= 0.0 ==> Mul(d.x, forward.x) + Mul(d.z, forward.z) >= 0.0
  {
    var u := HorizontalDirection(forward, norm);
    ScaledUnitLength(stepLength, u);
    ScaledParallel(stepLength, u, forward);
    ScaledSameSense(stepLength, u, forward);
    u.Scaled(stepLength)
  }

  lemma ScaledUnitLength(k: real, u: Vec3)
    ensures Square(u.x) + Square(u.z) == 1.0 ==> Square(u.Scaled(k).x) + Square(u.Scaled(k).z) == Square(k)
  {
    assert (k * u.x) * (k * u.x) + (k * u.z) * (k * u.z) == (k * k) * (u.x * u.x + u.z * u.z);
  }

  lemma ScaledParallel(k: real, u: Vec3, f: Vec3)
    requires Mul(u.x, f.z) == Mul(u.z, f.x)
    ensures Mul(u.Scaled(k).x, f.z) == Mul(u.Scaled(k).z, f.x)
  {
    assert (k * u.x) * f.z == k * (u.x * f.z);
    assert (k * u.z) * f.x == k * (u.z * f.x);
  }

  lemma ScaledSameSense(k: real, u: Vec3, f: Vec3)
    requires Mul(u.x, f.x) + Mul(u.z, f.z) >= 0.0
    ensures k >= 0.0 ==> Mul(u.Scaled(k).x, f.x) + Mul(u.Scaled(k).z, f.z) >= 0.0
  {
    assert (k * u.x) * f.x + (k * u.z) * f.z == k * (u.x * f.x + u.z * f.z);
    if k >= 0.0 {
      MulPositiveOrZero(k, u.x * f.x + u.z * f.z);
    }
  }

  lemma MulPositiveOrZero(p: real, q: real)
    requires p >= 0.0 && q >= 0.0
    ensures p * q >= 0.0
  {
    if p > 0.0 && q > 0.0 {
      MulPositive(p, q);
    }
  }

  /** One step of the accumulator: the height is untouched, the horizontal
      move has exactly the step length and points along the forward vector,
      and a (nearly) vertical forward vector does not move the object. */
  function MoveObject(position: Vec3, stepLength: real, forward: Vec3, norm: real): (p: Vec3)
    requires IsHorizontalNorm(forward, norm)
    ensures p.y == position.y
    ensures norm > NormalizeEpsilon ==> Square(p.x - position.x) + Square(p.z - position.z) == Square(stepLength)
    ensures norm <= NormalizeEpsilon ==> p == position
    ensures Mul(p.x - position.x, forward.z) == Mul(p.z - position.z, forward.x)
    ensures stepLength >= 0.0 ==> Mul(p.x - position.x, forward.x) + Mul(p.z - position.z, forward.z) >= 0.0
  {
    var d := Displacement(stepLength, forward, norm);
    var p := position.Plus(d);
    assert p.x - position.x == d.x && p.z - position.z == d.z;
    p
  }

  /** One step's inputs. */
  datatype Stride = Stride(length: real, forward: Vec3, norm: real)

  predicate WellFormedStrides(strides: seq<Stride>) {
    forall i :: 0 <= i < |strides| ==> IsHorizontalNorm(strides[i].forward, strides[i].norm)
  }

  /** Applies a series of steps, in order. */
  function Walk(position: Vec3, strides: seq<Stride>): Vec3
    requires WellFormedStrides(strides)
    decreases |strides|
  {
    if |strides| == 0 then position
    else
      var st := strides[0];
      Walk(MoveObject(position, st.length, st.forward, st.norm), strides[1..])
  }

  /** The sum of the steps' displacements. */
  function TotalDisplacement(strides: seq<Stride>): Vec3
    requires WellFormedStrides(strides)
    decreases |strides|
  {
    if |strides| == 0 then Origin
    else
      var st := strides[0];
      Displacement(st.length, st.forward, st.norm).Plus(TotalDisplacement(strides[1..]))
  }

  lemma PlusAssociative(a: Vec3, b: Vec3, c: Vec3)
    ensures a.Plus(b).Plus(c) == a.Plus(b.Plus(c))
  {
  }

  /** The position is a pure additive accumulator: walking adds the total
      displacement, whatever the order of the steps within it. */
  lemma {:induction false} WalkIsSum(position: Vec3, strides: seq<Stride>)
    requires WellFormedStrides(strides)
    ensures Walk(position, strides) == position.Plus(TotalDisplacement(strides))
    decreases |strides|
  {
    if |strides| > 0 {
      var st := strides[0];
      var d := Displacement(st.length, st.forward, st.norm);
      var next := MoveObject(position, st.length, st.forward, st.norm);
      assert next == position.Plus(d);
      WalkIsSum(next, strides[1..]);
      PlusAssociative(position, d, TotalDisplacement(strides[1..]));
    }
  }

  /** Walking never changes the height. */
  lemma {:induction false} WalkKeepsHeight(position: Vec3, strides: seq<Stride>)
    requires WellFormedStrides(strides)
    ensures Walk(position, strides).y == position.y
    decreases |strides|
  {
    if |strides| > 0 {
      var st := strides[0];
      WalkKeepsHeight(MoveObject(position, st.length, st.forward, st.norm), strides[1..]);
    }
  }

  /** Two walks in a row are one walk over the concatenated steps. */
  lemma {:induction false} WalkConcat(position: Vec3, a: seq<Stride>, b: seq<Stride>)
    requires WellFormedStrides(a) && WellFormedStrides(b)
    ensures WellFormedStrides(a + b)
    ensures Walk(position, a + b) == Walk(Walk(position, a), b)
    decreases |a|
  {
    assert WellFormedStrides(a + b) by {
      forall i | 0 <= i < |a + b|
        ensures IsHorizontalNorm((a + b)[i].forward, (a + b)[i].norm)
      {
        if i < |a| {
          assert (a + b)[i] == a[i];
        } else {
          assert (a + b)[i] == b[i - |a|];
        }
      }
    }
    if |a| > 0 {
      var st := a[0];
      assert (a + b)[0] == st;
      assert (a + b)[1..] == a[1..] + b;
      var next := MoveObject(position, st.length, st.forward, st.norm);
      assert WellFormedStrides(a[1..]);
      WalkConcat(next, a[1..], b);
      assert Walk(position, a + b) == Walk(next, a[1..] + b);
      assert Walk(position, a) == Walk(next, a[1..]);
    } else {
      assert a + b == b;
    }
  }

  /** Steps of length zero leave the position where it was. */
  lemma {:induction false} ZeroLengthWalk(position: Vec3, strides: seq<Stride>)
    requires WellFormedStrides(strides)
    requires forall i :: 0 <= i < |strides| ==> strides[i].length == 0.0
    ensures Walk(position, strides) == position
    decreases |strides|
  {
    if |strides| > 0 {
      var st := strides[0];
      var u := HorizontalDirection(st.forward, st.norm);
      assert u.Scaled(0.0) == Origin;
      assert MoveObject(position, st.length, st.forward, st.norm) == position;
      ZeroLengthWalk(position, strides[1..]);
    }
  }

  lemma ScaledSuccessor(d: Vec3, n: nat)
    requires n > 0
    ensures d.Plus(d.Scaled((n - 1) as real)) == d.Scaled(n as real)
  {
    assert Mul(n as real, d.x) == d.x + Mul((n - 1) as real, d.x);
    assert Mul(n as real, d.y) == d.y + Mul((n - 1) as real, d.y);
    assert Mul(n as real, d.z) == d.z + Mul((n - 1) as real, d.z);
  }

  lemma ScaledZero(d: Vec3)
    ensures d.Scaled(0.0) == Origin
  {
    assert Mul(0.0, d.x) == 0.0 && Mul(0.0, d.y) == 0.0 && Mul(0.0, d.z) == 0.0;
  }

  /** `n` copies of the same step. */
  function Repeat(st: Stride, n: nat): (r: seq<Stride>)
    ensures |r| == n && forall i :: 0 <= i < n ==> r[i] == st
  {
    seq(n, _ => st)
  }

  /** `n` equal steps move the position by `n` times one step's displacement. */
  lemma {:induction false} StraightWalk(position: Vec3, st: Stride, n: nat)
    requires IsHorizontalNorm(st.forward, st.norm)
    ensures WellFormedStrides(Repeat(st, n))
    ensures Walk(position, Repeat(st, n))
         == position.Plus(Displacement(st.length, st.forward, st.norm).Scaled(n as real))
    decreases n
  {
    var strides := Repeat(st, n);
    var d := Displacement(st.length, st.forward, st.norm);
    if n > 0 {
      var next := MoveObject(position, st.length, st.forward, st.norm);
      assert strides[1..] == Repeat(st, n - 1);
      assert Walk(position, strides) == Walk(next, Repeat(st, n - 1));
      StraightWalk(next, st, n - 1);
      assert next == position.Plus(d);
      var rest := d.Scaled((n - 1) as real);
      assert Walk(next, Repeat(st, n - 1)) == next.Plus(rest);
      PlusAssociative(position, d, rest);
      ScaledSuccessor(d, n);
      assert next.Plus(rest) == position.Plus(d.Scaled(n as real));
    } else {
      assert |strides| == 0;
      ScaledZero(d);
      assert position.Plus(Origin) == position;
    }
  }
}
