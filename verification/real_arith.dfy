/** Products of reals behind named functions, with the sign facts the rest of
    the model needs. Routing squares through `Mul` keeps every nonlinear step
    inside the small lemmas below. */
module RealArith {

  function Mul(p: real, q: real): real {
    p * q
  }

  function Square(x: real): real {
    Mul(x, x)
  }

  lemma MulPositive(p: real, q: real)
    requires p > 0.0 && q > 0.0
    ensures Mul(p, q) > 0.0
  {
  }

  lemma MulOfNegatives(p: real, q: real)
    requires p < 0.0 && q < 0.0
    ensures Mul(p, q) > 0.0
  {
    assert p * q == (-p) * (-q);
  }

  lemma SquarePositive(x: real)
    requires x != 0.0
    ensures Square(x) > 0.0
  {
    if x < 0.0 {
      MulOfNegatives(x, x);
    } else {
      MulPositive(x, x);
    }
  }

  lemma SquareNonNegative(x: real)
    ensures Square(x) >= 0.0
  {
    if x != 0.0 {
      SquarePositive(x);
    }
  }
}
