/**
 * Exact complex arithmetic over `real`, the value type every impedance
 * curve of the fitting engine is built from. Only the operations the model
 * calculation uses are defined: sum, difference, product, scaling by a real,
 * reciprocal, quotient, integer power and squared magnitude.
 */
module ComplexNum {

  datatype Complex = Complex(re: real, im: real)

  const Zero: Complex := Complex(0.0, 0.0)
  const One: Complex := Complex(1.0, 0.0)

  /** The point j*w of the imaginary axis at which a transfer function is evaluated. */
  function JOmega(w: real): Complex {
    Complex(0.0, w)
  }

  predicate NonZero(a: Complex) {
    a.re != 0.0 || a.im != 0.0
  }

  function Add(a: Complex, b: Complex): Complex {
    Complex(a.re + b.re, a.im + b.im)
  }

  function Sub(a: Complex, b: Complex): Complex {
    Complex(a.re - b.re, a.im - b.im)
  }

  function Mul(a: Complex, b: Complex): Complex {
    Complex(a.re * b.re - a.im * b.im, a.re * b.im + a.im * b.re)
  }

  /** Multiplication by a real factor. */
  function Scale(a: Complex, k: real): Complex {
    Complex(a.re * k, a.im * k)
  }

  function Sq(x: real): real {
    x * x
  }

  lemma SqSign(x: real)
    ensures Sq(x) >= 0.0
    ensures x != 0.0 ==> Sq(x) > 0.0
  {
    if x > 0.0 {
      calc { Sq(x); == x * x; > 0.0; }
    } else if x < 0.0 {
      calc { Sq(x); == x * x; == (-x) * (-x); > 0.0; }
    }
  }

  /** Squared magnitude |a|^2; the square root of the magnitude is never needed. */
  function AbsSq(a: Complex): (r: real)
    ensures r >= 0.0
    ensures NonZero(a) ==> r > 0.0
    ensures a == Zero ==> r == 0.0
  {
    SqSign(a.re);
    SqSign(a.im);
    Sq(a.re) + Sq(a.im)
  }

  /** 1/a, computed as the conjugate over the squared magnitude. */
  function Reciprocal(a: Complex): (r: Complex)
    requires NonZero(a)
    ensures Mul(a, r) == One
    ensures NonZero(r)
  {
    var s := AbsSq(a);
    var r := Complex(a.re / s, -a.im / s);
    calc {
      Mul(a, r).re;
      a.re * (a.re / s) - a.im * (-a.im / s);
      (a.re * a.re + a.im * a.im) / s;
      (Sq(a.re) + Sq(a.im)) / s;
      1.0;
    }
    assert Mul(a, r).im == a.re * (-a.im / s) + a.im * (a.re / s) == 0.0;
    r
  }

  /** a/b, computed as a times the reciprocal of b. */
  function Div(a: Complex, b: Complex): (r: Complex)
    requires NonZero(b)
    ensures Mul(r, b) == a
  {
    var q := Reciprocal(b);
    MulAssoc(a, q, b);
    MulComm(q, b);
    Mul(a, q)
  }

  /** x^n by repeated multiplication; x^0 is 1 for every x. */
  function Pow(x: Complex, n: nat): Complex {
    if n == 0 then One else Mul(x, Pow(x, n - 1))
  }

  lemma MulComm(a: Complex, b: Complex)
    ensures Mul(a, b) == Mul(b, a)
  {
  }

  lemma MulAssoc(a: Complex, b: Complex, c: Complex)
    ensures Mul(Mul(a, b), c) == Mul(a, Mul(b, c))
  {
  }

  lemma MulAddDistrib(a: Complex, b: Complex, c: Complex)
    ensures Mul(a, Add(b, c)) == Add(Mul(a, b), Mul(a, c))
  {
  }

  lemma ScaleMul(a: Complex, b: Complex, k: real)
    ensures Scale(Mul(a, b), k) == Mul(a, Scale(b, k))
  {
  }

  /** A quotient is determined by the product it completes. */
  lemma DivUnique(a: Complex, b: Complex, q: Complex)
    requires NonZero(b)
    requires Mul(q, b) == a
    ensures Div(a, b) == q
  {
    var bi := Reciprocal(b);
    MulAssoc(q, b, bi);
    assert Mul(q, One) == q;
    assert Div(a, b) == Mul(a, bi);
  }

  /** The reciprocal of a quotient is the swapped quotient. */
  lemma ReciprocalOfDiv(a: Complex, b: Complex)
    requires NonZero(a) && NonZero(b)
    ensures NonZero(Div(a, b))
    ensures Reciprocal(Div(a, b)) == Div(b, a)
  {
    var q := Div(a, b);
    if !NonZero(q) {
      assert false;
    }
    var rq := Reciprocal(q);
    // rq * a == rq * (q * b) == b
    MulAssoc(rq, q, b);
    MulComm(rq, q);
    assert Mul(rq, a) == b;
    DivUnique(b, a, rq);
  }
}
