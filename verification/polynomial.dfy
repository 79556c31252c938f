/**
 * Polynomials with real coefficients evaluated at complex points, and the
 * quotient of two of them, as the rational topologies use them. Coefficient
 * 0 belongs to the highest power and the last coefficient to the power 0.
 * Only evaluation without the skin-effect factor is modelled.
 */
module Polynomials {
  import opened ComplexNum

  datatype Polynomial = Polynomial(coeffs: seq<real>)
  {
    function Length(): nat {
      |coeffs|
    }
  }

  /** Copies `coeff` element by element into a fresh coefficient array. */
  method CopyCoeffs(coeff: seq<real>) returns (cs: seq<real>)
    ensures cs == coeff
  {
    var a := new real[|coeff|];
    for i := 0 to |coeff|
      invariant forall k :: 0 <= k < i ==> a[k] == coeff[k]
    {
      a[i] := coeff[i];
    }
    cs := a[..];
  }

  /** A polynomial holding a copy of the given coefficients, highest power first. */
  method NewPolynomial(coeff: seq<real>) returns (p: Polynomial)
    ensures p.coeffs == coeff
    ensures p.Length() == |coeff|
  {
    var cs := CopyCoeffs(coeff);
    p := Polynomial(cs);
  }

  /** Replaces the coefficients by a copy of `coeff`. */
  method SetCoeffs(p: Polynomial, coeff: seq<real>) returns (q: Polynomial)
    ensures q.coeffs == coeff
    ensures q.Length() == |coeff|
  {
    var cs := CopyCoeffs(coeff);
    q := p.(coeffs := cs);
  }

  /** The complex number with real part `c` and no imaginary part. */
  function Real(c: real): Complex {
    Complex(c, 0.0)
  }

  /**
   * The evaluation loop after `i` rounds: round k adds x^k times the k-th
   * coefficient counted from the end.
   */
  function ValLoop(cs: seq<real>, x: Complex, i: nat): Complex
    requires i <= |cs|
  {
    if i == 0 then Zero
    else Add(Scale(Pow(x, i - 1), cs[|cs| - i]), ValLoop(cs, x, i - 1))
  }

  /** The value of the polynomial with coefficients `cs` at `x`. */
  function PolyVal(cs: seq<real>, x: Complex): Complex {
    ValLoop(cs, x, |cs|)
  }

  /**
   * The reference reading of the coefficient order: coefficient j of n
   * multiplies x^(n-1-j).
   */
  function HighestFirst(cs: seq<real>, x: Complex): Complex {
    if |cs| == 0 then Zero
    else Add(Scale(Pow(x, |cs| - 1), cs[0]), HighestFirst(cs[1..], x))
  }

  /** Horner's rule: the polynomial with one more lowest coefficient is x times the old one plus it. */
  function Horner(cs: seq<real>, x: Complex): Complex {
    if |cs| == 0 then Zero
    else Add(Mul(x, Horner(cs[..|cs| - 1], x)), Real(cs[|cs| - 1]))
  }

  /** The first rounds of the loop never read the highest coefficient. */
  lemma {:induction false} ValLoopDropFirst(cs: seq<real>, x: Complex, i: nat)
    requires 1 <= |cs| && i <= |cs| - 1
    ensures ValLoop(cs, x, i) == ValLoop(cs[1..], x, i)
  {
    if i > 0 {
      ValLoopDropFirst(cs, x, i - 1);
      assert cs[1..][|cs[1..]| - i] == cs[|cs| - i];
    }
  }

  /** The loop computes the sum of coefficient j times x^(n-1-j). */
  lemma {:induction false} PolyValHighestFirst(cs: seq<real>, x: Complex)
    ensures PolyVal(cs, x) == HighestFirst(cs, x)
    decreases |cs|
  {
    if |cs| > 0 {
      ValLoopDropFirst(cs, x, |cs| - 1);
      PolyValHighestFirst(cs[1..], x);
    }
  }

  /** A leading zero coefficient does not change the value. */
  lemma PolyValLeadingZero(cs: seq<real>, x: Complex)
    ensures PolyVal([0.0] + cs, x) == PolyVal(cs, x)
  {
    PolyValHighestFirst([0.0] + cs, x);
    PolyValHighestFirst(cs, x);
    assert ([0.0] + cs)[1..] == cs;
  }

  /** The value with coefficients (0, 0, a, b) is a*x + b. */
  lemma PolyValLinear(a: real, b: real, x: Complex)
    ensures PolyVal([0.0, 0.0, a, b], x) == Add(Scale(x, a), Real(b))
  {
    PolyValLeadingZero([0.0, a, b], x);
    PolyValLeadingZero([a, b], x);
    assert [0.0] + [0.0, a, b] == [0.0, 0.0, a, b];
    assert [0.0] + [a, b] == [0.0, a, b];
    assert Pow(x, 1) == x;
    assert ValLoop([a, b], x, 1) == Real(b);
    assert PolyVal([a, b], x) == Add(Scale(x, a), Real(b));
  }

  /** A cubic whose two highest coefficients are zero is the line cs[2]*x + cs[3]. */
  lemma PolyValOfLine(cs: seq<real>, x: Complex)
    requires |cs| == 4 && cs[0] == 0.0 && cs[1] == 0.0
    ensures PolyVal(cs, x) == Add(Scale(x, cs[2]), Real(cs[3]))
  {
    assert cs == [0.0, 0.0, cs[2], cs[3]];
    PolyValLinear(cs[2], cs[3], x);
  }

  /** At x = 0 the value is the lowest coefficient. */
  lemma PolyValAtZero(cs: seq<real>, x: Complex)
    requires |cs| > 0 && x == Zero
    ensures PolyVal(cs, x) == Real(cs[|cs| - 1])
  {
    PolyValHorner(cs, x);
  }

  /** The loop and Horner's rule agree: appending a lowest coefficient c maps a value v to x*v + c. */
  lemma {:induction false} ValLoopAppend(cs: seq<real>, c: real, x: Complex, i: nat)
    requires i <= |cs|
    ensures ValLoop(cs + [c], x, i + 1) == Add(Mul(x, ValLoop(cs, x, i)), Real(c))
  {
    var ds := cs + [c];
    if i == 0 {
      assert ValLoop(ds, x, 1) == Add(Scale(One, c), Zero);
    } else {
      ValLoopAppend(cs, c, x, i - 1);
      assert ds[|ds| - (i + 1)] == cs[|cs| - i];
      var t := Scale(Pow(x, i - 1), cs[|cs| - i]);
      calc {
        ValLoop(ds, x, i + 1);
        Add(Scale(Pow(x, i), cs[|cs| - i]), ValLoop(ds, x, i));
        Add(Scale(Pow(x, i), cs[|cs| - i]), Add(Mul(x, ValLoop(cs, x, i - 1)), Real(c)));
        { ScaleMul(x, Pow(x, i - 1), cs[|cs| - i]); }
        Add(Mul(x, t), Add(Mul(x, ValLoop(cs, x, i - 1)), Real(c)));
        { MulAddDistrib(x, t, ValLoop(cs, x, i - 1)); }
        Add(Mul(x, ValLoop(cs, x, i)), Real(c));
      }
    }
  }

  /** The evaluation loop computes Horner's rule. */
  lemma {:induction false} PolyValHorner(cs: seq<real>, x: Complex)
    ensures PolyVal(cs, x) == Horner(cs, x)
    decreases |cs|
  {
    if |cs| > 0 {
      var init := cs[..|cs| - 1];
      PolyValHorner(init, x);
      ValLoopAppend(init, cs[|cs| - 1], x, |init|);
      assert init + [cs[|cs| - 1]] == cs;
    }
  }

  /** The quotient of two polynomial values at `x`; the denominator must not vanish there. */
  function PolyDiv(num: seq<real>, den: seq<real>, x: Complex): (r: Complex)
    requires NonZero(PolyVal(den, x))
    ensures Mul(r, PolyVal(den, x)) == PolyVal(num, x)
  {
    Div(PolyVal(num, x), PolyVal(den, x))
  }

  /** The value of the polynomial at j*w for every w of `w`, with the two loops of the source. */
  method PolyValVector(p: Polynomial, w: seq<real>) returns (vals: seq<Complex>)
    ensures |vals| == |w|
    ensures forall j :: 0 <= j < |w| ==> vals[j] == PolyVal(p.coeffs, JOmega(w[j]))
  {
    var cs := p.coeffs;
    var n := |cs|;
    vals := [];
    for j := 0 to |w|
      invariant |vals| == j
      invariant forall k :: 0 <= k < j ==> vals[k] == PolyVal(cs, JOmega(w[k]))
    {
      var x := JOmega(w[j]);
      var val := Zero;
      for i := 0 to n
        invariant val == ValLoop(cs, x, i)
      {
        val := Add(Scale(Pow(x, i), cs[n - 1 - i]), val);
      }
      vals := vals + [val];
    }
  }

  /** Whether the denominator polynomial vanishes at none of the points j*w. */
  predicate NonVanishingOn(den: Polynomial, w: seq<real>) {
    forall i :: 0 <= i < |w| ==> NonZero(PolyVal(den.coeffs, JOmega(w[i])))
  }

  /** The quotient of the two polynomials at j*w for every w of `w`. */
  method PolyDivVector(num: Polynomial, den: Polynomial, w: seq<real>) returns (res: seq<Complex>)
    requires NonVanishingOn(den, w)
    ensures |res| == |w|
    ensures forall i :: 0 <= i < |w| ==> Mul(res[i], PolyVal(den.coeffs, JOmega(w[i]))) == PolyVal(num.coeffs, JOmega(w[i]))
    ensures forall i :: 0 <= i < |w| ==> res[i] == PolyDiv(num.coeffs, den.coeffs, JOmega(w[i]))
  {
    var yn := PolyValVector(num, w);
    var yd := PolyValVector(den, w);
    res := [];
    for i := 0 to |w|
      invariant |res| == i
      invariant forall k :: 0 <= k < i ==> Mul(res[k], yd[k]) == yn[k] && res[k] == Div(yn[k], yd[k])
    {
      res := res + [Div(yn[i], yd[i])];
    }
  }
}
