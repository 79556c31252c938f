/**
 * The error sum the optimizer minimises: the sum of squared differences
 * between measured and simulated values, for real curves and for complex
 * curves (where the square of the magnitude of each difference is summed).
 * The sum runs over the measured values; a simulated curve shorter than the
 * measured one makes the loop index out of bounds.
 */
module ErrorSum {
  import opened ComplexNum
  import opened Options
  import FreqFilter

  /** The sum of (s[i] - m[i])^2 over the first n positions. */
  function SumSq(m: seq<real>, s: seq<real>, n: nat): real
    requires n <= |m| && n <= |s|
  {
    if n == 0 then 0.0 else SumSq(m, s, n - 1) + Sq(s[n - 1] - m[n - 1])
  }

  /** The sum of |s[i] - m[i]|^2 over the first n positions. */
  function SumAbsSq(m: seq<Complex>, s: seq<Complex>, n: nat): real
    requires n <= |m| && n <= |s|
  {
    if n == 0 then 0.0 else SumAbsSq(m, s, n - 1) + AbsSq(Sub(s[n - 1], m[n - 1]))
  }

  /**
   * The least-squares error of a simulated real curve against a measured
   * one: the sum over every measured position, or an out-of-bounds throw
   * when the simulated curve is shorter.
   */
  method LeastSquare(measured: seq<real>, simulated: seq<real>) returns (r: Outcome<real>)
    ensures |simulated| >= |measured| <==> r.Returned?
    ensures r != ReturnedNull
    ensures r.Returned? ==> r.value == SumSq(measured, simulated, |measured|)
  {
    var error := 0.0;
    var ctr := 0;
    while ctr < |measured|
      invariant 0 <= ctr <= |measured| && ctr <= |simulated|
      invariant error == SumSq(measured, simulated, ctr)
    {
      if ctr >= |simulated| {
        return Throws;
      }
      var delta := simulated[ctr] - measured[ctr];
      assert SumSq(measured, simulated, ctr + 1) == SumSq(measured, simulated, ctr) + Sq(delta);
      error := error + Sq(delta);
      ctr := ctr + 1;
    }
    r := Returned(error);
  }

  /** The least-squares error of a simulated complex curve against a measured one. */
  method LeastSquareComplex(measured: seq<Complex>, simulated: seq<Complex>) returns (r: Outcome<real>)
    ensures |simulated| >= |measured| <==> r.Returned?
    ensures r != ReturnedNull
    ensures r.Returned? ==> r.value == SumAbsSq(measured, simulated, |measured|)
  {
    var error := 0.0;
    var ctr := 0;
    while ctr < |measured|
      invariant 0 <= ctr <= |measured| && ctr <= |simulated|
      invariant error == SumAbsSq(measured, simulated, ctr)
    {
      if ctr >= |simulated| {
        return Throws;
      }
      var delta := Sub(simulated[ctr], measured[ctr]);
      assert SumAbsSq(measured, simulated, ctr + 1) == SumAbsSq(measured, simulated, ctr) + AbsSq(delta);
      error := error + AbsSq(delta);
      ctr := ctr + 1;
    }
    r := Returned(error);
  }

  /** The public error of two real curves: the least-squares error. */
  method GetError(measured: seq<real>, simulated: seq<real>) returns (r: Outcome<real>)
    ensures |simulated| >= |measured| <==> r.Returned?
    ensures r != ReturnedNull
    ensures r.Returned? ==> r.value == SumSq(measured, simulated, |measured|)
  {
    r := LeastSquare(measured, simulated);
  }

  /** The public error of two complex curves: the least-squares error of the magnitudes of the differences. */
  method GetErrorComplex(measured: seq<Complex>, simulated: seq<Complex>) returns (r: Outcome<real>)
    ensures |simulated| >= |measured| <==> r.Returned?
    ensures r != ReturnedNull
    ensures r.Returned? ==> r.value == SumAbsSq(measured, simulated, |measured|)
  {
    r := LeastSquareComplex(measured, simulated);
  }

  /** No error sum is negative. */
  lemma {:induction false} SumSqNonNegative(m: seq<real>, s: seq<real>, n: nat)
    requires n <= |m| && n <= |s|
    ensures SumSq(m, s, n) >= 0.0
  {
    if n > 0 {
      SumSqNonNegative(m, s, n - 1);
      SqSign(s[n - 1] - m[n - 1]);
    }
  }

  /** The error sum is zero exactly when the curves agree on every summed position. */
  lemma {:induction false} SumSqZeroIff(m: seq<real>, s: seq<real>, n: nat)
    requires n <= |m| && n <= |s|
    ensures SumSq(m, s, n) == 0.0 <==> forall i :: 0 <= i < n ==> s[i] == m[i]
  {
    if n > 0 {
      SumSqZeroIff(m, s, n - 1);
      SumSqNonNegative(m, s, n - 1);
      var d := s[n - 1] - m[n - 1];
      SqSign(d);
      if d == 0.0 {
        assert Sq(d) == 0.0;
      }
    }
  }

  /** Simulated values beyond the summed positions do not enter the error. */
  lemma {:induction false} SumSqIgnoresRest(m: seq<real>, s: seq<real>, rest: seq<real>, n: nat)
    requires n <= |m| && n <= |s|
    ensures SumSq(m, s + rest, n) == SumSq(m, s, n)
  {
    if n > 0 {
      SumSqIgnoresRest(m, s, rest, n - 1);
      assert (s + rest)[n - 1] == s[n - 1];
    }
  }

  /** Swapping measured and simulated curves leaves the error unchanged. */
  lemma {:induction false} SumSqSymmetric(m: seq<real>, s: seq<real>, n: nat)
    requires n <= |m| && n <= |s|
    ensures SumSq(m, s, n) == SumSq(s, m, n)
  {
    if n > 0 {
      SumSqSymmetric(m, s, n - 1);
      var d := s[n - 1] - m[n - 1];
      assert Sq(-d) == Sq(d);
    }
  }

  /** The complex error is the real error of the real parts plus that of the imaginary parts. */
  lemma {:induction false} SumAbsSqSplits(m: seq<Complex>, s: seq<Complex>, n: nat)
    requires n <= |m| && n <= |s|
    ensures SumAbsSq(m, s, n)
      == SumSq(FreqFilter.RealParts(m), FreqFilter.RealParts(s), n) + SumSq(FreqFilter.ImagParts(m), FreqFilter.ImagParts(s), n)
  {
    if n > 0 {
      SumAbsSqSplits(m, s, n - 1);
    }
  }

  /** The complex error is zero exactly when the curves agree on every summed position. */
  lemma SumAbsSqZeroIff(m: seq<Complex>, s: seq<Complex>, n: nat)
    requires n <= |m| && n <= |s|
    ensures SumAbsSq(m, s, n) == 0.0 <==> forall i :: 0 <= i < n ==> s[i] == m[i]
  {
    var mr, sr := FreqFilter.RealParts(m), FreqFilter.RealParts(s);
    var mi, si := FreqFilter.ImagParts(m), FreqFilter.ImagParts(s);
    SumAbsSqSplits(m, s, n);
    SumSqNonNegative(mr, sr, n);
    SumSqNonNegative(mi, si, n);
    SumSqZeroIff(mr, sr, n);
    SumSqZeroIff(mi, si, n);
    if SumAbsSq(m, s, n) == 0.0 {
      forall i | 0 <= i < n
        ensures s[i] == m[i]
      {
        assert sr[i] == mr[i] && si[i] == mi[i];
      }
    }
  }

  /** No complex error sum is negative. */
  lemma SumAbsSqNonNegative(m: seq<Complex>, s: seq<Complex>, n: nat)
    requires n <= |m| && n <= |s|
    ensures SumAbsSq(m, s, n) >= 0.0
  {
    SumAbsSqSplits(m, s, n);
    SumSqNonNegative(FreqFilter.RealParts(m), FreqFilter.RealParts(s), n);
    SumSqNonNegative(FreqFilter.ImagParts(m), FreqFilter.ImagParts(s), n);
  }

  /** Swapping measured and simulated complex curves leaves the error unchanged. */
  lemma SumAbsSqSymmetric(m: seq<Complex>, s: seq<Complex>, n: nat)
    requires n <= |m| && n <= |s|
    ensures SumAbsSq(m, s, n) == SumAbsSq(s, m, n)
  {
    SumAbsSqSplits(m, s, n);
    SumAbsSqSplits(s, m, n);
    SumSqSymmetric(FreqFilter.RealParts(m), FreqFilter.RealParts(s), n);
    SumSqSymmetric(FreqFilter.ImagParts(m), FreqFilter.ImagParts(s), n);
  }
}
