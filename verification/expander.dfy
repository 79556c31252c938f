/**
 * The topology expander: a two-element circuit is extended to a
 * three-element one by adding the element that explains the imaginary part
 * of the circuit's own impedance at the frequency of the largest deviation
 * from the measurement. The index of that frequency is an input here; how
 * it is found (the arg-max of the deviation array) is not part of the model.
 */
module Expander {
  import opened ComplexNum
  import opened Options
  import opened Topology
  import opened EqCircuits

  /** The topologies the expander extends: the four two-element circuits. */
  predicate IsExpandable(t: CircuitType) {
    t == Model0 || t == Model1 || t == Model2 || t == Model3
  }

  /**
   * The three-element topology each two-element one grows into: R0-L gets
   * a C0 across it, R0||L gets a C0 in parallel, R0-C0 gets an L in series
   * and R0||C0 gets an L in series.
   */
  function Successor(t: CircuitType): (s: CircuitType)
    requires IsExpandable(t)
    ensures ElementCount(s) == ElementCount(t) + 1
    ensures forall i: Slot :: IsActive(t, i) ==> IsActive(s, i)
    ensures IsRational(s) && !IsExpandable(s)
  {
    match t
    case Model0 => Model6
    case Model1 => Model5
    case Model2 => Model4
    case Model3 => Model7
  }

  /** Whether `idx` addresses both the frequency vector and the circuit's own curve. */
  predicate InRange(eqc: EqCircuit, w: seq<real>, idx: nat) {
    eqc.wvector.Some? && idx < |w| && idx < |eqc.wvector.value|
  }

  /** The circuit's own impedance at the index. */
  function OwnImpedance(eqc: EqCircuit, idx: nat): Complex
    requires IsRational(eqc.circuitType) && eqc.wvector.Some? && idx < |eqc.wvector.value|
    requires Evaluable(eqc.circuitType, eqc.parameters, eqc.wvector.value[idx])
  {
    ImpedanceAt(eqc.circuitType, eqc.parameters, eqc.wvector.value[idx])
  }

  /**
   * Whether every quotient of the expansion is of a non-zero divisor: the
   * circuit's impedance exists at the index, the angular frequency is not
   * zero, and the element the formula divides by is not zero (for the
   * parallel circuits the impedance itself is inverted).
   */
  predicate Finite(eqc: EqCircuit, w: seq<real>, idx: nat) {
    var t := eqc.circuitType;
    var p := eqc.parameters;
    IsExpandable(t) && InRange(eqc, w, idx) ==>
      Evaluable(t, p, eqc.wvector.value[idx]) && Solvable(t, p, w[idx], OwnImpedance(eqc, idx))
  }

  /** A fresh circuit of topology `s` with R0, L and C0 set. */
  function Fill(s: CircuitType, r0: real, l: real, c0: real): (e: EqCircuit)
    ensures e.circuitType == s && e.wvector == None
    ensures e.parameters == [r0, 0.0, 0.0, 0.0, l, c0, 0.0]
  {
    var e0 := NewEqCircuit(s);
    var e1 := SetParameter(e0, 0, r0).value;
    var e2 := SetParameter(e1, 4, l).value;
    var e3 := SetParameter(e2, 5, c0).value;
    assert forall i: Slot :: e3.parameters[i] == [r0, 0.0, 0.0, 0.0, l, c0, 0.0][i];
    e3
  }

  /** The imaginary part of 1/(a + jb) is -b/|a + jb|^2. */
  lemma ReciprocalIm(a: real, b: real)
    requires NonZero(Complex(a, b))
    ensures Reciprocal(Complex(a, b)).im == -(b / AbsSq(Complex(a, b)))
  {
  }

  /** Dividing by a non-zero factor and multiplying back gives the dividend. */
  lemma MulDivCancel(a: real, x: real)
    requires x != 0.0
    ensures x * (a / x) == a
  {
  }

  /**
   * The C0 put across R0 in series with L: the admittance of the new
   * circuit without the bias, j*w*C0 + 1/(R0 + j*w*L), gets the imaginary
   * part `yIm`.
   */
  function ParallelC0AcrossSeries(yIm: real, omega: real, r0: real, l: real): (c0: real)
    requires omega != 0.0 && NonZero(Complex(r0, omega * l))
    ensures omega * c0 + Reciprocal(Complex(r0, omega * l)).im == yIm
  {
    var k := omega * l / AbsSq(Complex(r0, omega * l));
    ReciprocalIm(r0, omega * l);
    MulDivCancel(yIm + k, omega);
    (yIm + k) / omega
  }

  /**
   * The element that pairs with the element `other` of the opposite kind:
   * w*x - 1/(w*other) gets the value `target`. It is the C0 parallel to R0
   * and L (the susceptance w*C0 - 1/(w*L)) and the L in series with R0 and
   * C0 (the reactance w*L - 1/(w*C0)).
   */
  function DualElement(target: real, omega: real, other: real): (x: real)
    requires omega != 0.0 && omega * other != 0.0
    ensures DualFits(x, other, omega, target)
  {
    MulDivCancel(target + 1.0 / (omega * other), omega);
    (target + 1.0 / (omega * other)) / omega
  }

  /**
   * The L put in series with R0 parallel to C0: the reactance of the new
   * circuit without the bias, w*L + Im 1/(1/R0 + j*w*C0), gets the value
   * `zIm`.
   */
  function SeriesLBeforeParallel(zIm: real, omega: real, r0: real, c0: real): (l: real)
    requires omega != 0.0 && r0 != 0.0
    ensures omega * l + Reciprocal(Complex(1.0 / r0, omega * c0)).im == zIm
  {
    SqSign(r0);
    SqSign(omega * c0);
    var d := 1.0 / Sq(r0) + Sq(omega * c0);
    var k := omega * c0 / d;
    assert Sq(1.0 / r0) == 1.0 / Sq(r0);
    assert AbsSq(Complex(1.0 / r0, omega * c0)) == d;
    ReciprocalIm(1.0 / r0, omega * c0);
    MulDivCancel(zIm + k, omega);
    (zIm + k) / omega
  }

  /** Whether C0 across R0-L gives the admittance without the bias, j*w*C0 + 1/(R0 + j*w*L), the imaginary part `yIm`. */
  predicate CrossC0Fits(c0: real, r0: real, l: real, omega: real, yIm: real) {
    NonZero(Complex(r0, omega * l)) && omega * c0 + Reciprocal(Complex(r0, omega * l)).im == yIm
  }

  /**
   * Whether `x` and the element `other` of the opposite kind give
   * w*x - 1/(w*other) the value `target`: the susceptance of C0 parallel to
   * R0 and L, or the reactance of L in series with R0 and C0.
   */
  predicate DualFits(x: real, other: real, omega: real, target: real) {
    omega * other != 0.0 && omega * x - 1.0 / (omega * other) == target
  }

  /** Whether L in series with R0||C0 gives the reactance w*L + Im 1/(1/R0 + j*w*C0) the value `zIm`. */
  predicate SeriesLBeforeParallelFits(l: real, r0: real, c0: real, omega: real, zIm: real) {
    r0 != 0.0 && omega * l + Reciprocal(Complex(1.0 / r0, omega * c0)).im == zIm
  }

  /** Whether the formula of topology `t` divides only by non-zero values at `omega` and `z`. */
  predicate Solvable(t: CircuitType, p: ParamVector, omega: real, z: Complex) {
    omega != 0.0
    && (t == Model0 ==> NonZero(z) && NonZero(Complex(p[0], omega * p[4])))
    && (t == Model1 ==> NonZero(z) && omega * p[4] != 0.0)
    && (t == Model2 ==> omega * p[5] != 0.0)
    && (t == Model3 ==> p[0] != 0.0)
  }

  /**
   * The grown circuit for the old parameters `p`, the angular frequency
   * `omega` and the old circuit's impedance `z` there: the new element makes
   * the imaginary part of the new circuit's admittance (parallel
   * topologies) or impedance (series topologies), without the bias, equal
   * to that of `z`.
   */
  function Grow(t: CircuitType, p: ParamVector, omega: real, z: Complex): (e: EqCircuit)
    requires IsExpandable(t) && Solvable(t, p, omega, z)
    ensures e.circuitType == Successor(t) && e.wvector == None
    ensures e.parameters[0] == p[0]
    ensures e.parameters[1] == 0.0 && e.parameters[2] == 0.0 && e.parameters[3] == 0.0 && e.parameters[6] == 0.0
    ensures t == Model0 || t == Model1 ==> e.parameters[4] == p[4]
    ensures t == Model2 || t == Model3 ==> e.parameters[5] == p[5]
    ensures t == Model0 ==> CrossC0Fits(e.parameters[5], p[0], p[4], omega, Reciprocal(z).im)
    ensures t == Model1 ==> DualFits(e.parameters[5], p[4], omega, Reciprocal(z).im)
    ensures t == Model2 ==> DualFits(e.parameters[4], p[5], omega, z.im)
    ensures t == Model3 ==> SeriesLBeforeParallelFits(e.parameters[4], p[0], p[5], omega, z.im)
  {
    match t
    case Model0 => GrowSeriesRL(p[0], p[4], omega, Reciprocal(z).im)
    case Model1 => GrowParallelRL(p[0], p[4], omega, Reciprocal(z).im)
    case Model2 => GrowSeriesRC(p[0], p[5], omega, z.im)
    case Model3 => GrowParallelRC(p[0], p[5], omega, z.im)
  }

  /** R0-L grows into R0-L with C0 across: C0 explains the admittance's imaginary part `yIm`. */
  function GrowSeriesRL(r0: real, l: real, omega: real, yIm: real): (e: EqCircuit)
    requires omega != 0.0 && NonZero(Complex(r0, omega * l))
    ensures e.circuitType == Model6 && e.wvector == None
    ensures e.parameters == [r0, 0.0, 0.0, 0.0, l, e.parameters[5], 0.0]
    ensures CrossC0Fits(e.parameters[5], r0, l, omega, yIm)
  {
    Fill(Model6, r0, l, ParallelC0AcrossSeries(yIm, omega, r0, l))
  }

  /** R0||L grows into R0||L||C0: C0 explains the susceptance `yIm`. */
  function GrowParallelRL(r0: real, l: real, omega: real, yIm: real): (e: EqCircuit)
    requires omega != 0.0 && omega * l != 0.0
    ensures e.circuitType == Model5 && e.wvector == None
    ensures e.parameters == [r0, 0.0, 0.0, 0.0, l, e.parameters[5], 0.0]
    ensures DualFits(e.parameters[5], l, omega, yIm)
  {
    Fill(Model5, r0, l, DualElement(yIm, omega, l))
  }

  /** R0-C0 grows into R0-L-C0: L explains the reactance `zIm`. */
  function GrowSeriesRC(r0: real, c0: real, omega: real, zIm: real): (e: EqCircuit)
    requires omega != 0.0 && omega * c0 != 0.0
    ensures e.circuitType == Model4 && e.wvector == None
    ensures e.parameters == [r0, 0.0, 0.0, 0.0, e.parameters[4], c0, 0.0]
    ensures DualFits(e.parameters[4], c0, omega, zIm)
  {
    Fill(Model4, r0, DualElement(zIm, omega, c0), c0)
  }

  /** R0||C0 grows into L in series with R0||C0: L explains the reactance `zIm`. */
  function GrowParallelRC(r0: real, c0: real, omega: real, zIm: real): (e: EqCircuit)
    requires omega != 0.0 && r0 != 0.0
    ensures e.circuitType == Model7 && e.wvector == None
    ensures e.parameters == [r0, 0.0, 0.0, 0.0, e.parameters[4], c0, 0.0]
    ensures SeriesLBeforeParallelFits(e.parameters[4], r0, c0, omega, zIm)
  {
    Fill(Model7, r0, SeriesLBeforeParallel(zIm, omega, r0, c0), c0)
  }

  /**
   * The expanded circuit: the circuit grown at w[idx] from the old
   * circuit's own impedance at the same index. Any topology other than the
   * four two-element ones leaves the result unset, which throws; so does an
   * index outside either vector.
   */
  function Expand(eqc: EqCircuit, w: seq<real>, idx: nat): (r: Outcome<EqCircuit>)
    requires Finite(eqc, w, idx)
    ensures r.Returned? <==> IsExpandable(eqc.circuitType) && InRange(eqc, w, idx)
    ensures r != ReturnedNull
    ensures r.Returned? ==> r.value == Grow(eqc.circuitType, eqc.parameters, w[idx], OwnImpedance(eqc, idx))
  {
    if !InRange(eqc, w, idx) || !IsExpandable(eqc.circuitType) then Throws
    else Returned(Grow(eqc.circuitType, eqc.parameters, w[idx], OwnImpedance(eqc, idx)))
  }

  /**
   * The grown circuit keeps every element of the old one, and every slot the
   * new topology does not use is zero.
   */
  lemma GrowKeepsElements(t: CircuitType, p: ParamVector, omega: real, z: Complex)
    requires IsExpandable(t) && Solvable(t, p, omega, z)
    ensures forall i: Slot :: IsActive(t, i) ==> Grow(t, p, omega, z).parameters[i] == p[i]
    ensures forall i: Slot :: !IsActive(Successor(t), i) ==> Grow(t, p, omega, z).parameters[i] == 0.0
  {
    var e := Grow(t, p, omega, z);
    var kept := if t == Model0 || t == Model1 then 4 else 5;
    assert e.parameters[0] == p[0] && e.parameters[kept] == p[kept];
    ExpandableSlots(t);
  }

  /**
   * A two-element topology uses R0 and one of L (slot 4) and C0 (slot 5);
   * its successor uses R0, L and C0.
   */
  lemma ExpandableSlots(t: CircuitType)
    requires IsExpandable(t)
    ensures forall i: Slot :: IsActive(t, i) <==> i == 0 || i == (if t == Model0 || t == Model1 then 4 else 5)
    ensures forall i: Slot :: IsActive(Successor(t), i) <==> i == 0 || i == 4 || i == 5
  {
    match t
    case Model0 => assert Successor(t) == Model6;
    case Model1 => assert Successor(t) == Model5;
    case Model2 => assert Successor(t) == Model4;
    case Model3 => assert Successor(t) == Model7;
  }

  /**
   * Expanding R0-C0 at a frequency of the circuit's own vector grows an L
   * that only cancels the bias: the old circuit's reactance there is
   * -1/(w*(C0 + bias)), so w*L is the bias over w*C0*(C0 + bias), which
   * vanishes with the bias.
   */
  lemma ExpandOwnCurveModel2(eqc: EqCircuit, w: seq<real>, idx: nat)
    requires eqc.circuitType == Model2 && InRange(eqc, w, idx) && w[idx] == eqc.wvector.value[idx]
    requires w[idx] != 0.0 && eqc.parameters[5] != 0.0 && B(eqc.parameters[5]) != 0.0
    ensures Finite(eqc, w, idx) && Expand(eqc, w, idx).Returned?
    ensures w[idx] * Expand(eqc, w, idx).value.parameters[4]
      == Small / (w[idx] * eqc.parameters[5] * B(eqc.parameters[5]))
  {
    var p := eqc.parameters;
    var om := w[idx];
    Model2Reactance(p, om);
    var z := ImpedanceAt(Model2, p, om);
    assert Solvable(Model2, p, om, z);
    assert OwnImpedance(eqc, idx) == z;
    var e := Grow(Model2, p, om, z);
    assert Expand(eqc, w, idx) == Returned(e);
    GrownLCancelsBias(om, p[5], e.parameters[4], z.im);
  }

  /** The reactance of R0-C0 is -1/(w*(C0 + bias)). */
  lemma Model2Reactance(p: ParamVector, w: real)
    requires w != 0.0 && B(p[5]) != 0.0
    ensures Evaluable(Model2, p, w)
    ensures ImpedanceAt(Model2, p, w).im == -(1.0 / (w * B(p[5])))
  {
    var d := w * B(p[5]);
    Model2ClosedForm(p, w);
    ReciprocalIm(0.0, d);
    assert AbsSq(Complex(0.0, d)) == d * d;
    assert d / (d * d) == 1.0 / d;
  }

  /** The L that gives w*L - 1/(w*C0) the reactance -1/(w*(C0 + bias)) has w*L = bias/(w*C0*(C0 + bias)). */
  lemma GrownLCancelsBias(om: real, c0: real, l: real, zIm: real)
    requires om != 0.0 && c0 != 0.0 && B(c0) != 0.0
    requires zIm == -(1.0 / (om * B(c0))) && DualFits(l, c0, om, zIm)
    ensures om * l == Small / (om * c0 * B(c0))
  {
    var d := om * B(c0);
    assert om * l == 1.0 / (om * c0) - 1.0 / d;
    ReciprocalDifference(om * c0, d);
    assert d - om * c0 == om * Small;
    assert (om * c0) * d == om * (om * c0 * B(c0));
    CancelFactor(om, Small, om * c0 * B(c0));
  }

  /** 1/a - 1/b is (b - a)/(a*b). */
  lemma ReciprocalDifference(a: real, b: real)
    requires a != 0.0 && b != 0.0
    ensures 1.0 / a - 1.0 / b == (b - a) / (a * b)
  {
  }

  /** A common non-zero factor of dividend and divisor cancels. */
  lemma CancelFactor(k: real, x: real, y: real)
    requires k != 0.0 && y != 0.0
    ensures (k * x) / (k * y) == x / y
  {
  }
}
