/**
 * An equivalent circuit: a topology, the seven-slot parameter vector and
 * the angular frequencies the circuit is evaluated at, with the impedance
 * of the 13 rational topologies as the quotient of two polynomials in j*w.
 *
 * Every element value enters the coefficients with a bias of 1e-50 added,
 * so that an element at zero does not make a coefficient vanish.
 */
module EqCircuits {
  import opened ComplexNum
  import opened Options
  import opened Topology
  import opened Polynomials
  import FreqFilter

  /** The bias added to every element value before it enters a coefficient. */
  const Small: real := 1.0e-50

  /**
   * A circuit of one topology. The frequency vector is `None` until it is
   * first set: the constructors leave it `null`.
   */
  datatype EqCircuit = EqCircuit(circuitType: CircuitType, parameters: ParamVector, wvector: Option<seq<real>>)

  /** A circuit of topology `t` with every parameter zero. */
  function NewEqCircuit(t: CircuitType): (c: EqCircuit)
    ensures c.circuitType == t && c.wvector == None
    ensures forall i: Slot :: c.parameters[i] == 0.0
  {
    EqCircuit(t, ZeroParams, None)
  }

  /** `dst` with its first |src| slots replaced by `src`. */
  function CopyPrefix(dst: ParamVector, src: seq<real>): (r: ParamVector)
    requires |src| <= NSlots
    ensures forall i: Slot :: r[i] == if i < |src| then src[i] else dst[i]
  {
    src + dst[|src|..]
  }

  /**
   * A circuit of topology `t` whose leading parameters are copied from
   * `params`; more than seven values make the copy throw.
   */
  function NewEqCircuitWith(t: CircuitType, params: seq<real>): (r: Outcome<EqCircuit>)
    ensures r.Returned? <==> |params| <= NSlots
    ensures r != ReturnedNull
    ensures r.Returned? ==> r.value.circuitType == t && r.value.wvector == None
    ensures r.Returned? ==> forall i: Slot :: r.value.parameters[i] == if i < |params| then params[i] else 0.0
  {
    if |params| > NSlots then Throws
    else Returned(EqCircuit(t, CopyPrefix(ZeroParams, params), None))
  }

  /** Overwrites the first |params| parameters; more than seven values make the copy throw. */
  function SetParameters(c: EqCircuit, params: seq<real>): (r: Outcome<EqCircuit>)
    ensures r.Returned? <==> |params| <= NSlots
    ensures r != ReturnedNull
    ensures r.Returned? ==> r.value.circuitType == c.circuitType && r.value.wvector == c.wvector
    ensures r.Returned? ==> r.value.parameters[..|params|] == params
    ensures r.Returned? ==> r.value.parameters[|params|..] == c.parameters[|params|..]
  {
    if |params| > NSlots then Throws
    else Returned(c.(parameters := CopyPrefix(c.parameters, params)))
  }

  /** Sets parameter `i` to `d`; an index outside the seven slots throws. */
  function SetParameter(c: EqCircuit, i: int, d: real): (r: Outcome<EqCircuit>)
    ensures r.Returned? <==> 0 <= i < NSlots
    ensures r != ReturnedNull
    ensures r.Returned? ==> r.value.circuitType == c.circuitType && r.value.wvector == c.wvector
    ensures r.Returned? ==> r.value.parameters[i] == d
    ensures r.Returned? ==> forall k: Slot :: k != i ==> r.value.parameters[k] == c.parameters[k]
  {
    if 0 <= i < NSlots then Returned(c.(parameters := c.parameters[i := d])) else Throws
  }

  /** A copy of the seven parameters. */
  function GetParameters(c: EqCircuit): (r: seq<real>)
    ensures |r| == NSlots
    ensures forall i: Slot :: r[i] == c.parameters[i]
  {
    c.parameters
  }

  /** Setting the parameters one got back leaves the circuit as it was. */
  lemma SetGetParameters(c: EqCircuit)
    ensures SetParameters(c, GetParameters(c)) == Returned(c)
  {
    assert c.parameters[NSlots..] == [];
    assert c.parameters + [] == c.parameters;
  }

  /** Parameters set are the parameters got, and the rest are the old ones. */
  lemma GetAfterSetParameters(c: EqCircuit, params: seq<real>)
    requires |params| <= NSlots
    ensures GetParameters(SetParameters(c, params).value) == params + GetParameters(c)[|params|..]
  {
  }

  /** Stores a copy of the angular frequencies. */
  function SetWVector(c: EqCircuit, w: seq<real>): (r: EqCircuit)
    ensures r.wvector == Some(w)
    ensures r.circuitType == c.circuitType && r.parameters == c.parameters
  {
    c.(wvector := Some(w))
  }

  /**
   * The stored angular frequencies converted back to Hz; reading the length
   * of a vector that was never set throws.
   */
  function GetF(c: EqCircuit): (r: Outcome<seq<real>>)
    ensures r != ReturnedNull
    ensures r.Returned? <==> c.wvector.Some?
    ensures r.Returned? ==> |r.value| == |c.wvector.value|
    ensures r.Returned? ==> forall i :: 0 <= i < |r.value| ==> r.value[i] * TwoPi == c.wvector.value[i]
  {
    match c.wvector
    case None => Throws
    case Some(w) => Returned(seq(|w|, i requires 0 <= i < |w| => w[i] / TwoPi))
  }

  /**
   * The number of stored angular frequencies, which is the number of
   * frequencies GetF returns; a vector that was never set throws.
   */
  function GetWSize(c: EqCircuit): (r: Outcome<nat>)
    ensures r != ReturnedNull
    ensures r.Returned? <==> GetF(c).Returned?
    ensures r.Returned? ==> r.value == |GetF(c).value|
  {
    match c.wvector
    case None => Throws
    case Some(w) => Returned(|w|)
  }

  /** Frequencies stored as 2*pi*f come back as f. */
  lemma GetFAfterSetWVector(c: EqCircuit, f: seq<real>)
    ensures GetF(SetWVector(c, FreqFilter.ToOmega(f))) == Returned(f)
  {
    var g := GetF(SetWVector(c, FreqFilter.ToOmega(f))).value;
    forall i | 0 <= i < |f|
      ensures g[i] == f[i]
    {
      assert g[i] * TwoPi == TwoPi * f[i];
    }
    assert g == f;
  }

  /** The slots `clean` sets to zero, per topology, as the source lists them. */
  function CleanedSlots(t: CircuitType): set<Slot> {
    match t
    case Model0 | Model1 => {1, 2, 3, 5, 6}
    case Model2 | Model3 => {1, 2, 3, 4, 6}
    case Model4 | Model5 | Model6 | Model7 | Model8 => {1, 2, 3, 6}
    case Model9 | Model10 | Model11 => {1, 2, 6}
    case Model12 => {1, 2, 3}
    case Model13 | Model14 | Model15 => {3, 6}
    case Model16 => {4, 6}
    case Model17 | Model18 | Model19 => {6}
    case Model20 => {3}
  }

  /** `p` with the slots of `s` set to zero. */
  function ZeroSlots(p: ParamVector, s: set<Slot>): (r: ParamVector)
    ensures forall i: Slot :: r[i] == if i in s then 0.0 else p[i]
  {
    seq(NSlots, i requires 0 <= i < NSlots => if i in s then 0.0 else p[i])
  }

  /** Sets the parameters the topology does not use to zero, by the per-topology lists. */
  function Clean(c: EqCircuit): (r: EqCircuit)
    ensures r.circuitType == c.circuitType && r.wvector == c.wvector
    ensures forall i: Slot :: i in CleanedSlots(c.circuitType) ==> r.parameters[i] == 0.0
    ensures forall i: Slot :: i !in CleanedSlots(c.circuitType) ==> r.parameters[i] == c.parameters[i]
  {
    c.(parameters := ZeroSlots(c.parameters, CleanedSlots(c.circuitType)))
  }

  lemma CleanIdempotent(c: EqCircuit)
    ensures Clean(Clean(c)) == Clean(c)
  {
    var a := Clean(c).parameters;
    var b := Clean(Clean(c)).parameters;
    assert forall i: Slot :: b[i] == a[i];
  }

  /** Every topology but Model8 cleans exactly the slots its table row marks inactive. */
  lemma CleanedSlotsAreInactive(t: CircuitType, i: Slot)
    requires t != Model8
    ensures i in CleanedSlots(t) <==> !IsActive(t, i)
  {
  }

  /** For every topology but Model8, cleaning keeps the active slots and zeroes the rest. */
  lemma CleanMatchesTable(c: EqCircuit)
    requires c.circuitType != Model8
    ensures Clean(c).parameters == KeepActive(c.circuitType, c.parameters)
  {
    forall i: Slot
      ensures Clean(c).parameters[i] == KeepActive(c.circuitType, c.parameters)[i]
    {
      CleanedSlotsAreInactive(c.circuitType, i);
    }
  }

  /** Model8 cleans R1 (slot 3), which it uses, and keeps L (slot 4), which it does not. */
  lemma CleanModel8Mismatch()
    ensures 3 in CleanedSlots(Model8) && IsActive(Model8, 3)
    ensures 4 !in CleanedSlots(Model8) && !IsActive(Model8, 4)
  {
  }

  /** The cleaning the table prescribes: only the slots the topology uses survive. */
  function CleanActive(c: EqCircuit): (r: EqCircuit)
    ensures r.circuitType == c.circuitType && r.wvector == c.wvector
    ensures AgreeOnActive(c.circuitType, r.parameters, c.parameters)
    ensures forall i: Slot :: !IsActive(c.circuitType, i) ==> r.parameters[i] == 0.0
  {
    c.(parameters := KeepActive(c.circuitType, c.parameters))
  }

  /** Whether `p` and `q` agree on every slot topology `t` uses. */
  predicate AgreeOnActive(t: CircuitType, p: ParamVector, q: ParamVector) {
    forall i: Slot :: IsActive(t, i) ==> p[i] == q[i]
  }

  /** An element value with the bias added. */
  function B(x: real): real {
    x + Small
  }

  /**
   * The numerator coefficients of a rational topology, highest power first.
   * Every numerator is at most quadratic in j*w.
   * Slots: 0 R0, 3 R1, 4 L, 5 C0, 6 C1.
   */
  function Numerator(t: CircuitType, p: ParamVector): (cs: seq<real>)
    requires IsRational(t)
    ensures |cs| == 4
    ensures cs[0] == 0.0
  {
    match t
    case Model0 => [0.0, 0.0, B(p[4]), B(p[0])]
    case Model1 => [0.0, 0.0, B(p[4]) * B(p[0]), 0.0]
    case Model2 => [0.0, 0.0, B(p[5]) * B(p[0]), 1.0]
    case Model3 => [0.0, 0.0, 0.0, B(p[0])]
    case Model4 => [0.0, B(p[4]) * B(p[5]), B(p[0]) * B(p[5]), 1.0]
    case Model5 => [0.0, 0.0, B(p[0]) * B(p[4]), 0.0]
    case Model6 => [0.0, 0.0, B(p[4]), B(p[0])]
    case Model7 => [0.0, B(p[5]) * B(p[4]) * B(p[0]), B(p[4]), B(p[0])]
    case Model8 => [0.0, 0.0, B(p[5]) * B(p[0]) * B(p[3]), B(p[0]) + B(p[3])]
    case Model9 => [0.0, B(p[4]) * B(p[5]) * B(p[3]), B(p[4]) + B(p[5]) * B(p[3]) * B(p[0]), B(p[0]) + B(p[3])]
    case Model10 => [0.0, B(p[5]) * B(p[4]) * B(p[0]) * B(p[3]), B(p[4]) * B(p[0]) + B(p[4]) * B(p[3]), B(p[3]) * B(p[0])]
    case Model11 => [0.0, 0.0, B(p[4]) * B(p[0]), B(p[3]) * B(p[0])]
    case Model12 => [0.0, B(p[4]) * B(p[6]), B(p[0]) * B(p[6]), 1.0]
    case _ => [0.0, 0.0, 0.0, 0.0]
  }

  /**
   * The denominator coefficients of a rational topology, highest power first.
   * Only MODEL12 has a cubic denominator; every other one is at most quadratic.
   */
  function Denominator(t: CircuitType, p: ParamVector): (cs: seq<real>)
    requires IsRational(t)
    ensures |cs| == 4
    ensures t != Model12 ==> cs[0] == 0.0
  {
    match t
    case Model0 => [0.0, 0.0, 0.0, 1.0]
    case Model1 => [0.0, 0.0, B(p[4]), B(p[0])]
    case Model2 => [0.0, 0.0, B(p[5]), 0.0]
    case Model3 => [0.0, 0.0, B(p[5]) * B(p[0]), 1.0]
    case Model4 => [0.0, 0.0, B(p[5]), 0.0]
    case Model5 => [0.0, B(p[5]) * B(p[4]) * B(p[0]), B(p[4]), B(p[0])]
    case Model6 => [0.0, B(p[5]) * B(p[4]), B(p[5]) * B(p[0]), 1.0]
    case Model7 => [0.0, 0.0, B(p[5]) * B(p[0]), 1.0]
    case Model8 => [0.0, 0.0, B(p[5]) * B(p[0]), 1.0]
    case Model9 => [0.0, 0.0, B(p[5]) * B(p[3]), 1.0]
    case Model10 => [0.0, B(p[5]) * B(p[4]) * B(p[0]), B(p[4]), B(p[0])]
    case Model11 => [0.0, B(p[5]) * B(p[4]) * B(p[0]), B(p[5]) * B(p[3]) * B(p[0]) + B(p[4]), B(p[3]) + B(p[0])]
    case Model12 => [B(p[5]) * B(p[6]) * B(p[4]), B(p[5]) * B(p[6]) * B(p[0]), B(p[5]) + B(p[6]), 0.0]
    case _ => [0.0, 0.0, 0.0, 1.0]
  }

  /** Whether the denominator of topology `t` does not vanish at j*w. */
  predicate Evaluable(t: CircuitType, p: ParamVector, w: real)
    requires IsRational(t)
  {
    NonZero(PolyVal(Denominator(t, p), JOmega(w)))
  }

  /** The impedance of a rational topology at the angular frequency `w`. */
  function ImpedanceAt(t: CircuitType, p: ParamVector, w: real): (z: Complex)
    requires IsRational(t) && Evaluable(t, p, w)
    ensures Mul(z, PolyVal(Denominator(t, p), JOmega(w))) == PolyVal(Numerator(t, p), JOmega(w))
  {
    PolyDiv(Numerator(t, p), Denominator(t, p), JOmega(w))
  }

  /**
   * The impedance of the circuit at every stored angular frequency: the
   * coefficient pair of its topology handed to the vector quotient.
   */
  method GetZ(c: EqCircuit) returns (r: Outcome<seq<Complex>>)
    requires IsRational(c.circuitType)
    requires c.wvector.Some? ==>
      forall i :: 0 <= i < |c.wvector.value| ==> Evaluable(c.circuitType, c.parameters, c.wvector.value[i])
    ensures r != ReturnedNull
    ensures r.Returned? <==> c.wvector.Some?
    ensures r.Returned? ==> |r.value| == |c.wvector.value|
    ensures r.Returned? ==> forall i :: 0 <= i < |r.value| ==>
      Mul(r.value[i], PolyVal(Denominator(c.circuitType, c.parameters), JOmega(c.wvector.value[i])))
        == PolyVal(Numerator(c.circuitType, c.parameters), JOmega(c.wvector.value[i]))
    ensures r.Returned? ==> forall i :: 0 <= i < |r.value| ==>
      r.value[i] == ImpedanceAt(c.circuitType, c.parameters, c.wvector.value[i])
  {
    var pn := NewPolynomial(Numerator(c.circuitType, c.parameters));
    var pd := NewPolynomial(Denominator(c.circuitType, c.parameters));
    if c.wvector.None? {
      // The quotient reads the length of the unset vector.
      return Throws;
    }
    var z := PolyDivVector(pn, pd, c.wvector.value);
    r := Returned(z);
  }

  /**
   * The impedance is the z that, multiplied by the denominator's value,
   * gives the numerator's value.
   */
  lemma ImpedanceSolves(t: CircuitType, p: ParamVector, w: real, n: Complex, d: Complex, z: Complex)
    requires IsRational(t)
    requires PolyVal(Numerator(t, p), JOmega(w)) == n
    requires PolyVal(Denominator(t, p), JOmega(w)) == d
    requires NonZero(d) && Mul(z, d) == n
    ensures Evaluable(t, p, w)
    ensures ImpedanceAt(t, p, w) == z
  {
    DivUnique(n, d, z);
  }

  /** A topology whose denominator is 1 at j*w has the numerator's value as its impedance. */
  lemma ImpedanceOverOne(t: CircuitType, p: ParamVector, w: real, n: Complex)
    requires IsRational(t)
    requires PolyVal(Numerator(t, p), JOmega(w)) == n
    requires PolyVal(Denominator(t, p), JOmega(w)) == One
    ensures Evaluable(t, p, w)
    ensures ImpedanceAt(t, p, w) == n
  {
    ImpedanceSolves(t, p, w, n, One, n);
  }

  /** Model0, R0 in series with L: Z = (R0 + small) + j*w*(L + small). */
  lemma Model0ClosedForm(p: ParamVector, w: real)
    ensures Evaluable(Model0, p, w)
    ensures ImpedanceAt(Model0, p, w) == Complex(B(p[0]), w * B(p[4]))
  {
    var x := JOmega(w);
    PolyValOfLine(Numerator(Model0, p), x);
    PolyValOfLine(Denominator(Model0, p), x);
    ImpedanceOverOne(Model0, p, w, Complex(B(p[0]), w * B(p[4])));
  }

  /** Model2's coefficient polynomials at j*w: 1 + j*w*C0'*R0' over j*w*C0'. */
  lemma Model2Values(p: ParamVector, w: real)
    ensures PolyVal(Numerator(Model2, p), JOmega(w)) == Complex(1.0, w * (B(p[5]) * B(p[0])))
    ensures PolyVal(Denominator(Model2, p), JOmega(w)) == JOmega(w * B(p[5]))
  {
    PolyValOfLine(Numerator(Model2, p), JOmega(w));
    PolyValOfLine(Denominator(Model2, p), JOmega(w));
  }

  /** Model2's impedance is the z with z * j*w*C0' = 1 + j*w*C0'*R0'. */
  lemma Model2Solves(p: ParamVector, w: real, z: Complex)
    requires w != 0.0 && B(p[5]) != 0.0
    requires Mul(z, JOmega(w * B(p[5]))) == Complex(1.0, w * (B(p[5]) * B(p[0])))
    ensures Evaluable(Model2, p, w)
    ensures ImpedanceAt(Model2, p, w) == z
  {
    Model2Values(p, w);
    var d := JOmega(w * B(p[5]));
    var n := Complex(1.0, w * (B(p[5]) * B(p[0])));
    ImpedanceSolves(Model2, p, w, n, d, z);
  }

  /** A resistance r in series with an element of impedance 1/d, multiplied by d, gives r*d + 1. */
  lemma SeriesWithReciprocal(r: real, d: Complex)
    requires NonZero(d)
    ensures Mul(Add(Complex(r, 0.0), Reciprocal(d)), d) == Add(Mul(d, Complex(r, 0.0)), One)
  {
    var q := Add(Complex(r, 0.0), Reciprocal(d));
    MulComm(q, d);
    MulAddDistrib(d, Complex(r, 0.0), Reciprocal(d));
  }

  /**
   * Model2, R0 in series with C0: Z = (R0 + small) + 1/(j*w*(C0 + small)),
   * at every non-zero angular frequency.
   */
  lemma Model2ClosedForm(p: ParamVector, w: real)
    requires w != 0.0 && B(p[5]) != 0.0
    ensures Evaluable(Model2, p, w)
    ensures ImpedanceAt(Model2, p, w) == Add(Complex(B(p[0]), 0.0), Reciprocal(JOmega(w * B(p[5]))))
  {
    var d := JOmega(w * B(p[5]));
    var r0 := Complex(B(p[0]), 0.0);
    SeriesWithReciprocal(B(p[0]), d);
    assert Add(Mul(d, r0), One) == Complex(1.0, w * (B(p[5]) * B(p[0])));
    Model2Solves(p, w, Add(r0, Reciprocal(d)));
  }

  /** Two coefficient lists of a rational topology are equal once their four entries are. */
  lemma SameCoefficients(x: seq<real>, y: seq<real>)
    requires |x| == 4 && |y| == 4
    requires x[0] == y[0] && x[1] == y[1] && x[2] == y[2] && x[3] == y[3]
    ensures x == y
  {
  }

  /** The topologies built from R0 and L read no other slot. */
  lemma CoefficientsReadSlots04(t: CircuitType, p: ParamVector, q: ParamVector)
    requires t == Model0 || t == Model1
    requires p[0] == q[0] && p[4] == q[4]
    ensures Numerator(t, p) == Numerator(t, q)
    ensures Denominator(t, p) == Denominator(t, q)
  {
    match t
    case Model0 =>
      SameCoefficients(Numerator(t, p), Numerator(t, q));
      SameCoefficients(Denominator(t, p), Denominator(t, q));
    case Model1 =>
      SameCoefficients(Numerator(t, p), Numerator(t, q));
      SameCoefficients(Denominator(t, p), Denominator(t, q));
  }

  /** The topologies built from R0 and C0 read no other slot. */
  lemma CoefficientsReadSlots05(t: CircuitType, p: ParamVector, q: ParamVector)
    requires t == Model2 || t == Model3
    requires p[0] == q[0] && p[5] == q[5]
    ensures Numerator(t, p) == Numerator(t, q)
    ensures Denominator(t, p) == Denominator(t, q)
  {
    match t
    case Model2 =>
      SameCoefficients(Numerator(t, p), Numerator(t, q));
      SameCoefficients(Denominator(t, p), Denominator(t, q));
    case Model3 =>
      SameCoefficients(Numerator(t, p), Numerator(t, q));
      SameCoefficients(Denominator(t, p), Denominator(t, q));
  }

  /** The topologies built from R0, L and C0 read no other slot. */
  lemma CoefficientsReadSlots045(t: CircuitType, p: ParamVector, q: ParamVector)
    requires t == Model4 || t == Model5 || t == Model6 || t == Model7
    requires p[0] == q[0] && p[4] == q[4] && p[5] == q[5]
    ensures Numerator(t, p) == Numerator(t, q)
    ensures Denominator(t, p) == Denominator(t, q)
  {
    match t
    case Model4 =>
      SameCoefficients(Numerator(t, p), Numerator(t, q));
      SameCoefficients(Denominator(t, p), Denominator(t, q));
    case Model5 =>
      SameCoefficients(Numerator(t, p), Numerator(t, q));
      SameCoefficients(Denominator(t, p), Denominator(t, q));
    case Model6 =>
      SameCoefficients(Numerator(t, p), Numerator(t, q));
      SameCoefficients(Denominator(t, p), Denominator(t, q));
    case Model7 =>
      SameCoefficients(Numerator(t, p), Numerator(t, q));
      SameCoefficients(Denominator(t, p), Denominator(t, q));
  }

  /** The topologies built from R0, R1 and C0 read no other slot. */
  lemma CoefficientsReadSlots035(t: CircuitType, p: ParamVector, q: ParamVector)
    requires t == Model8
    requires p[0] == q[0] && p[3] == q[3] && p[5] == q[5]
    ensures Numerator(t, p) == Numerator(t, q)
    ensures Denominator(t, p) == Denominator(t, q)
  {
    SameCoefficients(Numerator(t, p), Numerator(t, q));
    SameCoefficients(Denominator(t, p), Denominator(t, q));
  }

  /** The topologies built from R0, R1, L and C0 read no other slot. */
  lemma CoefficientsReadSlots0345(t: CircuitType, p: ParamVector, q: ParamVector)
    requires t == Model9 || t == Model10 || t == Model11
    requires p[0] == q[0] && p[3] == q[3] && p[4] == q[4] && p[5] == q[5]
    ensures Numerator(t, p) == Numerator(t, q)
    ensures Denominator(t, p) == Denominator(t, q)
  {
    match t
    case Model9 =>
      SameCoefficients(Numerator(t, p), Numerator(t, q));
      SameCoefficients(Denominator(t, p), Denominator(t, q));
    case Model10 =>
      SameCoefficients(Numerator(t, p), Numerator(t, q));
      SameCoefficients(Denominator(t, p), Denominator(t, q));
    case Model11 =>
      SameCoefficients(Numerator(t, p), Numerator(t, q));
      SameCoefficients(Denominator(t, p), Denominator(t, q));
  }

  /** The topologies built from R0, L, C0 and C1 read no other slot. */
  lemma CoefficientsReadSlots0456(t: CircuitType, p: ParamVector, q: ParamVector)
    requires t == Model12
    requires p[0] == q[0] && p[4] == q[4] && p[5] == q[5] && p[6] == q[6]
    ensures Numerator(t, p) == Numerator(t, q)
    ensures Denominator(t, p) == Denominator(t, q)
  {
    SameCoefficients(Numerator(t, p), Numerator(t, q));
    SameCoefficients(Denominator(t, p), Denominator(t, q));
  }

  /** The slots each group of rational topologies reads agree between `p` and `q`. */
  lemma SlotsTheCoefficientsRead(t: CircuitType, p: ParamVector, q: ParamVector)
    requires IsRational(t)
    requires AgreeOnActive(t, p, q)
    ensures p[0] == q[0]
    ensures t != Model2 && t != Model3 && t != Model8 ==> p[4] == q[4]
    ensures t != Model0 && t != Model1 ==> p[5] == q[5]
    ensures t == Model8 || t == Model9 || t == Model10 || t == Model11 ==> p[3] == q[3]
    ensures t == Model12 ==> p[6] == q[6]
  {
    TopoIdxFacts(t);
    assert IsActive(t, 0);
    if t != Model2 && t != Model3 && t != Model8 {
      assert IsActive(t, 4);
    }
    if t != Model0 && t != Model1 {
      assert IsActive(t, 5);
    }
    if t == Model8 || t == Model9 || t == Model10 || t == Model11 {
      assert IsActive(t, 3);
    }
    if t == Model12 {
      assert IsActive(t, 6);
    }
  }

  /** The coefficients of a rational topology read only the slots its table row marks active. */
  lemma CoefficientsReadActiveSlots(t: CircuitType, p: ParamVector, q: ParamVector)
    requires IsRational(t)
    requires AgreeOnActive(t, p, q)
    ensures Numerator(t, p) == Numerator(t, q)
    ensures Denominator(t, p) == Denominator(t, q)
  {
    SlotsTheCoefficientsRead(t, p, q);
    if t == Model0 || t == Model1 {
      CoefficientsReadSlots04(t, p, q);
    } else if t == Model2 || t == Model3 {
      CoefficientsReadSlots05(t, p, q);
    } else if t == Model4 || t == Model5 || t == Model6 || t == Model7 {
      CoefficientsReadSlots045(t, p, q);
    } else if t == Model8 {
      CoefficientsReadSlots035(t, p, q);
    } else if t == Model9 || t == Model10 || t == Model11 {
      CoefficientsReadSlots0345(t, p, q);
    } else {
      CoefficientsReadSlots0456(t, p, q);
    }
  }

  /** Changing a slot the topology does not use leaves its impedance unchanged. */
  lemma ImpedanceIgnoresInactiveSlots(t: CircuitType, p: ParamVector, q: ParamVector, w: real)
    requires IsRational(t)
    requires AgreeOnActive(t, p, q)
    requires Evaluable(t, p, w)
    ensures Evaluable(t, q, w)
    ensures ImpedanceAt(t, p, w) == ImpedanceAt(t, q, w)
  {
    CoefficientsReadActiveSlots(t, p, q);
  }

  /** The table-driven cleaning leaves the impedance of every rational topology unchanged. */
  lemma CleanActivePreservesImpedance(c: EqCircuit, w: real)
    requires IsRational(c.circuitType)
    requires Evaluable(c.circuitType, c.parameters, w)
    ensures Evaluable(c.circuitType, CleanActive(c).parameters, w)
    ensures ImpedanceAt(c.circuitType, CleanActive(c).parameters, w) == ImpedanceAt(c.circuitType, c.parameters, w)
  {
    ImpedanceIgnoresInactiveSlots(c.circuitType, c.parameters, CleanActive(c).parameters, w);
  }

  /** At w = 0 a topology whose constant denominator coefficient is 1 has its constant numerator coefficient as impedance. */
  lemma ImpedanceAtZero(t: CircuitType, p: ParamVector, w: real)
    requires IsRational(t) && w == 0.0
    requires Denominator(t, p)[3] == 1.0
    ensures Evaluable(t, p, w)
    ensures ImpedanceAt(t, p, w) == Real(Numerator(t, p)[3])
  {
    PolyValAtZero(Numerator(t, p), JOmega(w));
    PolyValAtZero(Denominator(t, p), JOmega(w));
    ImpedanceOverOne(t, p, w, Real(Numerator(t, p)[3]));
  }

  /**
   * At w = 0 two parameter vectors whose constant denominator coefficients
   * are 1 and whose constant numerator coefficients differ give different
   * impedances.
   */
  lemma ImpedanceAtZeroDiffers(t: CircuitType, p: ParamVector, q: ParamVector, w: real)
    requires IsRational(t) && w == 0.0
    requires Denominator(t, p)[3] == 1.0 && Denominator(t, q)[3] == 1.0
    requires Numerator(t, p)[3] != Numerator(t, q)[3]
    ensures Evaluable(t, p, w) && Evaluable(t, q, w)
    ensures ImpedanceAt(t, p, w) != ImpedanceAt(t, q, w)
  {
    ImpedanceAtZero(t, p, w);
    ImpedanceAtZero(t, q, w);
  }

  /** Model8's constant coefficients: R0' + R1' over 1. */
  lemma Model8ConstantCoefficients(p: ParamVector)
    ensures Numerator(Model8, p)[3] == B(p[0]) + B(p[3])
    ensures Denominator(Model8, p)[3] == 1.0
  {
  }

  /**
   * Cleaning a Model8 circuit whose R1 is not zero changes its impedance at
   * w = 0 from R0 + R1 to R0; the table-driven cleaning keeps it
   * (CleanActivePreservesImpedance).
   */
  lemma CleanModel8ChangesImpedance(c: EqCircuit, w: real)
    requires c.circuitType == Model8 && c.parameters[3] != 0.0
    requires w == 0.0
    ensures Evaluable(c.circuitType, Clean(c).parameters, w) && Evaluable(c.circuitType, c.parameters, w)
    ensures ImpedanceAt(c.circuitType, Clean(c).parameters, w) != ImpedanceAt(c.circuitType, c.parameters, w)
  {
    var cl := Clean(c).parameters;
    assert cl[0] == c.parameters[0] && cl[3] == 0.0;
    Model8ConstantCoefficients(c.parameters);
    Model8ConstantCoefficients(cl);
    ImpedanceAtZeroDiffers(c.circuitType, cl, c.parameters, w);
  }
}
