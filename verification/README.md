# ezrlc model calculation in Dafny

A model of the model-calculation engine of ezrlc, a tool that fits
equivalent circuits (resistors, inductors and capacitors in 21 fixed
topologies, `MODEL0` … `MODEL20`) to measured impedance data. The model
covers:

- the topology catalog and its two lookup tables (element count per
  topology, and where each of the seven universal parameter slots
  R0, f0, alpha, R1, L, C0, C1 goes in the topology's dense parameter
  vector);
- the parameter codec between the universal seven-slot vector and the dense
  vector the optimizer works on (`shortenParam`, `topo2Param`);
- the frequency-band filters for frequency vectors and for real and complex
  data, and the first-index search of `MCUtil`;
- the candidate-topology list for a fit (`createModelList`);
- the equivalent circuit itself: construction, parameter setters and
  getters, the frequency vector, `clean`, and the impedance of the 13
  rational topologies as the quotient of two polynomials in j*w
  (`getZ`, `model0` … `model12`);
- the polynomial evaluation and division (`Polynomial`);
- the least-squares error sum (`MCErrorSum`);
- the topology expander of the pro2 variant, which grows a two-element
  circuit into a three-element one (`MCExpander.expand`).

Arithmetic is exact: doubles are `real`, and complex numbers are pairs of
reals (`ComplexNum`). The Java routines end in one of three ways, which the
model keeps apart with `Options.Outcome`: they return a value, they return
`null`, or they throw (an index out of bounds, a negative array size, or a
dereferenced `null`).

Modules, one per file: `ComplexNum` (complex.dfy), `Options` (options.dfy),
`Topology` (topology.dfy), `Codec` (codec.dfy), `FreqFilter`
(freqfilter.dfy), `Selection` (selection.dfy), `Polynomials`
(polynomial.dfy), `EqCircuits` (eqcircuit.dfy), `ErrorSum` (errorsum.dfy),
`Expander` (expander.dfy).

The expander reads the impedance of the old circuit at the chosen index
from the circuit's own curve, which is evaluated on the circuit's own
frequency vector. It uses the frequency from the vector `w` it is given.
The model keeps the two vectors apart in the same way.

## Model

| member | source | states |
|---|---|---|
| Topology.FromOrdinal | java/ezrlc/src/ezrlc/ModelCalculation/MCUtil.java:291-293 | the topology looked up by a catalog position has exactly that position |
| Topology.FromOrdinalOrdinal | java/ezrlc/src/ezrlc/ModelCalculation/MCUtil.java:291-293 | looking up a topology's own position gives the topology back, so the lookup is a bijection on the catalog |
| Topology.TableRowsAreBijections | java/ezrlc/src/ezrlc/ModelCalculation/MCUtil.java:30-46 | every row of the slot table maps the used slots one-to-one onto the dense positions 0 .. n-1, where n is the topology's element count |
| Topology.ElementCountIsActiveCount | java/ezrlc/src/ezrlc/ModelCalculation/MCUtil.java:30-46 | the element-count table agrees with the number of used slots in each row of the slot table |
| Topology.TopoIdxFacts | java/ezrlc/src/ezrlc/ModelCalculation/MCUtil.java:30-46 | every topology has 2 to 6 elements, and its used slots go to distinct dense positions below its element count |
| Topology.SlotOf | java/ezrlc/src/ezrlc/ModelCalculation/MCUtil.java:40-46 | every dense position of a topology comes from a used slot, which the function finds |
| Codec.ShortenParam | java/ezrlc/src/ezrlc/ModelCalculation/MCUtil.java:448-468 | the dense vector has the topology's element count, and each used slot's value lands at its table position |
| Codec.Topo2Param | java/ezrlc/src/ezrlc/ModelCalculation/MCUtil.java:305-437 | the hand-written expansion leaves every slot the topology does not use at zero |
| Codec.ExpandParam | java/ezrlc/src/ezrlc/ModelCalculation/MCUtil.java:305-437 | the table-driven expansion puts dense value p[TopoIdx(t, i)] in each used slot i and zero in every other slot |
| Codec.ShortenExpand | java/ezrlc/src/ezrlc/ModelCalculation/MCUtil.java:305-468 | shortening an expanded dense vector gives the dense vector back |
| Codec.ExpandShorten | java/ezrlc/src/ezrlc/ModelCalculation/MCUtil.java:305-468 | expanding a shortened universal vector keeps the used slots and zeroes the others |
| Codec.Topo2ParamMatchesTable | java/ezrlc/src/ezrlc/ModelCalculation/MCUtil.java:305-437 | for every topology except MODEL9, the hand-written cases agree with the slot table |
| Codec.Topo2ParamRoundTrip | java/ezrlc/src/ezrlc/ModelCalculation/MCUtil.java:305-468 | for every topology except MODEL9, shortening after topo2Param gives the dense vector back |
| Codec.Topo2ParamModel9Loses | java/ezrlc/src/ezrlc/ModelCalculation/MCUtil.java:350-355 | for MODEL9 the L value is lost: slot 4 stays zero and slot 5 holds the fourth dense value |
| Codec.Topo2ParamModel9Counterexample | java/ezrlc/src/ezrlc/ModelCalculation/MCUtil.java:350-355 | the dense vector (1, 2, 3, 4) of MODEL9 does not survive topo2Param followed by shortenParam |
| FreqFilter.ToOmega | java/ezrlc/src/ezrlc/ModelCalculation/MCUtil.java:170-173 | each angular frequency is 2*pi times the frequency at the same position |
| FreqFilter.FirstIndexOrZero | java/ezrlc/src/ezrlc/ModelCalculation/MCUtil.java:180-188 | the low index is the first sample at or above the lower edge, or 0 when no sample reaches it |
| FreqFilter.LastBelowMax | java/ezrlc/src/ezrlc/ModelCalculation/MCUtil.java:189-195 | the high index is the last sample at or below the upper edge, or the array length when there is none |
| FreqFilter.Cut | java/ezrlc/src/ezrlc/ModelCalculation/MCUtil.java:197-200 | copying positions lo .. hi succeeds exactly when the size is not negative and the copy stays inside the source, and it then holds exactly those positions |
| FreqFilter.ApplyMCOpsToF | java/ezrlc/src/ezrlc/ModelCalculation/MCUtil.java:69-121 | the filter returns null exactly when the upper band edge is below the lower one, and never returns more samples than it was given |
| FreqFilter.ApplyMCOpsToData | java/ezrlc/src/ezrlc/ModelCalculation/MCUtil.java:162-201 | the data filter returns null exactly when the upper band edge is below the lower one, and never returns more values than it was given |
| FreqFilter.RealParts | java/ezrlc/src/ezrlc/ModelCalculation/MCUtil.java:216-221 | the real parts of the data, position by position |
| FreqFilter.ImagParts | java/ezrlc/src/ezrlc/ModelCalculation/MCUtil.java:216-221 | the imaginary parts of the data, position by position |
| FreqFilter.ApplyMCOpsToComplexData | java/ezrlc/src/ezrlc/ModelCalculation/MCUtil.java:214-234 | the complex filter never returns null; it throws exactly when the real filter of the real parts does not return a value, and otherwise has that result's length |
| FreqFilter.GetFirstFIndex | java/ezrlc/src/ezrlc/ModelCalculation/MCUtil.java:133-149 | the index is that of the first frequency at or above the lower edge in Hz, or 0 when no frequency reaches it |
| FreqFilter.SortedSelectsBand | java/ezrlc/src/ezrlc/ModelCalculation/MCUtil.java:69-121 | on a sorted frequency vector with a sample in the band, the filter returns exactly the contiguous run of samples in the band |
| FreqFilter.BandExample | java/ezrlc/src/ezrlc/ModelCalculation/MCUtil.java:69-121 | with the band 100 kHz .. 100 MHz, of 1 kHz, 1 MHz and 1 GHz only 1 MHz is kept, in both formats |
| FreqFilter.NoSampleAboveMinKeepsPrefix | java/ezrlc/src/ezrlc/ModelCalculation/MCUtil.java:92-100 | when no sample reaches the lower edge the low index stays 0, so the samples below the band are kept |
| FreqFilter.BelowBandSampleKept | java/ezrlc/src/ezrlc/ModelCalculation/MCUtil.java:92-100 | a single sample below a 10 Hz .. 20 Hz band is not in the band and is still returned |
| FreqFilter.NoSampleBelowMaxThrows | java/ezrlc/src/ezrlc/ModelCalculation/MCUtil.java:101-119 | when no sample lies at or below the upper edge, the high index stays at the length and the copy throws |
| FreqFilter.DataFilterMatchesOmegaFilter | java/ezrlc/src/ezrlc/ModelCalculation/MCUtil.java:162-201 | the data filter and the Omega-format frequency filter succeed together, and they cut the same positions of the frequencies and of the data |
| FreqFilter.ComplexFilterMatchesRealFilter | java/ezrlc/src/ezrlc/ModelCalculation/MCUtil.java:214-234 | the complex filter succeeds exactly when the real filter of data of the same length does, and it keeps the same positions |
| FreqFilter.ApplyMCOpsToFPaired | java/ezrlc/src/ezrlc/ModelCalculation/MCUtil.java:69-121 | the corrected frequency filter returns null exactly when the upper band edge is below the lower one |
| FreqFilter.PairedFilterMatchesData | java/ezrlc/src/ezrlc/ModelCalculation/MCUtil.java:69-121 | the corrected filter equals the original in Omega format, and in both formats it keeps the same positions as the data filter |
| FreqFilter.HzWindowMismatch | java/ezrlc/src/ezrlc/ModelCalculation/MCUtil.java:71-76 | with the band 100 kHz .. 100 MHz, the Hz filter drops the 200 kHz sample that the data filter keeps |
| Selection.OpenRange | java/ezrlc/src/ezrlc/ModelCalculation/MCUtil.java:256-259 | an auto maximum becomes the largest int, an auto minimum becomes 0, and no other option changes |
| Selection.CreateModelList | java/ezrlc/src/ezrlc/ModelCalculation/MCUtil.java:243-282 | manual mode gives the chosen topology, or throws for an ordinal outside the catalog, and leaves the options alone; automatic mode opens the range and lists, in catalog order, exactly the rational topologies whose element count is in the range |
| Polynomials.CopyCoeffs | java/ezrlc/src/ezrlc/ModelCalculation/Polynomial.java:45-51 | the copy holds the given coefficients |
| Polynomials.NewPolynomial | java/ezrlc/src/ezrlc/ModelCalculation/Polynomial.java:45-51 | the new polynomial holds the given coefficients and has their number as its length |
| Polynomials.SetCoeffs | java/ezrlc/src/ezrlc/ModelCalculation/Polynomial.java:98-108 | after setting, the polynomial holds the new coefficients and has their number as its length |
| Polynomials.PolyValHighestFirst | java/ezrlc/src/ezrlc/ModelCalculation/Polynomial.java:121-127 | the evaluation loop computes the sum of coefficient j times x^(n-1-j), the first coefficient belonging to the highest power |
| Polynomials.PolyValHorner | java/ezrlc/src/ezrlc/ModelCalculation/Polynomial.java:121-127 | the evaluation loop computes Horner's rule |
| Polynomials.PolyValLeadingZero | java/ezrlc/src/ezrlc/ModelCalculation/Polynomial.java:121-127 | a leading zero coefficient does not change the value |
| Polynomials.PolyValLinear | java/ezrlc/src/ezrlc/ModelCalculation/Polynomial.java:121-127 | the coefficients (0, 0, a, b) evaluate to a*x + b |
| Polynomials.PolyValOfLine | java/ezrlc/src/ezrlc/ModelCalculation/Polynomial.java:121-127 | a cubic with zero top coefficients evaluates as the line of its last two |
| Polynomials.PolyValAtZero | java/ezrlc/src/ezrlc/ModelCalculation/Polynomial.java:121-127 | at x = 0 the value is the last coefficient |
| Polynomials.PolyValVector | java/ezrlc/src/ezrlc/ModelCalculation/Polynomial.java:137-161 | the vector evaluation gives, at each position, the value of the polynomial at j*w |
| Polynomials.PolyDiv | java/ezrlc/src/ezrlc/ModelCalculation/Polynomial.java:172-177 | the quotient times the denominator's value is the numerator's value |
| Polynomials.PolyDivVector | java/ezrlc/src/ezrlc/ModelCalculation/Polynomial.java:188-198 | at each frequency the quotient times the denominator's value is the numerator's value, and it is the pointwise quotient |
| EqCircuits.NewEqCircuit | java/ezrlc/src/ezrlc/ModelCalculation/MCEqCircuit.java:74-81 | a new circuit has the given topology, an unset frequency vector and all seven parameters zero |
| EqCircuits.NewEqCircuitWith | java/ezrlc/src/ezrlc/ModelCalculation/MCEqCircuit.java:91-96 | a new circuit with at most seven values holds them in the first slots and zero in the rest and has an unset frequency vector; more than seven throws |
| EqCircuits.GetParameters | java/ezrlc/src/ezrlc/ModelCalculation/MCEqCircuit.java:139-143 | the returned copy holds exactly the seven parameters of the circuit |
| EqCircuits.SetParameters | java/ezrlc/src/ezrlc/ModelCalculation/MCEqCircuit.java:118-120 | setting k <= 7 values overwrites the first k slots and keeps the rest; more than seven throws |
| EqCircuits.SetParameter | java/ezrlc/src/ezrlc/ModelCalculation/MCEqCircuit.java:130-132 | setting slot i changes exactly slot i; an index outside 0 .. 6 throws |
| EqCircuits.SetGetParameters | java/ezrlc/src/ezrlc/ModelCalculation/MCEqCircuit.java:118-143 | setting the parameters a circuit returns leaves the circuit unchanged |
| EqCircuits.GetAfterSetParameters | java/ezrlc/src/ezrlc/ModelCalculation/MCEqCircuit.java:118-143 | after setting k values, the getter returns those values followed by the old remaining slots |
| EqCircuits.SetWVector | java/ezrlc/src/ezrlc/ModelCalculation/MCEqCircuit.java:107-110 | the circuit keeps a copy of the given angular frequencies and nothing else changes |
| EqCircuits.GetF | java/ezrlc/src/ezrlc/ModelCalculation/MCEqCircuit.java:174-180 | it throws exactly when the frequency vector was never set; otherwise it returns one frequency per stored angular frequency, and each times 2*pi is that angular frequency |
| EqCircuits.GetWSize | java/ezrlc/src/ezrlc/ModelCalculation/MCEqCircuit.java:305-307 | it throws exactly when the frequency vector was never set; otherwise the size is the number of frequencies the circuit reports |
| EqCircuits.GetFAfterSetWVector | java/ezrlc/src/ezrlc/ModelCalculation/MCEqCircuit.java:107-180 | storing 2*pi*f and reading the frequencies back returns f |
| EqCircuits.Clean | java/ezrlc/src/ezrlc/ModelCalculation/MCEqCircuit.java:312-371 | clean zeroes exactly the slots its case lists for the topology and keeps every other slot, the topology and the frequencies |
| EqCircuits.CleanIdempotent | java/ezrlc/src/ezrlc/ModelCalculation/MCEqCircuit.java:312-371 | cleaning twice is cleaning once |
| EqCircuits.CleanedSlotsAreInactive | java/ezrlc/src/ezrlc/ModelCalculation/MCEqCircuit.java:312-371 | for every topology except MODEL8, clean zeroes exactly the slots the topology does not use |
| EqCircuits.CleanMatchesTable | java/ezrlc/src/ezrlc/ModelCalculation/MCEqCircuit.java:312-371 | for every topology except MODEL8, clean keeps the used slots and zeroes the others |
| EqCircuits.CleanModel8Mismatch | java/ezrlc/src/ezrlc/ModelCalculation/MCEqCircuit.java:330-339 | for MODEL8 clean zeroes R1, which the topology uses, and keeps L, which it does not |
| EqCircuits.CleanActive | java/ezrlc/src/ezrlc/ModelCalculation/MCEqCircuit.java:312-371 | the corrected clean keeps every used slot and zeroes every other slot |
| EqCircuits.GetZ | java/ezrlc/src/ezrlc/ModelCalculation/MCEqCircuit.java:226-298 | it throws exactly when the frequency vector was never set; otherwise it returns one impedance per stored frequency, and each times the denominator polynomial's value at j*w is the numerator polynomial's value |
| EqCircuits.Numerator | java/ezrlc/src/ezrlc/ModelCalculation/MCEqCircuit.java:455-639 | every numerator has four coefficients and a zero cubic one: it is at most quadratic in j*w |
| EqCircuits.Denominator | java/ezrlc/src/ezrlc/ModelCalculation/MCEqCircuit.java:455-639 | every denominator has four coefficients, and only MODEL12 has a non-zero cubic one |
| EqCircuits.ImpedanceAt | java/ezrlc/src/ezrlc/ModelCalculation/MCEqCircuit.java:455-639 | the impedance at w times the denominator's value at j*w is the numerator's value |
| EqCircuits.Model0ClosedForm | java/ezrlc/src/ezrlc/ModelCalculation/MCEqCircuit.java:455-461 | the R0-L series circuit has the impedance R0 + j*w*L, with the bias added to both elements |
| EqCircuits.Model2ClosedForm | java/ezrlc/src/ezrlc/ModelCalculation/MCEqCircuit.java:483-489 | the R0-C0 series circuit has the impedance R0 + 1/(j*w*C0), with the bias added to both elements |
| EqCircuits.Model8ConstantCoefficients | java/ezrlc/src/ezrlc/ModelCalculation/MCEqCircuit.java:570-576 | the constant terms of MODEL8 are R0 + R1 in the numerator and 1 in the denominator |
| EqCircuits.CoefficientsReadActiveSlots | java/ezrlc/src/ezrlc/ModelCalculation/MCEqCircuit.java:455-639 | two parameter vectors that agree on the used slots give the same numerator and denominator polynomials |
| EqCircuits.ImpedanceIgnoresInactiveSlots | java/ezrlc/src/ezrlc/ModelCalculation/MCEqCircuit.java:455-639 | two parameter vectors that agree on the used slots give the same impedance |
| EqCircuits.ImpedanceAtZero | java/ezrlc/src/ezrlc/ModelCalculation/MCEqCircuit.java:455-639 | at w = 0, when the denominator's constant term is 1, the impedance is the numerator's constant term |
| EqCircuits.CleanActivePreservesImpedance | java/ezrlc/src/ezrlc/ModelCalculation/MCEqCircuit.java:312-371 | the corrected clean never changes the impedance |
| EqCircuits.CleanModel8ChangesImpedance | java/ezrlc/src/ezrlc/ModelCalculation/MCEqCircuit.java:330-339 | for MODEL8 with R1 not zero, clean as written changes the impedance at w = 0 |
| ErrorSum.LeastSquare | java/ezrlc/src/ezrlc/ModelCalculation/MCErrorSum.java:56-66 | the error is the sum of squared differences over the measured positions, and it throws exactly when the simulated curve is shorter |
| ErrorSum.LeastSquareComplex | java/ezrlc/src/ezrlc/ModelCalculation/MCErrorSum.java:68-78 | the error is the sum of squared magnitudes of the differences over the measured positions, and it throws exactly when the simulated curve is shorter |
| ErrorSum.GetError | java/ezrlc/src/ezrlc/ModelCalculation/MCErrorSum.java:92-94 | the public error of real curves is their least-squares error |
| ErrorSum.GetErrorComplex | java/ezrlc/src/ezrlc/ModelCalculation/MCErrorSum.java:105-107 | the public error of complex curves is their least-squares error |
| ErrorSum.SumSqNonNegative | java/ezrlc/src/ezrlc/ModelCalculation/MCErrorSum.java:56-66 | no error sum is negative |
| ErrorSum.SumSqZeroIff | java/ezrlc/src/ezrlc/ModelCalculation/MCErrorSum.java:56-66 | the error is zero exactly when the curves agree on every summed position |
| ErrorSum.SumSqIgnoresRest | java/ezrlc/src/ezrlc/ModelCalculation/MCErrorSum.java:56-66 | simulated values beyond the measured length do not enter the error |
| ErrorSum.SumSqSymmetric | java/ezrlc/src/ezrlc/ModelCalculation/MCErrorSum.java:56-66 | swapping the measured and simulated curves leaves the error unchanged |
| ErrorSum.SumAbsSqSplits | java/ezrlc/src/ezrlc/ModelCalculation/MCErrorSum.java:68-78 | the complex error is the real error of the real parts plus the real error of the imaginary parts |
| ErrorSum.SumAbsSqNonNegative | java/ezrlc/src/ezrlc/ModelCalculation/MCErrorSum.java:68-78 | no complex error sum is negative |
| ErrorSum.SumAbsSqSymmetric | java/ezrlc/src/ezrlc/ModelCalculation/MCErrorSum.java:68-78 | swapping the measured and simulated complex curves leaves the error unchanged |
| ErrorSum.SumAbsSqZeroIff | java/ezrlc/src/ezrlc/ModelCalculation/MCErrorSum.java:68-78 | the complex error is zero exactly when the curves agree on every summed position |
| Expander.Successor | java/pro2/src/pro2/ModelCalculation/MCExpander.java:49-66 | each expandable topology grows into a rational topology with one more element that uses every slot the old one used and is not expandable itself |
| Expander.Fill | java/pro2/src/pro2/ModelCalculation/MCExpander.java:67-69 | the new circuit holds R0, L and C0 in their slots and zero elsewhere |
| Expander.ParallelC0AcrossSeries | java/pro2/src/pro2/ModelCalculation/MCExpander.java:50-53 | the C0 across R0-L makes the imaginary part of w*C0 + 1/(R0 + j*w*L) equal the admittance's imaginary part |
| Expander.DualElement | java/pro2/src/pro2/ModelCalculation/MCExpander.java:54-61 | the new element x and the old element of the opposite kind make w*x - 1/(w*other) equal the target: the susceptance of C0 parallel to R0 and L, or the reactance of L in series with R0 and C0 |
| Expander.SeriesLBeforeParallel | java/pro2/src/pro2/ModelCalculation/MCExpander.java:62-65 | the L in series with R0 parallel to C0 makes w*L + Im 1/(1/R0 + j*w*C0) equal the impedance's imaginary part |
| Expander.GrowSeriesRL | java/pro2/src/pro2/ModelCalculation/MCExpander.java:50-53 | R0-L becomes MODEL6 with R0 and L kept and a C0 that fits the admittance's imaginary part |
| Expander.GrowParallelRL | java/pro2/src/pro2/ModelCalculation/MCExpander.java:54-57 | R0 parallel to L becomes MODEL5 with R0 and L kept and a C0 that fits the susceptance |
| Expander.GrowSeriesRC | java/pro2/src/pro2/ModelCalculation/MCExpander.java:58-61 | R0-C0 becomes MODEL4 with R0 and C0 kept and an L that fits the reactance |
| Expander.GrowParallelRC | java/pro2/src/pro2/ModelCalculation/MCExpander.java:62-65 | R0 parallel to C0 becomes MODEL7 with R0 and C0 kept and an L that fits the reactance |
| Expander.Grow | java/pro2/src/pro2/ModelCalculation/MCExpander.java:44-69 | the grown circuit has the successor topology, keeps the old elements, holds zero in the unused slots, and its new element fits the imaginary part of the old circuit's admittance or impedance |
| Expander.Expand | java/pro2/src/pro2/ModelCalculation/MCExpander.java:26-72 | expansion returns a circuit exactly when the topology is one of the four two-element ones and the index addresses both vectors (the circuit's own vector must have been set), and the circuit is the one grown from the old circuit's own impedance there; otherwise it throws |
| Expander.GrowKeepsElements | java/pro2/src/pro2/ModelCalculation/MCExpander.java:44-69 | the grown circuit keeps every element of the old one and holds zero in every slot the new topology does not use |
| Expander.ExpandOwnCurveModel2 | java/pro2/src/pro2/ModelCalculation/MCExpander.java:29-61 | expanding R0-C0 at an index whose angular frequency is the circuit's own grows an L with w*L = bias/(w*C0*(C0 + bias)): read from the circuit's own curve, the reactance to explain is the one R0-C0 already has, and the new L only cancels the bias |

## Left out

- The optimizer (Apache Commons Math simplex search), `MCErrorSum.value` and the constructor's projection of the measurement: they are numeric search, not logic with a closed-form contract.
- `getS` and `getY` (the conversions of the impedance to scattering and admittance parameters) and the reference impedance `z0`.
- The skin-effect topologies MODEL13 … MODEL20 (`model13` … `model20`) and the skin branch of `Polynomial.polyval`: their values need square roots of frequencies, which are not exact in `real`.
- EqCircuits.GetZ: requires a rational topology (MODEL0 … MODEL12), because the skin-effect models are not part of this model; it also requires every denominator value to be non-zero, where the source would produce NaN or infinity.
- Polynomials.PolyDiv: requires a non-zero denominator value; a zero divisor produces NaN or infinity in the source, which `real` has no value for.
- Polynomials.PolyDivVector: requires the denominator not to vanish at any frequency, for the same reason.
- Expander.Expand: requires (through `Finite`) that every quotient of the formulas has a non-zero divisor, for the same reason.
- Expander.Expand: takes the index of the largest deviation as an input. `MathUtil.abs`, `MathUtil.getMaxIndex` and `MCErrorArray.getErrorArray` are not part of this model.
- Codec.Topo2Param: requires a dense vector at least as long as the topology's element count. A shorter one makes the source index out of bounds, and no caller passes one.
- Codec.ExpandParam: requires a dense vector at least as long as the topology's element count, like `Codec.Topo2Param`.
- EqCircuits.Model8ConstantCoefficients: the DC impedance of MODEL8 is stated through its constant coefficients and `EqCircuits.ImpedanceAtZero`, not as one closed form.
- Floating point: `Double.MIN_VALUE` and the bias `1e-50` are kept as exact constants. Their absorption by rounding is not modelled. Nor are overflow, NaN and infinity, or the rounding of 2*pi. `Complex.abs` is used squared, as `AbsSq`, so no square root is needed. `Complex.pow` is repeated multiplication.
- Console output (`System.err`, `printParameters`), and the `MCOptions` and `Complex` classes beyond the fields and operations the core reads. Those two classes are not part of this model.
- The pro2 copy of `MCEqCircuit` is modelled by the ezrlc one. The expander uses only its constructor, `getZ`, `getParameters` and `setParameter`.
- `Polynomial.getCoeffs`, `getLength`, the no-argument constructor and the skin-effect setters: plain accessors, modelled by the `coeffs` field and `Length`.

## Findings

| source | as written | input that shows it | evidently intended | confidence | as-written member | corrected member |
|---|---|---|---|---|---|---|
| java/ezrlc/src/ezrlc/ModelCalculation/MCUtil.java:350-355 | the MODEL9 case of `topo2Param` writes slot 5 twice (from p[2] and then from p[3]) and never writes slot 4 | the dense vector (1, 2, 3, 4) of MODEL9 comes back from `shortenParam` as (1, 2, 0, 4) | L = p[2] goes to slot 4 and C0 = p[3] to slot 5, as the slot table says | high; not executed | Codec.Topo2ParamModel9Counterexample | Codec.ShortenExpand |
| java/ezrlc/src/ezrlc/ModelCalculation/MCEqCircuit.java:330-339 | `clean` handles MODEL8 like the R0-L-C0 topologies: it zeroes R1 (slot 3), which MODEL8 uses, and keeps L (slot 4), which MODEL8 does not use | a MODEL8 circuit with R1 = 1: its impedance at w = 0 changes from R0 + R1 to R0 | clean zeroes only the slots the topology does not use, and so keeps the impedance | high; not executed | EqCircuits.CleanModel8ChangesImpedance | EqCircuits.CleanActivePreservesImpedance |
| java/ezrlc/src/ezrlc/ModelCalculation/MCUtil.java:71-76 | in Hz format `applyMCOpsToF` does not scale the frequencies, yet compares them with band edges scaled by 2*pi | band 100 kHz .. 100 MHz and samples 200 kHz, 1 MHz: the frequency filter keeps only 1 MHz, the data filter keeps both | the window is chosen on 2*pi*f in both formats, so frequencies and data stay paired | medium; not executed | FreqFilter.HzWindowMismatch | FreqFilter.PairedFilterMatchesData |
