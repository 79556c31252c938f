/**
 * The frequency-band filters of the model calculation: cutting a frequency
 * vector, and real or complex data sampled on it, down to the band the
 * options ask for.
 *
 * Both filters scan the angular frequencies 2*pi*f for the first sample at
 * or above the lower band edge and the last sample at or below the upper
 * one, and then copy the samples between the two indices. A search that
 * finds nothing leaves its index at its initial value: 0 for the low index
 * and the array length for the high index.
 */
module FreqFilter {
  import opened Options
  import opened ComplexNum

  /** The unit the frequency filter hands its result back in. */
  datatype DataFormat = Hz | Omega

  /** The angular frequencies 2*pi*f of the samples f. */
  function ToOmega(f: seq<real>): (w: seq<real>)
    ensures |w| == |f|
    ensures forall i :: 0 <= i < |f| ==> w[i] == TwoPi * f[i]
  {
    seq(|f|, i requires 0 <= i < |f| => TwoPi * f[i])
  }

  /**
   * The values the frequency filter scans and copies: f times the format's
   * multiplier, which is 2*pi for Omega and 1 for Hz.
   */
  function Scan(f: seq<real>, format: DataFormat): (w: seq<real>)
    ensures |w| == |f|
  {
    if format == Omega then ToOmega(f) else f
  }

  /** The lower angular band edge; with the auto flag it is the smallest positive double. */
  function WMin(ops: McOptions): real {
    if ops.fMinAuto then MinValue else TwoPi * ops.fMin + MinValue
  }

  /** Whether `x` lies at or below the upper angular band edge; with the auto flag there is none. */
  predicate BelowMax(ops: McOptions, x: real) {
    ops.fMaxAuto || x <= TwoPi * ops.fMax
  }

  predicate InBand(ops: McOptions, x: real) {
    x >= WMin(ops) && BelowMax(ops, x)
  }

  predicate Nondecreasing(s: seq<real>) {
    forall i, j :: 0 <= i < j < |s| ==> s[i] <= s[j]
  }

  /** The first index from `i` on whose value reaches `bound`, or |w| when there is none. */
  function FirstAtLeast(w: seq<real>, bound: real, i: nat): (r: nat)
    requires i <= |w|
    ensures i <= r <= |w|
    ensures r < |w| ==> w[r] >= bound
    ensures forall j :: i <= j < r ==> w[j] < bound
    decreases |w| - i
  {
    if i == |w| then |w|
    else if w[i] >= bound then i
    else FirstAtLeast(w, bound, i + 1)
  }

  /** The forward search: the first index whose value reaches `bound`, or 0 when there is none. */
  function FirstIndexOrZero(w: seq<real>, bound: real): (r: nat)
    ensures || (r < |w| && w[r] >= bound && forall j :: 0 <= j < r ==> w[j] < bound)
            || (r == 0 && forall j :: 0 <= j < |w| ==> w[j] < bound)
  {
    var r := FirstAtLeast(w, bound, 0);
    if r == |w| then 0 else r
  }

  /**
   * The backward search over the indices below `k`: the last one whose value
   * lies below the upper band edge, or |w| when there is none.
   */
  function LastBelowMax(ops: McOptions, w: seq<real>, k: nat): (r: nat)
    requires k <= |w|
    ensures r == |w| || r < k
    ensures r < |w| ==> r < k && BelowMax(ops, w[r]) && forall j :: r < j < k ==> !BelowMax(ops, w[j])
    ensures r == |w| ==> forall j :: 0 <= j < k ==> !BelowMax(ops, w[j])
    decreases k
  {
    if k == 0 then |w|
    else if BelowMax(ops, w[k - 1]) then k - 1
    else LastBelowMax(ops, w, k - 1)
  }

  function LowIndex(ops: McOptions, w: seq<real>): nat {
    FirstIndexOrZero(w, WMin(ops))
  }

  function HighIndex(ops: McOptions, w: seq<real>): nat {
    LastBelowMax(ops, w, |w|)
  }

  /**
   * Allocating an array of hi - lo + 1 elements and copying positions
   * lo .. hi of `xs` into it: a negative size or a copy past the end of `xs`
   * throws.
   */
  function Cut<T>(lo: nat, hi: nat, xs: seq<T>): (r: Outcome<seq<T>>)
    ensures r != ReturnedNull
    ensures r.Returned? <==> lo <= hi + 1 <= |xs|
    ensures r.Returned? ==> |r.value| == hi + 1 - lo && forall i :: 0 <= i < |r.value| ==> r.value[i] == xs[lo + i]
  {
    if hi + 1 < lo then Throws
    else if hi + 1 > |xs| then Throws
    else Returned(xs[lo..hi + 1])
  }

  /**
   * The frequency filter. The band edges are always scaled by 2*pi; the
   * scanned values are scaled only in Omega format.
   */
  function ApplyMCOpsToF(ops: McOptions, f: seq<real>, format: DataFormat): (r: Outcome<seq<real>>)
    ensures r == ReturnedNull <==> ops.fMax < ops.fMin
    ensures r.Returned? ==> |r.value| <= |f|
  {
    if ops.fMax < ops.fMin then ReturnedNull
    else
      var w := Scan(f, format);
      Cut(LowIndex(ops, w), HighIndex(ops, w), w)
  }

  /** The filter for real data sampled on `f`: the window comes from 2*pi*f, the values from `data`. */
  function ApplyMCOpsToData(ops: McOptions, f: seq<real>, data: seq<real>): (r: Outcome<seq<real>>)
    ensures r == ReturnedNull <==> ops.fMax < ops.fMin
    ensures r.Returned? ==> |r.value| <= |data|
  {
    if ops.fMax < ops.fMin then ReturnedNull
    else
      var w := ToOmega(f);
      Cut(LowIndex(ops, w), HighIndex(ops, w), data)
  }

  function RealParts(data: seq<Complex>): (r: seq<real>)
    ensures |r| == |data| && forall i :: 0 <= i < |data| ==> r[i] == data[i].re
  {
    seq(|data|, i requires 0 <= i < |data| => data[i].re)
  }

  function ImagParts(data: seq<Complex>): (r: seq<real>)
    ensures |r| == |data| && forall i :: 0 <= i < |data| ==> r[i] == data[i].im
  {
    seq(|data|, i requires 0 <= i < |data| => data[i].im)
  }

  /**
   * The filter for complex data: both parts go through the real filter and
   * are zipped back together. A `null` from the real filter is dereferenced,
   * so this filter throws where the real one returns `null`.
   */
  function ApplyMCOpsToComplexData(ops: McOptions, f: seq<real>, data: seq<Complex>): (r: Outcome<seq<Complex>>)
    ensures r != ReturnedNull
    ensures r == Throws <==> !ApplyMCOpsToData(ops, f, RealParts(data)).Returned?
    ensures r.Returned? ==> |r.value| == |ApplyMCOpsToData(ops, f, RealParts(data)).value|
  {
    var re := ApplyMCOpsToData(ops, f, RealParts(data));
    var im := ApplyMCOpsToData(ops, f, ImagParts(data));
    match (re, im)
    case (Returned(rs), Returned(js)) =>
      if |js| < |rs| then Throws
      else Returned(seq(|rs|, i requires 0 <= i < |rs| => Complex(rs[i], js[i])))
    case _ => Throws
  }

  /** The lower edge of the Hz search of getFirstFIndex; with the auto flag it is the smallest positive double. */
  function FMinBound(ops: McOptions): real {
    if ops.fMinAuto then MinValue else ops.fMin + MinValue
  }

  /** The first index of `f` at or above the lower edge in Hz, or 0 when there is none. */
  function GetFirstFIndex(ops: McOptions, f: seq<real>): (idx: nat)
    ensures || (idx < |f| && f[idx] >= FMinBound(ops) && forall j :: 0 <= j < idx ==> f[j] < FMinBound(ops))
            || (idx == 0 && forall j :: 0 <= j < |f| ==> f[j] < FMinBound(ops))
  {
    FirstIndexOrZero(f, FMinBound(ops))
  }

  lemma ToOmegaNondecreasing(f: seq<real>)
    requires Nondecreasing(f)
    ensures Nondecreasing(ToOmega(f))
  {
  }

  /**
   * On a nondecreasing frequency vector with at least one sample in the
   * band, the frequency filter returns exactly the samples in the band, as
   * one contiguous run.
   */
  lemma SortedSelectsBand(ops: McOptions, f: seq<real>, format: DataFormat, j: nat) returns (lo: nat, n: nat)
    requires Nondecreasing(f)
    requires ops.fMin <= ops.fMax
    requires j < |f| && InBand(ops, Scan(f, format)[j])
    ensures lo + n <= |f|
    ensures ApplyMCOpsToF(ops, f, format) == Returned(Scan(f, format)[lo..lo + n])
    ensures forall i :: 0 <= i < |f| ==> (InBand(ops, Scan(f, format)[i]) <==> lo <= i < lo + n)
  {
    var w := Scan(f, format);
    if format == Omega {
      ToOmegaNondecreasing(f);
    }
    assert Nondecreasing(w);
    lo := LowIndex(ops, w);
    var hi := HighIndex(ops, w);
    assert lo <= j <= hi < |w|;
    n := hi + 1 - lo;
    assert w[lo..hi + 1] == w[lo..lo + n];
    forall i | 0 <= i < |f|
      ensures InBand(ops, w[i]) <==> lo <= i < lo + n
    {
      if lo <= i {
        assert w[lo] <= w[i];
      }
      if i <= hi && !ops.fMaxAuto {
        assert w[i] <= w[hi];
      }
    }
  }

  /** The worked example: of 1 kHz, 1 MHz and 1 GHz only 1 MHz lies in the 100 kHz .. 100 MHz band. */
  lemma BandExample(ops: McOptions)
    requires ops.fMin == 100000.0 && ops.fMax == 100000000.0
    requires !ops.fMinAuto && !ops.fMaxAuto
    ensures ApplyMCOpsToF(ops, [1000.0, 1000000.0, 1000000000.0], Hz) == Returned([1000000.0])
    ensures ApplyMCOpsToF(ops, [1000.0, 1000000.0, 1000000000.0], Omega) == Returned([TwoPi * 1000000.0])
  {
    var f := [1000.0, 1000000.0, 1000000000.0];
    assert LowIndex(ops, f) == 1;
    assert HighIndex(ops, f) == 1;
    var w := ToOmega(f);
    assert w == [TwoPi * 1000.0, TwoPi * 1000000.0, TwoPi * 1000000000.0];
    assert LowIndex(ops, w) == 1;
    assert HighIndex(ops, w) == 1;
    assert Scan(f, Hz) == f && Scan(f, Omega) == w;
    assert f[1..2] == [1000000.0];
    assert w[1..2] == [TwoPi * 1000000.0];
  }

  /**
   * When no sample reaches the lower band edge the low index stays 0, so
   * everything up to the high index is returned, samples below the band
   * included.
   */
  lemma NoSampleAboveMinKeepsPrefix(ops: McOptions, f: seq<real>, format: DataFormat)
    requires ops.fMin <= ops.fMax
    requires forall i :: 0 <= i < |f| ==> Scan(f, format)[i] < WMin(ops)
    requires HighIndex(ops, Scan(f, format)) < |f|
    ensures ApplyMCOpsToF(ops, f, format) == Returned(Scan(f, format)[..HighIndex(ops, Scan(f, format)) + 1])
  {
  }

  /** A single sample below the band is returned, not cut. */
  lemma BelowBandSampleKept(ops: McOptions)
    requires ops.fMin == 10.0 && ops.fMax == 20.0
    requires !ops.fMinAuto && !ops.fMaxAuto
    ensures !InBand(ops, TwoPi)
    ensures ApplyMCOpsToF(ops, [1.0], Omega) == Returned([TwoPi])
  {
    assert ToOmega([1.0]) == [TwoPi];
    assert LowIndex(ops, [TwoPi]) == 0;
    assert HighIndex(ops, [TwoPi]) == 0;
    assert Scan([1.0], Omega) == [TwoPi];
    assert [TwoPi][0..1] == [TwoPi];
  }

  /**
   * When no sample lies below the upper band edge the high index stays at
   * the array length and the copy runs past the end; an empty frequency
   * vector is the smallest case.
   */
  lemma NoSampleBelowMaxThrows(ops: McOptions, f: seq<real>, format: DataFormat)
    requires ops.fMin <= ops.fMax
    requires forall i :: 0 <= i < |f| ==> !BelowMax(ops, Scan(f, format)[i])
    ensures ApplyMCOpsToF(ops, f, format) == Throws
  {
  }

  /**
   * The real data filter cuts `data` at the very indices the frequency
   * filter cuts 2*pi*f at, when the two have the same length.
   */
  lemma DataFilterMatchesOmegaFilter(ops: McOptions, f: seq<real>, data: seq<real>) returns (lo: nat)
    requires |data| == |f|
    ensures ApplyMCOpsToData(ops, f, data).Returned? <==> ApplyMCOpsToF(ops, f, Omega).Returned?
    ensures ApplyMCOpsToData(ops, f, data) == ReturnedNull <==> ApplyMCOpsToF(ops, f, Omega) == ReturnedNull
    ensures ApplyMCOpsToF(ops, f, Omega).Returned? ==>
      var ws := ApplyMCOpsToF(ops, f, Omega).value;
      var ds := ApplyMCOpsToData(ops, f, data).value;
      && |ds| == |ws|
      && lo + |ws| <= |f|
      && (forall i :: 0 <= i < |ws| ==> ws[i] == TwoPi * f[lo + i] && ds[i] == data[lo + i])
  {
    lo := LowIndex(ops, ToOmega(f));
  }

  /**
   * The complex filter keeps, in both parts, the samples at the same
   * indices as the real filter applied to any real data of the same length.
   */
  lemma ComplexFilterMatchesRealFilter(ops: McOptions, f: seq<real>, data: seq<Complex>, xs: seq<real>) returns (lo: nat)
    requires |xs| == |data|
    ensures ApplyMCOpsToComplexData(ops, f, data).Returned? <==> ApplyMCOpsToData(ops, f, xs).Returned?
    ensures ApplyMCOpsToData(ops, f, xs).Returned? ==>
      var cs := ApplyMCOpsToComplexData(ops, f, data).value;
      var ys := ApplyMCOpsToData(ops, f, xs).value;
      && |cs| == |ys|
      && lo + |cs| <= |data|
      && (forall i :: 0 <= i < |cs| ==> cs[i] == data[lo + i] && ys[i] == xs[lo + i])
  {
    lo := LowIndex(ops, ToOmega(f));
  }

  /**
   * The frequency filter as evidently intended: the window is always chosen
   * on 2*pi*f, and Hz format hands back the same samples unscaled.
   */
  function ApplyMCOpsToFPaired(ops: McOptions, f: seq<real>, format: DataFormat): (r: Outcome<seq<real>>)
    ensures r == ReturnedNull <==> ops.fMax < ops.fMin
  {
    if ops.fMax < ops.fMin then ReturnedNull
    else
      var w := ToOmega(f);
      Cut(LowIndex(ops, w), HighIndex(ops, w), Scan(f, format))
  }

  /**
   * The corrected filter keeps frequencies and data paired in both formats,
   * and in Omega format it is the filter as written.
   */
  lemma PairedFilterMatchesData(ops: McOptions, f: seq<real>, format: DataFormat, data: seq<real>) returns (lo: nat)
    requires |data| == |f|
    ensures ApplyMCOpsToFPaired(ops, f, Omega) == ApplyMCOpsToF(ops, f, Omega)
    ensures ApplyMCOpsToFPaired(ops, f, format).Returned? <==> ApplyMCOpsToData(ops, f, data).Returned?
    ensures ApplyMCOpsToData(ops, f, data).Returned? ==>
      var vs := ApplyMCOpsToFPaired(ops, f, format).value;
      var ds := ApplyMCOpsToData(ops, f, data).value;
      && |vs| == |ds|
      && lo + |vs| <= |f|
      && (forall i :: 0 <= i < |vs| ==> vs[i] == Scan(f, format)[lo + i] && ds[i] == data[lo + i])
  {
    lo := LowIndex(ops, ToOmega(f));
  }

  /**
   * As written, Hz format compares the unscaled samples with the 2*pi-scaled
   * edges: of 200 kHz and 1 MHz in the 100 kHz .. 100 MHz band only 1 MHz is
   * kept, while the data filter keeps both samples.
   */
  lemma HzWindowMismatch(ops: McOptions)
    requires ops.fMin == 100000.0 && ops.fMax == 100000000.0
    requires !ops.fMinAuto && !ops.fMaxAuto
    ensures ApplyMCOpsToF(ops, [200000.0, 1000000.0], Hz) == Returned([1000000.0])
    ensures ApplyMCOpsToData(ops, [200000.0, 1000000.0], [1.0, 2.0]) == Returned([1.0, 2.0])
    ensures ApplyMCOpsToFPaired(ops, [200000.0, 1000000.0], Hz) == Returned([200000.0, 1000000.0])
  {
    var f := [200000.0, 1000000.0];
    assert LowIndex(ops, f) == 1;
    assert HighIndex(ops, f) == 1;
    var w := ToOmega(f);
    assert w == [TwoPi * 200000.0, TwoPi * 1000000.0];
    assert LowIndex(ops, w) == 0;
    assert HighIndex(ops, w) == 1;
    assert [1.0, 2.0][0..2] == [1.0, 2.0];
    assert f[0..2] == f;
  }
}
