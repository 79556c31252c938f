/**
 * The parameter codec between the universal seven-slot parameter vector and
 * the dense per-topology vector the optimizer works on.
 *
 * `ShortenParam` goes from the universal vector to the dense one by the
 * slot table. `Topo2Param` goes back with one hand-written case per
 * topology; `ExpandParam` is the table-driven inverse the hand-written
 * cases are meant to agree with.
 */
module Codec {
  import opened Topology

  /**
   * The slot loop of shortenParam from slot `i` on: every slot whose table
   * entry passes the `<= n` guard is copied to that dense position.
   */
  function ShortenLoop(t: CircuitType, p: ParamVector, i: nat, res: seq<real>): (r: seq<real>)
    requires i <= NSlots && |res| == ElementCount(t)
    ensures |r| == ElementCount(t)
    ensures forall k: Slot :: i <= k && IsActive(t, k) ==> r[TopoIdx(t, k)] == p[k]
    ensures forall j :: 0 <= j < |r| && SlotOf(t, j) < i ==> r[j] == res[j]
    decreases NSlots - i
  {
    if i == NSlots then res
    else
      var n := ElementCount(t);
      var idx := TopoIdx(t, i);
      TopoIdxFacts(t);
      // The guard `idx <= n` only admits active entries, and those are below n.
      var res' := if idx <= n then res[idx := p[i]] else res;
      ShortenLoop(t, p, i + 1, res')
  }

  /** The dense parameter vector of topology `t` read off the universal vector `p`. */
  function ShortenParam(t: CircuitType, p: ParamVector): (r: seq<real>)
    ensures |r| == ElementCount(t)
    ensures forall k: Slot :: IsActive(t, k) ==> r[TopoIdx(t, k)] == p[k]
  {
    ShortenLoop(t, p, 0, seq(ElementCount(t), _ => 0.0))
  }

  /**
   * The universal vector built from the dense vector `p`, one written-out
   * case per topology. The case for Model9 assigns slot 5 twice and never
   * assigns slot 4.
   */
  function Topo2Param(t: CircuitType, p: seq<real>): (r: ParamVector)
    requires |p| >= ElementCount(t)
    ensures forall i: Slot :: !IsActive(t, i) ==> r[i] == 0.0
  {
    var z := ZeroParams;
    match t
    case Model0 | Model1 => z[0 := p[0]][4 := p[1]]
    case Model2 | Model3 => z[0 := p[0]][5 := p[1]]
    case Model4 | Model5 | Model6 | Model7 => z[0 := p[0]][4 := p[1]][5 := p[2]]
    case Model8 => z[0 := p[0]][3 := p[1]][5 := p[2]]
    case Model9 => z[0 := p[0]][3 := p[1]][5 := p[2]][5 := p[3]]
    case Model10 | Model11 => z[0 := p[0]][3 := p[1]][4 := p[2]][5 := p[3]]
    case Model12 => z[0 := p[0]][4 := p[1]][5 := p[2]][6 := p[3]]
    case Model13 | Model14 | Model15 => z[0 := p[0]][1 := p[1]][2 := p[2]][4 := p[3]][5 := p[4]]
    case Model16 => z[0 := p[0]][1 := p[1]][2 := p[2]][3 := p[3]][5 := p[4]]
    case Model17 | Model18 | Model19 => z[0 := p[0]][1 := p[1]][2 := p[2]][3 := p[3]][4 := p[4]][5 := p[5]]
    case Model20 => z[0 := p[0]][1 := p[1]][2 := p[2]][4 := p[3]][5 := p[4]][6 := p[5]]
  }

  /** The table-driven inverse of ShortenParam: active slots from the table, the rest zero. */
  function ExpandParam(t: CircuitType, p: seq<real>): (r: ParamVector)
    requires |p| >= ElementCount(t)
    ensures forall i: Slot :: IsActive(t, i) ==> r[i] == p[TopoIdx(t, i)]
    ensures forall i: Slot :: !IsActive(t, i) ==> r[i] == 0.0
  {
    TopoIdxFacts(t);
    seq(NSlots, i requires 0 <= i < NSlots => if IsActive(t, i) then p[TopoIdx(t, i)] else 0.0)
  }

  /** Shortening an expanded dense vector gives the dense vector back. */
  lemma ShortenExpand(t: CircuitType, v: seq<real>)
    requires |v| == ElementCount(t)
    ensures ShortenParam(t, ExpandParam(t, v)) == v
  {
    var r := ShortenParam(t, ExpandParam(t, v));
    forall j | 0 <= j < |v|
      ensures r[j] == v[j]
    {
      var i := SlotOf(t, j);
      assert r[j] == ExpandParam(t, v)[i] == v[j];
    }
  }

  /** Expanding a shortened vector keeps the active slots and zeroes the others. */
  lemma ExpandShorten(t: CircuitType, p: ParamVector)
    ensures ExpandParam(t, ShortenParam(t, p)) == KeepActive(t, p)
  {
    var r := ExpandParam(t, ShortenParam(t, p));
    var c := KeepActive(t, p);
    forall i | 0 <= i < NSlots
      ensures r[i] == c[i]
    {
      ExpandShortenAt(t, p, i);
    }
  }

  lemma ExpandShortenAt(t: CircuitType, p: ParamVector, i: Slot)
    ensures ExpandParam(t, ShortenParam(t, p))[i] == KeepActive(t, p)[i]
  {
    TopoIdxFacts(t);
    var s := ShortenParam(t, p);
    if IsActive(t, i) {
      assert ExpandParam(t, s)[i] == s[TopoIdx(t, i)];
    }
  }

  /** For every topology but Model9 the written-out cases agree with the table. */
  lemma Topo2ParamMatchesTable(t: CircuitType, v: seq<real>)
    requires |v| >= ElementCount(t)
    requires t != Model9
    ensures Topo2Param(t, v) == ExpandParam(t, v)
  {
    var a := Topo2Param(t, v);
    var b := ExpandParam(t, v);
    forall i: Slot
      ensures a[i] == b[i]
    {
    }
  }

  /** For every topology but Model9, expanding and then shortening is the identity. */
  lemma Topo2ParamRoundTrip(t: CircuitType, v: seq<real>)
    requires |v| == ElementCount(t)
    requires t != Model9
    ensures ShortenParam(t, Topo2Param(t, v)) == v
  {
    Topo2ParamMatchesTable(t, v);
    ShortenExpand(t, v);
  }

  /** Model9 loses its third dense parameter: slot 4 (L) stays zero and slot 5 takes the fourth. */
  lemma Topo2ParamModel9Loses(v: seq<real>)
    requires |v| == ElementCount(Model9)
    ensures Topo2Param(Model9, v)[4] == 0.0
    ensures Topo2Param(Model9, v)[5] == v[3]
    ensures ShortenParam(Model9, Topo2Param(Model9, v)) == [v[0], v[1], 0.0, v[3]]
  {
    var q := Topo2Param(Model9, v);
    assert q == [v[0], 0.0, 0.0, v[1], 0.0, v[3], 0.0];
    var r := ShortenParam(Model9, q);
    assert Parameter2TopoIdx[9] == [0, 99, 99, 1, 2, 3, 99];
    assert IsActive(Model9, 0) && TopoIdx(Model9, 0) == 0;
    assert IsActive(Model9, 3) && TopoIdx(Model9, 3) == 1;
    assert IsActive(Model9, 4) && TopoIdx(Model9, 4) == 2;
    assert IsActive(Model9, 5) && TopoIdx(Model9, 5) == 3;
    assert r == [v[0], v[1], 0.0, v[3]];
  }

  /** A concrete dense vector that does not survive the Model9 round trip. */
  lemma Topo2ParamModel9Counterexample()
    ensures ShortenParam(Model9, Topo2Param(Model9, [1.0, 2.0, 3.0, 4.0])) != [1.0, 2.0, 3.0, 4.0]
  {
    Topo2ParamModel9Loses([1.0, 2.0, 3.0, 4.0]);
  }
}
