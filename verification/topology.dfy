/**
 * The catalog of 21 equivalent-circuit topologies and the two tables that
 * describe them: how many elements each topology has, and where each of the
 * seven universal parameter slots goes in the topology's dense parameter
 * vector.
 *
 * The universal parameter vector has the slots
 *   0: R0   1: f0   2: alpha   3: R1   4: L   5: C0   6: C1
 */
module Topology {

  /** The 21 topologies, in the order of their ordinals. */
  datatype CircuitType = Model0 | Model1 | Model2 | Model3 | Model4 | Model5 | Model6 | Model7 | Model8 | Model9 | Model10 | Model11 | Model12 | Model13 | Model14 | Model15 | Model16 | Model17 | Model18 | Model19 | Model20
  {
    /** The position of the topology in the catalog. */
    function Ordinal(): (k: nat)
      ensures k < NModels
    {
      match this
      case Model0 => 0
      case Model1 => 1
      case Model2 => 2
      case Model3 => 3
      case Model4 => 4
      case Model5 => 5
      case Model6 => 6
      case Model7 => 7
      case Model8 => 8
      case Model9 => 9
      case Model10 => 10
      case Model11 => 11
      case Model12 => 12
      case Model13 => 13
      case Model14 => 14
      case Model15 => 15
      case Model16 => 16
      case Model17 => 17
      case Model18 => 18
      case Model19 => 19
      case Model20 => 20
    }
  }

  /** The topology with the given position in the catalog. */
  function FromOrdinal(k: nat): (t: CircuitType)
    requires k < NModels
    ensures t.Ordinal() == k
  {
    match k
      case 0 => Model0
      case 1 => Model1
      case 2 => Model2
      case 3 => Model3
      case 4 => Model4
      case 5 => Model5
      case 6 => Model6
      case 7 => Model7
      case 8 => Model8
      case 9 => Model9
      case 10 => Model10
      case 11 => Model11
      case 12 => Model12
      case 13 => Model13
      case 14 => Model14
      case 15 => Model15
      case 16 => Model16
      case 17 => Model17
      case 18 => Model18
      case 19 => Model19
      case 20 => Model20
  }

  lemma FromOrdinalOrdinal(t: CircuitType)
    ensures FromOrdinal(t.Ordinal()) == t
  {
  }

  const NModels: nat := 21
  /** Topologies from this ordinal on use the skin-effect resistor. */
  const NModelSkinStart: nat := 13
  const NSlots: nat := 7
  /** Table entry of a slot that the topology does not use. */
  const Inactive: int := 99

  /** Number of elements of each topology, indexed by ordinal. */
  const ModelNParameters: seq<nat> :=
    [2, 2, 2, 2, 3, 3, 3, 3, 3, 4, 4, 4, 4, 5, 5, 5, 5, 6, 6, 6, 6]

  /**
   * For each topology (by ordinal) and each universal slot, the position of
   * that slot in the dense parameter vector, or `Inactive`.
   */
  const Parameter2TopoIdx: seq<seq<int>> :=
    [[0, 99, 99, 99, 1, 99, 99], [0, 99, 99, 99, 1, 99, 99],
     [0, 99, 99, 99, 99, 1, 99], [0, 99, 99, 99, 99, 1, 99], [0, 99, 99, 99, 1, 2, 99],
     [0, 99, 99, 99, 1, 2, 99], [0, 99, 99, 99, 1, 2, 99], [0, 99, 99, 99, 1, 2, 99],
     [0, 99, 99, 1, 99, 2, 99], [0, 99, 99, 1, 2, 3, 99], [0, 99, 99, 1, 2, 3, 99],
     [0, 99, 99, 1, 2, 3, 99], [0, 99, 99, 99, 1, 2, 3], [0, 1, 2, 99, 3, 4, 99],
     [0, 1, 2, 99, 3, 4, 99], [0, 1, 2, 99, 3, 4, 99], [0, 1, 2, 3, 99, 4, 99], [0, 1, 2, 3, 4, 5, 99],
     [0, 1, 2, 3, 4, 5, 99], [0, 1, 2, 3, 4, 5, 99], [0, 1, 2, 99, 3, 4, 5]]

  /** A universal parameter vector: exactly seven slots. */
  type ParamVector = p: seq<real> | |p| == NSlots witness [0.0, 0.0, 0.0, 0.0, 0.0, 0.0, 0.0]

  const ZeroParams: ParamVector := [0.0, 0.0, 0.0, 0.0, 0.0, 0.0, 0.0]

  /** A slot index. */
  type Slot = i: nat | i < NSlots

  function ElementCount(t: CircuitType): nat {
    ModelNParameters[t.Ordinal()]
  }

  /** The table entry of slot `i` for topology `t`. */
  function TopoIdx(t: CircuitType, i: Slot): int {
    Parameter2TopoIdx[t.Ordinal()][i]
  }

  predicate IsActive(t: CircuitType, i: Slot) {
    TopoIdx(t, i) != Inactive
  }

  /** The topologies evaluated as a ratio of two polynomials in j*w. */
  predicate IsRational(t: CircuitType) {
    t.Ordinal() < NModelSkinStart
  }

  /**
   * A table row is a bijection between the active slots and the dense
   * positions 0 .. n-1: every entry is `Inactive` or below `n`, no dense
   * position is used twice, and every dense position is used.
   */
  ghost predicate RowIsBijection(row: seq<int>, n: nat) {
    && |row| == NSlots
    && (forall i :: 0 <= i < NSlots ==> row[i] == Inactive || 0 <= row[i] < n)
    && (forall i, j :: 0 <= i < j < NSlots && row[i] != Inactive ==> row[i] != row[j])
    && (forall v :: 0 <= v < n ==> v in row)
  }

  /** Number of active entries of `row` from position `i` on. */
  function CountActiveFrom(row: seq<int>, i: nat): nat
    requires i <= |row|
    decreases |row| - i
  {
    if i == |row| then 0 else (if row[i] != Inactive then 1 else 0) + CountActiveFrom(row, i + 1)
  }

  /** Every table row is a bijection onto 0 .. n-1, where n is the topology's element count. */
  lemma TableRowsAreBijections(k: nat)
    requires k < NModels
    ensures |Parameter2TopoIdx| == |ModelNParameters| == NModels
    ensures RowIsBijection(Parameter2TopoIdx[k], ModelNParameters[k])
  {
  }

  /** The element count of every topology equals the number of active slots in its row. */
  lemma ElementCountIsActiveCount(k: nat)
    requires k < NModels
    ensures CountActiveFrom(Parameter2TopoIdx[k], 0) == ModelNParameters[k]
  {
    match k
      case 0 =>
      case 1 =>
      case 2 =>
      case 3 =>
      case 4 =>
      case 5 =>
      case 6 =>
      case 7 =>
      case 8 =>
      case 9 =>
      case 10 =>
      case 11 =>
      case 12 =>
      case 13 =>
      case 14 =>
      case 15 =>
      case 16 =>
      case 17 =>
      case 18 =>
      case 19 =>
      case 20 =>
  }

  /** The per-topology view of the table facts. */
  lemma TopoIdxFacts(t: CircuitType)
    ensures 2 <= ElementCount(t) <= 6
    ensures forall i: Slot :: IsActive(t, i) ==> 0 <= TopoIdx(t, i) < ElementCount(t)
    ensures forall i: Slot, j: Slot :: IsActive(t, i) && i != j ==> TopoIdx(t, i) != TopoIdx(t, j)
  {
    var k := t.Ordinal();
    TableRowsAreBijections(k);
    var row := Parameter2TopoIdx[k];
    forall i: Slot, j: Slot | IsActive(t, i) && i != j
      ensures TopoIdx(t, i) != TopoIdx(t, j)
    {
      if i < j {
        assert row[i] != row[j];
      } else {
        assert row[j] != row[i];
      }
    }
  }

  /** The first position at or after `i` where `row` holds `v`. */
  function FindFrom(row: seq<int>, v: int, i: nat): (r: nat)
    requires i <= |row| && v in row[i..]
    ensures i <= r < |row| && row[r] == v
    decreases |row| - i
  {
    if row[i] == v then i
    else
      assert row[i..] == [row[i]] + row[i + 1..];
      FindFrom(row, v, i + 1)
  }

  /** The universal slot that dense position `v` of topology `t` stands for. */
  function SlotOf(t: CircuitType, v: nat): (i: Slot)
    requires v < ElementCount(t)
    ensures IsActive(t, i) && TopoIdx(t, i) == v
  {
    var k := t.Ordinal();
    TableRowsAreBijections(k);
    var row := Parameter2TopoIdx[k];
    assert row[0..] == row;
    FindFrom(row, v, 0)
  }

  /** `p` with every slot that `t` does not use set to zero. */
  function KeepActive(t: CircuitType, p: ParamVector): (r: ParamVector)
  {
    seq(NSlots, i requires 0 <= i < NSlots => if IsActive(t, i) then p[i] else 0.0)
  }
}
