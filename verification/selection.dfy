/**
 * The choice of candidate topologies for a fit: the one topology the user
 * picked, or every topology without the skin-effect resistor whose element
 * count lies in the user's range.
 */
module Selection {
  import opened Options
  import opened Topology

  /** Whether the element count of `t` lies in the options' range, both ends included. */
  predicate InCountRange(ops: McOptions, t: CircuitType) {
    ops.nElementsMin <= ElementCount(t) <= ops.nElementsMax
  }

  /**
   * The options after the automatic search has opened its range: an auto
   * maximum becomes the largest int and an auto minimum becomes 0.
   */
  function OpenRange(ops: McOptions): (r: McOptions)
    ensures r.nElementsMax == (if ops.nElementsMaxAuto then IntMax else ops.nElementsMax)
    ensures r.nElementsMin == (if ops.nElementsMinAuto then 0 else ops.nElementsMin)
    ensures r == ops.(nElementsMax := r.nElementsMax, nElementsMin := r.nElementsMin)
  {
    var withMax := if ops.nElementsMaxAuto then ops.(nElementsMax := IntMax) else ops;
    if ops.nElementsMinAuto then withMax.(nElementsMin := 0) else withMax
  }

  /**
   * The candidate list, together with the options as the call leaves them.
   * In manual mode the list is the topology with the chosen ordinal, and an
   * ordinal outside the catalog throws. In automatic mode the options' range
   * is opened where its auto flags are set, and the list holds, in catalog
   * order, every topology below the skin-effect start whose element count
   * lies in the range.
   */
  method CreateModelList(ops: McOptions) returns (r: Outcome<seq<CircuitType>>, ops': McOptions)
    ensures !ops.modelAutoSelect ==> ops' == ops
    ensures !ops.modelAutoSelect && 0 <= ops.modelID < NModels ==> r == Returned([FromOrdinal(ops.modelID)])
    ensures !ops.modelAutoSelect && !(0 <= ops.modelID < NModels) ==> r == Throws
    ensures ops.modelAutoSelect ==> ops' == OpenRange(ops) && r.Returned?
    ensures ops.modelAutoSelect ==> forall i :: 0 <= i < |r.value| ==> IsRational(r.value[i]) && InCountRange(ops', r.value[i])
    ensures ops.modelAutoSelect ==> forall i, j :: 0 <= i < j < |r.value| ==> r.value[i].Ordinal() < r.value[j].Ordinal()
    ensures ops.modelAutoSelect ==> forall k :: 0 <= k < NModelSkinStart && InCountRange(ops', FromOrdinal(k)) ==> FromOrdinal(k) in r.value
  {
    if !ops.modelAutoSelect {
      ops' := ops;
      if 0 <= ops.modelID < NModels {
        r := Returned([FromOrdinal(ops.modelID)]);
      } else {
        r := Throws;
      }
      return;
    }
    ops' := OpenRange(ops);
    // The source counts the matches first only to size its array; the list
    // below is what its second pass fills in.
    var list: seq<CircuitType> := [];
    var ctr := 0;
    while ctr < NModelSkinStart
      invariant 0 <= ctr <= NModelSkinStart
      invariant forall i :: 0 <= i < |list| ==> list[i].Ordinal() < ctr && InCountRange(ops', list[i])
      invariant forall i, j :: 0 <= i < j < |list| ==> list[i].Ordinal() < list[j].Ordinal()
      invariant forall k :: 0 <= k < ctr && InCountRange(ops', FromOrdinal(k)) ==> FromOrdinal(k) in list
    {
      var t := FromOrdinal(ctr);
      if ModelNParameters[ctr] >= ops'.nElementsMin && ModelNParameters[ctr] <= ops'.nElementsMax {
        list := list + [t];
      }
      ctr := ctr + 1;
    }
    r := Returned(list);
  }
}
