/** The positions of a boolean mask that hold, in increasing order. Both error
    lists of a request are "one error per selected position, in order". */
module Positions {

  function Where(mask: seq<bool>): (idx: seq<nat>)
    ensures forall k :: 0 <= k < |idx| ==> idx[k] < |mask|
    ensures forall k, l :: 0 <= k < l < |idx| ==> idx[k] < idx[l]
    ensures forall i :: 0 <= i < |mask| ==> (mask[i] <==> i in idx)
    decreases |mask|
  {
    if mask == [] then []
    else
      var n := |mask| - 1;
      var init := Where(mask[..n]);
      assert forall i :: 0 <= i < n ==> mask[..n][i] == mask[i];
      if mask[n] then init + [n] else init
  }

  /** Nothing is selected exactly when no position of the mask holds. */
  lemma WhereEmpty(mask: seq<bool>)
    ensures Where(mask) == [] <==> forall i :: 0 <= i < |mask| ==> !mask[i]
  {
    var idx := Where(mask);
    if idx != [] {
      assert mask[idx[0]];
    }
  }
}
