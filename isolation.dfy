/**
 * The isolation cycle of AiInfoExport.js as pure functions on snapshots
 * (lines 125-141 and 176-190): save and isolate the layers' visibility,
 * save and hide the layer's page items, show the group, and in `finally`
 * put back what was saved, each loop bounded by the shorter of the current
 * collection and its snapshot.
 *
 * Host setters can throw. A layer in `locked` throws when its visibility is
 * set; since that setter is outside any inner `try`, the isolate loop and
 * the restore loop both stop there. An item in `lockedItems` throws when
 * its hidden flag is set; those setters sit in their own `try`, so the loops
 * go on and the item keeps its flag. The same sets decide both loops: a
 * setter that fails only while restoring is not modelled.
 */
module Isolation {
  import opened Wrappers

  function Min(a: nat, b: nat): nat {
    if a <= b then a else b
  }

  /** The first index below `n` that is in `s`, or `n` if there is none. */
  function FirstIn(n: nat, s: set<nat>): (f: nat)
    ensures f <= n
    ensures forall j :: 0 <= j < f ==> j !in s
    ensures f < n ==> f in s
  {
    if n == 0 then 0
    else
      var p := FirstIn(n - 1, s);
      if p < n - 1 then p else if n - 1 in s then n - 1 else n
  }

  /** The three properties of FirstIn determine it. */
  lemma FirstInUnique(n: nat, s: set<nat>, f: nat)
    requires f <= n
    requires forall j :: 0 <= j < f ==> j !in s
    requires f < n ==> f in s
    ensures FirstIn(n, s) == f
  {
  }

  /** The outcome of the save-and-isolate loop over the document's layers. */
  datatype LayerIsolation = LayerIsolation(snapshot: seq<bool>, visible: seq<bool>, completed: bool)

  /**
   * For each layer in turn, save its visibility and then make it visible
   * exactly when it is the target layer, stopping (by an exception) at the
   * first locked layer, whose visibility was already saved but not changed.
   */
  function IsolateLayers(visible: seq<bool>, target: nat, locked: set<nat>): (r: LayerIsolation)
    ensures |r.visible| == |visible|
    ensures r.completed <==> forall j :: 0 <= j < |visible| ==> j !in locked
    ensures r.completed ==> forall j :: 0 <= j < |visible| ==> r.visible[j] == (j == target)
    ensures |r.snapshot| <= |visible| && r.snapshot == visible[..|r.snapshot|]
    ensures r.completed ==> |r.snapshot| == |visible|
  {
    var f := FirstIn(|visible|, locked);
    LayerIsolation(
      visible[..Min(f + 1, |visible|)],
      seq(|visible|, j requires 0 <= j < |visible| => if j < f then j == target else visible[j]),
      f == |visible|)
  }

  /**
   * The `finally` loop over the layers: for `li2` below the number of layers
   * and the snapshot's length, put the saved visibility back, stopping at the
   * first locked layer.
   */
  function RestoreLayers(current: seq<bool>, snapshot: seq<bool>, locked: set<nat>): (r: seq<bool>)
    ensures |r| == |current|
    ensures forall j :: 0 <= j < |current| && j < |snapshot| && (forall k :: 0 <= k <= j ==> k !in locked) ==>
      r[j] == snapshot[j]
    ensures forall j, k :: 0 <= k <= j < |current| && k in locked ==> r[j] == current[j]
    ensures forall j :: |snapshot| <= j < |current| ==> r[j] == current[j]
  {
    var g := FirstIn(Min(|current|, |snapshot|), locked);
    seq(|current|, j requires 0 <= j < |current| => if j < g then snapshot[j] else current[j])
  }

  /** Restoring after isolation gives back every layer's visibility, however isolation ended. */
  lemma LayersRoundTrip(visible: seq<bool>, target: nat, locked: set<nat>)
    ensures var iso := IsolateLayers(visible, target, locked);
      RestoreLayers(iso.visible, iso.snapshot, locked) == visible
  {
    var iso := IsolateLayers(visible, target, locked);
    var f := FirstIn(|visible|, locked);
    FirstInUnique(Min(|iso.visible|, |iso.snapshot|), locked, f);
    var r := RestoreLayers(iso.visible, iso.snapshot, locked);
    assert forall j :: 0 <= j < |visible| ==> r[j] == visible[j];
  }

  /** With nothing saved, the restore loop changes nothing. */
  lemma RestoreLayersNothingSaved(current: seq<bool>, locked: set<nat>)
    ensures RestoreLayers(current, [], locked) == current
  {
  }

  /** Hide every page item; a locked item keeps its flag. */
  function HideAll(hidden: seq<bool>, locked: set<nat>): (r: seq<bool>)
    ensures |r| == |hidden|
  {
    seq(|hidden|, k requires 0 <= k < |hidden| => if k in locked then hidden[k] else true)
  }

  /** Un-hide the group's own page item, if it is one and not locked. */
  function Show(hidden: seq<bool>, slot: Option<nat>, locked: set<nat>): (r: seq<bool>)
    ensures |r| == |hidden|
    ensures slot.Some? && slot.value < |hidden| && slot.value !in locked ==> r[slot.value] == false
    ensures forall k :: 0 <= k < |hidden| && slot != Some(k) ==> r[k] == hidden[k]
    ensures slot.Some? && slot.value in locked ==> r == hidden
  {
    if slot.Some? && slot.value < |hidden| && slot.value !in locked
    then hidden[slot.value := false]
    else hidden
  }

  /** While the group renders, every other unlocked item is hidden and the group is not. */
  lemma IsolatedItems(hidden: seq<bool>, slot: Option<nat>, locked: set<nat>)
    ensures var r := Show(HideAll(hidden, locked), slot, locked);
      forall k :: 0 <= k < |hidden| ==>
        r[k] == (if k in locked then hidden[k] else slot != Some(k))
  {
  }

  /** The `finally` loop over the items: saved flags go back, locked items keep theirs. */
  function RestoreItems(current: seq<bool>, snapshot: seq<bool>, locked: set<nat>): (r: seq<bool>)
    ensures |r| == |current|
    ensures forall k :: 0 <= k < |current| && k < |snapshot| && k !in locked ==> r[k] == snapshot[k]
    ensures forall k :: 0 <= k < |current| && (k >= |snapshot| || k in locked) ==> r[k] == current[k]
  {
    seq(|current|, k requires 0 <= k < |current| =>
      if k < |snapshot| && k !in locked then snapshot[k] else current[k])
  }

  /** Restoring after hiding gives back every item's hidden flag. */
  lemma ItemsRoundTrip(hidden: seq<bool>, slot: Option<nat>, locked: set<nat>)
    ensures RestoreItems(Show(HideAll(hidden, locked), slot, locked), hidden, locked) == hidden
  {
    var r := RestoreItems(Show(HideAll(hidden, locked), slot, locked), hidden, locked);
    assert forall k :: 0 <= k < |hidden| ==> r[k] == hidden[k];
  }

  /** With nothing saved, the restore loop changes nothing. */
  lemma RestoreItemsNothingSaved(current: seq<bool>, locked: set<nat>)
    ensures RestoreItems(current, [], locked) == current
  {
  }
}
