/**
 * The exporter's per-group loop (AiInfoExport.js, lines 70-216): skip rules,
 * geometry, the isolation cycle with its unconditional restore, the JSON line
 * of every exported group, the counters, and the lines of export.json.
 *
 * The document is a `Document` object whose fields the loop updates in place.
 * Everything the host may do differently (throw from a setter, from
 * `artboards.add`, from `setActiveArtboardIndex` or from `exportFile`) is the
 * `Host` value; the number formatting of `toFixed(2)` is the `fmt` parameter.
 */
module Exporter {
  import opened Wrappers
  import opened JsonText
  import opened Geometry
  import opened Isolation

  /** One entry of `layer.groupItems`, as the host reports it. */
  datatype Group = Group(
    name: string,                // "" when the group has no name
    locked: bool,
    hidden: bool,
    slot: Option<nat>,           // the group's index among the layer's page items, if it is one
    itemCount: nat,              // `g.pageItems.length`
    bounds: Option<seq<real>>,   // `g.geometricBounds`, None when missing
    rotation: Option<real>)      // None when reading `g.rotation` throws or gives 0 / undefined

  /** Where the host throws. */
  datatype Host = Host(
    lockedLayers: set<nat>,      // layers whose `visible` setter throws
    lockedItems: set<nat>,       // page items whose `hidden` setter throws
    addFails: set<nat>,          // group indices for which `artboards.add` throws
    activateFails: set<nat>,     // ... `setActiveArtboardIndex(tmpABIndex)` throws
    renderFails: set<nat>)       // ... `doc.exportFile` throws

  /** What the loop reads once before it starts, and the document it starts from. */
  datatype Context = Context(
    target: nat,                 // index of the exported layer among `doc.layers`
    abLeft: real, abTop: real,   // the active artboard's left and top
    thumbSize: real,
    host: Host,
    layers: seq<bool>,           // every layer's visibility
    items: seq<bool>)            // every page item's hidden flag, on the exported layer

  /** The values one JSON object line carries. */
  datatype Entry = Entry(name: string, safeName: string, x: real, y: real,
                         width: real, height: real, rotation: real, zorder: nat)

  /** One completed `doc.exportFile` call: file, scale, clip frame, and what was visible. */
  datatype Render = Render(file: string, scalePercent: real, frame: Rect,
                           layerVisible: seq<bool>, itemHidden: seq<bool>)

  datatype SkipReason = Ineligible | BadBounds | ZeroSize | HostError

  datatype GroupResult = Emitted(entry: Entry, render: Render) | Skipped(reason: SkipReason)

  /** The skip rule that runs before anything is saved: null, locked, hidden or empty. */
  predicate Eligible(g: Option<Group>) {
    g.Some? && !g.value.locked && !g.value.hidden && g.value.itemCount != 0
  }

  /** `g.rotation || 0`. */
  function RotationOf(g: Group): real {
    if g.rotation.Some? then g.rotation.value else 0.0
  }

  function ThumbnailFile(safeName: string): string {
    "thumbnails/" + safeName + ".png"
  }

  /** The record of group `i` with bounds `b`. */
  function MakeEntry(i: nat, g: Group, b: Rect, abLeft: real, abTop: real): Entry {
    var name := DisplayName(g.name, i);
    Entry(name, SafeName(name), RelX(b, abLeft), RelY(b, abTop), Width(b), Height(b), RotationOf(g), i)
  }

  /** What the render step sees once group `i` is isolated and framed. */
  function MakeRender(i: nat, g: Group, b: Rect, ctx: Context): Render
    requires MaxDim(b) > 0.0
  {
    Render(ThumbnailFile(SafeName(DisplayName(g.name, i))),
           ScalePercent(ctx.thumbSize, MaxDim(b)),
           b,
           IsolateLayers(ctx.layers, ctx.target, ctx.host.lockedLayers).visible,
           Show(HideAll(ctx.items, ctx.host.lockedItems), g.slot, ctx.host.lockedItems))
  }

  /** Whether the isolation, framing and render steps of group `i` all go through. */
  predicate HostCooperates(i: nat, ctx: Context) {
    IsolateLayers(ctx.layers, ctx.target, ctx.host.lockedLayers).completed
    && i !in ctx.host.addFails && i !in ctx.host.activateFails && i !in ctx.host.renderFails
  }

  /** The outcome of one iteration of the group loop. */
  function GroupOutcome(i: nat, g: Option<Group>, ctx: Context): (r: GroupResult)
    ensures r == Skipped(Ineligible) <==> !Eligible(g)
    ensures r.Emitted? ==>
      && Eligible(g)
      && BoundsRect(g.value.bounds).Some?
      && !Degenerate(BoundsRect(g.value.bounds).value)
      && HostCooperates(i, ctx)
    ensures r.Emitted? ==> r.entry.zorder == i && r.render.file == ThumbnailFile(r.entry.safeName)
    ensures (Eligible(g) && BoundsRect(g.value.bounds).Some? && !Degenerate(BoundsRect(g.value.bounds).value)
             && HostCooperates(i, ctx)) ==> r.Emitted?
    ensures r.Emitted? ==> r.entry == MakeEntry(i, g.value, BoundsRect(g.value.bounds).value, ctx.abLeft, ctx.abTop)
  {
    if !Eligible(g) then Skipped(Ineligible)
    else
      var rect := BoundsRect(g.value.bounds);
      if rect.None? then Skipped(BadBounds)
      else if Degenerate(rect.value) then Skipped(ZeroSize)
      else if !HostCooperates(i, ctx) then Skipped(HostError)
      else
        Emitted(MakeEntry(i, g.value, rect.value, ctx.abLeft, ctx.abTop),
                MakeRender(i, g.value, rect.value, ctx))
  }

  /**
   * While an emitted group renders, only the target layer is visible, every
   * unlocked page item but the group's own is hidden, the clip frame is the
   * group's bounds, and the scale makes the larger side `thumbSize` pixels.
   */
  lemma RenderedInIsolation(i: nat, g: Option<Group>, ctx: Context)
    requires GroupOutcome(i, g, ctx).Emitted?
    ensures var r := GroupOutcome(i, g, ctx).render;
      && r.frame == BoundsRect(g.value.bounds).value
      && |r.layerVisible| == |ctx.layers| && |r.itemHidden| == |ctx.items|
      && (forall j :: 0 <= j < |ctx.layers| ==> r.layerVisible[j] == (j == ctx.target))
      && (forall k :: 0 <= k < |ctx.items| && k !in ctx.host.lockedItems ==>
            r.itemHidden[k] == (g.value.slot != Some(k)))
      && MaxDim(r.frame) * r.scalePercent / 100.0 == ctx.thumbSize
  {
    IsolatedItems(ctx.items, g.value.slot, ctx.host.lockedItems);
  }

  /** The outcome of every iteration, in loop order. */
  function Outcomes(groups: seq<Option<Group>>, ctx: Context): (r: seq<GroupResult>)
    ensures |r| == |groups|
  {
    if groups == [] then []
    else
      var n := |groups| - 1;
      Outcomes(groups[..n], ctx) + [GroupOutcome(n, groups[n], ctx)]
  }

  /** The i-th outcome is that of the group at index i. */
  lemma {:induction false} OutcomeAt(groups: seq<Option<Group>>, ctx: Context, i: nat)
    requires i < |groups|
    ensures Outcomes(groups, ctx)[i] == GroupOutcome(i, groups[i], ctx)
    decreases |groups|
  {
    var n := |groups| - 1;
    if i < n {
      OutcomeAt(groups[..n], ctx, i);
    }
  }

  /** The outcomes of one more group. */
  lemma OutcomesStep(groups: seq<Option<Group>>, ctx: Context, i: nat)
    requires i < |groups|
    ensures Outcomes(groups[..i + 1], ctx) == Outcomes(groups[..i], ctx) + [GroupOutcome(i, groups[i], ctx)]
  {
    assert groups[..i + 1][..i] == groups[..i];
  }

  /** The entries of the emitted groups, in loop order. */
  function Entries(outs: seq<GroupResult>): (r: seq<Entry>)
    ensures |r| <= |outs|
  {
    if outs == [] then []
    else
      var last := outs[|outs| - 1];
      Entries(outs[..|outs| - 1]) + (if last.Emitted? then [last.entry] else [])
  }

  /** The completed render calls, in loop order. */
  function Renders(outs: seq<GroupResult>): seq<Render> {
    if outs == [] then []
    else
      var last := outs[|outs| - 1];
      Renders(outs[..|outs| - 1]) + (if last.Emitted? then [last.render] else [])
  }

  /** Number of iterations that counted a skip. */
  function SkipCount(outs: seq<GroupResult>): nat {
    if outs == [] then 0
    else SkipCount(outs[..|outs| - 1]) + (if outs[|outs| - 1].Skipped? then 1 else 0)
  }

  /** What one more iteration adds to the accumulated results. */
  lemma OneMoreOutcome(outs: seq<GroupResult>, r: GroupResult)
    ensures Entries(outs + [r]) == Entries(outs) + (if r.Emitted? then [r.entry] else [])
    ensures Renders(outs + [r]) == Renders(outs) + (if r.Emitted? then [r.render] else [])
    ensures SkipCount(outs + [r]) == SkipCount(outs) + (if r.Skipped? then 1 else 0)
  {
    assert (outs + [r])[..|outs|] == outs;
  }

  /** Every iteration counts exactly one of `exported` and `skipped`. */
  lemma {:induction false} CountsAddUp(outs: seq<GroupResult>)
    ensures |Entries(outs)| + SkipCount(outs) == |outs|
  {
    if outs != [] {
      CountsAddUp(outs[..|outs| - 1]);
    }
  }

  /**
   * Every emitted zorder is the index of the group it came from, those
   * indices strictly increase, and each is below the group count: a skipped
   * group leaves a gap.
   */
  lemma {:induction false} ZOrdersAreIndices(outs: seq<GroupResult>)
    requires forall i :: 0 <= i < |outs| && outs[i].Emitted? ==> outs[i].entry.zorder == i
    ensures forall k :: 0 <= k < |Entries(outs)| ==>
      var z := Entries(outs)[k].zorder;
      z < |outs| && outs[z].Emitted? && outs[z].entry == Entries(outs)[k]
    ensures forall a, b :: 0 <= a < b < |Entries(outs)| ==> Entries(outs)[a].zorder < Entries(outs)[b].zorder
  {
    if outs != [] {
      var n := |outs| - 1;
      var init := outs[..n];
      assert forall i :: 0 <= i < n ==> init[i] == outs[i];
      ZOrdersAreIndices(init);
      var es0 := Entries(init);
      assert forall k :: 0 <= k < |es0| ==> es0[k].zorder < n;
      var es := Entries(outs);
      assert forall k :: 0 <= k < |es0| ==> es[k] == es0[k];
      if outs[n].Emitted? {
        assert es == es0 + [outs[n].entry];
        assert es[|es0|].zorder == n;
      } else {
        assert es == es0;
      }
      forall k | 0 <= k < |es|
        ensures es[k].zorder < |outs| && outs[es[k].zorder].Emitted? && outs[es[k].zorder].entry == es[k]
      {
        if k < |es0| {
          assert init[es0[k].zorder] == outs[es0[k].zorder];
        }
      }
    }
  }

  /** Every group's emitted entry has its original index as zorder, gaps included. */
  lemma EmittedZOrders(groups: seq<Option<Group>>, ctx: Context)
    ensures forall e :: e in Entries(Outcomes(groups, ctx)) ==>
      e.zorder < |groups| && GroupOutcome(e.zorder, groups[e.zorder], ctx).Emitted?
      && GroupOutcome(e.zorder, groups[e.zorder], ctx).entry == e
    ensures forall a, b :: 0 <= a < b < |Entries(Outcomes(groups, ctx))| ==>
      Entries(Outcomes(groups, ctx))[a].zorder < Entries(Outcomes(groups, ctx))[b].zorder
  {
    forall i | 0 <= i < |groups| {
      OutcomeAt(groups, ctx, i);
    }
    ZOrdersAreIndices(Outcomes(groups, ctx));
  }

  /** An iteration that emitted its group has its entry among the records. */
  lemma {:induction false} EmittedEntryListed(outs: seq<GroupResult>, i: nat)
    requires i < |outs| && outs[i].Emitted?
    ensures outs[i].entry in Entries(outs)
  {
    var n := |outs| - 1;
    if i < n {
      EmittedEntryListed(outs[..n], i);
    }
  }

  /** Every record the loop emits has its bitmap, in the same order and under the same name. */
  lemma LoopRecordsMatchRenders(groups: seq<Option<Group>>, ctx: Context)
    ensures |Renders(Outcomes(groups, ctx))| == |Entries(Outcomes(groups, ctx))|
    ensures forall k :: 0 <= k < |Entries(Outcomes(groups, ctx))| ==>
      Renders(Outcomes(groups, ctx))[k].file == ThumbnailFile(Entries(Outcomes(groups, ctx))[k].safeName)
  {
    forall i | 0 <= i < |groups| {
      OutcomeAt(groups, ctx, i);
    }
    RecordsMatchRenders(Outcomes(groups, ctx));
  }

  /**
   * A record exists exactly when its bitmap was written: the k-th render
   * belongs to the k-th entry and wrote the file the entry's thumbnail names.
   */
  lemma {:induction false} RecordsMatchRenders(outs: seq<GroupResult>)
    requires forall i :: 0 <= i < |outs| && outs[i].Emitted? ==>
      outs[i].render.file == ThumbnailFile(outs[i].entry.safeName)
    ensures |Renders(outs)| == |Entries(outs)|
    ensures forall k :: 0 <= k < |Entries(outs)| ==>
      Renders(outs)[k].file == ThumbnailFile(Entries(outs)[k].safeName)
  {
    if outs != [] {
      RecordsMatchRenders(outs[..|outs| - 1]);
    }
  }

  /** The text of one JSON object line (lines 160-169). */
  function JsonLine(e: Entry, fmt: real -> string): string {
    "    { \"name\": \"" + EscJson(Some(e.name)) + "\", "
    + "\"x\": " + fmt(e.x) + ", "
    + "\"y\": " + fmt(e.y) + ", "
    + "\"width\": " + fmt(e.width) + ", "
    + "\"height\": " + fmt(e.height) + ", "
    + "\"rotation\": " + fmt(e.rotation) + ", "
    + "\"zorder\": " + NatToString(e.zorder) + ", "
    + "\"thumbnail\": \"thumbnails/" + EscJson(Some(e.safeName)) + ".png\" }"
  }

  function JsonLines(es: seq<Entry>, fmt: real -> string): (r: seq<string>)
    ensures |r| == |es|
  {
    seq(|es|, k requires 0 <= k < |es| => JsonLine(es[k], fmt))
  }

  lemma JsonLinesAppend(es: seq<Entry>, e: Entry, fmt: real -> string)
    ensures JsonLines(es + [e], fmt) == JsonLines(es, fmt) + [JsonLine(e, fmt)]
  {
  }

  /** The thumbnail text in a JSON line names the very file the render step wrote. */
  lemma ThumbnailTextIsFile(name: string)
    ensures "thumbnails/" + EscJson(Some(SafeName(name))) + ".png" == ThumbnailFile(SafeName(name))
  {
    SafeNameNeedsNoEscape(name);
  }

  /** The artboard list without the temporary artboard at index `t`. */
  function RemoveAt(boards: seq<Rect>, t: nat): seq<Rect>
    requires t < |boards|
  {
    boards[..t] + boards[t + 1..]
  }

  /** Removing the artboard just added at the end gives back the list from before the add. */
  lemma RemoveAddedBoard(boards: seq<Rect>, b: Rect)
    ensures RemoveAt(boards + [b], |boards|) == boards
  {
    assert (boards + [b])[..|boards|] == boards;
  }

  datatype ExportError = NoGroups | CannotCreateFile

  datatype Summary = Summary(fileLines: seq<string>, exported: nat, skipped: nat)

  /** The Illustrator document the exporter works on. */
  class Document {
    var layerVisible: seq<bool>   // `doc.layers[li].visible`
    var itemHidden: seq<bool>     // `layer.pageItems[pi].hidden` on the exported layer
    var artboards: seq<Rect>      // `doc.artboards[..].artboardRect`
    var activeArtboard: nat       // `doc.artboards.getActiveArtboardIndex()`
    var renders: seq<Render>      // the bitmaps written so far

    ghost predicate Valid()
      reads this
    {
      activeArtboard < |artboards|
    }

    constructor (layers: seq<bool>, items: seq<bool>, boards: seq<Rect>, active: nat)
      requires active < |boards|
      ensures Valid()
      ensures layerVisible == layers && itemHidden == items
      ensures artboards == boards && activeArtboard == active && renders == []
    {
      layerVisible, itemHidden, artboards, activeArtboard, renders := layers, items, boards, active, [];
    }

    /** Lines 127-131: save each layer's visibility and show only the target layer. */
    method IsolateLayerVisibility(target: nat, locked: set<nat>) returns (snapshot: seq<bool>, completed: bool)
      modifies this`layerVisible
      ensures var iso := IsolateLayers(old(layerVisible), target, locked);
        snapshot == iso.snapshot && completed == iso.completed && layerVisible == iso.visible
    {
      snapshot := [];
      var li := 0;
      while li < |layerVisible|
        invariant 0 <= li <= |layerVisible| == |old(layerVisible)|
        invariant forall j :: 0 <= j < li ==> j !in locked
        invariant snapshot == old(layerVisible)[..li]
        invariant forall j :: 0 <= j < |layerVisible| ==>
          layerVisible[j] == if j < li then j == target else old(layerVisible)[j]
      {
        snapshot := snapshot + [layerVisible[li]];
        if li in locked {
          // the setter throws: this layer is saved but left as it was
          FirstInUnique(|layerVisible|, locked, li);
          completed := false;
          return;
        }
        layerVisible := layerVisible[li := li == target];
        li := li + 1;
      }
      FirstInUnique(|layerVisible|, locked, li);
      completed := true;
    }

    /** Lines 134-138: save each page item's hidden flag and hide it. */
    method HideLayerItems(locked: set<nat>) returns (snapshot: seq<bool>)
      modifies this`itemHidden
      ensures snapshot == old(itemHidden) && itemHidden == HideAll(old(itemHidden), locked)
    {
      snapshot := [];
      var pi := 0;
      while pi < |itemHidden|
        invariant 0 <= pi <= |itemHidden| == |old(itemHidden)|
        invariant snapshot == old(itemHidden)[..pi]
        invariant forall k :: 0 <= k < |itemHidden| ==>
          itemHidden[k] == if k < pi && k !in locked then true else old(itemHidden)[k]
      {
        snapshot := snapshot + [itemHidden[pi]];
        if pi !in locked {
          itemHidden := itemHidden[pi := true];
        }
        pi := pi + 1;
      }
    }

    /** Line 141: un-hide the group's own page item, ignoring a setter that throws. */
    method ShowGroupItem(slot: Option<nat>, locked: set<nat>)
      modifies this`itemHidden
      ensures itemHidden == Show(old(itemHidden), slot, locked)
    {
      if slot.Some? && slot.value < |itemHidden| && slot.value !in locked {
        itemHidden := itemHidden[slot.value := false];
      }
    }

    /** Lines 178-183: put back the saved hidden flags. */
    method RestoreItemFlags(snapshot: seq<bool>, locked: set<nat>)
      modifies this`itemHidden
      ensures itemHidden == RestoreItems(old(itemHidden), snapshot, locked)
    {
      var pi2 := 0;
      while pi2 < |itemHidden| && pi2 < |snapshot|
        invariant 0 <= pi2 <= |itemHidden| == |old(itemHidden)|
        invariant pi2 <= |snapshot|
        invariant forall k :: 0 <= k < |itemHidden| ==>
          itemHidden[k] == if k < pi2 && k !in locked then snapshot[k] else old(itemHidden)[k]
      {
        if pi2 !in locked {
          itemHidden := itemHidden[pi2 := snapshot[pi2]];
        }
        pi2 := pi2 + 1;
      }
    }

    /** Lines 186-190: put back the saved layer visibility; a throwing setter ends the loop. */
    method RestoreLayerVisibility(snapshot: seq<bool>, locked: set<nat>)
      modifies this`layerVisible
      ensures layerVisible == RestoreLayers(old(layerVisible), snapshot, locked)
    {
      var li2 := 0;
      while li2 < |layerVisible| && li2 < |snapshot|
        invariant 0 <= li2 <= |layerVisible| == |old(layerVisible)|
        invariant li2 <= |snapshot|
        invariant forall j :: 0 <= j < li2 ==> j !in locked
        invariant forall j :: 0 <= j < |layerVisible| ==>
          layerVisible[j] == if j < li2 then snapshot[j] else old(layerVisible)[j]
      {
        if li2 in locked {
          FirstInUnique(Min(|layerVisible|, |snapshot|), locked, li2);
          return;
        }
        layerVisible := layerVisible[li2 := snapshot[li2]];
        li2 := li2 + 1;
      }
      FirstInUnique(Min(|layerVisible|, |snapshot|), locked, li2);
    }

    /**
     * One iteration of the group loop (lines 77-202). Whatever happens in
     * the `try`, the `finally` leaves layers, items and artboards as they
     * were and makes `activeAbIndex` active again; a group rejected by the
     * first skip rule changes nothing at all.
     */
    method ExportGroup(i: nat, g: Option<Group>, target: nat, abLeft: real, abTop: real,
                       thumbSize: real, activeAbIndex: nat, host: Host)
      returns (result: GroupResult)
      modifies this
      ensures result == GroupOutcome(i, g,
        Context(target, abLeft, abTop, thumbSize, host, old(layerVisible), old(itemHidden)))
      ensures layerVisible == old(layerVisible) && itemHidden == old(itemHidden)
      ensures artboards == old(artboards)
      ensures activeArtboard == if result == Skipped(Ineligible) then old(activeArtboard) else activeAbIndex
      ensures renders == old(renders) + (if result.Emitted? then [result.render] else [])
    {
      ghost var ctx := Context(target, abLeft, abTop, thumbSize, host, layerVisible, itemHidden);
      if !Eligible(g) {
        return Skipped(Ineligible);
      }
      var grp := g.value;
      var tmpIndex: Option<nat> := None;
      var prevLayerVisible: seq<bool> := [];
      var prevHidden: seq<bool> := [];

      // try
      var rect := BoundsRect(grp.bounds);
      if rect.None? {
        result := Skipped(BadBounds);
      } else if Degenerate(rect.value) {
        result := Skipped(ZeroSize);
      } else {
        var b := rect.value;
        var name := DisplayName(grp.name, i);
        var safeName := SafeName(name);
        var entry := Entry(name, safeName, RelX(b, abLeft), RelY(b, abTop), Width(b), Height(b),
                           RotationOf(grp), i);
        var completed;
        prevLayerVisible, completed := IsolateLayerVisibility(target, host.lockedLayers);
        if !completed {
          result := Skipped(HostError);
        } else {
          prevHidden := HideLayerItems(host.lockedItems);
          ShowGroupItem(grp.slot, host.lockedItems);
          if i in host.addFails {
            result := Skipped(HostError);
          } else {
            artboards := artboards + [b];
            tmpIndex := Some(|artboards| - 1);
            if i in host.activateFails {
              result := Skipped(HostError);
            } else {
              activeArtboard := |artboards| - 1;
              var scalePercent := ScalePercent(thumbSize, MaxDim(b));
              if i in host.renderFails {
                result := Skipped(HostError);
              } else {
                var r := Render(ThumbnailFile(safeName), scalePercent, artboards[activeArtboard],
                                layerVisible, itemHidden);
                renders := renders + [r];
                result := Emitted(entry, r);
              }
            }
          }
        }
      }

      // finally
      RestoreItemFlags(prevHidden, host.lockedItems);
      RestoreLayerVisibility(prevLayerVisible, host.lockedLayers);
      if tmpIndex.Some? && tmpIndex.value < |artboards| {
        artboards := RemoveAt(artboards, tmpIndex.value);
      }
      activeArtboard := activeAbIndex;

      LayersRoundTrip(ctx.layers, target, host.lockedLayers);
      ItemsRoundTrip(ctx.items, grp.slot, host.lockedItems);
      RestoreLayersNothingSaved(ctx.layers, host.lockedLayers);
      RestoreItemsNothingSaved(ctx.items, host.lockedItems);
    }

    /**
     * The group loop (lines 70-203): one iteration per group, in order; the
     * JSON lines of the emitted groups in order, and the two counters.
     */
    method ExportGroups(groups: seq<Option<Group>>, target: nat, abLeft: real, abTop: real,
                        thumbSize: real, activeAbIndex: nat, host: Host, fmt: real -> string)
      returns (jsonLines: seq<string>, exported: nat, skipped: nat)
      requires activeArtboard == activeAbIndex
      modifies this
      ensures var outs := Outcomes(groups,
          Context(target, abLeft, abTop, thumbSize, host, old(layerVisible), old(itemHidden)));
        && jsonLines == JsonLines(Entries(outs), fmt)
        && exported == |Entries(outs)| && skipped == SkipCount(outs)
        && renders == old(renders) + Renders(outs)
      ensures exported + skipped == |groups|
      ensures layerVisible == old(layerVisible) && itemHidden == old(itemHidden)
      ensures artboards == old(artboards) && activeArtboard == activeAbIndex
    {
      ghost var ctx := Context(target, abLeft, abTop, thumbSize, host, layerVisible, itemHidden);
      ghost var outs: seq<GroupResult> := [];
      ghost var entries: seq<Entry> := [];
      jsonLines, exported, skipped := [], 0, 0;
      var i := 0;
      while i < |groups|
        invariant 0 <= i <= |groups|
        invariant layerVisible == ctx.layers && itemHidden == ctx.items
        invariant artboards == old(artboards) && activeArtboard == activeAbIndex
        invariant outs == Outcomes(groups[..i], ctx)
        invariant entries == Entries(outs) && jsonLines == JsonLines(entries, fmt)
        invariant exported == |entries| && skipped == SkipCount(outs)
        invariant renders == old(renders) + Renders(outs)
      {
        var result := ExportGroup(i, groups[i], target, abLeft, abTop, thumbSize, activeAbIndex, host);
        OutcomesStep(groups, ctx, i);
        OneMoreOutcome(outs, result);
        outs := outs + [result];
        if result.Emitted? {
          JsonLinesAppend(entries, result.entry, fmt);
          jsonLines := jsonLines + [JsonLine(result.entry, fmt)];
          entries := entries + [result.entry];
          exported := exported + 1;
        } else {
          skipped := skipped + 1;
        }
        i := i + 1;
      }
      assert groups[..|groups|] == groups;
      CountsAddUp(outs);
    }

    /** Lines 206-216: the text of export.json, one `writeln` per line. */
    static method WriteDocument(layerName: Option<string>, jsonLines: seq<string>) returns (out: seq<string>)
      ensures out == DocumentLines(layerName, jsonLines)
    {
      out := Header(layerName);
      var j := 0;
      while j < |jsonLines|
        invariant 0 <= j <= |jsonLines|
        invariant out == Header(layerName) + WithCommas(jsonLines)[..j]
      {
        var suffix := if j < |jsonLines| - 1 then "," else "";
        out := out + [jsonLines[j] + suffix];
        assert WithCommas(jsonLines)[..j + 1] == WithCommas(jsonLines)[..j] + [ObjectLine(jsonLines, j)];
        j := j + 1;
      }
      out := out + FOOTER;
      assert WithCommas(jsonLines)[..|jsonLines|] == WithCommas(jsonLines);
    }

    /**
     * The export run from the group check on (lines 40-216, dialogs aside):
     * refuse a layer without groups or an output file that cannot be
     * created, run the group loop, and write export.json.
     */
    method Export(layerName: Option<string>, groups: seq<Option<Group>>, target: nat,
                  thumbSize: real, host: Host, canCreateFile: bool, fmt: real -> string)
      returns (r: Result<Summary, ExportError>)
      requires Valid()
      modifies this
      ensures Valid()
      ensures r.Success? <==> groups != [] && canCreateFile
      ensures groups == [] ==> r == Failure(NoGroups)
      ensures groups != [] && !canCreateFile ==> r == Failure(CannotCreateFile)
      ensures r.Failure? ==> unchanged(this)
      ensures r.Success? ==>
        var ab := old(artboards[activeArtboard]);
        var outs := Outcomes(groups,
          Context(target, ab.left, ab.top, thumbSize, host, old(layerVisible), old(itemHidden)));
        && r.value.fileLines == DocumentLines(layerName, JsonLines(Entries(outs), fmt))
        && r.value.exported == |Entries(outs)| && r.value.skipped == SkipCount(outs)
        && r.value.exported + r.value.skipped == |groups|
        && renders == old(renders) + Renders(outs)
      ensures layerVisible == old(layerVisible) && itemHidden == old(itemHidden)
      ensures artboards == old(artboards) && activeArtboard == old(activeArtboard)
    {
      if groups == [] {
        return Failure(NoGroups);
      }
      var activeAbIndex := activeArtboard;
      var ab := artboards[activeAbIndex];
      if !canCreateFile {
        return Failure(CannotCreateFile);
      }
      var jsonLines, exported, skipped :=
        ExportGroups(groups, target, ab.left, ab.top, thumbSize, activeAbIndex, host, fmt);

      var out := WriteDocument(layerName, jsonLines);
      r := Success(Summary(out, exported, skipped));
    }
  }
}
