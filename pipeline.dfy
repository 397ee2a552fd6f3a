/**
 * The two halves together: a record the exporter writes, read back by the
 * importer's window and resolved into a GameObject.
 */
module Pipeline {
  import opened Wrappers
  import opened JsonText
  import opened Geometry
  import opened Exporter
  import opened Placement
  import opened PlacementWindow

  /**
   * The `IllustratorObjectData` a JSON reader that follows RFC 8259 gives
   * for an exported line's fields: the escaped strings unescaped, the
   * zorder's decimal digits read back, and each other number through
   * `decimal` (the two-decimal text the exporter writes, read back as a
   * number). escJSON writes control characters raw, and section 7 of
   * RFC 8259 forbids them in a string, so such a line gives no record.
   */
  function ReadBack(e: Entry, decimal: real -> real): (d: Option<ObjectData>)
    ensures d.Some? <==> NoControl(e.name) && NoControl(e.safeName)
    ensures d.Some? ==> d.value.name == e.name
    ensures d.Some? ==> d.value.thumbnail == ThumbnailFile(e.safeName)
    ensures d.Some? ==> d.value.zorder == e.zorder
  {
    var name := EscJson(Some(e.name));
    var safe := EscJson(Some(e.safeName));
    EscapeKeepsControl(e.name);
    EscapeKeepsControl(e.safeName);
    UnescapeEscape(e.name);
    UnescapeEscape(e.safeName);
    NatToStringRoundTrip(e.zorder);
    if NoControl(name) && NoControl(safe) then
      Some(ObjectData(Unescape(name), decimal(e.x), decimal(e.y), decimal(e.width),
                      decimal(e.height), decimal(e.rotation),
                      "thumbnails/" + Unescape(safe) + ".png",
                      DigitsValue(NatToString(e.zorder))))
    else None
  }

  /**
   * A record the exporter writes for group `i` reads back exactly when the
   * group's name has no control character: a generated "Group_<i>" and
   * every safeName never do.
   */
  lemma ExportedRecordReadable(i: nat, g: Group, b: Rect, abLeft: real, abTop: real, decimal: real -> real)
    ensures ReadBack(MakeEntry(i, g, b, abLeft, abTop), decimal).Some? <==> NoControl(g.name)
  {
    var name := DisplayName(g.name, i);
    SafeNameIdempotent(name);
    assert NoControl(SafeName(name));
    if g.name == "" {
      var digits := NatToString(i);
      assert NoControl(digits);
      NoControlAppend("Group_", digits);
    }
  }

  /** The `objects` array read as a whole: every line must give its record, or the array gives none. */
  function ReadRecords(es: seq<Entry>, decimal: real -> real): (r: Option<seq<ObjectData>>)
    ensures r.Some? <==> forall k :: 0 <= k < |es| ==> ReadBack(es[k], decimal).Some?
    ensures r.Some? ==> |r.value| == |es|
    ensures r.Some? ==> forall k :: 0 <= k < |es| ==> ReadBack(es[k], decimal) == Some(r.value[k])
  {
    if forall k :: 0 <= k < |es| ==> ReadBack(es[k], decimal).Some? then
      Some(seq(|es|, k requires 0 <= k < |es| => ReadBack(es[k], decimal).value))
    else None
  }

  /**
   * export.json read by a reader that follows RFC 8259: the whole text is
   * rejected when the layer name or any record's string holds a raw
   * control character; otherwise each record is ReadBack of its line.
   */
  function ReadDocument(layerName: Option<string>, es: seq<Entry>, decimal: real -> real): (r: Option<seq<ObjectData>>)
    ensures r.Some? <==> (layerName.Some? ==> NoControl(layerName.value))
                         && forall k :: 0 <= k < |es| ==> ReadBack(es[k], decimal).Some?
    ensures r.Some? ==> |r.value| == |es|
    ensures r.Some? ==> forall k :: 0 <= k < |es| ==> ReadBack(es[k], decimal) == Some(r.value[k])
  {
    EscapeKeepsControl(if layerName.Some? then layerName.value else "");
    if NoControl(EscJson(layerName)) then ReadRecords(es, decimal) else None
  }

  /**
   * The file the export loop writes is read at all exactly when the layer
   * name and the name of every group it emitted hold no control character:
   * one such name anywhere loses every record.
   */
  lemma ExportedDocumentReadable(layerName: Option<string>, groups: seq<Option<Group>>, ctx: Context,
                                 decimal: real -> real)
    ensures ReadDocument(layerName, Entries(Outcomes(groups, ctx)), decimal).Some? <==>
      (layerName.Some? ==> NoControl(layerName.value))
      && forall i :: 0 <= i < |groups| && GroupOutcome(i, groups[i], ctx).Emitted? ==> NoControl(groups[i].value.name)
  {
    var outs := Outcomes(groups, ctx);
    var es := Entries(outs);
    EmittedZOrders(groups, ctx);
    forall i | 0 <= i < |groups| {
      OutcomeAt(groups, ctx, i);
    }
    forall k | 0 <= k < |es|
      ensures ReadBack(es[k], decimal).Some? <==> NoControl(groups[es[k].zorder].value.name)
    {
      var z := es[k].zorder;
      assert es[k] in es;
      ExportedRecordReadable(z, groups[z].value, BoundsRect(groups[z].value.bounds).value,
                             ctx.abLeft, ctx.abTop, decimal);
    }
    forall i | 0 <= i < |groups| && outs[i].Emitted?
      ensures outs[i].entry in es && outs[i].entry.zorder == i
    {
      EmittedEntryListed(outs, i);
    }
  }

  /** A clean record is lost when another record of the same file holds a tab. */
  lemma DirtyNameRejectsFile(decimal: real -> real)
    ensures ReadBack(Entry("A", "A", 0.0, 0.0, 0.0, 0.0, 0.0, 0), decimal).Some?
    ensures ReadDocument(Some("L"), [Entry("A", "A", 0.0, 0.0, 0.0, 0.0, 0.0, 0),
                                     Entry("a\tb", "a_b", 0.0, 0.0, 0.0, 0.0, 0.0, 1)], decimal).None?
  {
    assert !IsControl('A') && !IsControl('L');
    assert "a_b"[1] == '_';
    assert IsControl("a\tb"[1]);
    var es := [Entry("A", "A", 0.0, 0.0, 0.0, 0.0, 0.0, 0), Entry("a\tb", "a_b", 0.0, 0.0, 0.0, 0.0, 0.0, 1)];
    assert ReadBack(es[1], decimal).None?;
  }

  /** A freshly loaded view with no prefab anywhere is named after its record, or "Object". */
  lemma LoadedViewName(d: ObjectData, loadable: set<string>, s: Settings)
    requires s.globalPrefab.None?
    ensures Resolve(NewView(d, loadable), s, x => x).name == (if d.name != "" then d.name else "Object")
    ensures Resolve(NewView(d, loadable), s, x => x).prefab.None?
  {
  }

  /**
   * Where group `i` with bounds `b` should land when imported at `scale`
   * with the y flip and no parent or prefab: under its display name, at
   * the group's centre measured from the artboard's top-left corner (in
   * Illustrator's y-up sense) to within half a hundredth of a point,
   * counter-rotated to within half a hundredth of a degree, and pushed
   * back by `i` hundredths along z.
   */
  predicate PlacedNear(o: ObjectState, i: nat, g: Group, b: Rect, abLeft: real, abTop: real, scale: real) {
    && o.name == DisplayName(g.name, i)
    && o.prefab.None? && o.parent.None? && o.sortingOrder.None?
    && -0.005 * scale <= o.position.x - ((b.left + b.right) / 2.0 - abLeft) * scale <= 0.005 * scale
    && -0.005 * scale <= o.position.y - ((b.top + b.bottom) / 2.0 - abTop) * scale <= 0.005 * scale
    && o.position.z == -(i as real) * 0.01
    && -0.005 <= o.rotationZ + RotationOf(g) <= 0.005
  }

  /** An error of at most half a hundredth, scaled by a non-negative factor. */
  lemma ScaledError(err: real, scale: real)
    requires -0.005 <= err <= 0.005 && scale >= 0.0
    ensures -0.005 * scale <= err * scale <= 0.005 * scale
  {
    assert (0.005 - err) * scale >= 0.0;
    assert (err + 0.005) * scale >= 0.0;
  }

  /**
   * A record carrying entry `e`'s name and zorder, and numbers within half
   * a hundredth of `e`'s, is placed as PlacedNear says.
   */
  lemma PlacedFromRecord(d: ObjectData, i: nat, g: Group, b: Rect, abLeft: real, abTop: real, scale: real,
                         loadable: set<string>, transformPoint: Vec3 -> Vec3)
    requires d.name == DisplayName(g.name, i) && d.zorder == i
    requires -0.005 <= d.x - RelX(b, abLeft) <= 0.005
    requires -0.005 <= d.y - RelY(b, abTop) <= 0.005
    requires -0.005 <= d.rotation - RotationOf(g) <= 0.005
    requires scale >= 0.0
    ensures PlacedNear(Resolve(NewView(d, loadable), Settings(None, None, scale, true, false), transformPoint),
                       i, g, b, abLeft, abTop, scale)
  {
    var o := Resolve(NewView(d, loadable), Settings(None, None, scale, true, false), transformPoint);
    var p := ScaledPosition(d, scale, true);
    assert o.position.x == p.x == d.x * scale;
    assert o.position.y == p.y == -(d.y * scale);
    var ex := d.x - RelX(b, abLeft);
    ScaledError(ex, scale);
    assert o.position.x - ((b.left + b.right) / 2.0 - abLeft) * scale == ex * scale;
    var ey := d.y - RelY(b, abTop);
    ScaledError(ey, scale);
    assert ((b.top + b.bottom) / 2.0 - abTop) * scale == -(RelY(b, abTop) * scale);
    assert o.position.y - ((b.top + b.bottom) / 2.0 - abTop) * scale == -(ey * scale);
  }

  /**
   * A group the exporter emitted, read back by a reader whose `decimal`
   * is anywhere within the rounding of `toFixed(2)`, is placed as
   * PlacedNear says.
   */
  lemma ExportedGroupIsPlaced(i: nat, g: Group, b: Rect, abLeft: real, abTop: real, scale: real,
                              decimal: real -> real, loadable: set<string>, transformPoint: Vec3 -> Vec3)
    requires forall x :: -0.005 <= decimal(x) - x <= 0.005
    requires scale >= 0.0
    ensures var d := ReadBack(MakeEntry(i, g, b, abLeft, abTop), decimal);
            d.Some? ==> PlacedNear(Resolve(NewView(d.value, loadable), Settings(None, None, scale, true, false),
                                           transformPoint), i, g, b, abLeft, abTop, scale)
  {
    var e := MakeEntry(i, g, b, abLeft, abTop);
    var d := ReadBack(e, decimal);
    if d.Some? {
      assert d.value.x == decimal(e.x) && d.value.y == decimal(e.y) && d.value.rotation == decimal(e.rotation);
      PlacedFromRecord(d.value, i, g, b, abLeft, abTop, scale, loadable, transformPoint);
    }
  }

  /**
   * The exporter's thumbnail path is the file the importer loads: a
   * record whose render's file loaded gets that thumbnail on its view.
   */
  lemma ThumbnailFound(i: nat, g: Group, b: Rect, ctx: Context, decimal: real -> real, loadable: set<string>)
    requires MaxDim(b) > 0.0
    requires MakeRender(i, g, b, ctx).file in loadable
    ensures var d := ReadBack(MakeEntry(i, g, b, ctx.abLeft, ctx.abTop), decimal);
            d.Some? ==> NewView(d.value, loadable).thumbnail == Some(Thumbnail(MakeRender(i, g, b, ctx).file))
  {
  }

  /** "A B" and "A/B" are different names with one safeName, and neither holds a control character. */
  lemma CollidingNames()
    ensures "A B" != "A/B"
    ensures SafeName("A B") == "A_B" && SafeName("A/B") == "A_B"
    ensures NoControl("A B") && NoControl("A/B")
  {
    var r := SafeName("A B");
    assert r[0] == 'A' && r[1] == '_' && r[2] == 'B';
    var t := SafeName("A/B");
    assert t[0] == 'A' && t[1] == '_' && t[2] == 'B';
    assert "A B"[1] != "A/B"[1];
  }

  /**
   * Two groups named "A B" and "A/B" get different records but the same
   * safeName, so their renders write one file and both views load
   * whichever image was written to it last.
   */
  lemma SharedThumbnail(g1: Group, g2: Group, b: Rect, ctx: Context, decimal: real -> real, loadable: set<string>)
    requires MaxDim(b) > 0.0
    requires g1.name == "A B" && g2.name == "A/B"
    ensures MakeEntry(0, g1, b, ctx.abLeft, ctx.abTop).name != MakeEntry(1, g2, b, ctx.abLeft, ctx.abTop).name
    ensures MakeRender(0, g1, b, ctx).file == MakeRender(1, g2, b, ctx).file
    ensures ReadBack(MakeEntry(0, g1, b, ctx.abLeft, ctx.abTop), decimal).Some?
    ensures ReadBack(MakeEntry(1, g2, b, ctx.abLeft, ctx.abTop), decimal).Some?
    ensures NewView(ReadBack(MakeEntry(0, g1, b, ctx.abLeft, ctx.abTop), decimal).value, loadable).thumbnail
         == NewView(ReadBack(MakeEntry(1, g2, b, ctx.abLeft, ctx.abTop), decimal).value, loadable).thumbnail
  {
    CollidingNames();
    var e1 := MakeEntry(0, g1, b, ctx.abLeft, ctx.abTop);
    var e2 := MakeEntry(1, g2, b, ctx.abLeft, ctx.abTop);
    assert e1.name == "A B" && e2.name == "A/B";
    assert e1.safeName == "A_B" == e2.safeName;
    ExportedRecordReadable(0, g1, b, ctx.abLeft, ctx.abTop, decimal);
    ExportedRecordReadable(1, g2, b, ctx.abLeft, ctx.abTop, decimal);
    var d1 := ReadBack(e1, decimal);
    var d2 := ReadBack(e2, decimal);
    assert d1.value.thumbnail == ThumbnailFile("A_B") == d2.value.thumbnail;
  }
}
