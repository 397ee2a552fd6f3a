/**
 * How the importer resolves one loaded object (IllustratorPlacementWindow.cs):
 * its default and final name, the prefab it is made from, its position and
 * rotation, and how its z-order is applied. Every rule here is a function of
 * the object's record, the view's overrides and the window's settings.
 */
module Placement {
  import opened Wrappers

  datatype Vec3 = Vec3(x: real, y: real, z: real)

  /** A prefab: its name, and the sortingOrder of a SpriteRenderer in its children if it has one. */
  datatype Prefab = Prefab(name: string, sprite: Option<int>)

  /** `IllustratorObjectData`; a missing string is "" (IsNullOrEmpty treats both alike). */
  datatype ObjectData = ObjectData(name: string, x: real, y: real, width: real, height: real,
                                   rotation: real, thumbnail: string, zorder: int)

  /** A loaded preview image, known by the file it came from. */
  datatype Thumbnail = Thumbnail(path: string)

  /** `IllustratorObjectView`: one record with the user's overrides. */
  datatype View = View(data: ObjectData, gameObjectName: string, useCustomName: bool,
                       thumbnail: Option<Thumbnail>, create: bool, prefab: Option<Prefab>)

  /** A parent transform, known by identity; its TransformPoint is a separate parameter. */
  type ParentId = nat

  /** The window's fields that resolution reads. */
  datatype Settings = Settings(parent: Option<ParentId>, globalPrefab: Option<Prefab>,
                               positionScale: real, flipY: bool, useLocalPosition: bool)

  /** The window's initial settings: no parent, no global prefab, scale 0.00651041666 (about 1/153.6), flip on. */
  const DEFAULT_SCALE: real := 0.00651041666
  const DEFAULT_SETTINGS: Settings := Settings(None, None, DEFAULT_SCALE, true, false)

  /** A name that is present and non-empty. */
  function NonEmpty(s: string): Option<string> {
    if s != "" then Some(s) else None
  }

  function PrefabName(p: Option<Prefab>): Option<string> {
    if p.Some? then Some(p.value.name) else None
  }

  /** The first present value of a list of candidates, else `fallback`. */
  function FirstAvailable(candidates: seq<Option<string>>, fallback: string): (r: string)
    ensures r == fallback || exists k :: 0 <= k < |candidates| && candidates[k] == Some(r)
    ensures forall k :: 0 <= k < |candidates| && (forall j :: 0 <= j < k ==> candidates[j].None?) ==>
      candidates[k].Some? ==> r == candidates[k].value
  {
    if candidates == [] then fallback
    else if candidates[0].Some? then candidates[0].value
    else
      var r := FirstAvailable(candidates[1..], fallback);
      assert forall k :: 1 <= k < |candidates| ==> candidates[k] == candidates[1..][k - 1];
      r
  }

  /** GetDefaultName: per-item prefab name, else global prefab name, else the record's name, else "Object". */
  function DefaultName(v: View, globalPrefab: Option<Prefab>): (r: string)
    ensures v.prefab.None? && globalPrefab.None? ==> r != ""
  {
    if v.prefab.Some? then v.prefab.value.name
    else if globalPrefab.Some? then globalPrefab.value.name
    else if v.data.name != "" then v.data.name
    else "Object"
  }

  /** GetDefaultName is the first available of its three candidates, with "Object" as the fallback. */
  lemma DefaultNameIsFirstAvailable(v: View, globalPrefab: Option<Prefab>)
    ensures DefaultName(v, globalPrefab)
         == FirstAvailable([PrefabName(v.prefab), PrefabName(globalPrefab), NonEmpty(v.data.name)], "Object")
  {
    var c := [PrefabName(v.prefab), PrefabName(globalPrefab), NonEmpty(v.data.name)];
    assert c[1..] == [PrefabName(globalPrefab), NonEmpty(v.data.name)];
    assert c[1..][1..] == [NonEmpty(v.data.name)];
    assert c[1..][1..][1..] == [];
    assert FirstAvailable(c[1..][1..], "Object") == if v.data.name != "" then v.data.name else "Object";
    assert FirstAvailable(c[1..], "Object")
        == if globalPrefab.Some? then globalPrefab.value.name else FirstAvailable(c[1..][1..], "Object");
  }

  /** The custom name wins only when it is switched on and not empty. */
  function FinalName(v: View, globalPrefab: Option<Prefab>): (r: string)
    ensures v.useCustomName && v.gameObjectName != "" ==> r == v.gameObjectName
    ensures !(v.useCustomName && v.gameObjectName != "") ==> r == DefaultName(v, globalPrefab)
    ensures r == "" ==>
      (PrefabName(v.prefab) == Some("") || (v.prefab.None? && PrefabName(globalPrefab) == Some("")))
  {
    if v.useCustomName && v.gameObjectName != "" then v.gameObjectName
    else DefaultName(v, globalPrefab)
  }

  /** Per-item prefab, else the global prefab, else none (a plain new GameObject). */
  function PrefabToUse(v: View, globalPrefab: Option<Prefab>): (r: Option<Prefab>)
    ensures r.None? <==> v.prefab.None? && globalPrefab.None?
    ensures v.prefab.Some? ==> r == v.prefab
    ensures v.prefab.None? ==> r == globalPrefab
  {
    if v.prefab.Some? then v.prefab else globalPrefab
  }

  /** The record's x and y times positionScale, at z = 0, with y negated when flipY. */
  function ScaledPosition(data: ObjectData, positionScale: real, flipY: bool): (p: Vec3)
    ensures p.z == 0.0 && p.x == data.x * positionScale
    ensures (if flipY then -p.y else p.y) == data.y * positionScale
  {
    var x := data.x * positionScale;
    var y := data.y * positionScale;
    Vec3(x, if flipY then -y else y, 0.0)
  }

  /** The record's coordinates recovered from a scaled position (the inverse of ScaledPosition). */
  function SourcePosition(p: Vec3, positionScale: real, flipY: bool): (xy: (real, real))
    requires positionScale != 0.0
  {
    (p.x / positionScale, (if flipY then -p.y else p.y) / positionScale)
  }

  /** For a non-zero scale, scaling is undone exactly. */
  lemma ScaledPositionInverse(data: ObjectData, positionScale: real, flipY: bool)
    requires positionScale != 0.0
    ensures SourcePosition(ScaledPosition(data, positionScale, flipY), positionScale, flipY) == (data.x, data.y)
  {
    var p := ScaledPosition(data, positionScale, flipY);
    assert p.x / positionScale == data.x;
    assert (if flipY then -p.y else p.y) / positionScale == data.y;
  }

  lemma ScaledPositionExample()
    ensures ScaledPosition(ObjectData("", 200.0, 100.0, 0.0, 0.0, 0.0, "", 0), 0.01, true) == Vec3(2.0, -1.0, 0.0)
  {
  }

  /**
   * The world position the object gets before its z-order is applied. With a
   * parent, `localPosition = pos` and `position = TransformPoint(pos)` both
   * put it at `TransformPoint(pos)`, since a child's world position is its
   * parent's TransformPoint of its local position; without one, at `pos`.
   */
  function PlacedPosition(data: ObjectData, s: Settings, transformPoint: Vec3 -> Vec3): (w: Vec3)
    ensures s.parent.None? ==> w == ScaledPosition(data, s.positionScale, s.flipY)
    ensures s.parent.Some? ==> w == transformPoint(ScaledPosition(data, s.positionScale, s.flipY))
  {
    var pos := ScaledPosition(data, s.positionScale, s.flipY);
    if s.parent.Some? then transformPoint(pos) else pos
  }

  /** What can be observed of a GameObject after placement. */
  datatype ObjectState = ObjectState(name: string, prefab: Option<Prefab>, parent: Option<ParentId>,
                                     position: Vec3, rotationZ: real, sortingOrder: Option<int>)

  /** ApplyZOrder: a sprite gets `sortingOrder = -zorder`; otherwise only the z coordinate moves. */
  function Stacked(o: ObjectState, zorder: int): (r: ObjectState)
    ensures r.name == o.name && r.prefab == o.prefab && r.parent == o.parent && r.rotationZ == o.rotationZ
    ensures o.sortingOrder.Some? ==> r.sortingOrder == Some(-zorder) && r.position == o.position
    ensures o.sortingOrder.None? ==>
      (r.sortingOrder.None? && r.position.x == o.position.x && r.position.y == o.position.y
       && r.position.z == -(zorder as real) * 0.01)
  {
    if o.sortingOrder.Some? then o.(sortingOrder := Some(-zorder))
    else o.(position := o.position.(z := -(zorder as real) * 0.01))
  }

  /** A later (higher) zorder gets a smaller sortingOrder and a smaller z. */
  lemma StackingOrder(o: ObjectState, a: int, b: int)
    requires a < b
    ensures o.sortingOrder.Some? ==> Stacked(o, a).sortingOrder.value > Stacked(o, b).sortingOrder.value
    ensures o.sortingOrder.None? ==> Stacked(o, a).position.z > Stacked(o, b).position.z
  {
  }

  lemma StackingExample(o: ObjectState)
    ensures o.sortingOrder.None? ==> Stacked(o, 3).position.z == -0.03
    ensures o.sortingOrder.Some? ==> Stacked(o, 3).sortingOrder == Some(-3)
  {
  }

  /** A freshly made GameObject: a prefab instance carries the prefab's sprite, a plain one has none. */
  function Instantiated(prefab: Option<Prefab>, name: string): ObjectState {
    ObjectState(name, prefab, None, Vec3(0.0, 0.0, 0.0), 0.0,
                if prefab.Some? then prefab.value.sprite else None)
  }

  /** The whole resolution of one view (lines 247-294). */
  function Resolve(v: View, s: Settings, transformPoint: Vec3 -> Vec3): (r: ObjectState)
    ensures r.name == FinalName(v, s.globalPrefab)
    ensures r.prefab == PrefabToUse(v, s.globalPrefab)
    ensures r.parent == s.parent
    ensures r.rotationZ == -v.data.rotation
    ensures r.sortingOrder.Some? <==> r.prefab.Some? && r.prefab.value.sprite.Some?
    ensures r.sortingOrder.Some? ==>
      (r.sortingOrder.value == -v.data.zorder && r.position == PlacedPosition(v.data, s, transformPoint))
    ensures r.sortingOrder.None? ==>
      && r.position.x == PlacedPosition(v.data, s, transformPoint).x
      && r.position.y == PlacedPosition(v.data, s, transformPoint).y
      && r.position.z == -(v.data.zorder as real) * 0.01
  {
    var prefab := PrefabToUse(v, s.globalPrefab);
    var o := Instantiated(prefab, FinalName(v, s.globalPrefab));
    var placed := o.(parent := s.parent, position := PlacedPosition(v.data, s, transformPoint),
                     rotationZ := -v.data.rotation);
    Stacked(placed, v.data.zorder)
  }

  /** The views whose `create` toggle is on, in order. */
  function Creatable(views: seq<View>): (r: seq<View>)
    ensures |r| <= |views|
    ensures forall k :: 0 <= k < |r| ==> r[k].create
    ensures |r| == CreateCount(views)
  {
    if views == [] then []
    else (if views[0].create then [views[0]] else []) + Creatable(views[1..])
  }

  function CreateCount(views: seq<View>): nat {
    if views == [] then 0 else (if views[0].create then 1 else 0) + CreateCount(views[1..])
  }

  /** Switching a view's `create` off removes exactly that view from the objects made. */
  lemma {:induction false} CreatableSkipsDisabled(views: seq<View>, k: nat)
    requires k < |views| && views[k].create
    ensures Creatable(views[..k] + [views[k].(create := false)] + views[k + 1..])
         == Creatable(views[..k]) + Creatable(views[k + 1..])
    ensures Creatable(views) == Creatable(views[..k]) + [views[k]] + Creatable(views[k + 1..])
  {
    var a, x, b := views[..k], views[k], views[k + 1..];
    var off := x.(create := false);
    CreatableAppend(a + [off], b);
    CreatableAppend(a, [off]);
    assert [off][1..] == [];
    CreatableAround(views, k);
  }

  lemma {:induction false} CreatableAround(views: seq<View>, k: nat)
    requires k < |views|
    ensures Creatable(views) == Creatable(views[..k]) + Creatable([views[k]]) + Creatable(views[k + 1..])
  {
    var a, x, b := views[..k], views[k], views[k + 1..];
    assert views == a + [x] + b;
    CreatableAppend(a, [x]);
    CreatableAppend(a + [x], b);
  }

  lemma {:induction false} CreatableAppend(a: seq<View>, b: seq<View>)
    ensures Creatable(a + b) == Creatable(a) + Creatable(b)
  {
    if a == [] {
      assert a + b == b;
    } else {
      assert (a + b)[0] == a[0];
      assert (a + b)[1..] == a[1..] + b;
      CreatableAppend(a[1..], b);
    }
  }
}
