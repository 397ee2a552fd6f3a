/**
 * The importer's editor window (IllustratorPlacementWindow.cs) without its
 * GUI: LoadJson builds one view per loaded record, CreateGameObjects makes
 * one GameObject per view whose `create` toggle is on, and ApplyZOrder
 * stacks each new object.
 */
module PlacementWindow {
  import opened Wrappers
  import opened Placement

  /** `IllustratorExportData`; `objects` is None when the array is missing. */
  datatype ExportData = ExportData(layer: string, objects: Option<seq<ObjectData>>)

  /**
   * The view LoadJson makes for a record: create on, no custom name (its
   * text preset to the record's name), no prefab, and the thumbnail when
   * its file exists and loads.
   */
  function NewView(data: ObjectData, loadable: set<string>): View {
    View(data, data.name, false,
         if data.thumbnail in loadable then Some(Thumbnail(data.thumbnail)) else None,
         true, None)
  }

  /** The part of a Unity GameObject that placement sets. */
  class GameObject {
    var name: string
    var prefab: Option<Prefab>
    var parent: Option<ParentId>
    var position: Vec3            // world position
    var rotationZ: real           // rotation about Z, in degrees
    var sortingOrder: Option<int> // the first SpriteRenderer in its children, if any

    function State(): ObjectState
      reads this
    {
      ObjectState(name, prefab, parent, position, rotationZ, sortingOrder)
    }

    /** A new empty GameObject with the given name. */
    constructor Plain(name: string)
      ensures State() == Instantiated(None, name)
    {
      this.name, prefab, parent := name, None, None;
      position, rotationZ, sortingOrder := Vec3(0.0, 0.0, 0.0), 0.0, None;
    }

    /** A new instance of prefab `p`. */
    constructor FromPrefab(p: Prefab)
      ensures State() == Instantiated(Some(p), p.name)
    {
      name, prefab, parent := p.name, Some(p), None;
      position, rotationZ, sortingOrder := Vec3(0.0, 0.0, 0.0), 0.0, p.sprite;
    }

    /** Setting the local position: under a parent, the world position becomes TransformPoint(local). */
    method SetLocalPosition(local: Vec3, transformPoint: Vec3 -> Vec3)
      modifies this
      ensures State() == old(State()).(position := if parent.Some? then transformPoint(local) else local)
    {
      position := if parent.Some? then transformPoint(local) else local;
    }
  }

  class Window {
    var exportData: Option<ExportData>
    var views: array?<View>
    var parentTransform: Option<ParentId>
    var globalPrefab: Option<Prefab>
    var positionScale: real
    var flipY: bool
    var useLocalPosition: bool

    function CurrentSettings(): Settings
      reads this
    {
      Settings(parentTransform, globalPrefab, positionScale, flipY, useLocalPosition)
    }

    constructor ()
      ensures exportData.None? && views == null && CurrentSettings() == DEFAULT_SETTINGS
    {
      exportData, views := None, null;
      parentTransform, globalPrefab := None, None;
      positionScale, flipY, useLocalPosition := DEFAULT_SCALE, true, false;
    }

    /**
     * LoadJson (lines 162-230). A missing file, a parse that throws (None)
     * or a document without an `objects` array clears both fields; otherwise
     * `views[i]` wraps `objects[i]` with the default overrides.
     */
    method LoadJson(fileExists: bool, parsed: Option<ExportData>, loadable: set<string>)
      modifies this
      ensures CurrentSettings() == old(CurrentSettings())
      ensures !fileExists || parsed.None? || parsed.value.objects.None? ==>
        exportData.None? && views == null
      ensures fileExists && parsed.Some? && parsed.value.objects.Some? ==>
        && exportData == parsed && views != null && fresh(views)
        && views.Length == |parsed.value.objects.value|
        && forall i :: 0 <= i < views.Length ==> views[i] == NewView(parsed.value.objects.value[i], loadable)
    {
      if !fileExists {
        exportData, views := None, null;
        return;
      }
      if parsed.None? {
        exportData, views := None, null;
        return;
      }
      exportData := parsed;
      if exportData.value.objects.None? {
        exportData, views := None, null;
        return;
      }
      var objects := exportData.value.objects.value;
      var loaded := new View[|objects|];
      var i := 0;
      while i < |objects|
        modifies loaded
        invariant 0 <= i <= |objects| == loaded.Length
        invariant forall k :: 0 <= k < i ==> loaded[k] == NewView(objects[k], loadable)
      {
        loaded[i] := NewView(objects[i], loadable);
        i := i + 1;
      }
      views := loaded;
    }

    /** ApplyZOrder (lines 318-335). */
    method ApplyZOrder(go: GameObject, zorder: int)
      modifies go
      ensures go.State() == Stacked(old(go.State()), zorder)
    {
      if go.sortingOrder.Some? {
        go.sortingOrder := Some(-zorder);
        return;
      }
      var pos := go.position;
      pos := pos.(z := -(zorder as real) * 0.01);
      go.position := pos;
    }

    /** The body of CreateGameObjects' loop for one view whose toggle is on (lines 243-292). */
    method CreateGameObject(v: View, transformPoint: Vec3 -> Vec3) returns (go: GameObject)
      ensures fresh(go)
      ensures go.State() == Resolve(v, CurrentSettings(), transformPoint)
    {
      var finalName := FinalName(v, globalPrefab);
      var prefabToUse := PrefabToUse(v, globalPrefab);
      if prefabToUse.Some? {
        go := new GameObject.FromPrefab(prefabToUse.value);
        go.name := finalName;
      } else {
        go := new GameObject.Plain(finalName);
      }
      var x := v.data.x * positionScale;
      var y := v.data.y * positionScale;
      if flipY {
        y := -y;
      }
      var pos := Vec3(x, y, 0.0);
      if parentTransform.Some? {
        go.parent := parentTransform;
        if useLocalPosition {
          go.SetLocalPosition(pos, transformPoint);
        } else {
          go.position := transformPoint(pos);
        }
      } else {
        go.position := pos;
      }
      go.rotationZ := -v.data.rotation;
      assert pos == ScaledPosition(v.data, positionScale, flipY);
      assert go.State() == Instantiated(prefabToUse, finalName).(
        parent := parentTransform, position := PlacedPosition(v.data, CurrentSettings(), transformPoint),
        rotationZ := -v.data.rotation);
      ApplyZOrder(go, v.data.zorder);
    }

    /**
     * CreateGameObjects (lines 232-301): nothing when no views are loaded;
     * otherwise one new GameObject per view with `create` on, in order,
     * each placed as Resolve says.
     */
    method CreateGameObjects(transformPoint: Vec3 -> Vec3) returns (created: seq<GameObject>)
      ensures views == null ==> created == []
      ensures views != null ==>
        && |created| == |Creatable(views[..])|
        && forall k :: 0 <= k < |created| ==>
             created[k].State() == Resolve(Creatable(views[..])[k], CurrentSettings(), transformPoint)
      ensures forall k :: 0 <= k < |created| ==> fresh(created[k])
      ensures forall a, b :: 0 <= a < b < |created| ==> created[a] != created[b]
    {
      created := [];
      if views == null {
        return;
      }
      var i := 0;
      while i < views.Length
        invariant 0 <= i <= views.Length
        invariant |created| == |Creatable(views[..i])|
        invariant forall k :: 0 <= k < |created| ==> fresh(created[k])
        invariant forall a, b :: 0 <= a < b < |created| ==> created[a] != created[b]
        invariant forall k :: 0 <= k < |created| ==>
          created[k].State() == Resolve(Creatable(views[..i])[k], CurrentSettings(), transformPoint)
      {
        var v := views[i];
        assert views[..i + 1] == views[..i] + [v];
        CreatableAppend(views[..i], [v]);
        assert [v][1..] == [];
        if v.create {
          var go := CreateGameObject(v, transformPoint);
          created := created + [go];
        }
        i := i + 1;
      }
      assert views[..views.Length] == views[..];
    }
  }
}
