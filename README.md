# Illustrator-to-Unity placement, modelled in Dafny

This project models the two halves of a pipeline that carries artwork from Adobe Illustrator into a Unity scene.

The exporter is `AiInfoExport.js`. It walks the top-level groups of one layer, in enumeration order, and for each group:
- applies the skip rules;
- computes the group's bounds, centre and artboard-relative coordinates;
- builds a file-safe name and sets `zorder` to the loop index;
- snapshots every layer's visibility and every page item's hidden flag, then isolates the group;
- frames the group with a temporary artboard and renders a PNG thumbnail;
- appends one JSON line and counts the group as exported or skipped;
- in a `finally`, restores the snapshots, removes the temporary artboard and makes the original artboard active again.

Once the loop ends, the exporter writes `export.json`.

The importer is `IllustratorPlacementWindow.cs`, a Unity editor window. `LoadJson` turns the parsed object array into views that carry fixed default overrides. `CreateGameObjects` makes one GameObject per view whose `create` toggle is on. It decides each object's name and prefab by precedence, scales the position (optionally flipping y), places it under an optional parent, negates the rotation, and stacks the object by its `zorder`.

Modules:
- `Wrappers`: `Option` and `Result`.
- `JsonText`: `escJSON` and its character-level specification, the decimal text of the `zorder`, and the layout of `export.json`.
- `Geometry`: bounds, size, centre, artboard-relative coordinates, thumbnail scale, the display name and `safeName`.
- `Isolation`: snapshot, isolate and restore as pure functions on boolean sequences. A host setter that throws is modelled here.
- `Exporter`: the outcome of one group (`GroupOutcome`) and of the loop (`Outcomes`, `Entries`, `SkipCount`). It also has the `Document` class. Its methods run the per-group iteration, the loop and the file write in place, each proved against those functions.
- `Placement`: the importer's resolution rules as pure functions of the record, the view's overrides and the window's settings.
- `PlacementWindow`: the `GameObject` and `Window` classes with `LoadJson`, `CreateGameObjects` and `ApplyZOrder`, each proved against `Placement`.
- `Pipeline`: the exported file read back by the importer. A strict JSON reader accepts the file as a whole or not at all. It accepts it exactly when the layer name and every emitted group's name hold no control character, so one such name anywhere loses every record. In an accepted file, each record keeps its name, thumbnail path and zorder exactly. Its position and rotation are kept to within the rounding of `toFixed(2)`.

Some host behaviour is modelled as input values:
- The `Host` value says which layers and page items are locked, which means their visibility or hidden setters throw. It also says for which groups `artboards.add`, `setActiveArtboardIndex` or `exportFile` throws.
- `fmt` stands for `Number.prototype.toFixed(2)`.
- `transformPoint` stands for the parent's `Transform.TransformPoint`.
- `fileExists`, `parsed` and `loadable` stand for `File.Exists`, `JsonUtility.FromJson` and the thumbnails that load.

## Model

| member | source | states |
|---|---|---|
| JsonText.EscJson | AiInfoExport.js:65-68 | A null string becomes ""; any other string becomes `Escape` of it, i.e. the two chained `replace` passes equal the one-pass escape |
| JsonText.TwoPassesEscape | AiInfoExport.js:67 | Replacing every `\` by `\\` and then every `"` by `\"` is the same as escaping each character once |
| JsonText.Escape | AiInfoExport.js:65-68 | The escaped text is longer than the input by exactly the number of `\` and `"` characters |
| JsonText.UnescapeEscape | AiInfoExport.js:65-68 | Escaping loses nothing: reading the escapes back returns the original string |
| JsonText.EscapeIsIdentity | AiInfoExport.js:65-68 | A string is left unchanged exactly when it has neither `\` nor `"` |
| JsonText.NoSpecials | AiInfoExport.js:65-68 | A string has no character to escape exactly when none of its characters is `\` or `"` |
| JsonText.EscapePlain | AiInfoExport.js:65-68 | A string with no `\` or `"` is its own escape |
| JsonText.EscapeKeepsControl | AiInfoExport.js:65-68 | escJSON's output holds a control character (U+0000 to U+001F) exactly when its input does |
| JsonText.EscapeLeavesTab | AiInfoExport.js:67 | `"a<tab>b"` comes out of escJSON unchanged, tab included |
| JsonText.NoControl | AiInfoExport.js:65-68 | (definition, see JsonText.EscapeKeepsControl) No character of the string is one RFC 8259 requires to be escaped |
| JsonText.ReplaceAllAppend | AiInfoExport.js:67 | A global replace distributes over concatenation |
| JsonText.NatToString | AiInfoExport.js:167 | The decimal text of the zorder is non-empty and made only of digits |
| JsonText.NatToStringRoundTrip | AiInfoExport.js:167 | Reading the decimal digits back gives the original number |
| JsonText.Digit | AiInfoExport.js:167 | Each digit character stands for its own value |
| JsonText.ReplaceAll | AiInfoExport.js:67 | A global `replace` of one character (definition, see `JsonText.ReplaceAllAppend` and `JsonText.TwoPassesEscape`) |
| JsonText.Header | AiInfoExport.js:206-208 | The three opening lines of export.json (definition, see `JsonText.DocumentLayout`) |
| JsonText.ObjectLine | AiInfoExport.js:211-212 | One object line with its comma suffix (definition, see `JsonText.DocumentLayout`) |
| JsonText.WithCommas | AiInfoExport.js:210-213 | There is one output line per JSON line |
| JsonText.DocumentLines | AiInfoExport.js:206-216 | Every line written to export.json, in order (definition, see `JsonText.DocumentLayout` and `Exporter.Document.WriteDocument`) |
| JsonText.DocumentLayout | AiInfoExport.js:206-216 | The file has 3 header lines, one line per object and 2 closing lines. Every object line gets a trailing comma except the last, and dropping that comma gives back the object's line |
| Geometry.BoundsRect | AiInfoExport.js:89-98 | Bounds are accepted exactly when present with four values, read as left, top, right, bottom |
| Geometry.MaxDim | AiInfoExport.js:100-103 | The larger of the absolute width and the absolute height |
| Geometry.Degenerate | AiInfoExport.js:103-107 | The zero-size skip rule `maxDim <= 0` holds exactly when left == right and top == bottom |
| Geometry.RelX | AiInfoExport.js:100-116 | `xRel` is the horizontal centre minus the artboard's left edge, and the centre is equidistant from both sides |
| Geometry.RelY | AiInfoExport.js:100-117 | `yRel` is the artboard's top edge minus the vertical centre, and the centre is equidistant from top and bottom |
| Geometry.ScalePercent | AiInfoExport.js:148 | At the chosen scale, the larger side of the group renders at exactly `thumbSize` pixels |
| Geometry.ScaleExample | AiInfoExport.js:148 | A 256-unit group at thumbnail size 128 renders at 50 percent |
| Geometry.SafeName | AiInfoExport.js:110 | Same length as the name; each `[A-Za-z0-9_-]` character is kept and every other character becomes `_` |
| Geometry.SafeNameIdempotent | AiInfoExport.js:110 | A sanitised name contains only safe characters, and sanitising it again changes nothing |
| Geometry.SafeNameFixed | AiInfoExport.js:110 | A name is its own sanitised form exactly when all its characters are safe |
| Geometry.SafeNameExample | AiInfoExport.js:110 | `"A/B C"` becomes `"A_B_C"` |
| Geometry.DisplayName | AiInfoExport.js:109 | Never empty: a non-empty group name is kept, and an empty one becomes `"Group_" + i` |
| Geometry.GeneratedNameIsSafe | AiInfoExport.js:109-110 | A generated `Group_<i>` name passes the sanitiser unchanged |
| Geometry.GeneratedNameExample | AiInfoExport.js:109 | Unnamed group 2 is called `"Group_2"` |
| Geometry.SafeNameNeedsNoEscape | AiInfoExport.js:110 | A sanitised name is unchanged by `escJSON` |
| Isolation.FirstIn | AiInfoExport.js:127-131 | The first index below `n` whose setter throws, or `n`; no earlier index is in the set |
| Isolation.FirstInUnique | AiInfoExport.js:127-131 | An index with the three `FirstIn` properties is `FirstIn` |
| Isolation.IsolateLayers | AiInfoExport.js:127-131 | Layers are saved as a prefix of their visibility. Isolation completes exactly when no layer's setter throws, and then every layer is visible exactly when it is the target |
| Isolation.LayersRoundTrip | AiInfoExport.js:127-190 | Restoring the saved visibility after isolation gives back every layer's visibility, also when a setter threw part-way |
| Isolation.RestoreLayers | AiInfoExport.js:186-190 | A layer gets its saved visibility when it is saved and no layer up to it has a throwing setter; a layer at or after a throwing one, or beyond the snapshot, keeps its current visibility |
| Isolation.RestoreLayersNothingSaved | AiInfoExport.js:186-190 | With nothing saved, restoring changes no layer |
| Isolation.HideAll | AiInfoExport.js:134-138 | There is one flag per page item |
| Isolation.Show | AiInfoExport.js:141 | The group's own item becomes visible when it exists and is not locked; every other item, and a locked group item, keeps its flag |
| Isolation.IsolatedItems | AiInfoExport.js:134-141 | After hiding and re-showing the group, every unlocked item is hidden except the group's own; locked items keep their flag |
| Isolation.ItemsRoundTrip | AiInfoExport.js:134-183 | Restoring the saved flags after isolation gives back every item's hidden flag |
| Isolation.RestoreItems | AiInfoExport.js:178-183 | An item that was saved and is not locked gets its saved flag back; a locked item, or one beyond the snapshot, keeps its current flag |
| Isolation.RestoreItemsNothingSaved | AiInfoExport.js:178-183 | With nothing saved, restoring changes no item |
| Exporter.GroupOutcome | AiInfoExport.js:77-171 | The first skip rule fires exactly when the group is null, locked, hidden or empty. A group is emitted exactly when it is eligible, has four-valued non-degenerate bounds and the host cooperates. The emitted entry is `MakeEntry` of the group: its display name, `safeName`, `xRel`, `yRel`, width, height, rotation and zorder = loop index; its thumbnail file is named after its `safeName` |
| Exporter.RenderedInIsolation | AiInfoExport.js:127-157 | While an emitted group renders, only the target layer is visible and every unlocked item but the group is hidden. The clip frame is the group's bounds, and the larger side maps to `thumbSize` pixels |
| Exporter.Outcomes | AiInfoExport.js:75 | One outcome per group |
| Exporter.OutcomeAt | AiInfoExport.js:75-77 | The i-th outcome is the outcome of the group at index i |
| Exporter.OutcomesStep | AiInfoExport.js:75-203 | The outcomes of one more group are the earlier ones followed by that group's outcome |
| Exporter.Entries | AiInfoExport.js:160-171 | No more entries than groups |
| Exporter.OneMoreOutcome | AiInfoExport.js:75-203 | One more outcome appends its entry and render, or counts one more skip |
| Exporter.CountsAddUp | AiInfoExport.js:75-174 | `exported + skipped` equals the number of groups |
| Exporter.ZOrdersAreIndices | AiInfoExport.js:123 | Each emitted zorder is the index of the group it came from and is below the group count; emitted zorders strictly increase, with gaps where groups were skipped |
| Exporter.EmittedZOrders | AiInfoExport.js:123 | Every emitted entry is the outcome of the group at index `zorder`, and emitted zorders strictly increase |
| Exporter.Eligible | AiInfoExport.js:79-82 | The first skip rule: a group is taken only when it is present, unlocked, not hidden and has page items (definition, used by `Exporter.GroupOutcome`) |
| Exporter.MakeRender | AiInfoExport.js:128-157 | What one `exportFile` call sees: the file, the scale, the clip frame and the visibility at export time (definition, see `Exporter.RenderedInIsolation`) |
| Exporter.Renders | AiInfoExport.js:157 | The completed `exportFile` calls in loop order (definition, see `Exporter.OneMoreOutcome` and `Exporter.LoopRecordsMatchRenders`) |
| Exporter.SkipCount | AiInfoExport.js:80-174 | The `skipped` counter: one per iteration that skips (definition, see `Exporter.CountsAddUp` and `Exporter.OneMoreOutcome`) |
| Exporter.RotationOf | AiInfoExport.js:119-120 | The group's rotation, or 0 when it has none (definition, see `Exporter.MakeEntry`) |
| Exporter.HostCooperates | AiInfoExport.js:127-157 | The isolate loop, `artboards.add`, `setActiveArtboardIndex` and `exportFile` all go through for this group (definition, see `Exporter.GroupOutcome`) |
| Exporter.ThumbnailFile | AiInfoExport.js:156-168 | The thumbnail path `thumbnails/<safeName>.png` (definition, see `Exporter.ThumbnailTextIsFile` and `Exporter.RecordsMatchRenders`) |
| Exporter.MakeEntry | AiInfoExport.js:109-123 | The values of an emitted record (definition, used by `Exporter.GroupOutcome` and `Pipeline.ExportedGroupIsPlaced`) |
| Exporter.LoopRecordsMatchRenders | AiInfoExport.js:75-171 | Over the whole loop there are exactly as many renders as records, and the k-th render wrote the file the k-th record names |
| Exporter.EmittedEntryListed | AiInfoExport.js:160-169 | An iteration that emitted its group has its entry among the records |
| Exporter.RecordsMatchRenders | AiInfoExport.js:156-171 | There are exactly as many renders as records, and the k-th render wrote the file that the k-th record names |
| Exporter.JsonLines | AiInfoExport.js:160-169 | There is one JSON line per entry |
| Exporter.JsonLine | AiInfoExport.js:160-169 | The text of one object line (definition, used by `Exporter.JsonLines` and `Exporter.ThumbnailTextIsFile`) |
| Exporter.RemoveAt | AiInfoExport.js:193-197 | The artboard list without the temporary artboard (definition, see `Exporter.RemoveAddedBoard`) |
| Exporter.RemoveAddedBoard | AiInfoExport.js:144-197 | Removing the artboard that was just added at the end gives back the artboard list from before the add |
| Exporter.JsonLinesAppend | AiInfoExport.js:160-169 | The JSON lines of one more entry are the old lines plus that entry's line |
| Exporter.ThumbnailTextIsFile | AiInfoExport.js:156-168 | The thumbnail path written into the JSON line is exactly the file the render wrote |
| Exporter.Document.constructor | AiInfoExport.js:46-47 | The document starts with the given layers, items and artboards, with the given active artboard (which must exist) and with no render |
| Exporter.Document.IsolateLayerVisibility | AiInfoExport.js:127-131 | The in-place loop yields the snapshot, completion flag and visibility of `IsolateLayers` |
| Exporter.Document.HideLayerItems | AiInfoExport.js:134-138 | The in-place loop saves every hidden flag and hides every unlocked item |
| Exporter.Document.ShowGroupItem | AiInfoExport.js:141 | The group's own item is shown unless it is missing or locked |
| Exporter.Document.RestoreItemFlags | AiInfoExport.js:178-183 | The in-place loop puts back the saved flags, as `RestoreItems` says |
| Exporter.Document.RestoreLayerVisibility | AiInfoExport.js:186-190 | The in-place loop puts back the saved visibility, as `RestoreLayers` says |
| Exporter.Document.ExportGroup | AiInfoExport.js:77-202 | One iteration yields `GroupOutcome`. With setters that throw alike in the `try` and the `finally`, whatever the `try` does, layers, items and the artboard list are left as they were and `activeAbIndex` is active again; an ineligible group changes nothing. A render is recorded exactly for an emitted group |
| Exporter.Document.ExportGroups | AiInfoExport.js:70-203 | The loop yields the JSON lines of the emitted entries in order, `exported` and `skipped` counts that add up to the number of groups, and one render per emitted group; the document is restored |
| Exporter.Document.WriteDocument | AiInfoExport.js:205-216 | The lines written are exactly those of export.json's layout for the given layer name and JSON lines |
| Exporter.Document.Export | AiInfoExport.js:40-216 | The export succeeds exactly when the layer has groups and the file can be created. A layer without groups and an uncreatable file are refused and change nothing. On success the file holds the header, the comma-joined JSON lines of the emitted groups and the footer, the counters add up to the number of groups, and the document is left restored and valid |
| Placement.FirstAvailable | IllustratorPlacementWindow.cs:304-316 | The first present candidate wins; the fallback is used only when no candidate is present |
| Placement.DefaultName | IllustratorPlacementWindow.cs:304-316 | With no prefab anywhere, the default name is never empty |
| Placement.DefaultNameIsFirstAvailable | IllustratorPlacementWindow.cs:304-316 | The default name is the first available of the per-item prefab's name, the global prefab's name and a non-empty record name, else `"Object"` |
| Placement.FinalName | IllustratorPlacementWindow.cs:248-254 | The custom name wins exactly when it is switched on and non-empty, else the default name. The result is empty only if a chosen prefab's name is empty |
| Placement.PrefabToUse | IllustratorPlacementWindow.cs:257-268 | The per-item prefab, else the global prefab; no prefab exactly when neither is set |
| Placement.ScaledPosition | IllustratorPlacementWindow.cs:272-276 | `(x*scale, y*scale, 0)`, with y negated exactly when `flipY` |
| Placement.ScaledPositionInverse | IllustratorPlacementWindow.cs:272-276 | For a non-zero scale, the record's coordinates are recovered from the scaled position |
| Placement.ScaledPositionExample | IllustratorPlacementWindow.cs:272-276 | Scale 0.01 with the flip turns (200, 100) into (2, -1, 0) |
| Placement.PlacedPosition | IllustratorPlacementWindow.cs:278-290 | Without a parent the world position is `pos`, and with one it is `TransformPoint(pos)` |
| Placement.Stacked | IllustratorPlacementWindow.cs:318-335 | A sprite gets `sortingOrder = -zorder` and keeps its position. Otherwise only z changes, to `-zorder*0.01`; nothing else changes |
| Placement.StackingOrder | IllustratorPlacementWindow.cs:318-335 | A larger zorder gives a smaller sortingOrder, or a smaller z |
| Placement.StackingExample | IllustratorPlacementWindow.cs:318-335 | zorder 3 gives z = -0.03 or sortingOrder -3 |
| Placement.Resolve | IllustratorPlacementWindow.cs:247-294 | A created object has the final name, the chosen prefab, the window's parent and the negated rotation. It has a sortingOrder exactly when its prefab has a sprite, and is placed and stacked as above |
| Placement.Creatable | IllustratorPlacementWindow.cs:243-245 | Only views whose `create` toggle is on are kept, and there are as many as such views |
| Placement.CreatableSkipsDisabled | IllustratorPlacementWindow.cs:243-245 | A view with `create` off contributes no object |
| Placement.CreatableAround | IllustratorPlacementWindow.cs:243-245 | A view with `create` on yields exactly one object, at its place in the order |
| Placement.CreatableAppend | IllustratorPlacementWindow.cs:243-245 | Filtering distributes over concatenation |
| Placement.Instantiated | IllustratorPlacementWindow.cs:259-268 | A freshly made object before placement (definition, see `PlacementWindow.GameObject.Plain` and `PlacementWindow.GameObject.FromPrefab`) |
| PlacementWindow.NewView | IllustratorPlacementWindow.cs:199-224 | The default view of one record (definition, see `PlacementWindow.Window.LoadJson`) |
| PlacementWindow.GameObject.Plain | IllustratorPlacementWindow.cs:267 | A new plain GameObject has the given name, no prefab, no parent and no sprite |
| PlacementWindow.GameObject.FromPrefab | IllustratorPlacementWindow.cs:262 | An instantiated prefab carries the prefab's name and its sprite's sortingOrder |
| PlacementWindow.GameObject.SetLocalPosition | IllustratorPlacementWindow.cs:283 | Under a parent, setting the local position puts the object at `TransformPoint` of it |
| PlacementWindow.Window.constructor | IllustratorPlacementWindow.cs:45-55 | Nothing is loaded; scale 0.00651041666, flip on, local positions off, no parent, no global prefab |
| PlacementWindow.Window.LoadJson | IllustratorPlacementWindow.cs:162-230 | A missing file, a failed parse or a missing `objects` array clears both `exportData` and `views`. Otherwise there is one view per record, wrapping it with `create` on, no custom name, no prefab and `gameObjectName` = the record's name. Settings are untouched |
| PlacementWindow.Window.ApplyZOrder | IllustratorPlacementWindow.cs:318-335 | The GameObject's new state is `Stacked` of its old one |
| PlacementWindow.Window.CreateGameObject | IllustratorPlacementWindow.cs:247-294 | The new object's state is `Resolve` of the view under the window's settings |
| PlacementWindow.Window.CreateGameObjects | IllustratorPlacementWindow.cs:232-301 | Nothing loaded means nothing created. Otherwise there are as many new, distinct objects as views with `create` on, in order, each resolved as `Resolve` says |
| Pipeline.ReadBack | AiInfoExport.js:160-168 | The fields of one object line, as a reader following RFC 8259 reads them. They are readable exactly when neither string field holds a control character, which escJSON would write raw. The record they give has the group's display name, the thumbnail file that was rendered and the zorder. The file as a whole is read by `Pipeline.ReadDocument` |
| Pipeline.ReadRecords | AiInfoExport.js:210-213 | The object array gives records only when every line is readable. Then there is one record per line, each the record `ReadBack` gives for that line |
| Pipeline.ReadDocument | AiInfoExport.js:205-216 | The whole file is accepted exactly when the layer name holds no control character and every line is readable. Otherwise no record at all comes back. When accepted, record k is the one `ReadBack` gives for line k |
| Pipeline.ExportedDocumentReadable | AiInfoExport.js:75-216 | The file the export loop writes is accepted exactly when the layer name and the name of every group the loop emitted hold no control character |
| Pipeline.DirtyNameRejectsFile | AiInfoExport.js:160-168 | A clean line is readable on its own, yet a file that also holds a line whose name has a tab gives no record |
| Pipeline.LoadedViewName | IllustratorPlacementWindow.cs:200-207 | With no prefab, a freshly loaded view is named after its record, or `"Object"` when the record's name is empty |
| Pipeline.ExportedGroupIsPlaced | IllustratorPlacementWindow.cs:272-294 | Take a group emitted at index `i`, read back with every number within 0.005 of what was written (the rounding of `toFixed(2)`), and imported with the flip, a scale >= 0 and no parent or prefab. It gets its display name. Its x and y are the group's centre measured from the artboard's top-left corner, times the scale, to within 0.005 times the scale. Its z is -i/100, and its rotation is the negated rotation to within 0.005 |
| Pipeline.PlacedNear | IllustratorPlacementWindow.cs:272-294 | (definition, see Pipeline.ExportedGroupIsPlaced) The expected placement of an imported group, with the rounding tolerance |
| Pipeline.ThumbnailFound | IllustratorPlacementWindow.cs:209-219 | When the exporter's rendered thumbnail file loads, a record that reads back gives its view that thumbnail |
| Pipeline.ExportedRecordReadable | AiInfoExport.js:109-110 | One exported line is readable on its own exactly when the group's name has no control character: a generated `Group_<i>` name and every safeName have none. Whether the file is read at all is `Pipeline.ExportedDocumentReadable` |
| Pipeline.SharedThumbnail | AiInfoExport.js:156-157 | Groups named "A B" and "A/B" get records with different names but one thumbnail file. Both read back, and their views load the same thumbnail |
| Pipeline.CollidingNames | AiInfoExport.js:110 | "A B" and "A/B" are different names with the same safeName "A_B", and neither holds a control character |

## Left out

- The "no document" and "no layers" aborts (AiInfoExport.js:5-8) are checks made before the modelled code runs. The dialogs are also left out: layer and size selection, `Folder.selectDialog` and the alerts (AiInfoExport.js:10-38, 53-54, 219-225). The editor window's GUI and `OnGUI` (IllustratorPlacementWindow.cs:57-160) are also left out. The chosen layer index, the thumbnail size and the group list are inputs to `Exporter.Document.Export`.
- File I/O: creating the thumbnails folder (AiInfoExport.js:56-57) is not modelled. `jsonFile.open` is a `canCreateFile` flag, and the file's contents are returned as lines. `File.Exists`, `ReadAllText`, `ReadAllBytes` and `Texture2D.LoadImage` are the `fileExists`, `parsed` and `loadable` inputs of `LoadJson`.
- `JsonUtility.FromJson` is not modelled: its result is the `parsed` input. `Pipeline.ReadDocument` gives the records a strict parse would produce.
- `doc.exportFile`, the PNG24 options and the artboard internals: a render records the clip frame, scale and visibility it saw. `artboards.add`, `setActiveArtboardIndex` and `exportFile` may fail per group, as the `Host` value says.
- Exporter.Document.ExportGroup: one lock set decides where the visibility and hidden setters throw, in the `try` and in the `finally` alike. A setter that throws only during a restore is not modelled. In the layer restore, such a failure would end the only `try` around the loop and leave every later layer isolated. `Exporter.Document.ExportGroups` and `Exporter.Document.Export` inherit this assumption through `ExportGroup`'s contract.
- Exporter.Document.ExportGroup: assumes `artboards.remove` and the final `setActiveArtboardIndex(activeAbIndex)` succeed. Their `catch` blocks, which would leave a stray artboard or the wrong active index, are not modelled.
- Exporter.Document.ExportGroup: the group's own `hidden` flag comes from the `Group` record rather than from its page item. The page-item index it un-hides is given as `slot`.
- Exporter.Document.ExportGroup: the `$.writeln` diagnostic in the `catch` is left out. Every host exception in the `try` becomes the `HostError` skip reason.
- Exporter.Document.Export: a null layer name (`escJSON` of `layer.name`) is an `Option`. Layer names of the dialog list (AiInfoExport.js:11-16) are only shown and are not part of this model.
- Number formatting: `toFixed(2)` is the `fmt` parameter and is not verified. `Pipeline.ReadBack` takes the read-back number as a parameter `decimal`.
- IEEE floats: coordinates, sizes and scales are mathematical reals. Float rounding in `x * positionScale`, `-zorder * 0.01f` and the exporter's arithmetic is not modelled, nor is `int` overflow in `-zorder`.
- Geometry.SafeName: works on Dafny characters, not UTF-16 code units. `\w` is taken as ASCII `[A-Za-z0-9_]`, as in ExtendScript.
- `Undo.*`, `EditorSceneManager.MarkSceneDirty`, `PrefabUtility.InstantiatePrefab` (beyond naming the new object and carrying its sprite) and `Quaternion.Euler` are foreign calls. The rotation is kept as its Z angle in degrees.
- `Transform.TransformPoint` is an uninterpreted function parameter, `transformPoint`.
- Placement.PlacedPosition: a GameObject is known by its world position only. With a parent and `useLocalPosition` on, `localPosition = pos` is modelled by its effect on the world position, `TransformPoint(pos)`; the local position is not stored.
- `Path.Combine`, `Path.GetDirectoryName` and the `\` to `/` replacement for thumbnail paths: a thumbnail is known by the path written in the record.
- `Debug.Log`, `Debug.LogWarning` and `Debug.LogError` messages.
- Null `name` and `gameObjectName` strings on the importer side are the empty string: they only reach `string.IsNullOrEmpty`, which treats both alike.
- PlacementWindow.Window.LoadJson: `data.thumbnail` is never null. A null or otherwise invalid thumbnail path makes `Path.Combine` throw outside the `try` (IllustratorPlacementWindow.cs:209), which would leave `exportData` set and `views` only partly filled; that path is not modelled.
- Pipeline.ReadBack: the JSON line's text is not parsed as a whole. The record is built from the fields the line carries, with each string unescaped and the zorder's digits read back.
- Pipeline.ReadDocument: escJSON does not escape control characters, so a layer or group name holding one (a tab, a newline) makes export.json invalid JSON. `ReadDocument` follows a strict RFC 8259 reader, which rejects the whole file; `LoadJson` then clears both fields. The strictness of `JsonUtility.FromJson` itself is not modelled.
- Pipeline.ExportedGroupIsPlaced: a read-back number is within 0.005 of the real number written. Float rounding beyond `toFixed(2)` is not modelled.
- Pipeline.ThumbnailFound: a thumbnail is known by its path. Two emitted groups with the same safeName write the same file, so the later render overwrites the earlier. Both views then load the later group's image. The list of renders keeps both and does not model the overwrite; `Pipeline.SharedThumbnail` shows such a pair.
