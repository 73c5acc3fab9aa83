# Cover maker: a verified model of the editor core

Cover maker is a browser editor for cover images built on the fabric.js
drawing library. This project models its core in Dafny and proves
properties of the model:

- `store.dfy` (module `Store`) is the editor's store. It holds the undo/redo
  history of scene snapshots with its cursor and the 50-entry cap. It also
  holds the selection, the pending image or shape tool, and the two durable
  entries (`covermaker_canvas`, `covermaker_bg`). It provides the new-canvas,
  reset, resize, background, delete and load-from-storage operations. It
  also holds the style reconciler, which routes a style change to a line, an
  arrow path, an arrow group (a line plus an arrowhead triangle) or a plain
  shape.
- `history.dfy` (module `History`) is the history as a pure value
  (`Timeline`). The store's mutating methods are specified by its `Record`,
  `Undone` and `Redone` functions.
- `scene.dfy` (module `SceneGraph`) is the part of the drawing library the
  core relies on. It has the objects and their attributes, and a `Canvas`
  class with its object list, active selection, background, size and
  viewport transform. Each object carries an identity (`id`), handed out by
  the canvas, which stands for the library's object references.
- `shapes.dfy` (module `Shapes`) holds the default-shape creators: rectangle,
  circle, triangle, line, arrow, star, heart and hexagon. It includes the
  star and hexagon vertex loops.
- `editor.dfy` (module `Editor`) handles the canvas editor's pointer and
  keyboard input:
  - drag-to-draw, with a temporary object that follows the pointer and an
    arrow path built on release;
  - click-to-place for the star, heart and hexagon;
  - placing an image so that it covers the canvas;
  - nudging the active object with the arrow keys.
- `style_editor.dfy` (module `StyleEditor`) is the shape style panel. It
  decides which controls the panel shows, and reads the displayed fill,
  stroke and stroke width back from the selected object.
- `export.dfy` (module `Export`) is the PNG export. It builds the time-stamped
  file name and makes the raster request under the identity viewport
  transform, then restores the previous transform.

JavaScript's falsy values are modelled explicitly:

- An absent string (null) is the empty string.
- `a || b` on strings is `OrElse`, and on numbers it is `OrOne` or an
  explicit test for zero.

Coordinates and sizes are reals. Trigonometry is abstracted:

- The dragged arrow's direction is passed in as a unit vector. The
  predicate `IsDragDirection` says what it must satisfy.
- Polygon vertices are kept in polar form (`Vertex`).

## Model

| member | source | states |
|---|---|---|
| `History.Record` | src/store/useCanvasStore.ts:183-202 | the new history ends at the snapshot with the cursor on it, the redo branch is gone, the length is min(step + 2, 50), the kept entries are the newest ones up to the old cursor, and undo is possible exactly when more than one entry remains |
| `History.Undone` | src/store/useCanvasStore.ts:209-225 | entries unchanged; the cursor moves back one and redo becomes possible when undo was possible, otherwise nothing changes |
| `History.Redone` | src/store/useCanvasStore.ts:227-243 | entries unchanged; the cursor moves forward one and undo becomes possible when redo was possible, otherwise nothing changes |
| `History.RecordKeepsPast` | src/store/useCanvasStore.ts:188-189 | below the cap, recording is truncation after the cursor plus append |
| `History.RecordEvictsOldest` | src/store/useCanvasStore.ts:191-194 | at the cap, recording drops exactly the oldest entry |
| `History.UndoThenRedo` | src/store/useCanvasStore.ts:209-243 | redo after an undo returns to the same history and cursor |
| `History.RedoThenUndo` | src/store/useCanvasStore.ts:209-243 | undo after a redo returns to the same history and cursor |
| `History.RecordDiscardsRedo` | src/store/useCanvasStore.ts:188-201 | after an undo, a new snapshot leaves nothing to redo |
| `History.RecordAllAppends` | src/store/useCanvasStore.ts:183-202 | a run of snapshots from the newest entry, within the cap, appends them all |
| `History.Newest` | src/store/useCanvasStore.ts:191-194 | the newest 50 entries of a sequence, or all of them when there are fewer, in order |
| `History.RecordAtNewestKeepsNewest` | src/store/useCanvasStore.ts:183-202 | recording with the cursor on the newest entry keeps the newest 50 entries of the history plus the snapshot, with the cursor on the snapshot |
| `History.NewestTwice` | src/store/useCanvasStore.ts:191-194 | trimming to the newest 50 before appending more keeps the same newest 50 as trimming once at the end |
| `History.RecordAllKeepsNewest` | src/store/useCanvasStore.ts:183-202 | a run of snapshots from the newest entry, past the cap too, leaves the newest 50 of all entries with the cursor on the last snapshot |
| `History.UndoTimesFrom` | src/store/useCanvasStore.ts:209-225 | k undos move the cursor back exactly k entries while that many remain |
| `History.CommitsThenUndos` | src/store/useCanvasStore.ts:183-225 | after n snapshots on top of a first one and k undos, with k <= n and k below the cap of 50, the cursor shows the snapshot n - k, also once the oldest entries have been evicted |
| `Store.CanvasStore.constructor` | src/store/useCanvasStore.ts:39-51 | the initial state: no canvas or selection, background #f5f5f5, 1920x1080, an empty history, nothing pending |
| `Store.CanvasStore.SetSelectedObject` | src/store/useCanvasStore.ts:59 | sets the selection |
| `Store.CanvasStore.SetPendingImageUrl` | src/store/useCanvasStore.ts:60 | sets the pending image URL |
| `Store.CanvasStore.SetPendingShapeType` | src/store/useCanvasStore.ts:61 | sets the pending shape tool |
| `Store.CanvasStore.SaveState` | src/store/useCanvasStore.ts:183-207 | without a canvas nothing changes; otherwise the history becomes `Record(old history, live scene)` and the durable entries hold the scene and its background, or #f5f5f5 when that is empty |
| `Store.CanvasStore.Undo` | src/store/useCanvasStore.ts:209-225 | a no-op without a canvas or at the oldest entry; otherwise the cursor is `Undone(old)`, the canvas shows the entry under the cursor with nothing active, the store's selection is dropped, redo is possible and the store's background follows the canvas; only the history, flags, background, selection and the canvas's scene fields change |
| `Store.CanvasStore.Redo` | src/store/useCanvasStore.ts:227-243 | a no-op without a canvas or at the newest entry; otherwise the cursor is `Redone(old)`, the canvas shows the entry under the cursor with nothing active, the store's selection is dropped, undo is possible, and redo is possible exactly when entries remain ahead; only the history, flags, background, selection and the canvas's scene fields change |
| `Store.CanvasStore.ForgetHistory` | src/store/useCanvasStore.ts:120-128 | clears the selection, the pending tool and image, and the history, with both flags false |
| `Store.Wipe` | src/store/useCanvasStore.ts:88-94 | the canvas is left with no objects, no selection, no background image, and the given size and background colour |
| `Store.CanvasStore.NewCanvas` | src/store/useCanvasStore.ts:85-107 | an empty canvas of the new size on #f5f5f5, nothing selected or pending, and a history holding exactly that one scene with no undo or redo; the durable entries hold that scene and #f5f5f5, and are untouched without a canvas |
| `Store.CanvasStore.ResetCanvas` | src/store/useCanvasStore.ts:110-130 | the canvas is emptied but keeps its size and the store's background, and the history holds exactly the emptied scene, which the durable entries also hold with the canvas's background |
| `Store.CanvasStore.SetBackgroundColor` | src/store/useCanvasStore.ts:64-72 | the store's and the canvas's background become the colour and one snapshot is recorded and written to the durable entries; without a canvas only the store's colour changes |
| `Store.CanvasStore.SetCanvasSize` | src/store/useCanvasStore.ts:74-82 | the store's and the canvas's size become the new size and one snapshot is recorded and written to the durable entries; only the sizes, the history and the durable entries change |
| `Store.CanvasStore.UpdateTextStyle` | src/store/useCanvasStore.ts:132-144 | only a selected textbox gets the property, followed by one snapshot written to the durable entries; every other case changes nothing; no canvas field other than the object list changes |
| `Store.CanvasStore.UpdateShapeStyle` | src/store/useCanvasStore.ts:146-181 | the selected object is replaced by `Restyled(object, property)` and one snapshot is recorded and written to the durable entries; without a selection nothing changes; no canvas field other than the object list changes |
| `Store.Reconcile` | src/store/useCanvasStore.ts:150-175 | the in-place dispatch produces exactly `Restyled` |
| `Store.Set` | src/store/useCanvasStore.ts:174 | writing a property changes that attribute only; on a textbox a font property sets its family or size, and on any other object it has no effect |
| `Store.FindType` | src/store/useCanvasStore.ts:156-157 | the first child with the type tag, or none when no child has it |
| `Store.FindTypeByTags` | src/store/useCanvasStore.ts:156-157 | the search depends only on the children's type tags |
| `Store.FilledChildren` | src/store/useCanvasStore.ts:168-170 | every child except a line takes the fill, in place and in order |
| `Store.FillChildren` | src/store/useCanvasStore.ts:168-170 | the children loop computes `FilledChildren` |
| `Store.Restyled` | src/store/useCanvasStore.ts:146-181 | a restyle keeps the identity, tag, type, position and origin |
| `Store.StrokeOnly` | src/store/useCanvasStore.ts:151 | holds exactly for a line and for a path tagged `arrow` |
| `Store.StrokeOnlyIgnoresFill` | src/store/useCanvasStore.ts:151-154 | a line or an arrow path ignores fill and font changes |
| `Store.StrokeOnlyTakesStroke` | src/store/useCanvasStore.ts:151-154 | a line or an arrow path takes stroke, stroke width and opacity directly |
| `Store.PlainShapeTakesProperty` | src/store/useCanvasStore.ts:172-175 | any other non-group object takes the property directly |
| `Store.ArrowGroupStroke` | src/store/useCanvasStore.ts:158-160 | in an arrow group the first line takes the stroke and the first triangle's fill follows it; nothing else changes |
| `Store.ArrowGroupStrokeWidth` | src/store/useCanvasStore.ts:161-162 | in an arrow group only the first line's width changes |
| `Store.ArrowGroupOpacity` | src/store/useCanvasStore.ts:163-165 | the group's own opacity changes and no child changes |
| `Store.ArrowGroupFill` | src/store/useCanvasStore.ts:166-170 | every non-line child takes the fill and lines keep theirs |
| `Store.StrokeCouples` | src/store/useCanvasStore.ts:158-160 | after a stroke change the arrowhead's fill equals the line's stroke |
| `Store.RestyleKeepsCoupling` | src/store/useCanvasStore.ts:158-170 | every change except a fill keeps that coupling |
| `Store.FillUncouples` | src/store/useCanvasStore.ts:166-170 | a concrete arrow group whose fill change breaks the coupling |
| `Store.RemoveEach` | src/store/useCanvasStore.ts:274-276 | the delete loop removes exactly the listed objects and keeps the rest in order |
| `Store.CanvasStore.DeleteSelected` | src/store/useCanvasStore.ts:267-282 | with an active selection, exactly the active objects are removed, the canvas and store selections are cleared and one snapshot is recorded and written to the durable entries; otherwise nothing changes |
| `Store.CanvasStore.LoadFromStorage` | src/store/useCanvasStore.ts:245-265 | the stored scene is restored with nothing active and the store's selection dropped, the store's background becomes the stored one when set and stays otherwise, then the live scene is snapshotted and written back; without a stored scene only the snapshot happens and the canvas is untouched |
| `Store.CanvasStore.SetCanvas` | src/store/useCanvasStore.ts:53-57 | attaches the canvas and does what `LoadFromStorage` does on it: the stored scene is restored with nothing active and no selection, the background follows the stored one, and the live scene is recorded and written back |
| `Shapes.Place` | src/utils/shapes.ts:16-18 | the object is appended under a fresh identity and becomes the only active object; background, size and viewport are untouched |
| `Shapes.LineAt` | src/utils/shapes.ts:57-69 | the default line is horizontal, 200 long, with its midpoint on the given point |
| `Shapes.ArrowAt` | src/utils/shapes.ts:72-91 | a 200-long horizontal shaft, with two wings from the tip going 18 back and 9 to either side |
| `Shapes.StarPoints` | src/utils/shapes.ts:100-107 | ten vertices at angles pi/5 * i, with radius 80 at even indices and 40 at odd ones |
| `Shapes.HexagonPoints` | src/utils/shapes.ts:151-157 | six vertices of radius 80 at angles pi/3 * i |
| `Shapes.CreateRect` | src/utils/shapes.ts:4-19 | a centred 200x150 rectangle with the common style is placed and made active; the canvas's size, background and viewport are kept |
| `Shapes.CreateCircle` | src/utils/shapes.ts:22-36 | a centred circle of radius 80 is placed and made active; the canvas's size, background and viewport are kept |
| `Shapes.CreateTriangle` | src/utils/shapes.ts:39-54 | a centred 150x150 triangle is placed and made active; the canvas's size, background and viewport are kept |
| `Shapes.CreateLine` | src/utils/shapes.ts:57-69 | the default line is placed and made active, keeping the library's fill; the canvas's size, background and viewport are kept |
| `Shapes.CreateArrow` | src/utils/shapes.ts:72-91 | the default arrow path is placed with the tag `arrow` and made active; the canvas's size, background and viewport are kept |
| `Shapes.CreateStar` | src/utils/shapes.ts:94-122 | a centred 10-vertex star is placed and made active; the canvas's size, background and viewport are kept |
| `Shapes.CreateHeart` | src/utils/shapes.ts:125-143 | the heart outline is placed at scale 2 and made active; the canvas's size, background and viewport are kept |
| `Shapes.CreateHexagon` | src/utils/shapes.ts:146-172 | a centred 6-vertex hexagon is placed and made active; the canvas's size, background and viewport are kept |
| `Editor.DragBox` | src/components/CanvasEditor.tsx:209-212 | the box has non-negative size and spans exactly the two drag points on each axis |
| `Editor.DragBoxSymmetric` | src/components/CanvasEditor.tsx:211-212 | the box does not depend on the drag's direction |
| `Editor.TempShape` | src/components/CanvasEditor.tsx:144-165 | each drag tool starts an empty, outlined, top-left-anchored shape at the pointer; line and arrow start a zero-length line |
| `Editor.Resized` | src/components/CanvasEditor.tsx:213-234 | per tool: a rectangle or triangle takes the drag box's corner, width and height, an ellipse takes the box's corner and half its size as radii, and a line takes the pointer as its second end point; identity, type, origin, style, opacity, tag and scale are kept |
| `Editor.LatestMoveWins` | src/components/CanvasEditor.tsx:206-236 | only the latest pointer position matters while dragging |
| `Editor.MoveToStartIsEmpty` | src/components/CanvasEditor.tsx:206-236 | moving back to the press point restores the empty temporary shape |
| `Editor.ArrowPath` | src/components/CanvasEditor.tsx:247-253 | the arrow path has a shaft from the press point to the release point, and two wings drawn from the release point |
| `Editor.WingTips` | src/components/CanvasEditor.tsx:250-253 | the wing tips sit 18 back along the direction and 9 to either side |
| `Editor.WingGeometry` | src/components/CanvasEditor.tsx:247-253 | for a unit direction, each wing has squared length 405, the wings are symmetric about the shaft, and their tips are 18 apart |
| `Editor.HorizontalArrowExample` | src/components/CanvasEditor.tsx:247-253 | a horizontal drag from (0,0) to (100,0) gives wing tips (82,9) and (82,-9) |
| `Editor.DragArrow` | src/components/CanvasEditor.tsx:254 | the drawn arrow is an untagged path of `ArrowPath`, with a transparent fill and a black stroke of width 2 |
| `Editor.DragArrowMatchesDefault` | src/components/CanvasEditor.tsx:253 | a horizontal drag draws the default arrow's commands with its two wings swapped |
| `Editor.DragArrowTakesFill` | src/components/CanvasEditor.tsx:254 | a drawn arrow has no `arrow` tag, so a fill change applies to it, unlike the default arrow |
| `Editor.OrOne` | src/components/CanvasEditor.tsx:190-191 | a zero image size reads as 1, any other size as itself, and the result is never zero |
| `Editor.CoverScale` | src/components/CanvasEditor.tsx:190-192 | the scaled image covers the canvas on both axes and fits it exactly on one |
| `Editor.CoverImage` | src/components/CanvasEditor.tsx:188-196 | the image is centred on the canvas, both scales equal `CoverScale` of the canvas and image sizes, and it takes the library's default fill with no stroke |
| `Editor.ImageCoversCanvas` | src/components/CanvasEditor.tsx:188-196 | the placed image's bounding box contains the whole canvas |
| `Editor.NudgeStep` | src/components/CanvasEditor.tsx:293 | the step is 10 exactly with Shift held and 1 otherwise |
| `Editor.NudgeDelta` | src/components/CanvasEditor.tsx:299-306 | exactly one axis moves, by the step (10 with Shift, 1 otherwise), in the key's direction |
| `Editor.OppositeCancels` | src/components/CanvasEditor.tsx:299-306 | the opposite key moves by the negated delta |
| `Editor.Nudged` | src/components/CanvasEditor.tsx:297-307 | a line moves both end points and any other object moves its position, with every style kept |
| `Editor.NudgeThenOpposite` | src/components/CanvasEditor.tsx:290-313 | a nudge followed by the opposite nudge restores the object |
| `Editor.CreateAt` | src/components/CanvasEditor.tsx:166-178 | each click tool places its own shape at the pointer (`ClickShape`): the star's ten vertices, the heart path at scale 2, or the hexagon's six vertices, with the common style; the canvas's size, background and viewport are kept |
| `Editor.FinishArrow` | src/components/CanvasEditor.tsx:254-257 | the arrow is added under a fresh identity, the temporary line is removed, and the arrow is the only active object; the canvas's size, background and viewport are kept |
| `Editor.Drawing.constructor` | src/components/CanvasEditor.tsx:132 | the drawing state starts with no tool, origin (0,0) and no temporary object |
| `Editor.Drawing.MouseDown` | src/components/CanvasEditor.tsx:134-204 | a drag tool starts its temporary shape at the pointer; a click tool places exactly its own shape (`ClickShape`) at the pointer and clears the pending tool; otherwise a pending image is requested for decoding; the history and the canvas's size, background and viewport are untouched |
| `Editor.Drawing.MouseMove` | src/components/CanvasEditor.tsx:206-236 | while dragging, the temporary object becomes `Resized(temp, tool, start, pointer)`; otherwise nothing changes |
| `Editor.Drawing.MouseUp` | src/components/CanvasEditor.tsx:238-268 | an arrow drag replaces the temporary line by the arrow path; every drag ends with the state cleared, the pending tool cleared and one snapshot, which is also written to the durable entries; the canvas's size, background and viewport are kept |
| `Editor.Drawing.ImageLoaded` | src/components/CanvasEditor.tsx:186-202 | the decoded image is added as the cover-scaled active object, one snapshot is recorded and written to the durable entries, and the pending URL is cleared; the canvas's size, background and viewport are kept |
| `Editor.Drawing.Nudge` | src/components/CanvasEditor.tsx:290-313 | the active object becomes `Nudged` by the key's delta, is selected in the store, and one snapshot is recorded and written to the durable entries; without an active object nothing changes |
| `StyleEditor.PanelFor` | src/components/ShapeStyleEditor.tsx:6-8 | the panel is hidden exactly when nothing is selected or the selection is a textbox |
| `StyleEditor.IsLine` | src/components/ShapeStyleEditor.tsx:11 | holds exactly for a line |
| `StyleEditor.IsArrowGroup` | src/components/ShapeStyleEditor.tsx:12 | holds exactly for a group with some line child |
| `StyleEditor.IsArrowPath` | src/components/ShapeStyleEditor.tsx:13 | holds exactly for a path tagged `arrow`; with `IsLine` it covers exactly the store's stroke-only objects |
| `StyleEditor.CurrentLine` | src/components/ShapeStyleEditor.tsx:26 | a line child is found exactly for arrow groups |
| `StyleEditor.CurrentFill` | src/components/ShapeStyleEditor.tsx:27 | no fill is shown exactly for lines and arrow groups; otherwise the fill is shown, or `transparent` when it is unset |
| `StyleEditor.CurrentStroke` | src/components/ShapeStyleEditor.tsx:28 | never empty; for an arrow group the line child's stroke, for any other object its own stroke, and black when that is unset |
| `StyleEditor.CurrentStrokeWidth` | src/components/ShapeStyleEditor.tsx:29 | never zero; for an arrow group the line child's width, for any other object its own width, and 2 when that is zero |
| `StyleEditor.StrokeControlsMatchStore` | src/components/ShapeStyleEditor.tsx:34-124 | stroke-only controls are shown exactly for the objects the store styles stroke-only, plus arrow groups |
| `StyleEditor.RestyleKeepsTags` | src/store/useCanvasStore.ts:155-171 | a style change on a group keeps it a group with the same children's type tags, position by position |
| `StyleEditor.RestyleKeepsArrowGroup` | src/components/ShapeStyleEditor.tsx:11-13 | a restyle keeps an arrow group an arrow group, with the same line child |
| `StyleEditor.StrokeRoundTrip` | src/components/ShapeStyleEditor.tsx:18-20 | a non-empty stroke written through the store reads back as written |
| `StyleEditor.StrokeWidthRoundTrip` | src/components/ShapeStyleEditor.tsx:21-23 | a stroke width reads back as written, or as 2 when it is zero |
| `StyleEditor.FillRoundTrip` | src/components/ShapeStyleEditor.tsx:15-17 | a non-empty fill on a non-group object with full controls reads back as written |
| `StyleEditor.OpacityKeepsDisplay` | src/components/ShapeStyleEditor.tsx:26-29 | an opacity change leaves the displayed fill, stroke and width as they were |
| `Export.DecimalString` | src/components/ExportButton.tsx:13-16 | decimal digits without a leading zero, one digit exactly below 10 |
| `Export.ParseDecimalString` | src/components/ExportButton.tsx:13-16 | the digits read back as the number |
| `Export.FourDigits` | src/components/ExportButton.tsx:12 | years 1000 to 9999 take four characters |
| `Export.IntString` | src/components/ExportButton.tsx:17 | a non-negative number as its digits; a negative one starts with `-` |
| `Export.Repeat` | src/components/ExportButton.tsx:13-16 | `k` copies of the pad character |
| `Export.PadStartPads` | src/components/ExportButton.tsx:13-16 | `padStart` keeps a long enough string; a shorter one gets exactly enough pad characters in front to reach the length |
| `Export.TwoDigitsRoundTrip` | src/components/ExportButton.tsx:13-16 | a field below 100 pads to exactly two digits, with a leading 0 below 10, and reads back as itself; a larger field is written in full |
| `Export.Split` | src/components/ExportButton.tsx:17 | a concatenation splits back into its two parts |
| `Export.Stamp` | src/components/ExportButton.tsx:11-17 | the time stamp has at least 10 characters: the year, four padded fields and the `_` |
| `Export.FileName` | src/components/ExportButton.tsx:17 | the name starts with `covermaker_`, ends with `.png` and has at least 25 characters |
| `Export.Layout` | src/components/ExportButton.tsx:17 | in a name built from a four-character year and two-character fields, each field sits at its fixed position |
| `Export.FileNameRoundTrip` | src/components/ExportButton.tsx:11-17 | for a four-digit year and in-range fields, the name has 28 characters and every field, with the month counted from 1, reads back from it |
| `Export.HandleExport` | src/components/ExportButton.tsx:7-41 | without a canvas nothing happens; otherwise the raster is the store's size at multiplier 1 under the identity transform, the previous transform (or the identity) is put back; only the viewport is written, so the scene, selection, size and the store's validity are unchanged |

## Left out

- The browser's durable key-value store is modelled as two fields of the
  store: `storedCanvas`, an `Option` that is `None` for a missing entry, and
  `storedBackground`, where "" stands for a missing entry.
- Rendering, `setCoords`, `requestRenderAll` and the JSON string form of a
  snapshot are not modelled. A snapshot is the `Scene` value itself.
- `loadFromJSON` is asynchronous in the library. Here it completes at once,
  so a store operation's callback runs before the operation returns.
- Image decoding (`fabric.Image.fromURL`) is split in two. `MouseDown`
  returns the URL to decode, and `ImageLoaded` is the callback with the
  decoded size. A failed decode is not modelled.
- The saves triggered by library events are not modelled, because they
  depend on timers and library internals: `object:added` after 100 ms,
  `object:removed`, `object:modified`, and the selection events that sync
  the selected object. So adding or removing an object records only the
  snapshots the handlers take explicitly.
- `selection:cleared` (src/components/CanvasEditor.tsx:122-124) is modelled
  in one place only. Loading a snapshot clears the canvas, and the library
  fires that event when something was active. `Undo`, `Redo`,
  `LoadFromStorage` and `SetCanvas` drop the store's selection in every
  case. The outcome differs only when the store holds a selection while
  nothing is active on the canvas, which the editor's selection events
  otherwise rule out.
- The fit-to-view preview scaling, the gradient background and the
  `previewMode` field are not modelled. They are display only.
- The keyboard wiring is not modelled. This covers key decoding, the check
  that focus is not in an input, and the Delete, Ctrl+Z and Ctrl+Y bindings
  to the store operations.
- Trigonometry (atan2, sin, cos, pi) is abstracted. The arrow direction is a
  unit vector given by the caller (`IsDragDirection`), and polygon vertices
  are polar values.
- The clock, PNG encoding and the download link are not modelled. The time
  is a parameter, and the raster is a description of the request.
- A selected, active or temporary object that is no longer on the canvas
  is treated as absent, so the operation on it does nothing.
- `Editor.Nudged` and `Editor.Resized` change a line's end points but do
  not recompute the line's `left`/`top`, which the library derives from
  them.
- `Editor.DragArrow` leaves the path's `left`/`top` at the library default
  0. It does not model the bounding box the library computes from the path.
- `Editor.Drawing.Nudge` handles one active object. Nudging a multi-object
  selection is not modelled.
- Font properties reach only textboxes. Their effect on other objects, and
  any style key other than fill, stroke, stroke width, opacity, font family
  and font size, is not modelled.
- NaN, for example from `parseInt` on an empty width field, is not modelled.
- `Export.FileNameRoundTrip` is stated only for years 1000 to 9999. Other
  years still get a name, but it does not have the fixed 28-character
  layout.
- `SceneGraph.Canvas.Remove` removes by identity, where the library compares
  object references.
- The editor's setup is not modelled: creating the library canvas and
  syncing its size and background from the store (src/components/CanvasEditor.tsx:44-55).
  In the program this setup re-runs whenever the store's canvas width,
  height, background colour or preview mode changes
  (src/components/CanvasEditor.tsx:340). It builds a new canvas and calls
  `setCanvas`, which loads storage and takes a snapshot. The model leaves
  out these re-runs and the effects that follow from them:
  - `Store.CanvasStore.SetBackgroundColor` and `Store.CanvasStore.SetCanvasSize`
    do not record the second snapshot the program takes when the value
    changes.
  - `Store.CanvasStore.NewCanvas` ends with one entry and no undo. When the
    size or colour changes, the program ends with two identical entries and
    undo enabled.
  - `Store.CanvasStore.Undo` and `Store.CanvasStore.Redo` leave out what
    happens when the loaded snapshot carries a different background. The
    program then reloads the stored scene, which undo and redo never write,
    records it, and so discards the redo branch.
- The colour inputs' display mapping of unset or non-hex colours is not
  modelled.
