# Kitchen drawing: rectangle groups and the configuration toggles

A verified Dafny model of the logic inside `app.js` of the kitchen-drawing page. The page lets a
user add rectangles of a given width and height (in mm) to a Paper.js canvas, drag them, and
switch two settings: snapping (a flag only) and the display of measurements.

The model has three modules:

- `Geometry` (`geometry.dfy`): points and axis-aligned rectangles over reals, with the derived
  edges, centre and edge midpoints.
- `Scene` (`scene.dfy`): the items of the active layer. An item is a rectangle path or a
  text label. A layer child is either a group of items or a lone item. The module also holds
  the group that `createRectangle` builds (`NewGroup`), moving a group (`TranslateAll`), the
  measurement sweep (`SweepLayer`), the invariant every group keeps under the modelled handlers (`MeasuredGroup`), the
  lemmas about them, and the `Layer` class whose `children` sequence the handlers change.
- `App` (`app.dfy`): the result of `Number(...)` (`NaN` or a number) and JavaScript's
  comparison on it, the `config` record as the class `Config`, and the handlers
  `CreateRectangle`, `DragGroup`, `ToggleSnap` and `ToggleMeasure`. The predicates `IsNaN` and
  `LessOrEqual` define the JavaScript primitives that the guard at app.js:23 uses; they model
  no code of the page on their own, and the guard's meaning is proved once, by `Rejects`. The inner label loop of
  `ToggleMeasure` is the method `SetLabelVisibility`.

Paper.js objects are modelled as values. A group is its sequence of members. A label is
its anchor point, a caption (number and the suffix `" mm"`) and a visible flag. A rectangle
path is its bounds and a visible flag. The view centre `paper.view.center` is a parameter of
`CreateRectangle`, read when it is called.

In the code, a new rectangle's labels are always created visible, also when the measurements
have been hidden with the button. So "every label is visible exactly when `measureEnabled`"
is not an invariant of the page. It holds right after `ToggleMeasure` (its ensures
`LabelsMatch`). Pressing the button twice always restores the flag and leaves every label
with the old flag, but it gives back the original scene only when the labels matched the
flag beforehand (`ToggleMeasureTwice`).

## Model

| member | source | states |
|---|---|---|
| `Geometry.CenteredRect` | app.js:29-37 | the rectangle built from `center - size/2` and the size has centre `center` and edges at `center ± size/2` |
| `Geometry.CenteredRectUnique` | app.js:29-37 | every rectangle is the one built from its own centre and size |
| `Geometry.Rect.Translate` | app.js:73-75 | a moved rectangle keeps its size; its centre and edge midpoints move by the delta |
| `Scene.Item.Translate` | app.js:73-75 | a moved item's anchor moves by the delta; its kind, visibility, size and caption are kept |
| `Scene.NewGroup` | app.js:29-70 | the group is [rectangle, width label, height label]; the rectangle is centred on the view centre with size (w, h); the width label is 10 above the top-edge midpoint and shows w " mm"; the height label is 10 right of the right-edge midpoint and shows h " mm"; all three are visible; for positive sizes the group is measured |
| `Scene.MeasuredGroupIsNewGroup` | app.js:29-70 | any group with the measured shape equals the group built for its rectangle's centre and size, up to label visibility |
| `Scene.TranslateAll` | app.js:73-75 | dragging a group moves the anchor of every member by the same delta |
| `Scene.TranslateKeepsMeasured` | app.js:53-75 | a dragged measured group is still measured: same size, same label offsets and captions |
| `Scene.TranslateNewGroup` | app.js:29-75 | dragging the group built at centre c by d gives the group built at c + d |
| `Scene.TranslateKeepsOffsets` | app.js:73-75 | a drag keeps the relative positions of all members and their visibility |
| `Scene.TranslateInverse` | app.js:73-75 | a drag by d then by -d restores the group |
| `Scene.TranslateCompose` | app.js:73-75 | two drags in a row equal one drag by the sum of the deltas |
| `Scene.DragKeepsAllMeasured` | app.js:73-75 | replacing a group by its dragged copy keeps every group of the layer measured |
| `Scene.AppendKeepsAllMeasured` | app.js:53-70 | appending a new group of positive size keeps every group of the layer measured |
| `Scene.Item.WithLabelVisibility` | app.js:102-104 | a label member takes the flag as its visibility and keeps its position and caption; a rectangle member is returned unchanged |
| `Scene.LabelsSetTo` | app.js:101-105 | the members of a group after the inner loop: same length; each label keeps kind, position and caption and takes the flag; every other member is unchanged |
| `Scene.SweepChild` | app.js:100-106 | a group remains a group with as many members; a layer child that is not a group is returned unchanged |
| `Scene.SweepLayer` | app.js:99-107 | the layer after the outer loop keeps its length and the kind of every child, and leaves every child that is not a group unchanged |
| `Scene.SweepSetsLabels` | app.js:99-107 | after the sweep, every label inside a group has visibility equal to the flag |
| `Scene.SweepChangesOnlyLabelVisibility` | app.js:99-107 | the sweep keeps the layer's length and child kinds, leaves lone items and rectangles unchanged, keeps every member's kind and position, and changes labels only in their visible flag |
| `Scene.SweepKeepsAllMeasured` | app.js:99-107 | the sweep keeps every group measured |
| `Scene.SweepInSyncIsIdentity` | app.js:99-107 | a sweep changes nothing when the labels already match the flag |
| `Scene.SweepIdempotent` | app.js:99-107 | sweeping twice with one flag equals sweeping once |
| `Scene.SweepLastWins` | app.js:95-107 | of two sweeps in a row only the second flag matters |
| `Scene.Layer.constructor` | app.js:3 | the layer starts empty and valid |
| `App.Rejects` | app.js:20-26 | the guard, written with NaN-aware JavaScript comparisons, refuses its input exactly when a dimension is NaN or not positive |
| `App.NaNPassesComparisons` | app.js:23 | for a positive height, the guard's two `<= 0` comparisons are both false when the width is NaN, so only the `isNaN` tests make the guard reject it |
| `App.Config.constructor` | app.js:6-11 | the page starts with snapping off and measurements shown |
| `App.CreateRectangle` | app.js:16-80 | accepted exactly when both dimensions are positive numbers; rejection leaves the layer unchanged; acceptance appends exactly one `NewGroup` for the view centre and keeps the other children; the layer invariant is kept |
| `App.DragGroup` | app.js:73-75 | the dragged group is replaced by its translation by the delta; every other child is unchanged; the layer invariant is kept |
| `App.ToggleSnap` | app.js:90-93 | `snapEnabled` is negated and `measureEnabled` kept; the layer is not touched |
| `App.SetLabelVisibility` | app.js:101-105 | every label of the group gets the flag as visibility; every other member is unchanged; the length is kept |
| `App.ToggleMeasure` | app.js:95-108 | `measureEnabled` is negated and `snapEnabled` kept; the layer becomes its sweep with the new flag, so every label in a group shows the new flag and nothing else changes; the layer invariant is kept |
| `App.ToggleSnapTwice` | app.js:90-93 | pressing the snap button twice restores the configuration |
| `App.ToggleMeasureTwice` | app.js:95-108 | pressing the measurement button twice, from any state, restores both flags and gives the layer swept with the old flag, so every label shows the old flag; when the labels matched the flag beforehand, the layer is restored exactly |

## Left out

- Paper.js setup, `paper.view.draw`/`update`, `window.onresize` and all styling (colours, stroke width, font size, justification): rendering in a library whose code is not part of this model.
- DOM wiring (`getElementById`, `addEventListener`, reading the input fields), the button captions, `alert` and `console.log`: page I/O. The alert is the `false` result of `CreateRectangle`.
- JavaScript `Number()` string parsing: its result is a parameter of type `Number` (NaN or a real). `Infinity` is not modelled. The text of a caption is modelled as the number and the suffix, not as JavaScript's number-to-string conversion.
- IEEE floating point: the halving and the label offsets are computed over reals.
- `App.DragGroup`: Paper.js sets a group's `position` (the centre of its bounds, which depend on text metrics) and moves every child by the difference; the model moves every member by the delta directly.
- The rectangle's own `onMouseDrag` (app.js:48-50) and `onMouseDown` log: how it combines with the group's handler depends on Paper.js event propagation, which is not part of this model. So `Layer.Valid()` and `MeasuredGroup` are proved kept only for drags that move a group as a whole; a drag that also ran the rectangle's handler would move the rectangle away from its labels.
- The config fields `snapDistance` and `scale`: nothing reads them.
- Paper.js items are objects that could be shared. The model holds them as values, so aliasing of items between groups is not captured.
