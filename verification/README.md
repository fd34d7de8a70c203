# Annotation canvas session, modelled in Dafny

This project models the annotation-authoring core of an image annotation
tool: the `AnnotationCanvas` component, where a user draws rectangles
(press, drag, release) or polygons (click vertices, then complete), gives
each finished shape a label in a dialog, and can undo, clear, summarise the
labels and export the shapes.

The component's state hooks become one immutable `Session.State` record
(`tool`, `boxes`, `newBox`, `newPolygon`, `annotations`, `idCounter`,
`isModalOpen`, `labelInput`, `pendingShape`), and each event handler becomes
a pure transition function on it. `Machine.Step` dispatches user events to
those handlers as the rendered interface allows. While the label dialog is
open, its full-screen overlay takes every mouse event, so the drawing stage
sees nothing; the toolbar buttons stay in the tab order and still respond
to the keyboard. The dialog's field and buttons exist only while it is
open, and disabled toolbar buttons ignore activation. `Machine.Inv` is the invariant
of every reachable state.

Files:
- `wrappers.dfy`: `Option`, for the component's `null`s.
- `geometry.dfy`: pointer points, the dragged rectangle, pending geometry, and polygon bounding boxes (`Math.min`/`Math.max`).
- `labels.dfy`: JavaScript `trim`, the blank-label test, and the per-label counting of `getLabelSummary`.
- `shapes.dfy`: committed shapes, the export payload and the label summary over shapes.
- `session.dfy`: the state record and one transition per handler.
- `machine.dfy`: event dispatch, runs of events, the reachable-state invariant, and lemmas about ids and undo.
- `tally.dfy`: the label count as written, into a plain object that inherits `Object.prototype`, and how it departs from the intended count.
- `scenarios.dfy`: concrete sessions (a rectangle, a triangle, a too-short polygon, a label summary, clear after cancel).

Representation choices:
- Coordinates are integers counting hundredths of a canvas pixel. On that grid `toFixed(2)` is the identity, so a stored coordinate equals the pointer coordinate it came from.
- A shape's id is the counter value before `idCounter.toString()`. `toString` is injective on positive integers, so uniqueness carries over to the string ids. Order does not: as strings `"10"` sorts before `"9"`, so "increasing ids" means increasing as numbers (`Number(id)`).
- `label` is a Dafny keyword, so the label of a `Shape` and of a summary `Entry` is the field `name`.
- A shape's geometry is an `Option`. `{ id, label, ...pendingShape }` with a `null` pending shape adds no geometry fields. `Machine.Inv` shows that this never happens through the interface.

Behaviours of the code kept as written:
- A rectangle dragged up or left keeps its negative width or height; nothing normalises it (`Machine.DragGesture`).
- Undo removes a polygon vertex only while the polygon tool is selected. With the rectangle tool it removes the last shape even if vertices are placed, and it does nothing if no shapes exist (`Session.Undo`, `Machine.UndoOneUnit`).
- Cancel only closes the dialog; the pending shape stays (`Session.Cancel`).
- Clear resets neither the id counter nor the pending shape, dialog, tool or label field (`Session.Clear`, `Scenarios.ClearKeepsPendingScenario`).
- The stored label is the text as typed; only the emptiness test trims it (`Session.SaveShape`).
- Switching tools abandons nothing; a polygon in progress survives a switch to the rectangle tool (`Session.SetTool`).
- The overlay blocks the mouse, not the keyboard. While the label dialog is open, Shift+Tab from the label field reaches the toolbar, and Undo, Clear, the tool buttons, Complete and Export still act; the dialog stays open (`Machine.Enabled`, `Machine.DialogClosesOnlyItself`). Undo, Clear, the tool buttons and Export keep the pending shape (`Machine.UndoDuringDialog`). Complete, enabled whenever at least 3 vertices are placed, replaces it with the polygon's box: vertices placed before switching to the rectangle tool, then a drag, then Complete from the keyboard discard the dragged rectangle (`Machine.CompleteDuringDialog`).
- Labels are counted into a plain object, so a label naming an `Object.prototype` member is miscounted; the model keeps the intended count and records the code's behaviour under "Findings" (`Tally.ObjectSummary`).

## Model

| member | source | states |
|---|---|---|
| Session.Init | src/components/AnnotationCanvas.jsx:18-27 | A fresh component has the rectangle tool, no shapes, no drag, no vertices, no shown payload, id counter 1, a closed dialog, an empty label field and no pending shape |
| Session.SetTool | src/components/AnnotationCanvas.jsx:170-181 | The tool buttons change the tool and nothing else |
| Session.SetLabelInput | src/components/AnnotationCanvas.jsx:335 | Typing replaces the label field and nothing else |
| Machine.Step | src/components/AnnotationCanvas.jsx:29-150 | Definition, no contract: an event runs its handler (`Machine.Handle`: the mouse handlers, `handlePolygonComplete`, `saveShape`, `undoLastAction`, `exportAnnotations`, `clearAnnotations`, and the tool, label-field and Cancel setters) when `Machine.Enabled` lets it through, and leaves the state unchanged otherwise |
| Machine.Enabled | src/components/AnnotationCanvas.jsx:195-211 | Which controls can raise an event: Complete only with at least 3 vertices, Undo only with a shape or a vertex, Export only with a shape, the stage only without the overlay, the dialog's field and buttons only while it is open; the toolbar otherwise always |
| Machine.OverlayBlocksStage | src/components/AnnotationCanvas.jsx:328-329 | While the dialog is open no press, move or release on the stage changes anything |
| Machine.DialogClosesOnlyItself | src/components/AnnotationCanvas.jsx:328-355 | An open dialog closes only through its own Save or Cancel, whatever toolbar button is activated meanwhile |
| Machine.CompleteDuringDialog | src/components/AnnotationCanvas.jsx:63-84 | Complete reached by the keyboard while the dialog is open (its `disabled` at :195 looks only at the vertex count) makes the polygon's box the pending shape, discarding a pending rectangle; the dialog stays open, the vertices are cleared and the shapes are unchanged |
| Machine.UndoDuringDialog | src/components/AnnotationCanvas.jsx:102-110 | Undo reached by the keyboard while the dialog is open drops the last shape and keeps the dialog, the pending shape and the counter |
| Session.MouseDown | src/components/AnnotationCanvas.jsx:29-37 | Rectangle tool: a zero-size rectangle at the pointer. Polygon tool: exactly one vertex appended at the end, earlier vertices kept in order. Nothing else changes |
| Geometry.DragTo | src/components/AnnotationCanvas.jsx:42-46 | Dragging keeps the rectangle's origin and puts its far corner at the pointer |
| Session.MouseMove | src/components/AnnotationCanvas.jsx:39-48 | With the rectangle tool and a drag under way, width and height become pointer minus origin, origin kept; otherwise no change |
| Session.MouseUp | src/components/AnnotationCanvas.jsx:50-61 | The dragged rectangle becomes the pending shape unnormalised and without vertices, the dialog opens and the drag ends; without a drag nothing changes |
| Machine.DragGesture | src/components/AnnotationCanvas.jsx:32-60 | Press at p, move to q, release: the pending shape starts at p and its far corner is q, whatever the direction |
| Geometry.Min | src/components/AnnotationCanvas.jsx:68-69 | `Math.min` of a non-empty list is one of its elements and no element is smaller |
| Geometry.Max | src/components/AnnotationCanvas.jsx:70-71 | `Math.max` of a non-empty list is one of its elements and no element is larger |
| Geometry.PolygonBox | src/components/AnnotationCanvas.jsx:65-79 | The pending polygon keeps its vertices in click order; its box has non-negative size, contains every vertex and touches a vertex on each side |
| Geometry.BoundingBoxUnique | src/components/AnnotationCanvas.jsx:66-71 | Two boxes that both enclose the vertices and touch them on all four sides are the same box, so the min/max box is determined by that description alone |
| Geometry.BoxOf | src/components/AnnotationCanvas.jsx:65-79 | Any geometry that carries the vertices, encloses them and touches them on all four sides is exactly the one `handlePolygonComplete` builds |
| Session.CompletePolygon | src/components/AnnotationCanvas.jsx:63-85 | Fewer than 3 vertices: warning and no change at all. Otherwise: the bounding box with the vertices becomes the pending shape, the dialog opens, the vertices are cleared, nothing else changes |
| Labels.TrimStart | src/components/AnnotationCanvas.jsx:88 | The result is the suffix of the input from its first non-whitespace character; everything dropped is whitespace |
| Labels.TrimEnd | src/components/AnnotationCanvas.jsx:88 | The result is the prefix of the input up to its last non-whitespace character; everything dropped is whitespace |
| Labels.BlankIffAllWhitespace | src/components/AnnotationCanvas.jsx:88 | A label is refused exactly when all of its characters are whitespace, the empty label included |
| Session.SaveShape | src/components/AnnotationCanvas.jsx:87-100 | Blank label: warning, and shapes, counter, pending shape and everything else unchanged. Otherwise: exactly one shape appended with id = counter, the untrimmed label and the pending geometry; earlier shapes unchanged; counter + 1; pending shape, dialog and label field reset |
| Session.Cancel | src/components/AnnotationCanvas.jsx:341 | Cancel closes the dialog and keeps the pending shape and everything else |
| Session.Undo | src/components/AnnotationCanvas.jsx:102-110 | Polygon tool with vertices: only the last vertex is dropped. Otherwise, with shapes: only the last shape is dropped. Otherwise no change. The id counter is never touched |
| Machine.UndoOneUnit | src/components/AnnotationCanvas.jsx:102-110 | Undo removes exactly one vertex or one shape, or is a no-op when it has nothing to remove |
| Machine.UndoVertex | src/components/AnnotationCanvas.jsx:34-35 | In the polygon tool, undo right after a click restores the state before the click exactly |
| Machine.UndoSave | src/components/AnnotationCanvas.jsx:92-108 | Undo right after a save restores the shapes but the counter stays advanced, so the removed id is not reused |
| Session.Clear | src/components/AnnotationCanvas.jsx:145-150 | Clear empties shapes, drag, vertices and the shown payload; it keeps the id counter, pending shape, dialog, tool and label field |
| Machine.ClearIdempotent | src/components/AnnotationCanvas.jsx:145-150 | Clearing twice is clearing once, and the counter survives |
| Session.ExportAnnotations | src/components/AnnotationCanvas.jsx:112-120 | The shown payload is exactly the current shapes with width 800 and height 600; nothing else changes |
| Session.ExportJson | src/components/AnnotationCanvas.jsx:130-135 | The file payload is exactly the current shapes with width 800 and height 600 |
| Shapes.BuildPayload | src/components/AnnotationCanvas.jsx:113-117 | The payload carries the shapes unchanged and the fixed 800 by 600 canvas size |
| Machine.ExportStable | src/components/AnnotationCanvas.jsx:112-135 | Exporting twice shows the same payload, and the payload depends on the shapes alone |
| Labels.BumpCount | src/components/AnnotationCanvas.jsx:153-155 | One `reduce` step adds one to the count of the label it sees and leaves every other label's count alone |
| Labels.BumpTotalKeys | src/components/AnnotationCanvas.jsx:153-155 | One `reduce` step adds one to the total and adds the label to the set of keys |
| Labels.BumpShape | src/components/AnnotationCanvas.jsx:153-155 | One `reduce` step keeps the keys distinct and the counts positive |
| Labels.SummaryDistinct | src/components/AnnotationCanvas.jsx:152-157 | The summary never lists a label twice and never lists a zero count |
| Labels.SummaryCounts | src/components/AnnotationCanvas.jsx:152-157 | The count the summary gives any label, present or not, is its number of occurrences |
| Labels.SummaryKeysTotal | src/components/AnnotationCanvas.jsx:152-157 | The summary's keys are exactly the labels that occur and its counts sum to the number of labels |
| Labels.SummaryCorrect | src/components/AnnotationCanvas.jsx:152-161 | The summary has distinct labels, exactly the labels that occur, each with its number of occurrences; the counts sum to the number of labels |
| Shapes.LabelSummary | src/components/AnnotationCanvas.jsx:152-161 | Definition, no contract: `getLabelSummary` as the intended count of the shapes' labels, one entry per label in first-occurrence order |
| Shapes.LabelSummaryCorrect | src/components/AnnotationCanvas.jsx:152-161 | Over shapes: one entry per label in use and none other, each count is the number of shapes with that label, and the counts sum to the number of shapes |
| Tally.ObjectSummary | src/components/AnnotationCanvas.jsx:153-157 | Definition, no contract: the `reduce` into a plain `{}` as written, one `ObjectBump` per label left to right, where an own property is incremented, an inherited method name gets the string of its function plus "1", and `"__proto__"` is ignored |
| Tally.ObjectSummaryAgrees | src/components/AnnotationCanvas.jsx:152-157 | When no label names an `Object.prototype` member, the count as written gives the intended summary: same labels and same numeric counts, both in first-occurrence order |
| Tally.LiftBump | src/components/AnnotationCanvas.jsx:153-155 | Off the inherited names, one `reduce` step on the plain object is one intended counting step |
| Tally.ProtoIgnored | src/components/AnnotationCanvas.jsx:153-155 | As written, a `"__proto__"` label is never counted: the summary equals the one of the labels with it removed |
| Tally.ProtoLabelLost | src/components/AnnotationCanvas.jsx:152-157 | One shape labelled `"__proto__"`: the summary as written is empty, while the intended one counts it once |
| Tally.ConstructorLabelGarbled | src/components/AnnotationCanvas.jsx:152-157 | One shape labelled `"constructor"`: the count as written is the string `"function Object() { [native code] }1"`, while the intended one is 1 |
| Machine.StoreAppend | src/components/AnnotationCanvas.jsx:92-96 | Appending a non-blank, well-formed shape whose id is the counter and advancing the counter keeps the shape list well formed |
| Machine.StepInv | src/components/AnnotationCanvas.jsx:29-150 | Every event keeps the invariant: ids in [1, counter) and strictly increasing, labels non-blank, polygon geometry a bounding box of at least 3 vertices, an open dialog always has a pending shape |
| Machine.RunInv | src/components/AnnotationCanvas.jsx:29-150 | Any sequence of events keeps the invariant |
| Machine.ReachableShapes | src/components/AnnotationCanvas.jsx:92-96 | In every state reachable from a fresh component, ids are strictly increasing (so unique), labels are non-blank and every shape has geometry |
| Machine.StepIds | src/components/AnnotationCanvas.jsx:96 | One event advances the counter by at most one, never back, and any new shape carries the old counter value |
| Machine.NoIdReissued | src/components/AnnotationCanvas.jsx:92-110 | Over any run the counter never decreases, and a shape with an id below the starting counter was already present, so ids removed by undo or clear are never issued again |
| Machine.RunAppend | src/components/AnnotationCanvas.jsx:29-150 | Running two event lists in turn equals running their concatenation |
| Scenarios.RectangleScenario | src/components/AnnotationCanvas.jsx:32-99 | Drag from (10, 10) to (110, 60) and save "cat": one shape with id 1 at (10, 10), 100 by 50 |
| Scenarios.PolygonSession | src/components/AnnotationCanvas.jsx:34-99 | Polygon tool, three clicks, complete, non-blank label, save: one shape appended with the next id, the label, the vertices and their bounding box |
| Scenarios.PolygonScenario | src/components/AnnotationCanvas.jsx:34-99 | Clicks (0, 0), (10, 0), (10, 10) saved as "poly": one shape with those vertices and the box at (0, 0), 10 by 10 |
| Scenarios.TwoVertexScenario | src/components/AnnotationCanvas.jsx:63-84 | Completing a two-vertex polygon warns and leaves both vertices and the shapes as they were |
| Scenarios.SummaryScenario | src/components/AnnotationCanvas.jsx:152-161 | Labels "cat", "dog", "cat" summarise as cat: 2, dog: 1 |
| Scenarios.ClearKeepsPendingScenario | src/components/AnnotationCanvas.jsx:145-150 | After drag, Cancel and Clear there are no shapes, but the cancelled pending rectangle is still held and the counter is still 1 |

## Left out

- Rendering: the JSX layout and the Konva stage, shapes and markers are display output only.
- Stage size: the window-dependent stage width and height read the host window. The export uses the fixed 800 by 600 anyway.
- Downloads: `saveAnnotatedImage` (canvas `toDataURL` and the link click) and the `Blob`/object-URL download of `exportJsonFile` are browser I/O. Only the payload is modelled.
- `console.log` and `alert` are not modelled as output. The two alerts are the `warning` of a `Session.Reply`.
- `JSON.stringify` formatting of the payload and of the annotations panel is a library serializer.
- Floating point: pointer positions are integers in hundredths of a pixel. The decimal strings `toFixed(2)` produces, and its rounding of other values, are not modelled.
- Shape ids are numbers, not the strings `toString` makes of them. Uniqueness holds for the strings too, but the order the invariant states is the numeric one; compared as strings, `"10"` comes before `"9"`. The counter is also taken as unbounded: as a JavaScript number it stops advancing at 2^53, where `idCounter + 1 === idCounter`, and ids would then repeat, so `Machine.NoIdReissued` and the id uniqueness of `Machine.ReachableShapes` hold of the code only below `Number.MAX_SAFE_INTEGER` saves.
- The image: `useImage`, the file upload and the clear-image button of `App.jsx` are I/O glue. Clearing the image unmounts the component, which starts again from `Session.Init`.
- React scheduling: each event is taken to see the state left by the previous one. That is how the handlers behave with one render per event.
- A mouse release outside the stage is never delivered, so the drag stays in `newBox`. The model has this as the absence of a `PointerUp` event.
- Shapes.LabelSummary: the entries come in first-occurrence order. JavaScript lists integer-like object keys (a label such as "2") first in ascending numeric order. `Shapes.LabelSummaryCorrect` states only order-free facts, so this ordering is not modelled.
- Labels.IsWhitespace: the set of characters `trim` strips is the ECMAScript WhiteSpace and LineTerminator set as of current Unicode. A future Unicode space separator would not be in it.
- Geometry.Min: `Math.min(...xs)` spreads its arguments, and an engine's argument-count limit on very long polygons is not modelled.
- Labels.BumpCount: states the intended step, counting every label from zero. For a label naming an `Object.prototype` member the code's step differs (a no-op for `"__proto__"`, a string for the others); `Tally.ObjectBump` models it, see "Findings".
- Labels.BumpTotalKeys: states the intended step. As written, a `"__proto__"` label adds neither a key nor one to the total (`Tally.ProtoIgnored`).
- Labels.BumpShape: states the intended step. As written, an inherited method name such as `"constructor"` or `"toString"` gets a string count, not a positive number (`Tally.ConstructorLabelGarbled`).
- Labels.SummaryCounts: holds of the intended count. The code as written agrees only when no label names an `Object.prototype` member (`Tally.ObjectSummaryAgrees`).
- Labels.SummaryKeysTotal: holds of the intended count. As written, `"__proto__"` labels are missing from the keys and the total (`Tally.ProtoIgnored`).
- Labels.SummaryCorrect: holds of the intended count, with the same gap for inherited names as `Labels.SummaryCounts` and `Labels.SummaryKeysTotal`.
- Shapes.LabelSummaryCorrect: holds of the intended count. As written, each shape labelled `"__proto__"` is left out, so the counts sum to fewer than the shapes (`Tally.ProtoLabelLost`).
- Tally.NativeText: the text of a native function is engine-defined; the model uses V8's form.
- Tally.ObjectSummaryAgrees: `Object.entries` lists array-index keys ("0", "1", "2", ...) first in ascending numeric order, then the other keys in insertion order; `Tally.ObjectSummary` keeps insertion order throughout, so the order it gives, and the agreement this lemma states, match the code only when no label is an array index.

## Findings

| source | as written | input that shows it | evidently intended | confidence | as-written member | corrected member |
|---|---|---|---|---|---|---|
| src/components/AnnotationCanvas.jsx:153-156 | labels are counted into a plain `{}`; for `"__proto__"` the read finds the prototype object and the write goes to the `__proto__` setter, which ignores a string | one shape labelled `__proto__`: the summary is empty | every label counted from zero: one entry per label, counts summing to the number of shapes | high; not executed | Tally.ProtoLabelLost | Labels.SummaryCorrect |
| src/components/AnnotationCanvas.jsx:153-156 | for an inherited method name the read finds a function, and `+ 1` turns it into a string | one shape labelled `constructor`: its count is `"function Object() { [native code] }1"` | the count 1 | high; not executed | Tally.ConstructorLabelGarbled | Labels.SummaryCorrect |
