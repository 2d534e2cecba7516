# CollabCanvas drawing core, modelled in Dafny

CollabCanvas is a browser whiteboard: freehand strokes, shapes and sticky notes
on an HTML canvas, relayed between peers by a small socket server. This project
models its sequential drawing logic and proves properties of it:

- **Snapshot history and shape registry** of the `Whiteboard` component
  (`src/components/whiteboard.js`). `Whiteboard.Board<S>` is a class whose
  fields are the component state: `undoStack`, `redoStack`, `shapes`,
  `nextShapeId` and `darkMode`. It also holds the canvas's 2D context. A
  snapshot is an opaque type parameter `S`. The snapshot a step records is the
  value `canvas.toDataURL()` returns at that moment, and the caller passes it
  in. `SnapshotHistory` holds the same two stacks as a pure value, with
  `Save`, `Undo` and `Redo` as functions. The board's methods are proved
  against these functions, and the lemmas there state the stack discipline.
  `ShapeIds` models the `${shape}_${serial}` ids and the function that reads
  the serial back.
- **Style resolution and path commands** of `CanvasDrawingService`
  (`src/services/CanvasDrawingService.js`). The 2D context (`Canvas.Context2D`)
  is a class with the style fields the code writes and an append-only `log` of
  the path and paint commands issued so far. `DrawingService.ResolveStyle`
  specifies `setStyle`.
- **Shape geometry** of `drawShapeOnCanvas` (`src/utils/drawShapes.js`).
  Lines 134-183 of `whiteboard.js` repeat this code statement for statement, so
  `Board.DrawShape` calls `Shapes.DrawShapeOnCanvas`. Angles are exact
  multiples of pi (`PiTimes(m)`). A star vertex is the symbolic point
  `Polar(cx, cy, r, angle)`, which stands for
  (cx + cos(angle)·r, cy + sin(angle)·r). Cosine and sine stay uninterpreted,
  so the proofs cover the command structure, centres, radii and angles but not
  vertex coordinates.

JavaScript values map to Dafny types as follows:

- Numbers become `real`, except the shape counter `nextShapeId` and the canvas
  width and height, which become `nat`.
- Strings become `string`.
- An option that may be `undefined` becomes `Option`.
- Truthiness is written out: a string is truthy when it is present and
  non-empty, and a number when it is present and non-zero.

The defaults of a new context (`Canvas.DefaultStyle`, set by the
`Canvas.Context2D` constructor) are the HTML canvas defaults.

Behaviour of the code that the model keeps:

- Both mount effects (lines 65-75 and 99-107 of `whiteboard.js`) push a
  snapshot, and both run again when the colour mode changes. A freshly mounted
  board therefore holds two background snapshots (`Whiteboard.Mount`). The
  first stroke's snapshot is the third entry.
- The code accepts any shape name. A name its `switch` does not know adds no
  geometry but is still stroked, and filled unless it is a preview.
- A remote eraser stroke uses the receiving client's own background colour
  (line 44).
- The service's `drawShape` centres a circle at (x, y). `drawShapeOnCanvas`
  centres it at (x + radius, y + radius). `DrawingService.ServiceCircleOffset`
  records the difference.
- `arc` throws an IndexSizeError for a negative radius. A circle with a
  negative radius is then neither stroked nor filled, and `Board.DrawShape`
  neither registers it nor saves a snapshot. The drawing methods return
  `completed == false` in that case.

## Model

| member | source | states |
|---|---|---|
| `SnapshotHistory.Save` | src/components/whiteboard.js:83-88 | saving appends exactly one snapshot at the top, keeps every earlier entry and empties the redo stack |
| `SnapshotHistory.Undo` | src/components/whiteboard.js:192-208 | undo keeps the total number of snapshots. It shrinks the undo stack by one only when it holds two or more, and never empties a non-empty undo stack |
| `SnapshotHistory.Redo` | src/components/whiteboard.js:210-225 | redo keeps the total number of snapshots and grows the undo stack by one exactly when the redo stack is non-empty |
| `SnapshotHistory.UndoGuard` | src/components/whiteboard.js:193 | with at most one snapshot, undo changes neither stack and paints nothing |
| `SnapshotHistory.UndoTransfer` | src/components/whiteboard.js:196-205 | with two or more snapshots, undo moves the top entry to the top of the redo stack and shows `undoStack[len-2]`, the new top |
| `SnapshotHistory.RedoGuard` | src/components/whiteboard.js:211 | on an empty redo stack, redo changes nothing and paints nothing |
| `SnapshotHistory.RedoTransfer` | src/components/whiteboard.js:211-222 | otherwise redo moves the top redo entry onto the undo stack and shows it |
| `SnapshotHistory.UndoThenRedo` | src/components/whiteboard.js:192-225 | an undo that acts, followed by redo, restores both stacks exactly |
| `SnapshotHistory.RedoThenUndo` | src/components/whiteboard.js:192-225 | a redo that acts (non-empty redo stack) followed by undo restores both stacks when the undo stack was non-empty |
| `SnapshotHistory.SaveAfterUndoClearsRedo` | src/components/whiteboard.js:83-88 | a save after an undo leaves nothing to redo, so a later redo is a no-op |
| `SnapshotHistory.UndoIdempotentAtBase` | src/components/whiteboard.js:193 | once one snapshot is left, any number of further undos changes nothing |
| `SnapshotHistory.UndoTimesShape` | src/components/whiteboard.js:192-208 | k undos with k below the stack size pop exactly the top k snapshots and push them, newest first, onto the redo stack |
| `SnapshotHistory.UndoRedoRoundTrip` | src/components/whiteboard.js:192-225 | k undos followed by k redos restore both stacks, for every k below the undo stack size |
| `SnapshotHistory.BaseSnapshotKept` | src/components/whiteboard.js:83-225 | no sequence of saves, undos and redos empties a non-empty undo stack or changes its bottom entry |
| `SnapshotHistory.UndoRedoKeepSize` | src/components/whiteboard.js:192-225 | any sequence of undos and redos keeps the sum of the two stack lengths |
| `SnapshotHistory.FirstStrokeScenario` | src/components/whiteboard.js:83-208 | from the two background snapshots of a mounted board, saving a stroke gives three entries. Undo then shows the background and leaves the stroke alone on the redo stack; a second undo shows the first background, and a third changes nothing |
| `ShapeIds.NatToString` | src/components/whiteboard.js:133 | the decimal rendering of the counter is a non-empty string of digits |
| `ShapeIds.TrailingDigits` | src/components/whiteboard.js:133 | the trailing digit run of a string is a suffix of it and consists of digits |
| `ShapeIds.ParseNatToString` | src/components/whiteboard.js:133 | reading the decimal rendering back gives the counter value |
| `ShapeIds.TrailingDigitsAfterSeparator` | src/components/whiteboard.js:133 | after a non-digit separator, the trailing digit run is exactly the appended digits |
| `ShapeIds.IdSerialOfShapeId` | src/components/whiteboard.js:133 | an id `${shape}_${n}` starts with the shape name, and its serial reads back as n whatever the name contains |
| `ShapeIds.ShapeIdInjective` | src/components/whiteboard.js:133 | ids made from different counter values are always different |
| `Whiteboard.RegistryAppend` | src/components/whiteboard.js:185-187 | appending a shape under the current counter and advancing the counter keeps serials increasing and below the counter |
| `Whiteboard.SerialsAppend` | src/components/whiteboard.js:186 | appending a shape appends its id's serial to the list of serials |
| `Whiteboard.IncreasingBelowAppend` | src/components/whiteboard.js:186-187 | appending the counter to increasing serials below it, then advancing the counter, keeps them increasing and below the counter |
| `Whiteboard.RegistryIdsDistinct` | src/components/whiteboard.js:185-187 | in a valid registry no two placed shapes share an id |
| `Whiteboard.RemoteEraserMatchesLocal` | src/components/whiteboard.js:44 | a remote eraser stroke gets the receiver's background colour, the same colour a local eraser `setStyle` gives, whatever colour the sender chose |
| `Whiteboard.RemoteToolKeepsColour` | src/components/whiteboard.js:44 | a remote stroke with any tool but the eraser keeps the sender's colour, in either colour mode |
| `Whiteboard.Board.constructor` | src/components/whiteboard.js:25-32 | initial state: light mode, empty stacks, no shapes, counter 1 |
| `Whiteboard.Board.SaveToUndoStack` | src/components/whiteboard.js:83-88 | the history becomes `Save(old history, snapshot)`. Shapes, counter and mode are unchanged |
| `Whiteboard.Board.PaintBackground` | src/components/whiteboard.js:99-107 | the mount effect sets round caps and joins and fills (0, 0, width, height) in the background colour. It then saves exactly one snapshot and leaves the rest unchanged |
| `Whiteboard.Board.ToggleDarkMode` | src/components/whiteboard.js:109-111 | flips the mode and nothing else |
| `Whiteboard.Board.ChangeColourMode` | src/components/whiteboard.js:65-107 | a mode change flips `darkMode` and re-runs both effects. Two snapshots are pushed and the redo stack is emptied. The context gets two full-canvas fillRects, round caps and joins, and the new background as fill style; its other style fields are kept |
| `Whiteboard.Mount` | src/components/whiteboard.js:65-107 | a mounted board is in light mode with the canvas size, and holds exactly the two background snapshots, with nothing to redo, no shapes and counter 1. The context gets two full-canvas fillRects, round caps and joins, and fill style "white"; its other style fields are kept |
| `Whiteboard.Board.Undo` | src/components/whiteboard.js:192-208 | the history becomes `Undo(old history)`. The image drawn is `undoStack[len-2]` exactly when undo acts, and a clearRect of the whole canvas precedes it. Style, shapes, counter and mode are unchanged |
| `Whiteboard.Board.Redo` | src/components/whiteboard.js:210-225 | the history becomes `Redo(old history)`. The image drawn is the top redo entry exactly when redo acts, after a clearRect of the whole canvas. The rest is unchanged |
| `Whiteboard.Board.DrawShape` | src/components/whiteboard.js:130-190 | the shape is drawn as `drawShapeOnCanvas` draws it, and completes unless `arc` throws on a negative circle radius. A completed committed shape is appended with id `${shape}_${nextShapeId}`, the counter grows by one and one snapshot is saved. A preview or a thrown `arc` changes none of shapes, counter or stacks |
| `Whiteboard.TwoShapesThenUndo` | src/components/whiteboard.js:130-225 | on a fresh board two committed shapes get the ids with serials 1 and 2; undo then shows the snapshot after the first and redo the one after the second |
| `Whiteboard.Board.ClearCanvas` | src/components/whiteboard.js:227-234 | fills the whole canvas in the background colour, empties the shape list without resetting the counter, and saves exactly one snapshot |
| `DrawingService.SetStylePlainTool` | src/services/CanvasDrawingService.js:13-38 | for any tool other than eraser and highlighter, each of strokeStyle, fillStyle, lineWidth and globalAlpha takes its option when that is truthy and keeps its value otherwise. Nothing else changes |
| `DrawingService.SetStyleUntouched` | src/services/CanvasDrawingService.js:23-37 | for every tool, fillStyle follows the truthy rule, and lineCap, lineJoin and the dash pattern are never changed |
| `DrawingService.SetStyleEraser` | src/services/CanvasDrawingService.js:29-31 | the eraser's strokeStyle is `'#282c34'` in dark mode and `'white'` otherwise, whatever strokeStyle was passed |
| `DrawingService.SetStyleHighlighter` | src/services/CanvasDrawingService.js:34-37 | the highlighter sets globalAlpha to 0.5 and lineWidth to 2.5 × (the given width, or the current one when none is given) |
| `DrawingService.SetStyleIdempotent` | src/services/CanvasDrawingService.js:13-38 | with any tool but the highlighter, applying the same options twice equals applying them once |
| `DrawingService.HighlighterWidthCompounds` | src/services/CanvasDrawingService.js:34-37 | with the highlighter and no width given, repeated calls compound: two calls give 6.25 × the width |
| `DrawingService.DrawLineIsStartThenContinue` | src/services/CanvasDrawingService.js:40-55 | drawLine emits beginPath, moveTo(start), lineTo(end), stroke: the same as startPath followed by continuePath |
| `DrawingService.ServiceOtherShape` | src/services/CanvasDrawingService.js:57-76 | a shape other than circle or rectangle emits no geometry and is still stroked and filled |
| `DrawingService.ServiceRectangleMatchesUtility` | src/services/CanvasDrawingService.js:69-70 | the service's rectangle issues the same commands as a committed utility rectangle, minus one empty-path beginPath |
| `DrawingService.ServiceCircleOffset` | src/services/CanvasDrawingService.js:66-67 | the service's circle is an arc centred at (x, y). This is offset by (−radius, −radius) from the utility's circle, with the same radius and sweep |
| `DrawingService.CanvasDrawingService.constructor` | src/services/CanvasDrawingService.js:2-6 | the context's lineCap and lineJoin become `'round'`, and nothing else changes |
| `DrawingService.CanvasDrawingService.InitializeContext` | src/services/CanvasDrawingService.js:8-11 | sets lineCap and lineJoin to `'round'` and nothing else |
| `DrawingService.CanvasDrawingService.SetStyle` | src/services/CanvasDrawingService.js:13-38 | the context style becomes `ResolveStyle(old style, options)` and no command is issued |
| `DrawingService.CanvasDrawingService.StartPath` | src/services/CanvasDrawingService.js:40-43 | appends beginPath, moveTo(x, y). The style is unchanged |
| `DrawingService.CanvasDrawingService.ContinuePath` | src/services/CanvasDrawingService.js:45-48 | appends lineTo(x, y), stroke. The style is unchanged |
| `DrawingService.CanvasDrawingService.DrawLine` | src/services/CanvasDrawingService.js:50-55 | appends beginPath, moveTo(start), lineTo(end), stroke in that order |
| `DrawingService.CanvasDrawingService.DrawShape` | src/services/CanvasDrawingService.js:57-76 | sets fill and stroke to the colour and lineWidth to 2, leaving the dash pattern alone. It appends beginPath, then an arc at (x, y) for a circle or rect(x, y, width, height) for a rectangle, then stroke and fill. A negative circle radius makes `arc` throw: only the beginPath is issued and `completed` is false |
| `DrawingService.ServiceAbortsLikeUtility` | src/services/CanvasDrawingService.js:66-67 | the service throws on exactly the circles the utility throws on, those with a negative radius, and then issues neither stroke nor fill |
| `DrawingService.CanvasDrawingService.ClearRect` | src/services/CanvasDrawingService.js:78-80 | appends one clearRect with the given bounds |
| `DrawingService.CanvasDrawingService.ClearCanvas` | src/services/CanvasDrawingService.js:82-85 | fills (0, 0, width, height) with `'#282c34'` in dark mode and `'white'` otherwise |
| `Shapes.DrawShapeOnCanvas` | src/utils/drawShapes.js:1-57 | the log grows by exactly `ShapeCommands(params)`, and the call completes unless `arc` throws on a negative circle radius. Fill and stroke colour both become `color`, lineWidth becomes 2, and the dash is [5, 5] for a preview and [] otherwise. Alpha, cap and join are kept |
| `Shapes.TraceGeometry` | src/utils/drawShapes.js:15-51 | the switch issues exactly the shape's path, and nothing for an unknown kind. For a negative circle radius it issues only the beginPath before the throwing `arc` and reports that it did not complete |
| `Shapes.TraceStar` | src/utils/drawShapes.js:32-50 | the star loop issues the path `StarPath`: moveTo the top point, ten `lineTo`s, then back to the top point |
| `Shapes.ShapeStyle` | src/utils/drawShapes.js:4-13 | after drawing, fill and stroke colour equal `color`, lineWidth is 2, and the dash is [5, 5] exactly for a preview. Alpha, cap and join are unchanged |
| `Shapes.SquareSide` | src/utils/drawShapes.js:22 | the square side is non-negative, at most both \|width\| and \|height\|, and equal to one of them |
| `Shapes.OuterRadius` | src/utils/drawShapes.js:34 | the star's outer radius is non-negative and half the smaller extent |
| `Shapes.StarLines` | src/utils/drawShapes.js:43-48 | n loop iterations issue exactly 2n `lineTo` commands |
| `Shapes.StarLinesAt` | src/utils/drawShapes.js:43-48 | the j-th `lineTo` of the loop is at the outer radius for even j and the inner radius for odd j, at angle 3π/2 + j·π/5 |
| `Shapes.StarLinesOnlyLineTo` | src/utils/drawShapes.js:43-48 | the loop issues nothing but `lineTo` |
| `Shapes.StarAnglesAdvance` | src/utils/drawShapes.js:38-47 | the angle starts at 3π/2 and advances by exactly π/5 per vertex |
| `Shapes.PreviewNeverFills` | src/utils/drawShapes.js:53-56 | a fill is issued if and only if the shape is not a preview and `arc` does not throw. Then a preview ends with stroke and a committed shape with stroke then fill; a thrown `arc` issues no stroke |
| `Shapes.CircleGeometry` | src/utils/drawShapes.js:16-19 | a circle is one full arc (sweep 2π) centred at (x + radius, y + radius) with radius `radius` |
| `Shapes.SquareGeometry` | src/utils/drawShapes.js:21-25 | a square is rect(x, y, s, s) with s = min(\|width\|, \|height\|). So s ≥ 0 and s ≤ both extents |
| `Shapes.RectangleGeometry` | src/utils/drawShapes.js:27-30 | a rectangle is rect(x, y, width, height) with the signs kept |
| `Shapes.StarGeometry` | src/utils/drawShapes.js:32-50 | outer = min(\|w\|, \|h\|)/2, inner = outer/2 and the centre is (x + outer, y + outer). The path starts and ends at (cx, cy − outer) and visits 10 vertices in between, alternating outer and inner |
| `Shapes.StarInSquareBox` | src/utils/drawShapes.js:34-46 | a 100×100 star starts at (x + 50, y), and all five of its outer vertices lie at radius 50 about (x + 50, y + 50) |
| `Shapes.UnknownShapeStillPaints` | src/utils/drawShapes.js:15-56 | an unrecognised kind issues no geometry, but stroke (and fill unless previewing) are still issued |
| `Shapes.NegativeRadiusAborts` | src/utils/drawShapes.js:16-18 | a circle with a negative radius issues its two beginPaths and then neither stroke nor fill, preview or not |

## Left out

- `server.js`, the socket.io relay, is left out. It is network and concurrency plumbing, and its broadcast rule lives in a library that is not part of this model.
- The socket handlers of `whiteboard.js` (lines 35-63) are network I/O and are left out. The one colour choice they make, at line 44, is modelled by `Whiteboard.RemoteStrokeStyle`.
- `autoSave` is left out: it uses localStorage and a lodash debounce.
- `downloadCanvas` is left out because it only manipulates the DOM.
- `loadTemplate` of `whiteboard.js` (lines 122-128) is left out because it waits for the service's asynchronous template decode. When that load completes it saves one snapshot exactly as `Whiteboard.Board.SaveToUndoStack` does, so it is a third writer of the undo and redo stacks that the model does not include.
- The JSX and the event dispatch helpers are left out because they are presentation.
- `getImageData` of the service is left out: it only returns `canvas.toDataURL()`, an opaque snapshot, which the model takes as an argument.
- `loadImageData` and `loadTemplate` of the service are left out: they decode a raster image asynchronously before drawing it.
- The hooks `useDrawing`, `useShapeDrawing` and `useStickyNotes`, together with `RoomSelection.js` and `StickyNote.js`, are not part of this model. They receive `saveToUndoStack`, `setUndoStack` and `setRedoStack` (lines 97 and 258-261 of `whiteboard.js`). The model does not cover any change those hooks make to `shapes`, `nextShapeId`, or the undo and redo stacks. `SnapshotHistory.BaseSnapshotKept` and `SnapshotHistory.UndoRedoKeepSize` hold for the modelled operations only.
- The image decode in `undo` and `redo` completes at once in the model. Interleaved decodes of two quick calls are a concurrency concern, and so are the stale closure values React would hand them.
- React's batching of state updates is not modelled. Each method sees the state left by the previous one.
- Snapshot contents and pixels are opaque. `toDataURL` is replaced by the snapshot argument of each saving step.
- Floating point is not modelled. `Math.cos` and `Math.sin` are left abstract, so no vertex coordinate is computed. `rot += step` is taken as exact, so the rounding of the star angles is not modelled. NaN is not treated as a falsy number.
- Whiteboard.Board.DrawShape: the shape counter is an exact, unbounded integer. In the code it is a JavaScript number, so `nextShapeId + 1` stops advancing at 2^53 and `${nextShapeId}` switches to exponent notation from 1e21; neither is modelled, and `Whiteboard.RegistryIdsDistinct` and `ShapeIds.IdSerialOfShapeId` rely on the exact counter.
- Browsers ignore some assignments to context fields, such as a non-positive lineWidth, an alpha outside [0, 1] or an unparsable colour. The model stores every assignment.
- A shape descriptor carries exactly the fields `drawShape` reads. A params object with its own `id` field would override the generated id, because the spread comes last; the model does not cover that case.
- The `CanvasDrawingService` created by the first mount effect is not modelled. Its only effect on the context, round caps and joins, is the same one the effect makes itself.
- The canvas size is fixed when a board or service is created. A canvas resized later is not modelled.
- Whiteboard.Board.Undo: the `drawImage` of the restored snapshot is reported by the returned value, not as a command in the context log, because the log carries no images.
- Whiteboard.Board.Redo: the same holds as for `Undo`.
