# Concept maker: layer stack and drag controller

A Dafny model of the layer editor in `conceptMaker.js`, a small drawing-board page. The user
builds a mockup by stacking named layers: a window, a taskbar, a shape and a logo. They can hide
a layer or show it again, and they can move a layer by dragging it with the pointer. The part
modelled here is the logic behind this:

- **Layer** (`Layers.Layer`, a value). Each layer has a name, a paint program (`Paint.Kind`
  replaces the `drawFunction` closure), a position, a fixed 100×100 hit box and a visibility flag.
- **Canvas** (`Paint.Surface`). The canvas is reduced to a translation, a stack of saved
  translations, and the list of paint programs run since the last clear, each recorded with the
  origin it ran at. `Paint.Step` and `Paint.Run` give the meaning of the context calls that a
  repaint issues: clear, save, translate, paint and restore.
- **Editor state** (`Editor.ConceptMaker`, a class). Its fields are the source's module-level
  variables: the `layers` array, the canvas, and the drag state (`isDragging`,
  `dragLayerIndex`, `offsetX`, `offsetY`). Each event handler is a method on this class.
  - `Valid()` says two things. A drag in progress always names an existing layer and has its
    grab offset. The canvas always shows exactly `Picture(layers)`: the visible layers in
    ascending index order, each painted at its own position.
  - The handlers of the intended model keep `Valid()` true: the add handlers,
    `ToggleLayerVisibility`, `StartDrag`, `Drag` and `EndDrag`. Each of them also requires it.
  - `StartDragLiteral` models `startDrag` as written. It neither requires nor ensures `Valid()`:
    after a hit it leaves the editor dragging with undefined offsets. No other handler
    accepts that state, so nothing in the model can follow it. The source's `endDrag` would
    accept it.
  - `DrawLayer` models one `Layer.draw` call inside a repaint. On its own it adds a paint, so
    only `RedrawCanvas`, which clears first, restores `Shown()`.
  - Layers are only ever appended, so an index names the same layer for the whole session.
- **Scenarios** (`Scenarios`). Client sessions driven through the handlers. Their results
  follow from the handlers' contracts alone.

Coordinates are unbounded integers. Three points of `conceptMaker.js` shape the model:

- `isPointInLayer` is closed on all four sides, so the far corner `(x+100, y+100)` is a hit
  (conceptMaker.js:147-148).
- An out-of-range index throws a TypeError at conceptMaker.js:55, so `ToggleLayerVisibility`
  requires an existing index. Every caller is a list row built by `layers.forEach`, and the
  list never shrinks.
- With overlapping boxes, the intended scan in `startDrag` picks the highest index whose box
  holds the point, hidden or not: neither `isPointInLayer` nor the scan reads `visible`. When
  that layer is visible it is the one painted on top; when it is hidden, the press grabs a
  layer that is not on screen. The code as written stops at the lowest index (see Findings).

## Model

| member | source | states |
|---|---|---|
| `Layers.NewLayer` | conceptMaker.js:15-23 | a new layer is visible, at (0, 0), with a 100×100 box, and carries the given name and paint program |
| `Layers.ContainsPointByOffset` | conceptMaker.js:146-149 | `ContainsPoint` models `isPointInLayer`; a point is in a layer's box exactly when its offset from the layer origin lies in [0, width]×[0, height], so the origin and the far corner are both hits |
| `Layers.PaintedInteriorNotGrabbable` | conceptMaker.js:64-89 | the window, taskbar and shape rectangles are painted away from the fixed 100×100 box, so no point inside them grabs their layer |
| `Layers.DrawBracketed` | conceptMaker.js:25-32 | `DrawOps` is the trace `Layer.draw` issues (save, translate, paint, restore, or nothing when hidden); running it a visible layer adds one paint at the current translation plus its position; a hidden layer adds nothing; the translation and saved stack are restored afterwards |
| `Layers.PaintAllShows` | conceptMaker.js:61 | drawing every layer in order appends the stack's picture and leaves the transform state as it was |
| `Layers.RedrawShows` | conceptMaker.js:59-62 | `RedrawOps` is the trace `redrawCanvas` issues (a clear, then every layer's draw); running it as a full repaint leaves exactly the picture of the stack, whatever was painted before: visible layers in ascending index order, each at its own position, with the transform state unchanged |
| `Layers.Toggled` | conceptMaker.js:55 | a visibility flip changes only the flag of the chosen layer; the length, the other fields and the other layers are unchanged |
| `Layers.ToggleTwice` | conceptMaker.js:54-57 | flipping the same layer twice gives back the original stack |
| `Layers.Moved` | conceptMaker.js:134-136 | a move changes only the position of the chosen layer; the length, the other fields and the other layers are unchanged |
| `Layers.TopHit` | conceptMaker.js:122-129 | the intended scan selects the highest index whose box holds the point, and selects nothing exactly when no box holds it |
| `Layers.FirstHit` | conceptMaker.js:121-126 | the scan as written selects the lowest index whose box holds the point, and selects nothing exactly when no box holds it |
| `Layers.HitScansAgree` | conceptMaker.js:122-129 | both scans find a layer at the same points; the first hit is never above the top hit; they differ exactly when two boxes hold the point |
| `Editor.ConceptMaker.constructor` | conceptMaker.js:116-118 | at page load there are no layers, the canvas is blank, no drag is in progress and the offsets are undefined |
| `Editor.ConceptMaker.DrawLayer` | conceptMaker.js:25-32 | `Layer.draw` issues the save/translate/paint/restore trace, and the canvas gains that layer's paint only |
| `Editor.ConceptMaker.RedrawCanvas` | conceptMaker.js:59-62 | the canvas becomes the result of the clear-then-draw-all trace, which is the picture of the current stack |
| `Editor.ConceptMaker.AddLayer` | conceptMaker.js:35-40 | appends exactly one new default layer; every earlier index keeps its layer; the drag state is untouched; the canvas shows the new stack |
| `Editor.ConceptMaker.AddWindow` | conceptMaker.js:64-73 | appends one window layer named ウィンドウ |
| `Editor.ConceptMaker.AddTaskbar` | conceptMaker.js:75-81 | appends one taskbar layer named タスクバー |
| `Editor.ConceptMaker.AddShape` | conceptMaker.js:83-89 | appends one shape layer named 図形 |
| `Editor.ConceptMaker.AddLogo` | conceptMaker.js:91-98 | appends one logo layer named ロゴ |
| `Editor.ConceptMaker.ToggleLayerVisibility` | conceptMaker.js:54-57 | for an existing index, flips only that layer's flag, leaves the drag state alone and repaints |
| `Editor.ConceptMaker.StartDrag` | conceptMaker.js:120-130 | a press that misses every box changes nothing; otherwise it drags the highest-index layer holding the point, with offset = press − layer origin, inside the box; layers and canvas are never changed |
| `Editor.ConceptMaker.StartDragLiteral` | conceptMaker.js:120-130 | as written: the lowest-index layer holding the point is marked dragged, and the offsets are never written |
| `Editor.ConceptMaker.Drag` | conceptMaker.js:132-139 | when not dragging, nothing changes; otherwise only the dragged layer moves, to pointer − offset, so pointer − position equals the grab offset after every move; the drag state is untouched |
| `Editor.ConceptMaker.EndDrag` | conceptMaker.js:141-144 | drag state is cleared and everything else is kept; repeating it changes nothing more |
| `Scenarios.ButtonsAppendInOrder` | conceptMaker.js:64-98 | the four buttons append at indices 0–3 in call order with their fixed names, and the canvas paints all four at the origin in that order |
| `Scenarios.HiddenLayerNotPainted` | conceptMaker.js:54-62 | hiding a layer removes only its paint from the canvas; showing it again restores the canvas |
| `Scenarios.DragKeepsGrabOffset` | conceptMaker.js:120-139 | a layer at (200, 200) grabbed at (210, 215) and moved to (310, 320) lands at (300, 305) |
| `Scenarios.PressSelectsByBox` | conceptMaker.js:120-130 | with the layer at (200, 200), a press at (50, 50) selects nothing and a press at (250, 250) selects it |
| `Scenarios.ReleaseStopsMoves` | conceptMaker.js:132-144 | after release, pointer moves leave every layer where it is |
| `Scenarios.OverlapSelectsTopLayer` | conceptMaker.js:120-130 | for two layers stacked at the origin, a press there selects index 1, the layer painted on top |
| `Scenarios.LiteralOverlapSelectsFirstLayer` | conceptMaker.js:121-126 | for the same two layers and press, the scan as written selects index 0 |
| `Scenarios.HiddenLayerStillGrabbed` | conceptMaker.js:120-149 | a hidden shape stacked over a visible window at the origin is still selected by a press there (index 1), although only the window is painted |
| `Scenarios.LiteralPressLeavesOffsetsUndefined` | conceptMaker.js:121-127 | as written, a press on a layer leaves the editor dragging with its offsets undefined |

## Findings

| source | as written | input that shows it | evidently intended | confidence | as-written member | corrected member |
|---|---|---|---|---|---|---|
| conceptMaker.js:121 | `const { offsetX, offsetY } = event` shadows the module offsets. At the first layer holding the press point, `isDragging` and `dragLayerIndex` are set. The assignment to the constant `offsetX` then throws. The scan stops, the module offsets stay undefined, and the next `drag` computes NaN positions. | one shape layer at (0, 0), a press at (10, 10): the editor is dragging with undefined offsets. Two layers at the origin and a press there: index 0 is selected. | every hit overwrites the drag state (the loop has no early exit), so the highest index wins. The offsets become press − layer origin, and the layer follows the pointer at a constant offset. | high (not executed) | `Editor.ConceptMaker.StartDragLiteral`, shown by `Scenarios.LiteralPressLeavesOffsetsUndefined` and `Scenarios.LiteralOverlapSelectsFirstLayer` | `Editor.ConceptMaker.StartDrag`, with `Editor.ConceptMaker.Drag`, `Scenarios.DragKeepsGrabOffset` and `Scenarios.OverlapSelectsTopLayer` |

## Left out

- DOM wiring is not modelled: `initCanvas`, the button and colour-picker listeners, and `updateLayerList`, which rebuilds one clickable row per layer name in stack order.
- Pixel output is not modelled. Each paint closure is an opaque `Kind` tag and the canvas records which program ran at which origin. Fill and stroke styles, fonts, `currentColor` and `clearRect`'s region are all dropped. The colour is read only at paint time and does not affect layer state.
- `exportCanvas` is not modelled: PNG encoding with `toDataURL` and a browser download.
- Coordinates are `int`. The source's mouse offsets are floating-point, and the NaN positions that the as-written `startDrag` leads to are not computed. The as-written model stops at the state that produces them: dragging with undefined offsets.
- Layers.NewLayer: the `Layer` constructor also takes optional `x` and `y` (default 0) at conceptMaker.js:15. `addLayer` never passes them, so the model always starts a layer at the origin.
- Layers are values held in a sequence. The source mutates `Layer` objects in place through the array. No layer is shared, so replacing the array element has the same effect.
- A paint program that throws is not modelled. The source's `draw` has no `finally`, so such a throw would leave the context saved and translated.
- Editor.ConceptMaker.StartDragLiteral: stops at the state that the thrown TypeError leaves. It does not model the exception reaching the browser's event loop.
