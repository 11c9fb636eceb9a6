/** The editor's global state and the functions that drive it: the layer array, the
    canvas, and the drag controller (`isDragging`, `dragLayerIndex`, `offsetX`, `offsetY`).
    The source keeps these as module-level variables; here they are the fields of one
    `ConceptMaker` object, and each event handler is a method on it. */
module Editor {
  import opened Options
  import opened Paint
  import opened Layers

  class ConceptMaker {
    var layers: seq<Layer>
    var surface: Surface
    var isDragging: bool
    var dragLayerIndex: Option<nat>
    /** Undefined (None) until the first drag starts; never cleared afterwards. */
    var offsetX: Option<int>
    var offsetY: Option<int>

    /** A drag in progress always names an existing layer and has its grab offset; the
        flag and the index are set together and cleared together. */
    ghost predicate DragConsistent()
      reads this
    {
      isDragging == dragLayerIndex.Some? &&
      (isDragging ==> dragLayerIndex.value < |layers| && offsetX.Some? && offsetY.Some?)
    }

    /** The canvas is untransformed and shows exactly the picture of the current stack. */
    ghost predicate Shown()
      reads this
    {
      surface == BLANK.(painted := Picture(layers, 0, 0))
    }

    ghost predicate Valid()
      reads this
    {
      DragConsistent() && Shown()
    }

    /** Page load: no layers, a blank canvas, not dragging, offsets undefined. */
    constructor ()
      ensures Valid()
      ensures layers == [] && surface == BLANK
      ensures !isDragging && dragLayerIndex == None && offsetX == None && offsetY == None
    {
      layers := [];
      surface := BLANK;
      isDragging := false;
      dragLayerIndex := None;
      offsetX, offsetY := None, None;
    }

    /** `Layer.draw` on the canvas. */
    method DrawLayer(l: Layer)
      modifies this`surface
      ensures surface == Run(old(surface), DrawOps(l))
      ensures surface == old(surface).(painted := old(surface).painted + StampOf(l, old(surface).tx, old(surface).ty))
    {
      if l.visible {
        surface := Step(surface, Save);
        surface := Step(surface, Translate(l.x, l.y));
        surface := Step(surface, Draw(l.kind));
        surface := Step(surface, Restore);
      }
      DrawBracketed(old(surface), l);
    }

    /** `redrawCanvas`: clear, then draw every layer in ascending index order. */
    method RedrawCanvas()
      modifies this`surface
      ensures surface == Run(old(surface), RedrawOps(layers))
      ensures surface == old(surface).(painted := Picture(layers, old(surface).tx, old(surface).ty))
    {
      surface := Step(surface, Clear);
      var i := 0;
      while i < |layers|
        invariant 0 <= i <= |layers|
        invariant surface == Run(old(surface), RedrawOps(layers[..i]))
      {
        ghost var before := surface;
        DrawLayer(layers[i]);
        RunAppend(old(surface), RedrawOps(layers[..i]), DrawOps(layers[i]));
        assert layers[..i + 1][..i] == layers[..i];
        assert RedrawOps(layers[..i + 1]) == RedrawOps(layers[..i]) + DrawOps(layers[i]);
        i := i + 1;
      }
      assert layers[..i] == layers;
      RedrawShows(old(surface), layers);
    }

    /** `addLayer`: append a fresh layer and repaint. Existing indices keep their layers. */
    method AddLayer(name: string, kind: Kind)
      requires Valid()
      modifies this`layers, this`surface
      ensures Valid()
      ensures layers == old(layers) + [NewLayer(name, kind)]
      ensures isDragging == old(isDragging) && dragLayerIndex == old(dragLayerIndex)
      ensures offsetX == old(offsetX) && offsetY == old(offsetY)
    {
      layers := layers + [NewLayer(name, kind)];
      RedrawCanvas();
    }

    method AddWindow()
      requires Valid()
      modifies this`layers, this`surface
      ensures Valid()
      ensures layers == old(layers) + [NewLayer("ウィンドウ", Window)]
      ensures isDragging == old(isDragging) && dragLayerIndex == old(dragLayerIndex)
      ensures offsetX == old(offsetX) && offsetY == old(offsetY)
    {
      AddLayer("ウィンドウ", Window);
    }

    method AddTaskbar()
      requires Valid()
      modifies this`layers, this`surface
      ensures Valid()
      ensures layers == old(layers) + [NewLayer("タスクバー", Taskbar)]
      ensures isDragging == old(isDragging) && dragLayerIndex == old(dragLayerIndex)
      ensures offsetX == old(offsetX) && offsetY == old(offsetY)
    {
      AddLayer("タスクバー", Taskbar);
    }

    method AddShape()
      requires Valid()
      modifies this`layers, this`surface
      ensures Valid()
      ensures layers == old(layers) + [NewLayer("図形", Shape)]
      ensures isDragging == old(isDragging) && dragLayerIndex == old(dragLayerIndex)
      ensures offsetX == old(offsetX) && offsetY == old(offsetY)
    {
      AddLayer("図形", Shape);
    }

    method AddLogo()
      requires Valid()
      modifies this`layers, this`surface
      ensures Valid()
      ensures layers == old(layers) + [NewLayer("ロゴ", Logo)]
      ensures isDragging == old(isDragging) && dragLayerIndex == old(dragLayerIndex)
      ensures offsetX == old(offsetX) && offsetY == old(offsetY)
    {
      AddLayer("ロゴ", Logo);
    }

    /** `toggleLayerVisibility`: the source indexes the array unchecked, so the index must
        name an existing layer (the layer list only ever passes such indices). */
    method ToggleLayerVisibility(index: nat)
      requires Valid() && index < |layers|
      modifies this`layers, this`surface
      ensures Valid()
      ensures layers == Toggled(old(layers), index)
      ensures isDragging == old(isDragging) && dragLayerIndex == old(dragLayerIndex)
      ensures offsetX == old(offsetX) && offsetY == old(offsetY)
    {
      layers := Toggled(layers, index);
      RedrawCanvas();
    }

    /** `startDrag`, as the loop evidently intends: every layer whose box holds the press
        point overwrites the drag state, so the highest such index wins, and the offsets
        become the press point minus that layer's origin. (As written, the destructuring
        `const { offsetX, offsetY } = event` at the top of `startDrag` in conceptMaker.js
        shadows the module-level offsets with constants, so the first hit throws instead; that behaviour
        is `StartDragLiteral`.) A press that hits nothing changes nothing. */
    method StartDrag(px: int, py: int)
      requires Valid()
      modifies this`isDragging, this`dragLayerIndex, this`offsetX, this`offsetY
      ensures Valid()
      ensures layers == old(layers) && surface == old(surface)
      ensures match TopHit(layers, px, py)
        case None =>
          isDragging == old(isDragging) && dragLayerIndex == old(dragLayerIndex) &&
          offsetX == old(offsetX) && offsetY == old(offsetY)
        case Some(k) =>
          isDragging && dragLayerIndex == Some(k) &&
          offsetX == Some(px - layers[k].x) && offsetY == Some(py - layers[k].y) &&
          0 <= offsetX.value <= layers[k].width && 0 <= offsetY.value <= layers[k].height
    {
      var i := 0;
      ghost var hit: Option<nat> := None;
      while i < |layers|
        invariant 0 <= i <= |layers|
        invariant hit == TopHit(layers[..i], px, py)
        invariant hit.None? ==>
          isDragging == old(isDragging) && dragLayerIndex == old(dragLayerIndex) &&
          offsetX == old(offsetX) && offsetY == old(offsetY)
        invariant hit.Some? ==>
          hit.value < i && isDragging && dragLayerIndex == hit &&
          offsetX == Some(px - layers[hit.value].x) && offsetY == Some(py - layers[hit.value].y)
      {
        TopHitStep(layers, i, px, py);
        if ContainsPoint(layers[i], px, py) {
          isDragging := true;
          dragLayerIndex := Some(i);
          offsetX := Some(px - layers[i].x);
          offsetY := Some(py - layers[i].y);
          hit := Some(i);
        }
        i := i + 1;
      }
      assert layers[..i] == layers;
    }

    /** `startDrag` as written: the scan sets `isDragging` and `dragLayerIndex` for the
        first layer that holds the press point and then stops, because assigning the
        shadowing constant `offsetX` throws; the module-level offsets are never written. */
    method StartDragLiteral(px: int, py: int)
      modifies this`isDragging, this`dragLayerIndex, this`offsetX, this`offsetY
      ensures layers == old(layers) && surface == old(surface)
      ensures offsetX == old(offsetX) && offsetY == old(offsetY)
      ensures match FirstHit(layers, px, py)
        case None => isDragging == old(isDragging) && dragLayerIndex == old(dragLayerIndex)
        case Some(k) => isDragging && dragLayerIndex == Some(k)
    {
      var i := 0;
      while i < |layers|
        invariant 0 <= i <= |layers|
        invariant FirstHit(layers[..i], px, py).None?
        invariant isDragging == old(isDragging) && dragLayerIndex == old(dragLayerIndex)
      {
        if ContainsPoint(layers[i], px, py) {
          isDragging := true;
          dragLayerIndex := Some(i);
          // the assignment to the constant offsetX throws here
          assert layers[..i + 1][..i] == layers[..i];
          assert FirstHit(layers[..i + 1], px, py) == Some(i);
          HitOfExtension(layers, i + 1, px, py);
          return;
        }
        assert layers[..i + 1][..i] == layers[..i];
        i := i + 1;
      }
      assert layers[..i] == layers;
    }

    /** `drag`: while a drag is in progress, put the dragged layer at the pointer minus the
        grab offset and repaint; otherwise do nothing. */
    method Drag(px: int, py: int)
      requires Valid()
      modifies this`layers, this`surface
      ensures Valid()
      ensures isDragging == old(isDragging) && dragLayerIndex == old(dragLayerIndex)
      ensures offsetX == old(offsetX) && offsetY == old(offsetY)
      ensures !isDragging ==> layers == old(layers) && surface == old(surface)
      ensures isDragging ==>
        var k := dragLayerIndex.value;
        layers == Moved(old(layers), k, px - offsetX.value, py - offsetY.value) &&
        px - layers[k].x == offsetX.value && py - layers[k].y == offsetY.value
    {
      if isDragging && dragLayerIndex.Some? {
        var k := dragLayerIndex.value;
        layers := Moved(layers, k, px - offsetX.value, py - offsetY.value);
        RedrawCanvas();
      }
    }

    /** `endDrag`: stop dragging unconditionally; the offsets are left as they are. */
    method EndDrag()
      requires Valid()
      modifies this`isDragging, this`dragLayerIndex
      ensures Valid()
      ensures !isDragging && dragLayerIndex == None
      ensures layers == old(layers) && surface == old(surface)
      ensures offsetX == old(offsetX) && offsetY == old(offsetY)
    {
      isDragging := false;
      dragLayerIndex := None;
    }
  }

  /** The first hit of a prefix stays the first hit of any longer prefix. */
  lemma HitOfExtension(ls: seq<Layer>, n: nat, px: int, py: int)
    requires 0 < n <= |ls| && FirstHit(ls[..n], px, py).Some?
    ensures FirstHit(ls, px, py) == FirstHit(ls[..n], px, py)
  {
    var k := FirstHit(ls[..n], px, py).value;
    assert ls[..n][k] == ls[k];
    forall j | 0 <= j < k
      ensures !ContainsPoint(ls[j], px, py)
    {
      assert ls[..n][j] == ls[j];
    }
  }
}
