/** Sessions driven through the editor's handlers, each ending in a property of the
    observable state: what the canvas shows, where a dragged layer lands, which layer a
    press selects. Every one follows from the handlers' contracts alone. */
module Scenarios {
  import opened Options
  import opened Paint
  import opened Layers
  import opened Editor

  /** The four buttons append in call order, each at the next index, with its fixed name,
      and the canvas shows all four at the origin, first-added painted first. */
  method ButtonsAppendInOrder() returns (names: seq<string>, painted: seq<Stamp>)
    ensures names == ["ウィンドウ", "タスクバー", "図形", "ロゴ"]
    ensures painted == [Stamp(Window, 0, 0), Stamp(Taskbar, 0, 0), Stamp(Shape, 0, 0), Stamp(Logo, 0, 0)]
  {
    var editor := new ConceptMaker();
    editor.AddWindow();
    editor.AddTaskbar();
    editor.AddShape();
    editor.AddLogo();
    names := [editor.layers[0].name, editor.layers[1].name, editor.layers[2].name, editor.layers[3].name];
    painted := editor.surface.painted;
  }

  /** Hiding a layer removes it, and only it, from the canvas; showing it again puts the
      canvas back as it was. */
  method HiddenLayerNotPainted() returns (hidden: seq<Stamp>, shownAgain: seq<Stamp>)
    ensures hidden == [Stamp(Shape, 0, 0)]
    ensures shownAgain == [Stamp(Window, 0, 0), Stamp(Shape, 0, 0)]
  {
    var editor := new ConceptMaker();
    editor.AddWindow();
    editor.AddShape();
    var window, shape := NewLayer("ウィンドウ", Window), NewLayer("図形", Shape);
    assert editor.layers == [window, shape];
    editor.ToggleLayerVisibility(0);
    var ls := editor.layers;
    assert ls == [window.(visible := false), shape];
    assert ls[..1] == [window.(visible := false)];
    assert Picture(ls[..1], 0, 0) == [] by {
      assert ls[..1][..0] == [];
    }
    hidden := editor.surface.painted;
    assert hidden == [Stamp(Shape, 0, 0)];
    editor.ToggleLayerVisibility(0);
    ls := editor.layers;
    assert ls == [window, shape];
    assert ls[..1] == [window];
    assert Picture(ls[..1], 0, 0) == [Stamp(Window, 0, 0)] by {
      assert ls[..1][..0] == [];
    }
    shownAgain := editor.surface.painted;
  }

  /** A layer grabbed 10 right and 15 below its origin keeps that offset: grabbed at
      (210, 215) while at (200, 200) and moved to (310, 320), it lands at (300, 305). */
  method DragKeepsGrabOffset() returns (x: int, y: int)
    ensures x == 300 && y == 305
  {
    var editor := new ConceptMaker();
    editor.AddShape();
    assert editor.layers == [NewLayer("図形", Shape)];
    assert TopHit(editor.layers, 10, 15) == Some(0);
    editor.StartDrag(10, 15);
    assert editor.dragLayerIndex == Some(0) && editor.offsetX == Some(10) && editor.offsetY == Some(15);
    editor.Drag(210, 215);
    assert editor.layers == [NewLayer("図形", Shape).(x := 200, y := 200)];
    editor.EndDrag();
    assert TopHit(editor.layers, 210, 215) == Some(0);
    editor.StartDrag(210, 215);
    assert editor.dragLayerIndex == Some(0) && editor.offsetX == Some(10) && editor.offsetY == Some(15);
    editor.Drag(310, 320);
    x, y := editor.layers[0].x, editor.layers[0].y;
  }

  /** With the only layer at (200, 200), a press at (250, 250) selects it and a press at
      (50, 50) selects nothing. */
  method PressSelectsByBox() returns (far: Option<nat>, near: Option<nat>)
    ensures far == None && near == Some(0)
  {
    var editor := new ConceptMaker();
    editor.AddShape();
    assert editor.layers == [NewLayer("図形", Shape)];
    assert TopHit(editor.layers, 0, 0) == Some(0);
    editor.StartDrag(0, 0);
    assert editor.dragLayerIndex == Some(0) && editor.offsetX == Some(0) && editor.offsetY == Some(0);
    editor.Drag(200, 200);
    assert editor.layers == [NewLayer("図形", Shape).(x := 200, y := 200)];
    editor.EndDrag();
    assert editor.dragLayerIndex == None;
    assert TopHit(editor.layers, 50, 50) == None;
    editor.StartDrag(50, 50);
    far := editor.dragLayerIndex;
    assert far == None;
    assert TopHit(editor.layers, 250, 250) == Some(0);
    editor.StartDrag(250, 250);
    near := editor.dragLayerIndex;
  }

  /** Once the pointer is released, further moves leave every layer where it is. */
  method ReleaseStopsMoves() returns (before: seq<Layer>, after: seq<Layer>)
    ensures before == after == [NewLayer("図形", Shape)]
  {
    var editor := new ConceptMaker();
    editor.AddShape();
    assert editor.layers == [NewLayer("図形", Shape)];
    editor.StartDrag(5, 5);
    editor.EndDrag();
    before := editor.layers;
    assert before == [NewLayer("図形", Shape)];
    editor.Drag(100, 100);
    editor.EndDrag();
    editor.Drag(40, 70);
    after := editor.layers;
  }

  /** Two layers stacked at the origin and a press there: the intended scan selects the
      later one (index 1), the one painted on top. */
  method OverlapSelectsTopLayer() returns (selected: Option<nat>)
    ensures selected == Some(1)
  {
    var editor := new ConceptMaker();
    editor.AddWindow();
    editor.AddShape();
    assert editor.layers == [NewLayer("ウィンドウ", Window), NewLayer("図形", Shape)];
    assert TopHit(editor.layers, 0, 0) == Some(1);
    editor.StartDrag(0, 0);
    selected := editor.dragLayerIndex;
  }

  /** The hit test ignores visibility: with the shape above the window hidden, a press at
      the origin still selects the shape, although only the window is on the canvas. */
  method HiddenLayerStillGrabbed() returns (selected: Option<nat>, painted: seq<Stamp>)
    ensures selected == Some(1)
    ensures painted == [Stamp(Window, 0, 0)]
  {
    var editor := new ConceptMaker();
    editor.AddWindow();
    editor.AddShape();
    editor.ToggleLayerVisibility(1);
    var ls := editor.layers;
    assert ls == [NewLayer("ウィンドウ", Window), NewLayer("図形", Shape).(visible := false)];
    assert ls[..1] == [NewLayer("ウィンドウ", Window)];
    assert Picture(ls[..1], 0, 0) == [Stamp(Window, 0, 0)] by {
      assert ls[..1][..0] == [];
    }
    painted := editor.surface.painted;
    assert TopHit(ls, 0, 0) == Some(1);
    editor.StartDrag(0, 0);
    selected := editor.dragLayerIndex;
  }

  /** The same two layers and the same press: the scan as written stops at index 0. */
  method LiteralOverlapSelectsFirstLayer() returns (selected: Option<nat>)
    ensures selected == Some(0)
  {
    var editor := new ConceptMaker();
    editor.AddWindow();
    editor.AddShape();
    assert editor.layers == [NewLayer("ウィンドウ", Window), NewLayer("図形", Shape)];
    assert FirstHit(editor.layers, 0, 0) == Some(0);
    editor.StartDragLiteral(0, 0);
    selected := editor.dragLayerIndex;
  }

  /** As written, the first press on a layer starts a drag without ever defining the
      offsets: the state `drag` then reads is dragging with undefined offsets, from which
      the source computes NaN positions. */
  method LiteralPressLeavesOffsetsUndefined() returns (dragging: bool, offsetsDefined: bool)
    ensures dragging && !offsetsDefined
  {
    var editor := new ConceptMaker();
    editor.AddShape();
    assert editor.layers == [NewLayer("図形", Shape)] && editor.offsetX == None && editor.offsetY == None;
    assert FirstHit(editor.layers, 10, 10) == Some(0);
    editor.StartDragLiteral(10, 10);
    dragging := editor.isDragging;
    offsetsDefined := editor.offsetX.Some? || editor.offsetY.Some?;
  }
}
