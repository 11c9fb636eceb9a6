/** The `Layer` record of the editor and everything that can be said about a layer, or a
    stack of layers, without the editor's global state: the hit test, what `draw` issues,
    the picture a full repaint leaves on the canvas, and the two in-place updates
    (visibility flip and move) written as functions on the stack. */
module Layers {
  import opened Options
  import opened Paint

  /** Every layer gets the same hit box, whatever its paint program draws. */
  const DEFAULT_WIDTH := 100
  const DEFAULT_HEIGHT := 100

  datatype Layer = Layer(name: string, kind: Kind, visible: bool, x: int, y: int, width: int, height: int)

  /** `new Layer(name, drawFunction)`: visible, at the origin, with the default box. */
  function NewLayer(name: string, kind: Kind): (l: Layer)
    ensures l.name == name && l.kind == kind
    ensures l.visible && l.x == 0 && l.y == 0
    ensures l.width == DEFAULT_WIDTH && l.height == DEFAULT_HEIGHT
  {
    Layer(name, kind, true, 0, 0, DEFAULT_WIDTH, DEFAULT_HEIGHT)
  }

  /** `isPointInLayer`: the box is closed on all four sides. */
  predicate ContainsPoint(l: Layer, px: int, py: int) {
    l.x <= px <= l.x + l.width && l.y <= py <= l.y + l.height
  }

  /** A point is in a layer's box exactly when its offset from the layer's origin lies in
      [0, width] x [0, height]: the grab offset a drag records is inside the box, and the
      far corner is a hit. */
  lemma ContainsPointByOffset(l: Layer, px: int, py: int)
    ensures ContainsPoint(l, px, py) <==>
      0 <= px - l.x <= l.width && 0 <= py - l.y <= l.height
    ensures l.width >= 0 && l.height >= 0 ==>
      ContainsPoint(l, l.x, l.y) && ContainsPoint(l, l.x + l.width, l.y + l.height)
  {
  }

  /** The local-coordinate area strictly inside the rectangle a paint program fills.
      The logo is text whose extent depends on font metrics, so it has none here. */
  predicate InsidePaintedArea(k: Kind, lx: int, ly: int) {
    match k
    case Window => 100 < lx < 700 && 100 < ly < 500
    case Taskbar => 0 < lx < 800 && 550 < ly < 600
    case Shape => 200 < lx < 300 && 200 < ly < 300
    case Logo => false
  }

  /** The fixed 100x100 hit box and the painted geometry do not meet: pressing anywhere
      inside the rectangle a window, taskbar or shape layer shows never grabs that layer. */
  lemma PaintedInteriorNotGrabbable(l: Layer, px: int, py: int)
    requires l.width == DEFAULT_WIDTH && l.height == DEFAULT_HEIGHT
    requires InsidePaintedArea(l.kind, px - l.x, py - l.y)
    ensures !ContainsPoint(l, px, py)
  {
  }

  /** `Layer.draw`: a visible layer runs its paint program inside save/translate ... restore;
      a hidden one issues nothing. */
  function DrawOps(l: Layer): seq<Op> {
    if l.visible then [Save, Translate(l.x, l.y), Draw(l.kind), Restore] else []
  }

  /** What one layer adds to the picture when the surface is translated by (tx, ty). */
  function StampOf(l: Layer, tx: int, ty: int): seq<Stamp> {
    if l.visible then [Stamp(l.kind, tx + l.x, ty + l.y)] else []
  }

  /** The picture of a stack: its visible layers in ascending index order, each run at its
      own position. This is the reference the repaint is proved against. */
  function Picture(ls: seq<Layer>, tx: int, ty: int): seq<Stamp>
    decreases |ls|
  {
    if ls == [] then [] else Picture(ls[..|ls| - 1], tx, ty) + StampOf(ls[|ls| - 1], tx, ty)
  }

  /** The calls `layers.forEach(layer => layer.draw())` issues. */
  function PaintAll(ls: seq<Layer>): seq<Op>
    decreases |ls|
  {
    if ls == [] then [] else PaintAll(ls[..|ls| - 1]) + DrawOps(ls[|ls| - 1])
  }

  /** The calls `redrawCanvas` issues: a clear, then every layer's draw. */
  function RedrawOps(ls: seq<Layer>): seq<Op> {
    [Clear] + PaintAll(ls)
  }

  /** Drawing one layer adds its stamp at the current translation and leaves the
      translation and the saved-state stack as they were (save and restore bracket it). */
  lemma {:induction false} DrawBracketed(s: Surface, l: Layer)
    ensures Run(s, DrawOps(l)) == s.(painted := s.painted + StampOf(l, s.tx, s.ty))
  {
    if l.visible {
      var s1 := Step(s, Save);
      var s2 := Step(s1, Translate(l.x, l.y));
      var s3 := Step(s2, Draw(l.kind));
      var s4 := Step(s3, Restore);
      assert s4 == s.(painted := s.painted + StampOf(l, s.tx, s.ty)) by {
        assert s3.saved[|s3.saved| - 1] == (s.tx, s.ty);
        assert s3.saved[..|s3.saved| - 1] == s.saved;
      }
      var ops := DrawOps(l);
      assert Run(s, ops) == Run(s1, ops[1..]);
      assert Run(s1, ops[1..]) == Run(s2, ops[2..]);
      assert Run(s2, ops[2..]) == Run(s3, ops[3..]);
      assert Run(s3, ops[3..]) == Run(s4, ops[4..]);
      assert ops[4..] == [];
    } else {
      assert StampOf(l, s.tx, s.ty) == [];
      assert s.painted + [] == s.painted;
    }
  }

  /** Drawing a stack in order appends its picture and restores the transform state. */
  lemma {:induction false} PaintAllShows(s: Surface, ls: seq<Layer>)
    ensures Run(s, PaintAll(ls)) == s.(painted := s.painted + Picture(ls, s.tx, s.ty))
    decreases |ls|
  {
    if ls == [] {
      assert s.painted + [] == s.painted;
    } else {
      var init, last := ls[..|ls| - 1], ls[|ls| - 1];
      PaintAllShows(s, init);
      RunAppend(s, PaintAll(init), DrawOps(last));
      var mid := Run(s, PaintAll(init));
      DrawBracketed(mid, last);
      assert s.painted + Picture(init, s.tx, s.ty) + StampOf(last, s.tx, s.ty)
          == s.painted + Picture(ls, s.tx, s.ty);
    }
  }

  /** `redrawCanvas` leaves on the surface exactly the picture of the stack, whatever was
      painted before, with the transform and saved-state stack as they were before. */
  lemma RedrawShows(s: Surface, ls: seq<Layer>)
    ensures Run(s, RedrawOps(ls)) == s.(painted := Picture(ls, s.tx, s.ty))
  {
    var cleared := Step(s, Clear);
    assert Run(s, RedrawOps(ls)) == Run(cleared, PaintAll(ls)) by {
      assert RedrawOps(ls)[0] == Clear;
      assert RedrawOps(ls)[1..] == PaintAll(ls);
    }
    PaintAllShows(cleared, ls);
    assert [] + Picture(ls, s.tx, s.ty) == Picture(ls, s.tx, s.ty);
  }

  /** `toggleLayerVisibility(i)` on the stack: only layer i's flag flips. */
  function Toggled(ls: seq<Layer>, i: nat): (r: seq<Layer>)
    requires i < |ls|
    ensures |r| == |ls|
    ensures r[i].visible == !ls[i].visible
    ensures r[i] == ls[i].(visible := r[i].visible)
    ensures forall j :: 0 <= j < |ls| && j != i ==> r[j] == ls[j]
  {
    ls[i := ls[i].(visible := !ls[i].visible)]
  }

  /** Flipping the same layer twice gives back the original stack. */
  lemma ToggleTwice(ls: seq<Layer>, i: nat)
    requires i < |ls|
    ensures Toggled(Toggled(ls, i), i) == ls
  {
  }

  /** The move `drag` performs on the stack: only layer i's position changes. */
  function Moved(ls: seq<Layer>, i: nat, x: int, y: int): (r: seq<Layer>)
    requires i < |ls|
    ensures |r| == |ls|
    ensures r[i].x == x && r[i].y == y
    ensures r[i] == ls[i].(x := r[i].x, y := r[i].y)
    ensures forall j :: 0 <= j < |ls| && j != i ==> r[j] == ls[j]
  {
    ls[i := ls[i].(x := x, y := y)]
  }

  /** The layer a press selects when every hit overwrites the previous one: the highest
      index whose box holds the point, or none when no box does. */
  function TopHit(ls: seq<Layer>, px: int, py: int): (r: Option<nat>)
    ensures r.Some? ==> r.value < |ls| && ContainsPoint(ls[r.value], px, py)
    ensures r.Some? ==> forall j :: r.value < j < |ls| ==> !ContainsPoint(ls[j], px, py)
    ensures r.None? <==> forall j :: 0 <= j < |ls| ==> !ContainsPoint(ls[j], px, py)
    decreases |ls|
  {
    if ls == [] then None
    else if ContainsPoint(ls[|ls| - 1], px, py) then Some(|ls| - 1)
    else TopHit(ls[..|ls| - 1], px, py)
  }

  /** Scanning one more layer: it becomes the top hit exactly when its box holds the point. */
  lemma TopHitStep(ls: seq<Layer>, i: nat, px: int, py: int)
    requires i < |ls|
    ensures TopHit(ls[..i + 1], px, py) ==
      if ContainsPoint(ls[i], px, py) then Some(i) else TopHit(ls[..i], px, py)
  {
    assert ls[..i + 1][..i] == ls[..i];
  }

  /** The layer a press selects when the scan stops at the first hit: the lowest index
      whose box holds the point, or none when no box does. */
  function FirstHit(ls: seq<Layer>, px: int, py: int): (r: Option<nat>)
    ensures r.Some? ==> r.value < |ls| && ContainsPoint(ls[r.value], px, py)
    ensures r.Some? ==> forall j :: 0 <= j < r.value ==> !ContainsPoint(ls[j], px, py)
    ensures r.None? <==> forall j :: 0 <= j < |ls| ==> !ContainsPoint(ls[j], px, py)
    decreases |ls|
  {
    if ls == [] then None
    else
      var h := FirstHit(ls[..|ls| - 1], px, py);
      if h.Some? then h
      else if ContainsPoint(ls[|ls| - 1], px, py) then Some(|ls| - 1)
      else None
  }

  /** Both scans find a layer at the same points, and the first hit never lies above the
      top hit; they pick the same layer exactly when only one box holds the point. */
  lemma HitScansAgree(ls: seq<Layer>, px: int, py: int)
    ensures FirstHit(ls, px, py).None? <==> TopHit(ls, px, py).None?
    ensures FirstHit(ls, px, py).Some? ==> FirstHit(ls, px, py).value <= TopHit(ls, px, py).value
    ensures FirstHit(ls, px, py) != TopHit(ls, px, py) <==>
      exists i, j :: 0 <= i < j < |ls| && ContainsPoint(ls[i], px, py) && ContainsPoint(ls[j], px, py)
  {
    var f, t := FirstHit(ls, px, py), TopHit(ls, px, py);
    if f != t {
      assert ContainsPoint(ls[f.value], px, py) && ContainsPoint(ls[t.value], px, py);
    }
  }
}
