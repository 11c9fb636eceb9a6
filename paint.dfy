/** The drawing surface the editor paints on, reduced to what the layer model relies on:
    a translation, a stack of saved translations, and the list of paint programs that
    have run since the last clear, each recorded with the origin it ran at. */
module Paint {

  /** The four paint programs the editor's buttons attach to a layer. Each stands for a
      fixed closure over the 2D context; the pixels it produces are not modelled. */
  datatype Kind =
    | Window   // white 600x400 rectangle with a black border at local (100, 100)
    | Taskbar  // dark 800x50 bar at local (0, 550)
    | Shape    // 100x100 square in the current colour at local (200, 200)
    | Logo     // the text "Logo" in the current colour at local (300, 300)

  /** One run of a paint program: which one, and the surface origin it was run at. */
  datatype Stamp = Stamp(kind: Kind, x: int, y: int)

  /** The context calls a redraw issues. */
  datatype Op =
    | Clear                        // clearRect over the whole canvas
    | Save                         // ctx.save()
    | Translate(dx: int, dy: int)  // ctx.translate(dx, dy)
    | Draw(kind: Kind)             // the layer's paint closure
    | Restore                      // ctx.restore()

  datatype Surface = Surface(tx: int, ty: int, saved: seq<(int, int)>, painted: seq<Stamp>)

  /** A blank, untransformed canvas. */
  const BLANK := Surface(0, 0, [], [])

  /** The effect of one context call. A restore with nothing saved does nothing. */
  function Step(s: Surface, op: Op): Surface {
    match op
    case Clear => s.(painted := [])
    case Save => s.(saved := s.saved + [(s.tx, s.ty)])
    case Translate(dx, dy) => s.(tx := s.tx + dx, ty := s.ty + dy)
    case Draw(k) => s.(painted := s.painted + [Stamp(k, s.tx, s.ty)])
    case Restore =>
      if s.saved == [] then s
      else
        var top := s.saved[|s.saved| - 1];
        s.(tx := top.0, ty := top.1, saved := s.saved[..|s.saved| - 1])
  }

  /** The effect of a sequence of context calls, in order. */
  function Run(s: Surface, ops: seq<Op>): Surface
    decreases |ops|
  {
    if ops == [] then s else Run(Step(s, ops[0]), ops[1..])
  }

  /** Running two traces one after the other is running their concatenation. */
  lemma {:induction false} RunAppend(s: Surface, a: seq<Op>, b: seq<Op>)
    ensures Run(s, a + b) == Run(Run(s, a), b)
    decreases |a|
  {
    if a == [] {
      assert a + b == b;
    } else {
      assert (a + b)[0] == a[0];
      assert (a + b)[1..] == a[1..] + b;
      RunAppend(Step(s, a[0]), a[1..], b);
    }
  }
}
