/**
 * An abstract 2D canvas. Drawing is recorded as a list of commands; `Replay`
 * gives their meaning: the paint operations left on the canvas, in order,
 * each with the context state (shadow, smoothing, fill) in force when it ran.
 * Pixels are not modelled.
 */
module Canvas2D {

  /** The natural pixel size of a decoded image. */
  datatype Raster = Raster(width: nat, height: nat)

  predicate Decoded(r: Raster) { r.width > 0 && r.height > 0 }

  /** `naturalWidth / naturalHeight`. */
  function AspectWH(r: Raster): (a: real)
    requires Decoded(r)
    ensures a > 0.0 && a * r.height as real == r.width as real
  {
    r.width as real / r.height as real
  }

  datatype Rect = Rect(x: real, y: real, w: real, h: real)

  /** Which image a draw call paints. */
  datatype Layer = Background | Sticker

  datatype Shadow = Shadow(color: string, blur: real, offsetX: real, offsetY: real)

  /** The context's initial shadow: transparent, no blur, no offset. */
  const NoShadow := Shadow("transparent", 0.0, 0.0, 0.0)

  datatype Command =
    | SetSize(width: real, height: real)
    | DrawImage(layer: Layer, dest: Rect)
    | SetFillStyle(color: string)
    | FillRoundRect(area: Rect, radius: real)
    | SetShadow(shadow: Shadow)
    | SetImageSmoothing(enabled: bool)

  datatype Context = Context(fill: string, shadow: Shadow, smoothing: bool)

  const DefaultContext := Context("#000000", NoShadow, true)

  /** One paint operation as it lands on the bitmap. */
  datatype Paint =
    | ImagePaint(layer: Layer, dest: Rect, shadow: Shadow, smoothing: bool)
    | ShapePaint(area: Rect, radius: real, fill: string, shadow: Shadow)

  datatype Surface = Surface(width: real, height: real, ctx: Context, paints: seq<Paint>)

  /**
   * One command's effect. Assigning the size clears the bitmap and resets the
   * context, as assigning `width`/`height` of an HTML canvas does.
   */
  function Apply(s: Surface, c: Command): Surface
  {
    match c
    case SetSize(w, h) => Surface(w, h, DefaultContext, [])
    case DrawImage(layer, dest) => s.(paints := s.paints + [ImagePaint(layer, dest, s.ctx.shadow, s.ctx.smoothing)])
    case SetFillStyle(color) => s.(ctx := s.ctx.(fill := color))
    case FillRoundRect(area, radius) => s.(paints := s.paints + [ShapePaint(area, radius, s.ctx.fill, s.ctx.shadow)])
    case SetShadow(sh) => s.(ctx := s.ctx.(shadow := sh))
    case SetImageSmoothing(b) => s.(ctx := s.ctx.(smoothing := b))
  }

  function Replay(s: Surface, cmds: seq<Command>): Surface
    decreases |cmds|
  {
    if cmds == [] then s else Replay(Apply(s, cmds[0]), cmds[1..])
  }

  /** Replaying two command lists one after the other is replaying their concatenation. */
  lemma {:induction false} ReplayConcat(s: Surface, a: seq<Command>, b: seq<Command>)
    ensures Replay(s, a + b) == Replay(Replay(s, a), b)
    decreases |a|
  {
    if a == [] {
      assert a + b == b;
    } else {
      assert (a + b)[1..] == a[1..] + b;
      ReplayConcat(Apply(s, a[0]), a[1..], b);
    }
  }

  /** A freshly created canvas element: 300 by 150, nothing painted. */
  const BlankCanvas := Surface(300.0, 150.0, DefaultContext, [])

  /** A canvas element and its 2D context; every call on it is appended to `commands`. */
  class Canvas {
    var width: real
    var height: real
    var commands: seq<Command>

    constructor ()
      ensures width == 300.0 && height == 150.0 && commands == []
    {
      width, height, commands := 300.0, 150.0, [];
    }

    /** `canvas.width = w; canvas.height = h`. */
    method Resize(w: real, h: real)
      modifies this
      ensures width == w && height == h
      ensures commands == old(commands) + [SetSize(w, h)]
    {
      width, height := w, h;
      commands := commands + [SetSize(w, h)];
    }

    /** A context call or property assignment that does not change the size. */
    method Emit(c: Command)
      requires !c.SetSize?
      modifies this`commands
      ensures commands == old(commands) + [c]
    {
      commands := commands + [c];
    }
  }
}
