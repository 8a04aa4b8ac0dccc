/**
 * The part of a 2D canvas context the wheel drives, as a display list:
 * every fill, stroke, text and image call is recorded together with the
 * transformation in effect, and translate/rotate/scale build that
 * transformation. The pixels themselves are left to the browser.
 */
module Canvas {
  import opened Wrappers

  /** One elementary transformation of the drawing context. */
  datatype Xf = Translate(dx: real, dy: real) | Rotate(angle: real) | Scale(sx: real, sy: real)

  /** a followed by b is the identity: opposite translations or opposite rotations. */
  predicate Cancels(a: Xf, b: Xf) {
    || (a.Translate? && b.Translate? && b.dx == -a.dx && b.dy == -a.dy)
    || (a.Rotate? && b.Rotate? && b.angle == -a.angle)
  }

  /** The transformation that undoes a translation or a rotation. */
  function Inverse(t: Xf): (u: Xf)
    requires !t.Scale?
    ensures Cancels(t, u) && Cancels(u, t)
  {
    match t
    case Translate(dx, dy) => Translate(-dx, -dy)
    case Rotate(a) => Rotate(-a)
  }

  /** A product of transformations with no adjacent pair that cancels out. */
  ghost predicate Reduced(xs: seq<Xf>) {
    forall i, j :: 0 <= i && j == i + 1 && j < |xs| ==> !Cancels(xs[i], xs[j])
  }

  /** The current transformation xs followed by t; a pair that cancels out is dropped. */
  function Then(xs: seq<Xf>, t: Xf): (r: seq<Xf>)
    ensures Reduced(xs) ==> Reduced(r)
  {
    if |xs| > 0 && Cancels(xs[|xs| - 1], t) then xs[..|xs| - 1] else xs + [t]
  }

  /** A translation or rotation followed by its inverse leaves the transformation as it was. */
  lemma ThenInverse(xs: seq<Xf>, t: Xf)
    requires Reduced(xs) && !t.Scale?
    ensures Then(Then(xs, t), Inverse(t)) == xs
  {
    if |xs| > 0 && Cancels(xs[|xs| - 1], t) {
      var p := xs[..|xs| - 1];
      assert p + [Inverse(t)] == xs by {
        match t
        case Translate(_, _) =>
        case Rotate(_) =>
      }
    }
  }

  /** The path built by beginPath(); moveTo(cx, cy); arc(cx, cy, r, a0, a1); closePath(). */
  datatype Path = Wedge(cx: real, cy: real, radius: real, startAngle: real, endAngle: real)

  /** The text settings in effect when a text is drawn: font size in px, colour, alignment, baseline. */
  datatype Pen = Pen(font: real, color: string, align: string, baseline: string)

  /** One drawing call, with the transformation in effect. */
  datatype DrawOp =
    | FillPath(path: Path, color: string, at: seq<Xf>)
    | StrokePath(path: Path, width: real, color: string, at: seq<Xf>)
    | Text(text: string, x: real, y: real, pen: Pen, at: seq<Xf>)
    | Image(x: real, y: real, width: real, height: real, at: seq<Xf>)
    | Erase(x: real, y: real, width: real, height: real, at: seq<Xf>)

  /**
   * An erase of the rectangle [x, x + width) x [y, y + height) under no
   * transformation that covers a whole canvas of the given bitmap size.
   */
  predicate ErasesCanvas(op: DrawOp, canvasWidth: real, canvasHeight: real) {
    && op.Erase? && op.at == []
    && op.x <= 0.0 && op.y <= 0.0 && op.x + op.width >= canvasWidth && op.y + op.height >= canvasHeight
  }

  /** The drawing state save() pushes and restore() pops: transformation, styles and text settings. */
  datatype DrawingState = DrawingState(xf: seq<Xf>, fillStyle: string, strokeStyle: string, lineWidth: real,
                                       font: real, textAlign: string, textBaseline: string)

  class Context {
    /** Everything drawn so far, in order. */
    var ops: seq<DrawOp>
    /** The states saved by save() and not yet restored, the most recent last. */
    var stack: seq<DrawingState>
    /** The current transformation. */
    var xf: seq<Xf>
    var path: Option<Path>
    var fillStyle: string
    var strokeStyle: string
    var lineWidth: real
    var font: real
    var textAlign: string
    var textBaseline: string

    ghost predicate Valid()
      reads this
    {
      && Reduced(xf)
      && forall i :: 0 <= i < |stack| ==> Reduced(stack[i].xf)
    }

    /** The current drawing state. */
    function State(): DrawingState
      reads this
    {
      DrawingState(xf, fillStyle, strokeStyle, lineWidth, font, textAlign, textBaseline)
    }

    /** A fresh context with the canvas defaults. */
    constructor ()
      ensures Valid() && ops == [] && stack == [] && xf == [] && path == None
      ensures fillStyle == "#000000" && strokeStyle == "#000000" && lineWidth == 1.0
      ensures font == 10.0 && textAlign == "start" && textBaseline == "alphabetic"
    {
      ops, stack, xf, path := [], [], [], None;
      fillStyle, strokeStyle, lineWidth := "#000000", "#000000", 1.0;
      font, textAlign, textBaseline := 10.0, "start", "alphabetic";
    }

    /**
     * What setting the canvas width or height does to its context: the bitmap
     * is cleared and the context returns to its default state.
     */
    method ResetToDefaults()
      modifies this
      ensures Valid() && ops == [] && stack == [] && xf == [] && path == None
      ensures fillStyle == "#000000" && strokeStyle == "#000000" && lineWidth == 1.0
      ensures font == 10.0 && textAlign == "start" && textBaseline == "alphabetic"
    {
      ops, stack, xf, path := [], [], [], None;
      fillStyle, strokeStyle, lineWidth := "#000000", "#000000", 1.0;
      font, textAlign, textBaseline := 10.0, "start", "alphabetic";
    }

    /**
     * clearRect(x, y, width, height): the rectangle is erased in the current
     * transformation, so what it covers of the bitmap depends on that
     * transformation; the erase is recorded like any other drawing call.
     */
    method ClearRect(x: real, y: real, width: real, height: real)
      modifies this`ops
      ensures ops == old(ops) + [Erase(x, y, width, height, xf)]
    {
      ops := ops + [Erase(x, y, width, height, xf)];
    }

    /** save(): push the current drawing state. */
    method Save()
      requires Valid()
      modifies this`stack
      ensures Valid() && stack == old(stack) + [State()]
    {
      stack := stack + [State()];
    }

    /** restore(): pop the most recent saved state and make it current; nothing happens when none is saved. */
    method Restore()
      requires Valid()
      modifies this`stack, this`xf, this`fillStyle, this`strokeStyle, this`lineWidth, this`font, this`textAlign,
               this`textBaseline
      ensures Valid()
      ensures old(stack) == [] ==> stack == [] && State() == old(State())
      ensures old(stack) != [] ==> stack == old(stack)[..|old(stack)| - 1] && State() == old(stack)[|old(stack)| - 1]
    {
      if stack != [] {
        var top := stack[|stack| - 1];
        stack := stack[..|stack| - 1];
        xf, fillStyle, strokeStyle, lineWidth := top.xf, top.fillStyle, top.strokeStyle, top.lineWidth;
        font, textAlign, textBaseline := top.font, top.textAlign, top.textBaseline;
      }
    }

    method Translate(x: real, y: real)
      requires Valid()
      modifies this`xf
      ensures Valid() && xf == Then(old(xf), Xf.Translate(x, y))
    {
      xf := Then(xf, Xf.Translate(x, y));
    }

    method Rotate(angle: real)
      requires Valid()
      modifies this`xf
      ensures Valid() && xf == Then(old(xf), Xf.Rotate(angle))
    {
      xf := Then(xf, Xf.Rotate(angle));
    }

    method Scale(sx: real, sy: real)
      requires Valid()
      modifies this`xf
      ensures Valid() && xf == Then(old(xf), Xf.Scale(sx, sy))
    {
      xf := Then(xf, Xf.Scale(sx, sy));
    }

    /** beginPath(); moveTo(cx, cy); arc(cx, cy, radius, a0, a1); closePath() */
    method WedgePath(cx: real, cy: real, radius: real, a0: real, a1: real)
      modifies this`path
      ensures path == Some(Wedge(cx, cy, radius, a0, a1))
    {
      path := Some(Wedge(cx, cy, radius, a0, a1));
    }

    method Fill()
      modifies this`ops
      ensures ops == old(ops) + (if path.Some? then [FillPath(path.value, fillStyle, xf)] else [])
    {
      if path.Some? {
        ops := ops + [FillPath(path.value, fillStyle, xf)];
      }
    }

    method Stroke()
      modifies this`ops
      ensures ops == old(ops) + (if path.Some? then [StrokePath(path.value, lineWidth, strokeStyle, xf)] else [])
    {
      if path.Some? {
        ops := ops + [StrokePath(path.value, lineWidth, strokeStyle, xf)];
      }
    }

    method FillText(text: string, x: real, y: real)
      modifies this`ops
      ensures ops == old(ops) + [Text(text, x, y, Pen(font, fillStyle, textAlign, textBaseline), xf)]
    {
      ops := ops + [Text(text, x, y, Pen(font, fillStyle, textAlign, textBaseline), xf)];
    }

    method DrawImage(x: real, y: real, width: real, height: real)
      modifies this`ops
      ensures ops == old(ops) + [Image(x, y, width, height, xf)]
    {
      ops := ops + [Image(x, y, width, height, xf)];
    }
  }
}
