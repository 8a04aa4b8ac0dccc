/**
 * The canvas surface of the wheel (lib/wheel.js): its size, the pin and hub
 * placement on the edge of the circle, the cover fit of a background image
 * on a high-density canvas, and drawing every slice with one highlighted.
 * The DOM is reduced to what these write: the canvas width and height, the
 * CSS size, the pin and hub positions, and the 2D context's display list.
 * The bounding rectangle, the device pixel ratio, the image size and Math.cos
 * and Math.sin are inputs.
 */
module WheelSurface {
  import opened Wrappers
  import opened Canvas
  import opened SliceGeometry
  import opened SliceRender

  /** What getBoundingClientRect() reports: the top-left corner and the size. */
  datatype Rect = Rect(left: real, top: real, width: real, height: real) {
    function Right(): real { left + width }
    function Bottom(): real { top + height }
    function Center(): Point { Point(left + width / 2.0, top + height / 2.0) }
  }

  datatype Point = Point(x: real, y: real)

  /** The positions getCircleEdge accepts. */
  const EdgePositions: seq<string> := ["left", "right", "top", "bottom", "center"]

  const EdgeError: string := "Invalid position. Valid values are left, right, top, bottom, center."

  /** p lies on one of the four sides of rect. */
  predicate OnBoundary(rect: Rect, p: Point) {
    && rect.left <= p.x <= rect.Right() && rect.top <= p.y <= rect.Bottom()
    && (p.x == rect.left || p.x == rect.Right() || p.y == rect.top || p.y == rect.Bottom())
  }

  /**
   * getCircleEdge(position): the midpoint of the named side of the canvas
   * rectangle, or its centre; any other position is an error.
   */
  function GetCircleEdge(rect: Rect, position: string): (r: Result<Point>)
    ensures r.Success? <==> position in EdgePositions
    ensures r.Failure? ==> r.error == EdgeError
    ensures position == "left" ==> r == Success(Point(rect.left, rect.Center().y))
    ensures position == "right" ==> r == Success(Point(rect.Right(), rect.Center().y))
    ensures position == "top" ==> r == Success(Point(rect.Center().x, rect.top))
    ensures position == "bottom" ==> r == Success(Point(rect.Center().x, rect.Bottom()))
    ensures position == "center" ==> r == Success(rect.Center())
    ensures r.Success? && position != "center" && rect.width >= 0.0 && rect.height >= 0.0 ==>
              OnBoundary(rect, r.value)
  {
    var c := rect.Center();
    match position
    case "left" => Success(Point(rect.left, c.y))
    case "right" => Success(Point(rect.Right(), c.y))
    case "top" => Success(Point(c.x, rect.top))
    case "bottom" => Success(Point(c.x, rect.Bottom()))
    case "center" => Success(c)
    case _ => Failure(EdgeError)
  }

  /**
   * On a square rectangle every side position lies on the inscribed circle:
   * at distance width / 2 from the centre, on the vertical or horizontal axis.
   */
  lemma EdgeOnInscribedCircle(rect: Rect, position: string)
    requires rect.width == rect.height && position in EdgePositions && position != "center"
    ensures var p := GetCircleEdge(rect, position).value;
            var dx := p.x - rect.Center().x;
            var dy := p.y - rect.Center().y;
            && dx * dx + dy * dy == (rect.width / 2.0) * (rect.width / 2.0)
            && (dx == 0.0 || dy == 0.0)
  {
  }

  /** The pin part of the wheel options: the position may be absent. */
  datatype PinOptions = PinOptions(position: Option<string>)

  /** The options the wheel reads: the pin, which may be absent. */
  datatype WheelOptions = WheelOptions(pin: Option<PinOptions>)

  /** const { position = "top" } = options.pin || { offsets: {} }: the pin position, "top" when not given. */
  function PinPosition(pin: Option<PinOptions>): (p: string)
    ensures pin.None? || pin.value.position.None? ==> p == "top"
    ensures pin.Some? && pin.value.position.Some? ==> p == pin.value.position.value
  {
    match pin
    case None => "top"
    case Some(o) => o.position.GetOr("top")
  }

  /** window.devicePixelRatio || 1: an absent or zero ratio counts as 1. */
  function EffectiveDpr(devicePixelRatio: Option<real>): (d: real)
    requires devicePixelRatio.Some? ==> devicePixelRatio.value >= 0.0
    ensures d > 0.0
    ensures devicePixelRatio.Some? && devicePixelRatio.value != 0.0 ==> d == devicePixelRatio.value
    ensures devicePixelRatio.None? || devicePixelRatio.value == 0.0 ==> d == 1.0
  {
    match devicePixelRatio
    case Some(r) => if r != 0.0 then r else 1.0
    case None => 1.0
  }

  /**
   * The image placed at (x, y) with size drawWidth x drawHeight covers the
   * size x size square: it keeps the image's aspect ratio, is at least as
   * large as the square in both directions and exactly as large in one, and
   * is centred on it.
   */
  predicate CoverPlacement(size: real, imgW: real, imgH: real, x: real, y: real, drawWidth: real, drawHeight: real) {
    && drawWidth * imgH == drawHeight * imgW
    && drawWidth >= size && drawHeight >= size
    && (drawWidth == size || drawHeight == size)
    && x == (size - drawWidth) / 2.0 && y == (size - drawHeight) / 2.0
  }

  /** There is only one cover placement for a given square and image. */
  lemma CoverPlacementUnique(size: real, imgW: real, imgH: real, x: real, y: real, w: real, h: real,
                             x': real, y': real, w': real, h': real)
    requires size >= 0.0 && imgW > 0.0 && imgH > 0.0
    requires CoverPlacement(size, imgW, imgH, x, y, w, h) && CoverPlacement(size, imgW, imgH, x', y', w', h')
    ensures x == x' && y == y' && w == w' && h == h'
  {
    if w == size && w' == size {
      ScaleCancel(h, h', imgW, size * imgH);
    } else if h == size && h' == size {
      ScaleCancel(w, w', imgH, size * imgW);
    } else if w == size {
      // then h' == size: size * imgH == h * imgW >= size * imgW and w' * imgH == size * imgW >= size * imgH
      Squeeze(size, imgW, imgH, h, w');
    } else {
      Squeeze(size, imgW, imgH, w', h);
    }
  }

  /** u * k == v * k == m for k > 0 forces u == v. */
  lemma ScaleCancel(u: real, v: real, k: real, m: real)
    requires k > 0.0 && u * k == m && v * k == m
    ensures u == v
  {
    assert (u - v) * k == 0.0;
  }

  /**
   * If size * imgH == h * imgW with h >= size, and w * imgH == size * imgW with
   * w >= size, then h == size and w == size.
   */
  lemma Squeeze(size: real, imgW: real, imgH: real, h: real, w: real)
    requires size >= 0.0 && imgW > 0.0 && imgH > 0.0
    requires size * imgH == h * imgW && h >= size
    requires w * imgH == size * imgW && w >= size
    ensures h == size && w == size
  {
    assert (h - size) * imgW >= 0.0;
    assert (w - size) * imgH >= 0.0;
    // size * imgH >= size * imgW and size * imgW >= size * imgH, so both excesses are zero
    assert (h - size) * imgW + (w - size) * imgH == 0.0;
  }

  /**
   * The cover fit of drawImage: start from the full square at the origin; an
   * image wider than the square keeps the square's height and is shifted left
   * by half its overhang, any other keeps the square's width and is shifted up.
   * For a zero size, size / size is NaN, the comparison is false and the
   * second branch is taken.
   */
  method CoverFit(size: real, imgW: real, imgH: real) returns (x: real, y: real, drawWidth: real, drawHeight: real)
    requires size >= 0.0 && imgW > 0.0 && imgH > 0.0
    ensures CoverPlacement(size, imgW, imgH, x, y, drawWidth, drawHeight)
  {
    var displayWidth := size;
    var displayHeight := size;
    var imageAspectRatio := imgW / imgH;
    drawWidth := displayWidth;
    drawHeight := displayHeight;
    x := 0.0;
    y := 0.0;
    if displayHeight != 0.0 && imageAspectRatio > displayWidth / displayHeight {
      drawHeight := displayHeight;
      drawWidth := drawHeight * imageAspectRatio;
      x := (displayWidth - drawWidth) / 2.0;
      WiderImageCovers(size, imgW, imgH);
    } else {
      drawWidth := displayWidth;
      drawHeight := drawWidth / imageAspectRatio;
      y := (displayHeight - drawHeight) / 2.0;
      TallerImageCovers(size, imgW, imgH);
    }
  }

  /** displayWidth / displayHeight for a square of non-zero size. */
  lemma SelfRatio(s: real)
    requires s != 0.0
    ensures s / s == 1.0
  {
  }

  /** The first branch of the cover fit: height size, width size * imgW / imgH. */
  lemma WiderImageCovers(size: real, imgW: real, imgH: real)
    requires size > 0.0 && imgW > 0.0 && imgH > 0.0 && imgW / imgH > size / size
    ensures var w := size * (imgW / imgH); w * imgH == size * imgW && w >= size
  {
    var a := imgW / imgH;
    assert a * imgH == imgW;
    SelfRatio(size);
    assert size * a - size == size * (a - 1.0);
  }

  /** The second branch of the cover fit: width size, height size / (imgW / imgH). */
  lemma TallerImageCovers(size: real, imgW: real, imgH: real)
    requires size >= 0.0 && imgW > 0.0 && imgH > 0.0 && (size > 0.0 ==> imgW / imgH <= size / size)
    ensures var h := size / (imgW / imgH); size * imgH == h * imgW && h >= size
  {
    var a := imgW / imgH;
    assert a * imgH == imgW;
    var h := size / a;
    assert h * a == size;
    assert h * imgW == h * a * imgH;
    if size > 0.0 {
      SelfRatio(size);
      assert h - size == h * (1.0 - a);
    }
  }

  /** slice.index === selectedSliceIndex: the slice is drawn highlighted. */
  predicate Selected<S>(slice: Slice<S>, selected: Option<int>) {
    selected == Some(slice.index)
  }

  /** On the layout of Slice.create exactly the slice at the selected position is highlighted. */
  lemma SelectedOnLayout<S>(slices: seq<Slice<S>>, segments: seq<S>, selected: Option<int>, i: int)
    requires IsLayout(slices, segments) && 0 <= i < |slices|
    ensures Selected(slices[i], selected) <==> selected == Some(i)
  {
    assert slices[i].index == i;
  }

  /** Everything drawSlices adds: each slice's drawing in turn, the selected one highlighted. */
  function WheelOps(slices: seq<Slice<SegmentStyle>>, size: real, selected: Option<int>, cos: real -> real,
                    sin: real -> real, at: seq<Xf>): (r: seq<DrawOp>)
    ensures |r| >= |slices|
  {
    if slices == [] then []
    else
      var last := slices[|slices| - 1];
      WheelOps(slices[..|slices| - 1], size, selected, cos, sin, at)
        + SliceOps(last, size, Selected(last, selected), cos, sin, at)
  }

  /** Drawing one more slice appends its drawing to the wheel's. */
  lemma WheelOpsSnoc(slices: seq<Slice<SegmentStyle>>, i: nat, size: real, selected: Option<int>, cos: real -> real,
                     sin: real -> real, at: seq<Xf>)
    requires i < |slices|
    ensures WheelOps(slices[..i + 1], size, selected, cos, sin, at)
            == WheelOps(slices[..i], size, selected, cos, sin, at)
               + SliceOps(slices[i], size, Selected(slices[i], selected), cos, sin, at)
  {
    assert slices[..i + 1][..i] == slices[..i];
  }

  /** The fill of the slice's wedge as drawSlices paints it: highlighted when selected. */
  function WedgeFill(slice: Slice<SegmentStyle>, size: real, selected: Option<int>, at: seq<Xf>): DrawOp {
    FillPath(SliceWedge(slice, size), FillColor(WithDefaults(slice.segment), Selected(slice, selected)), at)
  }

  /** A slice's drawing starts with the fill of its wedge. */
  lemma SliceOpsStartWithFill(slice: Slice<SegmentStyle>, size: real, selected: Option<int>, cos: real -> real,
                              sin: real -> real, at: seq<Xf>)
    ensures var own := SliceOps(slice, size, Selected(slice, selected), cos, sin, at);
            |own| >= 1 && own[0] == WedgeFill(slice, size, selected, at)
  {
    var props := WithDefaults(slice.segment);
    var w := WedgeOps(slice, props, size, Selected(slice, selected), at);
    assert SliceOps(slice, size, Selected(slice, selected), cos, sin, at)
           == w + SliceLabelOps(slice, props, size, cos, sin, at);
  }

  /**
   * Every slice's wedge is filled: the drawing of the wheel holds, for each
   * slice, a fill of its wedge in the highlight colour when it is the selected
   * one and in its background colour otherwise.
   */
  lemma WheelFillsEveryWedge(slices: seq<Slice<SegmentStyle>>, size: real, selected: Option<int>,
                              cos: real -> real, sin: real -> real, at: seq<Xf>, i: int)
    returns (k: nat)
    requires 0 <= i < |slices|
    ensures k < |WheelOps(slices, size, selected, cos, sin, at)|
    ensures WheelOps(slices, size, selected, cos, sin, at)[k] == WedgeFill(slices[i], size, selected, at)
  {
    var before := WheelOps(slices[..i], size, selected, cos, sin, at);
    var own := SliceOps(slices[i], size, Selected(slices[i], selected), cos, sin, at);
    var upTo := WheelOps(slices[..i + 1], size, selected, cos, sin, at);
    WheelOpsSnoc(slices, i, size, selected, cos, sin, at);
    SliceOpsStartWithFill(slices[i], size, selected, cos, sin, at);
    WheelOpsPrefix(slices, i + 1, size, selected, cos, sin, at);
    k := |before|;
    assert upTo[k] == own[0];
  }

  /** The drawing of the first j slices is a prefix of the drawing of the wheel. */
  lemma {:induction false} WheelOpsPrefix(slices: seq<Slice<SegmentStyle>>, j: nat, size: real, selected: Option<int>,
                                          cos: real -> real, sin: real -> real, at: seq<Xf>)
    requires j <= |slices|
    ensures WheelOps(slices[..j], size, selected, cos, sin, at) <= WheelOps(slices, size, selected, cos, sin, at)
    decreases |slices| - j
  {
    if j == |slices| {
      assert slices[..j] == slices;
    } else {
      WheelOpsPrefix(slices, j + 1, size, selected, cos, sin, at);
      WheelOpsSnoc(slices, j, size, selected, cos, sin, at);
      PrefixThroughAppend(WheelOps(slices[..j], size, selected, cos, sin, at),
                          SliceOps(slices[j], size, Selected(slices[j], selected), cos, sin, at),
                          WheelOps(slices, size, selected, cos, sin, at));
    }
  }

  /** A prefix of a prefix is a prefix. */
  lemma PrefixThroughAppend<T>(a: seq<T>, b: seq<T>, c: seq<T>)
    requires a + b <= c
    ensures a <= c
  {
    assert a == (a + b)[..|a|];
  }

  class Wheel {
    /** Math.min(elem.offsetWidth, elem.offsetHeight) */
    const size: nat
    const options: WheelOptions
    /** The 2D context of the wheel's canvas. */
    const ctx: Context
    /** canvas.width and canvas.height, the size of the bitmap in device pixels. */
    var canvasWidth: int
    var canvasHeight: int
    /** canvas.style.width and height in CSS pixels, once drawImage has set them. */
    var styleSize: Option<nat>
    /** Where setPin placed the pin and the hub (style.left, style.top). */
    var pinAt: Option<Point>
    var hubAt: Option<Point>

    ghost predicate Valid()
      reads this, ctx
    {
      ctx.Valid()
    }

    /** The wheel as the constructor builds it before setPin: a size x size canvas with a fresh context. */
    constructor (offsetWidth: nat, offsetHeight: nat, options: WheelOptions)
      ensures Valid() && fresh(ctx)
      ensures size == if offsetWidth <= offsetHeight then offsetWidth else offsetHeight
      ensures size <= offsetWidth && size <= offsetHeight
      ensures this.options == options
      ensures canvasWidth == size && canvasHeight == size && styleSize == None
      ensures pinAt == None && hubAt == None
      ensures ctx.ops == [] && ctx.xf == [] && ctx.stack == []
    {
      size := if offsetWidth <= offsetHeight then offsetWidth else offsetHeight;
      this.options := options;
      ctx := new Context();
      canvasWidth, canvasHeight := size, size;
      styleSize := None;
      pinAt, hubAt := None, None;
    }

    /**
     * setPin(): the pin goes to the edge named by the pin position ("top" by
     * default) and the hub to the centre of the canvas rectangle; an invalid
     * position is an error and nothing is placed.
     */
    method SetPin(rect: Rect) returns (err: Option<string>)
      modifies this`pinAt, this`hubAt
      ensures GetCircleEdge(rect, PinPosition(options.pin)).Failure? ==>
                err == Some(EdgeError) && pinAt == old(pinAt) && hubAt == old(hubAt)
      ensures GetCircleEdge(rect, PinPosition(options.pin)).Success? ==>
                && err == None
                && pinAt == Some(GetCircleEdge(rect, PinPosition(options.pin)).value)
                && hubAt == Some(rect.Center())
    {
      var edges := GetCircleEdge(rect, PinPosition(options.pin));
      if edges.Failure? {
        return Some(edges.error);
      }
      pinAt := Some(edges.value);
      var circleEdges := GetCircleEdge(rect, "center");
      hubAt := Some(circleEdges.value);
      err := None;
    }

    /**
     * new Wheel(elem, options): build the canvas and place the pin; the
     * constructor throws when the pin position is invalid.
     */
    static method Create(offsetWidth: nat, offsetHeight: nat, options: WheelOptions, rect: Rect)
      returns (r: Result<Wheel>)
      ensures r.Failure? <==> PinPosition(options.pin) !in EdgePositions
      ensures r.Failure? ==> r.error == EdgeError
      ensures r.Success? ==>
                && fresh(r.value) && fresh(r.value.ctx) && r.value.Valid()
                && r.value.size <= offsetWidth && r.value.size <= offsetHeight
                && (r.value.size == offsetWidth || r.value.size == offsetHeight)
                && r.value.canvasWidth == r.value.size == r.value.canvasHeight
                && r.value.pinAt == Some(GetCircleEdge(rect, PinPosition(options.pin)).value)
                && r.value.hubAt == Some(rect.Center())
                && r.value.ctx.ops == []
    {
      var w := new Wheel(offsetWidth, offsetHeight, options);
      var err := w.SetPin(rect);
      if err.Some? {
        return Failure(err.value);
      }
      return Success(w);
    }

    /**
     * drawImage(image): resize the bitmap to size * dpr device pixels (which
     * resets the context and clears it), keep the CSS size, scale by dpr and
     * draw the image with the cover fit.
     */
    method DrawImage(imgW: real, imgH: real, devicePixelRatio: Option<real>)
      requires Valid() && imgW > 0.0 && imgH > 0.0
      requires devicePixelRatio.Some? ==> devicePixelRatio.value >= 0.0
      modifies this`canvasWidth, this`canvasHeight, this`styleSize, ctx
      ensures Valid()
      ensures var dpr := EffectiveDpr(devicePixelRatio);
              && canvasWidth == canvasHeight == (size as real * dpr).Floor
              && styleSize == Some(size)
              && ctx.xf == [Xf.Scale(dpr, dpr)] && ctx.stack == []
              && |ctx.ops| == 1 && ctx.ops[0].Image? && ctx.ops[0].at == [Xf.Scale(dpr, dpr)]
              && CoverPlacement(size as real, imgW, imgH, ctx.ops[0].x, ctx.ops[0].y, ctx.ops[0].width,
                                ctx.ops[0].height)
    {
      var dpr := EffectiveDpr(devicePixelRatio);
      var displaySize := size as real;
      canvasWidth := (displaySize * dpr).Floor;
      ctx.ResetToDefaults();
      canvasHeight := (displaySize * dpr).Floor;
      ctx.ResetToDefaults();
      styleSize := Some(size);
      ctx.Scale(dpr, dpr);
      var x, y, drawWidth, drawHeight := CoverFit(displaySize, imgW, imgH);
      ctx.DrawImage(x, y, drawWidth, drawHeight);
    }

    /** drawSlices(slices, selectedSliceIndex): draw every slice in order, highlighting the selected one. */
    method DrawSlices(slices: seq<Slice<SegmentStyle>>, selected: Option<int>, cos: real -> real, sin: real -> real)
      requires Valid()
      modifies ctx`ops, ctx`xf, ctx`path, ctx`fillStyle, ctx`lineWidth, ctx`strokeStyle, ctx`font, ctx`textAlign,
               ctx`textBaseline
      ensures Valid() && ctx.xf == old(ctx.xf)
      ensures ctx.ops == old(ctx.ops) + WheelOps(slices, size as real, selected, cos, sin, old(ctx.xf))
    {
      var i := 0;
      while i < |slices|
        invariant 0 <= i <= |slices|
        invariant ctx.Valid() && ctx.xf == old(ctx.xf)
        invariant ctx.ops == old(ctx.ops) + WheelOps(slices[..i], size as real, selected, cos, sin, old(ctx.xf))
      {
        Draw(ctx, slices[i], size as real, Selected(slices[i], selected), cos, sin);
        WheelOpsSnoc(slices, i, size as real, selected, cos, sin, old(ctx.xf));
        AppendAssoc(old(ctx.ops), WheelOps(slices[..i], size as real, selected, cos, sin, old(ctx.xf)),
                    SliceOps(slices[i], size as real, Selected(slices[i], selected), cos, sin, old(ctx.xf)));
        i := i + 1;
      }
      assert slices[..i] == slices;
    }

    /** save(); translate(center, center); rotate(rotate * PI / 180); restore(): the restore undoes the turn. */
    method TurnAndRestore(center: real, rotate: real)
      requires Valid()
      modifies ctx`stack, ctx`xf, ctx`fillStyle, ctx`strokeStyle, ctx`lineWidth, ctx`font, ctx`textAlign,
               ctx`textBaseline
      ensures Valid() && ctx.State() == old(ctx.State()) && ctx.stack == old(ctx.stack)
    {
      ctx.Save();
      ctx.Translate(center, center);
      ctx.Rotate((rotate * Pi) / 180.0);
      ctx.Restore();
    }

    /**
     * selectSlice(index, drawAllSlices) with drawAllSlices redrawing this
     * wheel's slices: clear the canvas rectangle in the current transformation,
     * save, translate and rotate, restore (which undoes both), then draw the
     * slices with index highlighted. Under no transformation the clear covers
     * the whole bitmap; after drawImage it is scaled by the pixel ratio.
     */
    method SelectSlice(index: int, rotate: real, slices: seq<Slice<SegmentStyle>>, cos: real -> real,
                       sin: real -> real)
      requires Valid()
      modifies ctx
      ensures Valid() && ctx.xf == old(ctx.xf) && ctx.stack == old(ctx.stack)
      ensures ctx.ops == old(ctx.ops) + [Erase(0.0, 0.0, canvasWidth as real, canvasHeight as real, old(ctx.xf))]
                         + WheelOps(slices, size as real, Some(index), cos, sin, old(ctx.xf))
      ensures old(ctx.xf) == [] ==> ErasesCanvas(ctx.ops[|old(ctx.ops)|], canvasWidth as real, canvasHeight as real)
    {
      var center := size as real / 2.0;
      ctx.ClearRect(0.0, 0.0, canvasWidth as real, canvasHeight as real);
      ghost var erased := ctx.ops;
      assert erased[|old(ctx.ops)|] == Erase(0.0, 0.0, canvasWidth as real, canvasHeight as real, old(ctx.xf));
      TurnAndRestore(center, rotate);
      DrawSlices(slices, Some(index), cos, sin);
      assert ctx.ops[|old(ctx.ops)|] == erased[|old(ctx.ops)|];
    }
  }
}
