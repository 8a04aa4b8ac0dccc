/**
 * Slice.draw and Slice.textPositions (lib/slice.js): the wedge fill, the
 * optional border, and the label: its defaults, truncation to 16 characters,
 * the capped proportional font size, the anchor on the bisector and the five
 * text layouts. Math.cos and Math.sin are passed in.
 */
module SliceRender {
  import opened Wrappers
  import opened Canvas
  import opened SliceGeometry

  /** The style fields a segment may carry; None is an absent (undefined) field. */
  datatype SegmentStyle = SegmentStyle(
    backgroundColor: Option<string>,
    color: Option<string>,
    fontSize: Option<real>,
    borderColor: Option<string>,
    borderWidth: Option<real>,
    textOffset: Option<real>,
    textAlign: Option<string>,
    textBaseline: Option<string>,
    padding: Option<real>,
    text: Option<string>,
    textPosition: Option<string>,
    textAngleOffset: Option<real>)

  const MaxLength: nat := 16
  const BaseFontSize: real := 15.0
  /** Vertical distance between characters in the vertical layouts. */
  const LineStep: real := 18.0
  const Highlight: string := "yellow"
  const DefaultFontSize: real := 20.0
  const DefaultBorderWidth: real := 2.0
  const DefaultTextOffset: real := 0.7

  /** text.slice(0, 16): the first 16 characters, or all of a shorter text. */
  function Truncate(text: string): (r: string)
    ensures |r| == if |text| < MaxLength then |text| else MaxLength
    ensures r == text[..|r|]
  {
    if |text| <= MaxLength then text else text[..MaxLength]
  }

  /**
   * calculateProportionalFontSize: 15 * 16 / max(len, 1), capped at the configured
   * fontSize. It never exceeds fontSize, and is fontSize exactly when that fits
   * the 16-character budget.
   */
  function FontSize(len: nat, fontSize: real): (f: real)
    ensures f <= fontSize
    ensures f * (if len == 0 then 1 else len) as real <= BaseFontSize * MaxLength as real
    ensures fontSize * (if len == 0 then 1 else len) as real <= BaseFontSize * MaxLength as real ==> f == fontSize
    ensures f == fontSize || f * (if len == 0 then 1 else len) as real == BaseFontSize * MaxLength as real
  {
    var m := if len == 0 then 1 else len;
    var proportional := BaseFontSize * (MaxLength as real / m as real);
    assert proportional * m as real == BaseFontSize * MaxLength as real;
    if proportional < fontSize then
      assert proportional * m as real <= fontSize * m as real;
      proportional
    else
      assert fontSize * m as real <= proportional * m as real;
      fontSize
  }

  /** The proportional size 15 * 16 / m shrinks as m grows. */
  lemma ProportionalAntitone(m1: nat, m2: nat)
    requires 1 <= m1 <= m2
    ensures BaseFontSize * (MaxLength as real / m2 as real) <= BaseFontSize * (MaxLength as real / m1 as real)
  {
    var q1 := MaxLength as real / m1 as real;
    var q2 := MaxLength as real / m2 as real;
    assert q1 * m1 as real == MaxLength as real;
    assert q2 * m2 as real == MaxLength as real;
    assert q1 * m2 as real >= q1 * m1 as real;
    if q2 > q1 {
      assert false;
    }
  }

  /** A longer label never gets a larger font. */
  lemma FontSizeNonIncreasing(l1: nat, l2: nat, fontSize: real)
    requires l1 <= l2
    ensures FontSize(l2, fontSize) <= FontSize(l1, fontSize)
  {
    ProportionalAntitone(if l1 == 0 then 1 else l1, if l2 == 0 then 1 else l2);
  }

  /** The five layouts of textPositions. */
  datatype TextMode = LeftToRight | RightToLeft | TopToBottom | BottomToTop | DiagonalTopLeft

  /** textPositions[textPosition], falling back to left-to-right for an unknown name. */
  function ParseTextMode(name: string): (m: TextMode)
    ensures name == "right-to-left" <==> m == RightToLeft
    ensures name == "top-to-bottom" <==> m == TopToBottom
    ensures name == "bottom-to-top" <==> m == BottomToTop
    ensures name == "diagonal-top-left" <==> m == DiagonalTopLeft
  {
    if name == "right-to-left" then RightToLeft
    else if name == "top-to-bottom" then TopToBottom
    else if name == "bottom-to-top" then BottomToTop
    else if name == "diagonal-top-left" then DiagonalTopLeft
    else LeftToRight
  }

  /** text.split("").reverse().join("") */
  function Reverse(s: string): (r: string)
    ensures |r| == |s|
  {
    if s == [] then [] else Reverse(s[1..]) + [s[0]]
  }

  lemma {:induction false} ReverseAt(s: string, i: nat)
    requires i < |s|
    ensures Reverse(s)[i] == s[|s| - 1 - i]
  {
    if i < |s| - 1 {
      ReverseAt(s[1..], i);
    }
  }

  /** Reversing twice gives the text back: the right-to-left label holds exactly the characters of the text. */
  lemma ReverseInvolutive(s: string)
    ensures Reverse(Reverse(s)) == s
  {
    forall i | 0 <= i < |s|
      ensures Reverse(Reverse(s))[i] == s[i]
    {
      ReverseAt(Reverse(s), i);
      ReverseAt(s, |s| - 1 - i);
    }
  }

  /** The height of the i-th character of a column: i steps down (a negative step goes up). */
  function RowY(step: real, i: int): (y: real)
    ensures i >= 0 && step > 0.0 ==> y >= 0.0
    ensures i >= 0 && step < 0.0 ==> y <= 0.0
  {
    step * i as real
  }

  /** The characters of s as one-character texts at (0, step * i), under the transformation at. */
  function Column(s: string, step: real, pen: Pen, at: seq<Xf>): (r: seq<DrawOp>)
    ensures |r| == |s|
    ensures forall k :: 0 <= k < |r| ==> r[k].Text? && r[k].pen == pen && r[k].at == at
  {
    if s == [] then []
    else Column(s[..|s| - 1], step, pen, at) + [Text([s[|s| - 1]], 0.0, RowY(step, |s| - 1), pen, at)]
  }

  /** The i-th text of the column is the i-th character, i steps down. */
  lemma {:induction false} ColumnAt(s: string, step: real, pen: Pen, at: seq<Xf>, i: nat)
    requires i < |s|
    ensures Column(s, step, pen, at)[i] == Text([s[i]], 0.0, RowY(step, i), pen, at)
  {
    var init := s[..|s| - 1];
    if i < |init| {
      ColumnAt(init, step, pen, at, i);
      assert init[i] == s[i];
      assert Column(s, step, pen, at)[i] == Column(init, step, pen, at)[i];
    }
  }

  /** Drawing one more character appends its text to the column. */
  lemma ColumnSnoc(s: string, step: real, pen: Pen, at: seq<Xf>, i: nat)
    requires i < |s|
    ensures Column(s[..i + 1], step, pen, at) == Column(s[..i], step, pen, at) + [Text([s[i]], 0.0, RowY(step, i), pen, at)]
  {
    var t := s[..i + 1];
    assert t[..|t| - 1] == s[..i];
    assert [t[|t| - 1]] == [s[i]];
    assert Column(t[..|t| - 1], step, pen, at) == Column(s[..i], step, pen, at);
    assert Text([t[|t| - 1]], 0.0, RowY(step, |t| - 1), pen, at) == Text([s[i]], 0.0, RowY(step, i), pen, at);
  }

  /** What textPositions[mode](context, text, x, y, angle) draws under the transformation at. */
  function LabelOps(mode: TextMode, text: string, x: real, y: real, angle: real, pen: Pen, at: seq<Xf>): seq<DrawOp> {
    PlacedOps(mode, text, angle, pen, Then(at, Translate(x, y)))
  }

  /**
   * In both vertical layouts the characters, read from top to bottom, spell the
   * label: top-to-bottom starts it at the anchor, bottom-to-top ends it there.
   */
  lemma VerticalLayoutsSpellText(text: string, pen: Pen, at: seq<Xf>, x: real, y: real, angle: real, i: nat)
    requires i < |text|
    ensures LabelOps(TopToBottom, text, x, y, angle, pen, at)[i]
            == Text([text[i]], 0.0, RowY(LineStep, i), pen, Then(at, Translate(x, y)))
    ensures LabelOps(BottomToTop, text, x, y, angle, pen, at)[|text| - 1 - i]
            == Text([text[i]], 0.0, RowY(-LineStep, |text| - 1 - i), pen, Then(at, Translate(x, y)))
  {
    var moved := Then(at, Translate(x, y));
    ColumnAt(text, LineStep, pen, moved, i);
    ReversedColumnAt(text, -LineStep, pen, moved, i);
  }

  /** Reading a reversed column from the end gives the characters of the text in order. */
  lemma ReversedColumnAt(s: string, step: real, pen: Pen, at: seq<Xf>, i: nat)
    requires i < |s|
    ensures Column(Reverse(s), step, pen, at)[|s| - 1 - i] == Text([s[i]], 0.0, RowY(step, |s| - 1 - i), pen, at)
  {
    var j := |s| - 1 - i;
    ColumnAt(Reverse(s), step, pen, at, j);
    ReverseAt(s, j);
  }

  /**
   * textPositions[mode]: move to (x, y), rotate for the straight and diagonal
   * layouts, draw, then undo the rotation and the move.
   */
  method DrawLabel(ctx: Context, mode: TextMode, text: string, x: real, y: real, angle: real)
    requires ctx.Valid()
    modifies ctx`ops, ctx`xf
    ensures ctx.Valid() && ctx.xf == old(ctx.xf)
    ensures ctx.ops == old(ctx.ops) + LabelOps(mode, text, x, y, angle,
                                               Pen(ctx.font, ctx.fillStyle, ctx.textAlign, ctx.textBaseline), old(ctx.xf))
  {
    var pen := Pen(ctx.font, ctx.fillStyle, ctx.textAlign, ctx.textBaseline);
    ghost var at := ctx.xf;
    ctx.Translate(x, y);
    DrawPlaced(ctx, mode, text, angle, pen);
    assert ctx.ops == old(ctx.ops) + LabelOps(mode, text, x, y, angle, pen, at);
    ctx.Translate(-x, -y);
    ThenInverse(at, Translate(x, y));
  }

  /** The layouts of textPositions, drawn from the anchor the context has already moved to. */
  function PlacedOps(mode: TextMode, text: string, angle: real, pen: Pen, moved: seq<Xf>): seq<DrawOp> {
    match mode
    case LeftToRight => [Text(text, 0.0, 0.0, pen, Then(moved, Rotate(angle)))]
    case RightToLeft => [Text(Reverse(text), 0.0, 0.0, pen, Then(moved, Rotate(angle)))]
    case TopToBottom => Column(text, LineStep, pen, moved)
    case BottomToTop => Column(Reverse(text), -LineStep, pen, moved)
    case DiagonalTopLeft => [Text(text, 0.0, 0.0, pen, Then(moved, Rotate(angle - Pi / 4.0)))]
  }

  /** The body of textPositions[mode] between the move to the anchor and the move back. */
  method DrawPlaced(ctx: Context, mode: TextMode, text: string, angle: real, pen: Pen)
    requires ctx.Valid() && pen == Pen(ctx.font, ctx.fillStyle, ctx.textAlign, ctx.textBaseline)
    modifies ctx`ops, ctx`xf
    ensures ctx.Valid() && ctx.xf == old(ctx.xf)
    ensures ctx.ops == old(ctx.ops) + PlacedOps(mode, text, angle, pen, old(ctx.xf))
  {
    match mode {
      case LeftToRight => DrawTurned(ctx, text, angle);
      case RightToLeft => DrawTurned(ctx, Reverse(text), angle);
      case TopToBottom => DrawColumn(ctx, text, LineStep);
      case BottomToTop => DrawColumn(ctx, Reverse(text), -LineStep);
      case DiagonalTopLeft => DrawTurned(ctx, text, angle - Pi / 4.0);
    }
  }

  /** rotate(angle); fillText(text, 0, 0); rotate(-angle) */
  method DrawTurned(ctx: Context, text: string, angle: real)
    requires ctx.Valid()
    modifies ctx`ops, ctx`xf
    ensures ctx.Valid() && ctx.xf == old(ctx.xf)
    ensures ctx.ops == old(ctx.ops) + [Text(text, 0.0, 0.0, Pen(ctx.font, ctx.fillStyle, ctx.textAlign, ctx.textBaseline),
                                           Then(old(ctx.xf), Rotate(angle)))]
  {
    ghost var at := ctx.xf;
    ghost var drawn := ctx.ops + [Text(text, 0.0, 0.0, Pen(ctx.font, ctx.fillStyle, ctx.textAlign, ctx.textBaseline),
                                       Then(at, Rotate(angle)))];
    ctx.Rotate(angle);
    ctx.FillText(text, 0.0, 0.0);
    assert ctx.ops == drawn;
    ctx.Rotate(-angle);
    assert Inverse(Rotate(angle)) == Rotate(-angle);
    ThenInverse(at, Rotate(angle));
  }

  /** text.split("").forEach((char, i) => context.fillText(char, 0, step * i)) */
  method DrawColumn(ctx: Context, s: string, step: real)
    modifies ctx`ops
    ensures ctx.ops == old(ctx.ops) + Column(s, step, Pen(ctx.font, ctx.fillStyle, ctx.textAlign, ctx.textBaseline), ctx.xf)
  {
    var pen := Pen(ctx.font, ctx.fillStyle, ctx.textAlign, ctx.textBaseline);
    var i := 0;
    while i < |s|
      invariant 0 <= i <= |s|
      invariant ctx.ops == old(ctx.ops) + Column(s[..i], step, pen, ctx.xf)
    {
      ctx.FillText([s[i]], 0.0, RowY(step, i));
      ColumnSnoc(s, step, pen, ctx.xf, i);
      i := i + 1;
    }
    assert s[..i] == s;
  }

  /** The style of a segment with every absent field replaced by its default, as draw destructures it. */
  datatype Props = Props(
    backgroundColor: string,
    color: string,
    fontSize: real,
    borderColor: string,
    borderWidth: real,
    textOffset: real,
    textAlign: string,
    textBaseline: string,
    padding: real,
    text: string,
    textPosition: string,
    textAngleOffset: real)

  /** The defaults of draw: transparent background and border, black 20px text, border 2, offset 0.7, centred, middle. */
  function WithDefaults(style: SegmentStyle): Props
  {
    Props(style.backgroundColor.GetOr("transparent"), style.color.GetOr("#000000"),
          style.fontSize.GetOr(DefaultFontSize), style.borderColor.GetOr("transparent"),
          style.borderWidth.GetOr(DefaultBorderWidth), style.textOffset.GetOr(DefaultTextOffset),
          style.textAlign.GetOr("center"), style.textBaseline.GetOr("middle"), style.padding.GetOr(0.0),
          style.text.GetOr(""), style.textPosition.GetOr("left-to-right"), style.textAngleOffset.GetOr(0.0))
  }

  /** A segment with no style: transparent wedge with a border, empty black label, left to right. */
  lemma UnstyledSegment()
    ensures var p := WithDefaults(SegmentStyle(None, None, None, None, None, None, None, None, None, None, None, None));
            && p.text == "" && p.borderWidth > 0.0 && ParseTextMode(p.textPosition) == LeftToRight
            && p.backgroundColor == p.borderColor
  {
  }

  /** The label anchor: the bisecting angle of the slice and the distance along it. */
  datatype Anchor = Anchor(angle: real, distance: real)

  /** textAngle = start + (end - start) / 2 and (size / 2.5 - padding) * textOffset. */
  function LabelAnchor<S>(slice: Slice<S>, size: real, padding: real, textOffset: real): (a: Anchor)
    ensures a.angle - slice.startAngle == slice.endAngle - a.angle
    ensures slice.startAngle <= slice.endAngle ==> slice.startAngle <= a.angle <= slice.endAngle
    ensures a.distance == (size / 2.5 - padding) * textOffset
  {
    Anchor(slice.startAngle + (slice.endAngle - slice.startAngle) / 2.0, (size / 2.5 - padding) * textOffset)
  }

  /** (textX, textY): the anchor point, the anchor distance along the bisector from the centre of the canvas. */
  function AnchorPoint<S>(slice: Slice<S>, size: real, props: Props, cos: real -> real, sin: real -> real): (p: (real, real))
    ensures var a := LabelAnchor(slice, size, props.padding, props.textOffset);
            p.0 - size / 2.0 == a.distance * cos(a.angle) && p.1 - size / 2.0 == a.distance * sin(a.angle)
  {
    var a := LabelAnchor(slice, size, props.padding, props.textOffset);
    (size / 2.0 + a.distance * cos(a.angle), size / 2.0 + a.distance * sin(a.angle))
  }

  /**
   * Where cos and sin of the label angle lie on the unit circle, the anchor
   * point lies on the circle around the canvas centre whose radius is the
   * anchor distance.
   */
  lemma AnchorOnCircle<S>(slice: Slice<S>, size: real, props: Props, cos: real -> real, sin: real -> real)
    requires var a := LabelAnchor(slice, size, props.padding, props.textOffset);
             cos(a.angle) * cos(a.angle) + sin(a.angle) * sin(a.angle) == 1.0
    ensures var a := LabelAnchor(slice, size, props.padding, props.textOffset);
            var p := AnchorPoint(slice, size, props, cos, sin);
            (p.0 - size / 2.0) * (p.0 - size / 2.0) + (p.1 - size / 2.0) * (p.1 - size / 2.0) == a.distance * a.distance
  {
    var a := LabelAnchor(slice, size, props.padding, props.textOffset);
    var c, s, d := cos(a.angle), sin(a.angle), a.distance;
    assert (d * c) * (d * c) + (d * s) * (d * s) == d * d * (c * c + s * s);
  }

  /** The angle the label is drawn at: the bisector plus textAngleOffset. */
  function LabelAngle<S>(slice: Slice<S>, size: real, props: Props): real {
    LabelAnchor(slice, size, props.padding, props.textOffset).angle + props.textAngleOffset
  }

  /** The fill colour: the highlight when selected, the background colour otherwise. */
  function FillColor(props: Props, isSelected: bool): (c: string)
    ensures isSelected ==> c == Highlight
    ensures !isSelected ==> c == props.backgroundColor
  {
    if isSelected then Highlight else props.backgroundColor
  }

  /** The pen of the label: the proportional font size, the colour, alignment and baseline. */
  function LabelPen(props: Props): (p: Pen)
    ensures p.font <= props.fontSize
    ensures var n := |Truncate(props.text)|; p.font * (if n == 0 then 1 else n) as real <= BaseFontSize * MaxLength as real
    ensures p == Pen(FontSize(|Truncate(props.text)|, props.fontSize), props.color, props.textAlign, props.textBaseline)
  {
    Pen(FontSize(|Truncate(props.text)|, props.fontSize), props.color, props.textAlign, props.textBaseline)
  }

  /** The wedge of the slice: centred in the canvas, radius size / 2, from startAngle to endAngle. */
  function SliceWedge<S>(slice: Slice<S>, size: real): Path {
    Wedge(size / 2.0, size / 2.0, size / 2.0, slice.startAngle, slice.endAngle)
  }

  /** The fill of the wedge, then its border when borderWidth > 0. */
  function WedgeOps<S>(slice: Slice<S>, props: Props, size: real, isSelected: bool, at: seq<Xf>): (r: seq<DrawOp>)
    ensures 1 <= |r| <= 2
    ensures r[0] == FillPath(SliceWedge(slice, size), FillColor(props, isSelected), at)
    ensures props.borderWidth > 0.0 <==> |r| == 2
    ensures |r| == 2 ==> r[1] == StrokePath(SliceWedge(slice, size), props.borderWidth, props.borderColor, at)
  {
    [FillPath(SliceWedge(slice, size), FillColor(props, isSelected), at)]
      + (if props.borderWidth > 0.0 then [StrokePath(SliceWedge(slice, size), props.borderWidth, props.borderColor, at)] else [])
  }

  /** The label of the slice: its truncated text, in its layout, at its anchor, in its pen. */
  function SliceLabelOps<S>(slice: Slice<S>, props: Props, size: real, cos: real -> real, sin: real -> real,
                            at: seq<Xf>): seq<DrawOp>
  {
    var p := AnchorPoint(slice, size, props, cos, sin);
    LabelOps(ParseTextMode(props.textPosition), Truncate(props.text), p.0, p.1, LabelAngle(slice, size, props),
             LabelPen(props), at)
  }

  /** Everything slice.draw(context, size, isSelected) adds to the display list under the transformation at. */
  function SliceOps(slice: Slice<SegmentStyle>, size: real, isSelected: bool, cos: real -> real, sin: real -> real,
                    at: seq<Xf>): seq<DrawOp>
  {
    var props := WithDefaults(slice.segment);
    WedgeOps(slice, props, size, isSelected, at) + SliceLabelOps(slice, props, size, cos, sin, at)
  }

  /** Every call a label layout makes is a text drawn in the given pen under the given transformation or below it. */
  lemma LabelOpsAreTexts(mode: TextMode, text: string, x: real, y: real, angle: real, pen: Pen, at: seq<Xf>)
    ensures var ops := LabelOps(mode, text, x, y, angle, pen, at);
            forall k :: 0 <= k < |ops| ==> ops[k].Text? && ops[k].pen == pen
  {
  }

  /**
   * What draw puts on the canvas: first the wedge filled in the highlight or
   * background colour, then the border exactly when borderWidth > 0, then only
   * texts, none in a font larger than the configured fontSize.
   */
  lemma SliceOpsShape(slice: Slice<SegmentStyle>, size: real, isSelected: bool, cos: real -> real, sin: real -> real,
                      at: seq<Xf>)
    ensures var props := WithDefaults(slice.segment);
            var r := SliceOps(slice, size, isSelected, cos, sin, at);
            && 1 <= |r|
            && r[0] == FillPath(SliceWedge(slice, size), FillColor(props, isSelected), at)
            && (props.borderWidth > 0.0 <==> 2 <= |r| && r[1].StrokePath?)
            && (forall i :: 0 <= i < |r| && r[i].Text? ==> i >= |WedgeOps(slice, props, size, isSelected, at)|)
            && (forall i :: 0 <= i < |r| && r[i].Text? ==> r[i].pen.font <= props.fontSize)
  {
    var props := WithDefaults(slice.segment);
    var w := WedgeOps(slice, props, size, isSelected, at);
    var l := SliceLabelOps(slice, props, size, cos, sin, at);
    var p := AnchorPoint(slice, size, props, cos, sin);
    LabelOpsAreTexts(ParseTextMode(props.textPosition), Truncate(props.text), p.0, p.1, LabelAngle(slice, size, props),
                     LabelPen(props), at);
    var r := w + l;
    forall i | 0 <= i < |r| && r[i].Text?
      ensures i >= |w| && r[i].pen.font <= props.fontSize
    {
      if i >= |w| {
        assert r[i] == l[i - |w|];
      }
    }
  }

  lemma AppendAssoc<T>(a: seq<T>, b: seq<T>, c: seq<T>)
    ensures (a + b) + c == a + (b + c)
  {
  }

  /** Fill the wedge, in the highlight colour when selected, and stroke it when borderWidth > 0. */
  method DrawWedge<S>(ctx: Context, slice: Slice<S>, props: Props, size: real, isSelected: bool)
    modifies ctx`ops, ctx`path, ctx`fillStyle, ctx`lineWidth, ctx`strokeStyle
    ensures ctx.ops == old(ctx.ops) + WedgeOps(slice, props, size, isSelected, ctx.xf)
    ensures ctx.path == Some(SliceWedge(slice, size))
    ensures ctx.fillStyle == FillColor(props, isSelected)
    ensures props.borderWidth > 0.0 ==> ctx.lineWidth == props.borderWidth && ctx.strokeStyle == props.borderColor
    ensures props.borderWidth <= 0.0 ==> ctx.lineWidth == old(ctx.lineWidth) && ctx.strokeStyle == old(ctx.strokeStyle)
  {
    ctx.WedgePath(size / 2.0, size / 2.0, size / 2.0, slice.startAngle, slice.endAngle);
    ctx.fillStyle := if isSelected then Highlight else props.backgroundColor;
    ctx.Fill();
    if props.borderWidth > 0.0 {
      ctx.lineWidth := props.borderWidth;
      ctx.strokeStyle := props.borderColor;
      ctx.Stroke();
    }
  }

  /** Set the pen of the segment and draw its label at the anchor on the bisector. */
  method DrawSliceLabel<S>(ctx: Context, slice: Slice<S>, props: Props, size: real, cos: real -> real, sin: real -> real)
    requires ctx.Valid()
    modifies ctx`ops, ctx`xf, ctx`fillStyle, ctx`font, ctx`textAlign, ctx`textBaseline
    ensures ctx.Valid() && ctx.xf == old(ctx.xf)
    ensures ctx.ops == old(ctx.ops) + SliceLabelOps(slice, props, size, cos, sin, old(ctx.xf))
    ensures Pen(ctx.font, ctx.fillStyle, ctx.textAlign, ctx.textBaseline) == LabelPen(props)
  {
    var pen := LabelPen(props);
    var p := AnchorPoint(slice, size, props, cos, sin);
    ctx.fillStyle, ctx.font, ctx.textAlign, ctx.textBaseline := pen.color, pen.font, pen.align, pen.baseline;
    DrawLabel(ctx, ParseTextMode(props.textPosition), Truncate(props.text), p.0, p.1, LabelAngle(slice, size, props));
  }

  /**
   * slice.draw(context, size, isSelected): fill the wedge, stroke it when
   * borderWidth > 0, set the pen and draw the label at its anchor. The
   * transformation is left as it was.
   */
  method Draw(ctx: Context, slice: Slice<SegmentStyle>, size: real, isSelected: bool, cos: real -> real, sin: real -> real)
    requires ctx.Valid()
    modifies ctx`ops, ctx`xf, ctx`path, ctx`fillStyle, ctx`lineWidth, ctx`strokeStyle, ctx`font, ctx`textAlign,
             ctx`textBaseline
    ensures ctx.Valid() && ctx.xf == old(ctx.xf)
    ensures ctx.ops == old(ctx.ops) + SliceOps(slice, size, isSelected, cos, sin, old(ctx.xf))
    ensures ctx.path == Some(SliceWedge(slice, size))
    ensures Pen(ctx.font, ctx.fillStyle, ctx.textAlign, ctx.textBaseline) == LabelPen(WithDefaults(slice.segment))
  {
    var props := WithDefaults(slice.segment);
    DrawWedge(ctx, slice, props, size, isSelected);
    DrawSliceLabel(ctx, slice, props, size, cos, sin);
    AppendAssoc(old(ctx.ops), WedgeOps(slice, props, size, isSelected, old(ctx.xf)),
                SliceLabelOps(slice, props, size, cos, sin, old(ctx.xf)));
  }
}
