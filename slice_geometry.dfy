/**
 * Slice geometry (lib/slice.js): Slice.create splits the circle into one
 * equal arc per segment, and Slice.getClickedSliceIndex finds the slice under
 * a click. Angles are exact reals in radians; Math.atan2 is an input.
 */
module SliceGeometry {
  import opened Wrappers

  /** Math.PI */
  const Pi: real := 3.141592653589793
  const TwoPi: real := 2.0 * Pi

  /** A slice: the half-open arc [startAngle, endAngle), its position and its segment. */
  datatype Slice<S> = Slice(startAngle: real, endAngle: real, index: int, segment: S)

  /** (1 / n) * 2 * Math.PI: the angle of one of n equal slices. */
  function SliceAngle(n: nat): (w: real)
    requires n > 0
    ensures w > 0.0 && n as real * w == TwoPi
  {
    (1.0 / n as real) * 2.0 * Pi
  }

  /** j * w <= k * w for j <= k and w > 0. */
  lemma MulMonotone(j: int, k: int, w: real)
    requires j <= k && w > 0.0
    ensures j as real * w <= k as real * w
  {
    assert k as real * w - j as real * w == (k - j) as real * w;
  }

  /** The slices Slice.create builds: slice i is [i*w, (i+1)*w) with index i and segment i. */
  ghost predicate IsLayout<S>(slices: seq<Slice<S>>, segments: seq<S>) {
    && |slices| == |segments|
    && forall i :: 0 <= i < |slices| ==>
         slices[i] == Slice(i as real * SliceAngle(|segments|), (i + 1) as real * SliceAngle(|segments|), i, segments[i])
  }

  /**
   * Slice.create(segments): walks the segments, pushing [current, current + w)
   * and advancing current by w.
   */
  method Create<S>(segments: seq<S>) returns (slices: seq<Slice<S>>)
    ensures IsLayout(slices, segments)
  {
    slices := [];
    if |segments| == 0 {
      return;
    }
    var n := |segments|;
    var current := 0.0;
    var i := 0;
    while i < n
      invariant 0 <= i <= n && |slices| == i
      invariant current == i as real * SliceAngle(n)
      invariant forall j :: 0 <= j < i ==>
                  slices[j] == Slice(j as real * SliceAngle(n), (j + 1) as real * SliceAngle(n), j, segments[j])
    {
      var w := (1.0 / n as real) * 2.0 * Pi;
      slices := slices + [Slice(current, current + w, i, segments[i])];
      current := current + w;
      i := i + 1;
    }
  }

  /**
   * The layout partitions [0, 2*pi): the first slice starts at 0, each slice ends
   * where the next begins, the last ends at exactly 2*pi, and all have width 2*pi / n.
   */
  lemma LayoutPartitionsCircle<S>(slices: seq<Slice<S>>, segments: seq<S>)
    requires IsLayout(slices, segments) && |segments| > 0
    ensures slices[0].startAngle == 0.0
    ensures slices[|slices| - 1].endAngle == TwoPi
    ensures forall i :: 0 <= i < |slices| - 1 ==> slices[i].endAngle == slices[i + 1].startAngle
    ensures forall i :: 0 <= i < |slices| ==> slices[i].endAngle - slices[i].startAngle == TwoPi / |segments| as real
  {
    var n := |segments|;
    var w := SliceAngle(n);
    assert TwoPi / n as real == w;
    forall i | 0 <= i < n
      ensures slices[i].endAngle - slices[i].startAngle == w
    {
      assert (i + 1) as real * w == i as real * w + w;
    }
  }

  /** a lies in the half-open arc of slice s. */
  predicate Contains<S>(s: Slice<S>, a: real) {
    s.startAngle <= a < s.endAngle
  }

  /** The index of the first slice whose [startAngle, endAngle) contains a, or None. */
  function FirstContaining<S>(slices: seq<Slice<S>>, a: real): (r: Option<int>)
    ensures r.None? <==> forall j :: 0 <= j < |slices| ==> !Contains(slices[j], a)
    ensures r.Some? ==> exists j :: 0 <= j < |slices| && Contains(slices[j], a) && slices[j].index == r.value
                                    && forall j' :: 0 <= j' < j ==> !Contains(slices[j'], a)
  {
    if slices == [] then None
    else if Contains(slices[0], a) then Some(slices[0].index)
    else
      var r := FirstContaining(slices[1..], a);
      assert forall j :: 1 <= j < |slices| ==> slices[j] == slices[1..][j - 1];
      r
  }

  /** Math.atan2 lies in [-pi, pi]; negative angles get 2*pi added, giving [0, 2*pi). */
  function NormalizeAngle(a: real): (n: real)
    requires -Pi <= a <= Pi
    ensures 0.0 <= n < TwoPi
    ensures n == a || n == a + TwoPi
  {
    if a < 0.0 then a + TwoPi else a
  }

  /** Math.sqrt(x*x + y*y) > size / 2, decided without the square root. */
  predicate OutsideWheel(x: real, y: real, size: real) {
    size < 0.0 || x * x + y * y > (size / 2.0) * (size / 2.0)
  }

  /**
   * Slice.getClickedSliceIndex: the click (clientX, clientY) relative to the
   * canvas rectangle's top-left corner and the wheel centre; null outside the
   * wheel; otherwise the index of the first slice containing the normalized
   * angle, or null. atan2 is Math.atan2(y, x) for that point.
   */
  method GetClickedSliceIndex<S>(clientX: real, clientY: real, rectLeft: real, rectTop: real, size: real,
                                 slices: seq<Slice<S>>, atan2: real)
    returns (r: Option<int>)
    requires -Pi <= atan2 <= Pi
    ensures OutsideWheel(clientX - rectLeft - size / 2.0, clientY - rectTop - size / 2.0, size) ==> r == None
    ensures !OutsideWheel(clientX - rectLeft - size / 2.0, clientY - rectTop - size / 2.0, size) ==>
              r == FirstContaining(slices, NormalizeAngle(atan2))
  {
    var x := clientX - rectLeft - size / 2.0;
    var y := clientY - rectTop - size / 2.0;
    if OutsideWheel(x, y, size) {
      return None;
    }
    var angle := if atan2 < 0.0 then atan2 + 2.0 * Pi else atan2;
    var i := 0;
    while i < |slices|
      invariant 0 <= i <= |slices|
      invariant FirstContaining(slices, angle) == FirstContaining(slices[i..], angle)
    {
      if angle >= slices[i].startAngle && angle < slices[i].endAngle {
        return Some(slices[i].index);
      }
      assert slices[i..][1..] == slices[i + 1..];
      i := i + 1;
    }
    return None;
  }

  /** A point on the rim (distance exactly size / 2) still counts as inside the wheel. */
  lemma RimIsInside(x: real, y: real, size: real)
    requires size >= 0.0 && x * x + y * y == (size / 2.0) * (size / 2.0)
    ensures !OutsideWheel(x, y, size)
  {
  }

  /** Some k in [0, n) has k*w <= a < (k+1)*w when 0 <= a < n*w. */
  lemma {:induction false} FindArc(a: real, w: real, n: nat) returns (k: int)
    requires w > 0.0 && 0.0 <= a < n as real * w
    ensures 0 <= k < n && k as real * w <= a < (k + 1) as real * w
  {
    assert n as real * w == (n - 1) as real * w + w;
    if a < (n - 1) as real * w {
      k := FindArc(a, w, n - 1);
    } else {
      k := n - 1;
    }
  }

  /** In the layout, a slice that contains a is the only one that does. */
  lemma OnlyOneContains<S>(slices: seq<Slice<S>>, segments: seq<S>, k: int, a: real)
    requires IsLayout(slices, segments) && 0 <= k < |slices| && Contains(slices[k], a)
    ensures forall j :: 0 <= j < |slices| && j != k ==> !Contains(slices[j], a)
    ensures FirstContaining(slices, a) == Some(k)
  {
    var w := SliceAngle(|segments|);
    assert k as real * w <= a < (k + 1) as real * w by {
      assert slices[k] == Slice(k as real * w, (k + 1) as real * w, k, segments[k]);
    }
    forall j | 0 <= j < |slices| && j != k
      ensures !Contains(slices[j], a)
    {
      assert slices[j] == Slice(j as real * w, (j + 1) as real * w, j, segments[j]);
      ArcsDisjoint(j, k, w, a);
    }
  }

  /** The arcs [j*w, (j+1)*w) and [k*w, (k+1)*w) of two different slices do not overlap. */
  lemma ArcsDisjoint(j: int, k: int, w: real, a: real)
    requires j != k && w > 0.0 && k as real * w <= a < (k + 1) as real * w
    ensures !(j as real * w <= a < (j + 1) as real * w)
  {
    var jEnd := (j + 1) as real * w;
    var kEnd := (k + 1) as real * w;
    if j < k {
      MulMonotone(j + 1, k, w);
      assert jEnd <= k as real * w <= a;
    } else {
      MulMonotone(k + 1, j, w);
      assert a < kEnd <= j as real * w;
    }
  }

  /**
   * On the layout of n segments every angle a in [0, 2*pi) hits exactly one slice:
   * the hit test finds a slice containing a, and no other slice contains it.
   */
  lemma LayoutHitsExactlyOne<S>(slices: seq<Slice<S>>, segments: seq<S>, a: real)
    requires IsLayout(slices, segments) && |segments| > 0 && 0.0 <= a < TwoPi
    ensures var r := FirstContaining(slices, a);
            && r.Some? && 0 <= r.value < |slices| && Contains(slices[r.value], a)
            && forall j :: 0 <= j < |slices| && j != r.value ==> !Contains(slices[j], a)
  {
    var k := FindArc(a, SliceAngle(|segments|), |segments|);
    OnlyOneContains(slices, segments, k, a);
  }

  /** A boundary angle k*w belongs to slice k, the later of the two slices meeting there. */
  lemma BoundaryBelongsToLaterSlice<S>(slices: seq<Slice<S>>, segments: seq<S>, k: int)
    requires IsLayout(slices, segments) && 0 <= k < |segments|
    ensures FirstContaining(slices, k as real * SliceAngle(|segments|)) == Some(k)
    ensures k > 0 ==> !Contains(slices[k - 1], k as real * SliceAngle(|segments|))
  {
    var w := SliceAngle(|segments|);
    var a := k as real * w;
    assert (k + 1) as real * w == a + w;
    assert slices[k] == Slice(a, (k + 1) as real * w, k, segments[k]);
    assert Contains(slices[k], a);
    OnlyOneContains(slices, segments, k, a);
  }
}
