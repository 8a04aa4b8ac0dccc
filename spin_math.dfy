/**
 * The integer angle arithmetic of the spin engine (lib/spinitup.js):
 * the random stop angle inside the winning slice, the spin direction,
 * and the total rotation written into the CSS keyframe.
 * Math.random() is passed in as a real r with 0 <= r < 1.
 */
module SpinMath {

  /** The two directions the engine accepts, in the order of its `directions` array. */
  const Directions: seq<string> := ["clockwise", "anti-clockwise"]

  /** Width of one slice in degrees when the wheel has n segments (360 / n). */
  function SliceDegrees(n: nat): (w: real)
    requires n > 0
    ensures w > 0.0
    ensures n as real * w == 360.0
  {
    360.0 / n as real
  }

  /** Math.random() * w: for a positive width w it lies in [0, w). */
  function ScaleRandom(r: real, w: real): (p: real)
    requires 0.0 <= r < 1.0
    ensures w > 0.0 ==> 0.0 <= p < w
  {
    assert w > 0.0 ==> (1.0 - r) * w > 0.0;
    r * w
  }

  /** Flooring a value of [lo, hi + 1) lands in [floor(lo), hi + 1). */
  lemma FloorWithin(lo: real, hi: real, v: real)
    requires lo <= v < hi + 1.0
    ensures lo.Floor <= v.Floor && (v.Floor as real) < hi + 1.0
  {
    assert lo.Floor as real <= lo;
    assert v < v.Floor as real + 1.0;
    assert v.Floor as real <= v;
  }

  /** For integer bounds, flooring a value of [lo, hi + 1) lands in [lo, hi]. */
  lemma FloorWithinInt(lo: int, hi: int, v: real)
    requires lo as real <= v < hi as real + 1.0
    ensures lo <= v.Floor <= hi
  {
    assert v.Floor as real <= v;
    assert v < v.Floor as real + 1.0;
  }

  /**
   * minMax(min, max): Math.floor(Math.random() * (max - min + 1) + min).
   * For a non-empty window the result is at least floor(min) and below max + 1;
   * for integer bounds it lies in [min, max].
   */
  function MinMax(lo: real, hi: real, r: real): (k: int)
    requires 0.0 <= r < 1.0
    ensures lo <= hi ==> lo.Floor <= k && (k as real) < hi + 1.0
    ensures lo <= hi && lo == lo.Floor as real && hi == hi.Floor as real ==> lo <= k as real <= hi
  {
    var v := ScaleRandom(r, hi - lo + 1.0) + lo;
    if lo <= hi then
      FloorWithin(lo, hi, v);
      if lo == lo.Floor as real && hi == hi.Floor as real then
        FloorWithinInt(lo.Floor, hi.Floor, v);
        v.Floor
      else
        v.Floor
    else
      v.Floor
  }

  /** updateStopAngle: a random angle in [stopAt*slice - slice + 10, stopAt*slice - 10]. */
  function StopAngle(n: nat, stopAt: int, r: real): int
    requires n > 0 && 0.0 <= r < 1.0
  {
    PickInWindow(stopAt as real * SliceDegrees(n), SliceDegrees(n), r)
  }

  /** minMax(end - slice + 10, end - 10): the pick for the slice of the given width ending at end. */
  function PickInWindow(end: real, slice: real, r: real): int
    requires 0.0 <= r < 1.0
  {
    MinMax(end - slice + 10.0, end - 10.0, r)
  }

  /** With at most 18 segments every slice is at least 20 degrees wide. */
  lemma SliceAtLeast20(n: nat)
    requires 0 < n <= 18
    ensures SliceDegrees(n) >= 20.0
  {
    var slice := SliceDegrees(n);
    assert (slice - 20.0) * n as real == n as real * slice - 20.0 * n as real;
    NonNegativeFactor(slice - 20.0, n as real);
  }

  /** A factor whose product with a positive number is non-negative is itself non-negative. */
  lemma NonNegativeFactor(x: real, m: real)
    requires m > 0.0 && x * m >= 0.0
    ensures x >= 0.0
  {
  }

  /** The winning slice [(stopAt-1)*slice, stopAt*slice) lies within [0, 360]. */
  lemma WinningSliceBounds(n: nat, stopAt: int)
    requires 1 <= stopAt <= n
    ensures 0.0 <= (stopAt - 1) as real * SliceDegrees(n) == stopAt as real * SliceDegrees(n) - SliceDegrees(n)
    ensures stopAt as real * SliceDegrees(n) <= 360.0
  {
    var slice := SliceDegrees(n);
    assert (n - stopAt) as real * slice >= 0.0;
    assert (n - stopAt) as real * slice == n as real * slice - stopAt as real * slice;
  }

  /** The angle lies strictly inside slice stopAt, [(stopAt-1)*w, stopAt*w) with w = 360 / n. */
  predicate StopInSlice(n: nat, stopAt: int, angle: int)
    requires n > 0
  {
    (stopAt - 1) as real * SliceDegrees(n) < angle as real < stopAt as real * SliceDegrees(n)
  }

  /**
   * With at most 18 segments (slices of at least 20 degrees) the stop angle lies
   * strictly inside the winning slice, hence strictly between 0 and 360.
   */
  lemma StopAngleInsideSlice(n: nat, stopAt: int, r: real)
    requires 1 <= stopAt <= n <= 18 && 0.0 <= r < 1.0
    ensures StopInSlice(n, stopAt, StopAngle(n, stopAt, r))
    ensures 0 < StopAngle(n, stopAt, r) < 360
  {
    SliceAtLeast20(n);
    WinningSliceBounds(n, stopAt);
    WindowInside(stopAt as real * SliceDegrees(n), SliceDegrees(n), r);
  }

  /** The window [a - slice + 10, a - 10] of a slice at least 20 wide floors to inside (a - slice, a). */
  lemma WindowInside(a: real, slice: real, r: real)
    requires slice >= 20.0 && 0.0 <= r < 1.0
    ensures a - slice < PickInWindow(a, slice, r) as real < a
  {
    var lo := a - slice + 10.0;
    assert lo.Floor as real > lo - 1.0;
  }

  /**
   * When 360 / n is a whole number of degrees (n at most 18), the stop angle is an
   * integer in [(stopAt-1)*slice + 10, stopAt*slice - 10].
   */
  lemma StopAngleWindowExact(n: nat, stopAt: int, r: real)
    requires 1 <= stopAt <= n <= 18 && 360 % n == 0 && 0.0 <= r < 1.0
    ensures (stopAt - 1) * (360 / n) + 10 <= StopAngle(n, stopAt, r) <= stopAt * (360 / n) - 10
  {
    var w := 360 / n;
    WholeSlice(n);
    var end := stopAt * w;
    assert (stopAt - 1) * w == end - w;
    assert stopAt as real * SliceDegrees(n) == end as real by {
      assert stopAt as real * (w as real) == (stopAt * w) as real;
    }
    WindowExactInt(end, w, r);
  }

  /** When n divides 360, the slice is the whole number 360 / n of degrees, at least 20 for n at most 18. */
  lemma WholeSlice(n: nat)
    requires 1 <= n <= 18 && 360 % n == 0
    ensures SliceDegrees(n) == (360 / n) as real && 360 / n >= 20
  {
    var w := 360 / n;
    assert n * w == 360;
    assert n as real * (w as real) == 360.0;
    SliceAtLeast20(n);
  }

  /** For a whole-degree slice ending at a whole degree, the pick is an integer of [end - w + 10, end - 10]. */
  lemma WindowExactInt(end: int, w: int, r: real)
    requires w >= 20 && 0.0 <= r < 1.0
    ensures end - w + 10 <= PickInWindow(end as real, w as real, r) <= end - 10
  {
    assert end as real - w as real + 10.0 == (end - w + 10) as real;
    assert end as real - 10.0 == (end - 10) as real;
  }

  /**
   * With 40 segments (9-degree slices) the window is inverted, and with r = 0
   * the stop angle for segment 1 is 10 degrees, past the end (9 degrees) of its slice.
   */
  lemma StopAngleLeavesNarrowSlice()
    ensures StopAngle(40, 1, 0.0) == 10
    ensures StopAngle(40, 1, 0.0) as real > SliceDegrees(40)
  {
  }

  /** Any direction outside the accepted list becomes "clockwise". */
  function NormalizeDirection(d: string): (r: string)
    ensures r in Directions
    ensures d in Directions ==> r == d
    ensures d !in Directions ==> r == "clockwise"
  {
    if d in Directions then d else "clockwise"
  }

  /** The direction picked by Math.floor(Math.random() * 2) in the "random" branch. */
  function RandomDirection(r: real): string {
    if r < 0.5 then "clockwise" else "anti-clockwise"
  }

  /**
   * The direction style() ends with: it first normalizes, then looks for "random",
   * which by then can no longer occur; rDir stands for the second Math.random().
   */
  function ResolveDirection(d: string, rDir: real): string {
    var d1 := NormalizeDirection(d);
    if d1 == "random" then RandomDirection(rDir) else d1
  }

  /**
   * The random branch is dead: the resolved direction does not depend on the random
   * draw, is always one of the two accepted ones, and "random" itself turns clockwise.
   */
  lemma RandomDirectionUnreachable(d: string, r1: real, r2: real)
    ensures ResolveDirection(d, r1) == ResolveDirection(d, r2) == NormalizeDirection(d)
    ensures ResolveDirection(d, r1) in Directions
    ensures ResolveDirection("random", r1) == "clockwise"
  {
    assert "random" != Directions[0] && "random" != Directions[1];
  }

  /**
   * The keyframe rotation: spins full turns plus the part that leaves the wheel at
   * -stopAngle (mod 360), positive clockwise and negative anti-clockwise.
   */
  function RotationDegrees(spins: int, stopAngle: int, direction: string): (deg: int)
    ensures direction == "clockwise" ==> deg == 360 * spins + 360 - stopAngle
    ensures direction == "anti-clockwise" ==> deg == -(360 * spins + stopAngle)
    ensures direction in Directions ==> (deg + stopAngle) % 360 == 0
    ensures direction in Directions && spins >= 0 && 0 <= stopAngle <= 360 ==>
              deg >= 360 * spins || -deg >= 360 * spins
    ensures direction == "clockwise" && spins >= 0 && stopAngle < 360 ==> deg > 0
    ensures direction == "anti-clockwise" && spins >= 0 && stopAngle >= 0 ==> deg <= 0
  {
    var deg := 360 * spins;
    if direction == "clockwise" then deg + (360 - stopAngle)
    else if direction == "anti-clockwise" then -(deg + stopAngle)
    else deg
  }
}
