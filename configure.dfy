/**
 * The segment helpers of the configuration page (assets/configure.js): a
 * colour picker that never hands out the same colour twice, the default
 * segments built with it, and the in-place update of one stored segment.
 * Math.random() is passed in as reals in [0, 1).
 */
module Configure {
  import opened Wrappers
  import opened JsValues

  /** lightColors: the palette the default segments take their border colours from. */
  const LightColors: seq<string> := [
    "#FFB3B3", "#FFD9B3", "#FFFFB3", "#D9FFB3", "#B3FFD9", "#B3FFFF", "#B3D9FF", "#D9B3FF",
    "#FFB3FF", "#FFCCCC", "#FFE6CC", "#FFFFE6", "#E6FFCC", "#CCE6FF", "#E6CCFF"
  ]

  const NoMoreColors: string := "No more colors available!"

  /** No value occurs more than once. */
  ghost predicate NoRepeats(s: seq<string>) {
    forall x :: multiset(s)[x] <= 1
  }

  /** Every element differs from every other. */
  ghost predicate Distinct(s: seq<string>) {
    forall i, j :: 0 <= i < j < |s| ==> s[i] != s[j]
  }

  lemma {:induction false} DistinctNoRepeats(s: seq<string>)
    requires Distinct(s)
    ensures NoRepeats(s)
  {
    if s != [] {
      var init := s[..|s| - 1];
      assert s == init + [s[|s| - 1]];
      assert Distinct(init);
      DistinctNoRepeats(init);
      assert s[|s| - 1] !in multiset(init);
    }
  }

  lemma NoRepeatsDistinct(s: seq<string>)
    requires NoRepeats(s)
    ensures Distinct(s)
  {
    forall i, j | 0 <= i < j < |s|
      ensures s[i] != s[j]
    {
      assert s == s[..i] + [s[i]] + s[i + 1..j] + [s[j]] + s[j + 1..];
      assert multiset(s)[s[i]] <= 1;
    }
  }

  /** The palette has fifteen different colours. */
  lemma LightColorsDistinct()
    ensures |LightColors| == 15 && NoRepeats(LightColors)
  {
    assert Distinct(LightColors);
    DistinctNoRepeats(LightColors);
  }

  /** Math.floor(Math.random() * n): an index of a list of n > 0 elements. */
  function RandomIndex(r: real, n: nat): (k: nat)
    requires 0.0 <= r < 1.0 && n > 0
    ensures k < n
  {
    var v := r * n as real;
    assert v < n as real by {
      assert n as real - v == (1.0 - r) * n as real;
    }
    v.Floor
  }

  /** s.splice(k, 1) on a value: s without its k-th element. */
  function Splice(s: seq<string>, k: nat): (t: seq<string>)
    requires k < |s|
    ensures |t| == |s| - 1
    ensures forall j :: 0 <= j < |t| ==> t[j] == if j < k then s[j] else s[j + 1]
  {
    s[..k] + s[k + 1..]
  }

  /** Splicing out one element removes exactly that element from the multiset. */
  lemma SpliceMultiset(s: seq<string>, k: nat)
    requires k < |s|
    ensures multiset(Splice(s, k)) + multiset{s[k]} == multiset(s)
  {
    assert s == s[..k] + [s[k]] + s[k + 1..];
  }

  /**
   * The picker createNonRepeatingColorPicker returns: its own copy of the
   * colours, of which the first len are still available, and getRandomColor
   * as Next.
   */
  class ColorPicker {
    /** availableColors, with room for the colours already handed out. */
    const buf: array<string>
    var len: nat
    /** The colours the picker was created with. */
    ghost const original: seq<string>
    /** The colours handed out so far, in order. */
    ghost var handedOut: seq<string>

    ghost predicate Valid()
      reads this, buf
    {
      && len <= buf.Length
      && multiset(buf[..len]) + multiset(handedOut) == multiset(original)
    }

    /** The colours still available, in their order in availableColors. */
    function Available(): seq<string>
      reads this, buf
      requires len <= buf.Length
    {
      buf[..len]
    }

    /** createNonRepeatingColorPicker(colors): [...colors] is copied into a fresh array. */
    constructor (colors: seq<string>)
      ensures Valid() && fresh(buf)
      ensures len == |colors| && Available() == colors
      ensures original == colors && handedOut == []
    {
      var a := new string[|colors|];
      forall i | 0 <= i < |colors| {
        a[i] := colors[i];
      }
      buf := a;
      len := |colors|;
      original := colors;
      handedOut := [];
      new;
      assert buf[..len] == colors;
    }

    /**
     * getRandomColor(): with no colour left, fail with "No more colors
     * available!"; otherwise remove the colour at Math.floor(Math.random() *
     * length) from the available ones and hand it out.
     */
    method Next(r: real) returns (res: Result<string>)
      requires Valid() && 0.0 <= r < 1.0
      modifies this, buf
      ensures Valid()
      ensures res.Failure? <==> old(len) == 0
      ensures res.Failure? ==> res.error == NoMoreColors && len == 0 && handedOut == old(handedOut)
      ensures res.Success? ==>
                var k := RandomIndex(r, old(len));
                && len == old(len) - 1
                && res.value == old(Available())[k]
                && Available() == Splice(old(Available()), k)
                && handedOut == old(handedOut) + [res.value]
    {
      if len == 0 {
        return Failure(NoMoreColors);
      }
      var n := len;
      var k := RandomIndex(r, n);
      ghost var s := buf[..n];
      ghost var given := handedOut;
      assert s == old(Available()) && multiset(s) + multiset(given) == multiset(original);
      var picked := buf[k];
      assert picked == s[k];
      RemoveAt(buf, n, k);
      ghost var rest := Splice(s, k);
      SpliceMultiset(s, k);
      len := n - 1;
      handedOut := given + [picked];
      assert Available() == rest;
      assert multiset(handedOut) == multiset(given) + multiset{picked};
      res := Success(picked);
    }
  }

  /** availableColors.splice(k, 1) on the first n cells: the cells after k move one place down. */
  method RemoveAt(a: array<string>, n: nat, k: nat)
    requires k < n <= a.Length
    modifies a
    ensures a[..n - 1] == Splice(old(a[..n]), k)
  {
    ghost var s := a[..n];
    var i := k;
    while i < n - 1
      invariant k <= i <= n - 1
      invariant forall j :: 0 <= j < k ==> a[j] == s[j]
      invariant forall j :: k <= j < i ==> a[j] == s[j + 1]
      invariant forall j :: i <= j < n ==> a[j] == s[j]
    {
      a[i] := a[i + 1];
      i := i + 1;
    }
    assert a[..n - 1] == Splice(s, k);
  }

  /**
   * Colours handed out by a picker created with colours that do not repeat
   * never repeat either, and none of them is still available.
   */
  lemma PickerNeverRepeats(available: seq<string>, handedOut: seq<string>, original: seq<string>)
    requires multiset(available) + multiset(handedOut) == multiset(original) && NoRepeats(original)
    ensures Distinct(handedOut)
    ensures forall i :: 0 <= i < |handedOut| ==> handedOut[i] !in multiset(available) && handedOut[i] in original
  {
    assert NoRepeats(handedOut) by {
      forall x ensures multiset(handedOut)[x] <= 1 {
        assert multiset(handedOut)[x] <= multiset(original)[x];
      }
    }
    NoRepeatsDistinct(handedOut);
    forall i | 0 <= i < |handedOut|
      ensures handedOut[i] !in multiset(available) && handedOut[i] in original
    {
      var x := handedOut[i];
      assert x in multiset(handedOut);
      assert multiset(available)[x] + multiset(handedOut)[x] == multiset(original)[x];
      assert x in multiset(original);
    }
  }

  const WinningMessage: string := "Congratulations! You have won a reward"

  /** The default segment at position index with the given border colour. */
  function SegmentObject(index: nat, color: string): map<string, Value> {
    map[
      "text" := Str("Prize " + NatToString(index + 1)),
      "borderColor" := Str(color),
      "max_number_of_win" := Num(100),
      "reward_value" := Num(0),
      "reward_type" := Str("offers"),
      "winning_message" := Str(WinningMessage),
      "index" := Num(index)
    ]
  }

  /** The default segments for the given border colours, one per colour, in order. */
  function Segments(colors: seq<string>): (segs: seq<map<string, Value>>)
    ensures |segs| == |colors|
  {
    seq(|colors|, i requires 0 <= i < |colors| => SegmentObject(i, colors[i]))
  }

  lemma SegmentsSnoc(colors: seq<string>, c: string)
    ensures Segments(colors + [c]) == Segments(colors) + [SegmentObject(|colors|, c)]
  {
    var l := Segments(colors + [c]);
    var r := Segments(colors) + [SegmentObject(|colors|, c)];
    forall i | 0 <= i < |l| ensures l[i] == r[i] {
      if i < |colors| {
        assert (colors + [c])[i] == colors[i];
      }
    }
  }

  /** Different positions carry different texts: "Prize 1", "Prize 2", ... */
  lemma SegmentTextsDiffer(i: nat, j: nat, c: string, d: string)
    requires i != j
    ensures SegmentObject(i, c)["text"] != SegmentObject(j, d)["text"]
  {
    var p := "Prize ";
    var a := NatToString(i + 1);
    var b := NatToString(j + 1);
    NatToStringInjective(i + 1, j + 1);
    assert (p + a)[|p|..] == a && (p + b)[|p|..] == b;
  }

  /**
   * setSegments(count): count segments from a fresh picker over lightColors,
   * drawing one random number each; the sixteenth colour request fails.
   * colors are the border colours handed out, in order.
   */
  method SetSegments(count: nat, rs: seq<real>) returns (r: Result<seq<map<string, Value>>>, ghost colors: seq<string>)
    requires |rs| >= count && forall i :: 0 <= i < |rs| ==> 0.0 <= rs[i] < 1.0
    ensures r.Failure? <==> count > |LightColors|
    ensures r.Failure? ==> r.error == NoMoreColors
    ensures r.Success? ==> |colors| == count && r.value == Segments(colors)
    ensures r.Success? ==> Distinct(colors) && forall i :: 0 <= i < |colors| ==> colors[i] in LightColors
  {
    var picker := new ColorPicker(LightColors);
    var segs: seq<map<string, Value>> := [];
    colors := [];
    for i := 0 to count
      invariant fresh(picker) && fresh(picker.buf)
      invariant picker.Valid() && picker.original == LightColors
      invariant i <= |LightColors| && picker.len == |LightColors| - i
      invariant colors == picker.handedOut && |colors| == i
      invariant segs == Segments(colors)
    {
      var c := picker.Next(rs[i]);
      if c.Failure? {
        return Failure(c.error), colors;
      }
      SegmentsSnoc(colors, c.value);
      colors := colors + [c.value];
      segs := segs + [SegmentObject(i, c.value)];
    }
    LightColorsDistinct();
    PickerNeverRepeats(picker.Available(), colors, LightColors);
    return Success(segs), colors;
  }

  /** {...a, ...b}: the fields of both objects, those of b winning. */
  function Merge(a: map<string, Value>, b: map<string, Value>): (m: map<string, Value>)
    ensures m.Keys == a.Keys + b.Keys
    ensures forall k :: k in b ==> m[k] == b[k]
    ensures forall k :: k in a && k !in b ==> m[k] == a[k]
  {
    a + b
  }

  /** SpinTheWheelSegments: the segments being configured; an array hole is None. */
  class SegmentStore {
    var segments: seq<Option<map<string, Value>>>

    /** let SpinTheWheelSegments = [] */
    constructor ()
      ensures segments == []
    {
      segments := [];
    }

    /**
     * updateSegegmentData(segmentIndex, data): element segmentIndex becomes
     * {...old, ...data}, a missing element counting as {}; writing past the
     * end leaves holes; every other element is unchanged. Returns true.
     */
    method UpdateSegmentData(segmentIndex: nat, data: map<string, Value>) returns (ok: bool)
      modifies this
      ensures ok
      ensures |segments| == if segmentIndex < |old(segments)| then |old(segments)| else segmentIndex + 1
      ensures segments[segmentIndex] ==
                Some(Merge(if segmentIndex < |old(segments)| then old(segments)[segmentIndex].GetOr(map[]) else map[], data))
      ensures forall j :: 0 <= j < |segments| && j != segmentIndex ==>
                segments[j] == if j < |old(segments)| then old(segments)[j] else None
    {
      var current := if segmentIndex < |segments| then segments[segmentIndex] else None;
      var merged := Merge(current.GetOr(map[]), data);
      if segmentIndex < |segments| {
        segments := segments[segmentIndex := Some(merged)];
      } else {
        segments := segments + seq(segmentIndex - |segments|, _ => None) + [Some(merged)];
      }
      return true;
    }
  }
}
