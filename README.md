# SpinItUp in Dafny

A model of the core of SpinItUp, a "spin the wheel" widget for the browser.
It covers four parts:

- **The spin engine** (`lib/spinitup.js`). It is a state machine over
  `stopped`, `spinning`, `finished` and `error`. It draws a random stop angle
  inside the winning slice, normalises the spin direction, computes the
  rotation written into the CSS keyframe, and reports every transition to a
  user callback. The model is the class `Engine.SpinItUp`, plus the pure
  angle arithmetic in `SpinMath`.
- **Slices** (`lib/slice.js`). `Slice.create` splits the circle into equal
  arcs. `getClickedSliceIndex` is the hit test. `draw` paints a slice: the
  wedge fill, an optional border, and a label in one of five text layouts.
  The geometry is in `SliceGeometry` and the drawing in `SliceRender`.
- **The wheel surface** (`lib/wheel.js`). It covers the square canvas, pin
  placement on the circle's edge, the "cover" fit of a background image on a
  high-density canvas, `drawSlices`, and `selectSlice`. This is the class
  `WheelSurface.Wheel`.
- **Configuration helpers** (`assets/configure.js`). These are
  `formDataToJSON` (a key-path parser that builds nested objects), the
  non-repeating colour picker, `setSegments` and `updateSegegmentData`. They
  are modelled in `FormData` and `Configure`.

The 2D canvas context is modelled in `Canvas` as a display list. Every
fill, stroke, text and image call is recorded together with the current
transformation, and `save`/`restore` work on a stack of drawing states.
Setting the canvas width or height resets the context, as a browser does.

These are inputs of the model:

- `Math.random()`: a real `r` with `0 <= r < 1`.
- `Date.now()`: an integer.
- `Math.atan2`, `Math.cos` and `Math.sin`: their results, or functions passed in.
- `getBoundingClientRect()`: a `Rect`.
- `window.devicePixelRatio` and the image size.

The `setTimeout` that calls `stop()` is the explicit method
`SpinItUp.TimerFires`. Angles are exact reals, and π is the double
literal 3.141592653589793. JavaScript objects in the configuration helpers
are `JsValues.Value`, which is a string, a number or an object.

Where the code and the project's own description differ, the model follows
the code:

- The stop angle is drawn from a ±10° window inside the winning slice
  (`lib/spinitup.js:59-62`). The description puts it between 25% and 75% of
  the slice.
- No pin offset is added to the stop angle.
- `start()` accepts only `stopped`, so a `finished` wheel must be reset
  first (`lib/spinitup.js:114`).
- The timer is never cancelled (`lib/spinitup.js:129`).
- The `'random'` direction is turned into `'clockwise'` before its branch
  can run (`lib/spinitup.js:82-89`).

## Model

| member | source | states |
|---|---|---|
| SpinMath.SliceDegrees | lib/spinitup.js:58 | the slice width 360/N is positive and N slices make exactly 360 degrees |
| SpinMath.MinMax | lib/spinitup.js:71-73 | floor(random·(max−min+1)+min) is at least floor(min) and below max+1; for integer bounds it lies in [min, max] |
| SpinMath.WinningSliceBounds | lib/spinitup.js:58-61 | for 1 ≤ stopAt ≤ N the winning slice [(stopAt−1)·slice, stopAt·slice] lies within [0, 360] |
| SpinMath.SliceAtLeast20 | lib/spinitup.js:58-61 | with at most 18 segments every slice is at least 20 degrees wide, so the ±10° window is not inverted |
| SpinMath.WindowInside | lib/spinitup.js:59-62 | the pick from [end−slice+10, end−10] of a slice at least 20 wide lies strictly inside (end−slice, end) |
| SpinMath.StopAngleInsideSlice | lib/spinitup.js:57-63 | for N ≤ 18 the stop angle lies strictly inside the winning slice and strictly between 0 and 360 |
| SpinMath.WindowExactInt | lib/spinitup.js:59-62 | for a whole-degree slice of width at least 20, the pick is an integer in [end−w+10, end−10] |
| SpinMath.StopAngleWindowExact | lib/spinitup.js:57-73 | when 360/N is an integer and N ≤ 18, the stop angle is in [(stopAt−1)·slice+10, stopAt·slice−10] |
| SpinMath.StopAngleLeavesNarrowSlice | lib/spinitup.js:57-62 | with 40 segments the window is inverted and the stop angle for segment 1 can fall past the end of its slice |
| SpinMath.NormalizeDirection | lib/spinitup.js:82-84 | the result is 'clockwise' or 'anti-clockwise'; a listed direction is kept and any other becomes 'clockwise' |
| SpinMath.RandomDirectionUnreachable | lib/spinitup.js:82-89 | the resolved direction does not depend on the random draw; 'random' itself ends up 'clockwise' |
| SpinMath.RotationDegrees | lib/spinitup.js:81-95 | clockwise 360·spins+360−stopAngle, anti-clockwise −(360·spins+stopAngle); both ≡ −stopAngle (mod 360), at least 360·spins in magnitude, and signed by direction |
| Engine.ConstructionError | lib/spinitup.js:13-42 | construction goes on exactly when the element is valid and segments[stopAt−1] exists; otherwise it reports the constructor's error message |
| Engine.DefaultStopAtThrows | lib/spinitup.js:34-41 | the default stopAt: null always makes the constructor throw |
| Engine.Entered | lib/spinitup.js:113-152 | an operation that is reported as entering a state moves to that state; a refused one leaves the state unchanged |
| Engine.FinishedOnlyAfterSpinning | lib/spinitup.js:113-142 | in any sequence of start/stop/reset calls, every entry into finished comes right after an entry into spinning: never two finishes for one spin |
| Engine.FinishedNeedsReset | lib/spinitup.js:113-119 | start on a finished wheel changes nothing; reset then start always spins, and a stop then finishes |
| Engine.StaleTimerEndsNextSpin | lib/spinitup.js:125-152 | the timer of a first spin, never cancelled, ends a second spin started after reset |
| Engine.DefaultSegments | lib/spinitup.js:33 | six default segments, segment i being {segment: i+1} |
| Engine.ApplyDefaults | lib/spinitup.js:29-38 | each option absent from the caller's takes its default: 2 spins, clockwise, the six segments, stopAt null, a callback function |
| Engine.StopAtOnlyOptions | lib/spinitup.js:29-42 | with only stopAt = k given, the engine spins twice clockwise over six segments, and it constructs exactly when 1 ≤ k ≤ 6 |
| Engine.Construct | lib/spinitup.js:13-52 | merges the defaults with the options, then fails exactly when the constructor throws; otherwise a stopped engine with the merged settings |
| Engine.SpinItUp.constructor | lib/spinitup.js:13-52 | a new engine is stopped, has no pending timer or events, and has its first stop angle and normalised direction |
| Engine.SpinItUp.Create | lib/spinitup.js:13-52 | fails exactly when the constructor throws, with its message; otherwise a fresh stopped engine with 1 ≤ stopAt ≤ N, the given spins and callback, a normalised direction and its first stop angle |
| Engine.SpinItUp.UpdateStopAngle | lib/spinitup.js:57-63 | sets the stop angle to the minMax pick of the winning slice's window; for N ≤ 18 it lies inside the slice |
| Engine.SpinItUp.Style | lib/spinitup.js:78-97 | new stop angle, direction normalised, rotation recomputed, and the engine invariant kept |
| Engine.SpinItUp.Callback | lib/spinitup.js:167-171 | one event with the data and the timestamp when the callback is a function, none otherwise |
| Engine.SpinItUp.Start | lib/spinitup.js:113-119 | from stopped: spinning, new stop angle, one more timer, a 'spinning' report; from any other state: nothing changes but a 'Wheel is already spinning' report |
| Engine.SpinItUp.Spin | lib/spinitup.js:125-130 | style() is run, the current state is reported, and one timer is added |
| Engine.SpinItUp.Stop | lib/spinitup.js:136-142 | from spinning: finished, reporting segments[stopAt−1] whatever the angle; from any other state: only a 'Cannot stop' report |
| Engine.SpinItUp.TimerFires | lib/spinitup.js:129-142 | a pending timer runs stop(); after an early stop or a reset it only reports 'Cannot stop' |
| Engine.SpinItUp.Reset | lib/spinitup.js:148-152 | from any state: stopped, and the callback is told |
| Engine.EarlyStopThenTimer | lib/spinitup.js:125-142 | start, an early stop and then the timer give exactly: spinning, finished with the winner, 'Cannot stop' |
| Canvas.Inverse | lib/slice.js:102-108 | rotate(−a) undoes rotate(a), and translate(−x, −y) undoes translate(x, y) |
| Canvas.ThenInverse | lib/slice.js:102-108 | a translation or rotation followed by its inverse leaves the transformation as it was |
| Canvas.Context.constructor | lib/wheel.js:30 | a fresh context: nothing drawn, no saved state, identity transformation, the default styles |
| Canvas.Context.ResetToDefaults | lib/wheel.js:103-104 | setting the canvas size clears the bitmap and returns the context to the default state |
| Canvas.Context.ClearRect | lib/wheel.js:170 | records the erase of the rectangle under the current transformation, which decides how much of the bitmap it covers |
| Canvas.Context.Save | lib/wheel.js:173 | pushes the current drawing state |
| Canvas.Context.Restore | lib/wheel.js:176 | pops the last saved state and makes it current; with nothing saved, nothing changes |
| Canvas.Context.Translate | lib/wheel.js:174 | the transformation is followed by the translation |
| Canvas.Context.Rotate | lib/wheel.js:175 | the transformation is followed by the rotation |
| Canvas.Context.Scale | lib/wheel.js:111 | the transformation is followed by the scaling |
| Canvas.Context.WedgePath | lib/slice.js:200-203 | the current path becomes the wedge from the centre along the arc |
| Canvas.Context.Fill | lib/slice.js:206 | records a fill of the current path in the fill style, under the current transformation |
| Canvas.Context.Stroke | lib/slice.js:211 | records a stroke of the current path with the line width and stroke style |
| Canvas.Context.FillText | lib/slice.js:105 | records the text with the current font, colour, alignment and baseline |
| Canvas.Context.DrawImage | lib/wheel.js:143-147 | records the image at the given place and size |
| SliceGeometry.SliceAngle | lib/slice.js:23 | each slice is 2π/N wide, and N of them make 2π |
| SliceGeometry.Create | lib/slice.js:15-28 | N slices in order; slice i has index i and segment i and covers [i·2π/N, (i+1)·2π/N) |
| SliceGeometry.LayoutPartitionsCircle | lib/slice.js:19-26 | slice 0 starts at 0, each end is the next start, every width is 2π/N, and the last end is 2π |
| SliceGeometry.NormalizeAngle | lib/slice.js:58-59 | an atan2 result in [−π, π] becomes an angle in [0, 2π) that differs from it by 0 or 2π |
| SliceGeometry.FirstContaining | lib/slice.js:62-73 | None exactly when no slice has start ≤ a < end; otherwise the index of a slice that does |
| SliceGeometry.GetClickedSliceIndex | lib/slice.js:42-74 | null when the click is farther than size/2 from the centre; otherwise the first slice whose half-open arc holds the normalised angle |
| SliceGeometry.RimIsInside | lib/slice.js:49-55 | a click exactly on the rim (distance size/2) is not outside the wheel |
| SliceGeometry.FindArc | lib/slice.js:62-70 | every angle in [0, N·w) lies in the arc [k·w, (k+1)·w) of some k < N |
| SliceGeometry.ArcsDisjoint | lib/slice.js:63-66 | two different arcs [j·w, (j+1)·w) and [k·w, (k+1)·w) share no angle |
| SliceGeometry.OnlyOneContains | lib/slice.js:62-70 | on the layout of create, a slice holding the angle is the only one, and the search returns its index |
| SliceGeometry.LayoutHitsExactlyOne | lib/slice.js:62-73 | on the layout of create, every angle in [0, 2π) is in exactly one slice, which the search returns |
| SliceGeometry.BoundaryBelongsToLaterSlice | lib/slice.js:63-66 | the boundary angle k·2π/N belongs to slice k and not to slice k−1 |
| SliceRender.Truncate | lib/slice.js:179-183 | the label is the prefix of the text of length min(len, 16) |
| SliceRender.FontSize | lib/slice.js:187-198 | the font size is min(15·16/max(len,1), fontSize): it exceeds neither and equals one of them |
| SliceRender.FontSizeNonIncreasing | lib/slice.js:187-196 | a longer label never gets a larger font |
| SliceRender.ParseTextMode | lib/slice.js:224-228 | each known textPosition selects its layout; an unknown one falls back to left-to-right |
| SliceRender.Reverse | lib/slice.js:116 | text.split("").reverse().join("") has the text's length |
| SliceRender.ReverseAt | lib/slice.js:116 | character i of the reversed text is character len−1−i of the text |
| SliceRender.ReverseInvolutive | lib/slice.js:113-119 | reversing twice gives the text back |
| SliceRender.RowY | lib/slice.js:127 | row offsets go down (non-negative) for a positive step and up for a negative one |
| SliceRender.Column | lib/slice.js:124-130 | one text per character, with the same pen and transformation |
| SliceRender.ColumnAt | lib/slice.js:126-128 | the i-th text of a column is character i at (0, i·step) |
| SliceRender.VerticalLayoutsSpellText | lib/slice.js:124-141 | under the anchor's transformation, top-to-bottom's i-th text is character i at y = 18·i, and bottom-to-top's (len−1−i)-th text is character i at y = −18·(len−1−i): read downwards, both spell the label |
| SliceRender.LabelOpsAreTexts | lib/slice.js:98-153 | every label layout only draws texts, all in the label's pen |
| SliceRender.DrawLabel | lib/slice.js:98-153 | draws the layout's texts and undoes its own translate and rotate |
| SliceRender.DrawPlaced | lib/slice.js:98-153 | from an anchor already moved to, draws exactly the texts of the chosen layout and leaves the transformation as it found it |
| SliceRender.DrawTurned | lib/slice.js:102-108 | one text at the origin after the rotation, and the rotation is undone |
| SliceRender.DrawColumn | lib/slice.js:124-141 | draws the column of characters, leaving the transformation as it was |
| SliceRender.UnstyledSegment | lib/slice.js:164-177 | a segment with no style gets the destructuring defaults: empty text, a positive border width, left-to-right, and the same transparent colour for the background and the border |
| SliceRender.LabelAnchor | lib/slice.js:214-217 | the label angle is the middle of the arc, and its distance from the centre is (size/2.5 − padding)·textOffset |
| SliceRender.AnchorPoint | lib/slice.js:214-217 | the label point is the centre plus the anchor distance along cos and sin of the mid-angle |
| SliceRender.AnchorOnCircle | lib/slice.js:214-217 | with cos² + sin² = 1 at the label angle, the label point is at the anchor distance from the canvas centre |
| SliceRender.FillColor | lib/slice.js:205 | 'yellow' when selected, backgroundColor otherwise |
| SliceRender.LabelPen | lib/slice.js:219-222 | the label pen has the segment's colour, alignment and baseline and the font size min(15·16/max(len,1), fontSize) of the truncated text |
| SliceRender.WedgeOps | lib/slice.js:200-212 | the wedge is filled, and stroked with the border width and colour exactly when borderWidth > 0 |
| SliceRender.SliceOpsShape | lib/slice.js:158-229 | a slice's drawing starts with the wedge fill in the highlight or background colour, has a border stroke exactly when borderWidth > 0, and then only texts, none in a font larger than fontSize |
| SliceRender.DrawWedge | lib/slice.js:200-212 | draws the wedge; the line width and stroke style change only when a border is drawn |
| SliceRender.DrawSliceLabel | lib/slice.js:214-228 | sets the label pen and draws the label in its layout, leaving the transformation as it was |
| SliceRender.Draw | lib/slice.js:158-229 | draws exactly the slice's wedge and label, leaving the transformation as it was |
| WheelSurface.GetCircleEdge | lib/wheel.js:45-63 | left/right/top/bottom give the midpoint of that side (each named one stated), center the centre, and the point lies on the rectangle's boundary; any other position is the error |
| WheelSurface.EdgeOnInscribedCircle | lib/wheel.js:45-60 | on a square canvas each side position lies on the inscribed circle, on an axis through the centre |
| WheelSurface.PinPosition | lib/wheel.js:73 | the pin position is 'top' unless one is configured |
| WheelSurface.EffectiveDpr | lib/wheel.js:96 | the device pixel ratio, or 1 when it is absent or zero; always positive |
| WheelSurface.CoverPlacementUnique | lib/wheel.js:117-137 | there is only one cover placement of an image on a square |
| WheelSurface.CoverFit | lib/wheel.js:117-137 | the image keeps its aspect ratio, is at least as large as the square on both sides and equal on one, and is centred |
| WheelSurface.WiderImageCovers | lib/wheel.js:127-131 | a wider image at the square's height keeps its aspect ratio and is at least as wide as the square |
| WheelSurface.TallerImageCovers | lib/wheel.js:132-136 | any other image at the square's width keeps its aspect ratio and is at least as tall as the square |
| WheelSurface.SelectedOnLayout | lib/wheel.js:158-162 | on the layout of create, exactly the slice at the selected position is highlighted; null highlights none |
| WheelSurface.WheelOps | lib/wheel.js:158-162 | every slice contributes at least one drawing call |
| WheelSurface.WheelFillsEveryWedge | lib/wheel.js:158-162 | the wheel's drawing fills every slice's wedge, highlighted exactly when that slice is selected |
| WheelSurface.Wheel.constructor | lib/wheel.js:15-42 | the size is min(offsetWidth, offsetHeight), and the canvas is square at that size |
| WheelSurface.Wheel.SetPin | lib/wheel.js:72-86 | the pin goes to the configured edge ('top' by default) and the hub to the centre; an invalid position is the error |
| WheelSurface.Wheel.Create | lib/wheel.js:15-42 | fails exactly for an invalid pin position; otherwise a square wheel of the smaller side with the pin and hub placed |
| WheelSurface.Wheel.DrawImage | lib/wheel.js:93-148 | the bitmap is size·dpr per side, the CSS size stays size, the context is scaled by dpr, and the image is drawn once with the cover placement |
| WheelSurface.Wheel.DrawSlices | lib/wheel.js:158-162 | draws every slice once, in order, highlighted exactly when its index is the selected one |
| WheelSurface.Wheel.TurnAndRestore | lib/wheel.js:173-176 | the save, translate, rotate and restore leave the drawing state and the saved stack as they were |
| WheelSurface.Wheel.SelectSlice | lib/wheel.js:165-180 | erases the canvas rectangle under the current transformation (all of the bitmap when there is none), then redraws the slices with the index highlighted; the save/translate/rotate/restore leaves the transformation unchanged |
| FormData.SplitFrom | assets/configure.js:77 | splitting always yields at least one piece |
| FormData.SplitFromPlain | assets/configure.js:77 | no piece of the split contains a delimiter |
| FormData.NonEmpty | assets/configure.js:77 | filter(Boolean) never adds pieces |
| FormData.NonEmptyDropsEmpty | assets/configure.js:77 | filter(Boolean) keeps only non-empty pieces |
| FormData.NonEmptyKeepsPlain | assets/configure.js:77 | filtering keeps pieces free of delimiters |
| FormData.SplitKey | assets/configure.js:77 | every piece of a key path is non-empty and free of delimiters |
| FormData.SplitKeyCutsAtEachDelimiter | assets/configure.js:77 | after filtering, the pattern with the two-character '].' gives the same path as cutting at every delimiter character |
| FormData.SplitPlainPrefix | assets/configure.js:77 | a run of ordinary characters only extends the current piece |
| FormData.SplitBrackets | assets/configure.js:77 | a tail [q1]...[qn] of plain pieces splits into q1..qn |
| FormData.BracketKeyRoundTrip | assets/configure.js:77 | the name p0[p1]...[pn] of plain, non-empty pieces splits back into p0..pn |
| FormData.PinOffsetKey | assets/configure.js:77 | pin[offsets][--pin-offset-x] splits into pin, offsets, --pin-offset-x |
| FormData.Insert | assets/configure.js:80-88 | fails exactly when the walk meets a truthy string or number before the last key; otherwise the value is at the path and only the first key is added at the top |
| FormData.InsertKeepsOtherPaths | assets/configure.js:80-88 | writing at path p leaves the value at any path that parts from p unchanged, so keys sharing a prefix merge |
| FormData.EmptyLookup | assets/configure.js:74 | the result starts as an object with nothing in it |
| FormData.FormDataToJson | assets/configure.js:73-92 | the loop builds the object of all entries, in order |
| FormData.BuildFailureSticks | assets/configure.js:76-89 | once an entry throws, the whole conversion throws |
| FormData.LastWriteWins | assets/configure.js:76-89 | the last entry's value is at its path: a later entry overwrites an earlier one with the same path |
| FormData.LaterEntryKeepsOtherPaths | assets/configure.js:76-89 | a later entry leaves the values at paths that part from its own unchanged |
| JsValues.NatToString | assets/configure.js:370 | a number prints as one or more decimal digits, a single digit exactly below 10 |
| JsValues.NatToStringRoundTrip | assets/configure.js:370 | reading the printed digits back gives the number |
| JsValues.NatToStringInjective | assets/configure.js:370 | different numbers print differently |
| Configure.LightColorsDistinct | assets/configure.js:43-59 | the palette has 15 colours, none repeated |
| Configure.RandomIndex | assets/configure.js:68 | Math.floor(Math.random()·length) is an index of the list |
| Configure.Splice | assets/configure.js:69 | splice(k, 1) leaves the elements before k and shifts those after it down by one |
| Configure.SpliceMultiset | assets/configure.js:69 | splice(k, 1) removes exactly element k |
| Configure.RemoveAt | assets/configure.js:69 | the in-place shift leaves the first n−1 cells equal to the list with element k removed |
| Configure.ColorPicker.constructor | assets/configure.js:62-63 | the picker holds its own copy of the colours, all available |
| Configure.ColorPicker.Next | assets/configure.js:64-70 | with no colour left, the error 'No more colors available!'; otherwise the colour at the random index is removed and handed out |
| Configure.PickerNeverRepeats | assets/configure.js:62-70 | from a palette without repeats, the colours handed out are distinct, drawn from the palette, and no longer available |
| Configure.Segments | assets/configure.js:368-378 | one segment per colour |
| Configure.SegmentTextsDiffer | assets/configure.js:370 | segments at different positions have different texts, 'Prize i+1' |
| Configure.SetSegments | assets/configure.js:366-380 | fails with 'No more colors available!' exactly when count > 15; otherwise count default segments with distinct palette colours |
| Configure.Merge | assets/configure.js:253 | {...a, ...b} has the keys of both, and b's value wins |
| Configure.SegmentStore.constructor | assets/configure.js:166 | the segment list starts empty |
| Configure.SegmentStore.UpdateSegmentData | assets/configure.js:252-255 | only element segmentIndex changes, to {...old, ...data}; writing past the end leaves holes; it returns true |

## Left out

- DOM and CSS side effects are not modelled: the `<style>` keyframe injection, `elem.style.animation`/`transform`, the animation key string, the container div, the element replacement and the pin/hub `style` strings. The engine keeps the rotation it would write, and the wheel keeps the pin and hub points.
- The float `speed = deg / duration` is not modelled, and neither is `options.duration`.
- The `HTMLElement` check is a boolean input.
- Engine.ApplyDefaults: an option passed explicitly as `undefined`, which the spread copies over the default, is not modelled; an option is either given or absent. The `easing`, `duration` and `rotate` options only feed the CSS animation and are left out with it.
- Engine.SpinItUp.Callback: the user callback is assumed to return normally and not to call back into the engine. A callback that throws on 'spinning' would abort `#spin` before the timer is set, and one that calls `reset()` from 'finished' would leave the engine stopped; Start, Stop and Reset do not capture either.
- `SpinItUp.log` is called throughout `lib/slice.js`, but `lib/spinitup.js` defines no such method. The model treats those logging calls as no-ops.
- SliceRender.Truncate, SliceRender.FontSize, SliceRender.Reverse, SliceRender.Column and SliceRender.LabelOps count and split label text by Unicode characters, whereas `text.length`, `slice` and `split("")` work on UTF-16 code units: a label with characters outside the Basic Multilingual Plane (emoji) is truncated and sized by a different length, and split into lone surrogates in the reversed and vertical layouts, in the source.
- SliceRender.ParseTextMode: names inherited from `Object.prototype` (`constructor`, `toString`, `__proto__`, ...) are found by `this.textPositions[textPosition]` and do not fall back to left-to-right in the source; they call that inherited member instead, which draws no label or throws after the wedge is drawn. The model treats them as unknown names.
- Floating point is not modelled: angles, sizes and ratios are exact reals, so rounding and NaN are out of scope.
- Engine.ConstructionError: `segments[stopAt - 1]` is modelled as "the element exists". A segment that is itself falsy, or a fractional `stopAt`, is not modelled.
- WheelSurface.Wheel.DrawImage: requires a positive image width and height. A zero-size image makes the aspect ratio Infinity or NaN in the source.
- WheelSurface.CoverFit: requires a positive image width and height, for the same reason.
- `imageSmoothingEnabled` and `imageSmoothingQuality` are not modelled: they affect only pixel quality.
- The canvas width and height are not truncated to 32 bits.
- `addClickListener` is not modelled, because its body is commented out in the source.
- WheelSurface.Wheel.SelectSlice: the `drawAllSlices` callback is taken to redraw this wheel's slices with `drawSlices`. An arbitrary callback is not modelled.
- FormData.Insert: writing under a string or number is modelled as the strict-mode TypeError. A sloppy-mode script would silently ignore that write instead.
- FormData.Insert: inherited object properties such as `__proto__` or `constructor` used as keys are not modelled. Keys are plain map entries.
- FormData.FormDataToJson: the cursor walk of the inner loop is modelled as a recursive update of the nested value rather than through a mutable reference.
- Configure.SegmentStore.UpdateSegmentData: `segmentIndex` is a natural number. Negative, fractional or NaN indices, which JavaScript would store as object properties, are not modelled.
- `dist/spinitup.js` is a bundled copy of `lib/spinitup.js` and is not modelled separately.
- `assets/preview.js`, `assets/main.js`, `webpack.config.js` and the DOM-bound helpers of `assets/configure.js` are not part of this model. Those helpers are form validation, file readers, the wall-clock date helpers, SaveConfig and the message emitter. JsValues.Value has no case for the File objects a file input puts into the form data; formDataToJSON would store them unchanged.
