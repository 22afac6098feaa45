# Force-plate and motion-graph viewer, modelled in Dafny

This project models the core of a web viewer for motion-capture data that
sits beside force-plate readings. The viewer has two revisions: `demo`,
plain three.js, and `demo2fiber`, React Three Fiber. The modelled core is:

- **Force-plate CSV parsers.** There are three revisions of
  `parseForcePlateData`. Each one splits the text into lines and the lines
  into comma-separated fields, and keeps the lines that have more than one
  field. It then reads four plate records `{x, y, z, t, px, py}` from fixed
  columns of each row. They are `ForcePlates` (every line),
  `ForcePlateData` (first line discarded as a header) and
  `LegacyForcePlates` (the `demo` revision, columns named by an anchor).
- **The force-arrow frame step** (`ForcePlateArrows`, and App's own copy in
  `App`). From the animation's progress it picks the row `round(p · n)`,
  then sets each plate's arrow length, direction and position from that
  row. After that it publishes the progress. It also registers one arrow
  per plate colour.
- **The graphs.** `FrontierGraph` computes a vertical scale from the data
  and draws one line per data key. `GraphWithVelocity` can add an
  angular-velocity field `v` to quaternion records and chooses the keys to
  draw. `App`'s `ThreeGraph` draws x, y, z and w. `Plot` holds the point
  and progress-line geometry they share.
- **App's track grouping.** It turns a flat keyframe track into records
  `{index, x, y, z[, w]}`. App also has the "無し" (none) button and the
  playback-speed label.
- **The plate overlay grids** (`ForcePlateOverlay`) and the click-to-seek
  progress bar (`PlaybackControls`).

`Js` models the parts of JavaScript the code relies on:

- **Array reads.** A read past the end gives `undefined`.
- **`String.split` and `join`** on one character. `"".split(c)` is `[""]`.
- **`Math.max`.** NaN propagates through it.
- **`Math.round`.** It is `floor(x + 1/2)`.
- **Object spread.** `{...o, k: v}` keeps the position of an existing key
  and appends a new one.
- **Decimal rendering of integers.**

Numbers are exact reals with an explicit NaN (`Num`). A field that may be
missing is a `Value` (`undefined` or a number). `Number(text)` is a function
parameter `toNumber`.

State that the code changes in place is modelled as classes whose methods
state the new state. The classes are the arrows and the refs holding them,
the graph components' `useState` values, the graph panel and the speed
control. The parsers, the scales and the point lists are functions.

## Model

| member | source | states |
|---|---|---|
| Js.At | demo2fiber/src/forcePlates.tsx:11-16 | An array read yields a value exactly when the index lies within the array, and that value is the element at the index; any other index reads `undefined`. |
| Js.JsMax | demo2fiber/src/FrontierGraph.tsx:19-20 | `Math.max` of a non-empty list is NaN exactly when an argument is NaN; otherwise it is one of the arguments and no argument exceeds it. |
| Js.Round | demo2fiber/src/ForcePlateArrows.tsx:28 | `Math.round(x)` is the integer r with x − ½ < r ≤ x + ½. |
| Js.Split | demo2fiber/src/forcePlates.tsx:9 | Splitting on one character gives at least one field, and no field contains the separator. |
| Js.SplitLength | demo2fiber/src/forcePlates.tsx:9 | There is one more field than there are separators in the text. |
| Js.SplitMoreThanOneIff | demo2fiber/src/forcePlates.tsx:9 | A line splits into more than one field exactly when it contains the separator, so `row.length > 1` keeps exactly the lines with a comma. |
| Js.JoinSplit | demo2fiber/src/forcePlateData.tsx:5 | Joining the fields of a split with the separator gives the text back. |
| Js.SplitWithoutSeparator | demo2fiber/src/forcePlateData.tsx:5 | Text without the separator splits into itself alone. |
| Js.SplitAfterFirst | demo2fiber/src/forcePlateData.tsx:5 | Splitting `a + sep + b`, with no separator in `a`, gives `a` followed by the fields of `b`. |
| Js.SplitJoin | demo2fiber/src/forcePlateData.tsx:5 | Joining separator-free fields and splitting again gives the same fields back. |
| Js.IncludesIffOccurs | demo2fiber/src/App.tsx:179-180 | `s.includes(sub)` holds exactly when `sub` occurs in `s` at some position. |
| Js.IncludesOccurs | demo2fiber/src/App.tsx:179-180 | When `includes` holds, `sub` occurs in `s` at some position. |
| Js.OccursIncludes | demo2fiber/src/App.tsx:179-180 | When `sub` occurs in `s` at some position, `includes` holds. |
| Js.NatToString | demo2fiber/src/App.tsx:213 | The decimal rendering of a natural number is a non-empty string of digits, with no leading zero except for 0 itself. |
| Js.NatToStringValue | demo2fiber/src/App.tsx:213 | Reading the rendered digits back as a decimal number gives the number. |
| Js.WithFields | demo2fiber/src/GraphWithVelocity.tsx:25 | `{...o, k: v}` holds v under k and every other key as before. The key list is unchanged when k was present; otherwise k is appended. |
| ForcePlates.FrameOf | demo2fiber/src/forcePlates.tsx:10-17 | Every row, however short, gives exactly four plate records. |
| ForcePlates.Rows | demo2fiber/src/forcePlates.tsx:9 | Each line gives one list of fields. |
| ForcePlates.KeepMultiField | demo2fiber/src/forcePlates.tsx:9 | The filter keeps no more rows than it is given, and every kept row has more than one field. |
| ForcePlates.ParseLines | demo2fiber/src/forcePlates.tsx:9-18 | The split-filter-map chain gives at most one frame per line, and every frame has four records. |
| ForcePlates.ParseForcePlateData | demo2fiber/src/forcePlates.tsx:7-19 | Every frame has four plate records, and there are at most as many frames as lines. |
| ForcePlates.KeepMultiFieldAppend | demo2fiber/src/forcePlates.tsx:9 | Filtering two blocks of rows gives the kept rows of the first block, then those of the second. |
| ForcePlates.ParseLinesAppend | demo2fiber/src/forcePlates.tsx:9 | Frames come out in the order of their lines: parsing two blocks of lines concatenates their frames. |
| ForcePlates.ParseLine | demo2fiber/src/forcePlates.tsx:9 | A single line gives one frame, read from its comma-separated fields, if it contains a comma, and no frame otherwise. |
| ForcePlates.ParseLinesLength | demo2fiber/src/forcePlates.tsx:9 | The number of frames equals the number of lines that contain a comma. |
| ForcePlates.FirstLineIsData | demo2fiber/src/forcePlates.tsx:9 | There is no header skip: the first line gives a frame when it contains a comma, followed by the frames of the rest of the text. |
| ForcePlates.EmptyTextNoFrames | demo2fiber/src/forcePlates.tsx:9 | Empty text gives no frame. |
| ForcePlates.AtMostOneFramePerLine | demo2fiber/src/forcePlates.tsx:9 | There are never more frames than newline-separated lines. |
| ForcePlates.FrameColumns | demo2fiber/src/forcePlates.tsx:8-16 | The plates are read in offset order 4, 37, 15, 26: z, x, y from columns o..o+2 and t, px, py from columns o+5..o+7. |
| ForcePlates.SameReadCellsSameFrame | demo2fiber/src/forcePlates.tsx:10-17 | A frame depends only on the 24 cells of the read columns. |
| ForcePlates.SkippedColumnIgnored | demo2fiber/src/forcePlates.tsx:10-17 | Columns o+3 and o+4 of each plate are never read: overwriting one changes no frame. |
| ForcePlates.RowWidth | demo2fiber/src/forcePlates.tsx:11-16 | A row of 45 or more cells reads every field from a cell. A shorter row gives NaN for plate 1's py instead of failing. |
| ForcePlateData.ParseForcePlateData | demo2fiber/src/forcePlateData.tsx:3-15 | Every frame has four records, and there are no more frames than newlines: the first line never yields one. |
| ForcePlateData.HeaderDiscarded | demo2fiber/src/forcePlateData.tsx:5 | The first line is discarded whatever it holds. The rest is parsed as the header-keeping parser parses it. |
| ForcePlateData.HeaderOnlyNoFrames | demo2fiber/src/forcePlateData.tsx:5 | Empty text, or text of a single line, gives no frame. |
| ForcePlateData.FrameCount | demo2fiber/src/forcePlateData.tsx:5 | The number of frames is the number of lines after the first that contain a comma. |
| ForcePlateData.SkipsHeaderOfOtherParser | demo2fiber/src/forcePlateData.tsx:5 | This parser on text T equals the header-keeping parser on the lines of T after the first, joined again with newlines. |
| LegacyForcePlates.AnchoredFrame | demo/src/forcePlates.ts:18-51 | Every row gives exactly four plate records. |
| LegacyForcePlates.ParseForcePlateData | demo/src/forcePlates.ts:17-52 | Every frame has four records. |
| LegacyForcePlates.AnchorsAreOffsetsPlusTwo | demo/src/forcePlates.ts:19-50 | Anchors 6, 39, 17, 28 are the later offsets plus two. Reading z, x, y, t, px, py at a−2, a−1, a, a+3, a+4, a+5 gives the later revision's records. |
| LegacyForcePlates.SameAsForcePlates | demo/src/forcePlates.ts:17-52 | On every text this revision gives the same frames, record by record and field by field, as the demo2fiber parser that keeps the first line. |
| LegacyForcePlates.SkippedColumnIgnored | demo/src/forcePlates.ts:19-50 | Columns a+1 and a+2 (7 and 8 for the first plate) are never read. |
| ForcePlateArrows.Arrow.constructor | demo2fiber/src/ForcePlateArrows.tsx:53 | A new arrow has the given direction, origin, length and colour. |
| ForcePlateArrows.Arrow.Update | demo2fiber/src/ForcePlateArrows.tsx:34-40 | Arrow i gets length y · vectorScale and direction (x, y, z), with z negated when the layout says so (the component's layout does, App's does not). Its position is (start + spacing · i − py · scale, 0, px · scale). |
| ForcePlateArrows.ApplyRow | demo2fiber/src/ForcePlateArrows.tsx:33-41 | Every arrow takes the pose of its own plate's record in the row. |
| ForcePlateArrows.Step | demo2fiber/src/ForcePlateArrows.tsx:24-44 | With no data, no action or no row at the rounded index, neither the arrows nor the progress ref change. Otherwise every arrow takes its plate's pose and the progress ref becomes time / duration. |
| ForcePlateArrows.ComponentStep | demo2fiber/src/ForcePlateArrows.tsx:24-44 | The component's callback over its own props. With no current row nothing changes. Otherwise arrow i gets length y · vectorScale, direction (x, y, −z) and position (start + spacing · i − py · scale, 0, px · scale), and the progress ref becomes time / duration. |
| ForcePlateArrows.PlaybackIndex | demo2fiber/src/ForcePlateArrows.tsx:28 | The row index is the integer nearest to progress · rows, with halves rounded up. |
| ForcePlateArrows.CurrentRow | demo2fiber/src/ForcePlateArrows.tsx:25-31 | No data or no action gives no row. A row found is one of the data's rows. |
| ForcePlateArrows.TargetPose | demo2fiber/src/ForcePlateArrows.tsx:34-40 | The direction is the record's (x, y, z), with z negated when the layout flips it. The position lies in the plane y = 0. |
| ForcePlateArrows.RegisterArrows | demo2fiber/src/ForcePlateArrows.tsx:48-54 | Slots 0–3 hold four distinct fresh arrows in the plate colours, pointing up, of length 1, at (index, 0, 0). Later slots are kept. |
| ForcePlateArrows.IndexWithinRows | demo2fiber/src/ForcePlateArrows.tsx:28 | For a progress in [0, 1] the row index lies in [0, n]. |
| ForcePlateArrows.IndexIsNearestRow | demo2fiber/src/ForcePlateArrows.tsx:28 | The index is the unique k with p · n − ½ < k ≤ p · n + ½. |
| ForcePlateArrows.RowExistsIff | demo2fiber/src/ForcePlateArrows.tsx:28-31 | For 0 ≤ time ≤ duration, a row is found exactly when (time / duration) · n < n − ½. |
| ForcePlateArrows.EndOfClipHasNoRow | demo2fiber/src/ForcePlateArrows.tsx:28-31 | At the end of the clip the index is n, which has no row, so that frame changes nothing. |
| ForcePlateArrows.IndexMonotone | demo2fiber/src/ForcePlateArrows.tsx:28 | A later progress never selects an earlier row. |
| Plot.PointX | demo2fiber/src/FrontierGraph.tsx:34 | The x of sample i, i / len, lies in [0, 1). |
| Plot.PointXIncreasing | demo2fiber/src/FrontierGraph.tsx:34 | Sample x strictly increases with the sample's index. |
| Plot.ProgressLineSpansBand | demo2fiber/src/FrontierGraph.tsx:43 | The progress line is vertical at the progress and runs from −1 to 1. |
| FrontierGraph.AbsValues | demo2fiber/src/FrontierGraph.tsx:20 | One magnitude per data key. |
| FrontierGraph.RecordMaxima | demo2fiber/src/FrontierGraph.tsx:19-21 | One maximum per record. |
| FrontierGraph.GraphScale | demo2fiber/src/FrontierGraph.tsx:18-22 | The scale as written, the maximum of the record maxima, is never negative when it is a number. |
| FrontierGraph.IntendedGraphScale | demo2fiber/src/FrontierGraph.tsx:18-22 | The corrected scale, with 1 among the arguments of the outer maximum, is at least 1 when it is a number. |
| FrontierGraph.GraphScaleIsLargestMagnitude | demo2fiber/src/FrontierGraph.tsx:18-22 | The recomputed scale is a number exactly when every record holds a number under every key. It is then the largest \|datum[key]\|, attained by some record and key, with no lower bound of 1. |
| FrontierGraph.LinePoints | demo2fiber/src/FrontierGraph.tsx:34 | One point per record. |
| FrontierGraph.Lines | demo2fiber/src/FrontierGraph.tsx:26-39 | Empty data gives no lines. Otherwise there is one line per key in key order; line k plots key k and has colour `colors[k]`, or none past the end of the list. |
| FrontierGraph.LinesWithinBand | demo2fiber/src/FrontierGraph.tsx:34 | Against any positive scale that bounds every magnitude, every plotted value of complete data is a number within [−1, 1]. |
| FrontierGraph.PlottedWithinBand | demo2fiber/src/FrontierGraph.tsx:34 | With every key present and a positive scale computed from the same data, every plotted value is a number within [−1, 1]. |
| FrontierGraph.MissingKeyPlotsZero | demo2fiber/src/FrontierGraph.tsx:34 | A record without the key is plotted at 0. |
| FrontierGraph.AllZeroDataPlotsNaN | demo2fiber/src/FrontierGraph.tsx:18-22 | Data that is zero throughout gets scale 0, and then every point of every line is NaN. |
| FrontierGraph.AllZeroScale | demo2fiber/src/FrontierGraph.tsx:18-22 | Data that is zero under every key gets scale 0. |
| FrontierGraph.IntendedScaleBounds | demo2fiber/src/FrontierGraph.tsx:18-22 | With the 1 inside `Math.max`, the scale of complete data is a number, at least 1 and at least every magnitude. |
| FrontierGraph.IntendedScalePlotsWithinBand | demo2fiber/src/FrontierGraph.tsx:18-22 | With the 1 inside `Math.max`, the scale is at least 1, and every plotted value of complete data lies within [−1, 1]. |
| FrontierGraph.FrontierGraphView.constructor | demo2fiber/src/FrontierGraph.tsx:14 | The scale starts at 1. |
| FrontierGraph.FrontierGraphView.DataChanged | demo2fiber/src/FrontierGraph.tsx:16-24 | Non-empty data replaces the scale with `GraphScale`, as written, with no floor of 1. Empty data keeps the previous scale. |
| FrontierGraph.FrontierGraphView.OnFrame | demo2fiber/src/FrontierGraph.tsx:48-50 | Every frame moves the progress line to the current progress and leaves the scale alone. |
| GraphWithVelocity.QuatOf | demo2fiber/src/GraphWithVelocity.tsx:26-27 | An undefined w becomes 1 in the quaternion, and a defined one is kept. |
| GraphWithVelocity.Dt | demo2fiber/src/GraphWithVelocity.tsx:28 | The time step is 0 without a duration; otherwise len time steps make up the duration. |
| GraphWithVelocity.VelocityAt | demo2fiber/src/GraphWithVelocity.tsx:23-32 | Record 0 gets velocity 0. |
| GraphWithVelocity.VisibleData | demo2fiber/src/GraphWithVelocity.tsx:16-35 | The visible list has the data's length. With velocity off, or no w in the first record, it is the data itself. |
| GraphWithVelocity.VisibleFields | demo2fiber/src/GraphWithVelocity.tsx:22-33 | With velocity shown, record 0 gets v = 0 and record i ≥ 1 the estimate between quaternions i−1 and i with time step (duration ?? 0) / len. Every other field of every record keeps its value and presence. |
| GraphWithVelocity.VelocityKeyPosition | demo2fiber/src/GraphWithVelocity.tsx:25 | A record without v gets v appended as its last key. |
| GraphWithVelocity.VelocityGraphView.constructor | demo2fiber/src/GraphWithVelocity.tsx:14 | The visible list starts empty. |
| GraphWithVelocity.VelocityGraphView.DataChanged | demo2fiber/src/GraphWithVelocity.tsx:16-35 | The effect's copy-and-overwrite loop stores exactly the visible list. |
| GraphWithVelocity.PresentKeysMembers | demo2fiber/src/GraphWithVelocity.tsx:43 | Keeps exactly the candidates the record has, without duplicating any. |
| GraphWithVelocity.OtherKeysMembers | demo2fiber/src/GraphWithVelocity.tsx:44-45 | Keeps exactly the keys that are neither `index` nor a priority key, without duplicating any. |
| GraphWithVelocity.PresentKeysAppend | demo2fiber/src/GraphWithVelocity.tsx:43 | The priority filter keeps the order x, y, z, w. |
| GraphWithVelocity.OtherKeysAppend | demo2fiber/src/GraphWithVelocity.tsx:44-45 | The other keys keep the record's key order. |
| GraphWithVelocity.DataKeys | demo2fiber/src/GraphWithVelocity.tsx:41-46 | `index` is never drawn. |
| GraphWithVelocity.DataKeysAreRecordKeys | demo2fiber/src/GraphWithVelocity.tsx:41-46 | The drawn keys are exactly the first record's keys except `index`, with no duplicates. The present priority keys come first, and every other key follows. |
| GraphWithVelocity.PriorityKeysWithoutW | demo2fiber/src/GraphWithVelocity.tsx:43 | A record with x, y, z and no w leads with x, y, z. |
| GraphWithVelocity.PriorityKeysWithW | demo2fiber/src/GraphWithVelocity.tsx:43 | A record with all four leads with x, y, z, w. |
| GraphWithVelocity.DataKeysOfTrackRecord | demo2fiber/src/GraphWithVelocity.tsx:41-46 | A track record `{index, x, y, z}` draws x, y, z. |
| GraphWithVelocity.DataKeysOfQuaternionRecord | demo2fiber/src/GraphWithVelocity.tsx:41-46 | A quaternion record draws x, y, z, w. |
| GraphWithVelocity.VelocityIsTheOtherKey | demo2fiber/src/GraphWithVelocity.tsx:44-45 | In a quaternion record with velocity, v is the only non-priority key other than `index`. |
| GraphWithVelocity.DataKeysOfVelocityRecord | demo2fiber/src/GraphWithVelocity.tsx:41-46 | A quaternion record with velocity draws x, y, z, w, then v. |
| GraphWithVelocity.Render | demo2fiber/src/GraphWithVelocity.tsx:37-53 | Nothing is rendered exactly when the visible list is empty. Otherwise the graph gets that list and its drawn keys. |
| GraphWithVelocity.EmptyDataRendersNothing | demo2fiber/src/GraphWithVelocity.tsx:17-20 | Empty input renders nothing, whatever the switch and duration. |
| GraphWithVelocity.VelocityDrawnLast | demo2fiber/src/GraphWithVelocity.tsx:22-46 | For quaternion data with velocity on, the graph draws x, y, z, w, then v. |
| App.InlineArrowStep | demo2fiber/src/App.tsx:42-62 | Same guards, index rule and progress update as the component's step, with App's constants and the force's z unnegated. |
| App.InlineDirectionKeepsZ | demo2fiber/src/App.tsx:53 | App's arrow direction is (x, y, z). With the same placement it differs from the component's only in the sign of z. |
| App.InlineRegisterArrows | demo2fiber/src/App.tsx:64-77 | Registers the same four arrows as the component's render. |
| App.GroupedTrack | demo2fiber/src/App.tsx:176-197 | A track gives ⌈len / step⌉ records. |
| App.TrackRecord | demo2fiber/src/App.tsx:180-195 | A record lists index, x, y, z, and w only for a quaternion track. |
| App.RecordCountIsCeiling | demo2fiber/src/App.tsx:179 | The record count is the least m with step · m ≥ len. |
| App.CountFromBounds | demo2fiber/src/App.tsx:179 | Any m with those bounds is the record count. |
| App.GroupTrack | demo2fiber/src/App.tsx:178-197 | The button's loop, stepping by 4 for a name containing "quaternion" and by 3 otherwise, pushes exactly the grouped records. |
| App.TrackRecordShape | demo2fiber/src/App.tsx:180-195 | Record k has index k and x, y, z from positions step·k, step·k+1 and step·k+2. Only quaternion records have w, from position 4k+3, and the keys are in literal order. |
| App.RecordValuesAt | demo2fiber/src/App.tsx:180-195 | A record's fields, in order, read the values from its start position on. |
| App.FlattenStep | demo2fiber/src/App.tsx:178-197 | Appending the next record keeps the fields, laid end to end, reading like the values. |
| App.FlattenGroupedTrack | demo2fiber/src/App.tsx:178-197 | The grouped records, laid end to end, read the track's values, with `undefined` only past the end. |
| App.UngroupRoundTrip | demo2fiber/src/App.tsx:178-197 | When the length is a multiple of the step, ungrouping the records gives exactly the track's values. |
| App.GraphPanel.constructor | demo2fiber/src/App.tsx:107 | The graph data starts empty. |
| App.GraphPanel.SelectTrack | demo2fiber/src/App.tsx:177-198 | A track's button shows that track's records. |
| App.GraphPanel.ClearSelection | demo2fiber/src/App.tsx:201-203 | The "無し" button empties the graph data. |
| App.ThreeScale | demo2fiber/src/App.tsx:267-270 | There is no scale exactly when there is no data. |
| App.RecordScaleBounds | demo2fiber/src/App.tsx:269 | A record's scale is a number exactly when x, y and z are. It is then at least 1 and at least each of \|x\|, \|y\|, \|z\|. |
| App.ThreeScaleBounds | demo2fiber/src/App.tsx:267-270 | The scale is a number exactly when every record has x, y and z. It is then at least 1 and at least every \|x\|, \|y\|, \|z\|. |
| App.AxisPoints | demo2fiber/src/App.tsx:278 | One point per record. |
| App.ThreeLines | demo2fiber/src/App.tsx:272-289 | No data gives no lines. Otherwise there are four lines when the first record defines w and three otherwise. |
| App.ThreeAxes | demo2fiber/src/App.tsx:277-288 | The axes are x, y, z, followed by w exactly when there is data and its first record defines w. |
| App.ThreeLineLayout | demo2fiber/src/App.tsx:272-319 | Line k has colour red, green, blue, magenta in that order, and its point i lies at x = i / len. |
| App.AxisWithinBand | demo2fiber/src/App.tsx:278 | Values within [−s, s] plot within [−1, 1] against a positive scale s. |
| App.ThreeAxisWithinBand | demo2fiber/src/App.tsx:276-282 | With x, y, z present everywhere, each of the x, y and z lines stays within [−1, 1]. |
| App.ThreeLinesWithinBand | demo2fiber/src/App.tsx:276-282 | With x, y, z present everywhere, the x, y and z lines stay within [−1, 1]. |
| App.ThreeWLineWithinBand | demo2fiber/src/App.tsx:283-286 | The w line is drawn, and stays within [−1, 1] when every w does, because the scale is at least 1. |
| App.SpeedLabel | demo2fiber/src/App.tsx:213 | The label ends in a percent sign after at least one character. |
| App.SpeedLabelReadsBack | demo2fiber/src/App.tsx:213 | For a slider value in [0, 1] the label is a whole percentage from 0 to 100 in digits, followed by "%". |
| App.SliderStepLabel | demo2fiber/src/App.tsx:208-213 | Slider step k / 100 is labelled "k%". |
| App.PlaybackSpeed.constructor | demo2fiber/src/App.tsx:108 | The label starts as "100", without a percent sign. |
| App.PlaybackSpeed.OnSpeedChange | demo2fiber/src/App.tsx:209-214 | The active action, if there is one, takes the value as its time scale, and the label follows the value. |
| ForcePlateOverlay.Overlay | demo2fiber/src/ForcePlateOverlay.tsx:6-13 | There is one grid per plate colour. |
| ForcePlateOverlay.OverlayLayout | demo2fiber/src/ForcePlateOverlay.tsx:7-11 | There are four grids. Each has size scale · 0.98, 5 divisions, an ash-gray centre and its plate's colour. Grid 0 is at start, and each grid is one spacing beyond the previous. |
| ForcePlateOverlay.OverlayExample | demo2fiber/src/ForcePlateOverlay.test.tsx:19-42 | Start 3, spacing 2 and scale 4 give grids at 3, 5, 7 and 9 of size 3.92, in tea green, strawberry red, sky blue and plum magenta. |
| ForcePlateOverlay.GridsApart | demo2fiber/src/ForcePlateOverlay.tsx:9-10 | Grids no wider than the spacing never overlap. |
| PlaybackControls.ClickProgress | demo2fiber/src/components/PlaybackControls.tsx:40-45 | A numeric progress lies in [0, 1]. The progress is NaN exactly for a click at the left edge of a zero-width bar. |
| PlaybackControls.ClickProgressClamps | demo2fiber/src/components/PlaybackControls.tsx:44 | On a bar of positive width, a click at or left of the bar gives 0, one at or past its end gives 1, and one inside gives exactly x / width. |
| PlaybackControls.ClickProgressMonotone | demo2fiber/src/components/PlaybackControls.tsx:44 | Clicking further right never gives a smaller progress. |
| PlaybackControls.FillReachesClick | demo2fiber/src/components/PlaybackControls.tsx:49 | After a click inside the bar, the fill is within 0–100 % and ends exactly at the clicked point. |
| PlaybackControls.ProgressListener.OnBarClick | demo2fiber/src/components/PlaybackControls.tsx:40-46 | Each click calls `onProgressChange` exactly once, with the clicked progress. |

## Findings

| source | as written | input that shows it | evidently intended | confidence | as-written member | corrected member |
|---|---|---|---|---|---|---|
| demo2fiber/src/FrontierGraph.tsx:19-21 | The `1` after the callback is `data.map`'s thisArg, so the scale has no lower bound. | Non-empty data that is 0 under every key: the scale is 0, and every point is 0 / 0 = NaN. | A floor of 1, as App's ThreeGraph has (demo2fiber/src/App.tsx:269): `Math.max(...data.map(...), 1)`. | medium, not executed | FrontierGraph.AllZeroDataPlotsNaN | FrontierGraph.IntendedScalePlotsWithinBand |

`FrontierGraph.GraphScale` is the scale as written, and
`FrontierGraph.FrontierGraphView` stores it, so the component shows the
behaviour this row reports. `IntendedGraphScale` is the corrected scale, with
its property proved beside it.

## Left out

- Asset loading: `fetch('pressure.csv')`, the FBX loaders, the animation mixer and `CharacterWithAnimation`. These are asynchronous I/O and a foreign library. The parsed frames, the active action's time and duration, and a track's name and values are parameters instead.
- `Number(text)` on a present cell is the parameter `toNumber`. String-to-float parsing is not modelled; only a missing cell's NaN is.
- The angular-velocity estimator (demo2fiber/src/estimateScalarAngularVelocity.tsx) is a function parameter. Its quaternion trigonometry is floating-point code outside the core.
- Arrow direction normalisation: `Pose.direction` is the vector handed to `normalize()`. The square-root normalisation itself is not modelled.
- Scene and geometry construction: `ForcePlateGrid` in demo2fiber/src/forcePlates.tsx and demo2fiber/src/forcePlateOverlay.tsx, and `addForcePlateGridToScene` in demo/src/forcePlates.ts. These mutate three.js objects; their layout rule start + spacing · i is the one `ForcePlateOverlay.Overlay` states.
- Rendering calls: MeshLine geometries and materials, `Text` labels (`toFixed(2)`), the background grids of the graphs, the wheel handler, the play/pause icon and the CSS string of the fill width. These are presentation only.
- Presentation and setup files: demo/src/main.ts, demo/src/lighting.ts, components/FourViewports.tsx, Navbar.tsx, LineChart.tsx, ChatSection.tsx and tailwind.config.js are not part of this model, nor is the colour palette's hex values. `Colors.Color` names the colours only.
- Floating point: numbers are exact reals. Rounding of `i / len`, of `progress * 100` and of the products in the arrow pose is not modelled.
- Js.Div: division by a zero scale gives NaN in the model. IEEE arithmetic gives ±Infinity for a non-zero numerator; only 0 / 0 is NaN.
- FrontierGraph.FrontierGraphView.DataChanged: requires at least one data key when there is data, as `GraphScale` does, for the same reason.
- FrontierGraph.GraphScale: requires at least one data key when there is data. `Math.max()` of no arguments is −Infinity, which `Num` does not represent.
- ForcePlateArrows.Step: requires at most four arrows, held in distinct objects. With a fifth arrow the source reads a field of an undefined record and throws. Aliased arrows would take the pose of their last index, and the model does not represent that.
- ForcePlateArrows.CurrentRow: a zero duration gives no row. In the source the index is then NaN or ±Infinity, which also reads no row, so the step returns early in both.
- LegacyForcePlates.SameAsForcePlates: a plate record is the `Datum` datatype, which has no property order. The demo revision builds `{x, y, z, t, px, py}` and demo2fiber `{z, x, y, t, px, py}`. No modelled operation reads that order.
- Js.Obj: keys keep insertion order. JavaScript lists integer-like keys first; the records here have none.
- PlaybackControls.ClickProgress: a negative zero and the ±Infinity intermediate of a zero-width bar are not represented. Only their clamped results are.
