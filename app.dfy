/** The application shell (demo2fiber/src/App.tsx): its force-arrow step,
    the grouping of a motion track into x/y/z(/w) records for the graph,
    the graph of those records (`ThreeGraph`) and the playback-speed label. */
module App {
  import opened Js
  import opened Colors
  import opened Plot
  import opened ForcePlates
  import opened ForcePlateArrows

  // ---------------------------------------------------------------------------
  // The force arrows

  const ForcePlateStartDistance: real := 0.2
  const ForcePlateSpacing: real := 0.5
  const ForcePlateLength: real := 0.5
  const ForcePlateVectorDisplayScale: real := 1.0 / 1000.0

  /** The layout of the arrow step inside App: its own constants, and the
      force z kept as it is in the direction. */
  const AppArrowLayout: ArrowLayout :=
    ArrowLayout(ForcePlateStartDistance, ForcePlateSpacing, ForcePlateLength, ForcePlateVectorDisplayScale, false)

  /** App's own copy of the frame step: the same guards, index rule and
      progress update as the ForcePlateArrows component, with App's layout. */
  method InlineArrowStep(refs: ArrowRefs, data: seq<Frame>, action: Option<Action>, progress: ProgressRef)
    requires ValidSeries(data)
    requires |refs.current| <= PlateCount
    requires Distinct(refs.current)
    modifies refs.current, progress
    ensures CurrentRow(data, action).None? ==>
      && progress.current == old(progress.current)
      && forall i :: 0 <= i < |refs.current| ==> refs.current[i].CurrentPose() == old(refs.current[i].CurrentPose())
    ensures CurrentRow(data, action).Some? ==>
      && progress.current == action.value.time / action.value.duration
      && forall i :: 0 <= i < |refs.current| ==>
           refs.current[i].CurrentPose() == TargetPose(CurrentRow(data, action).value[i], i, AppArrowLayout)
  {
    Step(refs, data, action, progress, AppArrowLayout);
  }

  /** App's arrows point along the force itself; the component's arrows,
      given the same placement, differ only in a negated z of the direction. */
  lemma InlineDirectionKeepsZ(d: Datum, index: nat, layout: ArrowLayout)
    requires layout == ComponentLayout(ForcePlateStartDistance, ForcePlateSpacing, ForcePlateLength, ForcePlateVectorDisplayScale)
    ensures TargetPose(d, index, AppArrowLayout).direction == Vec3(d.x, d.y, d.z)
    ensures TargetPose(d, index, layout).direction == Vec3(d.x, d.y, Neg(d.z))
    ensures TargetPose(d, index, layout).length == TargetPose(d, index, AppArrowLayout).length
    ensures TargetPose(d, index, layout).position == TargetPose(d, index, AppArrowLayout).position
  {
  }

  /** The arrows App registers: the same render as the component's. */
  method InlineRegisterArrows(refs: ArrowRefs)
    modifies refs
    ensures |refs.current| == if |old(refs.current)| < PlateCount then PlateCount else |old(refs.current)|
    ensures forall i :: 0 <= i < PlateCount ==>
      && fresh(refs.current[i])
      && refs.current[i].color == ForcePlateColors[i]
      && refs.current[i].CurrentPose()
         == Pose(Val(1.0), Vec3(Val(0.0), Val(1.0), Val(0.0)), Vec3(Val(i as real), Val(0.0), Val(0.0)))
    ensures forall i :: PlateCount <= i < |refs.current| ==> refs.current[i] == old(refs.current[i])
    ensures Distinct(refs.current[..PlateCount])
  {
    RegisterArrows(refs);
  }

  // ---------------------------------------------------------------------------
  // Grouping a motion track into records

  /** A `KeyframeTrack`: its name and its flat list of values. */
  datatype Track = Track(name: string, values: seq<real>)

  /** Records of a quaternion track take four values, others three. */
  function StepOf(quaternion: bool): nat
  {
    if quaternion then 4 else 3
  }

  predicate IsQuaternionTrack(track: Track)
  {
    Includes(track.name, "quaternion")
  }

  /** The record pushed for the values starting at position i: its index
      `i / step`, then x, y, z (and w for a quaternion track) read from
      positions i, i + 1, ... ; a position past the end reads `undefined`. */
  function TrackRecord(quaternion: bool, values: seq<real>, i: nat): (r: Object)
    ensures r.keys == if quaternion then ["index", "x", "y", "z", "w"] else ["index", "x", "y", "z"]
  {
    var fields := map["index" := Number(i as real / StepOf(quaternion) as real),
                      "x" := ValueAt(values, i), "y" := ValueAt(values, i + 1), "z" := ValueAt(values, i + 2)];
    if quaternion then Obj(["index", "x", "y", "z", "w"], fields["w" := ValueAt(values, i + 3)])
    else Obj(["index", "x", "y", "z"], fields)
  }

  /** `Math.ceil(n / step)` for a positive step. */
  function RecordCount(n: nat, step: nat): nat
    requires step > 0
  {
    (n + step - 1) / step
  }

  /** The list the track's button stores as the graph data. */
  function GroupedTrack(track: Track): (records: seq<Object>)
    ensures |records| == RecordCount(|track.values|, StepOf(IsQuaternionTrack(track)))
  {
    var q := IsQuaternionTrack(track);
    seq(RecordCount(|track.values|, StepOf(q)), k requires k >= 0 => TrackRecord(q, track.values, StepOf(q) * k))
  }

  /** The number of records is the least m with step · m covering all values. */
  lemma RecordCountIsCeiling(n: nat, step: nat)
    requires step > 0
    ensures step * RecordCount(n, step) >= n
    ensures RecordCount(n, step) > 0 ==> step * (RecordCount(n, step) - 1) < n
  {
    var c, r := (n + step - 1) / step, (n + step - 1) % step;
    assert n + step - 1 == step * c + r;
  }

  /** Any m with those two bounds is the record count. */
  lemma CountFromBounds(n: nat, step: nat, m: nat)
    requires step > 0
    requires step * m >= n && (m > 0 ==> step * (m - 1) < n)
    ensures m == RecordCount(n, step)
  {
    RecordCountIsCeiling(n, step);
    var c := RecordCount(n, step);
    if c > 0 {
      MulCancelLess(step, c - 1, m);
    }
    if m > 0 {
      MulCancelLess(step, m - 1, c);
    }
  }

  lemma MulCancelLess(step: nat, a: int, b: int)
    requires step > 0 && step * a < step * b
    ensures a < b
  {
    assert step * (b - a) > 0;
  }

  /** The records of the first |records| steps of a track. */
  predicate GroupedPrefix(quaternion: bool, values: seq<real>, records: seq<Object>)
  {
    forall k :: 0 <= k < |records| ==> records[k] == TrackRecord(quaternion, values, StepOf(quaternion) * k)
  }

  /** Pushing the record at position step · |records| extends the prefix. */
  lemma GroupedPrefixPush(quaternion: bool, values: seq<real>, records: seq<Object>)
    requires GroupedPrefix(quaternion, values, records)
    ensures GroupedPrefix(quaternion, values,
                          records + [TrackRecord(quaternion, values, StepOf(quaternion) * |records|)])
  {
  }

  /** A prefix of the right length is the whole grouped track. */
  lemma GroupedPrefixComplete(track: Track, records: seq<Object>)
    requires GroupedPrefix(IsQuaternionTrack(track), track.values, records)
    requires |records| == RecordCount(|track.values|, StepOf(IsQuaternionTrack(track)))
    ensures records == GroupedTrack(track)
  {
  }

  /** The button's handler: a `for` loop over the values in steps of 3 or 4,
      pushing one record per step. */
  method GroupTrack(track: Track) returns (groupedData: seq<Object>)
    ensures groupedData == GroupedTrack(track)
  {
    var q := IsQuaternionTrack(track);
    var step := StepOf(q);
    var n := |track.values|;
    groupedData := [];
    var i := 0;
    while i < n
      invariant i == step * |groupedData|
      invariant |groupedData| > 0 ==> step * (|groupedData| - 1) < n
      invariant GroupedPrefix(q, track.values, groupedData)
      decreases n - i
    {
      assert step * (|groupedData| + 1) == i + step;
      GroupedPrefixPush(q, track.values, groupedData);
      groupedData := groupedData + [TrackRecord(q, track.values, i)];
      i := i + step;
    }
    CountFromBounds(n, step, |groupedData|);
    GroupedPrefixComplete(track, groupedData);
  }

  /** Record k of a track: its index is k, its keys are index, x, y, z (and
      w only for a quaternion track), and its fields are the values from
      position step · k on. */
  lemma TrackRecordShape(quaternion: bool, values: seq<real>, k: nat)
    ensures var r := TrackRecord(quaternion, values, StepOf(quaternion) * k);
      && r.keys == (if quaternion then ["index", "x", "y", "z", "w"] else ["index", "x", "y", "z"])
      && Get(r, "index") == Number(k as real)
      && Get(r, "x") == ValueAt(values, StepOf(quaternion) * k)
      && Get(r, "y") == ValueAt(values, StepOf(quaternion) * k + 1)
      && Get(r, "z") == ValueAt(values, StepOf(quaternion) * k + 2)
      && (quaternion ==> Get(r, "w") == ValueAt(values, StepOf(quaternion) * k + 3))
      && (!quaternion ==> !Has(r, "w"))
  {
    IndexOfStep(StepOf(quaternion), k);
  }

  lemma IndexOfStep(step: nat, k: nat)
    requires step > 0
    ensures (step * k) as real / step as real == k as real
  {
    assert (step * k) as real == k as real * step as real;
  }

  /** The fields a record holds, in order: x, y, z, and w for a quaternion. */
  function RecordValues(quaternion: bool, r: Object): (vs: seq<Value>)
    ensures |vs| == StepOf(quaternion)
  {
    [Get(r, "x"), Get(r, "y"), Get(r, "z")] + (if quaternion then [Get(r, "w")] else [])
  }

  /** The fields of a list of records, laid end to end. */
  function Flatten(quaternion: bool, records: seq<Object>): (vs: seq<Value>)
    ensures |vs| == StepOf(quaternion) * |records|
  {
    if |records| == 0 then []
    else Flatten(quaternion, records[..|records| - 1]) + RecordValues(quaternion, records[|records| - 1])
  }

  /** The fields of the record that starts at position i are the values
      from position i on. */
  lemma RecordValuesAt(quaternion: bool, values: seq<real>, i: nat)
    ensures forall r :: 0 <= r < StepOf(quaternion) ==>
      RecordValues(quaternion, TrackRecord(quaternion, values, i))[r] == ValueAt(values, i + r)
  {
    var record := TrackRecord(quaternion, values, i);
    assert Get(record, "x") == ValueAt(values, i) && Get(record, "y") == ValueAt(values, i + 1);
    assert Get(record, "z") == ValueAt(values, i + 2);
    assert quaternion ==> Get(record, "w") == ValueAt(values, i + 3);
  }

  /** A list of records whose fields, laid end to end, read like the values
      from position 0 on. */
  predicate ReadsValues(quaternion: bool, values: seq<real>, records: seq<Object>)
  {
    var f := Flatten(quaternion, records);
    forall j :: 0 <= j < |f| ==> f[j] == ValueAt(values, j)
  }

  /** Appending the record that starts where the fields of the others end
      keeps the fields reading like the values. */
  lemma FlattenStep(quaternion: bool, values: seq<real>, records: seq<Object>)
    requires |records| > 0
    requires ReadsValues(quaternion, values, records[..|records| - 1])
    requires records[|records| - 1] == TrackRecord(quaternion, values, StepOf(quaternion) * (|records| - 1))
    ensures ReadsValues(quaternion, values, records)
  {
    var m := |records| - 1;
    var base := StepOf(quaternion) * m;
    var f := Flatten(quaternion, records);
    var front := Flatten(quaternion, records[..m]);
    assert |front| == base;
    RecordValuesAt(quaternion, values, base);
    assert f == front + RecordValues(quaternion, records[m]);
    forall j | 0 <= j < |f| ensures f[j] == ValueAt(values, j) {
      if j >= base {
        assert f[j] == RecordValues(quaternion, records[m])[j - base];
      }
    }
  }

  /** Laying the records of a track end to end gives its values back, then
      `undefined` up to the end of the last record. */
  lemma {:induction false} FlattenGroupedTrack(quaternion: bool, values: seq<real>, records: seq<Object>)
    requires forall k :: 0 <= k < |records| ==> records[k] == TrackRecord(quaternion, values, StepOf(quaternion) * k)
    ensures ReadsValues(quaternion, values, records)
    decreases |records|
  {
    if |records| > 0 {
      var m := |records| - 1;
      FlattenGroupedTrack(quaternion, values, records[..m]);
      FlattenStep(quaternion, values, records);
    }
  }

  /** When the number of values is a multiple of the step, ungrouping the
      records gives exactly the track's values. */
  lemma UngroupRoundTrip(track: Track)
    requires |track.values| % StepOf(IsQuaternionTrack(track)) == 0
    ensures Flatten(IsQuaternionTrack(track), GroupedTrack(track)) == seq(|track.values|, j requires 0 <= j < |track.values| => Number(track.values[j]))
  {
    var q := IsQuaternionTrack(track);
    var step := StepOf(q);
    var n := |track.values|;
    FlattenGroupedTrack(q, track.values, GroupedTrack(track));
    var m := n / step;
    assert step * m == n;
    CountFromBounds(n, step, m);
  }

  /** The part of the page that holds the graph's data. */
  class GraphPanel {
    var graphData: seq<Object>

    /** `useState([])`. */
    constructor ()
      ensures graphData == []
    {
      graphData := [];
    }

    /** A track's button: the graph shows that track's records. */
    method SelectTrack(track: Track)
      modifies this
      ensures graphData == GroupedTrack(track)
    {
      graphData := GroupTrack(track);
    }

    /** The "無し" (none) button: the graph is emptied. */
    method ClearSelection()
      modifies this
      ensures graphData == []
    {
      graphData := [];
    }
  }

  // ---------------------------------------------------------------------------
  // ThreeGraph: the graph of the selected track

  /** `Math.max(|x|, |y|, |z|, 1)` of one record. */
  function RecordScale(d: Object): Num
  {
    JsMax([Abs(Get(d, "x")), Abs(Get(d, "y")), Abs(Get(d, "z")), Val(1.0)])
  }

  /** The `scale` memo: `false` (None) for empty data, otherwise the largest
      record scale. */
  function ThreeScale(data: seq<Object>): (scale: Option<Num>)
    ensures scale.None? <==> |data| == 0
  {
    if |data| == 0 then None
    else Some(JsMax(seq(|data|, i requires 0 <= i < |data| => RecordScale(data[i]))))
  }

  /** Every record holds numbers under x, y and z. */
  predicate HasXYZ(data: seq<Object>)
  {
    forall i :: 0 <= i < |data| ==>
      Get(data[i], "x").Number? && Get(data[i], "y").Number? && Get(data[i], "z").Number?
  }

  /** One record's scale is a number exactly when x, y and z are, and it is
      then at least 1 and at least each of |x|, |y| and |z|. */
  lemma RecordScaleBounds(d: Object)
    ensures RecordScale(d).Val? <==> Get(d, "x").Number? && Get(d, "y").Number? && Get(d, "z").Number?
    ensures RecordScale(d).Val? ==>
      && RecordScale(d).v >= 1.0
      && Abs(Get(d, "x")).v <= RecordScale(d).v
      && Abs(Get(d, "y")).v <= RecordScale(d).v
      && Abs(Get(d, "z")).v <= RecordScale(d).v
  {
    var parts := [Abs(Get(d, "x")), Abs(Get(d, "y")), Abs(Get(d, "z")), Val(1.0)];
    if RecordScale(d).Val? {
      assert parts[0].Val? && parts[1].Val? && parts[2].Val? && parts[3] == Val(1.0);
    } else {
      assert NaN in parts;
    }
  }

  /** The scale is a number exactly when every record holds x, y and z, and
      it is then at least 1 and at least every |x|, |y| and |z|. */
  lemma ThreeScaleBounds(data: seq<Object>)
    requires |data| > 0
    ensures ThreeScale(data).value.Val? <==> HasXYZ(data)
    ensures ThreeScale(data).value.Val? ==>
      var s := ThreeScale(data).value.v;
      && s >= 1.0
      && forall i :: 0 <= i < |data| ==>
           Abs(Get(data[i], "x")).v <= s && Abs(Get(data[i], "y")).v <= s && Abs(Get(data[i], "z")).v <= s
  {
    var scales := seq(|data|, i requires 0 <= i < |data| => RecordScale(data[i]));
    var s := ThreeScale(data).value;
    assert s == JsMax(scales);
    if s.Val? {
      forall i | 0 <= i < |data|
        ensures Get(data[i], "x").Number? && Get(data[i], "y").Number? && Get(data[i], "z").Number?
        ensures Abs(Get(data[i], "x")).v <= s.v && Abs(Get(data[i], "y")).v <= s.v && Abs(Get(data[i], "z")).v <= s.v
      {
        RecordScaleBounds(data[i]);
        assert scales[i].Val? && scales[i].v <= s.v;
      }
      RecordScaleBounds(data[0]);
      assert scales[0].v <= s.v;
    } else {
      var i :| 0 <= i < |data| && scales[i] == NaN;
      RecordScaleBounds(data[i]);
    }
  }

  /** `value / scale`, with `undefined / scale` NaN. */
  function DivValue(v: Value, scale: Num): Num
  {
    match v
    case Undefined => NaN
    case Number(n) => Div(n, scale)
  }

  /** The points of one axis: `(i / data.length, d[axis] / scale)`. */
  function AxisPoints(data: seq<Object>, axis: string, scale: Num): (points: seq<Point>)
    ensures |points| == |data|
  {
    seq(|data|, i requires 0 <= i < |data| => Point(PointX(i, |data|), DivValue(Get(data[i], axis), scale)))
  }

  const ThreeLineColors: seq<Color> := [StrawberryRed, TeaGreen, SkyBlue, PlumMagenta]

  /** The axes drawn: x, y, z, and w when the first record defines it. */
  function ThreeAxes(data: seq<Object>): (axes: seq<string>)
    ensures 3 <= |axes| <= 4 && axes[..3] == ["x", "y", "z"]
    ensures |axes| == 4 <==> |data| > 0 && Get(data[0], "w") != Undefined
  {
    if |data| > 0 && Get(data[0], "w") != Undefined then ["x", "y", "z", "w"] else ["x", "y", "z"]
  }

  /** The `line` memo with each line's colour `lineColors[i]`. */
  function ThreeLines(data: seq<Object>): (lines: seq<Line>)
    ensures |data| == 0 ==> lines == []
    ensures |data| > 0 ==> |lines| == if Get(data[0], "w") != Undefined then 4 else 3
  {
    if |data| == 0 then []
    else
      var scale := ThreeScale(data).value;
      var axes := ThreeAxes(data);
      seq(|axes|, k requires 0 <= k < |axes| => Line(AxisPoints(data, axes[k], scale), At(ThreeLineColors, k)))
  }

  /** Line k is drawn in colour k, red, green, blue, then magenta for w, and
      its point i sits at x = i / len. */
  lemma ThreeLineLayout(data: seq<Object>)
    ensures forall k :: 0 <= k < |ThreeLines(data)| ==>
      && ThreeLines(data)[k].color == Some(ThreeLineColors[k])
      && |ThreeLines(data)[k].points| == |data|
      && forall i :: 0 <= i < |data| ==> ThreeLines(data)[k].points[i].x == PointX(i, |data|)
  {
  }

  /** An axis whose values are numbers within [-s, s] plots within [-1, 1]
      against a positive scale s. */
  lemma AxisWithinBand(data: seq<Object>, axis: string, s: real)
    requires s > 0.0
    requires forall i :: 0 <= i < |data| ==> Get(data[i], axis).Number? && Abs(Get(data[i], axis)).v <= s
    ensures forall i :: 0 <= i < |data| ==>
      AxisPoints(data, axis, Val(s))[i].y.Val? && -1.0 <= AxisPoints(data, axis, Val(s))[i].y.v <= 1.0
  {
    forall i | 0 <= i < |data|
      ensures AxisPoints(data, axis, Val(s))[i].y.Val? && -1.0 <= AxisPoints(data, axis, Val(s))[i].y.v <= 1.0
    {
      QuotientWithinBand(Get(data[i], axis).n, s);
    }
  }

  /** Line k draws axis k against the common scale. */
  lemma ThreeLinePoints(data: seq<Object>, k: nat)
    requires |data| > 0 && k < |ThreeAxes(data)|
    ensures ThreeLines(data)[k].points == AxisPoints(data, ThreeAxes(data)[k], ThreeScale(data).value)
  {
  }

  /** With x, y and z present everywhere, line k < 3 stays within [-1, 1]. */
  lemma ThreeAxisWithinBand(data: seq<Object>, k: nat)
    requires |data| > 0 && HasXYZ(data) && k < 3
    ensures forall i :: 0 <= i < |data| ==>
      var y := ThreeLines(data)[k].points[i].y;
      y.Val? && -1.0 <= y.v <= 1.0
  {
    var axis := ThreeAxes(data)[k];
    assert axis == "x" || axis == "y" || axis == "z";
    ScaleBoundsAxis(data, axis);
    AxisWithinBand(data, axis, ThreeScale(data).value.v);
    ThreeLinePoints(data, k);
  }

  /** The scale bounds one of x, y and z at a time. */
  lemma ScaleBoundsAxis(data: seq<Object>, axis: string)
    requires |data| > 0 && HasXYZ(data) && (axis == "x" || axis == "y" || axis == "z")
    ensures ThreeScale(data).value.Val? && ThreeScale(data).value.v > 0.0
    ensures forall i :: 0 <= i < |data| ==>
      Get(data[i], axis).Number? && Abs(Get(data[i], axis)).v <= ThreeScale(data).value.v
  {
    ThreeScaleBounds(data);
  }

  /** With x, y and z present everywhere, the x, y and z lines stay within
      [-1, 1]. */
  lemma ThreeLinesWithinBand(data: seq<Object>)
    requires |data| > 0 && HasXYZ(data)
    ensures forall k, i :: 0 <= k < 3 && 0 <= i < |data| ==>
      var y := ThreeLines(data)[k].points[i].y;
      y.Val? && -1.0 <= y.v <= 1.0
  {
    forall k | 0 <= k < 3
      ensures forall i :: 0 <= i < |data| ==>
        ThreeLines(data)[k].points[i].y.Val? && -1.0 <= ThreeLines(data)[k].points[i].y.v <= 1.0
    {
      ThreeAxisWithinBand(data, k);
    }
  }

  /** The w line is not part of the scale, but since the scale is at least
      1 it stays within [-1, 1] too when every w lies there, as a unit
      quaternion's does. */
  lemma ThreeWLineWithinBand(data: seq<Object>)
    requires |data| > 0 && HasXYZ(data)
    requires forall i :: 0 <= i < |data| ==> Get(data[i], "w").Number? && -1.0 <= Get(data[i], "w").n <= 1.0
    ensures |ThreeLines(data)| == 4
    ensures forall i :: 0 <= i < |data| ==>
      var y := ThreeLines(data)[3].points[i].y;
      y.Val? && -1.0 <= y.v <= 1.0
  {
    ThreeScaleBounds(data);
    var s := ThreeScale(data).value.v;
    AxisWithinBand(data, "w", s);
    ThreeLinePoints(data, 3);
  }

  // ---------------------------------------------------------------------------
  // The playback speed

  /** The label set when the speed slider moves: `Math.round(value * 100) + "%"`. */
  function SpeedLabel(value: real): (text: string)
    ensures |text| >= 2 && text[|text| - 1] == '%'
  {
    IntToString(Round(value * 100.0)) + "%"
  }

  /** For a slider value in [0, 1] the label is a whole percentage from 0 to
      100 in decimal digits, followed by a percent sign. */
  lemma SpeedLabelReadsBack(value: real)
    requires 0.0 <= value <= 1.0
    ensures var text := SpeedLabel(value);
      && |text| >= 2 && text[|text| - 1] == '%'
      && IsDigits(text[..|text| - 1])
      && DigitsValue(text[..|text| - 1]) == Round(value * 100.0)
      && 0 <= Round(value * 100.0) <= 100
  {
    var n := Round(value * 100.0);
    assert value * 100.0 <= 100.0;
    assert 0 <= n <= 100;
    NatToStringValue(n);
    var text := SpeedLabel(value);
    assert text[..|text| - 1] == NatToString(n);
  }

  /** Each step of 0.01 of the slider shows its own percentage. */
  lemma SliderStepLabel(k: nat)
    requires k <= 100
    ensures SpeedLabel(k as real / 100.0) == NatToString(k) + "%"
  {
    assert k as real / 100.0 * 100.0 == k as real;
    assert Round(k as real) == k;
  }

  /** The speed slider's state: the active action's time scale, if there is
      an active action, and the label `playbackSpeed`. */
  class PlaybackSpeed {
    var timeScale: Option<real>
    var playbackSpeed: string

    /** `useState("100")`: the initial label has no percent sign. */
    constructor (timeScale: Option<real>)
      ensures this.timeScale == timeScale && playbackSpeed == "100"
    {
      this.timeScale := timeScale;
      playbackSpeed := "100";
    }

    /** The slider's `onChange`: the active action, if any, takes the value
        as its time scale, and the label always follows the value. */
    method OnSpeedChange(value: real)
      modifies this
      ensures old(timeScale).Some? ==> timeScale == Some(value)
      ensures old(timeScale).None? ==> timeScale == None
      ensures playbackSpeed == SpeedLabel(value)
    {
      if timeScale.Some? {
        timeScale := Some(value);
      }
      playbackSpeed := SpeedLabel(value);
    }
  }
}
