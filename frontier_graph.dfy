/** The time-series graph (demo2fiber/src/FrontierGraph.tsx): a vertical
    scale computed from the data, one line per data key with the samples
    spread over x in [0, 1), and the dashed progress line. */
module FrontierGraph {
  import opened Js
  import opened Colors
  import opened Plot

  /** `dataKeys.map(key => Math.abs(datum[key]))`. */
  function AbsValues(d: Object, keys: seq<string>): (r: seq<Num>)
    ensures |r| == |keys|
  {
    seq(|keys|, j requires 0 <= j < |keys| => Abs(Get(d, keys[j])))
  }

  /** `data.map(datum => Math.max(...AbsValues(datum)))`. */
  function RecordMaxima(data: seq<Object>, keys: seq<string>): (r: seq<Num>)
    requires |keys| > 0
    ensures |r| == |data|
  {
    seq(|data|, i requires 0 <= i < |data| => JsMax(AbsValues(data[i], keys)))
  }

  /** The scale the effect computes for non-empty data. The `1` that follows
      the callback is `map`'s thisArg, so it sets no lower bound. */
  function GraphScale(data: seq<Object>, keys: seq<string>): (scale: Num)
    requires |data| > 0 && |keys| > 0
    ensures scale.Val? ==> scale.v >= 0.0
  {
    JsMax(RecordMaxima(data, keys))
  }

  /** Every record holds a number under every key. */
  predicate AllNumeric(data: seq<Object>, keys: seq<string>)
  {
    forall i, j :: 0 <= i < |data| && 0 <= j < |keys| ==> Get(data[i], keys[j]).Number?
  }

  /** The scale is a number exactly when every record holds a number under
      every key, and it is then the largest magnitude among them. */
  lemma GraphScaleIsLargestMagnitude(data: seq<Object>, keys: seq<string>)
    requires |data| > 0 && |keys| > 0
    ensures GraphScale(data, keys).Val? <==> AllNumeric(data, keys)
    ensures GraphScale(data, keys).Val? ==>
      && (forall i, j :: 0 <= i < |data| && 0 <= j < |keys| ==>
            Abs(Get(data[i], keys[j])).Val? && Abs(Get(data[i], keys[j])).v <= GraphScale(data, keys).v)
      && (exists i, j :: 0 <= i < |data| && 0 <= j < |keys| && Abs(Get(data[i], keys[j])) == GraphScale(data, keys))
  {
    var maxima := RecordMaxima(data, keys);
    var s := GraphScale(data, keys);
    if s.Val? {
      forall i, j | 0 <= i < |data| && 0 <= j < |keys|
        ensures Abs(Get(data[i], keys[j])).Val? && Abs(Get(data[i], keys[j])).v <= s.v
      {
        assert maxima[i] == JsMax(AbsValues(data[i], keys));
        assert AbsValues(data[i], keys)[j] == Abs(Get(data[i], keys[j]));
      }
      var i :| 0 <= i < |data| && maxima[i] == s;
      var j :| 0 <= j < |keys| && AbsValues(data[i], keys)[j] == s;
      assert Abs(Get(data[i], keys[j])) == s;
    } else {
      var i :| 0 <= i < |data| && maxima[i] == NaN;
      var j :| 0 <= j < |keys| && AbsValues(data[i], keys)[j] == NaN;
      assert !Get(data[i], keys[j]).Number?;
    }
  }

  /** `d[keyName] ?? 0`. */
  function Coalesce(v: Value): real
  {
    match v
    case Undefined => 0.0
    case Number(x) => x
  }

  /** The points of the line of one key: `(i / data.length, (d[key] ?? 0) / graphScale)`. */
  function LinePoints(data: seq<Object>, key: string, scale: Num): (points: seq<Point>)
    ensures |points| == |data|
  {
    seq(|data|, i requires 0 <= i < |data| =>
      Point(PointX(i, |data|), Div(Coalesce(Get(data[i], key)), scale)))
  }

  /** The `lines` memo: none for empty data, otherwise one line per data
      key, in key order, line i drawn in `colors[i]`. */
  function Lines(data: seq<Object>, keys: seq<string>, colors: seq<Color>, scale: Num): (lines: seq<Line>)
    ensures |data| == 0 ==> lines == []
    ensures |data| > 0 ==> |lines| == |keys|
    ensures forall k :: 0 <= k < |lines| ==>
      lines[k].color == At(colors, k) && lines[k].points == LinePoints(data, keys[k], scale)
  {
    if |data| == 0 then []
    else seq(|keys|, k requires 0 <= k < |keys| => Line(LinePoints(data, keys[k], scale), At(colors, k)))
  }

  /** Against a positive scale s that bounds every magnitude, every plotted
      value lies within [-1, 1]. */
  lemma LinesWithinBand(data: seq<Object>, keys: seq<string>, colors: seq<Color>, s: real)
    requires |data| > 0 && s > 0.0 && AllNumeric(data, keys)
    requires forall i, j :: 0 <= i < |data| && 0 <= j < |keys| ==> Abs(Get(data[i], keys[j])).v <= s
    ensures forall k, i :: 0 <= k < |keys| && 0 <= i < |data| ==>
      var y := Lines(data, keys, colors, Val(s))[k].points[i].y;
      y.Val? && -1.0 <= y.v <= 1.0
  {
    forall k, i | 0 <= k < |keys| && 0 <= i < |data|
      ensures var y := Lines(data, keys, colors, Val(s))[k].points[i].y;
              y.Val? && -1.0 <= y.v <= 1.0
    {
      QuotientWithinBand(Get(data[i], keys[k]).n, s);
    }
  }

  /** With every key present and a positive scale computed from the same
      data, every plotted value lies within [-1, 1]. */
  lemma PlottedWithinBand(data: seq<Object>, keys: seq<string>, colors: seq<Color>)
    requires |data| > 0 && |keys| > 0 && AllNumeric(data, keys)
    requires GraphScale(data, keys).Val? && GraphScale(data, keys).v > 0.0
    ensures forall k, i :: 0 <= k < |keys| && 0 <= i < |data| ==>
      var y := Lines(data, keys, colors, GraphScale(data, keys))[k].points[i].y;
      y.Val? && -1.0 <= y.v <= 1.0
  {
    GraphScaleIsLargestMagnitude(data, keys);
    LinesWithinBand(data, keys, colors, GraphScale(data, keys).v);
  }

  /** A record without the key is plotted at 0. */
  lemma MissingKeyPlotsZero(data: seq<Object>, key: string, scale: real, i: nat)
    requires i < |data| && !Has(data[i], key) && scale != 0.0
    ensures LinePoints(data, key, Val(scale))[i].y == Val(0.0)
  {
  }

  /** Since the scale has no lower bound, data that is zero throughout gets
      scale 0, and every point of every line is then NaN. */
  lemma AllZeroDataPlotsNaN(data: seq<Object>, keys: seq<string>, colors: seq<Color>)
    requires |data| > 0 && |keys| > 0
    requires forall i, j :: 0 <= i < |data| && 0 <= j < |keys| ==> Get(data[i], keys[j]) == Number(0.0)
    ensures GraphScale(data, keys) == Val(0.0)
    ensures forall k, i :: 0 <= k < |keys| && 0 <= i < |data| ==>
      Lines(data, keys, colors, GraphScale(data, keys))[k].points[i].y == NaN
  {
    AllZeroScale(data, keys);
    forall k, i | 0 <= k < |keys| && 0 <= i < |data|
      ensures Lines(data, keys, colors, Val(0.0))[k].points[i].y == NaN
    {
      assert Lines(data, keys, colors, Val(0.0))[k].points == LinePoints(data, keys[k], Val(0.0));
    }
  }

  /** Data that is zero throughout has scale 0. */
  lemma AllZeroScale(data: seq<Object>, keys: seq<string>)
    requires |data| > 0 && |keys| > 0
    requires forall i, j :: 0 <= i < |data| && 0 <= j < |keys| ==> Get(data[i], keys[j]) == Number(0.0)
    ensures GraphScale(data, keys) == Val(0.0)
  {
    GraphScaleIsLargestMagnitude(data, keys);
    var i, j :| 0 <= i < |data| && 0 <= j < |keys| && Abs(Get(data[i], keys[j])) == GraphScale(data, keys);
  }

  /** The scale with the `1` inside the outer `Math.max`, as App's ThreeGraph
      computes its own: never below 1. */
  function IntendedGraphScale(data: seq<Object>, keys: seq<string>): (scale: Num)
    requires |data| > 0 && |keys| > 0
    ensures scale.Val? ==> scale.v >= 1.0
  {
    var all := RecordMaxima(data, keys) + [Val(1.0)];
    assert all[|all| - 1] == Val(1.0);
    JsMax(all)
  }

  /** With every key present the intended scale is a number, at least 1 and
      at least every magnitude. */
  lemma IntendedScaleBounds(data: seq<Object>, keys: seq<string>)
    requires |data| > 0 && |keys| > 0 && AllNumeric(data, keys)
    ensures IntendedGraphScale(data, keys).Val? && IntendedGraphScale(data, keys).v >= 1.0
    ensures forall i, j :: 0 <= i < |data| && 0 <= j < |keys| ==>
      Abs(Get(data[i], keys[j])).v <= IntendedGraphScale(data, keys).v
  {
    var maxima := RecordMaxima(data, keys);
    var all := maxima + [Val(1.0)];
    GraphScaleIsLargestMagnitude(data, keys);
    var s := JsMax(all);
    assert !(NaN in all) by {
      forall i | 0 <= i < |all| ensures all[i].Val? {
        if i < |maxima| {
          assert maxima[i] in maxima;
        }
      }
    }
    assert all[|all| - 1] == Val(1.0);
    forall i, j | 0 <= i < |data| && 0 <= j < |keys|
      ensures Abs(Get(data[i], keys[j])).v <= s.v
    {
      assert maxima[i] == JsMax(AbsValues(data[i], keys));
      assert AbsValues(data[i], keys)[j] == Abs(Get(data[i], keys[j]));
      assert all[i] == maxima[i];
    }
  }

  /** With every key present the intended scale plots every value as a
      number within [-1, 1], zero data included. */
  lemma IntendedScalePlotsWithinBand(data: seq<Object>, keys: seq<string>, colors: seq<Color>)
    requires |data| > 0 && |keys| > 0 && AllNumeric(data, keys)
    ensures IntendedGraphScale(data, keys).Val? && IntendedGraphScale(data, keys).v >= 1.0
    ensures forall k, i :: 0 <= k < |keys| && 0 <= i < |data| ==>
      var y := Lines(data, keys, colors, IntendedGraphScale(data, keys))[k].points[i].y;
      y.Val? && -1.0 <= y.v <= 1.0
  {
    IntendedScaleBounds(data, keys);
    LinesWithinBand(data, keys, colors, IntendedGraphScale(data, keys).v);
  }

  /** The component's state: `graphScale` and the progress line geometry. */
  class FrontierGraphView {
    var graphScale: Num
    var progressLine: seq<Point>

    /** `useState(1.0)` and the progress line's first points. */
    constructor (progress: real)
      ensures graphScale == Val(1.0) && progressLine == ProgressLine(progress)
    {
      graphScale := Val(1.0);
      progressLine := ProgressLine(progress);
    }

    /** The effect on `[data, dataKeys]`: only non-empty data recomputes the
        scale, as written (no floor of 1); empty data keeps the previous one. */
    method DataChanged(data: seq<Object>, keys: seq<string>)
      requires |data| > 0 ==> |keys| > 0
      modifies this
      ensures |data| > 0 ==> graphScale == GraphScale(data, keys)
      ensures |data| == 0 ==> graphScale == old(graphScale)
      ensures progressLine == old(progressLine)
    {
      if |data| > 0 {
        graphScale := GraphScale(data, keys);
      }
    }

    /** The `useFrame` callback: the progress line moves to the current progress. */
    method OnFrame(progress: real)
      modifies this
      ensures progressLine == ProgressLine(progress)
      ensures graphScale == old(graphScale)
    {
      progressLine := ProgressLine(progress);
    }

    /** The lines drawn with the current scale. */
    function CurrentLines(data: seq<Object>, keys: seq<string>, colors: seq<Color>): seq<Line>
      reads this
    {
      Lines(data, keys, colors, graphScale)
    }
  }
}
