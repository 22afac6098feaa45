/** What the graphs hand to MeshLine: points (x, y) of the plane z = 0, lines
    with their colour, and the dashed vertical line that marks the playback
    progress. Shared by FrontierGraph and the ThreeGraph of App. */
module Plot {
  import opened Js
  import opened Colors

  datatype Point = Point(x: real, y: Num)

  datatype Line = Line(points: seq<Point>, color: Option<Color>)

  /** `i / data.length`: the x of a sample, which lies in [0, 1). */
  function PointX(i: nat, n: nat): (x: real)
    requires i < n
    ensures 0.0 <= x < 1.0
  {
    assert i as real / n as real * n as real == i as real;
    i as real / n as real
  }

  /** Samples are laid out left to right in their order. */
  lemma PointXIncreasing(i: nat, j: nat, n: nat)
    requires i < j < n
    ensures PointX(i, n) < PointX(j, n)
  {
    var xi, xj := PointX(i, n), PointX(j, n);
    assert xi * n as real == i as real;
    assert xj * n as real == j as real;
    assert (xj - xi) * n as real == (j - i) as real;
    PositiveFactor(xj - xi, n as real);
  }

  lemma PositiveFactor(a: real, b: real)
    requires b > 0.0 && a * b > 0.0
    ensures a > 0.0
  {
  }

  lemma NonNegativeFactor(a: real, b: real)
    requires b > 0.0 && a * b >= 0.0
    ensures a >= 0.0
  {
  }

  /** A value within [-s, s] divided by s > 0 lies within [-1, 1]. */
  lemma QuotientWithinBand(a: real, s: real)
    requires s > 0.0 && -s <= a <= s
    ensures -1.0 <= a / s <= 1.0
  {
    var q := a / s;
    assert q * s == a;
    assert (1.0 - q) * s == s - a;
    assert (q + 1.0) * s == a + s;
    NonNegativeFactor(1.0 - q, s);
    NonNegativeFactor(q + 1.0, s);
  }

  /** The progress line: from (p, -1) to (p, 1), set again on every frame. */
  function ProgressLine(progress: real): (points: seq<Point>)
  {
    [Point(progress, Val(-1.0)), Point(progress, Val(1.0))]
  }

  /** The progress line is vertical and spans the whole band [-1, 1]. */
  lemma ProgressLineSpansBand(progress: real)
    ensures |ProgressLine(progress)| == 2
    ensures forall k :: 0 <= k < 2 ==> ProgressLine(progress)[k].x == progress
    ensures ProgressLine(progress)[0].y == Val(-1.0) && ProgressLine(progress)[1].y == Val(1.0)
  {
  }
}
