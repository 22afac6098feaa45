/** The progress bar of the playback controls
    (demo2fiber/src/components/PlaybackControls.tsx): a click sets the
    progress to the clicked fraction of the bar, clamped to [0, 1], and the
    bar is filled up to the current progress. */
module PlaybackControls {
  import opened Js
  import Plot

  /** `Math.max(0, Math.min(1, x / width))` with `x = clientX - left`. A bar
      of width 0 divides by zero: a positive x gives +Infinity, clamped to 1,
      a negative x -Infinity, clamped to 0, and x = 0 gives NaN, which both
      clamps pass on. */
  function ClickProgress(clientX: real, left: real, width: real): (p: Num)
    ensures p == NaN <==> width == 0.0 && clientX == left
    ensures p.Val? ==> 0.0 <= p.v <= 1.0
  {
    var x := clientX - left;
    if width == 0.0 then
      (if x > 0.0 then Val(1.0) else if x < 0.0 then Val(0.0) else NaN)
    else
      var q := x / width;
      Val(if q < 0.0 then 0.0 else if q > 1.0 then 1.0 else q)
  }

  /** On a bar of positive width a click left of the bar gives 0, one at or
      past its right end gives 1, and one inside the fraction of the bar to
      its left. */
  lemma ClickProgressClamps(clientX: real, left: real, width: real)
    requires width > 0.0
    ensures clientX <= left ==> ClickProgress(clientX, left, width) == Val(0.0)
    ensures clientX >= left + width ==> ClickProgress(clientX, left, width) == Val(1.0)
    ensures left <= clientX <= left + width ==> ClickProgress(clientX, left, width) == Val((clientX - left) / width)
  {
    var x := clientX - left;
    var q := x / width;
    assert q * width == x;
    if x <= 0.0 {
      assert (0.0 - q) * width == 0.0 - x;
      Plot.NonNegativeFactor(0.0 - q, width);
    }
    if x >= 0.0 {
      Plot.NonNegativeFactor(q, width);
    }
    if x <= width {
      assert (1.0 - q) * width == width - x;
      Plot.NonNegativeFactor(1.0 - q, width);
    }
    if x >= width {
      assert (q - 1.0) * width == x - width;
      Plot.NonNegativeFactor(q - 1.0, width);
    }
  }

  /** Clicking further right never gives a smaller progress. */
  lemma ClickProgressMonotone(x1: real, x2: real, left: real, width: real)
    requires width > 0.0 && x1 <= x2
    ensures ClickProgress(x1, left, width).v <= ClickProgress(x2, left, width).v
  {
    var q1, q2 := (x1 - left) / width, (x2 - left) / width;
    assert q1 * width == x1 - left && q2 * width == x2 - left;
    assert (q2 - q1) * width == x2 - x1;
    Plot.NonNegativeFactor(q2 - q1, width);
  }

  /** The fill's width in percent: `progress * 100`. */
  function FillPercent(progress: real): real
  {
    progress * 100.0
  }

  /** After a click inside the bar, the fill ends where the bar was clicked. */
  lemma FillReachesClick(clientX: real, left: real, width: real)
    requires width > 0.0 && left <= clientX <= left + width
    ensures 0.0 <= FillPercent(ClickProgress(clientX, left, width).v) <= 100.0
    ensures left + FillPercent(ClickProgress(clientX, left, width).v) / 100.0 * width == clientX
  {
    ClickProgressClamps(clientX, left, width);
    var p := ClickProgress(clientX, left, width).v;
    assert p * width == clientX - left;
  }

  /** The `onProgressChange` callback, recording every value it receives. */
  class ProgressListener {
    var received: seq<Num>

    constructor ()
      ensures received == []
    {
      received := [];
    }

    /** The bar's `onClick`: the callback runs once, with the clicked progress. */
    method OnBarClick(clientX: real, left: real, width: real)
      modifies this
      ensures received == old(received) + [ClickProgress(clientX, left, width)]
    {
      var newProgress := ClickProgress(clientX, left, width);
      received := received + [newProgress];
    }
  }
}
