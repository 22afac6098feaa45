/** The per-frame update of the four force arrows
    (demo2fiber/src/ForcePlateArrows.tsx): the animation's progress picks a
    row of force-plate data, and each arrow takes its length, direction and
    position from its plate's record; the progress is then published for the
    graphs. */
module ForcePlateArrows {
  import opened Js
  import opened ForcePlates
  import opened Colors

  datatype Vec3 = Vec3(x: Num, y: Num, z: Num)

  /** What the frame step sets on an arrow. The direction is kept as the
      vector handed to `normalize()`, before normalisation. */
  datatype Pose = Pose(length: Num, direction: Vec3, position: Vec3)

  /** An `ArrowHelper`: its colour is fixed when it is made. */
  class Arrow {
    var length: Num
    var direction: Vec3
    var position: Vec3
    const color: Color

    constructor (direction: Vec3, origin: Vec3, length: Num, color: Color)
      ensures CurrentPose() == Pose(length, direction, origin) && this.color == color
    {
      this.direction := direction;
      this.position := origin;
      this.length := length;
      this.color := color;
    }

    function CurrentPose(): Pose
      reads this
    {
      Pose(length, direction, position)
    }

    /** `setLength`, `setDirection` and `position.set` for the arrow of
        plate `index` with its record `d`. */
    method Update(d: Datum, index: nat, layout: ArrowLayout)
      modifies this
      ensures CurrentPose() == TargetPose(d, index, layout)
    {
      length := Mul(d.y, layout.vectorScale);
      direction := Vec3(d.x, d.y, if layout.flipZ then Neg(d.z) else d.z);
      position := Vec3(SubFrom(layout.start + layout.spacing * index as real, Mul(d.py, layout.scale)),
                       Val(0.0),
                       Mul(d.px, layout.scale));
      assert position.x == TargetPose(d, index, layout).position.x;
    }
  }

  /** A React ref holding a number (the published animation progress). */
  class ProgressRef {
    var current: real

    constructor (initial: real)
      ensures current == initial
    {
      current := initial;
    }
  }

  /** `arrowRefs`: a React ref holding the list of arrows. */
  class ArrowRefs {
    var current: seq<Arrow>

    constructor ()
      ensures current == []
    {
      current := [];
    }
  }

  /** The playing animation action: its time and its clip's duration. */
  datatype Action = Action(time: real, duration: real)

  /** Where the plates are drawn and how forces are scaled, and whether the
      arrow's direction negates the force z. */
  datatype ArrowLayout = ArrowLayout(start: real, spacing: real, scale: real, vectorScale: real, flipZ: bool)

  predicate Distinct(arrows: seq<Arrow>)
  {
    forall i, j :: 0 <= i < j < |arrows| ==> arrows[i] != arrows[j]
  }

  /** `Math.round(progress * rows)`. */
  function PlaybackIndex(progress: real, rows: nat): (index: int)
    ensures progress * rows as real - 0.5 < index as real <= progress * rows as real + 0.5
  {
    Round(progress * rows as real)
  }

  /** The row the step reads, or None where it returns early: no data, no
      action, or an index with no row. A zero duration makes the index NaN
      or infinite in JavaScript, which reads no row either. */
  function CurrentRow(data: seq<Frame>, action: Option<Action>): (row: Option<Frame>)
    ensures |data| == 0 || action.None? ==> row.None?
    ensures row.Some? ==> row.value in data
  {
    if |data| == 0 || action.None? then None
    else if action.value.duration == 0.0 then None
    else At(data, PlaybackIndex(action.value.time / action.value.duration, |data|))
  }

  /** The pose arrow `index` takes from its plate's record `d`. */
  function TargetPose(d: Datum, index: nat, layout: ArrowLayout): (pose: Pose)
    ensures pose.direction.x == d.x && pose.direction.y == d.y
    ensures pose.direction.z == if layout.flipZ then Neg(d.z) else d.z
    ensures pose.position.y == Val(0.0)
  {
    Pose(Mul(d.y, layout.vectorScale),
         Vec3(d.x, d.y, if layout.flipZ then Neg(d.z) else d.z),
         Vec3(SubFrom(layout.start + layout.spacing * index as real, Mul(d.py, layout.scale)),
              Val(0.0),
              Mul(d.px, layout.scale)))
  }

  /** The `useFrame` callback. On an early return nothing changes, the
      progress ref included; otherwise every arrow takes the pose of its
      plate in the current row and the progress ref is time / duration. */
  method Step(refs: ArrowRefs, data: seq<Frame>, action: Option<Action>, progress: ProgressRef,
              layout: ArrowLayout)
    requires ValidSeries(data)
    requires |refs.current| <= PlateCount
    requires Distinct(refs.current)
    modifies refs.current, progress
    ensures CurrentRow(data, action).None? ==>
      && progress.current == old(progress.current)
      && forall i :: 0 <= i < |refs.current| ==> refs.current[i].CurrentPose() == old(refs.current[i].CurrentPose())
    ensures CurrentRow(data, action).Some? ==>
      && progress.current == action.value.time / action.value.duration
      && forall i :: 0 <= i < |refs.current| ==>
           refs.current[i].CurrentPose() == TargetPose(CurrentRow(data, action).value[i], i, layout)
  {
    if |data| == 0 || action.None? {
      return;
    }
    var act := action.value;
    if act.duration == 0.0 {
      return;
    }
    var animationProgress := act.time / act.duration;
    var row := At(data, PlaybackIndex(animationProgress, |data|));
    if row.None? {
      return;
    }
    ApplyRow(refs.current, row.value, layout);
    progress.current := act.time / act.duration;
  }

  /** The layout the `ForcePlateArrows` component draws with: its four
      placement props, and the force's z always negated in the direction. */
  function ComponentLayout(start: real, spacing: real, scale: real, vectorScale: real): ArrowLayout
  {
    ArrowLayout(start, spacing, scale, vectorScale, true)
  }

  /** The component's own `useFrame` callback, `Step` over its props. On a
      row, arrow i gets length y · vectorScale, direction (x, y, −z) and
      position (start + spacing · i − py · scale, 0, px · scale). */
  method ComponentStep(refs: ArrowRefs, data: seq<Frame>, action: Option<Action>, progress: ProgressRef,
                       start: real, spacing: real, scale: real, vectorScale: real)
    requires ValidSeries(data)
    requires |refs.current| <= PlateCount
    requires Distinct(refs.current)
    modifies refs.current, progress
    ensures CurrentRow(data, action).None? ==>
      && progress.current == old(progress.current)
      && forall i :: 0 <= i < |refs.current| ==> refs.current[i].CurrentPose() == old(refs.current[i].CurrentPose())
    ensures CurrentRow(data, action).Some? ==>
      && progress.current == action.value.time / action.value.duration
      && forall i :: 0 <= i < |refs.current| ==>
           var d := CurrentRow(data, action).value[i];
           refs.current[i].CurrentPose()
           == Pose(Mul(d.y, vectorScale),
                   Vec3(d.x, d.y, Neg(d.z)),
                   Vec3(SubFrom(start + spacing * i as real, Mul(d.py, scale)), Val(0.0), Mul(d.px, scale)))
  {
    Step(refs, data, action, progress, ComponentLayout(start, spacing, scale, vectorScale));
  }

  /** `arrowRefs.current?.forEach((arrow, index) => ...)` over one row. */
  method ApplyRow(arrows: seq<Arrow>, row: Frame, layout: ArrowLayout)
    requires |arrows| <= |row|
    requires Distinct(arrows)
    modifies arrows
    ensures forall i :: 0 <= i < |arrows| ==> arrows[i].CurrentPose() == TargetPose(row[i], i, layout)
  {
    var i := 0;
    while i < |arrows|
      invariant 0 <= i <= |arrows|
      invariant forall j :: 0 <= j < i ==> arrows[j].CurrentPose() == TargetPose(row[j], j, layout)
    {
      arrows[i].Update(row[i], i, layout);
      i := i + 1;
    }
  }

  /** The render: one fresh arrow per plate colour, pointing up, of length 1,
      at (index, 0, 0), stored at `arrowRefs.current[index]`. */
  method RegisterArrows(refs: ArrowRefs)
    modifies refs
    ensures |refs.current| == if |old(refs.current)| < PlateCount then PlateCount else |old(refs.current)|
    ensures forall i :: 0 <= i < PlateCount ==>
      && fresh(refs.current[i])
      && refs.current[i].color == ForcePlateColors[i]
      && refs.current[i].CurrentPose()
         == Pose(Val(1.0), Vec3(Val(0.0), Val(1.0), Val(0.0)), Vec3(Val(i as real), Val(0.0), Val(0.0)))
    ensures forall i :: PlateCount <= i < |refs.current| ==> refs.current[i] == old(refs.current[i])
    ensures Distinct(refs.current[..PlateCount])
  {
    var index := 0;
    while index < |ForcePlateColors|
      invariant 0 <= index <= PlateCount
      invariant |refs.current| == if |old(refs.current)| < index then index else |old(refs.current)|
      invariant forall i :: 0 <= i < index ==>
        && fresh(refs.current[i])
        && refs.current[i].color == ForcePlateColors[i]
        && refs.current[i].CurrentPose()
           == Pose(Val(1.0), Vec3(Val(0.0), Val(1.0), Val(0.0)), Vec3(Val(i as real), Val(0.0), Val(0.0)))
      invariant forall i :: index <= i < |refs.current| ==> refs.current[i] == old(refs.current[i])
      invariant forall i, j :: 0 <= i < j < index ==> refs.current[i] != refs.current[j]
    {
      var arrow := new Arrow(Vec3(Val(0.0), Val(1.0), Val(0.0)), Vec3(Val(index as real), Val(0.0), Val(0.0)),
                             Val(1.0), ForcePlateColors[index]);
      if index < |refs.current| {
        refs.current := refs.current[index := arrow];
      } else {
        refs.current := refs.current + [arrow];
      }
      index := index + 1;
    }
  }

  // ---------------------------------------------------------------------------
  // The row index

  /** For a progress in [0, 1] the index lies in [0, rows]. */
  lemma IndexWithinRows(progress: real, rows: nat)
    requires 0.0 <= progress <= 1.0
    ensures 0 <= PlaybackIndex(progress, rows) <= rows
  {
    assert 0.0 <= progress * rows as real <= rows as real by {
      assert progress * rows as real <= 1.0 * rows as real;
    }
  }

  /** The index is the row nearest to progress · rows. */
  lemma IndexIsNearestRow(progress: real, rows: nat, k: int)
    ensures k == PlaybackIndex(progress, rows) <==>
            progress * rows as real - 0.5 < k as real <= progress * rows as real + 0.5
  {
  }

  /** With a progress in [0, 1] there is a row exactly while progress · rows
      stays below rows − 1/2; at the end of the clip the index is `rows`,
      which has no row. */
  lemma RowExistsIff(data: seq<Frame>, time: real, duration: real)
    requires |data| > 0 && duration > 0.0 && 0.0 <= time <= duration
    ensures CurrentRow(data, Some(Action(time, duration))).Some?
        <==> time / duration * |data| as real < |data| as real - 0.5
  {
    var p := time / duration;
    var n := |data|;
    assert 0.0 <= p <= 1.0 by {
      assert p * duration == time;
    }
    IndexWithinRows(p, n);
    var k := PlaybackIndex(p, n);
    if p * n as real < n as real - 0.5 {
      assert k < n;
    } else {
      assert k as real > n as real - 1.0;
      assert k >= n;
    }
  }

  /** The last frame of the clip (time == duration) finds no row. */
  lemma EndOfClipHasNoRow(data: seq<Frame>, duration: real)
    requires |data| > 0 && duration > 0.0
    ensures PlaybackIndex(duration / duration, |data|) == |data|
    ensures CurrentRow(data, Some(Action(duration, duration))) == None
  {
    assert duration / duration == 1.0;
  }

  /** A later point in the clip never selects an earlier row. */
  lemma IndexMonotone(p1: real, p2: real, rows: nat)
    requires p1 <= p2
    ensures PlaybackIndex(p1, rows) <= PlaybackIndex(p2, rows)
  {
    assert p1 * rows as real <= p2 * rows as real;
    assert (p1 * rows as real + 0.5).Floor <= (p2 * rows as real + 0.5).Floor;
  }
}
