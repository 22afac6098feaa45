/** The grids drawn over the force plates (demo2fiber/src/ForcePlateOverlay.tsx):
    one grid per plate colour, laid out along x. */
module ForcePlateOverlay {
  import opened Colors
  import ForcePlates

  /** A `gridHelper`: its size, its number of divisions, its centre-line and
      grid colours, and the x of its position (y and z are 0). */
  datatype Grid = Grid(size: real, divisions: nat, centerColor: Color, lineColor: Color, x: real)

  const GridDivisions: nat := 5
  const GridShrink: real := 0.98

  /** `forcePlateColors.map((color, index) => <gridHelper .../>)`. */
  function Overlay(start: real, spacing: real, scale: real): (grids: seq<Grid>)
    ensures |grids| == |ForcePlateColors|
  {
    seq(|ForcePlateColors|, i requires 0 <= i < |ForcePlateColors| =>
      Grid(scale * GridShrink, GridDivisions, AshGray, ForcePlateColors[i], start + spacing * i as real))
  }

  /** One grid per plate, the same for all but its colour and place: grid i
      is drawn in plate i's colour, one spacing further along x than grid
      i - 1. */
  lemma OverlayLayout(start: real, spacing: real, scale: real)
    ensures |Overlay(start, spacing, scale)| == ForcePlates.PlateCount
    ensures forall i :: 0 <= i < |Overlay(start, spacing, scale)| ==>
      var g := Overlay(start, spacing, scale)[i];
      g.size == scale * 0.98 && g.divisions == 5 && g.centerColor == AshGray && g.lineColor == ForcePlateColors[i]
    ensures Overlay(start, spacing, scale)[0].x == start
    ensures forall i :: 1 <= i < |Overlay(start, spacing, scale)| ==>
      Overlay(start, spacing, scale)[i].x == Overlay(start, spacing, scale)[i - 1].x + spacing
  {
  }

  /** The overlay for start 3, spacing 2 and scale 4: grids at 3, 5, 7 and 9,
      of size 3.92, in tea green, strawberry red, sky blue and plum magenta. */
  lemma OverlayExample()
    ensures var g := Overlay(3.0, 2.0, 4.0);
      && |g| == 4
      && g[0].x == 3.0 && g[1].x == 5.0 && g[2].x == 7.0 && g[3].x == 9.0
      && g[0].size == 3.92
      && g[0].lineColor == TeaGreen && g[1].lineColor == StrawberryRed
      && g[2].lineColor == SkyBlue && g[3].lineColor == PlumMagenta
  {
  }

  /** Grids of a positive size no wider than the spacing never overlap: each
      covers [x - size / 2, x + size / 2] and the next one starts beyond. */
  lemma GridsApart(start: real, spacing: real, scale: real)
    requires 0.0 < scale * 0.98 <= spacing
    ensures forall i, j :: 0 <= i < j < |Overlay(start, spacing, scale)| ==>
      var gi, gj := Overlay(start, spacing, scale)[i], Overlay(start, spacing, scale)[j];
      gi.x + gi.size / 2.0 <= gj.x - gj.size / 2.0
  {
    var grids := Overlay(start, spacing, scale);
    var size := scale * 0.98;
    forall i, j | 0 <= i < j < |grids|
      ensures grids[i].x + grids[i].size / 2.0 <= grids[j].x - grids[j].size / 2.0
    {
      assert grids[j].x - grids[i].x == spacing * (j - i) as real;
      assert spacing * (j - i) as real >= spacing;
    }
  }
}
