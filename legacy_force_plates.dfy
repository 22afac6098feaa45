/** The earliest revision of the force-plate parser (demo/src/forcePlates.ts):
    no header skip, and each plate's group named by an anchor column, its
    force y, with the other fields read around it. */
module LegacyForcePlates {
  import opened Js
  import opened ForcePlates

  /** The anchor (force y) column of each plate, in plate order. */
  const Anchors: seq<nat> := [6, 39, 17, 28]

  /** The record of the plate anchored at column `a`: x = row[a-1],
      y = row[a], z = row[a-2], t = row[a+3], px = row[a+4], py = row[a+5]. */
  function AnchoredDatum(row: seq<string>, a: nat, toNumber: string -> Num): Datum
    requires a >= 2
  {
    Datum(x := NumberOf(toNumber, At(row, a - 1)),
          y := NumberOf(toNumber, At(row, a)),
          z := NumberOf(toNumber, At(row, a - 2)),
          t := NumberOf(toNumber, At(row, a + 3)),
          px := NumberOf(toNumber, At(row, a + 4)),
          py := NumberOf(toNumber, At(row, a + 5)))
  }

  /** The four records written out for one row. */
  function AnchoredFrame(row: seq<string>, toNumber: string -> Num): (frame: Frame)
    ensures |frame| == PlateCount
  {
    [AnchoredDatum(row, 6, toNumber), AnchoredDatum(row, 39, toNumber),
     AnchoredDatum(row, 17, toNumber), AnchoredDatum(row, 28, toNumber)]
  }

  /** `parseForcePlateData` of this revision: every line of the text. */
  function ParseForcePlateData(csvText: string, toNumber: string -> Num): (frames: seq<Frame>)
    ensures ValidSeries(frames)
  {
    var kept := KeepMultiField(Rows(Split(csvText, '\n')));
    seq(|kept|, k requires 0 <= k < |kept| => AnchoredFrame(kept[k], toNumber))
  }

  /** Anchor a, read from a-2 to a+5, is offset a-2 read from o to o+7: the
      anchors sit two columns after the offsets of the later revisions. */
  lemma {:induction false} AnchorsAreOffsetsPlusTwo(row: seq<string>, toNumber: string -> Num)
    ensures forall i :: 0 <= i < PlateCount ==> Anchors[i] == PlateDataOffsets[i] + 2
    ensures AnchoredFrame(row, toNumber) == FrameOf(row, toNumber)
  {
    forall i | 0 <= i < PlateCount
      ensures AnchoredFrame(row, toNumber)[i] == FrameOf(row, toNumber)[i]
    {
      assert AnchoredFrame(row, toNumber)[i] == AnchoredDatum(row, PlateDataOffsets[i] + 2, toNumber);
    }
  }

  /** On every text this revision gives the same frames as the revision
      in demo2fiber/src/forcePlates.tsx. */
  lemma SameAsForcePlates(csvText: string, toNumber: string -> Num)
    ensures ParseForcePlateData(csvText, toNumber) == ForcePlates.ParseForcePlateData(csvText, toNumber)
  {
    var kept := KeepMultiField(Rows(Split(csvText, '\n')));
    forall k | 0 <= k < |kept|
      ensures AnchoredFrame(kept[k], toNumber) == FrameOf(kept[k], toNumber)
    {
      AnchorsAreOffsetsPlusTwo(kept[k], toNumber);
    }
  }

  /** Columns a+1 and a+2 (7 and 8 for the first plate) are never read. */
  lemma SkippedColumnIgnored(row: seq<string>, c: int, cell: string, toNumber: string -> Num)
    requires c in SkippedColumns && 0 <= c < |row|
    ensures AnchoredFrame(row[c := cell], toNumber) == AnchoredFrame(row, toNumber)
  {
    AnchorsAreOffsetsPlusTwo(row, toNumber);
    AnchorsAreOffsetsPlusTwo(row[c := cell], toNumber);
    ForcePlates.SkippedColumnIgnored(row, c, cell, toNumber);
  }
}
