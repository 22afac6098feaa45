/** The force-plate CSV parser that reads every line of the text, the header
    included (demo2fiber/src/forcePlates.tsx), together with the pieces the
    other two revisions of the parser share with it: the record type, the
    column table and the split-and-filter pipeline. */
module ForcePlates {
  import opened Js

  /** One plate's reading at one instant: ground-reaction force (x, y, z),
      free moment t and centre of pressure (px, py). */
  datatype Datum = Datum(x: Num, y: Num, z: Num, t: Num, px: Num, py: Num)

  /** All plates at one instant, in plate order. */
  type Frame = seq<Datum>

  const PlateCount: nat := 4

  /** The column of each plate's force z, in plate order; the plate's other
      fields follow at fixed distances from it. */
  const PlateDataOffsets: seq<nat> := [4, 37, 15, 26]

  /** Every column the parser reads: offsets o..o+2 and o+5..o+7 of each plate. */
  const ReadColumns: set<int> :=
    {4, 5, 6, 9, 10, 11, 37, 38, 39, 42, 43, 44, 15, 16, 17, 20, 21, 22, 26, 27, 28, 31, 32, 33}

  /** Columns o+3 and o+4 of each plate, which lie inside a plate's group but are skipped. */
  const SkippedColumns: set<int> := {7, 8, 40, 41, 18, 19, 29, 30}

  predicate ValidSeries(frames: seq<Frame>)
  {
    forall k :: 0 <= k < |frames| ==> |frames[k]| == PlateCount
  }

  /** `Number(row[i])`: a cell past the end of the row is `undefined`, and
      `Number(undefined)` is NaN; the conversion of present text is
      `toNumber`, which the model leaves open. */
  function NumberOf(toNumber: string -> Num, cell: Option<string>): Num
  {
    match cell
    case None => NaN
    case Some(text) => toNumber(text)
  }

  /** The record of the plate whose group starts at column `offset`. */
  function DatumAt(row: seq<string>, offset: nat, toNumber: string -> Num): Datum
  {
    Datum(z := NumberOf(toNumber, At(row, offset)),
          x := NumberOf(toNumber, At(row, offset + 1)),
          y := NumberOf(toNumber, At(row, offset + 2)),
          t := NumberOf(toNumber, At(row, offset + 5)),
          px := NumberOf(toNumber, At(row, offset + 6)),
          py := NumberOf(toNumber, At(row, offset + 7)))
  }

  /** `csvPlateDataOffsets.map(offset => ...)` for one row. */
  function FrameOf(row: seq<string>, toNumber: string -> Num): (frame: Frame)
    ensures |frame| == PlateCount
  {
    seq(PlateCount, i requires 0 <= i < PlateCount => DatumAt(row, PlateDataOffsets[i], toNumber))
  }

  /** `lines.map(row => row.split(','))`. */
  function Rows(lines: seq<string>): (rows: seq<seq<string>>)
    ensures |rows| == |lines|
  {
    seq(|lines|, i requires 0 <= i < |lines| => Split(lines[i], ','))
  }

  /** `.filter(row => row.length > 1)`. */
  function KeepMultiField(rows: seq<seq<string>>): (kept: seq<seq<string>>)
    ensures |kept| <= |rows|
    ensures forall k :: 0 <= k < |kept| ==> |kept[k]| > 1
  {
    if |rows| == 0 then []
    else (if |rows[0]| > 1 then [rows[0]] else []) + KeepMultiField(rows[1..])
  }

  /** The split, filter and map chain applied to a list of lines. */
  function ParseLines(lines: seq<string>, toNumber: string -> Num): (frames: seq<Frame>)
    ensures |frames| <= |lines|
    ensures ValidSeries(frames)
  {
    var kept := KeepMultiField(Rows(lines));
    seq(|kept|, k requires 0 <= k < |kept| => FrameOf(kept[k], toNumber))
  }

  /** `parseForcePlateData`: every line of the text, the first included. */
  function ParseForcePlateData(csvText: string, toNumber: string -> Num): (frames: seq<Frame>)
    ensures ValidSeries(frames)
    ensures |frames| <= |Split(csvText, '\n')|
  {
    ParseLines(Split(csvText, '\n'), toNumber)
  }

  // ---------------------------------------------------------------------------
  // The output: one frame per line that holds a comma, in line order

  /** The number of lines that hold a comma. */
  function CommaLines(lines: seq<string>): nat
  {
    if |lines| == 0 then 0 else (if ',' in lines[0] then 1 else 0) + CommaLines(lines[1..])
  }

  lemma {:induction false} KeepMultiFieldAppend(a: seq<seq<string>>, b: seq<seq<string>>)
    ensures KeepMultiField(a + b) == KeepMultiField(a) + KeepMultiField(b)
    decreases |a|
  {
    if |a| > 0 {
      KeepMultiFieldAppend(a[1..], b);
      assert (a + b)[1..] == a[1..] + b;
    } else {
      assert a + b == b;
    }
  }

  /** Parsing two blocks of lines gives the frames of the first block
      followed by those of the second: the filter keeps the line order. */
  lemma ParseLinesAppend(a: seq<string>, b: seq<string>, toNumber: string -> Num)
    ensures ParseLines(a + b, toNumber) == ParseLines(a, toNumber) + ParseLines(b, toNumber)
  {
    assert Rows(a + b) == Rows(a) + Rows(b);
    KeepMultiFieldAppend(Rows(a), Rows(b));
  }

  /** A single line yields one frame, read from its comma-separated fields,
      exactly when it holds a comma, and nothing otherwise. */
  lemma ParseLine(line: string, toNumber: string -> Num)
    ensures ParseLines([line], toNumber)
         == if ',' in line then [FrameOf(Split(line, ','), toNumber)] else []
  {
    SplitMoreThanOneIff(line, ',');
    assert Rows([line]) == [Split(line, ',')];
    assert Rows([line])[1..] == [];
  }

  /** The number of frames is the number of lines that hold a comma. */
  lemma {:induction false} ParseLinesLength(lines: seq<string>, toNumber: string -> Num)
    ensures |ParseLines(lines, toNumber)| == CommaLines(lines)
    decreases |lines|
  {
    if |lines| > 0 {
      ParseLinesLength(lines[1..], toNumber);
      ParseLinesAppend([lines[0]], lines[1..], toNumber);
      ParseLine(lines[0], toNumber);
      assert [lines[0]] + lines[1..] == lines;
    }
  }

  /** The first line is parsed like any other: it yields a frame exactly when
      it holds a comma, and the rest of the text follows. */
  lemma FirstLineIsData(first: string, rest: string, toNumber: string -> Num)
    requires '\n' !in first
    ensures ParseForcePlateData(first + "\n" + rest, toNumber)
         == (if ',' in first then [FrameOf(Split(first, ','), toNumber)] else [])
            + ParseForcePlateData(rest, toNumber)
  {
    SplitAfterFirst(first, '\n', rest);
    ParseLinesAppend([first], Split(rest, '\n'), toNumber);
    ParseLine(first, toNumber);
  }

  /** Empty text yields no frame. */
  lemma EmptyTextNoFrames(toNumber: string -> Num)
    ensures ParseForcePlateData("", toNumber) == []
  {
    assert Split("", '\n') == [""];
    ParseLine("", toNumber);
  }

  /** There are never more frames than lines. */
  lemma AtMostOneFramePerLine(csvText: string, toNumber: string -> Num)
    ensures |ParseForcePlateData(csvText, toNumber)| <= Occurrences(csvText, '\n') + 1
  {
    SplitLength(csvText, '\n');
  }

  // ---------------------------------------------------------------------------
  // The column table

  /** The columns each plate reads, worked out from the offset table. */
  lemma FrameColumns(row: seq<string>, toNumber: string -> Num)
    ensures FrameOf(row, toNumber)[0] == Datum(
      z := NumberOf(toNumber, At(row, 4)), x := NumberOf(toNumber, At(row, 5)),
      y := NumberOf(toNumber, At(row, 6)), t := NumberOf(toNumber, At(row, 9)),
      px := NumberOf(toNumber, At(row, 10)), py := NumberOf(toNumber, At(row, 11)))
    ensures FrameOf(row, toNumber)[1] == Datum(
      z := NumberOf(toNumber, At(row, 37)), x := NumberOf(toNumber, At(row, 38)),
      y := NumberOf(toNumber, At(row, 39)), t := NumberOf(toNumber, At(row, 42)),
      px := NumberOf(toNumber, At(row, 43)), py := NumberOf(toNumber, At(row, 44)))
    ensures FrameOf(row, toNumber)[2] == Datum(
      z := NumberOf(toNumber, At(row, 15)), x := NumberOf(toNumber, At(row, 16)),
      y := NumberOf(toNumber, At(row, 17)), t := NumberOf(toNumber, At(row, 20)),
      px := NumberOf(toNumber, At(row, 21)), py := NumberOf(toNumber, At(row, 22)))
    ensures FrameOf(row, toNumber)[3] == Datum(
      z := NumberOf(toNumber, At(row, 26)), x := NumberOf(toNumber, At(row, 27)),
      y := NumberOf(toNumber, At(row, 28)), t := NumberOf(toNumber, At(row, 31)),
      px := NumberOf(toNumber, At(row, 32)), py := NumberOf(toNumber, At(row, 33)))
  {
  }

  /** A frame depends on the cells of the read columns only: two rows that
      agree there give the same frame. */
  lemma SameReadCellsSameFrame(r1: seq<string>, r2: seq<string>, toNumber: string -> Num)
    requires forall c :: c in ReadColumns ==> At(r1, c) == At(r2, c)
    ensures FrameOf(r1, toNumber) == FrameOf(r2, toNumber)
  {
    FrameColumns(r1, toNumber);
    FrameColumns(r2, toNumber);
    forall c | c in ReadColumns ensures At(r1, c) == At(r2, c) { }
    assert At(r1, 4) == At(r2, 4) && At(r1, 5) == At(r2, 5) && At(r1, 6) == At(r2, 6);
    assert At(r1, 9) == At(r2, 9) && At(r1, 10) == At(r2, 10) && At(r1, 11) == At(r2, 11);
    assert At(r1, 37) == At(r2, 37) && At(r1, 38) == At(r2, 38) && At(r1, 39) == At(r2, 39);
    assert At(r1, 42) == At(r2, 42) && At(r1, 43) == At(r2, 43) && At(r1, 44) == At(r2, 44);
    assert At(r1, 15) == At(r2, 15) && At(r1, 16) == At(r2, 16) && At(r1, 17) == At(r2, 17);
    assert At(r1, 20) == At(r2, 20) && At(r1, 21) == At(r2, 21) && At(r1, 22) == At(r2, 22);
    assert At(r1, 26) == At(r2, 26) && At(r1, 27) == At(r2, 27) && At(r1, 28) == At(r2, 28);
    assert At(r1, 31) == At(r2, 31) && At(r1, 32) == At(r2, 32) && At(r1, 33) == At(r2, 33);
  }

  /** Columns o+3 and o+4 are never read: overwriting one changes no frame. */
  lemma SkippedColumnIgnored(row: seq<string>, c: int, cell: string, toNumber: string -> Num)
    requires c in SkippedColumns && 0 <= c < |row|
    ensures FrameOf(row[c := cell], toNumber) == FrameOf(row, toNumber)
  {
    assert ReadColumns !! SkippedColumns;
    forall k | k in ReadColumns ensures At(row[c := cell], k) == At(row, k) {
      assert k != c;
    }
    SameReadCellsSameFrame(row[c := cell], row, toNumber);
  }

  /** Column 44 (plate 1's py) is the last one read: a row of 45 cells or
      more reads every field from a cell, and a shorter row leaves that
      field NaN without failing. */
  lemma RowWidth(row: seq<string>, toNumber: string -> Num)
    ensures |row| >= 45 ==> forall c :: c in ReadColumns ==> At(row, c).Some?
    ensures |row| <= 44 ==> FrameOf(row, toNumber)[1].py == NaN
  {
    FrameColumns(row, toNumber);
  }
}
