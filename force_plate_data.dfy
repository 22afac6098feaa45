/** The force-plate CSV parser that discards the first line of the text as a
    header (demo2fiber/src/forcePlateData.tsx), and how it relates to the
    parser that keeps it. */
module ForcePlateData {
  import opened Js
  import opened ForcePlates

  /** `parseForcePlateData`: `csvText.split('\n').slice(1)`, then the shared
      split, filter and map chain. */
  function ParseForcePlateData(csvText: string, toNumber: string -> Num): (frames: seq<Frame>)
    ensures ValidSeries(frames)
    ensures |frames| <= Occurrences(csvText, '\n')
  {
    SplitLength(csvText, '\n');
    ParseLines(Split(csvText, '\n')[1..], toNumber)
  }

  /** The first line is discarded whatever it holds. */
  lemma HeaderDiscarded(header: string, body: string, toNumber: string -> Num)
    requires '\n' !in header
    ensures ParseForcePlateData(header + "\n" + body, toNumber)
         == ForcePlates.ParseForcePlateData(body, toNumber)
  {
    SplitAfterFirst(header, '\n', body);
    assert ([header] + Split(body, '\n'))[1..] == Split(body, '\n');
  }

  /** Text with at most one line, the empty text included, yields no frame. */
  lemma HeaderOnlyNoFrames(csvText: string, toNumber: string -> Num)
    requires '\n' !in csvText
    ensures ParseForcePlateData(csvText, toNumber) == []
  {
    SplitWithoutSeparator(csvText, '\n');
  }

  /** The frames are those of the lines after the first that hold a comma. */
  lemma FrameCount(csvText: string, toNumber: string -> Num)
    ensures |ParseForcePlateData(csvText, toNumber)| == CommaLines(Split(csvText, '\n')[1..])
  {
    ParseLinesLength(Split(csvText, '\n')[1..], toNumber);
  }

  /** Skipping the header is the same as giving the other parser the lines
      after the first, joined again with newlines. */
  lemma SkipsHeaderOfOtherParser(csvText: string, toNumber: string -> Num)
    ensures ParseForcePlateData(csvText, toNumber)
         == ForcePlates.ParseForcePlateData(Join(Split(csvText, '\n')[1..], '\n'), toNumber)
  {
    var lines := Split(csvText, '\n');
    var body := Join(lines[1..], '\n');
    if |lines| >= 2 {
      SplitJoin(lines[1..], '\n');
    } else {
      assert lines[1..] == [] && body == "";
      EmptyTextNoFrames(toNumber);
    }
  }
}
