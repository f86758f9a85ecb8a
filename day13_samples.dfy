/** The point-of-incidence tests (day13.py:142-257): the two sample patterns, their
    mirrors, their smudges and their total score of 405. Each pattern is given row by
    row, and each claim is proved by naming, for every axis that is not a mirror, a
    pair of entries and a position where they differ. */
module PointOfIncidenceSamples {
  import opened Wrappers
  import opened PointOfIncidence

  /** The first sample pattern. */
  predicate FirstPattern(rows: seq<string>)
  {
    && |rows| == 7
    && rows[0] == "#.##..##."
    && rows[1] == "..#.##.#."
    && rows[2] == "##......#"
    && rows[3] == "##......#"
    && rows[4] == "..#.##.#."
    && rows[5] == "..##..##."
    && rows[6] == "#.#.##.#."
  }

  /** The second sample pattern. */
  predicate SecondPattern(rows: seq<string>)
  {
    && |rows| == 7
    && rows[0] == "#...##..#"
    && rows[1] == "#....#..#"
    && rows[2] == "..##..###"
    && rows[3] == "#####.##."
    && rows[4] == "#####.##."
    && rows[5] == "..##..###"
    && rows[6] == "#....#..#"
  }

  /** The columns of ".#" over "..". */
  lemma SampleColumns(rows: seq<string>)
    requires rows == [".#", ".."]
    ensures Transpose(rows, 2) == ["..", "#."]
  {
    var t := Transpose(rows, 2);
    assert t[0] == "..";
    assert t[1] == "#.";
  }

  /** The rows of the first pattern have no mirror. */
  lemma FirstPatternRows(rows: seq<string>)
    requires FirstPattern(rows)
    ensures Reflection(rows) == Ok(None)
  {
    assert !PairMatches(rows, 0, 0) by { assert rows[0][0] != rows[1][0]; }
    assert !PairMatches(rows, 1, 0) by { assert rows[1][0] != rows[2][0]; }
    assert !PairMatches(rows, 2, 2) by { assert rows[0][0] != rows[5][0]; }
    assert !PairMatches(rows, 3, 0) by { assert rows[3][0] != rows[4][0]; }
    assert !PairMatches(rows, 4, 0) by { assert rows[4][3] != rows[5][3]; }
    assert !PairMatches(rows, 5, 0) by { assert rows[5][0] != rows[6][0]; }
    assert MirrorFrom(rows, 6) == None;
    assert MirrorFrom(rows, 0) == None;
  }

  /** The rows of the second pattern mirror below row 3. */
  lemma SecondPatternRows(rows: seq<string>)
    requires SecondPattern(rows)
    ensures Reflection(rows) == Ok(Some(3))
  {
    assert !PairMatches(rows, 0, 0) by { assert rows[0][4] != rows[1][4]; }
    assert !PairMatches(rows, 1, 0) by { assert rows[1][0] != rows[2][0]; }
    assert !PairMatches(rows, 2, 0) by { assert rows[2][0] != rows[3][0]; }
    assert IsMirror(rows, 3);
    assert MirrorFrom(rows, 0) == Some(3);
  }

  /** Two columns that agree in every row are equal. */
  lemma SameColumn(rows: seq<string>, w: nat, i: nat, j: nat)
    requires Rectangular(rows, w) && i < w && j < w
    requires forall r :: 0 <= r < |rows| ==> rows[r][i] == rows[r][j]
    ensures Transpose(rows, w)[i] == Transpose(rows, w)[j]
  {
    var t := Transpose(rows, w);
    assert |t[i]| == |t[j]|;
    forall r | 0 <= r < |rows|
      ensures t[i][r] == t[j][r]
    {
    }
  }

  /** Columns 4 and 5 of the first pattern are the two sides of a mirror. */
  lemma FirstPatternColumnMirror(rows: seq<string>)
    requires FirstPattern(rows)
    ensures Rectangular(rows, 9) && IsMirror(Transpose(rows, 9), 4)
  {
    var cols := Transpose(rows, 9);
    SameColumn(rows, 9, 4, 5);
    SameColumn(rows, 9, 3, 6);
    SameColumn(rows, 9, 2, 7);
    SameColumn(rows, 9, 1, 8);
    assert PairMatches(cols, 4, 0) && PairMatches(cols, 4, 1) && PairMatches(cols, 4, 2) && PairMatches(cols, 4, 3);
  }

  /** The columns of the first pattern mirror right of column 4, and nowhere before. */
  lemma FirstPatternColumns(rows: seq<string>)
    requires FirstPattern(rows)
    ensures Rectangular(rows, 9)
    ensures Reflection(Transpose(rows, 9)) == Ok(Some(4))
  {
    var cols := Transpose(rows, 9);
    assert !PairMatches(cols, 0, 0) by { assert cols[0][0] != cols[1][0]; }
    assert !PairMatches(cols, 1, 0) by { assert cols[1][0] != cols[2][0]; }
    assert !PairMatches(cols, 2, 0) by { assert cols[2][1] != cols[3][1]; }
    assert !PairMatches(cols, 3, 0) by { assert cols[3][0] != cols[4][0]; }
    FirstPatternColumnMirror(rows);
    assert MirrorFrom(cols, 0) == Some(4);
  }

  /** The first four column axes of the second pattern each have a pair that
      differs. */
  lemma SecondPatternLeftColumns(rows: seq<string>)
    requires SecondPattern(rows)
    ensures Rectangular(rows, 9)
    ensures var cols := Transpose(rows, 9);
            && !PairMatches(cols, 0, 0) && !PairMatches(cols, 1, 0)
            && !PairMatches(cols, 2, 1) && !PairMatches(cols, 3, 0)
  {
    var cols := Transpose(rows, 9);
    assert cols[0][0] != cols[1][0];
    assert cols[1][2] != cols[2][2];
    assert cols[1][0] != cols[4][0];
    assert cols[3][0] != cols[4][0];
  }

  /** The last four column axes of the second pattern each have a pair that
      differs. */
  lemma SecondPatternRightColumns(rows: seq<string>)
    requires SecondPattern(rows)
    ensures Rectangular(rows, 9)
    ensures var cols := Transpose(rows, 9);
            && !PairMatches(cols, 4, 0) && !PairMatches(cols, 5, 0)
            && !PairMatches(cols, 6, 1) && !PairMatches(cols, 7, 0)
  {
    var cols := Transpose(rows, 9);
    assert cols[4][1] != cols[5][1];
    assert cols[5][0] != cols[6][0];
    assert cols[5][2] != cols[8][2];
    assert cols[7][0] != cols[8][0];
  }

  /** The columns of the second pattern have no mirror. */
  lemma SecondPatternColumns(rows: seq<string>)
    requires SecondPattern(rows)
    ensures Rectangular(rows, 9)
    ensures Reflection(Transpose(rows, 9)) == Ok(None)
  {
    var cols := Transpose(rows, 9);
    SecondPatternLeftColumns(rows);
    SecondPatternRightColumns(rows);
    assert MirrorFrom(cols, 8) == None;
    assert MirrorFrom(cols, 0) == None;
  }

  /** The first pattern scores 5: a mirror right of column 4 and none between rows. */
  lemma FirstPatternScore(rows: seq<string>)
    requires FirstPattern(rows)
    ensures NewGrid(rows) == Ok(Grid(rows)) && Score(Grid(rows)) == Ok(5)
  {
    FirstPatternRows(rows);
    FirstPatternColumns(rows);
  }

  /** The second pattern scores 400: a mirror below row 3 and none between columns. */
  lemma SecondPatternScore(rows: seq<string>)
    requires SecondPattern(rows)
    ensures NewGrid(rows) == Ok(Grid(rows)) && Score(Grid(rows)) == Ok(400)
  {
    SecondPatternRows(rows);
    SecondPatternColumns(rows);
  }

  /** `part1` of the two sample patterns is 405. */
  lemma Part1Sample(patterns: seq<seq<string>>)
    requires |patterns| == 2 && FirstPattern(patterns[0]) && SecondPattern(patterns[1])
    ensures TotalScore(patterns) == Ok(405)
  {
    FirstPatternScore(patterns[0]);
    SecondPatternScore(patterns[1]);
    assert PatternScore(patterns[0]) == Ok(5);
    assert PatternScore(patterns[1]) == Ok(400);
    SumScoresSnoc(patterns, PatternScore, 0, 0, Ok(5));
    SumScoresSnoc(patterns, PatternScore, 1, 5, Ok(400));
    assert patterns[..2] == patterns;
  }

  /** The pattern whose first two columns already mirror each other. */
  lemma CornerColumns(rows: seq<string>)
    requires |rows| == 9
    requires rows[0] == "...#.#.#.####.#.#"
    requires rows[1] == "..###..###..###.."
    requires rows[2] == "##.###..........#"
    requires rows[3] == "....####...#..###"
    requires rows[4] == "...#.#...#..#...#"
    requires rows[5] == "##...##.##..##.##"
    requires rows[6] == "###..##.#....#.##"
    requires rows[7] == "..##.##...##...##"
    requires rows[8] == "##.##............"
    ensures Rectangular(rows, 17)
    ensures Reflection(Transpose(rows, 17)) == Ok(Some(0))
  {
    SameColumn(rows, 17, 0, 1);
    assert PairMatches(Transpose(rows, 17), 0, 0);
    assert IsMirror(Transpose(rows, 17), 0);
  }

  /** The first pattern's smudge is the top-left cell: the axis below row 2 differs
      only there, while the axes above it differ more. */
  lemma FirstPatternSmudge(rows: seq<string>)
    requires FirstPattern(rows)
    ensures SmudgeAxisFrom(rows, 0) == Some(2)
    ensures Smudge(rows) == Some((0, 0))
  {
    assert NumPairs(7, 0) == 1 && NumPairs(7, 1) == 2 && NumPairs(7, 2) == 3;
    DiffsTwo(rows[0], rows[1], 0, 3);
    assert AxisDiffs(rows, 0) >= 2 by { assert PairDiffs(rows, 0, 1) >= PairDiff(rows, 0, 0); }
    DiffsTwo(rows[1], rows[2], 0, 1);
    assert AxisDiffs(rows, 1) >= 2 by { PairDiffsGrow(rows, 1, 1, 2); }
    DiffsSame(rows[2], rows[3]);
    DiffsSame(rows[1], rows[4]);
    DiffsOnlyAt(rows[0], rows[5], 0);
    assert PairDiff(rows, 2, 0) == 0 && PairDiff(rows, 2, 1) == 0 && PairDiff(rows, 2, 2) == 1;
    assert PairDiffs(rows, 2, 1) == 0;
    assert PairDiffs(rows, 2, 2) == 0;
    assert AxisDiffs(rows, 2) == PairDiffs(rows, 2, 3) == 1;
    assert SmudgeAxisFrom(rows, 0) == Some(2);
    assert SmudgeCell(rows, 2, 2) == Some((0, 0));
    SmudgeCellSkip(rows, 2, 2);
  }

  /** Removing the first pattern's smudge turns its top-left cell into ash. */
  lemma FirstPatternRemoved(rows: seq<string>)
    requires FirstPattern(rows)
    ensures SmudgeRemoved(Grid(rows)) == Ok(Grid(rows[0 := "..##..##."]))
  {
    FirstPatternSmudge(rows);
    assert rows[0][0 := '.'] == "..##..##.";
  }

  /** The second pattern's smudge is in row 0, column 4: the axis below row 0 has a
      single pair, which differs only there. */
  lemma SecondPatternSmudge(rows: seq<string>)
    requires SecondPattern(rows)
    ensures SmudgeAxisFrom(rows, 0) == Some(0)
    ensures Smudge(rows) == Some((0, 4))
  {
    assert NumPairs(7, 0) == 1;
    DiffsOnlyAt(rows[0], rows[1], 4);
    assert PairDiff(rows, 0, 0) == 1;
    assert AxisDiffs(rows, 0) == PairDiffs(rows, 0, 1) == 1;
  }

  /** Removing the second pattern's smudge makes its first two rows equal. */
  lemma SecondPatternRemoved(rows: seq<string>)
    requires SecondPattern(rows)
    ensures SmudgeRemoved(Grid(rows)) == Ok(Grid(rows[0 := "#....#..#"]))
  {
    SecondPatternSmudge(rows);
    assert rows[0][4 := '.'] == "#....#..#";
  }

  /** Part 2 as its test means it: the first pattern's smudge lies on the axis below
      row 2 and the second's on the axis below row 0, so the sum is 300 + 100. */
  lemma Part2Sample(patterns: seq<seq<string>>)
    requires |patterns| == 2 && FirstPattern(patterns[0]) && SecondPattern(patterns[1])
    ensures TotalSmudgeScore(patterns) == Ok(400)
  {
    FirstPatternScore(patterns[0]);
    SecondPatternScore(patterns[1]);
    FirstPatternSmudge(patterns[0]);
    SecondPatternSmudge(patterns[1]);
    assert SmudgePatternScore(patterns[0]) == Ok(300);
    assert SmudgePatternScore(patterns[1]) == Ok(100);
    SumScoresSnoc(patterns, SmudgePatternScore, 0, 0, Ok(300));
    SumScoresSnoc(patterns, SmudgePatternScore, 1, 300, Ok(100));
    assert patterns[..2] == patterns;
  }

  /** `part2` as written repeats `part1`'s loop, so on the example it answers 405,
      not the 400 its test expects. */
  lemma Part2AsWrittenSample(patterns: seq<seq<string>>)
    requires |patterns| == 2 && FirstPattern(patterns[0]) && SecondPattern(patterns[1])
    ensures TotalScore(patterns) == Ok(405)
    ensures TotalScore(patterns) != TotalSmudgeScore(patterns)
  {
    Part1Sample(patterns);
    Part2Sample(patterns);
  }
}
