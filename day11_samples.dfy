/** The worked examples of the cosmic-expansion puzzle, on the model. */
module CosmicExpansionSamples {
  import opened CosmicExpansion

  /** The three-galaxy diagonal lists its galaxies in reading order. */
  lemma DiagonalCoords(g: seq<seq<char>>)
    requires |g| == 3 && g[0] == ".#.." && g[1] == "..#." && g[2] == "...#"
    ensures Galaxies(g, |g|) == [(0, 1), (1, 2), (2, 3)]
  {
    assert RowGalaxies(0, ".#..", 4) == [(0, 1)];
    assert RowGalaxies(1, "..#.", 4) == [(1, 2)];
    assert RowGalaxies(2, "...#", 4) == [(2, 3)];
    assert Galaxies(g, 1) == [(0, 1)];
    assert Galaxies(g, 2) == [(0, 1), (1, 2)];
  }

  /** The corner-to-corner image has its middle row and middle column empty. */
  lemma SmallFlags(g: seq<seq<char>>)
    requires |g| == 3 && g[0] == "#.." && g[1] == "..." && g[2] == "..#"
    ensures RowFlags(g) == [false, true, false]
    ensures ColFlags(g, 3) == [false, true, false]
  {
    assert g[0][0] == '#' && g[2][2] == '#';
    assert !EmptyLine(g[0]) && EmptyLine(g[1]) && !EmptyLine(g[2]);
    assert !EmptyColumn(g, 0) && EmptyColumn(g, 1) && !EmptyColumn(g, 2);
  }

  /** Doubling the middle cell of each of its rows. */
  lemma SmallRowsWidened()
    ensures Double("#..", [false, true, false]) == "#..."
    ensures Double("...", [false, true, false]) == "...."
    ensures Double("..#", [false, true, false]) == "...#"
  {
  }

  /** A corner-to-corner pair with an empty row and column between them: both are
      doubled. */
  lemma SmallExpansion(g: seq<seq<char>>)
    requires |g| == 3 && g[0] == "#.." && g[1] == "..." && g[2] == "..#"
    ensures Expanded(g, 3) == ["#...", "....", "....", "...#"]
  {
    SmallFlags(g);
    SmallRowsWidened();
    var w := Widen(g, [false, true, false]);
    assert w == ["#...", "....", "...#"];
    assert Double(["#...", "....", "...#"], [false, true, false]) == ["#...", "....", "....", "...#"];
  }

  /** The galaxies of the expanded example image, paired up, are 374 apart in all. */
  lemma ExampleTotal(cs: seq<Coord>)
    requires |cs| == 9
    requires cs[0] == (0, 4) && cs[1] == (1, 9) && cs[2] == (2, 0) && cs[3] == (5, 8)
    requires cs[4] == (6, 1) && cs[5] == (7, 12) && cs[6] == (10, 9) && cs[7] == (11, 0)
    requires cs[8] == (11, 5)
    ensures TotalDistance(cs) == 374
  {
    assert RowSum(cs, 0, 2) == 6;
    assert RowSum(cs, 0, 3) == 12;
    assert RowSum(cs, 0, 4) == 21;
    assert RowSum(cs, 0, 5) == 30;
    assert RowSum(cs, 0, 6) == 45;
    assert RowSum(cs, 0, 7) == 60;
    assert RowSum(cs, 0, 8) == 75;
    assert RowSum(cs, 0, 9) == 87;
    assert PairSum(cs, 1) == 87;
    assert RowSum(cs, 1, 3) == 10;
    assert RowSum(cs, 1, 4) == 15;
    assert RowSum(cs, 1, 5) == 28;
    assert RowSum(cs, 1, 6) == 37;
    assert RowSum(cs, 1, 7) == 46;
    assert RowSum(cs, 1, 8) == 65;
    assert RowSum(cs, 1, 9) == 79;
    assert PairSum(cs, 2) == 166;
    assert RowSum(cs, 2, 4) == 11;
    assert RowSum(cs, 2, 5) == 16;
    assert RowSum(cs, 2, 6) == 33;
    assert RowSum(cs, 2, 7) == 50;
    assert RowSum(cs, 2, 8) == 59;
    assert RowSum(cs, 2, 9) == 73;
    assert PairSum(cs, 3) == 239;
    assert RowSum(cs, 3, 5) == 8;
    assert RowSum(cs, 3, 6) == 14;
    assert RowSum(cs, 3, 7) == 20;
    assert RowSum(cs, 3, 8) == 34;
    assert RowSum(cs, 3, 9) == 43;
    assert PairSum(cs, 4) == 282;
    assert RowSum(cs, 4, 6) == 12;
    assert RowSum(cs, 4, 7) == 24;
    assert RowSum(cs, 4, 8) == 30;
    assert RowSum(cs, 4, 9) == 39;
    assert PairSum(cs, 5) == 321;
    assert RowSum(cs, 5, 7) == 6;
    assert RowSum(cs, 5, 8) == 22;
    assert RowSum(cs, 5, 9) == 33;
    assert PairSum(cs, 6) == 354;
    assert RowSum(cs, 6, 8) == 10;
    assert RowSum(cs, 6, 9) == 15;
    assert PairSum(cs, 7) == 369;
    assert RowSum(cs, 7, 9) == 5;
    assert PairSum(cs, 8) == 374;
    assert PairSum(cs, 9) == 374;
  }
}
