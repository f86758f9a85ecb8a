/** A small engine schematic worked through the model. */
module GearRatiosSamples {
  import opened GearRatios

  /** The schematic
        467..
        ...*.
        ..35.
      has two numbers, both next to the `*`. */
  predicate Small(lines: seq<string>)
  {
    |lines| == 3 && lines[0] == "467.." && lines[1] == "...*." && lines[2] == "..35."
  }

  lemma FirstLineRuns()
    ensures RunsFrom("467..", 0) == [(0, 3)]
  {
    assert RunEnd("467..", 0) == 3;
    assert RunsFrom("467..", 3) == [];
  }

  lemma ThirdLineRuns()
    ensures RunsFrom("..35.", 0) == [(2, 4)]
  {
    assert RunEnd("..35.", 2) == 4;
    assert RunsFrom("..35.", 4) == [];
    assert RunsFrom("..35.", 0) == RunsFrom("..35.", 2);
  }

  lemma SmallNumbers(lines: seq<string>)
    requires Small(lines)
    ensures Numbers(lines, 3) == [Number(0, (0, 3)), Number(2, (2, 4))]
  {
    FirstLineRuns();
    ThirdLineRuns();
    assert RunsFrom("...*.", 0) == [];
    assert Numbers(lines, 1) == [Number(0, (0, 3))];
    assert Numbers(lines, 2) == [Number(0, (0, 3))];
  }

  lemma SmallValues(lines: seq<string>)
    requires Small(lines)
    ensures ValidNumber(lines, Number(0, (0, 3))) && NumberValue(lines, Number(0, (0, 3))) == 467
    ensures ValidNumber(lines, Number(2, (2, 4))) && NumberValue(lines, Number(2, (2, 4))) == 35
  {
    assert lines[0][0..3] == "467";
    assert "467"[..2] == "46" && "46"[..1] == "4" && "4"[..0] == "";
    assert Value("467") == 467;
    assert lines[2][2..4] == "35";
    assert "35"[..1] == "3" && "3"[..0] == "";
    assert Value("35") == 35;
  }

  /** Both numbers touch the `*`, so both are part numbers. */
  lemma SmallAdjacent(lines: seq<string>)
    requires Small(lines)
    ensures ValidNumber(lines, Number(0, (0, 3))) && HasAdjacentSymbol(Number(0, (0, 3)), lines)
    ensures ValidNumber(lines, Number(2, (2, 4))) && HasAdjacentSymbol(Number(2, (2, 4)), lines)
  {
    SmallValues(lines);
    assert SymbolAt(lines, 1, 3);
    SymbolChecked(Number(0, (0, 3)), lines, 1, 3);
    SymbolChecked(Number(2, (2, 4)), lines, 1, 3);
  }

  lemma SmallPart1(lines: seq<string>)
    requires Small(lines)
    ensures PartSum(lines, Numbers(lines, 3)) == 502
  {
    SmallNumbers(lines);
    SmallValues(lines);
    SmallAdjacent(lines);
    var ns := Numbers(lines, 3);
    assert ns[..0] == [];
    PartSumSnoc(lines, ns, 0, 0);
    PartSumSnoc(lines, ns, 1, 467);
    assert ns[..2] == ns;
  }

  lemma SmallGears(lines: seq<string>)
    requires Small(lines)
    ensures GearCandidates(lines, 3) == [(1, 3)]
  {
    assert RowGears(0, "467..", 5) == [];
    assert RowGears(1, "...*.", 5) == [(1, 3)];
    assert RowGears(2, "..35.", 5) == [];
    assert GearCandidates(lines, 1) == [];
    assert GearCandidates(lines, 2) == [(1, 3)];
  }

  /** The `*` is a gear: exactly two numbers around it, ratio 467 * 35. */
  lemma SmallRatio(lines: seq<string>)
    requires Small(lines)
    ensures AllValid(lines, [Number(0, (0, 3)), Number(2, (2, 4))])
    ensures GearRatio(lines, [Number(0, (0, 3)), Number(2, (2, 4))], (1, 3)) == 16345
  {
    SmallValues(lines);
    var a := Number(0, (0, 3));
    var b := Number(2, (2, 4));
    assert [a, b][..1] == [a] && [a][..0] == [];
    assert AdjacentTo([a], 1, 3) == [a];
    assert AdjacentTo([a, b], 1, 3) == [a, b];
    assert Product(lines, [a]) == 467;
    assert Product(lines, [a, b]) == 467 * 35;
  }

  lemma SmallPart2(lines: seq<string>)
    requires Small(lines)
    ensures RatioSum(lines, Numbers(lines, 3), GearCandidates(lines, 3)) == 16345
  {
    SmallNumbers(lines);
    SmallGears(lines);
    SmallRatio(lines);
    assert [(1, 3)][..0] == [];
  }
}
