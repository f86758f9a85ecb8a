/** The per-record counts of the hot-springs test table (day12.py:61-69),
    proved by evaluating the memoised states of `Ways`, deepest position first,
    so that each step unfolds the recursion once. */
module HotSpringsSamples {
  import opened HotSprings

  /** A record with no '?' is decided by its own runs. */
  lemma SampleKnown()
    ensures CountArrangements("#.#.###", [1, 1, 3]) == 1
  {
    KnownRecord("#.#.###", [1, 1, 3]);
  }

  /** The states of `Ways` from position 4 on. */
  lemma SampleUnknownPrefixTail(r: string, runs: seq<nat>)
    requires r == "???.###" && runs == [1, 1, 3]
    ensures Ways(r, runs, 4, 0, 0) == 0 && Ways(r, runs, 4, 1, 0) == 0 && Ways(r, runs, 4, 2, 0) == 1
  {
    assert Ways(r, runs, 6, 2, 2) == 1;
    assert Ways(r, runs, 5, 0, 1) == 0;
    assert Ways(r, runs, 5, 1, 1) == 0;
    assert Ways(r, runs, 5, 2, 1) == 1;
    assert Ways(r, runs, 4, 0, 0) == 0;
    assert Ways(r, runs, 4, 1, 0) == 0;
    assert Ways(r, runs, 4, 2, 0) == 1;
  }

  /** `Ways` from the start, on top of the states from position 4 on. */
  lemma SampleUnknownPrefixWays(r: string, runs: seq<nat>)
    requires r == "???.###" && runs == [1, 1, 3]
    ensures Ways(r, runs, 0, 0, 0) == 1
  {
    SampleUnknownPrefixTail(r, runs);
    assert Ways(r, runs, 3, 0, 0) == 0;
    assert Ways(r, runs, 3, 0, 1) == 0;
    assert Ways(r, runs, 3, 1, 0) == 0;
    assert Ways(r, runs, 3, 1, 1) == 1;
    assert Ways(r, runs, 2, 0, 0) == 0;
    assert Ways(r, runs, 2, 0, 1) == 0;
    assert Ways(r, runs, 2, 1, 0) == 1;
    assert Ways(r, runs, 1, 0, 0) == 0;
    assert Ways(r, runs, 1, 0, 1) == 1;
    assert Ways(r, runs, 0, 0, 0) == 1;
  }

  /** The test row "???.###" with runs [1, 1, 3]: 1 arrangement. */
  lemma SampleUnknownPrefix(r: string, runs: seq<nat>)
    requires r == "???.###" && runs == [1, 1, 3]
    ensures CountArrangements(r, runs) == 1
  {
    SampleUnknownPrefixWays(r, runs);
  }

  /** The states of `Ways` from position 8 on. */
  lemma SampleTwoGroupsTail(r: string, runs: seq<nat>)
    requires r == ".??..??...?##." && runs == [1, 1, 3]
    ensures Ways(r, runs, 8, 0, 0) == 0 && Ways(r, runs, 8, 1, 0) == 0 && Ways(r, runs, 8, 2, 0) == 1
  {
    assert Ways(r, runs, 13, 2, 2) == 0;
    assert Ways(r, runs, 13, 2, 3) == 1;
    assert Ways(r, runs, 12, 0, 1) == 0;
    assert Ways(r, runs, 12, 1, 1) == 0;
    assert Ways(r, runs, 12, 2, 1) == 0;
    assert Ways(r, runs, 12, 2, 2) == 1;
    assert Ways(r, runs, 11, 0, 0) == 0;
    assert Ways(r, runs, 11, 0, 1) == 0;
    assert Ways(r, runs, 11, 1, 0) == 0;
    assert Ways(r, runs, 11, 1, 1) == 0;
    assert Ways(r, runs, 11, 2, 0) == 0;
    assert Ways(r, runs, 11, 2, 1) == 1;
    assert Ways(r, runs, 10, 0, 0) == 0;
    assert Ways(r, runs, 10, 1, 0) == 0;
    assert Ways(r, runs, 10, 2, 0) == 1;
    assert Ways(r, runs, 9, 0, 0) == 0;
    assert Ways(r, runs, 9, 1, 0) == 0;
    assert Ways(r, runs, 9, 2, 0) == 1;
    assert Ways(r, runs, 8, 0, 0) == 0;
    assert Ways(r, runs, 8, 1, 0) == 0;
    assert Ways(r, runs, 8, 2, 0) == 1;
  }

  /** `Ways` from the start, on top of the states from position 8 on. */
  lemma SampleTwoGroupsWays(r: string, runs: seq<nat>)
    requires r == ".??..??...?##." && runs == [1, 1, 3]
    ensures Ways(r, runs, 0, 0, 0) == 4
  {
    SampleTwoGroupsTail(r, runs);
    assert Ways(r, runs, 7, 0, 0) == 0;
    assert Ways(r, runs, 7, 0, 1) == 0;
    assert Ways(r, runs, 7, 1, 0) == 0;
    assert Ways(r, runs, 7, 1, 1) == 1;
    assert Ways(r, runs, 7, 2, 0) == 1;
    assert Ways(r, runs, 6, 0, 0) == 0;
    assert Ways(r, runs, 6, 0, 1) == 0;
    assert Ways(r, runs, 6, 1, 0) == 1;
    assert Ways(r, runs, 6, 1, 1) == 1;
    assert Ways(r, runs, 5, 0, 0) == 0;
    assert Ways(r, runs, 5, 1, 0) == 2;
    assert Ways(r, runs, 4, 0, 0) == 0;
    assert Ways(r, runs, 4, 1, 0) == 2;
    assert Ways(r, runs, 3, 0, 0) == 0;
    assert Ways(r, runs, 3, 0, 1) == 2;
    assert Ways(r, runs, 3, 1, 0) == 2;
    assert Ways(r, runs, 2, 0, 0) == 2;
    assert Ways(r, runs, 2, 0, 1) == 2;
    assert Ways(r, runs, 1, 0, 0) == 4;
    assert Ways(r, runs, 0, 0, 0) == 4;
  }

  /** The test row ".??..??...?##." with runs [1, 1, 3]: 4 arrangements. */
  lemma SampleTwoGroups(r: string, runs: seq<nat>)
    requires r == ".??..??...?##." && runs == [1, 1, 3]
    ensures CountArrangements(r, runs) == 4
  {
    SampleTwoGroupsWays(r, runs);
  }

  /** The states of `Ways` from position 7 on. */
  lemma SampleAlternatingTail(r: string, runs: seq<nat>)
    requires r == "?#?#?#?#?#?#?#?" && runs == [1, 3, 1, 6]
    ensures Ways(r, runs, 7, 2, 0) == 1
  {
    assert Ways(r, runs, 14, 3, 5) == 1;
    assert Ways(r, runs, 13, 3, 4) == 1;
    assert Ways(r, runs, 12, 3, 3) == 1;
    assert Ways(r, runs, 11, 3, 2) == 1;
    assert Ways(r, runs, 10, 3, 1) == 1;
    assert Ways(r, runs, 9, 3, 0) == 1;
    assert Ways(r, runs, 8, 2, 1) == 1;
    assert Ways(r, runs, 7, 2, 0) == 1;
  }

  /** `Ways` from the start, on top of the states from position 7 on. */
  lemma SampleAlternatingWays(r: string, runs: seq<nat>)
    requires r == "?#?#?#?#?#?#?#?" && runs == [1, 3, 1, 6]
    ensures Ways(r, runs, 0, 0, 0) == 1
  {
    SampleAlternatingTail(r, runs);
    assert Ways(r, runs, 6, 1, 3) == 1;
    assert Ways(r, runs, 5, 1, 2) == 1;
    assert Ways(r, runs, 4, 1, 1) == 1;
    assert Ways(r, runs, 3, 1, 0) == 1;
    assert Ways(r, runs, 2, 0, 1) == 1;
    assert Ways(r, runs, 1, 0, 0) == 1;
    assert Ways(r, runs, 1, 0, 1) == 0;
    assert Ways(r, runs, 0, 0, 0) == 1;
  }


  /** The test row "?#?#?#?#?#?#?#?" with runs [1, 3, 1, 6]: 1 arrangement. */
  lemma SampleAlternating(r: string, runs: seq<nat>)
    requires r == "?#?#?#?#?#?#?#?" && runs == [1, 3, 1, 6]
    ensures CountArrangements(r, runs) == 1
  {
    SampleAlternatingWays(r, runs);
  }

  /** The states of `Ways` from position 5 on. */
  lemma SampleFourOneOneTail(r: string, runs: seq<nat>)
    requires r == "????.#...#..." && runs == [4, 1, 1]
    ensures Ways(r, runs, 5, 0, 0) == 0 && Ways(r, runs, 5, 1, 0) == 1
  {
    assert Ways(r, runs, 12, 3, 0) == 1;
    assert Ways(r, runs, 11, 3, 0) == 1;
    assert Ways(r, runs, 10, 2, 1) == 1;
    assert Ways(r, runs, 9, 2, 0) == 1;
    assert Ways(r, runs, 8, 2, 0) == 1;
    assert Ways(r, runs, 7, 2, 0) == 1;
    assert Ways(r, runs, 6, 0, 1) == 0;
    assert Ways(r, runs, 6, 1, 1) == 1;
    assert Ways(r, runs, 5, 0, 0) == 0;
    assert Ways(r, runs, 5, 1, 0) == 1;
  }

  /** `Ways` from the start, on top of the states from position 5 on. */
  lemma SampleFourOneOneWays(r: string, runs: seq<nat>)
    requires r == "????.#...#..." && runs == [4, 1, 1]
    ensures Ways(r, runs, 0, 0, 0) == 1
  {
    SampleFourOneOneTail(r, runs);
    assert Ways(r, runs, 4, 0, 0) == 0;
    assert Ways(r, runs, 4, 0, 1) == 0;
    assert Ways(r, runs, 4, 0, 2) == 0;
    assert Ways(r, runs, 4, 0, 3) == 0;
    assert Ways(r, runs, 4, 0, 4) == 1;
    assert Ways(r, runs, 3, 0, 0) == 0;
    assert Ways(r, runs, 3, 0, 1) == 0;
    assert Ways(r, runs, 3, 0, 2) == 0;
    assert Ways(r, runs, 3, 0, 3) == 1;
    assert Ways(r, runs, 2, 0, 0) == 0;
    assert Ways(r, runs, 2, 0, 1) == 0;
    assert Ways(r, runs, 2, 0, 2) == 1;
    assert Ways(r, runs, 1, 0, 0) == 0;
    assert Ways(r, runs, 1, 0, 1) == 1;
    assert Ways(r, runs, 0, 0, 0) == 1;
  }

  /** The test row "????.#...#..." with runs [4, 1, 1]: 1 arrangement. */
  lemma SampleFourOneOne(r: string, runs: seq<nat>)
    requires r == "????.#...#..." && runs == [4, 1, 1]
    ensures CountArrangements(r, runs) == 1
  {
    SampleFourOneOneWays(r, runs);
  }

  /** The states of `Ways` from position 12 on: the run of five. */
  lemma SampleSixFiveDeep(r: string, runs: seq<nat>)
    requires r == "????.######..#####." && runs == [1, 6, 5]
    ensures Ways(r, runs, 12, 2, 0) == 1
  {
    assert Ways(r, runs, 18, 2, 5) == 1;
    assert Ways(r, runs, 17, 2, 4) == 1;
    assert Ways(r, runs, 16, 2, 3) == 1;
    assert Ways(r, runs, 15, 2, 2) == 1;
    assert Ways(r, runs, 14, 2, 1) == 1;
    assert Ways(r, runs, 13, 2, 0) == 1;
  }

  /** The states of `Ways` from position 5 on: the run of six. */
  lemma SampleSixFiveTail(r: string, runs: seq<nat>)
    requires r == "????.######..#####." && runs == [1, 6, 5]
    ensures Ways(r, runs, 5, 0, 0) == 0 && Ways(r, runs, 5, 1, 0) == 1
  {
    SampleSixFiveDeep(r, runs);
    assert Ways(r, runs, 11, 1, 6) == 1;
    assert Ways(r, runs, 10, 1, 5) == 1;
    assert Ways(r, runs, 9, 1, 4) == 1;
    assert Ways(r, runs, 8, 1, 3) == 1;
    assert Ways(r, runs, 7, 1, 2) == 1;
    assert Ways(r, runs, 6, 0, 1) == 0;
    assert Ways(r, runs, 6, 1, 1) == 1;
  }


  /** `Ways` from the start, on top of the states from position 5 on. */
  lemma SampleSixFiveWays(r: string, runs: seq<nat>)
    requires r == "????.######..#####." && runs == [1, 6, 5]
    ensures Ways(r, runs, 0, 0, 0) == 4
  {
    SampleSixFiveTail(r, runs);
    assert Ways(r, runs, 4, 0, 0) == 0;
    assert Ways(r, runs, 4, 0, 1) == 1;
    assert Ways(r, runs, 4, 1, 0) == 1;
    assert Ways(r, runs, 4, 1, 1) == 0;
    assert Ways(r, runs, 4, 1, 2) == 0;
    assert Ways(r, runs, 3, 0, 0) == 1;
    assert Ways(r, runs, 3, 0, 1) == 1;
    assert Ways(r, runs, 3, 1, 0) == 1;
    assert Ways(r, runs, 3, 1, 1) == 0;
    assert Ways(r, runs, 2, 0, 0) == 2;
    assert Ways(r, runs, 2, 0, 1) == 1;
    assert Ways(r, runs, 2, 1, 0) == 1;
    assert Ways(r, runs, 1, 0, 0) == 3;
    assert Ways(r, runs, 1, 0, 1) == 1;
    assert Ways(r, runs, 0, 0, 0) == 4;
  }

  /** The test row "????.######..#####." with runs [1, 6, 5]: 4 arrangements. */
  lemma SampleSixFive(r: string, runs: seq<nat>)
    requires r == "????.######..#####." && runs == [1, 6, 5]
    ensures CountArrangements(r, runs) == 4
  {
    SampleSixFiveWays(r, runs);
  }

  /** The states of `Ways` from position 9 on. */
  lemma SampleThreeTwoOneTail(r: string, runs: seq<nat>)
    requires r == "?###????????" && runs == [3, 2, 1]
    ensures Ways(r, runs, 9, 1, 0) == 0 && Ways(r, runs, 9, 1, 1) == 1 && Ways(r, runs, 9, 1, 2) == 2 && Ways(r, runs, 9, 2, 0) == 3 && Ways(r, runs, 9, 2, 1) == 1
  {
    assert Ways(r, runs, 11, 1, 0) == 0;
    assert Ways(r, runs, 11, 1, 1) == 0;
    assert Ways(r, runs, 11, 1, 2) == 0;
    assert Ways(r, runs, 11, 2, 0) == 1;
    assert Ways(r, runs, 11, 2, 1) == 1;
    assert Ways(r, runs, 11, 3, 0) == 1;
    assert Ways(r, runs, 10, 1, 0) == 0;
    assert Ways(r, runs, 10, 1, 1) == 0;
    assert Ways(r, runs, 10, 1, 2) == 1;
    assert Ways(r, runs, 10, 2, 0) == 2;
    assert Ways(r, runs, 10, 2, 1) == 1;
    assert Ways(r, runs, 10, 3, 0) == 1;
    assert Ways(r, runs, 9, 1, 0) == 0;
    assert Ways(r, runs, 9, 1, 1) == 1;
    assert Ways(r, runs, 9, 1, 2) == 2;
    assert Ways(r, runs, 9, 2, 0) == 3;
    assert Ways(r, runs, 9, 2, 1) == 1;
  }

  /** `Ways` from the start, on top of the states from position 9 on. */
  lemma SampleThreeTwoOneWays(r: string, runs: seq<nat>)
    requires r == "?###????????" && runs == [3, 2, 1]
    ensures Ways(r, runs, 0, 0, 0) == 10
  {
    SampleThreeTwoOneTail(r, runs);
    assert Ways(r, runs, 8, 1, 0) == 1;
    assert Ways(r, runs, 8, 1, 1) == 2;
    assert Ways(r, runs, 8, 1, 2) == 3;
    assert Ways(r, runs, 8, 2, 0) == 4;
    assert Ways(r, runs, 7, 1, 0) == 3;
    assert Ways(r, runs, 7, 1, 1) == 3;
    assert Ways(r, runs, 7, 1, 2) == 4;
    assert Ways(r, runs, 6, 1, 0) == 6;
    assert Ways(r, runs, 6, 1, 1) == 4;
    assert Ways(r, runs, 5, 1, 0) == 10;
    assert Ways(r, runs, 4, 0, 3) == 10;
    assert Ways(r, runs, 3, 0, 2) == 10;
    assert Ways(r, runs, 3, 0, 3) == 0;
    assert Ways(r, runs, 2, 0, 1) == 10;
    assert Ways(r, runs, 2, 0, 2) == 0;
    assert Ways(r, runs, 1, 0, 0) == 10;
    assert Ways(r, runs, 1, 0, 1) == 0;
    assert Ways(r, runs, 0, 0, 0) == 10;
  }

  /** The test row "?###????????" with runs [3, 2, 1]: 10 arrangements. */
  lemma SampleThreeTwoOne(r: string, runs: seq<nat>)
    requires r == "?###????????" && runs == [3, 2, 1]
    ensures CountArrangements(r, runs) == 10
  {
    SampleThreeTwoOneWays(r, runs);
  }
}
