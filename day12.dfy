/** Hot springs: count the arrangements of damaged springs in a condition record.

    A record is a string over '#' (damaged), '.' (operational) and '?' (unknown);
    the runs are the lengths of the contiguous groups of damaged springs, left to
    right. `CountArrangements` is the memoised recursion of the source, written as
    the plain recursive function `Ways` over the search state
    (index, run index, current run length). */
module HotSprings {

  // ---------------------------------------------------------------------------
  // The counter
  // ---------------------------------------------------------------------------

  /** The search states the recursion can reach from (0, 0, 0): the run index
      stays within the runs, and an open run always has a run to belong to and
      never exceeds that run's length. */
  predicate Reachable(runs: seq<nat>, runIdx: nat, curLen: nat)
  {
    runIdx <= |runs| && (curLen > 0 ==> runIdx < |runs| && curLen <= runs[runIdx])
  }

  /** The inner function `f(idx, run_idx, current_run_len)`: the number of ways to
      resolve record[idx..] given the state. Its precondition is the invariant
      that makes every `runs[runIdx]` access in the body safe; each recursive
      call re-establishes it. */
  function Ways(record: string, runs: seq<nat>, idx: nat, runIdx: nat, curLen: nat): (r: nat)
    requires idx <= |record| && Reachable(runs, runIdx, curLen)
    ensures r <= Pow2(UnknownsFrom(record, idx))
    decreases |record| - idx
  {
    if idx == |record| then
      if runIdx == |runs| && curLen == 0 then 1
      else if runIdx == |runs| - 1 && curLen == runs[runIdx] then 1
      else 0
    else
      var c := record[idx];
      var extend :=
        if (c == '#' || c == '?') && runIdx < |runs| && curLen < runs[runIdx]
        then Ways(record, runs, idx + 1, runIdx, curLen + 1)
        else 0;
      var close :=
        if c == '.' || c == '?' then
          if curLen == 0 then Ways(record, runs, idx + 1, runIdx, 0)
          else if curLen == runs[runIdx] then Ways(record, runs, idx + 1, runIdx + 1, 0)
          else 0
        else 0;
      extend + close
  }

  function Pow2(n: nat): (p: nat)
    ensures p >= 1
  {
    if n == 0 then 1 else 2 * Pow2(n - 1)
  }

  /** The number of '?' cells in record[idx..]. */
  function UnknownsFrom(record: string, idx: nat): nat
    requires idx <= |record|
    decreases |record| - idx
  {
    if idx == |record| then 0
    else (if record[idx] == '?' then 1 else 0) + UnknownsFrom(record, idx + 1)
  }

  /** All run lengths are positive, as the puzzle input guarantees. */
  predicate PositiveRuns(runs: seq<nat>)
  {
    forall i :: 0 <= i < |runs| ==> runs[i] > 0
  }

  /** `count_arrangements(record, runs)`: for positive runs, the number of
      distinct resolutions of the record whose damaged runs are exactly `runs`. */
  function CountArrangements(record: string, runs: seq<nat>): (r: nat)
    ensures PositiveRuns(runs) ==> r == |Arrangements(record, runs)|
  {
    CountIsNumberOfArrangements(record, runs);
    Ways(record, runs, 0, 0, 0)
  }

  // ---------------------------------------------------------------------------
  // The specification: resolutions and their run lengths
  // ---------------------------------------------------------------------------

  /** A fully resolved row `w` is one way to resolve `record`: same length, only
      '#' and '.', and it keeps every known cell. */
  predicate Resolves(record: string, w: string)
  {
    |w| == |record| &&
    forall i :: 0 <= i < |w| ==> (w[i] == '#' || w[i] == '.') && (record[i] == '?' || record[i] == w[i])
  }

  /** `c` prefixed to every string of `ws`. */
  function Prefixed(c: char, ws: seq<string>): (r: seq<string>)
    ensures |r| == |ws| && forall i :: 0 <= i < |ws| ==> r[i] == [c] + ws[i]
  {
    seq(|ws|, i requires 0 <= i < |ws| => [c] + ws[i])
  }

  /** Every resolution of `record`, each '?' tried as '#' before '.'. */
  function Resolutions(record: string): seq<string>
  {
    if record == [] then [[]]
    else
      var rest := Resolutions(record[1..]);
      (if record[0] == '#' || record[0] == '?' then Prefixed('#', rest) else []) +
      (if record[0] == '.' || record[0] == '?' then Prefixed('.', rest) else [])
  }

  /** Lengths of the maximal '#' runs of `w`, read left to right, when a run of
      length `open` is already in progress before `w`. */
  function RunsFrom(open: nat, w: string): seq<nat>
    decreases |w|
  {
    if w == [] then (if open > 0 then [open] else [])
    else if w[0] == '#' then RunsFrom(open + 1, w[1..])
    else (if open > 0 then [open] else []) + RunsFrom(0, w[1..])
  }

  /** Lengths of the maximal '#' runs of a resolved row. */
  function RunLengths(w: string): seq<nat>
  {
    RunsFrom(0, w)
  }

  /** The valid arrangements: resolutions whose runs are exactly `runs`. */
  ghost function Arrangements(record: string, runs: seq<nat>): set<string>
  {
    set w | w in Resolutions(record) && RunLengths(w) == runs
  }

  /** How many strings of `ws` continue an open run of length `open` into exactly
      the runs `target`. */
  function CountMatching(ws: seq<string>, open: nat, target: seq<nat>): nat
  {
    if ws == [] then 0
    else (if RunsFrom(open, ws[0]) == target then 1 else 0) + CountMatching(ws[1..], open, target)
  }

  predicate Distinct(ws: seq<string>)
  {
    forall i, j :: 0 <= i < j < |ws| ==> ws[i] != ws[j]
  }

  // ---------------------------------------------------------------------------
  // Resolutions enumerates each resolution exactly once
  // ---------------------------------------------------------------------------

  lemma PrefixedMember(c: char, ws: seq<string>, w: string)
    ensures w in Prefixed(c, ws) <==> |w| > 0 && w[0] == c && w[1..] in ws
  {
    if |w| > 0 && w[0] == c && w[1..] in ws {
      var k :| 0 <= k < |ws| && ws[k] == w[1..];
      assert Prefixed(c, ws)[k] == w;
    }
  }

  /** Resolving cell by cell: the first cell, then the rest. */
  lemma ResolvesStep(record: string, w: string)
    requires record != [] && w != []
    ensures Resolves(record, w) <==>
      (w[0] == '#' || w[0] == '.') && (record[0] == '?' || record[0] == w[0]) && Resolves(record[1..], w[1..])
  {
    if (w[0] == '#' || w[0] == '.') && (record[0] == '?' || record[0] == w[0]) && Resolves(record[1..], w[1..]) {
      forall i | 0 <= i < |w| ensures (w[i] == '#' || w[i] == '.') && (record[i] == '?' || record[i] == w[i]) {
        if i > 0 {
          assert w[i] == w[1..][i - 1] && record[i] == record[1..][i - 1];
        }
      }
    }
  }

  lemma {:induction false} ResolutionsComplete(record: string, w: string)
    ensures w in Resolutions(record) <==> Resolves(record, w)
    decreases |record|
  {
    if record != [] {
      var rest := Resolutions(record[1..]);
      var hashes := if record[0] == '#' || record[0] == '?' then Prefixed('#', rest) else [];
      var dots := if record[0] == '.' || record[0] == '?' then Prefixed('.', rest) else [];
      ResolutionsSplit(record, hashes, dots);
      PrefixedMember('#', rest, w);
      PrefixedMember('.', rest, w);
      if w != [] {
        ResolutionsComplete(record[1..], w[1..]);
        ResolvesStep(record, w);
      }
    }
  }

  /** The resolutions of a non-empty record: its first cell as '#', then as '.'. */
  lemma ResolutionsSplit(record: string, hashes: seq<string>, dots: seq<string>)
    requires record != []
    requires hashes == if record[0] == '#' || record[0] == '?' then Prefixed('#', Resolutions(record[1..])) else []
    requires dots == if record[0] == '.' || record[0] == '?' then Prefixed('.', Resolutions(record[1..])) else []
    ensures Resolutions(record) == hashes + dots
  {
  }

  /** Prefixing one cell keeps a list free of repetition. */
  lemma PrefixedDistinct(c: char, ws: seq<string>)
    requires Distinct(ws)
    ensures Distinct(Prefixed(c, ws))
  {
    var p := Prefixed(c, ws);
    forall i, j | 0 <= i < j < |p| ensures p[i] != p[j] {
      assert p[i][1..] == ws[i] && p[j][1..] == ws[j];
    }
  }

  /** Two lists without repetition, one of strings starting with '#' and one of
      strings starting with '.', join without repetition. */
  lemma JoinDistinct(hashes: seq<string>, dots: seq<string>)
    requires Distinct(hashes) && Distinct(dots)
    requires forall i :: 0 <= i < |hashes| ==> hashes[i] != [] && hashes[i][0] == '#'
    requires forall i :: 0 <= i < |dots| ==> dots[i] != [] && dots[i][0] == '.'
    ensures Distinct(hashes + dots)
  {
    var all := hashes + dots;
    forall i, j | 0 <= i < j < |all| ensures all[i] != all[j] {
      if i < |hashes| && j >= |hashes| {
        assert all[i][0] == '#' && all[j][0] == '.';
      } else if j < |hashes| {
        assert all[i] == hashes[i] && all[j] == hashes[j];
      } else {
        assert all[i] == dots[i - |hashes|] && all[j] == dots[j - |hashes|];
      }
    }
  }

  lemma {:induction false} ResolutionsDistinct(record: string)
    ensures Distinct(Resolutions(record))
    decreases |record|
  {
    if record != [] {
      ResolutionsDistinct(record[1..]);
      var rest := Resolutions(record[1..]);
      PrefixedDistinct('#', rest);
      PrefixedDistinct('.', rest);
      var hashes := if record[0] == '#' || record[0] == '?' then Prefixed('#', rest) else [];
      var dots := if record[0] == '.' || record[0] == '?' then Prefixed('.', rest) else [];
      ResolutionsSplit(record, hashes, dots);
      JoinDistinct(hashes, dots);
    }
  }

  // ---------------------------------------------------------------------------
  // Counting lemmas
  // ---------------------------------------------------------------------------

  lemma {:induction false} CountConcat(a: seq<string>, b: seq<string>, open: nat, target: seq<nat>)
    ensures CountMatching(a + b, open, target) == CountMatching(a, open, target) + CountMatching(b, open, target)
    decreases |a|
  {
    if a == [] {
      assert a + b == b;
    } else {
      assert (a + b)[0] == a[0];
      assert (a + b)[1..] == a[1..] + b;
      CountConcat(a[1..], b, open, target);
    }
  }

  lemma {:induction false} CountPrefixedHash(ws: seq<string>, open: nat, target: seq<nat>)
    ensures CountMatching(Prefixed('#', ws), open, target) == CountMatching(ws, open + 1, target)
    decreases |ws|
  {
    if ws != [] {
      assert Prefixed('#', ws)[1..] == Prefixed('#', ws[1..]);
      assert ([ '#' ] + ws[0])[1..] == ws[0];
      CountPrefixedHash(ws[1..], open, target);
    }
  }

  lemma {:induction false} CountPrefixedDot(ws: seq<string>, open: nat, target: seq<nat>)
    ensures CountMatching(Prefixed('.', ws), open, target) ==
      if open == 0 then CountMatching(ws, 0, target)
      else if target != [] && target[0] == open then CountMatching(ws, 0, target[1..])
      else 0
    decreases |ws|
  {
    if ws != [] {
      assert Prefixed('.', ws)[1..] == Prefixed('.', ws[1..]);
      assert ([ '.' ] + ws[0])[1..] == ws[0];
      CountPrefixedDot(ws[1..], open, target);
      if open > 0 {
        var r := RunsFrom(0, ws[0]);
        assert RunsFrom(open, ['.'] + ws[0]) == [open] + r;
        if target != [] && target[0] == open {
          assert ([open] + r == target) <==> (r == target[1..]);
        } else {
          assert ([open] + r)[0] == open;
        }
      }
    }
  }

  /** An open run of length `open` > 0 produces at least one run, at least that long. */
  lemma {:induction false} OpenRunStaysOpen(open: nat, w: string)
    requires open > 0
    ensures RunsFrom(open, w) != [] && RunsFrom(open, w)[0] >= open
    decreases |w|
  {
    if w != [] && w[0] == '#' {
      OpenRunStaysOpen(open + 1, w[1..]);
    }
  }

  lemma {:induction false} CountOverlong(ws: seq<string>, open: nat, target: seq<nat>)
    requires open > 0 && (target == [] || target[0] < open)
    ensures CountMatching(ws, open, target) == 0
    decreases |ws|
  {
    if ws != [] {
      OpenRunStaysOpen(open, ws[0]);
      CountOverlong(ws[1..], open, target);
    }
  }

  /** One step of `Ways`: the '#' choice `e` plus the '.' choice `d`. */
  lemma WaysStep(record: string, runs: seq<nat>, idx: nat, runIdx: nat, curLen: nat, e: nat, d: nat)
    requires idx < |record| && Reachable(runs, runIdx, curLen)
    requires e == if (record[idx] == '#' || record[idx] == '?') && runIdx < |runs| && curLen < runs[runIdx]
                  then Ways(record, runs, idx + 1, runIdx, curLen + 1) else 0
    requires d == if record[idx] == '.' || record[idx] == '?' then
                    if curLen == 0 then Ways(record, runs, idx + 1, runIdx, 0)
                    else if curLen == runs[runIdx] then Ways(record, runs, idx + 1, runIdx + 1, 0)
                    else 0
                  else 0
    ensures Ways(record, runs, idx, runIdx, curLen) == e + d
  {
  }

  /** The resolutions of a non-empty suffix: its first cell as '#', then as '.'. */
  lemma SuffixResolutions(record: string, idx: nat, hashes: seq<string>, dots: seq<string>)
    requires idx < |record|
    requires hashes == if record[idx] == '#' || record[idx] == '?' then Prefixed('#', Resolutions(record[idx + 1..])) else []
    requires dots == if record[idx] == '.' || record[idx] == '?' then Prefixed('.', Resolutions(record[idx + 1..])) else []
    ensures Resolutions(record[idx..]) == hashes + dots
  {
    var suffix := record[idx..];
    assert suffix[1..] == record[idx + 1..];
  }

  /** The '#' choice at `idx`: the matching resolutions with '#' there are the ones
      `Ways` counts for a run one cell longer. */
  lemma {:induction false} HashChoice(record: string, runs: seq<nat>, idx: nat, runIdx: nat, curLen: nat)
    requires PositiveRuns(runs)
    requires idx < |record| && Reachable(runs, runIdx, curLen)
    ensures CountMatching(if record[idx] == '#' || record[idx] == '?' then Prefixed('#', Resolutions(record[idx + 1..])) else [],
                          curLen, runs[runIdx..]) ==
            if (record[idx] == '#' || record[idx] == '?') && runIdx < |runs| && curLen < runs[runIdx]
            then Ways(record, runs, idx + 1, runIdx, curLen + 1) else 0
    decreases |record| - idx, 0
  {
    var target := runs[runIdx..];
    var rest := Resolutions(record[idx + 1..]);
    if record[idx] == '#' || record[idx] == '?' {
      CountPrefixedHash(rest, curLen, target);
      if runIdx < |runs| && curLen < runs[runIdx] {
        WaysCountsResolutions(record, runs, idx + 1, runIdx, curLen + 1);
      } else {
        assert target == [] || target[0] < curLen + 1;
        CountOverlong(rest, curLen + 1, target);
      }
    }
  }

  /** The '.' choice at `idx`: it closes the open run, which must then be the next
      expected one. */
  lemma {:induction false} DotChoice(record: string, runs: seq<nat>, idx: nat, runIdx: nat, curLen: nat)
    requires PositiveRuns(runs)
    requires idx < |record| && Reachable(runs, runIdx, curLen)
    ensures CountMatching(if record[idx] == '.' || record[idx] == '?' then Prefixed('.', Resolutions(record[idx + 1..])) else [],
                          curLen, runs[runIdx..]) ==
            if record[idx] == '.' || record[idx] == '?' then
              if curLen == 0 then Ways(record, runs, idx + 1, runIdx, 0)
              else if curLen == runs[runIdx] then Ways(record, runs, idx + 1, runIdx + 1, 0)
              else 0
            else 0
    decreases |record| - idx, 0
  {
    var target := runs[runIdx..];
    var rest := Resolutions(record[idx + 1..]);
    if record[idx] == '.' || record[idx] == '?' {
      CountPrefixedDot(rest, curLen, target);
      if curLen == 0 {
        WaysCountsResolutions(record, runs, idx + 1, runIdx, 0);
      } else if curLen == runs[runIdx] {
        assert target[1..] == runs[runIdx + 1..];
        WaysCountsResolutions(record, runs, idx + 1, runIdx + 1, 0);
      }
    }
  }

  /** The central lemma: from every reachable state, `Ways` counts exactly the
      resolutions of the rest of the record that complete the remaining runs. */
  lemma {:induction false} WaysCountsResolutions(record: string, runs: seq<nat>, idx: nat, runIdx: nat, curLen: nat)
    requires PositiveRuns(runs)
    requires idx <= |record| && Reachable(runs, runIdx, curLen)
    ensures Ways(record, runs, idx, runIdx, curLen) ==
      CountMatching(Resolutions(record[idx..]), curLen, runs[runIdx..])
    decreases |record| - idx, 1
  {
    var target := runs[runIdx..];
    if idx == |record| {
      assert record[idx..] == [];
      assert Resolutions(record[idx..]) == [[]];
      if curLen == 0 {
        assert runIdx < |runs| ==> runs[runIdx] > 0;
      }
    } else {
      var rest := Resolutions(record[idx + 1..]);
      var c := record[idx];
      var hashes := if c == '#' || c == '?' then Prefixed('#', rest) else [];
      var dots := if c == '.' || c == '?' then Prefixed('.', rest) else [];
      SuffixResolutions(record, idx, hashes, dots);
      CountConcat(hashes, dots, curLen, target);
      HashChoice(record, runs, idx, runIdx, curLen);
      DotChoice(record, runs, idx, runIdx, curLen);
      WaysStep(record, runs, idx, runIdx, curLen, CountMatching(hashes, curLen, target), CountMatching(dots, curLen, target));
    }
  }

  /** The strings of `ws` counted by `CountMatching`, as a set. */
  ghost function MatchingSet(ws: seq<string>, open: nat, target: seq<nat>): set<string>
  {
    set w | w in ws && RunsFrom(open, w) == target
  }

  /** A list without repetition: its head is not in its tail, which has no
      repetition either. */
  lemma DistinctTail(ws: seq<string>)
    requires Distinct(ws) && ws != []
    ensures ws[0] !in ws[1..] && Distinct(ws[1..])
  {
    var tail := ws[1..];
    forall k | 0 <= k < |tail| ensures tail[k] != ws[0] {
      assert tail[k] == ws[k + 1];
    }
  }

  /** The matching set of a non-empty list: the head if it matches, and the
      matching set of the tail. */
  lemma MatchingSetSplit(ws: seq<string>, open: nat, target: seq<nat>, head: set<string>)
    requires ws != []
    requires head == if RunsFrom(open, ws[0]) == target then {ws[0]} else {}
    ensures MatchingSet(ws, open, target) == head + MatchingSet(ws[1..], open, target)
  {
    assert ws == [ws[0]] + ws[1..];
  }

  /** For strings listed without repetition, the count is the size of the set. */
  lemma {:induction false} CountIsSetSize(ws: seq<string>, open: nat, target: seq<nat>)
    requires Distinct(ws)
    ensures CountMatching(ws, open, target) == |MatchingSet(ws, open, target)|
    decreases |ws|
  {
    if ws == [] {
      assert MatchingSet(ws, open, target) == {};
    } else {
      DistinctTail(ws);
      CountIsSetSize(ws[1..], open, target);
      var t := MatchingSet(ws[1..], open, target);
      var head: set<string> := if RunsFrom(open, ws[0]) == target then {ws[0]} else {};
      MatchingSetSplit(ws, open, target, head);
      assert head !! t;
      assert |head + t| == |head| + |t|;
    }
  }

  lemma CountIsNumberOfArrangements(record: string, runs: seq<nat>)
    ensures PositiveRuns(runs) ==> Ways(record, runs, 0, 0, 0) == |Arrangements(record, runs)|
  {
    if PositiveRuns(runs) {
      WaysCountsResolutions(record, runs, 0, 0, 0);
      assert record[0..] == record && runs[0..] == runs;
      var ws := Resolutions(record);
      ResolutionsDistinct(record);
      CountIsSetSize(ws, 0, runs);
      assert Ways(record, runs, 0, 0, 0) == CountMatching(ws, 0, runs);
      assert Arrangements(record, runs) == MatchingSet(ws, 0, runs);
    }
  }

  /** The arrangements are exactly the resolutions with the required runs. */
  lemma ArrangementsMeaning(record: string, runs: seq<nat>, w: string)
    ensures w in Arrangements(record, runs) <==> Resolves(record, w) && RunLengths(w) == runs
  {
    ResolutionsComplete(record, w);
  }

  // ---------------------------------------------------------------------------
  // Special cases the source's tests and callers rely on
  // ---------------------------------------------------------------------------

  /** A record without '?' has one arrangement if its own runs are `runs`, else none. */
  lemma KnownRecord(record: string, runs: seq<nat>)
    requires PositiveRuns(runs)
    requires forall i :: 0 <= i < |record| ==> record[i] == '#' || record[i] == '.'
    ensures CountArrangements(record, runs) == if RunLengths(record) == runs then 1 else 0
  {
    var a := Arrangements(record, runs);
    forall w | w in a ensures w == record {
      ArrangementsMeaning(record, runs, w);
    }
    if RunLengths(record) == runs {
      ArrangementsMeaning(record, runs, record);
      assert a == {record};
    } else {
      assert a == {};
    }
  }

  /** With no runs, no '#' may be placed: the count is 1 exactly when every cell
      can be operational. */
  lemma {:induction false} NoRunsFrom(record: string, idx: nat)
    requires idx <= |record|
    ensures Ways(record, [], idx, 0, 0) ==
      if forall i :: idx <= i < |record| ==> record[i] == '.' || record[i] == '?' then 1 else 0
    decreases |record| - idx
  {
    if idx < |record| {
      NoRunsFrom(record, idx + 1);
    }
  }

  lemma NoRuns(record: string)
    ensures CountArrangements(record, []) ==
      if forall i :: 0 <= i < |record| ==> record[i] == '.' || record[i] == '?' then 1 else 0
  {
    NoRunsFrom(record, 0);
  }

  // ---------------------------------------------------------------------------
  // Unfolding for the second part
  // ---------------------------------------------------------------------------

  /** `"?".join(n * [record])`. */
  function JoinCopies(record: string, n: nat): (r: string)
    ensures n >= 1 ==> |r| == n * |record| + n - 1
  {
    if n == 0 then ""
    else if n == 1 then record
    else JoinCopies(record, n - 1) + "?" + record
  }

  /** `n * runs`. */
  function RepeatRuns(runs: seq<nat>, n: nat): (r: seq<nat>)
    ensures |r| == n * |runs|
  {
    if n == 0 then [] else RepeatRuns(runs, n - 1) + runs
  }

  /** One copy is the original record, so unfolding once changes no count. */
  lemma UnfoldOnce(record: string, runs: seq<nat>)
    ensures JoinCopies(record, 1) == record && RepeatRuns(runs, 1) == runs
    ensures CountArrangements(JoinCopies(record, 1), RepeatRuns(runs, 1)) == CountArrangements(record, runs)
  {
    assert RepeatRuns(runs, 1) == [] + runs;
  }

  // ---------------------------------------------------------------------------
  // Totals over the puzzle input
  // ---------------------------------------------------------------------------

  datatype Row = Row(record: string, runs: seq<nat>)

  function TotalCount(rows: seq<Row>, copies: nat): nat
  {
    if rows == [] then 0
    else
      var last := rows[|rows| - 1];
      TotalCount(rows[..|rows| - 1], copies) + CountArrangements(JoinCopies(last.record, copies), RepeatRuns(last.runs, copies))
  }

  /** `part1` (copies = 1) and `part2` (copies = 5): the sum of the counts. */
  method Total(rows: seq<Row>, copies: nat) returns (total: nat)
    ensures total == TotalCount(rows, copies)
  {
    total := 0;
    for i := 0 to |rows|
      invariant total == TotalCount(rows[..i], copies)
    {
      assert rows[..i + 1][..i] == rows[..i];
      total := total + CountArrangements(JoinCopies(rows[i].record, copies), RepeatRuns(rows[i].runs, copies));
    }
    assert rows[..|rows|] == rows;
  }

  // ---------------------------------------------------------------------------
  // The memo table, filled bottom-up
  // ---------------------------------------------------------------------------

  function MaxRun(runs: seq<nat>): (m: nat)
    ensures forall i :: 0 <= i < |runs| ==> runs[i] <= m
  {
    if runs == [] then 0
    else var t := MaxRun(runs[1..]); if runs[0] > t then runs[0] else t
  }

  /** `table` holds, at [runIdx][curLen], the value of `Ways` at position `idx`
      for every reachable state whose run length fits the table. */
  ghost predicate TableAt(record: string, runs: seq<nat>, idx: nat, width: nat, table: seq<seq<nat>>)
    requires idx <= |record|
  {
    |table| == |runs| + 1 &&
    (forall ri :: 0 <= ri <= |runs| ==> |table[ri]| == width) &&
    forall ri, cur :: 0 <= ri <= |runs| && 0 <= cur < width && Reachable(runs, ri, cur) ==>
      table[ri][cur] == Ways(record, runs, idx, ri, cur)
  }

  /** Row `ri` of the table at the end of the record: the termination cases of `f`. */
  method BaseRow(record: string, runs: seq<nat>, width: nat, ri: nat) returns (line: seq<nat>)
    requires ri <= |runs|
    ensures |line| == width
    ensures forall k :: 0 <= k < width && Reachable(runs, ri, k) ==> line[k] == Ways(record, runs, |record|, ri, k)
  {
    line := [];
    for cur := 0 to width
      invariant |line| == cur
      invariant forall k :: 0 <= k < cur && Reachable(runs, ri, k) ==> line[k] == Ways(record, runs, |record|, ri, k)
    {
      var v := 0;
      if ri == |runs| && cur == 0 {
        v := 1;
      } else if ri == |runs| - 1 && cur == runs[ri] {
        v := 1;
      }
      line := line + [v];
    }
  }

  /** One cell of the table at position `idx`, from the row of position `idx + 1`:
      the '#' choice plus the '.' choice, as in the body of `f`. */
  method TableCell(record: string, runs: seq<nat>, idx: nat, width: nat, next: seq<seq<nat>>, ri: nat, cur: nat)
    returns (v: nat)
    requires idx < |record| && width == MaxRun(runs) + 1
    requires TableAt(record, runs, idx + 1, width, next)
    requires ri <= |runs| && cur < width
    ensures Reachable(runs, ri, cur) ==> v == Ways(record, runs, idx, ri, cur)
  {
    v := 0;
    if Reachable(runs, ri, cur) {
      var c := record[idx];
      var extend := 0;
      var close := 0;
      if (c == '#' || c == '?') && ri < |runs| && cur < runs[ri] {
        assert Reachable(runs, ri, cur + 1);
        extend := next[ri][cur + 1];
      }
      if c == '.' || c == '?' {
        if cur == 0 {
          close := next[ri][0];
        } else if cur == runs[ri] {
          assert Reachable(runs, ri + 1, 0);
          close := next[ri + 1][0];
        }
      }
      WaysStep(record, runs, idx, ri, cur, extend, close);
      v := extend + close;
    }
  }

  /** Row `ri` of the table at position `idx`. */
  method TableRow(record: string, runs: seq<nat>, idx: nat, width: nat, next: seq<seq<nat>>, ri: nat)
    returns (line: seq<nat>)
    requires idx < |record| && width == MaxRun(runs) + 1
    requires TableAt(record, runs, idx + 1, width, next)
    requires ri <= |runs|
    ensures |line| == width
    ensures forall k :: 0 <= k < width && Reachable(runs, ri, k) ==> line[k] == Ways(record, runs, idx, ri, k)
  {
    line := [];
    for cur := 0 to width
      invariant |line| == cur
      invariant forall k :: 0 <= k < cur && Reachable(runs, ri, k) ==> line[k] == Ways(record, runs, idx, ri, k)
    {
      var v := TableCell(record, runs, idx, width, next, ri, cur);
      line := line + [v];
    }
  }

  /** The whole table at position `idx`, from the table at `idx + 1`. */
  method TableStep(record: string, runs: seq<nat>, idx: nat, width: nat, next: seq<seq<nat>>)
    returns (table: seq<seq<nat>>)
    requires idx < |record| && width == MaxRun(runs) + 1
    requires TableAt(record, runs, idx + 1, width, next)
    ensures TableAt(record, runs, idx, width, table)
  {
    table := [];
    for ri := 0 to |runs| + 1
      invariant |table| == ri
      invariant forall r :: 0 <= r < ri ==> |table[r]| == width
      invariant forall r, cur :: 0 <= r < ri && 0 <= cur < width && Reachable(runs, r, cur) ==>
        table[r][cur] == Ways(record, runs, idx, r, cur)
    {
      var line := TableRow(record, runs, idx, width, next, ri);
      table := table + [line];
    }
  }

  /** The memoised recursion as an explicit table over the states
      (run index, current run length), one row per position, filled from the end
      of the record towards its start: the same count as the recursion. */
  method CountArrangementsTable(record: string, runs: seq<nat>) returns (count: nat)
    ensures count == CountArrangements(record, runs)
  {
    var width := MaxRun(runs) + 1;
    var table: seq<seq<nat>> := [];
    for ri := 0 to |runs| + 1
      invariant |table| == ri
      invariant forall r :: 0 <= r < ri ==> |table[r]| == width
      invariant forall r, cur :: 0 <= r < ri && 0 <= cur < width && Reachable(runs, r, cur) ==>
        table[r][cur] == Ways(record, runs, |record|, r, cur)
    {
      var line := BaseRow(record, runs, width, ri);
      table := table + [line];
    }
    var idx: nat := |record|;
    while idx > 0
      invariant idx <= |record|
      invariant TableAt(record, runs, idx, width, table)
    {
      idx := idx - 1;
      table := TableStep(record, runs, idx, width, table);
    }
    assert Reachable(runs, 0, 0);
    count := table[0][0];
  }

}
