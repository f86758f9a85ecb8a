/** Point of incidence: patterns of ash `.` and rocks `#` hide a mirror between two
    neighbouring rows or two neighbouring columns. A pattern is scored by where its
    mirror lies, and each pattern carries one "smudge", a single cell whose flip
    makes a different mirror axis appear. */
module PointOfIncidence {
  import opened Wrappers

  // ---------------------------------------------------------------------------
  // Grid: rows and their transpose
  // ---------------------------------------------------------------------------

  /** A pattern, kept row by row. */
  datatype Grid = Grid(rows: seq<string>)

  /** Every row has width `w`. */
  predicate Rectangular(rows: seq<string>, w: nat)
  {
    forall j :: 0 <= j < |rows| ==> |rows[j]| == w
  }

  /** What the constructor asserts: there is a first row, and every row is as wide. */
  predicate ValidGrid(g: Grid)
  {
    |g.rows| > 0 && Rectangular(g.rows, |g.rows[0]|)
  }

  /** The width, taken from the first row. */
  function NumColumns(g: Grid): nat
    requires |g.rows| > 0
  {
    |g.rows[0]|
  }

  /** Building a grid from its lines: without a first line, reading the width is an
      index error; a line of another width fails the constructor's assertion. */
  function NewGrid(rows: seq<string>): (r: Result<Grid>)
    ensures r.Ok? <==> |rows| > 0 && Rectangular(rows, |rows[0]|)
    ensures r.Ok? ==> r.value.rows == rows && ValidGrid(r.value)
    ensures rows == [] ==> r == Err(IndexError)
    ensures rows != [] && r.Err? ==> r == Err(AssertionError)
  {
    if rows == [] then Err(IndexError)
    else if !Rectangular(rows, |rows[0]|) then Err(AssertionError)
    else Ok(Grid(rows))
  }

  /** Column `i` of the result is column `i` of `rows`, read top to bottom. */
  function Transpose(rows: seq<string>, w: nat): (t: seq<string>)
    requires Rectangular(rows, w)
    ensures |t| == w && Rectangular(t, |rows|)
    ensures forall i, j :: 0 <= i < w && 0 <= j < |rows| ==> t[i][j] == rows[j][i]
  {
    seq(w, i requires 0 <= i < w => seq(|rows|, j requires 0 <= j < |rows| => rows[j][i]))
  }

  /** Transposing twice gives the rows back. */
  lemma TransposeTwice(rows: seq<string>, w: nat)
    requires Rectangular(rows, w)
    ensures Transpose(Transpose(rows, w), |rows|) == rows
  {
    var t := Transpose(Transpose(rows, w), |rows|);
    forall j | 0 <= j < |rows|
      ensures t[j] == rows[j]
    {
      assert |t[j]| == w == |rows[j]|;
    }
  }

  /** The columns, built one character at a time. */
  method Columns(g: Grid) returns (cols: seq<string>)
    requires ValidGrid(g)
    ensures cols == Transpose(g.rows, NumColumns(g))
  {
    ghost var t := Transpose(g.rows, NumColumns(g));
    cols := [];
    for i := 0 to NumColumns(g)
      invariant |cols| == i
      invariant forall a :: 0 <= a < i ==> cols[a] == t[a]
    {
      var col := "";
      for j := 0 to |g.rows|
        invariant |col| == j
        invariant forall b :: 0 <= b < j ==> col[b] == g.rows[b][i]
      {
        col := col + [g.rows[j][i]];
      }
      assert col == t[i];
      cols := cols + [col];
    }
  }

  // ---------------------------------------------------------------------------
  // find_reflection
  // ---------------------------------------------------------------------------

  /** A mirror lies between entries `i` and `i + 1`: every pair at the same distance
      from it, as far as both sides reach, is equal. */
  predicate IsMirror<T(==)>(x: seq<T>, i: nat)
  {
    i + 1 < |x| && forall k :: 0 <= k <= i && i + 1 + k < |x| ==> PairMatches(x, i, k)
  }

  /** The entries `k` places above and below the axis below entry `i` are equal. */
  predicate PairMatches<T(==)>(x: seq<T>, i: nat, k: nat)
    requires k <= i && i + 1 + k < |x|
  {
    x[i - k] == x[i + 1 + k]
  }

  /** The first mirror at or after `from`. */
  function MirrorFrom<T(==)>(x: seq<T>, from: nat): (r: Option<nat>)
    ensures r.Some? ==> from <= r.value && IsMirror(x, r.value)
    ensures r.Some? ==> forall j :: from <= j < r.value ==> !IsMirror(x, j)
    ensures r.None? ==> forall j :: from <= j ==> !IsMirror(x, j)
    decreases |x| - from
  {
    if from + 1 >= |x| then None
    else if IsMirror(x, from) then Some(from)
    else MirrorFrom(x, from + 1)
  }

  /** The result of `find_reflection`: fewer than two entries fail its assertion;
      otherwise the first mirror, or none. */
  function Reflection<T(==)>(x: seq<T>): (r: Result<Option<nat>>)
    ensures r.Err? <==> |x| <= 1
    ensures r.Err? ==> r.error == AssertionError
    ensures r.Ok? && r.value.Some? ==>
              IsMirror(x, r.value.value) && forall j :: 0 <= j < r.value.value ==> !IsMirror(x, j)
    ensures r.Ok? && r.value.None? ==> forall j :: !IsMirror(x, j)
  {
    if |x| <= 1 then Err(AssertionError) else Ok(MirrorFrom(x, 0))
  }

  /** Tries each neighbouring equal pair and walks outward from it until a pair
      differs or one side runs out. */
  method FindReflection<T(==)>(x: seq<T>) returns (r: Result<Option<nat>>)
    ensures r == Reflection(x)
  {
    if |x| <= 1 {
      return Err(AssertionError);
    }
    for i := 0 to |x| - 1
      invariant forall j :: 0 <= j < i ==> !IsMirror(x, j)
    {
      if x[i] == x[i + 1] {
        var leftIdx: int := i - 1;
        var rightIdx := i + 2;
        var broke := false;
        while leftIdx >= 0 && rightIdx < |x|
          invariant -1 <= leftIdx < i && rightIdx == 2 * i + 1 - leftIdx
          invariant forall k :: 0 <= k < i - leftIdx && i + 1 + k < |x| ==> PairMatches(x, i, k)
          invariant !broke
          decreases leftIdx + 1
        {
          if x[leftIdx] != x[rightIdx] {
            broke := true;
            break;
          }
          leftIdx := leftIdx - 1;
          rightIdx := rightIdx + 1;
        }
        if !broke {
          assert IsMirror(x, i);
          return Ok(Some(i));
        }
        assert !PairMatches(x, i, i - leftIdx);
      } else {
        assert !PairMatches(x, i, 0);
      }
    }
    return Ok(None);
  }

  /** Reversal, for turning a pattern upside down. */
  function Reverse<T>(x: seq<T>): (r: seq<T>)
    ensures |r| == |x| && forall k :: 0 <= k < |x| ==> r[k] == x[|x| - 1 - k]
  {
    seq(|x|, k requires 0 <= k < |x| => x[|x| - 1 - k])
  }

  /** Turning the pattern upside down moves the mirror below entry `i` to below
      entry `|x| - 2 - i`. */
  lemma MirrorReversed<T>(x: seq<T>, i: nat)
    requires i + 1 < |x|
    ensures IsMirror(x, i) <==> IsMirror(Reverse(x), |x| - 2 - i)
  {
    var r := Reverse(x);
    var i' := |x| - 2 - i;
    if IsMirror(x, i) {
      forall k | 0 <= k <= i' && i' + 1 + k < |x|
        ensures PairMatches(r, i', k)
      {
        assert PairMatches(x, i, k);
        assert r[i' - k] == x[i + 1 + k] && r[i' + 1 + k] == x[i - k];
      }
    }
    if IsMirror(r, i') {
      forall k | 0 <= k <= i && i + 1 + k < |x|
        ensures PairMatches(x, i, k)
      {
        assert PairMatches(r, i', k);
        assert r[i' - k] == x[i + 1 + k] && r[i' + 1 + k] == x[i - k];
      }
    }
  }

  /** The two sides agree as far as the shorter reaches. */
  predicate AgreeOnShorter<T(==)>(a: seq<T>, b: seq<T>)
  {
    if |a| <= |b| then a == b[..|a|] else a[..|b|] == b
  }

  /** A second reading of a mirror: the entries above it, read upward from the axis,
      and the entries below it, read downward, agree as far as both go. */
  lemma MirrorAsSides<T>(x: seq<T>, i: nat)
    requires i + 1 < |x|
    ensures IsMirror(x, i) <==> AgreeOnShorter(Reverse(x[..i + 1]), x[i + 1..])
  {
    var up := Reverse(x[..i + 1]);
    var down := x[i + 1..];
    var n := if |up| <= |down| then |up| else |down|;
    assert forall k :: 0 <= k < n ==> up[k] == x[i - k] && down[k] == x[i + 1 + k];
    if IsMirror(x, i) {
      forall k | 0 <= k < n
        ensures up[k] == down[k]
      {
        assert PairMatches(x, i, k);
      }
      if |up| <= |down| {
        assert up == down[..|up|];
      } else {
        assert up[..|down|] == down;
      }
    }
    if AgreeOnShorter(up, down) {
      forall k | 0 <= k <= i && i + 1 + k < |x|
        ensures PairMatches(x, i, k)
      {
        if |up| <= |down| {
          assert up[k] == down[..|up|][k];
        } else {
          assert up[..|down|][k] == down[k];
        }
      }
    }
  }

  // ---------------------------------------------------------------------------
  // find_smudge
  // ---------------------------------------------------------------------------

  /** The number of positions where two rows differ, over the shorter length, the
      way `zip` pairs them. */
  function Diffs(a: string, b: string): (n: nat)
    ensures n <= |a| && n <= |b|
  {
    if a == [] || b == [] then 0 else (if a[0] != b[0] then 1 else 0) + Diffs(a[1..], b[1..])
  }

  /** The first position where two rows differ (`mismatch.index(True)`). */
  function FirstDiff(a: string, b: string): (c: nat)
    requires Diffs(a, b) > 0
    ensures c < |a| && c < |b| && a[c] != b[c]
    ensures forall k :: 0 <= k < c ==> a[k] == b[k]
  {
    if a[0] != b[0] then 0 else 1 + FirstDiff(a[1..], b[1..])
  }

  /** Rows of one width without a difference are equal. */
  lemma {:induction false} DiffsZero(a: string, b: string)
    requires |a| == |b| && Diffs(a, b) == 0
    ensures a == b
  {
    if a != [] {
      DiffsZero(a[1..], b[1..]);
      assert a == [a[0]] + a[1..] && b == [b[0]] + b[1..];
    }
  }

  /** Rows of one width with a single difference become equal once that position
      is copied over. */
  lemma {:induction false} DiffsOne(a: string, b: string)
    requires |a| == |b| && Diffs(a, b) == 1
    ensures a[FirstDiff(a, b) := b[FirstDiff(a, b)]] == b
  {
    if a[0] != b[0] {
      DiffsZero(a[1..], b[1..]);
      assert a[0 := b[0]] == [b[0]] + a[1..];
      assert b == [b[0]] + b[1..];
    } else {
      DiffsOne(a[1..], b[1..]);
      var c := FirstDiff(a, b);
      assert a[c := b[c]] == [a[0]] + a[1..][c - 1 := b[1..][c - 1]];
      assert b == [b[0]] + b[1..];
    }
  }

  /** Conversely, rows of one width that differ at `c` alone have one difference,
      first found at `c`. */
  lemma {:induction false} DiffsOnlyAt(a: string, b: string, c: nat)
    requires |a| == |b| && c < |a| && a[c] != b[c]
    requires forall j :: 0 <= j < |a| && j != c ==> a[j] == b[j]
    ensures Diffs(a, b) == 1 && FirstDiff(a, b) == c
  {
    if c == 0 {
      DiffsSame(a[1..], b[1..]);
    } else {
      DiffsOnlyAt(a[1..], b[1..], c - 1);
    }
  }

  /** Equal rows have no difference. */
  lemma {:induction false} DiffsSame(a: string, b: string)
    requires a == b
    ensures Diffs(a, b) == 0
  {
    if a != [] {
      DiffsSame(a[1..], b[1..]);
    }
  }

  /** Rows that differ at two positions have at least two differences. */
  lemma {:induction false} DiffsTwo(a: string, b: string, i: nat, j: nat)
    requires i < j < |a| && j < |b| && a[i] != b[i] && a[j] != b[j]
    ensures Diffs(a, b) >= 2
  {
    if i > 0 {
      DiffsTwo(a[1..], b[1..], i - 1, j - 1);
    } else {
      DiffsAtLeastOne(a[1..], b[1..], j - 1);
    }
  }

  /** Rows that differ somewhere have a difference. */
  lemma {:induction false} DiffsAtLeastOne(a: string, b: string, j: nat)
    requires j < |a| && j < |b| && a[j] != b[j]
    ensures Diffs(a, b) >= 1
  {
    if j > 0 {
      DiffsAtLeastOne(a[1..], b[1..], j - 1);
    }
  }

  /** How many mirrored pairs the axis below entry `axis` has: as many as fit on
      the shorter side. */
  function NumPairs(n: nat, axis: nat): nat
    requires axis + 1 < n
  {
    if axis + 1 <= n - axis - 1 then axis + 1 else n - axis - 1
  }

  /** The differences between the two rows `k` places above and below the axis. */
  function PairDiff(x: seq<string>, axis: nat, k: nat): nat
    requires k <= axis && axis + 1 + k < |x|
  {
    Diffs(x[axis - k], x[axis + 1 + k])
  }

  /** The differences summed over the first `k` mirrored pairs. */
  function PairDiffs(x: seq<string>, axis: nat, k: nat): nat
    requires axis + 1 < |x| && k <= NumPairs(|x|, axis)
  {
    if k == 0 then 0 else PairDiffs(x, axis, k - 1) + PairDiff(x, axis, k - 1)
  }

  /** The differences over all the mirrored pairs of an axis. */
  function AxisDiffs(x: seq<string>, axis: nat): nat
    requires axis + 1 < |x|
  {
    PairDiffs(x, axis, NumPairs(|x|, axis))
  }

  /** A sum over more pairs is no smaller, and holds each of its two summed pairs. */
  lemma {:induction false} PairDiffsHolds(x: seq<string>, axis: nat, n: nat, i: nat, j: nat)
    requires axis + 1 < |x| && n <= NumPairs(|x|, axis) && i < j < n
    ensures PairDiffs(x, axis, n) >= PairDiff(x, axis, i) + PairDiff(x, axis, j)
    ensures PairDiffs(x, axis, n) >= PairDiffs(x, axis, j)
  {
    if j < n - 1 {
      PairDiffsHolds(x, axis, n - 1, i, j);
    } else {
      PairDiffsCovers(x, axis, j, i);
    }
  }

  /** A sum holds each of its pairs. */
  lemma {:induction false} PairDiffsCovers(x: seq<string>, axis: nat, n: nat, i: nat)
    requires axis + 1 < |x| && n <= NumPairs(|x|, axis) && i < n
    ensures PairDiffs(x, axis, n) >= PairDiff(x, axis, i)
  {
    if i < n - 1 {
      PairDiffsCovers(x, axis, n - 1, i);
    }
  }

  /** A sum over more pairs is no smaller. */
  lemma {:induction false} PairDiffsGrow(x: seq<string>, axis: nat, k: nat, n: nat)
    requires axis + 1 < |x| && k <= n <= NumPairs(|x|, axis)
    ensures PairDiffs(x, axis, k) <= PairDiffs(x, axis, n)
    decreases n - k
  {
    if k < n {
      PairDiffsGrow(x, axis, k, n - 1);
    }
  }

  /** Row `l` above the axis and its mirror are the first pair from pair `k` on
      that differ at all, and `c` is the first column where they do. */
  predicate FirstDiffering(x: seq<string>, axis: nat, k: nat, l: nat, c: nat)
    requires axis + 1 < |x|
  {
    && l <= axis && k <= axis - l < NumPairs(|x|, axis)
    && PairDiff(x, axis, axis - l) > 0
    && c == FirstDiff(x[l], x[2 * axis + 1 - l])
    && forall i :: k <= i < axis - l ==> PairDiff(x, axis, i) == 0
  }

  /** The smudge of an axis: the row above the axis of the first mirrored pair, from
      pair `k` on, that differs at all, with the position of its first difference. */
  function SmudgeCell(x: seq<string>, axis: nat, k: nat): (r: Option<(nat, nat)>)
    requires axis + 1 < |x| && k <= NumPairs(|x|, axis)
    ensures r.Some? ==> FirstDiffering(x, axis, k, r.value.0, r.value.1)
    ensures r.None? ==> AxisDiffs(x, axis) == PairDiffs(x, axis, k)
    decreases NumPairs(|x|, axis) - k
  {
    if k == NumPairs(|x|, axis) then None
    else if PairDiff(x, axis, k) > 0 then Some((axis - k, FirstDiff(x[axis - k], x[axis + 1 + k])))
    else
      var r := SmudgeCell(x, axis, k + 1);
      assert r.None? ==> AxisDiffs(x, axis) == PairDiffs(x, axis, k + 1);
      r
  }

  /** Pairs without differences can be skipped when looking for the smudge. */
  lemma {:induction false} SmudgeCellSkip(x: seq<string>, axis: nat, k: nat)
    requires axis + 1 < |x| && k <= NumPairs(|x|, axis) && PairDiffs(x, axis, k) == 0
    ensures SmudgeCell(x, axis, 0) == SmudgeCell(x, axis, k)
  {
    if k > 0 {
      SmudgeCellSkip(x, axis, k - 1);
    }
  }

  /** The first axis, at or after `from`, whose mirrored pairs differ in exactly
      one position in total. */
  function SmudgeAxisFrom(x: seq<string>, from: nat): (r: Option<nat>)
    ensures r.Some? ==> from <= r.value && r.value + 1 < |x| && AxisDiffs(x, r.value) == 1
    ensures r.Some? ==> forall a :: from <= a < r.value ==> AxisDiffs(x, a) != 1
    ensures r.None? ==> forall a :: from <= a && a + 1 < |x| ==> AxisDiffs(x, a) != 1
    decreases |x| - from
  {
    if from + 1 >= |x| then None
    else if AxisDiffs(x, from) == 1 then Some(from)
    else SmudgeAxisFrom(x, from + 1)
  }

  /** What `find_smudge` is meant to return: the row above the axis and the position
      of the single difference, for the first axis with exactly one, else nothing. */
  function Smudge(x: seq<string>): (r: Option<(nat, nat)>)
    ensures r.None? <==> forall a: nat :: a + 1 < |x| ==> AxisDiffs(x, a) != 1
    ensures r.Some? ==> r.value.0 + 1 < |x| && r.value.1 < |x[r.value.0]|
  {
    match SmudgeAxisFrom(x, 0)
    case None => None
    case Some(axis) => SmudgeCell(x, axis, 0)
  }

  /** Copying over the smudge makes its axis a mirror: the one differing pair is then
      equal, and every other pair already was. Before the copy the axis is not one. */
  lemma SmudgeRepairs(x: seq<string>, w: nat, axis: nat)
    requires Rectangular(x, w) && axis + 1 < |x| && AxisDiffs(x, axis) == 1
    requires SmudgeCell(x, axis, 0).Some?
    ensures var (l, c) := SmudgeCell(x, axis, 0).value;
            var m := 2 * axis + 1 - l;
            && l <= axis < m < |x| && c < w && x[l][c] != x[m][c]
            && !IsMirror(x, axis)
            && IsMirror(x[l := x[l][c := x[m][c]]], axis)
  {
    var (l, c) := SmudgeCell(x, axis, 0).value;
    var m := 2 * axis + 1 - l;
    var p := axis - l;
    var n := NumPairs(|x|, axis);
    var y := x[l := x[l][c := x[m][c]]];
    assert !PairMatches(x, axis, p);
    forall i | 0 <= i < n && i != p
      ensures PairDiff(x, axis, i) == 0
    {
      if i < p {
        PairDiffsHolds(x, axis, n, i, p);
      } else {
        PairDiffsHolds(x, axis, n, p, i);
      }
    }
    PairDiffsCovers(x, axis, n, p);
    DiffsOne(x[l], x[m]);
    forall k | 0 <= k <= axis && axis + 1 + k < |y|
      ensures PairMatches(y, axis, k)
    {
      if k != p {
        assert k < n && PairDiff(x, axis, k) == 0;
        DiffsZero(x[axis - k], x[axis + 1 + k]);
      }
    }
  }

  /** One more pair in the scan of an axis: its differences add to the count; when
      the count goes from none to one, this pair holds the axis's smudge; a count
      beyond one rules the axis out. */
  lemma ScanStep(x: seq<string>, axis: nat, k: nat, count: nat)
    requires axis + 1 < |x| && k < NumPairs(|x|, axis) && count == PairDiffs(x, axis, k)
    ensures PairDiffs(x, axis, k + 1) == count + PairDiff(x, axis, k)
    ensures count == 0 && PairDiff(x, axis, k) > 0 ==>
              SmudgeCell(x, axis, 0) == Some((axis - k, FirstDiff(x[axis - k], x[axis + 1 + k])))
    ensures count + PairDiff(x, axis, k) > 1 ==> AxisDiffs(x, axis) > 1
  {
    if count == 0 {
      SmudgeCellSkip(x, axis, k);
    }
    PairDiffsGrow(x, axis, k + 1, NumPairs(|x|, axis));
  }

  /** `ScanStep` in the terms of the scan: the pair at rows `l` and `r`. */
  lemma ScanPair(x: seq<string>, axis: nat, k: nat, count: nat, l: int, r: int)
    requires axis + 1 < |x| && k < NumPairs(|x|, axis) && count == PairDiffs(x, axis, k)
    requires l == axis - k && r == axis + 1 + k
    ensures 0 <= l < r < |x|
    ensures PairDiffs(x, axis, k + 1) == count + Diffs(x[l], x[r])
    ensures count == 0 && Diffs(x[l], x[r]) > 0 ==> SmudgeCell(x, axis, 0) == Some((l, FirstDiff(x[l], x[r])))
    ensures count + Diffs(x[l], x[r]) > 1 ==> AxisDiffs(x, axis) > 1
  {
    ScanStep(x, axis, k, count);
  }

  /** `find_smudge` with the mismatch position recorded only when the current pair
      holds the difference: scans each axis outward, and returns the smudge of the
      first axis with exactly one difference. */
  method FindSmudge(x: seq<string>) returns (r: Option<(nat, nat)>)
    ensures r == Smudge(x)
  {
    r := None;
    var axis := 0;
    while axis + 1 < |x|
      invariant SmudgeAxisFrom(x, 0) == SmudgeAxisFrom(x, axis)
      decreases |x| - axis
    {
      var mismatchCount, mismatchIndex := ScanAxis(x, axis);
      if mismatchCount == 1 {
        return mismatchIndex;
      }
      axis := axis + 1;
    }
  }

  /** One axis of `find_smudge`: walks the mirrored pairs outward, counting
      differences, and stops once more than one is counted. */
  method ScanAxis(x: seq<string>, axis: nat) returns (mismatchCount: nat, mismatchIndex: Option<(nat, nat)>)
    requires axis + 1 < |x|
    ensures mismatchCount == 1 <==> AxisDiffs(x, axis) == 1
    ensures mismatchCount == 1 ==> mismatchIndex == SmudgeCell(x, axis, 0)
  {
    mismatchCount := 0;
    mismatchIndex := None;
    var leftIdx: int := axis;
    var rightIdx := axis + 1;
    ghost var k: nat := 0;
    ghost var n := NumPairs(|x|, axis);
    ghost var cell := SmudgeCell(x, axis, 0);
    while leftIdx >= 0 && rightIdx < |x|
      invariant k <= n && leftIdx == axis - k && rightIdx == axis + 1 + k
      invariant k < n <==> leftIdx >= 0 && rightIdx < |x|
      invariant mismatchCount == PairDiffs(x, axis, k) <= 1
      invariant mismatchCount == 0 ==> mismatchIndex == None
      invariant mismatchCount == 1 ==> mismatchIndex == cell
      decreases n - k
    {
      var mismatch := Diffs(x[leftIdx], x[rightIdx]);
      ScanPair(x, axis, k, mismatchCount, leftIdx, rightIdx);
      mismatchCount := mismatchCount + mismatch;
      if mismatchCount == 1 {
        if mismatch == 1 {
          mismatchIndex := Some((leftIdx, FirstDiff(x[leftIdx], x[rightIdx])));
        }
      } else if mismatchCount > 1 {
        mismatchIndex := None;
        return;
      }
      leftIdx := leftIdx - 1;
      rightIdx := rightIdx + 1;
      k := k + 1;
    }
  }

  // ---------------------------------------------------------------------------
  // find_smudge as written
  // ---------------------------------------------------------------------------

  /** The pair scan of one axis as the source writes it: once the count has reached
      one, every later pair re-reads `mismatch.index(True)`, which raises a value
      error for a pair without a difference. */
  function ScanAsWritten(x: seq<string>, axis: nat, k: nat, count: nat, index: Option<(nat, nat)>)
    : Result<(nat, Option<(nat, nat)>)>
    requires axis + 1 < |x| && k <= NumPairs(|x|, axis)
    decreases NumPairs(|x|, axis) - k
  {
    if k == NumPairs(|x|, axis) then Ok((count, index))
    else
      var m := PairDiff(x, axis, k);
      if count + m == 1 then
        if m == 0 then Err(ValueError)
        else ScanAsWritten(x, axis, k + 1, 1, Some((axis - k, FirstDiff(x[axis - k], x[axis + 1 + k]))))
      else if count + m > 1 then Ok((count + m, None))
      else ScanAsWritten(x, axis, k + 1, count + m, index)
  }

  /** `find_smudge` as written, from axis `from` on. */
  function SmudgeAsWrittenFrom(x: seq<string>, from: nat): Result<Option<(nat, nat)>>
    decreases |x| - from
  {
    if from + 1 >= |x| then Ok(None)
    else match ScanAsWritten(x, from, 0, 0, None)
      case Err(e) => Err(e)
      case Ok((count, index)) => if count == 1 then Ok(index) else SmudgeAsWrittenFrom(x, from + 1)
  }

  /** Where the scan as written does not fail, it counts and locates like the
      intended scan. */
  lemma {:induction false} ScanAsWrittenAgrees(x: seq<string>, axis: nat, k: nat, count: nat, index: Option<(nat, nat)>)
    requires axis + 1 < |x| && k <= NumPairs(|x|, axis)
    requires count == PairDiffs(x, axis, k) <= 1
    requires count == 0 ==> index == None
    requires count == 1 ==> index == SmudgeCell(x, axis, 0)
    requires ScanAsWritten(x, axis, k, count, index).Ok?
    ensures var (c, i) := ScanAsWritten(x, axis, k, count, index).value;
            (c == 1 <==> AxisDiffs(x, axis) == 1) && (c == 1 ==> i == SmudgeCell(x, axis, 0))
    decreases NumPairs(|x|, axis) - k
  {
    if k < NumPairs(|x|, axis) {
      var m := PairDiff(x, axis, k);
      ScanStep(x, axis, k, count);
      if count + m == 1 {
        ScanAsWrittenAgrees(x, axis, k + 1, 1, Some((axis - k, FirstDiff(x[axis - k], x[axis + 1 + k]))));
      } else if count + m <= 1 {
        ScanAsWrittenAgrees(x, axis, k + 1, count + m, index);
      }
    }
  }

  /** Whenever `find_smudge` as written returns, it returns the intended smudge. */
  lemma {:induction false} AsWrittenAgrees(x: seq<string>, from: nat)
    requires SmudgeAsWrittenFrom(x, from).Ok?
    ensures SmudgeAsWrittenFrom(x, from).value ==
              match SmudgeAxisFrom(x, from)
              case None => None
              case Some(a) => SmudgeCell(x, a, 0)
    decreases |x| - from
  {
    if from + 1 < |x| {
      ScanAsWrittenAgrees(x, from, 0, 0, None);
      var (count, index) := ScanAsWritten(x, from, 0, 0, None).value;
      if count != 1 {
        AsWrittenAgrees(x, from + 1);
      }
    }
  }

  /** The input that shows the failure: the axis below row 1 has one difference, in
      the pair (1, 2), and the next pair (0, 3) is equal, so the source re-reads the
      position of a difference that pair does not have. The intended smudge is row 1,
      position 0. */
  lemma AsWrittenFails(x: seq<string>)
    requires x == [".#", "#.", "..", ".#"]
    ensures SmudgeAsWrittenFrom(x, 0) == Err(ValueError)
    ensures Smudge(x) == Some((1, 0))
  {
    assert NumPairs(|x|, 0) == 1 && NumPairs(|x|, 1) == 2;
    assert PairDiff(x, 0, 0) == 2;
    assert PairDiff(x, 1, 0) == 1;
    assert PairDiff(x, 1, 1) == 0;
    assert PairDiffs(x, 0, 1) == 2;
    assert PairDiffs(x, 1, 1) == 1;
    assert AxisDiffs(x, 1) == PairDiffs(x, 1, 2) == 1;
    assert FirstDiff(x[1], x[2]) == 0;
    assert ScanAsWritten(x, 0, 0, 0, None) == Ok((2, None));
    assert ScanAsWritten(x, 1, 1, 1, Some((1, 0))) == Err(ValueError);
    assert ScanAsWritten(x, 1, 0, 0, None) == Err(ValueError);
  }

  // ---------------------------------------------------------------------------
  // remove_smudge
  // ---------------------------------------------------------------------------

  /** `flip_map`: ash and rock swap; looking up any other cell is a key error. */
  function Flip(c: char): (r: Result<char>)
    ensures r.Ok? <==> c == '.' || c == '#'
    ensures r.Ok? ==> r.value != c && (r.value == '.' || r.value == '#')
    ensures r.Err? ==> r.error == KeyError
  {
    if c == '.' then Ok('#') else if c == '#' then Ok('.') else Err(KeyError)
  }

  /** `b` is `a` with exactly the cell in row `r`, column `c` changed. */
  predicate ChangedOnlyAt(a: seq<string>, b: seq<string>, r: nat, c: nat)
  {
    && |a| == |b| && r < |a| && c < |a[r]| && |b[r]| == |a[r]|
    && b[r][c] != a[r][c]
    && (forall j :: 0 <= j < |a[r]| && j != c ==> b[r][j] == a[r][j])
    && (forall i :: 0 <= i < |a| && i != r ==> b[i] == a[i])
  }

  /** The cell in row `r`, column `c` flipped, as a new grid of the same shape; a
      cell other than ash or rock is a key error. */
  function FlipAt(g: Grid, r: nat, c: nat): (res: Result<Grid>)
    requires ValidGrid(g) && r < |g.rows| && c < NumColumns(g)
    ensures res.Ok? <==> g.rows[r][c] == '.' || g.rows[r][c] == '#'
    ensures res.Err? ==> res.error == KeyError
    ensures res.Ok? ==> && ValidGrid(res.value) && NumColumns(res.value) == NumColumns(g)
                        && ChangedOnlyAt(g.rows, res.value.rows, r, c)
  {
    match Flip(g.rows[r][c])
    case Err(e) => Err(e)
    case Ok(ch) => Ok(Grid(g.rows[r := g.rows[r][c := ch]]))
  }

  /** What `remove_smudge` returns: the horizontal smudge flipped if there is one,
      else the vertical one (whose pair is column, then row); without either, a
      runtime error. */
  function SmudgeRemoved(g: Grid): (res: Result<Grid>)
    requires ValidGrid(g)
    ensures res.Ok? ==> ValidGrid(res.value) && NumColumns(res.value) == NumColumns(g) && |res.value.rows| == |g.rows|
    ensures Smudge(g.rows).None? && Smudge(Transpose(g.rows, NumColumns(g))).None? ==> res == Err(RuntimeError)
  {
    match Smudge(g.rows)
    case Some((r, c)) => FlipAt(g, r, c)
    case None =>
      match Smudge(Transpose(g.rows, NumColumns(g)))
      case Some((c, r)) => FlipAt(g, r, c)
      case None => Err(RuntimeError)
  }

  /** The horizontal smudge is preferred: when the rows have one, that cell, and only
      it, is flipped. Otherwise the vertical smudge's cell is. */
  lemma RemovedCell(g: Grid)
    requires ValidGrid(g) && SmudgeRemoved(g).Ok?
    ensures Smudge(g.rows).Some? ==>
              ChangedOnlyAt(g.rows, SmudgeRemoved(g).value.rows, Smudge(g.rows).value.0, Smudge(g.rows).value.1)
    ensures Smudge(g.rows).None? ==>
              && Smudge(Transpose(g.rows, NumColumns(g))).Some?
              && ChangedOnlyAt(g.rows, SmudgeRemoved(g).value.rows,
                               Smudge(Transpose(g.rows, NumColumns(g))).value.1,
                               Smudge(Transpose(g.rows, NumColumns(g))).value.0)
  {
  }

  /** Finds both smudges, then flips the chosen cell. */
  method RemoveSmudge(g: Grid) returns (res: Result<Grid>)
    requires ValidGrid(g)
    ensures res == SmudgeRemoved(g)
  {
    var horizontal := FindSmudge(g.rows);
    var columns := Columns(g);
    var vertical := FindSmudge(columns);
    if horizontal.Some? {
      var (r, c) := horizontal.value;
      res := ReplaceCell(g, r, c);
    } else if vertical.Some? {
      var (c, r) := vertical.value;
      res := ReplaceCell(g, r, c);
    } else {
      res := Err(RuntimeError);
    }
  }

  /** Copies the rows, replaces row `r` by itself with the cell at `c` flipped, and
      builds a grid from the result. */
  method ReplaceCell(g: Grid, r: nat, c: nat) returns (res: Result<Grid>)
    requires ValidGrid(g) && r < |g.rows| && c < NumColumns(g)
    ensures res == FlipAt(g, r, c)
  {
    var rows := g.rows;
    var flipped := Flip(rows[r][c]);
    if flipped.Err? {
      return Err(flipped.error);
    }
    assert rows[r][..c] + [flipped.value] + rows[r][c + 1..] == rows[r][c := flipped.value];
    rows := rows[r := rows[r][..c] + [flipped.value] + rows[r][c + 1..]];
    res := NewGrid(rows);
  }

  /** Every cell is ash or rock. */
  predicate AshAndRock(rows: seq<string>)
  {
    forall i, j :: 0 <= i < |rows| && 0 <= j < |rows[i]| ==> rows[i][j] == '.' || rows[i][j] == '#'
  }

  /** Changing one cell of the rows changes the same cell of the columns. */
  lemma TransposeChange(rows: seq<string>, w: nat, r: nat, c: nat, ch: char)
    requires Rectangular(rows, w) && r < |rows| && c < w
    ensures Rectangular(rows[r := rows[r][c := ch]], w)
    ensures var t := Transpose(rows, w);
            Transpose(rows[r := rows[r][c := ch]], w) == t[c := t[c][r := ch]]
  {
    var rows' := rows[r := rows[r][c := ch]];
    assert Rectangular(rows', w);
    var t := Transpose(rows, w);
    var t' := Transpose(rows', w);
    forall i | 0 <= i < w
      ensures t'[i] == t[c := t[c][r := ch]][i]
    {
      assert |t'[i]| == |rows|;
    }
  }

  /** On a pattern of ash and rock with a horizontal smudge, removing it succeeds
      and the smudge's axis becomes a mirror of the rows. */
  lemma RemovedMirrorsRows(g: Grid)
    requires ValidGrid(g) && AshAndRock(g.rows) && Smudge(g.rows).Some?
    ensures SmudgeRemoved(g).Ok?
    ensures IsMirror(SmudgeRemoved(g).value.rows, SmudgeAxisFrom(g.rows, 0).value)
  {
    var axis := SmudgeAxisFrom(g.rows, 0).value;
    SmudgeRepairs(g.rows, NumColumns(g), axis);
  }

  /** On a pattern of ash and rock with only a vertical smudge, removing it succeeds
      and the smudge's axis becomes a mirror of the columns. */
  lemma RemovedMirrorsColumns(g: Grid)
    requires ValidGrid(g) && AshAndRock(g.rows) && Smudge(g.rows).None?
    requires Smudge(Transpose(g.rows, NumColumns(g))).Some?
    ensures SmudgeRemoved(g).Ok?
    ensures IsMirror(Transpose(SmudgeRemoved(g).value.rows, NumColumns(g)),
                     SmudgeAxisFrom(Transpose(g.rows, NumColumns(g)), 0).value)
  {
    var w := NumColumns(g);
    var cols := Transpose(g.rows, w);
    var axis := SmudgeAxisFrom(cols, 0).value;
    var (c, r) := Smudge(cols).value;
    SmudgeRepairs(cols, |g.rows|, axis);
    var m := 2 * axis + 1 - c;
    var ch := cols[m][r];
    assert ch == g.rows[r][m] && g.rows[r][c] == cols[c][r];
    ColumnSmudgeChosen(g);
    FlipAtCell(g, r, c, ch);
    TransposeChange(g.rows, w, r, c, ch);
  }

  /** Without a horizontal smudge, the vertical one's cell is flipped. */
  lemma ColumnSmudgeChosen(g: Grid)
    requires ValidGrid(g) && Smudge(g.rows).None? && Smudge(Transpose(g.rows, NumColumns(g))).Some?
    ensures var (c, r) := Smudge(Transpose(g.rows, NumColumns(g))).value;
            r < |g.rows| && c < NumColumns(g) && SmudgeRemoved(g) == FlipAt(g, r, c)
  {
  }

  /** Flipping a cell of ash or rock puts the other one there. */
  lemma FlipAtCell(g: Grid, r: nat, c: nat, ch: char)
    requires ValidGrid(g) && r < |g.rows| && c < NumColumns(g)
    requires g.rows[r][c] == '.' || g.rows[r][c] == '#'
    requires ch != g.rows[r][c] && (ch == '.' || ch == '#')
    ensures FlipAt(g, r, c) == Ok(Grid(g.rows[r := g.rows[r][c := ch]]))
  {
  }

  // ---------------------------------------------------------------------------
  // part1
  // ---------------------------------------------------------------------------

  /** One pattern's score: `100 * (h + 1)` for a mirror below row `h`, `v + 1` for
      one right of column `v`; both, neither, or too few rows or columns to search
      are errors. */
  function Score(g: Grid): (r: Result<nat>)
    requires ValidGrid(g)
  {
    match Reflection(g.rows)
    case Err(e) => Err(e)
    case Ok(horizontal) =>
      match Reflection(Transpose(g.rows, NumColumns(g)))
      case Err(e) => Err(e)
      case Ok(vertical) =>
        if horizontal.Some? && vertical.Some? then Err(RuntimeError)
        else if horizontal.Some? then Ok(100 * (horizontal.value + 1))
        else if vertical.Some? then Ok(vertical.value + 1)
        else Err(RuntimeError)
  }

  /** There is a mirror between two neighbouring entries. */
  ghost predicate HasMirror<T>(x: seq<T>)
  {
    exists i: nat :: i < |x| && IsMirror(x, i)
  }

  /** A pattern scores exactly when it has at least two rows and two columns and a
      mirror either between rows or between columns, but not both; the score then
      names a mirror: the one below row `n / 100 - 1`, or right of column `n - 1`. */
  lemma ScoreMeaning(g: Grid)
    requires ValidGrid(g)
    ensures Score(g).Ok? <==>
              && |g.rows| > 1 && NumColumns(g) > 1
              && (HasMirror(g.rows) <==> !HasMirror(Transpose(g.rows, NumColumns(g))))
    ensures Score(g).Ok? ==>
              var n := Score(g).value;
              || (n >= 100 && n % 100 == 0 && IsMirror(g.rows, n / 100 - 1))
              || (n >= 1 && IsMirror(Transpose(g.rows, NumColumns(g)), n - 1))
  {
    var cols := Transpose(g.rows, NumColumns(g));
    if |g.rows| > 1 && NumColumns(g) > 1 {
      var h := Reflection(g.rows).value;
      var v := Reflection(cols).value;
      if h.Some? {
        assert HasMirror(g.rows);
        assert (100 * (h.value + 1)) / 100 - 1 == h.value;
      }
      if v.Some? {
        assert HasMirror(cols);
      }
    }
  }

  /** One pattern of `part1`: its grid is built, then scored. */
  function PatternScore(rows: seq<string>): Result<nat>
  {
    match NewGrid(rows)
    case Err(e) => Err(e)
    case Ok(g) => Score(g)
  }

  /** The patterns' scores added in order, `score` scoring one pattern; the first
      error stops the sum. Part 1 and part 2 differ only in `score`. */
  function SumScores(patterns: seq<seq<string>>, score: seq<string> -> Result<nat>): Result<nat>
  {
    if patterns == [] then Ok(0)
    else match SumScores(patterns[..|patterns| - 1], score)
      case Err(e) => Err(e)
      case Ok(total) =>
        match score(patterns[|patterns| - 1])
        case Err(e) => Err(e)
        case Ok(n) => Ok(total + n)
  }

  /** The sum succeeds exactly when every pattern scores. */
  lemma {:induction false} SumScoresOk(patterns: seq<seq<string>>, score: seq<string> -> Result<nat>)
    ensures SumScores(patterns, score).Ok? <==> forall i :: 0 <= i < |patterns| ==> score(patterns[i]).Ok?
  {
    if patterns != [] {
      var init := patterns[..|patterns| - 1];
      SumScoresOk(init, score);
      assert forall i :: 0 <= i < |init| ==> init[i] == patterns[i];
    }
  }

  /** Once a prefix fails, the whole sum fails the same way. */
  lemma {:induction false} SumScoresStops(patterns: seq<seq<string>>, score: seq<string> -> Result<nat>, n: nat)
    requires n <= |patterns| && SumScores(patterns[..n], score).Err?
    ensures SumScores(patterns, score) == SumScores(patterns[..n], score)
    decreases |patterns|
  {
    if n < |patterns| {
      var init := patterns[..|patterns| - 1];
      assert init[..n] == patterns[..n];
      SumScoresStops(init, score, n);
    } else {
      assert patterns[..n] == patterns;
    }
  }

  /** One more pattern: its error, or the total with its score added. */
  lemma SumScoresSnoc(patterns: seq<seq<string>>, score: seq<string> -> Result<nat>, i: nat, total: nat, s: Result<nat>)
    requires i < |patterns| && SumScores(patterns[..i], score) == Ok(total)
    requires s == score(patterns[i])
    ensures s.Err? ==> SumScores(patterns[..i + 1], score) == Err(s.error)
    ensures s.Ok? ==> SumScores(patterns[..i + 1], score) == Ok(total + s.value)
  {
    var p := patterns[..i + 1];
    assert p[..|p| - 1] == patterns[..i];
    assert p[|p| - 1] == patterns[i];
  }

  /** A pattern that fails ends the whole sum with its error. */
  lemma SumScoresFails(patterns: seq<seq<string>>, score: seq<string> -> Result<nat>, i: nat, total: nat, s: Result<nat>)
    requires i < |patterns| && SumScores(patterns[..i], score) == Ok(total)
    requires s == score(patterns[i]) && s.Err?
    ensures SumScores(patterns, score) == Err(s.error)
  {
    SumScoresSnoc(patterns, score, i, total, s);
    SumScoresStops(patterns, score, i + 1);
  }

  /** `part1`: the sum of the patterns' scores. */
  function TotalScore(patterns: seq<seq<string>>): Result<nat>
  {
    SumScores(patterns, PatternScore)
  }

  /** The sum succeeds exactly when every pattern forms a grid and scores. */
  lemma TotalScoreOk(patterns: seq<seq<string>>)
    ensures TotalScore(patterns).Ok? <==>
              forall i :: 0 <= i < |patterns| ==> NewGrid(patterns[i]).Ok? && Score(NewGrid(patterns[i]).value).Ok?
  {
    SumScoresOk(patterns, PatternScore);
  }

  /** Builds each grid and adds its score. */
  method Part1(patterns: seq<seq<string>>) returns (r: Result<nat>)
    ensures r == TotalScore(patterns)
  {
    var total := 0;
    for i := 0 to |patterns|
      invariant SumScores(patterns[..i], PatternScore) == Ok(total)
    {
      var score := ScorePattern(patterns[i]);
      if score.Err? {
        SumScoresFails(patterns, PatternScore, i, total, score);
        return Err(score.error);
      }
      SumScoresSnoc(patterns, PatternScore, i, total, score);
      total := total + score.value;
    }
    assert patterns[..|patterns|] == patterns;
    return Ok(total);
  }

  /** The grid built from one pattern, scored. */
  method ScorePattern(rows: seq<string>) returns (r: Result<nat>)
    ensures r == PatternScore(rows)
  {
    var built := NewGrid(rows);
    if built.Err? {
      return Err(built.error);
    }
    r := ScoreGrid(built.value);
  }

  /** The body of `part1`'s loop: looks for the row mirror, then the column mirror,
      and scores the pattern. */
  method ScoreGrid(grid: Grid) returns (r: Result<nat>)
    requires ValidGrid(grid)
    ensures r == Score(grid)
  {
    var horizontal := FindReflection(grid.rows);
    if horizontal.Err? {
      return Err(horizontal.error);
    }
    var columns := Columns(grid);
    var vertical := FindReflection(columns);
    if vertical.Err? {
      return Err(vertical.error);
    }
    if horizontal.value.Some? && vertical.value.Some? {
      return Err(RuntimeError);
    }
    if horizontal.value.Some? {
      r := Ok(100 * (horizontal.value.value + 1));
    } else if vertical.value.Some? {
      r := Ok(vertical.value.value + 1);
    } else {
      r := Err(RuntimeError);
    }
  }

  // ---------------------------------------------------------------------------
  // part2, as its test means it
  // ---------------------------------------------------------------------------

  /** The score part 2's test expects of one pattern: `100 * (a + 1)` for the
      first axis between rows whose mirrored pairs differ in exactly one cell,
      else `a + 1` for the first such axis between columns; without either, the
      runtime error `remove_smudge` raises. */
  function SmudgeScore(g: Grid): Result<nat>
    requires ValidGrid(g)
  {
    match SmudgeAxisFrom(g.rows, 0)
    case Some(a) => Ok(100 * (a + 1))
    case None =>
      match SmudgeAxisFrom(Transpose(g.rows, NumColumns(g)), 0)
      case Some(a) => Ok(a + 1)
      case None => Err(RuntimeError)
  }

  /** On a pattern of ash and rock the part-2 score fails exactly when
      `remove_smudge` does, and otherwise names the line the repaired pattern
      mirrors at and the smudged one did not. */
  lemma SmudgeScoreMeaning(g: Grid)
    requires ValidGrid(g) && AshAndRock(g.rows)
    ensures SmudgeScore(g).Err? <==> SmudgeRemoved(g).Err?
    ensures SmudgeScore(g).Ok? ==>
              && SmudgeRemoved(g).Ok?
              && var n := SmudgeScore(g).value;
                 var repaired := SmudgeRemoved(g).value.rows;
                 var w := NumColumns(g);
                 || (n >= 100 && n % 100 == 0 && !IsMirror(g.rows, n / 100 - 1) && IsMirror(repaired, n / 100 - 1))
                 || (n >= 1 && !IsMirror(Transpose(g.rows, w), n - 1) && IsMirror(Transpose(repaired, w), n - 1))
  {
    match SmudgeAxisFrom(g.rows, 0)
    case Some(a) =>
      SmudgeScoreRows(g, a);
      assert (100 * (a + 1)) / 100 - 1 == a;
    case None =>
      match SmudgeAxisFrom(Transpose(g.rows, NumColumns(g)), 0)
      case Some(a) => SmudgeScoreColumns(g, a);
      case None =>
  }

  /** A horizontal smudge below row `a` scores 100 * (a + 1), and removing it turns
      that line into a mirror it was not before. */
  lemma SmudgeScoreRows(g: Grid, a: nat)
    requires ValidGrid(g) && AshAndRock(g.rows) && SmudgeAxisFrom(g.rows, 0) == Some(a)
    ensures SmudgeScore(g) == Ok(100 * (a + 1))
    ensures SmudgeRemoved(g).Ok? && !IsMirror(g.rows, a) && IsMirror(SmudgeRemoved(g).value.rows, a)
  {
    RemovedMirrorsRows(g);
    SmudgeRepairs(g.rows, NumColumns(g), a);
  }

  /** With no horizontal smudge, a vertical one right of column `a` scores a + 1, and
      removing it turns that line into a mirror of the columns it was not before. */
  lemma SmudgeScoreColumns(g: Grid, a: nat)
    requires ValidGrid(g) && AshAndRock(g.rows) && SmudgeAxisFrom(g.rows, 0).None?
    requires SmudgeAxisFrom(Transpose(g.rows, NumColumns(g)), 0) == Some(a)
    ensures SmudgeScore(g) == Ok(a + 1)
    ensures SmudgeRemoved(g).Ok? && !IsMirror(Transpose(g.rows, NumColumns(g)), a)
    ensures IsMirror(Transpose(SmudgeRemoved(g).value.rows, NumColumns(g)), a)
  {
    var cols := Transpose(g.rows, NumColumns(g));
    assert Smudge(g.rows).None?;
    assert SmudgeCell(cols, a, 0).Some? by { SmudgeCellFound(cols, a); }
    assert Smudge(cols).Some?;
    RemovedMirrorsColumns(g);
    SmudgeRepairs(cols, |g.rows|, a);
  }

  /** An axis with exactly one difference has a first differing cell. */
  lemma SmudgeCellFound(x: seq<string>, axis: nat)
    requires axis + 1 < |x| && AxisDiffs(x, axis) == 1
    ensures SmudgeCell(x, axis, 0).Some?
  {
    assert PairDiffs(x, axis, 0) == 0;
  }

  /** One pattern of part 2: its grid is built, then scored by its smudge. */
  function SmudgePatternScore(rows: seq<string>): Result<nat>
  {
    match NewGrid(rows)
    case Err(e) => Err(e)
    case Ok(g) => SmudgeScore(g)
  }

  /** Part 2's sum, as its test means it: the patterns' smudge scores. */
  function TotalSmudgeScore(patterns: seq<seq<string>>): Result<nat>
  {
    SumScores(patterns, SmudgePatternScore)
  }

  /** Part 2 as its test means it: builds each grid and adds the score of the line
      its smudge, once removed, makes a mirror. */
  method Part2(patterns: seq<seq<string>>) returns (r: Result<nat>)
    ensures r == TotalSmudgeScore(patterns)
  {
    var total := 0;
    for i := 0 to |patterns|
      invariant SumScores(patterns[..i], SmudgePatternScore) == Ok(total)
    {
      var score := ScoreSmudgedPattern(patterns[i]);
      if score.Err? {
        SumScoresFails(patterns, SmudgePatternScore, i, total, score);
        return Err(score.error);
      }
      SumScoresSnoc(patterns, SmudgePatternScore, i, total, score);
      total := total + score.value;
    }
    assert patterns[..|patterns|] == patterns;
    return Ok(total);
  }

  /** The body of part 2's loop: the grid, then its first single-difference axis
      between rows, else between columns, scored. */
  method ScoreSmudgedPattern(rows: seq<string>) returns (r: Result<nat>)
    ensures r == SmudgePatternScore(rows)
  {
    var built := NewGrid(rows);
    if built.Err? {
      return Err(built.error);
    }
    var grid := built.value;
    var horizontal := SmudgeAxisFrom(grid.rows, 0);
    if horizontal.Some? {
      return Ok(100 * (horizontal.value + 1));
    }
    var columns := Columns(grid);
    var vertical := SmudgeAxisFrom(columns, 0);
    if vertical.Some? {
      return Ok(vertical.value + 1);
    }
    r := Err(RuntimeError);
  }
}
