/** Mirage maintenance: extrapolating a history of readings one value forward
    (or backward) by repeatedly taking differences until a row is all zero. */
module MirageMaintenance {

  /** The pairwise differences `y - x` of neighbouring readings; one shorter than
      `h`, and empty when `h` is empty (`zip(h, h[1:])`). */
  function Diff(h: seq<int>): (d: seq<int>)
    ensures |d| == if h == [] then 0 else |h| - 1
    ensures forall i :: 0 <= i < |d| ==> d[i] == h[i + 1] - h[i]
  {
    if h == [] then [] else seq(|h| - 1, i requires 0 <= i < |h| - 1 => h[i + 1] - h[i])
  }

  /** `all(element == 0 for element in h)`: true for the empty row as well. */
  predicate AllZero(h: seq<int>)
  {
    forall i :: 0 <= i < |h| ==> h[i] == 0
  }

  /** The rows of the difference table: `h`, its differences, and so on, down to and
      including the first all-zero row. */
  function Steps(h: seq<int>): (rows: seq<seq<int>>)
    decreases |h|
  {
    if AllZero(h) then [h] else [h] + Steps(Diff(h))
  }

  /** The table starts with the history, every row is the difference of the one
      above, every row but the last is non-empty and not all zero, the last row is
      all zero, and there are at most `|h| + 1` rows. */
  lemma {:induction false} StepsShape(h: seq<int>)
    ensures 1 <= |Steps(h)| <= |h| + 1
    ensures Steps(h)[0] == h
    ensures AllZero(Steps(h)[|Steps(h)| - 1])
    ensures forall k :: 0 <= k < |Steps(h)| - 1 ==>
              Steps(h)[k] != [] && !AllZero(Steps(h)[k]) && Steps(h)[k + 1] == Diff(Steps(h)[k])
    decreases |h|
  {
    if !AllZero(h) {
      StepsShape(Diff(h));
      var rest := Steps(Diff(h));
      assert Steps(h) == [h] + rest;
      forall k | 0 <= k < |Steps(h)| - 1
        ensures Steps(h)[k] != [] && !AllZero(Steps(h)[k]) && Steps(h)[k + 1] == Diff(Steps(h)[k])
      {
        if k > 0 {
          assert Steps(h)[k] == rest[k - 1] && Steps(h)[k + 1] == rest[k];
        }
      }
    }
  }

  /** The forward forecast: the sum of the last elements of every row above the
      final all-zero row. */
  function Extrapolate(h: seq<int>): int
    decreases |h|
  {
    if AllZero(h) then 0 else h[|h| - 1] + Extrapolate(Diff(h))
  }

  /** The backward forecast: `first - (forecast below)` folded from the deepest row up. */
  function Backcast(h: seq<int>): int
    decreases |h|
  {
    if AllZero(h) then 0 else h[0] - Backcast(Diff(h))
  }

  /** The differences of an all-zero row are all zero. */
  lemma DiffOfZero(h: seq<int>)
    requires AllZero(h)
    ensures AllZero(Diff(h))
  {
  }

  /** Differences of a history with one more reading at the end: one more
      difference, `w`. */
  lemma DiffSnoc(h: seq<int>, v: int, w: int)
    requires h != [] && w == v - h[|h| - 1]
    ensures Diff(h + [v]) == Diff(h) + [w]
  {
    var x := h + [v];
    var d := Diff(x);
    var e := Diff(h) + [w];
    forall i | 0 <= i < |d| ensures d[i] == e[i] {
      assert d[i] == x[i + 1] - x[i];
      if i < |h| - 1 {
        assert e[i] == Diff(h)[i];
      }
    }
    assert d == e;
  }

  /** Differences of a history with one more reading at the front: one more
      difference, `w`, at the front. */
  lemma DiffCons(v: int, h: seq<int>, w: int)
    requires h != [] && w == h[0] - v
    ensures Diff([v] + h) == [w] + Diff(h)
  {
    var x := [v] + h;
    var d := Diff(x);
    var e := [w] + Diff(h);
    forall i | 0 <= i < |d| ensures d[i] == e[i] {
      assert d[i] == x[i + 1] - x[i];
      if i > 0 {
        assert e[i] == Diff(h)[i - 1];
      }
    }
    assert d == e;
  }

  /** The forecast exceeds the last reading by the forecast of the differences. */
  lemma ExtrapolateStep(h: seq<int>)
    requires h != []
    ensures Extrapolate(h) - h[|h| - 1] == Extrapolate(Diff(h))
  {
    if AllZero(h) {
      DiffOfZero(h);
      assert h[|h| - 1] == 0;
    }
  }

  /** The backward forecast falls short of the first reading by the backward forecast
      of the differences. */
  lemma BackcastStep(h: seq<int>)
    requires h != []
    ensures h[0] - Backcast(h) == Backcast(Diff(h))
  {
    if AllZero(h) {
      DiffOfZero(h);
      assert h[0] == 0;
    }
  }

  /** Appending the forecast extends the difference table consistently: the row of
      differences gains exactly the forecast of the differences. */
  lemma ExtrapolateExtends(h: seq<int>)
    requires h != []
    ensures Diff(h + [Extrapolate(h)]) == Diff(h) + [Extrapolate(Diff(h))]
  {
    ExtrapolateStep(h);
    DiffSnoc(h, Extrapolate(h), Extrapolate(Diff(h)));
  }

  /** Prepending the backward forecast extends the difference table consistently at
      the front. */
  lemma BackcastExtends(h: seq<int>)
    requires h != []
    ensures Diff([Backcast(h)] + h) == [Backcast(Diff(h))] + Diff(h)
  {
    BackcastStep(h);
    DiffCons(Backcast(h), h, Backcast(Diff(h)));
  }

  /** The `n` readings `a, a + b, a + 2b, ...`. */
  function Arithmetic(a: int, b: int, n: nat): (h: seq<int>)
    ensures |h| == n && forall i :: 0 <= i < n ==> h[i] == a + b * i
  {
    seq(n, i requires 0 <= i < n => a + b * i)
  }

  /** A constant row forecasts its constant in both directions. */
  lemma ConstantForecast(c: int, n: nat)
    requires n >= 1
    ensures Extrapolate(Arithmetic(c, 0, n)) == c
    ensures Backcast(Arithmetic(c, 0, n)) == c
  {
    var h := Arithmetic(c, 0, n);
    if c != 0 {
      assert h[0] == c;
      assert AllZero(Diff(h));
    }
  }

  /** The differences of an arithmetic history are constant. */
  lemma ArithmeticDiff(a: int, b: int, n: nat)
    requires n >= 1
    ensures Diff(Arithmetic(a, b, n)) == Arithmetic(b, 0, n - 1)
  {
    var h := Arithmetic(a, b, n);
    forall i | 0 <= i < n - 1 ensures h[i + 1] - h[i] == b {
      assert a + b * (i + 1) == a + b * i + b;
    }
  }

  /** An arithmetic history of at least two readings forecasts the next term forwards
      and the previous term backwards. */
  lemma ArithmeticForecast(a: int, b: int, n: nat)
    requires n >= 2
    ensures Extrapolate(Arithmetic(a, b, n)) == a + b * n
    ensures Backcast(Arithmetic(a, b, n)) == a - b
  {
    var h := Arithmetic(a, b, n);
    ArithmeticDiff(a, b, n);
    ConstantForecast(b, n - 1);
    assert h[0] == a && h[1] == a + b;
    if !AllZero(h) {
      assert h[n - 1] == a + b * (n - 1);
      assert b * (n - 1) + b == b * n;
    }
  }

  /** Folding one row of the table: the final row forecasts 0, and every other row
      is non-empty and forecasts from its end (or start) and the row below. */
  lemma StepsFold(h: seq<int>, k: nat)
    requires k < |Steps(h)|
    ensures k == |Steps(h)| - 1 ==> Extrapolate(Steps(h)[k]) == 0 && Backcast(Steps(h)[k]) == 0
    ensures k < |Steps(h)| - 1 ==>
              && Steps(h)[k] != []
              && Extrapolate(Steps(h)[k]) == Steps(h)[k][|Steps(h)[k]| - 1] + Extrapolate(Steps(h)[k + 1])
              && Backcast(Steps(h)[k]) == Steps(h)[k][0] - Backcast(Steps(h)[k + 1])
  {
    StepsShape(h);
  }

  /** One more row of the table: a row that is not all zero is followed by its
      differences. */
  lemma ExtendTable(pre: seq<seq<int>>, cur: seq<int>)
    requires !AllZero(cur)
    ensures |Diff(cur)| < |cur|
    ensures pre + Steps(cur) == (pre + [cur]) + Steps(Diff(cur))
  {
    var rest := Steps(Diff(cur));
    assert Steps(cur) == [cur] + rest;
    assert pre + ([cur] + rest) == (pre + [cur]) + rest;
  }

  /** The `while` loop of `forecast`: the rows of the difference table, the rows
      already passed kept in `above` and the current row in `cur`. */
  method BuildSteps(history: seq<int>) returns (steps: seq<seq<int>>)
    ensures steps == Steps(history)
  {
    var above: seq<seq<int>> := [];
    var cur := history;
    while !AllZero(cur)
      invariant above + Steps(cur) == Steps(history)
      decreases |cur|
    {
      ExtendTable(above, cur);
      above := above + [cur];
      cur := Diff(cur);
    }
    assert Steps(cur) == [cur];
    steps := above + [cur];
  }

  /** The backward fold: `last = row[0] - last` over the rows above the last, bottom up. */
  method FoldBackwards(steps: seq<seq<int>>, ghost history: seq<int>) returns (last: int)
    requires steps == Steps(history)
    ensures last == Backcast(history)
  {
    StepsShape(history);
    StepsFold(history, |steps| - 1);
    last := 0;
    var i := |steps| - 1;
    while i > 0
      invariant 0 <= i < |steps|
      invariant last == Backcast(steps[i])
    {
      i := i - 1;
      StepsFold(history, i);
      last := steps[i][0] - last;
    }
  }

  /** The forward fold: `total += row[-1]` over the rows above the last, bottom up. */
  method FoldForwards(steps: seq<seq<int>>, ghost history: seq<int>) returns (total: int)
    requires steps == Steps(history)
    ensures total == Extrapolate(history)
  {
    StepsShape(history);
    StepsFold(history, |steps| - 1);
    total := 0;
    var i := |steps| - 1;
    while i > 0
      invariant 0 <= i < |steps|
      invariant total == Extrapolate(steps[i])
    {
      i := i - 1;
      StepsFold(history, i);
      total := total + steps[i][|steps[i]| - 1];
    }
  }

  /** `forecast`: build the difference table, then fold its rows from the bottom up,
      adding last elements (forwards) or subtracting from first elements (backwards). */
  method Forecast(history: seq<int>, backwards: bool) returns (r: int)
    ensures r == if backwards then Backcast(history) else Extrapolate(history)
    ensures AllZero(history) ==> r == 0
  {
    var steps := BuildSteps(history);
    if backwards {
      r := FoldBackwards(steps, history);
    } else {
      r := FoldForwards(steps, history);
    }
  }

  /** The sum of the forecasts of every history, in the chosen direction. */
  function SumForecasts(histories: seq<seq<int>>, backwards: bool): int
  {
    if histories == [] then 0
    else
      var h := histories[|histories| - 1];
      SumForecasts(histories[..|histories| - 1], backwards) + (if backwards then Backcast(h) else Extrapolate(h))
  }

  /** `part1` (forwards) and `part2` (backwards): the sum of the forecasts. */
  method SumOfForecasts(histories: seq<seq<int>>, backwards: bool) returns (total: int)
    ensures total == SumForecasts(histories, backwards)
  {
    total := 0;
    for i := 0 to |histories|
      invariant total == SumForecasts(histories[..i], backwards)
    {
      assert histories[..i + 1][..i] == histories[..i];
      var f := Forecast(histories[i], backwards);
      total := total + f;
    }
    assert histories[..|histories|] == histories;
  }

  /** The first example history is arithmetic: 18 forwards, -3 backwards. */
  lemma SampleLinear(h: seq<int>)
    requires h == [0, 3, 6, 9, 12, 15]
    ensures Extrapolate(h) == 18 && Backcast(h) == -3
  {
    assert h == Arithmetic(0, 3, 6);
    ArithmeticForecast(0, 3, 6);
  }

  /** The second example history has arithmetic differences: 28 forwards, 0 backwards. */
  lemma SampleTriangular(h: seq<int>)
    requires h == [1, 3, 6, 10, 15, 21]
    ensures Extrapolate(h) == 28 && Backcast(h) == 0
  {
    assert Diff(h) == Arithmetic(2, 1, 5);
    ArithmeticForecast(2, 1, 5);
    assert !AllZero(h) by { assert h[0] != 0; }
  }

  /** The differences of the third example history: 23 forwards, 5 backwards. */
  lemma SampleQuadraticDiff(d: seq<int>)
    requires d == [3, 3, 5, 9, 15]
    ensures Extrapolate(d) == 23 && Backcast(d) == 5
  {
    assert Diff(d) == Arithmetic(0, 2, 4);
    ArithmeticForecast(0, 2, 4);
    assert !AllZero(d) by { assert d[0] != 0; }
  }

  /** The third example history needs two levels of differences: 68 forwards, 5 backwards. */
  lemma SampleQuadratic(h: seq<int>)
    requires h == [10, 13, 16, 21, 30, 45]
    ensures Extrapolate(h) == 68 && Backcast(h) == 5
  {
    assert Diff(h) == [3, 3, 5, 9, 15];
    SampleQuadraticDiff(Diff(h));
    assert !AllZero(h) by { assert h[0] != 0; }
  }

  /** The sum over three histories, spelled out. */
  lemma SumOfThree(x: seq<int>, y: seq<int>, z: seq<int>, backwards: bool)
    ensures SumForecasts([x, y, z], backwards) ==
              if backwards then Backcast(x) + Backcast(y) + Backcast(z)
              else Extrapolate(x) + Extrapolate(y) + Extrapolate(z)
  {
    var hs := [x, y, z];
    assert [x][..0] == [];
    assert SumForecasts([x], backwards) == (if backwards then Backcast(x) else Extrapolate(x));
    assert [x, y][..1] == [x];
    assert SumForecasts([x, y], backwards) ==
             (if backwards then Backcast(x) + Backcast(y) else Extrapolate(x) + Extrapolate(y));
    assert hs[..2] == [x, y];
  }

  /** The three example histories: forecasts sum to 114, backward forecasts to 2. */
  lemma SampleTotals(x: seq<int>, y: seq<int>, z: seq<int>)
    requires x == [0, 3, 6, 9, 12, 15] && y == [1, 3, 6, 10, 15, 21] && z == [10, 13, 16, 21, 30, 45]
    ensures SumForecasts([x, y, z], false) == 114
    ensures SumForecasts([x, y, z], true) == 2
  {
    SampleLinear(x);
    SampleTriangular(y);
    SampleQuadratic(z);
    SumOfThree(x, y, z, false);
    SumOfThree(x, y, z, true);
  }

}
