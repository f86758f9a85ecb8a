/** Gear ratios: the part numbers of an engine schematic are the runs of digits
    with a symbol in one of the surrounding cells, and a gear is a `*` with exactly
    two part numbers around it. */
module GearRatios {
  import opened Wrappers

  // ---------------------------------------------------------------------------
  // Cells
  // ---------------------------------------------------------------------------

  /** `str.isdigit`, on the decimal digits. */
  predicate IsDigit(c: char)
  {
    '0' <= c <= '9'
  }

  /** `is_symbol`: neither a digit nor empty space. */
  predicate IsSymbol(c: char)
  {
    !IsDigit(c) && c != '.'
  }

  /** The value of one decimal digit. */
  function Digit(c: char): (d: nat)
    requires IsDigit(c)
    ensures d < 10
  {
    (c as int) - ('0' as int)
  }

  /** The value of a run of decimal digits, as `int` reads it. */
  function Value(s: seq<char>): (v: nat)
    requires forall i :: 0 <= i < |s| ==> IsDigit(s[i])
  {
    if s == [] then 0 else 10 * Value(s[..|s| - 1]) + Digit(s[|s| - 1])
  }

  /** `n` digits stand for less than `10^n`. */
  function Pow10(n: nat): nat
  {
    if n == 0 then 1 else 10 * Pow10(n - 1)
  }

  lemma {:induction false} ValueBound(s: seq<char>)
    requires forall i :: 0 <= i < |s| ==> IsDigit(s[i])
    ensures Value(s) < Pow10(|s|)
  {
    if s != [] {
      ValueBound(s[..|s| - 1]);
    }
  }

  // ---------------------------------------------------------------------------
  // Number and is_adjacent
  // ---------------------------------------------------------------------------

  /** A number: its line and its half-open span of columns. */
  datatype Number = Number(lineNumber: nat, span: (nat, nat))

  /** `Number.is_adjacent`: the cells of the rows above and below from one column
      before the span to one after it, and the cells just before and just after the
      span on its own row. Together: the ring of cells around the span. */
  function IsAdjacent(n: Number, x: int, y: int): (b: bool)
    ensures n.span.0 <= n.span.1 ==>
              (b <==> n.lineNumber - 1 <= x <= n.lineNumber + 1 && n.span.0 - 1 <= y <= n.span.1
                      && !(x == n.lineNumber && n.span.0 <= y < n.span.1))
  {
    if (x == n.lineNumber + 1 || x == n.lineNumber - 1) && n.span.0 - 1 <= y && y <= n.span.1 then
      true
    else
      x == n.lineNumber && (y == n.span.0 - 1 || y == n.span.1)
  }

  // ---------------------------------------------------------------------------
  // find_numbers
  // ---------------------------------------------------------------------------

  /** Where the run of digits from `i` ends. */
  function RunEnd(line: seq<char>, i: nat): (e: nat)
    requires i <= |line|
    ensures i <= e <= |line| && (e == |line| || !IsDigit(line[e]))
    ensures forall j :: i <= j < e ==> IsDigit(line[j])
    decreases |line| - i
  {
    if i == |line| || !IsDigit(line[i]) then i else RunEnd(line, i + 1)
  }

  /** Columns `b` to `e - 1` of `line`, at least one, are all digits. */
  predicate DigitRun(line: seq<char>, b: nat, e: nat)
  {
    b < e <= |line| && forall j :: b <= j < e ==> IsDigit(line[j])
  }

  /** A run of digits that cannot be extended either way. */
  predicate MaximalRun(line: seq<char>, b: nat, e: nat)
  {
    && DigitRun(line, b, e)
    && (b == 0 || !IsDigit(line[b - 1]))
    && (e == |line| || !IsDigit(line[e]))
  }

  /** Column `i` is not strictly inside a run of digits. */
  predicate AtBoundary(line: seq<char>, i: nat)
    requires i <= |line|
  {
    i == 0 || i == |line| || !IsDigit(line[i - 1]) || !IsDigit(line[i])
  }

  /** The runs of digits from column `i` on, left to right, as half-open spans. */
  function RunsFrom(line: seq<char>, i: nat): (r: seq<(nat, nat)>)
    requires i <= |line|
    ensures forall k :: 0 <= k < |r| ==> i <= r[k].0 && DigitRun(line, r[k].0, r[k].1)
    ensures forall k, l :: 0 <= k < l < |r| ==> r[k].1 < r[l].0
    decreases |line| - i
  {
    if i == |line| then []
    else if !IsDigit(line[i]) then RunsFrom(line, i + 1)
    else [(i, RunEnd(line, i))] + RunsFrom(line, RunEnd(line, i))
  }

  /** A run that ends at a non-digit or the end of the line ends where `RunEnd` says. */
  lemma {:induction false} RunEndIs(line: seq<char>, i: nat, e: nat)
    requires i <= e <= |line| && (forall j :: i <= j < e ==> IsDigit(line[j]))
    requires e == |line| || !IsDigit(line[e])
    ensures RunEnd(line, i) == e
    decreases e - i
  {
    if i < e {
      RunEndIs(line, i + 1, e);
    }
  }

  /** Every run listed from a boundary is a maximal run. */
  lemma {:induction false} RunsFromSound(line: seq<char>, i: nat)
    requires i <= |line| && AtBoundary(line, i)
    ensures forall r :: r in RunsFrom(line, i) ==> i <= r.0 && MaximalRun(line, r.0, r.1)
    decreases |line| - i
  {
    if i < |line| {
      if !IsDigit(line[i]) {
        RunsFromSound(line, i + 1);
      } else {
        RunsFromSound(line, RunEnd(line, i));
      }
    }
  }

  /** Every maximal run from a boundary on is listed. */
  lemma {:induction false} RunsFromComplete(line: seq<char>, i: nat, b: nat, e: nat)
    requires i <= |line| && i <= b && MaximalRun(line, b, e)
    ensures (b, e) in RunsFrom(line, i)
    decreases |line| - i
  {
    if !IsDigit(line[i]) {
      RunsFromComplete(line, i + 1, b, e);
    } else if b == i {
      RunEndIs(line, i, e);
    } else {
      var end := RunEnd(line, i);
      assert !IsDigit(line[b - 1]);
      assert end <= b - 1;
      RunsFromComplete(line, end, b, e);
    }
  }

  /** `find_numbers` on one line yields exactly its maximal runs of digits, left to
      right. */
  lemma RunsFromSpec(line: seq<char>, i: nat)
    requires i <= |line| && AtBoundary(line, i)
    ensures forall r :: r in RunsFrom(line, i) <==> i <= r.0 && MaximalRun(line, r.0, r.1)
  {
    RunsFromSound(line, i);
    forall r: (nat, nat) | i <= r.0 && MaximalRun(line, r.0, r.1)
      ensures r in RunsFrom(line, i)
    {
      RunsFromComplete(line, i, r.0, r.1);
    }
  }

  /** The spans of a line as numbers of line `ln`. */
  function ToNumbers(ln: nat, runs: seq<(nat, nat)>): (ns: seq<Number>)
    ensures |ns| == |runs| && forall k :: 0 <= k < |runs| ==> ns[k] == Number(ln, runs[k])
  {
    seq(|runs|, k requires 0 <= k < |runs| => Number(ln, runs[k]))
  }

  /** Yielding run `x` after the runs `done`, with `rest` still to come. */
  lemma CloseRun(ln: nat, done: seq<(nat, nat)>, x: (nat, nat), rest: seq<(nat, nat)>)
    ensures ToNumbers(ln, done + [x]) == ToNumbers(ln, done) + [Number(ln, x)]
    ensures (done + [x]) + rest == done + ([x] + rest)
  {
  }

  /** The numbers of the first `n` lines, line by line and left to right. */
  function Numbers(lines: seq<string>, n: nat): (ns: seq<Number>)
    requires n <= |lines|
    ensures AllValid(lines, ns)
  {
    if n == 0 then [] else Numbers(lines, n - 1) + ToNumbers(n - 1, RunsFrom(lines[n - 1], 0))
  }

  /** A number that is a run of digits of the schematic. */
  predicate ValidNumber(lines: seq<string>, n: Number)
  {
    n.lineNumber < |lines| && DigitRun(lines[n.lineNumber], n.span.0, n.span.1)
  }

  /** Every one of `ns` is a run of digits of the schematic. */
  predicate AllValid(lines: seq<string>, ns: seq<Number>)
  {
    forall k :: 0 <= k < |ns| ==> ValidNumber(lines, ns[k])
  }

  /** `find_numbers` yields exactly the maximal runs of digits of every line. */
  lemma {:induction false} NumbersSpec(lines: seq<string>, n: nat)
    requires n <= |lines|
    ensures forall m :: m in Numbers(lines, n) <==>
              m.lineNumber < n && MaximalRun(lines[m.lineNumber], m.span.0, m.span.1)
  {
    if n > 0 {
      NumbersSpec(lines, n - 1);
      RunsFromSpec(lines[n - 1], 0);
      var runs := RunsFrom(lines[n - 1], 0);
      forall m | m in ToNumbers(n - 1, runs)
        ensures m.lineNumber == n - 1 && m.span in runs
      {
        var k :| 0 <= k < |runs| && ToNumbers(n - 1, runs)[k] == m;
      }
      forall m: Number | m.lineNumber == n - 1 && MaximalRun(lines[n - 1], m.span.0, m.span.1)
        ensures m in ToNumbers(n - 1, runs)
      {
        var k :| 0 <= k < |runs| && runs[k] == m.span;
        assert ToNumbers(n - 1, runs)[k] == m;
      }
    }
  }

  /** What the scan of a line still has to yield from column `k` on, with the run
      begun at `begin` still open. */
  function Pending(line: seq<char>, k: nat, begin: Option<nat>): seq<(nat, nat)>
    requires k <= |line|
  {
    match begin
    case None => RunsFrom(line, k)
    case Some(b) => [(b, RunEnd(line, k))] + RunsFrom(line, RunEnd(line, k))
  }

  /** A digit with no run open opens one: the same runs are still to yield. */
  lemma PendingOpen(line: seq<char>, k: nat)
    requires k < |line| && IsDigit(line[k])
    ensures Pending(line, k, None) == Pending(line, k + 1, Some(k))
  {
  }

  /** A non-digit closes the open run, which is the next to yield. */
  lemma PendingClose(line: seq<char>, k: nat, b: nat)
    requires k < |line| && !IsDigit(line[k])
    ensures Pending(line, k, Some(b)) == [(b, k)] + Pending(line, k + 1, None)
  {
  }

  /** A digit inside an open run, or a non-digit outside one, changes nothing. */
  lemma PendingSkip(line: seq<char>, k: nat, begin: Option<nat>)
    requires k < |line| && IsDigit(line[k]) == begin.Some?
    ensures Pending(line, k, begin) == Pending(line, k + 1, begin)
  {
  }

  /** At the end of the line only the open run, if any, is still to yield. */
  lemma PendingEnd(line: seq<char>, begin: Option<nat>)
    ensures Pending(line, |line|, begin) == if begin.Some? then [(begin.value, |line|)] else []
  {
  }

  /** `find_numbers`: scans each line with `begin` marking an open run of digits. */
  method FindNumbers(lines: seq<string>) returns (numbers: seq<Number>)
    ensures numbers == Numbers(lines, |lines|)
  {
    numbers := [];
    for lineNum := 0 to |lines|
      invariant numbers == Numbers(lines, lineNum)
    {
      var found := LineNumbers(lineNum, lines[lineNum]);
      numbers := numbers + found;
    }
  }

  /** The scan of one line: a digit opens a run, a non-digit closes the open one and
      yields it, and the end of the line closes the last. */
  method LineNumbers(lineNum: nat, line: string) returns (found: seq<Number>)
    ensures found == ToNumbers(lineNum, RunsFrom(line, 0))
  {
    found := [];
    ghost var done: seq<(nat, nat)> := [];
    var begin: Option<nat> := None;
    for charNum := 0 to |line|
      invariant begin.Some? ==> begin.value < charNum
      invariant found == ToNumbers(lineNum, done)
      invariant done + Pending(line, charNum, begin) == RunsFrom(line, 0)
    {
      begin, found, done := ScanChar(lineNum, line, charNum, begin, found, done);
    }
    // End of line case
    if begin.Some? {
      EndStep(line, lineNum, done, begin.value);
      found := found + [Number(lineNum, (begin.value, |line|))];
      done := done + [(begin.value, |line|)];
    } else {
      PendingEnd(line, begin);
      assert done + [] == done;
    }
  }

  /** The loop body of the line scan at `line[charNum]`: a digit opens a run, a
      non-digit closes the open one and yields it. The runs yielded so far and the
      runs still pending always make up the line's runs. */
  method ScanChar(lineNum: nat, line: string, charNum: nat, begin: Option<nat>, found: seq<Number>,
                  ghost done: seq<(nat, nat)>)
    returns (begin': Option<nat>, found': seq<Number>, ghost done': seq<(nat, nat)>)
    requires charNum < |line| && (begin.Some? ==> begin.value < charNum)
    requires found == ToNumbers(lineNum, done)
    requires done + Pending(line, charNum, begin) == RunsFrom(line, 0)
    ensures begin'.Some? ==> begin'.value <= charNum
    ensures found' == ToNumbers(lineNum, done')
    ensures done' + Pending(line, charNum + 1, begin') == RunsFrom(line, 0)
  {
    var isDigit := IsDigit(line[charNum]);
    if isDigit && begin.None? {
      PendingOpen(line, charNum);
      begin', found', done' := Some(charNum), found, done;
    } else if !isDigit && begin.Some? {
      var run: (nat, nat) := (begin.value, charNum);
      CloseStep(line, lineNum, done, charNum, run.0);
      begin', found', done' := None, found + [Number(lineNum, run)], done + [run];
    } else {
      PendingSkip(line, charNum, begin);
      begin', found', done' := begin, found, done;
    }
  }

  /** Closing the open run at a non-digit keeps the scan's invariant. */
  lemma CloseStep(line: seq<char>, ln: nat, done: seq<(nat, nat)>, k: nat, b: nat)
    requires k < |line| && !IsDigit(line[k])
    requires done + Pending(line, k, Some(b)) == RunsFrom(line, 0)
    ensures (done + [(b, k)]) + Pending(line, k + 1, None) == RunsFrom(line, 0)
    ensures ToNumbers(ln, done + [(b, k)]) == ToNumbers(ln, done) + [Number(ln, (b, k))]
  {
    PendingClose(line, k, b);
    CloseRun(ln, done, (b, k), Pending(line, k + 1, None));
  }

  /** Closing the run still open at the end of the line yields the last run. */
  lemma EndStep(line: seq<char>, ln: nat, done: seq<(nat, nat)>, b: nat)
    requires done + Pending(line, |line|, Some(b)) == RunsFrom(line, 0)
    ensures done + [(b, |line|)] == RunsFrom(line, 0)
    ensures ToNumbers(ln, done + [(b, |line|)]) == ToNumbers(ln, done) + [Number(ln, (b, |line|))]
  {
    PendingEnd(line, Some(b));
    CloseRun(ln, done, (b, |line|), []);
  }

  // ---------------------------------------------------------------------------
  // has_adjacent_symbol
  // ---------------------------------------------------------------------------

  /** `s[a:b]` with Python's clamping to the string. */
  function PySlice(s: string, a: nat, b: nat): (t: string)
    ensures |t| <= |s|
  {
    var lo := if a < |s| then a else |s|;
    var hi := if b < lo then lo else if b < |s| then b else |s|;
    s[lo..hi]
  }

  /** `any(is_symbol(c) for c in s)`. */
  predicate AnySymbol(s: string)
  {
    exists i :: 0 <= i < |s| && IsSymbol(s[i])
  }

  /** Checks the cells just before and just after the number on its own line, then
      the columns from one before to one after it on the lines above and below,
      clamped to the number's own line. */
  function HasAdjacentSymbol(n: Number, lines: seq<string>): bool
    requires n.lineNumber < |lines| && n.span.0 < n.span.1 <= |lines[n.lineNumber]|
  {
    var lineNum := n.lineNumber;
    var lineLen := |lines[lineNum]|;
    var leftmost := Leftmost(n);
    var rightmost: nat := Rightmost(n, lineLen);
    if IsSymbol(lines[lineNum][leftmost]) || IsSymbol(lines[lineNum][rightmost]) then
      true
    else if lineNum >= 1 && AnySymbol(PySlice(lines[lineNum - 1], leftmost, rightmost + 1)) then
      true
    else
      lineNum + 1 < |lines| && AnySymbol(PySlice(lines[lineNum + 1], leftmost, rightmost + 1))
  }

  /** A symbol stands at row `x`, column `y` of the schematic. */
  predicate SymbolAt(lines: seq<string>, x: int, y: int)
  {
    0 <= x < |lines| && 0 <= y < |lines[x]| && IsSymbol(lines[x][y])
  }

  /** The columns `has_adjacent_symbol` looks at: one before the number to one
      after it, clamped to the number's line. */
  function Leftmost(n: Number): nat
  {
    if n.span.0 == 0 then 0 else n.span.0 - 1
  }

  function Rightmost(n: Number, lineLen: nat): int
  {
    if lineLen - 1 < n.span.1 then lineLen - 1 else n.span.1
  }

  /** Cell `i` of a Python slice is cell `a + i` of the string. */
  lemma PySliceAt(t: string, a: nat, b: nat, i: nat)
    requires i < |PySlice(t, a, b)|
    ensures a + i < |t| && a + i < b && PySlice(t, a, b)[i] == t[a + i]
  {
  }

  /** Cell `a + i` of the string, within the slice bounds, is cell `i` of the slice. */
  lemma PySliceHas(t: string, a: nat, b: nat, y: nat)
    requires a <= y < b && y < |t|
    ensures y - a < |PySlice(t, a, b)| && PySlice(t, a, b)[y - a] == t[y]
  {
  }

  lemma RingWitness(n: Number, lines: seq<string>, x: int, y: int)
    requires n.lineNumber < |lines|
    requires IsAdjacent(n, x, y) && y < |lines[n.lineNumber]| && SymbolAt(lines, x, y)
    ensures exists x, y :: IsAdjacent(n, x, y) && y < |lines[n.lineNumber]| && SymbolAt(lines, x, y)
  {
  }

  /** A symbol among the checked columns of the line above or below is in the
      ring. */
  lemma SymbolInRow(n: Number, lines: seq<string>, x: nat)
    requires ValidNumber(lines, n) && x < |lines| && (x + 1 == n.lineNumber || x == n.lineNumber + 1)
    requires AnySymbol(PySlice(lines[x], Leftmost(n), Rightmost(n, |lines[n.lineNumber]|) + 1))
    ensures exists x, y :: IsAdjacent(n, x, y) && y < |lines[n.lineNumber]| && SymbolAt(lines, x, y)
  {
    var left := Leftmost(n);
    var right := Rightmost(n, |lines[n.lineNumber]|) + 1;
    var row := PySlice(lines[x], left, right);
    var i :| 0 <= i < |row| && IsSymbol(row[i]);
    PySliceAt(lines[x], left, right, i);
    RingWitness(n, lines, x, left + i);
  }

  /** A symbol that `has_adjacent_symbol` finds is in the ring around the number. */
  lemma SymbolFound(n: Number, lines: seq<string>)
    requires ValidNumber(lines, n) && HasAdjacentSymbol(n, lines)
    ensures exists x, y :: IsAdjacent(n, x, y) && y < |lines[n.lineNumber]| && SymbolAt(lines, x, y)
  {
    var ln := n.lineNumber;
    var left := Leftmost(n);
    var right: nat := Rightmost(n, |lines[ln]|);
    if IsSymbol(lines[ln][left]) {
      RingWitness(n, lines, ln, left);
    } else if IsSymbol(lines[ln][right]) {
      RingWitness(n, lines, ln, right);
    } else if ln >= 1 && AnySymbol(PySlice(lines[ln - 1], left, right + 1)) {
      SymbolInRow(n, lines, ln - 1);
    } else {
      SymbolInRow(n, lines, ln + 1);
    }
  }

  /** A symbol in the ring around the number, within its line's width, is found. */
  lemma SymbolChecked(n: Number, lines: seq<string>, x: int, y: int)
    requires ValidNumber(lines, n) && IsAdjacent(n, x, y) && y < |lines[n.lineNumber]| && SymbolAt(lines, x, y)
    ensures HasAdjacentSymbol(n, lines)
  {
    var ln := n.lineNumber;
    var left := Leftmost(n);
    var right := Rightmost(n, |lines[ln]|);
    if x == ln {
      assert y == left || y == right;
    } else {
      PySliceHas(lines[x], left, right + 1, y);
    }
  }

  /** A number has an adjacent symbol exactly when some cell of the ring around it
      holds one, counting only columns within the number's own line. */
  lemma AdjacentSymbolMeaning(n: Number, lines: seq<string>)
    requires ValidNumber(lines, n)
    ensures HasAdjacentSymbol(n, lines) <==>
            exists x, y :: IsAdjacent(n, x, y) && y < |lines[n.lineNumber]| && SymbolAt(lines, x, y)
  {
    if HasAdjacentSymbol(n, lines) {
      SymbolFound(n, lines);
    }
    if exists x, y :: IsAdjacent(n, x, y) && y < |lines[n.lineNumber]| && SymbolAt(lines, x, y) {
      var x, y :| IsAdjacent(n, x, y) && y < |lines[n.lineNumber]| && SymbolAt(lines, x, y);
      SymbolChecked(n, lines, x, y);
    }
  }

  // ---------------------------------------------------------------------------
  // part1
  // ---------------------------------------------------------------------------

  /** The value of a number of the schematic: `int` of its slice of its line. */
  function NumberValue(lines: seq<string>, n: Number): nat
    requires ValidNumber(lines, n)
  {
    Value(lines[n.lineNumber][n.span.0..n.span.1])
  }

  /** The sum of the values of those of `ns` that have an adjacent symbol. */
  function PartSum(lines: seq<string>, ns: seq<Number>): nat
    requires AllValid(lines, ns)
  {
    if ns == [] then 0
    else
      var last := ns[|ns| - 1];
      PartSum(lines, ns[..|ns| - 1]) + (if HasAdjacentSymbol(last, lines) then NumberValue(lines, last) else 0)
  }

  /** One more number extends the sum by that number's contribution. */
  lemma PartSumSnoc(lines: seq<string>, ns: seq<Number>, i: nat, total: nat)
    requires AllValid(lines, ns) && i < |ns| && total == PartSum(lines, ns[..i])
    ensures PartSum(lines, ns[..i + 1]) ==
            total + (if HasAdjacentSymbol(ns[i], lines) then NumberValue(lines, ns[i]) else 0)
  {
    assert ns[..i + 1][..i] == ns[..i];
  }

  /** A schematic without symbols has no part numbers. */
  lemma {:induction false} NoSymbolNoParts(lines: seq<string>, ns: seq<Number>)
    requires AllValid(lines, ns)
    requires forall x, y :: !SymbolAt(lines, x, y)
    ensures PartSum(lines, ns) == 0
  {
    if ns != [] {
      NoSymbolNoParts(lines, ns[..|ns| - 1]);
      AdjacentSymbolMeaning(ns[|ns| - 1], lines);
    }
  }

  /** Sums the values of the numbers with an adjacent symbol. */
  method Part1(lines: seq<string>) returns (s: nat)
    ensures s == PartSum(lines, Numbers(lines, |lines|))
  {
    var numbers := FindNumbers(lines);
    s := 0;
    for i := 0 to |numbers|
      invariant s == PartSum(lines, numbers[..i])
    {
      var number := numbers[i];
      PartSumSnoc(lines, numbers, i, s);
      if HasAdjacentSymbol(number, lines) {
        var num := NumberValue(lines, number);
        s := s + num;
      }
    }
    assert numbers[..|numbers|] == numbers;
  }

  // ---------------------------------------------------------------------------
  // find_gear_candidates
  // ---------------------------------------------------------------------------

  /** The `*` cells of `line` (line number `r`) before column `c`, left to right. */
  function RowGears(r: nat, line: string, c: nat): (gs: seq<(nat, nat)>)
    requires c <= |line|
    ensures forall i :: 0 <= i < |gs| ==> gs[i].0 == r && gs[i].1 < c
  {
    if c == 0 then []
    else RowGears(r, line, c - 1) + (if line[c - 1] == '*' then [(r, c - 1)] else [])
  }

  /** The `*` cells of the first `n` lines in reading order. */
  function GearCandidates(lines: seq<string>, n: nat): (gs: seq<(nat, nat)>)
    requires n <= |lines|
    ensures forall i :: 0 <= i < |gs| ==> gs[i].0 < n
  {
    if n == 0 then [] else GearCandidates(lines, n - 1) + RowGears(n - 1, lines[n - 1], |lines[n - 1]|)
  }

  /** Row-major order, strictly. */
  predicate Before(a: (nat, nat), b: (nat, nat))
  {
    a.0 < b.0 || (a.0 == b.0 && a.1 < b.1)
  }

  lemma {:induction false} RowGearsSpec(r: nat, line: string, c: nat)
    requires c <= |line|
    ensures forall g :: g in RowGears(r, line, c) <==> g.0 == r && g.1 < c && line[g.1] == '*'
    ensures forall i, j :: 0 <= i < j < |RowGears(r, line, c)| ==>
              Before(RowGears(r, line, c)[i], RowGears(r, line, c)[j])
  {
    if c > 0 {
      RowGearsSpec(r, line, c - 1);
    }
  }

  /** `find_gear_candidates` yields every `*` exactly once, in reading order. */
  lemma {:induction false} GearCandidatesSpec(lines: seq<string>, n: nat)
    requires n <= |lines|
    ensures forall g :: g in GearCandidates(lines, n) <==>
              g.0 < n && g.1 < |lines[g.0]| && lines[g.0][g.1] == '*'
    ensures forall i, j :: 0 <= i < j < |GearCandidates(lines, n)| ==>
              Before(GearCandidates(lines, n)[i], GearCandidates(lines, n)[j])
  {
    if n > 0 {
      GearCandidatesSpec(lines, n - 1);
      RowGearsSpec(n - 1, lines[n - 1], |lines[n - 1]|);
    }
  }

  /** Walks every line and every column, collecting the `*` cells. */
  method FindGearCandidates(lines: seq<string>) returns (gears: seq<(nat, nat)>)
    ensures gears == GearCandidates(lines, |lines|)
  {
    gears := [];
    for lineNum := 0 to |lines|
      invariant gears == GearCandidates(lines, lineNum)
    {
      var line := lines[lineNum];
      for charNum := 0 to |line|
        invariant gears == GearCandidates(lines, lineNum) + RowGears(lineNum, line, charNum)
      {
        if line[charNum] == '*' {
          gears := gears + [(lineNum, charNum)];
        }
      }
    }
  }

  // ---------------------------------------------------------------------------
  // part2
  // ---------------------------------------------------------------------------

  /** Those of `ns` adjacent to cell (`x`, `y`), in order. */
  function AdjacentTo(ns: seq<Number>, x: int, y: int): (a: seq<Number>)
    ensures |a| <= |ns| && forall k :: 0 <= k < |a| ==> a[k] in ns
  {
    if ns == [] then []
    else AdjacentTo(ns[..|ns| - 1], x, y) + (if IsAdjacent(ns[|ns| - 1], x, y) then [ns[|ns| - 1]] else [])
  }

  /** The product of the values of `ns`. */
  function Product(lines: seq<string>, ns: seq<Number>): nat
    requires AllValid(lines, ns)
  {
    if ns == [] then 1 else Product(lines, ns[..|ns| - 1]) * NumberValue(lines, ns[|ns| - 1])
  }

  /** A gear's ratio: the product of its two adjacent numbers, or nothing for a `*`
      with any other count. */
  function GearRatio(lines: seq<string>, ns: seq<Number>, g: (nat, nat)): nat
    requires AllValid(lines, ns)
  {
    AdjacentToValid(lines, ns, g.0, g.1);
    var a := AdjacentTo(ns, g.0, g.1);
    if |a| == 2 then Product(lines, a) else 0
  }

  /** The ratios of the gears `gs`. */
  function RatioSum(lines: seq<string>, ns: seq<Number>, gs: seq<(nat, nat)>): nat
    requires AllValid(lines, ns)
  {
    if gs == [] then 0 else RatioSum(lines, ns, gs[..|gs| - 1]) + GearRatio(lines, ns, gs[|gs| - 1])
  }

  /** The numbers adjacent to a cell are exactly those of `ns` whose ring holds it. */
  lemma {:induction false} AdjacentToSpec(ns: seq<Number>, x: int, y: int)
    ensures forall m :: m in AdjacentTo(ns, x, y) <==> m in ns && IsAdjacent(m, x, y)
  {
    if ns != [] {
      AdjacentToSpec(ns[..|ns| - 1], x, y);
      assert ns == ns[..|ns| - 1] + [ns[|ns| - 1]];
    }
  }

  lemma AdjacentToValid(lines: seq<string>, ns: seq<Number>, x: int, y: int)
    requires AllValid(lines, ns)
    ensures AllValid(lines, AdjacentTo(ns, x, y))
  {
    var a := AdjacentTo(ns, x, y);
    forall k | 0 <= k < |a|
      ensures ValidNumber(lines, a[k])
    {
      var j :| 0 <= j < |ns| && ns[j] == a[k];
    }
  }

  /** One more gear extends the sum by what the inner loop of `part2` counted for
      it: the product when it found exactly two numbers, nothing otherwise. */
  lemma RatioSumStep(lines: seq<string>, ns: seq<Number>, gs: seq<(nat, nat)>, i: nat, total: nat,
                     count: nat, prod: nat)
    requires AllValid(lines, ns) && i < |gs| && total == RatioSum(lines, ns, gs[..i])
    requires count == |AdjacentTo(ns, gs[i].0, gs[i].1)|
    requires AllValid(lines, AdjacentTo(ns, gs[i].0, gs[i].1))
    requires prod == Product(lines, AdjacentTo(ns, gs[i].0, gs[i].1))
    ensures RatioSum(lines, ns, gs[..i + 1]) == total + if count == 2 then prod else 0
  {
    assert gs[..i + 1][..i] == gs[..i];
  }

  /** A gear with exactly two numbers around it contributes their product; with any
      other count it contributes nothing. */
  lemma GearRatioMeaning(lines: seq<string>, ns: seq<Number>, g: (nat, nat))
    requires AllValid(lines, ns)
    ensures var a := AdjacentTo(ns, g.0, g.1);
            && (forall m :: m in a ==> m in ns && IsAdjacent(m, g.0, g.1))
            && (|a| == 2 ==> GearRatio(lines, ns, g) == NumberValue(lines, a[0]) * NumberValue(lines, a[1]))
            && (|a| != 2 ==> GearRatio(lines, ns, g) == 0)
  {
    AdjacentToSpec(ns, g.0, g.1);
    var a := AdjacentTo(ns, g.0, g.1);
    if |a| == 2 {
      assert a[..1][..0] == [];
      assert Product(lines, a[..1]) == NumberValue(lines, a[0]);
    }
  }

  /** For each `*`, counts the adjacent numbers and multiplies their values, and
      adds the product when there are exactly two. */
  method Part2(lines: seq<string>) returns (s: nat)
    ensures s == RatioSum(lines, Numbers(lines, |lines|), GearCandidates(lines, |lines|))
  {
    ghost var ns := Numbers(lines, |lines|);
    var gears := FindGearCandidates(lines);
    s := 0;
    for i := 0 to |gears|
      invariant s == RatioSum(lines, ns, gears[..i])
    {
      var gear := gears[i];
      var numbers := FindNumbers(lines);
      var numCount, numProd := CountAdjacent(lines, numbers, gear.0, gear.1);
      RatioSumStep(lines, ns, gears, i, s, numCount, numProd);
      if numCount == 2 {
        s := s + numProd;
      }
    }
    assert gears[..|gears|] == gears;
  }

  /** The inner loop of `part2`: how many of `numbers` are adjacent to the cell, and
      the product of their values. */
  method CountAdjacent(lines: seq<string>, numbers: seq<Number>, x: int, y: int) returns (numCount: nat, numProd: nat)
    requires AllValid(lines, numbers)
    ensures numCount == |AdjacentTo(numbers, x, y)|
    ensures AllValid(lines, AdjacentTo(numbers, x, y)) && numProd == Product(lines, AdjacentTo(numbers, x, y))
  {
    numCount := 0;
    numProd := 1;
    ghost var adjacent: seq<Number> := [];
    for j := 0 to |numbers|
      invariant adjacent == AdjacentTo(numbers[..j], x, y) && AllValid(lines, adjacent)
      invariant numCount == |adjacent| && numProd == Product(lines, adjacent)
    {
      assert numbers[..j + 1] == numbers[..j] + [numbers[j]];
      if !IsAdjacent(numbers[j], x, y) {
        continue;
      }
      ProductSnoc(lines, adjacent, numbers[j]);
      numCount := numCount + 1;
      numProd := numProd * NumberValue(lines, numbers[j]);
      adjacent := adjacent + [numbers[j]];
    }
    assert numbers[..|numbers|] == numbers;
  }

  lemma ProductSnoc(lines: seq<string>, a: seq<Number>, m: Number)
    requires AllValid(lines, a) && ValidNumber(lines, m)
    ensures AllValid(lines, a + [m]) && Product(lines, a + [m]) == Product(lines, a) * NumberValue(lines, m)
  {
    assert (a + [m])[..|a|] == a;
  }
}
