/** Cosmic expansion: every row and every column of an image that holds no galaxy
    `#` is doubled, and the answer is the sum of the Manhattan distances between all
    pairs of galaxies in the expanded image. */
module CosmicExpansion {

  // ---------------------------------------------------------------------------
  // Doubling flagged entries
  // ---------------------------------------------------------------------------

  /** The number of set flags. */
  function CountTrue(f: seq<bool>): (n: nat)
    ensures n <= |f|
  {
    if f == [] then 0 else (if f[0] then 1 else 0) + CountTrue(f[1..])
  }

  /** `n` cleared flags. */
  function Falses(n: nat): (f: seq<bool>)
    ensures |f| == n && forall i :: 0 <= i < n ==> !f[i]
  {
    seq(n, i => false)
  }

  /** Each entry of `s` in order, followed by a second copy where its flag is set. */
  function Double<T>(s: seq<T>, f: seq<bool>): (r: seq<T>)
    requires |f| == |s|
    ensures |r| == |s| + CountTrue(f)
  {
    if s == [] then [] else (if f[0] then [s[0], s[0]] else [s[0]]) + Double(s[1..], f[1..])
  }

  /** Counting set flags splits over concatenation. */
  lemma {:induction false} CountTrueAppend(a: seq<bool>, b: seq<bool>)
    ensures CountTrue(a + b) == CountTrue(a) + CountTrue(b)
  {
    if a == [] {
      assert a + b == b;
    } else {
      assert (a + b)[1..] == a[1..] + b;
      CountTrueAppend(a[1..], b);
    }
  }

  /** Doubling splits over concatenation. */
  lemma {:induction false} DoubleAppend<T>(a: seq<T>, fa: seq<bool>, b: seq<T>, fb: seq<bool>)
    requires |fa| == |a| && |fb| == |b|
    ensures Double(a + b, fa + fb) == Double(a, fa) + Double(b, fb)
  {
    if a == [] {
      assert a + b == b && fa + fb == fb;
    } else {
      assert (a + b)[1..] == a[1..] + b && (fa + fb)[1..] == fa[1..] + fb;
      DoubleAppend(a[1..], fa[1..], b, fb);
    }
  }

  /** Without set flags nothing is doubled. */
  lemma {:induction false} DoubleNone<T>(s: seq<T>, f: seq<bool>)
    requires |f| == |s| && forall i :: 0 <= i < |f| ==> !f[i]
    ensures Double(s, f) == s
  {
    if s != [] {
      DoubleNone(s[1..], f[1..]);
    }
  }

  /** Doubling adds only copies of entries already there. */
  lemma {:induction false} DoubleIn<T>(s: seq<T>, f: seq<bool>, x: T)
    requires |f| == |s| && x in Double(s, f)
    ensures x in s
  {
    if x != s[0] {
      DoubleIn(s[1..], f[1..], x);
    }
  }

  /** Doubling splits at any point. */
  lemma DoubleSplit<T>(s: seq<T>, f: seq<bool>, p: nat)
    requires |f| == |s| && p <= |s|
    ensures Double(s, f) == Double(s[..p], f[..p]) + Double(s[p..], f[p..])
  {
    TakeDrop(s, p);
    TakeDrop(f, p);
    DoubleAppend(s[..p], f[..p], s[p..], f[p..]);
  }

  /** A sequence is its first `p` entries followed by the rest. */
  lemma TakeDrop<T>(s: seq<T>, p: nat)
    requires p <= |s|
    ensures s[..p] + s[p..] == s
  {
  }

  /** Once flags from `p` on are all clear, the first `p` doubled and the rest as
      they are is the whole doubled. */
  lemma DoubleDone<T>(s: seq<T>, f: seq<bool>, p: nat)
    requires |f| == |s| && p <= |s| && forall j :: p <= j < |s| ==> !f[j]
    ensures Double(s[..p], f[..p]) + s[p..] == Double(s, f)
  {
    DoubleNone(s[p..], f[p..]);
    DoubleSplit(s, f, p);
  }

  /** `flags.index(True)`: the first set flag. */
  function FirstTrue(f: seq<bool>): (i: nat)
    requires true in f
    ensures i < |f| && f[i] && forall j :: 0 <= j < i ==> !f[j]
  {
    if f[0] then 0 else 1 + FirstTrue(f[1..])
  }

  /** One round of an expansion loop, on the flags: when the first `p` original
      entries are done, the flags are cleared for the `m` entries they became, and
      the next set flag is original entry `p + q`. Clearing it and shifting every
      flag by one clears the flags of the `m + q + 2` entries the first `p + q + 1`
      originals become. */
  lemma FlagStep(f: seq<bool>, p: nat, m: nat)
    requires p <= |f| && true in f[p..]
    ensures var flags := Falses(m) + f[p..];
            true in flags &&
            var q := FirstTrue(flags) - m;
            && m <= FirstTrue(flags) && p + q < |f| && f[p + q]
            && (forall j :: p <= j < p + q ==> !f[j])
            && [false] + flags[FirstTrue(flags) := false] == Falses(m + q + 2) + f[p + q + 1..]
  {
    var flags := Falses(m) + f[p..];
    var k :| 0 <= k < |f[p..]| && f[p..][k];
    assert flags[m + k];
    var idx := FirstTrue(flags);
    assert m <= idx;
    var q := idx - m;
    forall j | p <= j < p + q
      ensures !f[j]
    {
      assert flags[m + (j - p)] == f[j];
    }
    assert [false] + flags[idx := false] == Falses(m + q + 2) + f[p + q + 1..];
  }

  /** Doubling up to original `p + q` when none of `p .. p + q - 1` is flagged and
      `p + q` is. */
  lemma DoubleThrough<T>(s: seq<T>, f: seq<bool>, p: nat, q: nat)
    requires |f| == |s| && p + q < |s| && f[p + q]
    requires forall j :: p <= j < p + q ==> !f[j]
    ensures Double(s[..p + q + 1], f[..p + q + 1]) == Double(s[..p], f[..p]) + s[p..p + q] + [s[p + q], s[p + q]]
  {
    var mid := s[p..p + q];
    DoubleNone(mid, f[p..p + q]);
    assert s[..p + q + 1] == s[..p] + (mid + [s[p + q]]);
    assert f[..p + q + 1] == f[..p] + (f[p..p + q] + [f[p + q]]);
    DoubleAppend(s[..p], f[..p], mid + [s[p + q]], f[p..p + q] + [f[p + q]]);
    DoubleAppend(mid, f[p..p + q], [s[p + q]], [f[p + q]]);
    assert Double([s[p + q]], [f[p + q]]) == [s[p + q], s[p + q]];
  }

  /** One round of an expansion loop, on the entries: with the first `p` originals
      doubled as flagged and the rest untouched, inserting a copy of original
      `p + q` in front of it doubles the first `p + q + 1`. */
  lemma InsertStep<T>(s: seq<T>, f: seq<bool>, p: nat, q: nat)
    requires |f| == |s| && p + q < |s| && f[p + q]
    requires forall j :: p <= j < p + q ==> !f[j]
    ensures var d := Double(s[..p], f[..p]);
            var cur := d + s[p..];
            var idx := |d| + q;
            && idx <= |cur|
            && cur[..idx] + [s[p + q]] + cur[idx..] == Double(s[..p + q + 1], f[..p + q + 1]) + s[p + q + 1..]
            && |Double(s[..p + q + 1], f[..p + q + 1])| == |d| + q + 2
  {
    var d := Double(s[..p], f[..p]);
    var cur := d + s[p..];
    var idx := |d| + q;
    DoubleThrough(s, f, p, q);
    assert cur[..idx] == d + s[p..p + q];
    assert cur[idx..] == s[p + q..];
    assert s[p + q..] == [s[p + q]] + s[p + q + 1..];
  }

  /** No set flag, no count. */
  lemma {:induction false} CountTrueNone(f: seq<bool>)
    requires forall i :: 0 <= i < |f| ==> !f[i]
    ensures CountTrue(f) == 0
  {
    if f != [] {
      CountTrueNone(f[1..]);
    }
  }

  /** Passing clear flags and then one set flag counts one more. */
  lemma CountTrueStep(f: seq<bool>, p: nat, q: nat)
    requires p + q < |f| && f[p + q] && forall j :: p <= j < p + q ==> !f[j]
    ensures CountTrue(f[..p + q + 1]) == CountTrue(f[..p]) + 1
  {
    assert f[..p + q + 1] == f[..p] + f[p..p + q] + [f[p + q]];
    CountTrueAppend(f[..p] + f[p..p + q], [f[p + q]]);
    CountTrueAppend(f[..p], f[p..p + q]);
    CountTrueNone(f[p..p + q]);
    assert CountTrue([f[p + q]]) == 1;
  }

  /** A flag still set after the `m` cleared ones is one of the originals from `p`
      on. */
  lemma FlagsRemain(f: seq<bool>, p: nat, m: nat, flags: seq<bool>)
    requires p <= |f| && flags == Falses(m) + f[p..] && true in flags
    ensures true in f[p..]
  {
    var k :| 0 <= k < |flags| && flags[k];
    assert f[p..][k - m] == flags[k];
  }

  /** One round of an expansion loop on the flags, with the first `p` originals
      done: the first set flag belongs to original `p2 - 1`, and clearing it and
      shifting every flag by one leaves the first `p2` originals done. */
  lemma FlagRound(f: seq<bool>, p: nat, flags: seq<bool>) returns (p2: nat)
    requires p <= |f| && flags == Falses(p + CountTrue(f[..p])) + f[p..] && true in flags
    ensures p < p2 <= |f| && f[p2 - 1] && forall j :: p <= j < p2 - 1 ==> !f[j]
    ensures FirstTrue(flags) == p2 - 1 + CountTrue(f[..p])
    ensures [false] + flags[FirstTrue(flags) := false] == Falses(p2 + CountTrue(f[..p2])) + f[p2..]
  {
    var m := p + CountTrue(f[..p]);
    FlagsRemain(f, p, m, flags);
    FlagStep(f, p, m);
    var q := FirstTrue(flags) - m;
    CountTrueStep(f, p, q);
    p2 := p + q + 1;
  }

  /** One round of an expansion loop on the entries: inserting `x`, the value of
      original `p2 - 1`, in front of where that original now stands leaves the first
      `p2` originals doubled. */
  lemma EntryRound<T>(s: seq<T>, f: seq<bool>, p: nat, p2: nat, cur: seq<T>, x: T)
    requires |f| == |s| && p < p2 <= |s| && f[p2 - 1] && forall j :: p <= j < p2 - 1 ==> !f[j]
    requires s[p2 - 1] == x && cur == Double(s[..p], f[..p]) + s[p..]
    ensures var idx := p2 - 1 + CountTrue(f[..p]);
            idx <= |cur| && cur[..idx] + [x] + cur[idx..] == Double(s[..p2], f[..p2]) + s[p2..]
  {
    InsertStep(s, f, p, p2 - 1 - p);
  }

  /** When no flag is left, every original from `p` on is unflagged. */
  lemma FlagsDone(f: seq<bool>, p: nat, flags: seq<bool>)
    requires p <= |f| && flags == Falses(p + CountTrue(f[..p])) + f[p..] && !(true in flags)
    ensures forall j :: p <= j < |f| ==> !f[j]
  {
    forall j | p <= j < |f|
      ensures !f[j]
    {
      assert flags[p + CountTrue(f[..p]) + (j - p)] == f[j];
    }
  }

  // ---------------------------------------------------------------------------
  // expand
  // ---------------------------------------------------------------------------

  /** Every row has width `w`. */
  predicate Rectangular(g: seq<seq<char>>, w: nat)
  {
    forall r :: 0 <= r < |g| ==> |g[r]| == w
  }

  /** A row of empty space only. */
  predicate EmptyLine(line: seq<char>)
  {
    forall i :: 0 <= i < |line| ==> line[i] == '.'
  }

  /** Column `c` holds empty space in every row. */
  predicate EmptyColumn(g: seq<seq<char>>, c: nat)
  {
    forall r :: 0 <= r < |g| ==> c < |g[r]| && g[r][c] == '.'
  }

  /** Which rows are empty. */
  function RowFlags(g: seq<seq<char>>): (f: seq<bool>)
    ensures |f| == |g| && forall r :: 0 <= r < |g| ==> (f[r] <==> EmptyLine(g[r]))
  {
    seq(|g|, r requires 0 <= r < |g| => EmptyLine(g[r]))
  }

  /** Which of the `w` columns are empty. */
  function ColFlags(g: seq<seq<char>>, w: nat): (f: seq<bool>)
    ensures |f| == w && forall c :: 0 <= c < w ==> (f[c] <==> EmptyColumn(g, c))
  {
    seq(w, c requires 0 <= c < w => EmptyColumn(g, c))
  }

  /** Each row with the flagged columns doubled. */
  function Widen(rows: seq<seq<char>>, cols: seq<bool>): (r: seq<seq<char>>)
    requires Rectangular(rows, |cols|)
    ensures |r| == |rows| && forall i :: 0 <= i < |rows| ==> r[i] == Double(rows[i], cols)
  {
    seq(|rows|, i requires 0 <= i < |rows| => Double(rows[i], cols))
  }

  /** The expanded image: each empty column doubled in every row, and each empty row
      doubled. */
  function Expanded(g: seq<seq<char>>, w: nat): seq<seq<char>>
    requires Rectangular(g, w)
  {
    Double(Widen(g, ColFlags(g, w)), RowFlags(g))
  }

  /** Doubling rows and widening them can be done in either order. */
  lemma {:induction false} WidenDouble(rows: seq<seq<char>>, f: seq<bool>, cols: seq<bool>)
    requires |f| == |rows| && Rectangular(rows, |cols|)
    ensures Rectangular(Double(rows, f), |cols|)
    ensures Widen(Double(rows, f), cols) == Double(Widen(rows, cols), f)
  {
    if rows != [] {
      WidenDouble(rows[1..], f[1..], cols);
      var head := if f[0] then [rows[0], rows[0]] else [rows[0]];
      assert Double(rows, f) == head + Double(rows[1..], f[1..]);
      assert Widen(rows, cols)[1..] == Widen(rows[1..], cols);
    }
  }

  /** `n` cells of empty space. */
  function Dots(n: nat): (line: seq<char>)
    ensures |line| == n && EmptyLine(line)
  {
    seq(n, i => '.')
  }

  /** A row of empty space is `Dots` of its width. */
  lemma EmptyDots(line: seq<char>, n: nat)
    requires |line| == n && EmptyLine(line)
    ensures line == Dots(n)
  {
  }

  /** Flags the empty rows and columns, then expands the rows and then the
      columns. */
  method Expand(galaxy: seq<seq<char>>) returns (expanded: seq<seq<char>>)
    requires |galaxy| > 0 && Rectangular(galaxy, |galaxy[0]|)
    ensures expanded == Expanded(galaxy, |galaxy[0]|)
  {
    var numRows := |galaxy|;
    var numCols := |galaxy[0]|;
    ghost var F := RowFlags(galaxy);
    ghost var C := ColFlags(galaxy, numCols);

    var expandRow := [];
    for rownum := 0 to numRows
      invariant expandRow == F[..rownum]
    {
      expandRow := expandRow + [EmptyLine(galaxy[rownum])];
    }
    var expandCol := [];
    for colnum := 0 to numCols
      invariant expandCol == C[..colnum]
    {
      expandCol := expandCol + [EmptyColumn(galaxy, colnum)];
    }
    assert expandRow == F[..|F|] == F && expandCol == C[..|C|] == C;

    var g := ExpandRows(galaxy, numCols, expandRow);
    RowsOfExpanded(galaxy, numCols);
    expanded := ExpandColumns(g, expandCol);
    WidenDouble(galaxy, F, C);
  }

  /** One round of the row loop: the first flagged row is the empty row of
      original `p2 - 1`, and inserting empty space in front of it leaves the
      first `p2` rows doubled. */
  lemma RowRound(galaxy: seq<seq<char>>, numCols: nat, F: seq<bool>, p: nat, g: seq<seq<char>>, expandRow: seq<bool>)
    returns (p2: nat)
    requires Rectangular(galaxy, numCols) && F == RowFlags(galaxy)
    requires p <= |galaxy| && g == Double(galaxy[..p], F[..p]) + galaxy[p..]
    requires expandRow == Falses(p + CountTrue(F[..p])) + F[p..] && true in expandRow
    ensures p < p2 <= |galaxy|
    ensures FirstTrue(expandRow) <= |g|
    ensures g[..FirstTrue(expandRow)] + [Dots(numCols)] + g[FirstTrue(expandRow)..]
            == Double(galaxy[..p2], F[..p2]) + galaxy[p2..]
    ensures [false] + expandRow[FirstTrue(expandRow) := false] == Falses(p2 + CountTrue(F[..p2])) + F[p2..]
  {
    p2 := FlagRound(F, p, expandRow);
    EmptyDots(galaxy[p2 - 1], numCols);
    EntryRound(galaxy, F, p, p2, g, Dots(numCols));
  }

  /** The row loop: while a row is still flagged, inserts a row of empty space in
      front of the first flagged one, clears its flag and shifts the flags along
      with the rows. */
  method ExpandRows(galaxy: seq<seq<char>>, numCols: nat, flags: seq<bool>) returns (g: seq<seq<char>>)
    requires Rectangular(galaxy, numCols) && flags == RowFlags(galaxy)
    ensures g == Double(galaxy, flags)
  {
    g := galaxy;
    var expandRow := flags;
    var numRows := |g|;
    ghost var F := flags;
    ghost var p := 0;
    while true in expandRow
      invariant p <= |galaxy| && numRows == |g|
      invariant g == Double(galaxy[..p], F[..p]) + galaxy[p..]
      invariant expandRow == Falses(p + CountTrue(F[..p])) + F[p..]
      decreases |galaxy| - p
    {
      ghost var p2 := RowRound(galaxy, numCols, F, p, g, expandRow);
      var idx := FirstTrue(expandRow);
      g := g[..idx] + [Dots(numCols)] + g[idx..];
      expandRow := [false] + expandRow[idx := false];
      numRows := numRows + 1;
      p := p2;
    }
    FlagsDone(F, p, expandRow);
    DoubleDone(galaxy, F, p);
  }

  /** The column loop: while a column is still flagged, inserts empty space in front
      of the first flagged column of every row, clears its flag and shifts the flags
      along with the columns. */
  method ExpandColumns(R: seq<seq<char>>, flags: seq<bool>) returns (g: seq<seq<char>>)
    requires forall r :: 0 <= r < |R| ==> |R[r]| == |flags|
    requires forall r, c :: 0 <= r < |R| && 0 <= c < |flags| && flags[c] ==> R[r][c] == '.'
    ensures |g| == |R| && forall r :: 0 <= r < |R| ==> g[r] == Double(R[r], flags)
  {
    g := R;
    var expandCol := flags;
    ghost var C := flags;
    ghost var pc := 0;
    while true in expandCol
      invariant pc <= |C| && |g| == |R|
      invariant forall r :: 0 <= r < |R| ==> g[r] == Double(R[r][..pc], C[..pc]) + R[r][pc..]
      invariant expandCol == Falses(pc + CountTrue(C[..pc])) + C[pc..]
      decreases |C| - pc
    {
      ghost var p2 := FlagRound(C, pc, expandCol);
      var idx := FirstTrue(expandCol);
      ghost var before := g;
      forall r | 0 <= r < |R|
        ensures idx <= |before[r]|
        ensures before[r][..idx] + ['.'] + before[r][idx..] == Double(R[r][..p2], C[..p2]) + R[r][p2..]
      {
        EntryRound(R[r], C, pc, p2, before[r], '.');
      }
      g := InsertColumn(g, idx);
      expandCol := [false] + expandCol[idx := false];
      pc := p2;
    }
    FlagsDone(C, pc, expandCol);
    forall r | 0 <= r < |R|
      ensures g[r] == Double(R[r], C)
    {
      DoubleDone(R[r], C, pc);
    }
  }

  /** The rows doubled, before any column is: each as wide as before, and every
      flagged column is empty in each. */
  lemma RowsOfExpanded(galaxy: seq<seq<char>>, w: nat)
    requires Rectangular(galaxy, w)
    ensures var R := Double(galaxy, RowFlags(galaxy));
            forall r :: 0 <= r < |R| ==>
              |R[r]| == w && forall c :: 0 <= c < w && ColFlags(galaxy, w)[c] ==> R[r][c] == '.'
  {
    var R := Double(galaxy, RowFlags(galaxy));
    forall r | 0 <= r < |R|
      ensures |R[r]| == w && forall c :: 0 <= c < w && ColFlags(galaxy, w)[c] ==> R[r][c] == '.'
    {
      DoubleIn(galaxy, RowFlags(galaxy), R[r]);
    }
  }

  /** `galaxy[rownum].insert(idx, ".")` for every row. */
  method InsertColumn(g: seq<seq<char>>, idx: nat) returns (h: seq<seq<char>>)
    requires forall r :: 0 <= r < |g| ==> idx <= |g[r]|
    ensures |h| == |g| && forall r :: 0 <= r < |g| ==> h[r] == g[r][..idx] + ['.'] + g[r][idx..]
  {
    h := g;
    for rownum := 0 to |g|
      invariant |h| == |g|
      invariant forall r :: 0 <= r < rownum ==> h[r] == g[r][..idx] + ['.'] + g[r][idx..]
      invariant forall r :: rownum <= r < |g| ==> h[r] == g[r]
    {
      h := h[rownum := h[rownum][..idx] + ['.'] + h[rownum][idx..]];
    }
  }

  // ---------------------------------------------------------------------------
  // Where a galaxy ends up
  // ---------------------------------------------------------------------------

  /** Original entry `i` stands at `i` plus the number of flags set before it. */
  lemma {:induction false} DoublePosition<T>(s: seq<T>, f: seq<bool>, i: nat)
    requires |f| == |s| && i < |s|
    ensures i + CountTrue(f[..i]) < |Double(s, f)|
    ensures Double(s, f)[i + CountTrue(f[..i])] == s[i]
  {
    if i > 0 {
      DoublePosition(s[1..], f[1..], i - 1);
      assert f[..i][1..] == f[1..][..i - 1];
    }
  }

  /** The galaxy at row `r`, column `c` of the image stands, once expanded, at row
      `r` plus the number of empty rows above it and column `c` plus the number of
      empty columns to its left. */
  lemma GalaxyMoves(g: seq<seq<char>>, w: nat, r: nat, c: nat)
    requires Rectangular(g, w) && r < |g| && c < w
    ensures var e := Expanded(g, w);
            var r' := r + CountTrue(RowFlags(g)[..r]);
            var c' := c + CountTrue(ColFlags(g, w)[..c]);
            r' < |e| && c' < |e[r']| && e[r'][c'] == g[r][c]
  {
    var C := ColFlags(g, w);
    var wide := Widen(g, C);
    DoublePosition(wide, RowFlags(g), r);
    DoublePosition(g[r], C, c);
  }

  /** Every row of the expanded image is a row of the image widened, so it holds a
      galaxy only where that row does. */
  lemma ExpandedRows(g: seq<seq<char>>, w: nat, row: seq<char>)
    requires Rectangular(g, w) && row in Expanded(g, w)
    ensures exists r :: 0 <= r < |g| && row == Double(g[r], ColFlags(g, w))
  {
    var wide := Widen(g, ColFlags(g, w));
    DoubleIn(wide, RowFlags(g), row);
    var r :| 0 <= r < |wide| && wide[r] == row;
  }

  // ---------------------------------------------------------------------------
  // get_galaxy_coords
  // ---------------------------------------------------------------------------

  /** A (row, column) position. */
  type Coord = (nat, nat)

  /** The galaxies of `row` (row number `r`) before column `c`, left to right.
      This is the row scan of `GearRatios.RowGears` with `#` for `*`; as in the
      source files, each day has its own copy. */
  function RowGalaxies(r: nat, row: seq<char>, c: nat): (cs: seq<Coord>)
    requires c <= |row|
    ensures forall i :: 0 <= i < |cs| ==> cs[i].0 == r && cs[i].1 < c
  {
    if c == 0 then []
    else RowGalaxies(r, row, c - 1) + (if row[c - 1] == '#' then [(r, c - 1)] else [])
  }

  /** The galaxies of the first `n` rows, row by row and left to right. */
  function Galaxies(g: seq<seq<char>>, n: nat): (cs: seq<Coord>)
    requires n <= |g|
    ensures forall i :: 0 <= i < |cs| ==> cs[i].0 < n
  {
    if n == 0 then [] else Galaxies(g, n - 1) + RowGalaxies(n - 1, g[n - 1], |g[n - 1]|)
  }

  /** Row-major order, strictly. */
  predicate Before(a: Coord, b: Coord)
  {
    a.0 < b.0 || (a.0 == b.0 && a.1 < b.1)
  }

  /** The galaxies of a row are exactly its `#` cells, left to right. */
  lemma {:induction false} RowGalaxiesSpec(r: nat, row: seq<char>, c: nat)
    requires c <= |row|
    ensures forall x :: x in RowGalaxies(r, row, c) <==> x.0 == r && x.1 < c && row[x.1] == '#'
    ensures forall i, j :: 0 <= i < j < |RowGalaxies(r, row, c)| ==>
              Before(RowGalaxies(r, row, c)[i], RowGalaxies(r, row, c)[j])
  {
    if c > 0 {
      RowGalaxiesSpec(r, row, c - 1);
    }
  }

  /** `get_galaxy_coords` lists exactly the `#` cells, each once, in reading order. */
  lemma {:induction false} GalaxiesSpec(g: seq<seq<char>>, n: nat)
    requires n <= |g|
    ensures forall x :: x in Galaxies(g, n) <==> x.0 < n && x.1 < |g[x.0]| && g[x.0][x.1] == '#'
    ensures forall i, j :: 0 <= i < j < |Galaxies(g, n)| ==> Before(Galaxies(g, n)[i], Galaxies(g, n)[j])
  {
    if n > 0 {
      GalaxiesSpec(g, n - 1);
      RowGalaxiesSpec(n - 1, g[n - 1], |g[n - 1]|);
    }
  }

  /** Walks the rows and, within each, the columns, collecting the `#` cells. */
  method GetGalaxyCoords(g: seq<seq<char>>) returns (galaxies: seq<Coord>)
    ensures galaxies == Galaxies(g, |g|)
  {
    galaxies := [];
    for rownum := 0 to |g|
      invariant galaxies == Galaxies(g, rownum)
    {
      var row := g[rownum];
      for colnum := 0 to |row|
        invariant galaxies == Galaxies(g, rownum) + RowGalaxies(rownum, row, colnum)
      {
        if row[colnum] == '#' {
          galaxies := galaxies + [(rownum, colnum)];
        }
      }
    }
  }

  // ---------------------------------------------------------------------------
  // part1
  // ---------------------------------------------------------------------------

  /** Manhattan distance. */
  function Dist(a: Coord, b: Coord): (d: nat)
    ensures d == 0 <==> a == b
  {
    (if a.0 < b.0 then b.0 - a.0 else a.0 - b.0) + (if a.1 < b.1 then b.1 - a.1 else a.1 - b.1)
  }

  /** Distances from galaxy `i` to galaxies `i + 1 .. j - 1`. */
  function RowSum(cs: seq<Coord>, i: nat, j: nat): nat
    requires i < |cs| && j <= |cs|
  {
    if j <= i + 1 then 0 else RowSum(cs, i, j - 1) + Dist(cs[i], cs[j - 1])
  }

  /** Distances over every pair whose first galaxy comes before `n`. */
  function PairSum(cs: seq<Coord>, n: nat): nat
    requires n <= |cs|
  {
    if n == 0 then 0 else PairSum(cs, n - 1) + RowSum(cs, n - 1, |cs|)
  }

  /** The sum over `combinations(coords, 2)`. */
  function TotalDistance(cs: seq<Coord>): nat
  {
    PairSum(cs, |cs|)
  }

  /** Distances from `x` to each of `cs`. */
  function DistTo(cs: seq<Coord>, x: Coord): nat
  {
    if cs == [] then 0 else DistTo(cs[..|cs| - 1], x) + Dist(cs[|cs| - 1], x)
  }

  /** Extending the list of galaxies by one extends its pairs by one per galaxy
      already listed. */
  lemma {:induction false} RowSumExtend(cs: seq<Coord>, x: Coord, i: nat, j: nat)
    requires i < |cs| && j <= |cs|
    ensures RowSum(cs + [x], i, j) == RowSum(cs, i, j)
  {
    if j > i + 1 {
      RowSumExtend(cs, x, i, j - 1);
    }
  }

  lemma {:induction false} PairSumExtend(cs: seq<Coord>, x: Coord, n: nat)
    requires n <= |cs|
    ensures PairSum(cs + [x], n) == PairSum(cs, n) + DistTo(cs[..n], x)
  {
    if n > 0 {
      PairSumExtend(cs, x, n - 1);
      RowSumExtend(cs, x, n - 1, |cs|);
      assert cs[..n][..n - 1] == cs[..n - 1];
    }
  }

  /** A new galaxy adds its distance to each galaxy already there. */
  lemma TotalDistanceExtend(cs: seq<Coord>, x: Coord)
    ensures TotalDistance(cs + [x]) == TotalDistance(cs) + DistTo(cs, x)
  {
    PairSumExtend(cs, x, |cs|);
    assert cs[..|cs|] == cs;
    assert PairSum(cs + [x], |cs| + 1) == PairSum(cs + [x], |cs|) + RowSum(cs + [x], |cs|, |cs| + 1);
  }

  /** Sums the distance over every pair of galaxies, each pair once. */
  method SumDistances(coords: seq<Coord>) returns (totalDistance: nat)
    ensures totalDistance == TotalDistance(coords)
  {
    totalDistance := 0;
    for i := 0 to |coords|
      invariant totalDistance == PairSum(coords, i)
    {
      var row := 0;
      for j := i + 1 to |coords|
        invariant row == RowSum(coords, i, j)
      {
        row := row + Dist(coords[i], coords[j]);
      }
      totalDistance := totalDistance + row;
    }
  }

  /** Expands the image, lists its galaxies and sums their pairwise distances. */
  method Part1(galaxy: seq<seq<char>>) returns (total: nat)
    requires |galaxy| > 0 && Rectangular(galaxy, |galaxy[0]|)
    ensures total == TotalDistance(Galaxies(Expanded(galaxy, |galaxy[0]|), |Expanded(galaxy, |galaxy[0]|)|))
  {
    var expanded := Expand(galaxy);
    var coords := GetGalaxyCoords(expanded);
    total := SumDistances(coords);
  }
}
