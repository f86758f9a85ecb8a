/** Parabolic reflector dish: rounded rocks `O` roll north until they meet the
    top edge, a cube rock `#` or another rounded rock; `.` is empty space. The load
    on the north beams counts each rounded rock by its distance from the south edge. */
module ReflectorDish {

  /** The cells the puzzle uses. */
  predicate IsCell(c: char)
  {
    c == 'O' || c == '#' || c == '.'
  }

  /** A grid of `|g|` rows, all of width `w`, holding only puzzle cells. */
  predicate WellFormed(g: seq<seq<char>>, w: nat)
  {
    forall i :: 0 <= i < |g| ==> |g[i]| == w && forall j :: 0 <= j < w ==> IsCell(g[i][j])
  }

  /** Column `j` of a grid, read top to bottom. */
  function Column(g: seq<seq<char>>, j: nat): (c: seq<char>)
    requires forall i :: 0 <= i < |g| ==> j < |g[i]|
    ensures |c| == |g| && forall i :: 0 <= i < |g| ==> c[i] == g[i][j]
  {
    seq(|g|, i requires 0 <= i < |g| => g[i][j])
  }

  /** The number of rounded rocks. */
  function CountO(s: seq<char>): (n: nat)
    ensures n <= |s|
  {
    if s == [] then 0 else CountO(s[..|s| - 1]) + (if s[|s| - 1] == 'O' then 1 else 0)
  }

  /** `CountO` is the multiplicity of 'O'. */
  lemma {:induction false} CountOMultiset(s: seq<char>)
    ensures CountO(s) == multiset(s)['O']
  {
    if s != [] {
      var init := s[..|s| - 1];
      CountOMultiset(init);
      assert s == init + [s[|s| - 1]];
      assert multiset(s) == multiset(init) + multiset{s[|s| - 1]};
    }
  }

  function Fill(c: char, n: nat): (s: seq<char>)
    ensures |s| == n && forall i :: 0 <= i < n ==> s[i] == c
  {
    seq(n, i => c)
  }

  /** A stretch without cube rocks, with its rounded rocks packed to the north. */
  function Settle(seg: seq<char>): (r: seq<char>)
    ensures |r| == |seg|
  {
    Fill('O', CountO(seg)) + Fill('.', |seg| - CountO(seg))
  }

  /** The first cube rock's index, or `|c|` when there is none. */
  function FirstHash(c: seq<char>): (k: nat)
    ensures k <= |c| && (k < |c| ==> c[k] == '#')
    ensures forall i :: 0 <= i < k ==> c[i] != '#'
    decreases |c|
  {
    if c == [] || c[0] == '#' then 0 else 1 + FirstHash(c[1..])
  }

  /** A column tilted north, defined segment by segment: cube rocks stay, and the
      rounded rocks of each stretch between them are packed at its north end. */
  function Roll(c: seq<char>): (r: seq<char>)
    ensures |r| == |c|
    decreases |c|
  {
    var k := FirstHash(c);
    if k == |c| then Settle(c) else Settle(c[..k]) + ['#'] + Roll(c[k + 1..])
  }

  // ---------------------------------------------------------------------------
  // What tilting a column does
  // ---------------------------------------------------------------------------

  lemma {:induction false} CountOAppend(a: seq<char>, b: seq<char>)
    ensures CountO(a + b) == CountO(a) + CountO(b)
    decreases |b|
  {
    if b == [] {
      assert a + b == a;
    } else {
      assert (a + b)[..|a + b| - 1] == a + b[..|b| - 1];
      CountOAppend(a, b[..|b| - 1]);
    }
  }

  lemma FillCount(c: char, n: nat)
    ensures CountO(Fill(c, n)) == if c == 'O' then n else 0
  {
    if n > 0 {
      assert Fill(c, n)[..n - 1] == Fill(c, n - 1);
      FillCount(c, n - 1);
    }
  }

  lemma SettleCount(seg: seq<char>)
    ensures CountO(Settle(seg)) == CountO(seg)
  {
    CountOAppend(Fill('O', CountO(seg)), Fill('.', |seg| - CountO(seg)));
    FillCount('O', CountO(seg));
    FillCount('.', |seg| - CountO(seg));
  }

  /** Tilting keeps every cube rock where it is and puts none anywhere else. */
  lemma {:induction false} RollKeepsCubes(c: seq<char>)
    ensures forall i :: 0 <= i < |c| ==> (Roll(c)[i] == '#' <==> c[i] == '#')
    decreases |c|
  {
    var k := FirstHash(c);
    if k < |c| {
      RollKeepsCubes(c[k + 1..]);
      forall i | 0 <= i < |c| ensures Roll(c)[i] == '#' <==> c[i] == '#' {
        RollKeepsCubeAt(c, k, i);
      }
    } else {
      RollWhole(c);
    }
  }

  /** One cell of a column with a cube rock at `k`, given the same for the rest
      of the column after it. */
  lemma RollKeepsCubeAt(c: seq<char>, k: nat, i: nat)
    requires k == FirstHash(c) < |c| && i < |c|
    requires i > k ==> (Roll(c[k + 1..])[i - k - 1] == '#' <==> c[k + 1..][i - k - 1] == '#')
    ensures Roll(c)[i] == '#' <==> c[i] == '#'
  {
    RollSplit(c, k);
    JoinIndex(Settle(c[..k]), Roll(c[k + 1..]), i);
    if i < k {
      SettleNoCube(c[..k], i);
    }
  }

  /** Where index `i` of `pre + ['#'] + rest` falls. */
  lemma JoinIndex(pre: seq<char>, rest: seq<char>, i: nat)
    requires i < |pre| + 1 + |rest|
    ensures i < |pre| ==> (pre + ['#'] + rest)[i] == pre[i]
    ensures i == |pre| ==> (pre + ['#'] + rest)[i] == '#'
    ensures i > |pre| ==> (pre + ['#'] + rest)[i] == rest[i - |pre| - 1]
  {
  }

  /** Counting across a cube rock. */
  lemma CountOCube(a: seq<char>, b: seq<char>)
    ensures CountO(a + ['#'] + b) == CountO(a) + CountO(b)
  {
    CountOAppend(a + ['#'], b);
    CountOAppend(a, ['#']);
    assert CountO(['#']) == CountO([]) + 0;
  }

  /** Tilting keeps the number of rounded rocks. */
  lemma {:induction false} RollKeepsCount(c: seq<char>)
    ensures CountO(Roll(c)) == CountO(c)
    decreases |c|
  {
    var k := FirstHash(c);
    if k < |c| {
      var pre := c[..k];
      var post := c[k + 1..];
      RollKeepsCount(post);
      SettleCount(pre);
      RollSplit(c, k);
      CutAt(c, k);
      CountOCube(pre, post);
      CountOCube(Settle(pre), Roll(post));
    } else {
      RollWhole(c);
      SettleCount(c);
    }
  }

  /** Only puzzle cells come out of a column of puzzle cells. */
  lemma {:induction false} RollCells(c: seq<char>)
    ensures forall i :: 0 <= i < |c| ==> IsCell(Roll(c)[i])
    decreases |c|
  {
    var k := FirstHash(c);
    var r := Roll(c);
    var pre := Settle(c[..k]);
    if k < |c| {
      var rest := Roll(c[k + 1..]);
      RollCells(c[k + 1..]);
      assert r == pre + ['#'] + rest;
      forall i | 0 <= i < |c| ensures IsCell(r[i]) {
        if i < k {
          assert r[i] == pre[i];
        } else if i > k {
          assert r[i] == rest[i - k - 1];
        }
      }
    } else {
      assert c[..k] == c;
    }
  }

  /** Every rounded rock is in the top row or directly below a cube rock or another
      rounded rock. */
  predicate Settled(c: seq<char>)
  {
    forall i :: 0 < i < |c| && c[i] == 'O' ==> c[i - 1] in "#O"
  }

  /** After tilting, every rounded rock is in the top row or directly below a cube
      rock or another rounded rock. */
  lemma {:induction false} RollSettled(c: seq<char>)
    ensures Settled(Roll(c))
    decreases |c|
  {
    var k := FirstHash(c);
    if k < |c| {
      RollSettled(c[k + 1..]);
      SettleSettled(c[..k]);
      RollSplit(c, k);
      SettledJoin(Settle(c[..k]), Roll(c[k + 1..]));
    } else {
      RollWhole(c);
      SettleSettled(c);
    }
  }

  /** A settled stretch is settled. */
  lemma SettleSettled(seg: seq<char>)
    ensures Settled(Settle(seg))
  {
    var n := CountO(seg);
    var r := Settle(seg);
    forall i | 0 < i < |r| && r[i] == 'O' ensures r[i - 1] in "#O" {
      JoinFill(n, |seg| - n, i);
      JoinFill(n, |seg| - n, i - 1);
    }
  }

  /** Where index `i` of a settled stretch falls. */
  lemma JoinFill(n: nat, m: nat, i: nat)
    requires i < n + m
    ensures (Fill('O', n) + Fill('.', m))[i] == (if i < n then 'O' else '.')
  {
  }

  /** Two settled parts joined across a cube rock are settled. */
  lemma SettledJoin(pre: seq<char>, rest: seq<char>)
    requires Settled(pre) && Settled(rest)
    ensures Settled(pre + ['#'] + rest)
  {
    var r := pre + ['#'] + rest;
    forall i | 0 < i < |r| && r[i] == 'O' ensures r[i - 1] in "#O" {
      JoinIndex(pre, rest, i);
      JoinIndex(pre, rest, i - 1);
    }
  }

  /** Tilting a tilted column changes nothing. */
  lemma {:induction false} RollIdempotent(c: seq<char>)
    ensures Roll(Roll(c)) == Roll(c)
    decreases |c|
  {
    var k := FirstHash(c);
    var s := Settle(c[..k]);
    SettleStable(c[..k]);
    if k == |c| {
      assert c[..k] == c;
      var f := FirstHash(s);
      if f < |s| {
        SettleNoCube(c[..k], f);
      }
    } else {
      var rest := Roll(c[k + 1..]);
      var r := s + ['#'] + rest;
      assert FirstHash(r) == k by { FirstHashAt(r, k); }
      assert r[..k] == s && r[k + 1..] == rest;
      RollIdempotent(c[k + 1..]);
    }
  }

  /** A settled stretch has no cube rock. */
  lemma SettleNoCube(seg: seq<char>, i: nat)
    requires i < |seg|
    ensures Settle(seg)[i] != '#'
  {
  }

  /** Settling a settled stretch changes nothing. */
  lemma SettleStable(seg: seq<char>)
    ensures Settle(Settle(seg)) == Settle(seg)
  {
    SettleCount(seg);
  }

  /** The first cube rock is at `k` when `k` holds one and nothing before it does. */
  lemma {:induction false} FirstHashAt(c: seq<char>, k: nat)
    requires k < |c| && c[k] == '#'
    requires forall i :: 0 <= i < k ==> c[i] != '#'
    ensures FirstHash(c) == k
    decreases k
  {
    if k > 0 {
      FirstHashAt(c[1..], k - 1);
    }
  }

  /** Splitting at a cube rock splits the tilt. */
  lemma {:induction false} RollAtCube(a: seq<char>, b: seq<char>)
    ensures Roll(a + ['#'] + b) == Roll(a) + ['#'] + Roll(b)
    decreases |a|
  {
    var k := FirstHash(a);
    if k == |a| {
      RollAtFirstCube(a, b);
    } else {
      var a2 := a[k + 1..];
      var pre := Settle(a[..k]);
      RollAtEarlierCube(a, b, k);
      RollAtCube(a2, b);
      RollSplit(a, k);
      JoinAtCubes(pre, Roll(a2), Roll(b));
    }
  }

  /** `Roll` unfolded at the first cube rock. */
  lemma RollSplit(a: seq<char>, k: nat)
    requires k == FirstHash(a) < |a|
    ensures Roll(a) == Settle(a[..k]) + ['#'] + Roll(a[k + 1..])
  {
  }

  /** `Roll` of a column without cube rocks. */
  lemma RollWhole(c: seq<char>)
    requires FirstHash(c) == |c|
    ensures Roll(c) == Settle(c)
  {
    assert c[..|c|] == c;
  }

  lemma RollEmpty()
    ensures Roll([]) == []
  {
  }

  /** A sequence cut around position `k`. */
  lemma CutAt(c: seq<char>, k: nat)
    requires k < |c|
    ensures c == c[..k] + [c[k]] + c[k + 1..]
  {
  }

  lemma TakeSnoc(c: seq<char>, n: nat)
    requires n < |c|
    ensures c[..n + 1] == c[..n] + [c[n]]
  {
  }

  lemma SliceSnoc(c: seq<char>, s: nat, n: nat)
    requires s <= n < |c|
    ensures c[s..n + 1] == c[s..n] + [c[n]]
  {
  }

  lemma TakeFromStart(c: seq<char>, n: nat)
    requires n <= |c|
    ensures c[..n] == c[0..n] && c[..0] == []
  {
  }

  /** The first `r` cells: those before position `k`, the cell at `k`, and the
      cells from `k + 1` to `r`. */
  lemma TakeAcross(c: seq<char>, k: nat, r: nat)
    requires k < r <= |c|
    ensures c[..r] == c[..k] + [c[k]] + c[k + 1..r]
    ensures c[..k + 1] == c[..k] + [c[k]]
  {
  }

  lemma JoinAtCubes(x: seq<char>, y: seq<char>, z: seq<char>)
    ensures x + ['#'] + (y + ['#'] + z) == (x + ['#'] + y) + ['#'] + z
  {
  }

  /** The joining cube rock is the first one. */
  lemma RollAtFirstCube(a: seq<char>, b: seq<char>)
    requires FirstHash(a) == |a|
    ensures Roll(a + ['#'] + b) == Roll(a) + ['#'] + Roll(b)
  {
    var c := a + ['#'] + b;
    FirstHashAt(c, |a|);
    assert c[..|a|] == a && c[|a| + 1..] == b;
    assert a[..|a|] == a;
  }

  /** `a` has a cube rock of its own at `k`, before the joining one. */
  lemma RollAtEarlierCube(a: seq<char>, b: seq<char>, k: nat)
    requires k == FirstHash(a) < |a|
    ensures Roll(a + ['#'] + b) == Settle(a[..k]) + ['#'] + Roll(a[k + 1..] + ['#'] + b)
  {
    var c := a + ['#'] + b;
    FirstHashAt(c, k);
    assert c[..k] == a[..k];
    assert c[k + 1..] == a[k + 1..] + ['#'] + b;
  }

  /** Rounded rocks only move north: above any row, a tilted column holds at least as
      many rounded rocks as the original. */
  lemma {:induction false} RollMovesNorth(c: seq<char>, i: nat)
    requires i <= |c|
    ensures CountO(Roll(c)[..i]) >= CountO(c[..i])
    decreases |c|
  {
    var k := FirstHash(c);
    if i <= k {
      MovesNorthBeforeCube(c, i);
    } else {
      var pre := c[..k];
      var post := c[k + 1..];
      var j := i - k - 1;
      RollMovesNorth(post, j);
      assert Roll(c) == Settle(pre) + ['#'] + Roll(post);
      assert Roll(c)[..i] == Settle(pre) + ['#'] + Roll(post)[..j];
      assert c[..i] == pre + ['#'] + post[..j];
      MovesNorthAcrossCube(pre, Roll(post)[..j], post[..j]);
    }
  }

  /** Above the first cube rock, tilting only packs rocks north. */
  lemma MovesNorthBeforeCube(c: seq<char>, i: nat)
    requires i <= FirstHash(c)
    ensures CountO(Roll(c)[..i]) >= CountO(c[..i])
  {
    var pre := c[..FirstHash(c)];
    SettleMovesNorth(pre, i);
    assert pre[..i] == c[..i];
    RollBeforeCube(c, i);
  }

  /** Above the first cube rock, the tilted column is the settled first stretch. */
  lemma RollBeforeCube(c: seq<char>, i: nat)
    requires i <= FirstHash(c)
    ensures Roll(c)[..i] == Settle(c[..FirstHash(c)])[..i]
  {
    var k := FirstHash(c);
    if k == |c| {
      assert c[..k] == c;
    }
  }

  /** A settled stretch, a cube rock, then a part that already has at least as many
      rocks as its original. */
  lemma MovesNorthAcrossCube(pre: seq<char>, tilted: seq<char>, orig: seq<char>)
    requires CountO(tilted) >= CountO(orig)
    ensures CountO(Settle(pre) + ['#'] + tilted) >= CountO(pre + ['#'] + orig)
  {
    CountOCube(Settle(pre), tilted);
    CountOCube(pre, orig);
    SettleCount(pre);
  }

  /** Within one stretch, settling only moves rocks north. */
  lemma SettleMovesNorth(seg: seq<char>, i: nat)
    requires i <= |seg|
    ensures CountO(Settle(seg)[..i]) >= CountO(seg[..i])
  {
    SettlePrefix(seg, i);
    assert seg == seg[..i] + seg[i..];
    CountOAppend(seg[..i], seg[i..]);
  }

  /** The first `i` cells of a settled stretch hold as many rocks as fit. */
  lemma SettlePrefix(seg: seq<char>, i: nat)
    requires i <= |seg|
    ensures CountO(Settle(seg)[..i]) == if i <= CountO(seg) then i else CountO(seg)
  {
    var n := CountO(seg);
    var pre := Settle(seg)[..i];
    FillsPrefix('O', '.', n, |seg| - n, i);
    if i <= n {
      assert pre == Fill('O', i);
      FillCount('O', i);
    } else {
      assert pre == Fill('O', n) + Fill('.', i - n);
      CountOAppend(Fill('O', n), Fill('.', i - n));
      FillCount('O', n);
      FillCount('.', i - n);
    }
  }

  /** The first `i` cells of `n` copies of `x` followed by `m` copies of `y`. */
  lemma FillsPrefix(x: char, y: char, n: nat, m: nat, i: nat)
    requires i <= n + m
    ensures (Fill(x, n) + Fill(y, m))[..i] == if i <= n then Fill(x, i) else Fill(x, n) + Fill(y, i - n)
  {
  }

  /** A stretch without cube rocks tilts by settling. */
  lemma RollNoCube(seg: seq<char>)
    requires forall i :: 0 <= i < |seg| ==> seg[i] != '#'
    ensures Roll(seg) == Settle(seg)
  {
  }

  /** A column read up to a row: the finished stretches are tilted, and the current
      stretch (since the last cube rock at `s - 1`) is settled on its own. */
  lemma RollPrefix(c: seq<char>, s: nat, r: nat)
    requires s <= r <= |c|
    requires s == 0 || c[s - 1] == '#'
    requires forall i :: s <= i < r ==> c[i] != '#'
    ensures Roll(c[..r]) == Roll(c[..s]) + Settle(c[s..r])
  {
    var seg := c[s..r];
    RollNoCube(seg);
    if s == 0 {
      TakeFromStart(c, r);
      RollEmpty();
    } else {
      RollAfterCube(c[..s - 1], seg);
      TakeAcross(c, s - 1, r);
    }
  }

  /** A column ending in a cube rock. */
  lemma RollCubeEnd(a: seq<char>)
    ensures Roll(a + ['#']) == Roll(a) + ['#']
  {
    RollAtCube(a, []);
    assert a + ['#'] + [] == a + ['#'];
    assert |Roll([])| == 0;
  }

  /** Reading on past a cube rock. */
  lemma RollAfterCube(a: seq<char>, b: seq<char>)
    ensures Roll(a + ['#'] + b) == Roll(a + ['#']) + Roll(b)
  {
    var x := a + ['#'];
    calc {
      Roll(x + b);
      { RollAtCube(a, b); }
      Roll(a) + ['#'] + Roll(b);
      { RollCubeEnd(a); }
      Roll(x) + Roll(b);
    }
  }

  // ---------------------------------------------------------------------------
  // tilt_north, get_load and part1
  // ---------------------------------------------------------------------------

  lemma CountOSnoc(s: seq<char>, x: char)
    ensures CountO(s + [x]) == CountO(s) + if x == 'O' then 1 else 0
  {
    assert (s + [x])[..|s|] == s;
  }

  /** The state of the scan of column `c` before row `row`, with `cur` the column as
      the scan has left it: `s` is the row after the last cube rock seen and `p`
      (`placement_row`) the row where the next rounded rock lands. Above `s` the
      column is tilted; rows `s..p` hold the rocks of the current stretch, rows
      `p..row` are empty, and the rows from `row` on are not scanned yet. */
  predicate ScanState(c: seq<char>, s: nat, p: nat, row: nat, cur: seq<char>)
  {
    && s <= p <= row <= |c| && |cur| == |c|
    && (s == 0 || c[s - 1] == '#')
    && (forall i :: s <= i < row ==> c[i] != '#')
    && p - s == CountO(c[s..row])
    && cur[..s] == Roll(c[..s])
    && (forall i :: s <= i < p ==> cur[i] == 'O')
    && (forall i :: p <= i < row ==> cur[i] == '.')
    && (forall i :: row <= i < |c| ==> cur[i] == c[i])
  }

  lemma ScanStart(c: seq<char>)
    ensures ScanState(c, 0, 0, 0, c)
  {
    assert |Roll(c[..0])| == 0;
    assert c[0..0] == [];
  }

  /** Unscanned rows still hold their original cells. */
  lemma ScanRead(c: seq<char>, s: nat, p: nat, row: nat, cur: seq<char>)
    requires ScanState(c, s, p, row, cur) && row < |c|
    ensures cur[row] == c[row]
  {
  }

  /** Reading through the cube rock that ends the current stretch. */
  lemma RollThroughCube(c: seq<char>, s: nat, row: nat)
    requires s <= row < |c| && c[row] == '#'
    requires s == 0 || c[s - 1] == '#'
    requires forall i :: s <= i < row ==> c[i] != '#'
    ensures Roll(c[..row + 1]) == Roll(c[..s]) + Settle(c[s..row]) + ['#']
  {
    RollPrefix(c, s, row);
    TakeSnoc(c, row);
    RollCubeEnd(c[..row]);
  }

  /** What the scan has written so far: the finished stretches tilted and the
      current stretch settled. */
  lemma ScanPrefix(c: seq<char>, s: nat, p: nat, row: nat, cur: seq<char>)
    requires ScanState(c, s, p, row, cur)
    ensures cur[..row] == Roll(c[..s]) + Settle(c[s..row])
  {
    var t := Roll(c[..s]);
    var z := Settle(c[s..row]);
    assert z == Fill('O', p - s) + Fill('.', row - p);
    var r := t + z;
    forall i | 0 <= i < row ensures cur[i] == r[i] {
      if i < s {
        assert cur[i] == cur[..s][i];
      } else {
        assert r[i] == z[i - s];
      }
    }
  }

  /** A cube rock closes the current stretch; the next rock lands below it. */
  lemma ScanCube(c: seq<char>, s: nat, p: nat, row: nat, cur: seq<char>)
    requires ScanState(c, s, p, row, cur) && row < |c| && c[row] == '#'
    ensures ScanState(c, row + 1, row + 1, row + 1, cur)
  {
    RollThroughCube(c, s, row);
    ScanPrefix(c, s, p, row, cur);
    TakeSnoc(cur, row);
    assert cur[row] == '#';
    assert cur[..row + 1] == Roll(c[..row + 1]);
    assert c[row + 1..row + 1] == [];
    assert CountO(c[row + 1..row + 1]) == 0;
  }

  /** A rounded rock is lifted to the placement row, which moves down by one. */
  lemma ScanRock(c: seq<char>, s: nat, p: nat, row: nat, cur: seq<char>)
    requires ScanState(c, s, p, row, cur) && row < |c| && c[row] == 'O'
    ensures p <= row
    ensures ScanState(c, s, p + 1, row + 1, cur[row := '.'][p := 'O'])
  {
    SliceSnoc(c, s, row);
    CountOSnoc(c[s..row], 'O');
    var next := cur[row := '.'][p := 'O'];
    assert next[..s] == cur[..s];
  }

  /** An empty cell is passed over. */
  lemma ScanEmpty(c: seq<char>, s: nat, p: nat, row: nat, cur: seq<char>)
    requires ScanState(c, s, p, row, cur) && row < |c| && IsCell(c[row]) && c[row] != '#' && c[row] != 'O'
    ensures ScanState(c, s, p, row + 1, cur)
  {
    SliceSnoc(c, s, row);
    CountOSnoc(c[s..row], c[row]);
  }

  /** At the bottom of the column the scan has tilted it. */
  lemma ScanDone(c: seq<char>, s: nat, p: nat, cur: seq<char>)
    requires ScanState(c, s, p, |c|, cur)
    ensures cur == Roll(c)
  {
    RollPrefix(c, s, |c|);
    ScanPrefix(c, s, p, |c|, cur);
    assert c[..|c|] == c;
    assert cur[..|c|] == cur;
  }

  /** The grid with column `j` replaced by `col`. */
  function WithColumn(g: seq<seq<char>>, j: nat, col: seq<char>): (h: seq<seq<char>>)
    requires |col| == |g| && forall i :: 0 <= i < |g| ==> j < |g[i]|
    ensures |h| == |g| && forall i :: 0 <= i < |g| ==> |h[i]| == |g[i]| && h[i][j] == col[i]
  {
    seq(|g|, i requires 0 <= i < |g| => g[i][j := col[i]])
  }

  /** A grid is itself with its own column put back. */
  lemma WithOwnColumn(g: seq<seq<char>>, j: nat)
    requires forall i :: 0 <= i < |g| ==> j < |g[i]|
    ensures WithColumn(g, j, Column(g, j)) == g
  {
    var h := WithColumn(g, j, Column(g, j));
    forall i | 0 <= i < |g| ensures h[i] == g[i] {
      assert h[i] == g[i][j := g[i][j]];
    }
  }

  /** Moving a rounded rock from `row` up to `p` in column `j` is a change of that
      column alone. */
  lemma MoveRock(g: seq<seq<char>>, j: nat, col: seq<char>, row: nat, p: nat)
    requires |col| == |g| && forall i :: 0 <= i < |g| ==> j < |g[i]|
    requires row < |g| && p < |g|
    ensures var g0 := WithColumn(g, j, col);
            var g1 := g0[row := g0[row][j := '.']];
            g1[p := g1[p][j := 'O']] == WithColumn(g, j, col[row := '.'][p := 'O'])
  {
    var g0 := WithColumn(g, j, col);
    var g1 := g0[row := g0[row][j := '.']];
    var g2 := g1[p := g1[p][j := 'O']];
    var h := WithColumn(g, j, col[row := '.'][p := 'O']);
    forall i | 0 <= i < |g| ensures g2[i] == h[i] {
      assert h[i] == g[i][j := col[row := '.'][p := 'O'][i]];
    }
  }

  /** Replacing column `j` keeps the widths and the other columns. */
  lemma WithColumnColumns(g: seq<seq<char>>, w: nat, j: nat, col: seq<char>)
    requires |col| == |g| && j < w && forall i :: 0 <= i < |g| ==> |g[i]| == w
    ensures Column(WithColumn(g, j, col), j) == col
    ensures forall j' :: 0 <= j' < w && j' != j ==> Column(WithColumn(g, j, col), j') == Column(g, j')
  {
    var h := WithColumn(g, j, col);
    forall j' | 0 <= j' < w && j' != j ensures Column(h, j') == Column(g, j') {
      forall i | 0 <= i < |g| ensures h[i][j'] == g[i][j'] {
        assert h[i] == g[i][j := col[i]];
      }
    }
  }

  /** The tilted grid as a value: every column tilted on its own. */
  function Tilted(grid: seq<seq<char>>, w: nat): (t: seq<seq<char>>)
    requires forall i :: 0 <= i < |grid| ==> |grid[i]| == w
    ensures |t| == |grid| && forall i :: 0 <= i < |t| ==> |t[i]| == w
  {
    seq(|grid|, i requires 0 <= i < |grid| =>
      seq(w, j requires 0 <= j < w => Roll(Column(grid, j))[i]))
  }

  /** `tilt_north`: on a copy of the grid, tilt each column in turn. */
  method TiltNorth(grid: seq<seq<char>>) returns (tilted: seq<seq<char>>)
    requires |grid| >= 1 && WellFormed(grid, |grid[0]|)
    ensures |tilted| == |grid| && forall i :: 0 <= i < |tilted| ==> |tilted[i]| == |grid[0]|
    ensures forall j :: 0 <= j < |grid[0]| ==> Column(tilted, j) == Roll(Column(grid, j))
    ensures tilted == Tilted(grid, |grid[0]|)
  {
    var g := grid;
    var numRows := |g|;
    var numColumns := |g[0]|;
    for col := 0 to numColumns
      invariant |g| == numRows && forall i :: 0 <= i < numRows ==> |g[i]| == numColumns
      invariant forall j :: 0 <= j < col ==> Column(g, j) == Roll(Column(grid, j))
      invariant forall j :: col <= j < numColumns ==> Column(g, j) == Column(grid, j)
    {
      assert forall i :: 0 <= i < numRows ==> IsCell(Column(g, col)[i]);
      g := TiltColumn(g, numColumns, col);
    }
    tilted := g;
    var t := Tilted(grid, numColumns);
    forall i | 0 <= i < numRows ensures tilted[i] == t[i] {
      forall j | 0 <= j < numColumns ensures tilted[i][j] == t[i][j] {
        assert tilted[i][j] == Column(tilted, j)[i];
      }
    }
  }

  /** The rounded rock at (`row`, `col`) rolls up to (`p`, `col`): the grid changes
      as its column does. */
  method MoveRockUp(grid: seq<seq<char>>, col: nat, g: seq<seq<char>>, row: nat, p: nat,
                    ghost cur: seq<char>)
    returns (g': seq<seq<char>>)
    requires forall i :: 0 <= i < |grid| ==> col < |grid[i]|
    requires row < |grid| && p < |grid|
    requires |cur| == |grid| && g == WithColumn(grid, col, cur)
    ensures g' == WithColumn(grid, col, cur[row := '.'][p := 'O'])
  {
    MoveRock(grid, col, cur, row, p);
    g' := g[row := g[row][col := '.']];
    g' := g'[p := g'[p][col := 'O']];
  }

  /** The scan state after reading row `row` of column `c`. */
  lemma ScanStep(c: seq<char>, s: nat, p: nat, row: nat, cur: seq<char>)
    returns (s': nat, p': nat, cur': seq<char>)
    requires ScanState(c, s, p, row, cur) && row < |c| && IsCell(c[row])
    ensures ScanState(c, s', p', row + 1, cur')
    ensures cur[row] == c[row]
    ensures c[row] == '#' ==> s' == row + 1 && p' == row + 1 && cur' == cur
    ensures c[row] == 'O' ==> s' == s && p < |c| && p' == p + 1 && cur' == cur[row := '.'][p := 'O']
    ensures c[row] == '.' ==> s' == s && p' == p && cur' == cur
  {
    ScanRead(c, s, p, row, cur);
    if c[row] == '#' {
      ScanCube(c, s, p, row, cur);
      s', p', cur' := row + 1, row + 1, cur;
    } else if c[row] == 'O' {
      ScanRock(c, s, p, row, cur);
      s', p', cur' := s, p + 1, cur[row := '.'][p := 'O'];
    } else {
      ScanEmpty(c, s, p, row, cur);
      s', p', cur' := s, p, cur;
    }
  }

  /** One row of the inner loop of `tilt_north`: look at cell (`row`, `col`) and
      move a rounded rock up to `placementRow` when there is one. */
  method TiltCell(grid: seq<seq<char>>, col: nat, g: seq<seq<char>>, row: nat, placementRow: nat,
                  ghost s: nat, ghost cur: seq<char>)
    returns (g': seq<seq<char>>, placementRow': nat, ghost s': nat, ghost cur': seq<char>)
    requires forall i :: 0 <= i < |grid| ==> col < |grid[i]|
    requires row < |grid| && IsCell(Column(grid, col)[row])
    requires |cur| == |grid| && g == WithColumn(grid, col, cur)
    requires ScanState(Column(grid, col), s, placementRow, row, cur)
    ensures |cur'| == |grid| && g' == WithColumn(grid, col, cur')
    ensures ScanState(Column(grid, col), s', placementRow', row + 1, cur')
  {
    ghost var c := Column(grid, col);
    ghost var p';
    s', p', cur' := ScanStep(c, s, placementRow, row, cur);
    var ch := g[row][col];
    if ch == '#' {
      g', placementRow' := g, row + 1;
    } else if ch == 'O' {
      g' := MoveRockUp(grid, col, g, row, placementRow, cur);
      placementRow' := placementRow + 1;
    } else {
      g', placementRow' := g, placementRow;
    }
    assert placementRow' == p';
  }

  /** The inner loop of `tilt_north`: scan column `col` top to bottom, keeping the
      row where the next rounded rock lands (`placement_row`). */
  method TiltColumn(grid: seq<seq<char>>, numColumns: nat, col: nat) returns (g: seq<seq<char>>)
    requires col < numColumns && forall i :: 0 <= i < |grid| ==> |grid[i]| == numColumns
    requires forall i :: 0 <= i < |grid| ==> IsCell(Column(grid, col)[i])
    ensures |g| == |grid| && forall i :: 0 <= i < |g| ==> |g[i]| == numColumns
    ensures Column(g, col) == Roll(Column(grid, col))
    ensures forall j :: 0 <= j < numColumns && j != col ==> Column(g, j) == Column(grid, j)
  {
    g := grid;
    var numRows := |g|;
    ghost var c := Column(grid, col);
    ghost var s := 0;
    ghost var cur := c;
    var placementRow := 0;
    ScanStart(c);
    WithOwnColumn(grid, col);
    for row := 0 to numRows
      invariant |cur| == numRows && g == WithColumn(grid, col, cur)
      invariant ScanState(c, s, placementRow, row, cur)
    {
      g, placementRow, s, cur := TiltCell(grid, col, g, row, placementRow, s, cur);
    }
    TiltColumnDone(grid, numColumns, col, s, placementRow, cur);
  }

  /** After the last row, the grid holds the rolled column `col` and every other
      column as it was. */
  lemma TiltColumnDone(grid: seq<seq<char>>, numColumns: nat, col: nat, s: nat, p: nat, cur: seq<char>)
    requires col < numColumns && forall i :: 0 <= i < |grid| ==> |grid[i]| == numColumns
    requires |cur| == |grid| && ScanState(Column(grid, col), s, p, |grid|, cur)
    ensures var g := WithColumn(grid, col, cur);
      && |g| == |grid| && (forall i :: 0 <= i < |g| ==> |g[i]| == numColumns)
      && Column(g, col) == Roll(Column(grid, col))
      && (forall j :: 0 <= j < numColumns && j != col ==> Column(g, j) == Column(grid, j))
  {
    ScanDone(Column(grid, col), s, p, cur);
    WithColumnColumns(grid, numColumns, col, cur);
  }

  /** The load on the north beams: a rounded rock in row `i` (from the top) of a grid
      of `n` rows weighs `n - i`. */
  function Load(rows: seq<seq<char>>): nat
  {
    if rows == [] then 0 else |rows| * CountO(rows[0]) + Load(rows[1..])
  }

  /** `get_load`: walk the rows from the bottom, the `k`-th from the bottom weighing `k`. */
  method GetLoad(rows: seq<seq<char>>) returns (totalLoad: nat)
    ensures totalLoad == Load(rows)
  {
    totalLoad := 0;
    var n := |rows|;
    for loadPerRock := 1 to n + 1
      invariant totalLoad == Load(rows[n - loadPerRock + 1..])
    {
      var row := rows[n - loadPerRock];
      assert rows[n - loadPerRock..][1..] == rows[n - loadPerRock + 1..];
      totalLoad := totalLoad + loadPerRock * CountO(row);
    }
    assert rows[0..] == rows;
  }

  /** `part1`: the load after tilting north. */
  method Part1(grid: seq<seq<char>>) returns (load: nat)
    requires |grid| >= 1 && WellFormed(grid, |grid[0]|)
    ensures load == Load(Tilted(grid, |grid[0]|))
  {
    var tilted := TiltNorth(grid);
    load := GetLoad(tilted);
  }

  /** Column `j` of the tilted grid is column `j` tilted. */
  lemma TiltedColumn(grid: seq<seq<char>>, w: nat, j: nat)
    requires forall i :: 0 <= i < |grid| ==> |grid[i]| == w
    requires j < w
    ensures Column(Tilted(grid, w), j) == Roll(Column(grid, j))
  {
    var t := Tilted(grid, w);
    var r := Roll(Column(grid, j));
    forall i | 0 <= i < |grid| ensures t[i][j] == r[i] {
    }
  }

  /** One column of the tilted grid: puzzle cells, the same cube rocks and rock
      count, settled, and unchanged by a second tilt. */
  lemma TiltedGridColumn(grid: seq<seq<char>>, w: nat, j: nat)
    requires WellFormed(grid, w) && j < w
    ensures var t := Tilted(grid, w);
      && (forall i :: 0 <= i < |grid| ==> IsCell(t[i][j]) && (t[i][j] == '#' <==> grid[i][j] == '#'))
      && CountO(Column(t, j)) == CountO(Column(grid, j))
      && Settled(Column(t, j))
      && Roll(Column(t, j)) == Column(t, j)
  {
    var c := Column(grid, j);
    TiltedColumn(grid, w, j);
    RollKeepsCount(c);
    RollSettled(c);
    RollIdempotent(c);
    TiltedColumnCells(grid, w, j);
  }

  /** The cells of one column of the tilted grid are puzzle cells, with the cube
      rocks where they were. */
  lemma TiltedColumnCells(grid: seq<seq<char>>, w: nat, j: nat)
    requires WellFormed(grid, w) && j < w
    ensures var t := Tilted(grid, w);
      forall i :: 0 <= i < |grid| ==> IsCell(t[i][j]) && (t[i][j] == '#' <==> grid[i][j] == '#')
  {
    var t := Tilted(grid, w);
    var c := Column(grid, j);
    TiltedColumn(grid, w, j);
    RollKeepsCubes(c);
    RollCells(c);
    forall i | 0 <= i < |grid| ensures IsCell(t[i][j]) && (t[i][j] == '#' <==> grid[i][j] == '#') {
      assert t[i][j] == Column(t, j)[i] == Roll(c)[i];
      assert grid[i][j] == c[i];
    }
  }

  /** Every column of the tilted grid keeps its cube rocks, its cells and its
      number of rounded rocks, is settled, and rolls to itself. */
  lemma TiltedGridColumns(grid: seq<seq<char>>, w: nat, t: seq<seq<char>>)
    requires WellFormed(grid, w) && t == Tilted(grid, w)
    ensures && (forall i, j :: 0 <= i < |grid| && 0 <= j < w ==> IsCell(t[i][j]) && (t[i][j] == '#' <==> grid[i][j] == '#'))
      && (forall j :: 0 <= j < w ==> CountO(Column(t, j)) == CountO(Column(grid, j)))
      && (forall j :: 0 <= j < w ==> Settled(Column(t, j)))
      && (forall j :: 0 <= j < w ==> Roll(Column(t, j)) == Column(t, j))
  {
    forall j | 0 <= j < w
      ensures && (forall i :: 0 <= i < |grid| ==> IsCell(t[i][j]) && (t[i][j] == '#' <==> grid[i][j] == '#'))
        && CountO(Column(t, j)) == CountO(Column(grid, j))
        && Settled(Column(t, j))
        && Roll(Column(t, j)) == Column(t, j)
    {
      TiltedGridColumn(grid, w, j);
    }
  }

  /** A grid whose every column rolls to itself tilts to itself. */
  lemma TiltedFixed(t: seq<seq<char>>, w: nat)
    requires forall i :: 0 <= i < |t| ==> |t[i]| == w
    requires forall j :: 0 <= j < w ==> Roll(Column(t, j)) == Column(t, j)
    ensures Tilted(t, w) == t
  {
    var tt := Tilted(t, w);
    forall i | 0 <= i < |t| ensures tt[i] == t[i] {
      forall j | 0 <= j < w ensures tt[i][j] == t[i][j] {
        TiltedColumn(t, w, j);
        assert tt[i][j] == Column(tt, j)[i];
      }
    }
  }

  /** Tilting the whole grid: the cube rocks stay, every column keeps its number of
      rounded rocks, the cells stay puzzle cells, every rounded rock ends up in the top
      row or under a cube rock or another rounded rock, and tilting again changes
      nothing. */
  lemma TiltedGrid(grid: seq<seq<char>>, w: nat)
    requires WellFormed(grid, w)
    ensures var t := Tilted(grid, w);
      && WellFormed(t, w)
      && (forall i, j :: 0 <= i < |grid| && 0 <= j < w ==> (t[i][j] == '#' <==> grid[i][j] == '#'))
      && (forall j :: 0 <= j < w ==> CountO(Column(t, j)) == CountO(Column(grid, j)))
      && (forall j :: 0 <= j < w ==> Settled(Column(t, j)))
      && Tilted(t, w) == t
  {
    var t := Tilted(grid, w);
    TiltedGridColumns(grid, w, t);
    TiltedFixed(t, w);
  }

  /** A stretch without cube rocks holding `n` rounded rocks tilts to `n` rounded
      rocks above the empty cells. */
  lemma RollStretch(a: seq<char>, n: nat)
    requires forall i :: 0 <= i < |a| ==> a[i] != '#'
    requires multiset(a)['O'] == n
    ensures n <= |a| && Roll(a) == Fill('O', n) + Fill('.', |a| - n)
  {
    RollNoCube(a);
    CountOMultiset(a);
  }

  /** Four rounded rocks packed above four empty cells. */
  lemma FillFourFour()
    ensures Fill('O', 4) + Fill('.', 4) == "OOOO...."
  {
  }

  /** The stretch above the two cube rocks of the example's first column. */
  lemma SampleStretchZero(a: seq<char>)
    requires a == "OO.O.O.."
    ensures Roll(a) == "OOOO...."
  {
    RollStretch(a, 4);
    FillFourFour();
  }

  /** A lone cube rock stays. */
  lemma RollCube()
    ensures Roll(['#']) == ['#']
  {
    RollCubeEnd([]);
    assert [] + ['#'] == ['#'];
  }

  /** The first column of the example grid, "OO.O.O..##", tilts to "OOOO....##". */
  lemma SampleColumnZero(a: seq<char>, c: seq<char>)
    requires a == "OO.O.O.." && c == a + ['#'] + ['#']
    ensures Roll(c) == "OOOO....##"
  {
    SampleStretchZero(a);
    RollAtCube(a, ['#']);
    RollCube();
    JoinZero();
  }

  /** The tilted first column, joined. */
  lemma JoinZero()
    ensures "OOOO...." + ['#'] + ['#'] == "OOOO....##"
  {
  }

  /** The packed stretches of the example's third column. */
  lemma FillsOfColumnTwo()
    ensures Fill('O', 1) + Fill('.', 4) == "O...."
    ensures Fill('O', 2) + Fill('.', 2) == "OO.."
  {
  }

  /** The stretches of the example's third column. */
  lemma SampleStretchesTwo(a: seq<char>, b: seq<char>)
    requires a == ".O..." && b == "O..O"
    ensures Roll(a) == "O...." && Roll(b) == "OO.."
  {
    FillsOfColumnTwo();
    RollStretch(a, 1);
    assert Roll(a) == "O....";
    RollStretch(b, 2);
  }

  /** The tilted third column, joined. */
  lemma JoinTwo()
    ensures "O...." + ['#'] + "OO.." == "O....#OO.."
  {
  }

  /** The third column of the example grid, ".O...#O..O", tilts to "O....#OO..":
      each stretch between cube rocks is packed on its own. */
  lemma SampleColumnTwo(a: seq<char>, b: seq<char>, c: seq<char>)
    requires a == ".O..." && b == "O..O" && c == a + ['#'] + b
    ensures Roll(c) == "O....#OO.."
  {
    SampleStretchesTwo(a, b);
    RollAtCube(a, b);
    JoinTwo();
  }

  /** Counting the rounded rocks of a row given as a literal. */
  lemma RowCount(r: seq<char>, text: seq<char>, n: nat)
    requires r == text && multiset(text)['O'] == n
    ensures CountO(r) == n
  {
    CountOMultiset(r);
  }

  /** The rounded rocks per row in the top half of the tilted example grid. */
  lemma SampleTopRowCounts(rows: seq<seq<char>>)
    requires |rows| == 10
    requires rows[0] == "OOOO.#.O.."
    requires rows[1] == "OO..#....#"
    requires rows[2] == "OO..O##..O"
    requires rows[3] == "O..#.OO..."
    requires rows[4] == "........#."
    ensures CountO(rows[0]) == 5 && CountO(rows[1]) == 2 && CountO(rows[2]) == 4 && CountO(rows[3]) == 3 && CountO(rows[4]) == 0
  {
    RowCount(rows[0], "OOOO.#.O..", 5);
    RowCount(rows[1], "OO..#....#", 2);
    RowCount(rows[2], "OO..O##..O", 4);
    RowCount(rows[3], "O..#.OO...", 3);
    RowCount(rows[4], "........#.", 0);
  }

  /** The rounded rocks per row in the bottom half of the tilted example grid. */
  lemma SampleBottomRowCounts(rows: seq<seq<char>>)
    requires |rows| == 10
    requires rows[5] == "..#....#.#"
    requires rows[6] == "..O..#.O.O"
    requires rows[7] == "..O......."
    requires rows[8] == "#....###.."
    requires rows[9] == "#....#...."
    ensures CountO(rows[5]) == 0 && CountO(rows[6]) == 3 && CountO(rows[7]) == 1 && CountO(rows[8]) == 0 && CountO(rows[9]) == 0
  {
    RowCount(rows[5], "..#....#.#", 0);
    RowCount(rows[6], "..O..#.O.O", 3);
    RowCount(rows[7], "..O.......", 1);
    RowCount(rows[8], "#....###..", 0);
    RowCount(rows[9], "#....#....", 0);
  }

  /** Ten rows with those rock counts have load 136. */
  lemma LoadOfCounts(rows: seq<seq<char>>)
    requires |rows| == 10
    requires CountO(rows[0]) == 5 && CountO(rows[1]) == 2 && CountO(rows[2]) == 4 && CountO(rows[3]) == 3 && CountO(rows[4]) == 0 && CountO(rows[5]) == 0 && CountO(rows[6]) == 3 && CountO(rows[7]) == 1 && CountO(rows[8]) == 0 && CountO(rows[9]) == 0
    ensures Load(rows) == 136
  {
    assert rows[9..][1..] == rows[10..];
    assert Load(rows[9..]) == 0;
    assert rows[8..][1..] == rows[9..];
    assert Load(rows[8..]) == 0;
    assert rows[7..][1..] == rows[8..];
    assert Load(rows[7..]) == 3;
    assert rows[6..][1..] == rows[7..];
    assert Load(rows[6..]) == 15;
    assert rows[5..][1..] == rows[6..];
    assert Load(rows[5..]) == 15;
    assert rows[4..][1..] == rows[5..];
    assert Load(rows[4..]) == 15;
    assert rows[3..][1..] == rows[4..];
    assert Load(rows[3..]) == 36;
    assert rows[2..][1..] == rows[3..];
    assert Load(rows[2..]) == 68;
    assert rows[1..][1..] == rows[2..];
    assert Load(rows[1..]) == 86;
    assert rows[0..][1..] == rows[1..];
    assert Load(rows[0..]) == 136;
    assert rows[0..] == rows;
  }

  /** The tilted example grid has load 136. */
  lemma SampleLoad(rows: seq<seq<char>>)
    requires rows == ["OOOO.#.O..", "OO..#....#", "OO..O##..O", "O..#.OO...", "........#.", "..#....#.#", "..O..#.O.O", "..O.......", "#....###..", "#....#...."]
    ensures Load(rows) == 136
  {
    SampleTopRowCounts(rows);
    SampleBottomRowCounts(rows);
    LoadOfCounts(rows);
  }
}
