/** Pipe maze: a grid of pipe characters with one start cell `S` that lies on
    a closed loop of pipes. The walk leaves the start through the first
    neighbour (north, east, south, west) whose pipe connects back to it and
    follows the pipes until it is back at the start; part 1 answers half the
    loop's length, the number of steps to the cell farthest from the start. */
module PipeMaze {
  import opened Wrappers

  datatype Dir = N | E | S | W

  /** The maze's rows, as `list(map(list, inputs.splitlines()))` gives them. */
  type Maze = seq<seq<char>>

  /** A (row, column) pair; moves can leave the grid on either side. */
  type Pos = (int, int)

  predicate IsPipe(c: char)
  {
    c in "|-LJ7F"
  }

  /** `pipe_connections`: the two directions a pipe joins; nothing for any other
      character. */
  function PipeConnections(c: char): (r: seq<Dir>)
    ensures IsPipe(c) ==> |r| == 2 && r[0] != r[1]
    ensures !IsPipe(c) ==> r == []
  {
    match c
    case '|' => [N, S]
    case '-' => [E, W]
    case 'L' => [N, E]
    case 'J' => [N, W]
    case '7' => [S, W]
    case 'F' => [E, S]
    case _ => []
  }

  function Opposite(d: Dir): Dir
  {
    match d
    case N => S
    case E => W
    case S => N
    case W => E
  }

  /** One cell in direction `d`; no direction leaves the position as it is. */
  function Move(p: Pos, d: Option<Dir>): Pos
  {
    match d
    case None => p
    case Some(N) => (p.0 - 1, p.1)
    case Some(E) => (p.0, p.1 + 1)
    case Some(S) => (p.0 + 1, p.1)
    case Some(W) => (p.0, p.1 - 1)
  }

  /** The two positions are one row or one column apart. */
  predicate Adjacent(p: Pos, q: Pos)
  {
    (p.0 == q.0 && (p.1 - q.1 == 1 || q.1 - p.1 == 1)) ||
    (p.1 == q.1 && (p.0 - q.0 == 1 || q.0 - p.0 == 1))
  }

  lemma MoveAdjacent(p: Pos, d: Dir)
    ensures Adjacent(p, Move(p, Some(d))) && Adjacent(Move(p, Some(d)), p)
  {
  }

  /** Python indexing: a negative index counts from the end; anything else out
      of range is an `IndexError`. */
  function PyIndex<T>(s: seq<T>, i: int): (r: Result<T>)
    ensures r.Ok? <==> -|s| <= i < |s|
    ensures r.Ok? ==> r.value in s
  {
    if 0 <= i < |s| then Ok(s[i])
    else if -|s| <= i < 0 then Ok(s[|s| + i])
    else Err(IndexError)
  }

  /** `maze[x][y]`. */
  function CellAt(maze: Maze, p: Pos): Result<char>
  {
    match PyIndex(maze, p.0)
    case Err(e) => Err(e)
    case Ok(row) => PyIndex(row, p.1)
  }

  // ---------------------------------------------------------------------------
  // Finding the start
  // ---------------------------------------------------------------------------

  /** `row.index(c)`: the first position of `c` in the row, if any. */
  function IndexOf(row: seq<char>, c: char): (r: Option<nat>)
    ensures r.Some? ==> r.value < |row| && row[r.value] == c && c !in row[..r.value]
    ensures r.None? <==> c !in row
  {
    if row == [] then None
    else if row[0] == c then Some(0)
    else
      match IndexOf(row[1..], c)
      case None => None
      case Some(i) =>
        assert row[..i + 1] == [row[0]] + row[1..][..i];
        Some(i + 1)
  }

  /** The first `S` of the rows from `rowNum` on, in row-major order. */
  function StartFrom(maze: Maze, rowNum: nat): Option<Pos>
    requires rowNum <= |maze|
    decreases |maze| - rowNum
  {
    if rowNum == |maze| then None
    else
      match IndexOf(maze[rowNum], 'S')
      case Some(index) => Some((rowNum, index))
      case None => StartFrom(maze, rowNum + 1)
  }

  /** The start found in the whole maze. */
  function StartOf(maze: Maze): Option<Pos>
  {
    StartFrom(maze, 0)
  }

  /** The start is the first `S` in row-major order, and there is none only
      when no row holds an `S`. */
  lemma {:induction false} StartFromMeaning(maze: Maze, rowNum: nat)
    requires rowNum <= |maze|
    ensures var r := StartFrom(maze, rowNum);
            r.Some? ==> rowNum <= r.value.0 < |maze| && 0 <= r.value.1 < |maze[r.value.0]| &&
                        maze[r.value.0][r.value.1] == 'S' &&
                        (forall i :: rowNum <= i < r.value.0 ==> 'S' !in maze[i]) &&
                        'S' !in maze[r.value.0][..r.value.1]
    ensures StartFrom(maze, rowNum).None? <==> forall i :: rowNum <= i < |maze| ==> 'S' !in maze[i]
    decreases |maze| - rowNum
  {
    if rowNum < |maze| && IndexOf(maze[rowNum], 'S').None? {
      StartFromMeaning(maze, rowNum + 1);
    }
  }

  /** `find_start`: scans the rows in order and answers the first `S`. */
  method FindStart(maze: Maze) returns (r: Option<Pos>)
    ensures r == StartOf(maze)
  {
    for rowNum := 0 to |maze|
      invariant StartFrom(maze, rowNum) == StartOf(maze)
    {
      var index := IndexOf(maze[rowNum], 'S');
      if index.Some? {
        return Some((rowNum, index.value));
      }
    }
    return None;
  }

  // ---------------------------------------------------------------------------
  // Walking the loop
  // ---------------------------------------------------------------------------

  /** Whether the cell at `p` has a pipe end pointing in direction `d`. */
  function Connects(maze: Maze, p: Pos, d: Dir): Result<bool>
  {
    match CellAt(maze, p)
    case Err(e) => Err(e)
    case Ok(c) => Ok(d in PipeConnections(c))
  }

  /** The order in which the first direction is tried. */
  function Priority(d: Dir): nat
  {
    match d
    case N => 0
    case E => 1
    case S => 2
    case W => 3
  }

  /** The first direction: north, east, south or west, the first whose
      neighbour connects back to the start; none when no neighbour does. */
  function InitialDirection(maze: Maze, start: Pos): Result<Option<Dir>>
  {
    match Connects(maze, Move(start, Some(N)), S)
    case Err(e) => Err(e)
    case Ok(true) => Ok(Some(N))
    case Ok(false) =>
      match Connects(maze, Move(start, Some(E)), W)
      case Err(e) => Err(e)
      case Ok(true) => Ok(Some(E))
      case Ok(false) =>
        match Connects(maze, Move(start, Some(S)), N)
        case Err(e) => Err(e)
        case Ok(true) => Ok(Some(S))
        case Ok(false) =>
          match Connects(maze, Move(start, Some(W)), E)
          case Err(e) => Err(e)
          case Ok(true) => Ok(Some(W))
          case Ok(false) => Ok(None)
  }

  /** The chosen neighbour connects back to the start and every neighbour
      tried before it does not; indexing is the only way to fail. */
  lemma InitialDirectionMeaning(maze: Maze, start: Pos)
    ensures var r := InitialDirection(maze, start);
            r.Ok? && r.value.Some? ==>
              Connects(maze, Move(start, r.value), Opposite(r.value.value)) == Ok(true)
    ensures var r := InitialDirection(maze, start);
            r.Ok? ==> forall d :: (r.value.None? || Priority(d) < Priority(r.value.value)) ==>
              Connects(maze, Move(start, Some(d)), Opposite(d)) == Ok(false)
    ensures InitialDirection(maze, start).Err? ==> InitialDirection(maze, start).error == IndexError
  {
    var r := InitialDirection(maze, start);
    if r.Ok? {
      forall d | r.value.None? || Priority(d) < Priority(r.value.value)
        ensures Connects(maze, Move(start, Some(d)), Opposite(d)) == Ok(false)
      {
        match d
        case N => assert Opposite(N) == S;
        case E => assert Opposite(E) == W;
        case S => assert Opposite(S) == N;
        case W => assert Opposite(W) == E;
      }
    }
  }

  /** `[c for c in connections if c != d]`. */
  function Without(connections: seq<Dir>, d: Dir): (r: seq<Dir>)
    ensures forall c :: c in r <==> c in connections && c != d
    ensures |r| <= |connections|
  {
    if connections == [] then []
    else if connections[0] != d then [connections[0]] + Without(connections[1..], d)
    else Without(connections[1..], d)
  }

  /** The direction after entering a cell with these connections while moving
      in direction `d`: the one connection that does not lead back; unpacking
      fails with `ValueError` unless there is exactly one. Without a direction
      nothing changes. */
  function NextDirection(connections: seq<Dir>, d: Option<Dir>): Result<Option<Dir>>
  {
    match d
    case None => Ok(None)
    case Some(dir) =>
      var others := Without(connections, Opposite(dir));
      if |others| == 1 then Ok(Some(others[0])) else Err(ValueError)
  }

  /** Entering a cell succeeds exactly when it is a pipe with an end facing
      back; the walk then leaves through the pipe's other end. */
  lemma NextDirectionMeaning(c: char, d: Dir)
    ensures NextDirection(PipeConnections(c), Some(d)).Ok? <==>
            IsPipe(c) && Opposite(d) in PipeConnections(c)
    ensures var r := NextDirection(PipeConnections(c), Some(d));
            r.Ok? ==> r.value.Some? && r.value.value in PipeConnections(c) && r.value.value != Opposite(d)
  {
    var cs := PipeConnections(c);
    var others := Without(cs, Opposite(d));
    if IsPipe(c) {
      if Opposite(d) == cs[0] {
        assert others == Without([cs[1]], Opposite(d)) == [cs[1]];
      } else if Opposite(d) == cs[1] {
        assert [cs[1]][1..] == [];
        assert others == [cs[0]] + Without([cs[1]], Opposite(d)) == [cs[0]];
      } else {
        assert [cs[1]][1..] == [];
        assert others == [cs[0], cs[1]];
      }
    }
  }

  /** The cells the walk appends after `pos`, heading in direction `dir`,
      until the next move lands on `start`; at most `fuel` of them. */
  function Trace(maze: Maze, start: Pos, pos: Pos, dir: Option<Dir>, fuel: nat): Result<seq<Pos>>
    decreases fuel
  {
    var next := Move(pos, dir);
    if next == start then Ok([])
    else if fuel == 0 then Err(OutOfFuel)
    else
      match CellAt(maze, next)
      case Err(e) => Err(e)
      case Ok(c) =>
        match NextDirection(PipeConnections(c), dir)
        case Err(e) => Err(e)
        case Ok(nextDirection) =>
          match Trace(maze, start, next, nextDirection, fuel - 1)
          case Err(e) => Err(e)
          case Ok(rest) => Ok([next] + rest)
  }

  /** `path + rest`, passing an error through. */
  function Then(path: seq<Pos>, rest: Result<seq<Pos>>): Result<seq<Pos>>
  {
    match rest
    case Err(e) => Err(e)
    case Ok(cells) => Ok(path + cells)
  }

  /** The loop through `start`: the start, then the traced cells. */
  function WalkLoop(maze: Maze, start: Pos, fuel: nat): Result<seq<Pos>>
  {
    match InitialDirection(maze, start)
    case Err(e) => Err(e)
    case Ok(dir) => Then([start], Trace(maze, start, start, dir, fuel))
  }

  /** A trace that does not end at once enters a pipe, keeps a direction, and
      continues from there. */
  lemma TraceCons(maze: Maze, start: Pos, pos: Pos, dir: Option<Dir>, fuel: nat)
    requires Trace(maze, start, pos, dir, fuel).Ok? && Move(pos, dir) != start
    ensures fuel > 0 && dir.Some?
    ensures var next := Move(pos, dir);
            CellAt(maze, next).Ok? && IsPipe(CellAt(maze, next).value) &&
            var nd := NextDirection(PipeConnections(CellAt(maze, next).value), dir);
            nd.Ok? && nd.value.Some? &&
            Trace(maze, start, next, nd.value, fuel - 1).Ok? &&
            Trace(maze, start, pos, dir, fuel).value == [next] + Trace(maze, start, next, nd.value, fuel - 1).value
  {
    var next := Move(pos, dir);
    TraceStep(maze, start, pos, dir, fuel);
    var c := CellAt(maze, next).value;
    if dir.None? {
      assert next == pos;
      NoDirectionStays(maze, start, pos, fuel);
      assert false;
    }
    NextDirectionMeaning(c, dir.value);
  }

  /** The cells avoid the start and are all pipes. */
  predicate PipeCells(maze: Maze, start: Pos, cells: seq<Pos>)
  {
    forall i :: 0 <= i < |cells| ==>
      cells[i] != start && CellAt(maze, cells[i]).Ok? && IsPipe(CellAt(maze, cells[i]).value)
  }

  /** Each cell is one step from the one before. */
  predicate Steps(cells: seq<Pos>)
  {
    forall i :: 0 <= i < |cells| - 1 ==> Adjacent(cells[i], cells[i + 1])
  }

  lemma PipeCellsCons(maze: Maze, start: Pos, next: Pos, tail: seq<Pos>)
    requires next != start && CellAt(maze, next).Ok? && IsPipe(CellAt(maze, next).value)
    requires PipeCells(maze, start, tail)
    ensures PipeCells(maze, start, [next] + tail)
  {
    var cells := [next] + tail;
    assert forall i :: 1 <= i < |cells| ==> cells[i] == tail[i - 1];
  }

  lemma StepsCons(next: Pos, tail: seq<Pos>)
    requires Steps(tail) && (tail != [] ==> Adjacent(next, tail[0]))
    ensures Steps([next] + tail)
  {
    var cells := [next] + tail;
    assert forall i :: 1 <= i < |cells| ==> cells[i] == tail[i - 1];
  }

  /** The traced cells avoid the start and are pipes; the trace is empty
      exactly when the next move lands on the start. */
  lemma {:induction false} TraceCells(maze: Maze, start: Pos, pos: Pos, dir: Option<Dir>, fuel: nat)
    requires Trace(maze, start, pos, dir, fuel).Ok?
    ensures var rest := Trace(maze, start, pos, dir, fuel).value;
            (rest == [] <==> Move(pos, dir) == start) && PipeCells(maze, start, rest)
    decreases fuel
  {
    var next := Move(pos, dir);
    if next != start {
      TraceCons(maze, start, pos, dir, fuel);
      var nd := NextDirection(PipeConnections(CellAt(maze, next).value), dir).value;
      var tail := Trace(maze, start, next, nd, fuel - 1).value;
      TraceCells(maze, start, next, nd, fuel - 1);
      PipeCellsCons(maze, start, next, tail);
    }
  }

  /** Each traced cell is one step from the one before, the first is one step
      from where the trace began, and the last one step from the start: the
      trace closes the loop. */
  lemma {:induction false} TraceSteps(maze: Maze, start: Pos, pos: Pos, dir: Option<Dir>, fuel: nat)
    requires Trace(maze, start, pos, dir, fuel).Ok?
    ensures var rest := Trace(maze, start, pos, dir, fuel).value;
            Steps(rest) &&
            (rest != [] ==> Adjacent(pos, rest[0]) && Adjacent(rest[|rest| - 1], start))
    decreases fuel
  {
    var next := Move(pos, dir);
    if next != start {
      TraceCons(maze, start, pos, dir, fuel);
      var nd := NextDirection(PipeConnections(CellAt(maze, next).value), dir).value;
      var tail := Trace(maze, start, next, nd, fuel - 1).value;
      TraceSteps(maze, start, next, nd, fuel - 1);
      MoveAdjacent(pos, dir.value);
      StepsCons(next, tail);
      if tail == [] {
        TraceCells(maze, start, next, nd, fuel - 1);
        MoveAdjacent(next, nd.value);
      }
    }
  }

  /** Without a direction the walk stays put, so it can only end where it
      began. */
  lemma {:induction false} NoDirectionStays(maze: Maze, start: Pos, pos: Pos, fuel: nat)
    requires pos != start
    ensures Trace(maze, start, pos, None, fuel).Err?
    decreases fuel
  {
    if fuel > 0 && CellAt(maze, pos).Ok? {
      NoDirectionStays(maze, start, pos, fuel - 1);
    }
  }

  /** The walk's path starts at the start, never comes back to it, moves one
      cell at a time through pipes, and closes: its last cell is next to the
      start. */
  lemma WalkLoopShape(maze: Maze, start: Pos, fuel: nat)
    requires WalkLoop(maze, start, fuel).Ok?
    ensures var path := WalkLoop(maze, start, fuel).value;
            path != [] && path[0] == start &&
            PipeCells(maze, start, path[1..]) && Steps(path) &&
            (|path| > 1 ==> Adjacent(path[|path| - 1], start))
  {
    var dir := InitialDirection(maze, start).value;
    var rest := Trace(maze, start, start, dir, fuel).value;
    TraceCells(maze, start, start, dir, fuel);
    TraceSteps(maze, start, start, dir, fuel);
    StepsCons(start, rest);
    var path := [start] + rest;
    assert WalkLoop(maze, start, fuel).value == path;
    assert path[1..] == rest;
  }

  /** One step of the trace from a cell that is not followed by the start. */
  lemma TraceStep(maze: Maze, start: Pos, pos: Pos, dir: Option<Dir>, fuel: nat)
    requires Move(pos, dir) != start && fuel > 0
    ensures var next := Move(pos, dir);
            Trace(maze, start, pos, dir, fuel) ==
              match CellAt(maze, next)
              case Err(e) => Err(e)
              case Ok(c) =>
                match NextDirection(PipeConnections(c), dir)
                case Err(e) => Err(e)
                case Ok(nextDirection) => Then([next], Trace(maze, start, next, nextDirection, fuel - 1))
  {
  }

  lemma ThenAppend(path: seq<Pos>, next: Pos, rest: Result<seq<Pos>>)
    ensures Then(path, Then([next], rest)) == Then(path + [next], rest)
  {
    if rest.Ok? {
      assert path + ([next] + rest.value) == (path + [next]) + rest.value;
    }
  }

  /** What the walk answers once it has the cells `path` and heads in
      direction `dir`, with `fuel` more cells allowed. */
  function Walked(maze: Maze, start: Pos, path: seq<Pos>, dir: Option<Dir>, fuel: nat): Result<seq<Pos>>
    requires path != []
  {
    Then(path, Trace(maze, start, path[|path| - 1], dir, fuel))
  }

  /** One round of the loop of `walk`: the next move, then the cell it enters
      and the direction that pipe turns to. Either the walk ends in this round,
      back at the start or failing, and `result` is its answer, or it goes on
      with one more cell and a new direction. */
  method WalkRound(maze: Maze, start: Pos, path: seq<Pos>, currentDirection: Option<Dir>, ghost fuel: nat)
    returns (finished: bool, result: Result<seq<Pos>>, path': seq<Pos>, nextDirection: Option<Dir>)
    requires path != [] && fuel > 0
    ensures finished ==> result == Walked(maze, start, path, currentDirection, fuel)
    ensures !finished ==>
              path' != [] &&
              Walked(maze, start, path', nextDirection, fuel - 1) == Walked(maze, start, path, currentDirection, fuel)
  {
    path', nextDirection := path, currentDirection;
    var next := Move(path[|path| - 1], currentDirection);
    if next == start {
      assert path + [] == path;
      return true, Ok(path), path', nextDirection;
    }
    TraceStep(maze, start, path[|path| - 1], currentDirection, fuel);
    var cell := CellAt(maze, next);
    if cell.Err? {
      return true, Err(cell.error), path', nextDirection;
    }
    var turn := NextDirection(PipeConnections(cell.value), currentDirection);
    if turn.Err? {
      return true, Err(turn.error), path', nextDirection;
    }
    ThenAppend(path, next, Trace(maze, start, next, turn.value, fuel - 1));
    finished, result := false, Ok(path);
    path', nextDirection := path + [next], turn.value;
  }

  /** `walk`: follows the pipes from the start until the next move lands on it
      again; gives up after `fuel` cells. */
  method Walk(maze: Maze, start: Pos, fuel: nat) returns (r: Result<seq<Pos>>)
    ensures r == WalkLoop(maze, start, fuel)
  {
    var initial := InitialDirection(maze, start);
    if initial.Err? {
      return Err(initial.error);
    }
    r := WalkFrom(maze, start, initial.value, fuel);
    assert [start][0] == start;
  }

  /** The loop of `walk`, once the first direction is known. */
  method WalkFrom(maze: Maze, start: Pos, initialDirection: Option<Dir>, fuel: nat) returns (r: Result<seq<Pos>>)
    ensures r == Walked(maze, start, [start], initialDirection, fuel)
  {
    var currentDirection := initialDirection;
    var path := [start];
    var steps := 0;
    while steps < fuel
      invariant steps <= fuel && path != []
      invariant Walked(maze, start, path, currentDirection, fuel - steps) ==
                Walked(maze, start, [start], initialDirection, fuel)
    {
      var finished, result, path', nextDirection := WalkRound(maze, start, path, currentDirection, fuel - steps);
      if finished {
        return result;
      }
      path, currentDirection := path', nextDirection;
      steps := steps + 1;
    }
    var next := Move(path[|path| - 1], currentDirection);
    if next == start {
      assert path + [] == path;
      return Ok(path);
    }
    r := Err(OutOfFuel);
  }

  // ---------------------------------------------------------------------------
  // The walk always ends
  // ---------------------------------------------------------------------------

  /** More fuel does not change a trace that ended without running out. */
  lemma {:induction false} TraceFuel(maze: Maze, start: Pos, pos: Pos, dir: Option<Dir>, fuel: nat, fuel': nat)
    requires fuel <= fuel' && Trace(maze, start, pos, dir, fuel) != Err(OutOfFuel)
    ensures Trace(maze, start, pos, dir, fuel') == Trace(maze, start, pos, dir, fuel)
    decreases fuel
  {
    var next := Move(pos, dir);
    if next != start && fuel > 0 {
      match CellAt(maze, next)
      case Err(_) =>
      case Ok(c) =>
        match NextDirection(PipeConnections(c), dir)
        case Err(_) =>
        case Ok(nd) => TraceFuel(maze, start, next, nd, fuel - 1, fuel' - 1);
    }
  }

  /** The widest row. */
  function MaxWidth(maze: Maze): (w: nat)
    ensures forall i :: 0 <= i < |maze| ==> |maze[i]| <= w
  {
    if maze == [] then 0
    else var w := MaxWidth(maze[1..]); if |maze[0]| > w then |maze[0]| else w
  }

  /** The positions Python can index, counting negative indexes: rows from
      `-|maze|` and columns from minus the widest row. */
  predicate InBox(maze: Maze, p: Pos)
  {
    var width: int := MaxWidth(maze);
    -|maze| <= p.0 < |maze| && -width <= p.1 < width
  }

  lemma CellAtInBox(maze: Maze, p: Pos)
    requires CellAt(maze, p).Ok?
    ensures InBox(maze, p)
  {
    var row := PyIndex(maze, p.0).value;
    var i :| 0 <= i < |maze| && maze[i] == row;
  }

  /** One round of the walk as a move between states (cell, direction): the
      cell entered and the direction its pipe turns to; none when the lookup
      or the unpacking fails. */
  function Next(maze: Maze, p: Pos, d: Dir): Option<(Pos, Dir)>
  {
    var q := Move(p, Some(d));
    match CellAt(maze, q)
    case Err(_) => None
    case Ok(c) =>
      match NextDirection(PipeConnections(c), Some(d))
      case Ok(Some(e)) => Some((q, e))
      case _ => None
  }

  /** `Next` in the maze, as a function of the state. */
  function Round(maze: Maze): ((Pos, Dir)) -> Option<(Pos, Dir)>
  {
    (s: (Pos, Dir)) => Next(maze, s.0, s.1)
  }

  /** The state after `k` rounds of `step` from `s`, if they all succeed. */
  function Iterate(step: ((Pos, Dir)) -> Option<(Pos, Dir)>, s: (Pos, Dir), k: nat): Option<(Pos, Dir)>
  {
    if k == 0 then Some(s)
    else
      match Iterate(step, s, k - 1)
      case None => None
      case Some(t) => step(t)
  }

  /** `k + 1` rounds are one round followed by `k`. */
  lemma {:induction false} IterateShift(step: ((Pos, Dir)) -> Option<(Pos, Dir)>, s: (Pos, Dir), k: nat, t: (Pos, Dir))
    requires step(s) == Some(t)
    ensures Iterate(step, s, k + 1) == Iterate(step, t, k)
  {
    if k > 0 {
      IterateShift(step, s, k - 1, t);
    }
  }

  /** A trace that runs out of fuel went through `fuel` rounds, each of which
      succeeded and entered a cell other than the start. */
  lemma {:induction false} OutOfFuelStates(maze: Maze, start: Pos, pos: Pos, d: Dir, fuel: nat)
    requires Trace(maze, start, pos, Some(d), fuel) == Err(OutOfFuel)
    ensures forall k :: 1 <= k <= fuel ==>
              Iterate(Round(maze), (pos, d), k).Some? && Iterate(Round(maze), (pos, d), k).value.0 != start
    decreases fuel
  {
    if fuel > 0 {
      var next := Move(pos, Some(d));
      var c := CellAt(maze, next).value;
      var e := NextDirection(PipeConnections(c), Some(d)).value.value;
      assert Round(maze)((pos, d)) == Some((next, e));
      OutOfFuelStates(maze, start, next, e, fuel - 1);
      forall k | 1 <= k <= fuel
          ensures Iterate(Round(maze), (pos, d), k).Some? && Iterate(Round(maze), (pos, d), k).value.0 != start
      {
        IterateShift(Round(maze), (pos, d), k - 1, (next, e));
      }
    }
  }

  lemma OppositeInjective(d: Dir, d': Dir)
    requires Opposite(d) == Opposite(d')
    ensures d == d'
  {
  }

  /** The walk can be retraced: the pipe of the cell entered and the direction
      it turns to tell which way the walk came in, so two states that lead to
      the same state are the same. */
  lemma NextInjective(maze: Maze, p: Pos, d: Dir, p': Pos, d': Dir)
    requires Next(maze, p, d).Some? && Next(maze, p, d) == Next(maze, p', d')
    ensures p == p' && d == d'
  {
    var (q, e) := Next(maze, p, d).value;
    var c := CellAt(maze, q).value;
    var cs := PipeConnections(c);
    NextDirectionMeaning(c, d);
    NextDirectionMeaning(c, d');
    assert Opposite(d) == Opposite(d') by {
      assert |cs| == 2 && cs[0] != cs[1];
    }
    OppositeInjective(d, d');
  }

  /** The states of a walk that starts at `start` are all different, as long
      as none after the first is at `start` again. */
  lemma StatesDistinct(maze: Maze, start: Pos, d: Dir, n: nat, i: nat, j: nat)
    requires forall k :: 1 <= k <= n ==>
               Iterate(Round(maze), (start, d), k).Some? && Iterate(Round(maze), (start, d), k).value.0 != start
    requires i < j <= n
    ensures Iterate(Round(maze), (start, d), i) != Iterate(Round(maze), (start, d), j)
  {
    RoundInjective(maze);
    IterateDistinct(Round(maze), (start, d), n, i, j);
  }

  /** Different states never step to the same state. */
  lemma RoundInjective(maze: Maze)
    ensures forall a: (Pos, Dir), b: (Pos, Dir) :: Round(maze)(a).Some? && Round(maze)(a) == Round(maze)(b) ==> a == b
  {
    forall a: (Pos, Dir), b: (Pos, Dir) | Round(maze)(a).Some? && Round(maze)(a) == Round(maze)(b) ensures a == b {
      NextInjective(maze, a.0, a.1, b.0, b.1);
    }
  }

  /** With an injective step, a run that never comes back to its first cell
      visits no state twice. */
  lemma {:induction false} IterateDistinct(step: ((Pos, Dir)) -> Option<(Pos, Dir)>, s0: (Pos, Dir), n: nat, i: nat, j: nat)
    requires forall a: (Pos, Dir), b: (Pos, Dir) :: step(a).Some? && step(a) == step(b) ==> a == b
    requires forall k :: 1 <= k <= n ==> Iterate(step, s0, k).Some? && Iterate(step, s0, k).value.0 != s0.0
    requires i < j <= n
    ensures Iterate(step, s0, i) != Iterate(step, s0, j)
    decreases i
  {
    if i > 0 && Iterate(step, s0, i) == Iterate(step, s0, j) {
      IterateDistinct(step, s0, n, i - 1, j - 1);
    }
  }

  /** A number for each state in the box, below `16 * |maze| * MaxWidth(maze)`. */
  function Code(maze: Maze, s: (Pos, Dir)): int
  {
    ((s.0.0 + |maze|) * (2 * MaxWidth(maze)) + (s.0.1 + MaxWidth(maze))) * 4 + Priority(s.1)
  }

  lemma MulMono(a: int, b: int, k: nat)
    requires a <= b
    ensures a * k <= b * k
  {
  }

  /** Two digits in base `k` are determined by the number they make. */
  lemma DigitsUnique(x: int, y: int, x': int, y': int, k: nat)
    requires 0 <= y < k && 0 <= y' < k && x * k + y == x' * k + y'
    ensures x == x' && y == y'
  {
    if x < x' {
      MulMono(x + 1, x', k);
    } else if x' < x {
      MulMono(x' + 1, x, k);
    }
  }

  /** Three digits in bases `2 * r`, `2 * w` and 4 make a number below
      `16 * r * w`. */
  lemma PackRange(x: int, y: int, p: int, r: int, w: int)
    requires 0 <= x < 2 * r && 0 <= y < 2 * w && 0 <= p < 4
    ensures 0 <= (x * (2 * w) + y) * 4 + p < 16 * r * w
  {
    var a, b := 2 * r, 2 * w;
    MulMono(x, a - 1, b);
    assert (a - 1) * b == a * b - b;
    MulMono(x * b + y + 1, a * b, 4);
    assert a * b * 4 == 16 * r * w;
  }

  lemma CodeRange(maze: Maze, s: (Pos, Dir))
    requires InBox(maze, s.0)
    ensures 0 <= Code(maze, s) < 16 * |maze| * MaxWidth(maze)
  {
    PackRange(s.0.0 + |maze|, s.0.1 + MaxWidth(maze), Priority(s.1), |maze|, MaxWidth(maze));
  }

  lemma CodeInjective(maze: Maze, s: (Pos, Dir), t: (Pos, Dir))
    requires InBox(maze, s.0) && InBox(maze, t.0) && Code(maze, s) == Code(maze, t)
    ensures s == t
  {
    var rows, width := |maze|, MaxWidth(maze);
    DigitsUnique((s.0.0 + rows) * (2 * width) + (s.0.1 + width), Priority(s.1),
                 (t.0.0 + rows) * (2 * width) + (t.0.1 + width), Priority(t.1), 4);
    DigitsUnique(s.0.0 + rows, s.0.1 + width, t.0.0 + rows, t.0.1 + width, 2 * width);
    match s.1
    case N => assert t.1 == N;
    case E => assert t.1 == E;
    case S => assert t.1 == S;
    case W => assert t.1 == W;
  }

  /** The numbers from 0 below `m`. */
  function Range(m: nat): (r: set<int>)
    ensures |r| == m
    ensures forall x :: x in r <==> 0 <= x < m
  {
    if m == 0 then {} else Range(m - 1) + {m - 1}
  }

  /** A sequence without repetitions has as many distinct elements as entries. */
  lemma {:induction false} DistinctCard(xs: seq<int>)
    requires forall i, j :: 0 <= i < j < |xs| ==> xs[i] != xs[j]
    ensures |set i | 0 <= i < |xs| :: xs[i]| == |xs|
  {
    if xs != [] {
      var init := xs[..|xs| - 1];
      DistinctCard(init);
      assert (set i | 0 <= i < |xs| :: xs[i]) == (set i | 0 <= i < |init| :: init[i]) + {xs[|xs| - 1]};
    }
  }

  /** A subset is no larger than the set containing it. */
  lemma SubsetCard(a: set<int>, b: set<int>)
    requires a <= b
    ensures |a| <= |b|
  {
    assert b == a + (b - a);
    assert a * (b - a) == {};
  }

  /** Pigeonholes: distinct numbers below `m` number at most `m`. */
  lemma Pigeonhole(xs: seq<int>, m: nat)
    requires forall i, j :: 0 <= i < j < |xs| ==> xs[i] != xs[j]
    requires forall i :: 0 <= i < |xs| ==> 0 <= xs[i] < m
    ensures |xs| <= m
  {
    DistinctCard(xs);
    SubsetCard(set i | 0 <= i < |xs| :: xs[i], Range(m));
  }

  /** Every state after the first of a walk that keeps going entered a cell
      Python can index. */
  lemma StateInBox(maze: Maze, start: Pos, d: Dir, i: nat)
    requires i >= 1 && Iterate(Round(maze), (start, d), i).Some?
    ensures InBox(maze, Iterate(Round(maze), (start, d), i).value.0)
  {
    var prev := Iterate(Round(maze), (start, d), i - 1).value;
    assert Iterate(Round(maze), (start, d), i) == Next(maze, prev.0, prev.1);
    CellAtInBox(maze, Move(prev.0, Some(prev.1)));
  }

  /** Any numbering of states that is one-to-one on the box and bounded by `m`
      there bounds the number of different states in the box a run of `step`
      can visit one after the other. */
  lemma CountBound(maze: Maze, step: ((Pos, Dir)) -> Option<(Pos, Dir)>, s0: (Pos, Dir), n: nat,
                   code: ((Pos, Dir)) -> int, m: nat)
    requires forall k :: 1 <= k <= n ==> Iterate(step, s0, k).Some? && InBox(maze, Iterate(step, s0, k).value.0)
    requires forall i, j :: 1 <= i < j <= n ==> Iterate(step, s0, i) != Iterate(step, s0, j)
    requires forall s: (Pos, Dir), t: (Pos, Dir) :: InBox(maze, s.0) && InBox(maze, t.0) && code(s) == code(t) ==> s == t
    requires forall s: (Pos, Dir) :: InBox(maze, s.0) ==> 0 <= code(s) < m
    ensures n <= m
  {
    var codes := seq(n, i requires 0 <= i < n => code(Iterate(step, s0, i + 1).value));
    forall i, j | 0 <= i < j < n
      ensures codes[i] != codes[j]
    {
      assert Iterate(step, s0, i + 1) != Iterate(step, s0, j + 1);
    }
    Pigeonhole(codes, m);
  }

  /** `Code` as a function value. */
  function Coder(maze: Maze): ((Pos, Dir)) -> int
  {
    (s: (Pos, Dir)) => Code(maze, s)
  }

  /** `Coder(maze)` numbers the states in the box one-to-one, below
      `16 * |maze| * MaxWidth(maze)`. */
  lemma CoderFacts(maze: Maze)
    ensures forall s: (Pos, Dir), t: (Pos, Dir) ::
              InBox(maze, s.0) && InBox(maze, t.0) && Coder(maze)(s) == Coder(maze)(t) ==> s == t
    ensures forall s: (Pos, Dir) :: InBox(maze, s.0) ==> 0 <= Coder(maze)(s) < 16 * |maze| * MaxWidth(maze)
  {
    forall s: (Pos, Dir), t: (Pos, Dir) | InBox(maze, s.0) && InBox(maze, t.0) && Coder(maze)(s) == Coder(maze)(t)
      ensures s == t
    {
      CodeInjective(maze, s, t);
    }
    forall s: (Pos, Dir) | InBox(maze, s.0)
      ensures 0 <= Coder(maze)(s) < 16 * |maze| * MaxWidth(maze)
    {
      CodeRange(maze, s);
    }
  }

  /** Every state after the first of a walk is in the box. */
  lemma StatesInBox(maze: Maze, start: Pos, d: Dir, n: nat)
    requires forall k :: 1 <= k <= n ==> Iterate(Round(maze), (start, d), k).Some?
    ensures forall k :: 1 <= k <= n ==>
              Iterate(Round(maze), (start, d), k).Some? && InBox(maze, Iterate(Round(maze), (start, d), k).value.0)
  {
    forall k | 1 <= k <= n
      ensures Iterate(Round(maze), (start, d), k).Some? && InBox(maze, Iterate(Round(maze), (start, d), k).value.0)
    {
      StateInBox(maze, start, d, k);
    }
  }

  /** All states of a walk that never comes back to the start are different. */
  lemma AllStatesDistinct(maze: Maze, start: Pos, d: Dir, n: nat)
    requires forall k :: 1 <= k <= n ==>
               Iterate(Round(maze), (start, d), k).Some? && Iterate(Round(maze), (start, d), k).value.0 != start
    ensures forall i, j :: 1 <= i < j <= n ==> Iterate(Round(maze), (start, d), i) != Iterate(Round(maze), (start, d), j)
  {
    forall i, j | 1 <= i < j <= n
      ensures Iterate(Round(maze), (start, d), i) != Iterate(Round(maze), (start, d), j)
    {
      StatesDistinct(maze, start, d, n, i, j);
    }
  }

  /** A walk from the start that runs `n` rounds without coming back to it has
      no more rounds than there are states (cell, direction) Python can index:
      its states are all different. */
  lemma RunBound(maze: Maze, start: Pos, d: Dir, n: nat)
    requires forall k :: 1 <= k <= n ==>
               Iterate(Round(maze), (start, d), k).Some? && Iterate(Round(maze), (start, d), k).value.0 != start
    ensures n <= 16 * |maze| * MaxWidth(maze)
  {
    StatesInBox(maze, start, d, n);
    AllStatesDistinct(maze, start, d, n);
    CoderFacts(maze);
    CountBound(maze, Round(maze), (start, d), n, Coder(maze), 16 * |maze| * MaxWidth(maze));
  }

  /** A trace from the start never runs out of fuel once the fuel exceeds the
      number of states (cell, direction) Python can index. */
  lemma TraceEnds(maze: Maze, start: Pos, d: Dir, fuel: nat)
    requires fuel > 16 * |maze| * MaxWidth(maze)
    ensures Trace(maze, start, start, Some(d), fuel) != Err(OutOfFuel)
  {
    if Trace(maze, start, start, Some(d), fuel) == Err(OutOfFuel) {
      OutOfFuelStates(maze, start, start, d, fuel);
      RunBound(maze, start, d, fuel);
    }
  }

  /** `walk` always ends: with more fuel than states, it closes the loop or
      fails with `IndexError` or `ValueError`, and any more fuel changes
      nothing. */
  lemma WalkLoopEnds(maze: Maze, start: Pos, fuel: nat, fuel': nat)
    requires 16 * |maze| * MaxWidth(maze) < fuel <= fuel'
    ensures WalkLoop(maze, start, fuel) != Err(OutOfFuel)
    ensures WalkLoop(maze, start, fuel') == WalkLoop(maze, start, fuel)
  {
    var init := InitialDirection(maze, start);
    if init.Err? {
      InitialDirectionMeaning(maze, start);
      assert WalkLoop(maze, start, fuel) == Err(IndexError);
    } else {
      assert WalkLoop(maze, start, fuel) == Then([start], Trace(maze, start, start, init.value, fuel));
      assert WalkLoop(maze, start, fuel') == Then([start], Trace(maze, start, start, init.value, fuel'));
      if init.value.Some? {
        TraceEnds(maze, start, init.value.value, fuel);
      } else {
        assert Trace(maze, start, start, None, fuel) == Ok([]);
      }
      TraceFuel(maze, start, start, init.value, fuel, fuel');
    }
  }

  /** A fuel that ends some walk of the maze leaves the answers of both parts
      what they are with any more fuel. */
  lemma {:induction false} FarthestStepsFuel(maze: Maze, fuel: nat, fuel': nat)
    requires fuel <= fuel' && FarthestSteps(maze, fuel) != Err(OutOfFuel)
    ensures FarthestSteps(maze, fuel') == FarthestSteps(maze, fuel)
  {
    match StartOf(maze)
    case None =>
    case Some(start) =>
      match InitialDirection(maze, start)
      case Err(_) =>
      case Ok(dir) => TraceFuel(maze, start, start, dir, fuel, fuel');
  }

  /** Parts 1 and 2 never run out of fuel once it exceeds the walk's states,
      so from there on their answers do not depend on it. */
  lemma FarthestStepsEnds(maze: Maze, fuel: nat, fuel': nat)
    requires 16 * |maze| * MaxWidth(maze) < fuel <= fuel'
    ensures FarthestSteps(maze, fuel) != Err(OutOfFuel)
    ensures FarthestSteps(maze, fuel') == FarthestSteps(maze, fuel)
  {
    match StartOf(maze)
    case None =>
    case Some(start) => WalkLoopEnds(maze, start, fuel, fuel');
  }

  // ---------------------------------------------------------------------------
  // Part 1
  // ---------------------------------------------------------------------------

  /** Half the loop's length; a maze without a start fails when `walk` unpacks
      `None`. */
  function FarthestSteps(maze: Maze, fuel: nat): Result<nat>
  {
    match StartOf(maze)
    case None => Err(TypeError)
    case Some(start) =>
      match WalkLoop(maze, start, fuel)
      case Err(e) => Err(e)
      case Ok(path) => Ok(|path| / 2)
  }

  /** `part1`: the number of steps along the loop to its farthest cell. */
  method Part1(maze: Maze, fuel: nat) returns (r: Result<nat>)
    ensures r == FarthestSteps(maze, fuel)
  {
    var start := FindStart(maze);
    if start.None? {
      return Err(TypeError);
    }
    var path := Walk(maze, start.value, fuel);
    if path.Err? {
      return Err(path.error);
    }
    r := Ok(|path.value| / 2);
  }

  // ---------------------------------------------------------------------------
  // Part 2
  // ---------------------------------------------------------------------------

  /** `part2`: finds the start and walks the loop as part 1 does, then answers 0
      whatever the loop encloses; it fails exactly where part 1 fails. */
  method Part2(maze: Maze, fuel: nat) returns (r: Result<nat>)
    ensures r.Ok? <==> FarthestSteps(maze, fuel).Ok?
    ensures r.Err? ==> r == Err(FarthestSteps(maze, fuel).error)
    ensures r.Ok? ==> r.value == 0
  {
    var start := FindStart(maze);
    if start.None? {
      return Err(TypeError);
    }
    var path := Walk(maze, start.value, fuel);
    if path.Err? {
      return Err(path.error);
    }
    r := Ok(0);
  }
}
