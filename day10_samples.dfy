/** The example mazes of the pipe maze puzzle, walked step by step. */
module PipeMazeSamples {
  import opened Wrappers
  import opened PipeMaze

  const Loop1: Maze := [".....", ".S-7.", ".|.|.", ".L-J.", "....."]

  const Loop2: Maze := ["-L|F7", "7S-7|", "L|7||", "-L-J|", "L|-JF"]

  /** One step along a pipe: enter the cell `next` that `d` leads to, turn to
      `nd`, and trace `rest` from there. */
  lemma Follow(maze: Maze, start: Pos, pos: Pos, d: Dir, next: Pos, c: char, nd: Dir,
               fuel: nat, rest: seq<Pos>)
    requires next == Move(pos, Some(d)) && next != start && fuel > 0
    requires CellAt(maze, next) == Ok(c)
    requires IsPipe(c) && Opposite(d) in PipeConnections(c)
    requires nd in PipeConnections(c) && nd != Opposite(d)
    requires Trace(maze, start, next, Some(nd), fuel - 1) == Ok(rest)
    ensures Trace(maze, start, pos, Some(d), fuel) == Ok([next] + rest)
  {
    NextDirectionMeaning(c, d);
    assert NextDirection(PipeConnections(c), Some(d)) == Ok(Some(nd));
    TraceStep(maze, start, pos, Some(d), fuel);
  }

  /** The loop shared by the first two examples: east from (1, 1), around the
      3 by 3 square, and back. */
  predicate SquareLoop(maze: Maze)
  {
    CellAt(maze, (1, 2)) == Ok('-') && CellAt(maze, (1, 3)) == Ok('7') &&
    CellAt(maze, (2, 3)) == Ok('|') && CellAt(maze, (3, 3)) == Ok('J') &&
    CellAt(maze, (3, 2)) == Ok('-') && CellAt(maze, (3, 1)) == Ok('L') &&
    CellAt(maze, (2, 1)) == Ok('|')
  }

  /** The paths of the square loop, cell by cell from its end. */
  lemma SquarePaths()
    ensures [(2, 1)] + [] == [(2, 1)]
    ensures [(3, 1)] + [(2, 1)] == [(3, 1), (2, 1)]
    ensures [(3, 2)] + [(3, 1), (2, 1)] == [(3, 2), (3, 1), (2, 1)]
    ensures [(3, 3)] + [(3, 2), (3, 1), (2, 1)] == [(3, 3), (3, 2), (3, 1), (2, 1)]
    ensures [(2, 3)] + [(3, 3), (3, 2), (3, 1), (2, 1)] == [(2, 3), (3, 3), (3, 2), (3, 1), (2, 1)]
    ensures [(1, 3)] + [(2, 3), (3, 3), (3, 2), (3, 1), (2, 1)] == [(1, 3), (2, 3), (3, 3), (3, 2), (3, 1), (2, 1)]
    ensures [(1, 2)] + [(1, 3), (2, 3), (3, 3), (3, 2), (3, 1), (2, 1)] == [(1, 2), (1, 3), (2, 3), (3, 3), (3, 2), (3, 1), (2, 1)]
    ensures [(1, 1)] + [(1, 2), (1, 3), (2, 3), (3, 3), (3, 2), (3, 1), (2, 1)] ==
            [(1, 1), (1, 2), (1, 3), (2, 3), (3, 3), (3, 2), (3, 1), (2, 1)]
  {
  }

  /** The west and north sides of the square, back to the start. */
  lemma SquareTail(maze: Maze, fuel: nat)
    requires SquareLoop(maze) && fuel >= 3
    ensures Trace(maze, (1, 1), (3, 3), Some(W), fuel) == Ok([(3, 2), (3, 1), (2, 1)])
  {
    var start := (1, 1);
    SquarePaths();
    assert Trace(maze, start, (2, 1), Some(N), fuel - 3) == Ok([]);
    Follow(maze, start, (3, 1), N, (2, 1), '|', N, fuel - 2, []);
    Follow(maze, start, (3, 2), W, (3, 1), 'L', N, fuel - 1, [(2, 1)]);
    Follow(maze, start, (3, 3), W, (3, 2), '-', W, fuel, [(3, 1), (2, 1)]);
  }

  /** The east side of the square, down to its south-east corner. */
  lemma SquareMiddle(maze: Maze, fuel: nat)
    requires SquareLoop(maze) && fuel >= 5
    ensures Trace(maze, (1, 1), (1, 3), Some(S), fuel) ==
            Ok([(2, 3), (3, 3), (3, 2), (3, 1), (2, 1)])
  {
    var start := (1, 1);
    SquarePaths();
    SquareTail(maze, fuel - 2);
    Follow(maze, start, (2, 3), S, (3, 3), 'J', W, fuel - 1, [(3, 2), (3, 1), (2, 1)]);
    Follow(maze, start, (1, 3), S, (2, 3), '|', S, fuel, [(3, 3), (3, 2), (3, 1), (2, 1)]);
  }

  /** The whole loop, leaving the start eastwards. */
  lemma SquareTrace(maze: Maze, fuel: nat)
    requires SquareLoop(maze) && fuel >= 7
    ensures Trace(maze, (1, 1), (1, 1), Some(E), fuel) ==
            Ok([(1, 2), (1, 3), (2, 3), (3, 3), (3, 2), (3, 1), (2, 1)])
  {
    var start := (1, 1);
    SquarePaths();
    SquareMiddle(maze, fuel - 2);
    Follow(maze, start, (1, 2), E, (1, 3), '7', S, fuel - 1, [(2, 3), (3, 3), (3, 2), (3, 1), (2, 1)]);
    Follow(maze, start, (1, 1), E, (1, 2), '-', E, fuel, [(1, 3), (2, 3), (3, 3), (3, 2), (3, 1), (2, 1)]);
  }

  lemma Loop1Cells(maze: Maze)
    requires maze == Loop1
    ensures SquareLoop(maze)
    ensures CellAt(maze, (0, 1)) == Ok('.')
  {
  }

  lemma Loop2Cells(maze: Maze)
    requires maze == Loop2
    ensures SquareLoop(maze)
    ensures CellAt(maze, (0, 1)) == Ok('L')
  {
  }

  /** The first example's loop, as the test lists it. */
  lemma SampleLoop1(fuel: nat)
    requires fuel >= 7
    ensures WalkLoop(Loop1, (1, 1), fuel) ==
            Ok([(1, 1), (1, 2), (1, 3), (2, 3), (3, 3), (3, 2), (3, 1), (2, 1)])
  {
    Loop1Cells(Loop1);
    assert InitialDirection(Loop1, (1, 1)) == Ok(Some(E));
    SquareTrace(Loop1, fuel);
    SquarePaths();
  }

  /** The second example surrounds the same loop with other pipes. */
  lemma SampleLoop2(fuel: nat)
    requires fuel >= 7
    ensures WalkLoop(Loop2, (1, 1), fuel) ==
            Ok([(1, 1), (1, 2), (1, 3), (2, 3), (3, 3), (3, 2), (3, 1), (2, 1)])
  {
    Loop2Cells(Loop2);
    assert InitialDirection(Loop2, (1, 1)) == Ok(Some(E));
    SquareTrace(Loop2, fuel);
    SquarePaths();
  }

  /** `find_start` on the first two examples: the `S` in row 1, column 1. */
  lemma SampleStarts()
    ensures StartOf(Loop1) == Some((1, 1))
    ensures StartOf(Loop2) == Some((1, 1))
  {
    assert IndexOf(Loop1[0], 'S') == None;
    assert IndexOf(Loop1[1], 'S') == Some(1);
    assert IndexOf(Loop2[0], 'S') == None;
    assert IndexOf(Loop2[1], 'S') == Some(1);
  }

  /** The farthest cell of the second example is 4 steps from the start. */
  lemma SampleFarthest2(fuel: nat)
    requires fuel >= 7
    ensures FarthestSteps(Loop2, fuel) == Ok(4)
  {
    SampleStarts();
    SampleLoop2(fuel);
  }
}
