/** Cube conundrum: each game is a list of draws of red, green and blue cubes
    from a bag. Part 1 adds up the ids of the games possible with 12 red, 13
    green and 14 blue cubes; part 2 adds up each game's power, the product of
    the fewest cubes of each colour that make the game possible. */
module CubeConundrum {
  import opened Wrappers

  /** One draw: how many cubes of each colour were shown. A colour not drawn is
      not a key. */
  type Draw = map<string, int>

  datatype Game = Game(id: int, draws: seq<Draw>)

  const RedLimit := 12
  const GreenLimit := 13
  const BlueLimit := 14

  /** `draw.get(color, 0)`. */
  function Count(draw: Draw, color: string): int
  {
    if color in draw then draw[color] else 0
  }

  /** A draw that the bag with the given cubes can show. */
  predicate DrawWithin(draw: Draw, red: int, green: int, blue: int)
  {
    Count(draw, "red") <= red && Count(draw, "green") <= green && Count(draw, "blue") <= blue
  }

  /** Every draw of the game fits the bag. */
  predicate Possible(game: Game, red: int, green: int, blue: int)
  {
    forall i :: 0 <= i < |game.draws| ==> DrawWithin(game.draws[i], red, green, blue)
  }

  /** `possible_game`: scans the draws and stops at the first one showing more
      cubes of some colour than the bag holds. */
  method PossibleGame(game: Game, red: int, green: int, blue: int) returns (possible: bool)
    ensures possible <==> Possible(game, red, green, blue)
  {
    for i := 0 to |game.draws|
      invariant forall j :: 0 <= j < i ==> DrawWithin(game.draws[j], red, green, blue)
    {
      var draw := game.draws[i];
      if Count(draw, "red") > red || Count(draw, "green") > green || Count(draw, "blue") > blue {
        return false;
      }
    }
    return true;
  }

  /** A game without draws fits any bag. */
  lemma NoDrawsPossible(game: Game, red: int, green: int, blue: int)
    requires game.draws == []
    ensures Possible(game, red, green, blue)
  {
  }

  /** More cubes of any colour never make a possible game impossible. */
  lemma PossibleMonotone(game: Game, red: int, green: int, blue: int, red': int, green': int, blue': int)
    requires Possible(game, red, green, blue)
    requires red <= red' && green <= green' && blue <= blue'
    ensures Possible(game, red', green', blue')
  {
  }

  // ---------------------------------------------------------------------------
  // Part 1
  // ---------------------------------------------------------------------------

  /** The ids of the games possible with the given bag, added up. */
  function PossibleIds(games: seq<Game>, red: int, green: int, blue: int): int
  {
    if games == [] then 0
    else
      var last := games[|games| - 1];
      PossibleIds(games[..|games| - 1], red, green, blue) +
        (if Possible(last, red, green, blue) then last.id else 0)
  }

  /** Two runs of games add up separately. */
  lemma {:induction false} PossibleIdsAppend(a: seq<Game>, b: seq<Game>, red: int, green: int, blue: int)
    ensures PossibleIds(a + b, red, green, blue) ==
            PossibleIds(a, red, green, blue) + PossibleIds(b, red, green, blue)
    decreases |b|
  {
    if b == [] {
      assert a + b == a;
    } else {
      var init := b[..|b| - 1];
      assert (a + b)[..|a + b| - 1] == a + init;
      assert (a + b)[|a + b| - 1] == b[|b| - 1];
      PossibleIdsAppend(a, init, red, green, blue);
    }
  }

  /** Impossible games add nothing, whatever their ids. */
  lemma {:induction false} NoneImpossible(games: seq<Game>, red: int, green: int, blue: int)
    requires forall k :: 0 <= k < |games| ==> !Possible(games[k], red, green, blue)
    ensures PossibleIds(games, red, green, blue) == 0
  {
    if games != [] {
      NoneImpossible(games[..|games| - 1], red, green, blue);
    }
  }

  /** `part1`: the ids of the games possible with 12 red, 13 green and 14 blue
      cubes. */
  method Part1(games: seq<Game>) returns (s: int)
    ensures s == PossibleIds(games, RedLimit, GreenLimit, BlueLimit)
  {
    s := 0;
    for k := 0 to |games|
      invariant s == PossibleIds(games[..k], RedLimit, GreenLimit, BlueLimit)
    {
      assert games[..k + 1][..k] == games[..k];
      var possible := PossibleGame(games[k], RedLimit, GreenLimit, BlueLimit);
      if possible {
        s := s + games[k].id;
      }
    }
    assert games[..|games|] == games;
  }

  // ---------------------------------------------------------------------------
  // Part 2
  // ---------------------------------------------------------------------------

  /** `max(draw.get(color, 0) for draw in draws)`: the most cubes of a colour
      shown in any draw. */
  function MaxCount(draws: seq<Draw>, color: string): (m: int)
    requires draws != []
    ensures forall i :: 0 <= i < |draws| ==> Count(draws[i], color) <= m
    ensures exists i :: 0 <= i < |draws| && Count(draws[i], color) == m
  {
    var c := Count(draws[|draws| - 1], color);
    if |draws| == 1 then c
    else
      var m := MaxCount(draws[..|draws| - 1], color);
      if c > m then c else m
  }

  /** The power of a game: the product of its per-colour maxima; `max` of no
      draws fails with `ValueError`. */
  function Power(game: Game): (r: Result<int>)
    ensures r.Err? <==> game.draws == []
  {
    if game.draws == [] then Err(ValueError)
    else
      Ok(MaxCount(game.draws, "red") * MaxCount(game.draws, "green") *
         MaxCount(game.draws, "blue"))
  }

  /** The per-colour maxima are the smallest bag the game is possible with:
      a bag works exactly when it holds at least that many of every colour. */
  lemma PossibleIffMaxima(game: Game, red: int, green: int, blue: int)
    requires game.draws != []
    ensures Possible(game, red, green, blue) <==>
            MaxCount(game.draws, "red") <= red &&
            MaxCount(game.draws, "green") <= green &&
            MaxCount(game.draws, "blue") <= blue
  {
    var ds := game.draws;
    if Possible(game, red, green, blue) {
      var ir :| 0 <= ir < |ds| && Count(ds[ir], "red") == MaxCount(ds, "red");
      var ig :| 0 <= ig < |ds| && Count(ds[ig], "green") == MaxCount(ds, "green");
      var ib :| 0 <= ib < |ds| && Count(ds[ib], "blue") == MaxCount(ds, "blue");
      assert DrawWithin(ds[ir], red, green, blue);
      assert DrawWithin(ds[ig], red, green, blue);
      assert DrawWithin(ds[ib], red, green, blue);
    }
  }

  /** The powers of all games added up; the first game without draws fails. */
  function TotalPower(games: seq<Game>): (r: Result<int>)
  {
    if games == [] then Ok(0)
    else
      match TotalPower(games[..|games| - 1])
      case Err(e) => Err(e)
      case Ok(t) =>
        match Power(games[|games| - 1])
        case Err(e) => Err(e)
        case Ok(p) => Ok(t + p)
  }

  /** Some game has no draws. */
  predicate SomeWithoutDraws(games: seq<Game>)
  {
    exists k :: 0 <= k < |games| && games[k].draws == []
  }

  lemma SomeWithoutDrawsSnoc(games: seq<Game>)
    requires games != []
    ensures SomeWithoutDraws(games) <==>
            SomeWithoutDraws(games[..|games| - 1]) || games[|games| - 1].draws == []
  {
    var init := games[..|games| - 1];
    if SomeWithoutDraws(init) {
      var k :| 0 <= k < |init| && init[k].draws == [];
      assert games[k] == init[k];
    }
    if SomeWithoutDraws(games) {
      var k :| 0 <= k < |games| && games[k].draws == [];
      if k < |init| {
        assert init[k] == games[k];
      }
    }
  }

  /** The total fails, with `ValueError`, exactly when some game has no draws. */
  lemma {:induction false} TotalPowerFails(games: seq<Game>)
    ensures TotalPower(games).Err? <==> SomeWithoutDraws(games)
    ensures TotalPower(games).Err? ==> TotalPower(games) == Err(ValueError)
  {
    if games != [] {
      TotalPowerFails(games[..|games| - 1]);
      SomeWithoutDrawsSnoc(games);
    }
  }

  /** `part2`: adds up the game powers, failing on a game without draws. */
  method Part2(games: seq<Game>) returns (r: Result<int>)
    ensures r == TotalPower(games)
  {
    var totalPower := 0;
    for k := 0 to |games|
      invariant TotalPower(games[..k]) == Ok(totalPower)
    {
      assert games[..k + 1][..k] == games[..k];
      var game := games[k];
      if game.draws == [] {
        assert TotalPower(games[..k + 1]) == Err(ValueError);
        FailurePersists(games, k + 1);
        return Err(ValueError);
      }
      var maxRed := MaxCount(game.draws, "red");
      var maxGreen := MaxCount(game.draws, "green");
      var maxBlue := MaxCount(game.draws, "blue");
      totalPower := totalPower + maxRed * maxGreen * maxBlue;
    }
    assert games[..|games|] == games;
    r := Ok(totalPower);
  }

  /** Once a prefix of the games fails, so do all the games. */
  lemma {:induction false} FailurePersists(games: seq<Game>, n: nat)
    requires n <= |games| && TotalPower(games[..n]).Err?
    ensures TotalPower(games) == TotalPower(games[..n])
    decreases |games| - n
  {
    if n == |games| {
      assert games[..n] == games;
    } else {
      assert games[..n + 1][..n] == games[..n];
      FailurePersists(games, n + 1);
    }
  }
}
