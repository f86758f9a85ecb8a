/** The example networks of the haunted wasteland puzzle, worked through. */
module HauntedWastelandSamples {
  import opened Wrappers
  import opened HauntedWasteland

  const Network1: Network := map[
    "AAA" := TreeNode("BBB", "CCC"), "BBB" := TreeNode("DDD", "EEE"),
    "CCC" := TreeNode("ZZZ", "GGG"), "DDD" := TreeNode("DDD", "DDD"),
    "EEE" := TreeNode("EEE", "EEE"), "GGG" := TreeNode("GGG", "GGG"),
    "ZZZ" := TreeNode("ZZZ", "ZZZ")]

  const Network2: Network := map[
    "AAA" := TreeNode("BBB", "BBB"), "BBB" := TreeNode("AAA", "ZZZ"),
    "ZZZ" := TreeNode("ZZZ", "ZZZ")]

  const Names3: seq<string> := ["11A", "11B", "11Z", "22A", "22B", "22C", "22Z", "XXX"]

  const Network3: Network := map[
    "11A" := TreeNode("11B", "XXX"), "11B" := TreeNode("XXX", "11Z"),
    "11Z" := TreeNode("11B", "XXX"), "22A" := TreeNode("22B", "XXX"),
    "22B" := TreeNode("22C", "22C"), "22C" := TreeNode("22Z", "22Z"),
    "22Z" := TreeNode("22B", "22B"), "XXX" := TreeNode("XXX", "XXX")]

  /** With instructions RL, AAA reaches ZZZ in two steps. */
  lemma SampleWalk1()
    ensures Walk("RL", Network1, "AAA", 0, 2) == Ok(Some(2))
  {
    assert Walk("RL", Network1, "ZZZ", 2, 0) == Ok(Some(2));
    assert Walk("RL", Network1, "CCC", 1, 1) == Ok(Some(2));
  }

  /** With instructions LLR, AAA reaches ZZZ in six steps. */
  lemma SampleWalk2()
    ensures Walk("LLR", Network2, "AAA", 0, 6) == Ok(Some(6))
  {
    assert Walk("LLR", Network2, "ZZZ", 6, 0) == Ok(Some(6));
    assert Walk("LLR", Network2, "BBB", 5, 1) == Ok(Some(6));
    assert Walk("LLR", Network2, "AAA", 4, 2) == Ok(Some(6));
    assert Walk("LLR", Network2, "BBB", 3, 3) == Ok(Some(6));
    assert Walk("LLR", Network2, "AAA", 2, 4) == Ok(Some(6));
    assert Walk("LLR", Network2, "BBB", 1, 5) == Ok(Some(6));
  }

  /** One lock-step move of two nodes that both step successfully. */
  lemma MoveTwo(directions: string, nodes: Network, d: char, a: string, b: string, a': string, b': string, step: nat, fuel: nat)
    requires directions != [] && fuel > 0 && !(EndsWith(a, 'Z') && EndsWith(b, 'Z'))
    requires Direction(directions, step) == d
    requires PerformStep(a, d, nodes) == Ok(a') && PerformStep(b, d, nodes) == Ok(b')
    ensures WalkAll(directions, nodes, [a, b], step, fuel) == WalkAll(directions, nodes, [a', b'], step + 1, fuel - 1)
  {
    assert [b][0] == b && [b][1..] == [];
    assert StepAll([], d, nodes) == Ok([]);
    assert [b'] + [] == [b'];
    assert StepAll([b], d, nodes) == Ok([b']);
    assert [a, b][0] == a && [a, b][1..] == [b];
    assert [a'] + [b'] == [a', b'];
    assert StepAll([a, b], d, nodes) == Ok([a', b']);
    assert !AllAtZ([a, b]) by {
      if EndsWith(a, 'Z') {
        assert [a, b][1] == b;
      } else {
        assert [a, b][0] == a;
      }
    }
  }

  lemma StartNodesCons(name: string, rest: seq<string>)
    ensures StartNodes([name] + rest) ==
            if EndsWith(name, 'A') then [name] + StartNodes(rest) else StartNodes(rest)
  {
    assert ([name] + rest)[0] == name && ([name] + rest)[1..] == rest;
  }

  lemma SampleStartNodes()
    ensures StartNodes(Names3) == ["11A", "22A"]
  {
    var s1 := ["XXX"];
    StartNodesCons("XXX", []);
    assert ["XXX"] + [] == s1;
    var s2 := ["22Z"] + s1;
    StartNodesCons("22Z", s1);
    var s3 := ["22C"] + s2;
    StartNodesCons("22C", s2);
    var s4 := ["22B"] + s3;
    StartNodesCons("22B", s3);
    var s5 := ["22A"] + s4;
    StartNodesCons("22A", s4);
    assert StartNodes(s5) == ["22A"];
    var s6 := ["11Z"] + s5;
    StartNodesCons("11Z", s5);
    var s7 := ["11B"] + s6;
    StartNodesCons("11B", s6);
    var s8 := ["11A"] + s7;
    StartNodesCons("11A", s7);
    assert StartNodes(s8) == ["11A"] + ["22A"];
    assert s8 == Names3;
  }

  /** The steps the two ghosts take in the third network. */
  lemma Network3Steps()
    ensures PerformStep("11A", 'L', Network3) == Ok("11B") && PerformStep("22A", 'L', Network3) == Ok("22B")
    ensures PerformStep("11B", 'R', Network3) == Ok("11Z") && PerformStep("22B", 'R', Network3) == Ok("22C")
    ensures PerformStep("11Z", 'L', Network3) == Ok("11B") && PerformStep("22C", 'L', Network3) == Ok("22Z")
    ensures PerformStep("11B", 'R', Network3) == Ok("11Z") && PerformStep("22Z", 'R', Network3) == Ok("22B")
    ensures PerformStep("11Z", 'L', Network3) == Ok("11B") && PerformStep("22B", 'L', Network3) == Ok("22C")
    ensures PerformStep("11B", 'R', Network3) == Ok("11Z") && PerformStep("22C", 'R', Network3) == Ok("22Z")
  {
  }

  /** The last three moves: from 11B and 22Z at step 3 to 11Z and 22Z. */
  lemma SampleLateMoves(directions: string, nodes: Network)
    requires directions == "LR" && nodes == Network3
    ensures WalkAll(directions, nodes, ["11B", "22Z"], 3, 3) == Ok(Some(6))
  {
    Network3Steps();
    assert AllAtZ(["11Z", "22Z"]);
    assert WalkAll(directions, nodes, ["11Z", "22Z"], 6, 0) == Ok(Some(6));
    MoveTwo(directions, nodes, 'R', "11B", "22C", "11Z", "22Z", 5, 1);
    MoveTwo(directions, nodes, 'L', "11Z", "22B", "11B", "22C", 4, 2);
    MoveTwo(directions, nodes, 'R', "11B", "22Z", "11Z", "22B", 3, 3);
  }

  /** The middle moves: from 11B and 22B at step 1 to 11B and 22Z at step 3. */
  lemma SampleMiddleMoves(directions: string, nodes: Network)
    requires directions == "LR" && nodes == Network3
    ensures WalkAll(directions, nodes, ["11B", "22B"], 1, 5) == Ok(Some(6))
  {
    Network3Steps();
    calc {
      WalkAll(directions, nodes, ["11B", "22B"], 1, 5);
      { MoveTwo(directions, nodes, 'R', "11B", "22B", "11Z", "22C", 1, 5); }
      WalkAll(directions, nodes, ["11Z", "22C"], 2, 4);
      { MoveTwo(directions, nodes, 'L', "11Z", "22C", "11B", "22Z", 2, 4); }
      WalkAll(directions, nodes, ["11B", "22Z"], 3, 3);
      { SampleLateMoves(directions, nodes); }
      Ok(Some(6));
    }
  }

  /** From 11A and 22A, every ghost is at a name ending in Z after six
      moves, and not before. */
  lemma SampleMoves(directions: string, nodes: Network)
    requires directions == "LR" && nodes == Network3
    ensures WalkAll(directions, nodes, ["11A", "22A"], 0, 6) == Ok(Some(6))
  {
    Network3Steps();
    calc {
      WalkAll(directions, nodes, ["11A", "22A"], 0, 6);
      { MoveTwo(directions, nodes, 'L', "11A", "22A", "11B", "22B", 0, 6); }
      WalkAll(directions, nodes, ["11B", "22B"], 1, 5);
      { SampleMiddleMoves(directions, nodes); }
      Ok(Some(6));
    }
  }

  /** The ghosts start at 11A and 22A and are all at names ending in Z after
      six moves. */
  lemma SampleWalkAll()
    ensures WalkAll("LR", Network3, StartNodes(Names3), 0, 6) == Ok(Some(6))
  {
    SampleMoves("LR", Network3);
    SampleStartNodes();
  }
}
