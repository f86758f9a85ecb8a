/** Haunted wasteland: a network of nodes, each with a left and a right
    successor, and a list of left/right instructions followed over and over.
    Part 1 counts the steps from AAA to ZZZ; part 2 moves from every node
    ending in A at once until all of them end in Z. Both walks are unbounded in
    the program; here they take a fuel bound and report `OutOfFuel` when it is
    used up. */
module HauntedWasteland {
  import opened Wrappers

  datatype TreeNode = TreeNode(left: string, right: string)

  type Network = map<string, TreeNode>

  /** `perform_step`: the left or the right successor; a node missing from the
      network is a `KeyError`, a direction other than L and R a
      `RuntimeError`. */
  function PerformStep(currentNode: string, direction: char, nodes: Network): (r: Result<string>)
    ensures r.Ok? <==> (direction == 'L' || direction == 'R') && currentNode in nodes
    ensures r.Ok? && direction == 'L' ==> r.value == nodes[currentNode].left
    ensures r.Ok? && direction == 'R' ==> r.value == nodes[currentNode].right
    ensures direction != 'L' && direction != 'R' ==> r == Err(RuntimeError)
    ensures (direction == 'L' || direction == 'R') && currentNode !in nodes ==> r == Err(KeyError)
  {
    if direction == 'L' then
      if currentNode in nodes then Ok(nodes[currentNode].left) else Err(KeyError)
    else if direction == 'R' then
      if currentNode in nodes then Ok(nodes[currentNode].right) else Err(KeyError)
    else Err(RuntimeError)
  }

  /** The direction of step `k` of `cycle(directions)`. */
  function Direction(directions: string, k: nat): char
    requires directions != []
  {
    directions[k % |directions|]
  }

  // ---------------------------------------------------------------------------
  // Part 1
  // ---------------------------------------------------------------------------

  /** Where `k` steps from `start` lead, or the error of the first step that
      fails. */
  function NodeAfter(directions: string, nodes: Network, start: string, k: nat): Result<string>
    requires directions != []
  {
    if k == 0 then Ok(start)
    else
      match NodeAfter(directions, nodes, start, k - 1)
      case Err(e) => Err(e)
      case Ok(node) => PerformStep(node, Direction(directions, k - 1), nodes)
  }

  /** The walk of part 1 from `node`, reached after `step` steps: stops at ZZZ
      with the step count, or at the first failing step, or when `fuel` more
      steps have been taken. An empty instruction list ends the loop at once
      without a result, as iterating over an empty `cycle` does. */
  function Walk(directions: string, nodes: Network, node: string, step: nat, fuel: nat): Result<Option<nat>>
    decreases fuel
  {
    if directions == [] then Ok(None)
    else if node == "ZZZ" then Ok(Some(step))
    else if fuel == 0 then Err(OutOfFuel)
    else
      match PerformStep(node, Direction(directions, step), nodes)
      case Err(e) => Err(e)
      case Ok(next) => Walk(directions, nodes, next, step + 1, fuel - 1)
  }

  /** `k` is the least number of steps from `start` to ZZZ. */
  predicate FirstArrival(directions: string, nodes: Network, start: string, k: nat)
    requires directions != []
  {
    NodeAfter(directions, nodes, start, k) == Ok("ZZZ") &&
    forall j :: 0 <= j < k ==> NodeAfter(directions, nodes, start, j) != Ok("ZZZ")
  }

  /** The walk from the node `start` leads to after `step` steps, none of which
      reached ZZZ, answers the least number of steps from `start` to ZZZ. */
  lemma {:induction false} WalkMeaning(directions: string, nodes: Network, start: string, step: nat, fuel: nat)
    requires directions != [] && NodeAfter(directions, nodes, start, step).Ok?
    requires forall j :: 0 <= j < step ==> NodeAfter(directions, nodes, start, j) != Ok("ZZZ")
    ensures var r := Walk(directions, nodes, NodeAfter(directions, nodes, start, step).value, step, fuel);
            r.Ok? ==> r.value.Some? && step <= r.value.value &&
                      FirstArrival(directions, nodes, start, r.value.value)
    decreases fuel
  {
    var node := NodeAfter(directions, nodes, start, step).value;
    if node != "ZZZ" && fuel > 0 {
      var s := PerformStep(node, Direction(directions, step), nodes);
      if s.Ok? {
        assert NodeAfter(directions, nodes, start, step + 1) == s;
        assert Walk(directions, nodes, node, step, fuel) == Walk(directions, nodes, s.value, step + 1, fuel - 1);
        WalkMeaning(directions, nodes, start, step + 1, fuel - 1);
      }
    }
  }

  /** Part 1 answers the least number of steps from AAA to ZZZ. */
  lemma Part1Meaning(directions: string, nodes: Network, fuel: nat)
    requires directions != []
    ensures var r := Walk(directions, nodes, "AAA", 0, fuel);
            r.Ok? ==> r.value.Some? && FirstArrival(directions, nodes, "AAA", r.value.value)
  {
    WalkMeaning(directions, nodes, "AAA", 0, fuel);
  }

  /** More fuel does not change a walk that ended without running out. */
  lemma {:induction false} WalkFuel(directions: string, nodes: Network, node: string, step: nat, fuel: nat, fuel': nat)
    requires fuel <= fuel' && Walk(directions, nodes, node, step, fuel) != Err(OutOfFuel)
    ensures Walk(directions, nodes, node, step, fuel') == Walk(directions, nodes, node, step, fuel)
    decreases fuel
  {
    if directions != [] && node != "ZZZ" && fuel > 0 {
      match PerformStep(node, Direction(directions, step), nodes)
      case Err(_) =>
      case Ok(next) => WalkFuel(directions, nodes, next, step + 1, fuel - 1, fuel' - 1);
    }
  }

  /** A failed step stays failed: if `k` steps succeed, so does every shorter walk. */
  lemma {:induction false} NodeAfterOkBefore(directions: string, nodes: Network, start: string, j: nat, k: nat)
    requires directions != [] && j <= k && NodeAfter(directions, nodes, start, k).Ok?
    ensures NodeAfter(directions, nodes, start, j).Ok?
    decreases k - j
  {
    if j < k {
      NodeAfterOkBefore(directions, nodes, start, j, k - 1);
    }
  }

  /** The walk from where `step` steps lead answers the least arrival `k`
      whenever it is within reach of the fuel. */
  lemma {:induction false} WalkComplete(directions: string, nodes: Network, start: string, step: nat, fuel: nat, k: nat)
    requires directions != [] && step <= k <= step + fuel
    requires FirstArrival(directions, nodes, start, k)
    ensures NodeAfter(directions, nodes, start, step).Ok?
    ensures Walk(directions, nodes, NodeAfter(directions, nodes, start, step).value, step, fuel) == Ok(Some(k))
    decreases fuel
  {
    NodeAfterOkBefore(directions, nodes, start, step, k);
    var node := NodeAfter(directions, nodes, start, step).value;
    if step < k {
      assert NodeAfter(directions, nodes, start, step) != Ok("ZZZ");
      NodeAfterOkBefore(directions, nodes, start, step + 1, k);
      var s := PerformStep(node, Direction(directions, step), nodes);
      assert NodeAfter(directions, nodes, start, step + 1) == s;
      WalkComplete(directions, nodes, start, step + 1, fuel - 1, k);
    }
  }

  /** Part 1 answers the least number of steps `k` from AAA to ZZZ, given at
      least `k` steps of fuel. */
  lemma Part1Complete(directions: string, nodes: Network, fuel: nat, k: nat)
    requires directions != [] && k <= fuel && FirstArrival(directions, nodes, "AAA", k)
    ensures Walk(directions, nodes, "AAA", 0, fuel) == Ok(Some(k))
  {
    WalkComplete(directions, nodes, "AAA", 0, fuel, k);
  }

  /** Step `k` from `start` is the first to fail, with error `e`, and ZZZ was
      not reached before it. */
  predicate FirstFailure(directions: string, nodes: Network, start: string, k: nat, e: Error)
    requires directions != []
  {
    NodeAfter(directions, nodes, start, k) == Err(e) &&
    forall j :: 0 <= j < k ==> NodeAfter(directions, nodes, start, j).Ok? && NodeAfter(directions, nodes, start, j) != Ok("ZZZ")
  }

  /** A walk that fails other than by running out of fuel stops at the first
      failing step, before any arrival; one that runs out of fuel met neither a
      failure nor ZZZ within its fuel. */
  lemma {:induction false} WalkErrMeaning(directions: string, nodes: Network, start: string, step: nat, fuel: nat)
    requires directions != [] && NodeAfter(directions, nodes, start, step).Ok?
    requires forall j :: 0 <= j < step ==> NodeAfter(directions, nodes, start, j) != Ok("ZZZ")
    ensures var r := Walk(directions, nodes, NodeAfter(directions, nodes, start, step).value, step, fuel);
            r.Err? && r.error != OutOfFuel ==>
              exists k :: step < k <= step + fuel && FirstFailure(directions, nodes, start, k, r.error)
    ensures var r := Walk(directions, nodes, NodeAfter(directions, nodes, start, step).value, step, fuel);
            r == Err(OutOfFuel) ==>
              forall j :: step <= j <= step + fuel ==>
                NodeAfter(directions, nodes, start, j).Ok? && NodeAfter(directions, nodes, start, j) != Ok("ZZZ")
    decreases fuel
  {
    var node := NodeAfter(directions, nodes, start, step).value;
    if node != "ZZZ" && fuel > 0 {
      var s := PerformStep(node, Direction(directions, step), nodes);
      assert NodeAfter(directions, nodes, start, step + 1) == s;
      if s.Ok? {
        WalkErrMeaning(directions, nodes, start, step + 1, fuel - 1);
      } else {
        forall j | 0 <= j < step + 1
          ensures NodeAfter(directions, nodes, start, j).Ok? && NodeAfter(directions, nodes, start, j) != Ok("ZZZ")
        {
          NodeAfterOkBefore(directions, nodes, start, j, step);
        }
        assert FirstFailure(directions, nodes, start, step + 1, s.error);
      }
    }
  }

  /** Part 1 fails with `KeyError` or `RuntimeError` exactly at the first step
      that fails, before ZZZ is reached; it runs out of fuel only when no step
      within the fuel fails or reaches ZZZ. */
  lemma Part1Errors(directions: string, nodes: Network, fuel: nat)
    requires directions != []
    ensures var r := Walk(directions, nodes, "AAA", 0, fuel);
            r.Err? && r.error != OutOfFuel ==>
              exists k :: 0 < k <= fuel && FirstFailure(directions, nodes, "AAA", k, r.error)
    ensures Walk(directions, nodes, "AAA", 0, fuel) == Err(OutOfFuel) ==>
              forall j :: 0 <= j <= fuel ==>
                NodeAfter(directions, nodes, "AAA", j).Ok? && NodeAfter(directions, nodes, "AAA", j) != Ok("ZZZ")
  {
    WalkErrMeaning(directions, nodes, "AAA", 0, fuel);
  }

  /** `part1`: walks from AAA, one instruction per step, until ZZZ; gives up
      after `fuel` steps. */
  method Part1(directions: string, nodes: Network, fuel: nat) returns (r: Result<Option<nat>>)
    ensures r == Walk(directions, nodes, "AAA", 0, fuel)
  {
    if directions == [] {
      return Ok(None);
    }
    var currentNode := "AAA";
    var step := 0;
    while step < fuel
      invariant step <= fuel
      invariant Walk(directions, nodes, currentNode, step, fuel - step) ==
                Walk(directions, nodes, "AAA", 0, fuel)
    {
      if currentNode == "ZZZ" {
        return Ok(Some(step));
      }
      var next := PerformStep(currentNode, directions[step % |directions|], nodes);
      if next.Err? {
        return Err(next.error);
      }
      currentNode := next.value;
      step := step + 1;
    }
    if currentNode == "ZZZ" {
      return Ok(Some(step));
    }
    r := Err(OutOfFuel);
  }

  // ---------------------------------------------------------------------------
  // Part 2
  // ---------------------------------------------------------------------------

  predicate EndsWith(name: string, c: char)
  {
    name != [] && name[|name| - 1] == c
  }

  /** `[node for node in nodes if node.endswith("A")]`, over the network's names
      in the order the network lists them. */
  function StartNodes(names: seq<string>): seq<string>
  {
    if names == [] then []
    else if EndsWith(names[0], 'A') then [names[0]] + StartNodes(names[1..])
    else StartNodes(names[1..])
  }

  /** The walk starts from exactly the names that end in A. */
  lemma {:induction false} StartNodesMembers(names: seq<string>)
    ensures forall n :: n in StartNodes(names) <==> n in names && EndsWith(n, 'A')
  {
    if names != [] {
      StartNodesMembers(names[1..]);
      assert names == [names[0]] + names[1..];
    }
  }

  /** Every node ends in Z. */
  predicate AllAtZ(current: seq<string>)
  {
    forall i :: 0 <= i < |current| ==> EndsWith(current[i], 'Z')
  }

  /** One lock-step move of all the nodes; the first node whose step fails fails
      the move. */
  function StepAll(current: seq<string>, direction: char, nodes: Network): (r: Result<seq<string>>)
    ensures r.Err? ==> r.error == KeyError || r.error == RuntimeError
  {
    if current == [] then Ok([])
    else
      match PerformStep(current[0], direction, nodes)
      case Err(e) => Err(e)
      case Ok(first) =>
        match StepAll(current[1..], direction, nodes)
        case Err(e) => Err(e)
        case Ok(rest) => Ok([first] + rest)
  }

  /** A move succeeds exactly when every node steps, and then takes each node
      to its own successor, in order. */
  lemma {:induction false} StepAllMeaning(current: seq<string>, direction: char, nodes: Network)
    ensures StepAll(current, direction, nodes).Ok? <==>
            forall i :: 0 <= i < |current| ==> PerformStep(current[i], direction, nodes).Ok?
    ensures StepAll(current, direction, nodes).Ok? ==>
              |StepAll(current, direction, nodes).value| == |current| &&
              forall i :: 0 <= i < |current| ==>
                PerformStep(current[i], direction, nodes) == Ok(StepAll(current, direction, nodes).value[i])
  {
    if current != [] {
      StepAllMeaning(current[1..], direction, nodes);
      assert forall i :: 1 <= i < |current| ==> current[i] == current[1..][i - 1];
    }
  }

  /** The walk of part 2, with the same stopping rules as part 1's. */
  function WalkAll(directions: string, nodes: Network, current: seq<string>, step: nat, fuel: nat): Result<Option<nat>>
    decreases fuel
  {
    if directions == [] then Ok(None)
    else if AllAtZ(current) then Ok(Some(step))
    else if fuel == 0 then Err(OutOfFuel)
    else
      match StepAll(current, Direction(directions, step), nodes)
      case Err(e) => Err(e)
      case Ok(next) => WalkAll(directions, nodes, next, step + 1, fuel - 1)
  }

  /** Where `k` lock-step moves of the nodes `starts` lead, or the error of
      the first move that fails. */
  function NodesAfter(directions: string, nodes: Network, starts: seq<string>, k: nat): Result<seq<string>>
    requires directions != []
  {
    if k == 0 then Ok(starts)
    else
      match NodesAfter(directions, nodes, starts, k - 1)
      case Err(e) => Err(e)
      case Ok(current) => StepAll(current, Direction(directions, k - 1), nodes)
  }

  /** After `j` lock-step moves some node is not yet at a name ending in Z. */
  predicate NotAllThere(directions: string, nodes: Network, starts: seq<string>, j: nat)
    requires directions != []
  {
    NodesAfter(directions, nodes, starts, j).Ok? && !AllAtZ(NodesAfter(directions, nodes, starts, j).value)
  }

  /** `k` is the least number of lock-step moves after which every node ends
      in Z. */
  predicate FirstAllArrival(directions: string, nodes: Network, starts: seq<string>, k: nat)
    requires directions != []
  {
    NodesAfter(directions, nodes, starts, k).Ok? &&
    AllAtZ(NodesAfter(directions, nodes, starts, k).value) &&
    forall j :: 0 <= j < k ==> NotAllThere(directions, nodes, starts, j)
  }

  /** The lock-step walk from where `step` moves lead, none of which had every
      node at Z, answers the least number of moves until every node is at Z. */
  lemma {:induction false} WalkAllMeaning(directions: string, nodes: Network, starts: seq<string>, step: nat, fuel: nat)
    requires directions != [] && NodesAfter(directions, nodes, starts, step).Ok?
    requires forall j :: 0 <= j < step ==> NotAllThere(directions, nodes, starts, j)
    ensures var r := WalkAll(directions, nodes, NodesAfter(directions, nodes, starts, step).value, step, fuel);
            r.Ok? ==> r.value.Some? && step <= r.value.value &&
                      FirstAllArrival(directions, nodes, starts, r.value.value)
    decreases fuel
  {
    var current := NodesAfter(directions, nodes, starts, step).value;
    if AllAtZ(current) {
      assert WalkAll(directions, nodes, current, step, fuel) == Ok(Some(step));
      assert FirstAllArrival(directions, nodes, starts, step);
    } else if fuel == 0 {
      assert WalkAll(directions, nodes, current, step, fuel) == Err(OutOfFuel);
    } else {
      assert NotAllThere(directions, nodes, starts, step);
      var s := StepAll(current, Direction(directions, step), nodes);
      if s.Err? {
        assert WalkAll(directions, nodes, current, step, fuel) == Err(s.error);
      } else {
        assert NodesAfter(directions, nodes, starts, step + 1) == s;
        assert WalkAll(directions, nodes, current, step, fuel) == WalkAll(directions, nodes, s.value, step + 1, fuel - 1);
        WalkAllMeaning(directions, nodes, starts, step + 1, fuel - 1);
      }
    }
  }

  /** Part 2 answers the least number of moves after which every node that
      started at a name ending in A is at a name ending in Z. */
  lemma Part2Meaning(directions: string, nodes: Network, names: seq<string>, fuel: nat)
    requires directions != []
    ensures var r := WalkAll(directions, nodes, StartNodes(names), 0, fuel);
            r.Ok? ==> r.value.Some? && FirstAllArrival(directions, nodes, StartNodes(names), r.value.value)
  {
    WalkAllMeaning(directions, nodes, StartNodes(names), 0, fuel);
  }

  /** A failed move stays failed: if `k` moves succeed, so does every shorter walk. */
  lemma {:induction false} NodesAfterOkBefore(directions: string, nodes: Network, starts: seq<string>, j: nat, k: nat)
    requires directions != [] && j <= k && NodesAfter(directions, nodes, starts, k).Ok?
    ensures NodesAfter(directions, nodes, starts, j).Ok?
    decreases k - j
  {
    if j < k {
      NodesAfterOkBefore(directions, nodes, starts, j, k - 1);
    }
  }

  /** The lock-step walk from where `step` moves lead answers the least all-Z
      move `k` whenever it is within reach of the fuel. */
  lemma {:induction false} WalkAllComplete(directions: string, nodes: Network, starts: seq<string>, step: nat, fuel: nat, k: nat)
    requires directions != [] && step <= k <= step + fuel
    requires FirstAllArrival(directions, nodes, starts, k)
    ensures NodesAfter(directions, nodes, starts, step).Ok?
    ensures WalkAll(directions, nodes, NodesAfter(directions, nodes, starts, step).value, step, fuel) == Ok(Some(k))
    decreases fuel
  {
    NodesAfterOkBefore(directions, nodes, starts, step, k);
    var current := NodesAfter(directions, nodes, starts, step).value;
    if step < k {
      assert NotAllThere(directions, nodes, starts, step);
      var s := StepAll(current, Direction(directions, step), nodes);
      assert NodesAfter(directions, nodes, starts, step + 1) == s;
      WalkAllComplete(directions, nodes, starts, step + 1, fuel - 1, k);
    }
  }

  /** Part 2 answers the least number of moves `k` after which every ghost is at
      a name ending in Z, given at least `k` moves of fuel. */
  lemma Part2Complete(directions: string, nodes: Network, names: seq<string>, fuel: nat, k: nat)
    requires directions != [] && k <= fuel && FirstAllArrival(directions, nodes, StartNodes(names), k)
    ensures WalkAll(directions, nodes, StartNodes(names), 0, fuel) == Ok(Some(k))
  {
    WalkAllComplete(directions, nodes, StartNodes(names), 0, fuel, k);
  }

  /** Move `k` is the first to fail, with error `e`, and before it the nodes
      were never all at Z. */
  predicate FirstAllFailure(directions: string, nodes: Network, starts: seq<string>, k: nat, e: Error)
    requires directions != []
  {
    NodesAfter(directions, nodes, starts, k) == Err(e) &&
    forall j :: 0 <= j < k ==> NotAllThere(directions, nodes, starts, j)
  }

  /** A lock-step walk that fails other than by running out of fuel stops at
      the first failing move, before all nodes are at Z; one that runs out of
      fuel met neither a failure nor an all-Z move within its fuel. */
  lemma {:induction false} WalkAllErrMeaning(directions: string, nodes: Network, starts: seq<string>, step: nat, fuel: nat)
    requires directions != [] && NodesAfter(directions, nodes, starts, step).Ok?
    requires forall j :: 0 <= j < step ==> NotAllThere(directions, nodes, starts, j)
    ensures var r := WalkAll(directions, nodes, NodesAfter(directions, nodes, starts, step).value, step, fuel);
            r.Err? && r.error != OutOfFuel ==>
              exists k :: step < k <= step + fuel && FirstAllFailure(directions, nodes, starts, k, r.error)
    ensures var r := WalkAll(directions, nodes, NodesAfter(directions, nodes, starts, step).value, step, fuel);
            r == Err(OutOfFuel) ==>
              forall j :: step <= j <= step + fuel ==> NotAllThere(directions, nodes, starts, j)
    decreases fuel
  {
    var current := NodesAfter(directions, nodes, starts, step).value;
    if !AllAtZ(current) && fuel > 0 {
      assert NotAllThere(directions, nodes, starts, step);
      var s := StepAll(current, Direction(directions, step), nodes);
      assert NodesAfter(directions, nodes, starts, step + 1) == s;
      if s.Ok? {
        WalkAllErrMeaning(directions, nodes, starts, step + 1, fuel - 1);
      } else {
        assert FirstAllFailure(directions, nodes, starts, step + 1, s.error);
      }
    }
  }

  /** Part 2 fails with `KeyError` or `RuntimeError` exactly at the first move
      that fails, before every ghost is at Z; it runs out of fuel only when no
      move within the fuel fails or brings every ghost to Z. */
  lemma Part2Errors(directions: string, nodes: Network, names: seq<string>, fuel: nat)
    requires directions != []
    ensures var r := WalkAll(directions, nodes, StartNodes(names), 0, fuel);
            r.Err? && r.error != OutOfFuel ==>
              exists k :: 0 < k <= fuel && FirstAllFailure(directions, nodes, StartNodes(names), k, r.error)
    ensures WalkAll(directions, nodes, StartNodes(names), 0, fuel) == Err(OutOfFuel) ==>
              forall j :: 0 <= j <= fuel ==> NotAllThere(directions, nodes, StartNodes(names), j)
  {
    WalkAllErrMeaning(directions, nodes, StartNodes(names), 0, fuel);
  }

  /** A lock-step walk of one node is the walk of that node alone, when the
      only name reachable that ends in Z is ZZZ. */
  lemma {:induction false} WalkAllSingle(directions: string, nodes: Network, node: string, step: nat, fuel: nat)
    requires EndsWith(node, 'Z') <==> node == "ZZZ"
    requires forall n :: n in nodes ==>
               (EndsWith(nodes[n].left, 'Z') <==> nodes[n].left == "ZZZ") &&
               (EndsWith(nodes[n].right, 'Z') <==> nodes[n].right == "ZZZ")
    ensures WalkAll(directions, nodes, [node], step, fuel) == Walk(directions, nodes, node, step, fuel)
    decreases fuel
  {
    assert |[node]| == 1 && [node][0] == node;
    assert AllAtZ([node]) <==> EndsWith(node, 'Z');
    if directions != [] && !AllAtZ([node]) && fuel > 0 {
      var d := Direction(directions, step);
      var s := PerformStep(node, d, nodes);
      assert [node][0] == node && [node][1..] == [];
      assert StepAll([], d, nodes) == Ok([]);
      if s.Err? {
        assert StepAll([node], d, nodes) == Err(s.error);
      } else {
        assert [s.value] + [] == [s.value];
        assert StepAll([node], d, nodes) == Ok([s.value]);
        WalkAllSingle(directions, nodes, s.value, step + 1, fuel - 1);
      }
    }
  }

  /** `part2`: moves every node ending in A in lock-step until all end in Z;
      gives up after `fuel` steps. `names` lists the network's nodes in the
      order the network was built. */
  method Part2(directions: string, nodes: Network, names: seq<string>, fuel: nat) returns (r: Result<Option<nat>>)
    ensures r == WalkAll(directions, nodes, StartNodes(names), 0, fuel)
  {
    if directions == [] {
      return Ok(None);
    }
    var currentNodes := StartNodes(names);
    var step := 0;
    while step < fuel
      invariant step <= fuel
      invariant WalkAll(directions, nodes, currentNodes, step, fuel - step) ==
                WalkAll(directions, nodes, StartNodes(names), 0, fuel)
    {
      if AllAtZ(currentNodes) {
        return Ok(Some(step));
      }
      var next := StepAll(currentNodes, directions[step % |directions|], nodes);
      if next.Err? {
        return Err(next.error);
      }
      currentNodes := next.value;
      step := step + 1;
    }
    if AllAtZ(currentNodes) {
      return Ok(Some(step));
    }
    r := Err(OutOfFuel);
  }
}
