# Advent of Code 2023 puzzle solvers, modelled and proved in Dafny

The repository holds independent puzzle solvers, one Python file per day. Each
file parses a text input and computes one or two numbers. This project models
the computational core of days 1 to 4 and 6 to 15. Each day has one Dafny module
in `dayNN.dfy`. Where the source's own tests give examples, a `...Samples` module
in `dayNN_samples.dfy` proves the expected answers from the model.
`wrappers.dfy` defines the `Option` and `Result` types. It also defines the
Python exceptions the solvers can raise (`IndexError`, `ValueError`,
`KeyError`, `TypeError`, `RuntimeError`, `AssertionError`). Each exception
becomes an `Err` result instead of a crash.

- **Day 12, hot springs.** The centre of the model is this arrangement counter.
  `count_arrangements` decides, for each `?` of a record of `#`, `.` and `?`,
  whether it is damaged or operational. It counts the choices whose damaged runs
  have exactly the required lengths, in order. Its inner recursion `f` on
  (position, run index, open run length) is modelled as the function `Ways`.
  From every state the recursion reaches, `Ways` is proved to count exactly the
  matching resolutions of the rest of the record. With positive runs, the count
  is therefore the number of distinct arrangements. A bottom-up memo table
  method is proved to give the same count. The five-fold unfolding of part 2 is
  modelled as well.
- **Day 15, lens library.** The HASH fold stays in 0..255 and takes one fold
  step per character. Splitting on commas is proved against joining.
- **Day 9, mirage maintenance.** The table of differences is built by the
  `while` loop. The forwards and backwards forecasts are proved to be the
  values that extend the table consistently.
- **Day 14, parabolic reflector dish.** The tilt works in place on a copy of
  the grid. It is proved to roll every column and keep every `#` and every
  count of `O`. The load is proved as well.
- **Day 13, point of incidence.** Covers the transpose, the search for a mirror
  axis, the one-cell smudge search and its removal, and the pattern scoring.
- **Day 11, cosmic expansion.** Covers the in-place doubling of empty rows and
  columns, and the Manhattan sum over pairs of galaxies.
- **Day 3, gear ratios.** Covers the digit-run scanner, adjacency to symbols,
  and gear ratios.
- **Day 7, Camel Cards.** Covers hand types, the ranking and the stable sort,
  including the joker variant.
- **Day 4, scratchcards.** Covers the matches and points, and the stack of card
  copies.
- **Day 2, cube conundrum.** Covers the cube-limit check and the power of the
  per-colour maxima.
- **Day 1, trebuchet.** Covers calibration values, with and without spelled-out
  digits.
- **Day 6, boat races.** Covers the count of winning hold times.
- **Day 8, haunted wasteland.** Covers the instruction walks.
- **Day 10, pipe maze.** Covers the pipe-loop tracer.

Each loop of the source is a Dafny `method` with its `while`/`for` loop and its
invariants. Its `ensures` ties the result to a specification function, and
lemmas prove what the source promises about that function. Expressions and
recursion in the source become functions and lemmas. Integers are unbounded, as
in Python, and no Python operation wraps here. Python's negative indexing is
written out where the source relies on it (`PipeMaze.PyIndex`). The source's
unbounded loops (days 8 and 10) take a step bound `fuel` and report `OutOfFuel`
when it runs out.

## Model

| member | source | states |
|---|---|---|
| Trebuchet.Part1 | day01.py:2-8 | the loop's running sum is the sum of the values of the lines read so far, and the result is `SumLines` with the part 1 value; the first line without a digit ends the sum with an error |
| Trebuchet.SumLinesSnoc | day01.py:4-6 | each line adds its value to the running sum |
| Trebuchet.SumLinesFails | day01.py:4-6 | once one line fails, the whole sum fails with that line's error |
| Trebuchet.Digits | day01.py:5 | the list comprehension keeps only digit characters |
| Trebuchet.DigitsFirst | day01.py:5-6 | `digits[0]` is the first digit character of the line |
| Trebuchet.DigitsLast | day01.py:5-6 | `digits[-1]` is the last digit character of the line |
| Trebuchet.NoDigits | day01.py:5 | a line without digit characters gives an empty list |
| Trebuchet.LineValue1Meaning | day01.py:5-6 | a line's value is its first digit character followed by its last, so a line with one digit reads it twice |
| Trebuchet.LineValue1Fails | day01.py:5-6 | a line fails (index error on `digits[0]`) exactly when it holds no digit character |
| Trebuchet.Mapping | day01.py:12-25 | `mapping` has eighteen keys: the nine words, then the digit characters 1 to 9 |
| Trebuchet.BuildMapping | day01.py:12-25 | the dictionary literal followed by the loop over `range(1, 10)` builds exactly `Mapping` |
| Trebuchet.MappingApart | day01.py:12-25 | no two keys of `mapping` can start at the same index of a line (they differ in their first two letters) |
| Trebuchet.OneKeyAt | day01.py:29-33 | so at most one key occurs at any index, and comparing the pairs by index alone decides `min` and `max` |
| Trebuchet.FindFrom | day01.py:29 | `str.find`: the first index where the key occurs, or -1 when it does not occur |
| Trebuchet.RFindBelow | day01.py:30 | `str.rfind`: the last index where the key occurs, or -1 |
| Trebuchet.Forward | day01.py:29 | one (find index, digit) pair per key, in the order of `mapping` |
| Trebuchet.Backward | day01.py:30 | one (rfind index, digit) pair per key, in the order of `mapping` |
| Trebuchet.Found | day01.py:32-33 | the filter keeps exactly the pairs with a non-negative index |
| Trebuchet.MinPair | day01.py:32 | `min` returns one of the pairs, and no pair is smaller |
| Trebuchet.MaxPair | day01.py:33 | `max` returns one of the pairs, and no pair is larger |
| Trebuchet.Part2 | day01.py:11-37 | builds `mapping`, and the result is `SumLines` with the part 2 value; a line without any key fails with `ValueError` from `min` of nothing |
| Trebuchet.FirstDigitFrom | day01.py:32 | reference reading: the first index where some key occurs, and no key occurs before it |
| Trebuchet.LastDigitBelow | day01.py:33 | reference reading: the last index where some key occurs, and no key occurs after it |
| Trebuchet.ForwardNonEmpty | day01.py:29-32 | the filtered forward pairs are non-empty exactly when some key occurs in the line |
| Trebuchet.BackwardNonEmpty | day01.py:30-33 | the filtered backward pairs are non-empty exactly when some key occurs in the line |
| Trebuchet.LeftmostMeaning | day01.py:29-32 | `min` of the filtered forward pairs is the first index where a key occurs, with that key's digit |
| Trebuchet.RightmostMeaning | day01.py:30-33 | `max` of the filtered backward pairs is the last index where a key occurs, with that key's digit |
| Trebuchet.LineValue2IsScan | day01.py:29-35 | the find/rfind reading of a line equals a left-to-right and right-to-left scan for the first and last spelled or written digit |
| TrebuchetSamples.OneDigit | day01.py:5-6 | "treb7uchet" has value 77 |
| TrebuchetSamples.Twone | day01.py:29-35 | in "twone" the words overlap, and the value is 21 (two first, one last) |
| CubeConundrum.PossibleGame | day02.py:34-43 | the scan answers true exactly when no draw shows more cubes of a colour than the bag holds (a missing colour counts as 0) |
| CubeConundrum.NoDrawsPossible | day02.py:34-43 | a game without draws is possible with any bag |
| CubeConundrum.PossibleMonotone | day02.py:34-43 | adding cubes of any colour to the bag keeps a possible game possible |
| CubeConundrum.PossibleIdsAppend | day02.py:51-54 | the id sum over two runs of games is the sum of the two |
| CubeConundrum.NoneImpossible | day02.py:51-54 | impossible games add nothing, whatever their ids |
| CubeConundrum.Part1 | day02.py:46-56 | the result is the sum of the ids of the games possible with 12 red, 13 green and 14 blue cubes |
| CubeConundrum.MaxCount | day02.py:62-64 | the maximum count of a colour is at least that colour's count in every draw and equals it in some draw |
| CubeConundrum.Power | day02.py:62-66 | a game's power fails (with `ValueError` from `max` of nothing) exactly when the game has no draws |
| CubeConundrum.PossibleIffMaxima | day02.py:34-68 | a bag works for a game exactly when it holds at least the per-colour maxima, so part 2's maxima are the smallest possible bag |
| CubeConundrum.TotalPowerFails | day02.py:59-68 | the total fails, with `ValueError`, exactly when some game has no draws |
| CubeConundrum.Part2 | day02.py:59-68 | the loop's result is `TotalPower`, the sum of the powers |
| CubeConundrum.FailurePersists | day02.py:61-66 | once a game fails, the whole total fails the same way |
| GearRatios.ValueBound | day03.py:75 | `int` of a run of `k` digits is below 10^k |
| GearRatios.IsAdjacent | day03.py:11-21 | `is_adjacent` holds exactly on the ring of cells around the span: the row above and below from one column before to one after, and the two cells beside it on its own row |
| GearRatios.RunEnd | day03.py:27-35 | a run of digits from `i` ends at the first non-digit or at the end of the line |
| GearRatios.RunsFrom | day03.py:27-38 | the runs listed from column `i` are digit runs, left to right and separated |
| GearRatios.RunsFromSpec | day03.py:24-38 | a line's runs are exactly its maximal runs of digits |
| GearRatios.NumbersSpec | day03.py:24-38 | `find_numbers` yields exactly the maximal runs of digits of every line |
| GearRatios.PendingOpen | day03.py:30-31 | a digit with no run open opens one |
| GearRatios.PendingClose | day03.py:32-34 | a non-digit closes the open run, which is yielded next |
| GearRatios.PendingSkip | day03.py:27-34 | a digit inside a run, or a non-digit outside one, changes nothing |
| GearRatios.PendingEnd | day03.py:36-38 | at the end of a line only the open run is still to be yielded |
| GearRatios.FindNumbers | day03.py:24-38 | the generator's output, collected as a sequence, is `Numbers`: each line's runs in order |
| GearRatios.LineNumbers | day03.py:26-38 | the inner scan of one line yields exactly the line's runs, left to right |
| GearRatios.ScanChar | day03.py:28-34 | one character of the scan: the runs already yielded followed by the runs still pending (the open one first) are always the line's runs, and the numbers found are the yielded runs |
| GearRatios.PySlice | day03.py:45-64 | a Python slice clamps its bounds to the string |
| GearRatios.SymbolFound | day03.py:41-67 | a symbol that `has_adjacent_symbol` finds lies in the ring around the number |
| GearRatios.SymbolChecked | day03.py:41-67 | a symbol in the ring, within the width of the number's own line, is found |
| GearRatios.AdjacentSymbolMeaning | day03.py:41-67 | a number has an adjacent symbol exactly when a cell of its ring holds one, counting only columns within its own line's width |
| GearRatios.PartSumSnoc | day03.py:72-76 | each number adds its value exactly when it has an adjacent symbol |
| GearRatios.NoSymbolNoParts | day03.py:70-78 | a schematic without symbols sums to 0 |
| GearRatios.Part1 | day03.py:70-78 | the result is the sum of the values of the numbers with an adjacent symbol |
| GearRatios.RowGearsSpec | day03.py:83-85 | one line's candidates are exactly its `*` cells, left to right |
| GearRatios.GearCandidatesSpec | day03.py:81-85 | `find_gear_candidates` yields every `*` cell exactly once, in reading order |
| GearRatios.FindGearCandidates | day03.py:81-85 | the nested loop collects exactly `GearCandidates` |
| GearRatios.AdjacentTo | day03.py:93-95 | the numbers kept are among the given ones |
| GearRatios.AdjacentToSpec | day03.py:93-95 | the numbers kept are exactly those whose ring holds the cell |
| GearRatios.RatioSumStep | day03.py:90-101 | each gear candidate adds the product when exactly two numbers touch it, and nothing otherwise |
| GearRatios.GearRatioMeaning | day03.py:90-101 | a gear with exactly two adjacent numbers contributes their product; any other count contributes nothing |
| GearRatios.Part2 | day03.py:88-103 | the result is the sum of the gear ratios over all candidates, with the numbers re-found for each candidate |
| GearRatios.CountAdjacent | day03.py:91-98 | the inner loop counts the adjacent numbers and multiplies their values |
| GearRatiosSamples.SmallPart1 | day03.py:70-78 | on the schematic `467..` / `...*.` / `..35.` both numbers are part numbers, sum 502 |
| GearRatiosSamples.SmallPart2 | day03.py:88-103 | on the same schematic the `*` is a gear with ratio 467 * 35 = 16345 |
| Scratchcards.NumMatchesSnoc | day04.py:17-20 | one more winning number adds a match exactly when it is held and was not already a winning number (the halves are sets, so repeats count once) |
| Scratchcards.NumMatchesBound | day04.py:17-20 | a card matches no more numbers than either half holds |
| Scratchcards.ParseCards | day04.py:12-21 | one card per line, with its number and the size of the intersection of its two halves |
| Scratchcards.PointsMeaning | day04.py:27-28 | one match is worth 1 point, each further match doubles the worth, and only a card without matches is worth nothing |
| Scratchcards.Part1 | day04.py:24-30 | the result is the sum of the cards' points |
| Scratchcards.TotalPointsAppend | day04.py:26-28 | the points of two runs of cards add up |
| Scratchcards.NoMatchesTotal | day04.py:33-44 | a table without matches ends with only its original cards |
| Scratchcards.LastCardOutOfRange | day04.py:40-41 | when the last card has a match, a copy is looked up past the end of the table |
| Scratchcards.StackCopiesPrefix | day04.py:36-37 | the full table, put on the stack, holds all the copies the game ends with |
| Scratchcards.StackCopiesPush | day04.py:40-41 | pushing a run of originals adds their copies to the stack's |
| Scratchcards.PopPush | day04.py:39-41 | one pop-and-push round replaces the popped card by the cards it wins: the stack's outstanding copies drop by exactly one |
| Scratchcards.PushCopies | day04.py:40-42 | the inner loop pushes one copy of each card won and counts each push; a card past the last fails with `IndexError` |
| Scratchcards.PendingStep | day04.py:38-42 | one round keeps the stack made of not-yet-popped originals and copies pushed since (the termination measure) |
| Scratchcards.OutOfRange | day04.py:40-41 | a card whose winnings reach past the last card makes the table not `InRange` |
| Scratchcards.FullTable | day04.py:36-37 | part 2 starts with every original on the stack and the count equal to the table size |
| Scratchcards.PopRound | day04.py:38-42 | one outer round: the count plus the stack's outstanding copies stays equal to the final total, and `IndexError` arises only when the table is not `InRange` |
| Scratchcards.Part2 | day04.py:33-44 | the stack loop ends with the total number of copies (`TotalCopies`, the recursive reading) and fails with `IndexError` exactly when a card would copy past the last |
| ScratchcardsSamples.SampleCard4Matches | day04.py:51 | card 4's halves share only 84 |
| ScratchcardsSamples.SamplePoints | day04.py:47-57 | the sample cards score 13 points |
| ScratchcardsSamples.SampleCopies | day04.py:47-61 | the sample cards end up as 30 scratchcards |
| BoatRaces.WinsBelowIsSetSize | day06.py:12-17 | the inner loop's count is the size of the set of hold times that beat the record |
| BoatRaces.WaysMeaning | day06.py:11-17 | a race counts exactly the hold times from 1 to `time - 1` whose distance `hold * (time - hold)` beats the record, and there are at most `time - 1` of them |
| BoatRaces.BeatsSymmetric | day06.py:13-16 | holding for `h` and for `time - h` travel the same distance, so both beat the record or neither does |
| BoatRaces.WinSetSymmetric | day06.py:12-17 | the winning hold times form a set symmetric about `time / 2` |
| BoatRaces.WinsBelowMonotone | day06.py:16-17 | a higher record never adds winning hold times |
| BoatRaces.Zip | day06.py:10 | `zip` pairs the two lists element by element, as many pairs as the shorter list has |
| BoatRaces.ProductZero | day06.py:19 | one race without a winning hold time makes the product zero |
| BoatRaces.CountWays | day06.py:11-17 | the inner loop returns the number of winning hold times (`Ways`) |
| BoatRaces.ProductOfWaysToWin | day06.py:9-21 | the outer loop returns the product of the races' numbers of winning hold times, over the `zip` pairs |
| BoatRaces.Part1 | day06.py:5-21 | part 1 returns that product for the four races written into the program |
| CamelCards.CardRank | day07.py:6-20 | a card has a rank exactly when it is one of `23456789TJQKA`, and the rank is its position in that order |
| CamelCards.TypeRank | day07.py:23-31 | the seven types rank from 0 to 6 |
| CamelCards.TypeRankInjective | day07.py:23-31 | distinct types have distinct ranks |
| CamelCards.NewHand | day07.py:35-37 | a hand is built exactly from a five-card string, and anything else is an `AssertionError` |
| CamelCards.DistinctMeaning | day07.py:41 | the counter's keys are each card of the hand once and nothing else |
| CamelCards.CountsOf | day07.py:41-42 | every multiplicity of the counter is at least one |
| CamelCards.CountsSum | day07.py:41-42 | the multiplicities add up to the number of cards |
| CamelCards.SortNat | day07.py:42 | `sorted` returns an ascending permutation of the multiplicities |
| CamelCards.SortedUnique | day07.py:42 | two ascending permutations of the same multiplicities are equal, so the sorted list does not depend on the counter's order |
| CamelCards.TypeInvariant | day07.py:40-59 | the type of a hand does not depend on the order of its cards |
| CamelCards.Partitions | day07.py:44-59 | every ascending list of positive parts summing to five is one of the seven patterns the type table names |
| CamelCards.TypeTotal | day07.py:40-59 | every five-card hand has a type: the `RuntimeError` branch is never taken |
| CamelCards.CardRanks | day07.py:63 | the card ranks are defined exactly when every card is known, and are then the cards' ranks left to right; otherwise a `KeyError` |
| CamelCards.RankTupleInjective | day07.py:62-63 | two different hands never share a rank tuple |
| CamelCards.RankOrder | day07.py:62-63 | rank tuples compare hands by type first and then card by card from the left |
| CamelCards.LexTotal | day07.py:91 | any two rank tuples are comparable |
| CamelCards.LexTransitive | day07.py:91 | the tuple order is transitive |
| CamelCards.LexIrreflexive | day07.py:91 | no tuple is below itself |
| CamelCards.InsertEntryPermutation | day07.py:91 | inserting one hand into the sorted list adds exactly that hand |
| CamelCards.SortEntriesPermutation | day07.py:91 | the sort only reorders the hands |
| CamelCards.SortEntriesSorted | day07.py:91 | the sort leaves the hands ascending by rank tuple |
| CamelCards.InsertEntryStable | day07.py:91 | inserting a hand into a sorted list puts it after every hand with the same rank tuple |
| CamelCards.SortEntriesStable | day07.py:91 | the sort is stable, as Python's `sorted` is: hands with equal rank tuples keep their input order, so equal hands keep their bids in input order |
| CamelCards.Entries | day07.py:87-91 | every hand gets an entry with its bid and rank tuple, or the first error stops |
| CamelCards.CollectEntries | day07.py:87-91 | the loop computing the rank tuples returns the entries, or the first error |
| CamelCards.EntriesNext | day07.py:90-91 | one more hand adds its entry, or its rank tuple's error |
| CamelCards.SumWinnings | day07.py:89-93 | the loop over `enumerate(..., 1)` adds rank times bid over the sorted hands |
| CamelCards.Part1 | day07.py:86-95 | part 1 is the sum of rank times bid with hands ranked by ascending rank tuple, or the first error |
| CamelCards.JokerTuple | day07.py:104-106 | `J` becomes -1 in the rank tuple and every other rank is kept |
| CamelCards.ReplaceJ | day07.py:109 | `replace("J", c)` changes every `J` to `c` and keeps every other card |
| CamelCards.PossibleHands | day07.py:108-110 | one hand per replacement card, in the order `23456789TQKA` |
| CamelCards.TypeKeyMeaning | day07.py:112 | the key `max` uses is the hand's type rank |
| CamelCards.ArgMax | day07.py:112 | `max` returns the first position holding the largest key |
| CamelCards.FirstMax | day07.py:112 | scanning for the maximum returns that first largest position |
| CamelCards.TypeRanksOf | day07.py:112 | the keys of the replacements, computed in turn, or the first error |
| CamelCards.BestEntryMeaning | day07.py:104-115 | the part-2 key's first entry is at least the type rank of every replacement and is the type of the replacement chosen; the rest is the original cards with `J` lowest |
| CamelCards.NoJokerSameType | day07.py:108-113 | without a `J` the part-2 type is the hand's own |
| CamelCards.BestHand | day07.py:104-115 | one hand's part-2 entry: the best replacement and its key |
| CamelCards.BestEntriesNext | day07.py:103-115 | one more hand adds its part-2 entry, or its error |
| CamelCards.CollectBestEntries | day07.py:102-115 | the first loop of part 2 returns every hand's part-2 entry, or the first error |
| CamelCards.Part2 | day07.py:98-121 | part 2 is the sum of rank times bid with hands ranked by their part-2 keys, or the first error |
| CamelCardsSamples.H0Type | day07.py:125 | `32T3K` is one pair |
| CamelCardsSamples.H1Type | day07.py:126 | `T55J5` is three of a kind |
| CamelCardsSamples.H2Type | day07.py:127 | `KK677` is two pair |
| CamelCardsSamples.H3Type | day07.py:128 | `KTJJT` is two pair |
| CamelCardsSamples.H4Type | day07.py:129 | `QQQJA` is three of a kind |
| CamelCardsSamples.ExampleSort | day07.py:91 | the example's hands sort as 32T3K, KTJJT, KK677, T55J5, QQQJA |
| CamelCardsSamples.ExamplePart1 | day07.py:124-133 | the example's total winnings are 6440 |
| HauntedWasteland.PerformStep | day08.py:33-39 | a step succeeds exactly for L or R from a node of the network, and gives that node's left or right successor; an unknown node is a `KeyError` and any other direction a `RuntimeError` |
| HauntedWasteland.WalkMeaning | day08.py:45-50 | a walk that ends answers the least number of steps after which the node reached from the start is ZZZ |
| HauntedWasteland.Part1Meaning | day08.py:42-50 | part 1 answers the least number of steps from AAA to ZZZ, following the instructions cyclically |
| HauntedWasteland.WalkFuel | day08.py:46-50 | a walk that ends does so the same way with any larger step bound |
| HauntedWasteland.NodeAfterOkBefore | day08.py:46-50 | if the first `k` steps all succeed, so do the first `j` for any `j <= k` |
| HauntedWasteland.WalkComplete | day08.py:45-50 | when the first arrival at ZZZ lies within the fuel, the walk answers exactly that number of steps |
| HauntedWasteland.Part1Complete | day08.py:42-50 | part 1 answers the least number of steps from AAA to ZZZ whenever the fuel covers it |
| HauntedWasteland.WalkErrMeaning | day08.py:45-50 | a `KeyError` or `RuntimeError` comes from the first step that fails, before any arrival at ZZZ; running out of fuel means no step within the fuel failed or reached ZZZ |
| HauntedWasteland.Part1Errors | day08.py:42-50 | the same for part 1 from AAA |
| HauntedWasteland.Part1 | day08.py:42-50 | the loop over `enumerate(cycle(directions))` returns the walk from AAA |
| HauntedWasteland.StartNodesMembers | day08.py:56 | the ghosts start at exactly the nodes whose names end in A |
| HauntedWasteland.StepAllMeaning | day08.py:61 | a lock-step move succeeds exactly when every node steps, and then takes each node to its own successor, in order |
| HauntedWasteland.WalkAllMeaning | day08.py:57-61 | a lock-step walk that ends answers the least number of moves after which every node ends in Z |
| HauntedWasteland.Part2Meaning | day08.py:53-61 | part 2 answers the least number of moves after which every ghost that started at a name ending in A is at a name ending in Z |
| HauntedWasteland.NodesAfterOkBefore | day08.py:57-61 | if the first `k` lock-step moves all succeed, so do the first `j` for any `j <= k` |
| HauntedWasteland.WalkAllComplete | day08.py:57-61 | when the first move with every node at Z lies within the fuel, the lock-step walk answers exactly that move |
| HauntedWasteland.Part2Complete | day08.py:53-61 | part 2 answers the least number of moves after which every ghost is at Z whenever the fuel covers it |
| HauntedWasteland.WalkAllErrMeaning | day08.py:57-61 | a `KeyError` or `RuntimeError` comes from the first lock-step move that fails, before every node is at Z; running out of fuel means no move within the fuel failed or brought every node to Z |
| HauntedWasteland.Part2Errors | day08.py:53-61 | the same for part 2 from the nodes ending in A |
| HauntedWasteland.StepAll | day08.py:61 | a failed lock-step move fails with the error of a single step, `KeyError` or `RuntimeError` |
| HauntedWasteland.WalkAllSingle | day08.py:45-61 | with a single ghost, and ZZZ the only reachable name ending in Z, part 2's walk is part 1's |
| HauntedWasteland.Part2 | day08.py:53-61 | the loop returns the lock-step walk from the start nodes |
| HauntedWastelandSamples.SampleWalk1 | day08.py:64-105 | with instructions RL, AAA reaches ZZZ in 2 steps |
| HauntedWastelandSamples.SampleWalk2 | day08.py:76-105 | with instructions LLR, AAA reaches ZZZ in 6 steps |
| HauntedWastelandSamples.SampleStartNodes | day08.py:83-93 | the third network's ghosts start at 11A and 22A |
| HauntedWastelandSamples.SampleWalkAll | day08.py:83-109 | the ghosts of the third network are all at names ending in Z after 6 moves, and not before |
| MirageMaintenance.Diff | day09.py:18 | the differences of neighbouring readings: one fewer than the readings (none for an empty history), entry `i` being reading `i + 1` minus reading `i` |
| MirageMaintenance.StepsShape | day09.py:15-19 | the table starts with the history, each row is the differences of the row above, only the last row is all zero, and there are at most one more rows than readings (so the `while` loop ends) |
| MirageMaintenance.DiffOfZero | day09.py:17-18 | an all-zero row has all-zero differences |
| MirageMaintenance.ExtrapolateStep | day09.py:28-30 | the forecast exceeds the last reading by the forecast of the differences |
| MirageMaintenance.BackcastStep | day09.py:22-24 | the backward forecast falls short of the first reading by the backward forecast of the differences |
| MirageMaintenance.ExtrapolateExtends | day09.py:14-32 | appending the forecast extends the row of differences by exactly the differences' forecast: the forecast is the value that keeps the table consistent |
| MirageMaintenance.BackcastExtends | day09.py:14-32 | prepending the backward forecast extends the row of differences at the front in the same way |
| MirageMaintenance.ConstantForecast | day09.py:14-32 | a constant history forecasts its constant in both directions |
| MirageMaintenance.ArithmeticDiff | day09.py:18 | the differences of an arithmetic history are constant |
| MirageMaintenance.ArithmeticForecast | day09.py:14-32 | an arithmetic history of at least two readings forecasts the next term forwards and the previous term backwards |
| MirageMaintenance.StepsFold | day09.py:21-32 | folding the table row by row from the bottom gives the forecast: the last row gives 0, every other row its last reading plus (or first reading minus) the row below |
| MirageMaintenance.BuildSteps | day09.py:15-19 | the `while` loop builds the whole difference table |
| MirageMaintenance.FoldBackwards | day09.py:22-26 | the backward fold returns the backward forecast |
| MirageMaintenance.FoldForwards | day09.py:28-32 | the forward fold returns the forecast |
| MirageMaintenance.Forecast | day09.py:14-32 | `forecast` returns the backward or forward forecast, and 0 for an all-zero history |
| MirageMaintenance.SumOfForecasts | day09.py:35-52 | part 1 and part 2 return the sum of the histories' forecasts, forwards or backwards |
| MirageMaintenance.SampleLinear | day09.py:55-82 | `0 3 6 9 12 15` forecasts 18 forwards and -3 backwards |
| MirageMaintenance.SampleTriangular | day09.py:56-82 | `1 3 6 10 15 21` forecasts 28 forwards and 0 backwards |
| MirageMaintenance.SampleQuadratic | day09.py:57-82 | `10 13 16 21 30 45` forecasts 68 forwards and 5 backwards |
| MirageMaintenance.SampleTotals | day09.py:70-87 | the three examples sum to 114 forwards and 2 backwards |
| PipeMaze.PipeConnections | day10.py:15-30 | each of the six pipes joins two different directions, and every other character joins none |
| PipeMaze.MoveAdjacent | day10.py:58-67 | a move in any direction reaches a cell next to the one it left |
| PipeMaze.PyIndex | day10.py:47-54 | indexing succeeds exactly for indices from `-len` to `len - 1` (a negative index counts from the end, as in Python) and yields an element of the row; anything else is an `IndexError` |
| PipeMaze.IndexOf | day10.py:36 | `row.index("S")` is the first position holding `S`, and there is none exactly when the row has no `S` |
| PipeMaze.StartFromMeaning | day10.py:33-39 | the start is the first `S` in row-major order, and there is none only when no row holds an `S` |
| PipeMaze.FindStart | day10.py:33-39 | the loop over the rows returns that first `S` |
| PipeMaze.InitialDirectionMeaning | day10.py:46-54 | the first direction, tried in the order N, E, S, W, leads to a pipe connecting back to the start, and every direction tried before it does not; a failed lookup is an `IndexError` |
| PipeMaze.Without | day10.py:78-84 | the list comprehension keeps exactly the connections other than the one given |
| PipeMaze.NextDirectionMeaning | day10.py:72-86 | entering a cell succeeds exactly when it is a pipe with an end facing back, and the walk then leaves through the pipe's other end |
| PipeMaze.TraceCells | day10.py:57-87 | the cells appended avoid the start and are pipes, and none is appended exactly when the next move lands on the start |
| PipeMaze.TraceSteps | day10.py:57-87 | each appended cell is next to the one before it, and the last one is next to the start: the path closes a loop |
| PipeMaze.NoDirectionStays | day10.py:57-70 | without a direction the walk never moves, so away from the start it cannot end |
| PipeMaze.WalkLoopShape | day10.py:42-89 | the path begins at the start, never returns to it, moves one cell at a time through pipes, and ends next to the start |
| PipeMaze.TraceStep | day10.py:58-87 | one round of the `while` loop moves one cell, turns along the pipe entered and appends the cell |
| PipeMaze.WalkRound | day10.py:58-87 | one round of the loop either ends the walk with its answer or appends one cell and a new direction, leaving the rest of the walk the same |
| PipeMaze.WalkFrom | day10.py:56-89 | the `while` loop returns the start followed by the traced cells |
| PipeMaze.Walk | day10.py:42-89 | `walk` returns the loop through the start, or the error met on the way |
| PipeMaze.TraceFuel | day10.py:57-87 | once the `while` loop has stopped within some step bound, any larger bound gives the same path or the same error |
| PipeMaze.CellAtInBox | day10.py:74 | a cell lookup that succeeds was at a row from `-len(maze)` to `len(maze) - 1` and a column inside the widest row, counted the same way |
| PipeMaze.OutOfFuelStates | day10.py:57-87 | a trace that spends its whole bound passes through that many states (cell, direction), none of them at the start |
| PipeMaze.NextInjective | day10.py:58-86 | one round of the loop can be undone: the pipe entered and the way it turns tell where the walk came from, so two states that lead to the same state are the same |
| PipeMaze.StatesDistinct | day10.py:57-87 | as long as the walk has not come back to the start, it never meets the same state twice |
| PipeMaze.IterateDistinct | day10.py:57-87 | for any step that no two states share an outcome of, a run that never returns to its first cell repeats no state |
| PipeMaze.CodeInjective | day10.py:57-87 | states in the box get different numbers |
| PipeMaze.CodeRange | day10.py:57-87 | those numbers lie below 16 times the number of rows times the widest row |
| PipeMaze.Pigeonhole | day10.py:57-87 | a list of different numbers all below `m` has at most `m` entries |
| PipeMaze.RunBound | day10.py:57-87 | a walk that has not come back to the start after `n` rounds has `n` at most 16 times the number of rows times the widest row |
| PipeMaze.TraceEnds | day10.py:57-87 | a trace from the start with a larger bound than that never runs out of fuel |
| PipeMaze.WalkLoopEnds | day10.py:42-89 | `walk` always ends: above that bound it closes the loop or fails with `IndexError` or `ValueError`, and a larger bound changes nothing |
| PipeMaze.FarthestStepsFuel | day10.py:92-104 | once the answer of either part does not run out of fuel, a larger bound gives the same answer |
| PipeMaze.FarthestStepsEnds | day10.py:92-104 | above the bound both parts get their answer, whatever the bound |
| PipeMaze.Part1 | day10.py:92-96 | part 1 is half the loop's length; a maze without a start fails with a `TypeError` |
| PipeMaze.Part2 | day10.py:99-104 | part 2 fails exactly where part 1 fails (no start, a failed lookup, a walk that does not close) and otherwise answers 0 |
| PipeMazeSamples.SampleStarts | day10.py:107-119 | the start of both simple loops is row 1, column 1 |
| PipeMazeSamples.SampleLoop1 | day10.py:107-177 | the first simple maze's loop is the eight cells the test lists, in order |
| PipeMazeSamples.SampleLoop2 | day10.py:114-177 | the second maze, with extra pipes around it, has the same loop |
| PipeMazeSamples.SampleFarthest2 | day10.py:114-189 | the farthest cell of the second maze is 4 steps from the start |
| CosmicExpansion.DoubleAppend | day11.py:22-40 | doubling the flagged entries splits over concatenation |
| CosmicExpansion.DoubleNone | day11.py:22-40 | without flags nothing is inserted |
| CosmicExpansion.DoubleIn | day11.py:25 | the expansion only adds copies of entries already there |
| CosmicExpansion.FirstTrue | day11.py:23 | `index(True)` is the first set flag |
| CosmicExpansion.FlagRound | day11.py:22-28 | one round of an expansion loop on the flags: the first set flag belongs to the next flagged original, and clearing it and shifting the flags by one marks one more original as done |
| CosmicExpansion.EntryRound | day11.py:23-25 | inserting a copy in front of that original doubles it, leaving one more original done |
| CosmicExpansion.FlagsDone | day11.py:22 | when `any` finds no flag, every remaining original is unflagged, so the loop has doubled exactly the flagged ones |
| CosmicExpansion.RowFlags | day11.py:13-15 | a row is flagged exactly when every cell of it is empty space |
| CosmicExpansion.ColFlags | day11.py:17-19 | a column is flagged exactly when every row holds empty space there |
| CosmicExpansion.WidenDouble | day11.py:21-40 | doubling the rows and widening the columns give the same image in either order |
| CosmicExpansion.EmptyDots | day11.py:25 | a flagged row is the same as the `["."] * num_cols` inserted beside it |
| CosmicExpansion.ExpandRows | day11.py:21-29 | the row loop doubles exactly the flagged rows |
| CosmicExpansion.ExpandColumns | day11.py:31-40 | the column loop doubles exactly the flagged columns of every row |
| CosmicExpansion.InsertColumn | day11.py:35-36 | the inner loop inserts one cell of empty space at the same position in every row |
| CosmicExpansion.RowsOfExpanded | day11.py:21-32 | after the row loop the rows keep their width and every flagged column is still empty |
| CosmicExpansion.Expand | day11.py:9-42 | `expand` returns the image with every empty row and every empty column doubled |
| CosmicExpansion.DoublePosition | day11.py:21-40 | an original entry moves by the number of flagged entries before it |
| CosmicExpansion.GalaxyMoves | day11.py:9-42 | a galaxy moves down by the number of empty rows above it and right by the number of empty columns to its left |
| CosmicExpansion.ExpandedRows | day11.py:9-42 | every row of the expanded image is a widened row of the original image |
| CosmicExpansion.RowGalaxiesSpec | day11.py:48-50 | a row's galaxies are exactly its `#` cells, left to right |
| CosmicExpansion.GalaxiesSpec | day11.py:45-52 | `get_galaxy_coords` lists exactly the `#` cells, each once, in reading order |
| CosmicExpansion.GetGalaxyCoords | day11.py:45-52 | the nested loops return those coordinates |
| CosmicExpansion.Dist | day11.py:61-63 | the Manhattan distance is zero exactly between equal coordinates |
| CosmicExpansion.TotalDistanceExtend | day11.py:60-63 | one more galaxy adds its distance to each galaxy listed before it: `combinations` visits every pair once |
| CosmicExpansion.SumDistances | day11.py:59-65 | the loop over `combinations(coords, 2)` returns the sum of the distances of all pairs |
| CosmicExpansion.Part1 | day11.py:55-65 | part 1 is the sum of the pairwise distances between the galaxies of the expanded image |
| CosmicExpansionSamples.DiagonalCoords | day11.py:101-106 | the three-galaxy diagonal lists (0, 1), (1, 2), (2, 3) |
| CosmicExpansionSamples.SmallExpansion | day11.py:9-42 | a corner-to-corner pair with an empty row and column between them has both doubled |
| CosmicExpansionSamples.ExampleTotal | day11.py:80-110 | the galaxies of the expanded example image are 374 apart in all |
| HotSprings.Ways | day12.py:14-40 | the inner function, from any state in which its `runs[run_idx]` lookups are safe (every recursive call keeps that), counts at most two to the power of the unknown cells left |
| HotSprings.ResolutionsComplete | day12.py:14-40 | the listed resolutions are exactly the ways of writing `#` or `.` in place of every `?` |
| HotSprings.ResolutionsDistinct | day12.py:14-40 | no resolution is listed twice |
| HotSprings.HashChoice | day12.py:27-30 | the `#` branch counts exactly the matching resolutions with `#` at this cell: those that extend the open run, which must stay within the expected length |
| HotSprings.DotChoice | day12.py:32-38 | the `.` branch counts exactly the matching resolutions with `.` at this cell: it closes the open run, which must then have the expected length |
| HotSprings.WaysCountsResolutions | day12.py:14-40 | from every reachable state, `f` counts exactly the resolutions of the rest of the record that complete the remaining runs |
| HotSprings.CountIsSetSize | day12.py:14-40 | for resolutions listed without repetition, that count is the size of the set of matching ones |
| HotSprings.CountArrangements | day12.py:12-42 | with positive runs, `count_arrangements` is the number of distinct resolutions of the record whose damaged runs are exactly `runs` |
| HotSprings.ArrangementsMeaning | day12.py:12-42 | the arrangements are exactly the resolutions with the required run lengths |
| HotSprings.KnownRecord | day12.py:12-42 | a record without `?` has one arrangement when its own runs are the ones required, and none otherwise |
| HotSprings.NoRuns | day12.py:12-42 | with no runs required the count is 1 exactly when every cell can be operational, and 0 otherwise |
| HotSprings.JoinCopies | day12.py:56 | `"?".join(n * [record])` has `n` copies of the record and `n - 1` separators |
| HotSprings.RepeatRuns | day12.py:56 | `n * runs` is `n` times as long as `runs` |
| HotSprings.UnfoldOnce | day12.py:48-56 | unfolding once changes neither record nor runs, so part 2 with one copy is part 1 |
| HotSprings.Total | day12.py:45-58 | part 1 (one copy) and part 2 (five copies) return the sum of the rows' counts |
| HotSprings.BaseRow | day12.py:16-22 | the table's row at the end of the record holds the termination cases of `f` |
| HotSprings.TableCell | day12.py:25-40 | one table cell is the `#` choice plus the `.` choice, as in the body of `f` |
| HotSprings.TableRow | day12.py:25-40 | a row of the table at a position holds `f` for every reachable state |
| HotSprings.TableStep | day12.py:13-40 | the table at a position follows from the one at the next position |
| HotSprings.CountArrangementsTable | day12.py:12-42 | the memoised recursion, filled as a table from the end of the record, gives the same count as the recursion |
| HotSpringsSamples.SampleKnown | day12.py:62 | `#.#.###` with runs 1,1,3 has 1 arrangement |
| HotSpringsSamples.SampleUnknownPrefix | day12.py:63 | `???.###` with runs 1,1,3 has 1 arrangement |
| HotSpringsSamples.SampleTwoGroups | day12.py:64 | `.??..??...?##.` with runs 1,1,3 has 4 arrangements |
| HotSpringsSamples.SampleAlternating | day12.py:65 | `?#?#?#?#?#?#?#?` with runs 1,3,1,6 has 1 arrangement |
| HotSpringsSamples.SampleFourOneOne | day12.py:66 | `????.#...#...` with runs 4,1,1 has 1 arrangement |
| HotSpringsSamples.SampleSixFive | day12.py:67 | `????.######..#####.` with runs 1,6,5 has 4 arrangements |
| HotSpringsSamples.SampleThreeTwoOne | day12.py:68 | `?###????????` with runs 3,2,1 has 10 arrangements |
| PointOfIncidence.NewGrid | day13.py:5-9 | a grid is built exactly from a non-empty list of rows of the first row's width; no rows is an `IndexError`, a row of another width an `AssertionError` |
| PointOfIncidence.Transpose | day13.py:11-22 | column `i` read top to bottom is entry `i` of the result, and every column is as long as there are rows |
| PointOfIncidence.TransposeTwice | day13.py:11-22 | taking the columns of the columns gives the rows back |
| PointOfIncidence.Columns | day13.py:11-22 | the nested loops build the columns one character at a time |
| PointOfIncidence.Reflection | day13.py:28-46 | `find_reflection` fails its assertion exactly on fewer than two entries; otherwise it returns the first axis that is a mirror (every pair equidistant from it is equal, as far as both sides go), or none when no axis is |
| PointOfIncidence.FindReflection | day13.py:28-46 | the `for` loop with its `while`/`else` returns that first mirror |
| PointOfIncidence.MirrorReversed | day13.py:28-46 | turning the pattern upside down moves the mirror below entry `i` to below entry `len - 2 - i` |
| PointOfIncidence.MirrorAsSides | day13.py:35-44 | an axis is a mirror exactly when the entries above it, read upward, and the entries below it, read downward, agree as far as the shorter side goes |
| PointOfIncidence.Diffs | day13.py:57-59 | the number of differing positions is at most either row's length (`zip` stops at the shorter) |
| PointOfIncidence.FirstDiff | day13.py:61 | `mismatch.index(True)` is the first position where the rows differ |
| PointOfIncidence.DiffsZero | day13.py:57-59 | rows of one width without a difference are equal |
| PointOfIncidence.DiffsOne | day13.py:57-61 | rows of one width with a single difference become equal once that cell is copied over |
| PointOfIncidence.DiffsOnlyAt | day13.py:57-61 | rows that differ at one position only have exactly one difference, found at that position |
| PointOfIncidence.SmudgeCell | day13.py:56-67 | the smudge of an axis is the first mirrored pair that differs at all, with its first differing position; without one, no pair differs |
| PointOfIncidence.SmudgeAxisFrom | day13.py:50-72 | the first axis whose mirrored pairs differ in exactly one cell in total |
| PointOfIncidence.Smudge | day13.py:49-72 | the intended `find_smudge` answers nothing exactly when no axis has a single difference, and otherwise a cell inside the pattern |
| PointOfIncidence.SmudgeRepairs | day13.py:49-92 | the smudge differs from its mirror cell, its axis is not yet a mirror, and copying over the mirror cell makes that axis a mirror |
| PointOfIncidence.ScanAxis | day13.py:51-67 | the `while` loop over one axis counts exactly one difference exactly when the axis has one, and then holds its smudge |
| PointOfIncidence.FindSmudge | day13.py:49-72 | the scan, with the position recorded only when the current pair holds the difference, returns the intended smudge |
| PointOfIncidence.AsWrittenAgrees | day13.py:49-72 | whenever `find_smudge` as written returns, it returns the intended smudge |
| PointOfIncidence.AsWrittenFails | day13.py:57-61 | on the four rows `.#`, `#.`, `..`, `.#`, `find_smudge` as written raises `ValueError`, while the intended smudge is row 1, position 0 |
| PointOfIncidence.Flip | day13.py:79 | `flip_map` swaps ash and rock, and any other cell is a `KeyError` |
| PointOfIncidence.FlipAt | day13.py:83-90 | flipping one cell succeeds exactly for ash or rock, keeps the shape and changes that cell only |
| PointOfIncidence.SmudgeRemoved | day13.py:75-92 | `remove_smudge`, built on the corrected `find_smudge`, keeps the pattern's shape, and without any smudge raises `RuntimeError` |
| PointOfIncidence.RemovedCell | day13.py:81-90 | the horizontal smudge is preferred, and only its cell changes; otherwise only the vertical smudge's cell (column, then row) changes |
| PointOfIncidence.ColumnSmudgeChosen | day13.py:86-90 | without a horizontal smudge the vertical smudge's cell is flipped |
| PointOfIncidence.RemoveSmudge | day13.py:75-92 | the method, built on the corrected `find_smudge`, returns that grid, or the error |
| PointOfIncidence.ReplaceCell | day13.py:83-85 | copying the rows and rebuilding row `r` with the cell flipped gives the flipped grid |
| PointOfIncidence.TransposeChange | day13.py:11-22 | changing one cell of the rows changes the same cell of the columns |
| PointOfIncidence.RemovedMirrorsRows | day13.py:75-85 | on ash and rock with a horizontal smudge, removal succeeds and the smudge's axis becomes a mirror of the rows |
| PointOfIncidence.RemovedMirrorsColumns | day13.py:75-90 | on ash and rock with only a vertical smudge, removal succeeds and the smudge's axis becomes a mirror of the columns |
| PointOfIncidence.ScoreMeaning | day13.py:105-117 | a pattern scores exactly when it has at least two rows and two columns and a mirror between rows or between columns but not both; the score then names a mirror below row `n / 100 - 1` or right of column `n - 1` |
| PointOfIncidence.ScoreGrid | day13.py:105-117 | the loop body looks for the row mirror, then the column mirror, and scores the pattern |
| PointOfIncidence.TotalScoreOk | day13.py:102-119 | the sum succeeds exactly when every pattern forms a grid and scores |
| PointOfIncidence.SumScoresOk | day13.py:102-119 | a sum of per-pattern scores succeeds exactly when every pattern scores |
| PointOfIncidence.SumScoresSnoc | day13.py:103-117 | one more pattern adds its score to the running total, or its error ends the sum |
| PointOfIncidence.SumScoresFails | day13.py:103-117 | the first pattern that fails ends the whole sum with its error, whatever follows |
| PointOfIncidence.ScorePattern | day13.py:103-117 | one pass of the loop builds the grid and scores it, failing as building or scoring fails |
| PointOfIncidence.Part1 | day13.py:102-119 | part 1 returns the sum of the patterns' scores, or the first error; `part2` at day13.py:122-139 is the same code, so this is also part 2 as written |
| PointOfIncidence.SmudgeScoreRows | day13.py:75-85 | a horizontal smudge below row `a` scores 100 * (a + 1), and removing it makes that line a mirror it was not before |
| PointOfIncidence.SmudgeScoreColumns | day13.py:75-90 | with no horizontal smudge, a vertical one right of column `a` scores a + 1, and removing it makes that line a mirror of the columns it was not before |
| PointOfIncidence.SmudgeScoreMeaning | day13.py:75-92 | a pattern's smudge score fails exactly when removing the smudge fails; otherwise it names a line that was not a mirror and becomes one once the smudge is removed |
| PointOfIncidence.ScoreSmudgedPattern | day13.py:75-92 | the corrected loop body builds the grid, finds its smudge's axis between rows, then between columns, and scores it |
| PointOfIncidence.Part2 | day13.py:122-139 | corrected part 2 returns the sum of the patterns' smudge scores, or the first error |
| PointOfIncidenceSamples.SampleColumns | day13.py:142-144 | the columns of `.#` over `..` are `..` and `#.` |
| PointOfIncidenceSamples.FirstPatternRows | day13.py:147-172 | the first pattern has no mirror between rows |
| PointOfIncidenceSamples.FirstPatternColumns | day13.py:147-167 | the first pattern's columns mirror right of column 4 |
| PointOfIncidenceSamples.SecondPatternRows | day13.py:147-179 | the second pattern mirrors below row 3 |
| PointOfIncidenceSamples.SecondPatternColumns | day13.py:147-186 | the second pattern's columns have no mirror |
| PointOfIncidenceSamples.CornerColumns | day13.py:189-203 | the corner pattern's first two columns mirror each other |
| PointOfIncidenceSamples.FirstPatternSmudge | day13.py:147-208 | the first pattern's smudge is row 0, position 0 |
| PointOfIncidenceSamples.FirstPatternRemoved | day13.py:211-225 | removing it turns the top-left cell into ash |
| PointOfIncidenceSamples.SecondPatternSmudge | day13.py:147-162 | the second pattern's smudge is row 0, position 4 |
| PointOfIncidenceSamples.SecondPatternRemoved | day13.py:228-243 | removing it makes the first two rows equal |
| PointOfIncidenceSamples.FirstPatternScore | day13.py:147-167 | the first sample pattern scores 5 |
| PointOfIncidenceSamples.SecondPatternScore | day13.py:147-162 | the second sample pattern scores 400 |
| PointOfIncidenceSamples.Part1Sample | day13.py:147-162 | the two sample patterns score 5 and 400, and part 1 of both is 405 |
| PointOfIncidenceSamples.Part2Sample | day13.py:260-261 | with their smudges the sample patterns score 300 and 100, so corrected part 2 gives the expected 400 |
| PointOfIncidenceSamples.Part2AsWrittenSample | day13.py:122-139 | part 2 as written gives 405 on the sample, not the 400 its test expects |
| ReflectorDish.Column | day14.py:13-16 | column `j` read top to bottom |
| ReflectorDish.CountOMultiset | day14.py:33 | the rounded rocks counted are the multiplicity of `O` |
| ReflectorDish.FirstHash | day14.py:18-19 | the first cube rock of a column, where the placement row restarts, and no cube rock before it |
| ReflectorDish.RollKeepsCubes | day14.py:13-25 | tilting keeps every cube rock where it is and puts none anywhere else |
| ReflectorDish.RollKeepsCount | day14.py:20-23 | tilting keeps the number of rounded rocks in a column |
| ReflectorDish.RollCells | day14.py:13-25 | a column of `O`, `#` and `.` stays one |
| ReflectorDish.RollSettled | day14.py:13-25 | after tilting, every rounded rock is in the top row or directly below a cube rock or another rounded rock |
| ReflectorDish.RollIdempotent | day14.py:8-27 | tilting a tilted column changes nothing |
| ReflectorDish.RollMovesNorth | day14.py:20-23 | rounded rocks only move north: above any row a tilted column holds at least as many rounded rocks as before |
| ReflectorDish.RollAtCube | day14.py:18-19 | a cube rock splits a column into parts that tilt independently |
| ReflectorDish.ScanCube | day14.py:18-19 | a cube rock closes the current stretch and the next rock lands directly below it |
| ReflectorDish.ScanRock | day14.py:20-23 | a rounded rock is lifted to the placement row, which is never below it, and the placement row moves down by one |
| ReflectorDish.ScanEmpty | day14.py:24-25 | an empty cell is passed over |
| ReflectorDish.ScanDone | day14.py:15-25 | after the inner loop the column is tilted |
| ReflectorDish.ScanStep | day14.py:15-25 | one row of the inner loop: the state after reading a cube rock, a rounded rock or an empty cell |
| ReflectorDish.WithColumnColumns | day14.py:13-25 | replacing one column keeps every other column |
| ReflectorDish.MoveRock | day14.py:21-22 | moving a rounded rock up its column changes that column alone |
| ReflectorDish.MoveRockUp | day14.py:21-22 | the two assignments move the rock within its column |
| ReflectorDish.TiltCell | day14.py:16-25 | one row of the inner loop changes only the current column and advances the scan |
| ReflectorDish.TiltColumn | day14.py:14-25 | the inner loop tilts its column and leaves every other column as it was |
| ReflectorDish.TiltNorth | day14.py:8-27 | `tilt_north` returns a grid of the same shape whose every column is the original column tilted |
| ReflectorDish.TiltedGrid | day14.py:8-27 | the tilted grid keeps the cube rocks and each column's rounded rocks, holds only puzzle cells, has every rounded rock settled, and does not change when tilted again |
| ReflectorDish.GetLoad | day14.py:30-34 | `get_load` sums, over the rows from the bottom, the row's number of rounded rocks times its distance from the bottom edge plus one |
| ReflectorDish.Part1 | day14.py:37-40 | part 1 is the load of the tilted grid |
| ReflectorDish.SampleColumnZero | day14.py:42-56 | the example's first column `OO.O.O..##` tilts to `OOOO....##` |
| ReflectorDish.SampleColumnTwo | day14.py:42-56 | the example's third column `.O...#O..O` tilts to `O....#OO..` |
| ReflectorDish.SampleLoad | day14.py:55-78 | the tilted example grid has load 136 |
| LensLibrary.Hash | day15.py:8-15 | the HASH of any string is below 256 |
| LensLibrary.HashAppend | day15.py:10-13 | the HASH of the empty string is 0, and one more character is one more step: add its code, multiply by 17, keep the remainder modulo 256 |
| LensLibrary.AocHash | day15.py:8-15 | `aoc_hash`'s loop returns the HASH, below 256 |
| LensLibrary.HashOfHASH | day15.py:30 | `HASH` hashes to 52 |
| LensLibrary.HashOfRnEq1 | day15.py:31 | `rn=1` hashes to 30 |
| LensLibrary.HashOfCmDash | day15.py:32 | `cm-` hashes to 253 |
| LensLibrary.HashOfQpEq3 | day15.py:33 | `qp=3` hashes to 97 |
| LensLibrary.HashOfPcDash | day15.py:34 | `pc-` hashes to 48 |
| LensLibrary.Split | day15.py:5 | `split(",")` always gives at least one piece |
| LensLibrary.SplitFields | day15.py:5 | one piece per comma plus one, none holding a comma, and joining them with commas gives the input back |
| LensLibrary.SplitJoin | day15.py:5 | splitting undoes joining, for comma-free pieces |
| LensLibrary.StripBounds | day15.py:5 | `strip` drops only whitespace (the characters of Python's `str.isspace`), from both ends, and keeps a slice that neither starts nor ends with whitespace |
| LensLibrary.StripKeeps | day15.py:5 | a step without surrounding whitespace is kept as it is |
| LensLibrary.Parse | day15.py:4-5 | one stripped step per comma-separated field |
| LensLibrary.ParseJoin | day15.py:4-5 | parsing undoes joining, for steps without commas or surrounding whitespace |
| LensLibrary.Part1 | day15.py:18-24 | part 1 is the sum of the HASHes of the steps, at most 255 per step |
| LensLibrary.SumStepHashes | day15.py:19-23 | the loop adds the HASH of every step, at most 255 per step |
| LensLibrary.SampleSum | day15.py:42-43 | the HASHes of the example steps sum to 1320 |
| LensLibrary.Part1Sample | day15.py:41-43 | the example sequence, parsed, sums to 1320 |

## Left out

- Reading input files, the `__main__` blocks, `print` calls and the pytest parametrisation. This is I/O.
- Regular-expression and line parsing (days 2, 4, 8 and 12, and the `splitlines` and `split` calls of the others). Every operation takes the parsed sequences as input.
- `day05.py`. It has no finished computation: its `part1` returns nothing, and the rest of the file is parsing.
- `day06.py` `part2`. It computes with floating-point `math.sqrt`, `floor` and `ceil`.
- `day10.py` `part2`: its tests expect 4, 8 and 10, but it returns 0 whenever the walk succeeds. The model keeps that behaviour (`PipeMaze.Part2`). The enclosed-tile count those tests expect is not modelled.
- The `functools.cache` memo of day 12 and the `cached_property` of days 7 and 13. They only affect performance. The recursion is modelled as a plain function, and the memo as an explicit table (`HotSprings.CountArrangementsTable`).
- HotSprings.CountArrangements: the count equals the number of arrangements only when every run is positive. With a run of length 0, `f` accepts an empty run, so that run is counted between any two cells.
- The five-fold unfolded sample counts of day 12 (1, 16384, 1, 16, 2500 and 506250, day12.py:76-91) are not proved. Their records are too long to evaluate in the verifier. The unfolding itself is modelled (`HotSprings.JoinCopies`, `HotSprings.RepeatRuns`).
- `str.isdigit` is modelled as the ASCII digits `0` to `9` (days 1 and 3). Python also accepts other Unicode digits.
- HauntedWasteland.Part1: the walk takes a step bound. Where the source loops forever (ZZZ unreachable), the model reports `OutOfFuel` once the bound is spent. `HauntedWasteland.WalkFuel` shows that any larger bound gives the same answer. With a bound at least the first arrival, the answer is that arrival (`HauntedWasteland.Part1Complete`). HauntedWasteland.Part2 uses the same bound (`HauntedWasteland.Part2Complete`).
- HauntedWasteland.Part2: the order of the network's names, which decides the order of the ghosts, is a parameter. The source takes it from the order of the input lines.
- PipeMaze.Walk: the walk takes a step bound, and a bound that is too small ends it with `OutOfFuel`. The source's walk always ends. `PipeMaze.WalkLoopEnds` proves that any bound above 16 times the number of rows times the widest row gives the source's answer, and that a larger bound changes nothing. PipeMaze.Part1 and PipeMaze.Part2 take the same bound (`PipeMaze.FarthestStepsEnds`).
- The unused `PathNode` class of day 10 is not modelled. The LOOP_3 sample (farthest point 8) is not proved, because its maze is too large to trace in the verifier. LOOP_1, LOOP_2 and the farthest point 4 are proved.
- Scratchcards.Part2: requires the cards to be numbered 1, 2, … in input order, as `original_cards[i - 1]` assumes. Out-of-range copies are modelled as the `IndexError` they raise.
- CamelCards.Part2: the joker sample total 5905 is not proved. It needs twelve replacements classified for each of five hands. The sample total 6440 of part 1 is proved.
- CosmicExpansion.Expand: requires a non-empty rectangular image. The source reads `len(galaxy[0])` and indexes rows by that width. Which malformed inputs raise there depends on where `all()` stops, so that error path is not modelled. The same holds for CosmicExpansion.Part1.
- CosmicExpansion.Expand: the Python list is modified in place and returned. The model computes the new list as a value, so aliasing of the caller's list is not modelled.
- The sample total 374 of day 11 is proved from the expanded image's galaxy coordinates (`CosmicExpansionSamples`). It is not proved through `CosmicExpansion.Expand` on the 10 by 10 image.
- ReflectorDish.TiltNorth: requires a non-empty rectangular grid of `O`, `#` and `.` cells. The source raises `IndexError` on an empty grid or a short row, and treats any other character as empty space. The same holds for ReflectorDish.Part1.
- The equality of the whole tilted sample grid of day 14 is not proved. Its load of 136 and the tilt of two of its columns are proved.
- Day 13 `part2` is modelled twice. As written, it is `part1`'s code (`PointOfIncidence.Part1`). As its test means it, it is `PointOfIncidence.Part2`, which scores each pattern by the axis on which its smudge lies. That is the answer of 400 the test expects. The model does not cover what the source would give if it called `remove_smudge` and then `find_reflection`.
- PointOfIncidence.SmudgeRemoved: it uses the corrected `find_smudge` (the Findings row for day13.py:57-61). The source calls the as-written `find_smudge` on both the rows and the columns before choosing (day13.py:76-77), so it raises `ValueError` whenever either scan does, for example on rows `.#`, `#.`, `..`, `.#`. The same holds for PointOfIncidence.RemoveSmudge.
- The second `test_remove_smudge` (day13.py:228) shadows the first (day13.py:211). Both expectations are proved.

## Findings

| source | as written | input that shows it | evidently intended | confidence | as-written member | corrected member |
|---|---|---|---|---|---|---|
| day13.py:57-61 | after the first difference of an axis, `mismatch.index(True)` runs again for every later pair while the count stays 1, including pairs that match exactly | rows `.#`, `#.`, `..`, `.#`: the axis below row 1 has its one difference in rows 1/2, and rows 0/3 are equal, so `index(True)` raises `ValueError` | the smudge at row 1, position 0, found on the pair that holds the difference | not executed | PointOfIncidence.AsWrittenFails | PointOfIncidence.FindSmudge |
| day13.py:122-139 | `part2` repeats `part1`'s body and never looks for a smudge | the example of day13.py:147-162 gives 405, while `test_part2` (day13.py:260-261) expects 400 | score each pattern by the axis of its smudge: 300 + 100 = 400 | not executed | PointOfIncidenceSamples.Part2AsWrittenSample | PointOfIncidence.Part2 |
