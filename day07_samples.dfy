/** The worked example of camel cards: five hands whose total winnings are 6440. */
module CamelCardsSamples {
  import opened Wrappers
  import opened CamelCards

  /** The type follows from the sorted multiplicities. */
  lemma TypeOf(h: Hand, counts: seq<nat>, t: HandType)
    requires SortNat(CountsOf(h.cards)) == counts && Classify(counts) == Ok(t)
    ensures Type(h) == Ok(t)
  {
  }

  /** A card not seen before joins the distinct cards. */
  lemma DistinctNew(p: string, c: char, d: string)
    requires Distinct(p) == d && c !in d
    ensures Distinct(p + [c]) == d + [c]
  {
    DistinctSnoc(p, c);
  }

  /** A card seen before leaves the distinct cards as they are. */
  lemma DistinctOld(p: string, c: char, d: string)
    requires Distinct(p) == d && c in d
    ensures Distinct(p + [c]) == d
  {
    DistinctSnoc(p, c);
  }

  /** The rank tuple follows from the type and the card ranks. */
  lemma TupleOf(h: Hand, t: HandType, ranks: seq<int>, tuple: seq<int>)
    requires Type(h) == Ok(t) && CardRanks(h.cards) == Ok(ranks)
    requires tuple == [TypeRank(t) as int] + ranks
    ensures RankTuple(h) == Ok(tuple)
  {
  }

  lemma H0Distinct(c0: char, c1: char, c2: char, c3: char, c4: char)
    requires c0 == '3' && c1 == '2' && c2 == 'T' && c3 == '3' && c4 == 'K'
    ensures Distinct([c0, c1, c2, c3, c4]) == [c0, c1, c2, c4]
  {
    var p0: string, d0: string := [], [];
    DistinctNew(p0, c0, d0);
    var p1, d1 := p0 + [c0], d0 + [c0];
    DistinctNew(p1, c1, d1);
    var p2, d2 := p1 + [c1], d1 + [c1];
    DistinctNew(p2, c2, d2);
    var p3, d3 := p2 + [c2], d2 + [c2];
    DistinctOld(p3, c3, d3);
    var p4, d4 := p3 + [c3], d3;
    DistinctNew(p4, c4, d4);
    var p5, d5 := p4 + [c4], d4 + [c4];
    assert p5 == [c0, c1, c2, c3, c4];
    assert d5 == [c0, c1, c2, c4];
  }

  lemma H0Counts(s: string)
    requires s == "32T3K"
    ensures CountsOf(s) == [2, 1, 1, 1]
  {
    H0Distinct(s[0], s[1], s[2], s[3], s[4]);
    assert s == [s[0], s[1], s[2], s[3], s[4]];
  }

  lemma Insert1IntoEmpty()
    ensures InsertNat(1, []) == [1]
  {
  }

  lemma H0Sort3()
    ensures SortNat([1]) == [1]
  {
    Insert1IntoEmpty();
  }

  lemma Insert1Into1()
    ensures InsertNat(1, [1]) == [1, 1]
  {
  }

  lemma H0Sort2()
    ensures SortNat([1, 1]) == [1, 1]
  {
    H0Sort3();
    Insert1IntoEmpty();
    Insert1Into1();
  }

  lemma Insert1Into11()
    ensures InsertNat(1, [1, 1]) == [1, 1, 1]
  {
  }

  lemma H0Sort1()
    ensures SortNat([1, 1, 1]) == [1, 1, 1]
  {
    H0Sort2();
    Insert1IntoEmpty();
    Insert1Into1();
    Insert1Into11();
  }

  lemma Insert2IntoEmpty()
    ensures InsertNat(2, []) == [2]
  {
  }

  lemma Insert2Into1()
    ensures InsertNat(2, [1]) == [1, 2]
  {
  }

  lemma Insert2Into11()
    ensures InsertNat(2, [1, 1]) == [1, 1, 2]
  {
  }

  lemma Insert2Into111()
    ensures InsertNat(2, [1, 1, 1]) == [1, 1, 1, 2]
  {
  }

  lemma H0Sort0()
    ensures SortNat([2, 1, 1, 1]) == [1, 1, 1, 2]
  {
    H0Sort1();
    Insert2IntoEmpty();
    Insert2Into1();
    Insert2Into11();
    Insert2Into111();
  }

  lemma H0Classify()
    ensures Classify([1, 1, 1, 2]) == Ok(OnePair)
  {
  }

  /** `32T3K` is OnePair. */
  lemma H0Type(h: Hand)
    requires h == Hand("32T3K")
    ensures Type(h) == Ok(OnePair)
  {
    H0Counts(h.cards);
    H0Sort0();
    H0Classify();
    TypeOf(h, [1, 1, 1, 2], OnePair);
  }

  lemma H0Ranks(s: string)
    requires s == "32T3K"
    ensures CardRanks(s) == Ok([1, 0, 8, 1, 11])
  {
    var r := CardRanks(s);
    assert r.Ok?;
    assert r.value == [1, 0, 8, 1, 11];
  }

  lemma H0Concat()
    ensures [TypeRank(OnePair) as int] + [1, 0, 8, 1, 11] == [1, 1, 0, 8, 1, 11]
  {
  }

  lemma H0Tuple(h: Hand)
    requires h == Hand("32T3K")
    ensures RankTuple(h) == Ok([1, 1, 0, 8, 1, 11])
  {
    H0Type(h);
    H0Ranks(h.cards);
    H0Concat();
    TupleOf(h, OnePair, [1, 0, 8, 1, 11], [1, 1, 0, 8, 1, 11]);
  }

  lemma H1Distinct(c0: char, c1: char, c2: char, c3: char, c4: char)
    requires c0 == 'T' && c1 == '5' && c2 == '5' && c3 == 'J' && c4 == '5'
    ensures Distinct([c0, c1, c2, c3, c4]) == [c0, c1, c3]
  {
    var p0: string, d0: string := [], [];
    DistinctNew(p0, c0, d0);
    var p1, d1 := p0 + [c0], d0 + [c0];
    DistinctNew(p1, c1, d1);
    var p2, d2 := p1 + [c1], d1 + [c1];
    DistinctOld(p2, c2, d2);
    var p3, d3 := p2 + [c2], d2;
    DistinctNew(p3, c3, d3);
    var p4, d4 := p3 + [c3], d3 + [c3];
    DistinctOld(p4, c4, d4);
    var p5, d5 := p4 + [c4], d4;
    assert p5 == [c0, c1, c2, c3, c4];
    assert d5 == [c0, c1, c3];
  }

  lemma H1Counts(s: string)
    requires s == "T55J5"
    ensures CountsOf(s) == [1, 3, 1]
  {
    H1Distinct(s[0], s[1], s[2], s[3], s[4]);
    assert s == [s[0], s[1], s[2], s[3], s[4]];
  }

  lemma H1Sort2()
    ensures SortNat([1]) == [1]
  {
    Insert1IntoEmpty();
  }

  lemma Insert3IntoEmpty()
    ensures InsertNat(3, []) == [3]
  {
  }

  lemma Insert3Into1()
    ensures InsertNat(3, [1]) == [1, 3]
  {
  }

  lemma H1Sort1()
    ensures SortNat([3, 1]) == [1, 3]
  {
    H1Sort2();
    Insert3IntoEmpty();
    Insert3Into1();
  }

  lemma Insert1Into3()
    ensures InsertNat(1, [3]) == [1, 3]
  {
  }

  lemma Insert1Into13()
    ensures InsertNat(1, [1, 3]) == [1, 1, 3]
  {
  }

  lemma H1Sort0()
    ensures SortNat([1, 3, 1]) == [1, 1, 3]
  {
    H1Sort1();
    Insert1IntoEmpty();
    Insert1Into3();
    Insert1Into13();
  }

  lemma H1Classify()
    ensures Classify([1, 1, 3]) == Ok(ThreeOfAKind)
  {
  }

  /** `T55J5` is ThreeOfAKind. */
  lemma H1Type(h: Hand)
    requires h == Hand("T55J5")
    ensures Type(h) == Ok(ThreeOfAKind)
  {
    H1Counts(h.cards);
    H1Sort0();
    H1Classify();
    TypeOf(h, [1, 1, 3], ThreeOfAKind);
  }

  lemma H1Ranks(s: string)
    requires s == "T55J5"
    ensures CardRanks(s) == Ok([8, 3, 3, 9, 3])
  {
    var r := CardRanks(s);
    assert r.Ok?;
    assert r.value == [8, 3, 3, 9, 3];
  }

  lemma H1Concat()
    ensures [TypeRank(ThreeOfAKind) as int] + [8, 3, 3, 9, 3] == [3, 8, 3, 3, 9, 3]
  {
  }

  lemma H1Tuple(h: Hand)
    requires h == Hand("T55J5")
    ensures RankTuple(h) == Ok([3, 8, 3, 3, 9, 3])
  {
    H1Type(h);
    H1Ranks(h.cards);
    H1Concat();
    TupleOf(h, ThreeOfAKind, [8, 3, 3, 9, 3], [3, 8, 3, 3, 9, 3]);
  }

  lemma H2Distinct(c0: char, c1: char, c2: char, c3: char, c4: char)
    requires c0 == 'K' && c1 == 'K' && c2 == '6' && c3 == '7' && c4 == '7'
    ensures Distinct([c0, c1, c2, c3, c4]) == [c0, c2, c3]
  {
    var p0: string, d0: string := [], [];
    DistinctNew(p0, c0, d0);
    var p1, d1 := p0 + [c0], d0 + [c0];
    DistinctOld(p1, c1, d1);
    var p2, d2 := p1 + [c1], d1;
    DistinctNew(p2, c2, d2);
    var p3, d3 := p2 + [c2], d2 + [c2];
    DistinctNew(p3, c3, d3);
    var p4, d4 := p3 + [c3], d3 + [c3];
    DistinctOld(p4, c4, d4);
    var p5, d5 := p4 + [c4], d4;
    assert p5 == [c0, c1, c2, c3, c4];
    assert d5 == [c0, c2, c3];
  }

  lemma H2Counts(s: string)
    requires s == "KK677"
    ensures CountsOf(s) == [2, 1, 2]
  {
    H2Distinct(s[0], s[1], s[2], s[3], s[4]);
    assert s == [s[0], s[1], s[2], s[3], s[4]];
  }

  lemma H2Sort2()
    ensures SortNat([2]) == [2]
  {
    Insert2IntoEmpty();
  }

  lemma Insert1Into2()
    ensures InsertNat(1, [2]) == [1, 2]
  {
  }

  lemma H2Sort1()
    ensures SortNat([1, 2]) == [1, 2]
  {
    H2Sort2();
    Insert1IntoEmpty();
    Insert1Into2();
  }

  lemma Insert2Into2()
    ensures InsertNat(2, [2]) == [2, 2]
  {
  }

  lemma Insert2Into12()
    ensures InsertNat(2, [1, 2]) == [1, 2, 2]
  {
  }

  lemma H2Sort0()
    ensures SortNat([2, 1, 2]) == [1, 2, 2]
  {
    H2Sort1();
    Insert2IntoEmpty();
    Insert2Into2();
    Insert2Into12();
  }

  lemma H2Classify()
    ensures Classify([1, 2, 2]) == Ok(TwoPair)
  {
  }

  /** `KK677` is TwoPair. */
  lemma H2Type(h: Hand)
    requires h == Hand("KK677")
    ensures Type(h) == Ok(TwoPair)
  {
    H2Counts(h.cards);
    H2Sort0();
    H2Classify();
    TypeOf(h, [1, 2, 2], TwoPair);
  }

  lemma H2Ranks(s: string)
    requires s == "KK677"
    ensures CardRanks(s) == Ok([11, 11, 4, 5, 5])
  {
    var r := CardRanks(s);
    assert r.Ok?;
    assert r.value == [11, 11, 4, 5, 5];
  }

  lemma H2Concat()
    ensures [TypeRank(TwoPair) as int] + [11, 11, 4, 5, 5] == [2, 11, 11, 4, 5, 5]
  {
  }

  lemma H2Tuple(h: Hand)
    requires h == Hand("KK677")
    ensures RankTuple(h) == Ok([2, 11, 11, 4, 5, 5])
  {
    H2Type(h);
    H2Ranks(h.cards);
    H2Concat();
    TupleOf(h, TwoPair, [11, 11, 4, 5, 5], [2, 11, 11, 4, 5, 5]);
  }

  lemma H3Distinct(c0: char, c1: char, c2: char, c3: char, c4: char)
    requires c0 == 'K' && c1 == 'T' && c2 == 'J' && c3 == 'J' && c4 == 'T'
    ensures Distinct([c0, c1, c2, c3, c4]) == [c0, c1, c2]
  {
    var p0: string, d0: string := [], [];
    DistinctNew(p0, c0, d0);
    var p1, d1 := p0 + [c0], d0 + [c0];
    DistinctNew(p1, c1, d1);
    var p2, d2 := p1 + [c1], d1 + [c1];
    DistinctNew(p2, c2, d2);
    var p3, d3 := p2 + [c2], d2 + [c2];
    DistinctOld(p3, c3, d3);
    var p4, d4 := p3 + [c3], d3;
    DistinctOld(p4, c4, d4);
    var p5, d5 := p4 + [c4], d4;
    assert p5 == [c0, c1, c2, c3, c4];
    assert d5 == [c0, c1, c2];
  }

  lemma H3Counts(s: string)
    requires s == "KTJJT"
    ensures CountsOf(s) == [1, 2, 2]
  {
    H3Distinct(s[0], s[1], s[2], s[3], s[4]);
    assert s == [s[0], s[1], s[2], s[3], s[4]];
  }

  lemma H3Sort2()
    ensures SortNat([2]) == [2]
  {
    Insert2IntoEmpty();
  }

  lemma H3Sort1()
    ensures SortNat([2, 2]) == [2, 2]
  {
    H3Sort2();
    Insert2IntoEmpty();
    Insert2Into2();
  }

  lemma Insert1Into22()
    ensures InsertNat(1, [2, 2]) == [1, 2, 2]
  {
  }

  lemma H3Sort0()
    ensures SortNat([1, 2, 2]) == [1, 2, 2]
  {
    H3Sort1();
    Insert1IntoEmpty();
    Insert1Into2();
    Insert1Into22();
  }

  lemma H3Classify()
    ensures Classify([1, 2, 2]) == Ok(TwoPair)
  {
  }

  /** `KTJJT` is TwoPair. */
  lemma H3Type(h: Hand)
    requires h == Hand("KTJJT")
    ensures Type(h) == Ok(TwoPair)
  {
    H3Counts(h.cards);
    H3Sort0();
    H3Classify();
    TypeOf(h, [1, 2, 2], TwoPair);
  }

  lemma H3Ranks(s: string)
    requires s == "KTJJT"
    ensures CardRanks(s) == Ok([11, 8, 9, 9, 8])
  {
    var r := CardRanks(s);
    assert r.Ok?;
    assert r.value == [11, 8, 9, 9, 8];
  }

  lemma H3Concat()
    ensures [TypeRank(TwoPair) as int] + [11, 8, 9, 9, 8] == [2, 11, 8, 9, 9, 8]
  {
  }

  lemma H3Tuple(h: Hand)
    requires h == Hand("KTJJT")
    ensures RankTuple(h) == Ok([2, 11, 8, 9, 9, 8])
  {
    H3Type(h);
    H3Ranks(h.cards);
    H3Concat();
    TupleOf(h, TwoPair, [11, 8, 9, 9, 8], [2, 11, 8, 9, 9, 8]);
  }

  lemma H4Distinct(c0: char, c1: char, c2: char, c3: char, c4: char)
    requires c0 == 'Q' && c1 == 'Q' && c2 == 'Q' && c3 == 'J' && c4 == 'A'
    ensures Distinct([c0, c1, c2, c3, c4]) == [c0, c3, c4]
  {
    var p0: string, d0: string := [], [];
    DistinctNew(p0, c0, d0);
    var p1, d1 := p0 + [c0], d0 + [c0];
    DistinctOld(p1, c1, d1);
    var p2, d2 := p1 + [c1], d1;
    DistinctOld(p2, c2, d2);
    var p3, d3 := p2 + [c2], d2;
    DistinctNew(p3, c3, d3);
    var p4, d4 := p3 + [c3], d3 + [c3];
    DistinctNew(p4, c4, d4);
    var p5, d5 := p4 + [c4], d4 + [c4];
    assert p5 == [c0, c1, c2, c3, c4];
    assert d5 == [c0, c3, c4];
  }

  lemma H4Counts(s: string)
    requires s == "QQQJA"
    ensures CountsOf(s) == [3, 1, 1]
  {
    H4Distinct(s[0], s[1], s[2], s[3], s[4]);
    assert s == [s[0], s[1], s[2], s[3], s[4]];
  }

  lemma H4Sort2()
    ensures SortNat([1]) == [1]
  {
    Insert1IntoEmpty();
  }

  lemma H4Sort1()
    ensures SortNat([1, 1]) == [1, 1]
  {
    H4Sort2();
    Insert1IntoEmpty();
    Insert1Into1();
  }

  lemma Insert3Into11()
    ensures InsertNat(3, [1, 1]) == [1, 1, 3]
  {
  }

  lemma H4Sort0()
    ensures SortNat([3, 1, 1]) == [1, 1, 3]
  {
    H4Sort1();
    Insert3IntoEmpty();
    Insert3Into1();
    Insert3Into11();
  }

  lemma H4Classify()
    ensures Classify([1, 1, 3]) == Ok(ThreeOfAKind)
  {
  }

  /** `QQQJA` is ThreeOfAKind. */
  lemma H4Type(h: Hand)
    requires h == Hand("QQQJA")
    ensures Type(h) == Ok(ThreeOfAKind)
  {
    H4Counts(h.cards);
    H4Sort0();
    H4Classify();
    TypeOf(h, [1, 1, 3], ThreeOfAKind);
  }

  lemma H4Ranks(s: string)
    requires s == "QQQJA"
    ensures CardRanks(s) == Ok([10, 10, 10, 9, 12])
  {
    var r := CardRanks(s);
    assert r.Ok?;
    assert r.value == [10, 10, 10, 9, 12];
  }

  lemma H4Concat()
    ensures [TypeRank(ThreeOfAKind) as int] + [10, 10, 10, 9, 12] == [3, 10, 10, 10, 9, 12]
  {
  }

  lemma H4Tuple(h: Hand)
    requires h == Hand("QQQJA")
    ensures RankTuple(h) == Ok([3, 10, 10, 10, 9, 12])
  {
    H4Type(h);
    H4Ranks(h.cards);
    H4Concat();
    TupleOf(h, ThreeOfAKind, [10, 10, 10, 9, 12], [3, 10, 10, 10, 9, 12]);
  }

  /** The five hands of the example and their bids. */
  const Example: seq<(Hand, int)> := [(Hand("32T3K"), 765), (Hand("T55J5"), 684), (Hand("KK677"), 28), (Hand("KTJJT"), 220), (Hand("QQQJA"), 483)]

  /** Five hands with the example's bids and the given rank tuples. */
  predicate HasKeys(hands: seq<(Hand, int)>, keys: seq<seq<int>>)
  {
    && |hands| == 5 && |keys| == 5
    && hands[0].1 == 765 && RankTuple(hands[0].0) == Ok(keys[0])
    && hands[1].1 == 684 && RankTuple(hands[1].0) == Ok(keys[1])
    && hands[2].1 == 28 && RankTuple(hands[2].0) == Ok(keys[2])
    && hands[3].1 == 220 && RankTuple(hands[3].0) == Ok(keys[3])
    && hands[4].1 == 483 && RankTuple(hands[4].0) == Ok(keys[4])
  }

  lemma EntriesOk(hands: seq<(Hand, int)>, i: nat, init: seq<Entry>, key: seq<int>)
    requires i < |hands| && Entries(hands[..i]) == Ok(init) && RankTuple(hands[i].0) == Ok(key)
    ensures Entries(hands[..i + 1]) == Ok(init + [Entry(hands[i].0, hands[i].1, key)])
  {
    EntriesNext(hands, i);
  }

  lemma ExampleEntries1(hands: seq<(Hand, int)>, keys: seq<seq<int>>)
    requires HasKeys(hands, keys)
    ensures Entries(hands[..1]) == Ok([] + [Entry(hands[0].0, hands[0].1, keys[0])])
  {
    assert hands[..0] == [];
    EntriesOk(hands, 0, [], keys[0]);
  }

  lemma ExampleEntries2(hands: seq<(Hand, int)>, keys: seq<seq<int>>)
    requires HasKeys(hands, keys)
    ensures Entries(hands[..2]) == Ok([] + [Entry(hands[0].0, hands[0].1, keys[0])] + [Entry(hands[1].0, hands[1].1, keys[1])])
  {
    ExampleEntries1(hands, keys);
    EntriesOk(hands, 1, [] + [Entry(hands[0].0, hands[0].1, keys[0])], keys[1]);
  }

  lemma ExampleEntries3(hands: seq<(Hand, int)>, keys: seq<seq<int>>)
    requires HasKeys(hands, keys)
    ensures Entries(hands[..3]) == Ok([] + [Entry(hands[0].0, hands[0].1, keys[0])] + [Entry(hands[1].0, hands[1].1, keys[1])] + [Entry(hands[2].0, hands[2].1, keys[2])])
  {
    ExampleEntries2(hands, keys);
    EntriesOk(hands, 2, [] + [Entry(hands[0].0, hands[0].1, keys[0])] + [Entry(hands[1].0, hands[1].1, keys[1])], keys[2]);
  }

  lemma ExampleEntries4(hands: seq<(Hand, int)>, keys: seq<seq<int>>)
    requires HasKeys(hands, keys)
    ensures Entries(hands[..4]) == Ok([] + [Entry(hands[0].0, hands[0].1, keys[0])] + [Entry(hands[1].0, hands[1].1, keys[1])] + [Entry(hands[2].0, hands[2].1, keys[2])] + [Entry(hands[3].0, hands[3].1, keys[3])])
  {
    ExampleEntries3(hands, keys);
    EntriesOk(hands, 3, [] + [Entry(hands[0].0, hands[0].1, keys[0])] + [Entry(hands[1].0, hands[1].1, keys[1])] + [Entry(hands[2].0, hands[2].1, keys[2])], keys[3]);
  }

  lemma ExampleEntries5(hands: seq<(Hand, int)>, keys: seq<seq<int>>)
    requires HasKeys(hands, keys)
    ensures Entries(hands[..5]) == Ok([] + [Entry(hands[0].0, hands[0].1, keys[0])] + [Entry(hands[1].0, hands[1].1, keys[1])] + [Entry(hands[2].0, hands[2].1, keys[2])] + [Entry(hands[3].0, hands[3].1, keys[3])] + [Entry(hands[4].0, hands[4].1, keys[4])])
  {
    ExampleEntries4(hands, keys);
    EntriesOk(hands, 4, [] + [Entry(hands[0].0, hands[0].1, keys[0])] + [Entry(hands[1].0, hands[1].1, keys[1])] + [Entry(hands[2].0, hands[2].1, keys[2])] + [Entry(hands[3].0, hands[3].1, keys[3])], keys[4]);
  }

  lemma WinningsFive(l: seq<Entry>)
    requires |l| == 5
    ensures Winnings(l, 5) == l[0].bid + 2 * l[1].bid + 3 * l[2].bid + 4 * l[3].bid + 5 * l[4].bid
  {
    assert Winnings(l, 1) == l[0].bid;
    assert Winnings(l, 2) == l[0].bid + 2 * l[1].bid;
    assert Winnings(l, 3) == l[0].bid + 2 * l[1].bid + 3 * l[2].bid;
    assert Winnings(l, 4) == l[0].bid + 2 * l[1].bid + 3 * l[2].bid + 4 * l[3].bid;
  }

  lemma Flatten(e0: Entry, e1: Entry, e2: Entry, e3: Entry, e4: Entry)
    ensures [] + [e0] + [e1] + [e2] + [e3] + [e4] == [e0, e1, e2, e3, e4]
  {
  }

  lemma InsertAfter(x: Entry, l: seq<Entry>)
    requires l != [] && !LexLess(x.key, l[0].key)
    ensures InsertEntry(x, l) == [l[0]] + InsertEntry(x, l[1..])
  {
  }

  lemma InsertBefore(x: Entry, l: seq<Entry>)
    requires l != [] && LexLess(x.key, l[0].key)
    ensures InsertEntry(x, l) == [x] + l
  {
  }

  lemma SortSnoc(xs: seq<Entry>, x: Entry)
    ensures SortEntries(xs + [x]) == InsertEntry(x, SortEntries(xs))
  {
    assert (xs + [x])[..|xs|] == xs;
  }

  lemma SortOne(e0: Entry)
    ensures SortEntries([e0]) == [e0]
  {
    SortSnoc([], e0);
    assert [] + [e0] == [e0];
  }

  lemma SortTwo(e0: Entry, e1: Entry)
    requires !LexLess(e1.key, e0.key)
    ensures SortEntries([e0, e1]) == [e0, e1]
  {
    SortSnoc([e0], e1);
    assert [e0] + [e1] == [e0, e1];
    SortOne(e0);
    InsertAfter(e1, [e0]);
    assert [e0][1..] == [];
  }

  lemma SortThree(e0: Entry, e1: Entry, e2: Entry)
    requires !LexLess(e1.key, e0.key) && !LexLess(e2.key, e0.key) && LexLess(e2.key, e1.key)
    ensures SortEntries([e0, e1, e2]) == [e0, e2, e1]
  {
    SortSnoc([e0, e1], e2);
    assert [e0, e1] + [e2] == [e0, e1, e2];
    SortTwo(e0, e1);
    InsertAfter(e2, [e0, e1]);
    assert [e0, e1][1..] == [e1];
    InsertBefore(e2, [e1]);
  }

  lemma SortFour(e0: Entry, e1: Entry, e2: Entry, e3: Entry)
    requires !LexLess(e1.key, e0.key) && !LexLess(e2.key, e0.key) && LexLess(e2.key, e1.key)
    requires !LexLess(e3.key, e0.key) && LexLess(e3.key, e2.key)
    ensures SortEntries([e0, e1, e2, e3]) == [e0, e3, e2, e1]
  {
    SortSnoc([e0, e1, e2], e3);
    assert [e0, e1, e2] + [e3] == [e0, e1, e2, e3];
    SortThree(e0, e1, e2);
    InsertAfter(e3, [e0, e2, e1]);
    assert [e0, e2, e1][1..] == [e2, e1];
    InsertBefore(e3, [e2, e1]);
  }

  lemma InsertLast(e4: Entry, e3: Entry, e2: Entry, e1: Entry)
    requires !LexLess(e4.key, e3.key) && !LexLess(e4.key, e2.key) && !LexLess(e4.key, e1.key)
    ensures InsertEntry(e4, [e3, e2, e1]) == [e3, e2, e1, e4]
  {
    InsertAfter(e4, [e1]);
    assert [e1][1..] == [];
    assert InsertEntry(e4, [e1]) == [e1, e4];
    InsertAfter(e4, [e2, e1]);
    assert [e2, e1][1..] == [e1];
    assert InsertEntry(e4, [e2, e1]) == [e2, e1, e4];
    InsertAfter(e4, [e3, e2, e1]);
    assert [e3, e2, e1][1..] == [e2, e1];
  }

  lemma SortFive(e0: Entry, e1: Entry, e2: Entry, e3: Entry, e4: Entry)
    requires !LexLess(e1.key, e0.key) && !LexLess(e2.key, e0.key) && LexLess(e2.key, e1.key)
    requires !LexLess(e3.key, e0.key) && LexLess(e3.key, e2.key)
    requires !LexLess(e4.key, e0.key) && !LexLess(e4.key, e3.key) && !LexLess(e4.key, e2.key) && !LexLess(e4.key, e1.key)
    ensures SortEntries([e0, e1, e2, e3, e4]) == [e0, e3, e2, e1, e4]
  {
    SortSnoc([e0, e1, e2, e3], e4);
    assert [e0, e1, e2, e3] + [e4] == [e0, e1, e2, e3, e4];
    SortFour(e0, e1, e2, e3);
    InsertAfter(e4, [e0, e3, e2, e1]);
    assert [e0, e3, e2, e1][1..] == [e3, e2, e1];
    InsertLast(e4, e3, e2, e1);
  }

  /** How the example's rank tuples compare. */
  lemma KeyOrder()
    ensures !LexLess([3, 8, 3, 3, 9, 3], [1, 1, 0, 8, 1, 11]) && !LexLess([2, 11, 11, 4, 5, 5], [1, 1, 0, 8, 1, 11]) && !LexLess([2, 11, 8, 9, 9, 8], [1, 1, 0, 8, 1, 11]) && !LexLess([3, 10, 10, 10, 9, 12], [1, 1, 0, 8, 1, 11])
    ensures LexLess([2, 11, 11, 4, 5, 5], [3, 8, 3, 3, 9, 3]) && LexLess([2, 11, 8, 9, 9, 8], [2, 11, 11, 4, 5, 5])
    ensures !LexLess([3, 10, 10, 10, 9, 12], [2, 11, 8, 9, 9, 8]) && !LexLess([3, 10, 10, 10, 9, 12], [2, 11, 11, 4, 5, 5]) && !LexLess([3, 10, 10, 10, 9, 12], [3, 8, 3, 3, 9, 3])
  {
    LexCons(2, [2, 11, 8, 9, 9, 8][1..], 2, [2, 11, 11, 4, 5, 5][1..]);
    LexCons(11, [2, 11, 8, 9, 9, 8][2..], 11, [2, 11, 11, 4, 5, 5][2..]);
    LexCons(3, [3, 10, 10, 10, 9, 12][1..], 3, [3, 8, 3, 3, 9, 3][1..]);
    assert [2, 11, 8, 9, 9, 8] == [2] + [2, 11, 8, 9, 9, 8][1..] && [2, 11, 11, 4, 5, 5] == [2] + [2, 11, 11, 4, 5, 5][1..];
    assert [2, 11, 8, 9, 9, 8][1..] == [11] + [2, 11, 8, 9, 9, 8][2..] && [2, 11, 11, 4, 5, 5][1..] == [11] + [2, 11, 11, 4, 5, 5][2..];
    assert [3, 10, 10, 10, 9, 12] == [3] + [3, 10, 10, 10, 9, 12][1..] && [3, 8, 3, 3, 9, 3] == [3] + [3, 8, 3, 3, 9, 3][1..];
  }

  /** Sorted by rank tuple the example's hands come in the order 32T3K, KTJJT,
      KK677, T55J5, QQQJA. */
  lemma ExampleSort(e0: Entry, e1: Entry, e2: Entry, e3: Entry, e4: Entry)
    requires e0.key == [1, 1, 0, 8, 1, 11]
    requires e1.key == [3, 8, 3, 3, 9, 3]
    requires e2.key == [2, 11, 11, 4, 5, 5]
    requires e3.key == [2, 11, 8, 9, 9, 8]
    requires e4.key == [3, 10, 10, 10, 9, 12]
    ensures SortEntries([e0, e1, e2, e3, e4]) == [e0, e3, e2, e1, e4]
  {
    KeyOrder();
    SortFive(e0, e1, e2, e3, e4);
  }

  lemma EntriesWhole(hands: seq<(Hand, int)>, es: seq<Entry>)
    requires |hands| == 5 && Entries(hands[..5]) == Ok(es)
    ensures Entries(hands) == Ok(es)
  {
    assert hands[..5] == hands;
  }

  /** Hands with the given rank tuples make these five entries. */
  lemma ExampleEntries(hands: seq<(Hand, int)>, keys: seq<seq<int>>)
    requires HasKeys(hands, keys)
    ensures Entries(hands) == Ok([Entry(hands[0].0, hands[0].1, keys[0]), Entry(hands[1].0, hands[1].1, keys[1]), Entry(hands[2].0, hands[2].1, keys[2]), Entry(hands[3].0, hands[3].1, keys[3]), Entry(hands[4].0, hands[4].1, keys[4])])
  {
    ExampleEntries5(hands, keys);
    EntriesWhole(hands, [] + [Entry(hands[0].0, hands[0].1, keys[0])] + [Entry(hands[1].0, hands[1].1, keys[1])] + [Entry(hands[2].0, hands[2].1, keys[2])] + [Entry(hands[3].0, hands[3].1, keys[3])] + [Entry(hands[4].0, hands[4].1, keys[4])]);
    Flatten(Entry(hands[0].0, hands[0].1, keys[0]), Entry(hands[1].0, hands[1].1, keys[1]), Entry(hands[2].0, hands[2].1, keys[2]), Entry(hands[3].0, hands[3].1, keys[3]), Entry(hands[4].0, hands[4].1, keys[4]));
  }

  /** Entries with the example's keys and bids win 6440 once sorted. */
  lemma SortedWinnings(hands: seq<(Hand, int)>, es: seq<Entry>, e0: Entry, e1: Entry, e2: Entry, e3: Entry, e4: Entry)
    requires Entries(hands) == Ok(es) && es == [e0, e1, e2, e3, e4]
    requires e0.key == [1, 1, 0, 8, 1, 11] && e0.bid == 765
    requires e1.key == [3, 8, 3, 3, 9, 3] && e1.bid == 684
    requires e2.key == [2, 11, 11, 4, 5, 5] && e2.bid == 28
    requires e3.key == [2, 11, 8, 9, 9, 8] && e3.bid == 220
    requires e4.key == [3, 10, 10, 10, 9, 12] && e4.bid == 483
    ensures TotalWinnings(hands) == Ok(6440)
  {
    ExampleSort(e0, e1, e2, e3, e4);
    WinningsFive([e0, e3, e2, e1, e4]);
  }

  /** The example's hands have the rank tuples worked out above. */
  lemma ExampleKeys(hands: seq<(Hand, int)>, keys: seq<seq<int>>)
    requires hands == Example
    requires keys == [[1, 1, 0, 8, 1, 11], [3, 8, 3, 3, 9, 3], [2, 11, 11, 4, 5, 5], [2, 11, 8, 9, 9, 8], [3, 10, 10, 10, 9, 12]]
    ensures HasKeys(hands, keys)
  {
    ExampleKey0(hands);
    ExampleKey1(hands);
    ExampleKey2(hands);
    ExampleKey3(hands);
    ExampleKey4(hands);
  }

  lemma ExampleKey0(hands: seq<(Hand, int)>)
    requires hands == Example
    ensures hands[0].1 == 765 && RankTuple(hands[0].0) == Ok([1, 1, 0, 8, 1, 11])
  {
    H0Tuple(hands[0].0);
  }

  lemma ExampleKey1(hands: seq<(Hand, int)>)
    requires hands == Example
    ensures hands[1].1 == 684 && RankTuple(hands[1].0) == Ok([3, 8, 3, 3, 9, 3])
  {
    H1Tuple(hands[1].0);
  }

  lemma ExampleKey2(hands: seq<(Hand, int)>)
    requires hands == Example
    ensures hands[2].1 == 28 && RankTuple(hands[2].0) == Ok([2, 11, 11, 4, 5, 5])
  {
    H2Tuple(hands[2].0);
  }

  lemma ExampleKey3(hands: seq<(Hand, int)>)
    requires hands == Example
    ensures hands[3].1 == 220 && RankTuple(hands[3].0) == Ok([2, 11, 8, 9, 9, 8])
  {
    H3Tuple(hands[3].0);
  }

  lemma ExampleKey4(hands: seq<(Hand, int)>)
    requires hands == Example
    ensures hands[4].1 == 483 && RankTuple(hands[4].0) == Ok([3, 10, 10, 10, 9, 12])
  {
    H4Tuple(hands[4].0);
  }

  /** The example's total winnings are 6440. */
  lemma ExamplePart1(hands: seq<(Hand, int)>)
    requires hands == Example
    ensures TotalWinnings(hands) == Ok(6440)
  {
    var keys := [[1, 1, 0, 8, 1, 11], [3, 8, 3, 3, 9, 3], [2, 11, 11, 4, 5, 5], [2, 11, 8, 9, 9, 8], [3, 10, 10, 10, 9, 12]];
    ExampleKeys(hands, keys);
    ExampleEntries(hands, keys);
    var e0 := Entry(hands[0].0, hands[0].1, keys[0]);
    var e1 := Entry(hands[1].0, hands[1].1, keys[1]);
    var e2 := Entry(hands[2].0, hands[2].1, keys[2]);
    var e3 := Entry(hands[3].0, hands[3].1, keys[3]);
    var e4 := Entry(hands[4].0, hands[4].1, keys[4]);
    SortedWinnings(hands, [e0, e1, e2, e3, e4], e0, e1, e2, e3, e4);
  }
}
