/** Camel cards: five-card hands ranked by type (the sorted multiplicities of their
    cards), then card by card, and the winnings are each bid times its hand's rank.
    In the joker variant `J` stands in for whichever card makes the best type and
    ranks lowest when breaking ties. */
module CamelCards {
  import opened Wrappers

  // ---------------------------------------------------------------------------
  // CARD_RANK and TYPE_RANK
  // ---------------------------------------------------------------------------

  /** `CARD_RANK`: `2` lowest up to `A` highest; any other card is missing. */
  function CardRank(c: char): (r: Option<nat>)
    ensures r.Some? <==> c in "23456789TJQKA"
    ensures r.Some? ==> r.value < 13 && "23456789TJQKA"[r.value] == c
  {
    match c
    case '2' => Some(0)
    case '3' => Some(1)
    case '4' => Some(2)
    case '5' => Some(3)
    case '6' => Some(4)
    case '7' => Some(5)
    case '8' => Some(6)
    case '9' => Some(7)
    case 'T' => Some(8)
    case 'J' => Some(9)
    case 'Q' => Some(10)
    case 'K' => Some(11)
    case 'A' => Some(12)
    case _ => None
  }

  /** The hand types, weakest first. */
  datatype HandType =
    | HighCard | OnePair | TwoPair | ThreeOfAKind | FullHouse | FourOfAKind | FiveOfAKind

  /** `TYPE_RANK`. */
  function TypeRank(t: HandType): (r: nat)
    ensures r <= 6
  {
    match t
    case HighCard => 0
    case OnePair => 1
    case TwoPair => 2
    case ThreeOfAKind => 3
    case FullHouse => 4
    case FourOfAKind => 5
    case FiveOfAKind => 6
  }

  // ---------------------------------------------------------------------------
  // Hand
  // ---------------------------------------------------------------------------

  /** A hand; two hands are equal when their strings are. */
  datatype Hand = Hand(cards: string)

  /** `Hand(string)`: a hand holds exactly five cards. */
  function NewHand(s: string): (r: Result<Hand>)
    ensures r.Ok? <==> |s| == 5
    ensures r.Ok? ==> r.value.cards == s
    ensures r.Err? ==> r.error == AssertionError
  {
    if |s| == 5 then Ok(Hand(s)) else Err(AssertionError)
  }

  // ---------------------------------------------------------------------------
  // Counting cards
  // ---------------------------------------------------------------------------

  /** No entry twice. */
  predicate NoDuplicates(d: string)
  {
    forall i, j :: 0 <= i < j < |d| ==> d[i] != d[j]
  }

  /** The distinct cards of `s` in order of first appearance: the keys of
      `Counter(s)`. */
  function Distinct(s: string): string
  {
    if s == [] then []
    else
      var p := Distinct(s[..|s| - 1]);
      if s[|s| - 1] in p then p else p + [s[|s| - 1]]
  }

  /** Each card of `s` once, and nothing else. */
  lemma {:induction false} DistinctMeaning(s: string)
    ensures NoDuplicates(Distinct(s))
    ensures forall c :: c in Distinct(s) <==> c in s
  {
    if s != [] {
      DistinctMeaning(s[..|s| - 1]);
      assert s == s[..|s| - 1] + [s[|s| - 1]];
    }
  }

  /** One more card is a new distinct card unless it was seen before. */
  lemma DistinctSnoc(s: string, c: char)
    ensures Distinct(s + [c]) == if c in Distinct(s) then Distinct(s) else Distinct(s) + [c]
  {
    assert (s + [c])[..|s|] == s;
  }

  /** How often each of `d` occurs in `m`. */
  function Tally(d: string, m: multiset<char>): (r: seq<nat>)
    ensures |r| == |d| && forall i :: 0 <= i < |d| ==> r[i] == m[d[i]]
  {
    seq(|d|, i requires 0 <= i < |d| => m[d[i]])
  }

  /** `counter.values()`: the multiplicity of each distinct card. */
  function CountsOf(s: string): (r: seq<nat>)
    ensures forall i :: 0 <= i < |r| ==> r[i] >= 1
  {
    var d := Distinct(s);
    DistinctMeaning(s);
    assert forall i :: 0 <= i < |d| ==> d[i] in s;
    Tally(d, multiset(s))
  }

  /** Ascending. */
  predicate Sorted(p: seq<nat>)
  {
    forall i, j :: 0 <= i < j < |p| ==> p[i] <= p[j]
  }

  /** `x` placed before the first entry not below it. */
  function InsertNat(x: nat, l: seq<nat>): (r: seq<nat>)
    ensures multiset(r) == multiset(l) + multiset{x}
    ensures |r| == |l| + 1 && (r[0] == x || (l != [] && r[0] == l[0]))
  {
    if l == [] then [x]
    else if x <= l[0] then [x] + l
    else
      assert l == [l[0]] + l[1..];
      [l[0]] + InsertNat(x, l[1..])
  }

  lemma {:induction false} InsertNatSorted(x: nat, l: seq<nat>)
    requires Sorted(l)
    ensures Sorted(InsertNat(x, l))
  {
    if l != [] && x > l[0] {
      InsertNatSorted(x, l[1..]);
      var rest := InsertNat(x, l[1..]);
      assert forall j :: 0 <= j < |rest| ==> rest[0] <= rest[j];
    }
  }

  /** `sorted`, on multiplicities. */
  function SortNat(xs: seq<nat>): (r: seq<nat>)
    ensures Sorted(r) && multiset(r) == multiset(xs)
  {
    if xs == [] then []
    else
      assert xs == [xs[0]] + xs[1..];
      InsertNatSorted(xs[0], SortNat(xs[1..]));
      InsertNat(xs[0], SortNat(xs[1..]))
  }

  /** `Hand.type`: classified by its sorted multiplicities; any other pattern is an
      error. */
  function Type(h: Hand): Result<HandType>
  {
    Classify(SortNat(CountsOf(h.cards)))
  }

  /** The seven patterns of `type`, matched in its order. */
  function Classify(counts: seq<nat>): Result<HandType>
  {
    if counts == [5] then Ok(FiveOfAKind)
    else if counts == [1, 4] then Ok(FourOfAKind)
    else if counts == [2, 3] then Ok(FullHouse)
    else if counts == [1, 1, 3] then Ok(ThreeOfAKind)
    else if counts == [1, 2, 2] then Ok(TwoPair)
    else if counts == [1, 1, 1, 2] then Ok(OnePair)
    else if counts == [1, 1, 1, 1, 1] then Ok(HighCard)
    else Err(RuntimeError)
  }

  // ---------------------------------------------------------------------------
  // The type depends only on which cards the hand holds
  // ---------------------------------------------------------------------------

  /** Two ascending sequences with the same entries start alike. */
  lemma SortedHead(a: seq<nat>, b: seq<nat>)
    requires Sorted(a) && Sorted(b) && multiset(a) == multiset(b) && a != []
    ensures b != [] && a[0] == b[0]
  {
    assert a[0] in multiset(b);
    assert b[0] in multiset(a);
  }

  /** Dropping the first entry drops one copy of it. */
  lemma MultisetTail(a: seq<nat>)
    requires a != []
    ensures multiset(a[1..]) == multiset(a) - multiset{a[0]}
  {
    assert a == [a[0]] + a[1..];
  }

  /** Two ascending sequences with the same entries are the same. */
  lemma {:induction false} SortedUnique(a: seq<nat>, b: seq<nat>)
    requires Sorted(a) && Sorted(b) && multiset(a) == multiset(b)
    ensures a == b
  {
    if a != [] {
      SortedHead(a, b);
      MultisetTail(a);
      MultisetTail(b);
      SortedUnique(a[1..], b[1..]);
      assert a == [a[0]] + a[1..] && b == [b[0]] + b[1..];
    }
  }

  /** Tallying splits over concatenation. */
  lemma TallyAppend(d: string, e: string, m: multiset<char>)
    ensures Tally(d + e, m) == Tally(d, m) + Tally(e, m)
  {
  }

  /** Removing one card from a duplicate-free sequence removes exactly that card. */
  lemma RemoveAtElements(d: string, j: nat)
    requires NoDuplicates(d) && j < |d|
    ensures NoDuplicates(RemoveAt(d, j))
    ensures forall x :: x in RemoveAt(d, j) <==> x in d && x != d[j]
  {
    var rest := RemoveAt(d, j);
    forall p, q | 0 <= p < q < |rest|
      ensures rest[p] != rest[q]
    {
      var p' := if p < j then p else p + 1;
      var q' := if q < j then q else q + 1;
      assert rest[p] == d[p'] && rest[q] == d[q'];
    }
    forall x
      ensures x in rest <==> x in d && x != d[j]
    {
      if x in d && x != d[j] {
        var k :| 0 <= k < |d| && d[k] == x;
        if k < j {
          assert rest[k] == x;
        } else {
          assert rest[k - 1] == x;
        }
      }
      if x in rest {
        var k :| 0 <= k < |rest| && rest[k] == x;
        var k' := if k < j then k else k + 1;
        assert d[k'] == x;
      }
    }
  }

  /** Tallying without one card drops that card's count. */
  lemma TallyRemoveAt(d: string, j: nat, m: multiset<char>)
    requires j < |d|
    ensures multiset(Tally(d, m)) == multiset(Tally(RemoveAt(d, j), m)) + multiset{m[d[j]]}
  {
    assert Tally(RemoveAt(d, j), m) == RemoveAt(Tally(d, m), j);
    RemoveAtMultiset(Tally(d, m), j);
  }

  lemma FirstIn(s: string)
    requires s != []
    ensures s[0] in s
  {
  }

  /** Tallying two orderings of the same distinct cards gives the same counts, in
      some order. */
  lemma {:induction false} TallyPermutation(d1: string, d2: string, m: multiset<char>)
    requires NoDuplicates(d1) && NoDuplicates(d2)
    requires forall c :: c in d1 <==> c in d2
    ensures multiset(Tally(d1, m)) == multiset(Tally(d2, m))
  {
    if d1 == [] {
      if d2 != [] {
        FirstIn(d2);
        assert false;
      }
    } else {
      assert d1[0] in d2;
      var j :| 0 <= j < |d2| && d2[j] == d1[0];
      RemoveAtElements(d1, 0);
      RemoveAtElements(d2, j);
      TallyPermutation(RemoveAt(d1, 0), RemoveAt(d2, j), m);
      TallyRemoveAt(d1, 0, m);
      TallyRemoveAt(d2, j, m);
    }
  }

  /** `type` does not depend on the order of the cards. */
  lemma TypeInvariant(h1: Hand, h2: Hand)
    requires multiset(h1.cards) == multiset(h2.cards)
    ensures Type(h1) == Type(h2)
  {
    var m := multiset(h1.cards);
    DistinctMeaning(h1.cards);
    DistinctMeaning(h2.cards);
    forall c
      ensures c in Distinct(h1.cards) <==> c in Distinct(h2.cards)
    {
      assert c in h1.cards <==> c in m;
      assert c in h2.cards <==> c in m;
    }
    TallyPermutation(Distinct(h1.cards), Distinct(h2.cards), m);
    SortedUnique(SortNat(CountsOf(h1.cards)), SortNat(CountsOf(h2.cards)));
  }

  // ---------------------------------------------------------------------------
  // Every five-card hand has a type
  // ---------------------------------------------------------------------------

  function Sum(p: seq<nat>): nat
  {
    if p == [] then 0 else p[0] + Sum(p[1..])
  }

  lemma {:induction false} SumAppend(a: seq<nat>, b: seq<nat>)
    ensures Sum(a + b) == Sum(a) + Sum(b)
  {
    if a == [] {
      assert a + b == b;
    } else {
      assert (a + b)[1..] == a[1..] + b;
      SumAppend(a[1..], b);
    }
  }

  /** `b` without its entry at `j`. */
  function RemoveAt<T>(b: seq<T>, j: nat): (r: seq<T>)
    requires j < |b|
    ensures |r| == |b| - 1
    ensures forall k :: 0 <= k < j ==> r[k] == b[k]
    ensures forall k :: j <= k < |r| ==> r[k] == b[k + 1]
  {
    b[..j] + b[j + 1..]
  }

  lemma RemoveAtMultiset(b: seq<nat>, j: nat)
    requires j < |b|
    ensures multiset(RemoveAt(b, j)) == multiset(b) - multiset{b[j]}
  {
    assert b == b[..j] + [b[j]] + b[j + 1..];
  }

  lemma SumRemoveAt(b: seq<nat>, j: nat)
    requires j < |b|
    ensures Sum(b) == b[j] + Sum(RemoveAt(b, j))
  {
    var left, right := b[..j], b[j + 1..];
    var rest := b[j..];
    assert left + rest == b;
    SumAppend(left, rest);
    assert rest[1..] == right;
    SumAppend(left, right);
  }

  /** The sum does not depend on the order. */
  lemma {:induction false} SumPermutation(a: seq<nat>, b: seq<nat>)
    requires multiset(a) == multiset(b)
    ensures Sum(a) == Sum(b)
  {
    if a != [] {
      assert a[0] in multiset(b);
      var j :| 0 <= j < |b| && b[j] == a[0];
      assert a == [a[0]] + a[1..];
      assert multiset(a[1..]) == multiset(a) - multiset{a[0]};
      RemoveAtMultiset(b, j);
      SumPermutation(a[1..], RemoveAt(b, j));
      SumRemoveAt(b, j);
    }
  }

  /** The multiplicities of the distinct cards add up to the number of cards. */
  lemma {:induction false} CountsSum(s: string)
    ensures Sum(CountsOf(s)) == |s|
  {
    if s != [] {
      var init := s[..|s| - 1];
      var c := s[|s| - 1];
      CountsSum(init);
      assert s == init + [c];
      var p := Distinct(init);
      DistinctMeaning(init);
      var m := multiset(init);
      TallyStep(p, m, c);
      if c !in p {
        TallyAppend(p, [c], multiset(s));
        SumAppend(Tally(p, multiset(s)), Tally([c], multiset(s)));
        assert m[c] == 0;
      }
    }
  }

  /** One more card `c` adds one to its own count and leaves the rest. */
  lemma {:induction false} TallyStep(d: string, m: multiset<char>, c: char)
    requires NoDuplicates(d)
    ensures Sum(Tally(d, m + multiset{c})) == Sum(Tally(d, m)) + (if c in d then 1 else 0)
  {
    if d != [] {
      TallyStep(d[1..], m, c);
      assert NoDuplicates(d[1..]);
      assert Tally(d, m + multiset{c})[1..] == Tally(d[1..], m + multiset{c});
      assert Tally(d, m)[1..] == Tally(d[1..], m);
      assert c in d <==> c == d[0] || c in d[1..];
      assert c == d[0] ==> c !in d[1..];
    }
  }

  /** The ascending ways to write five as a sum of positive parts are exactly the
      seven patterns `type` knows. */
  lemma Partitions(p: seq<nat>)
    requires Sorted(p) && Sum(p) == 5 && forall i :: 0 <= i < |p| ==> p[i] >= 1
    ensures Classify(p).Ok?
  {
    PartsBound(p);
    var q1 := p[1..];
    var q2 := if |q1| > 0 then q1[1..] else [];
    var q3 := if |q2| > 0 then q2[1..] else [];
    var q4 := if |q3| > 0 then q3[1..] else [];
    if |p| == 1 {
      assert p == [5];
    } else if |p| == 2 {
      assert Sum(p) == p[0] + Sum(q1);
      assert Sum(q1) == q1[0] + Sum(q2);
      assert Sum(q2) == 0;
      PartitionsOfTwo(p);
    } else if |p| == 3 {
      assert Sum(p) == p[0] + Sum(q1);
      assert Sum(q1) == q1[0] + Sum(q2);
      assert Sum(q2) == q2[0] + Sum(q3);
      assert Sum(q3) == 0;
      PartitionsOfThree(p);
    } else if |p| == 4 {
      assert Sum(p) == p[0] + Sum(q1);
      assert Sum(q1) == q1[0] + Sum(q2);
      assert Sum(q2) == q2[0] + Sum(q3);
      assert Sum(q3) == q3[0] + Sum(q4);
      assert Sum(q4) == 0;
      PartitionsOfFour(p);
    } else {
      assert Sum(p) == p[0] + Sum(q1);
      assert Sum(q1) == q1[0] + Sum(q2);
      assert Sum(q2) == q2[0] + Sum(q3);
      assert Sum(q3) == q3[0] + Sum(q4);
      assert Sum(q4) == q4[0] + Sum(q4[1..]);
      assert Sum(q4[1..]) == 0;
      PartitionsOfFive(p);
    }
  }

  lemma PartitionsOfTwo(p: seq<nat>)
    requires |p| == 2 && 1 <= p[0] <= p[1] && p[0] + p[1] == 5
    ensures p == [1, 4] || p == [2, 3]
  {
    if p[0] == 1 {
      assert p == [1, 4];
    } else {
      assert p == [2, 3];
    }
  }

  lemma PartitionsOfThree(p: seq<nat>)
    requires |p| == 3 && 1 <= p[0] <= p[1] <= p[2] && p[0] + p[1] + p[2] == 5
    ensures p == [1, 1, 3] || p == [1, 2, 2]
  {
    if p[1] == 1 {
      assert p == [1, 1, 3];
    } else {
      assert p == [1, 2, 2];
    }
  }

  lemma PartitionsOfFour(p: seq<nat>)
    requires |p| == 4 && 1 <= p[0] <= p[1] <= p[2] <= p[3] && p[0] + p[1] + p[2] + p[3] == 5
    ensures p == [1, 1, 1, 2]
  {
  }

  lemma PartitionsOfFive(p: seq<nat>)
    requires |p| == 5 && 1 <= p[0] && 1 <= p[1] && 1 <= p[2] && 1 <= p[3] && 1 <= p[4]
    requires p[0] + p[1] + p[2] + p[3] + p[4] == 5
    ensures p == [1, 1, 1, 1, 1]
  {
  }

  /** Positive parts summing to `Sum(p)` are at most that many. */
  lemma {:induction false} PartsBound(p: seq<nat>)
    requires forall i :: 0 <= i < |p| ==> p[i] >= 1
    ensures |p| <= Sum(p)
  {
    if p != [] {
      PartsBound(p[1..]);
    }
  }

  /** A hand of five cards always has a type: the `RuntimeError` cannot happen. */
  lemma TypeTotal(h: Hand)
    requires |h.cards| == 5
    ensures Type(h).Ok?
  {
    var counts := SortNat(CountsOf(h.cards));
    CountsSum(h.cards);
    SumPermutation(counts, CountsOf(h.cards));
    forall i | 0 <= i < |counts|
      ensures counts[i] >= 1
    {
      assert counts[i] in multiset(CountsOf(h.cards));
    }
    Partitions(counts);
  }

  // ---------------------------------------------------------------------------
  // rank_tuple
  // ---------------------------------------------------------------------------

  /** The ranks of the cards left to right; a card outside `CARD_RANK` is a
      `KeyError`. */
  function CardRanks(s: string): (r: Result<seq<int>>)
    ensures r.Ok? <==> forall i :: 0 <= i < |s| ==> CardRank(s[i]).Some?
    ensures r.Ok? ==> |r.value| == |s| && forall i :: 0 <= i < |s| ==> r.value[i] == CardRank(s[i]).value
    ensures r.Err? ==> r.error == KeyError
  {
    if s == [] then Ok([])
    else
      match CardRank(s[0])
      case None => Err(KeyError)
      case Some(k) =>
        match CardRanks(s[1..])
        case Err(e) => Err(e)
        case Ok(rest) => Ok([k] + rest)
  }

  /** `Hand.rank_tuple`: the type's rank followed by the cards' ranks. */
  function RankTuple(h: Hand): Result<seq<int>>
  {
    match Type(h)
    case Err(e) => Err(e)
    case Ok(t) =>
      match CardRanks(h.cards)
      case Err(e) => Err(e)
      case Ok(ranks) => Ok([TypeRank(t) as int] + ranks)
  }

  /** Different hands never share a rank tuple. */
  lemma RankTupleInjective(h1: Hand, h2: Hand)
    requires RankTuple(h1).Ok? && RankTuple(h2).Ok? && RankTuple(h1) == RankTuple(h2)
    ensures h1 == h2
  {
    var r1 := CardRanks(h1.cards).value;
    var r2 := CardRanks(h2.cards).value;
    assert r1 == RankTuple(h1).value[1..] && r2 == RankTuple(h2).value[1..];
    forall i | 0 <= i < |h1.cards|
      ensures h1.cards[i] == h2.cards[i]
    {
      assert "23456789TJQKA"[r1[i]] == h1.cards[i];
    }
  }

  /** Tuple order as Python compares: at the first difference, or the shorter first
      when one is a prefix of the other. */
  predicate LexLess(a: seq<int>, b: seq<int>)
  {
    if a == [] then b != []
    else if b == [] then false
    else a[0] < b[0] || (a[0] == b[0] && LexLess(a[1..], b[1..]))
  }

  predicate LexLe(a: seq<int>, b: seq<int>)
  {
    a == b || LexLess(a, b)
  }

  lemma {:induction false} LexTotal(a: seq<int>, b: seq<int>)
    ensures LexLe(a, b) || LexLe(b, a)
  {
    if a != [] && b != [] && a[0] == b[0] {
      LexTotal(a[1..], b[1..]);
      assert a == [a[0]] + a[1..] && b == [b[0]] + b[1..];
    }
  }

  lemma {:induction false} LexTransitive(a: seq<int>, b: seq<int>, c: seq<int>)
    requires LexLess(a, b) && LexLess(b, c)
    ensures LexLess(a, c)
  {
    if a != [] && a[0] == b[0] && b[0] == c[0] {
      LexTransitive(a[1..], b[1..], c[1..]);
    }
  }

  lemma {:induction false} LexIrreflexive(a: seq<int>)
    ensures !LexLess(a, a)
  {
    if a != [] {
      LexIrreflexive(a[1..]);
    }
  }

  /** Hands are ordered by type first and then card by card. */
  lemma RankOrder(h1: Hand, h2: Hand)
    requires RankTuple(h1).Ok? && RankTuple(h2).Ok?
    ensures LexLess(RankTuple(h1).value, RankTuple(h2).value) <==>
            TypeRank(Type(h1).value) < TypeRank(Type(h2).value)
            || (Type(h1) == Type(h2) && LexLess(CardRanks(h1.cards).value, CardRanks(h2.cards).value))
  {
    var t1 := RankTuple(h1).value;
    var t2 := RankTuple(h2).value;
    assert t1[0] == TypeRank(Type(h1).value) && t1[1..] == CardRanks(h1.cards).value;
    assert t2[0] == TypeRank(Type(h2).value) && t2[1..] == CardRanks(h2.cards).value;
    LexCons(t1[0], t1[1..], t2[0], t2[1..]);
    assert t1 == [t1[0]] + t1[1..] && t2 == [t2[0]] + t2[1..];
    TypeRankInjective(Type(h1).value, Type(h2).value);
  }

  /** Distinct types have distinct ranks. */
  lemma TypeRankInjective(a: HandType, b: HandType)
    ensures TypeRank(a) == TypeRank(b) ==> a == b
  {
  }

  /** Tuples are compared by their first entries, then by the rest. */
  lemma LexCons(x: int, a: seq<int>, y: int, b: seq<int>)
    ensures LexLess([x] + a, [y] + b) <==> x < y || (x == y && LexLess(a, b))
  {
    assert ([x] + a)[1..] == a;
    assert ([y] + b)[1..] == b;
  }

  // ---------------------------------------------------------------------------
  // sorted by rank tuple, and the winnings
  // ---------------------------------------------------------------------------

  /** A hand with its bid and the key it is sorted by. */
  datatype Entry = Entry(hand: Hand, bid: int, key: seq<int>)

  predicate SortedByKey(l: seq<Entry>)
  {
    forall i, j :: 0 <= i < j < |l| ==> LexLe(l[i].key, l[j].key)
  }

  /** `x` placed after every entry whose key is not above its own. */
  function InsertEntry(x: Entry, l: seq<Entry>): (r: seq<Entry>)
    ensures |r| == |l| + 1
  {
    if l == [] then [x]
    else if LexLess(x.key, l[0].key) then [x] + l
    else [l[0]] + InsertEntry(x, l[1..])
  }

  /** Inserting adds exactly `x`. */
  lemma {:induction false} InsertEntryPermutation(x: Entry, l: seq<Entry>)
    ensures multiset(InsertEntry(x, l)) == multiset(l) + multiset{x}
  {
    if l != [] && !LexLess(x.key, l[0].key) {
      InsertEntryPermutation(x, l[1..]);
      assert l == [l[0]] + l[1..];
    }
  }

  lemma {:induction false} InsertEntrySorted(x: Entry, l: seq<Entry>)
    requires SortedByKey(l)
    ensures SortedByKey(InsertEntry(x, l))
  {
    if l != [] && !LexLess(x.key, l[0].key) {
      InsertEntrySorted(x, l[1..]);
      var r := InsertEntry(x, l);
      LexTotal(x.key, l[0].key);
      forall j | 0 < j < |r|
        ensures LexLe(l[0].key, r[j].key)
      {
        var rest := InsertEntry(x, l[1..]);
        InsertEntryPermutation(x, l[1..]);
        assert r[j] == rest[j - 1];
        assert rest[j - 1] in multiset(l[1..]) + multiset{x};
        if rest[j - 1] != x {
          assert rest[j - 1] in l[1..];
          var k :| 0 <= k < |l[1..]| && l[1..][k] == rest[j - 1];
          assert l[k + 1] == rest[j - 1];
        }
      }
    } else if l != [] {
      var r := InsertEntry(x, l);
      forall i, j | 0 <= i < j < |r|
        ensures LexLe(r[i].key, r[j].key)
      {
        if i == 0 {
          if LexLess(l[0].key, l[j - 1].key) {
            LexTransitive(x.key, l[0].key, l[j - 1].key);
          }
        }
      }
    }
  }

  /** `sorted(..., key=...)`: a stable insertion sort by key. */
  function SortEntries(xs: seq<Entry>): (r: seq<Entry>)
    ensures |r| == |xs|
  {
    if xs == [] then []
    else InsertEntry(xs[|xs| - 1], SortEntries(xs[..|xs| - 1]))
  }

  /** The sort only reorders. */
  lemma {:induction false} SortEntriesPermutation(xs: seq<Entry>)
    ensures multiset(SortEntries(xs)) == multiset(xs)
  {
    if xs != [] {
      var init := xs[..|xs| - 1];
      SortEntriesPermutation(init);
      InsertEntryPermutation(xs[|xs| - 1], SortEntries(init));
      assert xs == init + [xs[|xs| - 1]];
    }
  }

  /** The sort orders by key. */
  lemma {:induction false} SortEntriesSorted(xs: seq<Entry>)
    ensures SortedByKey(SortEntries(xs))
  {
    if xs != [] {
      SortEntriesSorted(xs[..|xs| - 1]);
      InsertEntrySorted(xs[|xs| - 1], SortEntries(xs[..|xs| - 1]));
    }
  }

  /** The entries of `l` whose key is `k`, in their order in `l`. */
  function WithKey(l: seq<Entry>, k: seq<int>): seq<Entry>
  {
    if l == [] then []
    else (if l[0].key == k then [l[0]] else []) + WithKey(l[1..], k)
  }

  lemma {:induction false} WithKeyAppend(a: seq<Entry>, b: seq<Entry>, k: seq<int>)
    ensures WithKey(a + b, k) == WithKey(a, k) + WithKey(b, k)
  {
    if a == [] {
      assert a + b == b;
    } else {
      WithKeyAppend(a[1..], b, k);
      assert (a + b)[1..] == a[1..] + b;
      var head := if a[0].key == k then [a[0]] else [];
      assert WithKey(a + b, k) == head + WithKey(a[1..] + b, k);
      assert head + (WithKey(a[1..], k) + WithKey(b, k)) == (head + WithKey(a[1..], k)) + WithKey(b, k);
    }
  }

  /** No entry has key `k` when every key is above it. */
  lemma {:induction false} NoneWithKey(l: seq<Entry>, k: seq<int>)
    requires forall i :: 0 <= i < |l| ==> LexLess(k, l[i].key)
    ensures WithKey(l, k) == []
  {
    if l != [] {
      LexIrreflexive(k);
      NoneWithKey(l[1..], k);
    }
  }

  /** In a list sorted by key, every key is above one below the head's. */
  lemma AllAboveHead(x: Entry, l: seq<Entry>)
    requires SortedByKey(l) && l != [] && LexLess(x.key, l[0].key)
    ensures forall i :: 0 <= i < |l| ==> LexLess(x.key, l[i].key)
  {
    forall i | 0 < i < |l|
      ensures LexLess(x.key, l[i].key)
    {
      assert LexLe(l[0].key, l[i].key);
      if l[0].key != l[i].key {
        LexTransitive(x.key, l[0].key, l[i].key);
      }
    }
  }

  /** Inserting `x` in front of a sorted list whose head's key is above its own. */
  lemma InsertFrontStable(x: Entry, l: seq<Entry>, k: seq<int>)
    requires SortedByKey(l) && l != [] && LexLess(x.key, l[0].key)
    ensures WithKey(InsertEntry(x, l), k) == WithKey(l, k) + WithKey([x], k)
  {
    assert InsertEntry(x, l) == [x] + l;
    WithKeyAppend([x], l, k);
    if x.key == k {
      AllAboveHead(x, l);
      NoneWithKey(l, k);
      assert WithKey([x], k) + [] == WithKey([x], k);
    } else {
      assert WithKey([x], k) == [];
      assert [] + WithKey(l, k) == WithKey(l, k) + [];
    }
  }

  /** Inserting `x` after the head, given that inserting it into the tail is stable. */
  lemma InsertLaterStable(x: Entry, l: seq<Entry>, k: seq<int>)
    requires l != [] && !LexLess(x.key, l[0].key)
    requires WithKey(InsertEntry(x, l[1..]), k) == WithKey(l[1..], k) + WithKey([x], k)
    ensures WithKey(InsertEntry(x, l), k) == WithKey(l, k) + WithKey([x], k)
  {
    var rest := InsertEntry(x, l[1..]);
    var r := InsertEntry(x, l);
    assert r == [l[0]] + rest;
    assert r[0] == l[0] && r[1..] == rest;
    var head := if l[0].key == k then [l[0]] else [];
    var t, y := WithKey(l[1..], k), WithKey([x], k);
    assert WithKey(r, k) == head + WithKey(rest, k);
    assert WithKey(l, k) == head + t;
    ConcatAssoc(head, t, y);
  }

  lemma ConcatAssoc<T>(a: seq<T>, b: seq<T>, c: seq<T>)
    ensures a + (b + c) == (a + b) + c
  {
  }

  /** Inserting `x` puts it after every entry with the same key. */
  lemma {:induction false} InsertEntryStable(x: Entry, l: seq<Entry>, k: seq<int>)
    requires SortedByKey(l)
    ensures WithKey(InsertEntry(x, l), k) == WithKey(l, k) + WithKey([x], k)
  {
    if l == [] {
      assert InsertEntry(x, l) == [x];
    } else if LexLess(x.key, l[0].key) {
      InsertFrontStable(x, l, k);
    } else {
      assert SortedByKey(l[1..]);
      InsertEntryStable(x, l[1..], k);
      InsertLaterStable(x, l, k);
    }
  }

  /** The sort is stable: the entries with any one key keep their input order. */
  lemma {:induction false} SortEntriesStable(xs: seq<Entry>, k: seq<int>)
    ensures WithKey(SortEntries(xs), k) == WithKey(xs, k)
  {
    if xs != [] {
      var init := xs[..|xs| - 1];
      SortEntriesStable(init, k);
      SortEntriesSorted(init);
      InsertEntryStable(xs[|xs| - 1], SortEntries(init), k);
      assert xs == init + [xs[|xs| - 1]];
      WithKeyAppend(init, [xs[|xs| - 1]], k);
    }
  }

  /** The bids weighted by their 1-based rank in `l`, for the first `n` entries. */
  function Winnings(l: seq<Entry>, n: nat): int
    requires n <= |l|
  {
    if n == 0 then 0 else Winnings(l, n - 1) + n * l[n - 1].bid
  }

  // ---------------------------------------------------------------------------
  // part1
  // ---------------------------------------------------------------------------

  /** Each hand with its bid and rank tuple, or the first error a rank tuple
      raises. */
  function Entries(hands: seq<(Hand, int)>): (r: Result<seq<Entry>>)
    ensures r.Ok? ==> |r.value| == |hands|
  {
    if hands == [] then Ok([])
    else
      match Entries(hands[..|hands| - 1])
      case Err(e) => Err(e)
      case Ok(init) =>
        var (hand, bid) := hands[|hands| - 1];
        match RankTuple(hand)
        case Err(e) => Err(e)
        case Ok(key) => Ok(init + [Entry(hand, bid, key)])
  }

  /** The total winnings of part 1. */
  function TotalWinnings(hands: seq<(Hand, int)>): Result<int>
  {
    match Entries(hands)
    case Err(e) => Err(e)
    case Ok(es) => var sorted := SortEntries(es); Ok(Winnings(sorted, |sorted|))
  }

  /** Sorts the hands by rank tuple and adds up rank times bid. */
  method Part1(hands: seq<(Hand, int)>) returns (r: Result<int>)
    ensures r == TotalWinnings(hands)
  {
    var entries := CollectEntries(hands);
    if entries.Err? {
      return Err(entries.error);
    }
    var sorted := SortEntries(entries.value);
    var totalWinnings := SumWinnings(sorted);
    r := Ok(totalWinnings);
  }

  /** The rank tuple of each hand in turn; the first error stops. */
  method CollectEntries(hands: seq<(Hand, int)>) returns (r: Result<seq<Entry>>)
    ensures r == Entries(hands)
  {
    var entries := [];
    for i := 0 to |hands|
      invariant Entries(hands[..i]) == Ok(entries)
    {
      var (hand, bid) := hands[i];
      var key := RankTuple(hand);
      EntriesNext(hands, i);
      if key.Err? {
        EntriesStop(hands, i + 1);
        return Err(key.error);
      }
      entries := entries + [Entry(hand, bid, key.value)];
    }
    assert hands[..|hands|] == hands;
    r := Ok(entries);
  }

  /** `for rank, (_, bid) in enumerate(..., start=1): total += rank * bid`. */
  method SumWinnings(sorted: seq<Entry>) returns (totalWinnings: int)
    ensures totalWinnings == Winnings(sorted, |sorted|)
  {
    totalWinnings := 0;
    for rank := 1 to |sorted| + 1
      invariant totalWinnings == Winnings(sorted, rank - 1)
    {
      totalWinnings := totalWinnings + rank * sorted[rank - 1].bid;
    }
  }

  /** One more hand adds its entry, or its rank tuple's error. */
  lemma EntriesNext(hands: seq<(Hand, int)>, i: nat)
    requires i < |hands|
    ensures Entries(hands[..i + 1]) ==
            match Entries(hands[..i])
            case Err(e) => Err(e)
            case Ok(init) =>
              match RankTuple(hands[i].0)
              case Err(e) => Err(e)
              case Ok(key) => Ok(init + [Entry(hands[i].0, hands[i].1, key)])
  {
    assert hands[..i + 1][..i] == hands[..i];
  }

  /** The first error among the first `n` hands is the error of all of them. */
  lemma {:induction false} EntriesStop(hands: seq<(Hand, int)>, n: nat)
    requires n <= |hands| && Entries(hands[..n]).Err?
    ensures Entries(hands) == Entries(hands[..n])
    decreases |hands| - n
  {
    if n < |hands| {
      assert hands[..n + 1][..n] == hands[..n];
      EntriesStop(hands, n + 1);
    } else {
      assert hands[..n] == hands;
    }
  }

  // ---------------------------------------------------------------------------
  // part2
  // ---------------------------------------------------------------------------

  /** `J` ranks below every other card: its rank becomes -1. */
  function JokerTuple(t: seq<int>): (r: seq<int>)
    ensures |r| == |t| && forall i :: 0 <= i < |t| ==> r[i] == (if t[i] == 9 then -1 else t[i])
  {
    seq(|t|, i requires 0 <= i < |t| => if t[i] == 9 then -1 else t[i])
  }

  /** `s.replace("J", c)`. */
  function ReplaceJ(s: string, c: char): (r: string)
    ensures |r| == |s| && forall i :: 0 <= i < |s| ==> r[i] == (if s[i] == 'J' then c else s[i])
  {
    seq(|s|, i requires 0 <= i < |s| => if s[i] == 'J' then c else s[i])
  }

  /** The replacements tried for `J`. */
  const Replacements: string := "23456789TQKA"

  /** The hands with every `J` replaced by the same card, one per replacement. */
  function PossibleHands(h: Hand): (ps: seq<Hand>)
    ensures |ps| == |Replacements| && forall k :: 0 <= k < |ps| ==> ps[k] == Hand(ReplaceJ(h.cards, Replacements[k]))
  {
    seq(|Replacements|, k requires 0 <= k < |Replacements| => Hand(ReplaceJ(h.cards, Replacements[k])))
  }

  /** `h.rank_tuple[0]`, the key part 2 maximises over the replacements. */
  function TypeKey(h: Hand): Result<int>
  {
    match RankTuple(h)
    case Err(e) => Err(e)
    case Ok(t) => Ok(t[0])
  }

  /** The key of each hand, for `max` with a key function. */
  function TypeKeys(ps: seq<Hand>, key: Hand -> Result<int>): (ks: seq<Result<int>>)
    ensures |ks| == |ps| && forall k :: 0 <= k < |ps| ==> ks[k] == key(ps[k])
  {
    seq(|ps|, k requires 0 <= k < |ps| => key(ps[k]))
  }

  /** The values of the first `n` results, or the first error among them. */
  function TypeRanks(ks: seq<Result<int>>, n: nat): (r: Result<seq<int>>)
    requires n <= |ks|
    ensures r.Ok? ==> |r.value| == n
  {
    if n == 0 then Ok([])
    else
      match TypeRanks(ks, n - 1)
      case Err(e) => Err(e)
      case Ok(init) =>
        match ks[n - 1]
        case Err(e) => Err(e)
        case Ok(t) => Ok(init + [t])
  }

  /** Without an error, entry `k` is the value of result `k`. */
  lemma {:induction false} TypeRanksAt(ks: seq<Result<int>>, n: nat, k: nat)
    requires n <= |ks| && TypeRanks(ks, n).Ok? && k < n
    ensures ks[k].Ok? && TypeRanks(ks, n).value[k] == ks[k].value
  {
    if k < n - 1 {
      TypeRanksAt(ks, n - 1, k);
    }
  }

  /** The type key is the type's rank. */
  lemma TypeKeyMeaning(h: Hand)
    requires TypeKey(h).Ok?
    ensures Type(h).Ok? && TypeKey(h).value == TypeRank(Type(h).value)
  {
  }

  /** `max` by key: the first position holding the largest key. */
  function ArgMax(keys: seq<int>): (k: nat)
    requires |keys| > 0
    ensures k < |keys|
    ensures forall i :: 0 <= i < |keys| ==> keys[i] <= keys[k]
    ensures forall i :: 0 <= i < k ==> keys[i] < keys[k]
  {
    if |keys| == 1 then 0
    else
      var k := ArgMax(keys[..|keys| - 1]);
      if keys[|keys| - 1] > keys[k] then |keys| - 1 else k
  }

  /** A hand's entry in part 2: the best replacement's type rank followed by the
      hand's own card ranks with `J` lowest; with the best hand and the bid. */
  function BestEntry(hand: Hand, bid: int): Result<Entry>
  {
    match RankTuple(hand)
    case Err(e) => Err(e)
    case Ok(t) =>
      var rankTuple := JokerTuple(t);
      var ps := PossibleHands(hand);
      match TypeRanks(TypeKeys(ps, TypeKey), |ps|)
      case Err(e) => Err(e)
      case Ok(keys) =>
        var best := ArgMax(keys);
        Ok(Entry(ps[best], bid, [keys[best]] + rankTuple[1..]))
  }

  /** Every hand's part-2 entry, or the first error. */
  function BestEntries(hands: seq<(Hand, int)>): (r: Result<seq<Entry>>)
    ensures r.Ok? ==> |r.value| == |hands|
  {
    if hands == [] then Ok([])
    else
      match BestEntries(hands[..|hands| - 1])
      case Err(e) => Err(e)
      case Ok(init) =>
        var (hand, bid) := hands[|hands| - 1];
        match BestEntry(hand, bid)
        case Err(e) => Err(e)
        case Ok(x) => Ok(init + [x])
  }

  /** The total winnings of part 2. */
  function JokerWinnings(hands: seq<(Hand, int)>): Result<int>
  {
    match BestEntries(hands)
    case Err(e) => Err(e)
    case Ok(es) => var sorted := SortEntries(es); Ok(Winnings(sorted, |sorted|))
  }

  /** The part-2 key is as strong as the type of any replacement, is the type of one
      of them, and keeps the cards' order with `J` lowest. */
  lemma BestEntryMeaning(hand: Hand, bid: int)
    requires BestEntry(hand, bid).Ok?
    ensures var x := BestEntry(hand, bid).value;
            && (forall k :: 0 <= k < |Replacements| ==>
                  var p := Hand(ReplaceJ(hand.cards, Replacements[k]));
                  Type(p).Ok? && TypeRank(Type(p).value) <= x.key[0])
            && (exists k :: 0 <= k < |Replacements| && x.hand == Hand(ReplaceJ(hand.cards, Replacements[k]))
                  && x.key[0] == TypeRank(Type(x.hand).value))
            && x.key[1..] == JokerTuple(RankTuple(hand).value)[1..]
  {
    var ps := PossibleHands(hand);
    var ks := TypeKeys(ps, TypeKey);
    var keys := TypeRanks(ks, |ps|).value;
    var best := ArgMax(keys);
    forall k | 0 <= k < |Replacements|
      ensures Type(ps[k]).Ok? && TypeRank(Type(ps[k]).value) <= keys[best]
    {
      TypeRanksAt(ks, |ps|, k);
      TypeKeyMeaning(ps[k]);
    }
    TypeRanksAt(ks, |ps|, best);
    TypeKeyMeaning(ps[best]);
    assert ps[best] == Hand(ReplaceJ(hand.cards, Replacements[best]));
  }

  /** Without a `J` every replacement is the hand itself, so its part-2 type is its
      own. */
  lemma NoJokerSameType(hand: Hand, bid: int)
    requires BestEntry(hand, bid).Ok? && 'J' !in hand.cards
    ensures BestEntry(hand, bid).value.key[0] == TypeRank(Type(hand).value)
  {
    var ps := PossibleHands(hand);
    var ks := TypeKeys(ps, TypeKey);
    var keys := TypeRanks(ks, |ps|).value;
    var best := ArgMax(keys);
    TypeRanksAt(ks, |ps|, best);
    TypeKeyMeaning(ps[best]);
    assert ReplaceJ(hand.cards, Replacements[best]) == hand.cards;
  }

  /** For each hand, tries every replacement of `J`, keeps the one with the best
      type, then sorts by the part-2 key and adds up rank times bid. */
  method Part2(hands: seq<(Hand, int)>) returns (r: Result<int>)
    ensures r == JokerWinnings(hands)
  {
    var bestHands := CollectBestEntries(hands);
    if bestHands.Err? {
      return Err(bestHands.error);
    }
    var sorted := SortEntries(bestHands.value);
    var totalWinnings := SumWinnings(sorted);
    r := Ok(totalWinnings);
  }

  /** Part 2's first loop: the best hand and key of each hand in turn. */
  method CollectBestEntries(hands: seq<(Hand, int)>) returns (r: Result<seq<Entry>>)
    ensures r == BestEntries(hands)
  {
    var bestHands := [];
    for i := 0 to |hands|
      invariant BestEntries(hands[..i]) == Ok(bestHands)
    {
      var (hand, bid) := hands[i];
      var entry := BestHand(hand, bid);
      BestEntriesNext(hands, i);
      if entry.Err? {
        BestEntriesStop(hands, i + 1);
        return Err(entry.error);
      }
      bestHands := bestHands + [entry.value];
    }
    assert hands[..|hands|] == hands;
    r := Ok(bestHands);
  }

  /** The body of part 2's first loop for one hand: the first replacement with the
      highest type rank. */
  method BestHand(hand: Hand, bid: int) returns (r: Result<Entry>)
    ensures r == BestEntry(hand, bid)
  {
    var t := RankTuple(hand);
    if t.Err? {
      return Err(t.error);
    }
    var rankTuple := JokerTuple(t.value);
    var ps := PossibleHands(hand);
    var keys := TypeRanksOf(ps, TypeKey);
    if keys.Err? {
      return Err(keys.error);
    }
    var best := FirstMax(keys.value);
    r := Ok(Entry(ps[best], bid, [keys.value[best]] + rankTuple[1..]));
  }

  /** The type rank of each hand, computed in turn; the first error stops. */
  method TypeRanksOf(ps: seq<Hand>, key: Hand -> Result<int>) returns (r: Result<seq<int>>)
    ensures r == TypeRanks(TypeKeys(ps, key), |ps|)
  {
    ghost var ks := TypeKeys(ps, key);
    var keys: seq<int> := [];
    for k := 0 to |ps|
      invariant TypeRanks(ks, k) == Ok(keys)
    {
      var kr := key(ps[k]);
      if kr.Err? {
        TypeRanksStop(ks, k + 1);
        return Err(kr.error);
      }
      keys := keys + [kr.value];
    }
    r := Ok(keys);
  }

  /** `max`: scans for the first position of the largest key. */
  method FirstMax(keys: seq<int>) returns (best: nat)
    requires |keys| > 0
    ensures best == ArgMax(keys)
  {
    best := 0;
    for k := 1 to |keys|
      invariant best == ArgMax(keys[..k])
    {
      assert keys[..k + 1][..k] == keys[..k];
      if keys[k] > keys[best] {
        best := k;
      }
    }
    assert keys[..|keys|] == keys;
  }

  lemma {:induction false} TypeRanksStop(ks: seq<Result<int>>, n: nat)
    requires n <= |ks| && TypeRanks(ks, n).Err?
    ensures TypeRanks(ks, |ks|) == TypeRanks(ks, n)
    decreases |ks| - n
  {
    if n < |ks| {
      TypeRanksStop(ks, n + 1);
    }
  }

  /** One more hand adds its part-2 entry, or its error. */
  lemma BestEntriesNext(hands: seq<(Hand, int)>, i: nat)
    requires i < |hands|
    ensures BestEntries(hands[..i + 1]) ==
            match BestEntries(hands[..i])
            case Err(e) => Err(e)
            case Ok(init) =>
              match BestEntry(hands[i].0, hands[i].1)
              case Err(e) => Err(e)
              case Ok(x) => Ok(init + [x])
  {
    assert hands[..i + 1][..i] == hands[..i];
  }

  lemma {:induction false} BestEntriesStop(hands: seq<(Hand, int)>, n: nat)
    requires n <= |hands| && BestEntries(hands[..n]).Err?
    ensures BestEntries(hands) == BestEntries(hands[..n])
    decreases |hands| - n
  {
    if n < |hands| {
      assert hands[..n + 1][..n] == hands[..n];
      BestEntriesStop(hands, n + 1);
    } else {
      assert hands[..n] == hands;
    }
  }
}
