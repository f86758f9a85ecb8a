/** Scratchcards: each card lists winning numbers and the numbers held; its
    matches are the numbers on both sides. Part 1 scores the cards; part 2 lets
    every card win one copy of each of the next cards, as many as it has
    matches, and counts all the cards that end up in hand. */
module Scratchcards {
  import opened Wrappers

  // ---------------------------------------------------------------------------
  // Cards
  // ---------------------------------------------------------------------------

  /** A card as parsed: its number and the numbers of its two halves, as the
      text fields split on white space. */
  datatype CardText = CardText(cardNum: int, winning: seq<string>, held: seq<string>)

  /** `Card`: the card's number and how many of its numbers match. */
  datatype Card = Card(cardNum: int, numMatches: nat)

  /** `set(fields)`. */
  function Elements(s: seq<string>): set<string>
  {
    set x | x in s
  }

  /** `len(winning_nums.intersection(nums))`. */
  function NumMatches(winning: seq<string>, held: seq<string>): nat
  {
    |Elements(winning) * Elements(held)|
  }

  /** The numbers of a sequence, as a set, are no more than its length. */
  lemma {:induction false} ElementsBound(s: seq<string>)
    ensures |Elements(s)| <= |s|
  {
    if s != [] {
      var init := s[..|s| - 1];
      ElementsBound(init);
      assert Elements(s) == Elements(init) + {s[|s| - 1]} by {
        assert s == init + [s[|s| - 1]];
      }
    }
  }

  /** One more winning number adds a match exactly when it is held and was not
      already among the winning numbers: repeats count once. */
  lemma NumMatchesSnoc(winning: seq<string>, x: string, held: seq<string>)
    ensures NumMatches(winning + [x], held) ==
            NumMatches(winning, held) + (if x in held && x !in winning then 1 else 0)
  {
    var a := Elements(winning) * Elements(held);
    assert Elements(winning + [x]) == Elements(winning) + {x};
    if x in held && x !in winning {
      assert Elements(winning + [x]) * Elements(held) == a + {x};
    } else {
      assert Elements(winning + [x]) * Elements(held) == a;
    }
  }

  /** No card matches more numbers than either of its halves holds. */
  lemma NumMatchesBound(winning: seq<string>, held: seq<string>)
    ensures NumMatches(winning, held) <= |winning| && NumMatches(winning, held) <= |held|
  {
    var a := Elements(winning) * Elements(held);
    assert a <= Elements(winning);
    assert a <= Elements(held);
    ElementsBound(winning);
    ElementsBound(held);
    SubsetSize(a, Elements(winning));
    SubsetSize(a, Elements(held));
  }

  lemma SubsetSize(a: set<string>, b: set<string>)
    requires a <= b
    ensures |a| <= |b|
  {
    assert b == a + (b - a);
  }

  /** `parse_cards`: one card per parsed line. */
  function ParseCards(texts: seq<CardText>): (cards: seq<Card>)
    ensures |cards| == |texts|
    ensures forall k :: 0 <= k < |texts| ==>
              cards[k].cardNum == texts[k].cardNum &&
              cards[k].numMatches == NumMatches(texts[k].winning, texts[k].held)
  {
    seq(|texts|, k requires 0 <= k < |texts| =>
      Card(texts[k].cardNum, NumMatches(texts[k].winning, texts[k].held)))
  }

  // ---------------------------------------------------------------------------
  // Part 1: points
  // ---------------------------------------------------------------------------

  function Pow2(n: nat): (r: nat)
    ensures r >= 1
  {
    if n == 0 then 1 else 2 * Pow2(n - 1)
  }

  /** A card's points: nothing without a match, then one point doubled for every
      match after the first. */
  function Points(matches: nat): nat
  {
    if matches > 0 then Pow2(matches - 1) else 0
  }

  /** One match is worth one point, each further match doubles the worth, and
      only a card without matches is worth nothing. */
  lemma PointsMeaning(matches: nat)
    ensures Points(1) == 1
    ensures matches >= 1 ==> Points(matches + 1) == 2 * Points(matches)
    ensures Points(matches) == 0 <==> matches == 0
  {
  }

  /** The points of all the cards. */
  function TotalPoints(cards: seq<Card>): nat
  {
    if cards == [] then 0
    else TotalPoints(cards[..|cards| - 1]) + Points(cards[|cards| - 1].numMatches)
  }

  /** Adds up the points card by card. */
  method Part1(cards: seq<Card>) returns (totalPoints: nat)
    ensures totalPoints == TotalPoints(cards)
  {
    totalPoints := 0;
    for k := 0 to |cards|
      invariant totalPoints == TotalPoints(cards[..k])
    {
      assert cards[..k + 1][..k] == cards[..k];
      if cards[k].numMatches > 0 {
        totalPoints := totalPoints + Pow2(cards[k].numMatches - 1);
      }
    }
    assert cards[..|cards|] == cards;
  }

  /** The points of two runs of cards add up. */
  lemma {:induction false} TotalPointsAppend(a: seq<Card>, b: seq<Card>)
    ensures TotalPoints(a + b) == TotalPoints(a) + TotalPoints(b)
    decreases |b|
  {
    if b != [] {
      var init := b[..|b| - 1];
      assert (a + b)[..|a + b| - 1] == a + init;
      assert (a + b)[|a + b| - 1] == b[|b| - 1];
      TotalPointsAppend(a, init);
      assert TotalPoints(b) == TotalPoints(init) + Points(b[|b| - 1].numMatches);
    } else {
      assert a + b == a;
    }
  }

  // ---------------------------------------------------------------------------
  // Part 2: copies
  // ---------------------------------------------------------------------------

  /** The cards are numbered 1, 2, ... in the order they are listed, as the
      source's `original_cards[i - 1]` takes for granted. */
  predicate Numbered(cards: seq<Card>)
  {
    forall k :: 0 <= k < |cards| ==> cards[k].cardNum == k + 1
  }

  /** Every card's copies stay within the table: card `n` with `m` matches copies
      cards `n + 1` to `n + m`, which must exist. */
  predicate InRange(cards: seq<Card>)
  {
    forall k :: 0 <= k < |cards| ==> cards[k].cardNum + cards[k].numMatches <= |cards|
  }

  function Min(a: int, b: int): int
  {
    if a <= b then a else b
  }

  /** How many cards one copy of card `k` (0-based) ends up as: itself, plus what
      each of the cards it wins ends up as. Cards past the last are cut off, which
      only matters when the table is not `InRange`. */
  function Copies(cards: seq<Card>, k: nat): (r: nat)
    requires k < |cards|
    ensures r >= 1
    decreases |cards| - k, 0, 0
  {
    1 + CopiesRange(cards, k + 1, Min(k + 1 + cards[k].numMatches, |cards|))
  }

  /** The copies of cards `lo` to `hi - 1`. */
  function CopiesRange(cards: seq<Card>, lo: nat, hi: nat): (r: nat)
    requires lo <= hi <= |cards|
    ensures r >= hi - lo
    decreases |cards| - lo, 1, hi - lo
  {
    if lo == hi then 0 else CopiesRange(cards, lo, hi - 1) + Copies(cards, hi - 1)
  }

  /** The number of scratchcards in the end: the copies of every original card. */
  function TotalCopies(cards: seq<Card>): (r: nat)
    ensures r >= |cards|
  {
    CopiesRange(cards, 0, |cards|)
  }

  /** Without any match every card stays a single card. */
  lemma {:induction false} NoMatchesRange(cards: seq<Card>, lo: nat, hi: nat)
    requires lo <= hi <= |cards|
    requires forall k :: 0 <= k < |cards| ==> cards[k].numMatches == 0
    ensures CopiesRange(cards, lo, hi) == hi - lo
    decreases hi - lo
  {
    if lo < hi {
      NoMatchesRange(cards, lo, hi - 1);
      assert Copies(cards, hi - 1) == 1 + CopiesRange(cards, hi, hi);
    }
  }

  /** A table without matches ends with just its original cards. */
  lemma NoMatchesTotal(cards: seq<Card>)
    requires forall k :: 0 <= k < |cards| ==> cards[k].numMatches == 0
    ensures TotalCopies(cards) == |cards|
  {
    NoMatchesRange(cards, 0, |cards|);
  }

  /** A table whose last card has a match copies past its end. */
  lemma LastCardOutOfRange(cards: seq<Card>)
    requires Numbered(cards) && cards != [] && cards[|cards| - 1].numMatches > 0
    ensures !InRange(cards)
  {
  }

  /** The copies of the original cards on a stack (a card with a number off the
      table counts for nothing; `OnTable` rules those out wherever it is used). */
  function StackCopies(cards: seq<Card>, stack: seq<Card>): nat
  {
    if stack == [] then 0
    else
      var n := stack[|stack| - 1].cardNum;
      StackCopies(cards, stack[..|stack| - 1]) + (if 1 <= n <= |cards| then Copies(cards, n - 1) else 0)
  }

  /** On the full table the stack's copies are the total. */
  lemma {:induction false} StackCopiesPrefix(cards: seq<Card>, n: nat)
    requires Numbered(cards) && n <= |cards|
    ensures StackCopies(cards, cards[..n]) == CopiesRange(cards, 0, n)
  {
    if n > 0 {
      assert cards[..n][..n - 1] == cards[..n - 1];
      StackCopiesPrefix(cards, n - 1);
    }
  }

  /** Every card on the stack is one of the originals. */
  predicate OnTable(cards: seq<Card>, stack: seq<Card>)
  {
    forall j :: 0 <= j < |stack| ==>
      1 <= stack[j].cardNum <= |cards| && stack[j] == cards[stack[j].cardNum - 1]
  }

  /** Pushing cards `lo` to `hi - 1` adds their copies. */
  lemma {:induction false} StackCopiesPush(cards: seq<Card>, stack: seq<Card>, lo: nat, hi: nat)
    requires Numbered(cards) && lo <= hi <= |cards|
    ensures StackCopies(cards, stack + cards[lo..hi]) == StackCopies(cards, stack) + CopiesRange(cards, lo, hi)
    decreases hi - lo
  {
    if lo < hi {
      var s := stack + cards[lo..hi - 1];
      SnocSlice(stack, cards, lo, hi);
      StackCopiesPush(cards, stack, lo, hi - 1);
      StackPushOne(cards, s, hi - 1);
      assert CopiesRange(cards, lo, hi) == CopiesRange(cards, lo, hi - 1) + Copies(cards, hi - 1);
      assert StackCopies(cards, stack + cards[lo..hi]) == StackCopies(cards, s + [cards[hi - 1]]);
    } else {
      assert stack + cards[lo..hi] == stack;
      assert CopiesRange(cards, lo, hi) == 0;
    }
  }

  /** Appending `b[lo..hi]` is appending `b[lo..hi - 1]` and then `b[hi - 1]`. */
  lemma SnocSlice<T>(a: seq<T>, b: seq<T>, lo: nat, hi: nat)
    requires lo < hi <= |b|
    ensures a + b[lo..hi] == (a + b[lo..hi - 1]) + [b[hi - 1]]
  {
    assert b[lo..hi] == b[lo..hi - 1] + [b[hi - 1]];
  }

  /** Original cards pushed onto a stack of originals leave a stack of originals. */
  lemma OnTablePush(cards: seq<Card>, stack: seq<Card>, lo: nat, hi: nat)
    requires Numbered(cards) && OnTable(cards, stack) && lo <= hi <= |cards|
    ensures OnTable(cards, stack + cards[lo..hi])
  {
    var t := stack + cards[lo..hi];
    forall j | 0 <= j < |t| ensures 1 <= t[j].cardNum <= |cards| && t[j] == cards[t[j].cardNum - 1] {
      if j >= |stack| {
        assert t[j] == cards[lo + j - |stack|];
      }
    }
  }

  /** Pushing original card `k` (0-based) adds its copies. */
  lemma StackPushOne(cards: seq<Card>, s: seq<Card>, k: nat)
    requires Numbered(cards) && k < |cards|
    ensures StackCopies(cards, s + [cards[k]]) == StackCopies(cards, s) + Copies(cards, k)
  {
    var t := s + [cards[k]];
    assert t[..|s|] == s;
    assert t[|t| - 1].cardNum - 1 == k;
  }

  /** One round of part 2's outer loop: the popped card's copies are replaced by
      the copies of the cards it wins, one fewer in all. */
  lemma PopPush(cards: seq<Card>, stack: seq<Card>, rest: seq<Card>, c: Card)
    requires Numbered(cards) && OnTable(cards, stack) && stack != []
    requires rest == stack[..|stack| - 1] && c == stack[|stack| - 1]
    requires c.cardNum + c.numMatches <= |cards|
    ensures OnTable(cards, rest + cards[c.cardNum..c.cardNum + c.numMatches])
    ensures StackCopies(cards, rest + cards[c.cardNum..c.cardNum + c.numMatches]) + 1 == StackCopies(cards, stack)
  {
    var lo, hi := c.cardNum, c.cardNum + c.numMatches;
    StackPop(cards, stack);
    assert 1 <= c.cardNum <= |cards| && c == cards[c.cardNum - 1];
    CopiesOfCard(cards, c);
    OnTablePush(cards, rest, lo, hi);
    StackCopiesPush(cards, rest, lo, hi);
  }

  /** Popping the top card leaves originals whose copies are the stack's less the
      top card's. */
  lemma StackPop(cards: seq<Card>, stack: seq<Card>)
    requires OnTable(cards, stack) && stack != []
    ensures OnTable(cards, stack[..|stack| - 1])
    ensures StackCopies(cards, stack) ==
            StackCopies(cards, stack[..|stack| - 1]) + Copies(cards, stack[|stack| - 1].cardNum - 1)
  {
  }

  /** A card whose winnings stay on the table is itself and their copies. */
  lemma CopiesOfCard(cards: seq<Card>, c: Card)
    requires 1 <= c.cardNum <= |cards| && c == cards[c.cardNum - 1]
    requires c.cardNum + c.numMatches <= |cards|
    ensures Copies(cards, c.cardNum - 1) == 1 + CopiesRange(cards, c.cardNum, c.cardNum + c.numMatches)
  {
  }

  /** The inner loop of part 2: pushes one copy of each card `card` wins and
      counts each push; `IndexError` when one of them is past the last card. */
  method PushCopies(originalCards: seq<Card>, card: Card, stack: seq<Card>, totalCards: nat)
    returns (r: Result<(seq<Card>, nat)>)
    requires Numbered(originalCards) && 1 <= card.cardNum <= |originalCards|
    ensures card.cardNum + card.numMatches <= |originalCards| ==>
              r == Ok((stack + originalCards[card.cardNum..card.cardNum + card.numMatches],
                       totalCards + card.numMatches))
    ensures card.cardNum + card.numMatches > |originalCards| ==> r == Err(IndexError)
  {
    var s := stack;
    var total := totalCards;
    for i := card.cardNum + 1 to card.cardNum + card.numMatches + 1
      invariant i - 1 <= |originalCards|
      invariant s == stack + originalCards[card.cardNum..i - 1]
      invariant total == totalCards + (i - 1 - card.cardNum)
    {
      if i - 1 >= |originalCards| {
        return Err(IndexError);
      }
      s := s + [originalCards[i - 1]];
      total := total + 1;
    }
    r := Ok((s, total));
  }

  /** The originals not yet popped, `cards[..u]`, lie at the bottom of the stack
      in order, and every original already popped was within range. */
  predicate Pending(cards: seq<Card>, stack: seq<Card>, u: nat)
  {
    u <= |cards| && u <= |stack| &&
    (forall k {:trigger stack[k]} :: 0 <= k < u ==> stack[k] == cards[k]) &&
    (forall k :: u <= k < |cards| ==> cards[k].cardNum + cards[k].numMatches <= |cards|)
  }

  /** Popping the top of the stack pops an original exactly when the stack is
      down to the originals. */
  function AfterPop(stack: seq<Card>, u: nat): nat
  {
    if |stack| == u && u > 0 then u - 1 else u
  }

  /** One round of part 2's outer loop keeps `Pending`. */
  lemma PendingStep(cards: seq<Card>, stack: seq<Card>, u: nat)
    requires Numbered(cards) && OnTable(cards, stack) && Pending(cards, stack, u) && stack != []
    requires var c := stack[|stack| - 1]; c.cardNum + c.numMatches <= |cards|
    ensures var c := stack[|stack| - 1];
            Pending(cards, stack[..|stack| - 1] + cards[c.cardNum..c.cardNum + c.numMatches],
                    AfterPop(stack, u))
  {
    var c := stack[|stack| - 1];
    var rest := stack[..|stack| - 1];
    var next := rest + cards[c.cardNum..c.cardNum + c.numMatches];
    var u' := AfterPop(stack, u);
    assert u' <= |rest|;
    forall k | 0 <= k < u'
      ensures next[k] == cards[k]
    {
      assert next[k] == rest[k] == stack[k];
    }
    if |stack| == u {
      assert c == cards[u - 1];
    }
  }

  /** A card on the table that copies past the last card breaks `InRange`. */
  lemma OutOfRange(cards: seq<Card>, stack: seq<Card>)
    requires OnTable(cards, stack) && stack != []
    requires var c := stack[|stack| - 1]; c.cardNum + c.numMatches > |cards|
    ensures !InRange(cards)
  {
    var c := stack[|stack| - 1];
    assert c == cards[c.cardNum - 1];
  }

  /** Part 2 starts with every original on the stack, none popped. */
  lemma FullTable(cards: seq<Card>)
    requires Numbered(cards)
    ensures OnTable(cards, cards)
    ensures Pending(cards, cards, |cards|)
    ensures StackCopies(cards, cards) == TotalCopies(cards)
  {
    forall j | 0 <= j < |cards|
      ensures cards[j] == cards[cards[j].cardNum - 1]
    {
    }
    StackCopiesPrefix(cards, |cards|);
    assert cards[..|cards|] == cards;
  }

  /** One round of part 2's outer loop: pops the top card and pushes one copy of
      each card it wins. The stack's copies drop by one while the count of cards
      grows by the copies pushed, so the two together still add up to the total;
      `IndexError` only when the table is not `InRange`. */
  method PopRound(originalCards: seq<Card>, stack: seq<Card>, totalCards: nat, ghost u: nat)
    returns (r: Result<(seq<Card>, nat)>)
    requires Numbered(originalCards) && OnTable(originalCards, stack) && stack != []
    requires Pending(originalCards, stack, u)
    ensures r.Err? ==> r == Err(IndexError) && !InRange(originalCards)
    ensures r.Ok? ==>
              var (next, total) := r.value;
              OnTable(originalCards, next) && Pending(originalCards, next, AfterPop(stack, u)) &&
              StackCopies(originalCards, next) < StackCopies(originalCards, stack) &&
              total + StackCopies(originalCards, next) - |next| ==
                totalCards + StackCopies(originalCards, stack) - |stack|
  {
    var card := stack[|stack| - 1];
    r := PushCopies(originalCards, card, stack[..|stack| - 1], totalCards);
    if r.Err? {
      OutOfRange(originalCards, stack);
    } else {
      PopPush(originalCards, stack, stack[..|stack| - 1], card);
      PendingStep(originalCards, stack, u);
    }
  }

  /** The stack-driven expansion: pops a card, pushes one copy of each card it
      wins and counts every push; fails with `IndexError` when a card would copy a
      card past the last. */
  method Part2(originalCards: seq<Card>) returns (r: Result<nat>)
    requires Numbered(originalCards)
    ensures r == if InRange(originalCards) then Ok(TotalCopies(originalCards)) else Err(IndexError)
  {
    var n := |originalCards|;
    var totalCards := n;
    var stack := originalCards;
    ghost var unpopped: nat := n;
    FullTable(originalCards);
    while |stack| > 0
      invariant OnTable(originalCards, stack)
      invariant Pending(originalCards, stack, unpopped)
      invariant totalCards + StackCopies(originalCards, stack) - |stack| == TotalCopies(originalCards)
      decreases StackCopies(originalCards, stack)
    {
      var popped := PopRound(originalCards, stack, totalCards, unpopped);
      if popped.Err? {
        return Err(IndexError);
      }
      unpopped := AfterPop(stack, unpopped);
      stack, totalCards := popped.value.0, popped.value.1;
    }
    assert InRange(originalCards);
    assert StackCopies(originalCards, stack) == 0;
    r := Ok(totalCards);
  }
}
