/** The sample table of six scratchcards, as matched. */
module ScratchcardsSamples {
  import opened Wrappers
  import opened Scratchcards

  /** The six sample cards with their numbers of matches. */
  const Sample: seq<Card> :=
    [Card(1, 4), Card(2, 2), Card(3, 2), Card(4, 1), Card(5, 0), Card(6, 0)]

  /** The fourth sample card's halves share only 84. */
  lemma SampleCard4Matches(w: seq<string>, h: seq<string>)
    requires w == ["41", "92", "73", "84", "69"]
    requires h == ["59", "84", "76", "51", "58", "5", "54", "83"]
    ensures NumMatches(w, h) == 1
  {
    forall x | x in Elements(w) * Elements(h) ensures x == "84" {
      assert x in w && x in h;
      assert x[0] in "41972386" && x[0] in "5874";
    }
    assert "84" in Elements(w) * Elements(h);
    assert Elements(w) * Elements(h) == {"84"};
  }

  /** The sample cards score 8 + 2 + 2 + 1 = 13 points. */
  lemma SamplePoints(cards: seq<Card>)
    requires cards == Sample
    ensures TotalPoints(cards) == 13
  {
    assert Points(4) == 8 && Points(2) == 2 && Points(1) == 1 && Points(0) == 0;
    assert TotalPoints(cards[..1]) == 8 by { assert cards[..1][..0] == []; }
    assert TotalPoints(cards[..2]) == 10 by { assert cards[..2][..1] == cards[..1]; }
    assert TotalPoints(cards[..3]) == 12 by { assert cards[..3][..2] == cards[..2]; }
    assert TotalPoints(cards[..4]) == 13 by { assert cards[..4][..3] == cards[..3]; }
    assert TotalPoints(cards[..5]) == 13 by { assert cards[..5][..4] == cards[..4]; }
    assert cards[..6] == cards;
    assert cards[..6][..5] == cards[..5];
  }

  /** Cards 6, 5 and 4 (0-based 5, 4, 3) end up as one, one and two cards. */
  lemma SampleCopiesLast(cards: seq<Card>)
    requires cards == Sample
    ensures Copies(cards, 5) == 1 && Copies(cards, 4) == 1 && Copies(cards, 3) == 2
  {
  }

  /** Cards 3 and 2 end up as four and seven cards. */
  lemma SampleCopiesMiddle(cards: seq<Card>)
    requires cards == Sample
    ensures Copies(cards, 2) == 4 && Copies(cards, 1) == 7
  {
    SampleCopiesLast(cards);
    assert CopiesRange(cards, 3, 5) == 3;
    assert CopiesRange(cards, 2, 4) == 6;
  }

  /** Card 1 ends up as fifteen cards. */
  lemma SampleCopiesFirst(cards: seq<Card>)
    requires cards == Sample
    ensures Copies(cards, 0) == 15
  {
    SampleCopiesLast(cards);
    SampleCopiesMiddle(cards);
    assert CopiesRange(cards, 1, 3) == 11;
    assert CopiesRange(cards, 1, 5) == 14;
  }

  /** The sample's cards end up as 30 scratchcards, the answer part 2 returns. */
  lemma SampleCopies(cards: seq<Card>)
    requires cards == Sample
    ensures Numbered(cards) && InRange(cards)
    ensures TotalCopies(cards) == 30
  {
    SampleCopiesLast(cards);
    SampleCopiesMiddle(cards);
    SampleCopiesFirst(cards);
    assert CopiesRange(cards, 0, 3) == 26;
    assert CopiesRange(cards, 0, 6) == 30;
  }
}
