// With more than five cards, determine_hand keeps the five highest after a
// stable sort, so among equal ranks at the cut the one that came first in
// the hand is dropped. The category can then depend on the order of the
// cards: the same six cards make a straight flush in one order and only a
// straight in another.
//
// As in the five-card examples, the sorting and the classification of each
// literal hand are separate lemmas, and the hands are passed as parameters
// equal to the literals: with the literal itself in the goal the solver
// unfolds the classifier on it and runs out of resources.
module SixCards {
  import opened Cards
  import opened Sorting
  import opened Categories
  import opened Classifier

  lemma SortSix(a: Card, b: Card, c: Card, d: Card, e: Card, f: Card)
    ensures SortCards([a, b, c, d, e, f]) == Insert(a, Insert(b, Insert(c, Insert(d, Insert(e, Insert(f, []))))))
  {
    SortCardsCons(f, []);
    SortCardsCons(e, [f]);
    SortCardsCons(d, [e, f]);
    SortCardsCons(c, [d, e, f]);
    SortCardsCons(b, [c, d, e, f]);
    SortCardsCons(a, [b, c, d, e, f]);
  }

  /** Reduces the classification of a six-card hand to its sorted form. */
  lemma DetermineSix(hand: seq<Card>, sorted: seq<Card>, ranks: seq<Rank>, suits: set<Suit>)
    requires |hand| == 6
    requires Insert(hand[0], Insert(hand[1], Insert(hand[2], Insert(hand[3], Insert(hand[4], Insert(hand[5], [])))))) == sorted
    requires Ranks(sorted[1..]) == ranks && SuitSet(sorted[1..]) == suits
    ensures |ranks| == 5
    ensures DetermineHand(hand) == ClassifySorted(ranks, suits)
  {
    assert hand == [hand[0], hand[1], hand[2], hand[3], hand[4], hand[5]];
    SortSix(hand[0], hand[1], hand[2], hand[3], hand[4], hand[5]);
    assert TopFive(hand) == sorted[1..];
  }

  lemma ClubTwoFirstSorted()
    ensures Insert(Card(Two, Clubs), Insert(Card(Three, Clubs), Insert(Card(Four, Clubs), Insert(Card(Five, Clubs), Insert(Card(Six, Clubs), Insert(Card(Two, Diamonds), []))))))
         == [Card(Two, Clubs), Card(Two, Diamonds), Card(Three, Clubs), Card(Four, Clubs), Card(Five, Clubs), Card(Six, Clubs)]
  {}

  lemma DiamondTwoFirstSorted()
    ensures Insert(Card(Two, Diamonds), Insert(Card(Three, Clubs), Insert(Card(Four, Clubs), Insert(Card(Five, Clubs), Insert(Card(Six, Clubs), Insert(Card(Two, Clubs), []))))))
         == [Card(Two, Diamonds), Card(Two, Clubs), Card(Three, Clubs), Card(Four, Clubs), Card(Five, Clubs), Card(Six, Clubs)]
  {}

  lemma ClubTwoFirstClassified()
    ensures [Card(Two, Clubs), Card(Two, Diamonds), Card(Three, Clubs), Card(Four, Clubs), Card(Five, Clubs), Card(Six, Clubs)][1..]
         == [Card(Two, Diamonds), Card(Three, Clubs), Card(Four, Clubs), Card(Five, Clubs), Card(Six, Clubs)]
    ensures Ranks([Card(Two, Diamonds), Card(Three, Clubs), Card(Four, Clubs), Card(Five, Clubs), Card(Six, Clubs)]) == [Two, Three, Four, Five, Six]
    ensures SuitSet([Card(Two, Diamonds), Card(Three, Clubs), Card(Four, Clubs), Card(Five, Clubs), Card(Six, Clubs)]) == {Diamonds, Clubs}
    ensures ClassifySorted([Two, Three, Four, Five, Six], {Diamonds, Clubs}) == Straight
  {}

  lemma DiamondTwoFirstClassified()
    ensures [Card(Two, Diamonds), Card(Two, Clubs), Card(Three, Clubs), Card(Four, Clubs), Card(Five, Clubs), Card(Six, Clubs)][1..]
         == [Card(Two, Clubs), Card(Three, Clubs), Card(Four, Clubs), Card(Five, Clubs), Card(Six, Clubs)]
    ensures Ranks([Card(Two, Clubs), Card(Three, Clubs), Card(Four, Clubs), Card(Five, Clubs), Card(Six, Clubs)]) == [Two, Three, Four, Five, Six]
    ensures SuitSet([Card(Two, Clubs), Card(Three, Clubs), Card(Four, Clubs), Card(Five, Clubs), Card(Six, Clubs)]) == {Clubs}
    ensures ClassifySorted([Two, Three, Four, Five, Six], {Clubs}) == StraightFlush
  {}

  /** With the two of clubs first, it is the card dropped, and the rest is
      only a straight. */
  lemma ClubTwoFirstIsStraight(a: seq<Card>)
    requires a == [Card(Two, Clubs), Card(Three, Clubs), Card(Four, Clubs), Card(Five, Clubs), Card(Six, Clubs), Card(Two, Diamonds)]
    ensures DetermineHand(a) == Straight
  {
    ClubTwoFirstSorted();
    ClubTwoFirstClassified();
    DetermineSix(a, [Card(Two, Clubs), Card(Two, Diamonds), Card(Three, Clubs), Card(Four, Clubs), Card(Five, Clubs), Card(Six, Clubs)],
      [Two, Three, Four, Five, Six], {Diamonds, Clubs});
  }

  /** With the two of diamonds first, it is the card dropped, and the clubs
      make a straight flush. */
  lemma DiamondTwoFirstIsStraightFlush(b: seq<Card>)
    requires b == [Card(Two, Diamonds), Card(Three, Clubs), Card(Four, Clubs), Card(Five, Clubs), Card(Six, Clubs), Card(Two, Clubs)]
    ensures DetermineHand(b) == StraightFlush
  {
    DiamondTwoFirstSorted();
    DiamondTwoFirstClassified();
    DetermineSix(b, [Card(Two, Diamonds), Card(Two, Clubs), Card(Three, Clubs), Card(Four, Clubs), Card(Five, Clubs), Card(Six, Clubs)],
      [Two, Three, Four, Five, Six], {Clubs});
  }

  lemma SameSixCards()
    ensures multiset([Card(Two, Clubs), Card(Three, Clubs), Card(Four, Clubs), Card(Five, Clubs), Card(Six, Clubs), Card(Two, Diamonds)])
         == multiset([Card(Two, Diamonds), Card(Three, Clubs), Card(Four, Clubs), Card(Five, Clubs), Card(Six, Clubs), Card(Two, Clubs)])
  {}

  /** The same six cards, two orders, two categories: order independence
      holds for five cards only. */
  lemma SixCardOrderMatters(a: seq<Card>, b: seq<Card>)
    requires a == [Card(Two, Clubs), Card(Three, Clubs), Card(Four, Clubs), Card(Five, Clubs), Card(Six, Clubs), Card(Two, Diamonds)]
    requires b == [Card(Two, Diamonds), Card(Three, Clubs), Card(Four, Clubs), Card(Five, Clubs), Card(Six, Clubs), Card(Two, Clubs)]
    ensures multiset(a) == multiset(b)
    ensures DetermineHand(a) != DetermineHand(b)
  {
    ClubTwoFirstIsStraight(a);
    DiamondTwoFirstIsStraightFlush(b);
    SameSixCards();
  }
}
